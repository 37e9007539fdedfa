/**
  The trial object: the state the plugin's closures share, updated in place
  by the callbacks the host runs.  The constructor does the work of the
  trial entry point up to and including `show_fixation`; each event method is
  the callback the host would run for that event, and is proved to make the
  step TrialSpec.Step describes.
*/
module TrialMachine {
  import opened Js
  import opened TrialConfig
  import opened Layout
  import opened Stimuli
  import opened Scoring
  import opened TrialSpec

  /**
    The loop of `show_search_array` that appends one image per slot location
    to the paper: slot `i` gets `to_present[i]` at location `i`.
  */
  method AppendCircle(paper: seq<Element>, c: Config, foil: seq<Image>, locs: seq<Loc>) returns (r: seq<Element>)
    ensures r == paper + CircleElements(c, foil, locs)
  {
    var toPresent := ToPresent(c, foil);
    ghost var circle := CircleElements(c, foil, locs);
    r := paper;
    var i := 0;
    while i < |locs|
      invariant 0 <= i <= |locs|
      invariant r == paper + circle[..i]
    {
      r := r + [Element(SlotImage(toPresent, i), locs[i].top, locs[i].left, c.targetSize.first, c.targetSize.second)];
      assert circle[..i + 1] == circle[..i] + [circle[i]];
      i := i + 1;
    }
    assert circle[..i] == circle;
  }

  class Trial {
    /** The parameters, the normalised foil and the slot locations, fixed at the start. */
    const setup: Setup
    /** The host's key comparator (`compareKeys`). */
    const keysMatch: (Key, Key) -> bool

    var phase: Phase
    /** The images on the paper, in the order they were appended. */
    var display: seq<Element>
    /** `trial_over`. */
    var trialOver: bool
    var fixationTimerPending: bool
    var searchTimerPending: bool
    var timeoutPending: bool
    /** Whether the single-shot key listener is registered. */
    var listening: bool
    /** Every record handed to `finishTrial`. */
    var finished: seq<TrialData>

    function Snapshot(): State
      reads this
    {
      State(phase, display, trialOver, fixationTimerPending, searchTimerPending, timeoutPending, listening, finished)
    }

    ghost predicate Valid()
      reads this
    {
      SetupValid(setup) && Consistent(setup, keysMatch, Snapshot())
    }

    /**
      Starts a trial: computes the slot locations (`place` gives the position
      of a slot at the random angle `randomOffset`), normalises the foil,
      shows the fixation image and schedules the fixation timer.
    */
    constructor (cfg: Config, randomOffset: int, place: (int, nat) -> Loc, keysMatch: (Key, Key) -> bool)
      requires 0 <= randomOffset < 360
      ensures Valid()
      ensures setup.cfg == cfg && this.keysMatch == keysMatch
      ensures forall i :: 0 <= i < |setup.displayLocs| ==> setup.displayLocs[i] == place(randomOffset, i)
      ensures Snapshot() == Init(setup)
    {
      var locs := DisplayLocs(cfg.setSize, randomOffset, place);
      var foil := NormaliseFoil(cfg.foil, cfg.setSize);
      setup := Setup(cfg, foil, locs);
      this.keysMatch := keysMatch;
      phase := Fixation;
      display := [];
      trialOver := false;
      searchTimerPending := false;
      timeoutPending := false;
      listening := false;
      finished := [];
      new;
      // show_fixation
      display := display + [FixationElement(cfg)];
      fixationTimerPending := true;
    }

    /** The fixation timer: `show_search_array` appends the circle and the flankers. */
    method FixationTimerFired()
      requires Valid()
      modifies this
      ensures Valid()
      ensures Snapshot() == Step(setup, keysMatch, old(Snapshot()), FixationTimer)
    {
      ghost var before := Snapshot();
      StepConsistent(setup, keysMatch, before, FixationTimer);
      if fixationTimerPending {
        fixationTimerPending := false;
        phase := SearchArray;
        var paper := AppendCircle(display, setup.cfg, setup.foil, setup.displayLocs);
        display := paper + FlankerElements(setup.cfg);
        searchTimerPending := true;
        assert Snapshot() == Step(setup, keysMatch, before, FixationTimer);
      }
    }

    /**
      The search-array timer: `show_response_screen` clears the display,
      registers the key listener and, when a trial duration is set, schedules
      the timeout.
    */
    method SearchTimerFired()
      requires Valid()
      modifies this
      ensures Valid()
      ensures Snapshot() == Step(setup, keysMatch, old(Snapshot()), SearchTimer)
    {
      StepConsistent(setup, keysMatch, Snapshot(), SearchTimer);
      if searchTimerPending {
        searchTimerPending := false;
        phase := ResponseWait;
        display := [];
        trialOver := false;
        listening := true;
        if setup.cfg.trialDuration.Value? {
          timeoutPending := true;
        }
      }
    }

    /**
      A key press.  The listener, while registered, takes a key that matches
      either response key and is not being held, unregisters itself and runs
      `after_response`, which scores the key and ends the trial.
    */
    method KeyPressed(key: Key, rt: int, held: bool)
      requires Valid()
      modifies this
      ensures Valid()
      ensures Snapshot() == Step(setup, keysMatch, old(Snapshot()), KeyPress(key, rt, held))
    {
      StepConsistent(setup, keysMatch, Snapshot(), KeyPress(key, rt, held));
      var c := setup.cfg;
      if listening && !held && (keysMatch(key, c.target1Key) || keysMatch(key, c.target2Key)) {
        listening := false;
        trialOver := true;
        var correct := false;
        Target2ImageNeverNumeric();
        if (keysMatch(key, c.target1Key) && c.target == Target1Image)
           || (keysMatch(key, c.target2Key) && LooselyEqualsBoolString(NotString(c.target), Target2Image)) {
          correct := true;
        }
        EndTrial(Value(rt), BoolValue(correct), Value(key));
      }
    }

    /**
      The trial-duration timeout: unless the trial is already over, it
      cancels the listener, clears the display and ends the trial with no
      response.
    */
    method TimeoutFired()
      requires Valid()
      modifies this
      ensures Valid()
      ensures Snapshot() == Step(setup, keysMatch, old(Snapshot()), Timeout)
    {
      StepConsistent(setup, keysMatch, Snapshot(), Timeout);
      if timeoutPending {
        timeoutPending := false;
        if !trialOver {
          listening := false;
          trialOver := true;
          display := [];
          EndTrial(Null, NumberZero, Null);
        }
      }
    }

    /** `end_trial`: builds the record and hands it to the runner. */
    method EndTrial(rt: Nullable<int>, correct: CorrectValue, response: Nullable<Key>)
      modifies this`finished, this`phase
      ensures finished == old(finished) + [EndTrialData(setup.cfg, setup.displayLocs, rt, correct, response)]
      ensures phase == Ended
    {
      var data := TrialData(correct, PlusNullable(rt, setup.cfg.searchArrayDuration), response,
                            setup.displayLocs, setup.cfg.target, setup.cfg.setSize, setup.cfg.flankerImage);
      finished := finished + [data];
      phase := Ended;
    }
  }
}
