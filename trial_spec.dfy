/**
  The trial as a state machine over events.  The host's timers and keyboard
  become events: the fixation timer, the search-array timer, a key press and
  the trial-duration timeout.  A timer that is not pending, or a key press
  while no listener is registered, finds no callback to run and changes
  nothing.  `Step` is the specification the event methods of
  TrialMachine.Trial are proved against.
*/
module TrialSpec {
  import opened Js
  import opened TrialConfig
  import opened Layout
  import opened Stimuli
  import opened Scoring

  datatype Phase = Fixation | SearchArray | ResponseWait | Ended

  /** A key press carries the key, its raw reaction time and whether the key is being held. */
  datatype Event = FixationTimer | SearchTimer | KeyPress(key: Key, rt: int, held: bool) | Timeout

  /** What the trial computes once, before the fixation is shown. */
  datatype Setup = Setup(cfg: Config, foil: seq<Image>, displayLocs: seq<Loc>)

  /** The foil is normalised and there is one location per slot. */
  predicate SetupValid(t: Setup)
  {
    && t.foil == NormalisedFoil(t.cfg.foil, t.cfg.setSize)
    && |t.displayLocs| == SlotCount(t.cfg.setSize)
  }

  /**
    The trial's state: the phase, the images on the paper, the `trial_over`
    flag, which timers are pending, whether the key listener is registered,
    and every record handed to the runner so far.
  */
  datatype State = State(
    phase: Phase,
    display: seq<Element>,
    trialOver: bool,
    fixationTimer: bool,
    searchTimer: bool,
    timeoutTimer: bool,
    listening: bool,
    finished: seq<TrialData>)

  function Rank(p: Phase): nat
  {
    match p
    case Fixation => 0
    case SearchArray => 1
    case ResponseWait => 2
    case Ended => 3
  }

  /** The state after `show_fixation`: the fixation image alone, its timer pending. */
  function Init(t: Setup): State
  {
    State(Fixation, [FixationElement(t.cfg)], false, true, false, false, false, [])
  }

  /** A key the listener accepts: one the comparator matches with either response key. */
  predicate ValidKey(c: Config, keysMatch: (Key, Key) -> bool, key: Key)
  {
    keysMatch(key, c.target1Key) || keysMatch(key, c.target2Key)
  }

  /** The record a key press produces. */
  function KeyRecord(t: Setup, keysMatch: (Key, Key) -> bool, key: Key, rt: int): TrialData
  {
    EndTrialData(t.cfg, t.displayLocs, Value(rt), BoolValue(Correct(t.cfg, keysMatch, key)), Value(key))
  }

  /** The record a timeout produces: `null` reaction time, `correct` 0, `null` response. */
  function TimeoutRecord(t: Setup): TrialData
  {
    EndTrialData(t.cfg, t.displayLocs, Null, NumberZero, Null)
  }

  /** One event. */
  function Step(t: Setup, keysMatch: (Key, Key) -> bool, s: State, e: Event): State
  {
    match e
    case FixationTimer =>
      if !s.fixationTimer then s
      else s.(phase := SearchArray, fixationTimer := false, searchTimer := true,
              display := s.display + CircleElements(t.cfg, t.foil, t.displayLocs) + FlankerElements(t.cfg))
    case SearchTimer =>
      if !s.searchTimer then s
      else s.(phase := ResponseWait, searchTimer := false, display := [], trialOver := false,
              listening := true, timeoutTimer := t.cfg.trialDuration.Value?)
    case KeyPress(key, rt, held) =>
      if !s.listening || held || !ValidKey(t.cfg, keysMatch, key) then s
      else s.(phase := Ended, listening := false, trialOver := true,
              finished := s.finished + [KeyRecord(t, keysMatch, key, rt)])
    case Timeout =>
      if !s.timeoutTimer then s
      else if s.trialOver then s.(timeoutTimer := false)
      else s.(phase := Ended, timeoutTimer := false, listening := false, trialOver := true, display := [],
              finished := s.finished + [TimeoutRecord(t)])
  }

  /** A sequence of events, in order. */
  function Run(t: Setup, keysMatch: (Key, Key) -> bool, s: State, es: seq<Event>): State
    decreases |es|
  {
    if es == [] then s else Run(t, keysMatch, Step(t, keysMatch, s, es[0]), es[1..])
  }

  /** The phase before each event of `es` and after the last one. */
  function Phases(t: Setup, keysMatch: (Key, Key) -> bool, s: State, es: seq<Event>): (ps: seq<Phase>)
    decreases |es|
  {
    if es == [] then [s.phase] else [s.phase] + Phases(t, keysMatch, Step(t, keysMatch, s, es[0]), es[1..])
  }

  /** A record the trial can hand over: a key-press record for an accepted key, or the timeout record. */
  predicate ProperRecord(t: Setup, keysMatch: (Key, Key) -> bool, d: TrialData)
  {
    || (&& d.response.Value?
        && ValidKey(t.cfg, keysMatch, d.response.value)
        && d == KeyRecord(t, keysMatch, d.response.value, d.rt - t.cfg.searchArrayDuration))
    || (t.cfg.trialDuration.Value? && d == TimeoutRecord(t))
  }

  /**
    The invariant of every reachable state.  Before the response screen the
    paper holds the fixation image, then also the circle and the flankers;
    from the response screen on it is empty.  Only the current phase's timer
    or listener is pending, and exactly one record exists once the trial has
    ended, none before.
  */
  predicate Consistent(t: Setup, keysMatch: (Key, Key) -> bool, s: State)
  {
    match s.phase
    case Fixation => s == Init(t)
    case SearchArray =>
      s == State(SearchArray, SearchDisplay(t.cfg, t.foil, t.displayLocs), false, false, true, false, false, [])
    case ResponseWait =>
      s == State(ResponseWait, [], false, false, false, t.cfg.trialDuration.Value?, true, [])
    case Ended =>
      && s.display == [] && s.trialOver
      && !s.fixationTimer && !s.searchTimer && !s.listening
      && (s.timeoutTimer ==> t.cfg.trialDuration.Value?)
      && |s.finished| == 1 && ProperRecord(t, keysMatch, s.finished[0])
  }

  lemma InitConsistent(t: Setup, keysMatch: (Key, Key) -> bool)
    ensures Consistent(t, keysMatch, Init(t))
  {
  }

  lemma StepConsistent(t: Setup, keysMatch: (Key, Key) -> bool, s: State, e: Event)
    requires Consistent(t, keysMatch, s)
    ensures Consistent(t, keysMatch, Step(t, keysMatch, s, e))
  {
    var s' := Step(t, keysMatch, s, e);
    if s.phase == ResponseWait && s'.phase == Ended && e.KeyPress? {
      assert s'.finished[0] == KeyRecord(t, keysMatch, e.key, e.rt);
    }
  }

  /**
    One event moves the trial forward by at most one phase, and each move has
    exactly one cause: the fixation timer ends the fixation, the search-array
    timer ends the search array, and an accepted key press or the timeout ends
    the response wait.  No key press is acted on before the response screen.
  */
  lemma StepOrder(t: Setup, keysMatch: (Key, Key) -> bool, s: State, e: Event)
    requires Consistent(t, keysMatch, s)
    ensures var s' := Step(t, keysMatch, s, e);
      && Rank(s.phase) <= Rank(s'.phase) <= Rank(s.phase) + 1
      && (s.phase == Fixation ==> (s'.phase == SearchArray <==> e.FixationTimer?))
      && (s.phase == SearchArray ==> (s'.phase == ResponseWait <==> e.SearchTimer?))
      && (s.phase == ResponseWait ==>
            (s'.phase == Ended <==>
               (e.Timeout? && t.cfg.trialDuration.Value?)
               || (e.KeyPress? && !e.held && ValidKey(t.cfg, keysMatch, e.key))))
      && (s.phase in {Fixation, SearchArray} && e.KeyPress? ==> s' == s)
  {
  }

  /** Every state a run reaches from a consistent state is consistent. */
  lemma {:induction false} RunConsistent(t: Setup, keysMatch: (Key, Key) -> bool, s: State, es: seq<Event>)
    requires Consistent(t, keysMatch, s)
    ensures Consistent(t, keysMatch, Run(t, keysMatch, s, es))
    decreases |es|
  {
    if es != [] {
      StepConsistent(t, keysMatch, s, es[0]);
      RunConsistent(t, keysMatch, Step(t, keysMatch, s, es[0]), es[1..]);
    }
  }

  /**
    Single finalisation: whatever events arrive, in whatever order, the trial
    hands over at most one record, and it has handed one over exactly when it
    has ended.
  */
  lemma FinishesAtMostOnce(t: Setup, keysMatch: (Key, Key) -> bool, es: seq<Event>)
    ensures var s := Run(t, keysMatch, Init(t), es);
      |s.finished| <= 1 && (|s.finished| == 1 <==> s.phase == Ended)
  {
    RunConsistent(t, keysMatch, Init(t), es);
  }

  /**
    Phase order: along any run the phases never go back and never skip one,
    so the trial passes through Fixation, SearchArray, ResponseWait and Ended
    in that order, and never revisits a phase.
  */
  lemma {:induction false} PhasesInOrder(t: Setup, keysMatch: (Key, Key) -> bool, s: State, es: seq<Event>)
    requires Consistent(t, keysMatch, s)
    ensures var ps := Phases(t, keysMatch, s, es);
      && |ps| == |es| + 1
      && ps[0] == s.phase
      && ps[|es|] == Run(t, keysMatch, s, es).phase
      && (forall i, j :: 0 <= i <= j < |ps| ==> Rank(ps[i]) <= Rank(ps[j]))
      && (forall i :: 0 <= i < |es| ==> Rank(ps[i + 1]) <= Rank(ps[i]) + 1)
    decreases |es|
  {
    if es != [] {
      var s' := Step(t, keysMatch, s, es[0]);
      StepOrder(t, keysMatch, s, es[0]);
      StepConsistent(t, keysMatch, s, es[0]);
      PhasesInOrder(t, keysMatch, s', es[1..]);
      var ps := Phases(t, keysMatch, s, es);
      var rest := Phases(t, keysMatch, s', es[1..]);
      assert ps == [s.phase] + rest;
      forall i, j | 0 <= i <= j < |ps|
        ensures Rank(ps[i]) <= Rank(ps[j])
      {
        if i == 0 && j > 0 {
          assert Rank(rest[0]) <= Rank(rest[j - 1]);
        }
      }
      forall i | 0 <= i < |es|
        ensures Rank(ps[i + 1]) <= Rank(ps[i]) + 1
      {
        if i > 0 {
          assert ps[i] == rest[i - 1] && ps[i + 1] == rest[i];
        }
      }
    }
  }

  /**
    Once the trial has ended nothing it shows or records changes again: the
    paper stays empty, no listener comes back and the one record stays as it
    is; a timeout firing after a key press only discards its own timer.
  */
  lemma {:induction false} EndedIsFinal(t: Setup, keysMatch: (Key, Key) -> bool, s: State, es: seq<Event>)
    requires Consistent(t, keysMatch, s) && s.phase == Ended
    ensures var s' := Run(t, keysMatch, s, es);
      s'.phase == Ended && s'.display == [] && !s'.listening && s'.trialOver && s'.finished == s.finished
    decreases |es|
  {
    if es != [] {
      StepConsistent(t, keysMatch, s, es[0]);
      EndedIsFinal(t, keysMatch, Step(t, keysMatch, s, es[0]), es[1..]);
    }
  }

  /**
    Display contents by phase: one image during the fixation; the fixation
    image, `set_size` circle images and the two flankers during the search
    array; nothing from the response screen on.
  */
  lemma DisplayByPhase(t: Setup, keysMatch: (Key, Key) -> bool, s: State)
    requires SetupValid(t) && Consistent(t, keysMatch, s)
    ensures s.phase == Fixation ==> s.display == [FixationElement(t.cfg)]
    ensures s.phase == SearchArray ==>
      && |s.display| == 1 + SlotCount(t.cfg.setSize) + 2
      && s.display[0] == FixationElement(t.cfg)
      && s.display[1..1 + SlotCount(t.cfg.setSize)] == CircleElements(t.cfg, t.foil, t.displayLocs)
      && s.display[1 + SlotCount(t.cfg.setSize)..] == FlankerElements(t.cfg)
    ensures s.phase in {ResponseWait, Ended} ==> s.display == []
  {
  }

  /**
    An accepted key press during the response wait ends the trial with the
    key-press record: `correct` from the correctness rule, the raw time plus
    `search_array_duration`, the key as the response and the slot locations.
  */
  lemma KeyPressEnds(t: Setup, keysMatch: (Key, Key) -> bool, s: State, key: Key, rt: int)
    requires Consistent(t, keysMatch, s) && s.phase == ResponseWait
    requires ValidKey(t.cfg, keysMatch, key)
    ensures var s' := Step(t, keysMatch, s, KeyPress(key, rt, false));
      && s'.phase == Ended && !s'.listening && s'.display == []
      && s'.finished == [TrialData(BoolValue(keysMatch(key, t.cfg.target1Key) && t.cfg.target == Target1Image),
                                   rt + t.cfg.searchArrayDuration, Value(key), t.displayLocs,
                                   t.cfg.target, t.cfg.setSize, t.cfg.flankerImage)]
  {
  }

  /**
    The timeout during the response wait cancels the listener, clears the
    paper and ends the trial with `correct` 0, `null` response, and a recorded
    `rt` equal to `search_array_duration` (`null + n` is `n`).
  */
  lemma TimeoutEnds(t: Setup, keysMatch: (Key, Key) -> bool, s: State)
    requires Consistent(t, keysMatch, s) && s.phase == ResponseWait && t.cfg.trialDuration.Value?
    ensures var s' := Step(t, keysMatch, s, Timeout);
      && s'.phase == Ended && !s'.listening && s'.display == []
      && s'.finished == [TrialData(NumberZero, t.cfg.searchArrayDuration, Null, t.displayLocs,
                                   t.cfg.target, t.cfg.setSize, t.cfg.flankerImage)]
  {
  }

  /**
    Without a trial duration no timeout is ever pending, so a trial that has
    ended was ended by an accepted key press, whatever the events were.
  */
  lemma UntimedEndsOnlyByKey(t: Setup, keysMatch: (Key, Key) -> bool, es: seq<Event>)
    requires t.cfg.trialDuration.Null?
    ensures var s := Run(t, keysMatch, Init(t), es);
      && !s.timeoutTimer
      && (s.phase == Ended ==>
            |s.finished| == 1 && s.finished[0].response.Value?
            && ValidKey(t.cfg, keysMatch, s.finished[0].response.value))
  {
    RunConsistent(t, keysMatch, Init(t), es);
  }

  /** The first event of a run is applied first. */
  lemma RunUnfold(t: Setup, keysMatch: (Key, Key) -> bool, s: State, e: Event, es: seq<Event>)
    ensures Run(t, keysMatch, s, [e] + es) == Run(t, keysMatch, Step(t, keysMatch, s, e), es)
  {
    assert ([e] + es)[1..] == es;
  }

  /** The fixation timer and then the search-array timer bring the trial to the response wait. */
  lemma ReachResponseWait(t: Setup, keysMatch: (Key, Key) -> bool)
    ensures var s := Step(t, keysMatch, Step(t, keysMatch, Init(t), FixationTimer), SearchTimer);
      Consistent(t, keysMatch, s) && s.phase == ResponseWait
  {
    InitConsistent(t, keysMatch);
    StepConsistent(t, keysMatch, Init(t), FixationTimer);
    StepOrder(t, keysMatch, Init(t), FixationTimer);
    var s1 := Step(t, keysMatch, Init(t), FixationTimer);
    StepConsistent(t, keysMatch, s1, SearchTimer);
    StepOrder(t, keysMatch, s1, SearchTimer);
  }

  /**
    A full trial answered with the target-1 key: fixation, search array,
    response screen, then the key press, recorded with `rt` the raw time plus
    `search_array_duration` and one location per slot.
  */
  lemma AnsweredTrial(t: Setup, keysMatch: (Key, Key) -> bool, key: Key, rt: int)
    requires SetupValid(t) && keysMatch(key, t.cfg.target1Key)
    ensures var s := Run(t, keysMatch, Init(t), [FixationTimer, SearchTimer, KeyPress(key, rt, false)]);
      && s.phase == Ended
      && |s.finished| == 1
      && s.finished[0].rt == rt + t.cfg.searchArrayDuration
      && s.finished[0].response == Value(key)
      && s.finished[0].correct == BoolValue(t.cfg.target == Target1Image)
      && |s.finished[0].locations| == SlotCount(t.cfg.setSize)
  {
    var k := KeyPress(key, rt, false);
    var s1 := Step(t, keysMatch, Init(t), FixationTimer);
    var s2 := Step(t, keysMatch, s1, SearchTimer);
    ReachResponseWait(t, keysMatch);
    KeyPressEnds(t, keysMatch, s2, key, rt);
    RunUnfold(t, keysMatch, s2, k, []);
    RunUnfold(t, keysMatch, s1, SearchTimer, [k]);
    RunUnfold(t, keysMatch, Init(t), FixationTimer, [SearchTimer, k]);
    assert [FixationTimer] + ([SearchTimer] + [k]) == [FixationTimer, SearchTimer, k];
  }

  /**
    A full trial that times out: the record says `null` response, `correct`
    0 and `rt` equal to `search_array_duration`, and a key pressed afterwards
    is ignored.
  */
  lemma TimedOutTrial(t: Setup, keysMatch: (Key, Key) -> bool, key: Key, rt: int)
    requires t.cfg.trialDuration.Value?
    ensures var s := Run(t, keysMatch, Init(t), [FixationTimer, SearchTimer, Timeout, KeyPress(key, rt, false)]);
      && s.phase == Ended
      && s.finished == [TrialData(NumberZero, t.cfg.searchArrayDuration, Null, t.displayLocs,
                                  t.cfg.target, t.cfg.setSize, t.cfg.flankerImage)]
  {
    var k := KeyPress(key, rt, false);
    var s1 := Step(t, keysMatch, Init(t), FixationTimer);
    var s2 := Step(t, keysMatch, s1, SearchTimer);
    var s3 := Step(t, keysMatch, s2, Timeout);
    ReachResponseWait(t, keysMatch);
    TimeoutEnds(t, keysMatch, s2);
    StepConsistent(t, keysMatch, s2, Timeout);
    EndedIsFinal(t, keysMatch, s3, [k]);
    RunUnfold(t, keysMatch, s2, Timeout, [k]);
    RunUnfold(t, keysMatch, s1, SearchTimer, [Timeout, k]);
    RunUnfold(t, keysMatch, Init(t), FixationTimer, [SearchTimer, Timeout, k]);
    assert [FixationTimer] + ([SearchTimer] + ([Timeout] + [k])) == [FixationTimer, SearchTimer, Timeout, k];
  }
}
