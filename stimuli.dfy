/**
  What the trial draws: the foil sequence (a single foil is broadcast to one
  entry per slot), the circle slots and the images shown in them, and the
  fixation, circle and flanker elements placed on the paper.
*/
module Stimuli {
  import opened TrialConfig
  import opened Layout

  /** What string concatenation writes for a missing array entry (`undefined`). */
  const UndefinedSrc: Image := "undefined"

  /**
    The foil sequence the trial uses: an array of foils is kept as it is; a
    single foil becomes one copy per iteration of a loop bounded by `set_size`.
  */
  function NormalisedFoil(foil: Foil, setSize: int): (r: seq<Image>)
    ensures foil.FoilArray? ==> r == foil.images
    ensures foil.OneFoil? ==> |r| == SlotCount(setSize)
    ensures foil.OneFoil? ==> forall i :: 0 <= i < |r| ==> r[i] == foil.image
  {
    match foil
    case FoilArray(images) => images
    case OneFoil(image) => seq(SlotCount(setSize), _ => image)
  }

  /** The source's normalisation of `foil`: a push loop when it is not an array. */
  method NormaliseFoil(foil: Foil, setSize: int) returns (r: seq<Image>)
    ensures r == NormalisedFoil(foil, setSize)
  {
    match foil {
      case FoilArray(images) =>
        r := images;
      case OneFoil(image) =>
        var fa: seq<Image> := [];
        var i := 0;
        while i < setSize
          invariant 0 <= i <= SlotCount(setSize)
          invariant |fa| == i
          invariant forall j :: 0 <= j < i ==> fa[j] == image
        {
          fa := fa + [image];
          i := i + 1;
        }
        r := fa;
    }
  }

  /**
    The circle slot locations.  `place(offset, i)` stands for the floored
    cosine and sine position of slot `i` at the random angle `offset`; the
    loop pushes one location per slot.
  */
  method DisplayLocs(setSize: int, offset: int, place: (int, nat) -> Loc) returns (locs: seq<Loc>)
    ensures |locs| == SlotCount(setSize)
    ensures forall i :: 0 <= i < |locs| ==> locs[i] == place(offset, i)
  {
    locs := [];
    var i := 0;
    while i < setSize
      invariant 0 <= i <= SlotCount(setSize)
      invariant |locs| == i
      invariant forall j :: 0 <= j < i ==> locs[j] == place(offset, j)
    {
      locs := locs + [place(offset, i)];
      i := i + 1;
    }
  }

  /** `to_present`: the target when it is present, followed by every foil. */
  function ToPresent(c: Config, foil: seq<Image>): seq<Image>
  {
    (if c.targetPresent then [c.target] else []) + foil
  }

  /** The image drawn in slot `i`: `to_present[i]`, or `undefined` past its end. */
  function SlotImage(toPresent: seq<Image>, i: nat): Image
  {
    if i < |toPresent| then toPresent[i] else UndefinedSrc
  }

  /**
    The images of the first `n` circle slots.  With the target present, slot 0
    shows it and slot `i` shows foil `i - 1`; without it, slot `i` shows foil
    `i`.  A slot with no foil left shows `undefined`.
  */
  function SlotImages(c: Config, foil: seq<Image>, n: nat): (r: seq<Image>)
    ensures |r| == n
    ensures c.targetPresent && n > 0 ==> r[0] == c.target
    ensures c.targetPresent ==> forall i :: 1 <= i < n ==> r[i] == (if i - 1 < |foil| then foil[i - 1] else UndefinedSrc)
    ensures !c.targetPresent ==> forall i :: 0 <= i < n ==> r[i] == (if i < |foil| then foil[i] else UndefinedSrc)
  {
    var toPresent := ToPresent(c, foil);
    seq(n, i requires 0 <= i < n => SlotImage(toPresent, i))
  }

  /**
    With the target present and exactly one foil per slot (as after
    normalising a single foil), the slots show the target and every foil but
    the last: the last foil is never drawn.
  */
  lemma {:induction false} LastFoilDropped(c: Config, foil: seq<Image>, n: nat)
    requires c.targetPresent && |foil| == n && n > 0
    ensures SlotImages(c, foil, n) == [c.target] + foil[..n - 1]
  {
    var r := SlotImages(c, foil, n);
    var e := [c.target] + foil[..n - 1];
    assert |r| == |e|;
    forall i | 0 <= i < n
      ensures r[i] == e[i]
    {
      if i > 0 {
        assert e[i] == foil[i - 1];
      }
    }
  }

  /**
    Without the target, and with at least one foil per slot, the slots show
    the first `n` foils; so the target is drawn in no slot unless it is one of
    those foils.
  */
  lemma {:induction false} TargetAbsentShowsFoils(c: Config, foil: seq<Image>, n: nat)
    requires !c.targetPresent && n <= |foil|
    ensures SlotImages(c, foil, n) == foil[..n]
    ensures c.target !in foil[..n] ==> c.target !in SlotImages(c, foil, n)
  {
    var r := SlotImages(c, foil, n);
    assert |r| == |foil[..n]|;
    forall i | 0 <= i < n
      ensures r[i] == foil[..n][i]
    {
    }
  }

  /**
    A single foil, normalised for `set_size` slots: without the target every
    slot shows the foil; with it, slot 0 shows the target and every other slot
    the foil.
  */
  lemma OneFoilSlots(c: Config)
    requires c.foil.OneFoil?
    ensures var n := SlotCount(c.setSize);
      var r := SlotImages(c, NormalisedFoil(c.foil, c.setSize), n);
      (!c.targetPresent ==> forall i :: 0 <= i < n ==> r[i] == c.foil.image)
      && (c.targetPresent ==> n > 0 ==> r[0] == c.target)
      && (c.targetPresent ==> forall i :: 1 <= i < n ==> r[i] == c.foil.image)
  {
  }

  /** The fixation image at the fixation location, with width and height from `fixation_size`. */
  function FixationElement(c: Config): (r: Element)
    ensures r.src == c.fixationImage
    ensures r.top == FixationLoc(c).top && r.left == FixationLoc(c).left
    ensures r.width == c.fixationSize.first && r.height == c.fixationSize.second
  {
    var loc := FixationLoc(c);
    Element(c.fixationImage, loc.top, loc.left, c.fixationSize.first, c.fixationSize.second)
  }

  /**
    One element per slot location: slot `i` shows its slot image at location
    `i`, with width `target_size[0]` and height `target_size[1]`.
  */
  function CircleElements(c: Config, foil: seq<Image>, locs: seq<Loc>): (r: seq<Element>)
    ensures |r| == |locs|
    ensures forall i :: 0 <= i < |r| ==>
      r[i] == Element(SlotImages(c, foil, |locs|)[i], locs[i].top, locs[i].left,
                      c.targetSize.first, c.targetSize.second)
  {
    var toPresent := ToPresent(c, foil);
    seq(|locs|, i requires 0 <= i < |locs| =>
      Element(SlotImage(toPresent, i), locs[i].top, locs[i].left, c.targetSize.first, c.targetSize.second))
  }

  /** The two flankers: the same image at the two flanker locations, `flankerw` wide and `flankerh` high. */
  function FlankerElements(c: Config): (r: seq<Element>)
    ensures |r| == 2 && r[0].src == r[1].src == c.flankerImage
    ensures r[0].width == r[1].width == FlankerWidth(c)
    ensures r[0].height == r[1].height == FlankerHeight(c)
    ensures r[0].top == r[1].top
    ensures forall j :: 0 <= j < 2 ==> r[j].top == FlankerLocs(c)[j].top && r[j].left == FlankerLocs(c)[j].left
  {
    var locs := FlankerLocs(c);
    [Element(c.flankerImage, locs[0].top, locs[0].left, FlankerWidth(c), FlankerHeight(c)),
     Element(c.flankerImage, locs[1].top, locs[1].left, FlankerWidth(c), FlankerHeight(c))]
  }

  /** What the paper holds during the search array: the fixation image, the circle, the flankers. */
  function SearchDisplay(c: Config, foil: seq<Image>, locs: seq<Loc>): (r: seq<Element>)
    ensures |r| == 1 + |locs| + 2
    ensures r[0] == FixationElement(c)
    ensures r[1..1 + |locs|] == CircleElements(c, foil, locs)
    ensures r[1 + |locs|..] == FlankerElements(c)
  {
    [FixationElement(c)] + CircleElements(c, foil, locs) + FlankerElements(c)
  }
}
