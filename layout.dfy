/**
  The layout arithmetic of the trial that uses only `+ - * /` and `floor`:
  the size of the square drawing area ("paper"), the fixation location and
  the two flanker locations.  The circle positions, which use cosine and sine,
  are not computed here (see Stimuli.DisplayLocs).

  Coordinates follow the source's convention: a location's first component is
  written as the CSS `top`, its second as `left`.
*/
module Layout {
  import opened TrialConfig

  /** A location on the paper, in pixels. */
  datatype Loc = Loc(top: real, left: real)

  /** An absolutely positioned image on the paper. */
  datatype Element = Element(src: Image, top: real, left: real, width: real, height: real)

  predicate IsInteger(x: real)
  {
    x.Floor as real == x
  }

  function Radius(c: Config): real
  {
    c.circleDiameter / 2.0
  }

  /** `flankerh`: the flanker height, `target_size[0]` scaled by `flanker_size`. */
  function FlankerHeight(c: Config): real
  {
    c.targetSize.first * c.flankerSize
  }

  /** `flankerw`: the flanker width, `target_size[1]` scaled by `flanker_size`. */
  function FlankerWidth(c: Config): real
  {
    c.targetSize.second * c.flankerSize
  }

  function HalfFlankerWidth(c: Config): real
  {
    FlankerWidth(c) / 2.0
  }

  /** The distance from the paper centre to each flanker's centre. */
  function FlankerDistance(c: Config): real
  {
    HalfFlankerWidth(c) + Radius(c) * c.flankerOffset
  }

  /** The side of the square paper: the circle diameter plus the flanker distance. */
  function PaperSize(c: Config): (r: real)
    ensures r == c.circleDiameter + c.targetSize.second * c.flankerSize / 2.0
                 + (c.circleDiameter / 2.0) * c.flankerOffset
  {
    c.circleDiameter + FlankerDistance(c)
  }

  function Centre(c: Config): real
  {
    PaperSize(c) / 2.0
  }

  /**
    The fixation location: along each axis, the whole pixel at or just before
    the point that centres an image of `fixation_size` on the paper.
  */
  function FixationLoc(c: Config): (r: Loc)
    ensures IsInteger(r.top) && IsInteger(r.left)
    ensures Centre(c) - c.fixationSize.first / 2.0 - 1.0 < r.top <= Centre(c) - c.fixationSize.first / 2.0
    ensures Centre(c) - c.fixationSize.second / 2.0 - 1.0 < r.left <= Centre(c) - c.fixationSize.second / 2.0
  {
    Loc((PaperSize(c) / 2.0 - c.fixationSize.first / 2.0).Floor as real,
        (PaperSize(c) / 2.0 - c.fixationSize.second / 2.0).Floor as real)
  }

  /**
    The two flanker locations.  Both share one `top`, half a flanker width
    before the whole pixel at or below the paper centre.  Adding half a
    flanker width to `left` gives each flanker's horizontal centre, which lies
    within a pixel of the paper centre plus (first flanker) or minus (second
    flanker) the flanker distance.
  */
  function FlankerLocs(c: Config): (r: seq<Loc>)
    ensures |r| == 2
    ensures r[0].top == r[1].top
    ensures IsInteger(r[0].top + HalfFlankerWidth(c))
    ensures Centre(c) - 1.0 < r[0].top + HalfFlankerWidth(c) <= Centre(c)
    ensures IsInteger(r[0].left) && IsInteger(r[1].left)
    ensures Centre(c) + FlankerDistance(c) - 1.0 < r[0].left + HalfFlankerWidth(c) <= Centre(c) + FlankerDistance(c)
    ensures Centre(c) - FlankerDistance(c) - 1.0 < r[1].left + HalfFlankerWidth(c) <= Centre(c) - FlankerDistance(c)
  {
    var top := (PaperSize(c) / 2.0).Floor as real - HalfFlankerWidth(c);
    [Loc(top, (PaperSize(c) / 2.0 + (FlankerDistance(c) - HalfFlankerWidth(c))).Floor as real),
     Loc(top, (PaperSize(c) / 2.0 - (FlankerDistance(c) + HalfFlankerWidth(c))).Floor as real)]
  }

  /**
    With a square target the flankers are square too, and their vertical
    centre lies within a pixel of the paper centre.
  */
  lemma FlankersVerticallyCentred(c: Config)
    requires c.targetSize.first == c.targetSize.second
    ensures FlankerHeight(c) == FlankerWidth(c)
    ensures var r := FlankerLocs(c);
      Centre(c) - 1.0 < r[0].top + FlankerHeight(c) / 2.0 <= Centre(c)
  {
  }

  /**
    The two flankers mirror each other about the paper centre up to flooring:
    the second flanker's horizontal centre is never nearer the paper centre
    than the first's, and less than two pixels farther.
  */
  lemma FlankersMirrored(c: Config)
    ensures var r := FlankerLocs(c);
      var right := r[0].left + HalfFlankerWidth(c) - Centre(c);
      var left := Centre(c) - (r[1].left + HalfFlankerWidth(c));
      0.0 <= left - right < 2.0
  {
  }

  /**
    How far each flanker reaches past the paper on its side: half of the
    amount by which the flanker distance plus a flanker width exceeds the
    circle diameter (negative when the flankers fall inside).
  */
  function FlankerOverhang(c: Config): real
  {
    (FlankerDistance(c) + FlankerWidth(c) - c.circleDiameter) / 2.0
  }

  /**
    Where the flankers start and end against the paper, which spans 0 to
    `paper_size` along each axis.  The second flanker's left edge is the whole
    pixel at or just below `-overhang`; the first flanker's right edge lies
    within a pixel below `paper_size + overhang`.  So both flankers lie on the
    paper when the overhang is not positive, and both stick out of it when
    the overhang is a pixel or more.
  */
  lemma FlankersAgainstPaper(c: Config)
    ensures var r := FlankerLocs(c);
      var over := FlankerOverhang(c);
      var rightEdge := r[0].left + FlankerWidth(c);
      && -over - 1.0 < r[1].left <= -over
      && PaperSize(c) + over - 1.0 < rightEdge <= PaperSize(c) + over
      && (over <= 0.0 ==> 0.0 <= r[1].left && rightEdge <= PaperSize(c))
      && (over >= 1.0 ==> r[1].left < 0.0 && rightEdge > PaperSize(c))
  {
    var r := FlankerLocs(c);
    assert Centre(c) - FlankerDistance(c) - HalfFlankerWidth(c) == -FlankerOverhang(c);
    assert Centre(c) + FlankerDistance(c) + HalfFlankerWidth(c) == PaperSize(c) + FlankerOverhang(c);
    if FlankerOverhang(c) <= 0.0 {
      assert r[1].left > -1.0 && IsInteger(r[1].left);
    }
  }

  /** The default parameters: 250 px circle, 50 x 50 px targets, flanker size and offset 1.5. */
  predicate DefaultGeometry(c: Config)
  {
    && c.circleDiameter == 250.0
    && c.targetSize == Pair(50.0, 50.0)
    && c.flankerSize == 1.5
    && c.flankerOffset == 1.5
  }

  /**
    With the default parameters the paper is 475 px wide, the second flanker
    starts 25 px before it and the first flanker ends 25 px after it.
  */
  lemma DefaultFlankersOutsidePaper(c: Config)
    requires DefaultGeometry(c)
    ensures PaperSize(c) == 475.0
    ensures FlankerLocs(c)[1].left == -25.0
    ensures FlankerLocs(c)[0].left + FlankerWidth(c) == 500.0
  {
    assert FlankerWidth(c) == 75.0;
    assert FlankerDistance(c) == 225.0;
    assert (PaperSize(c) / 2.0 - (FlankerDistance(c) + HalfFlankerWidth(c))) == -25.0;
    assert (PaperSize(c) / 2.0 + (FlankerDistance(c) - HalfFlankerWidth(c))) == 425.0;
  }
}
