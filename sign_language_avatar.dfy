/** The large avatar of the gradient theme: a 400×400 canvas with a figure
    whose eyes, arms and hands move while playing, decorative dots, the
    language label and the caption, plus the play button and the
    "Extension Inactive" overlay. */
module SignLanguageAvatar {
  import opened JsText
  import opened Choices
  import opened Canvas
  import opened AvatarCommon

  const CenterX: real := 200.0
  const CenterY: real := 200.0
  /** The caption under the figure is cut after this many characters (line 173). */
  const CaptionLimit: nat := 30

  /** The language label (line 170). */
  function LanguageLabel(language: SignLanguage): (r: string)
    ensures |r| >= 9 && r[..9] == "Signing: " && r[9..] == LanguageTag(language)
  {
    "Signing: " + LanguageTag(language)
  }

  /** The three animated quantities of the figure. */
  datatype Pose = Pose(eyeOffset: real, armAnimation: real, armWave: real)

  /** The pose at wall-clock time `now` (milliseconds), `time = now * 0.005`. */
  function PoseAt(playing: bool, now: real, sin: real -> real, cos: real -> real): (p: Pose)
    requires UnitRange(sin) && UnitRange(cos)
    ensures !playing ==> p == Pose(0.0, 0.0, 0.0)
    ensures Abs(p.eyeOffset) <= 2.0 && Abs(p.armAnimation) <= 15.0 && Abs(p.armWave) <= 8.0
  {
    var time := now * 0.005;
    if playing then
      ScaledBound(sin, time, 2.0);
      ScaledBound(sin, time * 2.0, 15.0);
      ScaledBound(cos, time * 1.5, 8.0);
      Pose(sin(time) * 2.0, sin(time * 2.0) * 15.0, cos(time * 1.5) * 8.0)
    else Pose(0.0, 0.0, 0.0)
  }

  /** Playing, the pose repeats: if sine and cosine repeat every `tau` then
      the figure repeats every `400 * tau` milliseconds (two eye cycles, four
      arm cycles, three wave cycles). */
  lemma PlayingIsPeriodic(playing: bool, now: real, sin: real -> real, cos: real -> real, tau: real)
    requires UnitRange(sin) && UnitRange(cos) && Periodic(sin, tau) && Periodic(cos, tau)
    ensures PoseAt(playing, now + 400.0 * tau, sin, cos) == PoseAt(playing, now, sin, cos)
  {
    if playing {
      var time := now * 0.005;
      var later := (now + 400.0 * tau) * 0.005;
      PeriodsApart(sin, tau, time, later, 2);
      PeriodsApart(sin, tau, time * 2.0, later * 2.0, 4);
      PeriodsApart(cos, tau, time * 1.5, later * 1.5, 3);
    }
  }

  /** The computed coordinates and texts of one drawing of the figure. */
  datatype Figure = Figure(
    leftEye: Point,
    rightEye: Point,
    leftHighlight: Point,
    rightHighlight: Point,
    leftArm: Segment,
    rightArm: Segment,
    leftHand: Point,
    rightHand: Point,
    languageLabel: string,
    caption: string)

  /** The figure part of `drawAvatarPlaceholder`, without the drawing calls. */
  function DrawFigure(text: string, language: SignLanguage, pose: Pose): (f: Figure)
    ensures f.leftHand == f.leftArm.to && f.rightHand == f.rightArm.to
    ensures f.leftHand.x + f.rightHand.x == 2.0 * CenterX && f.leftHand.y == f.rightHand.y
    ensures f.leftHand.x == 120.0 + pose.armWave && f.leftHand.y == 200.0 + pose.armAnimation
    ensures f.leftArm.from.x + f.rightArm.from.x == 2.0 * CenterX && f.leftArm.from.y == f.rightArm.from.y
    ensures f.rightEye.x - f.leftEye.x == 40.0 && f.leftEye.y == f.rightEye.y
    ensures f.leftEye == Point(CenterX - 20.0 + pose.eyeOffset, CenterY - 60.0)
    ensures f.leftHighlight == Point(f.leftEye.x + 2.0, f.leftEye.y - 2.0)
    ensures f.rightHighlight == Point(f.rightEye.x - 2.0, f.rightEye.y - 2.0)
    ensures f.caption == Truncate(text, CaptionLimit) && f.languageLabel == LanguageLabel(language)
  {
    var eye := pose.eyeOffset;
    var arm := pose.armAnimation;
    var wave := pose.armWave;
    var leftHand := Point(CenterX - 80.0 + wave, CenterY + arm);
    var rightHand := Point(CenterX + 80.0 - wave, CenterY + arm);
    Figure(
      Point(CenterX - 20.0 + eye, CenterY - 60.0),
      Point(CenterX + 20.0 + eye, CenterY - 60.0),
      Point(CenterX - 18.0 + eye, CenterY - 62.0),
      Point(CenterX + 18.0 + eye, CenterY - 62.0),
      Segment(Point(CenterX - 40.0, CenterY - 30.0), leftHand),
      Segment(Point(CenterX + 40.0, CenterY - 30.0), rightHand),
      leftHand,
      rightHand,
      LanguageLabel(language),
      Truncate(text, CaptionLimit))
  }

  /** What one run of the drawing effect leaves on the canvas, apart from
      the decorative dots. */
  datatype Frame = Placeholder(message: string) | Avatar(figure: Figure)

  function Draw(text: string, language: SignLanguage, isActive: bool, playing: bool,
                now: real, sin: real -> real, cos: real -> real): (fr: Frame)
    requires UnitRange(sin) && UnitRange(cos)
    ensures fr.Placeholder? <==> IsIdle(isActive, text)
    ensures fr.Placeholder? ==> fr.message == IdleMessage
    ensures fr.Avatar? ==> fr.figure == DrawFigure(text, language, PoseAt(playing, now, sin, cos))
  {
    if IsIdle(isActive, text) then Placeholder(IdleMessage)
    else Avatar(DrawFigure(text, language, PoseAt(playing, now, sin, cos)))
  }

  /** Paused, the drawing is the same at every clock reading. */
  lemma PausedIsStill(text: string, language: SignLanguage, isActive: bool, now1: real, now2: real,
                      sin: real -> real, cos: real -> real)
    requires UnitRange(sin) && UnitRange(cos)
    ensures Draw(text, language, isActive, false, now1, sin, cos) == Draw(text, language, isActive, false, now2, sin, cos)
  {
  }

  /** A filled decorative circle. */
  datatype Dot = Dot(center: Point, radius: real)

  /** `Math.random()` values: each in [0, 1). */
  predicate AreRandom(rand: seq<real>) {
    forall k :: 0 <= k < |rand| ==> 0.0 <= rand[k] < 1.0
  }

  /** The `i`th background speck, from its three random draws (line 70). */
  function Speck(rand: seq<real>, i: nat): (d: Dot)
    requires 3 * i + 3 <= |rand| && AreRandom(rand)
    ensures 0.0 <= d.center.x < 400.0 && 0.0 <= d.center.y < 400.0 && 0.0 <= d.radius < 3.0
  {
    Dot(Point(rand[3 * i] * 400.0, rand[3 * i + 1] * 400.0), rand[3 * i + 2] * 3.0)
  }

  /** The background pattern loop (lines 68-72): twenty specks. */
  method DrawSpecks(rand: seq<real>) returns (dots: seq<Dot>)
    requires |rand| == 60 && AreRandom(rand)
    ensures |dots| == 20
    ensures forall i :: 0 <= i < 20 ==> dots[i] == Speck(rand, i)
    ensures forall i :: 0 <= i < 20 ==> 0.0 <= dots[i].center.x < 400.0 && 0.0 <= dots[i].center.y < 400.0
  {
    dots := [];
    for i := 0 to 20
      invariant |dots| == i
      invariant forall j :: 0 <= j < i ==> dots[j] == Speck(rand, j)
    {
      dots := dots + [Dot(Point(rand[3 * i] * 400.0, rand[3 * i + 1] * 400.0), rand[3 * i + 2] * 3.0)];
    }
  }

  /** What remains of a non-negative `x` after taking out whole multiples of `b`. */
  lemma FloorRemainder(x: real, b: real)
    requires x >= 0.0 && b > 0.0
    ensures 0.0 <= x - b * ((x / b).Floor as real) < b
  {
    var y := x / b;
    var q := y.Floor as real;
    var f := y - q;
    assert 0.0 <= f < 1.0;
    assert x == b * q + b * f;
    assert b * f < b by {
      assert b * (1.0 - f) > 0.0;
    }
    assert x - b * q == b * f;
    assert x - b * q < b;
  }

  /** `k` is a quotient of `a` by `b` rounded toward zero that leaves `r`:
      `a = k * b + r`, with `k` carrying the sign of `a`. */
  predicate TruncatedQuotient(a: real, b: real, r: real, k: int) {
    a == k as real * b + r && (a >= 0.0 ==> k >= 0) && (a < 0.0 ==> k <= 0)
  }

  /** JavaScript's `%` on numbers: the remainder of truncating division,
      with the sign of the dividend. */
  function JsRemainder(a: real, b: real): (r: real)
    requires b > 0.0
    ensures a >= 0.0 ==> 0.0 <= r < b
    ensures a < 0.0 ==> -b < r <= 0.0
    ensures exists k: int :: TruncatedQuotient(a, b, r, k)
  {
    if a >= 0.0 then
      FloorRemainder(a, b);
      var k := (a / b).Floor;
      var r := a - b * (k as real);
      assert TruncatedQuotient(a, b, r, k);
      r
    else
      FloorRemainder(-a, b);
      var k := ((-a) / b).Floor;
      var r := -((-a) - b * (k as real));
      assert TruncatedQuotient(a, b, r, -k);
      r
  }

  /** The `i`th orbiting dot around the head (lines 185-188). */
  function OrbitDot(time: real, i: nat, sin: real -> real, cos: real -> real): (d: Dot)
    requires UnitRange(sin) && UnitRange(cos)
    ensures Abs(d.center.x - CenterX) <= 140.0 && Abs(d.center.y - (CenterY - 50.0)) <= 140.0
    ensures d.radius == 2.0
  {
    var angle := JsRemainder(time + i as real * 0.8, TwoPi);
    var radius := 120.0 + sin(time + i as real) * 20.0;
    ScaledBound(sin, time + i as real, 20.0);
    ScaledBound(cos, angle, radius);
    ScaledBound(sin, angle, radius);
    Dot(Point(CenterX + cos(angle) * radius, CenterY - 50.0 + sin(angle) * radius), 2.0)
  }

  /** The orbit loop (lines 184-192): eight dots on a wobbling ring. */
  method DrawOrbit(now: real, sin: real -> real, cos: real -> real) returns (dots: seq<Dot>)
    requires UnitRange(sin) && UnitRange(cos)
    ensures |dots| == 8
    ensures forall i :: 0 <= i < 8 ==> dots[i] == OrbitDot(now * 0.005, i, sin, cos)
  {
    var time := now * 0.005;
    dots := [];
    for i := 0 to 8
      invariant |dots| == i
      invariant forall j :: 0 <= j < i ==> dots[j] == OrbitDot(time, j, sin, cos)
    {
      var angle := JsRemainder(time + i as real * 0.8, TwoPi);
      var radius := 120.0 + sin(time + i as real) * 20.0;
      dots := dots + [Dot(Point(CenterX + cos(angle) * radius, CenterY - 50.0 + sin(angle) * radius), 2.0)];
    }
  }

  /** The controls around the canvas. */
  datatype Controls = Controls(playButton: bool, pauseIcon: bool, inactiveOverlay: bool)

  /** The play button (line 230), its icon (line 243), which exists only
      inside the button, and the inactive overlay. */
  function RenderControls(text: string, isActive: bool, isPlaying: bool): (c: Controls)
    ensures c.playButton <==> isActive && !IsBlank(text)
    ensures c.inactiveOverlay <==> !isActive
    ensures c.pauseIcon <==> c.playButton && isPlaying
  {
    var button := isActive && !IsBlank(text);
    Controls(button, button && isPlaying, !isActive)
  }

  /** The play button is offered exactly when the canvas shows the figure,
      so a press on it always flips the playing flag. */
  lemma PlayButtonMeansToggleWorks(text: string, isActive: bool, isPlaying: bool)
    ensures RenderControls(text, isActive, isPlaying).playButton <==> !IsIdle(isActive, text)
    ensures RenderControls(text, isActive, isPlaying).playButton ==> AfterToggle(text, isPlaying) == !isPlaying
  {
  }
}
