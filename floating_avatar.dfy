/** The compact corner avatar shown over the page: a 200×200 canvas with a
    minimal figure, its play/pause state, its corner placement and the
    hover bar of corner buttons. */
module FloatingAvatar {
  import opened JsText
  import opened Choices
  import opened Canvas
  import opened Wrappers
  import opened AvatarCommon

  const CenterX: real := 100.0
  const CenterY: real := 100.0
  /** The caption under the figure is cut after this many characters (line 135). */
  const CaptionLimit: nat := 20

  /** The two animated quantities of the figure. */
  datatype Pose = Pose(eyeOffset: real, armAnimation: real)

  /** The pose at wall-clock time `now` (milliseconds), `time = now * 0.003`. */
  function PoseAt(playing: bool, now: real, sin: real -> real): (p: Pose)
    requires UnitRange(sin)
    ensures !playing ==> p == Pose(0.0, 0.0)
    ensures Abs(p.eyeOffset) <= 1.0 && Abs(p.armAnimation) <= 5.0
  {
    var time := now * 0.003;
    if playing then
      ScaledBound(sin, time, 1.0);
      ScaledBound(sin, time * 1.5, 5.0);
      Pose(sin(time) * 1.0, sin(time * 1.5) * 5.0)
    else Pose(0.0, 0.0)
  }

  /** The computed coordinates and texts of one drawing of the figure. */
  datatype Figure = Figure(
    leftEye: Point,
    rightEye: Point,
    leftArm: Segment,
    rightArm: Segment,
    leftHand: Point,
    rightHand: Point,
    languageLabel: string,
    caption: string)

  /** `drawMinimalAvatar` without the drawing calls. */
  function DrawFigure(text: string, language: SignLanguage, pose: Pose): (f: Figure)
    ensures f.leftHand == f.leftArm.to && f.rightHand == f.rightArm.to
    ensures f.leftHand.x + f.rightHand.x == 2.0 * CenterX && f.leftHand.y == f.rightHand.y
    ensures f.leftArm.from.x + f.rightArm.from.x == 2.0 * CenterX && f.leftArm.from.y == f.rightArm.from.y
    ensures f.rightEye.x - f.leftEye.x == 16.0 && f.leftEye.y == f.rightEye.y
    ensures f.leftEye == Point(CenterX - 8.0 + pose.eyeOffset, CenterY - 25.0)
    ensures f.leftHand == Point(CenterX - 35.0, CenterY + pose.armAnimation)
    ensures f.caption == Truncate(text, CaptionLimit) && f.languageLabel == LanguageTag(language)
  {
    var eye := pose.eyeOffset;
    var arm := pose.armAnimation;
    var leftHand := Point(CenterX - 35.0, CenterY + arm);
    var rightHand := Point(CenterX + 35.0, CenterY + arm);
    Figure(
      Point(CenterX - 8.0 + eye, CenterY - 25.0),
      Point(CenterX + 8.0 + eye, CenterY - 25.0),
      Segment(Point(CenterX - 15.0, CenterY - 10.0), leftHand),
      Segment(Point(CenterX + 15.0, CenterY - 10.0), rightHand),
      leftHand,
      rightHand,
      LanguageTag(language),
      Truncate(text, CaptionLimit))
  }

  /** What one run of the drawing effect leaves on the canvas. */
  datatype Frame = Placeholder(message: string) | Avatar(figure: Figure)

  /** The drawing effect (lines 31-59), for the clock reading `now`. */
  function Draw(text: string, language: SignLanguage, isActive: bool, playing: bool,
                now: real, sin: real -> real): (fr: Frame)
    requires UnitRange(sin)
    ensures fr.Placeholder? <==> IsIdle(isActive, text)
    ensures fr.Placeholder? ==> fr.message == IdleMessage
    ensures fr.Avatar? ==> fr.figure == DrawFigure(text, language, PoseAt(playing, now, sin))
  {
    if IsIdle(isActive, text) then Placeholder(IdleMessage)
    else Avatar(DrawFigure(text, language, PoseAt(playing, now, sin)))
  }

  /** Whether the idle placeholder is drawn depends neither on the playing
      flag nor on the clock. */
  lemma IdleIgnoresPlayback(text: string, language: SignLanguage, isActive: bool,
                            playing: bool, now: real, sin: real -> real)
    requires UnitRange(sin) && IsIdle(isActive, text)
    ensures Draw(text, language, isActive, playing, now, sin) == Placeholder(IdleMessage)
  {
  }

  /** Paused, the drawing is the same at every clock reading (and for any
      trigonometry): the eyes and arms rest at offset zero. */
  lemma PausedIsStill(text: string, language: SignLanguage, isActive: bool,
                      now1: real, now2: real, sin1: real -> real, sin2: real -> real)
    requires UnitRange(sin1) && UnitRange(sin2)
    ensures Draw(text, language, isActive, false, now1, sin1) == Draw(text, language, isActive, false, now2, sin2)
  {
  }

  /** Playing, the pose repeats: if the sine repeats every `tau` then the
      figure repeats every `2000 * tau / 3` milliseconds (two eye cycles,
      three arm cycles). */
  lemma PlayingIsPeriodic(playing: bool, now: real, sin: real -> real, tau: real)
    requires UnitRange(sin) && Periodic(sin, tau)
    ensures PoseAt(playing, now + 2000.0 * tau / 3.0, sin) == PoseAt(playing, now, sin)
  {
    if playing {
      var time := now * 0.003;
      var later := (now + 2000.0 * tau / 3.0) * 0.003;
      PeriodsApart(sin, tau, time, later, 2);
      PeriodsApart(sin, tau, time * 1.5, later * 1.5, 3);
    }
  }

  /** `getPositionClasses()`: a switch over the position string whose
      default is the bottom-right placement. */
  function PositionClasses(position: string): string {
    if position == "bottom-left" then "bottom-8 left-8"
    else if position == "bottom-right" then "bottom-8 right-8"
    else if position == "top-left" then "top-8 left-8"
    else if position == "top-right" then "top-8 right-8"
    else "bottom-8 right-8"
  }

  /** The four corners get four different placements, and any other string
      falls back to the bottom-right one. */
  lemma PositionClassesDistinct(p: Position, q: Position, other: string)
    requires p != q
    requires forall c :: other != PositionKey(c)
    ensures PositionClasses(PositionKey(p)) != PositionClasses(PositionKey(q))
    ensures PositionClasses(other) == PositionClasses(PositionKey(BottomRight))
  {
    assert other != PositionKey(BottomLeft) && other != PositionKey(BottomRight);
    assert other != PositionKey(TopLeft) && other != PositionKey(TopRight);
  }

  /** A corner button of the hover bar: the corner key, its tooltip, whether
      it is highlighted and the key its click passes to `onPositionChange`. */
  datatype PositionButton = PositionButton(key: string, title: string, highlighted: bool, emits: string)

  /** The hover bar order (lines 167-172). */
  const ButtonOrder: seq<Position> := [BottomLeft, BottomRight, TopLeft, TopRight]

  /** What the component renders when it renders anything. */
  datatype Overlay = Overlay(
    placement: string,
    size: real,
    opacity: real,
    playButton: bool,
    pauseIcon: bool,
    buttons: seq<PositionButton>)

  /** The component's output: nothing while the text is blank or the
      extension inactive (lines 163-165). */
  function Render(text: string, isActive: bool, position: Position, size: real,
                  opacity: real, isPlaying: bool): (o: Option<Overlay>)
    ensures o.Some? <==> isActive && !IsBlank(text)
    ensures o.Some? ==> o.value.placement == PositionClasses(PositionKey(position))
    ensures o.Some? ==> o.value.playButton && o.value.pauseIcon == isPlaying
    ensures o.Some? ==> |o.value.buttons| == 4
    ensures o.Some? ==> forall i :: 0 <= i < 4 ==>
              o.value.buttons[i].emits == o.value.buttons[i].key == PositionKey(ButtonOrder[i])
              && o.value.buttons[i].title == PositionLabel(ButtonOrder[i])
              && (o.value.buttons[i].highlighted <==> ButtonOrder[i] == position)
  {
    if IsBlank(text) || !isActive then None
    else
      var buttons := seq(4, i requires 0 <= i < 4 =>
        var p := ButtonOrder[i];
        PositionButton(PositionKey(p), PositionLabel(p), PositionKey(position) == PositionKey(p), PositionKey(p)));
      assert forall i :: 0 <= i < 4 ==> (buttons[i].highlighted <==> ButtonOrder[i] == position) by {
        forall i | 0 <= i < 4 ensures buttons[i].highlighted <==> ButtonOrder[i] == position {
          if ButtonOrder[i] != position { KeysAndLabelsDistinct(ButtonOrder[i], position); }
        }
      }
      Some(Overlay(PositionClasses(PositionKey(position)), size, opacity,
                   isActive && !IsBlank(text), isPlaying, buttons))
  }

  /** The drawing effect runs only on a mounted canvas, and the canvas is
      mounted exactly when the component renders. The placeholder is drawn
      exactly when the component renders nothing, so it never reaches the
      screen. */
  lemma PlaceholderUnreachable(text: string, language: SignLanguage, isActive: bool, playing: bool,
                               now: real, sin: real -> real, position: Position, size: real, opacity: real)
    requires UnitRange(sin)
    ensures Draw(text, language, isActive, playing, now, sin).Placeholder?
            <==> Render(text, isActive, position, size, opacity, playing).None?
  {
  }
}
