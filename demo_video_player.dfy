/** The mock video player: three independent flags toggled by its buttons,
    the icons and captions they select, and five decorative dots. */
module DemoVideoPlayer {

  /** The component's three `useState` cells. */
  class Player {
    var isPlaying: bool
    var isMuted: bool
    var isFullscreen: bool

    constructor ()
      ensures !isPlaying && !isMuted && !isFullscreen
    {
      isPlaying, isMuted, isFullscreen := false, false, false;
    }

    method TogglePlay()
      modifies this
      ensures isPlaying == !old(isPlaying)
      ensures isMuted == old(isMuted) && isFullscreen == old(isFullscreen)
    {
      isPlaying := !isPlaying;
    }

    method ToggleMute()
      modifies this
      ensures isMuted == !old(isMuted)
      ensures isPlaying == old(isPlaying) && isFullscreen == old(isFullscreen)
    {
      isMuted := !isMuted;
    }

    method ToggleFullscreen()
      modifies this
      ensures isFullscreen == !old(isFullscreen)
      ensures isPlaying == old(isPlaying) && isMuted == old(isMuted)
    {
      isFullscreen := !isFullscreen;
    }
  }

  datatype PlayIcon = Play | Pause
  datatype VolumeIcon = Volume2 | VolumeX

  /** A decorative dot, placed by percentages of the player's box. */
  datatype Dot = Dot(leftPercent: int, topPercent: int)

  /** What the player shows. */
  datatype View = View(
    playIcon: PlayIcon,
    volumeIcon: VolumeIcon,
    caption: string,
    overlayBadge: bool,
    dots: seq<Dot>)

  const OverlayCaption: string := "Sign language avatar appears in the corner"
  const PlainCaption: string := "Switch to overlay mode to see the avatar"

  /** `[...Array(5)].map((_, i) => ...)` (lines 103-110). */
  function Dots(): (ds: seq<Dot>)
    ensures |ds| == 5
    ensures forall i :: 0 <= i < 5 ==> ds[i] == Dot(20 + 15 * i, 30 + 10 * i)
  {
    seq(5, i requires 0 <= i < 5 => Dot(20 + 15 * i, 30 + 10 * i))
  }

  function Render(isPlaying: bool, isMuted: bool, isFullscreen: bool, isOverlayMode: bool): (v: View)
    ensures v.playIcon == Pause <==> isPlaying
    ensures v.volumeIcon == VolumeX <==> isMuted
    ensures v.overlayBadge <==> isOverlayMode
    ensures v.caption == (if isOverlayMode then OverlayCaption else PlainCaption)
  {
    View(if isPlaying then Pause else Play,
         if isMuted then VolumeX else Volume2,
         if isOverlayMode then OverlayCaption else PlainCaption,
         isOverlayMode,
         Dots())
  }

  /** The fullscreen flag is toggled but never read: flipping it changes
      nothing shown. */
  lemma FullscreenIsNotRendered(isPlaying: bool, isMuted: bool, isOverlayMode: bool)
    ensures Render(isPlaying, isMuted, true, isOverlayMode) == Render(isPlaying, isMuted, false, isOverlayMode)
  {
  }

  /** The caption and the badge depend on the overlay mode alone; the dots
      on nothing at all. */
  lemma CaptionFollowsOverlayMode(p1: bool, m1: bool, f1: bool, p2: bool, m2: bool, f2: bool, o: bool)
    ensures Render(p1, m1, f1, o).caption == Render(p2, m2, f2, o).caption
    ensures Render(p1, m1, f1, o).overlayBadge == Render(p2, m2, f2, o).overlayBadge
    ensures Render(p1, m1, f1, o).dots == Render(p2, m2, f2, o).dots
  {
  }

  /** The five dots march down and to the right, inside the box. */
  lemma DotsDiagonal()
    ensures forall i, j :: 0 <= i < j < 5 ==>
              Dots()[i].leftPercent < Dots()[j].leftPercent && Dots()[i].topPercent < Dots()[j].topPercent
    ensures forall i :: 0 <= i < 5 ==> 20 <= Dots()[i].leftPercent <= 80 && 30 <= Dots()[i].topPercent <= 70
  {
  }
}
