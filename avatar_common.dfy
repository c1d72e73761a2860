/** What the two canvas avatars share: when they show the idle placeholder
    instead of the figure, and their play/pause state cell. */
module AvatarCommon {
  import opened JsText

  const IdleMessage: string := "Enter text to see sign language"

  /** The idle placeholder is drawn instead of the figure: the extension is
      inactive or the text is blank after `trim()`. */
  predicate IsIdle(isActive: bool, text: string) {
    !isActive || IsBlank(text)
  }

  /** The new playing flag after `togglePlayback`: flipped when the text is
      not blank, kept otherwise. */
  function AfterToggle(text: string, playing: bool): (r: bool)
    ensures r != playing <==> !IsBlank(text)
  {
    if !IsBlank(text) then !playing else playing
  }

  /** Toggling twice restores the flag. */
  lemma ToggleTwice(text: string, playing: bool)
    ensures AfterToggle(text, AfterToggle(text, playing)) == playing
  {
  }

  /** A component's `isPlaying` state cell. */
  class Playback {
    var isPlaying: bool

    constructor ()
      ensures !isPlaying
    {
      isPlaying := false;
    }

    method TogglePlayback(text: string)
      modifies this
      ensures isPlaying == AfterToggle(text, old(isPlaying))
    {
      if !IsBlank(text) {
        isPlaying := !isPlaying;
      }
    }
  }
}
