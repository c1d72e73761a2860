/** The page of the minimal theme: one flat settings record held in a
    single state cell, the handlers that rewrite it, and what the page
    derives from it (the button captions, the settings dialog and the
    corner avatar with its clamped size). */
module App {
  import opened JsText
  import opened Choices
  import opened Canvas
  import opened Wrappers
  import opened CharacterCatalog
  import FloatingAvatar

  datatype AppState = AppState(
    isActive: bool,
    isMuted: bool,
    isVisible: bool,
    currentText: string,
    signLanguage: SignLanguage,
    avatarSpeed: real,
    avatarSize: real,
    overlayPosition: Position,
    overlayOpacity: real,
    showSettings: bool,
    selectedCharacter: Character)

  /** The value the state cell starts with (lines 25-37). */
  const Initial: AppState := AppState(
    isActive := false,
    isMuted := false,
    isVisible := true,
    currentText := "",
    signLanguage := ASL,
    avatarSpeed := 1.0,
    avatarSize := 100.0,
    overlayPosition := BottomRight,
    overlayOpacity := 0.9,
    showSettings := false,
    selectedCharacter := Luna)

  /** The state updates the page's handlers pass to `setState`. */
  datatype Event =
    | ToggleActive
    | ToggleMuted
    | ToggleVisible
    | ToggleSettings
    | UpdateText(text: string)
    | ChangeCharacter(character: Character)
    | ChangeLanguage(language: SignLanguage)
    | ChangePosition(position: Position)
    | ChangeOpacity(opacity: real)
    | CloseAvatar

  /** The fields of the record, to say which one an update writes. */
  datatype Field =
    | IsActive | IsMuted | IsVisible | CurrentText | Language | Speed | Size
    | OverlayPosition | OverlayOpacity | ShowSettings | SelectedCharacter

  /** The one field each update writes. */
  function Writes(e: Event): Field {
    match e
    case ToggleActive => IsActive
    case ToggleMuted => IsMuted
    case ToggleVisible | CloseAvatar => IsVisible
    case ToggleSettings => ShowSettings
    case UpdateText(_) => CurrentText
    case ChangeCharacter(_) => SelectedCharacter
    case ChangeLanguage(_) => Language
    case ChangePosition(_) => OverlayPosition
    case ChangeOpacity(_) => OverlayOpacity
  }

  /** `a` and `b` agree on every field but `f`. */
  predicate AgreeExcept(a: AppState, b: AppState, f: Field) {
    && (f != IsActive ==> a.isActive == b.isActive)
    && (f != IsMuted ==> a.isMuted == b.isMuted)
    && (f != IsVisible ==> a.isVisible == b.isVisible)
    && (f != CurrentText ==> a.currentText == b.currentText)
    && (f != Language ==> a.signLanguage == b.signLanguage)
    && (f != Speed ==> a.avatarSpeed == b.avatarSpeed)
    && (f != Size ==> a.avatarSize == b.avatarSize)
    && (f != OverlayPosition ==> a.overlayPosition == b.overlayPosition)
    && (f != OverlayOpacity ==> a.overlayOpacity == b.overlayOpacity)
    && (f != ShowSettings ==> a.showSettings == b.showSettings)
    && (f != SelectedCharacter ==> a.selectedCharacter == b.selectedCharacter)
  }

  predicate IsToggle(e: Event) {
    e.ToggleActive? || e.ToggleMuted? || e.ToggleVisible? || e.ToggleSettings?
  }

  /** The updater `prev => ({...prev, field: value})` of each handler. */
  function Apply(s: AppState, e: Event): (r: AppState)
    ensures AgreeExcept(s, r, Writes(e))
    ensures IsToggle(e) ==> r != s
    ensures e.UpdateText? ==> r.currentText == e.text
    ensures e.ChangeCharacter? ==> r.selectedCharacter == e.character
    ensures e.ChangeLanguage? ==> r.signLanguage == e.language
    ensures e.ChangePosition? ==> r.overlayPosition == e.position
    ensures e.ChangeOpacity? ==> r.overlayOpacity == e.opacity
    ensures e.CloseAvatar? ==> !r.isVisible
  {
    match e
    case ToggleActive => s.(isActive := !s.isActive)
    case ToggleMuted => s.(isMuted := !s.isMuted)
    case ToggleVisible => s.(isVisible := !s.isVisible)
    case ToggleSettings => s.(showSettings := !s.showSettings)
    case UpdateText(t) => s.(currentText := t)
    case ChangeCharacter(c) => s.(selectedCharacter := c)
    case ChangeLanguage(l) => s.(signLanguage := l)
    case ChangePosition(p) => s.(overlayPosition := p)
    case ChangeOpacity(o) => s.(overlayOpacity := o)
    case CloseAvatar => s.(isVisible := false)
  }

  /** Each toggle undoes itself. */
  lemma ToggleTwiceIsIdentity(s: AppState, e: Event)
    requires IsToggle(e)
    ensures Apply(Apply(s, e), e) == s
  {
  }

  /** Every setter is idempotent, closing the avatar included; the visibility
      toggle is not. */
  lemma CloseIsIdempotentToggleIsNot(s: AppState, e: Event)
    requires !IsToggle(e)
    ensures Apply(Apply(s, e), e) == Apply(s, e)
    ensures Apply(Apply(s, ToggleVisible), ToggleVisible) != Apply(s, ToggleVisible)
  {
  }

  /** The page's single `useState` cell, replaced by every event. */
  class Page {
    var state: AppState

    constructor ()
      ensures state == Initial
    {
      state := Initial;
    }

    method Dispatch(e: Event)
      modifies this
      ensures state == Apply(old(state), e)
      ensures AgreeExcept(old(state), state, Writes(e))
    {
      state := Apply(state, e);
    }
  }

  /** A click while the settings dialog is open. */
  datatype DialogClick = Backdrop | InsideDialog | CloseButton

  /** The update a dialog click triggers: the backdrop and the Close button
      toggle the dialog, clicks inside it stop propagating (lines 209-222, 269). */
  function OnDialogClick(c: DialogClick): (e: Option<Event>)
    ensures e.Some? <==> c != InsideDialog
    ensures e.Some? ==> e.value == ToggleSettings
  {
    match c
    case Backdrop => Some(ToggleSettings)
    case InsideDialog => None
    case CloseButton => Some(ToggleSettings)
  }

  /** While the dialog is shown, the backdrop and Close dismiss it and a
      click inside leaves the state alone. */
  lemma DialogClicks(s: AppState, c: DialogClick)
    requires s.showSettings
    ensures match OnDialogClick(c)
            case None => true
            case Some(e) => !Apply(s, e).showSettings && AgreeExcept(s, Apply(s, e), ShowSettings)
    ensures OnDialogClick(c).None? <==> c == InsideDialog
  {
  }

  /** What the page derives from the state. */
  datatype View = View(
    activeCaption: string,
    mutedCaption: string,
    visibleCaption: string,
    statusDotLit: bool,
    textDot: bool,
    settingsDialog: bool,
    avatar: Option<AvatarProps>)

  /** The props the corner avatar is mounted with. */
  datatype AvatarProps = AvatarProps(
    text: string,
    language: SignLanguage,
    speed: real,
    size: real,
    isActive: bool,
    position: Position,
    opacity: real)

  /** `Math.max(120, avatarSize * 1.2)` (line 284). */
  function AvatarPixels(avatarSize: real): (px: real)
    ensures px >= 120.0
    ensures px == 120.0 || px == avatarSize * 1.2
    ensures avatarSize >= 100.0 ==> px == avatarSize * 1.2
  {
    Max(120.0, avatarSize * 1.2)
  }

  function Render(s: AppState): (v: View)
    ensures v.activeCaption == (if s.isActive then "Active" else "Inactive")
    ensures v.mutedCaption == (if s.isMuted then "Muted" else "Sound")
    ensures v.visibleCaption == (if s.isVisible then "Visible" else "Hidden")
    ensures v.settingsDialog <==> s.showSettings
    ensures v.avatar.Some? <==> s.isVisible && s.currentText != ""
    ensures v.avatar.Some? ==> v.avatar.value.size >= 120.0
    ensures v.avatar.Some? ==> v.avatar.value == AvatarProps(s.currentText, s.signLanguage, s.avatarSpeed,
                                                               AvatarPixels(s.avatarSize), s.isActive,
                                                               s.overlayPosition, s.overlayOpacity)
  {
    View(
      if s.isActive then "Active" else "Inactive",
      if s.isMuted then "Muted" else "Sound",
      if s.isVisible then "Visible" else "Hidden",
      s.isActive,
      s.currentText != "",
      s.showSettings,
      if s.isVisible && s.currentText != "" then
        Some(AvatarProps(s.currentText, s.signLanguage, s.avatarSpeed, AvatarPixels(s.avatarSize),
                         s.isActive, s.overlayPosition, s.overlayOpacity))
      else None)
  }

  /** Each caption depends on its own flag alone. */
  lemma CaptionsFollowTheirFlag(s: AppState, t: AppState)
    ensures s.isActive == t.isActive ==> Render(s).activeCaption == Render(t).activeCaption
    ensures s.isMuted == t.isMuted ==> Render(s).mutedCaption == Render(t).mutedCaption
    ensures s.isVisible == t.isVisible ==> Render(s).visibleCaption == Render(t).visibleCaption
    ensures Render(s).activeCaption != Render(s.(isActive := !s.isActive)).activeCaption
  {
  }

  /** In the initial state the avatar is not mounted (there is no text yet)
      and the size it would get is the floor of 120 pixels. */
  lemma InitialView()
    ensures Render(Initial).avatar.None?
    ensures AvatarPixels(Initial.avatarSize) == 120.0
    ensures !Render(Initial).settingsDialog
  {
  }

  /** After the avatar's close button, the avatar is unmounted whatever the
      state was. */
  lemma CloseUnmountsAvatar(s: AppState)
    ensures Render(Apply(s, CloseAvatar)).avatar.None?
  {
  }

  /** The corner avatar is on screen (mounted, and not hiding itself) exactly
      when the overlay is visible, the extension active and the text not
      blank. A text of spaces mounts the component, which then renders
      nothing. */
  lemma AvatarOnScreen(s: AppState, isPlaying: bool)
    ensures var v := Render(s);
            (v.avatar.Some? &&
             FloatingAvatar.Render(v.avatar.value.text, v.avatar.value.isActive, v.avatar.value.position,
                                   v.avatar.value.size, v.avatar.value.opacity, isPlaying).Some?)
            <==> s.isVisible && s.isActive && !IsBlank(s.currentText)
  {
    if s.currentText == "" {
      assert IsBlank(s.currentText);
    }
  }
}
