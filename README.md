# commune-sign, modelled in Dafny

commune-sign is a single-page web front end for a sign-language avatar. The
user types a text. Buttons make the extension active, muted or visible. A
settings dialog chooses the sign language (ASL, BSL or AUSLAN) and the
corner and opacity of a floating avatar. A canvas avatar draws a placeholder
signer that moves while "playing". A particle vortex animates the background.

This project models the page's state machine and what each component shows
for a given state.

- Module `App` models `src/App.tsx`:
  - the eleven-field page state and its initial value;
  - every state update the page performs;
  - the settings dialog's click handling;
  - when the floating avatar is mounted and at what size.
- Module `TextInput` models the text box:
  - the character counter and the `split(' ')` word counter;
  - the send button's enablement by `trim()`;
  - the "Ready to sign" badge and the four example suggestions;
  - the focus flag.
- Module `ControlPanel` models:
  - the language select;
  - the overlay-only controls;
  - the corner label, which `replace('-', ' ')` followed by
    `replace(/\b\w/g, toUpperCase)` produces from the corner key;
  - the highlighted corner button.
- Module `CharacterSelector` models the description lookup by
  `Array.prototype.find` and the card grid with its selection styling.
- Module `CharacterCatalog` holds the four character records of
  `src/data/characters.ts`.
- Module `FloatingAvatar` models:
  - the corner avatar's idle check;
  - its pose as a function of the clock;
  - the figure geometry and the caption truncation at 20;
  - the play/pause toggle and the position classes;
  - the buttons and when the component hides itself.
- Module `SignLanguageAvatar` models the large avatar:
  - a pose and figure like the corner avatar's, with the caption truncated
    at 30;
  - the "Signing: <tag>" label;
  - the twenty random background specks;
  - the eight orbiting dots, including JavaScript's `%` on negative numbers;
  - the toggle and the controls.
- Module `StardustVortex` models the particle field as a class:
  - the particle array is filled once on mount;
  - `Animate` advances the clock, then updates every particle in place, in
    index order. Each particle eases 2% toward its point on a turning ring
    and drifts toward the viewer. It respawns at depth 100 when it reaches
    depth 0.
  - `Animate` is proved against the pure `Step` function. The lemmas about
    `Advance`, `Step` and `Run` state what holds after any number of frames.
- Module `DemoVideoPlayer` models the mock player:
  - three independent toggles;
  - the icons, the caption and the overlay badge;
  - the five diagonal dots.
- Shared modules:
  - `JsText`: ECMAScript `trim` and its whitespace set, `substring + '...'`
    truncation, ASCII word characters and upper-casing;
  - `Choices`: the language and corner enumerations, with their keys and
    labels;
  - `AvatarCommon`: the idle check and the play/pause state cell that both
    canvas avatars use;
  - `Canvas`: points, `Abs`, `Max`, `Math.PI * 2`, and the facts used about
    sine and cosine;
  - `Wrappers`: `Option`.

Outside inputs are parameters:

- `Math.sin` and `Math.cos` are functions of type `real -> real`. The only
  assumption is that their values lie in [-1, 1]. Periodicity lemmas assume
  a period `tau`.
- Every `Math.random()` value is a real in [0, 1) that the caller supplies,
  in call order.
- `Date.now()` is a real parameter.
- The viewport size is a constructor argument.

JavaScript numbers are modelled as mathematical reals and integers.

Behaviour of the code that the model follows:

- The two canvas avatars redraw only when one of their effect dependencies
  changes (`FloatingAvatar.tsx:59`, `SignLanguageAvatar.tsx:51`). They do not
  redraw on every frame: there is no frame loop, so the clock is read once
  per redraw.
- `App.tsx:288` passes a `character` prop that `FloatingAvatar` does not
  declare. It has no effect and is not modelled.
- Words are counted by splitting on the space character only. A text made
  only of tabs or line breaks therefore counts as one word while the send
  button stays disabled, because `trim()` removes all whitespace
  (`TextInput.NoWordsIffOnlySpaces`, `TextInput.Render`).
- The page mounts the corner avatar for any non-empty text (`App.tsx:279`).
  The avatar then hides itself when the text is only whitespace
  (`FloatingAvatar.tsx:163`). `App.AvatarOnScreen` states the combined
  effect.
- The corner avatar's idle placeholder (`FloatingAvatar.tsx:45-54`) never
  reaches the screen. The component renders nothing in exactly that case
  (lines 163-165), so no canvas is mounted and the effect returns at line 33.
  `FloatingAvatar.PlaceholderUnreachable` proves the two conditions coincide.
  The large avatar's canvas is always mounted, so its placeholder is shown.

## Model

| member | source | states |
|---|---|---|
| JsText.TrimStart | src/components/TextInput.tsx:55 | the leading part removed by `trim()` is all whitespace, the result is a suffix of the input, and the result does not start with whitespace |
| JsText.TrimEnd | src/components/TextInput.tsx:55 | the trailing part removed by `trim()` is all whitespace, the result is a prefix of the input, and the result does not end with whitespace |
| JsText.BlankIffAllWhitespace | src/components/TextInput.tsx:55 | `!value.trim()` holds exactly when every character is ECMAScript whitespace |
| JsText.Truncate | src/components/FloatingAvatar.tsx:135 | a text of at most `k` characters is unchanged; a longer one becomes its first `k` characters followed by "...", so `k + 3` characters in all |
| JsText.ToUpper | src/components/ControlPanel.tsx:224 | lower-case ASCII letters map to the upper-case letter 32 code points lower; every other character is unchanged; word-character status is preserved |
| Choices.PositionKey | src/App.tsx:18 | each corner's key is its vertical word, a dash, then its horizontal word |
| Choices.KeysAndLabelsDistinct | src/components/ControlPanel.tsx:229-233 | different corners have different keys and different labels |
| CharacterCatalog.KeyOrderEnumeratesCharacter | src/data/characters.ts:1 | the key order lists each of the four characters exactly once |
| CharacterCatalog.IdIsKey | src/data/characters.ts:11-40 | each record's `id` is the key it is stored under |
| CharacterCatalog.CharacterArrayInKeyOrder | src/data/characters.ts:42 | `Object.values` yields the four records in key order |
| CharacterCatalog.IdsAndNamesDistinct | src/data/characters.ts:11-40 | different characters have different ids, names and keys |
| CharacterCatalog.ColorsAreHex | src/data/characters.ts:11-40 | every colour and accent colour is a `#` followed by six hexadecimal digits |
| CharacterSelector.Find | src/components/CharacterSelector.tsx:26 | `find` returns nothing exactly when no record has the id; otherwise it returns the first record with that id |
| CharacterSelector.DescriptionIsSelected | src/components/CharacterSelector.tsx:26 | the description shown is that of the selected character |
| CharacterSelector.Cards | src/components/CharacterSelector.tsx:31 | there is one card per record, in array order, with the record's id and name |
| CharacterSelector.ClickEmitsCardId | src/components/CharacterSelector.tsx:36 | clicking card `i` reports card `i`'s own character, the `i`-th in key order |
| CharacterSelector.ExactlyOneSelectedCard | src/components/CharacterSelector.tsx:38-49 | exactly one card is selected, the one whose id is the selected character |
| CharacterSelector.CardStyling | src/components/CharacterSelector.tsx:44-49 | the selected card has the accent tint, the accent border 2 wide and the badge (line 71); every other card is plain with no border and no badge |
| TextInput.SplitOnSpace | src/components/TextInput.tsx:83 | `split(' ')` yields at least one piece, and the first piece is non-empty exactly when the text starts with a non-space |
| TextInput.SplitJoinRoundTrip | src/components/TextInput.tsx:83 | no piece of `split(' ')` contains a space, and joining the pieces with single spaces gives the text back |
| TextInput.WordCountIsWordStarts | src/components/TextInput.tsx:83 | the word counter equals the number of non-space characters that start the text or follow a space |
| TextInput.SplitAroundSpace | src/components/TextInput.tsx:83 | splitting `a + " " + b` gives the pieces of `a` followed by the pieces of `b` |
| TextInput.NonEmptyAppend | src/components/TextInput.tsx:83 | the empty-word filter distributes over concatenation |
| TextInput.WordCountAroundSpace | src/components/TextInput.tsx:83 | the words of `a + " " + b` are the words of `a` followed by those of `b`, and the word counts add up |
| TextInput.WordStartsAtMostLength | src/components/TextInput.tsx:73-83 | the number of word starts never exceeds the number of characters |
| TextInput.NoWordsIffOnlySpaces | src/components/TextInput.tsx:78-83 | there are no words exactly when the text is made of spaces only |
| TextInput.CountersAgree | src/components/TextInput.tsx:73-83 | words never exceed characters, and words are zero exactly for texts made of spaces only |
| TextInput.SuggestionsEchoCaptions | src/components/TextInput.tsx:108-118 | each of the four suggestion buttons passes its own caption, which is one of the fixed examples, to `onChange` |
| TextInput.Render | src/components/TextInput.tsx:55-118 | send is disabled exactly when the text is all whitespace; the ready badge shows exactly when the text is non-empty, and exactly when there are no suggestions; the character counter is the length; the word counter is `WordCount`, which is at most the length and equals the number of word starts; an empty box shows the four suggestions, each echoing its caption |
| TextInput.Field.OnFocus | src/components/TextInput.tsx:44 | focusing sets the focus flag |
| TextInput.Field.OnBlur | src/components/TextInput.tsx:45 | blurring clears the focus flag |
| ControlPanel.IndexOf | src/components/ControlPanel.tsx:224 | the result is the first position of the character, or the length when the character is absent |
| ControlPanel.ReplaceFirstDash | src/components/ControlPanel.tsx:224 | `replace('-', ' ')` keeps the length, turns only the first dash into a space and leaves every other character as it was |
| ControlPanel.CapitalizeWords | src/components/ControlPanel.tsx:224 | `replace(/\b\w/g, toUpperCase)` upper-cases exactly the word characters that follow a non-word character or start the text, and leaves the rest unchanged |
| ControlPanel.FormatTwoWords | src/components/ControlPanel.tsx:224 | formatting "w1-w2" of two lower-case words gives "W1 W2" |
| ControlPanel.FormattedKeyIsLabel | src/components/ControlPanel.tsx:224-247 | the formatted corner key shown in the header is the corner's button label |
| ControlPanel.OnlyFirstDashReplaced | src/components/ControlPanel.tsx:224 | only the first dash is replaced: "a-b-c" becomes "a b-c", then "A B-C" |
| ControlPanel.Render | src/components/ControlPanel.tsx:72-201 | the overlay controls exist exactly in overlay mode; they hold the four corner buttons of `PositionButtons` for the current corner, and the header shows that corner's label; the language options are the three fixed ones |
| ControlPanel.ExactlyOneHighlighted | src/components/ControlPanel.tsx:229-247 | a corner button is highlighted exactly when it emits the current corner, and exactly one is; each button's key is its corner's key |
| ControlPanel.LanguageOptionsCover | src/components/ControlPanel.tsx:72-77 | the three options cover the three languages, once each |
| FloatingAvatar.PoseAt | src/components/FloatingAvatar.tsx:89-104 | paused, the eye and arm offsets are zero; playing, they stay within 1 and 5 |
| FloatingAvatar.DrawFigure | src/components/FloatingAvatar.tsx:91-135 | the left eye is at `(92 + eyeOffset, 75)` and the right one 16 further right; the left hand is at `(65, 100 + armAnimation)`, and the arms and hands are mirror images about the centre at equal height; each hand sits at the end of its arm; the caption is the text cut at 20 characters |
| FloatingAvatar.Draw | src/components/FloatingAvatar.tsx:45-58 | on a mounted canvas, the placeholder message is drawn exactly when the avatar is inactive or the text is blank; otherwise the figure drawn is `DrawFigure` at the pose `PoseAt` gives for the clock |
| FloatingAvatar.IdleIgnoresPlayback | src/components/FloatingAvatar.tsx:45-53 | when idle, the drawing does not depend on playback, the clock or the trigonometry |
| FloatingAvatar.PausedIsStill | src/components/FloatingAvatar.tsx:89-104 | paused, the drawing is the same at every instant |
| FloatingAvatar.PlayingIsPeriodic | src/components/FloatingAvatar.tsx:89-104 | if sine repeats every `tau`, the pose repeats every `2000 * tau / 3` milliseconds |
| FloatingAvatar.PositionClassesDistinct | src/components/FloatingAvatar.tsx:147-160 | the four corners get four different placements, and any other string falls back to bottom-right |
| AvatarCommon.AfterToggle | src/components/FloatingAvatar.tsx:141-145 | toggling flips playback exactly when the text is not blank; `SignLanguageAvatar.tsx:195-199` is the same handler |
| AvatarCommon.ToggleTwice | src/components/FloatingAvatar.tsx:141-145 | toggling twice restores the playback flag |
| AvatarCommon.Playback.TogglePlayback | src/components/SignLanguageAvatar.tsx:195-199 | the playback flag becomes `AfterToggle` of the text and the old flag |
| FloatingAvatar.Render | src/components/FloatingAvatar.tsx:163-230 | the component renders exactly when it is active and the text is not blank; it is then placed by `PositionClasses` of the current corner's key and shows the play button with the pause icon when playing, and four corner buttons in order, each emitting its own key, titled with its label and highlighted exactly for the current corner |
| FloatingAvatar.PlaceholderUnreachable | src/components/FloatingAvatar.tsx:32-54 | the placeholder is drawn exactly when the component renders nothing (lines 163-165), that is, exactly when there is no canvas to draw on |
| SignLanguageAvatar.LanguageLabel | src/components/SignLanguageAvatar.tsx:170 | the label is "Signing: " followed by the language tag |
| SignLanguageAvatar.PoseAt | src/components/SignLanguageAvatar.tsx:103-126 | paused, every offset is zero; playing, the eye, arm and wave offsets stay within 2, 15 and 8 |
| SignLanguageAvatar.PlayingIsPeriodic | src/components/SignLanguageAvatar.tsx:103-126 | if sine and cosine repeat every `tau`, the pose repeats every `400 * tau` milliseconds |
| SignLanguageAvatar.DrawFigure | src/components/SignLanguageAvatar.tsx:105-173 | the left eye is at `(180 + eyeOffset, 140)` and the right one 40 further right, each highlight 2 up and 2 toward the centre; the hands are mirror images at `120 + wave` and `280 - wave`, at height `200 + arm`; each hand ends its arm; the label is "Signing: " plus the tag and the caption is the text cut at 30 characters |
| SignLanguageAvatar.Draw | src/components/SignLanguageAvatar.tsx:37-50 | the placeholder message is drawn exactly when the avatar is inactive or the text is blank; otherwise the figure drawn is `DrawFigure` at the pose `PoseAt` gives for the clock |
| SignLanguageAvatar.PausedIsStill | src/components/SignLanguageAvatar.tsx:103-126 | paused, the drawing is the same at every instant |
| SignLanguageAvatar.Speck | src/components/SignLanguageAvatar.tsx:70 | a speck lies inside the 400 by 400 surface and has a radius below 3 |
| SignLanguageAvatar.DrawSpecks | src/components/SignLanguageAvatar.tsx:68-72 | the loop draws 20 specks, speck `i` from random draws `3i` to `3i+2`, all inside the surface |
| SignLanguageAvatar.FloorRemainder | src/components/SignLanguageAvatar.tsx:185 | for non-negative `x`, subtracting the whole multiples of `b` leaves a value in [0, b) |
| SignLanguageAvatar.JsRemainder | src/components/SignLanguageAvatar.tsx:185 | JavaScript `%` is the dividend minus a whole multiple of the divisor, with the quotient rounded toward zero; the result takes the sign of the dividend and its magnitude stays below the divisor |
| SignLanguageAvatar.OrbitDot | src/components/SignLanguageAvatar.tsx:184-192 | an orbit dot has radius 2 and stays within 140 of the orbit centre on each axis |
| SignLanguageAvatar.DrawOrbit | src/components/SignLanguageAvatar.tsx:184-192 | the loop draws 8 dots, dot `i` at the orbit position for clock `now * 0.005` |
| SignLanguageAvatar.RenderControls | src/components/SignLanguageAvatar.tsx:230-248 | the play button shows exactly when the avatar is active and the text is not blank; the inactive overlay shows exactly when it is inactive; the pause icon shows exactly when the play button shows and the avatar is playing |
| SignLanguageAvatar.PlayButtonMeansToggleWorks | src/components/SignLanguageAvatar.tsx:196-230 | the play button shows exactly when the avatar is not idle, and then clicking it always flips playback |
| StardustVortex.Spawn | src/components/StardustVortex.tsx:37-50 | a new particle has depth in [0, 100), drift in [-0.3, -0.2), size in [1, 3) and opacity in [0.3, 1); it lies within 200 of the focal point, and each velocity component is at most 0.1 in magnitude |
| StardustVortex.VortexTarget | src/components/StardustVortex.tsx:75-78 | the ring point lies within 160 of the focal point on each axis |
| StardustVortex.Advance | src/components/StardustVortex.tsx:81-90 | a frame changes only position and depth; the depth moves by the drift, or becomes 100 when it would reach 0 |
| StardustVortex.EasingContracts | src/components/StardustVortex.tsx:81-82 | without a respawn, the offset from the ring point shrinks to 98% of itself on each axis, so it never grows |
| StardustVortex.RespawnNearCenter | src/components/StardustVortex.tsx:86-90 | a respawned particle sits at depth 100 and within 150 of the focal point on each axis |
| StardustVortex.AdvanceKeepsDepth | src/components/StardustVortex.tsx:83-90 | a particle with depth at most 100 that drifts toward the viewer ends the frame with depth in (0, 100] |
| StardustVortex.StepPutsOnScreen | src/components/StardustVortex.tsx:71-90 | one frame leaves every particle of the field with depth in (0, 100] |
| StardustVortex.RunKeepsField | src/components/StardustVortex.tsx:68-90 | over any number of frames, the field keeps its size and every particle keeps its velocity, size and opacity; after at least one frame every depth lies in (0, 100] |
| StardustVortex.Look | src/components/StardustVortex.tsx:93-108 | a particle is drawn at its position with radius at least 0.5; the glow is drawn exactly when the scale exceeds 0.7, and its radius is at least 1 |
| StardustVortex.ScaleInUnitRange | src/components/StardustVortex.tsx:93-104 | on screen, the perspective scale lies in (0, 1], and the glow is drawn exactly for depths above 70 |
| StardustVortex.ParticleField.constructor | src/components/StardustVortex.tsx:30-52 | the focal point is at half the width and a quarter of the height; particle `i` is spawned from seed `i`; the field is valid and the clock is 0 |
| StardustVortex.ParticleField.Animate | src/components/StardustVortex.tsx:68-110 | the clock advances by 0.002; the array becomes `Step` of the old array at the new clock; the field stays valid with every depth in (0, 100]; one sprite is returned per particle |
| App.Apply | src/App.tsx:39-44 | each event writes only its own field: the `setState(prev => ...)` updaters at lines 39-44, 143-145, 231, 244, 262 and 289-290; toggles change the state; value events store their value; closing hides the avatar |
| App.ToggleTwiceIsIdentity | src/App.tsx:39-42 | applying any toggle twice restores the state |
| App.CloseIsIdempotentToggleIsNot | src/App.tsx:44 | value events and closing are idempotent, while toggling visibility is not |
| App.Page.constructor | src/App.tsx:25-37 | the page starts in the initial state |
| App.Page.Dispatch | src/App.tsx:39-44 | the new state is `Apply` of the old one, which differs at most in the event's field |
| App.OnDialogClick | src/App.tsx:209-222 | clicking the backdrop or the close button toggles the dialog; a click inside it does nothing, because propagation is stopped |
| App.DialogClicks | src/App.tsx:209-269 | with the dialog open, a backdrop or close click closes it and changes nothing else |
| App.AvatarPixels | src/App.tsx:284 | the avatar size is at least 120 px, and is `1.2 * avatarSize` from a size of 100 up |
| App.Render | src/App.tsx:161-290 | the three captions follow their flags; the dialog shows exactly when `showSettings` is set; the avatar is mounted exactly when it is visible and the text is non-empty, with the state's text, language, speed, activity, corner and opacity and a size of `AvatarPixels(avatarSize)`, at least 120 |
| App.CaptionsFollowTheirFlag | src/App.tsx:161-187 | each caption depends only on its own flag, and flipping the flag changes it |
| App.InitialView | src/App.tsx:25-37 | initially no avatar is mounted, no dialog is shown, and the avatar size would be 120 |
| App.CloseUnmountsAvatar | src/App.tsx:279-289 | after the avatar's close button, no avatar is mounted |
| App.AvatarOnScreen | src/App.tsx:279-290 | the corner avatar is on screen exactly when it is visible and active and the text is not blank |
| DemoVideoPlayer.Player.constructor | src/components/DemoVideoPlayer.tsx:10-12 | playing, muted and fullscreen all start false |
| DemoVideoPlayer.Player.TogglePlay | src/components/DemoVideoPlayer.tsx:14 | play flips and the other two flags are kept |
| DemoVideoPlayer.Player.ToggleMute | src/components/DemoVideoPlayer.tsx:15 | mute flips and the other two flags are kept |
| DemoVideoPlayer.Player.ToggleFullscreen | src/components/DemoVideoPlayer.tsx:16 | fullscreen flips and the other two flags are kept |
| DemoVideoPlayer.Dots | src/components/DemoVideoPlayer.tsx:103-110 | dot `i` is at `20 + 15i` % from the left and `30 + 10i` % from the top, for five dots |
| DemoVideoPlayer.Render | src/components/DemoVideoPlayer.tsx:42-89 | the pause icon shows exactly when playing; the crossed-out volume icon shows exactly when muted; the badge shows exactly in overlay mode; the caption follows overlay mode |
| DemoVideoPlayer.FullscreenIsNotRendered | src/components/DemoVideoPlayer.tsx:16 | the fullscreen flag changes nothing on screen |
| DemoVideoPlayer.CaptionFollowsOverlayMode | src/components/DemoVideoPlayer.tsx:42-89 | the caption, the badge and the dots depend only on overlay mode |
| DemoVideoPlayer.DotsDiagonal | src/components/DemoVideoPlayer.tsx:103-110 | the dots strictly increase in both coordinates and stay within 20-80 % and 30-70 % |

## Left out

- Drawing calls, gradients, fonts and colours are left out. Only the coordinates and texts that the drawing code computes are modelled; the calls that paint them are not.
- framer-motion animations, Tailwind classes other than the corner placement, icons and layout are left out, because they are presentation only.
- The `requestAnimationFrame` scheduling, the resize listener and the effect clean-up in `StardustVortex.tsx` are left out. Each call of `Animate` is one frame, and the viewport size is fixed when the field is built.
- The radial backdrop gradient drawn each frame (`StardustVortex.tsx:56-66`) is left out, because it does not depend on any state.
- `SettingsPanel.tsx` and `Footer.tsx` are not part of this model. `App.tsx` renders its own settings dialog, which is modelled.
- The speed and size sliders of `ControlPanel.tsx` are left out. Their `parseFloat`/`parseInt` of the slider value, and the opacity slider's, are modelled only as a real passed to the handler.
- The `Math.round` percentage labels are left out.
- `StardustVortex.ParticleField.Animate`: the respawn draws are modelled as one pair of random values per particle per frame. The source draws them only when a particle respawns. The values used are the same; the model does not track how many calls were made.
- The effects' early returns when no canvas or no 2D context exists (`FloatingAvatar.tsx:32-36`, `SignLanguageAvatar.tsx:24-28`, `StardustVortex.tsx:20-24`) are left out. A missing 2D context is the only failure the program handles, and it only skips drawing. The models assume a canvas with a context. For the corner avatar, `FloatingAvatar.PlaceholderUnreachable` shows when its canvas is absent.
- Strings are modelled as sequences of Unicode code points, not UTF-16 code units. Text outside the Basic Multilingual Plane is therefore counted (`TextInput.tsx:73`) and cut (`FloatingAvatar.tsx:135`, `SignLanguageAvatar.tsx:173`) differently from the browser. The browser counts such a character twice and can cut between its two halves.
- IEEE-754 rounding is left out: numbers are exact reals, and `Math.PI * 2` is the constant 6.283185307179586.
- `FloatingAvatar.PoseAt`, `SignLanguageAvatar.PoseAt`: bounded by the range of sine and cosine only; the exact trigonometric values are not modelled.
- The `speed`, `size` and `opacity` props of the avatars only reach CSS or are unused by the drawing code, so they are carried but not interpreted.
