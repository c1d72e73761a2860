/** The settings panel of the gradient theme. It keeps no state: it shows
    the current corner as a formatted label, offers the corner buttons and the
    opacity slider only in overlay mode, and reports choices through its
    callbacks. */
module ControlPanel {
  import opened JsText
  import opened Choices
  import opened Wrappers

  /** The index of the first occurrence of `c` in `s`, or `|s|` if none. */
  function IndexOf(s: string, c: char): (i: nat)
    ensures i <= |s|
    ensures i < |s| ==> s[i] == c
    ensures forall j :: 0 <= j < i ==> s[j] != c
  {
    if |s| == 0 then 0
    else if s[0] == c then 0
    else 1 + IndexOf(s[1..], c)
  }

  /** `s.replace('-', ' ')`: a string pattern replaces its first occurrence only. */
  function ReplaceFirstDash(s: string): (r: string)
    ensures |r| == |s|
    ensures forall j :: 0 <= j < |s| && j != IndexOf(s, '-') ==> r[j] == s[j]
    ensures IndexOf(s, '-') < |s| ==> r[IndexOf(s, '-')] == ' '
  {
    var i := IndexOf(s, '-');
    if i < |s| then s[..i] + " " + s[i + 1..] else s
  }

  /** `s.replace(/\b\w/g, l => l.toUpperCase())`, scanning left to right;
      `prevWord` says whether the character before `s` was a `\w` character.
      A `\w` character right after a non-`\w` one (or at the start) opens a
      word and is upper-cased; every other character is kept. */
  function CapitalizeWords(s: string, prevWord: bool): (r: string)
    ensures |r| == |s|
    ensures forall j :: 0 <= j < |s| ==>
              r[j] == if IsWordChar(s[j]) && (if j == 0 then !prevWord else !IsWordChar(s[j - 1]))
                      then ToUpper(s[j]) else s[j]
  {
    if |s| == 0 then ""
    else
      var c := if IsWordChar(s[0]) && !prevWord then ToUpper(s[0]) else s[0];
      var rest := CapitalizeWords(s[1..], IsWordChar(s[0]));
      var r := [c] + rest;
      forall j | 0 <= j < |s|
        ensures r[j] == if IsWordChar(s[j]) && (if j == 0 then !prevWord else !IsWordChar(s[j - 1]))
                        then ToUpper(s[j]) else s[j]
      {
        if j > 0 {
          assert r[j] == rest[j - 1] && s[j] == s[1..][j - 1];
          if j > 1 {
            assert s[j - 1] == s[1..][j - 2];
          }
        }
      }
      r
  }

  /** The label shown next to "Overlay Position" (line 224). */
  function FormatPosition(key: string): (r: string)
    ensures |r| == |key|
  {
    CapitalizeWords(ReplaceFirstDash(key), false)
  }

  predicate IsLowerWord(w: string) {
    |w| > 0 && forall j :: 0 <= j < |w| ==> 'a' <= w[j] <= 'z'
  }

  /** A word with its first letter upper-cased. */
  function Capitalized(w: string): string
    requires |w| > 0
  {
    [ToUpper(w[0])] + w[1..]
  }

  /** Two lower-case words joined by a dash format as the two words
      capitalised and joined by a space. */
  lemma FormatTwoWords(w1: string, w2: string)
    requires IsLowerWord(w1) && IsLowerWord(w2)
    ensures FormatPosition(w1 + "-" + w2) == Capitalized(w1) + " " + Capitalized(w2)
  {
    var key := w1 + "-" + w2;
    var n := |w1|;
    assert key[n] == '-';
    assert forall j :: 0 <= j < n ==> key[j] == w1[j];
    assert forall j :: n < j < |key| ==> key[j] == w2[j - n - 1];
    var i := IndexOf(key, '-');
    assert i == n;
    var spaced := ReplaceFirstDash(key);
    var r := FormatPosition(key);
    var expected := Capitalized(w1) + " " + Capitalized(w2);
    assert |r| == |expected|;
    forall j | 0 <= j < |r|
      ensures r[j] == expected[j]
    {
      if j < n {
        assert spaced[j] == w1[j];
        if j > 0 { assert spaced[j - 1] == w1[j - 1]; }
      } else if j == n {
        assert spaced[j] == ' ';
      } else {
        assert spaced[j] == w2[j - n - 1];
        if j > n + 1 { assert spaced[j - 1] == w2[j - n - 2]; }
      }
    }
  }

  /** One corner: its key is `w1-w2` and its label `c1 c2`. */
  lemma FormatCorner(p: Position, w1: string, w2: string, c1: string, c2: string)
    requires IsLowerWord(w1) && IsLowerWord(w2)
    requires PositionKey(p) == w1 + "-" + w2
    requires Capitalized(w1) == c1 && Capitalized(w2) == c2
    requires PositionLabel(p) == c1 + " " + c2
    ensures FormatPosition(PositionKey(p)) == PositionLabel(p)
  {
    FormatTwoWords(w1, w2);
  }

  /** For each corner the formatted key is exactly that corner's button label. */
  lemma FormattedKeyIsLabel(p: Position)
    ensures FormatPosition(PositionKey(p)) == PositionLabel(p)
  {
    assert ToUpper('t') == 'T' && ToUpper('b') == 'B' && ToUpper('l') == 'L' && ToUpper('r') == 'R';
    var top, bottom, left, right := Capitalized("top"), Capitalized("bottom"), Capitalized("left"), Capitalized("right");
    assert top == "Top" && bottom == "Bottom" && left == "Left" && right == "Right";
    match p
    case TopLeft =>
      assert "top" + "-" + "left" == "top-left" && top + " " + left == "Top Left";
      FormatCorner(p, "top", "left", top, left);
    case TopRight =>
      assert "top" + "-" + "right" == "top-right" && top + " " + right == "Top Right";
      FormatCorner(p, "top", "right", top, right);
    case BottomLeft =>
      assert "bottom" + "-" + "left" == "bottom-left" && bottom + " " + left == "Bottom Left";
      FormatCorner(p, "bottom", "left", bottom, left);
    case BottomRight =>
      assert "bottom" + "-" + "right" == "bottom-right" && bottom + " " + right == "Bottom Right";
      FormatCorner(p, "bottom", "right", bottom, right);
  }

  /** Only the first dash is replaced: a second one survives. */
  lemma OnlyFirstDashReplaced()
    ensures ReplaceFirstDash("a-b-c") == "a b-c"
    ensures FormatPosition("a-b-c") == "A B-C"
  {
    assert IndexOf("a-b-c", '-') == 1;
    assert ReplaceFirstDash("a-b-c") == "a b-c";
    var r := FormatPosition("a-b-c");
    assert ToUpper('a') == 'A' && ToUpper('b') == 'B' && ToUpper('c') == 'C';
    assert r[0] == 'A' && r[1] == ' ' && r[2] == 'B' && r[3] == '-' && r[4] == 'C';
  }

  /** A corner button: its key, its caption, whether it is highlighted and
      the corner its click passes to `onOverlayPositionChange`. */
  datatype PositionButton = PositionButton(key: string, caption: string, highlighted: bool, emits: Position)

  /** The button grid order (lines 229-233). */
  const ButtonOrder: seq<Position> := [TopLeft, TopRight, BottomLeft, BottomRight]

  function ButtonFor(p: Position, current: Position): PositionButton {
    PositionButton(PositionKey(p), PositionLabel(p), PositionKey(p) == PositionKey(current), p)
  }

  /** The corner buttons in grid order, given the current corner. */
  function PositionButtons(current: Position): (bs: seq<PositionButton>)
    ensures |bs| == 4
  {
    seq(4, i requires 0 <= i < 4 => ButtonFor(ButtonOrder[i], current))
  }

  /** A language option: the value the select passes to `onSignLanguageChange`
      and its caption. */
  datatype LanguageOption = LanguageOption(value: SignLanguage, caption: string)

  const LanguageOptions: seq<LanguageOption> := [
    LanguageOption(ASL, "American Sign Language (ASL)"),
    LanguageOption(BSL, "British Sign Language (BSL)"),
    LanguageOption(AUSLAN, "Australian Sign Language (AUSLAN)")
  ]

  /** The overlay-only part of the panel. */
  datatype OverlayControls = OverlayControls(positionLabel: string, buttons: seq<PositionButton>, opacity: real)

  datatype View = View(
    language: SignLanguage,
    options: seq<LanguageOption>,
    speed: real,
    size: real,
    overlay: Option<OverlayControls>)

  function Render(language: SignLanguage, speed: real, size: real, overlayMode: bool,
                  overlayPosition: Position, overlayOpacity: real): (v: View)
    ensures v.overlay.Some? <==> overlayMode
    ensures v.options == LanguageOptions
    ensures v.overlay.Some? ==> v.overlay.value.buttons == PositionButtons(overlayPosition)
                                && |v.overlay.value.buttons| == 4
                                && v.overlay.value.positionLabel == PositionLabel(overlayPosition)
  {
    FormattedKeyIsLabel(overlayPosition);
    View(language, LanguageOptions, speed, size,
         if overlayMode then
           Some(OverlayControls(FormatPosition(PositionKey(overlayPosition)),
                                PositionButtons(overlayPosition),
                                overlayOpacity))
         else None)
  }

  /** Exactly one corner button is highlighted, the one whose key is the
      current corner, and every button reports its own corner. */
  lemma ExactlyOneHighlighted(current: Position)
    ensures var bs := PositionButtons(current);
            && (forall i :: 0 <= i < |bs| ==> (bs[i].highlighted <==> bs[i].emits == current))
            && (forall i :: 0 <= i < |bs| ==> bs[i].key == PositionKey(bs[i].emits))
            && (exists i :: 0 <= i < |bs| && bs[i].highlighted)
            && (forall i, j :: 0 <= i < j < |bs| ==> !(bs[i].highlighted && bs[j].highlighted))
  {
    var bs := PositionButtons(current);
    forall i | 0 <= i < |bs|
      ensures bs[i].highlighted <==> bs[i].emits == current
    {
      if bs[i].emits != current {
        KeysAndLabelsDistinct(bs[i].emits, current);
      }
    }
    var k := match current
             case TopLeft => 0
             case TopRight => 1
             case BottomLeft => 2
             case BottomRight => 3;
    assert bs[k].emits == current;
  }

  /** Each language option reports its own language, and the three options
      cover the three languages once each. */
  lemma LanguageOptionsCover(l: SignLanguage)
    ensures exists i :: 0 <= i < |LanguageOptions| && LanguageOptions[i].value == l
    ensures forall i, j :: 0 <= i < j < |LanguageOptions| ==> LanguageOptions[i].value != LanguageOptions[j].value
  {
    match l
    case ASL => assert LanguageOptions[0].value == l;
    case BSL => assert LanguageOptions[1].value == l;
    case AUSLAN => assert LanguageOptions[2].value == l;
  }
}
