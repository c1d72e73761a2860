/** The text box: its character and word counters, the send button's
    enablement, the "Ready to sign" badge versus the example suggestions, and
    the focus flag. */
module TextInput {
  import opened JsText

  /** `value.split(' ')`: the pieces between single space characters. Only
      the space separates; tabs and line breaks stay inside a piece. */
  function SplitOnSpace(s: string): (pieces: seq<string>)
    ensures |pieces| >= 1
    ensures |pieces[0]| > 0 <==> |s| > 0 && s[0] != ' '
  {
    if |s| == 0 then [""]
    else
      var rest := SplitOnSpace(s[1..]);
      if s[0] == ' ' then [""] + rest
      else [[s[0]] + rest[0]] + rest[1..]
  }

  /** No piece holds a space, and joining the pieces with single spaces
      gives back the text. */
  lemma {:induction false} SplitJoinRoundTrip(s: string)
    ensures forall i :: 0 <= i < |SplitOnSpace(s)| ==> ' ' !in SplitOnSpace(s)[i]
    ensures JoinWithSpace(SplitOnSpace(s)) == s
  {
    if |s| > 0 {
      var c, t := s[0], s[1..];
      assert s == [c] + t;
      SplitJoinRoundTrip(t);
      SplitCons(c, t);
      var rest := SplitOnSpace(t);
      if c == ' ' {
        assert ([""] + rest)[1..] == rest;
      } else {
        var pieces := [[c] + rest[0]] + rest[1..];
        assert rest[0] in rest;
        if |rest| > 1 {
          assert rest == [rest[0]] + rest[1..];
          assert JoinWithSpace(rest) == rest[0] + " " + JoinWithSpace(rest[1..]);
          assert pieces[1..] == rest[1..];
        }
        forall i | 1 <= i < |pieces|
          ensures ' ' !in pieces[i]
        {
          assert pieces[i] == rest[i];
        }
      }
    }
  }

  /** `pieces.join(' ')`, the inverse of `SplitOnSpace`. */
  function JoinWithSpace(pieces: seq<string>): string {
    if |pieces| == 0 then ""
    else if |pieces| == 1 then pieces[0]
    else pieces[0] + " " + JoinWithSpace(pieces[1..])
  }

  /** `.filter(word => word.length > 0)` */
  function NonEmpty(pieces: seq<string>): (words: seq<string>)
    ensures |words| <= |pieces|
    ensures forall w :: w in words ==> w in pieces && |w| > 0
    ensures forall w :: w in pieces && |w| > 0 ==> w in words
  {
    if |pieces| == 0 then []
    else if |pieces[0]| > 0 then [pieces[0]] + NonEmpty(pieces[1..])
    else NonEmpty(pieces[1..])
  }

  /** The "characters" counter: `value.length`. */
  function CharCount(value: string): nat {
    |value|
  }

  /** The "words" counter: `value.split(' ').filter(word => word.length > 0).length`. */
  function WordCount(value: string): nat {
    |NonEmpty(SplitOnSpace(value))|
  }

  /** Reference count of words: the positions holding a non-space character
      whose predecessor is a space or the start of the text.
      `afterSpace` says whether the character before `s` was a space. */
  function WordStarts(s: string, afterSpace: bool): nat {
    if |s| == 0 then 0
    else (if s[0] != ' ' && afterSpace then 1 else 0) + WordStarts(s[1..], s[0] == ' ')
  }

  /** The counter agrees with the reference count of word starts. The second
      conclusion is the part of it that lets the induction through: the
      words after the first piece are the starts that follow a non-space. */
  lemma {:induction false} WordCountIsWordStarts(s: string)
    ensures WordCount(s) == WordStarts(s, true)
    ensures |NonEmpty(SplitOnSpace(s)[1..])| == WordStarts(s, false)
  {
    if |s| > 0 {
      var rest := SplitOnSpace(s[1..]);
      WordCountIsWordStarts(s[1..]);
      if s[0] == ' ' {
        assert SplitOnSpace(s) == [""] + rest;
        assert SplitOnSpace(s)[1..] == rest;
      } else {
        var head := [s[0]] + rest[0];
        assert SplitOnSpace(s) == [head] + rest[1..];
        assert SplitOnSpace(s)[1..] == rest[1..];
        assert NonEmpty([head] + rest[1..]) == [head] + NonEmpty(rest[1..]);
      }
    }
  }

  /** Splitting a text that starts with a character other than a space
      glues that character to the first piece. */
  lemma SplitCons(c: char, t: string)
    ensures var rest := SplitOnSpace(t);
            SplitOnSpace([c] + t) == if c == ' ' then [""] + rest else [[c] + rest[0]] + rest[1..]
  {
    assert ([c] + t)[0] == c && ([c] + t)[1..] == t;
  }

  /** Gluing a character to the first piece commutes with appending more pieces. */
  lemma GlueAppend(c: char, tail: seq<string>, right: seq<string>)
    requires |tail| >= 1
    ensures [[c] + (tail + right)[0]] + (tail + right)[1..] == ([[c] + tail[0]] + tail[1..]) + right
  {
    assert (tail + right)[1..] == tail[1..] + right;
  }

  /** The inductive step of `SplitAroundSpace`: putting one character in
      front of the left side keeps the split concatenated. */
  lemma ConsAroundSpace(c: char, u: string, b: string)
    requires SplitOnSpace(u + " " + b) == SplitOnSpace(u) + SplitOnSpace(b)
    ensures SplitOnSpace([c] + (u + " " + b)) == SplitOnSpace([c] + u) + SplitOnSpace(b)
  {
    SplitCons(c, u + " " + b);
    SplitCons(c, u);
    if c != ' ' {
      GlueAppend(c, SplitOnSpace(u), SplitOnSpace(b));
    }
  }

  /** Splitting around one space concatenates the two sides' pieces. */
  lemma {:induction false} SplitAroundSpace(a: string, b: string)
    ensures SplitOnSpace(a + " " + b) == SplitOnSpace(a) + SplitOnSpace(b)
  {
    if |a| == 0 {
      assert a + " " + b == [' '] + b;
      SplitCons(' ', b);
    } else {
      var c, u := a[0], a[1..];
      assert a == [c] + u;
      assert a + " " + b == [c] + (u + " " + b);
      SplitAroundSpace(u, b);
      ConsAroundSpace(c, u, b);
    }
  }

  lemma {:induction false} NonEmptyAppend(p: seq<string>, q: seq<string>)
    ensures NonEmpty(p + q) == NonEmpty(p) + NonEmpty(q)
  {
    if |p| > 0 {
      assert (p + q)[1..] == p[1..] + q;
      NonEmptyAppend(p[1..], q);
    } else {
      assert p + q == q;
    }
  }

  /** Words on either side of a space add up: words(a + " " + b) = words(a) + words(b). */
  lemma WordCountAroundSpace(a: string, b: string)
    ensures NonEmpty(SplitOnSpace(a + " " + b)) == NonEmpty(SplitOnSpace(a)) + NonEmpty(SplitOnSpace(b))
    ensures WordCount(a + " " + b) == WordCount(a) + WordCount(b)
  {
    SplitAroundSpace(a, b);
    NonEmptyAppend(SplitOnSpace(a), SplitOnSpace(b));
  }

  /** The word count never exceeds the character count. */
  lemma {:induction false} WordStartsAtMostLength(s: string, afterSpace: bool)
    ensures WordStarts(s, afterSpace) <= |s|
  {
    if |s| > 0 {
      WordStartsAtMostLength(s[1..], s[0] == ' ');
    }
  }

  /** No word starts in a text exactly when it is made of spaces only
      (a text of tabs or line breaks still counts as one word). */
  lemma {:induction false} NoWordsIffOnlySpaces(s: string)
    ensures WordStarts(s, true) == 0 <==> forall i :: 0 <= i < |s| ==> s[i] == ' '
  {
    if |s| > 0 && s[0] == ' ' {
      NoWordsIffOnlySpaces(s[1..]);
      assert forall i :: 1 <= i < |s| ==> s[i] == s[1..][i - 1];
    }
  }

  /** Both counters together: the word count is at most the character count
      and is zero exactly for texts of spaces only, "" included. */
  lemma CountersAgree(value: string)
    ensures WordCount(value) <= CharCount(value)
    ensures WordCount(value) == 0 <==> forall i :: 0 <= i < |value| ==> value[i] == ' '
  {
    WordCountIsWordStarts(value);
    WordStartsAtMostLength(value, true);
    NoWordsIffOnlySpaces(value);
  }

  /** The four example texts offered under an empty box. */
  const Suggestions: seq<string> := [
    "Hello, how are you today?",
    "Welcome to our presentation",
    "Thank you for watching",
    "This is amazing technology"
  ]

  /** A suggestion button: its caption and the text its click passes to `onChange`. */
  datatype SuggestionButton = SuggestionButton(caption: string, emits: string)

  /** One button per example, in order, each passing on its own caption. */
  const SuggestionButtons: seq<SuggestionButton> := [
    SuggestionButton(Suggestions[0], Suggestions[0]),
    SuggestionButton(Suggestions[1], Suggestions[1]),
    SuggestionButton(Suggestions[2], Suggestions[2]),
    SuggestionButton(Suggestions[3], Suggestions[3])
  ]

  /** Each suggestion button passes exactly its own caption, one of the
      fixed examples, to `onChange`. */
  lemma SuggestionsEchoCaptions()
    ensures |SuggestionButtons| == |Suggestions|
    ensures forall i :: 0 <= i < |SuggestionButtons| ==>
              SuggestionButtons[i].emits == SuggestionButtons[i].caption == Suggestions[i]
  {
  }

  /** What the component shows for a given `value`. */
  datatype View = View(
    characters: nat,
    words: nat,
    sendDisabled: bool,
    readyBadge: bool,
    suggestions: seq<SuggestionButton>)

  function Render(value: string): (v: View)
    ensures v.sendDisabled <==> forall i :: 0 <= i < |value| ==> IsWhitespace(value[i])
    ensures v.readyBadge <==> |value| > 0
    ensures v.readyBadge <==> |v.suggestions| == 0
    ensures v.words == WordCount(value) <= v.characters == |value|
    ensures |value| == 0 ==> |v.suggestions| == |Suggestions|
    ensures |value| == 0 ==> forall i :: 0 <= i < |v.suggestions| ==>
              v.suggestions[i].emits == v.suggestions[i].caption == Suggestions[i]
  {
    BlankIffAllWhitespace(value);
    CountersAgree(value);
    SuggestionsEchoCaptions();
    View(CharCount(value), WordCount(value), IsBlank(value), |value| > 0,
         if |value| == 0 then SuggestionButtons else [])
  }

  /** The `isFocused` state cell, set by the focus and blur handlers. */
  class Field {
    var isFocused: bool

    constructor ()
      ensures !isFocused
    {
      isFocused := false;
    }

    method OnFocus()
      modifies this
      ensures isFocused
    {
      isFocused := true;
    }

    method OnBlur()
      modifies this
      ensures !isFocused
    {
      isFocused := false;
    }
  }
}
