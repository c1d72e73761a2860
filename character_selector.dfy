/** The signer picker: one card per catalogue entry, the selected entry's
    description above them, and a click on a card reporting that card's
    character. It keeps no state of its own. */
module CharacterSelector {
  import opened Wrappers
  import opened CharacterCatalog

  /** `cs.find(c => c.id === id)`: the first record with that id, if any. */
  function Find(cs: seq<CharacterData>, id: Character): (r: Option<CharacterData>)
    ensures r.None? <==> forall i :: 0 <= i < |cs| ==> cs[i].id != id
    ensures r.Some? ==> exists i :: 0 <= i < |cs| && cs[i] == r.value && r.value.id == id
                                    && forall j :: 0 <= j < i ==> cs[j].id != id
  {
    if cs == [] then None
    else if cs[0].id == id then Some(cs[0])
    else
      var r := Find(cs[1..], id);
      assert forall i :: 1 <= i < |cs| ==> cs[i] == cs[1..][i - 1];
      r
  }

  /** The header text: `characterArray.find(c => c.id === selected)?.description`. */
  function Description(selected: Character): Option<string> {
    match Find(CharacterArray, selected)
    case None => None
    case Some(c) => Some(c.description)
  }

  /** The lookup always succeeds and shows the selected character's own
      description. */
  lemma DescriptionIsSelected(selected: Character)
    ensures Description(selected) == Some(Characters(selected).description)
  {
    CharacterArrayInKeyOrder();
    KeyOrderEnumeratesCharacter(selected);
    var r := Find(CharacterArray, selected);
    assert r.Some?;
    var i :| 0 <= i < 4 && CharacterArray[i] == r.value && r.value.id == selected;
    IdIsKey(KeyOrder[i]);
  }

  /** What one rendered card shows and what clicking it reports. */
  datatype Card = Card(
    id: Character,
    name: string,
    previewColor: string,
    previewAccent: string,
    isSelected: bool,
    background: string,
    borderColor: string,
    borderWidth: nat,
    badge: bool,
    clickEmits: Character)

  /** The card for one record, given the selected character. */
  function CardFor(c: CharacterData, selected: Character): Card {
    var on := selected == c.id;
    Card(c.id, c.name, c.color, c.accentColor, on,
         if on then c.accentColor + "20" else "rgba(255, 255, 255, 0.03)",
         if on then c.accentColor else "transparent",
         if on then 2 else 0,
         on,
         c.id)
  }

  /** `characterArray.map(...)`: one card per record, in array order. */
  function Cards(selected: Character): (cards: seq<Card>)
    ensures |cards| == |CharacterArray|
    ensures forall i :: 0 <= i < |cards| ==>
              cards[i].id == CharacterArray[i].id && cards[i].name == CharacterArray[i].name
  {
    seq(|CharacterArray|, i requires 0 <= i < |CharacterArray| => CardFor(CharacterArray[i], selected))
  }

  /** Clicking any card reports that card's own character. */
  lemma ClickEmitsCardId(selected: Character, i: nat)
    requires i < |Cards(selected)|
    ensures Cards(selected)[i].clickEmits == Cards(selected)[i].id == KeyOrder[i]
  {
    CharacterArrayInKeyOrder();
  }

  /** Exactly one card carries the selection: the one for `selected`. */
  lemma ExactlyOneSelectedCard(selected: Character)
    ensures exists i :: 0 <= i < |Cards(selected)| && Cards(selected)[i].id == selected
    ensures forall i :: 0 <= i < |Cards(selected)| ==>
              (Cards(selected)[i].isSelected <==> Cards(selected)[i].id == selected)
    ensures forall i, j :: 0 <= i < j < |Cards(selected)| ==>
              !(Cards(selected)[i].isSelected && Cards(selected)[j].isSelected)
  {
    CharacterArrayInKeyOrder();
    KeyOrderEnumeratesCharacter(selected);
  }

  /** The selected card is tinted, bordered in its accent colour and badged;
      every other card is plain. */
  lemma CardStyling(selected: Character, i: nat)
    requires i < |Cards(selected)|
    ensures var card := Cards(selected)[i];
            var accent := CharacterArray[i].accentColor;
            if card.isSelected then
              card.background == accent + "20" && card.borderColor == accent
              && card.borderWidth == 2 && card.badge
            else
              card.background == "rgba(255, 255, 255, 0.03)" && card.borderColor == "transparent"
              && card.borderWidth == 0 && !card.badge
  {
  }
}
