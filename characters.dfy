/** The catalogue of cosmetic signer characters: the `Character` union, the
    `characters` record keyed by it and `characterArray`, the record's
    values in key order. */
module CharacterCatalog {

  /** `'luna' | 'zephyr' | 'iris' | 'phoenix'` */
  datatype Character = Luna | Zephyr | Iris | Phoenix

  /** The string a `Character` value stands for. */
  function CharacterKey(c: Character): string {
    match c
    case Luna => "luna"
    case Zephyr => "zephyr"
    case Iris => "iris"
    case Phoenix => "phoenix"
  }

  datatype CharacterData = CharacterData(
    id: Character,
    name: string,
    color: string,
    accentColor: string,
    description: string)

  /** `characters[c]` */
  function Characters(c: Character): CharacterData {
    match c
    case Luna => CharacterData(Luna, "Luna", "#e0e7ff", "#818cf8", "Gentle and calm")
    case Zephyr => CharacterData(Zephyr, "Zephyr", "#cffafe", "#06b6d4", "Swift and graceful")
    case Iris => CharacterData(Iris, "Iris", "#fbcfe8", "#ec4899", "Vibrant and expressive")
    case Phoenix => CharacterData(Phoenix, "Phoenix", "#fed7aa", "#f97316", "Warm and energetic")
  }

  /** The keys of `characters` in the order they are written. */
  const KeyOrder: seq<Character> := [Luna, Zephyr, Iris, Phoenix]

  /** `Object.values(characters)`: the records in key order. */
  const CharacterArray: seq<CharacterData> :=
    [Characters(Luna), Characters(Zephyr), Characters(Iris), Characters(Phoenix)]

  /** The union has exactly the four values of `KeyOrder`, each once. */
  lemma KeyOrderEnumeratesCharacter(c: Character)
    ensures c in KeyOrder
    ensures forall i, j :: 0 <= i < j < |KeyOrder| ==> KeyOrder[i] != KeyOrder[j]
  {
  }

  /** Every record's `id` is the key it is stored under. */
  lemma IdIsKey(c: Character)
    ensures Characters(c).id == c
  {
  }

  /** `characterArray` holds the four records in key order. */
  lemma CharacterArrayInKeyOrder()
    ensures |CharacterArray| == 4
    ensures forall i :: 0 <= i < 4 ==> CharacterArray[i] == Characters(KeyOrder[i])
    ensures forall i :: 0 <= i < 4 ==> CharacterArray[i].id == KeyOrder[i]
  {
  }

  /** Ids and names are pairwise distinct (and so are the string keys). */
  lemma IdsAndNamesDistinct(c: Character, d: Character)
    requires c != d
    ensures Characters(c).id != Characters(d).id
    ensures Characters(c).name != Characters(d).name
    ensures CharacterKey(c) != CharacterKey(d)
  {
  }

  predicate IsHexDigit(ch: char) {
    ('0' <= ch <= '9') || ('a' <= ch <= 'f') || ('A' <= ch <= 'F')
  }

  /** A CSS colour written `#rrggbb`. */
  predicate IsHexColor(s: string) {
    |s| == 7 && s[0] == '#' && forall i :: 1 <= i < 7 ==> IsHexDigit(s[i])
  }

  /** Every colour and accent colour of the catalogue is `#` and six hex digits. */
  lemma ColorsAreHex(c: Character)
    ensures IsHexColor(Characters(c).color)
    ensures IsHexColor(Characters(c).accentColor)
  {
  }
}
