/** The enumerations the components share: the sign language tag and the
    overlay corner, both string unions in the source. */
module Choices {

  /** `'ASL' | 'BSL' | 'AUSLAN'` */
  datatype SignLanguage = ASL | BSL | AUSLAN

  /** The string the union member stands for. */
  function LanguageTag(l: SignLanguage): string
  {
    match l
    case ASL => "ASL"
    case BSL => "BSL"
    case AUSLAN => "AUSLAN"
  }

  /** `'bottom-left' | 'bottom-right' | 'top-left' | 'top-right'` */
  datatype Position = BottomLeft | BottomRight | TopLeft | TopRight

  /** The string key of a corner. */
  function PositionKey(p: Position): (key: string)
    ensures key == (if p in {TopLeft, TopRight} then "top" else "bottom") + "-"
                   + (if p in {BottomLeft, TopLeft} then "left" else "right")
  {
    match p
    case BottomLeft => "bottom-left"
    case BottomRight => "bottom-right"
    case TopLeft => "top-left"
    case TopRight => "top-right"
  }

  /** The human-readable label both button lists pair with each key. */
  function PositionLabel(p: Position): (caption: string)
    ensures |caption| == |PositionKey(p)|
  {
    match p
    case BottomLeft => "Bottom Left"
    case BottomRight => "Bottom Right"
    case TopLeft => "Top Left"
    case TopRight => "Top Right"
  }

  /** Distinct corners have distinct keys and distinct labels. */
  lemma KeysAndLabelsDistinct(p: Position, q: Position)
    requires p != q
    ensures PositionKey(p) != PositionKey(q)
    ensures PositionLabel(p) != PositionLabel(q)
  {
  }
}
