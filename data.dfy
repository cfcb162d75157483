/**
 * The shapes the core reads: an ID card as the `data` package delivers it,
 * raw bytes, and a decoded image reduced to its bounds.
 */
module Data {

  type Byte = bv8
  type Bytes = seq<Byte>

  /** Errors are the text a Go `error` prints; wrapping (`fmt.Errorf("...: %w", err)`) is concatenation. */
  type Error = string

  /** `Attributes.Type` of a card; the Url/Base64 tag is carried but the core never consults it. */
  datatype Kind = Url | Base64 | Html

  /** One ID card face: identifier, content kind, face label ("front", "back", "combined") and source. */
  datatype Card = Card(id: string, kind: Kind, face: string, source: string)
  {
    predicate IsHtml() { kind == Html }
  }

  /**
   * A decoded image, reduced to the width and height of its bounds
   * (`bounds.Dx()`, `bounds.Dy()`); pixel data is not modelled.
   */
  datatype Image = Image(width: nat, height: nat)
}
