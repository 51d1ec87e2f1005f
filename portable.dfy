/**
 * The pieces of content-repository documents that the import and repair
 * scripts build and rewrite: Portable Text blocks with their spans, and keyed
 * references. A `_key` is optional because documents written earlier may lack
 * one; an empty key counts as missing, as JavaScript's `||` treats it.
 */
module Portable {
  import opened Wrappers

  /** A span `{_key, _type, text}`. */
  datatype Span = Span(key: Option<string>, spanType: string, text: string)

  /** A block `{_key, _type, style, children}`; `children` may be absent. */
  datatype Block = Block(key: Option<string>, blockType: string, style: string, children: Option<seq<Span>>)

  /** A reference `{_key, _type: 'reference', _ref}` inside an array field. */
  datatype KeyedRef = KeyedRef(key: Option<string>, ref: string)

  /** A `_key` that is present and not empty. */
  predicate HasKey(key: Option<string>) {
    key.Some? && key.value != ""
  }
}
