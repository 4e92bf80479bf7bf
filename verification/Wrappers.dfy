/** The optional value used for nullable columns and absent results. */
module Wrappers {

  datatype Option<+T> = None | Some(value: T)
}

/** What several services share: the listing providers, and the white space that trimming removes. */
module Shared {

  datatype Provider = Bridge | Spark

  /** unicode.IsSpace. */
  predicate IsSpace(c: char) {
    || '\t' <= c <= '\r' || c == ' ' || c == '\U{0085}' || c == '\U{00A0}' || c == '\U{1680}'
    || '\U{2000}' <= c <= '\U{200A}' || c == '\U{2028}' || c == '\U{2029}' || c == '\U{202F}' || c == '\U{205F}' ||
      c == '\U{3000}'
  }
}
