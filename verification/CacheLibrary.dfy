/** What the answer cache takes from libraries: characters, digests, square roots, floats. */
module CacheLibrary {
  /** The 32 bits of a stored float, and one byte of a blob. */
  type Word = x: int | 0 <= x < 0x1_0000_0000
  type Byte = x: int | 0 <= x < 0x100

  /** Library functions the cache calls: lower-casing a text, SHA-256 as hex, the square root, and the
      number a float32 word stands for. */
  datatype Library = Library(
    lower: string -> string,
    digest: string -> string,
    sqrt: real -> real,
    value: Word -> real)

  /** A text without white space. */
  predicate Solid(s: string) { forall c :: c in s ==> !IsSpace(c) }

  /** What is known of lower-casing: white space stays and separates, so a character's lower case depends on
      its own word only, which may grow or shrink but neither vanishes nor gains white space; and a word in
      lower case stays as it is. */
  ghost predicate Lowers(lib: Library) {
    && lib.lower([]) == []
    && (forall a, c, b :: IsSpace(c) ==> lib.lower(a + [c] + b) == lib.lower(a) + [c] + lib.lower(b))
    && (forall w :: Solid(w) ==> Solid(lib.lower(w)) && lib.lower(lib.lower(w)) == lib.lower(w))
    && (forall w :: Solid(w) && w != [] ==> lib.lower(w) != [])
  }

  ghost predicate Roots(lib: Library) {
    forall x :: x >= 0.0 ==> lib.sqrt(x) >= 0.0 && lib.sqrt(x) * lib.sqrt(x) == x
  }

  /** Unicode white space, as both `str.strip` and `\s` understand it. */
  predicate IsSpace(c: char) {
    || '\U{0009}' <= c <= '\U{000D}' || '\U{001C}' <= c <= ' '
    || c in ['\U{0085}', '\U{00A0}', '\U{1680}', '\U{2028}', '\U{2029}', '\U{202F}', '\U{205F}', '\U{3000}']
    || '\U{2000}' <= c <= '\U{200A}'
  }
}
