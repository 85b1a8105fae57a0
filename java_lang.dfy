/**
 * The few pieces of the Java platform that the modelled code relies on:
 * `String.contains`, `String.equalsIgnoreCase`, `String.hashCode`,
 * `Long.hashCode` and Guava's two-argument `Objects.hashCode`.
 */
module JavaLang {

  /** Java's 64-bit `long`. */
  newtype Long = x: int | -0x8000_0000_0000_0000 <= x < 0x8000_0000_0000_0000

  /** `sub` occurs in `s` starting at offset `i`. */
  predicate OccursAt(s: string, sub: string, i: int) {
    0 <= i <= |s| - |sub| && s[i..i + |sub|] == sub
  }

  /** `s.contains(sub)`: `sub` occurs in `s` at some offset. */
  predicate Contains(s: string, sub: string) {
    exists i | 0 <= i <= |s| - |sub| :: OccursAt(s, sub, i)
  }

  /** Every string contains the empty string. */
  lemma ContainsEmpty(s: string)
    ensures Contains(s, "")
  {
    assert OccursAt(s, "", 0);
  }

  /** A string contains itself. */
  lemma ContainsSelf(s: string)
    ensures Contains(s, s)
  {
    assert OccursAt(s, s, 0);
  }

  /**
   * Case folding used by `equalsIgnoreCase`. Two characters are equal ignoring
   * case in Java when they are equal, or their upper cases are, or the lower
   * cases of their upper cases are. When one of the two characters is ASCII,
   * that holds exactly when their folds below agree: besides the ASCII letters,
   * only LATIN SMALL LETTER LONG S (upper case 'S'), LATIN SMALL LETTER DOTLESS I
   * (upper case 'I'), LATIN CAPITAL LETTER I WITH DOT ABOVE (lower case 'i') and
   * KELVIN SIGN (lower case 'k') meet an ASCII letter under Java's mappings.
   */
  function FoldCase(c: char): char {
    if 'A' <= c <= 'Z' then (c as int + 32) as char
    else if c == '\U{017F}' then 's'
    else if c == '\U{0131}' || c == '\U{0130}' then 'i'
    else if c == '\U{212A}' then 'k'
    else c
  }

  /** `a.equalsIgnoreCase(b)`, exact whenever one of the strings is ASCII. */
  predicate EqualsIgnoreCase(a: string, b: string) {
    |a| == |b| && forall i | 0 <= i < |a| :: FoldCase(a[i]) == FoldCase(b[i])
  }

  /** ASCII upper case of one character (other characters are left alone). */
  function UpperChar(c: char): (u: char)
    ensures FoldCase(u) == FoldCase(c)
  {
    if 'a' <= c <= 'z' then (c as int - 32) as char else c
  }

  /** ASCII upper case of a string: no lower-case ASCII letter is left, and it equals `s` ignoring case. */
  function ToUpperAscii(s: string): (u: string)
    ensures forall i | 0 <= i < |u| :: !('a' <= u[i] <= 'z')
    ensures EqualsIgnoreCase(u, s)
  {
    seq(|s|, i requires 0 <= i < |s| => UpperChar(s[i]))
  }

  /** Upper-casing one side does not change whether two strings are equal ignoring case. */
  lemma EqualsIgnoreCaseUpper(a: string, b: string)
    ensures EqualsIgnoreCase(ToUpperAscii(a), b) == EqualsIgnoreCase(a, b)
  {
  }

  /**
   * A Java `int` as its 32-bit pattern read unsigned: Java's wrap-around
   * arithmetic on `int` is arithmetic modulo 2^32 on these values.
   */
  type IntBits = x: int | 0 <= x < 0x1_0000_0000

  /** The 32-bit pattern of `x`, as a Java cast to `int` keeps it. */
  function Wrap(x: int): IntBits {
    x % 0x1_0000_0000
  }

  /** `String.hashCode`: h = 31 * h + c over the characters, wrapping at 32 bits. */
  function StringHash(s: string): IntBits
    decreases |s|
  {
    if s == [] then 0
    else Wrap(StringHash(s[..|s| - 1]) * 31 + s[|s| - 1] as int)
  }

  /** `Long.hashCode`: the low 32 bits of `value ^ (value >>> 32)`. */
  function LongHash(x: Long): IntBits {
    var b := (if x < 0 then x as int + 0x1_0000_0000_0000_0000 else x as int) as bv64;
    Wrap((b ^ (b >> 32)) as int)
  }

  /** Guava's `Objects.hashCode(a, b)`, given the hash codes of `a` and `b` (0 for null). */
  function ObjectsHash(ha: IntBits, hb: IntBits): IntBits {
    Wrap(31 * (31 * 1 + ha) + hb)
  }

  /** "ab".hashCode() is 97 * 31 + 98, and a small long hashes to itself. */
  lemma HashExamples()
    ensures StringHash("ab") == 3105
    ensures LongHash(7) == 7
  {
    assert "ab"[..1] == "a";
    assert "a"[..0] == "";
  }
}
