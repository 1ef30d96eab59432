/** Lower-casing of request strings, standing for Rust's `str::to_lowercase`.
    The protocol lower-cases the claimed device kind and the socket `state` token
    before comparing them with fixed lower-case words. */
module Text {

  /** Lower case of one character for the letters the model covers: ASCII,
      the Latin-1 capitals, the Cyrillic capitals U+0400..U+042F (the
      second-language state tokens are Russian) and the two letter-like
      symbols that lower-case into those ranges, KELVIN SIGN (to `k`) and
      ANGSTROM SIGN (to `å`). Every other character is its own lower case. */
  function LowerChar(c: char): char
  {
    if 'A' <= c <= 'Z' then (c as int + 0x20) as char
    else if c == '\U{212A}' then 'k'
    else if c == '\U{212B}' then '\U{E5}'
    else if '\U{C0}' <= c <= '\U{DE}' && c != '\U{D7}' then (c as int + 0x20) as char
    else if '\U{400}' <= c <= '\U{40F}' then (c as int + 0x50) as char
    else if '\U{410}' <= c <= '\U{42F}' then (c as int + 0x20) as char
    else c
  }

  /** ASCII-only case folding, as Rust's `eq_ignore_ascii_case` uses it. */
  function AsciiLowerChar(c: char): char
  {
    if 'A' <= c <= 'Z' then (c as int + 0x20) as char else c
  }

  /** The lower-cased string: the character map applied position by position. */
  function Lower(s: string): (r: string)
    ensures |r| == |s|
    ensures forall i :: 0 <= i < |s| ==> r[i] == LowerChar(s[i])
  {
    if s == [] then [] else [LowerChar(s[0])] + Lower(s[1..])
  }

  function AsciiLower(s: string): (r: string)
    ensures |r| == |s|
    ensures forall i :: 0 <= i < |s| ==> r[i] == AsciiLowerChar(s[i])
  {
    if s == [] then [] else [AsciiLowerChar(s[0])] + AsciiLower(s[1..])
  }

  /** A lower-case letter whose upper-case partner lies 0x20 below it:
      `a`..`z` and the Cyrillic `а`..`я`. Of these only `k` has a second
      partner, the Kelvin sign. */
  predicate IsPairedLower(c: char)
  {
    'a' <= c <= 'z' || '\U{430}' <= c <= '\U{44F}'
  }

  /** `c` is one of the spellings of the letter `lo`, whose capital is `up`:
      the letter itself, its capital, or the Kelvin sign for `k`. */
  predicate SpellsLetter(c: char, lo: char, up: char)
  {
    c == lo || c == up || (lo == 'k' && c == '\U{212A}')
  }

  /** `s` spells `lo` letter by letter in either case, `up` being the upper-case spelling. */
  predicate CaseVariant(s: string, lo: string, up: string)
  {
    |s| == |lo| == |up| && forall i :: 0 <= i < |s| ==> SpellsLetter(s[i], lo[i], up[i])
  }

  /** The characters that lower-case to a paired lower-case letter are the
      letter, its capital and, for `k`, the Kelvin sign. */
  lemma LowerCharPreimage(c: char, x: char)
    requires IsPairedLower(x)
    ensures LowerChar(c) == x <==> SpellsLetter(c, x, (x as int - 0x20) as char)
  {
  }

  /** Lower-casing is idempotent. */
  lemma {:induction false} LowerIdempotent(s: string)
    ensures Lower(Lower(s)) == Lower(s)
  {
    if s != [] {
      LowerIdempotent(s[1..]);
      assert Lower(s)[1..] == Lower(s[1..]);
    }
  }

  /** A word made of paired lower-case letters is matched after lower-casing by
      exactly its case variants: the comparison `Lower(s) == lo` ignores case
      (and lets the Kelvin sign stand for `k`) and nothing else. */
  lemma LowerEqualsIffCaseVariant(s: string, lo: string, up: string)
    requires |lo| == |up|
    requires forall i :: 0 <= i < |lo| ==> IsPairedLower(lo[i]) && up[i] as int == lo[i] as int - 0x20
    ensures Lower(s) == lo <==> CaseVariant(s, lo, up)
  {
    if Lower(s) == lo {
      forall i | 0 <= i < |s| ensures SpellsLetter(s[i], lo[i], up[i]) {
        LowerCharPreimage(s[i], lo[i]);
      }
    }
    if CaseVariant(s, lo, up) {
      forall i | 0 <= i < |s| ensures Lower(s)[i] == lo[i] {
        LowerCharPreimage(s[i], lo[i]);
      }
    }
  }
}
