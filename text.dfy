/**
 * The few pieces of Python string behaviour the handlers rely on:
 * `str.split()` with no separator (used to take callback data apart),
 * `str.startswith` (used by the callback filters) and `str(int)`
 * (used when the status message shows the quantity).
 */
module Text {

  /** Python's `str.isspace()` for one character: the ASCII separators and the Unicode spaces. */
  predicate IsSpace(c: char) {
    || c == ' '
    || ('\t' <= c <= '\r')
    || ('\U{1C}' <= c <= '\U{1F}')
    || c == '\U{85}'
    || c == '\U{A0}'
    || c == '\U{1680}'
    || ('\U{2000}' <= c <= '\U{200A}')
    || c == '\U{2028}'
    || c == '\U{2029}'
    || c == '\U{202F}'
    || c == '\U{205F}'
    || c == '\U{3000}'
  }

  predicate NoSpace(s: string) {
    forall i :: 0 <= i < |s| ==> !IsSpace(s[i])
  }

  predicate StartsWith(s: string, prefix: string) {
    |prefix| <= |s| && s[..|prefix|] == prefix
  }

  /** The longest prefix of `s` that holds no whitespace. */
  function Word(s: string): (w: string)
    ensures |w| <= |s| && w == s[..|w|]
    ensures NoSpace(w)
    ensures |w| < |s| ==> IsSpace(s[|w|])
  {
    if s == [] || IsSpace(s[0]) then [] else [s[0]] + Word(s[1..])
  }

  /**
   * Python's `s.split()`: the maximal whitespace-free runs of `s`, in order;
   * leading, trailing and repeated whitespace produce no empty fields.
   */
  function Split(s: string): (fields: seq<string>)
    ensures forall k :: 0 <= k < |fields| ==> fields[k] != [] && NoSpace(fields[k])
    decreases |s|
  {
    if s == [] then []
    else if IsSpace(s[0]) then Split(s[1..])
    else
      var w := Word(s);
      [w] + Split(s[|w|..])
  }

  /** The words separated by single spaces: `' '.join(words)`. */
  function Join(words: seq<string>): string {
    if |words| == 0 then ""
    else if |words| == 1 then words[0]
    else words[0] + " " + Join(words[1..])
  }

  /** A whitespace-free prefix followed by whitespace (or nothing) is exactly the first word. */
  lemma {:induction false} WordOfPrefix(p: string, rest: string)
    requires NoSpace(p)
    requires rest == [] || IsSpace(rest[0])
    ensures Word(p + rest) == p
  {
    if p != [] {
      assert (p + rest)[1..] == p[1..] + rest;
      WordOfPrefix(p[1..], rest);
    }
  }

  /** `split()` undoes `' '.join` for non-empty, whitespace-free words. */
  lemma {:induction false} SplitJoin(words: seq<string>)
    requires forall k :: 0 <= k < |words| ==> words[k] != [] && NoSpace(words[k])
    ensures Split(Join(words)) == words
  {
    if |words| == 1 {
      WordOfPrefix(words[0], []);
      assert words[0] + [] == words[0];
      assert Join(words)[|words[0]|..] == [];
    } else if |words| > 1 {
      var w, j := words[0], Join(words[1..]);
      assert Join(words) == w + (" " + j);
      WordOfPrefix(w, " " + j);
      assert Join(words)[|w|..] == " " + j;
      assert (" " + j)[1..] == j;
      SplitJoin(words[1..]);
    }
  }

  /** The shape of every callback data string: `split()` gives back the prefix and the value. */
  lemma SplitPair(prefix: string, value: string)
    requires prefix != [] && NoSpace(prefix)
    requires value != [] && NoSpace(value)
    ensures Split(prefix + " " + value) == [prefix, value]
  {
    assert Join([prefix, value]) == prefix + " " + value;
    SplitJoin([prefix, value]);
  }

  function DigitChar(d: nat): (c: char)
    requires d < 10
  {
    "0123456789"[d]
  }

  function DigitValue(c: char): int {
    c as int - '0' as int
  }

  /** Decimal digits of a natural number, most significant first, without leading zeros. */
  function Digits(n: nat): (s: string)
    ensures s != []
    ensures forall i :: 0 <= i < |s| ==> '0' <= s[i] <= '9'
    decreases n
  {
    if n < 10 then [DigitChar(n)] else Digits(n / 10) + [DigitChar(n % 10)]
  }

  /** The value of a string of decimal digits. */
  function DecimalValue(s: string): int {
    if s == [] then 0 else 10 * DecimalValue(s[..|s| - 1]) + DigitValue(s[|s| - 1])
  }

  /** Python's `str(n)` for an integer. */
  function DecimalString(n: int): string {
    if n < 0 then "-" + Digits(-n) else Digits(n)
  }

  /** Reading the digits back gives the number: `int(str(n)) == n` for non-negative `n`. */
  lemma {:induction false} DigitsValue(n: nat)
    ensures DecimalValue(Digits(n)) == n
    decreases n
  {
    if n >= 10 {
      var s := Digits(n);
      assert s[..|s| - 1] == Digits(n / 10);
      DigitsValue(n / 10);
    }
  }
}
