/** String helpers standing in for the Python built-ins the tools use:
    `sub in s`, `str.lower()`, `str(n)` and the `repr` of strings and lists
    that f-strings print. */
module Text {

  /** `sub in s`: `sub` occurs in `s` at some offset. */
  predicate Contains(s: string, sub: string)
    decreases |s|
  {
    sub <= s || (s != [] && Contains(s[1..], sub))
  }

  /** `Contains` agrees with the offset reading of `sub in s`. */
  lemma {:induction false} ContainsAt(s: string, sub: string, i: nat)
    requires i + |sub| <= |s| && s[i..i + |sub|] == sub
    ensures Contains(s, sub)
    decreases i
  {
    if i == 0 {
      assert sub <= s;
    } else {
      assert s[1..][i - 1..i - 1 + |sub|] == s[i..i + |sub|];
      ContainsAt(s[1..], sub, i - 1);
    }
  }

  /** An occurrence of `sub` yields an occurrence of every piece of `sub`. */
  lemma {:induction false} ContainsPiece(s: string, sub: string, lo: nat, hi: nat)
    requires lo <= hi <= |sub|
    requires Contains(s, sub)
    ensures Contains(s, sub[lo..hi])
    decreases |s|
  {
    if sub <= s {
      assert s[lo..hi] == sub[lo..hi];
      ContainsAt(s, sub[lo..hi], lo);
    } else {
      ContainsPiece(s[1..], sub, lo, hi);
      assert s[1..] != [] ==> s[1..][0] == s[1];
      ContainsShift(s, sub[lo..hi]);
    }
  }

  /** An occurrence in the tail is an occurrence in the whole. */
  lemma ContainsShift(s: string, sub: string)
    requires s != [] && Contains(s[1..], sub)
    ensures Contains(s, sub)
  {
  }

  function LowerChar(c: char): char
  {
    if 'A' <= c <= 'Z' then (c as int + 32) as char else c
  }

  /** `s.lower()` on ASCII letters. */
  function Lower(s: string): (r: string)
    ensures |r| == |s|
    ensures forall i :: 0 <= i < |s| ==> r[i] == LowerChar(s[i])
    ensures forall i :: 0 <= i < |s| ==> !('A' <= r[i] <= 'Z')
  {
    if s == [] then [] else [LowerChar(s[0])] + Lower(s[1..])
  }

  /** `repr(s)` for a string without quotes or escapes. */
  function Quote(s: string): string
  {
    "'" + s + "'"
  }

  function JoinQuoted(xs: seq<string>): string
  {
    if xs == [] then ""
    else if |xs| == 1 then Quote(xs[0])
    else Quote(xs[0]) + ", " + JoinQuoted(xs[1..])
  }

  /** `repr(xs)` for a list of strings: `['a', 'b']`. */
  function ListRepr(xs: seq<string>): string
  {
    "[" + JoinQuoted(xs) + "]"
  }

  function DigitChar(d: nat): char
    requires d < 10
  {
    ('0' as int + d) as char
  }

  /** `str(n)` for a natural number. */
  function NatToString(n: nat): (r: string)
    ensures |r| >= 1
    ensures forall i :: 0 <= i < |r| ==> '0' <= r[i] <= '9'
  {
    if n < 10 then [DigitChar(n)] else NatToString(n / 10) + [DigitChar(n % 10)]
  }

  /** Concatenation is associative; stated once for the string and list
      builders that append piece by piece. */
  lemma AppendAssoc<T>(a: seq<T>, b: seq<T>, c: seq<T>)
    ensures (a + b) + c == a + (b + c)
  {
  }

  /** `str(b)` for a boolean. */
  function BoolToString(b: bool): string
  {
    if b then "True" else "False"
  }
}
