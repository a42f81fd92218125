/** Text helpers standing in for the Python built-ins the core relies on:
    str() of an integer, str.lower(), "".join(...) and reversed(...).
    `Split` reads a Graphviz colour list back into its bands, and
    `LastIndexOf` finds the last dot as `Path.suffix` does. */
module Strings {
  import opened Wrappers

  predicate IsDigit(c: char) { '0' <= c <= '9' }

  predicate AllDigits(s: string) { forall i :: 0 <= i < |s| ==> IsDigit(s[i]) }

  function DigitChar(d: nat): char
    requires d < 10
  {
    (('0' as int) + d) as char
  }

  function DigitValue(c: char): nat
    requires IsDigit(c)
  {
    (c as int) - ('0' as int)
  }

  /** Decimal text of `n`, as Python's `str()` writes a non-negative integer:
      at least one digit, and no leading zero unless `n` is zero. */
  function NatToString(n: nat): (s: string)
    ensures |s| > 0 && AllDigits(s)
    ensures s[0] == '0' <==> n == 0
  {
    if n < 10 then [DigitChar(n)] else NatToString(n / 10) + [DigitChar(n % 10)]
  }

  /** Value of a string of decimal digits (the empty string reads as 0). */
  function ParseDigits(s: string): nat
    requires AllDigits(s)
  {
    if s == [] then 0 else 10 * ParseDigits(s[..|s| - 1]) + DigitValue(s[|s| - 1])
  }

  /** Reading back the decimal text of `n` gives `n`. */
  lemma {:induction false} ParseNatToString(n: nat)
    ensures ParseDigits(NatToString(n)) == n
  {
    if n >= 10 {
      var s := NatToString(n / 10);
      var t := s + [DigitChar(n % 10)];
      assert NatToString(n) == t;
      assert t[..|t| - 1] == s;
      ParseNatToString(n / 10);
    }
  }

  /** Decimal text of any integer, with a leading '-' for negatives. */
  function IntToString(i: int): (s: string)
    ensures |s| > 0
    ensures s[0] == '-' <==> i < 0
  {
    if i < 0 then "-" + NatToString(-i) else NatToString(i)
  }

  predicate IsUpper(c: char) { 'A' <= c <= 'Z' }

  function LowerChar(c: char): char
  {
    if IsUpper(c) then ((c as int) + 32) as char else c
  }

  /** `str.lower()` restricted to ASCII letters. */
  function Lower(s: string): string
  {
    seq(|s|, i requires 0 <= i < |s| => LowerChar(s[i]))
  }

  predicate NoUpper(s: string) { forall i :: 0 <= i < |s| ==> !IsUpper(s[i]) }

  /** Lower-casing leaves no upper-case letter, changes no other character,
      and a string with no upper-case letter is its own lower-case form. */
  lemma LowerProperties(s: string)
    ensures |Lower(s)| == |s| && NoUpper(Lower(s))
    ensures forall i :: 0 <= i < |s| && !IsUpper(s[i]) ==> Lower(s)[i] == s[i]
    ensures NoUpper(s) ==> Lower(s) == s
  {
  }

  /** `"".join(parts)`. */
  function Concat(parts: seq<string>): string
  {
    if parts == [] then "" else Concat(parts[..|parts| - 1]) + parts[|parts| - 1]
  }

  /** Joining is compatible with putting one part in front. */
  lemma {:induction false} ConcatPrepend(h: string, parts: seq<string>)
    ensures Concat([h] + parts) == h + Concat(parts)
  {
    if parts != [] {
      var all := [h] + parts;
      assert all[..|all| - 1] == [h] + parts[..|parts| - 1];
      ConcatPrepend(h, parts[..|parts| - 1]);
    }
  }

  /** `list(reversed(s))`. */
  function Reverse<T>(s: seq<T>): (r: seq<T>)
    ensures |r| == |s|
  {
    if s == [] then [] else Reverse(s[1..]) + [s[0]]
  }

  /** Element `k` of the reversal is element `|s| - 1 - k` of the original. */
  lemma {:induction false} ReverseAt<T>(s: seq<T>, k: nat)
    requires k < |s|
    ensures Reverse(s)[k] == s[|s| - 1 - k]
  {
    if k < |s| - 1 {
      ReverseAt(s[1..], k);
    }
  }

  /** Reversal turns a concatenation around. */
  lemma {:induction false} ReverseAppend<T>(a: seq<T>, b: seq<T>)
    ensures Reverse(a + b) == Reverse(b) + Reverse(a)
  {
    if a == [] {
      assert a + b == b;
    } else {
      assert (a + b)[1..] == a[1..] + b;
      ReverseAppend(a[1..], b);
    }
  }

  /** Reversing twice gives back the original. */
  lemma {:induction false} ReverseReverse<T>(s: seq<T>)
    ensures Reverse(Reverse(s)) == s
  {
    if s != [] {
      ReverseAppend(Reverse(s[1..]), [s[0]]);
      assert Reverse([s[0]]) == [s[0]];
      ReverseReverse(s[1..]);
    }
  }

  /** `s.split(sep)`: the pieces between occurrences of `sep`. */
  function Split(s: string, sep: char): (parts: seq<string>)
    ensures |parts| > 0
  {
    if s == [] then [""]
    else
      var rest := Split(s[1..], sep);
      if s[0] == sep then [""] + rest else [[s[0]] + rest[0]] + rest[1..]
  }

  /** A string without the separator is a single piece. */
  lemma {:induction false} SplitNoSep(s: string, sep: char)
    requires sep !in s
    ensures Split(s, sep) == [s]
  {
    if s != [] {
      assert s[0] in s;
      SplitNoSep(s[1..], sep);
      assert [s[0]] + s[1..] == s;
    }
  }

  /** Joining two strings with the separator joins their pieces. */
  lemma {:induction false} SplitJoin(a: string, b: string, sep: char)
    ensures Split(a + [sep] + b, sep) == Split(a, sep) + Split(b, sep)
  {
    var s := a + [sep] + b;
    if a == [] {
      assert s[1..] == b;
    } else {
      assert s[1..] == a[1..] + [sep] + b;
      SplitJoin(a[1..], b, sep);
    }
  }

  /** `s.rfind(c)` as an option: the position of the last `c` in `s`. */
  function LastIndexOf(s: string, c: char): (r: Option<nat>)
    ensures r.None? <==> c !in s
    ensures r.Some? ==> r.value < |s| && s[r.value] == c
    ensures r.Some? ==> forall j :: r.value < j < |s| ==> s[j] != c
  {
    if s == [] then None
    else if s[|s| - 1] == c then Some(|s| - 1)
    else
      assert s == s[..|s| - 1] + [s[|s| - 1]];
      LastIndexOf(s[..|s| - 1], c)
  }

  /** Nothing after the last `c` is a `c`. */
  lemma AfterLastIndexOf(s: string, c: char)
    requires LastIndexOf(s, c).Some?
    ensures c !in s[LastIndexOf(s, c).value + 1..]
  {
    var i := LastIndexOf(s, c).value;
    var t := s[i + 1..];
    forall j | 0 <= j < |t|
      ensures t[j] != c
    {
      assert t[j] == s[i + 1 + j];
    }
  }

  /** The last separator of `u + [c] + v` is the one after `u` when `v` has none. */
  lemma {:induction false} LastIndexOfJoin(u: string, c: char, v: string)
    requires c !in v
    ensures LastIndexOf(u + [c] + v, c) == Some(|u|)
  {
    var s := u + [c] + v;
    if v == [] {
      assert s == u + [c];
    } else {
      var w := v[..|v| - 1];
      assert v[|v| - 1] in v;
      assert s[..|s| - 1] == u + [c] + w;
      assert c !in w by {
        assert forall x :: x in w ==> x in v;
      }
      LastIndexOfJoin(u, c, w);
    }
  }
}
