/** String helpers: Python's str.join, character counting, prefixes and decimal rendering of integers. */
module Text {

  /** `sep.join(parts)` */
  function Join(parts: seq<string>, sep: string): string
  {
    if |parts| == 0 then ""
    else if |parts| == 1 then parts[0]
    else parts[0] + sep + Join(parts[1..], sep)
  }

  /** Number of occurrences of `c` in `s`. */
  function Occurrences(s: string, c: char): nat
  {
    if |s| == 0 then 0 else (if s[0] == c then 1 else 0) + Occurrences(s[1..], c)
  }

  /** Sum of the occurrences of `c` over all parts. */
  function TotalOccurrences(parts: seq<string>, c: char): nat
  {
    if |parts| == 0 then 0 else Occurrences(parts[0], c) + TotalOccurrences(parts[1..], c)
  }

  /** `s.startswith(prefix)` */
  predicate StartsWith(s: string, prefix: string)
  {
    |prefix| <= |s| && s[..|prefix|] == prefix
  }

  lemma StartsWithConcat(a: string, b: string)
    ensures StartsWith(a + b, a)
  {
    assert (a + b)[..|a|] == a;
  }

  lemma StartsWithExtend(s: string, prefix: string, more: string)
    requires StartsWith(s, prefix)
    ensures StartsWith(s + more, prefix)
  {
    assert (s + more)[..|prefix|] == s[..|prefix|];
  }

  lemma StartsWithPrepend(a: string, s: string, prefix: string)
    requires StartsWith(s, prefix)
    ensures StartsWith(a + s, a + prefix)
  {
    assert (a + s)[..|a| + |prefix|] == a + s[..|prefix|];
  }

  /** A join starts with its first part. */
  lemma JoinStartsWithFirst(parts: seq<string>, sep: string)
    requires |parts| > 0
    ensures StartsWith(Join(parts, sep), parts[0])
  {
    if |parts| > 1 {
      assert parts[0] + sep + Join(parts[1..], sep) == parts[0] + (sep + Join(parts[1..], sep));
      assert (parts[0] + (sep + Join(parts[1..], sep)))[..|parts[0]|] == parts[0];
    }
  }

  lemma {:induction false} OccurrencesAppend(a: string, b: string, c: char)
    ensures Occurrences(a + b, c) == Occurrences(a, c) + Occurrences(b, c)
  {
    if |a| == 0 {
      assert a + b == b;
    } else {
      assert (a + b)[1..] == a[1..] + b;
      OccurrencesAppend(a[1..], b, c);
    }
  }

  lemma {:induction false} TotalOccurrencesAppend(xs: seq<string>, ys: seq<string>, c: char)
    ensures TotalOccurrences(xs + ys, c) == TotalOccurrences(xs, c) + TotalOccurrences(ys, c)
  {
    if |xs| == 0 {
      assert xs + ys == ys;
    } else {
      assert (xs + ys)[1..] == xs[1..] + ys;
      TotalOccurrencesAppend(xs[1..], ys, c);
    }
  }

  /** Joining with a separator free of `c` adds no occurrence of `c`. */
  lemma {:induction false} JoinOccurrences(parts: seq<string>, sep: string, c: char)
    requires Occurrences(sep, c) == 0
    ensures Occurrences(Join(parts, sep), c) == TotalOccurrences(parts, c)
  {
    if |parts| == 0 {
    } else if |parts| == 1 {
      assert parts[1..] == [];
    } else {
      JoinOccurrences(parts[1..], sep, c);
      OccurrencesAppend(parts[0], sep, c);
      OccurrencesAppend(parts[0] + sep, Join(parts[1..], sep), c);
    }
  }

  function Digit(d: nat): char
    requires d < 10
  {
    "0123456789"[d]
  }

  /** `str(n)` for a non-negative integer. */
  function NatToString(n: nat): (r: string)
    ensures |r| > 0
    decreases n
  {
    if n < 10 then [Digit(n)] else NatToString(n / 10) + [Digit(n % 10)]
  }

  /** `str(i)` for any integer. */
  function IntToString(i: int): string
  {
    if i < 0 then "-" + NatToString(-i) else NatToString(i)
  }

  /** A decimal rendering holds only digits and possibly a minus sign. */
  lemma {:induction false} NatToStringDigits(n: nat)
    ensures forall k | 0 <= k < |NatToString(n)| :: '0' <= NatToString(n)[k] <= '9'
    decreases n
  {
    if n >= 10 {
      NatToStringDigits(n / 10);
    }
  }

  lemma IntToStringHasNo(i: int, c: char)
    requires c != '-' && !('0' <= c <= '9')
    ensures Occurrences(IntToString(i), c) == 0
  {
    var n: nat := if i < 0 then -i else i;
    NatToStringDigits(n);
    NoOccurrence(NatToString(n), c);
    if i < 0 {
      OccurrencesAppend("-", NatToString(n), c);
    }
  }

  lemma {:induction false} NoOccurrence(s: string, c: char)
    requires forall k | 0 <= k < |s| :: s[k] != c
    ensures Occurrences(s, c) == 0
  {
    if |s| > 0 {
      NoOccurrence(s[1..], c);
    }
  }

  /** Parts none of which holds `c` hold no `c` in total. */
  lemma {:induction false} NoneInParts(parts: seq<string>, c: char)
    requires forall i | 0 <= i < |parts| :: Occurrences(parts[i], c) == 0
    ensures TotalOccurrences(parts, c) == 0
  {
    if |parts| > 0 {
      NoneInParts(parts[1..], c);
    }
  }

  /** No part holds `c`. */
  predicate NoneHas(parts: seq<string>, c: char)
  {
    forall i | 0 <= i < |parts| :: Occurrences(parts[i], c) == 0
  }

  /** Joining parts free of `c` with a separator free of `c` gives a text free of `c`. */
  lemma JoinFree(parts: seq<string>, sep: string, c: char)
    requires NoneHas(parts, c) && Occurrences(sep, c) == 0
    ensures Occurrences(Join(parts, sep), c) == 0
  {
    NoneInParts(parts, c);
    JoinOccurrences(parts, sep, c);
  }

  /** `[p + suffix for p in parts]` */
  function Suffixed(parts: seq<string>, suffix: string): (r: seq<string>)
    ensures |r| == |parts| && forall i | 0 <= i < |parts| :: r[i] == parts[i] + suffix
  {
    seq(|parts|, i requires 0 <= i < |parts| => parts[i] + suffix)
  }

  /** `[s for _ in range(n)]` */
  function Repeat(s: string, n: nat): (r: seq<string>)
    ensures |r| == n && forall i | 0 <= i < n :: r[i] == s
  {
    seq(n, _ => s)
  }

  lemma {:induction false} SuffixedOccurrences(parts: seq<string>, suffix: string, c: char)
    ensures TotalOccurrences(Suffixed(parts, suffix), c) == TotalOccurrences(parts, c) + |parts| * Occurrences(suffix, c)
  {
    if |parts| > 0 {
      SuffixedOccurrences(parts[1..], suffix, c);
      assert Suffixed(parts, suffix)[1..] == Suffixed(parts[1..], suffix);
      OccurrencesAppend(parts[0], suffix, c);
      var k := Occurrences(suffix, c);
      assert |parts| * k == (|parts| - 1) * k + k;
    }
  }

  lemma {:induction false} RepeatOccurrences(s: string, n: nat, c: char)
    ensures TotalOccurrences(Repeat(s, n), c) == n * Occurrences(s, c)
  {
    if n > 0 {
      RepeatOccurrences(s, n - 1, c);
      assert Repeat(s, n)[1..] == Repeat(s, n - 1);
      var k := Occurrences(s, c);
      assert n * k == (n - 1) * k + k;
    }
  }
}
