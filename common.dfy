/** Small shared vocabulary: optional values, decimal numerals, sequence
    reversal and first-occurrence de-duplication. */
module Common {

  datatype Option<+T> = None | Some(value: T)

  // ---------------------------------------------------------------------
  // Decimal numerals, as JavaScript template strings and Python f-strings
  // render a non-negative integer.
  // ---------------------------------------------------------------------

  function DigitChar(d: nat): (c: char)
    requires d < 10
    ensures '0' <= c <= '9'
    ensures c as int - '0' as int == d
  {
    "0123456789"[d]
  }

  function NatToString(n: nat): (s: string)
    ensures |s| >= 1
    ensures forall i :: 0 <= i < |s| ==> '0' <= s[i] <= '9'
    ensures n < 10 <==> |s| == 1
    ensures n < 10 ==> s == [DigitChar(n)]
  {
    if n < 10 then [DigitChar(n)] else NatToString(n / 10) + [DigitChar(n % 10)]
  }

  /** The numeral of a two-digit number has exactly two characters. */
  lemma {:induction false} TwoDigitNumeral(n: nat)
    requires 10 <= n < 100
    ensures NatToString(n) == [DigitChar(n / 10), DigitChar(n % 10)]
  {
    assert NatToString(n / 10) == [DigitChar(n / 10)];
  }

  /** Numerals are injective: the value can be read back from the digits. */
  function ParseNat(s: string): (n: nat)
    requires forall i :: 0 <= i < |s| ==> '0' <= s[i] <= '9'
  {
    if s == [] then 0
    else 10 * ParseNat(s[..|s| - 1]) + (s[|s| - 1] as int - '0' as int)
  }

  lemma {:induction false} ParseNatToString(n: nat)
    ensures ParseNat(NatToString(n)) == n
  {
    if n >= 10 {
      var s := NatToString(n);
      assert s[..|s| - 1] == NatToString(n / 10);
      ParseNatToString(n / 10);
    } else {
      assert NatToString(n)[..0] == [];
    }
  }

  lemma NatToStringInjective(m: nat, n: nat)
    requires NatToString(m) == NatToString(n)
    ensures m == n
  {
    ParseNatToString(m);
    ParseNatToString(n);
  }

  // ---------------------------------------------------------------------
  // Reversal (JavaScript's slice().reverse(), Python's [::-1]).
  // ---------------------------------------------------------------------

  function Reverse<T>(s: seq<T>): (r: seq<T>)
    ensures |r| == |s|
  {
    if s == [] then [] else Reverse(s[1..]) + [s[0]]
  }

  lemma {:induction false} ReverseAt<T>(s: seq<T>, k: nat)
    requires k < |s|
    ensures Reverse(s)[k] == s[|s| - 1 - k]
  {
    if k < |s| - 1 {
      ReverseAt(s[1..], k);
    }
  }

  lemma {:induction false} ReverseInvolutive<T>(s: seq<T>)
    ensures Reverse(Reverse(s)) == s
  {
    var r := Reverse(Reverse(s));
    forall k | 0 <= k < |s| ensures r[k] == s[k] {
      ReverseAt(Reverse(s), k);
      ReverseAt(s, |s| - 1 - k);
    }
  }

  // ---------------------------------------------------------------------
  // Duplicate-freedom and first-occurrence de-duplication: the key list
  // of an insertion-ordered object after a series of keyed assignments.
  // ---------------------------------------------------------------------

  ghost predicate NoDup<T>(s: seq<T>) {
    forall i, j :: 0 <= i < j < |s| ==> s[i] != s[j]
  }

  /** The key list after assigning key `x`: unchanged when present, else `x` is appended. */
  function AppendNew<T(==,!new)>(ks: seq<T>, x: T): (r: seq<T>)
    ensures x in r
    ensures forall y :: y in r <==> y in ks || y == x
    ensures NoDup(ks) ==> NoDup(r)
    ensures x !in ks ==> |r| == |ks| + 1
    ensures x in ks ==> r == ks
  {
    if x in ks then ks else ks + [x]
  }

  /** `ks` followed by the elements of `s` not seen before, in first-occurrence order. */
  function Union<T(==,!new)>(ks: seq<T>, s: seq<T>): (r: seq<T>)
    ensures forall y :: y in r <==> y in ks || y in s
    ensures NoDup(ks) ==> NoDup(r)
    ensures |r| <= |ks| + |s|
  {
    if s == [] then ks else AppendNew(Union(ks, s[..|s| - 1]), s[|s| - 1])
  }

  lemma UnionSnoc<T(!new)>(ks: seq<T>, s: seq<T>, x: T)
    ensures Union(ks, s + [x]) == AppendNew(Union(ks, s), x)
  {
    assert (s + [x])[..|s|] == s;
  }

  /** De-duplicating a concatenation is de-duplicating its parts in turn. */
  lemma {:induction false} UnionAppend<T(!new)>(ks: seq<T>, a: seq<T>, b: seq<T>)
    ensures Union(ks, a + b) == Union(Union(ks, a), b)
  {
    if b == [] {
      assert a + b == a;
    } else {
      var p := b[..|b| - 1];
      var x := b[|b| - 1];
      assert b == p + [x];
      assert a + b == (a + p) + [x];
      UnionSnoc(ks, a + p, x);
      UnionAppend(ks, a, p);
      UnionSnoc(Union(ks, a), p, x);
    }
  }

  /** A repeated element makes the de-duplicated list strictly shorter. */
  lemma {:induction false} UnionDropsRepeat<T(!new)>(ks: seq<T>, s: seq<T>)
    requires !NoDup(s)
    ensures |Union(ks, s)| < |ks| + |s|
  {
    var p := s[..|s| - 1];
    var x := s[|s| - 1];
    assert s == p + [x];
    if !NoDup(p) {
      UnionDropsRepeat(ks, p);
    } else {
      var i, j :| 0 <= i < j < |s| && s[i] == s[j];
      assert j == |s| - 1;
      assert p[i] == x;
    }
  }

  lemma RepeatBreaksNoDup<T>(s: seq<T>, i: nat, j: nat)
    requires i < j < |s| && s[i] == s[j]
    ensures !NoDup(s)
  {
  }

  lemma NoDupConcat<T>(a: seq<T>, b: seq<T>)
    requires NoDup(a) && NoDup(b)
    requires forall x :: x in a ==> x !in b
    ensures NoDup(a + b)
  {
    forall i, j | 0 <= i < j < |a + b| ensures (a + b)[i] != (a + b)[j] {
      if j < |a| {
        assert (a + b)[i] == a[i] && (a + b)[j] == a[j];
      } else if i >= |a| {
        assert (a + b)[i] == b[i - |a|] && (a + b)[j] == b[j - |a|];
      } else {
        assert (a + b)[i] == a[i] && (a + b)[j] == b[j - |a|];
        assert a[i] in a && b[j - |a|] in b;
      }
    }
  }

  /** With nothing repeating, first-occurrence de-duplication is plain concatenation. */
  lemma {:induction false} UnionOfFresh<T(!new)>(ks: seq<T>, s: seq<T>)
    requires NoDup(ks + s)
    ensures Union(ks, s) == ks + s
  {
    if s != [] {
      var p := s[..|s| - 1];
      assert ks + s == (ks + p) + [s[|s| - 1]];
      assert NoDup(ks + p) by {
        forall i, j | 0 <= i < j < |ks + p| ensures (ks + p)[i] != (ks + p)[j] {
          assert (ks + p)[i] == (ks + s)[i] && (ks + p)[j] == (ks + s)[j];
        }
      }
      UnionOfFresh(ks, p);
      assert s[|s| - 1] !in ks + p by {
        forall i | 0 <= i < |ks + p| ensures (ks + p)[i] != s[|s| - 1] {
          assert (ks + p)[i] == (ks + s)[i];
          assert s[|s| - 1] == (ks + s)[|ks + s| - 1];
        }
      }
    }
  }
}
