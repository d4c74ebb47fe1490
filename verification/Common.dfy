/** Small types shared by every module. */
module Common {
  datatype Option<+T> = None | Some(value: T)

  /** The three-valued return code of every handler: a manager that returns anything but
      Success is deleted by its dispatcher. */
  datatype RetVal = Failure | Success | Finish

  /** Identifiers are only ever compared for equality, so numbers stand for the source's strings. */
  type Peer = nat
  type OrderId = nat
  type Currency = nat
  type Address = nat

  /** A Bitcoin transaction id: the empty string, the literal a negative vote carries, or a hash. */
  datatype TxId = NoTx | VoteNoTx | Tx(hash: nat)
}

/** Finite sums of reals, the arithmetic behind every conservation law. */
module Sums {

  function SumBy<T>(s: seq<T>, f: T -> real): real {
    if s == [] then 0.0 else f(s[0]) + SumBy(s[1..], f)
  }

  /** The elements with a property, in their order. */
  function Where<T>(s: seq<T>, f: T -> bool): seq<T> {
    if s == [] then [] else if f(s[0]) then [s[0]] + Where(s[1..], f) else Where(s[1..], f)
  }

  lemma {:induction false} WhereHas<T>(s: seq<T>, f: T -> bool, x: T)
    ensures x in Where(s, f) <==> x in s && f(x)
  {
    if s != [] {
      WhereHas(s[1..], f, x);
    }
  }

  lemma {:induction false} WhereAll<T>(s: seq<T>, f: T -> bool)
    requires forall i :: 0 <= i < |s| ==> f(s[i])
    ensures Where(s, f) == s
  {
    if s != [] {
      assert forall i :: 0 <= i < |s[1..]| ==> s[1..][i] == s[i + 1];
      WhereAll(s[1..], f);
    }
  }

  /** All but one. */
  lemma {:induction false} WhereAllBut<T>(s: seq<T>, i: nat, f: T -> bool)
    requires i < |s| && forall j :: 0 <= j < |s| ==> (f(s[j]) <==> j != i)
    ensures Where(s, f) == s[..i] + s[i + 1..]
  {
    assert forall j :: 0 <= j < |s[1..]| ==> s[1..][j] == s[j + 1];
    if i == 0 {
      WhereAll(s[1..], f);
    } else {
      WhereAllBut(s[1..], i - 1, f);
      assert s[1..][..i - 1] == s[1..i] && s[1..][i..] == s[i + 1..] && s[..i] == [s[0]] + s[1..i];
    }
  }

  lemma {:induction false} WhereTwice<T>(s: seq<T>, f: T -> bool, g: T -> bool, both: T -> bool)
    requires forall i :: 0 <= i < |s| ==> (both(s[i]) <==> f(s[i]) && g(s[i]))
    ensures Where(Where(s, f), g) == Where(s, both)
  {
    if s != [] {
      assert forall i :: 0 <= i < |s[1..]| ==> s[1..][i] == s[i + 1];
      WhereTwice(s[1..], f, g, both);
      if f(s[0]) {
        assert ([s[0]] + Where(s[1..], f))[1..] == Where(s[1..], f);
      }
    }
  }

  lemma WhereFrom<T>(s: seq<T>, i: nat, f: T -> bool)
    requires i < |s|
    ensures Where(s[i..], f) == if f(s[i]) then [s[i]] + Where(s[i + 1..], f) else Where(s[i + 1..], f)
  {
    assert s[i..][1..] == s[i + 1..];
  }

  lemma {:induction false} SumConcat<T>(a: seq<T>, b: seq<T>, f: T -> real)
    ensures SumBy(a + b, f) == SumBy(a, f) + SumBy(b, f)
  {
    if a == [] {
      assert a + b == b;
    } else {
      assert (a + b)[1..] == a[1..] + b;
      SumConcat(a[1..], b, f);
    }
  }

  lemma SumAppend<T>(s: seq<T>, x: T, f: T -> real)
    ensures SumBy(s + [x], f) == SumBy(s, f) + f(x)
  {
    SumConcat(s, [x], f);
    assert [x][1..] == [];
  }

  lemma SumSplit<T>(s: seq<T>, i: nat, f: T -> real)
    requires i < |s|
    ensures SumBy(s, f) == SumBy(s[..i], f) + f(s[i]) + SumBy(s[i + 1..], f)
  {
    assert s == s[..i] + s[i..];
    SumConcat(s[..i], s[i..], f);
    assert s[i..][1..] == s[i + 1..];
  }

  lemma SumUpdate<T>(s: seq<T>, i: nat, x: T, f: T -> real)
    requires i < |s|
    ensures SumBy(s[i := x], f) == SumBy(s, f) - f(s[i]) + f(x)
  {
    SumSplit(s, i, f);
    SumSplit(s[i := x], i, f);
    assert s[i := x][..i] == s[..i];
    assert s[i := x][i + 1..] == s[i + 1..];
  }

  lemma SumRemove<T>(s: seq<T>, i: nat, f: T -> real)
    requires i < |s|
    ensures SumBy(s[..i] + s[i + 1..], f) == SumBy(s, f) - f(s[i])
  {
    SumSplit(s, i, f);
    SumConcat(s[..i], s[i + 1..], f);
  }

  lemma {:induction false} SumNonNegative<T>(s: seq<T>, f: T -> real)
    requires forall i :: 0 <= i < |s| ==> f(s[i]) >= 0.0
    ensures SumBy(s, f) >= 0.0
  {
    if s != [] {
      assert forall i :: 0 <= i < |s[1..]| ==> s[1..][i] == s[i + 1];
      SumNonNegative(s[1..], f);
    }
  }

  /** Of non-negative terms, one alone is at most the whole sum. */
  lemma SumAtLeastTerm<T>(s: seq<T>, i: nat, f: T -> real)
    requires i < |s|
    requires forall j :: 0 <= j < |s| ==> f(s[j]) >= 0.0
    ensures f(s[i]) <= SumBy(s, f)
  {
    SumSplit(s, i, f);
    SumNonNegative(s[..i], f);
    SumNonNegative(s[i + 1..], f);
  }

  /** Termwise comparison of two sums over the same sequence. */
  lemma {:induction false} SumMonotone<T>(s: seq<T>, f: T -> real, g: T -> real)
    requires forall i :: 0 <= i < |s| ==> f(s[i]) <= g(s[i])
    ensures SumBy(s, f) <= SumBy(s, g)
  {
    if s != [] {
      assert forall i :: 0 <= i < |s[1..]| ==> s[1..][i] == s[i + 1];
      SumMonotone(s[1..], f, g);
    }
  }

  /** Termwise comparison with room for x at one term. */
  lemma SumGap<T>(s: seq<T>, i: nat, x: real, f: T -> real, g: T -> real)
    requires i < |s| && f(s[i]) + x <= g(s[i])
    requires forall j :: 0 <= j < |s| ==> f(s[j]) <= g(s[j])
    ensures SumBy(s, f) + x <= SumBy(s, g)
  {
    SumSplit(s, i, f);
    SumSplit(s, i, g);
    SumMonotone(s[..i], f, g);
    SumMonotone(s[i + 1..], f, g);
  }

  /** A sum of zeros is zero. */
  lemma {:induction false} SumZero<T>(s: seq<T>, f: T -> real)
    requires forall i :: 0 <= i < |s| ==> f(s[i]) == 0.0
    ensures SumBy(s, f) == 0.0
  {
    if s != [] {
      assert forall i :: 0 <= i < |s[1..]| ==> s[1..][i] == s[i + 1];
      SumZero(s[1..], f);
    }
  }

  /** Two sequences with the same terms have the same sum. */
  lemma {:induction false} SumSame<T, U>(s: seq<T>, f: T -> real, u: seq<U>, g: U -> real)
    requires |s| == |u| && forall i :: 0 <= i < |s| ==> f(s[i]) == g(u[i])
    ensures SumBy(s, f) == SumBy(u, g)
  {
    if s != [] {
      assert forall i :: 0 <= i < |s[1..]| ==> s[1..][i] == s[i + 1] && u[1..][i] == u[i + 1];
      SumSame(s[1..], f, u[1..], g);
    }
  }
}
