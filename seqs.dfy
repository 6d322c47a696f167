/** The array queries the JavaScript code leans on (`find`/`findIndex`,
    `filter`, `reduce` with `+`), as functions over sequences, with the
    facts about them that the ledger proofs use. */
module Seqs {
  import opened Support

  /** Position of the first element satisfying `p`, as `findIndex` computes
      it (None where `findIndex` returns -1 and `find` returns undefined). */
  function FindFirst<T>(s: seq<T>, p: T -> bool): (r: Option<nat>)
    ensures r.Some? ==> r.value < |s| && p(s[r.value])
    ensures r.Some? ==> forall j :: 0 <= j < r.value ==> !p(s[j])
    ensures r.None? <==> forall j :: 0 <= j < |s| ==> !p(s[j])
  {
    if |s| == 0 then None
    else if p(s[0]) then Some(0)
    else match FindFirst(s[1..], p)
      case None => None
      case Some(k) => Some(k + 1)
  }

  /** The elements satisfying `p`, in their original order, as `filter` keeps them. */
  function Filter<T>(s: seq<T>, p: T -> bool): (r: seq<T>)
    ensures |r| <= |s|
    ensures forall i :: 0 <= i < |r| ==> r[i] in s && p(r[i])
    ensures forall i :: 0 <= i < |s| && p(s[i]) ==> s[i] in r
  {
    if |s| == 0 then []
    else (if p(s[0]) then [s[0]] else []) + Filter(s[1..], p)
  }

  /** `idx` lists strictly increasing positions of `b` at which the elements
      of `a` occur, in order: `a` is an order-preserving subsequence of `b`. */
  ghost predicate EmbedsAt<T>(a: seq<T>, b: seq<T>, idx: seq<nat>)
  {
    && |idx| == |a|
    && (forall i :: 0 <= i < |idx| ==> idx[i] < |b| && a[i] == b[idx[i]])
    && (forall i, j :: 0 <= i < j < |idx| ==> idx[i] < idx[j])
  }

  ghost predicate IsSubsequence<T>(a: seq<T>, b: seq<T>)
  {
    exists idx :: EmbedsAt(a, b, idx)
  }

  function Shift(idx: seq<nat>): (r: seq<nat>)
    ensures |r| == |idx| && forall i :: 0 <= i < |idx| ==> r[i] == idx[i] + 1
  {
    seq(|idx|, i requires 0 <= i < |idx| => idx[i] + 1)
  }

  /** An embedding into the tail of `b` is one into `b`, and `b[0]` can go in front of it. */
  lemma EmbedsInTail<T>(a: seq<T>, b: seq<T>, idx: seq<nat>)
    requires |b| > 0 && EmbedsAt(a, b[1..], idx)
    ensures EmbedsAt(a, b, Shift(idx))
    ensures EmbedsAt([b[0]] + a, b, [0] + Shift(idx))
  {
    var sh := Shift(idx);
    assert forall i :: 0 <= i < |sh| ==> a[i] == b[1..][idx[i]] == b[sh[i]];
    var a', sh' := [b[0]] + a, [0] + sh;
    forall i | 0 <= i < |sh'|
      ensures sh'[i] < |b| && a'[i] == b[sh'[i]]
    {
      if i > 0 { assert a'[i] == a[i - 1] && sh'[i] == sh[i - 1]; }
    }
  }

  /** `filter` never reorders: its result embeds into its input. */
  lemma {:induction false} FilterIsSubsequence<T>(s: seq<T>, p: T -> bool)
    ensures IsSubsequence(Filter(s, p), s)
  {
    if |s| == 0 {
      assert EmbedsAt(Filter(s, p), s, []);
    } else {
      FilterIsSubsequence(s[1..], p);
      var idx :| EmbedsAt(Filter(s[1..], p), s[1..], idx);
      EmbedsInTail(Filter(s[1..], p), s, idx);
      if p(s[0]) {
        assert Filter(s, p) == [s[0]] + Filter(s[1..], p);
        assert EmbedsAt(Filter(s, p), s, [0] + Shift(idx));
      } else {
        assert Filter(s, p) == Filter(s[1..], p);
        assert EmbedsAt(Filter(s, p), s, Shift(idx));
      }
    }
  }

  /** The positions of `s` holding an element that satisfies `p`. */
  ghost function Positions<T>(s: seq<T>, p: T -> bool): set<nat>
  {
    set i: nat | i < |s| && p(s[i])
  }

  ghost function Succ(xs: set<nat>): set<nat>
  {
    set x | x in xs :: x + 1
  }

  lemma {:induction false} SuccSize(xs: set<nat>)
    ensures |Succ(xs)| == |xs|
  {
    if xs != {} {
      var x :| x in xs;
      SuccSize(xs - {x});
      forall y | y in Succ(xs)
        ensures y in Succ(xs - {x}) + {x + 1}
      {
        var z :| z in xs && y == z + 1;
        if z != x { assert z in xs - {x}; }
      }
      assert Succ(xs) == Succ(xs - {x}) + {x + 1};
    }
  }

  /** The matching positions of `s` are those of its tail, moved up by one,
      plus 0 when the head matches. */
  lemma PositionsCons<T>(s: seq<T>, p: T -> bool)
    requires |s| > 0
    ensures Positions(s, p) == (if p(s[0]) then {0} else {}) + Succ(Positions(s[1..], p))
  {
    var ps, pt := Positions(s, p), Positions(s[1..], p);
    forall i | i in ps && i > 0
      ensures i in Succ(pt)
    {
      assert s[1..][i - 1] == s[i];
      assert i - 1 in pt;
    }
    forall i | i in Succ(pt)
      ensures i in ps
    {
      var j :| j in pt && i == j + 1;
      assert s[1..][j] == s[i];
    }
  }

  /** `filter` keeps one element per matching position: its length is the
      number of positions whose element satisfies `p`. */
  lemma {:induction false} FilterCount<T>(s: seq<T>, p: T -> bool)
    ensures |Filter(s, p)| == |Positions(s, p)|
  {
    if |s| > 0 {
      var tail := Succ(Positions(s[1..], p));
      FilterCount(s[1..], p);
      SuccSize(Positions(s[1..], p));
      PositionsCons(s, p);
      assert 0 !in tail;
      if p(s[0]) {
        assert Filter(s, p) == [s[0]] + Filter(s[1..], p);
        assert |{0} + tail| == 1 + |tail|;
      } else {
        assert Filter(s, p) == Filter(s[1..], p);
      }
    }
  }

  /** `s.reduce((total, x) => total + f(x), 0)`. */
  function SumOf<T>(s: seq<T>, f: T -> int): int
  {
    if |s| == 0 then 0 else f(s[0]) + SumOf(s[1..], f)
  }

  /** The balance a ledger had before the entries of `log`, given the balance
      after them and what each entry did to it. */
  function BalanceBefore<T>(balance: int, log: seq<T>, effect: T -> int): int
  {
    balance - SumOf(log, effect)
  }

  lemma {:induction false} SumOfAppend<T>(s: seq<T>, f: T -> int, x: T)
    ensures SumOf(s + [x], f) == SumOf(s, f) + f(x)
  {
    if |s| > 0 {
      assert (s + [x])[1..] == s[1..] + [x];
      SumOfAppend(s[1..], f, x);
    }
  }

  /** Replacing one element changes the sum by exactly the difference. */
  lemma {:induction false} SumOfUpdate<T>(s: seq<T>, f: T -> int, i: nat, x: T)
    requires i < |s|
    ensures SumOf(s[i := x], f) == SumOf(s, f) - f(s[i]) + f(x)
  {
    if i > 0 {
      assert s[i := x][1..] == s[1..][i - 1 := x];
      SumOfUpdate(s[1..], f, i - 1, x);
    }
  }

  /** Moving `d` from the element at `i` to the element at `j` (the same one
      or another, the second update seeing the first) keeps the sum. */
  lemma SumOfMove<T>(s: seq<T>, f: T -> int, i: nat, j: nat, x: T, y: T, d: int)
    requires i < |s| && j < |s|
    requires f(x) == f(s[i]) - d
    requires f(y) == f(s[i := x][j]) + d
    ensures SumOf(s[i := x][j := y], f) == SumOf(s, f)
  {
    SumOfUpdate(s, f, i, x);
    SumOfUpdate(s[i := x], f, j, y);
  }
}
