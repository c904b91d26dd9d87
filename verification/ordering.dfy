/** Ordering utilities: sorting siblings by their `order` key and the
    splice-move that a drag-and-drop reorder performs on a sibling sequence. */
module Ordering {
  import opened Common

  /** Non-decreasing by `key`. */
  ghost predicate SortedBy<T>(s: seq<T>, key: T -> int) {
    forall i, j :: 0 <= i < j < |s| ==> key(s[i]) <= key(s[j])
  }

  /** Inserts `x` before the first element whose key is not smaller, so `x`
      goes ahead of the elements with equal keys already in `s`. */
  function InsertBy<T>(x: T, s: seq<T>, key: T -> int): (r: seq<T>)
    ensures multiset(r) == multiset(s) + multiset{x}
  {
    if s == [] || key(x) <= key(s[0]) then [x] + s
    else
      assert s == [s[0]] + s[1..];
      [s[0]] + InsertBy(x, s[1..], key)
  }

  /** Insertion into a sorted sequence keeps it sorted. */
  lemma {:induction false} InsertBySorted<T>(x: T, s: seq<T>, key: T -> int)
    requires SortedBy(s, key)
    ensures SortedBy(InsertBy(x, s, key), key)
  {
    if s != [] && key(x) > key(s[0]) {
      var t := InsertBy(x, s[1..], key);
      InsertBySorted(x, s[1..], key);
      forall y | y in t ensures key(s[0]) <= key(y) {
        assert y in multiset(t);
        if y != x {
          assert y in multiset(s[1..]);
          var j :| 0 <= j < |s[1..]| && s[1..][j] == y;
          assert s[j + 1] == y;
        }
      }
      var r := [s[0]] + t;
      forall i, j | 0 <= i < j < |r| ensures key(r[i]) <= key(r[j]) {
        if i == 0 {
          assert r[j] == t[j - 1];
          assert r[j] in t;
        } else {
          assert r[i] == t[i - 1] && r[j] == t[j - 1];
        }
      }
    }
  }

  /** `s.sort((a, b) => key(a) - key(b))` on a copy: an insertion sort, which
      is stable like the engines' `Array.prototype.sort`. */
  function SortBy<T>(s: seq<T>, key: T -> int): (r: seq<T>)
    ensures multiset(r) == multiset(s)
    ensures |r| == |s|
    ensures SortedBy(r, key)
  {
    if s == [] then []
    else
      assert s == [s[0]] + s[1..];
      var t := SortBy(s[1..], key);
      InsertBySorted(s[0], t, key);
      InsertBy(s[0], t, key)
  }

  /** `const [removed] = a.splice(start, 1)`: the removed element (undefined
      when `start` is past the end) and what is left of the array. */
  function SpliceOut<T>(a: seq<Option<T>>, start: nat): (r: (Option<T>, seq<Option<T>>))
    ensures start < |a| ==> r.0 == a[start] && |r.1| == |a| - 1
    ensures start < |a| ==>
      forall i :: 0 <= i < |r.1| ==> r.1[i] == (if i < start then a[i] else a[i + 1])
    ensures start >= |a| ==> r == (None, a)
  {
    if start < |a| then (a[start], a[..start] + a[start + 1..]) else (None, a)
  }

  /** `a.splice(start, 0, x)`: inserts `x` at `start`, or at the end when
      `start` is past it. */
  function SpliceIn<T>(a: seq<Option<T>>, start: nat, x: Option<T>): (r: seq<Option<T>>)
    ensures |r| == |a| + 1
    ensures r[if start <= |a| then start else |a|] == x
    ensures multiset(r) == multiset(a) + multiset{x}
    ensures var at := if start <= |a| then start else |a|;
      forall i :: 0 <= i < |r| && i != at ==> r[i] == (if i < at then a[i] else a[i - 1])
  {
    var at := if start <= |a| then start else |a|;
    assert a == a[..at] + a[at..];
    a[..at] + [x] + a[at..]
  }

  /** Every element defined. */
  function Lift<T>(s: seq<T>): (r: seq<Option<T>>)
    ensures |r| == |s|
    ensures forall i :: 0 <= i < |s| ==> r[i] == Some(s[i])
  {
    if s == [] then [] else [Some(s[0])] + Lift(s[1..])
  }

  /** The copy-and-splice-twice of the drag handler, with JavaScript's
      behaviour for indices past the end. */
  function SpliceMove<T>(s: seq<T>, from: nat, to: nat): seq<Option<T>>
  {
    var (removed, rest) := SpliceOut(Lift(s), from);
    SpliceIn(rest, to, removed)
  }

  /** The reference splice-move on in-range indices: take the element at
      `from` out and put it back at `to`. */
  function Move<T>(s: seq<T>, from: nat, to: nat): (r: seq<T>)
    requires from < |s| && to < |s|
    ensures |r| == |s|
    ensures r[to] == s[from]
    ensures multiset(r) == multiset(s)
  {
    var rest := s[..from] + s[from + 1..];
    assert s == s[..from] + [s[from]] + s[from + 1..];
    assert multiset(s) == multiset(rest) + multiset{s[from]};
    assert rest == rest[..to] + rest[to..];
    assert multiset(rest) == multiset(rest[..to]) + multiset(rest[to..]);
    rest[..to] + [s[from]] + rest[to..]
  }

  /** Element by element, the move shifts the stretch between the two
      positions by one towards `from` and leaves everything else in place. */
  lemma MoveAt<T>(s: seq<T>, from: nat, to: nat, k: nat)
    requires from < |s| && to < |s| && k < |s|
    ensures Move(s, from, to)[k] ==
      if k == to then s[from]
      else if from < to && from <= k < to then s[k + 1]
      else if to < from && to < k <= from then s[k - 1]
      else s[k]
  {
  }

  /** On indices inside the container, the JavaScript splices compute the
      reference move and produce no undefined entry. */
  lemma SpliceMoveInRange<T>(s: seq<T>, from: nat, to: nat)
    requires from < |s| && to < |s|
    ensures SpliceMove(s, from, to) == Lift(Move(s, from, to))
  {
    var l := Lift(s);
    var rest := l[..from] + l[from + 1..];
    assert SpliceOut(l, from) == (Some(s[from]), rest);
    var r := SpliceMove(s, from, to);
    var m := Lift(Move(s, from, to));
    assert |r| == |m|;
    forall k | 0 <= k < |r| ensures r[k] == m[k] {
      MoveAt(s, from, to, k);
    }
  }

  /** Moving an element onto its own position changes nothing. */
  lemma MoveToSelf<T>(s: seq<T>, i: nat)
    requires i < |s|
    ensures Move(s, i, i) == s
  {
    assert s == s[..i] + [s[i]] + s[i + 1..];
  }

  /** Moving back restores the original sequence. */
  lemma MoveRoundTrip<T>(s: seq<T>, from: nat, to: nat)
    requires from < |s| && to < |s|
    ensures Move(Move(s, from, to), to, from) == s
  {
    var m := Move(s, from, to);
    var b := Move(m, to, from);
    forall k | 0 <= k < |s| ensures b[k] == s[k] {
      MoveAt(m, to, from, k);
      if k != from {
        var j := if to < from && to <= k < from then k + 1
                 else if from < to && from < k <= to then k - 1
                 else k;
        MoveAt(s, from, to, j);
      }
    }
  }

  /** Index of the first undefined entry, or the length if there is none:
      a `forEach` that dereferences its entries throws there. */
  function FirstHole<T>(a: seq<Option<T>>): (k: nat)
    ensures k <= |a|
    ensures forall i :: 0 <= i < k ==> a[i].Some?
    ensures k < |a| ==> a[k].None?
  {
    if a == [] || a[0].None? then 0 else 1 + FirstHole(a[1..])
  }

  /** A fully defined sequence has no hole. */
  lemma {:induction false} FirstHoleLift<T>(s: seq<T>)
    ensures FirstHole(Lift(s)) == |s|
  {
    if s != [] {
      FirstHoleLift(s[1..]);
      assert Lift(s)[1..] == Lift(s[1..]);
    }
  }
}
