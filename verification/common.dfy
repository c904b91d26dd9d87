/** Identifiers, optional values, results and the helpers over id sequences
    shared by the client store, the drag handler and the server controllers. */
module Common {

  /** Every board, list and card is keyed by an opaque document identifier. */
  type Id = string

  /** `None` stands for JavaScript's `undefined`/`null`. */
  datatype Option<+T> = None | Some(value: T)

  /** The failures a controller reports: 404, 400 (a required field is
      missing or fails validation) and 500 (a collaborator failed). */
  datatype Failure = NotFound | Invalid | ServiceFailure

  datatype Result<+T> = Ok(value: T) | Err(failure: Failure)

  /** A checklist entry of a card: a label and a completion flag. */
  datatype Subtask = Subtask(text: string, completed: bool)

  /** JavaScript truthiness of an optional string: absent and "" are falsy. */
  predicate Truthy(s: Option<string>) {
    s.Some? && s.value != ""
  }

  predicate Distinct<T(==)>(s: seq<T>) {
    forall i, j :: 0 <= i < j < |s| ==> s[i] != s[j]
  }

  /** `m[k]` as JavaScript reads it: the entry, or undefined. */
  function Lookup<T>(m: map<Id, T>, k: Id): (r: Option<T>)
    ensures r.Some? <==> k in m
    ensures r.Some? ==> r.value == m[k]
  {
    if k in m then Some(m[k]) else None
  }

  /** `s.filter(y => y !== x)`: every occurrence of `x` dropped. */
  function Without(s: seq<Id>, x: Id): (r: seq<Id>)
    ensures forall y :: y in r <==> y in s && y != x
    ensures |r| <= |s|
  {
    if s == [] then []
    else (if s[0] == x then [] else [s[0]]) + Without(s[1..], x)
  }

  /** Filtering distributes over concatenation, so the survivors keep their
      relative order. */
  lemma {:induction false} WithoutConcat(a: seq<Id>, b: seq<Id>, x: Id)
    ensures Without(a + b, x) == Without(a, x) + Without(b, x)
  {
    if a == [] {
      assert a + b == b;
    } else {
      assert (a + b)[0] == a[0];
      assert (a + b)[1..] == a[1..] + b;
      WithoutConcat(a[1..], b, x);
    }
  }

  /** Nothing but the occurrences of `x` is lost, and nothing is duplicated. */
  lemma {:induction false} WithoutMultiset(s: seq<Id>, x: Id)
    ensures multiset(Without(s, x)) == multiset(s)[x := 0]
  {
    if s != [] {
      WithoutMultiset(s[1..], x);
      assert s == [s[0]] + s[1..];
    }
  }

  /** Filtering out an element that is absent changes nothing. */
  lemma {:induction false} WithoutAbsent(s: seq<Id>, x: Id)
    requires x !in s
    ensures Without(s, x) == s
  {
    if s != [] {
      WithoutAbsent(s[1..], x);
    }
  }

  /** Removing an id undoes appending it, when it was not there before. */
  lemma WithoutUndoesAppend(s: seq<Id>, x: Id)
    requires x !in s
    ensures Without(s + [x], x) == s
  {
    WithoutConcat(s, [x], x);
    WithoutAbsent(s, x);
  }

  /** Filtering keeps a duplicate-free sequence duplicate-free. */
  lemma {:induction false} WithoutDistinct(s: seq<Id>, x: Id)
    requires Distinct(s)
    ensures Distinct(Without(s, x))
  {
    if s != [] {
      WithoutDistinct(s[1..], x);
      assert s[0] !in s[1..] by {
        forall j | 0 <= j < |s[1..]| ensures s[1..][j] != s[0] {
          assert s[1..][j] == s[j + 1];
        }
      }
    }
  }

  /** The position of the last occurrence of `x`: where a `forEach` that
      writes once per occurrence leaves its final write. */
  function LastIndexOf<T(==)>(s: seq<T>, x: T): (i: nat)
    requires x in s
    ensures i < |s| && s[i] == x
    ensures forall j :: i < j < |s| ==> s[j] != x
  {
    if s[|s| - 1] == x then |s| - 1
    else
      assert x in s[..|s| - 1] by {
        var k :| 0 <= k < |s| && s[k] == x;
        assert s[..|s| - 1][k] == x;
      }
      LastIndexOf(s[..|s| - 1], x)
  }

  /** Extending a sequence by one element moves the last occurrence of that
      element to the end and leaves the last occurrence of the others put. */
  lemma LastIndexOfSnoc<T>(s: seq<T>, x: T, y: T)
    requires y in s + [x]
    ensures y == x ==> LastIndexOf(s + [x], y) == |s|
    ensures y != x ==> y in s && LastIndexOf(s + [x], y) == LastIndexOf(s, y)
  {
    var t := s + [x];
    assert t[..|t| - 1] == s;
  }

  /** `ids.map(id => m[id])`: one lookup per id, undefined where absent. */
  function LookupAll<T>(m: map<Id, T>, ids: seq<Id>): (r: seq<Option<T>>)
    ensures |r| == |ids|
    ensures forall i :: 0 <= i < |ids| ==> r[i] == Lookup(m, ids[i])
  {
    if ids == [] then [] else [Lookup(m, ids[0])] + LookupAll(m, ids[1..])
  }

  /** `ids.map(id => m[id]).filter(Boolean)`: the stored entries of the ids,
      in id order; ids with no entry are dropped. */
  function Present<T>(ids: seq<Id>, m: map<Id, T>): (r: seq<T>)
    ensures |r| <= |ids|
    ensures forall k :: k in ids && k in m ==> m[k] in r
    ensures forall v :: v in r ==> exists k :: k in ids && k in m && m[k] == v
  {
    if ids == [] then []
    else (if ids[0] in m then [m[ids[0]]] else []) + Present(ids[1..], m)
  }

  /** When every id has an entry, nothing is dropped and entry `i` is the
      entry of id `i`. */
  lemma {:induction false} PresentTotal<T>(ids: seq<Id>, m: map<Id, T>)
    requires forall k :: k in ids ==> k in m
    ensures |Present(ids, m)| == |ids|
    ensures forall i :: 0 <= i < |ids| ==> Present(ids, m)[i] == m[ids[i]]
  {
    if ids != [] {
      PresentTotal(ids[1..], m);
    }
  }

  /** `s.filter(keep)`: the kept elements, each as often as in `s`. */
  function Filter<T(!new)>(s: seq<T>, keep: T -> bool): (r: seq<T>)
    ensures forall x :: x in r <==> x in s && keep(x)
    ensures forall x :: multiset(r)[x] == if keep(x) then multiset(s)[x] else 0
  {
    if s == [] then []
    else
      assert s == [s[0]] + s[1..];
      (if keep(s[0]) then [s[0]] else []) + Filter(s[1..], keep)
  }

  /** `xs.forEach(x => { if (!ids.includes(x)) ids.push(x); })`: the ids of
      `xs` not yet present are appended, each once, in first-seen order. */
  function PushAbsent(ids: seq<Id>, xs: seq<Id>): (r: seq<Id>)
    ensures forall y :: y in r <==> y in ids || y in xs
    ensures |ids| <= |r| && r[..|ids|] == ids
    ensures Distinct(ids) ==> Distinct(r)
  {
    if xs == [] then ids
    else
      var r := PushAbsent(ids, xs[..|xs| - 1]);
      var x := xs[|xs| - 1];
      assert xs == xs[..|xs| - 1] + [x];
      if x in r then r else r + [x]
  }

  /** Every id of `r` that comes before another first occurs in `xs` before
      every occurrence of that other. */
  ghost predicate FirstSeenOrder(r: seq<Id>, xs: seq<Id>) {
    forall i, j, b :: 0 <= i < j < |r| && 0 <= b < |xs| && xs[b] == r[j] ==> r[i] in xs[..b]
  }

  /** One pair of the loop step of `PushAbsentFirstSeen`. */
  lemma FirstSeenPair(p: seq<Id>, x: Id, i: nat, j: nat, b: nat)
    requires FirstSeenOrder(PushAbsent([], p), p)
    requires var q := PushAbsent([], p);
      var r := if x in q then q else q + [x];
      i < j < |r| && b <= |p| && (p + [x])[b] == r[j]
    ensures var q := PushAbsent([], p);
      (if x in q then q else q + [x])[i] in (p + [x])[..b]
  {
    var xs := p + [x];
    var q := PushAbsent([], p);
    var r := if x in q then q else q + [x];
    assert r[i] == q[i];
    if b < |p| {
      assert p[b] == xs[b];
      assert xs[b] in p;
      assert j < |q|;
      assert q[i] in p[..b];
      assert p[..b] == xs[..b];
    } else {
      assert xs[b] == x;
      if j < |q| {
        assert x in p;
        var b' :| 0 <= b' < |p| && p[b'] == x;
        assert q[i] in p[..b'];
        var k :| 0 <= k < b' && p[..b'][k] == q[i];
        assert xs[..b][k] == q[i];
      } else {
        assert q[i] in p;
        assert xs[..b] == p;
      }
    }
  }

  /** The push-if-absent loop started from no ids keeps the order of first
      occurrence. */
  lemma {:induction false} PushAbsentFirstSeen(xs: seq<Id>)
    ensures FirstSeenOrder(PushAbsent([], xs), xs)
  {
    if xs != [] {
      var p := xs[..|xs| - 1];
      var x := xs[|xs| - 1];
      assert p + [x] == xs;
      PushAbsentFirstSeen(p);
      PushAbsentSnoc([], p, x);
      forall i, j, b | 0 <= i < j < |PushAbsent([], xs)| && 0 <= b < |xs| && xs[b] == PushAbsent([], xs)[j]
        ensures PushAbsent([], xs)[i] in xs[..b]
      {
        FirstSeenPair(p, x, i, j, b);
      }
    }
  }

  /** The order in which a `byId` object enumerates its keys. JavaScript
      enumerates string keys in first-insertion order, and a slice inserts a
      key into `byId` when its id first enters `allIds` and deletes it when
      every copy of the id leaves `allIds`; so the key order is the order of
      first occurrence in `allIds`, each id once. */
  function KeyOrder(allIds: seq<Id>): (r: seq<Id>)
    ensures Distinct(r)
    ensures forall k :: k in r <==> k in allIds
    ensures forall i, j, b :: 0 <= i < j < |r| && 0 <= b < |allIds| && allIds[b] == r[j] ==> r[i] in allIds[..b]
  {
    PushAbsentFirstSeen(allIds);
    PushAbsent([], allIds)
  }

  /** `Object.values(byId)`: the stored entries in key order; it holds the
      entry of every listed stored id, and nothing else. */
  function Values<T>(byId: map<Id, T>, allIds: seq<Id>): (r: seq<T>)
    ensures forall k :: k in allIds && k in byId ==> byId[k] in r
    ensures forall v :: v in r ==> exists k :: k in allIds && k in byId && byId[k] == v
  {
    Present(KeyOrder(allIds), byId)
  }

  /** On a duplicate-free id list over a map that never files one entry
      under two ids, each stored entry of a listed id appears exactly once. */
  lemma {:induction false} PresentCount<T>(ids: seq<Id>, m: map<Id, T>, k: Id)
    requires Distinct(ids)
    requires forall a, b :: a in m && b in m && m[a] == m[b] ==> a == b
    requires k in m
    ensures multiset(Present(ids, m))[m[k]] == if k in ids then 1 else 0
  {
    if ids != [] {
      assert Distinct(ids[1..]) by {
        forall i, j | 0 <= i < j < |ids[1..]| ensures ids[1..][i] != ids[1..][j] {
          assert ids[1..][i] == ids[i + 1] && ids[1..][j] == ids[j + 1];
        }
      }
      PresentCount(ids[1..], m, k);
      assert ids[0] !in ids[1..] by {
        forall j | 0 <= j < |ids[1..]| ensures ids[1..][j] != ids[0] {
          assert ids[1..][j] == ids[j + 1];
        }
      }
      assert k in ids <==> k == ids[0] || k in ids[1..] by {
        assert ids == [ids[0]] + ids[1..];
      }
    }
  }

  /** `m` is `base` after writing `vals[i]` under `ids[i]` for each `i` in
      turn: the keys are those of `base` and `ids`, and each written key
      holds its last write. */
  ghost predicate Upserted<T>(m: map<Id, T>, base: map<Id, T>, ids: seq<Id>, vals: seq<T>)
    requires |ids| == |vals|
  {
    && (forall k :: k in m <==> k in base || k in ids)
    && (forall k :: k in m ==> m[k] == if k in ids then vals[LastIndexOf(ids, k)] else base[k])
  }

  /** One more write extends the sequence of writes. */
  lemma UpsertedStep<T>(m: map<Id, T>, base: map<Id, T>, ids: seq<Id>, vals: seq<T>, id: Id, v: T)
    requires |ids| == |vals|
    requires Upserted(m, base, ids, vals)
    ensures Upserted(m[id := v], base, ids + [id], vals + [v])
  {
    forall k | k in ids + [id] {
      LastIndexOfSnoc(ids, id, k);
    }
  }

  /** One more id extends the push-if-absent loop by one step. */
  lemma PushAbsentSnoc(ids: seq<Id>, xs: seq<Id>, x: Id)
    ensures PushAbsent(ids, xs + [x]) ==
      if x in PushAbsent(ids, xs) then PushAbsent(ids, xs) else PushAbsent(ids, xs) + [x]
  {
    assert (xs + [x])[..|xs + [x]| - 1] == xs;
  }

  /** A prefix one longer is the prefix and the next element. */
  lemma TakeSnoc<T>(s: seq<T>, i: nat)
    requires i < |s|
    ensures s[..i + 1] == s[..i] + [s[i]]
  {
  }
}
