/** JSON trees and the three mutations of a request projection: set, delete, and set if missing. */
module Json {
  import opened Text

  datatype Json = Object(fields: map<string, Json>) | Array(items: seq<Json>) | Scalar(text: string)

  type Path = seq<string>

  function Fields(j: Json): map<string, Json> {
    if j.Object? then j.fields else map[]
  }

  function Child(fields: map<string, Json>, key: string): Json {
    if key in fields then fields[key] else Object(map[])
  }

  /** Missing objects on the way are created and scalars on the way are replaced; a key of an array is
      an error. */
  function Set(j: Json, path: Path, value: Json): Option<Json>
    decreases |path|
  {
    if path == [] then Some(value)
    else if j.Array? then None
    else
      var below := Set(Child(Fields(j), path[0]), path[1..], value);
      if below.None? then None else Some(Object(Fields(j)[path[0] := below.value]))
  }

  /** A path that leads nowhere changes nothing. */
  function Delete(j: Json, path: Path): Json
    decreases |path|
  {
    if path == [] || !j.Object? || path[0] !in j.fields then j
    else if |path| == 1 then Object(j.fields - {path[0]})
    else Object(j.fields[path[0] := Delete(j.fields[path[0]], path[1..])])
  }

  predicate Exists(j: Json, path: Path)
    decreases |path|
  {
    path == [] || (j.Object? && path[0] in j.fields && Exists(j.fields[path[0]], path[1..]))
  }

  datatype Mutation =
    | SetTo(path: Path, value: Json)
    | SetDefault(path: Path, value: Json)
    | DeleteAt(path: Path)

  function Apply(j: Json, m: Mutation): Option<Json> {
    match m
    case SetTo(path, value) => Set(j, path, value)
    case SetDefault(path, value) => if Exists(j, path) then Some(j) else Set(j, path, value)
    case DeleteAt(path) => Some(Delete(j, path))
  }

  /** One mutation after the other; an error ends it. */
  function ApplyAll(j: Option<Json>, ms: seq<Mutation>): Option<Json>
    decreases |ms|
  {
    if j.None? || ms == [] then j else ApplyAll(Apply(j.value, ms[0]), ms[1..])
  }

  function Then(j: Option<Json>, m: Mutation): Option<Json> {
    if j.None? then None else Apply(j.value, m)
  }

  // ----- incomparable paths ---------------------------------------------------------------

  /** Neither path leads through the other. */
  predicate Apart(p: Path, q: Path) {
    !(p <= q) && !(q <= p)
  }

  lemma {:induction false} ApartBelow(p: Path, q: Path)
    requires Apart(p, q)
    ensures p != [] && q != []
    ensures p[0] == q[0] ==> Apart(p[1..], q[1..])
  {
    if p[0] == q[0] {
      assert p == [p[0]] + p[1..] && q == [q[0]] + q[1..];
    }
  }

  lemma {:induction false} SetKeepsExists(j: Json, p: Path, value: Json, q: Path)
    requires Apart(p, q) && Set(j, p, value).Some?
    ensures Exists(Set(j, p, value).value, q) <==> Exists(j, q)
    decreases |p|
  {
    ApartBelow(p, q);
    if p[0] == q[0] {
      SetKeepsExists(Child(Fields(j), p[0]), p[1..], value, q[1..]);
      ApartBelow(p[1..], q[1..]);
    }
  }

  lemma {:induction false} DeleteKeepsExists(j: Json, p: Path, q: Path)
    requires Apart(p, q)
    ensures Exists(Delete(j, p), q) <==> Exists(j, q)
    decreases |p|
  {
    ApartBelow(p, q);
    if p[0] == q[0] && j.Object? && p[0] in j.fields {
      ApartBelow(p[1..], q[1..]);
      DeleteKeepsExists(j.fields[p[0]], p[1..], q[1..]);
    }
  }

  lemma {:induction false} SetSetCommute(j: Json, p: Path, v: Json, q: Path, w: Json)
    requires Apart(p, q)
    ensures Then(Set(j, p, v), SetTo(q, w)) == Then(Set(j, q, w), SetTo(p, v))
    decreases |p|
  {
    ApartBelow(p, q);
    var fields := Fields(j);
    if !j.Array? {
      if p[0] == q[0] {
        SetSetCommute(Child(fields, p[0]), p[1..], v, q[1..], w);
        SetTwice(j, p, v, q, w);
        SetTwice(j, q, w, p, v);
      } else {
        SetBeside(j, p, v, q, w);
        SetBeside(j, q, w, p, v);
        var x, y := Set(Child(fields, p[0]), p[1..], v), Set(Child(fields, q[0]), q[1..], w);
        if x.Some? && y.Some? {
          assert fields[p[0] := x.value][q[0] := y.value] == fields[q[0] := y.value][p[0] := x.value];
        }
      }
    }
  }

  /** Two sets below the same key are one set of what both make of the child. */
  lemma {:induction false} SetTwice(j: Json, p: Path, v: Json, q: Path, w: Json)
    requires p != [] && q != [] && p[0] == q[0] && !j.Array?
    ensures var below := Then(Set(Child(Fields(j), p[0]), p[1..], v), SetTo(q[1..], w));
            Then(Set(j, p, v), SetTo(q, w)) ==
            if below.None? then None else Some(Object(Fields(j)[p[0] := below.value]))
  {
    var x := Set(Child(Fields(j), p[0]), p[1..], v);
    if x.Some? {
      var below := Set(x.value, q[1..], w);
      if below.Some? {
        assert Fields(j)[p[0] := x.value][p[0] := below.value] == Fields(j)[p[0] := below.value];
      }
    }
  }

  lemma {:induction false} SetBeside(j: Json, p: Path, v: Json, q: Path, w: Json)
    requires p != [] && q != [] && p[0] != q[0] && !j.Array?
    ensures var x, y := Set(Child(Fields(j), p[0]), p[1..], v), Set(Child(Fields(j), q[0]), q[1..], w);
            Then(Set(j, p, v), SetTo(q, w)) ==
            if x.None? || y.None? then None
            else Some(Object(Fields(j)[p[0] := x.value][q[0] := y.value]))
  {
  }

  lemma {:induction false} SetDeleteCommute(j: Json, p: Path, v: Json, q: Path)
    requires Apart(p, q)
    ensures Then(Set(j, p, v), DeleteAt(q)) == Set(Delete(j, q), p, v)
    decreases |p|
  {
    ApartBelow(p, q);
    var fields := Fields(j);
    if !j.Array? {
      if p[0] == q[0] {
        ApartBelow(p[1..], q[1..]);
        SetDeleteCommute(Child(fields, p[0]), p[1..], v, q[1..]);
        SetThenDelete(j, p, v, q);
        DeleteThenSet(j, p, v, q);
      } else {
        SetDeleteBeside(j, p, v, q);
      }
    }
  }

  lemma {:induction false} SetThenDelete(j: Json, p: Path, v: Json, q: Path)
    requires |p| > 1 && |q| > 1 && p[0] == q[0] && !j.Array?
    ensures var x := Set(Child(Fields(j), p[0]), p[1..], v);
            Then(Set(j, p, v), DeleteAt(q)) ==
            if x.None? then None else Some(Object(Fields(j)[p[0] := Delete(x.value, q[1..])]))
  {
    var x := Set(Child(Fields(j), p[0]), p[1..], v);
    if x.Some? {
      var t := Object(Fields(j)[p[0] := x.value]);
      assert Delete(t, q) == Object(t.fields[q[0] := Delete(x.value, q[1..])]);
      assert t.fields[q[0] := Delete(x.value, q[1..])] == Fields(j)[p[0] := Delete(x.value, q[1..])];
    }
  }

  lemma {:induction false} DeleteThenSet(j: Json, p: Path, v: Json, q: Path)
    requires |p| > 1 && |q| > 1 && p[0] == q[0] && !j.Array?
    ensures var x := Set(Delete(Child(Fields(j), p[0]), q[1..]), p[1..], v);
            Set(Delete(j, q), p, v) ==
            if x.None? then None else Some(Object(Fields(j)[p[0] := x.value]))
  {
    if j.Object? && q[0] in j.fields {
      var below := Delete(j.fields[q[0]], q[1..]);
      assert Delete(j, q) == Object(j.fields[q[0] := below]);
      var x := Set(below, p[1..], v);
      if x.Some? {
        assert j.fields[q[0] := below][p[0] := x.value] == j.fields[p[0] := x.value];
      }
    } else {
      assert Delete(Object(map[]), q[1..]) == Object(map[]);
    }
  }

  lemma {:induction false} SetDeleteBeside(j: Json, p: Path, v: Json, q: Path)
    requires p != [] && q != [] && p[0] != q[0] && !j.Array?
    ensures Then(Set(j, p, v), DeleteAt(q)) == Set(Delete(j, q), p, v)
  {
    var x := Set(Child(Fields(j), p[0]), p[1..], v);
    if j.Object? && q[0] in j.fields {
      if x.Some? {
        if |q| == 1 {
          assert j.fields[p[0] := x.value] - {q[0]} == (j.fields - {q[0]})[p[0] := x.value];
        } else {
          var below := Delete(j.fields[q[0]], q[1..]);
          assert j.fields[p[0] := x.value][q[0] := below] == j.fields[q[0] := below][p[0] := x.value];
        }
      }
    }
  }

  lemma {:induction false} DeleteDeleteCommute(j: Json, p: Path, q: Path)
    requires Apart(p, q)
    ensures Delete(Delete(j, p), q) == Delete(Delete(j, q), p)
    decreases |p|
  {
    ApartBelow(p, q);
    if j.Object? && p[0] in j.fields && q[0] in j.fields {
      if p[0] == q[0] {
        ApartBelow(p[1..], q[1..]);
        DeleteDeleteCommute(j.fields[p[0]], p[1..], q[1..]);
        DeleteTwice(j, p, q);
        DeleteTwice(j, q, p);
      } else {
        DeleteBeside(j, p, q);
      }
    }
  }

  lemma {:induction false} DeleteTwice(j: Json, p: Path, q: Path)
    requires |p| > 1 && |q| > 1 && p[0] == q[0] && j.Object? && p[0] in j.fields
    ensures Delete(Delete(j, p), q) ==
            Object(j.fields[p[0] := Delete(Delete(j.fields[p[0]], p[1..]), q[1..])])
  {
    var below := Delete(j.fields[p[0]], p[1..]);
    var t := Object(j.fields[p[0] := below]);
    assert t.fields[q[0] := Delete(below, q[1..])] == j.fields[p[0] := Delete(below, q[1..])];
  }

  lemma {:induction false} DeleteBeside(j: Json, p: Path, q: Path)
    requires p != [] && q != [] && p[0] != q[0] && j.Object? && p[0] in j.fields && q[0] in j.fields
    ensures Delete(Delete(j, p), q) == Delete(Delete(j, q), p)
  {
    var x, y := Delete(j.fields[p[0]], p[1..]), Delete(j.fields[q[0]], q[1..]);
    var f := j.fields;
    if |p| == 1 && |q| == 1 {
      assert f - {p[0]} - {q[0]} == f - {q[0]} - {p[0]};
    } else if |p| == 1 {
      assert (f - {p[0]})[q[0] := y] == f[q[0] := y] - {p[0]};
    } else if |q| == 1 {
      assert f[p[0] := x] - {q[0]} == (f - {q[0]})[p[0] := x];
    } else {
      assert f[p[0] := x][q[0] := y] == f[q[0] := y][p[0] := x];
    }
  }

  /** Mutations at incomparable paths commute, errors included. */
  lemma {:induction false} MutationsCommute(j: Json, a: Mutation, b: Mutation)
    requires Apart(a.path, b.path)
    ensures Then(Apply(j, a), b) == Then(Apply(j, b), a)
  {
    hide Set, Delete, Exists;
    if a.DeleteAt? && b.DeleteAt? {
      DeleteDeleteCommute(j, a.path, b.path);
    } else if a.DeleteAt? {
      SetDeleteCommute(j, b.path, b.value, a.path);
      DeleteKeepsExists(j, a.path, b.path);
    } else if b.DeleteAt? {
      SetDeleteCommute(j, a.path, a.value, b.path);
      DeleteKeepsExists(j, b.path, a.path);
    } else {
      SetSetCommute(j, a.path, a.value, b.path, b.value);
      if Set(j, a.path, a.value).Some? {
        SetKeepsExists(j, a.path, a.value, b.path);
      }
      if Set(j, b.path, b.value).Some? {
        SetKeepsExists(j, b.path, b.value, a.path);
      }
    }
  }

  // ----- what a mutation does to the tree -------------------------------------------------

  /** What a tree holds at a path. */
  function At(j: Json, path: Path): Option<Json>
    decreases |path|
  {
    if path == [] then Some(j)
    else if j.Object? && path[0] in j.fields then At(j.fields[path[0]], path[1..])
    else None
  }

  lemma {:induction false} ExistsIffHeld(j: Json, path: Path)
    ensures Exists(j, path) <==> At(j, path).Some?
    decreases |path|
  {
    if path != [] && j.Object? && path[0] in j.fields {
      ExistsIffHeld(j.fields[path[0]], path[1..]);
    }
  }

  lemma {:induction false} NothingInNothing(path: Path)
    requires path != []
    ensures At(Object(map[]), path) == None
  {
  }

  lemma {:induction false} SetPutsValue(j: Json, path: Path, value: Json)
    requires Set(j, path, value).Some?
    ensures At(Set(j, path, value).value, path) == Some(value)
    decreases |path|
  {
    if path != [] {
      SetPutsValue(Child(Fields(j), path[0]), path[1..], value);
    }
  }

  lemma {:induction false} SetLeavesRest(j: Json, path: Path, value: Json, q: Path)
    requires Apart(path, q) && Set(j, path, value).Some?
    ensures At(Set(j, path, value).value, q) == At(j, q)
    decreases |path|
  {
    ApartBelow(path, q);
    if path[0] == q[0] {
      ApartBelow(path[1..], q[1..]);
      SetLeavesRest(Child(Fields(j), path[0]), path[1..], value, q[1..]);
      NothingInNothing(q[1..]);
    }
  }

  lemma {:induction false} DeleteRemovesValue(j: Json, path: Path)
    requires path != []
    ensures At(Delete(j, path), path) == None
    decreases |path|
  {
    if j.Object? && path[0] in j.fields && |path| > 1 {
      DeleteRemovesValue(j.fields[path[0]], path[1..]);
    }
  }

  lemma {:induction false} DeleteLeavesRest(j: Json, path: Path, q: Path)
    requires Apart(path, q)
    ensures At(Delete(j, path), q) == At(j, q)
    decreases |path|
  {
    ApartBelow(path, q);
    if path[0] == q[0] && j.Object? && path[0] in j.fields {
      ApartBelow(path[1..], q[1..]);
      DeleteLeavesRest(j.fields[path[0]], path[1..], q[1..]);
    }
  }

  /** A set fails exactly when the path leads through an array. */
  lemma {:induction false} SetFailsIff(j: Json, path: Path, value: Json)
    ensures Set(j, path, value).None? <==>
            exists n | 0 <= n < |path| :: At(j, path[..n]).Some? && At(j, path[..n]).value.Array?
    decreases |path|
  {
    if path != [] && !j.Array? {
      var child, rest := Child(Fields(j), path[0]), path[1..];
      SetFailsIff(child, rest, value);
      forall n | 0 <= n < |rest|
        ensures At(child, rest[..n]).Some? && At(child, rest[..n]).value.Array? <==>
                At(j, path[..n + 1]).Some? && At(j, path[..n + 1]).value.Array?
      {
        assert path[..n + 1][1..] == rest[..n];
        if path[0] !in Fields(j) && n > 0 {
          NothingInNothing(rest[..n]);
        }
      }
      assert At(j, path[..0]) == Some(j);
      if exists n | 0 <= n < |path| :: At(j, path[..n]).Some? && At(j, path[..n]).value.Array? {
        var n :| 0 <= n < |path| && At(j, path[..n]).Some? && At(j, path[..n]).value.Array?;
        assert n > 0 && At(child, rest[..n - 1]).Some? && At(child, rest[..n - 1]).value.Array?;
      }
    } else if path != [] {
      assert At(j, path[..0]) == Some(j);
    }
  }

  /** What one mutation does, path by path: the value is there, a default only if nothing was there before,
      a deleted path holds nothing, and every incomparable path holds what it held. */
  lemma {:induction false} MutationShows(j: Json, m: Mutation)
    requires Apply(j, m).Some?
    ensures var t := Apply(j, m).value;
            && (m.SetTo? ==> At(t, m.path) == Some(m.value))
            && (m.SetDefault? ==> At(t, m.path) == if At(j, m.path).Some? then At(j, m.path) else Some(m.value))
            && (m.DeleteAt? && m.path != [] ==> At(t, m.path) == None)
            && forall q | Apart(m.path, q) :: At(t, q) == At(j, q)
  {
    hide Set, Delete, At, Exists, Apart;
    ExistsIffHeld(j, m.path);
    if m.DeleteAt? {
      if m.path != [] {
        DeleteRemovesValue(j, m.path);
      }
      forall q | Apart(m.path, q) ensures At(Delete(j, m.path), q) == At(j, q) {
        DeleteLeavesRest(j, m.path, q);
      }
    } else if !(m.SetDefault? && Exists(j, m.path)) {
      SetPutsValue(j, m.path, m.value);
      forall q | Apart(m.path, q) ensures At(Set(j, m.path, m.value).value, q) == At(j, q) {
        SetLeavesRest(j, m.path, m.value, q);
      }
    }
  }

  // ----- sequences of mutations -----------------------------------------------------------

  predicate Unordered(ms: seq<Mutation>) {
    forall i, j | 0 <= i < j < |ms| :: Apart(ms[i].path, ms[j].path)
  }

  predicate AllApart(a: seq<Mutation>, b: seq<Mutation>) {
    forall m, n | m in a && n in b :: Apart(m.path, n.path)
  }

  lemma {:induction false} ApplyAllSplits(j: Option<Json>, a: seq<Mutation>, b: seq<Mutation>)
    ensures ApplyAll(j, a + b) == ApplyAll(ApplyAll(j, a), b)
    decreases |a|
  {
    hide Apply;
    if a == [] {
      assert a + b == b;
    } else if j.Some? {
      assert (a + b)[1..] == a[1..] + b;
      ApplyAllSplits(Apply(j.value, a[0]), a[1..], b);
    }
  }

  /** One mutation moves to the front past everything that is apart from it. */
  lemma {:induction false} MovesToFront(j: Option<Json>, before: seq<Mutation>, m: Mutation)
    requires forall n <- before :: Apart(m.path, n.path)
    ensures ApplyAll(j, before + [m]) == ApplyAll(j, [m] + before)
    decreases |before|
  {
    hide Apply;
    if before == [] {
      assert before + [m] == [m] + before;
    } else if j.Some? {
      var first, rest := before[0], before[1..];
      MutationsCommute(j.value, first, m);
      MovesToFront(Apply(j.value, first), rest, m);
      assert (before + [m])[1..] == rest + [m];
      assert ApplyAll(j, [m] + before) == ApplyAll(Apply(j.value, m), before) by {
        assert ([m] + before)[1..] == before;
      }
      assert ApplyAll(Apply(j.value, first), [m] + rest) == ApplyAll(Then(Apply(j.value, first), m), rest) by {
        assert ([m] + rest)[1..] == rest;
      }
      assert ApplyAll(Apply(j.value, m), before) == ApplyAll(Then(Apply(j.value, m), first), rest);
    }
  }

  /** Any of the mutations may come first. */
  lemma {:induction false} AnyFirst(j: Option<Json>, a: seq<Mutation>, k: nat)
    requires Unordered(a) && k < |a|
    ensures ApplyAll(j, a) == ApplyAll(ApplyAll(j, [a[k]]), a[..k] + a[k + 1..])
  {
    hide Apply, Apart, ApplyAll, Unordered;
    var before, m, after := a[..k], a[k], a[k + 1..];
    ApartFromOthers(a, k);
    MovesToFront(j, before, m);
    assert a == (before + [m]) + after;
    ApplyAllSplits(j, before + [m], after);
    ApplyAllSplits(j, [m] + before, after);
    assert ([m] + before) + after == [m] + (before + after);
    ApplyAllSplits(j, [m], before + after);
  }

  lemma {:induction false} BagWithout<T>(a: seq<T>, k: nat, b: seq<T>)
    requires multiset(a) == multiset(b) && b != [] && k < |a| && a[k] == b[0]
    ensures multiset(a[..k] + a[k + 1..]) == multiset(b[1..])
  {
    var before, after, rest := a[..k], a[k + 1..], b[1..];
    assert a == before + [a[k]] + after && b == [b[0]] + rest;
    assert multiset(a) == multiset(before) + multiset{a[k]} + multiset(after);
    assert multiset(b) == multiset{b[0]} + multiset(rest);
    assert multiset(before) + multiset(after) == multiset(a) - multiset{a[k]} == multiset(rest);
  }

  /** The result does not depend on the order of mutations at incomparable paths. */
  lemma {:induction false} OrderIsNotObservable(j: Option<Json>, a: seq<Mutation>, b: seq<Mutation>)
    requires Unordered(a) && multiset(a) == multiset(b)
    ensures ApplyAll(j, a) == ApplyAll(j, b)
    decreases |b|
  {
    hide Apply, Apart, ApplyAll, Unordered;
    if b == [] {
      assert |multiset(a)| == 0;
    } else {
      assert b == [b[0]] + b[1..] && b[0] in multiset(a);
      var k :| 0 <= k < |a| && a[k] == b[0];
      AnyFirst(j, a, k);
      UnorderedWithout(a, k);
      BagWithout(a, k, b);
      ApplyAllSplits(j, [b[0]], b[1..]);
      OrderIsNotObservable(ApplyAll(j, [b[0]]), a[..k] + a[k + 1..], b[1..]);
    }
  }

  lemma {:induction false} ApartFromOthers(a: seq<Mutation>, k: nat)
    requires Unordered(a) && k < |a|
    ensures forall n <- a[..k] :: Apart(a[k].path, n.path)
  {
    forall n <- a[..k] ensures Apart(a[k].path, n.path) {
      var i :| 0 <= i < k && a[i] == n;
      assert Apart(a[i].path, a[k].path);
    }
  }

  lemma {:induction false} UnorderedWithout(a: seq<Mutation>, k: nat)
    requires Unordered(a) && k < |a|
    ensures Unordered(a[..k] + a[k + 1..])
  {
    hide Apart;
    var rest := a[..k] + a[k + 1..];
    forall i, j | 0 <= i < j < |rest| ensures Apart(rest[i].path, rest[j].path) {
      var i', j' := if i < k then i else i + 1, if j < k then j else j + 1;
      assert rest[i] == a[i'] && rest[j] == a[j'];
    }
  }

  /** Blocks of mutations that are apart from each other change places. */
  lemma {:induction false} BlocksCommute(j: Option<Json>, a: seq<Mutation>, b: seq<Mutation>)
    requires AllApart(a, b)
    ensures ApplyAll(j, a + b) == ApplyAll(j, b + a)
    decreases |b|
  {
    hide Apply, Apart;
    if b == [] {
      assert a + b == b + a;
    } else {
      var m, rest := b[0], b[1..];
      assert b == [m] + rest && a + b == (a + [m]) + rest;
      forall n <- a ensures Apart(m.path, n.path) {
        ApartIsSymmetric(n.path, m.path);
      }
      MovesToFront(j, a, m);
      ApplyAllSplits(j, a + [m], rest);
      ApplyAllSplits(j, [m] + a, rest);
      assert ([m] + a) + rest == [m] + (a + rest) && b + a == [m] + (rest + a);
      ApplyAllSplits(j, [m], a + rest);
      ApplyAllSplits(j, [m], rest + a);
      BlocksCommute(ApplyAll(j, [m]), a, rest);
    }
  }

  lemma {:induction false} ApartIsSymmetric(p: Path, q: Path)
    ensures Apart(p, q) <==> Apart(q, p)
  {
  }

  /** The condition is needed: a set below a path and a delete of it do not commute. */
  lemma {:induction false} NestedMutationsDoNotCommute(key: string, below: string, v: Json)
    ensures var a, b := SetTo([key, below], v), DeleteAt([key]);
            Then(Apply(Object(map[]), a), b) != Then(Apply(Object(map[]), b), a)
  {
    assert [key, below][1..] == [below] && [below][1..] == [];
    var t := Set(Object(map[]), [key, below], v);
    assert Set(Object(map[]), [below], v) == Some(Object(map[below := v]));
    assert t == Some(Object(map[key := Object(map[below := v])]));
    assert Delete(t.value, [key]) == Object(map[key := Object(map[below := v])] - {key});
    assert key !in Delete(t.value, [key]).fields;
  }

  // ----- what a sequence of mutations leaves ----------------------------------------------

  lemma {:induction false} AllLeaveRest(j: Json, ms: seq<Mutation>, q: Path)
    requires ApplyAll(Some(j), ms).Some? && forall m <- ms :: Apart(m.path, q)
    ensures At(ApplyAll(Some(j), ms).value, q) == At(j, q)
    decreases |ms|
  {
    hide Apply, At, Apart;
    if ms != [] {
      FailureIsFinal(ms[1..]);
      MutationShows(j, ms[0]);
      AllLeaveRest(Apply(j, ms[0]).value, ms[1..], q);
    }
  }

  lemma {:induction false} FailureIsFinal(ms: seq<Mutation>)
    ensures ApplyAll(None, ms) == None
  {
  }

  /** The last mutation at a path decides what is there; a default also needs that nothing before it comes
      near the path. */
  lemma {:induction false} LastDecides(j: Json, before: seq<Mutation>, m: Mutation, after: seq<Mutation>, t: Json)
    requires ApplyAll(Some(j), before + ([m] + after)) == Some(t)
    requires forall n <- after :: Apart(n.path, m.path)
    ensures m.SetTo? ==> At(t, m.path) == Some(m.value)
    ensures m.DeleteAt? && m.path != [] ==> At(t, m.path) == None
    ensures m.SetDefault? && (forall n <- before :: Apart(n.path, m.path)) ==>
              At(t, m.path) == if At(j, m.path).Some? then At(j, m.path) else Some(m.value)
  {
    hide Apply, At, Apart, ApplyAll;
    ApplyAllSplits(Some(j), before, [m] + after);
    FailureIsFinal([m] + after);
    var u := ApplyAll(Some(j), before).value;
    ApplyAllStarts(u, m, after);
    FailureIsFinal(after);
    MutationShows(u, m);
    AllLeaveRest(Apply(u, m).value, after, m.path);
    if forall n <- before :: Apart(n.path, m.path) {
      AllLeaveRest(j, before, m.path);
    }
  }

  lemma {:induction false} ApplyAllStarts(j: Json, m: Mutation, after: seq<Mutation>)
    ensures ApplyAll(Some(j), [m] + after) == ApplyAll(Apply(j, m), after)
  {
    hide Apply;
    assert ([m] + after)[1..] == after;
  }

  /** The same for a member of a block whose mutations are apart from each other. */
  lemma {:induction false} BlockDecides(j: Json, before: seq<Mutation>, block: seq<Mutation>, after: seq<Mutation>,
                                        m: Mutation, t: Json)
    requires ApplyAll(Some(j), before + block + after) == Some(t)
    requires Unordered(block) && m in block && forall n <- after :: Apart(n.path, m.path)
    ensures m.SetTo? ==> At(t, m.path) == Some(m.value)
    ensures m.DeleteAt? && m.path != [] ==> At(t, m.path) == None
    ensures m.SetDefault? && (forall n <- before :: Apart(n.path, m.path)) ==>
              At(t, m.path) == if At(j, m.path).Some? then At(j, m.path) else Some(m.value)
  {
    hide Apply, At, Apart, ApplyAll;
    var i :| 0 <= i < |block| && block[i] == m;
    var earlier, later := before + block[..i], block[i + 1..] + after;
    assert before + block + after == earlier + ([m] + later);
    forall n <- block[..i] ensures Apart(n.path, m.path) {
      var k :| 0 <= k < i && block[k] == n;
    }
    forall n <- block[i + 1..] ensures Apart(n.path, m.path) {
      var k :| i < k < |block| && block[k] == n;
      ApartIsSymmetric(n.path, m.path);
    }
    LastDecides(j, earlier, m, later, t);
  }
}
