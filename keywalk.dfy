/** The shape every record constructor of the client shares: walk the keys
    of a dict in order, let each key update the record under construction,
    and stop at the first key whose update raises. */
module KeyWalk {
  import opened Wrappers
  import opened JsonValues

  /** Applies `step` to the entries of `fields` in order, starting from `init`. */
  function Walk<R>(init: R, step: (R, string, Json) -> Result<R, Failure>, fields: Fields): Result<R, Failure>
    decreases |fields|
  {
    if fields == [] then Success(init)
    else
      match Walk(init, step, fields[..|fields| - 1])
      case Failure(e) => Failure(e)
      case Success(r) => step(r, fields[|fields| - 1].0, fields[|fields| - 1].1)
  }

  /** One more entry is one more step. */
  lemma WalkSnoc<R>(init: R, step: (R, string, Json) -> Result<R, Failure>, fields: Fields, e: (string, Json))
    ensures Walk(init, step, fields + [e]) ==
      match Walk(init, step, fields)
      case Failure(err) => Failure(err)
      case Success(r) => step(r, e.0, e.1)
  {
    assert (fields + [e])[..|fields|] == fields;
  }

  /** Once a step raises, the rest of the dict is never looked at. */
  lemma {:induction false} WalkFailureSticks<R>(init: R, step: (R, string, Json) -> Result<R, Failure>, a: Fields, b: Fields)
    requires Walk(init, step, a).Failure?
    ensures Walk(init, step, a + b) == Walk(init, step, a)
    decreases |b|
  {
    if b == [] {
      assert a + b == a;
    } else {
      var b' := b[..|b| - 1];
      assert a + b == (a + b') + [b[|b| - 1]];
      WalkFailureSticks(init, step, a, b');
      WalkSnoc(init, step, a + b', b[|b| - 1]);
    }
  }

  /** If the walk reaches entry `i` with record `r` and the step for that
      entry raises, the whole walk raises that exception. */
  lemma WalkFailsAt<R>(init: R, step: (R, string, Json) -> Result<R, Failure>, fields: Fields, i: nat, r: R)
    requires i < |fields|
    requires Walk(init, step, fields[..i]) == Success(r)
    requires step(r, fields[i].0, fields[i].1).Failure?
    ensures Walk(init, step, fields) == step(r, fields[i].0, fields[i].1)
  {
    WalkSnoc(init, step, fields[..i], fields[i]);
    assert fields[..i] + [fields[i]] == fields[..i + 1];
    WalkFailureSticks(init, step, fields[..i + 1], fields[i + 1..]);
    assert fields[..i + 1] + fields[i + 1..] == fields;
  }

  /** If the walk reaches entry `i` with record `r` and the step for that
      entry succeeds, the walk one entry further succeeds with its result. */
  lemma WalkStepsTo<R>(init: R, step: (R, string, Json) -> Result<R, Failure>, fields: Fields, i: nat, r: R, r': R)
    requires i < |fields|
    requires Walk(init, step, fields[..i]) == Success(r)
    requires step(r, fields[i].0, fields[i].1) == Success(r')
    ensures Walk(init, step, fields[..i + 1]) == Success(r')
  {
    assert fields[..i + 1][..i] == fields[..i];
  }

  /** An entry whose key the step ignores can be deleted from anywhere in
      the dict without changing the outcome. */
  lemma {:induction false} WalkIgnores<R(!new)>(init: R, step: (R, string, Json) -> Result<R, Failure>, a: Fields, e: (string, Json), b: Fields)
    requires forall r :: step(r, e.0, e.1) == Success(r)
    ensures Walk(init, step, a + [e] + b) == Walk(init, step, a + b)
    decreases |b|
  {
    if b == [] {
      assert a + [e] + b == a + [e];
      assert a + b == a;
      WalkSnoc(init, step, a, e);
      if Walk(init, step, a).Success? {
        var r := Walk(init, step, a).value;
        assert step(r, e.0, e.1) == Success(r);
      }
    } else {
      var b' := b[..|b| - 1];
      var last := b[|b| - 1];
      assert a + [e] + b == (a + [e] + b') + [last];
      assert a + b == (a + b') + [last];
      WalkIgnores(init, step, a, e, b');
      WalkSnoc(init, step, a + [e] + b', last);
      WalkSnoc(init, step, a + b', last);
    }
  }

  /** Hydrates every item of a list in order, as a loop that appends one
      record per item; the first item that raises ends the loop. */
  function HydrateAll<R>(hydrate: Json -> Result<R, Failure>, items: seq<Json>): (r: Result<seq<R>, Failure>)
    ensures r.Success? ==> |r.value| == |items|
    decreases |items|
  {
    if items == [] then Success([])
    else
      match HydrateAll(hydrate, items[..|items| - 1])
      case Failure(e) => Failure(e)
      case Success(rs) =>
        match hydrate(items[|items| - 1])
        case Failure(e) => Failure(e)
        case Success(x) => Success(rs + [x])
  }

  /** The list hydrates exactly when every item does, into the items'
      records in order; otherwise it raises the exception of the first item
      that raises. */
  lemma {:induction false} HydrateAllItemwise<R>(hydrate: Json -> Result<R, Failure>, items: seq<Json>)
    ensures HydrateAll(hydrate, items).Success? <==> forall i :: 0 <= i < |items| ==> hydrate(items[i]).Success?
    ensures HydrateAll(hydrate, items).Success? ==>
      forall i :: 0 <= i < |items| ==> hydrate(items[i]) == Success(HydrateAll(hydrate, items).value[i])
    ensures HydrateAll(hydrate, items).Failure? ==>
      exists i :: 0 <= i < |items| && hydrate(items[i]) == Failure(HydrateAll(hydrate, items).error) &&
                  forall j :: 0 <= j < i ==> hydrate(items[j]).Success?
    decreases |items|
  {
    if items != [] {
      var p := items[..|items| - 1];
      HydrateAllItemwise(hydrate, p);
      assert forall i :: 0 <= i < |p| ==> p[i] == items[i];
    }
  }

  /** One more item is one more hydration. */
  lemma HydrateAllPrefix<R>(hydrate: Json -> Result<R, Failure>, items: seq<Json>, i: nat)
    requires i < |items|
    ensures HydrateAll(hydrate, items[..i + 1]) ==
      match HydrateAll(hydrate, items[..i])
      case Failure(e) => Failure(e)
      case Success(rs) =>
        match hydrate(items[i])
        case Failure(e) => Failure(e)
        case Success(x) => Success(rs + [x])
  {
    assert items[..i + 1][..i] == items[..i];
  }

  /** If every item before `i` hydrates and item `i` raises, the whole list
      raises that exception. */
  lemma HydrateAllFailsAt<R>(hydrate: Json -> Result<R, Failure>, items: seq<Json>, i: nat)
    requires i < |items|
    requires HydrateAll(hydrate, items[..i]).Success?
    requires hydrate(items[i]).Failure?
    ensures HydrateAll(hydrate, items) == Failure(hydrate(items[i]).error)
  {
    var r := HydrateAll(hydrate, items);
    HydrateAllItemwise(hydrate, items);
    HydrateAllItemwise(hydrate, items[..i]);
    forall j | 0 <= j < i ensures hydrate(items[j]).Success? {
      assert items[..i][j] == items[j];
    }
    var k :| 0 <= k < |items| && hydrate(items[k]) == Failure(r.error) &&
             forall j :: 0 <= j < k ==> hydrate(items[j]).Success?;
    assert k == i;
  }
}
