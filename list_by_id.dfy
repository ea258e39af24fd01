/** The id-keyed list updates both map pages perform inside their state
    setters: `list.map(x => x.id === id ? f(x) : x)` and
    `list.filter(x => x.id !== id)`. Generic over the element type, with
    `idOf` reading an element's id. */
module ListById {
  import opened Common

  /** `map` that rewrites exactly the elements carrying `id`. */
  function UpdateWhere<T>(xs: seq<T>, id: string, idOf: T -> string, f: T -> T): (r: seq<T>)
    ensures |r| == |xs|
  {
    if xs == [] then []
    else [if idOf(xs[0]) == id then f(xs[0]) else xs[0]] + UpdateWhere(xs[1..], id, idOf, f)
  }

  /** `filter` that drops exactly the elements carrying `id`. */
  function RemoveWhere<T>(xs: seq<T>, id: string, idOf: T -> string): (r: seq<T>)
    ensures |r| <= |xs|
  {
    if xs == [] then []
    else (if idOf(xs[0]) == id then [] else [xs[0]]) + RemoveWhere(xs[1..], id, idOf)
  }

  /** The update keeps the list's length and order: every element with
      another id stays where it was, and every element with `id` is replaced
      in place by its image under `f`. */
  lemma {:induction false} UpdateWherePointwise<T>(xs: seq<T>, id: string, idOf: T -> string, f: T -> T)
    ensures var r := UpdateWhere(xs, id, idOf, f);
      forall i :: 0 <= i < |xs| ==> r[i] == (if idOf(xs[i]) == id then f(xs[i]) else xs[i])
  {
    if xs != [] {
      UpdateWherePointwise(xs[1..], id, idOf, f);
      var r := UpdateWhere(xs, id, idOf, f);
      forall i | 1 <= i < |xs|
        ensures r[i] == (if idOf(xs[i]) == id then f(xs[i]) else xs[i])
      {
        assert r[i] == UpdateWhere(xs[1..], id, idOf, f)[i - 1];
        assert xs[1..][i - 1] == xs[i];
      }
    }
  }

  /** A list without `id` is left untouched by an update of `id`. */
  lemma {:induction false} UpdateWhereAbsent<T>(xs: seq<T>, id: string, idOf: T -> string, f: T -> T)
    requires forall i :: 0 <= i < |xs| ==> idOf(xs[i]) != id
    ensures UpdateWhere(xs, id, idOf, f) == xs
  {
    if xs != [] {
      UpdateWhereAbsent(xs[1..], id, idOf, f);
      assert xs == [xs[0]] + xs[1..];
    }
  }

  /** The filter keeps exactly the elements with another id, in order,
      and no element with `id` survives it. */
  lemma {:induction false} RemoveWhereKeepsOthers<T>(xs: seq<T>, id: string, idOf: T -> string)
    ensures forall x :: x in RemoveWhere(xs, id, idOf) <==> x in xs && idOf(x) != id
    ensures IsSubsequence(RemoveWhere(xs, id, idOf), xs)
  {
    if xs != [] {
      RemoveWhereKeepsOthers(xs[1..], id, idOf);
      var r := RemoveWhere(xs, id, idOf);
      var rest := RemoveWhere(xs[1..], id, idOf);
      assert xs == [xs[0]] + xs[1..];
      if idOf(xs[0]) == id {
        assert r == rest;
        SubsequenceSkip(rest, xs[0], xs[1..]);
      } else {
        assert r == [xs[0]] + rest;
        assert r[0] == xs[0] && r[1..] == rest;
      }
    }
  }

  /** Deleting twice is deleting once. */
  lemma {:induction false} RemoveWhereIdempotent<T>(xs: seq<T>, id: string, idOf: T -> string)
    ensures RemoveWhere(RemoveWhere(xs, id, idOf), id, idOf) == RemoveWhere(xs, id, idOf)
  {
    if xs != [] {
      RemoveWhereIdempotent(xs[1..], id, idOf);
      var r := RemoveWhere(xs, id, idOf);
      if idOf(xs[0]) != id {
        assert r[0] == xs[0] && r[1..] == RemoveWhere(xs[1..], id, idOf);
      } else {
        assert r == RemoveWhere(xs[1..], id, idOf);
      }
    }
  }

  /** Deleting an id after updating it, with an update that keeps ids,
      leaves what deleting alone leaves. */
  lemma {:induction false} RemoveAfterUpdate<T>(xs: seq<T>, id: string, idOf: T -> string, f: T -> T)
    requires forall x :: idOf(f(x)) == idOf(x)
    ensures RemoveWhere(UpdateWhere(xs, id, idOf, f), id, idOf) == RemoveWhere(xs, id, idOf)
  {
    if xs != [] {
      RemoveAfterUpdate(xs[1..], id, idOf, f);
      var u := UpdateWhere(xs, id, idOf, f);
      assert u[0] == (if idOf(xs[0]) == id then f(xs[0]) else xs[0]) && u[1..] == UpdateWhere(xs[1..], id, idOf, f);
    }
  }
}
