/**
 * The two id-keyed list rewrites every store uses on success:
 * `items.map(item => item.id === x.id ? x : item)` and
 * `items.filter(item => item.id !== id)`.  `idOf` reads a record's `id`.
 */
module ItemList {

  /** Every item whose id is `idOf(x)` is replaced by `x`; the others stay where they are. */
  function ReplaceById<T>(items: seq<T>, idOf: T -> int, x: T): (r: seq<T>)
    ensures |r| == |items|
    ensures forall i :: 0 <= i < |items| && idOf(items[i]) == idOf(x) ==> r[i] == x
    ensures forall i :: 0 <= i < |items| && idOf(items[i]) != idOf(x) ==> r[i] == items[i]
  {
    if items == [] then []
    else [if idOf(items[0]) == idOf(x) then x else items[0]] + ReplaceById(items[1..], idOf, x)
  }

  predicate HasId<T>(items: seq<T>, idOf: T -> int, id: int) {
    exists i :: 0 <= i < |items| && idOf(items[i]) == id
  }

  /** The id of every position is kept, so an update never changes which ids are present. */
  lemma ReplaceKeepsIds<T>(items: seq<T>, idOf: T -> int, x: T)
    ensures forall i :: 0 <= i < |items| ==> idOf(ReplaceById(items, idOf, x)[i]) == idOf(items[i])
  {
  }

  /** When no item carries the id, an update is a no-op. */
  lemma ReplaceAbsentIsIdentity<T>(items: seq<T>, idOf: T -> int, x: T)
    requires !HasId(items, idOf, idOf(x))
    ensures ReplaceById(items, idOf, x) == items
  {
    var r := ReplaceById(items, idOf, x);
    assert forall i :: 0 <= i < |items| ==> r[i] == items[i];
  }

  /** Replacing twice with the same record is the same as replacing once. */
  lemma ReplaceIdempotent<T>(items: seq<T>, idOf: T -> int, x: T)
    ensures ReplaceById(ReplaceById(items, idOf, x), idOf, x) == ReplaceById(items, idOf, x)
  {
    var r := ReplaceById(items, idOf, x);
    var rr := ReplaceById(r, idOf, x);
    assert forall i :: 0 <= i < |r| ==> rr[i] == r[i];
  }

  /** The items whose id differs from `id`, in their original order. */
  function RemoveById<T>(items: seq<T>, idOf: T -> int, id: int): (r: seq<T>)
    ensures |r| <= |items|
    ensures forall i :: 0 <= i < |r| ==> idOf(r[i]) != id
  {
    if items == [] then []
    else
      var rest := RemoveById(items[1..], idOf, id);
      if idOf(items[0]) == id then rest else [items[0]] + rest
  }

  /** Removal works piece by piece, which is what keeping the survivors in order means. */
  lemma {:induction false} RemoveDistributes<T>(a: seq<T>, b: seq<T>, idOf: T -> int, id: int)
    ensures RemoveById(a + b, idOf, id) == RemoveById(a, idOf, id) + RemoveById(b, idOf, id)
  {
    if a == [] {
      assert a + b == b;
    } else {
      assert (a + b)[0] == a[0] && (a + b)[1..] == a[1..] + b;
      RemoveDistributes(a[1..], b, idOf, id);
    }
  }

  /** When no item carries the id, a delete is a no-op. */
  lemma {:induction false} RemoveAbsentIsIdentity<T>(items: seq<T>, idOf: T -> int, id: int)
    requires !HasId(items, idOf, id)
    ensures RemoveById(items, idOf, id) == items
  {
    if items != [] {
      assert !HasId(items[1..], idOf, id) by {
        forall i | 0 <= i < |items[1..]|
          ensures idOf(items[1..][i]) != id
        {
          assert items[1..][i] == items[i + 1];
        }
      }
      RemoveAbsentIsIdentity(items[1..], idOf, id);
    }
  }

  /** After a delete the id is gone, and an item survives exactly when its id differs. */
  lemma {:induction false} RemoveRemovesExactly<T>(items: seq<T>, idOf: T -> int, id: int)
    ensures !HasId(RemoveById(items, idOf, id), idOf, id)
    ensures forall y :: y in items && idOf(y) != id ==> y in RemoveById(items, idOf, id)
    ensures forall y :: y in RemoveById(items, idOf, id) ==> y in items && idOf(y) != id
  {
    if items != [] {
      RemoveRemovesExactly(items[1..], idOf, id);
      assert items == [items[0]] + items[1..];
    }
  }

  /** Deleting the same id twice is the same as deleting it once. */
  lemma RemoveIdempotent<T>(items: seq<T>, idOf: T -> int, id: int)
    ensures RemoveById(RemoveById(items, idOf, id), idOf, id) == RemoveById(items, idOf, id)
  {
    RemoveAbsentIsIdentity(RemoveById(items, idOf, id), idOf, id);
  }

  /** An update followed by a delete of the same id is just the delete. */
  lemma {:induction false} RemoveAfterReplace<T>(items: seq<T>, idOf: T -> int, x: T)
    ensures RemoveById(ReplaceById(items, idOf, x), idOf, idOf(x)) == RemoveById(items, idOf, idOf(x))
  {
    if items != [] {
      var r := ReplaceById(items, idOf, x);
      assert r[1..] == ReplaceById(items[1..], idOf, x);
      RemoveAfterReplace(items[1..], idOf, x);
    }
  }
}
