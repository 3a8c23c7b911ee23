/**
 * The in-memory conversation store (backend/app/storage/memory.py): one module-level
 * dictionary from conversation id to saved state. States are stored by value.
 */
module Memory {
  import opened Wrappers
  import opened Conversation

  /** The list without any occurrence of x, in the same order. */
  function Without(xs: seq<string>, x: string): (r: seq<string>)
    ensures forall y :: y in r <==> y in xs && y != x
    ensures |r| <= |xs|
    decreases |xs|
  {
    if xs == [] then []
    else if xs[0] == x then Without(xs[1..], x)
    else [xs[0]] + Without(xs[1..], x)
  }

  /** No id appears twice. */
  predicate Distinct(xs: seq<string>) {
    forall i, j :: 0 <= i < j < |xs| ==> xs[i] != xs[j]
  }

  lemma {:induction false} WithoutKeepsDistinct(xs: seq<string>, x: string)
    requires Distinct(xs)
    ensures Distinct(Without(xs, x))
    decreases |xs|
  {
    if xs != [] {
      WithoutKeepsDistinct(xs[1..], x);
      if xs[0] != x {
        var r := Without(xs[1..], x);
        assert xs[0] !in xs[1..];
        assert xs[0] !in r;
        assert forall j :: 0 <= j < |r| ==> ([xs[0]] + r)[j + 1] == r[j];
      }
    }
  }

  /** `_STORE`. `order` is the dictionary's key order: insertion order, as Python keeps it. */
  class Store {
    var entries: map<string, State>
    var order: seq<string>

    /** The key order lists every stored id exactly once. */
    ghost predicate Valid()
      reads this
    {
      Distinct(order) && forall id :: id in entries <==> id in order
    }

    constructor ()
      ensures Valid() && entries == map[] && order == []
    {
      entries := map[];
      order := [];
    }

    /** `load_state(conversation_id)`: `_STORE.get(conversation_id)`. */
    function Load(id: string): (r: Option<State>)
      reads this
      ensures r.Some? <==> id in entries
      ensures r.Some? ==> r.value == entries[id]
    {
      if id in entries then Some(entries[id]) else None
    }

    /** `save_state(conversation_id, state)`: a new id goes to the end of the key order. */
    method Save(id: string, s: State)
      requires Valid()
      modifies this
      ensures Valid()
      ensures entries == old(entries)[id := s]
      ensures order == if id in old(entries) then old(order) else old(order) + [id]
      ensures Load(id) == Some(s)
      ensures forall other :: other != id ==> Load(other) == old(Load(other))
    {
      if id !in entries {
        order := order + [id];
      }
      entries := entries[id := s];
    }

    /** `clear_state(conversation_id)`: removes the id when present, does nothing otherwise. */
    method Clear(id: string)
      requires Valid()
      modifies this
      ensures Valid()
      ensures entries == old(entries) - {id}
      ensures order == Without(old(order), id)
      ensures Load(id) == None
      ensures forall other :: other != id ==> Load(other) == old(Load(other))
    {
      WithoutKeepsDistinct(order, id);
      if id in entries {
        entries := entries - {id};
        order := Without(order, id);
      } else {
        assert id !in order;
        WithoutAbsent(order, id);
      }
    }

    /** `get_all_conversations()`: the stored ids, each once, in key order. */
    method GetAllConversations() returns (ids: seq<string>)
      requires Valid()
      ensures ids == order
      ensures Distinct(ids) && forall id :: id in ids <==> id in entries
    {
      ids := order;
    }
  }

  /** Removing an id that is not there leaves the list as it was. */
  lemma {:induction false} WithoutAbsent(xs: seq<string>, x: string)
    requires x !in xs
    ensures Without(xs, x) == xs
    decreases |xs|
  {
    if xs != [] {
      WithoutAbsent(xs[1..], x);
      assert [xs[0]] + xs[1..] == xs;
    }
  }
}
