/** `context.go`: the per-update execution context and the pool it is reused from. */
module Contexts {
  import opened Wrappers
  import opened Types

  /** Keys and values of the context store (`any` in Go). */
  datatype Key = Key(name: string)
  datatype Value = Value(data: string)

  /** The wrapped `context.Context`, reduced to its value lookup. */
  datatype Parent = Parent(values: map<Key, Value>)
  {
    /** `context.Context.Value`: nil (`None`) for a key it does not hold. */
    function Lookup(k: Key): (r: Option<Value>)
      ensures r.Some? <==> k in values
      ensures r.Some? ==> r.value == values[k]
    {
      if k in values then Some(values[k]) else None
    }
  }

  /** `Context`: nil references are `None` or `null`. The client is kept as an untyped reference. */
  class Context {
    var context: Option<Parent>
    var client: object?
    var update: Option<Update>
    var values: map<Key, Value>

    /** The pool's `New`: nothing referenced and an empty, non-nil store. */
    constructor ()
      ensures Cleared()
    {
      context := None;
      client := null;
      update := None;
      values := map[];
    }

    /** A context that holds nothing: what release leaves and what the pool hands out before acquire fills it. */
    predicate Cleared()
      reads this
    {
      context.None? && client == null && update.None? && values == map[]
    }

    /** `SetValue`: stores v under k, leaving every other key and the references as they were. */
    method SetValue(k: Key, v: Value)
      modifies this
      ensures values == old(values)[k := v]
      ensures forall k' :: k' != k ==> (k' in values <==> k' in old(values))
      ensures forall k' :: k' != k && k' in values ==> values[k'] == old(values)[k']
      ensures context == old(context) && client == old(client) && update == old(update)
      ensures k in values && Value(k) == Some(v)
      ensures forall k' :: k' != k && (k' in values || context.Some?) ==> Value(k') == old(Value(k'))
    {
      values := values[k := v];
    }

    /**
     * `Value`: the local store first, then the wrapped context. With no
     * local value and a nil wrapped context (a released context) Go panics,
     * so that case is excluded.
     */
    function Value(k: Key): (r: Option<Value>)
      reads this
      requires k in values || context.Some?
      ensures k in values ==> r == Some(values[k])
      ensures k !in values ==> r == context.value.Lookup(k)
    {
      if k in values then Some(values[k]) else context.value.Lookup(k)
    }

    /** `Client`: the client set by acquire. */
    function Client(): (c: object?)
      reads this
      ensures c == client
    {
      client
    }

    /** `Update`: the update set by acquire. */
    function Update(): (u: Option<Update>)
      reads this
      ensures u == update
    {
      update
    }
  }

  /** `contextPool`: the contexts that are free, the most recently released last. */
  class Pool {
    var free: seq<Context>

    constructor ()
      ensures free == []
    {
      free := [];
    }

    /** Every free context is cleared, and none is in the pool twice. */
    ghost predicate Valid()
      reads this, free
    {
      (forall i :: 0 <= i < |free| ==> free[i].Cleared())
      && (forall i, j :: 0 <= i < j < |free| ==> free[i] != free[j])
    }

    /**
     * `acquireContext`: takes a free context, or a new one when none is
     * free, and sets its three references. The store is empty: nothing of a
     * previous use leaks.
     */
    method Acquire(ctx: Parent, client: object, update: Option<Update>) returns (c: Context)
      requires Valid()
      modifies this, free
      ensures Valid()
      ensures c.context == Some(ctx) && c.client == client && c.update == update && c.values == map[]
      ensures old(free) == [] ==> fresh(c) && free == []
      ensures old(free) != [] ==> c == old(free)[|old(free)| - 1] && free == old(free)[..|old(free)| - 1]
    {
      if free == [] {
        c := new Context();
      } else {
        c := free[|free| - 1];
        free := free[..|free| - 1];
        assert forall i :: 0 <= i < |free| ==> free[i] == old(free)[i];
      }
      c.context := Some(ctx);
      c.client := client;
      c.update := update;
      assert forall i :: 0 <= i < |free| ==> free[i] != c by {
        if old(free) != [] {
          assert c == old(free)[|old(free)| - 1];
        }
      }
    }

    /**
     * `releaseContext`: drops the three references, empties the store and
     * returns the context to the pool. A context is released once per
     * acquire: holding on to one after its release is not allowed.
     */
    method Release(c: Context)
      requires Valid() && c !in free
      modifies this, c
      ensures Valid()
      ensures c.Cleared()
      ensures free == old(free) + [c]
    {
      c.context := None;
      c.client := null;
      c.update := None;
      c.values := map[];
      free := free + [c];
    }
  }
}
