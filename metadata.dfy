/**
 * The per-connection metadata store (the ctx map of both connection kinds).
 * After close the map is nil: lookups find nothing and deletes do nothing.
 */
module Metadata {
  import opened Wrappers

  /** ctx: a map while the connection is open, None (nil) after close. */
  type Ctx<V> = Option<map<string, V>>

  /** Get: the stored value, or nil for a missing key or a released store. */
  function Lookup<V>(ctx: Ctx<V>, key: string): Option<V>
  {
    if ctx.Some? && key in ctx.value then Some(ctx.value[key]) else None
  }

  /** Set; in Go, assigning into the nil map of a closed connection panics. */
  function Stored<V>(ctx: Ctx<V>, key: string, value: V): Ctx<V>
    requires ctx.Some?
  {
    Some(ctx.value[key := value])
  }

  /** Del: delete on a nil map is a no-op. */
  function Removed<V>(ctx: Ctx<V>, key: string): Ctx<V>
  {
    if ctx.Some? then Some(ctx.value - {key}) else None
  }

  lemma LookupAfterStore<V>(ctx: Ctx<V>, key: string, value: V, other: string)
    requires ctx.Some?
    ensures Lookup(Stored(ctx, key, value), key) == Some(value)
    ensures other != key ==> Lookup(Stored(ctx, key, value), other) == Lookup(ctx, other)
  {
  }

  lemma LookupAfterRemove<V>(ctx: Ctx<V>, key: string, other: string)
    ensures Lookup(Removed(ctx, key), key) == None
    ensures other != key ==> Lookup(Removed(ctx, key), other) == Lookup(ctx, other)
  {
  }

  lemma ReleasedStoreIsEmpty<V>(key: string)
    ensures Lookup<V>(None, key) == None
    ensures Removed<V>(None, key) == None
  {
  }
}
