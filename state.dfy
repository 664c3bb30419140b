/** The shard-ownership state of configurations/state.go: the list of shard
    IDs this node serves, and its two accessors. A Go slice is a value here:
    `None` is the nil slice, `Some(ids)` a non-nil one (possibly empty). */
module ShardState {
  import opened Wrappers
  import opened Configurations

  /** A `[]uint16`, nil or not. */
  type Slice = Option<seq<uint16>>

  /** The elements of a slice; nil has none. */
  function Elements(s: Slice): seq<uint16> {
    if s.None? then [] else s.value
  }

  /** `State`. */
  datatype State = State(shardIDs: Slice)

  /** `NewState`: the state holds the given slice itself, nil included, in
      the given order. */
  function NewState(shardIDs: Slice): (st: State)
    ensures st.shardIDs == shardIDs
  {
    State(shardIDs)
  }

  /** `GetShardIDs`: nil on a nil state; otherwise a new non-nil slice with
      the stored elements in order (empty when the stored slice is nil or
      empty). */
  function GetShardIDs(st: Option<State>): (r: Slice)
    ensures st.None? <==> r.None?
    ensures st.Some? ==> |r.value| == |Elements(st.value.shardIDs)|
    ensures st.Some? ==> forall i :: 0 <= i < |r.value| ==> r.value[i] == Elements(st.value.shardIDs)[i]
  {
    match st
    case None => None
    case Some(s) => Some(Elements(s.shardIDs))
  }

  /** `GetShardIDsUnsafe`: nil on a nil state; otherwise the stored slice
      itself. */
  function GetShardIDsUnsafe(st: Option<State>): (r: Slice)
    ensures st.None? ==> r.None?
    ensures st.Some? ==> r == st.value.shardIDs
  {
    match st
    case None => None
    case Some(s) => s.shardIDs
  }

  /** The two accessors see the same IDs; they differ only on a non-nil
      state holding a nil slice, where the copy is empty but not nil. */
  lemma AccessorsAgree(st: Option<State>)
    ensures Elements(GetShardIDs(st)) == Elements(GetShardIDsUnsafe(st))
    ensures GetShardIDs(st) != GetShardIDsUnsafe(st) <==> st.Some? && st.value.shardIDs.None?
  {
  }

  /** Constructing a state and reading it back returns the IDs given, in
      order. */
  lemma NewStateRoundTrip(ids: seq<uint16>)
    ensures GetShardIDs(Some(NewState(Some(ids)))) == Some(ids)
    ensures GetShardIDsUnsafe(Some(NewState(Some(ids)))) == Some(ids)
  {
  }

  /** A state with an empty slice gives an empty, non-nil result from both
      accessors. */
  lemma EmptyStateAccessors(st: State)
    requires st == NewState(Some([]))
    ensures GetShardIDs(Some(st)) == Some([]) && GetShardIDsUnsafe(Some(st)) == Some([])
  {
  }
}
