/** Routing keys: what a task is dispatched by. Two keys are the same lane exactly when kind and id agree. */
module RoutingKeys {

  datatype KeyKind = Account | AccountGroup | EngineWide | ExclusiveBarrier

  datatype Key = Key(kind: KeyKind, id: nat)

  /** Barrier tasks of an exclusive section carry this kind; no producer routes by it. */
  predicate IsBarrierKey(key: Key) {
    key.kind.ExclusiveBarrier?
  }
}
