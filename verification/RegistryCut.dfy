/**
 The second synchronisation of the proxy registry within a run of the protocol: what it leaves is
 what the broker needs.
 */
module RegistryCut {
  import opened Common
  import opened Errors
  import opened Names
  import opened Registry
  import opened Scaling
  import opened SlotSafety

  /** A registry cut down to the spec of the pass holds only addresses of wanted pods, no more than
      the target has room for, and the target is two nodes for each address of the spec. */
  lemma CutKeepsWantedPods(s: State, run: seq<Action>, registry: set<string>)
    requires Initial(s) && Exec(s, run).pc == SyncRegistry(true)
    requires var cr := Exec(s, run).l.cr; forall a :: a in registry ==> InSpec(cr.spec.id, cr.chunk, a)
    ensures var t := Exec(s, run); forall a :: a in registry ==> exists i: nat :: i < t.w.Replicas() && a == StorageAddress(t.l.cr.spec.id, i)
    ensures var t := Exec(s, run); 2 * |registry| <= t.w.Target() == 4 * t.l.cr.chunk
  {
    var t := Exec(s, run);
    RegistryCutFitsTarget(s, run);
    InSpecIsWanted(registry, t.l.cr.spec.id, t.l.cr.chunk, t.w.Replicas());
  }

  lemma InSpecIsWanted(registry: set<string>, cr: Identity, chunk: Chunk, replicas: nat)
    requires Shards(chunk) <= replicas && forall a :: a in registry ==> InSpec(cr, chunk, a)
    ensures |registry| <= Shards(chunk)
    ensures forall a :: a in registry ==> exists i: nat :: i < replicas && a == StorageAddress(cr, i)
  {
    forall a | a in registry ensures exists i: nat :: i < Shards(chunk) && a == StorageAddress(cr, i) {
      var i: nat :| i < chunk * CHUNK_SHARD_NUMBER && a == StorageAddress(cr, i);
      assert i < Shards(chunk);
    }
    SpecIsSmall(registry, cr, Shards(chunk));
  }

  /** The second synchronisation of a pass, at its place in the run: it adds nothing and keeps every
      entry of the spec, whatever fails; if nothing fails, only addresses of wanted pods are left,
      and the target has two nodes for each. */
  method SynchroniseAgain(broker: Broker, cr: Undermoon, ghost s: State, ghost run: seq<Action>) returns (err: Err)
    requires Initial(s) && Exec(s, run).pc == SyncRegistry(true) && Exec(s, run).l.cr == cr
    modifies broker
    ensures broker.registry <= old(broker.registry)
    ensures forall a :: a in old(broker.registry) && InSpec(cr.spec.id, cr.chunk, a) ==> a in broker.registry
    ensures err == Nil && broker.failures == old(broker.failures) ==>
      var w := Exec(s, run).w;
      && (forall a :: a in broker.registry ==> exists i: nat :: i < w.Replicas() && a == StorageAddress(cr.spec.id, i))
      && 2 * |broker.registry| <= w.Target() == 4 * cr.chunk
  {
    err := ReconcileServerProxyRegistry(broker, [], cr.spec.id, cr.chunk);
    if err == Nil && broker.failures == old(broker.failures) {
      CutKeepsWantedPods(s, run, broker.registry);
    }
  }
}
