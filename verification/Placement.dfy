/**
 The scheduler plugin: storage pods of one shard pair never share a node.

 The filter and the binding that follows it are one step here, although the plugin has no lock.
 */
module Placement {
  import opened Common
  import opened Text
  import opened Names

  datatype Pod = Pod(namespace: string, name: string, labels: map<string, string>)

  const SERVICE_LABEL := "undermoonService"
  const NAME_LABEL := "undermoonName"
  const STORAGE := "storage"

  datatype Status = Success | InvalidName | NoUndermoonName | Unschedulable

  predicate IsStorage(pod: Pod)
  {
    SERVICE_LABEL in pod.labels && pod.labels[SERVICE_LABEL] == STORAGE
  }

  /** Integer division as in Go, towards zero. */
  function Half(i: int): int { if i >= 0 then i / 2 else -((-i) / 2) }

  /** The check of one pod that is already on the node. */
  predicate Blocks(pod: Pod, undermoonName: string, podIndex: int, existing: Pod)
  {
    && pod.namespace == existing.namespace
    && NAME_LABEL in existing.labels && existing.labels[NAME_LABEL] == undermoonName
    && IsStorage(existing)
    && GetPodIndex(existing.name).Some?
    && Half(podIndex) == Half(GetPodIndex(existing.name).value)
  }

  function ScanNode(pod: Pod, undermoonName: string, podIndex: int, pods: seq<Pod>): Status
  {
    if pods == [] then Success
    else if Blocks(pod, undermoonName, podIndex, pods[0]) then Unschedulable
    else ScanNode(pod, undermoonName, podIndex, pods[1..])
  }

  /** May the pod go to a node with these pods? */
  function Filter(pod: Pod, pods: seq<Pod>): Status
  {
    if !IsStorage(pod) then Success
    else
      var podIndex := GetPodIndex(pod.name);
      if podIndex.None? then InvalidName
      else if NAME_LABEL !in pod.labels then NoUndermoonName
      else ScanNode(pod, pod.labels[NAME_LABEL], podIndex.value, pods)
  }

  ghost predicate StoragePod(pod: Pod)
  {
    "undermoonService" in pod.labels && pod.labels["undermoonService"] == "storage"
  }

  /** A storage pod as the plugin identifies it. */
  ghost predicate Identified(pod: Pod)
  {
    StoragePod(pod) && "undermoonName" in pod.labels && GetPodIndex(pod.name).Some?
  }

  /** Two storage pods of the same namespace and cluster whose ordinals have the same half. */
  ghost predicate SameShard(p: Pod, q: Pod)
  {
    && Identified(p) && Identified(q)
    && p.namespace == q.namespace && p.labels["undermoonName"] == q.labels["undermoonName"]
    && GetPodIndex(p.name).value / 2 == GetPodIndex(q.name).value / 2
  }

  /** Ordinals are never negative: the text behind the last dash has none. */
  lemma OrdinalIsNat(name: string)
    ensures GetPodIndex(name).Some? ==> GetPodIndex(name).value >= 0
  {
    if GetPodIndex(name).Some? {
      AfterLastDashExactly(name, AfterLastDash(name));
      GetPodIndexExactly(name, AfterLastDash(name), GetPodIndex(name).value);
    }
  }

  lemma {:induction false} ScanIsExact(pod: Pod, undermoonName: string, podIndex: int, pods: seq<Pod>)
    ensures ScanNode(pod, undermoonName, podIndex, pods) ==
            if exists i :: 0 <= i < |pods| && Blocks(pod, undermoonName, podIndex, pods[i]) then Unschedulable else Success
  {
    if pods != [] {
      ScanIsExact(pod, undermoonName, podIndex, pods[1..]);
      assert forall i :: 0 < i < |pods| ==> pods[i] == pods[1..][i - 1];
    }
  }

  lemma BlocksExactly(pod: Pod, existing: Pod)
    requires Identified(pod)
    ensures SameShard(pod, existing) <==> Blocks(pod, pod.labels[NAME_LABEL], GetPodIndex(pod.name).value, existing)
  {
    OrdinalIsNat(pod.name);
    OrdinalIsNat(existing.name);
  }

  /** The filter refuses exactly the nodes with a pod of the same shard, and lets no storage pod
      pass that it cannot identify. */
  lemma FilterIsExact(pod: Pod, pods: seq<Pod>)
    ensures Filter(pod, pods) == Unschedulable <==> exists i :: 0 <= i < |pods| && SameShard(pod, pods[i])
    ensures Filter(pod, pods) == Success <==> (StoragePod(pod) ==> Identified(pod)) && forall i :: 0 <= i < |pods| ==> !SameShard(pod, pods[i])
    ensures Filter(pod, pods) == InvalidName <==> StoragePod(pod) && GetPodIndex(pod.name).None?
    ensures Filter(pod, pods) == NoUndermoonName <==> StoragePod(pod) && GetPodIndex(pod.name).Some? && "undermoonName" !in pod.labels
  {
    if Identified(pod) {
      var name, index := pod.labels[NAME_LABEL], GetPodIndex(pod.name).value;
      ScanIsExact(pod, name, index, pods);
      forall i | 0 <= i < |pods| ensures SameShard(pod, pods[i]) <==> Blocks(pod, name, index, pods[i]) {
        BlocksExactly(pod, pods[i]);
      }
    }
  }

  // ---------- Runs ----------

  /** The pods of every node. */
  type Nodes = map<string, seq<Pod>>

  datatype Action =
    | Place(pod: Pod, node: string)
    | Remove(node: string, position: nat)

  function PodsOn(nodes: Nodes, node: string): seq<Pod>
  {
    if node in nodes then nodes[node] else []
  }

  /** A pod is bound only if the filter allows it; any pod may go away. */
  function Step(nodes: Nodes, a: Action): Nodes
  {
    match a
    case Place(pod, node) =>
      if Filter(pod, PodsOn(nodes, node)) == Success then nodes[node := PodsOn(nodes, node) + [pod]] else nodes
    case Remove(node, i) =>
      var pods := PodsOn(nodes, node);
      if i < |pods| then nodes[node := pods[..i] + pods[i + 1..]] else nodes
  }

  function Exec(nodes: Nodes, run: seq<Action>): Nodes
    decreases |run|
  {
    if run == [] then nodes else Step(Exec(nodes, run[..|run| - 1]), run[|run| - 1])
  }

  ghost predicate Apart(pods: seq<Pod>)
  {
    && (forall i :: 0 <= i < |pods| && StoragePod(pods[i]) ==> Identified(pods[i]))
    && (forall i, j :: 0 <= i < j < |pods| ==> !SameShard(pods[i], pods[j]))
  }

  ghost predicate AllApart(nodes: Nodes)
  {
    forall node :: node in nodes ==> Apart(nodes[node])
  }

  lemma RemovalKeepsApart(pods: seq<Pod>, k: nat)
    requires Apart(pods) && k < |pods|
    ensures Apart(pods[..k] + pods[k + 1..])
  {
    var rest := pods[..k] + pods[k + 1..];
    assert forall i :: 0 <= i < |rest| ==> rest[i] == pods[if i < k then i else i + 1];
  }

  lemma PlacementKeepsApart(pods: seq<Pod>, pod: Pod)
    requires Apart(pods) && Filter(pod, pods) == Success
    ensures Apart(pods + [pod])
  {
    FilterIsExact(pod, pods);
    assert forall i :: 0 <= i < |pods| ==> (SameShard(pods[i], pod) <==> SameShard(pod, pods[i]));
  }

  lemma StepKeepsApart(nodes: Nodes, a: Action)
    requires AllApart(nodes)
    ensures AllApart(Step(nodes, a))
  {
    match a
    case Place(pod, node) =>
      if Filter(pod, PodsOn(nodes, node)) == Success { PlacementKeepsApart(PodsOn(nodes, node), pod); }
    case Remove(node, i) =>
      if i < |PodsOn(nodes, node)| { RemovalKeepsApart(PodsOn(nodes, node), i); }
  }

  /** From an empty cluster, through any placements and removals, no node ever has two storage
      pods of the same shard, nor one the plugin cannot identify. */
  lemma {:induction false} NeverTogether(run: seq<Action>)
    ensures AllApart(Exec(map[], run))
    decreases |run|
  {
    if run != [] {
      NeverTogether(run[..|run| - 1]);
      StepKeepsApart(Exec(map[], run[..|run| - 1]), run[|run| - 1]);
    }
  }

  /** A pod as the storage StatefulSet names and labels it. */
  ghost predicate StoragePodOf(pod: Pod, namespace: string, undermoonName: string, index: nat)
  {
    && pod.namespace == namespace && pod.name == StorageStatefulSetPodName(undermoonName, index)
    && StoragePod(pod) && "undermoonName" in pod.labels && pod.labels["undermoonName"] == undermoonName
  }

  lemma ChunkPodsShareAShard(p: Pod, q: Pod, namespace: string, undermoonName: string, chunk: nat)
    requires 2 * chunk + 1 <= MAX_INT
    requires StoragePodOf(p, namespace, undermoonName, 2 * chunk) && StoragePodOf(q, namespace, undermoonName, 2 * chunk + 1)
    ensures SameShard(p, q) && SameShard(q, p) && p != q
  {
    PodIndexRoundTrip(undermoonName, 2 * chunk);
    PodIndexRoundTrip(undermoonName, 2 * chunk + 1);
    assert GetPodIndex(p.name) == Some(2 * chunk) && GetPodIndex(q.name) == Some(2 * chunk + 1);
    assert 2 * chunk / 2 == chunk == (2 * chunk + 1) / 2;
  }

  /** The two pods of a chunk, 2c and 2c + 1, are never on one node. */
  lemma ChunkIsSpread(run: seq<Action>, node: string, namespace: string, undermoonName: string, chunk: nat, p: Pod, q: Pod)
    requires 2 * chunk + 1 <= MAX_INT
    requires StoragePodOf(p, namespace, undermoonName, 2 * chunk) && StoragePodOf(q, namespace, undermoonName, 2 * chunk + 1)
    ensures !(p in PodsOn(Exec(map[], run), node) && q in PodsOn(Exec(map[], run), node))
  {
    var pods := PodsOn(Exec(map[], run), node);
    NeverTogether(run);
    ChunkPodsShareAShard(p, q, namespace, undermoonName, chunk);
    NotBoth(pods, p, q);
  }

  lemma NotBoth(pods: seq<Pod>, p: Pod, q: Pod)
    requires Apart(pods) && SameShard(p, q) && SameShard(q, p) && p != q
    ensures !(p in pods && q in pods)
  {
    forall i, j | 0 <= i < |pods| && 0 <= j < |pods| && pods[i] == p ensures pods[j] != q {
      assert i < j ==> !SameShard(pods[i], pods[j]);
      assert j < i ==> !SameShard(pods[j], pods[i]);
    }
  }
}
