/**
 The reconcile and scaling protocol as a state machine.

 One pass of Reconcile is a long sequence of API calls. `Pc` names the next call,
 `Local` holds what the pass has read so far, and `World` is everything outside the
 operator process: the stored custom resource, the storage StatefulSet with its pods
 and endpoints, the broker's view of the cluster and the clock. Between any two calls
 the environment may act, any call may fail, with or without having taken effect, and
 the operator may be restarted. `Step` is total, so every sequence of actions is a run.
 */
module Scaling {
  import opened Common
  import opened Templates

  // The clock counts milliseconds.
  const SECOND := 1000
  const SCALE_DOWN_WAIT_TIME := 30 * SECOND

  // Below this bound the int32 arithmetic of the source is exact (module Int32).
  const CHUNK_LIMIT := 0x4000_0000

  type Chunk = c: nat | 1 <= c < CHUNK_LIMIT witness 1

  // ---------- The world outside the operator ----------

  datatype ScaleState = Unset | Stable | ScaleDownWait

  datatype ScaleStatus = ScaleStatus(state: ScaleState, since: nat)

  /** The custom resource: `version` is its ResourceVersion, `master` the broker its status shows. */
  datatype Undermoon = Undermoon(chunk: Chunk, spec: Spec, master: string, status: ScaleStatus, version: nat)

  /** What the StatefulSet controller reports: pods that exist, and pods that are wanted and exist. */
  datatype SetStatus = SetStatus(replicas: nat, current: nat)

  /** The storage StatefulSet: its size, its pod template and every status reported since the
      operator last wrote it, newest last. A position in `reports` plays the part of the ResourceVersion. */
  datatype StatefulSet = StatefulSet(replicas: nat, template: Template, reports: seq<SetStatus>)

  /** The broker's view: the node number last asked for, the nodes that hold slots, all nodes. */
  datatype Cluster = Cluster(target: nat, withSlots: nat, nodes: nat)

  /** The StatefulSet of broker or coordinator: its template, the numbers of ready pods reported
      since the operator last wrote it, and the number of endpoints of its service. */
  datatype Component = Component(template: Template, reports: seq<nat>, endpoints: nat)

  datatype World = World(
    cr: Undermoon,
    storage: Option<StatefulSet>,
    pods: set<nat>,
    endpoints: set<nat>,
    cluster: Option<Cluster>,
    broker: Option<Component>,
    coordinator: Option<Component>,
    elected: string,
    rules: Rules,
    clock: nat)
  {
    function Replicas(): nat { if storage.Some? then storage.value.replicas else 0 }

    function Target(): nat { if cluster.Some? then cluster.value.target else 0 }

    function WithSlots(): nat { if cluster.Some? then cluster.value.withSlots else 0 }

    function NodeNumber(): nat { if cluster.Some? then cluster.value.nodes else 0 }

    function Status(): ScaleStatus { cr.status }

    predicate WellFormed()
    {
      && (storage.Some? ==> |storage.value.reports| > 0)
      && (broker.Some? ==> |broker.value.reports| > 0)
      && (coordinator.Some? ==> |coordinator.value.reports| > 0)
    }
  }

  // ---------- One pass of Reconcile ----------

  datatype SetCopy = SetCopy(replicas: nat, template: Template, status: SetStatus, revision: nat)

  datatype ComponentCopy = ComponentCopy(template: Template, ready: nat, revision: nat)

  datatype ClusterInfo = ClusterInfo(withSlots: nat, migrating: bool)

  datatype Local = Local(cr: Undermoon, broker: ComponentCopy, coordinator: ComponentCopy, storage: SetCopy, allReady: bool, info: ClusterInfo)

  /** The next call of the pass. `again` marks the second reconcileMeta of a pass. */
  datatype Pc =
    | Idle(done: bool)
    | CreateMeta
    | LoadBroker
    | LoadCoordinator
    | LoadStorage
    | ScaleUp
    | CheckBroker
    | CheckCoordinator
    | PatchMaster
    | ConfigCoordinators
    | CountEndpoints
    | SyncRegistry(again: bool)
    | FindCluster(again: bool)
    | CreateCluster(again: bool)
    | ConfigCluster(again: bool)
    | GetInfo(again: bool)
    | CheckStable
    | ScaleNodes
    | RemoveFreeNodes(retry: bool)
    | Decide
    | WriteWait
    | Shrink
    | WriteStable
    | RollBroker
    | RollCoordinator
    | RollStorage

  datatype State = State(w: World, l: Local, pc: Pc)

  /** How a call ends. `Lost` took effect although an error came back. */
  datatype Reply =
    | Ok
    | Fail
    | Lost
    | Fetched(copy: Undermoon)
    | Read(report: nat)
    | FreeNodeFound
    | Info(migrating: bool)

  datatype Action =
    | Call(reply: Reply)
    | Restart
    | UserEdit(chunk: Chunk, spec: Spec)
    | Migrate(withSlots: nat)
    | PodStart(pod: nat)
    | PodGone(pod: nat)
    | EndpointUp(pod: nat)
    | EndpointDown(pod: nat)
    | ReportStatus(current: nat)
    | Serve(part: Part, ready: nat, endpoints: nat)
    | Elect(master: string)
    | Tick(elapsed: nat)

  function Shards(c: Chunk): nat { c * CHUNK_SHARD_NUMBER }

  function Nodes(c: Chunk): nat { c * CHUNK_NODE_NUMBER }

  function Stop(s: State): State { s.(pc := Idle(false)) }

  // ---------- Calls on the API server ----------

  /** Update of the StatefulSet: accepted only if the copy is the newest version. */
  predicate Newest(s: State)
  {
    s.w.storage.Some? && s.l.storage.revision + 1 == |s.w.storage.value.reports|
  }

  function StoreReplicas(w: World, n: nat): World
    requires w.WellFormed() && w.storage.Some?
  {
    var reports := w.storage.value.reports;
    w.(storage := Some(StatefulSet(n, w.storage.value.template, [reports[|reports| - 1]])))
  }

  function WriteReplicas(s: State, reply: Reply, n: nat, next: Pc): State
    requires s.w.WellFormed()
  {
    if !Newest(s) then Stop(s)
    else
      var w := StoreReplicas(s.w, n);
      match reply
      case Ok => State(w, s.l.(storage := SetCopy(n, w.storage.value.template, w.storage.value.reports[0], 0)), next)
      case Lost => Stop(s.(w := w))
      case _ => Stop(s)
  }

  /** Status update with a ResourceVersion check; stored time stamps have whole seconds. */
  function StoreStatus(w: World, state: ScaleState): World
  {
    var since := if state == ScaleDownWait then w.clock - w.clock % SECOND else 0;
    w.(cr := w.cr.(status := ScaleStatus(state, since), version := w.cr.version + 1))
  }

  function WriteStatus(s: State, reply: Reply, state: ScaleState, next: Pc): State
  {
    if s.l.cr.version != s.w.cr.version then Stop(s)
    else
      var w := StoreStatus(s.w, state);
      match reply
      case Ok => State(w, s.l.(cr := w.cr), next)
      case Lost => Stop(s.(w := w))
      case _ => Stop(s)
  }

  // ---------- The steps of a pass ----------

  function StepFetch(s: State, reply: Reply): State
  {
    // The first read may come from a stale cache, but never from the future.
    if reply.Fetched? && reply.copy.version <= s.w.cr.version && (reply.copy.version == s.w.cr.version ==> reply.copy == s.w.cr)
    then State(s.w, s.l.(cr := reply.copy), CreateMeta)
    else Stop(s)
  }

  function Continue(s: State, reply: Reply, next: Pc): State
  {
    if reply.Ok? then s.(pc := next) else Stop(s)
  }

  /** Get or create: what the StatefulSet is then, and the pass's copy of it if the call went well. */
  function LoadComponent(c: Option<Component>, made: Template, reply: Reply): (Option<Component>, Option<ComponentCopy>)
  {
    match c
    case None =>
      (match reply
       case Ok => (Some(Component(made, [0], 0)), Some(ComponentCopy(made, 0, 0)))
       case Lost => (Some(Component(made, [0], 0)), None)
       case _ => (None, None))
    case Some(current) =>
      if reply.Read? && reply.report < |current.reports|
      then (c, Some(ComponentCopy(current.template, current.reports[reply.report], reply.report)))
      else (c, None)
  }

  function StepLoadBroker(s: State, reply: Reply): State
  {
    var (c, copy) := LoadComponent(s.w.broker, s.w.rules.create(BrokerPart, s.l.cr.spec), reply);
    var w := s.w.(broker := c);
    if copy.Some? then State(w, s.l.(broker := copy.value), LoadCoordinator) else Stop(s.(w := w))
  }

  function StepLoadCoordinator(s: State, reply: Reply): State
  {
    var (c, copy) := LoadComponent(s.w.coordinator, s.w.rules.create(CoordinatorPart, s.l.cr.spec), reply);
    var w := s.w.(coordinator := c);
    if copy.Some? then State(w, s.l.(coordinator := copy.value), LoadStorage) else Stop(s.(w := w))
  }

  function StepLoadStorage(s: State, reply: Reply): State
    requires s.w.WellFormed()
  {
    if s.w.storage.None? then
      var report := SetStatus(0, 0);
      var n := Shards(s.l.cr.chunk);
      var template := s.w.rules.create(StoragePart, s.l.cr.spec);
      var w := s.w.(storage := Some(StatefulSet(n, template, [report])));
      match reply
      case Ok => State(w, s.l.(storage := SetCopy(n, template, report, 0)), CheckBroker)
      case Lost => Stop(s.(w := w))
      case _ => Stop(s)
    else
      var current := s.w.storage.value;
      if reply.Read? && reply.report < |current.reports| then
        var copy := SetCopy(current.replicas, current.template, current.reports[reply.report], reply.report);
        State(s.w, s.l.(storage := copy), if Shards(s.l.cr.chunk) > current.replicas then ScaleUp else CheckBroker)
      else Stop(s)
  }

  function Endpoints(c: Option<Component>): nat { if c.Some? then c.value.endpoints else 0 }

  function StepCheckBroker(s: State, reply: Reply): State
  {
    if reply.Ok? && s.l.broker.ready >= BROKER_NUM - 1 && Endpoints(s.w.broker) >= BROKER_NUM - 1 then s.(pc := CheckCoordinator) else Stop(s)
  }

  function StepCheckCoordinator(s: State, reply: Reply): State
  {
    if reply.Ok? && s.l.coordinator.ready >= 1 && Endpoints(s.w.coordinator) >= 1 then s.(pc := PatchMaster) else Stop(s)
  }

  /** The status shows the broker that is now taken for the master; a patch that changes nothing
      leaves the version as it is. */
  function ShowMaster(w: World): World
  {
    if w.cr.master == w.elected then w else w.(cr := w.cr.(master := w.elected, version := w.cr.version + 1))
  }

  function StepPatchMaster(s: State, reply: Reply): State
  {
    var w := ShowMaster(s.w);
    match reply
    // The reply is decoded into the pass's own copy: spec, status and version are refreshed.
    case Ok => State(w, s.l.(cr := w.cr), ConfigCoordinators)
    case Lost => Stop(s.(w := w))
    case _ => Stop(s)
  }

  function StepCountEndpoints(s: State, reply: Reply): State
  {
    if reply.Ok? then
      State(s.w, s.l.(allReady := |s.w.endpoints| >= Shards(s.l.cr.chunk)), SyncRegistry(false))
    else Stop(s)
  }

  function StepSyncRegistry(s: State, reply: Reply, again: bool): State
  {
    if reply.Ok? && s.l.allReady then s.(pc := FindCluster(again)) else Stop(s)
  }

  function StepFindCluster(s: State, reply: Reply, again: bool): State
  {
    Continue(s, reply, if s.w.cluster.Some? then ConfigCluster(again) else CreateCluster(again))
  }

  function StepCreateCluster(s: State, reply: Reply, again: bool): State
  {
    var n := Nodes(s.l.cr.chunk);
    var w := if s.w.cluster.Some? then s.w else s.w.(cluster := Some(Cluster(n, n, n)));
    match reply
    case Ok => State(w, s.l, ConfigCluster(again))
    case Lost => Stop(s.(w := w))
    case _ => Stop(s)
  }

  function StepGetInfo(s: State, reply: Reply, again: bool): State
  {
    if reply.Info? && s.w.cluster.Some? then
      State(s.w, s.l.(info := ClusterInfo(s.w.cluster.value.withSlots, reply.migrating)), if again then Decide else CheckStable)
    else Stop(s)
  }

  predicate Stable?(s: State)
  {
    && |s.w.endpoints| >= Shards(s.l.cr.chunk)
    && s.l.storage.status.current == s.l.storage.replicas
    && s.l.storage.status.replicas == s.l.storage.replicas
  }

  function StepCheckStable(s: State, reply: Reply): State
  {
    if reply.Ok? && Stable?(s) && !s.l.info.migrating then s.(pc := ScaleNodes) else Stop(s)
  }

  function StepScaleNodes(s: State, reply: Reply): State
  {
    if s.w.cluster.None? then Stop(s)
    else
      var n := Nodes(s.l.cr.chunk);
      var c := s.w.cluster.value;
      var w := s.w.(cluster := Some(Cluster(n, c.withSlots, Max(c.nodes, n))));
      match reply
      case Ok => State(w, s.l, RemoveFreeNodes(false))
      case Lost => Stop(s.(w := w))
      case FreeNodeFound => s.(pc := RemoveFreeNodes(true))
      case _ => Stop(s)
  }

  function StepRemoveFreeNodes(s: State, reply: Reply, retry: bool): State
  {
    if s.w.cluster.None? then Stop(s)
    else
      var c := s.w.cluster.value;
      var w := s.w.(cluster := Some(c.(nodes := Min(c.nodes, Max(c.target, c.withSlots)))));
      match reply
      case Ok => if retry then Stop(s.(w := w)) else State(w, s.l, SyncRegistry(true))
      case Lost => Stop(s.(w := w))
      case _ => Stop(s)
  }

  function StepDecide(s: State): State
  {
    if s.l.info.withSlots != Nodes(s.l.cr.chunk) then Stop(s)
    else if s.l.storage.replicas == Shards(s.l.cr.chunk) then s.(pc := RollBroker)
    else if s.l.cr.status.state != ScaleDownWait then s.(pc := WriteWait)
    else if s.l.cr.status.since + SCALE_DOWN_WAIT_TIME > s.w.clock then Stop(s)
    else s.(pc := Shrink)
  }

  /** Does the pass find the template out of date? */
  predicate BrokerOutdated(s: State) { s.w.rules.changed(BrokerPart, s.l.cr.spec, s.l.broker.template) }

  predicate CoordinatorOutdated(s: State) { s.w.rules.changed(CoordinatorPart, s.l.cr.spec, s.l.coordinator.template) }

  predicate StorageOutdated(s: State) { s.w.rules.changed(StoragePart, s.l.cr.spec, s.l.storage.template) }

  /** Update of a StatefulSet's template, accepted only if the copy is the newest version; one that
      changes nothing leaves the version as it is. */
  function Replaced(c: Option<Component>, copy: ComponentCopy, template: Template, reply: Reply): Option<Component>
  {
    if c.Some? && template != c.value.template && copy.revision + 1 == |c.value.reports| && (reply.Ok? || reply.Lost?)
    then Some(Component(template, [c.value.reports[copy.revision]], c.value.endpoints))
    else c
  }

  // An update of a template ends the pass, whatever comes back; without one the endpoints are counted.

  function StepRollBroker(s: State, reply: Reply): State
  {
    if BrokerOutdated(s) then
      Stop(s.(w := s.w.(broker := Replaced(s.w.broker, s.l.broker, s.w.rules.create(BrokerPart, s.l.cr.spec), reply))))
    else if reply.Ok? && s.l.broker.ready == BROKER_NUM && Endpoints(s.w.broker) >= BROKER_NUM then s.(pc := RollCoordinator)
    else Stop(s)
  }

  function StepRollCoordinator(s: State, reply: Reply): State
  {
    if CoordinatorOutdated(s) then
      Stop(s.(w := s.w.(coordinator := Replaced(s.w.coordinator, s.l.coordinator, s.w.rules.create(CoordinatorPart, s.l.cr.spec), reply))))
    else if reply.Ok? && s.l.coordinator.ready >= COORDINATOR_NUM && Endpoints(s.w.coordinator) >= COORDINATOR_NUM then s.(pc := RollStorage)
    else Stop(s)
  }

  /** The whole Spec is replaced, the replica number with it. */
  function StoreSpec(w: World, n: nat, template: Template): World
    requires w.WellFormed() && w.storage.Some?
  {
    if w.Replicas() == n && w.storage.value.template == template then w
    else
      var v := StoreReplicas(w, n);
      v.(storage := Some(v.storage.value.(template := template)))
  }

  function StepRollStorage(s: State, reply: Reply): State
    requires s.w.WellFormed()
  {
    if StorageOutdated(s) then
      if Newest(s) && (reply.Ok? || reply.Lost?)
      then Stop(s.(w := StoreSpec(s.w, Shards(s.l.cr.chunk), s.w.rules.create(StoragePart, s.l.cr.spec))))
      else Stop(s)
    else if reply.Ok? && Stable?(s) then s.(pc := Idle(true))
    else Stop(s)
  }

  function CallStep(s: State, reply: Reply): State
    requires s.w.WellFormed()
  {
    match s.pc
    case Idle(_) => StepFetch(s, reply)
    case CreateMeta => Continue(s, reply, LoadBroker)
    case LoadBroker => StepLoadBroker(s, reply)
    case LoadCoordinator => StepLoadCoordinator(s, reply)
    case LoadStorage => StepLoadStorage(s, reply)
    case ScaleUp => WriteReplicas(s, reply, Shards(s.l.cr.chunk), CheckBroker)
    case CheckBroker => StepCheckBroker(s, reply)
    case CheckCoordinator => StepCheckCoordinator(s, reply)
    case PatchMaster => StepPatchMaster(s, reply)
    case ConfigCoordinators => Continue(s, reply, CountEndpoints)
    case CountEndpoints => StepCountEndpoints(s, reply)
    case SyncRegistry(again) => StepSyncRegistry(s, reply, again)
    case FindCluster(again) => StepFindCluster(s, reply, again)
    case CreateCluster(again) => StepCreateCluster(s, reply, again)
    case ConfigCluster(again) => Continue(s, reply, GetInfo(again))
    case GetInfo(again) => StepGetInfo(s, reply, again)
    case CheckStable => StepCheckStable(s, reply)
    case ScaleNodes => StepScaleNodes(s, reply)
    case RemoveFreeNodes(retry) => StepRemoveFreeNodes(s, reply, retry)
    case Decide => StepDecide(s)
    case WriteWait => WriteStatus(s, reply, ScaleDownWait, Idle(false))
    case Shrink => WriteReplicas(s, reply, Shards(s.l.cr.chunk), WriteStable)
    case WriteStable => WriteStatus(s, reply, Stable, RollBroker)
    case RollBroker => StepRollBroker(s, reply)
    case RollCoordinator => StepRollCoordinator(s, reply)
    case RollStorage => StepRollStorage(s, reply)
  }

  // ---------- The environment ----------

  function Serving(c: Option<Component>, ready: nat, endpoints: nat): Option<Component>
  {
    if c.Some? then Some(Component(c.value.template, c.value.reports + [ready], endpoints)) else None
  }

  /** A pod may be started only if it is wanted, an endpoint belongs to an existing pod,
      migration moves the slots between where they are and where they were sent, and the
      StatefulSet controller counts the pods that exist. Actions that are not possible change nothing. */
  function EnvStep(w: World, a: Action): World
    requires w.WellFormed()
  {
    match a
    case UserEdit(chunk, spec) => w.(cr := w.cr.(chunk := chunk, spec := spec, version := w.cr.version + 1))
    case Migrate(n) =>
      if w.cluster.Some? && Min(w.WithSlots(), w.Target()) <= n <= Max(w.WithSlots(), w.Target())
      then w.(cluster := Some(w.cluster.value.(withSlots := n))) else w
    case PodStart(i) =>
      if i < w.Replicas() then w.(pods := w.pods + {i}) else w
    case PodGone(i) =>
      w.(pods := w.pods - {i}, endpoints := w.endpoints - {i})
    case EndpointUp(i) =>
      if i in w.pods then w.(endpoints := w.endpoints + {i}) else w
    case EndpointDown(i) =>
      w.(endpoints := w.endpoints - {i})
    case ReportStatus(current) =>
      if w.storage.Some? && current <= |w.pods * Below(w.Replicas())|
      then w.(storage := Some(w.storage.value.(reports := w.storage.value.reports + [SetStatus(|w.pods|, current)])))
      else w
    case Serve(part, ready, n) =>
      (match part
       case BrokerPart => w.(broker := Serving(w.broker, ready, n))
       case CoordinatorPart => w.(coordinator := Serving(w.coordinator, ready, n))
       case StoragePart => w)
    case Elect(master) => w.(elected := master)
    case Tick(elapsed) => w.(clock := w.clock + elapsed)
    case Call(_) => w
    case Restart => w
  }

  function Step(s: State, a: Action): State
    requires s.w.WellFormed()
  {
    match a
    case Call(reply) => CallStep(s, reply)
    case Restart => Stop(s)
    case _ => s.(w := EnvStep(s.w, a))
  }

  lemma SetupWellFormed(s: State, reply: Reply)
    requires s.w.WellFormed() && (s.pc.LoadBroker? || s.pc.LoadCoordinator? || s.pc.LoadStorage? || s.pc.ScaleUp? || s.pc.Shrink?)
    ensures CallStep(s, reply).w.WellFormed()
  {
  }

  lemma RollWellFormed(s: State, reply: Reply)
    requires s.w.WellFormed() && (s.pc.RollBroker? || s.pc.RollCoordinator? || s.pc.RollStorage?)
    ensures CallStep(s, reply).w.WellFormed()
  {
  }

  lemma CallWellFormed(s: State, reply: Reply)
    requires s.w.WellFormed()
    ensures CallStep(s, reply).w.WellFormed()
  {
    match s.pc
    case LoadBroker | LoadCoordinator | LoadStorage | ScaleUp | Shrink => SetupWellFormed(s, reply);
    case RollBroker | RollCoordinator | RollStorage => RollWellFormed(s, reply);
    case _ =>
  }

  lemma EnvWellFormed(w: World, a: Action)
    requires w.WellFormed()
    ensures EnvStep(w, a).WellFormed()
  {
  }

  lemma StepWellFormed(s: State, a: Action)
    requires s.w.WellFormed()
    ensures Step(s, a).w.WellFormed()
  {
    match a
    case Call(reply) => CallWellFormed(s, reply);
    case Restart =>
    case _ => EnvWellFormed(s.w, a);
  }

  /** The state after a sequence of actions. */
  function Exec(s: State, run: seq<Action>): (t: State)
    requires s.w.WellFormed()
    ensures t.w.WellFormed()
    decreases |run|
  {
    if run == [] then s
    else
      var k := |run| - 1;
      StepWellFormed(Exec(s, run[..k]), run[k]);
      Step(Exec(s, run[..k]), run[k])
  }

  /** `at` follows the actions one by one. */
  ghost predicate Follows(at: seq<Action> -> State, step: (State, Action) -> State, run: seq<Action>)
  {
    run != [] ==> at(run) == step(at(run[..|run| - 1]), run[|run| - 1])
  }

  lemma {:induction false} FollowsOn(at: seq<Action> -> State, on: seq<Action> -> State, step: (State, Action) -> State, first: seq<Action>, rest: seq<Action>)
    requires forall run :: Follows(at, step, run) && Follows(on, step, run)
    requires on([]) == at(first)
    ensures at(first + rest) == on(rest)
    decreases |rest|
  {
    var whole := first + rest;
    if rest == [] {
      assert whole == first;
    } else {
      var k := |rest| - 1;
      assert whole[..|whole| - 1] == first + rest[..k] && whole[|whole| - 1] == rest[k];
      FollowsOn(at, on, step, first, rest[..k]);
      assert Follows(at, step, whole) && Follows(on, step, rest);
    }
  }

  lemma ExecConcat(s: State, first: seq<Action>, rest: seq<Action>)
    requires s.w.WellFormed()
    ensures Exec(s, first + rest) == Exec(Exec(s, first), rest)
  {
    var t := Exec(s, first);
    var at, on := (run: seq<Action>) => Exec(s, run), (run: seq<Action>) => Exec(t, run);
    var step := (u: State, a: Action) => if u.w.WellFormed() then Step(u, a) else u;
    forall run ensures Follows(at, step, run) {}
    forall run ensures Follows(on, step, run) {}
    FollowsOn(at, on, step, first, rest);
  }

  lemma ExecOne(s: State, a: Action)
    requires s.w.WellFormed()
    ensures Step(s, a).w.WellFormed() && Exec(s, [a]) == Step(s, a)
  {
    StepWellFormed(s, a);
    assert [a][..0] == [] && Exec(s, []) == s;
  }

  /** A new custom resource; nothing else exists yet. */
  predicate Initial(s: State)
  {
    && s.pc == Idle(false)
    && s.w.storage.None? && s.w.cluster.None? && s.w.broker.None? && s.w.coordinator.None?
    && s.w.pods == {} && s.w.endpoints == {}
    && s.w.cr.status == ScaleStatus(Unset, 0)
  }
}
