/**
 Pod templates: what the operator writes into the three StatefulSets, and how it decides that a
 template is out of date. Of a template only image, pull policy, resources and environment are
 kept; the replica numbers are part of the state machine.
 */
module Templates {
  import opened Common
  import opened Text
  import opened Names
  import opened EnvVars

  /** Amounts by resource name. */
  type ResourceList = map<string, int>

  datatype Resources = Resources(limits: ResourceList, requests: ResourceList)

  datatype Container = Container(image: string, pullPolicy: string, env: seq<EnvVar>, resources: Resources)

  datatype Template = Template(containers: seq<Container>)

  datatype Spec = Spec(
    id: Identity,
    undermoonImage: string,
    undermoonImagePullPolicy: string,
    redisImage: string,
    maxMemory: nat,
    activeRedirection: bool,
    proxyThreads: nat,
    migrationLimit: nat,
    disableFailover: bool,
    brokerResources: Resources,
    coordinatorResources: Resources,
    proxyResources: Resources,
    redisResources: Resources,
    brokerEnv: seq<EnvVar>,
    coordinatorEnv: seq<EnvVar>,
    proxyEnv: seq<EnvVar>,
    redisEnv: seq<EnvVar>)

  const COORDINATOR_PORT := 6699
  const META_PORT := 9999
  const META_SERVICE := "undermoon-operator-storage"

  const MAX_MEMORY := "REDIS_MAX_MEMORY"
  const ACTIVE_REDIRECTION := "UNDERMOON_ACTIVE_REDIRECTION"
  const THREAD_NUMBER := "UNDERMOON_THREAD_NUMBER"

  // ---------- Resources ----------

  /** resourceListEqual: as many entries, and every left one on the right with an equal amount. */
  method ResourceListEqual(lhs: ResourceList, rhs: ResourceList) returns (equal: bool)
    ensures equal <==> lhs == rhs
  {
    if |lhs| != |rhs| { return false; }
    var rest := lhs.Keys;
    while rest != {}
      invariant rest <= lhs.Keys
      invariant forall k :: k in lhs && k !in rest ==> k in rhs && rhs[k] == lhs[k]
      decreases |rest|
    {
      var k :| k in rest;
      if k !in rhs || lhs[k] != rhs[k] { return false; }
      rest := rest - {k};
    }
    assert lhs.Keys <= rhs.Keys && |lhs.Keys| == |rhs.Keys|;
    SubsetSize(lhs.Keys, rhs.Keys);
    return true;
  }

  method ResourceRequirementsEqual(lhs: Resources, rhs: Resources) returns (equal: bool)
    ensures equal <==> lhs == rhs
  {
    var limits := ResourceListEqual(lhs.limits, rhs.limits);
    if !limits { return false; }
    equal := ResourceListEqual(lhs.requests, rhs.requests);
  }

  // ---------- Broker and coordinator ----------

  function Plain(name: string, value: string): EnvVar { EnvVar(name, value, "") }

  function FormatBool(b: bool): string { if b then "true" else "false" }

  /** `metaNamespace` is where the operator itself runs. */
  function BrokerBuiltIn(cr: Spec, metaNamespace: string): seq<EnvVar>
  {
    [Plain("RUST_LOG", "undermoon=info,mem_broker=info"),
     Plain("UNDERMOON_ADDRESS", WithPort("0.0.0.0", BROKER_PORT)),
     Plain("UNDERMOON_FAILURE_TTL", "60"),
     Plain("UNDERMOON_FAILURE_QUORUM", "2"),
     Plain("UNDERMOON_MIGRATION_LIMIT", Decimal(cr.migrationLimit)),
     Plain("UNDERMOON_RECOVER_FROM_META_FILE", "true"),
     Plain("UNDERMOON_META_FILENAME", "metadata"),
     Plain("UNDERMOON_AUTO_UPDATE_META_FILE", "true"),
     Plain("UNDERMOON_UPDATE_META_FILE_INTERVAL", "10"),
     Plain("UNDERMOON_REPLICA_ADDRESSES", ""),
     Plain("UNDERMOON_SYNC_META_INTERVAL", "60"),
     Plain("UNDERMOON_ENABLE_ORDERED_PROXY", "true"),
     Plain("UNDERMOON_DEBUG", "false"),
     Plain("UNDERMOON_STORAGE_TYPE", "http"),
     Plain("UNDERMOON_STORAGE_NAME", BrokerStorageName(StorageName(cr.id.name, cr.id.namespace))),
     EnvVar("UNDERMOON_STORAGE_PASSWORD", "", "secretKeyRef"),
     Plain("UNDERMOON_HTTP_STORAGE_ADDRESS", WithPort(META_SERVICE + "." + metaNamespace + ".svc.cluster.local", META_PORT)),
     Plain("UNDERMOON_REFRESH_INTERVAL", "5")]
  }

  function CreateBroker(cr: Spec, metaNamespace: string): Template
  {
    Template([Container(cr.undermoonImage, cr.undermoonImagePullPolicy, BrokerBuiltIn(cr, metaNamespace) + cr.brokerEnv, cr.brokerResources)])
  }

  predicate BrokerChanged(cr: Spec, curr: Template)
    requires |curr.containers| == 1
  {
    var c := curr.containers[0];
    || cr.undermoonImage != c.image
    || cr.undermoonImagePullPolicy != c.pullPolicy
    || cr.brokerResources != c.resources
    || NeedUpdate(c.env, cr.brokerEnv)
  }

  function CoordinatorBuiltIn(cr: Spec): seq<EnvVar>
  {
    [Plain("RUST_LOG", "undermoon=info,coordinator=info"),
     Plain("UNDERMOON_ADDRESS", WithPort("0.0.0.0", COORDINATOR_PORT)),
     Plain("UNDERMOON_BROKER_ADDRESS", ""),
     EnvVar("UNDERMOON_REPORTER_ID", "", "metadata.name"),
     Plain(THREAD_NUMBER, "2"),
     Plain("UNDERMOON_PROXY_TIMEOUT", "3"),
     Plain("UNDERMOON_ENABLE_COMPRESSION", "1"),
     Plain("UNDERMOON_DISABLE_FAILOVER", if cr.disableFailover then "1" else "0")]
  }

  function CreateCoordinator(cr: Spec): Template
  {
    Template([Container(cr.undermoonImage, cr.undermoonImagePullPolicy, CoordinatorBuiltIn(cr) + cr.coordinatorEnv, cr.coordinatorResources)])
  }

  predicate CoordinatorChanged(cr: Spec, curr: Template)
    requires |curr.containers| == 1
  {
    var c := curr.containers[0];
    || cr.undermoonImage != c.image
    || cr.undermoonImagePullPolicy != c.pullPolicy
    || cr.coordinatorResources != c.resources
    || NeedUpdate(c.env, cr.coordinatorEnv)
  }

  // ---------- Storage ----------

  /** What stands before the redirection switch in the proxy's environment. */
  function ProxyHead(cr: Spec): seq<EnvVar>
  {
    [EnvVar("UM_POD_NAME", "", "metadata.name"),
     Plain("RUST_LOG", "undermoon=info,server_proxy=info"),
     Plain("UNDERMOON_ADDRESS", WithPort("0.0.0.0", cr.id.port)),
     Plain("UNDERMOON_AUTO_SELECT_CLUSTER", "true"),
     Plain("UNDERMOON_SLOWLOG_LEN", "1024"),
     Plain("UNDERMOON_SLOWLOG_LOG_SLOWER_THAN", "10000"),
     Plain("UNDERMOON_SLOWLOG_SAMPLE_RATE", "1000"),
     Plain("UNDERMOON_SESSION_CHANNEL_SIZE", "4096"),
     Plain("UNDERMOON_BACKEND_CHANNEL_SIZE", "4096"),
     Plain("UNDERMOON_BACKEND_BATCH_MIN_TIME", "20000"),
     Plain("UNDERMOON_BACKEND_BATCH_MAX_TIME", "400000"),
     Plain("UNDERMOON_SESSION_BATCH_MIN_TIME", "20000"),
     Plain("UNDERMOON_SESSION_BATCH_MAX_TIME", "400000")]
  }

  function RedirectionSwitch(cr: Spec): EnvVar { Plain(ACTIVE_REDIRECTION, FormatBool(cr.activeRedirection)) }

  /** The first pod is where a proxy without slots sends its clients. */
  function RedirectionTarget(cr: Spec): EnvVar
  {
    Plain("UNDERMOON_DEFAULT_REDIRECTION_ADDRESS", StorageAddress(cr.id, 0))
  }

  function ThreadNumber(cr: Spec): EnvVar { Plain(THREAD_NUMBER, Decimal(cr.proxyThreads)) }

  function ProxyBuiltIn(cr: Spec): seq<EnvVar>
  {
    ProxyHead(cr) + [RedirectionSwitch(cr), RedirectionTarget(cr), ThreadNumber(cr), Plain("UNDERMOON_BACKEND_BATCH_STRATEGY", "disabled")]
  }

  function RedisBuiltIn(cr: Spec): seq<EnvVar>
  {
    [EnvVar("UM_POD_IP", "", "status.podIP"), Plain(MAX_MEMORY, Decimal(cr.maxMemory))]
  }

  function RedisContainer(cr: Spec): Container
  {
    Container(cr.redisImage, "IfNotPresent", RedisBuiltIn(cr) + cr.redisEnv, cr.redisResources)
  }

  function CreateStorage(cr: Spec): Template
  {
    Template([Container(cr.undermoonImage, cr.undermoonImagePullPolicy, ProxyBuiltIn(cr) + cr.proxyEnv, cr.proxyResources),
              RedisContainer(cr), RedisContainer(cr)])
  }

  predicate StorageChanged(cr: Spec, curr: Template)
    requires |curr.containers| == 3
  {
    var proxy, redis1, redis2 := curr.containers[0], curr.containers[1], curr.containers[2];
    || cr.undermoonImage != proxy.image
    || cr.undermoonImagePullPolicy != proxy.pullPolicy
    || cr.redisImage != redis1.image || cr.redisImage != redis2.image
    || cr.proxyResources != proxy.resources
    || cr.redisResources != redis1.resources || cr.redisResources != redis2.resources
    || Decimal(cr.maxMemory) != GetEnvValue(redis1.env, MAX_MEMORY) || Decimal(cr.maxMemory) != GetEnvValue(redis2.env, MAX_MEMORY)
    || FormatBool(cr.activeRedirection) != GetEnvValue(proxy.env, ACTIVE_REDIRECTION)
    || Decimal(cr.proxyThreads) != GetEnvValue(proxy.env, THREAD_NUMBER)
    || NeedUpdate(proxy.env, cr.proxyEnv)
    || NeedUpdate(redis1.env, cr.redisEnv)
    || NeedUpdate(redis2.env, cr.redisEnv)
  }

  lemma RedirectionIsRead(cr: Spec)
    ensures GetEnvValue(ProxyBuiltIn(cr) + cr.proxyEnv, ACTIVE_REDIRECTION) == FormatBool(cr.activeRedirection)
  {
    var after := [RedirectionTarget(cr), ThreadNumber(cr), Plain("UNDERMOON_BACKEND_BATCH_STRATEGY", "disabled")] + cr.proxyEnv;
    HeadIsApart(cr);
    FirstEntryWins(ProxyHead(cr), RedirectionSwitch(cr), after);
    assert ProxyBuiltIn(cr) + cr.proxyEnv == ProxyHead(cr) + [RedirectionSwitch(cr)] + after;
  }

  lemma ThreadNumberIsRead(cr: Spec)
    ensures GetEnvValue(ProxyBuiltIn(cr) + cr.proxyEnv, THREAD_NUMBER) == Decimal(cr.proxyThreads)
  {
    var before := ProxyHead(cr) + [RedirectionSwitch(cr), RedirectionTarget(cr)];
    var after := [Plain("UNDERMOON_BACKEND_BATCH_STRATEGY", "disabled")] + cr.proxyEnv;
    HeadIsApart(cr);
    assert RedirectionSwitch(cr).name[10] == 'A' && RedirectionTarget(cr).name[10] == 'D' && THREAD_NUMBER[10] == 'T';
    FirstEntryWins(before, ThreadNumber(cr), after);
    assert ProxyBuiltIn(cr) + cr.proxyEnv == before + [ThreadNumber(cr)] + after;
  }

  lemma HeadIsApart(cr: Spec)
    ensures forall i :: 0 <= i < |ProxyHead(cr)| ==> ProxyHead(cr)[i].name != ACTIVE_REDIRECTION && ProxyHead(cr)[i].name != THREAD_NUMBER
  {
    assert |ACTIVE_REDIRECTION| == 28 && |THREAD_NUMBER| == 23;
  }

  lemma MaxMemoryIsRead(cr: Spec)
    ensures GetEnvValue(RedisBuiltIn(cr) + cr.redisEnv, MAX_MEMORY) == Decimal(cr.maxMemory)
  {
    var before, entry := [EnvVar("UM_POD_IP", "", "status.podIP")], Plain(MAX_MEMORY, Decimal(cr.maxMemory));
    FirstEntryWins(before, entry, cr.redisEnv);
    assert RedisBuiltIn(cr) + cr.redisEnv == before + [entry] + cr.redisEnv;
  }

  // ---------- The comparisons in their own form ----------

  method BrokerStatefulSetChanged(cr: Spec, curr: Template) returns (changed: bool)
    requires |curr.containers| == 1
    ensures changed <==> BrokerChanged(cr, curr)
  {
    var container := curr.containers[0];
    if cr.undermoonImage != container.image { return true; }
    if cr.undermoonImagePullPolicy != container.pullPolicy { return true; }
    var equal := ResourceRequirementsEqual(cr.brokerResources, container.resources);
    if !equal { return true; }
    changed := EnvVarListNeedUpdate(container.env, cr.brokerEnv);
  }

  method CoordinatorStatefulSetChanged(cr: Spec, curr: Template) returns (changed: bool)
    requires |curr.containers| == 1
    ensures changed <==> CoordinatorChanged(cr, curr)
  {
    var container := curr.containers[0];
    if cr.undermoonImage != container.image { return true; }
    if cr.undermoonImagePullPolicy != container.pullPolicy { return true; }
    var equal := ResourceRequirementsEqual(cr.coordinatorResources, container.resources);
    if !equal { return true; }
    changed := EnvVarListNeedUpdate(container.env, cr.coordinatorEnv);
  }

  method StorageStatefulSetChanged(cr: Spec, curr: Template) returns (changed: bool)
    requires |curr.containers| == 3
    ensures changed <==> StorageChanged(cr, curr)
  {
    var proxy, redis1, redis2 := curr.containers[0], curr.containers[1], curr.containers[2];
    if cr.undermoonImage != proxy.image { return true; }
    if cr.undermoonImagePullPolicy != proxy.pullPolicy { return true; }
    if cr.redisImage != redis1.image || cr.redisImage != redis2.image { return true; }
    var equal := ResourceRequirementsEqual(cr.proxyResources, proxy.resources);
    if !equal { return true; }
    var equal1 := ResourceRequirementsEqual(cr.redisResources, redis1.resources);
    var equal2 := ResourceRequirementsEqual(cr.redisResources, redis2.resources);
    if !equal1 || !equal2 { return true; }
    var specMaxMemory := Decimal(cr.maxMemory);
    if specMaxMemory != GetEnvValue(redis1.env, MAX_MEMORY) || specMaxMemory != GetEnvValue(redis2.env, MAX_MEMORY) { return true; }
    if FormatBool(cr.activeRedirection) != GetEnvValue(proxy.env, ACTIVE_REDIRECTION) { return true; }
    if Decimal(cr.proxyThreads) != GetEnvValue(proxy.env, THREAD_NUMBER) { return true; }
    changed := EnvVarListNeedUpdate(proxy.env, cr.proxyEnv);
    if changed { return; }
    changed := EnvVarListNeedUpdate(redis1.env, cr.redisEnv);
    if changed { return; }
    changed := EnvVarListNeedUpdate(redis2.env, cr.redisEnv);
  }

  // ---------- The name of the store ----------

  /** What stands before the storage name in the broker's environment, and behind it. */
  function BrokerHead(cr: Spec, metaNamespace: string): seq<EnvVar> { BrokerBuiltIn(cr, metaNamespace)[..14] }

  function BrokerTail(cr: Spec, metaNamespace: string): seq<EnvVar> { BrokerBuiltIn(cr, metaNamespace)[15..] }

  lemma StoreNameIsRead(cr: Spec, metaNamespace: string)
    ensures GetEnvValue(BrokerBuiltIn(cr, metaNamespace) + cr.brokerEnv, "UNDERMOON_STORAGE_NAME") == BrokerStorageName(StorageName(cr.id.name, cr.id.namespace))
  {
    var all, before := BrokerBuiltIn(cr, metaNamespace), BrokerHead(cr, metaNamespace);
    var entry := Plain("UNDERMOON_STORAGE_NAME", BrokerStorageName(StorageName(cr.id.name, cr.id.namespace)));
    assert all[14] == entry && all == before + [entry] + BrokerTail(cr, metaNamespace);
    HeadHasNoStoreName(cr, metaNamespace);
    FirstEntryWins(before, entry, BrokerTail(cr, metaNamespace) + cr.brokerEnv);
    assert all + cr.brokerEnv == before + [entry] + (BrokerTail(cr, metaNamespace) + cr.brokerEnv);
  }

  lemma HeadHasNoStoreName(cr: Spec, metaNamespace: string)
    ensures forall i :: 0 <= i < |BrokerHead(cr, metaNamespace)| ==> BrokerHead(cr, metaNamespace)[i].name != "UNDERMOON_STORAGE_NAME"
  {
    var name := "UNDERMOON_STORAGE_NAME";
    assert |name| == 22 && name[18] == 'N';
    assert |"UNDERMOON_STORAGE_TYPE"| == 22 && "UNDERMOON_STORAGE_TYPE"[18] == 'T';
  }

  /** The name that a broker is given for its store is read back, by the service that keeps the
      store, as the broker's own resource: for every name that has a part on either side of the '@'. */
  lemma BrokerNamesItsStore(cr: Spec, metaNamespace: string)
    ensures ExtractStorageName(GetEnvValue(CreateBroker(cr, metaNamespace).containers[0].env, "UNDERMOON_STORAGE_NAME")) == Some(StorageName(cr.id.name, cr.id.namespace))
            <==> cr.id.name != "" && cr.id.namespace != "" && '@' !in cr.id.name
  {
    StoreNameIsRead(cr, metaNamespace);
    ExtractUndoesStorageName(StorageName(cr.id.name, cr.id.namespace));
  }

  // ---------- What is noticed ----------

  /** The container runs what the spec asks for. */
  predicate Runs(c: Container, image: string, pullPolicy: string, resources: Resources)
  {
    c.image == image && c.pullPolicy == pullPolicy && c.resources == resources
  }

  /** A new template runs what the spec asks for, whatever its lists say. */
  lemma NewTemplatesRun(cr: Spec, metaNamespace: string)
    ensures var broker, coordinator, storage := CreateBroker(cr, metaNamespace).containers, CreateCoordinator(cr).containers, CreateStorage(cr).containers;
      && |broker| == 1 && Runs(broker[0], cr.undermoonImage, cr.undermoonImagePullPolicy, cr.brokerResources)
      && |coordinator| == 1 && Runs(coordinator[0], cr.undermoonImage, cr.undermoonImagePullPolicy, cr.coordinatorResources)
      && |storage| == 3 && Runs(storage[0], cr.undermoonImage, cr.undermoonImagePullPolicy, cr.proxyResources)
      && Runs(storage[1], cr.redisImage, "IfNotPresent", cr.redisResources) && Runs(storage[2], cr.redisImage, "IfNotPresent", cr.redisResources)
  {
  }

  /** An edit of the spec is noticed, against the template made from the spec before, exactly if it
      changes image, pull policy or resources, or lists a variable that does not stand last of its
      name in the environment made then. */
  lemma BrokerNotices(was: Spec, now: Spec, metaNamespace: string)
    ensures BrokerChanged(now, CreateBroker(was, metaNamespace)) <==>
      || was.undermoonImage != now.undermoonImage
      || was.undermoonImagePullPolicy != now.undermoonImagePullPolicy
      || was.brokerResources != now.brokerResources
      || Lacks(BrokerBuiltIn(was, metaNamespace) + was.brokerEnv, now.brokerEnv)
  {
    NeedUpdateExactly(BrokerBuiltIn(was, metaNamespace) + was.brokerEnv, now.brokerEnv);
  }

  lemma CoordinatorNotices(was: Spec, now: Spec)
    ensures CoordinatorChanged(now, CreateCoordinator(was)) <==>
      || was.undermoonImage != now.undermoonImage
      || was.undermoonImagePullPolicy != now.undermoonImagePullPolicy
      || was.coordinatorResources != now.coordinatorResources
      || Lacks(CoordinatorBuiltIn(was) + was.coordinatorEnv, now.coordinatorEnv)
  {
    NeedUpdateExactly(CoordinatorBuiltIn(was) + was.coordinatorEnv, now.coordinatorEnv);
  }

  /** For the storage also both images, both resources, and the three values read back by name. */
  lemma StorageNotices(was: Spec, now: Spec)
    ensures StorageChanged(now, CreateStorage(was)) <==>
      || was.undermoonImage != now.undermoonImage
      || was.undermoonImagePullPolicy != now.undermoonImagePullPolicy
      || was.redisImage != now.redisImage
      || was.proxyResources != now.proxyResources
      || was.redisResources != now.redisResources
      || was.maxMemory != now.maxMemory
      || was.activeRedirection != now.activeRedirection
      || was.proxyThreads != now.proxyThreads
      || Lacks(ProxyBuiltIn(was) + was.proxyEnv, now.proxyEnv)
      || Lacks(RedisBuiltIn(was) + was.redisEnv, now.redisEnv)
  {
    RedirectionIsRead(was);
    ThreadNumberIsRead(was);
    MaxMemoryIsRead(was);
    NeedUpdateExactly(ProxyBuiltIn(was) + was.proxyEnv, now.proxyEnv);
    NeedUpdateExactly(RedisBuiltIn(was) + was.redisEnv, now.redisEnv);
    if was.maxMemory != now.maxMemory && Decimal(was.maxMemory) == Decimal(now.maxMemory) { DecimalInjective(was.maxMemory, now.maxMemory); }
    if was.proxyThreads != now.proxyThreads && Decimal(was.proxyThreads) == Decimal(now.proxyThreads) { DecimalInjective(was.proxyThreads, now.proxyThreads); }
  }

  /** The template runs what the spec asks for, with all its variables. */
  ghost predicate BrokerDeployed(cr: Spec, template: Template)
  {
    |template.containers| == 1 &&
    var c := template.containers[0];
    Runs(c, cr.undermoonImage, cr.undermoonImagePullPolicy, cr.brokerResources) && !Lacks(c.env, cr.brokerEnv)
  }

  ghost predicate CoordinatorDeployed(cr: Spec, template: Template)
  {
    |template.containers| == 1 &&
    var c := template.containers[0];
    Runs(c, cr.undermoonImage, cr.undermoonImagePullPolicy, cr.coordinatorResources) && !Lacks(c.env, cr.coordinatorEnv)
  }

  /** The pull policy of the Redis containers is fixed and not looked at. */
  ghost predicate RedisDeployed(cr: Spec, c: Container)
  {
    && c.image == cr.redisImage && c.resources == cr.redisResources && !Lacks(c.env, cr.redisEnv)
    && GetEnvValue(c.env, "REDIS_MAX_MEMORY") == Decimal(cr.maxMemory)
  }

  ghost predicate StorageDeployed(cr: Spec, template: Template)
  {
    |template.containers| == 3 &&
    var c := template.containers[0];
    && Runs(c, cr.undermoonImage, cr.undermoonImagePullPolicy, cr.proxyResources) && !Lacks(c.env, cr.proxyEnv)
    && GetEnvValue(c.env, "UNDERMOON_ACTIVE_REDIRECTION") == (if cr.activeRedirection then "true" else "false")
    && GetEnvValue(c.env, "UNDERMOON_THREAD_NUMBER") == Decimal(cr.proxyThreads)
    && RedisDeployed(cr, template.containers[1]) && RedisDeployed(cr, template.containers[2])
  }

  lemma CurrentBrokerRuns(cr: Spec, curr: Template)
    requires |curr.containers| == 1 && !BrokerChanged(cr, curr)
    ensures BrokerDeployed(cr, curr)
  {
    NeedUpdateExactly(curr.containers[0].env, cr.brokerEnv);
  }

  lemma CurrentCoordinatorRuns(cr: Spec, curr: Template)
    requires |curr.containers| == 1 && !CoordinatorChanged(cr, curr)
    ensures CoordinatorDeployed(cr, curr)
  {
    NeedUpdateExactly(curr.containers[0].env, cr.coordinatorEnv);
  }

  lemma CurrentStorageRuns(cr: Spec, curr: Template)
    requires |curr.containers| == 3 && !StorageChanged(cr, curr)
    ensures StorageDeployed(cr, curr)
  {
    NeedUpdateExactly(curr.containers[0].env, cr.proxyEnv);
    NeedUpdateExactly(curr.containers[1].env, cr.redisEnv);
    NeedUpdateExactly(curr.containers[2].env, cr.redisEnv);
  }

  // ---------- The rolling update comes to rest ----------

  /** A freshly written template is up to date exactly when the user's own list does not
      contradict itself. A list that does is rolled out again in every pass. */
  lemma BrokerComesToRest(cr: Spec, metaNamespace: string)
    ensures !BrokerChanged(cr, CreateBroker(cr, metaNamespace)) <==> Consistent(cr.brokerEnv)
  {
    UserListSettles(BrokerBuiltIn(cr, metaNamespace), cr.brokerEnv);
  }

  lemma CoordinatorComesToRest(cr: Spec)
    ensures !CoordinatorChanged(cr, CreateCoordinator(cr)) <==> Consistent(cr.coordinatorEnv)
  {
    UserListSettles(CoordinatorBuiltIn(cr), cr.coordinatorEnv);
  }

  lemma StorageComesToRest(cr: Spec)
    ensures !StorageChanged(cr, CreateStorage(cr)) <==> Consistent(cr.proxyEnv) && Consistent(cr.redisEnv)
  {
    UserListSettles(ProxyBuiltIn(cr), cr.proxyEnv);
    UserListSettles(RedisBuiltIn(cr), cr.redisEnv);
    RedirectionIsRead(cr);
    ThreadNumberIsRead(cr);
    MaxMemoryIsRead(cr);
  }

  predicate Within(fewer: seq<EnvVar>, user: seq<EnvVar>) { forall i :: 0 <= i < |fewer| ==> fewer[i] in user }

  /** The spec with entries taken out of its lists. */
  function Dropping(cr: Spec, brokerEnv: seq<EnvVar>, coordinatorEnv: seq<EnvVar>, proxyEnv: seq<EnvVar>, redisEnv: seq<EnvVar>): Spec
  {
    cr.(brokerEnv := brokerEnv, coordinatorEnv := coordinatorEnv, proxyEnv := proxyEnv, redisEnv := redisEnv)
  }

  lemma DroppedFromBroker(cr: Spec, brokerEnv: seq<EnvVar>, metaNamespace: string)
    requires Within(brokerEnv, cr.brokerEnv)
    ensures BrokerChanged(cr.(brokerEnv := brokerEnv), CreateBroker(cr, metaNamespace)) <==> Overruled(cr.brokerEnv, brokerEnv)
  {
    RemovalNoticedExactly(BrokerBuiltIn(cr, metaNamespace), cr.brokerEnv, brokerEnv);
  }

  lemma DroppedFromCoordinator(cr: Spec, coordinatorEnv: seq<EnvVar>)
    requires Within(coordinatorEnv, cr.coordinatorEnv)
    ensures CoordinatorChanged(cr.(coordinatorEnv := coordinatorEnv), CreateCoordinator(cr)) <==> Overruled(cr.coordinatorEnv, coordinatorEnv)
  {
    RemovalNoticedExactly(CoordinatorBuiltIn(cr), cr.coordinatorEnv, coordinatorEnv);
  }

  lemma DroppedFromStorage(cr: Spec, proxyEnv: seq<EnvVar>, redisEnv: seq<EnvVar>)
    requires Within(proxyEnv, cr.proxyEnv) && Within(redisEnv, cr.redisEnv)
    ensures StorageChanged(cr.(proxyEnv := proxyEnv, redisEnv := redisEnv), CreateStorage(cr)) <==> Overruled(cr.proxyEnv, proxyEnv) || Overruled(cr.redisEnv, redisEnv)
  {
    RemovalNoticedExactly(ProxyBuiltIn(cr), cr.proxyEnv, proxyEnv);
    RemovalNoticedExactly(RedisBuiltIn(cr), cr.redisEnv, redisEnv);
    RedirectionIsRead(cr);
    ThreadNumberIsRead(cr);
    MaxMemoryIsRead(cr);
  }

  // ---------- The three components together ----------

  datatype Part = BrokerPart | CoordinatorPart | StoragePart

  /** How templates are made and how they are found out of date. */
  datatype Rules = Rules(create: (Part, Spec) -> Template, changed: (Part, Spec, Template) -> bool)

  function Create(part: Part, cr: Spec, metaNamespace: string): Template
  {
    match part
    case BrokerPart => CreateBroker(cr, metaNamespace)
    case CoordinatorPart => CreateCoordinator(cr)
    case StoragePart => CreateStorage(cr)
  }

  predicate Changed(part: Part, cr: Spec, curr: Template)
  {
    match part
    case BrokerPart => |curr.containers| != 1 || BrokerChanged(cr, curr)
    case CoordinatorPart => |curr.containers| != 1 || CoordinatorChanged(cr, curr)
    case StoragePart => |curr.containers| != 3 || StorageChanged(cr, curr)
  }

  /** The rules of the operator. */
  function OperatorRules(metaNamespace: string): Rules
  {
    Rules((part: Part, cr: Spec) => Create(part, cr, metaNamespace), (part: Part, cr: Spec, curr: Template) => Changed(part, cr, curr))
  }

  /** Some template made from the spec is out of date once the lists are cut down. */
  predicate Noticed(rules: Rules, cr: Spec, cut: Spec)
  {
    || rules.changed(BrokerPart, cut, rules.create(BrokerPart, cr))
    || rules.changed(CoordinatorPart, cut, rules.create(CoordinatorPart, cr))
    || rules.changed(StoragePart, cut, rules.create(StoragePart, cr))
  }

  /** Variables taken out of the four lists are noticed exactly when an entry that is left was
      overruled before by a later one of its name: the pods keep what was taken out otherwise. */
  lemma DroppedVariablesExactly(cr: Spec, cut: Spec, metaNamespace: string)
    requires cut == Dropping(cr, cut.brokerEnv, cut.coordinatorEnv, cut.proxyEnv, cut.redisEnv)
    requires Within(cut.brokerEnv, cr.brokerEnv) && Within(cut.coordinatorEnv, cr.coordinatorEnv) && Within(cut.proxyEnv, cr.proxyEnv) && Within(cut.redisEnv, cr.redisEnv)
    ensures Noticed(OperatorRules(metaNamespace), cr, cut) <==>
      Overruled(cr.brokerEnv, cut.brokerEnv) || Overruled(cr.coordinatorEnv, cut.coordinatorEnv) || Overruled(cr.proxyEnv, cut.proxyEnv) || Overruled(cr.redisEnv, cut.redisEnv)
  {
    DroppedFromBroker(cr, cut.brokerEnv, metaNamespace);
    DroppedFromCoordinator(cr, cut.coordinatorEnv);
    DroppedFromStorage(cr, cut.proxyEnv, cut.redisEnv);
    assert BrokerChanged(cut, CreateBroker(cr, metaNamespace)) <==> BrokerChanged(cr.(brokerEnv := cut.brokerEnv), CreateBroker(cr, metaNamespace));
    assert CoordinatorChanged(cut, CreateCoordinator(cr)) <==> CoordinatorChanged(cr.(coordinatorEnv := cut.coordinatorEnv), CreateCoordinator(cr));
    assert StorageChanged(cut, CreateStorage(cr)) <==> StorageChanged(cr.(proxyEnv := cut.proxyEnv, redisEnv := cut.redisEnv), CreateStorage(cr));
  }

  /** From lists that do not contradict themselves anything can be taken out unnoticed. */
  lemma DroppedVariablesStay(cr: Spec, cut: Spec, metaNamespace: string)
    requires ListsConsistent(cr) && cut == Dropping(cr, cut.brokerEnv, cut.coordinatorEnv, cut.proxyEnv, cut.redisEnv)
    requires Within(cut.brokerEnv, cr.brokerEnv) && Within(cut.coordinatorEnv, cr.coordinatorEnv) && Within(cut.proxyEnv, cr.proxyEnv) && Within(cut.redisEnv, cr.redisEnv)
    ensures !Noticed(OperatorRules(metaNamespace), cr, cut)
  {
    DroppedVariablesExactly(cr, cut, metaNamespace);
    ConsistentOverrulesNothing(cr.brokerEnv, cut.brokerEnv);
    ConsistentOverrulesNothing(cr.coordinatorEnv, cut.coordinatorEnv);
    ConsistentOverrulesNothing(cr.proxyEnv, cut.proxyEnv);
    ConsistentOverrulesNothing(cr.redisEnv, cut.redisEnv);
  }

  /** From one that does, not: of A=1, A=2 the second counts, so taking it out is noticed. */
  lemma OverruledVariableIsNoticed(cr: Spec, a: string, first: string, second: string, metaNamespace: string)
    requires cr.brokerEnv == [Plain(a, first), Plain(a, second)] && first != second
    ensures Noticed(OperatorRules(metaNamespace), cr, cr.(brokerEnv := [Plain(a, first)]))
  {
    var user, fewer := cr.brokerEnv, [Plain(a, first)];
    assert OverruledBy(user, fewer[0], 1);
    DroppedFromBroker(cr, fewer, metaNamespace);
  }

  /** None of the user's lists contradicts itself. */
  predicate ListsConsistent(cr: Spec)
  {
    Consistent(cr.brokerEnv) && Consistent(cr.coordinatorEnv) && Consistent(cr.proxyEnv) && Consistent(cr.redisEnv)
  }

  /** A template just made from the spec is current. */
  predicate Rests(rules: Rules, part: Part, cr: Spec) { !rules.changed(part, cr, rules.create(part, cr)) }

  predicate Restful(rules: Rules, cr: Spec)
  {
    Rests(rules, BrokerPart, cr) && Rests(rules, CoordinatorPart, cr) && Rests(rules, StoragePart, cr)
  }

  /** A spec that finds its own template out of date finds every template out of date. */
  ghost predicate Coherent(rules: Rules)
  {
    forall part, cr, curr :: !rules.changed(part, cr, curr) ==> Rests(rules, part, cr)
  }

  lemma BrokerRests(cr: Spec, metaNamespace: string)
    ensures Rests(OperatorRules(metaNamespace), BrokerPart, cr) <==> Consistent(cr.brokerEnv)
  {
    BrokerComesToRest(cr, metaNamespace);
  }

  lemma CoordinatorRests(cr: Spec, metaNamespace: string)
    ensures Rests(OperatorRules(metaNamespace), CoordinatorPart, cr) <==> Consistent(cr.coordinatorEnv)
  {
    CoordinatorComesToRest(cr);
  }

  lemma StorageRests(cr: Spec, metaNamespace: string)
    ensures Rests(OperatorRules(metaNamespace), StoragePart, cr) <==> Consistent(cr.proxyEnv) && Consistent(cr.redisEnv)
  {
    StorageComesToRest(cr);
  }

  /** The templates of a spec can all be current exactly when none of its lists contradicts itself. */
  lemma OperatorRulesRest(cr: Spec, metaNamespace: string)
    ensures Restful(OperatorRules(metaNamespace), cr) <==> ListsConsistent(cr)
  {
    BrokerRests(cr, metaNamespace);
    CoordinatorRests(cr, metaNamespace);
    StorageRests(cr, metaNamespace);
  }

  /** A list that contradicts itself is out of date whatever the template. */
  lemma OperatorRulesAreCoherent(metaNamespace: string)
    ensures Coherent(OperatorRules(metaNamespace))
  {
    var rules := OperatorRules(metaNamespace);
    forall part, cr, curr | !rules.changed(part, cr, curr) ensures Rests(rules, part, cr) {
      if Changed(part, cr, Create(part, cr, metaNamespace)) { ContradictionChangesAll(part, cr, curr, metaNamespace); }
    }
  }

  lemma ContradictionChangesAll(part: Part, cr: Spec, curr: Template, metaNamespace: string)
    requires Changed(part, cr, Create(part, cr, metaNamespace))
    ensures Changed(part, cr, curr)
  {
    match part
    case BrokerPart =>
      BrokerComesToRest(cr, metaNamespace);
      if |curr.containers| == 1 { ContradictionNeedsUpdate(curr.containers[0].env, cr.brokerEnv); }
    case CoordinatorPart =>
      CoordinatorComesToRest(cr);
      if |curr.containers| == 1 { ContradictionNeedsUpdate(curr.containers[0].env, cr.coordinatorEnv); }
    case StoragePart =>
      StorageComesToRest(cr);
      if |curr.containers| == 3 {
        if !Consistent(cr.proxyEnv) { ContradictionNeedsUpdate(curr.containers[0].env, cr.proxyEnv); }
        if !Consistent(cr.redisEnv) { ContradictionNeedsUpdate(curr.containers[1].env, cr.redisEnv); }
      }
  }

  /** What the operator finds current runs what the spec asks for. */
  lemma CurrentIsDeployed(cr: Spec, broker: Template, coordinator: Template, storage: Template, metaNamespace: string)
    requires var rules := OperatorRules(metaNamespace);
      !rules.changed(BrokerPart, cr, broker) && !rules.changed(CoordinatorPart, cr, coordinator) && !rules.changed(StoragePart, cr, storage)
    ensures BrokerDeployed(cr, broker) && CoordinatorDeployed(cr, coordinator) && StorageDeployed(cr, storage)
  {
    CurrentBrokerRuns(cr, broker);
    CurrentCoordinatorRuns(cr, coordinator);
    CurrentStorageRuns(cr, storage);
  }
}
