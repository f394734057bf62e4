/**
 The proxy registry of the broker, synchronised twice in a pass of Reconcile: first with the
 proxies that have endpoints, then, once the cluster has its new size, with none.
 */
module Registry {
  import opened Common
  import opened Errors
  import opened Text
  import opened Names

  const REDIS_PORT_1 := 7001
  const REDIS_PORT_2 := 7002

  datatype ServerProxyMeta = ServerProxyMeta(proxyAddress: string, redisAddresses: (string, string), host: string, index: int)

  function NewServerProxyMeta(podHost: string, nodeIP: string, serverProxyPort: nat, index: int): ServerProxyMeta
  {
    ServerProxyMeta(WithPort(podHost, serverProxyPort), (WithPort(podHost, REDIS_PORT_1), WithPort(podHost, REDIS_PORT_2)), nodeIP, index)
  }

  function ProxyOfHost(hostname: string, cr: Identity): ServerProxyMeta
  {
    NewServerProxyMeta(GenStorageFQDN(hostname, cr), GenStorageFQDN(hostname, cr), cr.port, HostnameIndex(hostname))
  }

  /** The proxies behind the endpoints of the storage service. */
  method GetServerProxies(hostnames: seq<string>, cr: Identity) returns (proxies: seq<ServerProxyMeta>)
    ensures |proxies| == |hostnames| && forall i :: 0 <= i < |hostnames| ==> proxies[i] == ProxyOfHost(hostnames[i], cr)
  {
    proxies := [];
    for i := 0 to |hostnames|
      invariant |proxies| == i && forall j :: 0 <= j < i ==> proxies[j] == ProxyOfHost(hostnames[j], cr)
    {
      var index := HostnameIndex(hostnames[i]);
      var address := GenStorageFQDN(hostnames[i], cr);
      proxies := proxies + [NewServerProxyMeta(address, address, cr.port, index)];
    }
  }

  /** For a pod of the StatefulSet the proxy read off its hostname has the address that the spec
      has for it, and the pod's ordinal. */
  lemma ProxyOfPod(cr: Identity, ordinal: nat)
    requires ordinal <= MAX_INT
    ensures var proxy := ProxyOfHost(StorageStatefulSetPodName(cr.name, ordinal), cr);
      proxy.proxyAddress == StorageAddress(cr, ordinal) && proxy.index == ordinal
  {
    PodIndexRoundTrip(cr.name, ordinal);
  }

  /** The proxy in full: the spec's port, and two Redis ports on the same host. */
  lemma ProxyForm(hostname: string, cr: Identity)
    ensures var host := hostname + "." + cr.name + "-stg-svc." + cr.namespace + ".svc.cluster.local"; var proxy := ProxyOfHost(hostname, cr);
      proxy.host == host && proxy.proxyAddress == host + ":" + Decimal(cr.port) && proxy.redisAddresses == (host + ":7001", host + ":7002")
  {
    var host := hostname + "." + cr.name + "-stg-svc." + cr.namespace + ".svc.cluster.local";
    assert "-stg-svc" + "." == "-stg-svc.";
    assert GenStorageFQDN(hostname, cr) == hostname + "." + cr.name + "-stg-svc" + "." + cr.namespace + ".svc.cluster.local" == host;
    RedisPorts();
    assert host + ":" + "7001" == host + ":7001" && host + ":" + "7002" == host + ":7002";
  }

  lemma RedisPorts()
    ensures Decimal(REDIS_PORT_1) == "7001" && Decimal(REDIS_PORT_2) == "7002"
  {
    assert Decimal(70) == "70" && Decimal(700) == "700";
  }

  /** One of the 2 * chunkNumber addresses of the spec. */
  ghost predicate InSpec(cr: Identity, chunkNumber: nat, address: string)
  {
    exists i: nat :: i < chunkNumber * 2 && address == StorageAddress(cr, i)
  }

  ghost predicate IsProxy(proxies: seq<ServerProxyMeta>, address: string)
  {
    exists i :: 0 <= i < |proxies| && proxies[i].proxyAddress == address
  }

  ghost predicate Kept(cr: Identity, chunkNumber: nat, proxies: seq<ServerProxyMeta>, address: string)
  {
    InSpec(cr, chunkNumber, address) || IsProxy(proxies, address)
  }

  class Broker {
    var registry: set<string>
    /** Calls that did not do what was asked. */
    ghost var failures: nat

    /** A conflict other than RETRY counts as success for the operator, registered or not. */
    method RegisterServerProxy(proxy: ServerProxyMeta) returns (err: Err)
      modifies this
      ensures registry == old(registry) || registry == old(registry) + {proxy.proxyAddress}
      ensures err != Nil ==> failures > old(failures)
      ensures if failures == old(failures) then proxy.proxyAddress in registry else failures > old(failures)
    {
      err := *;
      var carriedOut: bool := *;
      if carriedOut { registry := registry + {proxy.proxyAddress}; }
      if err != Nil || !carriedOut { failures := failures + 1; }
    }

    /** An unknown address counts as success; a failed call may have been carried out. */
    method DeregisterServerProxy(address: string) returns (err: Err)
      modifies this
      ensures registry == old(registry) || registry == old(registry) - {address}
      ensures if err == Nil then registry == old(registry) - {address} && failures == old(failures) else failures > old(failures)
    {
      err := *;
      var carriedOut: bool := *;
      if err == Nil || carriedOut { registry := registry - {address}; }
      if err != Nil { failures := failures + 1; }
    }

    method GetRegistered() returns (addresses: seq<string>, err: Err)
      ensures err == Nil ==> forall a :: a in addresses <==> a in registry
    {
      err := *;
      addresses := [];
      if err == Nil {
        var rest := registry;
        while rest != {}
          invariant rest <= registry && forall a :: a in addresses <==> a in registry && a !in rest
          decreases |rest|
        {
          var a :| a in rest;
          addresses := addresses + [a];
          rest := rest - {a};
        }
      }
    }
  }

  /** Only errRetryReconciliation is returned; every other error is logged and passed over. */
  method RegisterServerProxies(broker: Broker, proxies: seq<ServerProxyMeta>) returns (err: Err)
    modifies broker
    ensures err != Other && broker.failures >= old(broker.failures)
    ensures old(broker.registry) <= broker.registry
    ensures forall a :: a in broker.registry ==> a in old(broker.registry) || IsProxy(proxies, a)
    ensures broker.failures == old(broker.failures) ==> err == Nil && forall a :: IsProxy(proxies, a) ==> a in broker.registry
  {
    for i := 0 to |proxies|
      invariant broker.failures >= old(broker.failures) && old(broker.registry) <= broker.registry
      invariant forall a :: a in broker.registry ==> a in old(broker.registry) || IsProxy(proxies, a)
      invariant broker.failures == old(broker.failures) ==> forall j :: 0 <= j < i ==> proxies[j].proxyAddress in broker.registry
    {
      assert IsProxy(proxies, proxies[i].proxyAddress);
      err := broker.RegisterServerProxy(proxies[i]);
      if err == Retry { return; }
    }
    err := Nil;
  }

  /** The addresses on the list that are to go. */
  method ToDelete(existing: seq<string>, cr: Identity, chunkNumber: nat, proxies: seq<ServerProxyMeta>) returns (deleteList: seq<string>)
    ensures forall a :: a in deleteList <==> a in existing && !Kept(cr, chunkNumber, proxies, a)
  {
    var keepSet: map<string, bool> := map[];
    var addrs := GenStorageStatefulSetAddrs(cr, chunkNumber);
    for i := 0 to |addrs|
      invariant forall a :: a in keepSet <==> a in addrs[..i]
    {
      keepSet := keepSet[addrs[i] := true];
    }
    assert addrs[..|addrs|] == addrs;
    assert forall a :: a in addrs <==> InSpec(cr, chunkNumber, a);
    for i := 0 to |proxies|
      invariant forall a :: a in keepSet <==> InSpec(cr, chunkNumber, a) || IsProxy(proxies[..i], a)
    {
      AnotherProxy(proxies, i);
      keepSet := keepSet[proxies[i].proxyAddress := true];
    }
    assert proxies[..|proxies|] == proxies;
    deleteList := [];
    for i := 0 to |existing|
      invariant forall a :: a in deleteList <==> a in existing[..i] && a !in keepSet
    {
      if existing[i] !in keepSet { deleteList := deleteList + [existing[i]]; }
    }
    assert existing[..|existing|] == existing;
  }

  lemma AnotherProxy(proxies: seq<ServerProxyMeta>, i: nat)
    requires i < |proxies|
    ensures forall a :: IsProxy(proxies[..i + 1], a) <==> IsProxy(proxies[..i], a) || a == proxies[i].proxyAddress
  {
    forall a | IsProxy(proxies[..i], a) || a == proxies[i].proxyAddress ensures IsProxy(proxies[..i + 1], a) {
      if IsProxy(proxies[..i], a) {
        var j :| 0 <= j < i && proxies[..i][j].proxyAddress == a;
        assert proxies[..i + 1][j].proxyAddress == a;
      } else {
        assert proxies[..i + 1][i].proxyAddress == a;
      }
    }
    forall a | IsProxy(proxies[..i + 1], a) && a != proxies[i].proxyAddress ensures IsProxy(proxies[..i], a) {
      var j :| 0 <= j < i + 1 && proxies[..i + 1][j].proxyAddress == a;
      assert proxies[..i][j].proxyAddress == a;
    }
  }

  /** Whatever fails, no address of the spec and none of the given proxies loses its entry; if
      nothing fails, all other entries go. */
  method DeregisterServerProxies(broker: Broker, proxies: seq<ServerProxyMeta>, cr: Identity, chunkNumber: nat) returns (err: Err)
    modifies broker
    ensures broker.failures >= old(broker.failures) && broker.registry <= old(broker.registry)
    ensures forall a :: a in old(broker.registry) && Kept(cr, chunkNumber, proxies, a) ==> a in broker.registry
    ensures err == Nil && broker.failures == old(broker.failures) ==> forall a :: a in broker.registry ==> Kept(cr, chunkNumber, proxies, a)
  {
    var existing;
    existing, err := broker.GetRegistered();
    if err != Nil { return; }
    var deleteList := ToDelete(existing, cr, chunkNumber, proxies);
    for i := 0 to |deleteList|
      invariant broker.failures >= old(broker.failures) && broker.registry <= old(broker.registry)
      invariant forall a :: a in old(broker.registry) && a !in deleteList ==> a in broker.registry
      invariant broker.failures == old(broker.failures) ==> forall a :: a in deleteList[..i] ==> a !in broker.registry
    {
      assert deleteList[..i + 1] == deleteList[..i] + [deleteList[i]];
      err := broker.DeregisterServerProxy(deleteList[i]);
      if err == Retry { return; }
    }
    assert deleteList[..|deleteList|] == deleteList;
    err := Nil;
  }

  /**
   One synchronisation. Whatever fails, entries of the spec and of the given proxies stay, and
   only the given proxies are added. If nothing fails, the registry is what it was and the given
   proxies, cut down to the spec and the given proxies; with no proxies, as the second time in a
   pass, that is within the 2 * chunkNumber addresses of the spec.
   */
  method ReconcileServerProxyRegistry(broker: Broker, proxies: seq<ServerProxyMeta>, cr: Identity, chunkNumber: nat) returns (err: Err)
    modifies broker
    ensures forall a :: a in old(broker.registry) && Kept(cr, chunkNumber, proxies, a) ==> a in broker.registry
    ensures forall a :: a in broker.registry ==> a in old(broker.registry) || IsProxy(proxies, a)
    ensures err == Nil && broker.failures == old(broker.failures) ==>
      forall a :: a in broker.registry <==> Kept(cr, chunkNumber, proxies, a) && (a in old(broker.registry) || IsProxy(proxies, a))
    ensures err == Nil && broker.failures == old(broker.failures) && proxies == [] ==> forall a :: a in broker.registry ==> InSpec(cr, chunkNumber, a)
  {
    err := RegisterServerProxies(broker, proxies);
    if err != Nil { return; }
    err := DeregisterServerProxies(broker, proxies, cr, chunkNumber);
  }

  /** A registry within the spec has no more entries than the spec has pods, two for each chunk. */
  lemma {:induction false} SpecIsSmall(registry: set<string>, cr: Identity, pods: nat)
    requires forall a :: a in registry ==> exists i: nat :: i < pods && a == StorageAddress(cr, i)
    ensures |registry| <= pods
  {
    if pods == 0 {
      assert forall a :: a !in registry;
      assert registry == {};
    } else {
      var rest := registry - {StorageAddress(cr, pods - 1)};
      forall a | a in rest ensures exists i: nat :: i < pods - 1 && a == StorageAddress(cr, i) {
        var i: nat :| i < pods && a == StorageAddress(cr, i);
        assert i != pods - 1;
      }
      SpecIsSmall(rest, cr, pods - 1);
    }
  }
}
