/**
 The master broker: which broker the operator takes for the master, and how it tells the brokers.

 A broker with a non-empty replica list is a master. What the brokers answer is a function of
 their address; None stands for any failure of the request.
 */
module Masters {
  import opened Common
  import opened Errors
  import opened Text
  import opened Names

  type ReplicaLists = string -> Option<seq<string>>
  type Epochs = string -> Option<int>

  // ---------- Choosing ----------

  predicate IsMaster(lists: ReplicaLists, address: string)
  {
    lists(address).Some? && lists(address).value != []
  }

  function MastersOf(addresses: seq<string>, lists: ReplicaLists): seq<string>
  {
    if addresses == [] then []
    else
      var n := |addresses| - 1;
      MastersOf(addresses[..n], lists) + if IsMaster(lists, addresses[n]) then [addresses[n]] else []
  }

  /** The first of the candidates with the highest epoch, among those that told their epoch; the
      empty string when none did. */
  ghost predicate Elected(candidates: seq<string>, epochs: Epochs, winner: string)
  {
    || (winner == "" && forall i :: 0 <= i < |candidates| ==> epochs(candidates[i]).None?)
    || exists k :: 0 <= k < |candidates| && winner == candidates[k] && HighestAt(candidates, epochs, k)
  }

  ghost predicate HighestAt(candidates: seq<string>, epochs: Epochs, k: nat)
    requires k < |candidates|
  {
    && epochs(candidates[k]).Some?
    && forall i :: 0 <= i < |candidates| && epochs(candidates[i]).Some? ==>
         epochs(candidates[i]).value <= epochs(candidates[k]).value && (i < k ==> epochs(candidates[i]).value < epochs(candidates[k]).value)
  }

  /** The broker taken for the master: the only one with replicas if there is just one, otherwise
      the winner of an election among those, or among all when there is none. */
  ghost predicate Chosen(addresses: seq<string>, lists: ReplicaLists, epochs: Epochs, master: string)
  {
    var masters := MastersOf(addresses, lists);
    if |masters| == 1 then master == masters[0] else Elected(if masters == [] then addresses else masters, epochs, master)
  }

  method ElectMaster(candidates: seq<string>, epochs: Epochs) returns (maxEpochBroker: string)
    requires "" !in candidates
    ensures Elected(candidates, epochs, maxEpochBroker)
  {
    var maxEpoch := 0;
    maxEpochBroker := "";
    ghost var best := 0;
    for i := 0 to |candidates|
      invariant maxEpochBroker == "" ==> forall j :: 0 <= j < i ==> epochs(candidates[j]).None?
      invariant maxEpochBroker != "" ==> best < i && maxEpochBroker == candidates[best] && epochs(maxEpochBroker) == Some(maxEpoch)
      invariant maxEpochBroker != "" ==> forall j :: 0 <= j < i && epochs(candidates[j]).Some? ==> epochs(candidates[j]).value <= maxEpoch && (j < best ==> epochs(candidates[j]).value < maxEpoch)
    {
      var address := candidates[i];
      var epoch := epochs(address);
      if epoch.None? { continue; }
      if maxEpochBroker == "" || epoch.value > maxEpoch {
        maxEpochBroker := address;
        maxEpoch := epoch.value;
        best := i;
      }
    }
    if maxEpochBroker != "" { assert HighestAt(candidates, epochs, best); }
  }

  /** getCurrentMaster: the only master if there is just one, otherwise an election among the
      masters, or among all brokers when there is no master. */
  method GetCurrentMaster(addresses: seq<string>, lists: ReplicaLists, epochs: Epochs) returns (r: Option<string>)
    requires "" !in addresses
    ensures r.None? <==> addresses == []
    ensures r.Some? ==> Chosen(addresses, lists, epochs, r.value)
    ensures r.Some? ==> r.value == "" || r.value in addresses
  {
    if |addresses| == 0 { return None; }
    var masters: seq<string> := [];
    for i := 0 to |addresses|
      invariant masters == MastersOf(addresses[..i], lists)
      invariant forall a :: a in masters ==> a in addresses
    {
      assert addresses[..i + 1][..i] == addresses[..i];
      var replicas := lists(addresses[i]);
      if replicas.None? { continue; }
      if |replicas.value| != 0 { masters := masters + [addresses[i]]; }
    }
    assert addresses[..|addresses|] == addresses;
    if |masters| == 1 { return Some(masters[0]); }
    var candidates := masters;
    if |candidates| == 0 {
      candidates := candidates + addresses;
      assert candidates == addresses;
    }
    var winner := ElectMaster(candidates, epochs);
    return Some(winner);
  }

  // ---------- Addresses ----------

  function GenBrokerAddress(hostname: string, cr: Identity): string
  {
    WithPort(hostname + ("." + (cr.name + "-bk-svc") + "." + cr.namespace + ".svc.cluster.local"), BROKER_PORT)
  }

  lemma BrokerAddressInjective(h: string, g: string, cr: Identity)
    requires GenBrokerAddress(h, cr) == GenBrokerAddress(g, cr)
    ensures h == g
  {
    var tail := "." + (cr.name + "-bk-svc") + "." + cr.namespace + ".svc.cluster.local" + ":" + Decimal(BROKER_PORT);
    assert GenBrokerAddress(h, cr) == h + tail && GenBrokerAddress(g, cr) == g + tail;
    assert |h| == |g|;
    assert (h + tail)[..|h|] == h && (g + tail)[..|g|] == g;
  }

  /** All addresses but one, in their order. */
  function Others(addresses: seq<string>, master: string): (rest: seq<string>)
    ensures forall a :: a in rest <==> a in addresses && a != master
  {
    if addresses == [] then []
    else
      var n := |addresses| - 1;
      Others(addresses[..n], master) + if addresses[n] == master then [] else [addresses[n]]
  }

  /** Of different addresses, the others are what stands before the master and what stands behind it. */
  lemma {:induction false} OthersExactly(addresses: seq<string>, master: string, k: nat)
    requires Distinct(addresses) && k < |addresses| && addresses[k] == master
    ensures Others(addresses, master) == addresses[..k] + addresses[k + 1..]
    decreases |addresses|
  {
    var n := |addresses| - 1;
    if k == n {
      OthersWithout(addresses[..n], master);
    } else {
      OthersExactly(addresses[..n], master, k);
      assert addresses[..n][..k] == addresses[..k];
      assert addresses[k + 1..] == addresses[..n][k + 1..] + [addresses[n]];
    }
  }

  lemma {:induction false} OthersWithout(addresses: seq<string>, master: string)
    requires forall i :: 0 <= i < |addresses| ==> addresses[i] != master
    ensures Others(addresses, master) == addresses
    decreases |addresses|
  {
    if addresses != [] {
      var n := |addresses| - 1;
      OthersWithout(addresses[..n], master);
      assert addresses == addresses[..n] + [addresses[n]];
    }
  }

  lemma GenBrokerAddressForm(hostname: string, cr: Identity)
    ensures GenBrokerAddress(hostname, cr) == hostname + "." + cr.name + "-bk-svc." + cr.namespace + ".svc.cluster.local:7799"
  {
    SevenSevenNineNine();
    assert "-bk-svc" + "." == "-bk-svc." && ".svc.cluster.local" + ":" + "7799" == ".svc.cluster.local:7799";
    assert GenBrokerAddress(hostname, cr) == hostname + "." + cr.name + "-bk-svc" + "." + cr.namespace + ".svc.cluster.local" + ":" + "7799";
  }

  lemma SevenSevenNineNine()
    ensures Decimal(BROKER_PORT) == "7799"
  {
    assert Decimal(77) == "77" && Decimal(779) == "779";
  }

  method BrokerAddresses(hostnames: seq<string>, cr: Identity) returns (brokers: seq<string>)
    ensures |brokers| == |hostnames| && "" !in brokers
    ensures forall i :: 0 <= i < |hostnames| ==> brokers[i] == GenBrokerAddress(hostnames[i], cr)
  {
    brokers := [];
    for i := 0 to |hostnames|
      invariant |brokers| == i && "" !in brokers
      invariant forall j :: 0 <= j < i ==> brokers[j] == GenBrokerAddress(hostnames[j], cr)
    {
      brokers := brokers + [GenBrokerAddress(hostnames[i], cr)];
    }
  }

  lemma BrokerAddressesDiffer(hostnames: seq<string>, addresses: seq<string>, cr: Identity)
    requires |addresses| == |hostnames| && forall i :: 0 <= i < |hostnames| ==> addresses[i] == GenBrokerAddress(hostnames[i], cr)
    requires Distinct(hostnames)
    ensures Distinct(addresses)
  {
    forall i, j | 0 <= i < j < |addresses| ensures addresses[i] != addresses[j] {
      if addresses[i] == addresses[j] { BrokerAddressInjective(hostnames[i], hostnames[j], cr); }
    }
  }

  /** The status that the operator shows to users. */
  class StatusObject {
    var masterBrokerAddress: string

    constructor ()
    {
      masterBrokerAddress := "";
    }

    /** The status patch; a failed one may have been carried out. */
    method SetMasterBrokerStatus(master: string) returns (err: Err)
      modifies this
      ensures err == Nil ==> masterBrokerAddress == master
      ensures masterBrokerAddress == old(masterBrokerAddress) || masterBrokerAddress == master
    {
      err := *;
      var carriedOut: bool := *;
      if err == Nil || carriedOut { masterBrokerAddress := master; }
    }
  }

  /** reconcileMaster: the master, shown in the status, and in order the other brokers. Without
      endpoints, or when the patch fails, there is neither. */
  method ReconcileMaster(hostnames: seq<string>, cr: Identity, status: StatusObject, lists: ReplicaLists, epochs: Epochs)
    returns (err: Err, master: string, replicas: seq<string>, ghost addresses: seq<string>)
    modifies status
    ensures |addresses| == |hostnames| && forall i :: 0 <= i < |hostnames| ==> addresses[i] == GenBrokerAddress(hostnames[i], cr)
    ensures Distinct(hostnames) ==> Distinct(addresses)
    ensures hostnames == [] ==> err != Nil && status.masterBrokerAddress == old(status.masterBrokerAddress)
    ensures err != Nil ==> master == "" && replicas == []
    ensures err == Nil ==> status.masterBrokerAddress == master && replicas == Others(addresses, master) && (master == "" || master in addresses)
    ensures err == Nil ==> Chosen(addresses, lists, epochs, master)
  {
    var brokers := BrokerAddresses(hostnames, cr);
    addresses := brokers;
    if Distinct(hostnames) { BrokerAddressesDiffer(hostnames, brokers, cr); }
    var current := GetCurrentMaster(brokers, lists, epochs);
    if current.None? { return Other, "", [], brokers; }
    err := status.SetMasterBrokerStatus(current.value);
    if err != Nil { return err, "", [], brokers; }
    master := current.value;
    replicas := OtherBrokers(brokers, master);
  }

  method OtherBrokers(brokers: seq<string>, master: string) returns (replicas: seq<string>)
    ensures replicas == Others(brokers, master)
  {
    replicas := [];
    for i := 0 to |brokers|
      invariant replicas == Others(brokers[..i], master)
    {
      assert brokers[..i + 1][..i] == brokers[..i];
      if brokers[i] == master { continue; }
      replicas := replicas + [brokers[i]];
    }
    assert brokers[..|brokers|] == brokers;
  }

  // ---------- Telling the brokers ----------

  type Configs = map<string, seq<string>>

  /** What a broker says when asked. */
  function ListOf(configs: Configs, address: string): seq<string>
  {
    if address in configs then configs[address] else []
  }

  /** The master and the first n of the replicas have been told. */
  ghost predicate ToldSome(before: Configs, after: Configs, master: string, replicas: seq<string>, n: nat)
    requires n <= |replicas|
  {
    forall a :: ListOf(after, a) == if a == master then replicas else if a in replicas[..n] then [] else ListOf(before, a)
  }

  lemma TellOne(before: Configs, mid: Configs, master: string, replicas: seq<string>, i: nat)
    requires i < |replicas| && master !in replicas && ToldSome(before, mid, master, replicas, i)
    ensures ToldSome(before, mid[replicas[i] := []], master, replicas, i + 1)
  {
    var after := mid[replicas[i] := []];
    assert replicas[..i + 1] == replicas[..i] + [replicas[i]];
    forall a ensures ListOf(after, a) == if a == master then replicas else if a in replicas[..i + 1] then [] else ListOf(before, a) {
      assert ListOf(mid, a) == if a == master then replicas else if a in replicas[..i] then [] else ListOf(before, a);
      if a == replicas[i] { assert a in replicas; }
    }
  }

  lemma ToldPartly(before: Configs, after: Configs, master: string, replicas: seq<string>, n: nat)
    requires n <= |replicas| && ToldSome(before, after, master, replicas, n)
    ensures forall a :: ListOf(after, a) == ListOf(before, a) || ListOf(after, a) == Told(before, master, replicas, a)
    ensures n == |replicas| ==> forall a :: ListOf(after, a) == Told(before, master, replicas, a)
  {
    forall a ensures ListOf(after, a) == ListOf(before, a) || ListOf(after, a) == Told(before, master, replicas, a) {
      assert ListOf(after, a) == if a == master then replicas else if a in replicas[..n] then [] else ListOf(before, a);
      assert a in replicas[..n] ==> a in replicas;
    }
    assert replicas[..|replicas|] == replicas;
  }

  class Fleet {
    var configs: Configs

    /** A successful PUT sets the list; a failed one may have done so too. */
    method PutReplicas(address: string, list: seq<string>) returns (err: Err)
      modifies this
      ensures err == Nil ==> configs == old(configs)[address := list]
      ensures configs == old(configs) || configs == old(configs)[address := list]
    {
      err := *;
      var carriedOut: bool := *;
      if err == Nil || carriedOut { configs := configs[address := list]; }
    }

    /** A round of the operator: the master is chosen, shown, and told to the brokers by both
        reconcileMeta of the pass, as far as it gets. */
    method AnnounceMaster(hostnames: seq<string>, cr: Identity, status: StatusObject, lists: ReplicaLists, epochs: Epochs)
      returns (err: Err, ghost round: Round)
      requires Distinct(hostnames) && Truthful(lists, configs)
      modifies this, status
      ensures configs == old(configs) || (IsRound(old(configs), round) && configs == round.after)
      ensures round.lists == lists && |round.addresses| == |hostnames|
      ensures forall i :: 0 <= i < |hostnames| ==> round.addresses[i] == GenBrokerAddress(hostnames[i], cr)
      ensures err == Nil ==> IsRound(old(configs), round) && configs == round.after && status.masterBrokerAddress == round.master
      ensures err == Nil ==> forall a :: ListOf(configs, a) == Told(old(configs), round.master, Others(round.addresses, round.master), a)
    {
      var master, replicas;
      ghost var addresses;
      err, master, replicas, addresses := ReconcileMaster(hostnames, cr, status, lists, epochs);
      round := Round(addresses, lists, epochs, master, configs);
      if err != Nil { return; }
      err := SetBrokerReplicasTwice(master, replicas);
      round := round.(after := configs);
    }

    method SetBrokerReplicasTwice(master: string, replicas: seq<string>) returns (err: Err)
      requires master !in replicas
      modifies this
      ensures err == Nil ==> forall a :: ListOf(configs, a) == Told(old(configs), master, replicas, a)
      ensures forall a :: ListOf(configs, a) == ListOf(old(configs), a) || ListOf(configs, a) == Told(old(configs), master, replicas, a)
    {
      err := SetBrokerReplicas(master, replicas);
      if err == Nil { err := SetBrokerReplicas(master, replicas); }
    }

    /** setBrokerReplicas: the master gets all others as replicas, each of them an empty list. A
        failure on the way leaves every broker with its old list or its new one. */
    method SetBrokerReplicas(master: string, replicas: seq<string>) returns (err: Err)
      requires master !in replicas
      modifies this
      ensures err == Nil ==> forall a :: ListOf(configs, a) == Told(old(configs), master, replicas, a)
      ensures forall a :: ListOf(configs, a) == ListOf(old(configs), a) || ListOf(configs, a) == Told(old(configs), master, replicas, a)
    {
      ghost var before := configs;
      err := PutReplicas(master, replicas);
      if err != Nil { return; }
      for i := 0 to |replicas|
        invariant ToldSome(before, configs, master, replicas, i)
      {
        TellOne(before, configs, master, replicas, i);
        ghost var was := configs;
        err := PutReplicas(replicas[i], []);
        if err != Nil {
          if configs == was { ToldPartly(before, configs, master, replicas, i); } else { ToldPartly(before, configs, master, replicas, i + 1); }
          return;
        }
      }
      ToldPartly(before, configs, master, replicas, |replicas|);
      assert replicas[..|replicas|] == replicas;
    }
  }

  function Told(configs: Configs, master: string, replicas: seq<string>, a: string): seq<string>
  {
    if a == master then replicas else if a in replicas then [] else ListOf(configs, a)
  }

  // ---------- One master, and it stays ----------

  /** The answers are true where there are any. */
  ghost predicate Truthful(lists: ReplicaLists, configs: Configs)
  {
    forall a :: lists(a).Some? ==> lists(a).value == ListOf(configs, a)
  }

  /** After a successful setBrokerReplicas over at least two brokers, exactly one has replicas. */
  lemma MasterIsUnique(before: Configs, after: Configs, addresses: seq<string>, master: string, a: string)
    requires Distinct(addresses) && |addresses| >= 2 && master in addresses
    requires forall x :: ListOf(after, x) == Told(before, master, Others(addresses, master), x)
    requires a in addresses
    ensures ListOf(after, a) != [] <==> a == master
  {
    var i :| 0 <= i < |addresses| && addresses[i] == master;
    var other := addresses[if i == 0 then 1 else 0];
    assert other in Others(addresses, master);
  }

  lemma {:induction false} MastersAre(addresses: seq<string>, lists: ReplicaLists, master: string)
    requires Distinct(addresses) && IsMaster(lists, master)
    requires forall a :: a in addresses && a != master ==> !IsMaster(lists, a)
    ensures MastersOf(addresses, lists) == if master in addresses then [master] else []
  {
    if addresses != [] {
      var n := |addresses| - 1;
      MastersAre(addresses[..n], lists, master);
      assert addresses == addresses[..n] + [addresses[n]];
    }
  }

  /** From then on every choice among brokers that include the master, and reach it, falls on it
      again, whoever else answers and whatever the epochs are. */
  lemma MasterIsStable(before: Configs, after: Configs, addresses: seq<string>, master: string, later: seq<string>, lists: ReplicaLists)
    requires Distinct(addresses) && |addresses| >= 2 && master in addresses
    requires forall x :: ListOf(after, x) == Told(before, master, Others(addresses, master), x)
    requires Distinct(later) && master in later && forall a :: a in later ==> a in addresses
    requires Truthful(lists, after) && lists(master).Some?
    ensures MastersOf(later, lists) == [master]
  {
    forall a | a in addresses ensures ListOf(after, a) != [] <==> a == master {
      MasterIsUnique(before, after, addresses, master, a);
    }
    MastersAre(later, lists, master);
  }

  // ---------- Through any number of rounds ----------

  /** One round of the operator: whom it asked, what it was told, whom it took for the master, and
      what the brokers then hold. */
  datatype Round = Round(addresses: seq<string>, lists: ReplicaLists, epochs: Epochs, master: string, after: Configs)

  /** Every broker has its old list, or the one that the chosen master gives it. */
  ghost predicate IsRound(before: Configs, r: Round)
  {
    && Distinct(r.addresses) && Truthful(r.lists, before) && Chosen(r.addresses, r.lists, r.epochs, r.master)
    && forall a :: ListOf(r.after, a) == ListOf(before, a) || ListOf(r.after, a) == Told(before, r.master, Others(r.addresses, r.master), a)
  }

  /** Exactly the master has replicas. */
  ghost predicate Leads(configs: Configs, brokers: set<string>, master: string)
  {
    master in brokers && forall a :: a in brokers ==> (ListOf(configs, a) != [] <==> a == master)
  }

  /** The round asks brokers only, and the master among them, which answers. */
  predicate Reaches(r: Round, brokers: set<string>, master: string)
  {
    (forall a :: a in r.addresses ==> a in brokers) && master in r.addresses && r.lists(master).Some?
  }

  /** A round that goes through over at least two brokers makes its choice the master. */
  lemma RoundMakesMaster(before: Configs, r: Round)
    requires IsRound(before, r) && |r.addresses| >= 2 && r.master in r.addresses
    requires forall a :: ListOf(r.after, a) == Told(before, r.master, Others(r.addresses, r.master), a)
    ensures Leads(r.after, (set a | a in r.addresses), r.master)
  {
    forall a | a in r.addresses ensures ListOf(r.after, a) != [] <==> a == r.master {
      MasterIsUnique(before, r.after, r.addresses, r.master, a);
    }
  }

  lemma LeaderIsChosen(before: Configs, r: Round, brokers: set<string>, master: string)
    requires Leads(before, brokers, master) && IsRound(before, r) && Reaches(r, brokers, master)
    ensures r.master == master
  {
    MastersAre(r.addresses, r.lists, master);
  }

  lemma OthersExist(addresses: seq<string>, master: string)
    requires Distinct(addresses) && master in addresses
    ensures Others(addresses, master) == [] <==> |addresses| == 1
  {
    var i :| 0 <= i < |addresses| && addresses[i] == master;
    if |addresses| > 1 {
      var other := addresses[if i == 0 then 1 else 0];
      assert other in Others(addresses, master);
    }
    if Others(addresses, master) != [] { assert Others(addresses, master)[0] in addresses; }
  }

  /** However far a round over at least two brokers gets, the master stays. */
  lemma RoundKeepsMaster(before: Configs, r: Round, brokers: set<string>, master: string)
    requires Leads(before, brokers, master) && IsRound(before, r) && Reaches(r, brokers, master) && |r.addresses| >= 2
    ensures r.master == master && Leads(r.after, brokers, master)
  {
    LeaderIsChosen(before, r, brokers, master);
    OthersExist(r.addresses, master);
  }

  /** A round that goes through over the master alone leaves no broker with replicas; over more it
      keeps the master. */
  lemma MasterSurvivesExactly(before: Configs, r: Round, brokers: set<string>, master: string)
    requires Leads(before, brokers, master) && IsRound(before, r) && Reaches(r, brokers, master)
    requires forall a :: ListOf(r.after, a) == Told(before, r.master, Others(r.addresses, r.master), a)
    ensures Leads(r.after, brokers, master) <==> |r.addresses| >= 2
    ensures |r.addresses| == 1 ==> forall a :: a in brokers ==> ListOf(r.after, a) == []
  {
    LeaderIsChosen(before, r, brokers, master);
    OthersExist(r.addresses, master);
  }

  /** What the brokers hold in the end. */
  function After(start: Configs, rounds: seq<Round>): Configs
  {
    if rounds == [] then start else rounds[|rounds| - 1].after
  }

  ghost predicate AreRounds(start: Configs, rounds: seq<Round>)
  {
    rounds != [] ==> var n := |rounds| - 1; AreRounds(start, rounds[..n]) && IsRound(After(start, rounds[..n]), rounds[n])
  }

  /** The round asks at least two brokers, all of them known, the master among them and reached. */
  predicate GoodRound(r: Round, brokers: set<string>, master: string) { Reaches(r, brokers, master) && |r.addresses| >= 2 }

  /** Through any number of rounds, each over at least two brokers with the master among them and
      reached, whatever fails and whoever else answers what, the same master stays. */
  lemma {:induction false} MasterStays(start: Configs, rounds: seq<Round>, brokers: set<string>, master: string)
    requires Leads(start, brokers, master) && AreRounds(start, rounds)
    requires forall r: Round :: r in rounds ==> GoodRound(r, brokers, master)
    ensures Leads(After(start, rounds), brokers, master)
    ensures forall r: Round :: r in rounds ==> r.master == master
    decreases |rounds|
  {
    if rounds != [] {
      var n := |rounds| - 1;
      MasterStays(start, rounds[..n], brokers, master);
      assert rounds[n] in rounds && rounds == rounds[..n] + [rounds[n]];
      RoundKeepsMaster(After(start, rounds[..n]), rounds[n], brokers, master);
    }
  }

  /** A single endpoint is enough for a pass to go on. A round over the master alone, and then one
      over both brokers, may end with the other one as master although the first was always reached. */
  lemma LoneMasterIsLost(first: string, second: string)
    requires first != second
    ensures Leads(map[first := [second]], {first, second}, first)
    ensures exists rounds: seq<Round> ::
      && |rounds| == 2 && AreRounds(map[first := [second]], rounds)
      && Reaches(rounds[0], {first, second}, first) && Reaches(rounds[1], {first, second}, first)
      && rounds[0].master == first && rounds[1].master == second
  {
    var start: Configs := map[first := [second]];
    var epochs: Epochs := (a: string) => Some(if a == second then 1 else 0);
    var one := Round([first], (a: string) => Some(ListOf(start, a)), epochs, first, map[first := []]);
    var two := Round([first, second], (a: string) => Some(ListOf(one.after, a)), epochs, second, one.after);
    LoneRound(start, one, first, second);
    SecondRound(two, first, second);
    AnotherRound(start, [], one);
    AnotherRound(start, [one], two);
    assert [] + [one] == [one] && [one] + [two] == [one, two];
  }

  lemma AnotherRound(start: Configs, rounds: seq<Round>, r: Round)
    requires AreRounds(start, rounds) && IsRound(After(start, rounds), r)
    ensures AreRounds(start, rounds + [r]) && After(start, rounds + [r]) == r.after
  {
    assert (rounds + [r])[..|rounds|] == rounds;
  }

  lemma LoneRound(start: Configs, one: Round, first: string, second: string)
    requires first != second && start == map[first := [second]] && one.addresses == [first] && one.master == first && one.after == map[first := []]
    requires forall a :: one.lists(a) == Some(ListOf(start, a))
    ensures IsRound(start, one)
  {
    MastersAre([first], one.lists, first);
    OthersExist([first], first);
    assert Chosen(one.addresses, one.lists, one.epochs, one.master);
    assert Truthful(one.lists, start);
    forall a ensures ListOf(one.after, a) == Told(start, first, Others([first], first), a) {
      if a != first { assert a !in Others([first], first); }
    }
  }

  lemma SecondRound(two: Round, first: string, second: string)
    requires first != second && two.addresses == [first, second] && two.master == second && two.after == map[first := []]
    requires forall a :: two.lists(a) == Some([]) && two.epochs(a) == Some(if a == second then 1 else 0)
    ensures IsRound(map[first := []], two)
  {
    NoMasters(two.addresses, two.lists);
    assert HighestAt(two.addresses, two.epochs, 1);
  }

  lemma {:induction false} NoMasters(addresses: seq<string>, lists: ReplicaLists)
    requires forall a :: a in addresses ==> !IsMaster(lists, a)
    ensures MastersOf(addresses, lists) == []
  {
    if addresses != [] { NoMasters(addresses[..|addresses| - 1], lists); }
  }
}
