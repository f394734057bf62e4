/**
 Names of pods, addresses and brokers' storage: how they are printed and how they are read back.

 The operator and the scheduler exchange pod ordinals only through names, and the broker names
 the ConfigMap it wants through "name@namespace".
 */
module Names {
  import opened Common
  import opened Text

  const BROKER_PORT := 7799

  function StorageStatefulSetName(undermoonName: string): string { undermoonName + "-stg-ss" }

  function StorageServiceName(undermoonName: string): string { undermoonName + "-stg-svc" }

  function StorageStatefulSetPodName(undermoonName: string, index: int): string
  {
    StorageStatefulSetName(undermoonName) + "-" + FormatInt(index)
  }

  /** What follows the last dash; the whole name when it has none. */
  function AfterLastDash(name: string): string { name[LastIndexOf(name, '-') + 1..] }

  /** The scheduler's reading of an ordinal. */
  function GetPodIndex(podName: string): Option<int> { Atoi(AfterLastDash(podName)) }

  /** The operator's reading of an ordinal: a parse error is logged and the value used anyway. */
  function HostnameIndex(hostname: string): int { ParseInt(AfterLastDash(hostname)).value }

  lemma AfterDashIsDecimal(prefix: string, n: nat)
    ensures AfterLastDash(prefix + "-" + Decimal(n)) == Decimal(n)
  {
    var s := prefix + "-" + Decimal(n);
    assert s[|prefix| + 1..] == Decimal(n);
    var last := LastIndexOf(s, '-');
    assert s[|prefix|] == '-' && forall k :: |prefix| < k < |s| ==> IsDigit(s[k]);
  }

  lemma PodNameTail(undermoonName: string, index: int)
    ensures AfterLastDash(StorageStatefulSetPodName(undermoonName, index)) == Decimal(if index < 0 then -index else index)
  {
    if index < 0 { MinusIsADash(StorageStatefulSetName(undermoonName) + "-", -index); } else { AfterDashIsDecimal(StorageStatefulSetName(undermoonName), index); }
  }

  lemma MinusIsADash(prefix: string, n: nat)
    ensures AfterLastDash(prefix + ("-" + Decimal(n))) == Decimal(n)
  {
    AfterDashIsDecimal(prefix, n);
    assert prefix + ("-" + Decimal(n)) == prefix + "-" + Decimal(n);
  }

  /** Both readers recover the ordinal of every pod name; a negative number, which no StatefulSet
      hands out, would lose its sign to the dash, and one beyond 64 bits is refused. */
  lemma PodIndexRoundTrip(undermoonName: string, index: int)
    ensures GetPodIndex(StorageStatefulSetPodName(undermoonName, index)) == Some(index) <==> 0 <= index <= MAX_INT
    ensures HostnameIndex(StorageStatefulSetPodName(undermoonName, index)) == index <==> 0 <= index <= MAX_INT
  {
    PodNameTail(undermoonName, index);
    ParseUndoesFormat(if index < 0 then -index else index);
  }

  /** The text stands behind the last dash of the name, or is the whole name if it has none. */
  ghost predicate EndsWith(name: string, tail: string)
  {
    '-' !in tail && (name == tail || exists d :: BehindDash(name, d, tail))
  }

  ghost predicate BehindDash(name: string, d: nat, tail: string)
  {
    d < |name| && name[d] == '-' && name[d + 1..] == tail
  }

  lemma SuffixHas(name: string, d: nat, k: nat)
    requires d < k < |name|
    ensures name[k] in name[d + 1..]
  {
    assert name[d + 1..][k - d - 1] == name[k];
  }

  lemma LastDashIs(name: string, d: nat)
    requires d < |name| && name[d] == '-' && '-' !in name[d + 1..]
    ensures LastIndexOf(name, '-') == d
  {
    forall k | d < k < |name| ensures name[k] != '-' { SuffixHas(name, d, k); }
  }

  lemma NoDashAfter(name: string, i: int)
    requires -1 <= i < |name| && forall k :: i < k < |name| ==> name[k] != '-'
    ensures '-' !in name[i + 1..]
  {
  }

  lemma EndsBehind(name: string, i: int, tail: string)
    requires -1 <= i < |name| && (forall k :: i < k < |name| ==> name[k] != '-') && (i >= 0 ==> name[i] == '-')
    requires tail == name[i + 1..]
    ensures EndsWith(name, tail)
  {
    NoDashAfter(name, i);
    if i < 0 { assert tail == name; } else { assert BehindDash(name, i, tail); }
  }

  lemma AfterLastDashAt(name: string, i: int)
    requires i == LastIndexOf(name, '-')
    ensures AfterLastDash(name) == name[i + 1..] && (i >= 0 ==> name[i] == '-') && forall k :: i < k < |name| ==> name[k] != '-'
  {
  }

  lemma AfterLastDashEnds(name: string, i: int, tail: string)
    requires i == LastIndexOf(name, '-') && tail == AfterLastDash(name)
    ensures EndsWith(name, tail)
  {
    AfterLastDashAt(name, i);
    EndsBehind(name, i, tail);
  }

  lemma AfterLastDashExactly(name: string, tail: string)
    ensures AfterLastDash(name) == tail <==> EndsWith(name, tail)
  {
    AfterLastDashEnds(name, LastIndexOf(name, '-'), AfterLastDash(name));
    if EndsWith(name, tail) {
      if name == tail {
        assert LastIndexOf(name, '-') == -1 && name[0..] == name;
      } else {
        var d :| BehindDash(name, d, tail);
        LastDashIs(name, d);
      }
    }
  }

  /** The scheduler reads an ordinal exactly from names whose text behind the last dash is digits
      that stand for it, perhaps with a plus, and fit 64 bits. */
  lemma GetPodIndexExactly(name: string, tail: string, i: int)
    requires EndsWith(name, tail)
    ensures GetPodIndex(name) == Some(i) <==> Denotes(tail, i) && 0 <= i <= 0x7fff_ffff_ffff_ffff
  {
    AfterLastDashExactly(name, tail);
    ParseIntExactly(tail, i);
    if Denotes(tail, i) { assert tail[0] in tail; }
  }

  lemma PodNameInjective(undermoonName: string, i: int, j: int)
    requires StorageStatefulSetPodName(undermoonName, i) == StorageStatefulSetPodName(undermoonName, j)
    ensures i == j
  {
    var head := StorageStatefulSetName(undermoonName) + "-";
    assert (head + FormatInt(i))[|head|..] == FormatInt(i);
    assert (head + FormatInt(j))[|head|..] == FormatInt(j);
    FormatIntInjective(i, j);
  }

  // ---------- Addresses ----------

  /** The part of the custom resource that names are made of. */
  datatype Identity = Identity(name: string, namespace: string, port: nat)

  function GenStorageFQDN(podName: string, cr: Identity): string
  {
    podName + ("." + StorageServiceName(cr.name) + "." + cr.namespace + ".svc.cluster.local")
  }

  function WithPort(host: string, port: nat): string { host + ":" + Decimal(port) }

  function GenStorageAddress(podName: string, cr: Identity): string
  {
    WithPort(GenStorageFQDN(podName, cr), cr.port)
  }

  lemma AddressInjective(p: string, q: string, cr: Identity)
    requires GenStorageAddress(p, cr) == GenStorageAddress(q, cr)
    ensures p == q
  {
    var tail := "." + StorageServiceName(cr.name) + "." + cr.namespace + ".svc.cluster.local" + ":" + Decimal(cr.port);
    assert GenStorageAddress(p, cr) == p + tail && GenStorageAddress(q, cr) == q + tail;
    assert |p| == |q|;
    assert (p + tail)[..|p|] == p && (q + tail)[..|q|] == q;
  }

  function StorageAddress(cr: Identity, index: nat): string
  {
    GenStorageAddress(StorageStatefulSetPodName(cr.name, index), cr)
  }

  /** The address in full. */
  lemma StorageAddressForm(cr: Identity, index: nat)
    ensures StorageAddress(cr, index) ==
            (cr.name + "-stg-ss" + "-" + Decimal(index)) + ("." + (cr.name + "-stg-svc") + "." + cr.namespace + ".svc.cluster.local") + ":" + Decimal(cr.port)
  {
    assert FormatInt(index) == Decimal(index);
  }

  lemma StorageAddressInjective(cr: Identity, i: nat, j: nat)
    requires StorageAddress(cr, i) == StorageAddress(cr, j)
    ensures i == j
  {
    AddressInjective(StorageStatefulSetPodName(cr.name, i), StorageStatefulSetPodName(cr.name, j), cr);
    PodNameInjective(cr.name, i, j);
  }

  method GenStorageNames(undermoonName: string, replicas: nat) returns (names: seq<string>)
    ensures |names| == replicas
    ensures forall i :: 0 <= i < replicas ==> names[i] == StorageStatefulSetPodName(undermoonName, i)
  {
    names := [];
    var i := 0;
    while i != replicas
      invariant 0 <= i <= replicas && |names| == i
      invariant forall k :: 0 <= k < i ==> names[k] == StorageStatefulSetPodName(undermoonName, k)
    {
      names := names + [StorageStatefulSetPodName(undermoonName, i)];
      i := i + 1;
    }
  }

  ghost predicate Distinct(s: seq<string>)
  {
    forall i, j :: 0 <= i < j < |s| ==> s[i] != s[j]
  }

  /** One address for each of the two pods of every chunk, all different. */
  method GenStorageStatefulSetAddrs(cr: Identity, chunkNumber: nat) returns (addrs: seq<string>)
    ensures |addrs| == chunkNumber * 2
    ensures forall i :: 0 <= i < |addrs| ==> addrs[i] == StorageAddress(cr, i)
    ensures Distinct(addrs)
  {
    addrs := [];
    var names := GenStorageNames(cr.name, chunkNumber * CHUNK_SHARD_NUMBER);
    for i := 0 to |names|
      invariant |addrs| == i
      invariant forall k :: 0 <= k < i ==> addrs[k] == StorageAddress(cr, k)
    {
      addrs := addrs + [GenStorageAddress(names[i], cr)];
    }
    forall i, j | 0 <= i < j < |addrs| ensures addrs[i] != addrs[j] {
      if addrs[i] == addrs[j] { StorageAddressInjective(cr, i, j); }
    }
  }

  // ---------- Storage names ----------

  datatype StorageName = StorageName(undermoonName: string, namespace: string)

  function BrokerStorageName(n: StorageName): string { n.undermoonName + "@" + n.namespace }

  /** Splits at the first '@' and refuses an empty half. */
  function ExtractStorageName(name: string): Option<StorageName>
  {
    var at := IndexOf(name, '@');
    if at < 0 then None
    else if name[..at] == "" || name[at + 1..] == "" then None
    else Some(StorageName(name[..at], name[at + 1..]))
  }

  /** The reader returns what the printer was given exactly when both parts are there and the
      first has no '@'; the namespace may have as many as it likes. */
  lemma ExtractUndoesStorageName(n: StorageName)
    ensures ExtractStorageName(BrokerStorageName(n)) == Some(n)
            <==> n.undermoonName != "" && n.namespace != "" && '@' !in n.undermoonName
  {
    var s := BrokerStorageName(n);
    var k := |n.undermoonName|;
    assert s[..k] == n.undermoonName && s[k] == '@' && s[k + 1..] == n.namespace;
    assert forall i :: 0 <= i < k ==> s[i] == n.undermoonName[i];
    var at := IndexOf(s, '@');
    if '@' !in n.undermoonName { assert at == k; } else { assert at < k; }
  }

  /** Nothing else is accepted: every name that parses is a printed one. */
  lemma StorageNameUndoesExtract(name: string)
    requires ExtractStorageName(name).Some?
    ensures BrokerStorageName(ExtractStorageName(name).value) == name
    ensures '@' !in ExtractStorageName(name).value.undermoonName
  {
    var at := IndexOf(name, '@');
    assert name == name[..at] + [name[at]] + name[at + 1..];
  }
}
