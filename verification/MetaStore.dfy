/**
 The broker metadata store: brokers keep their metadata in one ConfigMap through the operator's
 HTTP service. A request reads the ConfigMap, which may come stale from a cache, compares
 versions, and writes it back; the API server accepts a write only against the newest version.
 Any number of requests may be under way at once, and the ConfigMap may also be touched by others.
 */
module MetaStore {
  import opened Common

  type Store = map<string, string>

  datatype Writer = Creation | Other | Request(id: nat)

  /** One version of the ConfigMap. The encoding of the data is taken to be lossless. */
  datatype Revision = Revision(version: nat, data: Option<Store>, writer: Writer)

  datatype Result = Success | Conflict | Error

  /** How far a request has come: which version it will insist on, and which revision it has read. */
  datatype Phase = Received | Pinned(version: nat) | Loaded(revision: nat) | Done(result: Result)

  /** `version` is None for the empty version of a first write. */
  datatype Put = Put(version: Option<nat>, store: Store, phase: Phase)

  datatype State = State(history: seq<Revision>, puts: seq<Put>)

  datatype Reply = Ok | Fail | Lost | Read(revision: nat)

  datatype Action =
    | Arrive(named: Option<nat>, store: Store)
    | Touch(version: nat)
    | Advance(id: nat, reply: Reply, version: nat)

  predicate Fresh(h: seq<Revision>, version: nat)
  {
    forall k :: 0 <= k < |h| ==> h[k].version != version
  }

  function SetPhase(s: State, id: nat, phase: Phase): State
    requires id < |s.puts|
  {
    s.(puts := s.puts[id := s.puts[id].(phase := phase)])
  }

  function Finish(s: State, id: nat, result: Result): State
    requires id < |s.puts|
  {
    SetPhase(s, id, Done(result))
  }

  /** initExternalStore reads the store first; a versioned write goes straight to the comparison. */
  function StepReceived(s: State, id: nat, reply: Reply): State
    requires id < |s.puts|
  {
    var put := s.puts[id];
    if put.version.Some? then SetPhase(s, id, Pinned(put.version.value))
    else if !reply.Read? || reply.revision >= |s.history| then Finish(s, id, Error)
    else
      var seen := s.history[reply.revision];
      if seen.data.None? then Finish(s, id, Error)
      else if seen.data.value != map[] then Finish(s, id, Success)
      else SetPhase(s, id, Pinned(seen.version))
  }

  /** updateExternalStore reads the ConfigMap and compares its version. */
  function StepPinned(s: State, id: nat, reply: Reply): State
    requires id < |s.puts| && s.puts[id].phase.Pinned?
  {
    if !reply.Read? || reply.revision >= |s.history| then Finish(s, id, Error)
    else if s.history[reply.revision].version != s.puts[id].phase.version then Finish(s, id, Conflict)
    else SetPhase(s, id, Loaded(reply.revision))
  }

  /** The API server compares once more and writes. */
  function StepLoaded(s: State, id: nat, reply: Reply, version: nat): State
    requires id < |s.puts| && s.puts[id].phase.Loaded?
  {
    if !Fresh(s.history, version) || reply.Fail? then Finish(s, id, Error)
    else if s.puts[id].phase.revision + 1 != |s.history| then Finish(s, id, Conflict)
    else
      var written := s.(history := s.history + [Revision(version, Some(s.puts[id].store), Request(id))]);
      Finish(written, id, if reply.Ok? then Success else Error)
  }

  function Step(s: State, a: Action): State
  {
    match a
    case Arrive(named, store) => s.(puts := s.puts + [Put(named, store, Received)])
    case Touch(version) =>
      if |s.history| > 0 && Fresh(s.history, version)
      then s.(history := s.history + [Revision(version, s.history[|s.history| - 1].data, Other)])
      else s
    case Advance(id, reply, version) =>
      if id >= |s.puts| then s
      else match s.puts[id].phase
        case Received => StepReceived(s, id, reply)
        case Pinned(_) => StepPinned(s, id, reply)
        case Loaded(_) => StepLoaded(s, id, reply, version)
        case Done(_) => s
  }

  /** A step of the ConfigMap or of one request leaves the other requests alone and the past as it was. */
  lemma StepIsLocal(s: State, a: Action, id: nat)
    requires id < |s.puts| && !(a.Advance? && a.id == id)
    ensures var t := Step(s, a); id < |t.puts| && t.puts[id] == s.puts[id] && |s.puts| <= |t.puts| && s.history <= t.history
  {
  }

  function Exec(s: State, run: seq<Action>): State
    decreases |run|
  {
    if run == [] then s else Step(Exec(s, run[..|run| - 1]), run[|run| - 1])
  }

  /** createMeta has stored the empty map; no request has arrived. */
  predicate Initial(s: State)
  {
    s.puts == [] && |s.history| == 1 && s.history[0].data == Some(map[]) && s.history[0].writer == Creation
  }

  // ---------- What always holds ----------

  /** One linear chain: every version is there once, and the write at k replaced exactly the
      revision its request insisted on, the store its request brought being written. */
  predicate WriteReplaces(s: State, k: nat)
    requires k < |s.history|
  {
    s.history[k].writer.Request? ==>
      var id := s.history[k].writer.id;
      && k > 0 && id < |s.puts| && s.puts[id].phase.Done?
      && s.history[k].data == Some(s.puts[id].store)
      && (match s.puts[id].version
          case Some(v) => s.history[k - 1].version == v
          case None => s.history[k - 1].data == Some(map[]))
  }

  predicate DistinctVersions(s: State)
  {
    forall i, j :: 0 <= i < j < |s.history| ==> s.history[i].version != s.history[j].version
  }

  predicate WritesOnce(s: State)
  {
    forall i, j :: 0 <= i < j < |s.history| && s.history[i].writer.Request? ==> s.history[i].writer != s.history[j].writer
  }

  predicate WrittenBy(s: State, id: nat)
  {
    exists k :: 0 <= k < |s.history| && s.history[k].writer == Request(id)
  }

  /** The version a request insists on is the one it named, or one whose data was empty. */
  predicate Insists(s: State, id: nat, version: nat)
    requires id < |s.puts|
  {
    match s.puts[id].version
    case Some(v) => version == v
    case None => forall k :: 0 <= k < |s.history| && s.history[k].version == version ==> s.history[k].data == Some(map[])
  }

  predicate PutInv(s: State, id: nat)
    requires id < |s.puts|
  {
    match s.puts[id].phase
    case Received => !WrittenBy(s, id)
    case Pinned(v) => !WrittenBy(s, id) && Insists(s, id, v) && (s.puts[id].version.None? ==> exists k :: 0 <= k < |s.history| && s.history[k].version == v)
    case Loaded(i) => !WrittenBy(s, id) && i < |s.history| && Insists(s, id, s.history[i].version)
    case Done(Success) => WrittenBy(s, id) || (s.puts[id].version.None? && exists k :: 0 <= k < |s.history| && NotEmpty(s.history[k]))
    case Done(Conflict) => !WrittenBy(s, id)
    case Done(Error) => true
  }

  predicate NotEmpty(r: Revision) { r.data.Some? && r.data.value != map[] }

  predicate Inv(s: State)
  {
    && |s.history| > 0
    && DistinctVersions(s)
    && WritesOnce(s)
    && (forall k :: 0 <= k < |s.history| ==> WriteReplaces(s, k))
    && (forall id :: 0 <= id < |s.puts| ==> PutInv(s, id))
  }

  lemma ArriveKeepsInv(s: State, a: Action)
    requires Inv(s) && a.Arrive?
    ensures Inv(Step(s, a))
  {
    var t := Step(s, a);
    assert t.history == s.history;
    forall id | 0 <= id < |t.puts| ensures PutInv(t, id) {
      if id < |s.puts| {
        assert t.puts[id] == s.puts[id] && PutInv(s, id);
      } else {
        forall k | 0 <= k < |s.history| ensures s.history[k].writer != Request(id) {
          assert WriteReplaces(s, k);
        }
      }
    }
    forall k | 0 <= k < |t.history| ensures WriteReplaces(t, k) {
      assert WriteReplaces(s, k);
    }
  }

  /** A new revision at the end disturbs nothing that was known of the others. */
  lemma AppendKeepsPuts(s: State, r: Revision, id: nat)
    requires Inv(s) && id < |s.puts| && Fresh(s.history, r.version) && r.writer != Request(id)
    ensures PutInv(s.(history := s.history + [r]), id)
  {
    var t := s.(history := s.history + [r]);
    assert PutInv(s, id);
    forall k | 0 <= k < |s.history| ensures t.history[k] == s.history[k] {}
    if WrittenBy(s, id) {
      var k :| 0 <= k < |s.history| && s.history[k].writer == Request(id);
      assert t.history[k].writer == Request(id);
    }
    if exists k :: 0 <= k < |s.history| && NotEmpty(s.history[k]) {
      var k :| 0 <= k < |s.history| && NotEmpty(s.history[k]);
      assert NotEmpty(t.history[k]);
    }
  }

  lemma AppendKeepsHistory(s: State, r: Revision)
    requires Inv(s) && Fresh(s.history, r.version)
    requires r.writer.Request? ==> !WrittenBy(s, r.writer.id)
    ensures var t := s.(history := s.history + [r]);
      DistinctVersions(t) && WritesOnce(t) && forall k :: 0 <= k < |s.history| ==> WriteReplaces(t, k)
  {
    var t := s.(history := s.history + [r]);
    forall k | 0 <= k < |s.history| ensures WriteReplaces(t, k) {
      assert WriteReplaces(s, k);
    }
  }

  lemma TouchKeepsInv(s: State, a: Action)
    requires Inv(s) && a.Touch?
    ensures Inv(Step(s, a))
  {
    if Fresh(s.history, a.version) {
      var r := Revision(a.version, s.history[|s.history| - 1].data, Other);
      AppendKeepsHistory(s, r);
      forall id | 0 <= id < |s.puts| ensures PutInv(Step(s, a), id) {
        AppendKeepsPuts(s, r, id);
      }
    }
  }

  /** Moving one request on, when nothing is written, leaves the others as they were. */
  lemma PhaseKeepsInv(s: State, id: nat, phase: Phase)
    requires Inv(s) && id < |s.puts| && !s.puts[id].phase.Done?
    requires PutInv(SetPhase(s, id, phase), id)
    ensures Inv(SetPhase(s, id, phase))
  {
    var t := SetPhase(s, id, phase);
    forall k | 0 <= k < |t.history| ensures WriteReplaces(t, k) {
      assert WriteReplaces(s, k);
    }
    forall j | 0 <= j < |t.puts| ensures PutInv(t, j) {
      if j != id { assert PutInv(s, j) && t.puts[j] == s.puts[j]; }
    }
  }

  lemma ReceivedKeepsInv(s: State, id: nat, reply: Reply)
    requires Inv(s) && id < |s.puts| && s.puts[id].phase.Received?
    ensures Inv(StepReceived(s, id, reply))
  {
    assert PutInv(s, id);
    var t := StepReceived(s, id, reply);
    if reply.Read? && reply.revision < |s.history| {
      var seen := s.history[reply.revision];
      forall k | 0 <= k < |s.history| && s.history[k].version == seen.version ensures k == reply.revision {}
      if seen.data.Some? && seen.data.value != map[] { assert NotEmpty(t.history[reply.revision]); }
    }
    PhaseKeepsInv(s, id, t.puts[id].phase);
  }

  lemma PinnedKeepsInv(s: State, id: nat, reply: Reply)
    requires Inv(s) && id < |s.puts| && s.puts[id].phase.Pinned?
    ensures Inv(StepPinned(s, id, reply))
  {
    assert PutInv(s, id);
    PhaseKeepsInv(s, id, StepPinned(s, id, reply).puts[id].phase);
  }

  lemma WriteKeepsInv(s: State, id: nat, version: nat, result: Result)
    requires Inv(s) && id < |s.puts| && s.puts[id].phase == Loaded(|s.history| - 1)
    requires Fresh(s.history, version) && result != Conflict
    ensures Inv(Finish(s.(history := s.history + [Revision(version, Some(s.puts[id].store), Request(id))]), id, result))
  {
    var r := Revision(version, Some(s.puts[id].store), Request(id));
    var n := |s.history|;
    assert PutInv(s, id);
    AppendKeepsHistory(s, r);
    var t := Finish(s.(history := s.history + [r]), id, result);
    forall k | 0 <= k <= n ensures WriteReplaces(t, k) {
      if k < n { assert WriteReplaces(s, k); }
    }
    forall j | 0 <= j < |t.puts| ensures PutInv(t, j) {
      if j == id {
        assert t.history[n].writer == Request(id);
      } else {
        AppendKeepsPuts(s, r, j);
        assert PutInv(s.(history := s.history + [r]), j);
      }
    }
  }

  lemma LoadedKeepsInv(s: State, id: nat, reply: Reply, version: nat)
    requires Inv(s) && id < |s.puts| && s.puts[id].phase.Loaded?
    ensures Inv(StepLoaded(s, id, reply, version))
  {
    assert PutInv(s, id);
    if !Fresh(s.history, version) || reply.Fail? || s.puts[id].phase.revision + 1 != |s.history| {
      PhaseKeepsInv(s, id, StepLoaded(s, id, reply, version).puts[id].phase);
    } else {
      WriteKeepsInv(s, id, version, if reply.Ok? then Success else Error);
    }
  }

  lemma StepKeepsInv(s: State, a: Action)
    requires Inv(s)
    ensures Inv(Step(s, a))
  {
    match a
    case Arrive(_, _) => ArriveKeepsInv(s, a);
    case Touch(_) => TouchKeepsInv(s, a);
    case Advance(id, reply, version) =>
      if id < |s.puts| {
        match s.puts[id].phase
        case Received => ReceivedKeepsInv(s, id, reply);
        case Pinned(_) => PinnedKeepsInv(s, id, reply);
        case Loaded(_) => LoadedKeepsInv(s, id, reply, version);
        case Done(_) =>
      }
  }

  lemma {:induction false} RunKeepsInv(s: State, run: seq<Action>)
    requires Initial(s)
    ensures Inv(Exec(s, run))
    decreases |run|
  {
    if run != [] {
      RunKeepsInv(s, run[..|run| - 1]);
      StepKeepsInv(Exec(s, run[..|run| - 1]), run[|run| - 1]);
    }
  }

  // ---------- Main results, over every interleaving ----------

  /** Every write by a request that named a version replaced exactly the revision of that version. */
  lemma NoLostUpdate(s: State, run: seq<Action>, k: nat)
    requires Initial(s)
    requires var t := Exec(s, run); k < |t.history| && t.history[k].writer.Request?
    ensures var t := Exec(s, run); var id := t.history[k].writer.id;
      && k > 0 && id < |t.puts| && t.history[k].data == Some(t.puts[id].store)
      && (t.puts[id].version.Some? ==> t.history[k - 1].version == t.puts[id].version.value)
  {
    RunKeepsInv(s, run);
    assert WriteReplaces(Exec(s, run), k);
  }

  /** No two writes ever replace the same version, whoever made them and however stale their reads. */
  lemma OneWritePerVersion(s: State, run: seq<Action>, i: nat, j: nat)
    requires Initial(s)
    requires var t := Exec(s, run); i < |t.history| && j < |t.history| && t.history[i].writer.Request? && t.history[j].writer.Request?
    ensures var t := Exec(s, run); t.history[i].writer.id < |t.puts| && t.history[j].writer.id < |t.puts|
    ensures var t := Exec(s, run);
      var v, w := t.puts[t.history[i].writer.id].version, t.puts[t.history[j].writer.id].version;
      v.Some? && v == w ==> i == j
  {
    NoLostUpdate(s, run, i);
    NoLostUpdate(s, run, j);
    RunKeepsInv(s, run);
  }

  /** What a versioned write is told is true: success means it was written, a conflict that it was not. */
  lemma ReportsAreTrue(s: State, run: seq<Action>, id: nat)
    requires Initial(s) && id < |Exec(s, run).puts|
    ensures var t := Exec(s, run); var put := t.puts[id];
      && (put.phase == Done(Success) && put.version.Some? ==> WrittenBy(t, id))
      && (put.phase == Done(Conflict) ==> !WrittenBy(t, id))
      && (!put.phase.Done? ==> !WrittenBy(t, id))
    ensures var t := Exec(s, run); var put := t.puts[id];
      put.phase == Done(Success) && put.version.None? && !WrittenBy(t, id) ==> exists k :: 0 <= k < |t.history| && NotEmpty(t.history[k])
  {
    RunKeepsInv(s, run);
    assert PutInv(Exec(s, run), id);
  }

  /** A write without a version only ever replaces an empty store. */
  lemma InitReplacesEmptyStore(s: State, run: seq<Action>, k: nat)
    requires Initial(s)
    requires var t := Exec(s, run); k < |t.history| && t.history[k].writer.Request?
    ensures var t := Exec(s, run); t.history[k].writer.id < |t.puts|
    ensures var t := Exec(s, run); t.puts[t.history[k].writer.id].version.None? ==> k > 0 && !NotEmpty(t.history[k - 1])
  {
    RunKeepsInv(s, run);
    assert WriteReplaces(Exec(s, run), k);
  }

  /** As long as brokers only store non-empty metadata under a version, a store that has once been
      filled stays filled and is never initialised again. */
  lemma {:induction false} InitialisedAtMostOnce(s: State, run: seq<Action>, i: nat, k: nat)
    requires Initial(s)
    requires var t := Exec(s, run); i < k < |t.history| && NotEmpty(t.history[i])
    requires var t := Exec(s, run); forall id :: 0 <= id < |t.puts| && t.puts[id].version.Some? ==> t.puts[id].store != map[]
    ensures var t := Exec(s, run); NotEmpty(t.history[k])
    ensures var t := Exec(s, run); t.history[k].writer.Request? ==> t.history[k].writer.id < |t.puts| && t.puts[t.history[k].writer.id].version.Some?
    decreases k
  {
    var t := Exec(s, run);
    RunKeepsInv(s, run);
    if k - 1 > i { InitialisedAtMostOnce(s, run, i, k - 1); }
    assert WriteReplaces(t, k);
    HistoryKinds(s, run, k);
  }

  /** A revision that no request wrote has the data of the one before. */
  lemma {:induction false} HistoryKinds(s: State, run: seq<Action>, k: nat)
    requires Initial(s) && 0 < k < |Exec(s, run).history|
    ensures var h := Exec(s, run).history; h[k].writer.Request? || h[k].data == h[k - 1].data
    decreases |run|
  {
    if run != [] {
      var before := Exec(s, run[..|run| - 1]);
      if k < |before.history| { HistoryKinds(s, run[..|run| - 1], k); }
    }
  }

  // ---------- What is refused, and what is not ----------

  /** Action j made the request end with a conflict for a reason: the revision it read had another
      version than the one it insisted on, or was no longer the newest when it wrote. */
  ghost predicate ConflictAt(s: State, run: seq<Action>, id: nat, j: nat)
    requires j < |run|
  {
    var b := Exec(s, run[..j]);
    && id < |b.puts| && run[j].Advance? && run[j].id == id
    && match b.puts[id].phase
       case Pinned(v) =>
         var reply := run[j].reply;
         reply.Read? && reply.revision < |b.history| && b.history[reply.revision].version != v
       case Loaded(k) => k + 1 < |b.history|
       case _ => false
  }

  /** Action j made it end with an error for a reason: a call failed, or the key had been deleted. */
  ghost predicate ErrorAt(s: State, run: seq<Action>, id: nat, j: nat)
    requires j < |run|
  {
    var b := Exec(s, run[..j]);
    && id < |b.puts| && run[j].Advance? && run[j].id == id
    && var reply := run[j].reply;
    match b.puts[id].phase
    case Loaded(_) => !reply.Ok? || !Fresh(b.history, run[j].version)
    case _ => !reply.Read? || reply.revision >= |b.history| || b.history[reply.revision].data.None?
  }

  lemma EndHasReason(s: State, run: seq<Action>, id: nat)
    requires run != [] && Inv(Exec(s, run[..|run| - 1])) && id < |Exec(s, run).puts| && Exec(s, run).puts[id].phase.Done?
    requires var b := Exec(s, run[..|run| - 1]); id < |b.puts| ==> b.puts[id].phase != Exec(s, run).puts[id].phase
    ensures Exec(s, run).puts[id].phase == Done(Conflict) ==> ConflictAt(s, run, id, |run| - 1)
    ensures Exec(s, run).puts[id].phase == Done(Error) ==> ErrorAt(s, run, id, |run| - 1)
  {
    var b := Exec(s, run[..|run| - 1]);
    assert id < |b.puts| ==> PutInv(b, id);
  }

  /** A conflict is reported only for a reason, in every run. */
  lemma {:induction false} ConflictHasReason(s: State, run: seq<Action>, id: nat)
    requires Initial(s) && id < |Exec(s, run).puts| && Exec(s, run).puts[id].phase == Done(Conflict)
    ensures exists j :: 0 <= j < |run| && ConflictAt(s, run, id, j)
    decreases |run|
  {
    var before := run[..|run| - 1];
    var b := Exec(s, before);
    if id < |b.puts| && b.puts[id].phase == Done(Conflict) {
      ConflictHasReason(s, before, id);
      var j :| 0 <= j < |before| && ConflictAt(s, before, id, j);
      assert before[..j] == run[..j];
      assert ConflictAt(s, run, id, j);
    } else {
      RunKeepsInv(s, before);
      EndHasReason(s, run, id);
    }
  }

  /** And an error only if a call has failed or the key is gone. */
  lemma {:induction false} ErrorHasReason(s: State, run: seq<Action>, id: nat)
    requires Initial(s) && id < |Exec(s, run).puts| && Exec(s, run).puts[id].phase == Done(Error)
    ensures exists j :: 0 <= j < |run| && ErrorAt(s, run, id, j)
    decreases |run|
  {
    var before := run[..|run| - 1];
    var b := Exec(s, before);
    if id < |b.puts| && b.puts[id].phase == Done(Error) {
      ErrorHasReason(s, before, id);
      var j :| 0 <= j < |before| && ErrorAt(s, before, id, j);
      assert before[..j] == run[..j];
      assert ErrorAt(s, run, id, j);
    } else {
      RunKeepsInv(s, before);
      EndHasReason(s, run, id);
    }
  }

  /** How many of the actions are the request's own. */
  function Own(run: seq<Action>, id: nat): nat
  {
    if run == [] then 0
    else
      var a := run[|run| - 1];
      Own(run[..|run| - 1], id) + if a.Advance? && a.id == id then 1 else 0
  }

  /** The request is served well by action a: its reads return the newest revision and its write
      comes back Ok under a fresh version; and nobody else writes. */
  ghost predicate Smooth(s: State, a: Action, id: nat)
    requires |s.history| > 0 && id < |s.puts|
  {
    if a.Advance? && a.id == id then
      match s.puts[id].phase
      case Loaded(_) => a.reply.Ok? && Fresh(s.history, a.version)
      case _ => a.reply == Read(|s.history| - 1)
    else Step(s, a).history == s.history
  }

  ghost predicate AllSmooth(s: State, run: seq<Action>, id: nat)
    requires |s.history| > 0 && id < |s.puts|
    decreases |run|
  {
    run != [] ==>
      var before := Exec(s, run[..|run| - 1]);
      AllSmooth(s, run[..|run| - 1], id) && |before.history| > 0 && id < |before.puts| && Smooth(before, run[|run| - 1], id)
  }

  /** The request may write now: it named the newest version, or none, and the store is empty. */
  predicate MayWrite(s: State, id: nat)
    requires |s.history| > 0 && id < |s.puts|
  {
    var newest := s.history[|s.history| - 1];
    s.puts[id].version == Some(newest.version) || (s.puts[id].version.None? && newest.data == Some(map[]))
  }

  /** After `steps` steps of its own. */
  ghost predicate Reached(s: State, t: State, id: nat, steps: nat)
    requires |s.history| > 0 && id < |s.puts|
  {
    var n := |s.history|;
    && id < |t.puts| && t.puts[id].store == s.puts[id].store && t.puts[id].version == s.puts[id].version
    && (steps < 3 ==> t.history == s.history)
    && match steps
       case 0 => t.puts[id].phase == Received
       case 1 => t.puts[id].phase == Pinned(s.history[n - 1].version)
       case 2 => t.puts[id].phase == Loaded(n - 1)
       case _ =>
         && t.puts[id].phase == Done(Success) && |t.history| == n + 1 && t.history[..n] == s.history
         && t.history[n].data == Some(s.puts[id].store) && t.history[n].writer == Request(id)
  }

  lemma SmoothStep(s: State, t: State, a: Action, id: nat, steps: nat)
    requires |s.history| > 0 && id < |s.puts| && MayWrite(s, id) && Reached(s, t, id, steps) && |t.history| > 0 && Smooth(t, a, id)
    ensures Reached(s, Step(t, a), id, if a.Advance? && a.id == id then steps + 1 else steps)
  {
    if !(a.Advance? && a.id == id) { StepIsLocal(t, a, id); }
  }

  /** A request that may write and is served well succeeds, with its third step, whatever other
      requests do in between: the history is longer by exactly its store. */
  lemma {:induction false} WriteSucceeds(s: State, run: seq<Action>, id: nat)
    requires |s.history| > 0 && id < |s.puts| && s.puts[id].phase == Received && MayWrite(s, id)
    requires AllSmooth(s, run, id)
    ensures Reached(s, Exec(s, run), id, Own(run, id))
    decreases |run|
  {
    if run != [] {
      var before := run[..|run| - 1];
      WriteSucceeds(s, before, id);
      SmoothStep(s, Exec(s, before), run[|run| - 1], id, Own(before, id));
    }
  }
}
