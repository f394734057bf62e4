/**
 The checker's cluster client: it follows MOVED replies from node to node, at most five sends.
 */
module ClusterClient {
  import opened Common
  import opened Text

  /** The bytes of s from i on begin with sub. */
  ghost predicate OccursAt(s: string, sub: string, i: nat)
  {
    i + |sub| <= |s| && s[i..i + |sub|] == sub
  }

  /** strings.Contains. */
  predicate Contains(s: string, sub: string)
    decreases |s|
  {
    sub <= s || (s != "" && Contains(s[1..], sub))
  }

  lemma {:induction false} ContainsExactly(s: string, sub: string)
    ensures Contains(s, sub) <==> exists i :: OccursAt(s, sub, i)
    decreases |s|
  {
    if sub <= s {
      assert OccursAt(s, sub, 0);
    } else if s != "" {
      ContainsExactly(s[1..], sub);
      assert forall i: nat :: i > 0 && OccursAt(s, sub, i) ==> OccursAt(s[1..], sub, i - 1);
      assert forall i: nat :: OccursAt(s[1..], sub, i) ==> OccursAt(s, sub, i + 1);
    }
  }

  /** strings.Split at every occurrence of a byte. */
  function Split(s: string, c: char): (segs: seq<string>)
    ensures |segs| > 0
    decreases |s|
  {
    var i := IndexOf(s, c);
    if i < 0 then [s] else [s[..i]] + Split(s[i + 1..], c)
  }

  /** The segments put together again. */
  function Join(segs: seq<string>, c: char): string
    requires |segs| > 0
  {
    if |segs| == 1 then segs[0] else segs[0] + [c] + Join(segs[1..], c)
  }

  predicate Without(segs: seq<string>, c: char)
  {
    forall i :: 0 <= i < |segs| ==> c !in segs[i]
  }

  lemma {:induction false} SplitJoins(s: string, c: char)
    ensures Join(Split(s, c), c) == s && Without(Split(s, c), c)
    decreases |s|
  {
    var i := IndexOf(s, c);
    if i >= 0 {
      SplitJoins(s[i + 1..], c);
      assert s == s[..i] + [c] + s[i + 1..];
    }
  }

  /** Splitting is the only way to take a string apart at a byte. */
  lemma {:induction false} SplitIsUnique(segs: seq<string>, c: char)
    requires |segs| > 0 && Without(segs, c)
    ensures Split(Join(segs, c), c) == segs
    decreases |segs|
  {
    var s := Join(segs, c);
    var n := |segs[0]|;
    if |segs| == 1 {
      assert IndexOf(s, c) == -1;
      assert segs == [segs[0]];
    } else {
      assert s[n] == c && forall k :: 0 <= k < n ==> s[k] == segs[0][k];
      assert IndexOf(s, c) == n;
      assert s[n + 1..] == Join(segs[1..], c) && s[..n] == segs[0];
      SplitIsUnique(segs[1..], c);
      assert segs == [segs[0]] + segs[1..];
    }
  }

  datatype Failure =
    | Other(text: string)
    | InvalidMoved(text: string)
    | TooManyRedirections

  datatype Result<T> = Success(value: T) | Failed(failure: Failure)

  /** The address in a MOVED error; any other error is handed through. */
  function ParseMoved(e: string): Result<string>
  {
    if !Contains(e, "MOVED") then Failed(Other(e))
    else
      var segs := Split(e, ' ');
      if |segs| != 3 then Failed(InvalidMoved(e)) else Success(segs[2])
  }

  /** How often c occurs. */
  function Count(s: string, c: char): nat { multiset(s)[c] }

  lemma {:induction false} SplitCounts(s: string, c: char)
    ensures |Split(s, c)| == Count(s, c) + 1
    decreases |s|
  {
    var i := IndexOf(s, c);
    if i >= 0 {
      SplitCounts(s[i + 1..], c);
      assert s == s[..i] + [c] + s[i + 1..];
      assert c !in s[..i];
    }
  }

  /** The error sends the client on to this address: it has MOVED in it and two spaces, the second
      one in front of the address. */
  ghost predicate MovesTo(e: string, address: string)
  {
    && (exists i :: OccursAt(e, "MOVED", i))
    && exists a, b :: Without([a, b, address], ' ') && e == a + " " + b + " " + address
  }

  /** An address comes out exactly of such errors. One without MOVED comes back as it is, and one
      with it and another number of spaces is an invalid MOVED. */
  lemma MovedSyntax(e: string, address: string)
    ensures ParseMoved(e) == Success(address) <==> MovesTo(e, address)
    ensures ParseMoved(e) == Failed(Other(e)) <==> forall i :: !OccursAt(e, "MOVED", i)
    ensures ParseMoved(e) == Failed(InvalidMoved(e)) <==> (exists i :: OccursAt(e, "MOVED", i)) && Count(e, ' ') != 2
    ensures ParseMoved(e).Failed? ==> ParseMoved(e).failure == Other(e) || ParseMoved(e).failure == InvalidMoved(e)
  {
    ContainsExactly(e, "MOVED");
    SplitJoins(e, ' ');
    SplitCounts(e, ' ');
    var segs := Split(e, ' ');
    if |segs| == 3 {
      JoinThree(segs[0], segs[1], segs[2]);
      assert segs == [segs[0], segs[1], segs[2]];
    }
    forall a, b | Without([a, b, address], ' ') && e == a + " " + b + " " + address ensures segs == [a, b, address] {
      JoinThree(a, b, address);
      SplitIsUnique([a, b, address], ' ');
    }
  }

  lemma JoinThree(a: string, b: string, address: string)
    ensures Join([a, b, address], ' ') == a + " " + b + " " + address
  {
    assert [a, b, address][1..] == [b, address] && [b, address][1..] == [address];
    assert Join([b, address], ' ') == b + [' '] + Join([address], ' ');
    assert a + [' '] + (b + [' '] + address) == a + " " + b + " " + address;
  }

  // ---------- Following redirections ----------

  datatype Reply = Answer(value: string) | Error(text: string)

  const MAX_RETRY_TIMES := 5

  datatype Outcome = Answered(value: string, address: string) | GaveUp(failure: Failure)

  /** What the n-th send to an address brings back. */
  type Network = (nat, string) -> Reply

  /** The node of the n-th send: reached if all sends before it were answered with a proper MOVED. */
  function Hop(net: Network, startup: string, n: nat): Option<string>
  {
    if n == 0 then Some(startup)
    else
      match Hop(net, startup, n - 1)
      case None => None
      case Some(prev) =>
        match net(n - 1, prev)
        case Answer(_) => None
        case Error(text) => (match ParseMoved(text) case Success(address) => Some(address) case Failed(_) => None)
  }

  predicate AnswersAt(net: Network, startup: string, n: nat, value: string, address: string)
  {
    Hop(net, startup, n) == Some(address) && net(n, address) == Answer(value)
  }

  predicate RefusesAt(net: Network, startup: string, n: nat, failure: Failure)
  {
    var hop := Hop(net, startup, n);
    hop.Some? && net(n, hop.value).Error? && ParseMoved(net(n, hop.value).text) == Failed(failure)
  }

  /** A node that does not send the client on ends the chain. */
  lemma {:induction false} ChainStops(net: Network, startup: string, n: nat, m: nat)
    requires n < m && Hop(net, startup, n).Some? && Hop(net, startup, n + 1).None?
    ensures Hop(net, startup, m).None?
    decreases m
  {
    if m > n + 1 { ChainStops(net, startup, n, m - 1); }
  }

  lemma HopsBefore(net: Network, startup: string, i: nat, m: nat)
    requires Hop(net, startup, i).Some? && Hop(net, startup, i + 1).None? && Hop(net, startup, m).Some?
    ensures m <= i
  {
    if m > i { ChainStops(net, startup, i, m); }
  }

  /** From the startup node on, every node of the path but the last sends the client to the next. */
  ghost predicate Path(net: Network, startup: string, path: seq<string>)
    decreases |path|
  {
    path != [] &&
    var n := |path| - 1;
    if n == 0 then path[0] == startup
    else Path(net, startup, path[..n]) && net(n - 1, path[n - 1]).Error? && MovesTo(net(n - 1, path[n - 1]).text, path[n])
  }

  /** What the last node of the path answers. */
  function LastReply(net: Network, path: seq<string>): Reply
    requires path != []
  {
    net(|path| - 1, path[|path| - 1])
  }

  lemma HopMoves(net: Network, startup: string, n: nat, address: string) returns (prev: string)
    requires n > 0 && Hop(net, startup, n) == Some(address)
    ensures Hop(net, startup, n - 1) == Some(prev) && net(n - 1, prev).Error? && MovesTo(net(n - 1, prev).text, address)
  {
    prev := Hop(net, startup, n - 1).value;
    MovedSyntax(net(n - 1, prev).text, address);
  }

  lemma PathGoesOn(net: Network, startup: string, path: seq<string>, address: string)
    requires Path(net, startup, path) && LastReply(net, path).Error? && MovesTo(LastReply(net, path).text, address)
    ensures Path(net, startup, path + [address])
  {
    assert (path + [address])[..|path|] == path;
  }

  lemma {:induction false} HopIsPath(net: Network, startup: string, n: nat, address: string) returns (path: seq<string>)
    requires Hop(net, startup, n) == Some(address)
    ensures Path(net, startup, path) && |path| == n + 1 && path[n] == address
  {
    if n == 0 {
      path := [startup];
    } else {
      var prev := HopMoves(net, startup, n, address);
      var before := HopIsPath(net, startup, n - 1, prev);
      PathGoesOn(net, startup, before, address);
      path := before + [address];
    }
  }

  lemma {:induction false} PathIsHop(net: Network, startup: string, path: seq<string>)
    requires Path(net, startup, path)
    ensures Hop(net, startup, |path| - 1) == Some(path[|path| - 1])
    decreases |path|
  {
    var n := |path| - 1;
    if n > 0 {
      PathIsHop(net, startup, path[..n]);
      MovedSyntax(net(n - 1, path[n - 1]).text, path[n]);
    }
  }

  /** An error that sends the client nowhere: without MOVED it is passed on as it is. */
  ghost predicate Refuses(e: string, failure: Failure)
  {
    if forall i :: !OccursAt(e, "MOVED", i) then failure == Other(e) else failure == InvalidMoved(e) && Count(e, ' ') != 2
  }

  ghost predicate Answers(net: Network, startup: string, value: string, address: string)
  {
    exists path :: Path(net, startup, path) && |path| <= 5 && LastReply(net, path) == Answer(value) && path[|path| - 1] == address
  }

  ghost predicate Gives(net: Network, startup: string, failure: Failure)
  {
    exists path :: Path(net, startup, path) && |path| <= 5 && LastReply(net, path).Error? && Refuses(LastReply(net, path).text, failure)
  }

  lemma AnswersExactly(net: Network, startup: string, value: string, address: string)
    ensures Answers(net, startup, value, address) <==> exists n: nat :: n < MAX_RETRY_TIMES && AnswersAt(net, startup, n, value, address)
  {
    if Answers(net, startup, value, address) {
      var path :| Path(net, startup, path) && |path| <= 5 && LastReply(net, path) == Answer(value) && path[|path| - 1] == address;
      PathIsHop(net, startup, path);
      assert AnswersAt(net, startup, |path| - 1, value, address);
    }
    forall n: nat | n < MAX_RETRY_TIMES && AnswersAt(net, startup, n, value, address) ensures Answers(net, startup, value, address) {
      var path := HopIsPath(net, startup, n, address);
    }
  }

  lemma RefusesExactly(net: Network, startup: string, n: nat, failure: Failure)
    requires n < MAX_RETRY_TIMES && RefusesAt(net, startup, n, failure)
    ensures Gives(net, startup, failure)
  {
    var hop := Hop(net, startup, n).value;
    MovedSyntax(net(n, hop).text, "");
    var path := HopIsPath(net, startup, n, hop);
  }

  lemma SixNodes(net: Network, startup: string)
    ensures Hop(net, startup, MAX_RETRY_TIMES).Some? <==> exists path :: Path(net, startup, path) && |path| == 6
  {
    if Hop(net, startup, MAX_RETRY_TIMES).Some? {
      var path := HopIsPath(net, startup, MAX_RETRY_TIMES, Hop(net, startup, MAX_RETRY_TIMES).value);
    }
    forall path | Path(net, startup, path) && |path| == 6 ensures Hop(net, startup, MAX_RETRY_TIMES).Some? {
      PathIsHop(net, startup, path);
    }
  }

  /** What the loop of Exec has found, node by node. */
  ghost predicate ByHops(net: Network, startup: string, r: Outcome)
  {
    && (forall value, address :: r == Answered(value, address) <==> exists n: nat :: n < MAX_RETRY_TIMES && AnswersAt(net, startup, n, value, address))
    && (r.GaveUp? && r.failure != TooManyRedirections ==> exists n: nat :: n < MAX_RETRY_TIMES && RefusesAt(net, startup, n, r.failure))
    && (r == GaveUp(TooManyRedirections) <==> Hop(net, startup, MAX_RETRY_TIMES).Some?)
  }

  lemma HopsArePaths(net: Network, startup: string, r: Outcome)
    requires ByHops(net, startup, r)
    ensures forall value, address :: r == Answered(value, address) <==> Answers(net, startup, value, address)
    ensures r.GaveUp? && r.failure != TooManyRedirections ==> Gives(net, startup, r.failure)
    ensures r == GaveUp(TooManyRedirections) <==> exists path :: Path(net, startup, path) && |path| == 6
  {
    forall value, address ensures r == Answered(value, address) <==> Answers(net, startup, value, address) {
      AnswersExactly(net, startup, value, address);
    }
    if r.GaveUp? && r.failure != TooManyRedirections {
      var n: nat :| n < MAX_RETRY_TIMES && RefusesAt(net, startup, n, r.failure);
      RefusesExactly(net, startup, n, r.failure);
    }
    SixNodes(net, startup);
  }

  /** The loop of Exec. */
  method Redirect(net: Network, startup: string) returns (r: Outcome)
    ensures ByHops(net, startup, r)
  {
    var address := startup;
    var i := 0;
    while i != MAX_RETRY_TIMES
      invariant 0 <= i < MAX_RETRY_TIMES && Hop(net, startup, i) == Some(address)
      invariant forall n: nat :: n < i ==> Hop(net, startup, n).Some? && net(n, Hop(net, startup, n).value).Error?
      decreases MAX_RETRY_TIMES - i
    {
      var reply := net(i, address);
      if reply.Answer? {
        r := Answered(reply.value, address);
        assert AnswersAt(net, startup, i, reply.value, address);
        forall m: nat | Hop(net, startup, m).Some? ensures m <= i { HopsBefore(net, startup, i, m); }
        return;
      }
      var next := ParseMoved(reply.text);
      if next.Failed? {
        r := GaveUp(next.failure);
        assert RefusesAt(net, startup, i, next.failure);
        forall m: nat | Hop(net, startup, m).Some? ensures m <= i { HopsBefore(net, startup, i, m); }
        return;
      }
      assert Hop(net, startup, i + 1) == Some(next.value);
      if i + 1 == MAX_RETRY_TIMES {
        break;
      }
      address := next.value;
      i := i + 1;
    }
    r := GaveUp(TooManyRedirections);
  }

  /**
   Exec succeeds exactly when the path of MOVED replies from the startup node comes to an
   answering node within five sends, and returns that node's answer and address. It passes on the
   first error that is not a proper MOVED, or reports too many redirections, exactly when five
   nodes have sent it on.
   */
  method Exec(net: Network, startup: string) returns (r: Outcome)
    ensures forall value, address :: r == Answered(value, address) <==> Answers(net, startup, value, address)
    ensures r.GaveUp? && r.failure != TooManyRedirections ==> Gives(net, startup, r.failure)
    ensures r == GaveUp(TooManyRedirections) <==> exists path :: Path(net, startup, path) && |path| == 6
  {
    r := Redirect(net, startup);
    HopsArePaths(net, startup, r);
  }
}
