/** The reconnecting WebSocket provider: a wrapper that owns the current
    ethers WebSocket provider, keeps the event subscriptions and in-flight
    requests of a provider whose socket closed, and hands them to the next
    provider once that one's socket opens.

    The socket and the timers are the environment: each handler the original
    registers (open, pong, close, the ping interval, the pong deadline and the
    reconnect delay) is a method here, called when that event happens. An
    ethers provider is a `Connection` holding the parts of its state the
    wrapper reads and writes. */
module WebSocket {
  import opened Wrappers

  const PingIntervalMs: nat := 10000
  const PongTimeoutMs: nat := 5000
  const ReconnectDelayMs: nat := 100

  /** The close code of a normal closure, the only one that does not
      reconnect. */
  const NormalClosure: int := 1000

  /** An event subscription of a provider, identified by its tag. */
  datatype Event = Event(tag: string)

  /** An in-flight JSON-RPC request and the payload that was sent for it. */
  datatype Request = Request(payload: string)

  /** A timer the wrapper starts, with its delay in milliseconds. */
  datatype Timer = PingEvery(ms: nat) | PongDeadline(ms: nat) | Reconnect(ms: nat)

  // ---------------------------------------------------------------------
  // Orders of the hand-off

  /** A sequence back to front, the order in which `pop` empties an array. */
  function Reversed<T>(s: seq<T>): (r: seq<T>)
    ensures |r| == |s|
    ensures forall i :: 0 <= i < |s| ==> r[i] == s[|s| - 1 - i]
  {
    if s == [] then [] else Reversed(s[1..]) + [s[0]]
  }

  /** Reversing keeps every element with its multiplicity. */
  lemma {:induction false} ReversedIsPermutation<T>(s: seq<T>)
    ensures multiset(Reversed(s)) == multiset(s)
  {
    if s != [] {
      ReversedIsPermutation(s[1..]);
      assert s == [s[0]] + s[1..];
    }
  }

  /** Popping the last element of a suffix: the reversed suffix grows by it. */
  lemma ReversedStep<T>(s: seq<T>, n: nat)
    requires 0 < n <= |s|
    ensures Reversed(s[n - 1..]) == Reversed(s[n..]) + [s[n - 1]]
  {
    assert s[n - 1..][1..] == s[n..];
  }

  /** Every non-empty set of request ids has a least element. */
  lemma {:induction false} MinExists(keys: set<nat>)
    requires keys != {}
    ensures exists k :: k in keys && forall j :: j in keys ==> k <= j
    decreases |keys|
  {
    var x :| x in keys;
    if y :| y in keys && y < x {
      var rest := keys - {x};
      assert y in rest;
      MinExists(rest);
      var m :| m in rest && forall j :: j in rest ==> m <= j;
      forall j | j in keys
        ensures m <= j
      {
        if j != x {
          assert j in rest;
        }
      }
    }
  }

  /** The least of a non-empty set of request ids. */
  ghost function MinKey(keys: set<nat>): (k: nat)
    requires keys != {}
    ensures k in keys && forall j :: j in keys ==> k <= j
  {
    MinExists(keys);
    var k :| k in keys && forall j :: j in keys ==> k <= j;
    k
  }

  /** The order in which `for ... in` visits the integer keys of an object:
      ascending. */
  ghost function Ascending(keys: set<nat>): (r: seq<nat>)
    ensures forall i :: 0 <= i < |r| ==> r[i] in keys
    decreases |keys|
  {
    if keys == {} then []
    else
      var k := MinKey(keys);
      [k] + Ascending(keys - {k})
  }

  /** The state of the request drain: what is left of the requests, the
      requests the connection holds, and the payloads it has sent. */
  datatype Drain = Drain(pending: map<nat, Request>, handed: map<nat, Request>, sent: seq<string>)

  /** One step of the drain: the least pending id is handed over and its
      payload sent. */
  ghost function SendLeast(d: Drain): (r: Drain)
    requires d.pending != map[]
    ensures |r.pending.Keys| == |d.pending.Keys| - 1
  {
    var k := MinKey(d.pending.Keys);
    assert d.pending.Keys - {k} < d.pending.Keys;
    Drain(d.pending - {k}, d.handed[k := d.pending[k]], d.sent + [d.pending[k].payload])
  }

  /** The whole drain: steps until nothing is pending. */
  ghost function DrainAll(d: Drain): Drain
    decreases |d.pending.Keys|
  {
    if d.pending == map[] then d else DrainAll(SendLeast(d))
  }

  /** The end state of the whole drain: nothing pending, every request
      handed to the connection, and their payloads sent in ascending order of
      id. */
  ghost function Drained(d: Drain): Drain {
    Drain(map[], d.handed + d.pending, d.sent + Payloads(Ascending(d.pending.Keys), d.pending))
  }

  /** The whole drain empties the pending requests into the connection and
      sends their payloads in ascending order of id. */
  lemma {:induction false} DrainAllResult(d: Drain)
    ensures DrainAll(d) == Drained(d)
    decreases |d.pending.Keys|
  {
    if d.pending == map[] {
      NothingToDrain(d);
    } else {
      DrainAllResult(SendLeast(d));
      DrainOneMore(d);
    }
  }

  /** The induction step: the result of the whole drain, known after its
      first step, is the result for `d`. */
  lemma DrainOneMore(d: Drain)
    requires d.pending != map[]
    requires DrainAll(SendLeast(d)) == Drained(SendLeast(d))
    ensures DrainAll(d) == Drained(d)
  {
    DrainedAfterStep(d);
  }

  /** The closed form of the whole drain stays the same after a step. */
  lemma DrainedAfterStep(d: Drain)
    requires d.pending != map[]
    ensures Drained(SendLeast(d)) == Drained(d)
  {
    var k := MinKey(d.pending.Keys);
    var next := SendLeast(d);
    MoveEntry(d.handed, d.pending, k);
    SentLeastFirst(d);
    var sent := Payloads(Ascending(d.pending.Keys), d.pending);
    var sentNext := Payloads(Ascending(next.pending.Keys), next.pending);
    assert next.sent + sentNext == d.sent + sent;
  }

  lemma NothingToDrain(d: Drain)
    requires d.pending == map[]
    ensures DrainAll(d) == Drained(d)
  {
    assert d.pending.Keys == {};
    assert Payloads(Ascending(d.pending.Keys), d.pending) == [];
    UnionWithEmpty(d.handed, d.pending);
    assert d.sent + [] == d.sent;
  }

  /** The payloads of the whole drain are those of the least id followed by
      those of the drain after its first step. */
  lemma SentLeastFirst(d: Drain)
    requires d.pending != map[]
    ensures var next := SendLeast(d); var k := MinKey(d.pending.Keys);
      Payloads(Ascending(d.pending.Keys), d.pending)
        == [d.pending[k].payload] + Payloads(Ascending(next.pending.Keys), next.pending)
  {
    var k := MinKey(d.pending.Keys);
    var next := SendLeast(d);
    var rest := Ascending(next.pending.Keys);
    assert next.pending.Keys == d.pending.Keys - {k};
    AscendingStep(d.pending.Keys, k);
    forall i | 0 <= i < |rest|
      ensures rest[i] in d.pending && rest[i] != k
    {
      assert rest[i] in next.pending.Keys;
    }
    PayloadsCons(k, rest, d.pending);
  }

  /** Sending one id first puts its payload first, and the later ids' payloads
      do not depend on the entry of the first. */
  lemma PayloadsCons(key: nat, ids: seq<nat>, requests: map<nat, Request>)
    requires key in requests
    requires forall i :: 0 <= i < |ids| ==> ids[i] in requests && ids[i] != key
    ensures Payloads([key] + ids, requests) == [requests[key].payload] + Payloads(ids, requests - {key})
  {
    var all, rest := [key] + ids, requests - {key};
    forall i | 0 <= i < |ids|
      ensures ids[i] in rest
    {
    }
    var tail := Payloads(ids, rest);
    var right := [requests[key].payload] + tail;
    forall i | 0 <= i < |all|
      ensures all[i] in requests && right[i] == requests[all[i]].payload
    {
      if i > 0 {
        var id := ids[i - 1];
        assert all[i] == id && right[i] == tail[i - 1];
        assert tail[i - 1] == rest[id].payload && rest[id] == requests[id];
      }
    }
    PayloadsPointwise(all, requests, right);
  }

  /** A sequence with one payload per id, each that of its id, is the
      payloads of those ids. */
  lemma PayloadsPointwise(ids: seq<nat>, requests: map<nat, Request>, s: seq<string>)
    requires forall i :: 0 <= i < |ids| ==> ids[i] in requests
    requires |s| == |ids|
    requires forall i :: 0 <= i < |s| ==> s[i] == requests[ids[i]].payload
    ensures Payloads(ids, requests) == s
  {
    var p := Payloads(ids, requests);
    assert forall i :: 0 <= i < |s| ==> p[i] == s[i];
  }

  /** Moving one entry from `r` into `c` leaves their union unchanged. */
  lemma MoveEntry<K, V>(c: map<K, V>, r: map<K, V>, key: K)
    requires key in r
    ensures c[key := r[key]] + (r - {key}) == c + r
  {
    var left, right := c[key := r[key]] + (r - {key}), c + r;
    assert left.Keys == right.Keys;
    forall k | k in left.Keys
      ensures left[k] == right[k]
    {
    }
  }

  lemma UnionWithEmpty<K, V>(c: map<K, V>, e: map<K, V>)
    requires e == map[]
    ensures c + e == c
  {
    assert (c + e).Keys == c.Keys;
  }

  /** The ascending order starts with the least key. */
  lemma AscendingStep(keys: set<nat>, key: nat)
    requires key in keys && forall j :: j in keys ==> key <= j
    ensures Ascending(keys) == [key] + Ascending(keys - {key})
  {
    assert key == MinKey(keys);
  }

  /** Each key appears in the ascending order exactly once: the order has
      the keys as its elements, as many entries as there are keys, and is
      strictly increasing. */
  lemma {:induction false} AscendingIsSortedKeys(keys: set<nat>)
    ensures |Ascending(keys)| == |keys|
    ensures forall k :: k in keys <==> k in Ascending(keys)
    ensures forall i, j :: 0 <= i < j < |Ascending(keys)| ==> Ascending(keys)[i] < Ascending(keys)[j]
    decreases |keys|
  {
    if keys != {} {
      var k := MinKey(keys);
      var rest := Ascending(keys - {k});
      AscendingIsSortedKeys(keys - {k});
      assert Ascending(keys) == [k] + rest;
      forall j | 0 <= j < |rest|
        ensures k < rest[j]
      {
        assert rest[j] in keys - {k};
      }
    }
  }

  /** The payloads of the requests with the given ids, in that order. */
  function Payloads(ids: seq<nat>, requests: map<nat, Request>): (r: seq<string>)
    requires forall i :: 0 <= i < |ids| ==> ids[i] in requests
    ensures |r| == |ids|
    ensures forall i :: 0 <= i < |ids| ==> r[i] == requests[ids[i]].payload
  {
    if ids == [] then []
    else Payloads(ids[..|ids| - 1], requests) + [requests[ids[|ids| - 1]].payload]
  }

  /** The merge of create(): the requests the wrapper still holds and those of
      the closing provider; on an id in both, the provider's request wins. */
  function MergeRequests(pending: map<nat, Request>, fromProvider: map<nat, Request>): (r: map<nat, Request>)
    ensures r.Keys == pending.Keys + fromProvider.Keys
    ensures forall k :: k in fromProvider ==> r[k] == fromProvider[k]
    ensures forall k :: k in pending && k !in fromProvider ==> r[k] == pending[k]
  {
    pending + fromProvider
  }

  // ---------------------------------------------------------------------
  // The state machine

  /** An ethers WebSocket provider and its socket: its subscriptions and
      requests, the events started and the payloads sent on it, and the two
      timers of its keep-alive. */
  class Connection {
    /** The chain id the provider was created with, or detected later. */
    var network: Option<nat>
    var wsReady: bool
    var events: seq<Event>
    var requests: map<nat, Request>
    /** Every `_startEvent`, in order. */
    var started: seq<Event>
    /** Every payload sent on the socket, in order. */
    var sent: seq<string>
    /** Pings sent on the socket. */
    var pings: nat
    var pingInterval: bool
    var pongTimeout: bool
    var terminated: bool

    constructor (chainId: Option<nat>)
      ensures network == chainId && !wsReady && events == [] && requests == map[]
      ensures started == [] && sent == [] && pings == 0
      ensures !pingInterval && !pongTimeout && !terminated
      ensures Fresh()
    {
      network := chainId;
      wsReady := false;
      events := [];
      requests := map[];
      started := [];
      sent := [];
      pings := 0;
      pingInterval := false;
      pongTimeout := false;
      terminated := false;
    }

    /** A provider as created: not ready, nothing subscribed, queued or sent,
        and no timer running. */
    ghost predicate Fresh()
      reads this
    {
      && !wsReady && events == [] && requests == map[] && started == [] && sent == []
      && pings == 0 && !pingInterval && !pongTimeout && !terminated
    }

    /** ethers' own network detection, for a provider created without a
        chain id. */
    method DetectNetwork(chainId: nat)
      modifies this`network
      ensures network == if old(network).None? then Some(chainId) else old(network)
    {
      if network.None? {
        network := Some(chainId);
      }
    }
  }

  class WebSocketProvider {
    const providerUrl: string
    /** The current provider; null only while the constructor runs. */
    var provider: Connection?
    /** Subscriptions waiting for the next open socket. */
    var events: seq<Event>
    /** Requests waiting for the next open socket, by id. */
    var requests: map<nat, Request>
    /** Reconnect timers started and not yet fired. */
    var pendingReconnects: nat
    /** Every timer started, in order. */
    ghost var timers: seq<Timer>

    /** The constructor creates the first provider, with nothing to take over. */
    constructor (providerUrl: string)
      ensures this.providerUrl == providerUrl
      ensures provider != null && fresh(provider) && provider.network == None && provider.Fresh()
      ensures events == [] && requests == map[] && pendingReconnects == 0 && timers == []
    {
      this.providerUrl := providerUrl;
      provider := null;
      events := [];
      requests := map[];
      pendingReconnects := 0;
      timers := [];
      new;
      Create();
    }

    /** create: take over the subscriptions and requests of the current
        provider, if any, and replace it by a new one on the same chain. */
    method Create()
      modifies this
      ensures provider != null && fresh(provider) && provider.Fresh()
      ensures old(provider) == null ==> events == old(events) && requests == old(requests) && provider.network == None
      ensures old(provider) != null ==>
        && events == old(events) + old(provider.events)
        && requests == MergeRequests(old(requests), old(provider.requests))
        && provider.network == old(provider.network)
      ensures pendingReconnects == old(pendingReconnects) && timers == old(timers)
    {
      var chainId: Option<nat> := None;
      if provider != null {
        events := events + provider.events;
        requests := requests + provider.requests;
        chainId := provider.network;
      }
      provider := new Connection(chainId);
    }

    /** The open handler of connection `c`: start the ping interval, move
        every pending subscription to `c` and start it (popping from the end,
        so in reverse order), then move every pending request to `c` and send
        its payload (in ascending id order), leaving nothing pending. */
    method OnOpen(c: Connection)
      modifies this`events, this`requests, this`timers
      modifies c`pingInterval, c`events, c`started, c`requests, c`sent
      ensures events == [] && requests == map[]
      ensures c.events == old(c.events) + Reversed(old(events))
      ensures c.started == old(c.started) + Reversed(old(events))
      ensures c.requests == old(c.requests) + old(requests)
      ensures c.sent == old(c.sent) + Payloads(Ascending(old(requests).Keys), old(requests))
      ensures c.pingInterval && timers == old(timers) + [PingEvery(PingIntervalMs)]
    {
      c.pingInterval := true;
      timers := timers + [PingEvery(PingIntervalMs)];
      DrainEvents(c);
      DrainRequests(c);
    }

    /** `while ((event = this.events.pop()))`: push each pending subscription
        onto `c` and start it there. */
    method DrainEvents(c: Connection)
      modifies this`events, c`events, c`started
      ensures events == []
      ensures c.events == old(c.events) + Reversed(old(events))
      ensures c.started == old(c.started) + Reversed(old(events))
    {
      ghost var pending := events;
      while |events| > 0
        invariant |events| <= |pending| && events == pending[..|events|]
        invariant c.events == old(c.events) + Reversed(pending[|events|..])
        invariant c.started == old(c.started) + Reversed(pending[|events|..])
        decreases |events|
      {
        var event := events[|events| - 1];
        ReversedStep(pending, |events|);
        events := events[..|events| - 1];
        c.events := c.events + [event];
        c.started := c.started + [event];
      }
      assert pending[0..] == pending;
    }

    /** `for (const key in this.requests)`: copy each pending request into
        `c`, send its payload and delete it, visiting the ids in ascending
        order. */
    method DrainRequests(c: Connection)
      modifies this`requests, c`requests, c`sent
      ensures requests == map[]
      ensures c.requests == old(c.requests) + old(requests)
      ensures c.sent == old(c.sent) + Payloads(Ascending(old(requests).Keys), old(requests))
    {
      ghost var goal := DrainAll(Drain(requests, c.requests, c.sent));
      DrainAllResult(Drain(requests, c.requests, c.sent));
      while requests != map[]
        invariant DrainAll(Drain(requests, c.requests, c.sent)) == goal
        decreases |requests.Keys|
      {
        MinExists(requests.Keys);
        var key :| key in requests.Keys && forall j :: j in requests.Keys ==> key <= j;
        ghost var before := Drain(requests, c.requests, c.sent);
        assert key == MinKey(requests.Keys);
        SendRequest(c, key);
        assert Drain(requests, c.requests, c.sent) == SendLeast(before);
      }
    }

    /** One step of the drain: hand request `key` to `c`, send its payload
        and delete it here. */
    method SendRequest(c: Connection, key: nat)
      requires key in requests
      modifies this`requests, c`requests, c`sent
      ensures requests == old(requests) - {key}
      ensures c.requests == old(c.requests)[key := old(requests)[key]]
      ensures c.sent == old(c.sent) + [old(requests)[key].payload]
    {
      c.requests := c.requests[key := requests[key]];
      c.sent := c.sent + [requests[key].payload];
      requests := requests - {key};
    }

    /** A tick of the ping interval of `c`: send a ping and arm the pong
        deadline. The interval only ticks while it is set. */
    method OnPingTick(c: Connection)
      requires c.pingInterval
      modifies c`pings, c`pongTimeout, this`timers
      ensures c.pings == old(c.pings) + 1 && c.pongTimeout
      ensures timers == old(timers) + [PongDeadline(PongTimeoutMs)]
    {
      c.pings := c.pings + 1;
      c.pongTimeout := true;
      timers := timers + [PongDeadline(PongTimeoutMs)];
    }

    /** The pong handler of `c`: clear the pong deadline. */
    method OnPong(c: Connection)
      modifies c`pongTimeout
      ensures !c.pongTimeout
    {
      c.pongTimeout := false;
    }

    /** The pong deadline of `c` passed without a pong: terminate the socket,
        which closes it. */
    method OnPongTimeout(c: Connection)
      requires c.pongTimeout
      modifies c`pongTimeout, c`terminated
      ensures c.terminated && !c.pongTimeout
    {
      c.pongTimeout := false;
      c.terminated := true;
    }

    /** The close handler of `c`: mark the provider not ready, clear both of
        its timers, and unless the close was normal (code 1000) start one
        reconnect timer. */
    method OnClose(c: Connection, code: int)
      modifies c`wsReady, c`pingInterval, c`pongTimeout, this`pendingReconnects, this`timers
      ensures !c.wsReady && !c.pingInterval && !c.pongTimeout
      ensures code == NormalClosure ==> pendingReconnects == old(pendingReconnects) && timers == old(timers)
      ensures code != NormalClosure ==>
        pendingReconnects == old(pendingReconnects) + 1 && timers == old(timers) + [Reconnect(ReconnectDelayMs)]
    {
      c.wsReady := false;
      c.pingInterval := false;
      c.pongTimeout := false;
      if code != NormalClosure {
        pendingReconnects := pendingReconnects + 1;
        timers := timers + [Reconnect(ReconnectDelayMs)];
      }
    }

    /** A reconnect timer fires: create the next provider. */
    method OnReconnectTimer()
      requires pendingReconnects > 0
      modifies this
      ensures pendingReconnects == old(pendingReconnects) - 1 && timers == old(timers)
      ensures provider != null && fresh(provider) && provider.Fresh()
      ensures old(provider) != null ==>
        && events == old(events) + old(provider.events)
        && requests == MergeRequests(old(requests), old(provider.requests))
        && provider.network == old(provider.network)
    {
      pendingReconnects := pendingReconnects - 1;
      Create();
    }
  }

  // ---------------------------------------------------------------------
  // Properties of the hand-off

  /** Every subscription handed over on open is started on the new provider
      exactly as often as it was pending, and every pending request is sent
      exactly once: the ids are visited in strictly ascending order and are
      exactly the pending ids. */
  lemma HandOffExactlyOnce(pending: seq<Event>, requests: map<nat, Request>)
    ensures multiset(Reversed(pending)) == multiset(pending)
    ensures |Payloads(Ascending(requests.Keys), requests)| == |requests.Keys|
    ensures forall k :: k in requests <==> k in Ascending(requests.Keys)
    ensures forall i, j :: 0 <= i < j < |Ascending(requests.Keys)| ==>
      Ascending(requests.Keys)[i] != Ascending(requests.Keys)[j]
  {
    ReversedIsPermutation(pending);
    AscendingIsSortedKeys(requests.Keys);
  }
}
