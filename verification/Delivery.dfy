/**
  What the message pipeline can do: from every reachable state in which the client
  has endpoints, a message that the consumer waits for can be confirmed. The proof
  follows the client's thread around its loop.
 */
module Delivery {
  import opened Options
  import opened ReqRep
  import opened Pipeline

  // ---------------------------------------------------------------------
  // The client's loop
  // ---------------------------------------------------------------------

  /** The client has endpoints, now and after the next switch, and did not crash. */
  predicate Connected(k: Client) {
    k.endpoints != {} && k.wanted != {} && !k.loc.Crashed?
  }

  function Items(k: Client): nat { |k.queue| + |k.resend| + |k.requests| }

  function Unsent(k: Client): nat { |k.queue| + |k.resend| }

  /** How far the thread is from sending, if nothing is in flight, or else from
      looking for a reply. */
  function Distance(k: Client): nat {
    match k.loc
    case Top => if k.requests == [] then 6 else 3
    case Draining => if k.requests == [] then 5 else 2
    case Polling => if k.requests == [] then 4 else 1
    case Requeueing => if k.requests == [] then 3 else 6
    case Resending => if k.requests == [] then 2 else 5
    case Sending => if k.requests == [] then 1 else 4
    case Crashed => 0
  }

  /** The thread can take a reply for something in flight. */
  predicate Listening(k: Client) {
    k.requests != [] && (k.loc.Polling? || k.loc.Draining?)
  }

  /** One step closer to a reply, with nothing settled meanwhile. */
  ghost predicate Closer(k: Client, k': Client) {
    && Connected(k') && k'.settled == k.settled && Items(k') == Items(k)
    && (Unsent(k') < Unsent(k) || (Unsent(k') == Unsent(k) && Distance(k') < Distance(k)))
  }

  lemma {:induction false} FreshId(ids: set<ReqId>) returns (id: ReqId)
    ensures forall x :: x in ids ==> x < id
  {
    if ids == {} {
      id := 0;
    } else {
      var x :| x in ids;
      var above := FreshId(ids - {x});
      id := if x < above then above else x + 1;
      forall y | y in ids ensures y < id {
        assert y == x || y in ids - {x};
      }
    }
  }

  /** A thread that is not listening can go on: it sends while it may, and with
      endpoints everything to be sent again is sent. */
  lemma GoesOn(c: Limits, k: Client) returns (e: Step)
    requires Capacity(c, k) && Connected(k) && c.maxConcurrent >= 1 && Items(k) >= 1 && !Listening(k)
    ensures !e.Request? && !e.Receive? && Closer(k, Apply(c, k, e))
  {
    if CanSend(c, k) {
      var id := FreshId(k.issued.Keys);
      e := Send(id);
    } else {
      match k.loc
      case Top => e := Begin;
      case Draining => e := Switch;
      case Polling => e := Quiet;
      case Requeueing => e := Requeued;
      case Resending => e := SendDone;
      case Sending => e := SendDone;
    }
  }

  /** A listening thread that gets a confirmation of its first request settles it. */
  lemma Hears(c: Limits, k: Client)
    requires Listening(k) && Connected(k)
    ensures var f, k' := k.requests[0], Apply(c, k, Receive(k.requests[0].id, Ack));
            && Connected(k') && k'.settled == k.settled[f.item.promise := Got(Ack)] && Items(k') == Items(k) - 1
  {
    assert Find(k.requests, k.requests[0].id) == 0;
  }

  lemma OpenIsHeld(k: Client, p: Promise)
    requires Books(k) && p < k.next && p !in k.settled
    ensures Items(k) >= 1
  {
    assert Held(k, p) == 1;
  }

  // ---------------------------------------------------------------------
  // The producer
  // ---------------------------------------------------------------------

  lemma {:induction false} ExecuteOn(c: Setup, s: State, a: seq<Event>, b: seq<Event>)
    ensures Execute(c, s, a + b) == Execute(c, Execute(c, s, a), b)
    decreases |b|
  {
    if b == [] {
      assert a + b == a;
    } else {
      ExecuteOn(c, s, a, b[..|b| - 1]);
      assert (a + b)[..|a + b| - 1] == a + b[..|b| - 1];
    }
  }

  lemma OneEvent(c: Setup, s: State, e: Event)
    ensures Execute(c, s, [e]) == Advance(c, s, e)
  {
    assert [e][..0] == [] && Execute(c, s, []) == s;
  }

  lemma {:induction false} KeepsOn(c: Setup, s: State, es: seq<Event>)
    requires Inv(c, s)
    ensures Inv(c, Execute(c, s, es))
    decreases |es|
  {
    if es != [] {
      KeepsOn(c, s, es[..|es| - 1]);
      hide Inv, Advance;
      Keeps(c, Execute(c, s, es[..|es| - 1]), es[|es| - 1]);
    }
  }

  /** Only the producers did something. */
  ghost predicate SameClient(s: State, s': State) {
    && s'.client == s.client && s'.pending == s.pending && s'.owner == s.owner && s'.accepted == s.accepted
    && s'.servers.Keys == s.servers.Keys
  }

  /** A producer that sends what it owes and works off its queue has room. */
  lemma {:induction false} MakesRoom(c: Setup, s: State, x: ServerId) returns (es: seq<Event>)
    requires x in s.servers && c.maxInQueue >= 1
    ensures var s' := Execute(c, s, es);
            SameClient(s, s') && x in s'.servers && s'.servers[x].owed.None? && |s'.servers[x].queue| < c.maxInQueue
    decreases |s.servers[x].queue|, s.servers[x].owed.Some?
  {
    var v := s.servers[x];
    if v.owed.Some? || |v.queue| >= c.maxInQueue {
      var e := if v.owed.Some? then Confirm(x) else Event.Produce(x);
      OneEvent(c, s, e);
      var s1 := Advance(c, s, e);
      assert s1.servers.Keys == s.servers.Keys;
      var more := MakesRoom(c, s1, x);
      ExecuteOn(c, s, [e], more);
      es := [e] + more;
    } else {
      es := [];
    }
  }

  /** A request that was sent can be confirmed. */
  lemma AckArrives(c: Setup, s: State, id: ReqId) returns (es: seq<Event>)
    requires s.servers != map[] && c.maxInQueue >= 1 && id in s.client.issued
    ensures var s' := Execute(c, s, es); SameClient(s, s') && (id, Ack) in s'.replies
  {
    var x :| x in s.servers;
    var room := MakesRoom(c, s, x);
    var s1 := Execute(c, s, room);
    hide Execute;
    var s2, s3 := Placing(c, s1, id, x);
    OneEvent(c, s1, Deliver(id, x));
    OneEvent(c, s2, Confirm(x));
    ExecuteOn(c, s1, [Deliver(id, x)], [Confirm(x)]);
    ExecuteOn(c, s, room, [Deliver(id, x)] + [Confirm(x)]);
    es := room + ([Deliver(id, x)] + [Confirm(x)]);
  }

  lemma Placing(c: Setup, s: State, id: ReqId, x: ServerId) returns (s2: State, s3: State)
    requires id in s.client.issued && x in s.servers && s.servers[x].owed.None? && |s.servers[x].queue| < c.maxInQueue
    ensures s2 == Advance(c, s, Deliver(id, x)) && s3 == Advance(c, s2, Confirm(x))
    ensures SameClient(s, s3) && (id, Ack) in s3.replies
  {
    s2 := Advance(c, s, Deliver(id, x));
    s3 := Advance(c, s2, Confirm(x));
    assert s2.servers.Keys == s.servers.Keys && s3.servers.Keys == s.servers.Keys;
  }

  // ---------------------------------------------------------------------
  // All together
  // ---------------------------------------------------------------------

  /** Everything that confirming a message takes. */
  ghost predicate Working(c: Setup, s: State) {
    Inv(c, s) && Connected(s.client) && s.servers != map[] && c.maxInQueue >= 1
  }

  /** The consumer waits for the same messages as before. */
  ghost predicate SameEntries(s: State, s': State) {
    s'.pending == s.pending && s'.owner == s.owner && s'.accepted == s.accepted
  }

  /** The promise is open, or was settled with a confirmation. */
  predicate OpenOrAcked(k: Client, p: Promise) {
    p in k.settled ==> k.settled[p] == Got(Ack)
  }

  ghost predicate Nearer(k: Client, k': Client) {
    Items(k') < Items(k) || Closer(k, k')
  }

  lemma ThreadStep(c: Setup, s: State, e: Step)
    requires Working(c, s) && !e.Request? && (e.Receive? ==> (e.id, e.reply) in s.replies)
    requires Connected(Apply(c.Limit(), s.client, e))
    ensures var s' := Execute(c, s, [Thread(e)]);
            Working(c, s') && SameEntries(s, s') && s'.client == Apply(c.Limit(), s.client, e)
  {
    hide Inv, Execute, Apply;
    OneEvent(c, s, Thread(e));
    Keeps(c, s, Thread(e));
  }

  /** A message waits, so there is room for a request, and its promise is known. */
  lemma EntryFacts(c: Setup, s: State, i: nat)
    requires Inv(c, s) && i < |s.pending|
    ensures Books(s.client) && Capacity(c.Limit(), s.client) && Ids(s.client)
    ensures c.Limit().maxConcurrent >= 1 && s.pending[i].promise < s.client.next
    ensures s.pending[i].tag < |s.accepted|
  {
    hide Outstanding, Carries, Replies, Owed, Confirmed, Accounted, ServersOk, Books, Capacity, Ids, Attempts;
    assert EntryOk(s, s.pending[i]);
  }

  /** One turn: a confirmation is heard, or the thread gets closer to hearing one. */
  lemma OneTurn(c: Setup, s: State, i: nat) returns (es: seq<Event>)
    requires Working(c, s) && i < |s.pending| && s.pending[i].promise !in s.client.settled
    ensures var s' := Execute(c, s, es);
            && Working(c, s') && SameEntries(s, s') && Nearer(s.client, s'.client)
            && OpenOrAcked(s'.client, s.pending[i].promise)
  {
    EntryFacts(c, s, i);
    OpenIsHeld(s.client, s.pending[i].promise);
    hide Execute, Inv, Apply, Books, Capacity;
    if Listening(s.client) {
      var f := s.client.requests[0];
      es := AckArrives(c, s, f.id);
      KeepsOn(c, s, es);
      var s1 := Execute(c, s, es);
      Hears(c.Limit(), s1.client);
      ThreadStep(c, s1, Receive(f.id, Ack));
      ExecuteOn(c, s, es, [Thread(Receive(f.id, Ack))]);
      es := es + [Thread(Receive(f.id, Ack))];
    } else {
      var e := GoesOn(c.Limit(), s.client);
      ThreadStep(c, s, e);
      es := [Thread(e)];
    }
  }

  lemma {:induction false} AckComes(c: Setup, s: State, i: nat) returns (es: seq<Event>)
    requires Working(c, s) && i < |s.pending| && OpenOrAcked(s.client, s.pending[i].promise)
    ensures var s', p := Execute(c, s, es), s.pending[i].promise;
            Working(c, s') && SameEntries(s, s') && p in s'.client.settled && s'.client.settled[p] == Got(Ack)
    decreases Items(s.client), Unsent(s.client), Distance(s.client)
  {
    if s.pending[i].promise in s.client.settled {
      es := [];
    } else {
      hide Execute, Working;
      es := OneTurn(c, s, i);
      var more := AckComes(c, Execute(c, s, es), i);
      ExecuteOn(c, s, es, more);
      es := es + more;
    }
  }

  /** Different entries are for different messages. */
  ghost predicate DifferentTags(s: State) {
    && (forall i :: 0 <= i < |s.pending| ==> s.pending[i].tag < |s.accepted|)
    && (forall i, j :: 0 <= i < j < |s.pending| ==> s.pending[i].tag != s.pending[j].tag)
  }

  lemma {:induction false} TagsDiffer(c: Setup, endpoints: set<ServerId>, servers: set<ServerId>, es: seq<Event>)
    ensures DifferentTags(Execute(c, Init(endpoints, servers), es))
    decreases |es|
  {
    if es != [] {
      TagsDiffer(c, endpoints, servers, es[..|es| - 1]);
      hide Execute, Apply;
      TagsStep(c, Execute(c, Init(endpoints, servers), es[..|es| - 1]), es[|es| - 1]);
    }
  }

  lemma TagsStep(c: Setup, s: State, e: Event)
    requires DifferentTags(s)
    ensures DifferentTags(Advance(c, s, e))
  {
    hide Apply;
  }

  lemma {:induction false} ServersStay(c: Setup, endpoints: set<ServerId>, servers: set<ServerId>, es: seq<Event>)
    ensures Execute(c, Init(endpoints, servers), es).servers.Keys == servers
    decreases |es|
  {
    if es != [] {
      ServersStay(c, endpoints, servers, es[..|es| - 1]);
      hide Apply;
    }
  }

  /** A message of which a promise was settled with a confirmation. */
  ghost predicate WasConfirmed(s: State, t: nat) {
    exists p: Promise :: p in s.client.settled && s.client.settled[p] == Got(Ack) && p < |s.owner| && s.owner[p] == t
  }

  /** An entry that was not confirmed is requested again, in place. */
  lemma AsksAgain(c: Setup, s: State, i: nat)
    requires Working(c, s) && DifferentTags(s) && i < |s.pending| && !OpenOrAcked(s.client, s.pending[i].promise)
    ensures var s' := Execute(c, s, [Reap(i)]);
            && Working(c, s') && DifferentTags(s')
            && |s'.pending| == |s.pending| && s'.pending[i].tag == s.pending[i].tag
            && OpenOrAcked(s'.client, s'.pending[i].promise)
  {
    OneEvent(c, s, Reap(i));
    Keeps(c, s, Reap(i));
    TagsStep(c, s, Reap(i));
    NextIsOpen(c, s);
    hide Inv, Execute;
  }

  /** A confirmed entry leaves the list. */
  lemma Leaves(c: Setup, s: State, i: nat)
    requires Inv(c, s) && DifferentTags(s) && i < |s.pending|
    requires var p := s.pending[i].promise; p in s.client.settled && s.client.settled[p] == Got(Ack)
    ensures var s', t := Execute(c, s, [Reap(i)]), s.pending[i].tag;
            !Pending(s', t) && WasConfirmed(s', t)
  {
    OneEvent(c, s, Reap(i));
    hide Execute;
    assert EntryOk(s, s.pending[i]);
    hide Inv;
    var s' := Advance(c, s, Reap(i));
    forall j | 0 <= j < |s'.pending| ensures s'.pending[j].tag != s.pending[i].tag {
      assert s'.pending[j] == s.pending[if j < i then j else j + 1];
    }
  }

  lemma ConfirmedFrom(c: Setup, s: State, i: nat) returns (es: seq<Event>)
    requires Working(c, s) && DifferentTags(s) && i < |s.pending|
    ensures var s', t := Execute(c, s, es), s.pending[i].tag;
            !Pending(s', t) && WasConfirmed(s', t)
  {
    hide Execute, Inv;
    var first: seq<Event> := [];
    if !OpenOrAcked(s.client, s.pending[i].promise) {
      AsksAgain(c, s, i);
      first := [Reap(i)];
    } else {
      NoEvent(c, s);
    }
    var s1 := Execute(c, s, first);
    var acks := AckComes(c, s1, i);
    Leaves(c, Execute(c, s1, acks), i);
    ExecuteOn(c, s1, acks, [Reap(i)]);
    ExecuteOn(c, s, first, acks + [Reap(i)]);
    es := first + (acks + [Reap(i)]);
  }

  lemma NoEvent(c: Setup, s: State)
    ensures Execute(c, s, []) == s
  {
  }

  /** No message waits in vain: from every reachable state in which the client has
      endpoints, and will have some after the next switch, a run leads on in which a
      given waiting message is confirmed and leaves the list. */
  lemma CanBeConfirmed(c: Setup, endpoints: set<ServerId>, servers: set<ServerId>, es: seq<Event>, t: nat)
    returns (more: seq<Event>)
    requires var s := Execute(c, Init(endpoints, servers), es);
             Pending(s, t) && Connected(s.client) && servers != {} && c.maxInQueue >= 1
    ensures var s' := Execute(c, Init(endpoints, servers), es + more);
            !Pending(s', t) && WasConfirmed(s', t)
  {
    EveryRun(c, endpoints, servers, es);
    TagsDiffer(c, endpoints, servers, es);
    ServersStay(c, endpoints, servers, es);
    hide Execute, Inv;
    var s := Execute(c, Init(endpoints, servers), es);
    var i :| 0 <= i < |s.pending| && s.pending[i].tag == t;
    more := ConfirmedFrom(c, s, i);
    ExecuteOn(c, Init(endpoints, servers), es, more);
  }
}
