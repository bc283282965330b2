/**
  The client side of the request/reply service (cpid/reqrepserver.cpp): it sends
  requests under fresh ids, a limited number at a time, and sends them again when
  no reply comes in time.
 */
module ReqRep {

  type Msg = string
  type ReqId = nat
  type Promise = nat
  type ServerId = nat

  datatype Reply = Ack | Deny

  /** What a promise was settled with. */
  datatype Outcome = Got(reply: Reply) | Failed

  datatype Item = Item(promise: Promise, msg: Msg, retries: nat)

  datatype Flight = Flight(id: ReqId, item: Item)

  datatype Issue = Issue(promise: Promise, msg: Msg)

  /** Where the client's thread is. */
  datatype Loc = Top | Draining | Polling | Requeueing | Resending | Sending | Crashed

  datatype Limits = Limits(maxConcurrent: nat, maxRetries: nat)

  // ---------------------------------------------------------------------
  // The client
  // ---------------------------------------------------------------------

  /** Promises are numbered in the order of the requests; `issued` remembers
      every id that was ever used. */
  datatype Client = Client(
    queue: seq<Item>,
    resend: seq<Item>,
    requests: seq<Flight>,
    settled: map<Promise, Outcome>,
    issued: map<ReqId, Issue>,
    next: Promise,
    loc: Loc,
    endpoints: set<ServerId>,
    wanted: set<ServerId>,
    changed: bool)

  function NewClient(endpoints: set<ServerId>): Client {
    Client([], [], [], map[], map[], 0, Top, endpoints, endpoints, false)
  }

  function Without<T>(xs: seq<T>, i: nat): (r: seq<T>)
    requires i < |xs|
    ensures |r| == |xs| - 1
  {
    xs[..i] + xs[i + 1..]
  }

  /** The position of a request in flight, or the number of requests. */
  function Find(fs: seq<Flight>, id: ReqId): (i: nat)
    ensures i <= |fs| && (i < |fs| ==> fs[i].id == id) && (forall j :: 0 <= j < i ==> fs[j].id != id)
  {
    if fs == [] then 0
    else if fs[0].id == id then 0
    else 1 + Find(fs[1..], id)
  }

  predicate InFlight(k: Client, id: ReqId) {
    Find(k.requests, id) < |k.requests|
  }

  function DoRequest(k: Client, msg: Msg): Client {
    k.(queue := k.queue + [Item(k.next, msg, 0)], next := k.next + 1)
  }

  /** A reply settles the request that is in flight under its id, if there is one. */
  function DoReceive(k: Client, id: ReqId, r: Reply): Client {
    var i := Find(k.requests, id);
    if i < |k.requests| then
      k.(requests := Without(k.requests, i), settled := k.settled[k.requests[i].item.promise := Got(r)])
    else k
  }

  /** A request that waited too long is sent again, or failed for good. */
  function ExpireOne(c: Limits, k: Client, i: nat): Client
    requires i < |k.requests|
  {
    var item := k.requests[i].item;
    if item.retries < c.maxRetries then
      k.(requests := Without(k.requests, i), resend := k.resend + [item.(retries := item.retries + 1)])
    else
      k.(requests := Without(k.requests, i), settled := k.settled[item.promise := Failed])
  }

  function DoExpire(c: Limits, k: Client, id: ReqId): Client {
    var i := Find(k.requests, id);
    if i < |k.requests| then ExpireOne(c, k, i) else k
  }

  predicate CanSend(c: Limits, k: Client) {
    && k.endpoints != {} && |k.requests| < c.maxConcurrent
    && ((k.loc.Resending? && k.resend != []) || (k.loc.Sending? && k.queue != []))
  }

  function Sent(k: Client, id: ReqId, item: Item): Client {
    k.(requests := k.requests + [Flight(id, item)], issued := k.issued[id := Issue(item.promise, item.msg)])
  }

  function DoSend(c: Limits, k: Client, id: ReqId): Client
    requires CanSend(c, k)
  {
    if k.loc.Resending? then Sent(k, id, k.resend[0]).(resend := k.resend[1..])
    else Sent(k, id, k.queue[0]).(queue := k.queue[1..])
  }

  /** The client's steps; an event that cannot happen changes nothing. */
  datatype Step =
    | Request(msg: Msg)
    | SetEndpoints(to: set<ServerId>)
    | Begin
    | Switch
    | Receive(id: ReqId, reply: Reply)
    | Quiet
    | Expire(id: ReqId)
    | Requeued
    | Send(id: ReqId)
    | SendDone

  predicate Enabled(c: Limits, k: Client, e: Step) {
    match e
    case Request(_) => true
    case SetEndpoints(_) => true
    case Begin => k.loc.Top?
    case Switch => k.loc.Draining? && k.requests == []
    case Receive(_, _) => k.loc.Polling? || (k.loc.Draining? && k.requests != [])
    case Quiet => k.loc.Polling?
    case Expire(_) => k.loc.Requeueing? || (k.loc.Draining? && k.requests != [])
    case Requeued => k.loc.Requeueing?
    case Send(id) => CanSend(c, k) && id !in k.issued
    case SendDone => (k.loc.Resending? || k.loc.Sending?) && !CanSend(c, k)
  }

  function Do(c: Limits, k: Client, e: Step): Client
    requires Enabled(c, k, e)
  {
    match e
    case Request(msg) => DoRequest(k, msg)
    case SetEndpoints(to) => if to == k.wanted then k else k.(wanted := to, changed := true)
    case Begin => k.(loc := if k.changed then Draining else Polling)
    case Switch => k.(endpoints := k.wanted, changed := false, loc := Polling)
    case Receive(id, r) => DoReceive(k, id, r).(loc := if k.loc.Polling? then Requeueing else k.loc)
    case Quiet => k.(loc := Requeueing)
    case Expire(id) => DoExpire(c, k, id)
    case Requeued => k.(loc := Resending)
    case Send(id) => DoSend(c, k, id)
    // The assertion that everything to be sent again was sent.
    case SendDone => k.(loc := if k.loc.Sending? then Top else if k.resend == [] then Sending else Crashed)
  }

  function Apply(c: Limits, k: Client, e: Step): Client {
    if Enabled(c, k, e) then Do(c, k, e) else k
  }

  function Run(c: Limits, k: Client, es: seq<Step>): Client {
    if es == [] then k else Apply(c, Run(c, k, es[..|es| - 1]), es[|es| - 1])
  }

  // ---------------------------------------------------------------------
  // Conservation
  // ---------------------------------------------------------------------

  function Bodies(fs: seq<Flight>): (xs: seq<Item>)
    ensures |xs| == |fs|
  {
    seq(|fs|, i requires 0 <= i < |fs| => fs[i].item)
  }

  function Count(xs: seq<Item>, p: Promise): nat {
    if xs == [] then 0 else Count(xs[..|xs| - 1], p) + if xs[|xs| - 1].promise == p then 1 else 0
  }

  /** How many items the client holds for a promise. */
  function Held(k: Client, p: Promise): nat {
    Count(k.queue, p) + Count(k.resend, p) + Count(Bodies(k.requests), p)
  }

  lemma {:induction false} CountCat(xs: seq<Item>, ys: seq<Item>, p: Promise)
    ensures Count(xs + ys, p) == Count(xs, p) + Count(ys, p)
    decreases |ys|
  {
    if ys == [] {
      assert xs + ys == xs;
    } else {
      CountCat(xs, ys[..|ys| - 1], p);
      assert (xs + ys)[..|xs + ys| - 1] == xs + ys[..|ys| - 1];
    }
  }

  lemma CountOne(x: Item, p: Promise)
    ensures Count([x], p) == if x.promise == p then 1 else 0
  {
    assert [x][..0] == [];
  }

  lemma CountWithout(xs: seq<Item>, i: nat, p: Promise)
    requires i < |xs|
    ensures Count(xs, p) == Count(Without(xs, i), p) + if xs[i].promise == p then 1 else 0
  {
    hide Count;
    assert xs == xs[..i] + [xs[i]] + xs[i + 1..];
    CountCat(xs[..i] + [xs[i]], xs[i + 1..], p);
    CountCat(xs[..i], [xs[i]], p);
    CountCat(xs[..i], xs[i + 1..], p);
    CountOne(xs[i], p);
  }

  lemma {:induction false} CountIn(xs: seq<Item>, p: Promise)
    ensures Count(xs, p) > 0 <==> exists i :: 0 <= i < |xs| && xs[i].promise == p
    decreases |xs|
  {
    if xs != [] {
      CountIn(xs[..|xs| - 1], p);
    }
  }

  /** Every request is in exactly one place: in a queue, in flight, or settled. */
  ghost predicate Books(k: Client) {
    && (forall p: Promise :: Held(k, p) == if p < k.next && p !in k.settled then 1 else 0)
    && (forall p :: p in k.settled ==> p < k.next)
  }

  /** In flight and to be sent again, never more than the limit. */
  ghost predicate Capacity(c: Limits, k: Client) {
    && |k.requests| + |k.resend| <= c.maxConcurrent
    && (k.loc.Sending? ==> k.resend == [])
  }

  /** The ids in flight are distinct and were issued for their items. */
  ghost predicate Ids(k: Client) {
    && (forall i :: 0 <= i < |k.requests| ==>
          var f := k.requests[i]; f.id in k.issued && k.issued[f.id] == Issue(f.item.promise, f.item.msg))
    && (forall i, j :: 0 <= i < j < |k.requests| ==> k.requests[i].id != k.requests[j].id)
    && (forall id :: id in k.issued ==> k.issued[id].promise < k.next)
  }

  lemma BooksMove(k: Client, k': Client)
    requires Books(k) && k'.next == k.next && k'.settled == k.settled && forall p: Promise :: Held(k', p) == Held(k, p)
    ensures Books(k')
  {
    hide Held;
  }

  lemma BooksSettle(k: Client, k': Client, q: Promise, o: Outcome)
    requires Books(k) && k'.next == k.next && k'.settled == k.settled[q := o]
    requires forall p: Promise :: Held(k', p) + (if p == q then 1 else 0) == Held(k, p)
    ensures q !in k.settled && Books(k')
  {
    hide Held;
    assert Held(k, q) > 0;
  }

  lemma FlightGone(k: Client, i: nat, p: Promise)
    requires i < |k.requests|
    ensures Count(Bodies(k.requests), p) ==
            Count(Bodies(Without(k.requests, i)), p) + if k.requests[i].item.promise == p then 1 else 0
  {
    hide Count;
    assert Bodies(Without(k.requests, i)) == Without(Bodies(k.requests), i);
    CountWithout(Bodies(k.requests), i, p);
  }

  lemma RequestBooks(k: Client, msg: Msg)
    requires Books(k)
    ensures Books(DoRequest(k, msg))
  {
    hide Count;
    var k' := DoRequest(k, msg);
    forall p ensures Held(k', p) == Held(k, p) + if p == k.next then 1 else 0 {
      CountCat(k.queue, [Item(k.next, msg, 0)], p);
      CountOne(Item(k.next, msg, 0), p);
    }
    hide Held;
  }

  lemma ReceiveBooks(k: Client, id: ReqId, r: Reply)
    requires Books(k)
    ensures Books(DoReceive(k, id, r))
    ensures InFlight(k, id) ==> k.requests[Find(k.requests, id)].item.promise !in k.settled
  {
    hide Count, Find, Books, Bodies;
    var i := Find(k.requests, id);
    if i < |k.requests| {
      var q := k.requests[i].item.promise;
      var k' := DoReceive(k, id, r);
      forall p ensures Held(k', p) + (if p == q then 1 else 0) == Held(k, p) {
        FlightGone(k, i, p);
      }
      BooksSettle(k, k', q, Got(r));
    }
  }

  lemma ExpireBooks(c: Limits, k: Client, id: ReqId)
    requires Books(k)
    ensures Books(DoExpire(c, k, id))
    ensures InFlight(k, id) ==> k.requests[Find(k.requests, id)].item.promise !in k.settled
  {
    hide Count, Find, Books, Bodies;
    var i := Find(k.requests, id);
    if i < |k.requests| {
      ReceiveBooks(k, id, Ack);
      var item := k.requests[i].item;
      var k' := DoExpire(c, k, id);
      var again := item.(retries := item.retries + 1);
      if item.retries < c.maxRetries {
        forall p ensures Held(k', p) == Held(k, p) {
          FlightGone(k, i, p);
          CountCat(k.resend, [again], p);
          CountOne(again, p);
        }
        BooksMove(k, k');
      } else {
        forall p ensures Held(k', p) + (if p == item.promise then 1 else 0) == Held(k, p) {
          FlightGone(k, i, p);
        }
        BooksSettle(k, k', item.promise, Failed);
      }
    }
  }

  /** The first item of a queue goes into flight. */
  lemma HeadFlies(xs: seq<Item>, fs: seq<Flight>, id: ReqId, p: Promise)
    requires xs != []
    ensures Count(xs[1..], p) + Count(Bodies(fs + [Flight(id, xs[0])]), p) == Count(xs, p) + Count(Bodies(fs), p)
  {
    hide Count;
    assert Bodies(fs + [Flight(id, xs[0])]) == Bodies(fs) + [xs[0]];
    CountCat(Bodies(fs), [xs[0]], p);
    CountOne(xs[0], p);
    CountWithout(xs, 0, p);
    assert Without(xs, 0) == xs[1..];
  }

  lemma SendBooks(c: Limits, k: Client, id: ReqId)
    requires Books(k) && CanSend(c, k)
    ensures Books(DoSend(c, k, id))
  {
    hide Count, Books, Bodies;
    var k' := DoSend(c, k, id);
    forall p ensures Held(k', p) == Held(k, p) {
      HeadFlies(if k.loc.Resending? then k.resend else k.queue, k.requests, id, p);
    }
    BooksMove(k, k');
  }

  lemma ApplyBooks(c: Limits, k: Client, e: Step)
    requires Books(k)
    ensures Books(Apply(c, k, e))
  {
    hide Held, Find, DoReceive, DoExpire, DoSend, DoRequest;
    if Enabled(c, k, e) {
      match e {
        case Request(msg) => RequestBooks(k, msg);
        case Receive(id, r) =>
          ReceiveBooks(k, id, r);
          SameBooks(DoReceive(k, id, r), Do(c, k, e));
        case Expire(id) => ExpireBooks(c, k, id);
        case Send(id) => SendBooks(c, k, id);
        case _ => SameBooks(k, Do(c, k, e));
      }
    }
  }

  lemma SameBooks(k: Client, k': Client)
    requires Books(k) && k'.next == k.next && k'.settled == k.settled
    requires k'.queue == k.queue && k'.resend == k.resend && k'.requests == k.requests
    ensures Books(k')
  {
    hide Count, Bodies;
  }

  // ---------------------------------------------------------------------
  // Capacity, ids and attempts
  // ---------------------------------------------------------------------

  lemma ApplyCapacity(c: Limits, k: Client, e: Step)
    requires Capacity(c, k)
    ensures Capacity(c, Apply(c, k, e))
  {
    hide Find;
  }

  lemma GoneIds(k: Client, k': Client, i: nat)
    requires Ids(k) && i < |k.requests|
    requires k'.requests == Without(k.requests, i) && k'.issued == k.issued && k'.next == k.next
    ensures Ids(k')
  {
    forall j | 0 <= j < |k'.requests|
      ensures k'.requests[j] == k.requests[if j < i then j else j + 1]
    {
    }
  }

  lemma SentIds(c: Limits, k: Client, id: ReqId)
    requires Ids(k) && Books(k) && CanSend(c, k) && id !in k.issued
    ensures Ids(DoSend(c, k, id))
  {
    hide Held, Books;
    HeldHead(k);
    HeldIsKnown(k, if k.loc.Resending? then k.resend[0].promise else k.queue[0].promise);
  }

  lemma ApplyIds(c: Limits, k: Client, e: Step)
    requires Ids(k) && Books(k)
    ensures Ids(Apply(c, k, e))
  {
    hide Find, Books, DoSend, Without;
    if Enabled(c, k, e) {
      match e {
        case Receive(id, _) =>
          if InFlight(k, id) {
            GoneIds(k, Do(c, k, e), Find(k.requests, id));
          }
        case Expire(id) =>
          if InFlight(k, id) {
            GoneIds(k, Do(c, k, e), Find(k.requests, id));
          }
        case Send(id) => SentIds(c, k, id);
        case _ =>
      }
    }
  }

  lemma HeldHead(k: Client)
    ensures k.queue != [] ==> Held(k, k.queue[0].promise) > 0
    ensures k.resend != [] ==> Held(k, k.resend[0].promise) > 0
    ensures forall i :: 0 <= i < |k.requests| ==> Held(k, k.requests[i].item.promise) > 0
  {
    if k.queue != [] {
      CountIn(k.queue, k.queue[0].promise);
    }
    if k.resend != [] {
      CountIn(k.resend, k.resend[0].promise);
    }
    forall i | 0 <= i < |k.requests| ensures Held(k, k.requests[i].item.promise) > 0 {
      assert Bodies(k.requests)[i].promise == k.requests[i].item.promise;
      CountIn(Bodies(k.requests), k.requests[i].item.promise);
    }
  }

  lemma HeldIsKnown(k: Client, p: Promise)
    requires Books(k) && Held(k, p) > 0
    ensures p < k.next && p !in k.settled && Held(k, p) == 1
  {
  }

  /** The ids under which a promise's message was sent. */
  function IdsOf(k: Client, p: Promise): set<ReqId> {
    set id | id in k.issued && k.issued[id].promise == p
  }

  /** How often a message was sent, from where its item is. */
  ghost predicate AttemptsOf(c: Limits, k: Client, p: Promise) {
    var n := |IdsOf(k, p)|;
    && (forall x :: x in k.queue && x.promise == p ==> x.retries == 0 && n == 0)
    && (forall x :: x in k.resend && x.promise == p ==> x.retries <= c.maxRetries && n == x.retries)
    && (forall f :: f in k.requests && f.item.promise == p ==>
          f.item.retries <= c.maxRetries && n == f.item.retries + 1)
    && (p in k.settled ==> n <= c.maxRetries + 1)
  }

  ghost predicate Attempts(c: Limits, k: Client) {
    forall p: Promise :: AttemptsOf(c, k, p)
  }

  lemma RequestAttempts(c: Limits, k: Client, msg: Msg, p: Promise)
    requires AttemptsOf(c, k, p) && Ids(k)
    ensures AttemptsOf(c, DoRequest(k, msg), p)
  {
    var k' := DoRequest(k, msg);
    assert IdsOf(k', p) == IdsOf(k, p);
    if p == k.next {
      assert IdsOf(k, p) == {};
    }
  }

  lemma GoneAttempts(c: Limits, k: Client, id: ReqId, r: Reply, p: Promise)
    requires AttemptsOf(c, k, p)
    ensures AttemptsOf(c, DoReceive(k, id, r), p) && AttemptsOf(c, DoExpire(c, k, id), p)
  {
    hide Find;
    var i := Find(k.requests, id);
    if i < |k.requests| {
      assert k.requests[i] in k.requests;
      assert forall f :: f in Without(k.requests, i) ==> f in k.requests;
      assert IdsOf(DoReceive(k, id, r), p) == IdsOf(k, p) && IdsOf(DoExpire(c, k, id), p) == IdsOf(k, p);
    }
  }

  lemma SendOthers(c: Limits, k: Client, id: ReqId, p: Promise)
    requires AttemptsOf(c, k, p) && CanSend(c, k) && id !in k.issued
    requires p != if k.loc.Resending? then k.resend[0].promise else k.queue[0].promise
    ensures AttemptsOf(c, DoSend(c, k, id), p)
  {
    assert IdsOf(DoSend(c, k, id), p) == IdsOf(k, p);
  }

  lemma SendThis(c: Limits, k: Client, id: ReqId, p: Promise)
    requires AttemptsOf(c, k, p) && Books(k) && CanSend(c, k) && id !in k.issued
    requires p == if k.loc.Resending? then k.resend[0].promise else k.queue[0].promise
    ensures AttemptsOf(c, DoSend(c, k, id), p)
  {
    hide Held, Count, Bodies, Books;
    var k' := DoSend(c, k, id);
    var x := if k.loc.Resending? then k.resend[0] else k.queue[0];
    assert k.loc.Resending? ==> x in k.resend;
    assert k.loc.Sending? ==> x in k.queue;
    assert IdsOf(k', p) == IdsOf(k, p) + {id};
    SendBooks(c, k, id);
    HeldHead(k);
    HeldIsKnown(k, p);
    LastAlone(k', p);
  }

  /** The item that was sent last is the only one for its promise. */
  lemma LastAlone(k: Client, p: Promise)
    requires Books(k) && k.requests != [] && k.requests[|k.requests| - 1].item.promise == p
    ensures (forall x :: x in k.queue ==> x.promise != p) && (forall x :: x in k.resend ==> x.promise != p)
    ensures forall i :: 0 <= i < |k.requests| - 1 ==> k.requests[i].item.promise != p
  {
    var n := |k.requests| - 1;
    HeldHead(k);
    HeldIsKnown(k, p);
    var xs := Bodies(k.requests);
    assert Count(xs, p) == Count(xs[..n], p) + 1;
    CountIn(k.queue, p);
    CountIn(k.resend, p);
    CountIn(xs[..n], p);
    forall i | 0 <= i < n ensures k.requests[i].item.promise != p {
      assert xs[..n][i] == k.requests[i].item;
    }
  }

  lemma ApplyAttempts(c: Limits, k: Client, e: Step)
    requires Attempts(c, k) && Books(k) && Ids(k)
    ensures Attempts(c, Apply(c, k, e))
  {
    hide AttemptsOf, Books, Ids, DoReceive, DoExpire, DoSend, DoRequest;
    var k' := Apply(c, k, e);
    forall p: Promise ensures AttemptsOf(c, k', p) {
      assert AttemptsOf(c, k, p);
      if Enabled(c, k, e) {
        match e {
          case Request(msg) => RequestAttempts(c, k, msg, p);
          case Receive(id, r) =>
            GoneAttempts(c, k, id, r, p);
            SameAttempts(c, DoReceive(k, id, r), k', p);
          case Expire(id) => GoneAttempts(c, k, id, Ack, p);
          case Send(id) =>
            if p == if k.loc.Resending? then k.resend[0].promise else k.queue[0].promise {
              SendThis(c, k, id, p);
            } else {
              SendOthers(c, k, id, p);
            }
          case _ => SameAttempts(c, k, k', p);
        }
      }
    }
  }

  lemma SameAttempts(c: Limits, k: Client, k': Client, p: Promise)
    requires AttemptsOf(c, k, p) && k'.settled == k.settled && k'.issued == k.issued
    requires k'.queue == k.queue && k'.resend == k.resend && k'.requests == k.requests
    ensures AttemptsOf(c, k', p)
  {
    assert IdsOf(k', p) == IdsOf(k, p);
  }

  // ---------------------------------------------------------------------
  // Every run of the client
  // ---------------------------------------------------------------------

  ghost predicate ClientInv(c: Limits, k: Client) {
    Books(k) && Capacity(c, k) && Ids(k) && Attempts(c, k)
  }

  lemma StartOk(c: Limits, endpoints: set<ServerId>)
    ensures ClientInv(c, NewClient(endpoints))
  {
  }

  lemma ApplyKeeps(c: Limits, k: Client, e: Step)
    requires ClientInv(c, k)
    ensures ClientInv(c, Apply(c, k, e))
  {
    hide Books, Capacity, Ids, Attempts, Apply;
    ApplyBooks(c, k, e);
    ApplyCapacity(c, k, e);
    ApplyIds(c, k, e);
    ApplyAttempts(c, k, e);
  }

  lemma {:induction false} Reachable(c: Limits, endpoints: set<ServerId>, es: seq<Step>)
    ensures ClientInv(c, Run(c, NewClient(endpoints), es))
    decreases |es|
  {
    if es == [] {
      StartOk(c, endpoints);
    } else {
      Reachable(c, endpoints, es[..|es| - 1]);
      hide ClientInv, Apply;
      ApplyKeeps(c, Run(c, NewClient(endpoints), es[..|es| - 1]), es[|es| - 1]);
    }
  }

  /** While the client resends, whatever is requested or reconfigured meanwhile. */
  lemma {:induction false} WhileResending(c: Limits, k: Client, es: seq<Step>)
    requires ClientInv(c, k) && k.loc.Resending? && SendDone !in es
    ensures var k' := Run(c, k, es);
            && ClientInv(c, k') && k'.loc.Resending? && k'.endpoints == k.endpoints
            && (k.endpoints == {} ==> k'.resend == k.resend)
    decreases |es|
  {
    if es != [] {
      var was := Run(c, k, es[..|es| - 1]);
      WhileResending(c, k, es[..|es| - 1]);
      ApplyKeeps(c, was, es[|es| - 1]);
      hide ClientInv, Find, Run;
    }
  }

  /** The assertion after the resend loop fails exactly if the loop began without
      endpoints and with something to send again: from every reachable state, for
      every way through the loop. */
  lemma CrashExactly(c: Limits, endpoints: set<ServerId>, es: seq<Step>, loop: seq<Step>)
    requires Run(c, NewClient(endpoints), es).loc.Resending? && SendDone !in loop
    requires Enabled(c, Run(c, Run(c, NewClient(endpoints), es), loop), SendDone)
    ensures var k := Run(c, NewClient(endpoints), es);
            Apply(c, Run(c, k, loop), SendDone).loc.Crashed? <==> k.endpoints == {} && k.resend != []
  {
    hide Books, Ids, Attempts, Run;
    Reachable(c, endpoints, es);
    WhileResending(c, Run(c, NewClient(endpoints), es), loop);
  }

  ghost predicate KeepsEndpoints(es: seq<Step>) {
    forall i :: 0 <= i < |es| && es[i].SetEndpoints? ==> es[i].to != {}
  }

  /** A client that always has endpoints never fails it. */
  lemma {:induction false} NeverCrashes(c: Limits, endpoints: set<ServerId>, es: seq<Step>)
    requires endpoints != {} && KeepsEndpoints(es)
    ensures var k := Run(c, NewClient(endpoints), es);
            !k.loc.Crashed? && k.endpoints != {} && k.wanted != {}
    decreases |es|
  {
    hide Apply;
    if es != [] {
      var was := es[..|es| - 1];
      NeverCrashes(c, endpoints, was);
      Reachable(c, endpoints, was);
      hide ClientInv;
      NoCrashStep(c, Run(c, NewClient(endpoints), was), es[|es| - 1]);
    }
  }

  lemma NoCrashStep(c: Limits, k: Client, e: Step)
    requires ClientInv(c, k) && !k.loc.Crashed? && k.endpoints != {} && k.wanted != {}
    requires e.SetEndpoints? ==> e.to != {}
    ensures var k' := Apply(c, k, e); !k'.loc.Crashed? && k'.endpoints != {} && k'.wanted != {}
  {
    hide Find, Without, Books, Ids, Attempts;
  }

  lemma Then(c: Limits, k: Client, es: seq<Step>, e: Step, k': Client) returns (r: seq<Step>)
    requires k' == Apply(c, Run(c, k, es), e)
    ensures r == es + [e] && Run(c, k, r) == k'
  {
    r := es + [e];
    assert r[..|r| - 1] == es;
  }

  const OneFlies := Client(
    [], [], [Flight(7, Item(0, "m", 0))], map[], map[7 := Issue(0, "m")], 1, Top, {0}, {0}, false)

  lemma OneIsSent() returns (es: seq<Step>)
    ensures Run(Limits(1, 1), NewClient({0}), es) == OneFlies
  {
    hide Run;
    var c, k := Limits(1, 1), NewClient({0});
    var k1 := k.(queue := [Item(0, "m", 0)], next := 1);
    es := StartRun(c, k);
    es := Then(c, k, es, Request("m"), k1);
    es := Then(c, k, es, Begin, k1.(loc := Polling));
    es := Then(c, k, es, Quiet, k1.(loc := Requeueing));
    es := Then(c, k, es, Requeued, k1.(loc := Resending));
    es := Then(c, k, es, SendDone, k1.(loc := Sending));
    es := Then(c, k, es, Send(7), OneFlies.(loc := Sending));
    es := Then(c, k, es, SendDone, OneFlies);
  }

  /** It does fail when the endpoints are taken away while a request is in flight. */
  lemma CrashHappens() returns (es: seq<Step>)
    ensures Run(Limits(1, 1), NewClient({0}), es).loc.Crashed?
  {
    hide Run;
    var c, k := Limits(1, 1), NewClient({0});
    es := OneIsSent();
    var k1 := OneFlies.(wanted := {}, changed := true);
    es := Then(c, k, es, SetEndpoints({}), k1);
    es := Then(c, k, es, Begin, k1.(loc := Draining));
    var k2 := k1.(requests := [], resend := [Item(0, "m", 1)], loc := Draining);
    es := Then(c, k, es, Expire(7), k2);
    var k3 := k2.(endpoints := {}, changed := false);
    es := Then(c, k, es, Switch, k3.(loc := Polling));
    es := Then(c, k, es, Quiet, k3.(loc := Requeueing));
    es := Then(c, k, es, Requeued, k3.(loc := Resending));
    es := Then(c, k, es, SendDone, k3.(loc := Crashed));
  }

  lemma StartRun(c: Limits, k: Client) returns (es: seq<Step>)
    ensures es == [] && Run(c, k, es) == k
  {
    es := [];
  }

  /** A settled promise stays as it is. */
  lemma SettledForGood(c: Limits, k: Client, e: Step, p: Promise)
    requires ClientInv(c, k) && p in k.settled
    ensures var k' := Apply(c, k, e); p in k'.settled && k'.settled[p] == k.settled[p]
  {
    hide Books, Capacity, Ids, Attempts, Find, Without;
    match e {
      case Receive(id, r) => ReceiveBooks(k, id, r);
      case Expire(id) => ExpireBooks(c, k, id);
      case _ =>
    }
  }

  /** A promise gets a reply only from the id under which it is in flight. */
  lemma ReplySettlesCurrent(c: Limits, k: Client, e: Step, p: Promise)
    requires ClientInv(c, k) && p !in k.settled && p in Apply(c, k, e).settled
    ensures var o := Apply(c, k, e).settled[p];
            && (o.Got? ==>
                  && e.Receive? && o.reply == e.reply && e.id in k.issued && k.issued[e.id].promise == p
                  && exists i ::
                       0 <= i < |k.requests| &&
                       k.requests[i] == Flight(e.id, Item(p, k.issued[e.id].msg, k.requests[i].item.retries)))
            && (o.Failed? ==> |IdsOf(k, p)| == c.maxRetries + 1)
  {
    hide Books, Capacity, Find, Without, IdsOf;
    if e.Receive? || e.Expire? {
      var i := Find(k.requests, e.id);
      assert k.requests[i] in k.requests && AttemptsOf(c, k, p);
    }
  }

  lemma FoundAt(k: Client, i: nat)
    requires Ids(k) && i < |k.requests|
    ensures Find(k.requests, k.requests[i].id) == i
  {
  }

  lemma WithoutIs<T>(xs: seq<T>, i: nat)
    requires i < |xs|
    ensures Without(xs, i) == xs[..i] + xs[i + 1..]
  {
  }

  lemma ReceiveIs(c: Limits, k: Client, id: ReqId, r: Reply)
    requires k.loc.Polling? || (k.loc.Draining? && k.requests != [])
    ensures var i, loc := Find(k.requests, id), if k.loc.Polling? then Requeueing else k.loc;
            Apply(c, k, Receive(id, r)) ==
            if i == |k.requests| then k.(loc := loc)
            else k.(loc := loc, requests := Without(k.requests, i),
                    settled := k.settled[k.requests[i].item.promise := Got(r)])
  {
    hide Find, Without;
  }

  /** Any reply, a confirmation or a denial, settles the request that is in flight under
      its id, and leaves everything else as it was. */
  lemma ReplySettles(c: Limits, endpoints: set<ServerId>, es: seq<Step>, i: nat, r: Reply)
    requires var k := Run(c, NewClient(endpoints), es);
             i < |k.requests| && (k.loc.Polling? || k.loc.Draining?)
    ensures var k := Run(c, NewClient(endpoints), es);
            var f, k' := k.requests[i], Apply(c, k, Receive(k.requests[i].id, r));
            && k'.settled == k.settled[f.item.promise := Got(r)] && f.item.promise !in k.settled
            && k'.requests == k.requests[..i] + k.requests[i + 1..]
            && (forall j :: 0 <= j < |k'.requests| ==> k'.requests[j].id != f.id)
            && k'.queue == k.queue && k'.resend == k.resend && k'.issued == k.issued && k'.next == k.next
  {
    Reachable(c, endpoints, es);
    var k := Run(c, NewClient(endpoints), es);
    hide Run;
    FoundAt(k, i);
    ReceiveBooks(k, k.requests[i].id, r);
    hide Books, Capacity, Attempts;
  }

  /** A reply under any other id changes nothing but where the thread is. */
  lemma StaleReplyIsIgnored(c: Limits, k: Client, id: ReqId, r: Reply)
    requires forall i :: 0 <= i < |k.requests| ==> k.requests[i].id != id
    ensures var k' := Apply(c, k, Receive(id, r)); k' == k.(loc := k'.loc)
  {
  }

  /** A request that timed out is to be sent again, or its promise fails, after the
      allowed number of retries; nothing else changes. */
  lemma TimeoutExactly(c: Limits, endpoints: set<ServerId>, es: seq<Step>, i: nat)
    requires var k := Run(c, NewClient(endpoints), es);
             i < |k.requests| && (k.loc.Requeueing? || k.loc.Draining?)
    ensures var k := Run(c, NewClient(endpoints), es);
            var x, k' := k.requests[i].item, Apply(c, k, Expire(k.requests[i].id));
            && k'.requests == k.requests[..i] + k.requests[i + 1..]
            && k'.queue == k.queue && k'.issued == k.issued && k'.next == k.next && k'.loc == k.loc
            && if x.retries < c.maxRetries
               then k'.resend == k.resend + [Item(x.promise, x.msg, x.retries + 1)] && k'.settled == k.settled
               else k'.resend == k.resend && k'.settled == k.settled[x.promise := Failed]
  {
    Reachable(c, endpoints, es);
    var k := Run(c, NewClient(endpoints), es);
    hide Run;
    FoundAt(k, i);
    hide ClientInv;
  }

  /** No message is sent more than once and `maxRetries` times again. */
  lemma SendsBounded(c: Limits, endpoints: set<ServerId>, es: seq<Step>, p: Promise)
    ensures |IdsOf(Run(c, NewClient(endpoints), es), p)| <= c.maxRetries + 1
  {
    Reachable(c, endpoints, es);
    var k := Run(c, NewClient(endpoints), es);
    hide Run;
    assert AttemptsOf(c, k, p);
    if p >= k.next {
      assert IdsOf(k, p) == {};
    } else if p !in k.settled {
      assert Held(k, p) == 1;
      CountIn(k.queue, p);
      CountIn(k.resend, p);
      CountIn(Bodies(k.requests), p);
      hide Count;
      if i :| 0 <= i < |k.requests| && Bodies(k.requests)[i].promise == p {
        assert k.requests[i] in k.requests;
      }
    }
  }

  // ---------------------------------------------------------------------
  // The class
  // ---------------------------------------------------------------------

  lemma {:induction false} RunOn(c: Limits, k: Client, a: seq<Step>, b: seq<Step>)
    ensures Run(c, k, a + b) == Run(c, Run(c, k, a), b)
    decreases |b|
  {
    if b == [] {
      assert a + b == a;
    } else {
      RunOn(c, k, a, b[..|b| - 1]);
      assert (a + b)[..|a + b| - 1] == a + b[..|b| - 1];
    }
  }

  class RequestClient {
    const limits: Limits
    var queue: seq<Item>
    var resend: seq<Item>
    var requests: seq<Flight>
    var settled: map<Promise, Outcome>
    var next: Promise
    var endpoints: set<ServerId>
    var wanted: set<ServerId>
    var changed: bool
    /** The source of request ids; every id below it was used. */
    var nextId: ReqId
    ghost var issued: map<ReqId, Issue>
    ghost var loc: Loc

    ghost function View(): (k: Client)
      reads this
    {
      Client(queue, resend, requests, settled, issued, next, loc, endpoints, wanted, changed)
    }

    ghost predicate Valid()
      reads this
    {
      ClientInv(limits, View()) && forall id :: id in issued ==> id < nextId
    }

    constructor (limits: Limits, endpoints: set<ServerId>)
      ensures Valid() && View() == NewClient(endpoints) && this.limits == limits
    {
      this.limits := limits;
      this.endpoints, wanted, changed := endpoints, endpoints, false;
      queue, resend, requests, settled, next, nextId := [], [], [], map[], 0, 0;
      issued, loc := map[], Top;
      new;
      StartOk(limits, endpoints);
    }

    method Request(msg: Msg) returns (promise: Promise)
      requires Valid()
      modifies this
      ensures Valid() && View() == Apply(limits, old(View()), Step.Request(msg)) && promise == old(next)
      ensures queue == old(queue) + [Item(promise, msg, 0)] && next == promise + 1
      ensures unchanged(`resend, `requests, `settled, `endpoints, `wanted, `changed, `issued, `loc)
    {
      hide ClientInv;
      ApplyKeeps(limits, View(), Step.Request(msg));
      promise := next;
      queue := queue + [Item(next, msg, 0)];
      next := next + 1;
    }

    method UpdateEndpoints(to: set<ServerId>) returns (updated: bool)
      requires Valid()
      modifies this
      ensures Valid() && View() == Apply(limits, old(View()), SetEndpoints(to)) && updated == (to != old(wanted))
      ensures wanted == to && changed == (old(changed) || updated)
      ensures unchanged(`queue, `resend, `requests, `settled, `next, `endpoints, `issued, `loc)
    {
      hide ClientInv;
      ApplyKeeps(limits, View(), SetEndpoints(to));
      updated := to != wanted;
      if updated {
        wanted := to;
        changed := true;
      }
    }

    /** A reply, if there is one. */
    method PollHandleReply(id: ReqId, reply: Reply)
      requires Valid() && (loc.Polling? || (loc.Draining? && requests != []))
      modifies this
      ensures Valid() && View() == Apply(limits, old(View()), Receive(id, reply))
      ensures forall i :: 0 <= i < |old(requests)| && old(requests)[i].id == id ==>
                && settled == old(settled)[old(requests)[i].item.promise := Got(reply)]
                && requests == old(requests)[..i] + old(requests)[i + 1..]
      ensures (forall i :: 0 <= i < |old(requests)| ==> old(requests)[i].id != id) ==> unchanged(`settled, `requests)
      ensures unchanged(`queue, `resend, `next, `endpoints, `wanted, `changed, `issued)
    {
      hide Books, Capacity, Attempts, Apply, Without;
      forall i | 0 <= i < |requests| && requests[i].id == id ensures Find(requests, id) == i {
        FoundAt(View(), i);
      }
      hide ClientInv, Ids;
      ReceiveIs(limits, View(), id, reply);
      ApplyKeeps(limits, View(), Receive(id, reply));
      var i := Find(requests, id);
      if i < |requests| {
        WithoutIs(requests, i);
      }
      hide Find;
      if i < |requests| {
        settled := settled[requests[i].item.promise := Got(reply)];
        requests := Without(requests, i);
      }
      if loc.Polling? {
        loc := Requeueing;
      }
    }

    /** Takes a request out of flight: to be sent again, or failed for good. */
    method ExpireAt(i: nat) returns (ghost e: Step)
      requires Valid() && i < |requests| && (loc.Requeueing? || loc.Draining?)
      modifies this
      ensures e == Expire(old(requests[i].id)) && Valid() && View() == Apply(limits, old(View()), e)
      ensures requests == Without(old(requests), i) && unchanged(`loc, `endpoints, `wanted, `changed, `issued, `queue)
      ensures var x := old(requests)[i].item;
              if x.retries < limits.maxRetries
              then resend == old(resend) + [Item(x.promise, x.msg, x.retries + 1)] && settled == old(settled)
              else resend == old(resend) && settled == old(settled)[x.promise := Failed]
    {
      hide ClientInv, Apply, Without;
      e := Expire(requests[i].id);
      ExpireFound(limits, View(), i);
      ApplyKeeps(limits, View(), e);
      var item := requests[i].item;
      if item.retries < limits.maxRetries {
        resend := resend + [item.(retries := item.retries + 1)];
      } else {
        settled := settled[item.promise := Failed];
      }
      requests := Without(requests, i);
    }

    /** Takes every request that waited too long out of flight. */
    method RequeueExpired(expired: set<ReqId>) returns (ghost es: seq<Step>)
      requires Valid() && (loc.Requeueing? || loc.Draining?)
      modifies this
      ensures Valid() && View() == Run(limits, old(View()), es)
      ensures unchanged(`loc, `endpoints, `wanted, `changed, `issued, `queue)
      ensures Within(requests, old(requests)) && NoneOf(requests, |requests|, expired)
      ensures AllIn(old(requests), expired) ==> requests == []
      ensures forall j :: 0 <= j < |es| ==> es[j].Expire? && es[j].id in expired
    {
      hide ClientInv, Apply, Within, Without;
      es := StartRun(limits, View());
      var i := 0;
      WithinSelf(requests);
      while i < |requests|
        invariant i <= |requests| && Valid() && View() == Run(limits, old(View()), es)
        invariant unchanged(`loc, `endpoints, `wanted, `changed, `issued, `queue)
        invariant Within(requests, old(requests)) && NoneOf(requests, i, expired)
        invariant AllIn(old(requests), expired) ==> i == 0
        invariant forall j :: 0 <= j < |es| ==> es[j].Expire? && es[j].id in expired
        decreases |requests| - i
      {
        WithinAt(requests, old(requests), i);
        if requests[i].id in expired {
          WithoutOne(requests, old(requests), i, expired);
          ghost var e := ExpireAt(i);
          es := Then(limits, old(View()), es, e, View());
        } else {
          i := i + 1;
        }
      }
    }

    /** Sends one item under a new id. */
    method SendOne(again: bool) returns (ghost e: Step)
      requires Valid() && loc == (if again then Resending else Sending) && CanSend(limits, View())
      modifies `queue, `resend, `requests, `issued, `nextId
      ensures e == Send(old(nextId)) && Valid() && View() == Apply(limits, old(View()), e)
      ensures |queue| + |resend| < old(|queue| + |resend|)
      ensures var from := old(if again then resend else queue);
              && requests == old(requests) + [Flight(old(nextId), from[0])]
              && resend == (if again then from[1..] else old(resend))
              && queue == if again then old(queue) else from[1..]
    {
      hide ClientInv;
      e := Send(nextId);
      ApplyKeeps(limits, View(), e);
      var item;
      if again {
        item := resend[0];
        resend := resend[1..];
      } else {
        item := queue[0];
        queue := queue[1..];
      }
      requests := requests + [Flight(nextId, item)];
      issued := issued[nextId := Issue(item.promise, item.msg)];
      nextId := nextId + 1;
    }

    /** Sends from one of the queues, as long as the limit allows. An attempt that
        fails leaves the item in front, to be sent under another id; `sends` says
        which attempts fail, and that they stop failing. */
    method SendRequests(again: bool, sends: seq<bool>) returns (ghost es: seq<Step>)
      requires Valid() && loc == if again then Resending else Sending
      modifies `queue, `resend, `requests, `issued, `nextId
      ensures Valid() && View() == Run(limits, old(View()), es) && !CanSend(limits, View())
    {
      hide ClientInv, Apply;
      es := StartRun(limits, View());
      var n := 0;
      while (if again then resend != [] else queue != []) && endpoints != {} && |requests| < limits.maxConcurrent
        invariant n <= |sends| && Valid() && View() == Run(limits, old(View()), es)
        decreases |queue| + |resend|, |sends| - n
      {
        if n < |sends| && !sends[n] {
          nextId := nextId + 1;
          n := n + 1;
        } else {
          ghost var e := SendOne(again);
          es := Then(limits, old(View()), es, e, View());
          n := if n < |sends| then n + 1 else n;
        }
      }
    }

    /** The first half of a round: a reply, if there is one, and the time-outs. */
    method Collect(r: Round) returns (ghost es: seq<Step>)
      requires Valid() && loc.Top? && !changed
      modifies this
      ensures Valid() && View() == Run(limits, old(View()), es)
      ensures loc.Requeueing? && unchanged(`endpoints, `changed)
    {
      hide ClientInv, Run, Find, Without;
      ghost var was := View();
      es := StartRun(limits, was);
      ApplyKeeps(limits, View(), Begin);
      loc := Polling;
      es := Then(limits, was, es, Begin, View());
      if r.got {
        PollHandleReply(r.id, r.reply);
        es := Then(limits, was, es, Receive(r.id, r.reply), View());
      } else {
        ApplyKeeps(limits, View(), Quiet);
        loc := Requeueing;
        es := Then(limits, was, es, Quiet, View());
      }
      ghost var more := RequeueExpired(r.expired);
      RunOn(limits, was, es, more);
      es := es + more;
    }

    /** Sends again what timed out. With endpoints, the assertion that nothing is
        left to send again holds. */
    method SendAgain(sends: seq<bool>) returns (ghost es: seq<Step>)
      requires Valid() && loc.Requeueing? && endpoints != {}
      modifies this
      ensures Valid() && View() == Run(limits, old(View()), es)
      ensures loc.Sending? && resend == [] && unchanged(`endpoints, `changed)
    {
      hide ClientInv, Run, DoSend;
      ghost var was := View();
      es := StartRun(limits, was);
      ApplyKeeps(limits, View(), Requeued);
      loc := Resending;
      es := Then(limits, was, es, Requeued, View());
      ghost var more := SendRequests(true, sends);
      RunOn(limits, was, es, more);
      es := es + more;
      CapacityOf(limits, View());
      assert resend == [];
      ApplyKeeps(limits, View(), SendDone);
      loc := Sending;
      es := Then(limits, was, es, SendDone, View());
    }

    /** One round of the client's thread; afterwards requests wait only because
        the limit is reached. */
    method RunOnce(r: Round, again: seq<bool>, sends: seq<bool>) returns (ghost es: seq<Step>)
      requires Valid() && loc.Top? && !changed && endpoints != {}
      modifies this
      ensures Valid() && View() == Run(limits, old(View()), es) && loc.Top?
      ensures resend == [] && (queue == [] || |requests| >= limits.maxConcurrent)
    {
      hide ClientInv, Run, DoSend, DoReceive, DoExpire;
      ghost var was := View();
      es := Collect(r);
      ghost var more := SendAgain(again);
      RunOn(limits, was, es, more);
      es := es + more;
      more := SendRequests(false, sends);
      RunOn(limits, was, es, more);
      es := es + more;
      CapacityOf(limits, View());
      ApplyKeeps(limits, View(), SendDone);
      loc := Top;
      es := Then(limits, was, es, SendDone, View());
    }

    /** The wait for requests in flight before sockets change: replies settle them
        and time-outs take them out, and none is sent. It ends when nothing is in
        flight, at the latest when all that is in flight has timed out. */
    method Drain(rounds: seq<Round>) returns (ghost es: seq<Step>)
      requires Valid() && loc.Draining? && rounds != []
      requires AllIn(requests, rounds[|rounds| - 1].expired)
      modifies this
      ensures Valid() && View() == Run(limits, old(View()), es)
      ensures requests == [] && loc.Draining? && unchanged(`queue, `issued, `endpoints, `wanted, `changed)
    {
      hide ClientInv, Run, Find, Without;
      ghost var was := View();
      es := StartRun(limits, was);
      var n := 0;
      while requests != [] && n < |rounds|
        invariant n <= |rounds| && Valid() && loc.Draining? && View() == Run(limits, was, es)
        invariant unchanged(`queue, `issued, `endpoints, `wanted, `changed)
        invariant AllIn(requests, rounds[|rounds| - 1].expired)
        invariant n == |rounds| ==> requests == []
        decreases |rounds| - n
      {
        ghost var more := DrainRound(rounds[n]);
        RunOn(limits, was, es, more);
        es := es + more;
        n := n + 1;
      }
    }

    /** A reply, if there is one, and the time-outs. */
    method DrainRound(r: Round) returns (ghost es: seq<Step>)
      requires Valid() && loc.Draining? && requests != []
      modifies this
      ensures Valid() && View() == Run(limits, old(View()), es)
      ensures loc.Draining? && unchanged(`queue, `issued, `endpoints, `wanted, `changed)
      ensures Within(requests, old(requests)) && NoneOf(requests, |requests|, r.expired)
      ensures AllIn(old(requests), r.expired) ==> requests == []
    {
      hide ClientInv, Run, Find;
      ghost var was := View();
      es := StartRun(limits, was);
      if r.got {
        ReceivedWithin(View(), r.id, r.reply);
        PollHandleReply(r.id, r.reply);
        es := Then(limits, was, es, Receive(r.id, r.reply), View());
      }
      ghost var more := RequeueExpired(r.expired);
      RunOn(limits, was, es, more);
      es := es + more;
    }

    /** The change of endpoints: sockets change when the wait is over, and not
        before nothing is in flight. */
    method SwitchEndpoints(rounds: seq<Round>) returns (ghost es: seq<Step>)
      requires Valid() && loc.Top? && changed && rounds != []
      requires AllIn(requests, rounds[|rounds| - 1].expired)
      modifies this
      ensures Valid() && View() == Run(limits, old(View()), es + [Switch])
      ensures Run(limits, old(View()), es).requests == []
      ensures endpoints == old(wanted) && !changed && loc.Polling? && unchanged(`queue, `issued)
    {
      hide ClientInv, Run;
      ghost var was := View();
      es := StartRun(limits, was);
      ApplyKeeps(limits, View(), Begin);
      loc := Draining;
      es := Then(limits, was, es, Begin, View());
      ghost var more := Drain(rounds);
      RunOn(limits, was, es, more);
      es := es + more;
      ApplyKeeps(limits, View(), Switch);
      endpoints := wanted;
      changed := false;
      loc := Polling;
      ghost var all := Then(limits, was, es, Switch, View());
    }
  }

  ghost predicate Within(a: seq<Flight>, b: seq<Flight>) {
    forall i :: 0 <= i < |a| ==> a[i] in b
  }

  ghost predicate NoneOf(a: seq<Flight>, n: nat, ids: set<ReqId>)
    requires n <= |a|
  {
    forall i :: 0 <= i < n ==> a[i].id !in ids
  }

  ghost predicate AllIn(a: seq<Flight>, ids: set<ReqId>) {
    forall f :: f in a ==> f.id in ids
  }

  lemma WithinAt(a: seq<Flight>, b: seq<Flight>, i: nat)
    requires Within(a, b) && i < |a|
    ensures a[i] in b
  {
  }

  lemma WithinSelf(a: seq<Flight>)
    ensures Within(a, a)
  {
  }

  lemma WithoutOne(a: seq<Flight>, b: seq<Flight>, i: nat, ids: set<ReqId>)
    requires Within(a, b) && i < |a| && NoneOf(a, i, ids)
    ensures Within(Without(a, i), b) && NoneOf(Without(a, i), i, ids)
  {
    var r := Without(a, i);
    forall j | 0 <= j < |r| ensures r[j] in b {
      assert r[j] == a[if j < i then j else j + 1];
    }
  }

  lemma ReceivedWithin(k: Client, id: ReqId, r: Reply)
    ensures Within(DoReceive(k, id, r).requests, k.requests)
  {
    var i := Find(k.requests, id);
    if i < |k.requests| {
      WithoutOne(k.requests, k.requests, i, {});
    }
  }

  /** What a poll brings: perhaps a reply, and the requests that are over time. */
  datatype Round = Round(got: bool, id: ReqId, reply: Reply, expired: set<ReqId>)

  lemma CapacityOf(c: Limits, k: Client)
    requires ClientInv(c, k)
    ensures Capacity(c, k)
  {
  }

  lemma ExpireFound(c: Limits, k: Client, i: nat)
    requires ClientInv(c, k) && i < |k.requests| && (k.loc.Requeueing? || k.loc.Draining?)
    ensures Apply(c, k, Expire(k.requests[i].id)) == ExpireOne(c, k, i)
  {
    assert Find(k.requests, k.requests[i].id) == i;
  }
}
