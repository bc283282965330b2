/**
  The message pipeline of the training library: a buffered consumer hands its
  messages to a request client until they are confirmed
  (cpid/zmqbufferedconsumer.h), and buffered producers confirm what they put in
  their queue (cpid/zmqbufferedproducer.h). The network in between may lose,
  repeat and reorder requests and replies.
 */
module Pipeline {
  import opened Options
  import opened ReqRep

  /** A message the consumer waits for; `tag` is its number in order of arrival. */
  datatype Entry = Entry(tag: nat, msg: Msg, promise: Promise)

  /** A message in a producer's queue; the id only serves to tell messages apart. */
  datatype Parcel = Parcel(id: ReqId, msg: Msg)

  /** A producer and its one worker, which may have queued a request that it has
      yet to confirm. */
  datatype Server = Server(produced: seq<Parcel>, queue: seq<Parcel>, owed: Option<ReqId>)

  datatype Setup = Setup(maxQueueSize: nat, maxRetries: nat, maxInQueue: nat)
  {
    /** At most 64 requests at a time, and no more than the consumer may queue. */
    function Limit(): Limits {
      Limits(if maxQueueSize < 64 then maxQueueSize else 64, maxRetries)
    }
  }

  /** `owner` gives the message that a promise is for, and `replies` all replies
      that were ever sent. */
  datatype State = State(
    client: Client,
    accepted: seq<Msg>,
    pending: seq<Entry>,
    owner: seq<nat>,
    replies: set<(ReqId, Reply)>,
    servers: map<ServerId, Server>)

  datatype Event =
    | Accept(msg: Msg)
    | Reap(i: nat)
    | Thread(step: Step)
    | Deliver(id: ReqId, to: ServerId)
    | Confirm(at: ServerId)
    | Produce(at: ServerId)

  function Init(endpoints: set<ServerId>, servers: set<ServerId>): State {
    State(NewClient(endpoints), [], [], [], {}, map x | x in servers :: Server([], [], None))
  }

  /** The consumer asks the client to send a message, and keeps the promise. */
  function Ask(c: Setup, s: State, tag: nat, msg: Msg): State {
    s.(client := ReqRep.Apply(c.Limit(), s.client, Request(msg)), owner := s.owner + [tag])
  }

  function DoAccept(c: Setup, s: State, msg: Msg): State {
    var tag := |s.accepted|;
    Ask(c, s, tag, msg).(accepted := s.accepted + [msg], pending := s.pending + [Entry(tag, msg, s.client.next)])
  }

  predicate CanReap(s: State, i: nat) {
    i < |s.pending| && s.pending[i].promise in s.client.settled
  }

  /** A settled promise: confirmed, or the message is sent again. */
  function DoReap(c: Setup, s: State, i: nat): State
    requires CanReap(s, i)
  {
    var e := s.pending[i];
    if s.client.settled[e.promise] == Got(Ack) then s.(pending := Without(s.pending, i))
    else Ask(c, s, e.tag, e.msg).(pending := s.pending[i := e.(promise := s.client.next)])
  }

  /** A request reaches a producer, perhaps again: it is queued, or denied. */
  function DoDeliver(c: Setup, s: State, id: ReqId, to: ServerId): State
    requires id in s.client.issued && to in s.servers
  {
    var v := s.servers[to];
    if |v.queue| >= c.maxInQueue then s.(replies := s.replies + {(id, Deny)})
    else
      s.(servers := s.servers[to := v.(queue := v.queue + [Parcel(id, s.client.issued[id].msg)], owed := Some(id))])
  }

  /** The confirmation goes out after the queue was unlocked. */
  function DoConfirm(s: State, at: ServerId): State
    requires at in s.servers && s.servers[at].owed.Some?
  {
    var v := s.servers[at];
    s.(replies := s.replies + {(v.owed.value, Ack)}, servers := s.servers[at := v.(owed := None)])
  }

  function DoProduce(s: State, at: ServerId): State
    requires at in s.servers && s.servers[at].queue != []
  {
    var v := s.servers[at];
    s.(servers := s.servers[at := v.(produced := v.produced + [v.queue[0]], queue := v.queue[1..])])
  }

  predicate Possible(c: Setup, s: State, e: Event) {
    match e
    case Accept(_) => |s.pending| < c.Limit().maxConcurrent
    case Reap(i) => CanReap(s, i)
    case Thread(step) => !step.Request? && (step.Receive? ==> (step.id, step.reply) in s.replies)
    case Deliver(id, to) => id in s.client.issued && to in s.servers && s.servers[to].owed.None?
    case Confirm(at) => at in s.servers && s.servers[at].owed.Some?
    case Produce(at) => at in s.servers && s.servers[at].queue != []
  }

  function Advance(c: Setup, s: State, e: Event): State {
    if !Possible(c, s, e) then s
    else match e
      case Accept(msg) => DoAccept(c, s, msg)
      case Reap(i) => DoReap(c, s, i)
      case Thread(step) => s.(client := ReqRep.Apply(c.Limit(), s.client, step))
      case Deliver(id, to) => DoDeliver(c, s, id, to)
      case Confirm(at) => DoConfirm(s, at)
      case Produce(at) => DoProduce(s, at)
  }

  function Execute(c: Setup, s: State, es: seq<Event>): State {
    if es == [] then s else Advance(c, Execute(c, s, es[..|es| - 1]), es[|es| - 1])
  }

  // ---------------------------------------------------------------------
  // What the client carries
  // ---------------------------------------------------------------------

  predicate ItemCarries(x: Item, texts: seq<Msg>) {
    x.promise < |texts| && x.msg == texts[x.promise]
  }

  /** Every item and every request sent holds the message of its promise. */
  ghost predicate Carries(k: Client, texts: seq<Msg>) {
    && |texts| == k.next
    && (forall x :: x in k.queue ==> ItemCarries(x, texts))
    && (forall x :: x in k.resend ==> ItemCarries(x, texts))
    && (forall f :: f in k.requests ==> ItemCarries(f.item, texts))
    && (forall id :: id in k.issued ==>
          k.issued[id].promise < |texts| && k.issued[id].msg == texts[k.issued[id].promise])
  }

  lemma CarriesRequest(c: Limits, k: Client, msg: Msg, texts: seq<Msg>)
    requires Carries(k, texts)
    ensures Carries(ReqRep.Apply(c, k, Request(msg)), texts + [msg])
  {
  }

  lemma CarriesSend(c: Limits, k: Client, id: ReqId, texts: seq<Msg>)
    requires Carries(k, texts) && CanSend(c, k)
    ensures Carries(DoSend(c, k, id), texts)
  {
    if k.loc.Resending? {
      assert k.resend[0] in k.resend;
    } else {
      assert k.queue[0] in k.queue;
    }
  }

  lemma CarriesGone(c: Limits, k: Client, id: ReqId, r: Reply, texts: seq<Msg>)
    requires Carries(k, texts)
    ensures Carries(DoReceive(k, id, r), texts) && Carries(DoExpire(c, k, id), texts)
  {
    hide Find;
    var i := Find(k.requests, id);
    if i < |k.requests| {
      assert k.requests[i] in k.requests;
      assert forall f :: f in Without(k.requests, i) ==> f in k.requests;
    }
  }

  lemma CarriesStep(c: Limits, k: Client, e: Step, texts: seq<Msg>)
    requires Carries(k, texts) && !e.Request?
    ensures Carries(ReqRep.Apply(c, k, e), texts)
  {
    hide DoSend, DoReceive, DoExpire, ItemCarries;
    if ReqRep.Enabled(c, k, e) {
      match e {
        case Send(id) => CarriesSend(c, k, id, texts);
        case Receive(id, r) => CarriesGone(c, k, id, r, texts);
        case Expire(id) => CarriesGone(c, k, id, Ack, texts);
        case _ =>
      }
    }
  }

  /** What a step of the client's thread leaves alone. */
  lemma StepFrame(c: Limits, k: Client, e: Step)
    requires !e.Request?
    ensures var k' := ReqRep.Apply(c, k, e);
            && k'.next == k.next
            && (forall id :: id in k.issued ==> id in k'.issued && k'.issued[id] == k.issued[id])
  {
    hide Find, Without;
  }

  // ---------------------------------------------------------------------
  // The invariant
  // ---------------------------------------------------------------------

  ghost predicate EntryOk(s: State, e: Entry) {
    && e.tag < |s.accepted| && e.msg == s.accepted[e.tag]
    && e.promise < |s.owner| && s.owner[e.promise] == e.tag
  }

  /** The waiting messages have different promises, and never too many. */
  ghost predicate Entries(c: Setup, s: State) {
    && |s.owner| == s.client.next && |s.pending| <= c.Limit().maxConcurrent
    && (forall p :: 0 <= p < |s.owner| ==> s.owner[p] < |s.accepted|)
    && (forall i :: 0 <= i < |s.pending| ==> EntryOk(s, s.pending[i]))
    && (forall i, j :: 0 <= i < j < |s.pending| ==> s.pending[i].promise != s.pending[j].promise)
  }

  ghost predicate Waiting(pending: seq<Entry>, p: Promise) {
    exists i :: 0 <= i < |pending| && pending[i].promise == p
  }

  /** Every promise that is open is one the consumer waits for. */
  ghost predicate Outstanding(s: State) {
    forall p: Promise :: p < s.client.next && p !in s.client.settled ==> Waiting(s.pending, p)
  }

  function Texts(s: State): (ts: seq<Msg>)
    requires forall p :: 0 <= p < |s.owner| ==> s.owner[p] < |s.accepted|
    ensures |ts| == |s.owner|
  {
    seq(|s.owner|, p requires 0 <= p < |s.owner| => s.accepted[s.owner[p]])
  }

  function Parcels(v: Server): seq<Parcel> {
    v.produced + v.queue
  }

  /** The request was put in the queue of a producer. */
  ghost predicate Placed(s: State, id: ReqId) {
    id in s.client.issued && exists x :: x in s.servers && Parcel(id, s.client.issued[id].msg) in Parcels(s.servers[x])
  }

  ghost predicate Replies(s: State) {
    forall id, r :: (id, r) in s.replies ==> id in s.client.issued && (r == Ack ==> Placed(s, id))
  }

  /** What a producer has yet to confirm is in its queue, or was taken from it. */
  ghost predicate Owed(s: State) {
    forall x :: x in s.servers && s.servers[x].owed.Some? ==> Placed(s, s.servers[x].owed.value)
  }

  /** The promise's message was put in a queue. */
  ghost predicate Arrived(s: State, p: Promise) {
    exists id :: Placed(s, id) && s.client.issued[id].promise == p
  }

  ghost predicate Confirmed(s: State) {
    forall p :: p in s.client.settled && s.client.settled[p] == Got(Ack) ==> Arrived(s, p)
  }

  ghost predicate Delivered(s: State, t: nat) {
    exists p: Promise :: p < |s.owner| && s.owner[p] == t && Arrived(s, p)
  }

  ghost predicate Pending(s: State, t: nat) {
    exists i :: 0 <= i < |s.pending| && s.pending[i].tag == t
  }

  ghost predicate Accounted(s: State) {
    forall t: nat :: t < |s.accepted| ==> Pending(s, t) || Delivered(s, t)
  }

  ghost predicate ServersOk(c: Setup, s: State) {
    forall x :: x in s.servers ==>
      && |s.servers[x].queue| <= c.maxInQueue
      && forall q :: q in Parcels(s.servers[x]) ==> q.id in s.client.issued && s.client.issued[q.id].msg == q.msg
  }

  ghost predicate Inv(c: Setup, s: State) {
    && ClientInv(c.Limit(), s.client) && Entries(c, s) && Outstanding(s) && Carries(s.client, Texts(s))
    && Replies(s) && Owed(s) && Confirmed(s) && Accounted(s) && ServersOk(c, s)
  }

  // ---------------------------------------------------------------------
  // What was placed stays placed
  // ---------------------------------------------------------------------

  ghost predicate Grows(s: State, s': State) {
    && (forall id :: id in s.client.issued ==> id in s'.client.issued && s'.client.issued[id] == s.client.issued[id])
    && s.owner <= s'.owner
    && (forall x :: x in s.servers ==>
          x in s'.servers && forall q :: q in Parcels(s.servers[x]) ==> q in Parcels(s'.servers[x]))
  }

  lemma PlacedStays(s: State, s': State, id: ReqId)
    requires Grows(s, s') && Placed(s, id)
    ensures Placed(s', id)
  {
  }

  lemma ArrivedStays(s: State, s': State, p: Promise)
    requires Grows(s, s') && Arrived(s, p)
    ensures Arrived(s', p)
  {
    var id :| Placed(s, id) && s.client.issued[id].promise == p;
    PlacedStays(s, s', id);
  }

  lemma DeliveredStays(s: State, s': State, t: nat)
    requires Grows(s, s') && Delivered(s, t)
    ensures Delivered(s', t)
  {
    hide Arrived;
    var p: Promise :| p < |s.owner| && s.owner[p] == t && Arrived(s, p);
    ArrivedStays(s, s', p);
  }

  lemma ApplyGrows(c: Setup, s: State, e: Event)
    ensures Grows(s, Advance(c, s, e))
  {
    hide Find;
    match e {
      case Thread(step) =>
        if Possible(c, s, e) {
          StepFrame(c.Limit(), s.client, step);
          hide ReqRep.Apply;
        }
      case Produce(at) =>
        if Possible(c, s, e) {
          ProduceKeepsParcels(s, at);
        }
      case _ =>
    }
  }

  lemma ProduceKeepsParcels(s: State, at: ServerId)
    requires at in s.servers && s.servers[at].queue != []
    ensures Parcels(DoProduce(s, at).servers[at]) == Parcels(s.servers[at])
  {
  }

  // ---------------------------------------------------------------------
  // Every event keeps it
  // ---------------------------------------------------------------------

  lemma EntriesKept(c: Setup, s: State, e: Event)
    requires Entries(c, s)
    ensures Entries(c, Advance(c, s, e))
  {
    hide ReqRep.Enabled, CanSend, Find, DoSend, DoReceive, DoExpire;
    var s' := Advance(c, s, e);
    if Possible(c, s, e) {
      match e {
        case Thread(step) =>
          StepFrame(c.Limit(), s.client, step);
          hide ReqRep.Apply;
          assert forall i :: 0 <= i < |s'.pending| ==> EntryOk(s, s'.pending[i]);
        case Reap(i) =>
          RequestNext(c.Limit(), s.client, s.pending[i].msg);
          ReapEntries(c, s, i);
        case Accept(msg) =>
          RequestNext(c.Limit(), s.client, msg);
          hide ReqRep.Apply;
          forall i | 0 <= i < |s.pending| ensures EntryOk(s', s.pending[i]) {
            assert EntryOk(s, s.pending[i]);
          }
          assert forall i :: 0 <= i < |s.pending| ==> s.pending[i].promise < s.client.next;
        case _ => assert forall i :: 0 <= i < |s'.pending| ==> EntryOk(s, s'.pending[i]);
      }
    }
  }

  lemma RequestNext(c: Limits, k: Client, msg: Msg)
    ensures var k' := ReqRep.Apply(c, k, Request(msg));
            k'.next == k.next + 1 && k'.settled == k.settled && k'.issued == k.issued
  {
  }

  lemma ReapEntries(c: Setup, s: State, i: nat)
    requires Entries(c, s) && CanReap(s, i)
    ensures Entries(c, DoReap(c, s, i))
  {
    RequestNext(c.Limit(), s.client, s.pending[i].msg);
    hide ReqRep.Apply;
    var s' := DoReap(c, s, i);
    assert EntryOk(s, s.pending[i]);
    forall j | 0 <= j < |s'.pending| ensures EntryOk(s', s'.pending[j]) {
      if |s'.pending| < |s.pending| {
        assert s'.pending[j] == s.pending[if j < i then j else j + 1];
        assert EntryOk(s, s.pending[if j < i then j else j + 1]);
      } else if j != i {
        assert EntryOk(s, s.pending[j]);
      }
    }
    assert forall j :: 0 <= j < |s.pending| ==> s.pending[j].promise < s.client.next;
  }

  lemma WaitingStays(s: State, s': State, i: nat, e: Entry, p: Promise)
    requires Waiting(s.pending, p) && i < |s.pending| && s.pending[i].promise != p
    requires s'.pending == Without(s.pending, i) || s'.pending == s.pending[i := e]
    ensures Waiting(s'.pending, p)
  {
    var j :| 0 <= j < |s.pending| && s.pending[j].promise == p;
    if s'.pending == Without(s.pending, i) {
      assert s'.pending[if j < i then j else j - 1] == s.pending[j];
    } else {
      assert s'.pending[j] == s.pending[j];
    }
  }

  lemma OutstandingKept(c: Setup, s: State, e: Event)
    requires Outstanding(s) && ClientInv(c.Limit(), s.client)
    ensures Outstanding(Advance(c, s, e))
  {
    hide ClientInv;
    var s' := Advance(c, s, e);
    forall p: Promise | p < s'.client.next && p !in s'.client.settled ensures Waiting(s'.pending, p) {
      if Possible(c, s, e) {
        match e {
          case Thread(step) =>
            StepFrame(c.Limit(), s.client, step);
            if p in s.client.settled {
              SettledForGood(c.Limit(), s.client, step, p);
            }
          case Accept(msg) =>
            RequestNext(c.Limit(), s.client, msg);
            AcceptWaits(s.pending, s'.pending[|s.pending|], p);
          case Reap(i) =>
            RequestNext(c.Limit(), s.client, s.pending[i].msg);
            hide ReqRep.Apply;
            if p == s.client.next {
              assert s'.pending[i].promise == p;
            } else {
              WaitingStays(s, s', i, s.pending[i].(promise := s.client.next), p);
            }
          case _ =>
        }
      }
    }
  }

  lemma AcceptWaits(pending: seq<Entry>, e: Entry, p: Promise)
    requires Waiting(pending, p) || e.promise == p
    ensures Waiting(pending + [e], p)
  {
    if e.promise == p {
      assert (pending + [e])[|pending|].promise == p;
    } else {
      var j :| 0 <= j < |pending| && pending[j].promise == p;
      assert (pending + [e])[j] == pending[j];
    }
  }

  lemma MessagesKept(c: Setup, s: State, e: Event)
    requires Entries(c, s) && Carries(s.client, Texts(s)) && Entries(c, Advance(c, s, e))
    ensures Carries(Advance(c, s, e).client, Texts(Advance(c, s, e)))
  {
    hide Carries, ReqRep.Apply;
    var s' := Advance(c, s, e);
    if Possible(c, s, e) {
      match e {
        case Thread(step) =>
          CarriesStep(c.Limit(), s.client, step, Texts(s));
          assert Texts(s') == Texts(s);
        case Accept(msg) =>
          CarriesRequest(c.Limit(), s.client, msg, Texts(s));
          assert Texts(s') == Texts(s) + [msg];
        case Reap(i) =>
          assert EntryOk(s, s.pending[i]);
          CarriesRequest(c.Limit(), s.client, s.pending[i].msg, Texts(s));
          if s'.owner != s.owner {
            assert Texts(s') == Texts(s) + [s.pending[i].msg];
          } else {
            assert Texts(s') == Texts(s);
          }
        case _ => assert Texts(s') == Texts(s);
      }
    }
  }

  lemma RepliesKept(c: Setup, s: State, e: Event)
    requires Replies(s) && Owed(s)
    ensures Replies(Advance(c, s, e))
  {
    var s' := Advance(c, s, e);
    ApplyGrows(c, s, e);
    hide Placed, ReqRep.Apply, Grows;
    forall id, r | (id, r) in s'.replies ensures id in s'.client.issued && (r == Ack ==> Placed(s', id)) {
      if (id, r) in s.replies {
        IssuedStays(s, s', id);
        if r == Ack {
          PlacedStays(s, s', id);
        }
      } else if r == Ack {
        assert e.Confirm? && Possible(c, s, e) && s.servers[e.at].owed == Some(id);
        PlacedStays(s, s', id);
        PlacedIsIssued(s', id);
      } else {
        assert e.Deliver? && e.id == id && Possible(c, s, e);
      }
    }
  }

  lemma PlacedIsIssued(s: State, id: ReqId)
    requires Placed(s, id)
    ensures id in s.client.issued
  {
  }

  lemma OwedKept(c: Setup, s: State, e: Event)
    requires Owed(s)
    ensures Owed(Advance(c, s, e))
  {
    var s' := Advance(c, s, e);
    ApplyGrows(c, s, e);
    hide Placed, ReqRep.Apply, Grows;
    forall x | x in s'.servers && s'.servers[x].owed.Some? ensures Placed(s', s'.servers[x].owed.value) {
      if x in s.servers && s.servers[x].owed == s'.servers[x].owed {
        PlacedStays(s, s', s.servers[x].owed.value);
      } else {
        assert e.Deliver? && Possible(c, s, e) && e.to == x;
        DeliverPlaces(c, s, e.id, e.to);
      }
    }
  }

  lemma IssuedStays(s: State, s': State, id: ReqId)
    requires Grows(s, s') && id in s.client.issued
    ensures id in s'.client.issued && s'.client.issued[id] == s.client.issued[id]
  {
  }

  lemma DeliverPlaces(c: Setup, s: State, id: ReqId, to: ServerId)
    requires id in s.client.issued && to in s.servers && |s.servers[to].queue| < c.maxInQueue
    ensures Placed(DoDeliver(c, s, id, to), id)
  {
    var s' := DoDeliver(c, s, id, to);
    assert Parcel(id, s.client.issued[id].msg) in Parcels(s'.servers[to]);
  }

  /** A promise is settled with a confirmation only after its message was placed. */
  lemma ConfirmedKept(c: Setup, s: State, e: Event)
    requires Confirmed(s) && Replies(s) && ClientInv(c.Limit(), s.client)
    ensures Confirmed(Advance(c, s, e))
  {
    hide ClientInv, Arrived, Grows;
    var s' := Advance(c, s, e);
    ApplyGrows(c, s, e);
    forall p | p in s'.client.settled && s'.client.settled[p] == Got(Ack) ensures Arrived(s', p) {
      if p in s.client.settled {
        SettledStays(c, s, e, p);
        ArrivedStays(s, s', p);
      } else {
        OnlyThreadSettles(c, s, e);
        ReplySettlesCurrent(c.Limit(), s.client, e.step, p);
        hide ReqRep.Apply;
        assert Placed(s, e.step.id);
        OneArrived(s, e.step.id);
        ArrivedStays(s, s', p);
      }
    }
  }

  lemma OneArrived(s: State, id: ReqId)
    requires Placed(s, id)
    ensures Arrived(s, s.client.issued[id].promise)
  {
  }

  lemma SettledStays(c: Setup, s: State, e: Event, p: Promise)
    requires ClientInv(c.Limit(), s.client) && p in s.client.settled
    ensures var k := Advance(c, s, e).client; p in k.settled && k.settled[p] == s.client.settled[p]
  {
    hide ClientInv;
    if e.Thread? {
      SettledForGood(c.Limit(), s.client, e.step, p);
    }
  }

  lemma OnlyThreadSettles(c: Setup, s: State, e: Event)
    ensures Advance(c, s, e).client.settled != s.client.settled ==> e.Thread? && Possible(c, s, e)
  {
    if e.Accept? {
      RequestNext(c.Limit(), s.client, e.msg);
    } else if e.Reap? && CanReap(s, e.i) {
      RequestNext(c.Limit(), s.client, s.pending[e.i].msg);
    }
    hide ReqRep.Apply;
  }

  lemma PendingStays(c: Setup, s: State, e: Event, t: nat)
    requires Pending(s, t) && Entries(c, s)
    ensures Pending(Advance(c, s, e), t)
            || (e.Reap? && CanReap(s, e.i) && s.client.settled[s.pending[e.i].promise] == Got(Ack)
                                          && s.pending[e.i].tag == t)
  {
    hide ReqRep.Apply, EntryOk;
    var s' := Advance(c, s, e);
    var j :| 0 <= j < |s.pending| && s.pending[j].tag == t;
    if e.Reap? && CanReap(s, e.i) && s.client.settled[s.pending[e.i].promise] == Got(Ack) {
      if j != e.i {
        assert s'.pending[if j < e.i then j else j - 1] == s.pending[j];
      }
    } else {
      assert j < |s'.pending| && s'.pending[j].tag == t;
    }
  }

  lemma AccountedKept(c: Setup, s: State, e: Event)
    requires Accounted(s) && Entries(c, s) && Confirmed(s)
    ensures Accounted(Advance(c, s, e))
  {
    hide Arrived, Grows, Pending;
    var s' := Advance(c, s, e);
    ApplyGrows(c, s, e);
    forall t: nat | t < |s'.accepted| ensures Pending(s', t) || Delivered(s', t) {
      if t >= |s.accepted| {
        NewIsPending(c, s, e);
      } else if Pending(s, t) {
        PendingStays(c, s, e, t);
        hide ReqRep.Apply;
        if e.Reap? && CanReap(s, e.i) && s.pending[e.i].tag == t
           && s.client.settled[s.pending[e.i].promise] == Got(Ack) {
          assert EntryOk(s, s.pending[e.i]);
          assert Delivered(s, t);
          DeliveredStays(s, s', t);
        }
      } else {
        DeliveredStays(s, s', t);
      }
    }
  }

  lemma NewIsPending(c: Setup, s: State, e: Event)
    ensures var s' := Advance(c, s, e);
            |s'.accepted| > |s.accepted| ==> |s'.accepted| == |s.accepted| + 1 && Pending(s', |s.accepted|)
  {
    var s' := Advance(c, s, e);
    if |s'.accepted| > |s.accepted| {
      assert s'.pending[|s.pending|].tag == |s.accepted|;
    }
  }

  lemma DeliverServers(c: Setup, s: State, id: ReqId, to: ServerId)
    requires ServersOk(c, s) && id in s.client.issued && to in s.servers
    ensures ServersOk(c, DoDeliver(c, s, id, to))
  {
    var s' := DoDeliver(c, s, id, to);
    forall q | q in Parcels(s'.servers[to]) ensures q.id in s.client.issued && s.client.issued[q.id].msg == q.msg {
      assert q in Parcels(s.servers[to]) || q == Parcel(id, s.client.issued[id].msg);
    }
  }

  lemma SameServers(c: Setup, s: State, s': State)
    requires ServersOk(c, s) && Grows(s, s') && s'.servers == s.servers
    ensures ServersOk(c, s')
  {
  }

  lemma ServersKept(c: Setup, s: State, e: Event)
    requires ServersOk(c, s)
    ensures ServersOk(c, Advance(c, s, e))
  {
    hide ReqRep.Apply, Grows;
    if Possible(c, s, e) {
      match e {
        case Produce(at) =>
          ProduceKeepsParcels(s, at);
          hide Parcels;
        case Deliver(id, to) => DeliverServers(c, s, id, to);
        case Confirm(_) =>
        case _ =>
          ApplyGrows(c, s, e);
          SameServers(c, s, Advance(c, s, e));
      }
    }
  }

  lemma ClientKept(c: Setup, s: State, e: Event)
    requires ClientInv(c.Limit(), s.client)
    ensures ClientInv(c.Limit(), Advance(c, s, e).client)
  {
    hide ClientInv, ReqRep.Apply;
    match e {
      case Thread(step) => ApplyKeeps(c.Limit(), s.client, step);
      case Accept(msg) => ApplyKeeps(c.Limit(), s.client, Request(msg));
      case Reap(i) =>
        if CanReap(s, i) {
          ApplyKeeps(c.Limit(), s.client, Request(s.pending[i].msg));
        }
      case _ =>
    }
  }

  lemma Keeps(c: Setup, s: State, e: Event)
    requires Inv(c, s)
    ensures Inv(c, Advance(c, s, e))
  {
    ClientKept(c, s, e);
    EntriesKept(c, s, e);
    OutstandingKept(c, s, e);
    MessagesKept(c, s, e);
    RepliesKept(c, s, e);
    OwedKept(c, s, e);
    ConfirmedKept(c, s, e);
    AccountedKept(c, s, e);
    ServersKept(c, s, e);
    hide ClientInv, Entries, Outstanding, Carries, Replies, Owed, Confirmed, Accounted, ServersOk, Advance;
  }

  lemma {:induction false} EveryRun(c: Setup, endpoints: set<ServerId>, servers: set<ServerId>, es: seq<Event>)
    ensures Inv(c, Execute(c, Init(endpoints, servers), es))
    decreases |es|
  {
    if es == [] {
      StartOk(c.Limit(), endpoints);
    } else {
      EveryRun(c, endpoints, servers, es[..|es| - 1]);
      hide Inv, Advance;
      Keeps(c, Execute(c, Init(endpoints, servers), es[..|es| - 1]), es[|es| - 1]);
    }
  }

  // ---------------------------------------------------------------------
  // What follows for every run
  // ---------------------------------------------------------------------

  /** A request for message `t` is in a producer's queue, or was taken from it. */
  ghost predicate InSomeQueue(s: State, t: nat)
    requires t < |s.accepted|
  {
    exists id, x :: id in s.client.issued && x in s.servers && Parcel(id, s.accepted[t]) in Parcels(s.servers[x])
                    && s.client.issued[id].promise < |s.owner| && s.owner[s.client.issued[id].promise] == t
  }

  /** Whatever the network loses, repeats or delays: a message that the consumer
      took is waiting there, or a producer has it. */
  lemma AtLeastOnce(c: Setup, endpoints: set<ServerId>, servers: set<ServerId>, es: seq<Event>, t: nat)
    requires t < |Execute(c, Init(endpoints, servers), es).accepted|
    ensures var s := Execute(c, Init(endpoints, servers), es); Pending(s, t) || InSomeQueue(s, t)
  {
    EveryRun(c, endpoints, servers, es);
    var s := Execute(c, Init(endpoints, servers), es);
    hide Execute, ClientInv, Outstanding, Replies, Confirmed, ServersOk;
    if !Pending(s, t) {
      var p: Promise :| p < |s.owner| && s.owner[p] == t && Arrived(s, p);
      var id :| Placed(s, id) && s.client.issued[id].promise == p;
      assert Texts(s)[p] == s.accepted[t];
    }
  }

  /** A waiting message whose promise is open has exactly one item at the client,
      and one whose promise is settled has none. */
  lemma OneItemEach(c: Setup, endpoints: set<ServerId>, servers: set<ServerId>, es: seq<Event>, i: nat)
    requires i < |Execute(c, Init(endpoints, servers), es).pending|
    ensures var s := Execute(c, Init(endpoints, servers), es);
            var p := s.pending[i].promise;
            Held(s.client, p) == if p in s.client.settled then 0 else 1
  {
    EveryRun(c, endpoints, servers, es);
    var s := Execute(c, Init(endpoints, servers), es);
    hide Execute, Held;
    assert EntryOk(s, s.pending[i]);
  }

  function PromisesOf(pending: seq<Entry>): (ps: set<Promise>)
    ensures |ps| <= |pending|
    ensures forall i :: 0 <= i < |pending| ==> pending[i].promise in ps
  {
    if pending == [] then {}
    else
      var n := |pending| - 1;
      PromisesOf(pending[..n]) + {pending[n].promise}
  }

  /** Different items for promises of a set are not more than the set has. */
  lemma {:induction false} Pigeons(xs: seq<Item>, ps: set<Promise>)
    requires forall p: Promise :: Count(xs, p) <= if p in ps then 1 else 0
    ensures |xs| <= |ps|
    decreases |xs|
  {
    if xs != [] {
      var n := |xs| - 1;
      var q := xs[n].promise;
      assert Count(xs, q) == Count(xs[..n], q) + 1;
      forall p: Promise ensures Count(xs[..n], p) <= if p in ps - {q} then 1 else 0 {
        assert Count(xs, p) == Count(xs[..n], p) + if q == p then 1 else 0;
      }
      Pigeons(xs[..n], ps - {q});
    }
  }

  /** The client's queue has no bound of its own, but it never holds more than the
      consumer waits for. */
  lemma ClientIsBounded(c: Setup, endpoints: set<ServerId>, servers: set<ServerId>, es: seq<Event>)
    ensures var s := Execute(c, Init(endpoints, servers), es);
            var k := s.client;
            |k.queue| + |k.resend| + |k.requests| <= |s.pending| <= c.Limit().maxConcurrent <= 64
  {
    EveryRun(c, endpoints, servers, es);
    var s := Execute(c, Init(endpoints, servers), es);
    hide Execute, Count;
    var k := s.client;
    var xs := k.queue + k.resend + Bodies(k.requests);
    var ps := PromisesOf(s.pending);
    forall p: Promise ensures Count(xs, p) <= if p in ps then 1 else 0 {
      CountCat(k.queue + k.resend, Bodies(k.requests), p);
      CountCat(k.queue, k.resend, p);
      assert Count(xs, p) == Held(k, p);
    }
    Pigeons(xs, ps);
  }

  // ---------------------------------------------------------------------
  // The consumer
  // ---------------------------------------------------------------------

  lemma ThenEvent(c: Setup, s: State, es: seq<Event>, e: Event) returns (r: seq<Event>)
    ensures r == es + [e] && Execute(c, s, r) == Advance(c, Execute(c, s, es), e)
  {
    r := es + [e];
    assert r[..|r| - 1] == es;
  }

  class Consumer {
    const setup: Setup
    const client: RequestClient
    var pending: seq<Entry>
    /** How many messages were taken; it numbers them. */
    var taken: nat
    /** The rest of the system, as the consumer's steps leave it. */
    ghost var rest: State

    ghost function View(): (s: State)
      reads this, client
    {
      rest.(client := client.View(), pending := pending)
    }

    ghost predicate Valid()
      reads this, client
    {
      client.limits == setup.Limit() && client.Valid() && Inv(setup, View()) && taken == |rest.accepted|
    }

    constructor (setup: Setup, endpoints: set<ServerId>, servers: set<ServerId>)
      ensures Valid() && View() == Init(endpoints, servers) && fresh(client) && this.setup == setup
    {
      this.setup := setup;
      client := new RequestClient(setup.Limit(), endpoints);
      pending, taken := [], 0;
      rest := Init(endpoints, servers);
      new;
      EveryRun(setup, endpoints, servers, []);
    }

    /** Looks at one waiting message whose promise is settled. */
    method ReapAt(i: nat) returns (kept: bool)
      requires Valid() && CanReap(View(), i)
      modifies this, client
      ensures Valid() && View() == Advance(setup, old(View()), Reap(i))
      ensures client.settled == old(client.settled) && client.next >= old(client.next)
      ensures !kept ==> pending == Without(old(pending), i)
      ensures kept ==> pending == old(pending[i := pending[i].(promise := client.next)])
      ensures kept <==> old(client.settled[pending[i].promise]) != Got(Ack)
      ensures client.queue == old(client.queue) + if kept then [Item(old(client.next), old(pending[i].msg), 0)] else []
    {
      hide Inv, ClientInv, ReqRep.Apply, Without;
      Keeps(setup, View(), Reap(i));
      var e := pending[i];
      RequestNext(setup.Limit(), client.View(), e.msg);
      kept := client.settled[e.promise] != Got(Ack);
      if kept {
        var promise := client.Request(e.msg);
        pending := pending[i := e.(promise := promise)];
        rest := rest.(owner := rest.owner + [e.tag]);
      } else {
        pending := Without(pending, i);
      }
    }

    /** One pass over the waiting messages: the confirmed ones leave, the others
        that are settled are sent again, and no settled promise is left. */
    method ReapPending() returns (ghost es: seq<Event>)
      requires Valid()
      modifies this, client
      ensures Valid() && View() == Execute(setup, old(View()), es)
      ensures forall j :: 0 <= j < |pending| ==> pending[j].promise !in client.settled
      ensures forall j :: 0 <= j < |es| ==> es[j].Reap?
    {
      hide Inv, ClientInv, Advance;
      es := [];
      var i := 0;
      while i < |pending|
        invariant i <= |pending| && Valid() && View() == Execute(setup, old(View()), es)
        invariant forall j :: 0 <= j < i ==> pending[j].promise !in client.settled
        invariant forall j :: 0 <= j < |es| ==> es[j].Reap?
        decreases |pending| - i
      {
        NextIsOpen(setup, View());
        var kept := true;
        if pending[i].promise in client.settled {
          es := ThenEvent(setup, old(View()), es, Reap(i));
          kept := ReapAt(i);
        }
        if kept {
          i := i + 1;
        }
      }
    }

    /** Takes a message, when there is room. */
    method Submit(msg: Msg)
      requires Valid() && |pending| < client.limits.maxConcurrent
      modifies this, client
      ensures Valid() && View() == Advance(setup, old(View()), Accept(msg))
      ensures pending == old(pending) + [Entry(old(taken), msg, old(client.next))] && taken == old(taken) + 1
      ensures client.queue == old(client.queue) + [Item(old(client.next), msg, 0)]
    {
      hide Inv, ClientInv, ReqRep.Apply;
      Keeps(setup, View(), Accept(msg));
      var promise := client.Request(msg);
      pending := pending + [Entry(taken, msg, promise)];
      rest := rest.(accepted := rest.accepted + [msg], owner := rest.owner + [taken]);
      taken := taken + 1;
    }
  }

  lemma NextIsOpen(c: Setup, s: State)
    requires Inv(c, s)
    ensures s.client.next !in s.client.settled
  {
  }

  // ---------------------------------------------------------------------
  // The producer
  // ---------------------------------------------------------------------

  class Producer {
    const maxInQueue: nat
    var queue: seq<Parcel>
    ghost var produced: seq<Parcel>
    /** The request that the worker has queued and not confirmed yet. */
    var owed: Option<ReqId>

    ghost function View(): (v: Server)
      reads this
    {
      Server(produced, queue, owed)
    }

    constructor (maxQueueSize: nat)
      ensures View() == Server([], [], None) && maxInQueue == maxQueueSize
    {
      maxInQueue := maxQueueSize;
      queue, produced, owed := [], [], None;
    }

    /** The part of handleRequest under the mutex: a full queue denies. */
    method PlaceRequest(id: ReqId, msg: Msg, ghost c: Setup, ghost s: State, ghost to: ServerId) returns (placed: bool)
      requires c.maxInQueue == maxInQueue && to in s.servers && s.servers[to] == View() && owed.None?
      requires id in s.client.issued && s.client.issued[id].msg == msg
      modifies this
      ensures DoDeliver(c, s, id, to) ==
              s.(servers := s.servers[to := View()], replies := if placed then s.replies else s.replies + {(id, Deny)})
      ensures placed <==> old(|queue|) < maxInQueue
      ensures owed == (if placed then Some(id) else None)
      ensures queue == old(queue) + if placed then [Parcel(id, msg)] else []
    {
      placed := |queue| < maxInQueue;
      if placed {
        queue := queue + [Parcel(id, msg)];
        owed := Some(id);
      } else {
        assert s.servers[to := View()] == s.servers;
      }
    }

    /** The rest of it, after the mutex was released and whatever was taken from
        the queue since. */
    method ConfirmRequest(ghost s: State, ghost at: ServerId) returns (id: ReqId)
      requires at in s.servers && s.servers[at] == View() && owed.Some?
      modifies this
      ensures id == old(owed.value) && owed.None? && queue == old(queue)
      ensures DoConfirm(s, at) == s.(servers := s.servers[at := View()], replies := s.replies + {(id, Ack)})
    {
      id := owed.value;
      owed := None;
    }

    /** Messages come out in the order in which they were queued. */
    method Produce(ghost s: State, ghost at: ServerId) returns (data: Parcel)
      requires queue != [] && at in s.servers && s.servers[at] == View()
      modifies this
      ensures DoProduce(s, at) == s.(servers := s.servers[at := View()]) && owed == old(owed)
      ensures [data] + queue == old(queue)
      ensures Parcels(View()) == old(Parcels(View())) && View().produced == old(produced) + [data]
    {
      data := queue[0];
      queue := queue[1..];
      produced := produced + [data];
    }
  }
}
