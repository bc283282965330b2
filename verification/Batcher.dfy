/** The queue of the asynchronous batcher in `cpid/batcher.cpp`: callers of
    batchedForward and the one consuming thread, with the sub-batch form of
    makeBatch and unBatch and a row-wise model.

    Submitting a query and taking a batch hold the access mutex and are one event
    each; a caller notifies the consumer, and the batch is computed and its promises
    are settled, outside it. The consumer looks at the queue again only when woken. A
    promise is named by the number of its query. An event that is not possible
    leaves the state alone, so a run is any sequence of events. */
module Batcher {
  import opened Batch

  datatype Outcome = Value(v: Variant) | Exception

  datatype State = State(
    queries: seq<Variant>,
    replies: seq<nat>,
    busy: bool,
    takenQueries: seq<Variant>,  // the batch the consumer is working on
    takenReplies: seq<nat>,
    promises: map<nat, Outcome>,  // settled promises
    submitted: seq<Variant>,      // every query there ever was
    fatal: bool,                  // a LOG(FATAL) about mismatched sizes
    asleep: bool,                 // the consumer, on batchReadyCV_
    notifying: set<nat>)          // queries whose callers have yet to notify it

  datatype Event =
    | Submit(q: Variant)
    | Notify(p: nat)
    | SpuriousWake
    | Take
    | Settle(modelThrows: bool)

  datatype Config = Config(batchSize: nat, model: Model)

  const INIT := State([], [], false, [], [], map[], [], false, false, {})

  function Min(a: nat, b: nat): nat { if a < b then a else b }

  function DoSubmit(s: State, q: Variant): State {
    s.(queries := s.queries + [q], replies := s.replies + [|s.submitted|], submitted := s.submitted + [q],
       fatal := |s.replies| != |s.queries|, notifying := s.notifying + {|s.submitted|})
  }

  function DoNotify(s: State, p: nat): State {
    if p in s.notifying then s.(notifying := s.notifying - {p}, asleep := false) else s
  }

  /** The consumer takes a batch, or goes to sleep. */
  function DoTake(c: Config, s: State): State {
    if s.busy || s.asleep then s
    else if s.queries == [] then s.(asleep := true)
    else
      var n := Min(c.batchSize, |s.queries|);
      if |s.replies| != |s.queries| then s.(fatal := true)
      else s.(busy := true, takenQueries := s.queries[..n], takenReplies := s.replies[..n],
              queries := s.queries[n..], replies := s.replies[n..])
  }

  /** What the batch comes to: one value for each query, or an exception. */
  ghost function Compute(c: Config, queries: seq<Variant>, modelThrows: bool): Result<seq<Variant>> {
    var batch := MakeBatch(queries);
    if batch.Err? || modelThrows then Err else UnBatch(Forward(c.model, "", batch.value))
  }

  /** Every promise of the batch gets the outcome with its index. */
  function SetAll(promises: map<nat, Outcome>, replies: seq<nat>, outcomes: seq<Outcome>): map<nat, Outcome>
    requires |replies| == |outcomes|
  {
    if replies == [] then promises
    else
      var n := |replies| - 1;
      SetAll(promises, replies[..n], outcomes[..n])[replies[n] := outcomes[n]]
  }

  function Values(vs: seq<Variant>): (r: seq<Outcome>)
    ensures |r| == |vs|
  {
    seq(|vs|, i requires 0 <= i < |vs| => Value(vs[i]))
  }

  function Exceptions(n: nat): (r: seq<Outcome>)
    ensures |r| == n
  {
    seq(n, i => Exception)
  }

  function Settled(s: State, outcomes: seq<Outcome>): State
    requires |outcomes| == |s.takenReplies|
  {
    s.(busy := false, takenQueries := [], takenReplies := [], promises := SetAll(s.promises, s.takenReplies, outcomes))
  }

  ghost function DoSettle(c: Config, s: State, modelThrows: bool): State {
    if !s.busy then s
    else
      var r := Compute(c, s.takenQueries, modelThrows);
      if r.Ok? && |r.value| != |s.takenReplies| then s.(fatal := true)
      else
        Settled(s, if r.Ok? then Values(r.value) else Exceptions(|s.takenReplies|))
  }

  ghost function Apply(c: Config, s: State, e: Event): State {
    if s.fatal then s else
    match e
    case Submit(q) => DoSubmit(s, q)
    case Notify(p) => DoNotify(s, p)
    case SpuriousWake => s.(asleep := false)
    case Take => DoTake(c, s)
    case Settle(modelThrows) => DoSettle(c, s, modelThrows)
  }

  ghost function Run(c: Config, es: seq<Event>): State
    decreases |es|
  {
    if es == [] then INIT else Apply(c, Run(c, es[..|es| - 1]), es[|es| - 1])
  }

  /** How many promises are settled. */
  function Served(s: State): int {
    |s.submitted| - |s.queries| - |s.takenQueries|
  }

  predicate Numbered(replies: seq<nat>, from: int) {
    forall i :: 0 <= i < |replies| ==> replies[i] == from + i
  }

  /** First in, first out: the queries are the settled ones, then those in the
      batch, then those waiting, each with its own promise. */
  ghost predicate Fifo(c: Config, s: State) {
    var served := Served(s);
    var taken := served + |s.takenQueries|;
    && served >= 0
    && |s.replies| == |s.queries| && |s.takenReplies| == |s.takenQueries| <= c.batchSize
    && (s.busy <==> s.takenQueries != [])
    && s.takenQueries == s.submitted[served..taken] && s.queries == s.submitted[taken..]
    && Numbered(s.takenReplies, served) && Numbered(s.replies, taken)
    && (forall p :: p in s.promises <==> 0 <= p < served)
  }

  lemma {:induction false} SetAllSets(promises: map<nat, Outcome>, replies: seq<nat>, outcomes: seq<Outcome>, from: nat)
    requires |replies| == |outcomes| && Numbered(replies, from)
    ensures var r := SetAll(promises, replies, outcomes);
            && (forall p :: p in r <==> p in promises || from <= p < from + |replies|)
            && (forall p :: p in r ==> r[p] == if from <= p < from + |replies| then outcomes[p - from] else promises[p])
    decreases |replies|
  {
    if replies != [] {
      var n := |replies| - 1;
      SetAllSets(promises, replies[..n], outcomes[..n], from);
      var before := SetAll(promises, replies[..n], outcomes[..n]);
      var r := SetAll(promises, replies, outcomes);
      assert r == before[from + n := outcomes[n]];
      forall p: nat ensures p in r <==> p in promises || from <= p < from + |replies| {
        assert p in before <==> p in promises || from <= p < from + n;
      }
    }
  }

  lemma SubmitKeeps(c: Config, s: State, q: Variant)
    requires Fifo(c, s)
    ensures Fifo(c, DoSubmit(s, q)) && !DoSubmit(s, q).fatal
  {
  }

  lemma TakeKeeps(c: Config, s: State)
    requires c.batchSize >= 1 && Fifo(c, s)
    ensures Fifo(c, DoTake(c, s)) && DoTake(c, s).fatal == s.fatal
  {
    if !s.busy && !s.asleep && s.queries != [] {
      QueueSizes(c, s);
      MovedFifo(c, s, Min(c.batchSize, |s.queries|));
    } else {
      AsleepFifo(c, s);
    }
    hide Fifo;
  }

  lemma AsleepFifo(c: Config, s: State)
    requires Fifo(c, s)
    ensures Fifo(c, s.(asleep := true))
  {
    hide Numbered;
  }

  lemma MovedFifo(c: Config, s: State, n: nat)
    requires Fifo(c, s) && !s.busy && 1 <= n <= c.batchSize && n <= |s.queries| == |s.replies|
    ensures Fifo(c, s.(busy := true, takenQueries := s.queries[..n], takenReplies := s.replies[..n],
                       queries := s.queries[n..], replies := s.replies[n..]))
  {
    FrontNumbered(s.replies, Served(s), n);
    hide Numbered;
    FrontOf(s.submitted, Served(s), n);
    assert s.queries == s.submitted[Served(s)..];
  }

  lemma FrontOf(qs: seq<Variant>, from: nat, n: nat)
    requires from + n <= |qs|
    ensures qs[from..][..n] == qs[from..from + n] && qs[from..][n..] == qs[from + n..]
  {
  }

  lemma FrontNumbered(replies: seq<nat>, from: int, n: nat)
    requires n <= |replies| && Numbered(replies, from)
    ensures Numbered(replies[..n], from) && Numbered(replies[n..], from + n)
  {
  }

  lemma WakeKeeps(c: Config, s: State, e: Event)
    requires Fifo(c, s) && (e.Notify? || e.SpuriousWake?)
    ensures Fifo(c, Apply(c, s, e)) && Apply(c, s, e).fatal == s.fatal
  {
    hide Numbered;
  }

  /** Settling a batch settles its promises, with their own outcomes, and leaves
      all others as they were. */
  lemma SettledKeeps(c: Config, s: State, outcomes: seq<Outcome>)
    requires Fifo(c, s) && |outcomes| == |s.takenReplies|
    ensures var s' := Settled(s, outcomes);
            && Fifo(c, s')
            && forall p :: p in s'.promises ==>
                 s'.promises[p] == if p in s.promises then s.promises[p]
                                   else if 0 <= p - Served(s) < |outcomes| then outcomes[p - Served(s)] else Exception
  {
    SetAllSets(s.promises, s.takenReplies, outcomes, Served(s));
    hide SetAll;
    var s' := Settled(s, outcomes);
    assert Served(s') == Served(s) + |s.takenQueries|;
    assert s'.takenQueries == s'.submitted[Served(s')..Served(s')];
    assert s'.queries == s'.submitted[Served(s')..];
    forall p: nat ensures p in s'.promises <==> 0 <= p < Served(s') {
      assert p in s.promises <==> 0 <= p < Served(s);
      assert |s.takenReplies| == |s.takenQueries|;
    }
  }

  /** In every run, until the sizes of a reply are wrong: queries are served in
      order, in batches of at most the given size, and a promise that is settled
      stays as it is. */
  ghost predicate Grows(s: State, s': State) {
    && s.submitted <= s'.submitted
    && forall p :: p in s.promises ==> p in s'.promises && s'.promises[p] == s.promises[p]
  }

  lemma StepKeeps(c: Config, s: State, e: Event)
    requires c.batchSize >= 1 && Fifo(c, s) && !s.fatal
    ensures Fifo(c, Apply(c, s, e)) && Grows(s, Apply(c, s, e))
    ensures Apply(c, s, e).fatal ==> e.Settle?
  {
    hide Fifo, SetAll, Compute;
    match e
    case Submit(q) => SubmitKeeps(c, s, q);
    case Notify(_) => WakeKeeps(c, s, e);
    case SpuriousWake => WakeKeeps(c, s, e);
    case Take => TakeKeeps(c, s);
    case Settle(modelThrows) => SettleKeeps(c, s, modelThrows);
  }

  lemma SettleKeeps(c: Config, s: State, modelThrows: bool)
    requires Fifo(c, s)
    ensures Fifo(c, DoSettle(c, s, modelThrows)) && Grows(s, DoSettle(c, s, modelThrows))
  {
    hide SetAll, Compute;
    if s.busy {
      var r := Compute(c, s.takenQueries, modelThrows);
      if r.Ok? && |r.value| != |s.takenReplies| {
        assert DoSettle(c, s, modelThrows) == s.(fatal := true);
      } else {
        var outcomes := if r.Ok? then Values(r.value) else Exceptions(|s.takenReplies|);
        SettledKeeps(c, s, outcomes);
        SettledHas(c, s, outcomes);
      }
    }
  }

  lemma SettledHas(c: Config, s: State, outcomes: seq<Outcome>)
    requires Fifo(c, s) && |outcomes| == |s.takenReplies|
    ensures Grows(s, Settled(s, outcomes))
  {
    SetAllSets(s.promises, s.takenReplies, outcomes, Served(s));
    hide SetAll;
  }

  lemma {:induction false} Reachable(c: Config, es: seq<Event>)
    requires c.batchSize >= 1
    ensures Fifo(c, Run(c, es))
    decreases |es|
  {
    if es != [] {
      Reachable(c, es[..|es| - 1]);
      hide Fifo, Apply;
      var s := Run(c, es[..|es| - 1]);
      if s.fatal {
        FatalStops(c, s, es[|es| - 1]);
      } else {
        StepKeeps(c, s, es[|es| - 1]);
      }
    }
  }

  lemma FatalStops(c: Config, s: State, e: Event)
    requires s.fatal
    ensures Apply(c, s, e) == s
  {
  }

  /** Settled promises never change again. */
  lemma SettledOnce(c: Config, es: seq<Event>, e: Event, p: nat)
    requires c.batchSize >= 1 && p in Run(c, es).promises
    ensures p in Run(c, es + [e]).promises && Run(c, es + [e]).promises[p] == Run(c, es).promises[p]
  {
    assert (es + [e])[..|es|] == es;
    Reachable(c, es);
    if !Run(c, es).fatal {
      hide Fifo, Apply;
      StepKeeps(c, Run(c, es), e);
    } else {
      FatalStops(c, Run(c, es), e);
    }
  }

  /** The abort about mismatched sizes happens exactly when the batch could be
      made, the model ran, and the queries hold no tensor at all. */
  lemma FatalExactly(c: Config, es: seq<Event>, modelThrows: bool)
    requires c.batchSize >= 1 && !Run(c, es).fatal && Run(c, es).busy
    ensures var qs := Run(c, es).takenQueries;
            && qs != []
            && (Apply(c, Run(c, es), Settle(modelThrows)).fatal <==>
                  !modelThrows && MakeBatch(qs).Ok? && AllDicts(qs) && SameKeys(qs) && Leafless(qs))
  {
    Reachable(c, es);
    var s := Run(c, es);
    hide Run, SetAll;
    var qs := s.takenQueries;
    if MakeBatch(qs).Ok? && !modelThrows {
      if AllDicts(qs) {
        DictBatchIsDict(qs);
        ReplyCount(c.model, "", qs);
        assert |s.takenReplies| > 0;
      } else {
        assert MakeBatch(qs).value.TensorV? by { TensorBatchIsTensor(qs); }
      }
    }
  }

  lemma TensorBatchIsTensor(qs: seq<Variant>)
    requires qs != [] && !AllDicts(qs) && MakeBatch(qs).Ok?
    ensures MakeBatch(qs).value.TensorV?
  {
    assert SameKeys(qs) ==> AllDicts(qs);
  }

  /** The outcome is the model's answer on the query, or perhaps an exception. */
  ghost predicate Fits(c: Config, o: Outcome, q: Variant, mayFail: bool) {
    o == Value(Forward(c.model, "", q)) || (mayFail && o.Exception?)
  }

  ghost predicate AllFit(c: Config, outcomes: seq<Outcome>, qs: seq<Variant>, mayFail: bool) {
    |outcomes| == |qs| && forall i :: 0 <= i < |qs| ==> Fits(c, outcomes[i], qs[i], mayFail)
  }

  /** Every settled promise holds the model's answer to its own query, or perhaps
      an exception. */
  ghost predicate Answered(c: Config, s: State, mayFail: bool) {
    forall p :: p in s.promises ==> p < |s.submitted| && Fits(c, s.promises[p], s.submitted[p], mayFail)
  }

  lemma NewAnswer(c: Config, s: State, outcomes: seq<Outcome>, mayFail: bool, p: nat)
    requires Fifo(c, s) && Answered(c, s, mayFail) && |outcomes| == |s.takenReplies|
    requires AllFit(c, outcomes, s.takenQueries, mayFail) && p in Settled(s, outcomes).promises
    ensures p < |s.submitted| && Fits(c, Settled(s, outcomes).promises[p], s.submitted[p], mayFail)
  {
    hide Fits;
    SettledKeeps(c, s, outcomes);
    hide Settled;
    if p !in s.promises {
      var i := p - Served(s);
      assert 0 <= i < |s.takenQueries| && s.takenQueries[i] == s.submitted[p];
    }
  }

  /** If the batch's outcomes fit its queries, all settled promises do. */
  lemma NewAnswers(c: Config, s: State, outcomes: seq<Outcome>, mayFail: bool)
    requires Fifo(c, s) && Answered(c, s, mayFail) && |outcomes| == |s.takenReplies|
    requires AllFit(c, outcomes, s.takenQueries, mayFail)
    ensures Answered(c, Settled(s, outcomes), mayFail)
  {
    hide Fifo, Fits, AllFit;
    forall p | p in Settled(s, outcomes).promises
      ensures p < |s.submitted| && Fits(c, Settled(s, outcomes).promises[p], s.submitted[p], mayFail)
    {
      NewAnswer(c, s, outcomes, mayFail, p);
    }
  }

  /** A query without scalars and empty dictionaries, whose tensors have the rows
      that the model reads together. */
  ghost predicate Sound(c: Config, q: Variant) {
    Proper(q) && Aligned(c.model, q)
  }

  ghost predicate AllSound(c: Config, qs: seq<Variant>) {
    forall i :: 0 <= i < |qs| ==> Sound(c, qs[i])
  }

  /** A batch of such queries comes to an exception, or to the model's answers. */
  lemma ProperAnswers(c: Config, qs: seq<Variant>, modelThrows: bool)
    requires qs != [] && AllSound(c, qs)
    ensures var r := Compute(c, qs, modelThrows); r.Err? || r == Ok(ForwardAll(c.model, "", qs))
  {
    hide Forward, UnBatch, Clean, Proper, Aligned;
    if MakeBatch(qs).Ok? && !modelThrows {
      if AllDicts(qs) {
        DictBatchIsDict(qs);
        hide MakeBatch;
        ProperIsClean(qs);
        Transparent(c.model, qs);
      } else {
        TensorBatchIsTensor(qs);
        hide MakeBatch;
        TensorUnBatches(c.model, MakeBatch(qs).value);
      }
    }
  }

  lemma TensorUnBatches(m: Model, v: Variant)
    requires v.TensorV?
    ensures UnBatch(Forward(m, "", v)).Err?
  {
  }

  /** ... and to the answers, if they are of one shape and the model runs. */
  lemma ShapeAnswers(c: Config, qs: seq<Variant>, sh: Shape)
    requires qs != [] && sh.Node? && AllShaped(c, qs, sh)
    ensures Compute(c, qs, false) == Ok(ForwardAll(c.model, "", qs))
  {
    hide MakeBatch, Forward, UnBatch, Clean, Aligned, HasShape;
    SameShapeBatches(qs, sh);
    Transparent(c.model, qs);
  }

  lemma AnswersFit(c: Config, qs: seq<Variant>, mayFail: bool)
    ensures AllFit(c, Values(ForwardAll(c.model, "", qs)), qs, mayFail) && AllFit(c, Exceptions(|qs|), qs, true)
  {
    hide Forward;
  }

  /** Settling a batch that comes to an exception, where that may be, or to the
      answers of the model. */
  lemma SettleAnswers(c: Config, s: State, modelThrows: bool, mayFail: bool)
    requires Fifo(c, s) && !s.fatal && s.busy && Answered(c, s, mayFail)
    requires var r := Compute(c, s.takenQueries, modelThrows);
             (r.Err? && mayFail) || r == Ok(ForwardAll(c.model, "", s.takenQueries))
    ensures var s' := DoSettle(c, s, modelThrows); Answered(c, s', mayFail) && !s'.fatal
  {
    QueueSizes(c, s);
    AnswersFit(c, s.takenQueries, mayFail);
    hide Compute, SetAll, Forward, Fifo, Answered, AllFit, Settled;
    var r := Compute(c, s.takenQueries, modelThrows);
    NewAnswers(c, s, if r.Ok? then Values(r.value) else Exceptions(|s.takenReplies|), mayFail);
    SettledIsRunning(s, if r.Ok? then Values(r.value) else Exceptions(|s.takenReplies|));
  }

  lemma SettledIsRunning(s: State, outcomes: seq<Outcome>)
    requires |outcomes| == |s.takenReplies|
    ensures Settled(s, outcomes).fatal == s.fatal && Settled(s, outcomes).submitted == s.submitted
  {
  }

  lemma SubmitAnswers(c: Config, s: State, q: Variant, mayFail: bool)
    requires Answered(c, s, mayFail)
    ensures Answered(c, DoSubmit(s, q), mayFail)
  {
    hide Fits;
  }

  lemma TakenAreSubmitted(c: Config, s: State, i: nat)
    requires Fifo(c, s) && i < |s.takenQueries|
    ensures 0 <= Served(s) + i < |s.submitted| && s.takenQueries[i] == s.submitted[Served(s) + i]
  {
  }

  lemma SubmittedStay(c: Config, s: State, e: Event)
    requires !s.fatal
    ensures Apply(c, s, e).submitted == if e.Submit? then s.submitted + [e.q] else s.submitted
  {
    hide Compute, SetAll;
  }

  ghost predicate SoundQueries(c: Config, es: seq<Event>) {
    forall i :: 0 <= i < |es| && es[i].Submit? ==> Sound(c, es[i].q)
  }

  /** Batching is transparent to callers: in every run with such queries, of any
      shapes and with a model that may throw, every promise that is settled holds an
      exception or the model's answer on its own query, and nothing aborts. */
  lemma {:induction false} CallersGetTheirAnswer(c: Config, es: seq<Event>)
    requires c.batchSize >= 1 && SoundQueries(c, es)
    ensures var s := Run(c, es); Answered(c, s, true) && !s.fatal && AllSound(c, s.submitted)
    decreases |es|
  {
    hide Answered, Fifo, Sound, Compute, SetAll, Forward, Settled;
    if es == [] {
      assert Answered(c, INIT, true) by { NoAnswers(c, true); }
    } else {
      var before, e := es[..|es| - 1], es[|es| - 1];
      CallersGetTheirAnswer(c, before);
      Reachable(c, before);
      var s := Run(c, before);
      StepKeeps(c, s, e);
      SubmittedStay(c, s, e);
      hide Run;
      match e
      case Submit(q) => SubmitAnswers(c, s, q, true);
      case Notify(_) => WakeAnswers(c, s, e, true);
      case SpuriousWake => WakeAnswers(c, s, e, true);
      case Take => TakeAnswers(c, s, true);
      case Settle(modelThrows) =>
        if s.busy {
          forall i | 0 <= i < |s.takenQueries| ensures Sound(c, s.takenQueries[i]) {
            TakenAreSubmitted(c, s, i);
          }
          BusyTakes(c, s);
          ProperAnswers(c, s.takenQueries, modelThrows);
          SettleAnswers(c, s, modelThrows, true);
        }
    }
  }

  lemma NoAnswers(c: Config, mayFail: bool)
    ensures Answered(c, INIT, mayFail)
  {
  }

  lemma BusyTakes(c: Config, s: State)
    requires Fifo(c, s) && s.busy
    ensures s.takenQueries != []
  {
  }

  lemma WakeAnswers(c: Config, s: State, e: Event, mayFail: bool)
    requires Answered(c, s, mayFail) && (e.Notify? || e.SpuriousWake?)
    ensures Answered(c, Apply(c, s, e), mayFail)
  {
    hide Fits;
  }

  lemma TakeAnswers(c: Config, s: State, mayFail: bool)
    requires Answered(c, s, mayFail)
    ensures Answered(c, DoTake(c, s), mayFail)
  {
    hide Fits;
  }

  /** All queries have the given shape, and the model never throws. */
  ghost predicate Uniform(c: Config, es: seq<Event>, sh: Shape) {
    && sh.Node?
    && forall i :: 0 <= i < |es| ==>
         (es[i].Submit? ==> Shaped(c, es[i].q, sh)) && (es[i].Settle? ==> !es[i].modelThrows)
  }

  ghost predicate Shaped(c: Config, q: Variant, sh: Shape) {
    HasShape(q, sh) && Aligned(c.model, q)
  }

  ghost predicate AllShaped(c: Config, qs: seq<Variant>, sh: Shape) {
    forall i :: 0 <= i < |qs| ==> Shaped(c, qs[i], sh)
  }

  /** With queries of one shape and a model that does not throw there are no
      exceptions. */
  lemma {:induction false} SameShapeNeverFails(c: Config, es: seq<Event>, sh: Shape)
    requires c.batchSize >= 1 && Uniform(c, es, sh)
    ensures var s := Run(c, es); Answered(c, s, false) && !s.fatal && AllShaped(c, s.submitted, sh)
    decreases |es|
  {
    hide Answered, Fifo, Shaped, Compute, SetAll, Forward, Settled;
    if es == [] {
      assert Answered(c, INIT, false) by { NoAnswers(c, false); }
    } else {
      var before, e := es[..|es| - 1], es[|es| - 1];
      SameShapeNeverFails(c, before, sh);
      Reachable(c, before);
      var s := Run(c, before);
      StepKeeps(c, s, e);
      SubmittedStay(c, s, e);
      hide Run;
      match e
      case Submit(q) => SubmitAnswers(c, s, q, false);
      case Notify(_) => WakeAnswers(c, s, e, false);
      case SpuriousWake => WakeAnswers(c, s, e, false);
      case Take => TakeAnswers(c, s, false);
      case Settle(_) =>
        if s.busy {
          forall i | 0 <= i < |s.takenQueries| ensures Shaped(c, s.takenQueries[i], sh) {
            TakenAreSubmitted(c, s, i);
          }
          BusyTakes(c, s);
          ShapeAnswers(c, s.takenQueries, sh);
          SettleAnswers(c, s, false, false);
        }
    }
  }

  /** The consumer sleeps on a queue that is not empty only while a caller is about to
      notify it. */
  ghost predicate WillWake(s: State) {
    s.asleep && s.queries != [] ==> s.notifying != {}
  }

  lemma {:induction false} NoLostWakeup(c: Config, es: seq<Event>)
    ensures WillWake(Run(c, es))
    decreases |es|
  {
    if es != [] {
      NoLostWakeup(c, es[..|es| - 1]);
      var s, e := Run(c, es[..|es| - 1]), es[|es| - 1];
      hide Run, Compute, SetAll;
      if e.Submit? {
        assert |s.submitted| in DoSubmit(s, e.q).notifying;
      }
    }
  }

  /** The consumer takes as many queries as there are, up to the batch size, from the front
      of both queues; on an empty queue it goes to sleep. */
  lemma TakeExactly(c: Config, es: seq<Event>)
    requires c.batchSize >= 1 && !Run(c, es).fatal && !Run(c, es).busy && !Run(c, es).asleep
    ensures var s, s' := Run(c, es), Apply(c, Run(c, es), Take);
            var n := if c.batchSize < |s.queries| then c.batchSize else |s.queries|;
            && |s.replies| == |s.queries|
            && s'.takenQueries + s'.queries == s.queries && s'.takenReplies + s'.replies == s.replies
            && |s'.takenQueries| == |s'.takenReplies| == n && s'.promises == s.promises && s'.submitted == s.submitted
            && s'.asleep == (s.queries == []) && s'.busy == (s.queries != [])
  {
    hide Run, Fifo, Compute, SetAll;
    Reachable(c, es);
    var s := Run(c, es);
    QueueSizes(c, s);
    NothingTaken(c, s);
    var n := Min(c.batchSize, |s.queries|);
    assert s.queries[..n] + s.queries[n..] == s.queries && s.replies[..n] + s.replies[n..] == s.replies;
  }

  /** A caller that notifies has done so, and the consumer is awake. */
  lemma NotifyExactly(c: Config, s: State, p: nat)
    requires !s.fatal && p in s.notifying
    ensures var s' := Apply(c, s, Notify(p));
            s' == s.(asleep := false, notifying := s.notifying - {p})
  {
  }

  lemma NothingTaken(c: Config, s: State)
    requires Fifo(c, s) && !s.busy
    ensures s.takenQueries == [] && s.takenReplies == []
  {
  }

  /** What callers and the consumer do once nothing more is submitted. */
  ghost predicate GoingOn(es: seq<Event>) {
    forall i :: 0 <= i < |es| ==> es[i].Notify? || es[i].Take? || (es[i].Settle? && !es[i].modelThrows)
  }

  lemma OneMore(c: Config, es: seq<Event>, more: seq<Event>, e: Event) returns (r: seq<Event>)
    requires GoingOn(more) && GoingOn([e])
    ensures r == more + [e] && GoingOn(r) && Run(c, es + r) == Apply(c, Run(c, es + more), e)
  {
    r := more + [e];
    assert (es + r)[..|es + more|] == es + more;
    assert [e][0] == e;
  }

  function Rank(s: State): nat {
    if s.busy then 0 else if s.asleep then 2 else 1
  }

  lemma StaySound(c: Config, es: seq<Event>, more: seq<Event>)
    requires SoundQueries(c, es) && GoingOn(more)
    ensures SoundQueries(c, es + more)
  {
    hide Sound;
  }

  /** What each of these steps does to a query that has no answer yet. */
  lemma Onward(c: Config, s: State, p: nat) returns (e: Event)
    requires c.batchSize >= 1 && Fifo(c, s) && WillWake(s) && p < |s.submitted| && p !in s.promises
    requires !s.fatal && !Apply(c, s, Settle(false)).fatal
    ensures GoingOn([e])
    ensures var s' := Apply(c, s, e);
            && s'.submitted == s.submitted
            && (Served(s') > Served(s) || (Served(s') == Served(s) && Rank(s') < Rank(s)))
  {
    hide Compute, SetAll;
    if s.busy {
      e := Settle(false);
    } else if s.asleep {
      var x :| x in s.notifying;
      e := Notify(x);
    } else {
      e := Take;
    }
  }

  lemma {:induction false} AnswersFrom(c: Config, es: seq<Event>, more: seq<Event>, p: nat) returns (r: seq<Event>)
    requires c.batchSize >= 1 && SoundQueries(c, es) && GoingOn(more) && p < |Run(c, es + more).submitted|
    ensures GoingOn(r) && p in Run(c, es + r).promises
    decreases |Run(c, es + more).submitted| - Served(Run(c, es + more)), Rank(Run(c, es + more))
  {
    hide Run, Apply, Sound, Answered, AllSound, Served, Rank;
    var s := Run(c, es + more);
    r := more;
    Reachable(c, es + more);
    if p !in s.promises {
      StaySound(c, es, more);
      CallersGetTheirAnswer(c, es + more);
      NoLostWakeup(c, es + more);
      var settled := OneMore(c, es, more, Settle(false));
      StaySound(c, es, settled);
      CallersGetTheirAnswer(c, es + settled);
      var e := Onward(c, s, p);
      r := OneMore(c, es, more, e);
      Reachable(c, es + r);
      ServedInRange(c, Run(c, es + r));
      ServedInRange(c, s);
      r := AnswersFrom(c, es, r, p);
    }
  }

  lemma ServedInRange(c: Config, s: State)
    requires Fifo(c, s)
    ensures 0 <= Served(s) <= |s.submitted|
  {
  }

  /** No call waits in vain: from every reachable state callers and consumer can go on,
      without a spurious wakeup and with a model that runs, so that a given query gets
      its answer, or the exception that its batch comes to. */
  lemma AnswerCanCome(c: Config, es: seq<Event>, p: nat) returns (more: seq<Event>)
    requires c.batchSize >= 1 && SoundQueries(c, es) && p < |Run(c, es).submitted|
    ensures GoingOn(more) && p in Run(c, es + more).promises && Answered(c, Run(c, es + more), true)
  {
    hide Run, Sound, Answered;
    assert es + [] == es;
    more := AnswersFrom(c, es, [], p);
    StaySound(c, es, more);
    CallersGetTheirAnswer(c, es + more);
  }

  /** The batcher's queue and its two critical sections. */
  class AsyncBatcher {
    const config: Config
    var queries: seq<Variant>
    var replies: seq<nat>
    ghost var rest: State  // everything but the queue

    ghost function View(): State
      reads this
    {
      rest.(queries := queries, replies := replies)
    }

    ghost predicate Valid()
      reads this
    {
      config.batchSize >= 1 && Fifo(config, View()) && !rest.fatal
    }

    constructor (config: Config)
      requires config.batchSize >= 1
      ensures Valid() && this.config == config && View() == INIT
    {
      this.config := config;
      queries, replies, rest := [], [], INIT;
    }

    /** The critical section of batchedForward. */
    method Enqueue(state: Variant, promise: nat)
      requires Valid() && promise == |rest.submitted|
      modifies this
      ensures Valid() && View() == Apply(config, old(View()), Submit(state))
      ensures queries == old(queries) + [state] && replies == old(replies) + [promise]
    {
      hide Fifo;
      StepKeeps(config, View(), Submit(state));
      assert |replies| == |queries| by { QueueSizes(config, View()); }
      replies := replies + [promise];
      queries := queries + [state];
      rest := rest.(submitted := rest.submitted + [state], notifying := rest.notifying + {promise});
    }

    /** The critical section of the consumer: moves the oldest queries and their
        promises out and shifts the others to the front. */
    method TakeBatch() returns (qs: seq<Variant>, rs: seq<nat>)
      requires Valid() && queries != [] && !rest.busy && !rest.asleep
      modifies this
      ensures Valid() && View() == Apply(config, old(View()), Take)
      ensures qs == View().takenQueries && rs == View().takenReplies && 1 <= |qs| == |rs| <= config.batchSize
      ensures qs + queries == old(queries) && rs + replies == old(replies)
      ensures |qs| == if config.batchSize < |old(queries)| then config.batchSize else |old(queries)|
    {
      hide Fifo;
      StepKeeps(config, View(), Take);
      QueueSizes(config, View());
      var todo := Min(config.batchSize, |queries|);
      qs, queries := MoveFront(queries, todo);
      rs, replies := MoveFront(replies, todo);
      rest := rest.(busy := true, takenQueries := qs, takenReplies := rs);
    }

    /** Moves the first `todo` elements of a vector into a new one and shifts the
        others to the front. */
    static method MoveFront<T>(v: seq<T>, todo: nat) returns (front: seq<T>, back: seq<T>)
      requires todo <= |v|
      ensures front == v[..todo] && back == v[todo..]
    {
      front, back := [], v;
      for i := 0 to todo
        invariant front == v[..i]
      {
        front := front + [v[i]];
      }
      for i := todo to |v|
        invariant |back| == |v| && back[..i - todo] == v[todo..i] && back[i - todo..] == v[i - todo..]
      {
        assert back[i] == back[i - todo..][todo] == v[i];
        ghost var before := back;
        back := back[i - todo := back[i]];
        assert v[todo..i + 1] == v[todo..i] + [v[i]];
        assert back[..i + 1 - todo] == before[..i - todo] + [v[i]];
        assert back[i + 1 - todo..] == before[i - todo..][1..];
      }
      back := back[..|v| - todo];
    }
  }

  lemma QueueSizes(c: Config, s: State)
    requires Fifo(c, s)
    ensures |s.replies| == |s.queries| && |s.takenReplies| == |s.takenQueries|
  {
  }
}
