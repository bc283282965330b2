/** The multi-threaded data iterator of `common/datareader.h`: any number of
    reader threads, one consumer, one mutex and two condition variables.

    An event is one critical section, one file read, one notification, or one
    evaluation of the consumer's wait predicate; the consumer holds the mutex except
    while it waits, and looks again only after it was woken.
    An event that is not possible leaves the state alone, so a run is any sequence
    of events. */
module DataReader {
  import opened Options

  /** What reading a file gives: its datum, or an exception. */
  type Datum = Option<int>

  datatype Config = Config(data: seq<Datum>, batchSize: nat, numThreads: nat) {
    /** kMaxBatchesInQueue batches. */
    function NormalQueue(): nat { 4 * batchSize }
  }

  datatype Place =
    | Looping            // about to enter the critical section
    | Reading(pos: nat)  // has claimed a path
    | Notifying(pos: nat)  // has fulfilled its promise, about to notify the consumer
    | Asleep             // on prodCV_, because the queue was full
    | Done

  datatype Future = Pending | Ready(datum: Datum)

  /** The consumer, with the position where its call started and its batch. */
  datatype Consumer =
    | Idle
    | Loop(start: nat, batch: seq<int>)
    | Waiting(start: nat, batch: seq<int>, cur: nat, attempts: nat, awake: bool)
    | Getting(start: nat, batch: seq<int>, cur: nat)

  datatype State = State(
    pos: nat,
    threadPos: nat,
    dataQueue: map<nat, Future>,
    maxQueueSize: nat,
    readers: map<nat, Place>,
    consumer: Consumer,
    batches: seq<seq<int>>)
  {
    function At(t: nat): Place { if t in readers then readers[t] else Looping }

    function Move(t: nat, p: Place): State { this.(readers := readers[t := p]) }

    /** The consumer does not hold the mutex. */
    predicate MutexFree() { consumer.Idle? || consumer.Waiting? }

    /** The first position that has not been taken out of the queue. */
    function Consumed(): int {
      if consumer.Waiting? || consumer.Getting? then consumer.cur else pos
    }

    /** Where the current call started, or the next one will. */
    function Start(): nat { if consumer.Idle? then pos else consumer.start }
  }

  datatype Event =
    | Enter(t: nat)
    | Finish(t: nat)
    | Notify(t: nat)
    | SpuriousWake(t: nat)
    | SpuriousConsumerWake
    | Call
    | Consume

  function Init(c: Config): State {
    State(0, 0, map[], c.NormalQueue(), map[], Idle, [])
  }

  /** A notification on consumerCV_. */
  function Woken(k: Consumer): Consumer {
    if k.Waiting? then k.(awake := true) else k
  }

  /** A reader's critical section: claim the next path, stop, or notify the consumer
      and go to sleep. */
  function DoEnter(c: Config, s: State, t: nat): State {
    if t >= c.numThreads || !s.At(t).Looping? || !s.MutexFree() then s
    else if s.threadPos >= |c.data| then s.Move(t, Done)
    else if |s.dataQueue| < s.maxQueueSize
    then
      s.Move(t, Reading(s.threadPos)).(dataQueue := s.dataQueue[s.threadPos := Pending], threadPos := s.threadPos + 1)
    else s.Move(t, Asleep).(consumer := Woken(s.consumer))
  }

  /** The file is read and the promise fulfilled, without the mutex. */
  function DoFinish(c: Config, s: State, t: nat): State {
    var p := s.At(t);
    if !p.Reading? || p.pos >= |c.data| || p.pos !in s.dataQueue then s
    else s.Move(t, Notifying(p.pos)).(dataQueue := s.dataQueue[p.pos := Ready(c.data[p.pos])])
  }

  function DoNotify(s: State, t: nat): State {
    if s.At(t).Notifying? then s.Move(t, Looping).(consumer := Woken(s.consumer)) else s
  }

  function WakeAll(readers: map<nat, Place>): map<nat, Place> {
    map t | t in readers :: if readers[t].Asleep? then Looping else readers[t]
  }

  /** One step of the consumer inside next(). */
  function DoConsume(c: Config, s: State): State {
    match s.consumer
    case Idle => s
    case Loop(start, batch) =>
      if s.pos < |c.data| && |batch| < c.batchSize then
        var s' := s.(pos := s.pos + 1);
        if s.pos in s.dataQueue then s'.(consumer := Getting(start, batch, s.pos))
        else s'.(consumer := Waiting(start, batch, s.pos, 1, false))
      else s.(consumer := Idle, batches := s.batches + [batch],
              maxQueueSize := c.NormalQueue(), readers := WakeAll(s.readers))
    case Waiting(start, batch, cur, attempts, awake) =>
      if !awake then s
      else if cur in s.dataQueue then s.(consumer := Getting(start, batch, cur))
      else s.(consumer := Waiting(start, batch, cur, attempts + 1, false),
              maxQueueSize := if (attempts + 1) % 5 == 0 then s.maxQueueSize * 3 / 2 else s.maxQueueSize)
    case Getting(start, batch, cur) =>
      if cur !in s.dataQueue || s.dataQueue[cur].Pending? then s
      else
        var d := s.dataQueue[cur].datum;
        s.(consumer := Loop(start, if d.Some? then batch + [d.value] else batch), dataQueue := s.dataQueue - {cur})
  }

  predicate HasNext(c: Config, s: State) {
    s.dataQueue != map[] || s.threadPos < |c.data|
  }

  function Apply(c: Config, s: State, e: Event): State {
    match e
    case Enter(t) => DoEnter(c, s, t)
    case Finish(t) => DoFinish(c, s, t)
    case Notify(t) => DoNotify(s, t)
    case SpuriousWake(t) => if s.At(t).Asleep? then s.Move(t, Looping) else s
    case SpuriousConsumerWake => s.(consumer := Woken(s.consumer))
    case Call => if s.consumer.Idle? && HasNext(c, s) then s.(consumer := Loop(s.pos, [])) else s
    case Consume => DoConsume(c, s)
  }

  function Run(c: Config, s: State, es: seq<Event>): State
    decreases |es|
  {
    if es == [] then s else Apply(c, Run(c, s, es[..|es| - 1]), es[|es| - 1])
  }

  /** The readable data among some files, in order. */
  function Readable(data: seq<Datum>): (r: seq<int>)
    ensures |r| <= |data|
  {
    if data == [] then []
    else
      var rest := Readable(data[..|data| - 1]);
      var d := data[|data| - 1];
      if d.Some? then rest + [d.value] else rest
  }

  function Flatten(batches: seq<seq<int>>): seq<int> {
    if batches == [] then [] else Flatten(batches[..|batches| - 1]) + batches[|batches| - 1]
  }

  /** The queue holds exactly the claimed positions that are not consumed. */
  ghost predicate QueueOk(c: Config, s: State) {
    && 0 <= s.Consumed() <= s.threadPos <= |c.data| && s.pos <= |c.data|
    && (s.consumer.Waiting? || s.consumer.Getting? ==> s.pos == s.consumer.cur + 1)
    && (s.consumer.Getting? ==> s.consumer.cur < s.threadPos)
    && s.maxQueueSize >= c.NormalQueue()
    && (forall k :: k in s.dataQueue <==> s.Consumed() <= k < s.threadPos)
  }

  ghost predicate FutureOk(c: Config, s: State, k: nat)
    requires k in s.dataQueue && k < |c.data|
  {
    s.dataQueue[k].Ready? ==> s.dataQueue[k].datum == c.data[k]
  }

  ghost predicate FuturesOk(c: Config, s: State) {
    forall k :: k in s.dataQueue ==> k < |c.data| && FutureOk(c, s, k)
  }

  /** What has been returned, and what the call in progress has collected. */
  ghost predicate OrderOk(c: Config, s: State) {
    && s.Start() <= s.Consumed() <= |c.data|
    && Flatten(s.batches) == Readable(c.data[..s.Start()])
    && (!s.consumer.Idle? ==>
          s.consumer.batch == Readable(c.data[s.Start()..s.Consumed()]) && |s.consumer.batch| <= c.batchSize)
    && (s.consumer.Waiting? || s.consumer.Getting? ==> |s.consumer.batch| < c.batchSize)
  }

  /** Only the last batch may be short, and then the data is used up. */
  ghost predicate SizesOk(c: Config, s: State) {
    && (forall i :: 0 <= i < |s.batches| ==> |s.batches[i]| <= c.batchSize)
    && (forall i :: 0 <= i < |s.batches| && |s.batches[i]| < c.batchSize ==>
          i == |s.batches| - 1 && s.pos == |c.data| && s.consumer.Idle?)
  }

  /** A reader sleeps only while more than a normal queue has been claimed since
      the current call started. */
  ghost predicate SleepOk(c: Config, s: State) {
    forall t :: t in s.readers && s.readers[t].Asleep? ==> s.threadPos >= s.Start() + c.NormalQueue()
  }

  ghost predicate Inv(c: Config, s: State) {
    QueueOk(c, s) && FuturesOk(c, s) && OrderOk(c, s) && SizesOk(c, s) && SleepOk(c, s)
  }

  lemma ReadableSnoc(data: seq<Datum>, i: nat, j: nat)
    requires i <= j < |data|
    ensures Readable(data[i..j + 1]) ==
            if data[j].Some? then Readable(data[i..j]) + [data[j].value] else Readable(data[i..j])
  {
    assert data[i..j + 1][..j - i] == data[i..j];
  }

  lemma EmptyReadable(data: seq<Datum>, p: nat)
    requires p <= |data|
    ensures Readable(data[p..p]) == []
  {
  }

  lemma {:induction false} ReadableSplit(data: seq<Datum>, i: nat, j: nat)
    requires i <= j <= |data|
    ensures Readable(data[..j]) == Readable(data[..i]) + Readable(data[i..j])
    decreases j
  {
    hide Readable;
    EmptyReadable(data, i);
    if i < j {
      ReadableSplit(data, i, j - 1);
      ReadableSnoc(data, i, j - 1);
      ReadableSnoc(data, 0, j - 1);
      assert data[0..j - 1] == data[..j - 1] && data[0..j] == data[..j];
    }
  }

  /** The queue's size, from its bounds. */
  lemma {:induction false} QueueSize(q: map<nat, Future>, lo: nat, hi: nat)
    requires lo <= hi && forall k :: k in q <==> lo <= k < hi
    ensures |q| == hi - lo
    decreases hi - lo
  {
    if lo == hi {
      assert q.Keys == {};
      assert |q| == |q.Keys|;
    } else {
      var q' := q - {lo};
      QueueSize(q', lo + 1, hi);
      assert q.Keys == q'.Keys + {lo};
      assert |q| == |q.Keys| && |q'| == |q'.Keys|;
    }
  }

  lemma EnterKeeps(c: Config, s: State, t: nat)
    requires Inv(c, s)
    ensures Inv(c, DoEnter(c, s, t))
  {
    hide Readable, Flatten, SizesOk, OrderOk;
    var s' := DoEnter(c, s, t);
    QueueSize(s.dataQueue, s.Consumed(), s.threadPos);
    forall k | k in s'.dataQueue ensures k < |c.data| && FutureOk(c, s', k) {
      assert k in s.dataQueue ==> FutureOk(c, s, k);
    }
    assert s.Start() <= s.Consumed() by { StartBeforeConsumed(c, s); }
    SameOrder(c, s, s');
  }

  lemma StartBeforeConsumed(c: Config, s: State)
    requires OrderOk(c, s)
    ensures s.Start() <= s.Consumed()
  {
    hide Readable, Flatten;
  }

  /** The order of the output depends only on the consumer. */
  lemma SameOrder(c: Config, s: State, s': State)
    requires OrderOk(c, s) && SizesOk(c, s)
    requires s'.consumer == s.consumer || s'.consumer == Woken(s.consumer)
    requires s'.pos == s.pos && s'.batches == s.batches
    ensures OrderOk(c, s') && SizesOk(c, s')
  {
    hide Readable, Flatten;
  }

  lemma FinishKeeps(c: Config, s: State, t: nat)
    requires Inv(c, s)
    ensures Inv(c, DoFinish(c, s, t))
  {
    var s' := DoFinish(c, s, t);
    forall k | k in s'.dataQueue ensures k < |c.data| && FutureOk(c, s', k) {
      assert k in s.dataQueue ==> FutureOk(c, s, k);
    }
    hide Readable, Flatten;
  }

  lemma NotifyKeeps(c: Config, s: State, t: nat)
    requires Inv(c, s)
    ensures Inv(c, DoNotify(s, t)) && Inv(c, s.(consumer := Woken(s.consumer)))
  {
    hide Readable, Flatten, SizesOk, OrderOk;
    SameOrder(c, s, DoNotify(s, t));
    SameOrder(c, s, s.(consumer := Woken(s.consumer)));
    assert forall k :: k in s.dataQueue ==> FutureOk(c, s, k);
  }

  lemma CallKeeps(c: Config, s: State)
    requires Inv(c, s)
    ensures Inv(c, Apply(c, s, Call))
  {
    var s' := Apply(c, s, Call);
    assert c.data[s.pos..s.pos] == [];
    forall k | k in s'.dataQueue ensures k < |c.data| && FutureOk(c, s', k) {
      assert FutureOk(c, s, k);
    }
    if s.batches != [] && |s.batches[|s.batches| - 1]| < c.batchSize {
      assert s.dataQueue == map[];
    }
  }

  lemma TakeKeeps(c: Config, s: State)
    requires Inv(c, s) && s.consumer.Loop? && s.pos < |c.data| && |s.consumer.batch| < c.batchSize
    ensures Inv(c, DoConsume(c, s))
  {
    var s' := DoConsume(c, s);
    forall k | k in s'.dataQueue ensures k < |c.data| && FutureOk(c, s', k) {
      assert FutureOk(c, s, k);
    }
    hide Readable, Flatten;
  }

  lemma ReturnKeeps(c: Config, s: State)
    requires Inv(c, s) && s.consumer.Loop? && !(s.pos < |c.data| && |s.consumer.batch| < c.batchSize)
    ensures Inv(c, DoConsume(c, s)) && DoConsume(c, s).consumer.Idle?
  {
    hide Readable, Flatten;
    var s' := DoConsume(c, s);
    forall k | k in s'.dataQueue ensures k < |c.data| && FutureOk(c, s', k) {
      assert FutureOk(c, s, k);
    }
    ReadableSplit(c.data, s.consumer.start, s.pos);
    FlattenSnoc(s.batches, s.consumer.batch);
  }

  lemma FlattenSnoc(batches: seq<seq<int>>, batch: seq<int>)
    ensures Flatten(batches + [batch]) == Flatten(batches) + batch
  {
    assert (batches + [batch])[..|batches|] == batches;
  }

  lemma WaitKeeps(c: Config, s: State)
    requires Inv(c, s) && s.consumer.Waiting?
    ensures Inv(c, DoConsume(c, s))
  {
    var s' := DoConsume(c, s);
    forall k | k in s'.dataQueue ensures k < |c.data| && FutureOk(c, s', k) {
      assert FutureOk(c, s, k);
    }
    hide Readable, Flatten;
  }

  lemma GetKeeps(c: Config, s: State)
    requires Inv(c, s) && s.consumer.Getting?
    ensures Inv(c, DoConsume(c, s))
  {
    hide OrderOk, Readable, Flatten;
    GetOrder(c, s);
    var s' := DoConsume(c, s);
    forall k | k in s'.dataQueue ensures k < |c.data| && FutureOk(c, s', k) {
      assert FutureOk(c, s, k);
    }
  }

  lemma GetOrder(c: Config, s: State)
    requires Inv(c, s) && s.consumer.Getting?
    ensures OrderOk(c, DoConsume(c, s))
  {
    hide SleepOk, SizesOk, Flatten, Readable;
    var cur := s.consumer.cur;
    assert cur in s.dataQueue && FutureOk(c, s, cur);
    ReadableSnoc(c.data, s.consumer.start, cur);
  }

  lemma KeepsInv(c: Config, s: State, e: Event)
    requires Inv(c, s)
    ensures Inv(c, Apply(c, s, e))
  {
    hide Inv, DoEnter, DoFinish, DoNotify, DoConsume;
    match e
    case Enter(t) => EnterKeeps(c, s, t);
    case Finish(t) => FinishKeeps(c, s, t);
    case Notify(t) => NotifyKeeps(c, s, t);
    case SpuriousConsumerWake => NotifyKeeps(c, s, 0);
    case SpuriousWake(t) => WakeKeeps(c, s, t);
    case Call => CallKeeps(c, s);
    case Consume =>
      match s.consumer
      case Idle => IdleConsume(c, s);
      case Loop(start, batch) =>
        if s.pos < |c.data| && |batch| < c.batchSize {
          TakeKeeps(c, s);
        } else {
          ReturnKeeps(c, s);
        }
      case Waiting(_, _, _, _, _) => WaitKeeps(c, s);
      case Getting(_, _, _) => GetKeeps(c, s);
  }

  lemma IdleConsume(c: Config, s: State)
    requires s.consumer.Idle?
    ensures DoConsume(c, s) == s
  {
  }

  lemma WakeKeeps(c: Config, s: State, t: nat)
    requires Inv(c, s)
    ensures Inv(c, Apply(c, s, SpuriousWake(t)))
  {
    var s' := Apply(c, s, SpuriousWake(t));
    forall k | k in s'.dataQueue ensures k < |c.data| && FutureOk(c, s', k) {
      assert FutureOk(c, s, k);
    }
    hide Readable, Flatten;
  }

  lemma InitOk(c: Config)
    ensures Inv(c, Init(c))
  {
    assert c.data[..0] == [];
  }

  lemma {:induction false} Reachable(c: Config, es: seq<Event>)
    ensures Inv(c, Run(c, Init(c), es))
    decreases |es|
  {
    InitOk(c);
    if es != [] {
      hide Inv, Apply;
      Reachable(c, es[..|es| - 1]);
      KeepsInv(c, Run(c, Init(c), es[..|es| - 1]), es[|es| - 1]);
    }
  }

  /** The position after collecting `need` readable data from `p` on. */
  function Next(data: seq<Datum>, p: nat, need: nat): (q: nat)
    requires p <= |data|
    ensures p <= q <= |data|
    decreases |data| - p
  {
    if need == 0 || p == |data| then p else Next(data, p + 1, if data[p].Some? then need - 1 else need)
  }

  /** Where the `k`-th batch starts; it depends on the data alone. */
  function StartOf(c: Config, k: nat): (p: nat)
    ensures p <= |c.data|
  {
    if k == 0 then 0 else Next(c.data, StartOf(c, k - 1), c.batchSize)
  }

  ghost predicate StartsOk(c: Config, s: State)
    requires s.pos <= |c.data| && 0 <= s.Consumed() <= |c.data|
  {
    && s.Start() == StartOf(c, |s.batches|)
    && (!s.consumer.Idle? ==>
          |s.consumer.batch| <= c.batchSize &&
          Next(c.data, s.Consumed(), c.batchSize - |s.consumer.batch|) == StartOf(c, |s.batches| + 1))
  }

  lemma StartsConsume(c: Config, s: State)
    requires QueueOk(c, s) && s.Consumed() <= |c.data| && StartsOk(c, s)
    requires s.consumer.Getting? ==>
             s.consumer.cur in s.dataQueue && s.consumer.cur < |c.data| && FutureOk(c, s, s.consumer.cur)
    requires s.consumer.Getting? ==> |s.consumer.batch| < c.batchSize
    ensures var s' := DoConsume(c, s);
            s'.pos <= |c.data| && 0 <= s'.Consumed() <= |c.data| && StartsOk(c, s')
  {
  }

  lemma StartsStep(c: Config, s: State, e: Event)
    requires Inv(c, s) && StartsOk(c, s)
    ensures Apply(c, s, e).pos <= |c.data| && 0 <= Apply(c, s, e).Consumed() <= |c.data|
    ensures StartsOk(c, Apply(c, s, e))
  {
    hide Readable, Flatten;
    if e.Consume? {
      if s.consumer.Getting? {
        assert s.consumer.cur in s.dataQueue && FutureOk(c, s, s.consumer.cur);
      }
      hide SleepOk, SizesOk, FuturesOk;
      StartsConsume(c, s);
    } else {
      hide SleepOk, SizesOk, FuturesOk;
    }
  }

  lemma {:induction false} StartsReachable(c: Config, es: seq<Event>)
    ensures var s := Run(c, Init(c), es);
            s.pos <= |c.data| && 0 <= s.Consumed() <= |c.data| && StartsOk(c, s)
    decreases |es|
  {
    if es != [] {
      StartsReachable(c, es[..|es| - 1]);
      Reachable(c, es[..|es| - 1]);
      hide Inv, Apply, StartsOk;
      StartsStep(c, Run(c, Init(c), es[..|es| - 1]), es[|es| - 1]);
    }
  }

  /** In every run: the batches returned so far are the readable data of a prefix
      of the paths, in order and each once; all are full but perhaps the last,
      which then ends the data. */
  lemma BatchesAreData(c: Config, es: seq<Event>)
    ensures var s := Run(c, Init(c), es);
            && s.Start() <= |c.data| && Flatten(s.batches) == Readable(c.data[..s.Start()])
            && (forall i :: 0 <= i < |s.batches| ==> |s.batches[i]| <= c.batchSize)
            && (forall i :: 0 <= i < |s.batches| && |s.batches[i]| < c.batchSize ==>
                  i == |s.batches| - 1 && s.pos == |c.data|)
  {
    Reachable(c, es);
    hide Readable, Flatten, Run;
  }

  /** When the iterator is at its end, everything readable has been returned. */
  lemma EndMeansAll(c: Config, es: seq<Event>)
    requires var s := Run(c, Init(c), es); s.consumer.Idle? && !HasNext(c, s)
    ensures Flatten(Run(c, Init(c), es).batches) == Readable(c.data)
  {
    Reachable(c, es);
    var s := Run(c, Init(c), es);
    hide Readable, Flatten, Run;
    assert s.pos < |c.data| ==> s.pos in s.dataQueue;
    assert s.pos == |c.data|;
    assert c.data[..|c.data|] == c.data;
  }

  /** Between calls there is a next batch exactly if some path has not been consumed. */
  lemma HasNextExactly(c: Config, es: seq<Event>)
    requires Run(c, Init(c), es).consumer.Idle?
    ensures HasNext(c, Run(c, Init(c), es)) <==> Run(c, Init(c), es).pos < |c.data|
  {
    Reachable(c, es);
    var s := Run(c, Init(c), es);
    hide Run, OrderOk, SizesOk, SleepOk, FuturesOk;
    if s.pos < s.threadPos {
      assert s.pos in s.dataQueue;
    } else {
      assert forall k :: k !in s.dataQueue;
    }
  }

  /** The consumer waits for a datum that no reader has claimed. */
  predicate Missing(s: State) {
    s.consumer.Waiting? && s.consumer.cur !in s.dataQueue
  }

  /** From every place where a batch starts, a full normal queue holds a batch of
      readable data, unless it reaches the end of the data. */
  ghost predicate EnoughReadable(c: Config) {
    forall k: nat :: StartOf(c, k) + c.NormalQueue() < |c.data| ==>
      |Readable(c.data[StartOf(c, k)..StartOf(c, k) + c.NormalQueue()])| >= c.batchSize
  }

  lemma {:induction false} ReadableMonotone(data: seq<Datum>, i: nat, j: nat, k: nat)
    requires i <= j <= k <= |data|
    ensures |Readable(data[i..j])| <= |Readable(data[i..k])|
    decreases k
  {
    hide Readable;
    if j < k {
      ReadableMonotone(data, i, j, k - 1);
      ReadableSnoc(data, i, k - 1);
    }
  }

  /** With enough readable data, a consumer that waits for a missing datum finds
      the queue empty and every reader awake. */
  lemma ReadersAwake(c: Config, es: seq<Event>, t: nat)
    requires EnoughReadable(c) && Missing(Run(c, Init(c), es))
    ensures Run(c, Init(c), es).dataQueue == map[] && !Run(c, Init(c), es).At(t).Asleep?
  {
    hide Run, Readable, Flatten, StartOf, SizesOk, FuturesOk;
    Reachable(c, es);
    StartsReachable(c, es);
    var s := Run(c, Init(c), es);
    var start, cur, q := s.consumer.start, s.consumer.cur, c.NormalQueue();
    assert cur == s.threadPos;
    assert forall k :: k !in s.dataQueue;
    assert start == StartOf(c, |s.batches|) && s.consumer.batch == Readable(c.data[start..cur]);
    if start + q <= cur {
      ReadableMonotone(c.data, start, start + q, cur);
    }
  }

  lemma {:induction false} RunOn(c: Config, s: State, a: seq<Event>, b: seq<Event>)
    ensures Run(c, s, a + b) == Run(c, Run(c, s, a), b)
    decreases |b|
  {
    if b == [] {
      assert a + b == a;
    } else {
      RunOn(c, s, a, b[..|b| - 1]);
      assert (a + b)[..|a + b| - 1] == a + b[..|b| - 1];
    }
  }

  lemma Then(c: Config, s: State, es: seq<Event>, e: Event) returns (r: seq<Event>)
    ensures r == es + [e] && Run(c, s, r) == Apply(c, Run(c, s, es), e)
  {
    r := es + [e];
    assert r[..|es|] == es;
  }

  /** Nothing is being read and the queue has its normal bound. */
  ghost predicate Calm(c: Config, s: State) {
    && Inv(c, s) && s.maxQueueSize == c.NormalQueue()
    && forall k :: k in s.dataQueue ==> s.dataQueue[k].Ready?
  }

  ghost predicate AllLooping(c: Config, s: State) {
    SleepUpTo(s.readers, c.numThreads, 0)
  }

  /** Readers below `k` sleep, the others below `n` are about to look at the queue. */
  ghost predicate SleepUpTo(readers: map<nat, Place>, n: nat, k: nat) {
    forall t :: 0 <= t < n ==>
      if t < k then t in readers && readers[t].Asleep? else t in readers ==> readers[t].Looping?
  }

  lemma ReadOne(c: Config, s: State)
    requires Calm(c, s) && s.consumer.Idle? && AllLooping(c, s) && c.numThreads >= 1
    requires s.threadPos < |c.data| && s.threadPos < s.pos + c.NormalQueue()
    ensures var s' := Apply(c, Apply(c, Apply(c, s, Enter(0)), Finish(0)), Notify(0));
            && Calm(c, s') && s'.consumer.Idle? && AllLooping(c, s')
            && s'.threadPos == s.threadPos + 1 && s'.pos == s.pos && s'.batches == s.batches
  {
    hide Inv;
    KeepsInv(c, s, Enter(0));
    KeepsInv(c, Apply(c, s, Enter(0)), Finish(0));
    KeepsInv(c, Apply(c, Apply(c, s, Enter(0)), Finish(0)), Notify(0));
    Claimed(c, s);
  }

  lemma Claimed(c: Config, s: State)
    requires Inv(c, s)
    ensures |s.dataQueue| == s.threadPos - s.Consumed()
  {
    QueueSize(s.dataQueue, s.Consumed(), s.threadPos);
  }

  /** One reader fills the queue. */
  lemma {:induction false} Fill(c: Config, s: State, target: nat) returns (es: seq<Event>)
    requires Calm(c, s) && s.consumer.Idle? && AllLooping(c, s) && c.numThreads >= 1
    requires s.threadPos <= target <= |c.data| && target <= s.pos + c.NormalQueue()
    ensures var s' := Run(c, s, es);
            && Calm(c, s') && s'.consumer.Idle? && AllLooping(c, s')
            && s'.threadPos == target && s'.pos == s.pos && s'.batches == s.batches
    decreases target - s.threadPos
  {
    es := [];
    if s.threadPos < target {
      hide Calm, Apply, AllLooping;
      ReadOne(c, s);
      es := Then(c, s, es, Enter(0));
      es := Then(c, s, es, Finish(0));
      es := Then(c, s, es, Notify(0));
      assert Run(c, s, []) == s;
      var s1 := Run(c, s, es);
      var rest := Fill(c, s1, target);
      RunOn(c, s, es, rest);
      es := es + rest;
    }
  }

  /** Everything but the consumer's progress is the same. */
  ghost predicate Draining(c: Config, s: State, s': State)
    requires s.consumer.Loop?
  {
    && Calm(c, s') && s'.consumer.Loop? && s'.consumer.start == s.consumer.start
    && s'.threadPos == s.threadPos && s'.readers == s.readers && s'.batches == s.batches
  }

  lemma DrainOne(c: Config, s: State)
    requires Calm(c, s) && s.consumer.Loop? && |s.consumer.batch| < c.batchSize && s.pos < s.threadPos
    ensures var s' := Apply(c, Apply(c, s, Consume), Consume);
            Draining(c, s, s') && s'.pos == s.pos + 1
  {
    KeepsInv(c, s, Consume);
    var s1 := Apply(c, s, Consume);
    assert s.pos in s.dataQueue;
    KeepsInv(c, s1, Consume);
    hide SizesOk, OrderOk, SleepOk, FuturesOk;
  }

  /** The consumer takes what is in the queue up to `q`, where its batch is not
      full before the last datum. */
  lemma {:induction false} Drain(c: Config, s: State, q: nat) returns (es: seq<Event>)
    requires Calm(c, s) && s.consumer.Loop? && s.consumer.start <= s.pos <= q <= s.threadPos <= |c.data|
    requires s.pos < q ==> |Readable(c.data[s.consumer.start..q - 1])| < c.batchSize
    ensures Draining(c, s, Run(c, s, es)) && Run(c, s, es).pos == q
    decreases q - s.pos
  {
    es := [];
    if s.pos < q {
      BatchIs(c, s);
      ReadableMonotone(c.data, s.consumer.start, s.pos, q - 1);
      DrainOne(c, s);
      hide Calm, Apply, Readable;
      es := Then(c, s, es, Consume);
      es := Then(c, s, es, Consume);
      assert Run(c, s, []) == s;
      var s1 := Run(c, s, es);
      var rest := Drain(c, s1, q);
      RunOn(c, s, es, rest);
      es := es + rest;
    }
  }

  lemma BatchIs(c: Config, s: State)
    requires Calm(c, s) && s.consumer.Loop?
    ensures 0 <= s.consumer.start <= s.pos <= |c.data| && s.consumer.batch == Readable(c.data[s.consumer.start..s.pos])
  {
    hide Readable, Flatten;
  }

  /** Where a batch ends: full at the earliest position, or at the end. */
  lemma {:induction false} NextIs(data: seq<Datum>, p: nat, p0: nat, need: nat)
    requires p0 <= p <= |data|
    ensures var q, have := Next(data, p, need), |Readable(data[p0..p])|;
            && |Readable(data[p0..q])| <= have + need
            && (q < |data| ==> |Readable(data[p0..q])| == have + need)
            && (p < q ==> |Readable(data[p0..q - 1])| < have + need)
    decreases |data| - p
  {
    hide Readable;
    if need > 0 && p < |data| {
      ReadableSnoc(data, p0, p);
      NextIs(data, p + 1, p0, if data[p].Some? then need - 1 else need);
    }
  }

  /** The queue that batch `k` starts with holds a whole batch, or not. */
  ghost predicate GoodStart(c: Config, k: nat) {
    var p := StartOf(c, k);
    p + c.NormalQueue() < |c.data| && |Readable(c.data[p..p + c.NormalQueue()])| >= c.batchSize
  }

  ghost predicate BadStart(c: Config, k: nat) {
    var p := StartOf(c, k);
    p + c.NormalQueue() < |c.data| && |Readable(c.data[p..p + c.NormalQueue()])| < c.batchSize
  }

  ghost predicate AtStart(c: Config, s: State, k: nat) {
    && Calm(c, s) && s.consumer.Idle? && AllLooping(c, s)
    && |s.batches| == k && s.pos == StartOf(c, k) && s.threadPos <= s.pos + c.NormalQueue()
  }

  lemma BeginCall(c: Config, s: State)
    requires Calm(c, s) && s.consumer.Idle? && s.pos < |c.data|
    ensures var s' := Apply(c, s, Call);
            && Calm(c, s') && s'.consumer == Loop(s.pos, []) && s'.pos == s.pos
            && s'.threadPos == s.threadPos && s'.readers == s.readers && s'.batches == s.batches
  {
    KeepsInv(c, s, Call);
    assert s.threadPos == |c.data| ==> s.pos in s.dataQueue;
    hide SizesOk, OrderOk, SleepOk, FuturesOk;
  }

  lemma EndCall(c: Config, s: State)
    requires Calm(c, s) && s.consumer.Loop? && |s.consumer.batch| >= c.batchSize && AllLooping(c, s)
    ensures var s' := Apply(c, s, Consume);
            Calm(c, s') && s'.consumer.Idle? && AllLooping(c, s') && |s'.batches| == |s.batches| + 1 && s'.pos == s.pos
  {
    KeepsInv(c, s, Consume);
    hide SizesOk, OrderOk, SleepOk, FuturesOk, QueueOk;
  }

  /** A call that starts with a queue filled up to `reach`, and takes it up to `q`. */
  lemma FillAndDrain(c: Config, s: State, k: nat, reach: nat, q: nat) returns (es: seq<Event>)
    requires AtStart(c, s, k) && c.numThreads >= 1 && c.batchSize >= 1
    requires reach == s.pos + c.NormalQueue() < |c.data| && s.pos <= q <= reach
    requires s.pos < q ==> |Readable(c.data[s.pos..q - 1])| < c.batchSize
    ensures var s' := Run(c, s, es);
            && Calm(c, s') && s'.consumer.Loop? && s'.consumer.start == s.pos && s'.pos == q
            && s'.threadPos == reach && AllLooping(c, s') && |s'.batches| == k
  {
    hide Calm, Apply, Readable;
    es := Fill(c, s, reach);
    BeginCall(c, Run(c, s, es));
    es := Then(c, s, es, Call);
    var s2 := Run(c, s, es);
    var more := Drain(c, s2, q);
    RunOn(c, s, es, more);
    es := es + more;
  }

  lemma NextInReach(c: Config, k: nat)
    requires GoodStart(c, k) && c.batchSize >= 1
    ensures var p, q := StartOf(c, k), StartOf(c, k + 1);
            && p < q <= p + c.NormalQueue()
            && |Readable(c.data[p..q - 1])| < c.batchSize && |Readable(c.data[p..q])| == c.batchSize
  {
    hide Readable, Next;
    var p, q := StartOf(c, k), StartOf(c, k + 1);
    assert q == Next(c.data, p, c.batchSize);
    hide StartOf;
    NextIs(c.data, p, p, c.batchSize);
    EmptyReadable(c.data, p);
    var reach := p + c.NormalQueue();
    if q > reach {
      ReadableMonotone(c.data, p, reach, q - 1);
    }
  }

  /** From the start of a batch with enough data in reach to the next start. */
  lemma OneBatch(c: Config, s: State, k: nat) returns (es: seq<Event>)
    requires AtStart(c, s, k) && GoodStart(c, k) && c.numThreads >= 1 && c.batchSize >= 1
    ensures AtStart(c, Run(c, s, es), k + 1)
  {
    NextInReach(c, k);
    hide Calm, Apply, Readable;
    var q := StartOf(c, k + 1);
    es := FillAndDrain(c, s, k, s.pos + c.NormalQueue(), q);
    var s1 := Run(c, s, es);
    BatchIs(c, s1);
    EndCall(c, s1);
    es := Then(c, s, es, Consume);
    assert Run(c, s, es).threadPos == s1.threadPos by { ConsumeKeepsClaims(c, s1); }
  }

  lemma ConsumeKeepsClaims(c: Config, s: State)
    ensures Apply(c, s, Consume).threadPos == s.threadPos
  {
  }

  lemma {:induction false} ReachStart(c: Config, k: nat) returns (es: seq<Event>)
    requires c.numThreads >= 1 && c.batchSize >= 1 && forall j :: 0 <= j < k ==> GoodStart(c, j)
    ensures AtStart(c, Run(c, Init(c), es), k)
  {
    if k == 0 {
      es := [];
      InitOk(c);
    } else {
      es := ReachStart(c, k - 1);
      var more := OneBatch(c, Run(c, Init(c), es), k - 1);
      RunOn(c, Init(c), es, more);
      es := es + more;
    }
  }

  lemma {:induction false} StartsGrow(c: Config, j: nat, k: nat)
    requires j <= k
    ensures StartOf(c, j) <= StartOf(c, k)
    decreases k
  {
    if j < k {
      StartsGrow(c, j, k - 1);
    }
  }

  lemma {:induction false} FirstBad(c: Config, k: nat) returns (j: nat)
    requires BadStart(c, k)
    ensures j <= k && BadStart(c, j) && forall i :: 0 <= i < j ==> GoodStart(c, i)
  {
    j := k;
    if i :| 0 <= i < k && !GoodStart(c, i) {
      StartsGrow(c, i, k);
      j := FirstBad(c, i);
    }
  }

  /** Readers `0` to `n - 1` sleep, the others are about to look at the queue. */
  ghost predicate AsleepUpTo(c: Config, s: State, n: nat) {
    SleepUpTo(s.readers, c.numThreads, n)
  }

  /** The queue is full and the consumer is not in next(). */
  ghost predicate FullQueue(c: Config, s: State) {
    Calm(c, s) && s.consumer.Idle? && s.threadPos == s.pos + c.NormalQueue() < |c.data|
  }

  /** One after the other, all readers find the queue full. */
  lemma {:induction false} AllFallAsleep(c: Config, s: State, n: nat) returns (es: seq<Event>)
    requires FullQueue(c, s) && n <= c.numThreads && AsleepUpTo(c, s, n)
    ensures var s' := Run(c, s, es);
            FullQueue(c, s') && AsleepUpTo(c, s', c.numThreads) && s'.pos == s.pos && s'.threadPos == s.threadPos
    decreases c.numThreads - n
  {
    es := [];
    assert Run(c, s, []) == s;
    if n < c.numThreads {
      FallAsleep(c, s, n);
      hide FullQueue, AsleepUpTo, Apply;
      es := Then(c, s, es, Enter(n));
      var s1 := Run(c, s, es);
      var more := AllFallAsleep(c, s1, n + 1);
      RunOn(c, s, es, more);
      es := es + more;
    }
  }

  lemma FallAsleep(c: Config, s: State, n: nat)
    requires FullQueue(c, s) && n < c.numThreads && AsleepUpTo(c, s, n)
    ensures var s' := Apply(c, s, Enter(n));
            FullQueue(c, s') && AsleepUpTo(c, s', n + 1) && s'.pos == s.pos && s'.threadPos == s.threadPos
  {
    hide Inv;
    KeepsInv(c, s, Enter(n));
    Claimed(c, s);
  }

  /** A queue that holds less than a batch of readable data puts all readers to
      sleep and then leaves the consumer waiting for them. */
  lemma SleepsAndWaits(c: Config, s: State, k: nat) returns (es: seq<Event>)
    requires AtStart(c, s, k) && BadStart(c, k) && c.numThreads >= 1 && c.batchSize >= 1
    ensures var s' := Run(c, s, es);
            Missing(s') && AsleepUpTo(c, s', c.numThreads)
  {
    var p := s.pos;
    var reach := p + c.NormalQueue();
    hide Calm, Apply, Readable, Run;
    es := Fill(c, s, reach);
    var s1 := Run(c, s, es);
    var sleep := AllFallAsleep(c, s1, 0);
    RunOn(c, s, es, sleep);
    es := es + sleep;
    BeginCall(c, Run(c, s, es));
    es := Then(c, s, es, Call);
    var s2 := Run(c, s, es);
    ReadableMonotone(c.data, p, reach - 1, reach);
    var more := Drain(c, s2, reach);
    RunOn(c, s, es, more);
    es := es + more;
    var s3 := Run(c, s, es);
    BatchIs(c, s3);
    StartWaiting(c, s3);
    es := Then(c, s, es, Consume);
  }

  lemma StartWaiting(c: Config, s: State)
    requires Calm(c, s) && s.consumer.Loop? && s.pos == s.threadPos < |c.data| && |s.consumer.batch| < c.batchSize
    ensures Missing(Apply(c, s, Consume)) && Apply(c, s, Consume).readers == s.readers
  {
    hide SizesOk, OrderOk, SleepOk, FuturesOk;
  }

  lemma SomeBad(c: Config) returns (bad: nat)
    requires !EnoughReadable(c)
    ensures BadStart(c, bad)
  {
    bad :| StartOf(c, bad) + c.NormalQueue() < |c.data| &&
      |Readable(c.data[StartOf(c, bad)..StartOf(c, bad) + c.NormalQueue()])| < c.batchSize;
  }

  /** Without enough readable data, some run leaves the consumer waiting for a
      missing datum while all readers sleep. */
  lemma ReadersCanSleep(c: Config) returns (es: seq<Event>)
    requires c.numThreads >= 1 && c.batchSize >= 1 && !EnoughReadable(c)
    ensures Missing(Run(c, Init(c), es)) && forall t :: 0 <= t < c.numThreads ==> Run(c, Init(c), es).At(t).Asleep?
  {
    var bad := SomeBad(c);
    var k := FirstBad(c, bad);
    hide Run, GoodStart, BadStart, AtStart, EnoughReadable;
    es := ReachStart(c, k);
    var more := SleepsAndWaits(c, Run(c, Init(c), es), k);
    RunOn(c, Init(c), es, more);
    es := es + more;
  }

  ghost predicate SleepsWhileWaiting(c: Config, es: seq<Event>) {
    var s := Run(c, Init(c), es);
    Missing(s) && exists t :: s.At(t).Asleep?
  }

  /** A reader can be asleep while the consumer waits for a missing datum exactly
      if some batch starts with a full queue of which less than a batch is
      readable. */
  lemma SleepExactly(c: Config)
    requires c.numThreads >= 1 && c.batchSize >= 1
    ensures (exists es :: SleepsWhileWaiting(c, es)) <==> !EnoughReadable(c)
  {
    if EnoughReadable(c) {
      forall es | SleepsWhileWaiting(c, es) ensures false {
        var t :| Run(c, Init(c), es).At(t).Asleep?;
        ReadersAwake(c, es, t);
      }
    } else {
      var es := ReadersCanSleep(c);
      assert Run(c, Init(c), es).At(0).Asleep?;
      assert SleepsWhileWaiting(c, es);
    }
  }

  /** A consumer that looks again and finds its datum missing goes back to sleep, and every
      fifth time it makes room for half as much again. */
  lemma LooksAgain(c: Config, s: State)
    requires Missing(s) && s.consumer.awake
    ensures var s' := Apply(c, s, Consume);
            && Missing(s') && !s'.consumer.awake && s'.consumer.attempts == s.consumer.attempts + 1
            && s'.maxQueueSize == (if s'.consumer.attempts % 5 == 0 then s.maxQueueSize * 3 / 2 else s.maxQueueSize)
            && s'.dataQueue == s.dataQueue && s'.readers == s.readers && s'.threadPos == s.threadPos
  {
  }

  /** When a call returns, the queue is back to its normal size, and no reader sleeps. */
  lemma ReturnWakes(c: Config, s: State)
    requires s.consumer.Loop? && Apply(c, s, Consume).consumer.Idle?
    ensures var s' := Apply(c, s, Consume);
            && s'.maxQueueSize == 4 * c.batchSize && s'.batches == s.batches + [s.consumer.batch] && s'.pos == s.pos
            && forall t :: s'.At(t) == if s.At(t).Asleep? then Looping else s.At(t)
  {
  }

  /** A reader that has read its file has fulfilled the promise with what is in the file. */
  lemma ReadExactly(c: Config, es: seq<Event>, t: nat)
    requires Run(c, Init(c), es).At(t).Reading?
    ensures var s := Run(c, Init(c), es);
            var p, s' := s.At(t).pos, Apply(c, s, Finish(t));
            && p < |c.data| && s'.dataQueue == s.dataQueue[p := Ready(c.data[p])] && s'.At(t) == Notifying(p)
            && s'.threadPos == s.threadPos && s'.consumer == s.consumer && s'.batches == s.batches
  {
    Places(c, es, t, t);
    Reachable(c, es);
    hide Run, OrderOk, SizesOk, SleepOk;
  }

  // ---------------------------------------------------------------------
  // Deadlock
  // ---------------------------------------------------------------------

  /** What a reader's place says: a path being read is in the queue and pending, and
      a reader stops only at the end. Only the readers that exist do anything. */
  ghost predicate PlaceOk(c: Config, s: State, t: nat) {
    var p := s.At(t);
    && (p.Reading? ==> p.pos in s.dataQueue && s.dataQueue[p.pos].Pending?)
    && (p.Done? ==> s.threadPos >= |c.data|)
    && (t >= c.numThreads ==> p.Looping?)
  }

  ghost predicate Apart(s: State, t: nat, o: nat) {
    t != o && s.At(t).Reading? && s.At(o).Reading? ==> s.At(t).pos != s.At(o).pos
  }

  lemma {:induction false} Places(c: Config, es: seq<Event>, t: nat, o: nat)
    ensures var s := Run(c, Init(c), es); PlaceOk(c, s, t) && PlaceOk(c, s, o) && Apart(s, t, o)
    decreases |es|
  {
    if es != [] {
      var e := es[|es| - 1];
      Places(c, es[..|es| - 1], t, o);
      Reachable(c, es[..|es| - 1]);
      var s := Run(c, Init(c), es[..|es| - 1]);
      if e.Finish? {
        Places(c, es[..|es| - 1], e.t, t);
        Places(c, es[..|es| - 1], e.t, o);
      }
      hide Run;
      PlacesStep(c, s, e, t);
      PlacesStep(c, s, e, o);
      ApartStep(c, s, e, t, o);
    }
  }

  lemma PlacesStep(c: Config, s: State, e: Event, t: nat)
    requires PlaceOk(c, s, t) && QueueOk(c, s) && (e.Finish? ==> PlaceOk(c, s, e.t) && Apart(s, e.t, t))
    ensures PlaceOk(c, Apply(c, s, e), t)
  {
  }

  lemma ApartStep(c: Config, s: State, e: Event, t: nat, o: nat)
    requires PlaceOk(c, s, t) && PlaceOk(c, s, o) && Apart(s, t, o) && QueueOk(c, s)
    ensures Apart(Apply(c, s, e), t, o)
  {
  }

  ghost predicate BeingRead(s: State, k: nat) {
    exists t :: s.At(t) == Reading(k)
  }

  ghost predicate Coming(s: State, k: nat) {
    exists t :: s.At(t) == Reading(k) || s.At(t) == Notifying(k)
  }

  /** Whatever is pending is being read, and if the consumer sleeps although its datum
      was claimed, the reader of that datum has yet to notify it. */
  ghost predicate Served(s: State) {
    && (forall k :: k in s.dataQueue && s.dataQueue[k].Pending? ==> BeingRead(s, k))
    && (s.consumer.Waiting? && !s.consumer.awake && s.consumer.cur in s.dataQueue ==> Coming(s, s.consumer.cur))
  }

  lemma PendingStep(c: Config, s: State, e: Event, k: nat)
    requires Served(s) && QueueOk(c, s) && k in Apply(c, s, e).dataQueue && Apply(c, s, e).dataQueue[k].Pending?
    ensures BeingRead(Apply(c, s, e), k)
  {
    var s' := Apply(c, s, e);
    if k in s.dataQueue && s.dataQueue[k].Pending? {
      var t :| s.At(t) == Reading(k);
      assert s'.At(t) == Reading(k);
    } else {
      assert e.Enter? && s'.At(e.t) == Reading(k);
    }
  }

  lemma ComingStep(c: Config, s: State, e: Event)
    requires Served(s) && QueueOk(c, s)
    ensures var s' := Apply(c, s, e);
            s'.consumer.Waiting? && !s'.consumer.awake && s'.consumer.cur in s'.dataQueue ==>
              Coming(s', s'.consumer.cur)
  {
    var s' := Apply(c, s, e);
    if s'.consumer.Waiting? && !s'.consumer.awake && s'.consumer.cur in s'.dataQueue {
      var cur := s'.consumer.cur;
      if s.consumer == s'.consumer && cur in s.dataQueue {
        var t :| s.At(t) == Reading(cur) || s.At(t) == Notifying(cur);
        assert s'.At(t) == Reading(cur) || s'.At(t) == Notifying(cur);
      } else {
        assert e.Enter? && s'.At(e.t) == Reading(cur);
      }
    }
  }

  /** No notification of the consumer is lost: in every run, if it sleeps although its
      datum is in the queue, some reader is reading that datum or about to notify. */
  lemma {:induction false} NoLostNotification(c: Config, es: seq<Event>)
    ensures Served(Run(c, Init(c), es))
    decreases |es|
  {
    if es != [] {
      var s, e := Run(c, Init(c), es[..|es| - 1]), es[|es| - 1];
      NoLostNotification(c, es[..|es| - 1]);
      Reachable(c, es[..|es| - 1]);
      hide Run, Apply, FuturesOk, OrderOk, SizesOk, SleepOk;
      var s' := Apply(c, s, e);
      forall k | k in s'.dataQueue && s'.dataQueue[k].Pending? ensures BeingRead(s', k) {
        PendingStep(c, s, e, k);
      }
      ComingStep(c, s, e);
    }
  }

  /** Every reader is asleep or done. */
  ghost predicate NobodyReads(c: Config, s: State) {
    forall t :: 0 <= t < c.numThreads ==> s.At(t).Asleep? || s.At(t).Done?
  }

  predicate Spurious(e: Event) {
    e.SpuriousWake? || e.SpuriousConsumerWake?
  }

  ghost predicate NoSpurious(es: seq<Event>) {
    forall i :: 0 <= i < |es| ==> !Spurious(es[i])
  }

  /** If all readers are asleep or done, only a spurious wakeup gets anyone going
      again. */
  lemma {:induction false} StuckForever(c: Config, s: State, es: seq<Event>)
    requires Missing(s) && NobodyReads(c, s) && NoSpurious(es)
    requires forall t :: t >= c.numThreads ==> s.At(t).Looping?
    ensures Missing(Run(c, s, es)) && Run(c, s, es).readers == s.readers && Run(c, s, es).batches == s.batches
    decreases |es|
  {
    if es != [] {
      StuckForever(c, s, es[..|es| - 1]);
      var e := es[|es| - 1];
      assert !Spurious(e);
      var s1 := Run(c, s, es[..|es| - 1]);
      assert e.Enter? || e.Finish? || e.Notify? ==> s1.At(e.t) == s.At(e.t);
    }
  }

  /** A call of next() is in progress, and without a spurious wakeup it never returns,
      whatever the readers do. */
  ghost predicate Deadlocks(c: Config, es: seq<Event>) {
    var s := Run(c, Init(c), es);
    !s.consumer.Idle? && forall more :: NoSpurious(more) ==> !Run(c, s, more).consumer.Idle?
  }

  /** A deadlock can be reached exactly if some batch starts with a full queue of
      which less than a batch is readable. */
  lemma DeadlockExactly(c: Config)
    requires c.numThreads >= 1 && c.batchSize >= 1
    ensures (exists es :: Deadlocks(c, es)) <==> !EnoughReadable(c)
  {
    hide Run, EnoughReadable;
    if EnoughReadable(c) {
      forall es ensures !Deadlocks(c, es) {
        var more := CallCanReturn(c, es);
        RunOn(c, Init(c), es, more);
      }
    } else {
      var es := ReadersCanSleep(c);
      var s := Run(c, Init(c), es);
      forall t | t >= c.numThreads ensures s.At(t).Looping? {
        Places(c, es, t, t);
      }
      forall more | NoSpurious(more) ensures Missing(Run(c, s, more)) {
        StuckForever(c, s, more);
      }
      assert Deadlocks(c, es);
    }
  }

  /** One more event after `es + more`. */
  lemma OneMore(c: Config, es: seq<Event>, more: seq<Event>, e: Event) returns (r: seq<Event>)
    requires NoSpurious(more) && !Spurious(e)
    ensures r == more + [e] && NoSpurious(r)
    ensures Run(c, Init(c), es + r) == Apply(c, Run(c, Init(c), es + more), e)
  {
    r := more + [e];
    assert (es + r)[..|es + more|] == es + more;
  }

  /** With enough readable data any reader can go on: it claims the missing datum. */
  lemma AwakeReaderServes(c: Config, es: seq<Event>, more: seq<Event>) returns (r: seq<Event>)
    requires c.numThreads >= 1 && c.batchSize >= 1 && EnoughReadable(c) && NoSpurious(more)
    requires Missing(Run(c, Init(c), es + more))
    ensures NoSpurious(r)
    ensures var s, s' := Run(c, Init(c), es + more), Run(c, Init(c), es + r);
            s'.consumer.Waiting? && !Missing(s') && s'.pos == s.pos
    decreases !Run(c, Init(c), es + more).At(0).Looping?
  {
    hide Run, Readable, Flatten, EnoughReadable, OrderOk, SizesOk, SleepOk, FuturesOk;
    var s := Run(c, Init(c), es + more);
    Reachable(c, es + more);
    ReadersAwake(c, es + more, 0);
    Places(c, es + more, 0, 0);
    if s.At(0).Looping? {
      r := OneMore(c, es, more, Enter(0));
    } else {
      r := OneMore(c, es, more, Notify(0));
      r := AwakeReaderServes(c, es, r);
    }
  }

  /** A consumer whose datum is in the queue can get on: it is awake, or the reader of
      that datum has yet to notify it. */
  lemma SleeperIsWoken(c: Config, es: seq<Event>, more: seq<Event>) returns (r: seq<Event>)
    requires NoSpurious(more)
    requires var s := Run(c, Init(c), es + more); s.consumer.Waiting? && !Missing(s)
    ensures NoSpurious(r)
    ensures var s, s' := Run(c, Init(c), es + more), Run(c, Init(c), es + r);
            s'.consumer.Getting? && s'.pos == s.pos
  {
    hide Run;
    var s := Run(c, Init(c), es + more);
    NoLostNotification(c, es + more);
    Reachable(c, es + more);
    hide OrderOk, SizesOk, SleepOk, FuturesOk;
    r := more;
    if !s.consumer.awake {
      var t :| s.At(t) == Reading(s.consumer.cur) || s.At(t) == Notifying(s.consumer.cur);
      if s.At(t).Reading? {
        r := OneMore(c, es, r, Finish(t));
      }
      r := OneMore(c, es, r, Notify(t));
    }
    r := OneMore(c, es, r, Consume);
  }

  /** A consumer that waits for a promise can get on: its datum is being read. */
  lemma PromiseIsKept(c: Config, es: seq<Event>, more: seq<Event>) returns (r: seq<Event>)
    requires NoSpurious(more) && Run(c, Init(c), es + more).consumer.Getting?
    ensures NoSpurious(r)
    ensures var s, s' := Run(c, Init(c), es + more), Run(c, Init(c), es + r);
            s'.consumer.Loop? && s'.pos == s.pos
  {
    hide Run;
    var s := Run(c, Init(c), es + more);
    NoLostNotification(c, es + more);
    Reachable(c, es + more);
    hide OrderOk, SizesOk, SleepOk, FuturesOk;
    r := more;
    if s.dataQueue[s.consumer.cur].Pending? {
      var t :| s.At(t) == Reading(s.consumer.cur);
      r := OneMore(c, es, r, Finish(t));
    }
    r := OneMore(c, es, r, Consume);
  }

  function Rank(k: Consumer): nat {
    match k case Waiting(_, _, _, _, _) => 2 case Getting(_, _, _) => 1 case _ => 0
  }

  lemma {:induction false} ReturnsFrom(c: Config, es: seq<Event>, more: seq<Event>) returns (r: seq<Event>)
    requires c.numThreads >= 1 && c.batchSize >= 1 && EnoughReadable(c) && NoSpurious(more)
    ensures NoSpurious(r) && Run(c, Init(c), es + r).consumer.Idle?
    decreases |c.data| - Run(c, Init(c), es + more).pos, Rank(Run(c, Init(c), es + more).consumer)
  {
    hide Run, EnoughReadable, Apply;
    var s := Run(c, Init(c), es + more);
    InData(c, es + more);
    r := more;
    match s.consumer
    case Idle =>
    case Loop(_, _) =>
      r := OneMore(c, es, r, Consume);
      LoopGoesOn(c, s);
      InData(c, es + r);
      if !Run(c, Init(c), es + r).consumer.Idle? {
        r := ReturnsFrom(c, es, r);
      }
    case Waiting(_, _, _, _, _) =>
      if Missing(s) {
        r := AwakeReaderServes(c, es, r);
      }
      r := SleeperIsWoken(c, es, r);
      r := ReturnsFrom(c, es, r);
    case Getting(_, _, _) =>
      r := PromiseIsKept(c, es, r);
      r := ReturnsFrom(c, es, r);
  }

  lemma InData(c: Config, es: seq<Event>)
    ensures Run(c, Init(c), es).pos <= |c.data|
  {
    hide Run;
    Reachable(c, es);
    hide OrderOk, SizesOk, SleepOk, FuturesOk;
  }

  lemma LoopGoesOn(c: Config, s: State)
    requires s.consumer.Loop?
    ensures var s' := Apply(c, s, Consume); s'.consumer.Idle? || s'.pos == s.pos + 1
  {
  }

  /** With enough readable data a call of next() can return from every reachable
      state, without the help of a spurious wakeup. */
  lemma CallCanReturn(c: Config, es: seq<Event>) returns (more: seq<Event>)
    requires c.numThreads >= 1 && c.batchSize >= 1 && EnoughReadable(c)
    ensures NoSpurious(more) && Run(c, Init(c), es + more).consumer.Idle?
  {
    more := ReturnsFrom(c, es, []);
  }

  datatype Claim = Claimed(pos: nat) | Full | AtEnd

  /** The iterator's fields and its critical sections. */
  class Iterator {
    const config: Config
    var pos: nat
    var threadPos: nat
    var dataQueue: map<nat, Future>
    var maxQueueSize: nat
    var readers: map<nat, Place>
    var consumer: Consumer
    var batches: seq<seq<int>>

    ghost function View(): State
      reads this
    {
      State(pos, threadPos, dataQueue, maxQueueSize, readers, consumer, batches)
    }

    ghost predicate Valid()
      reads this
    {
      Inv(config, View())
    }

    constructor (config: Config)
      ensures Valid() && this.config == config && View() == Init(config)
    {
      this.config := config;
      pos, threadPos, dataQueue, maxQueueSize := 0, 0, map[], 4 * config.batchSize;
      readers, consumer, batches := map[], Idle, [];
      new;
      InitOk(config);
    }

    /** The critical section of a reader. */
    method TryClaim(t: nat) returns (claim: Claim)
      requires Valid() && t < config.numThreads && View().At(t).Looping? && View().MutexFree()
      modifies this
      ensures Valid() && View() == Apply(config, old(View()), Enter(t))
      ensures claim == if old(threadPos) >= |config.data| then AtEnd
                       else if old(|dataQueue|) < old(maxQueueSize) then Claimed(old(threadPos)) else Full
      ensures match claim
              case AtEnd => readers == old(readers)[t := Done] && dataQueue == old(dataQueue)
              case Claimed(p) =>
                && readers == old(readers)[t := Reading(p)] && dataQueue == old(dataQueue)[p := Pending]
                && threadPos == p + 1
              case Full =>
                && readers == old(readers)[t := Asleep] && dataQueue == old(dataQueue)
                && (old(consumer).Waiting? ==> consumer == old(consumer).(awake := true))
    {
      hide Inv;
      KeepsInv(config, View(), Enter(t));
      if threadPos >= |config.data| {
        readers := readers[t := Done];
        return AtEnd;
      }
      if |dataQueue| < maxQueueSize {
        claim := Claimed(threadPos);
        dataQueue := dataQueue[threadPos := Pending];
        readers := readers[t := Reading(threadPos)];
        threadPos := threadPos + 1;
        return;
      }
      readers, consumer := readers[t := Asleep], Woken(consumer);
      return Full;
    }

    /** The loop of next(), as far as it gets without waiting: data that is there
        is taken in order, and unreadable data skipped. */
    method TakeReady() returns (ghost es: seq<Event>)
      requires Valid() && consumer.Loop?
      modifies this
      ensures Valid() && consumer.Loop? && View() == Run(config, old(View()), es)
      ensures pos == |config.data| || |consumer.batch| >= config.batchSize
              || pos !in dataQueue || dataQueue[pos].Pending?
      ensures consumer.start == old(consumer.start) <= pos <= |config.data| && batches == old(batches)
      ensures consumer.batch == Readable(config.data[consumer.start..pos])
    {
      hide Inv, Apply;
      es := [];
      ghost var s := View();
      LoopBatch(config, s);
      while pos < |config.data| && |consumer.batch| < config.batchSize && pos in dataQueue && dataQueue[pos].Ready?
        invariant Valid() && consumer.Loop? && View() == Run(config, s, es)
        invariant batches == s.batches && consumer.start == s.consumer.start && pos <= |config.data|
        decreases |config.data| - pos
      {
        ghost var before := View();
        var cur := pos;
        pos := pos + 1;
        var d := dataQueue[cur].datum;
        consumer := Loop(consumer.start, if d.Some? then consumer.batch + [d.value] else consumer.batch);
        dataQueue := dataQueue - {cur};
        TwoConsumes(config, before, View());
        KeepsInv(config, before, Consume);
        KeepsInv(config, Apply(config, before, Consume), Consume);
        es := Then(config, s, es, Consume);
        es := Then(config, s, es, Consume);
      }
      LoopBatch(config, View());
    }
  }

  lemma TwoConsumes(c: Config, s: State, s': State)
    requires s.consumer.Loop? && s.pos < |c.data| && |s.consumer.batch| < c.batchSize
    requires s.pos in s.dataQueue && s.dataQueue[s.pos].Ready?
    requires var d := s.dataQueue[s.pos].datum;
             s' == s.(pos := s.pos + 1, dataQueue := s.dataQueue - {s.pos},
                      consumer := Loop(s.consumer.start,
                                       if d.Some? then s.consumer.batch + [d.value] else s.consumer.batch))
    ensures Apply(c, Apply(c, s, Consume), Consume) == s'
  {
  }

  lemma LoopBatch(c: Config, s: State)
    requires Inv(c, s) && s.consumer.Loop?
    ensures s.consumer.start <= s.pos <= |c.data| && s.consumer.batch == Readable(c.data[s.consumer.start..s.pos])
  {
    hide Readable, Flatten;
  }
}
