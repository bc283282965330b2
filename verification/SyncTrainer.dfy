/** Frame buffers of the synchronous trainer, `cpid/synctrainer.cpp`, with the
    active-episode map of `cpid/trainer.cpp`, and the batches that reach the
    return computation of module A2C.

    `step`, `update`, `forceStopEpisode` and `reset` hold the step mutex
    throughout, so each is one event. Which ready buffers an update selects
    depends on hash order and timing and is part of the event. An event that is
    not possible leaves the state alone, so a run is any sequence of events. */
module SyncTrainer {
  import opened Options
  import A2C

  type Game = nat

  datatype Frame = Frame(game: Game, reward: real, terminal: bool)

  /** `pushed` counts all frames the buffer ever got: its frames are numbers
      `Base()` to `pushed - 1`, so a frame is named by its buffer and number. */
  datatype Buffer = Buffer(
    frames: seq<Frame>, cumReward: real, isDone: bool, lastUpdateNum: nat, owner: Option<Game>, pushed: nat)
  {
    function Base(): int { pushed - |frames| }
  }

  const EMPTY := Buffer([], 0.0, false, 0, None, 0)

  datatype Config = Config(returnsLength: nat, overlappingUpdates: bool, forceOnPolicy: bool) {
    /** The constructor refuses shorter returns. */
    predicate Valid() { returnsLength >= 2 }

    function ToDelete(): nat
      requires Valid()
    {
      if overlappingUpdates then 1 else returnsLength - 1
    }
  }

  /** The checks of the source that abort or throw. */
  datatype Fault = NoLongerOwner | WrongBufferSize

  type FrameName = (nat, int)

  datatype State = State(
    buffers: seq<Buffer>,
    ready: set<nat>,
    gamesToBuffers: map<Game, nat>,
    actives: set<Game>,
    updateCount: nat,
    train: bool,
    nextGame: Game,
    used: set<FrameName>,  // frames that were a non-final row of some update
    fault: Option<Fault>)

  datatype Event =
    | StartEpisode
    | Step(g: Game, reward: real, isDone: bool)
    | ForceStop(g: Game)
    | Forward(g: Game)
    | Update(selected: seq<nat>)
    | Reset
    | SetTrain(train: bool)

  const INIT := State([], {}, map[], {}, 0, true, 0, {}, None)

  /** The free buffer with the smallest `lastUpdateNum` among the first `n`, the
      first one if there are several; -1 if none is free. */
  function BestFree(buffers: seq<Buffer>, n: nat): (r: int)
    requires n <= |buffers|
    ensures -1 <= r < n
    ensures r >= 0 ==> buffers[r].isDone
  {
    if n == 0 then -1
    else
      var best := BestFree(buffers, n - 1);
      if buffers[n - 1].isDone && (best < 0 || buffers[n - 1].lastUpdateNum < buffers[best].lastUpdateNum) then n - 1
      else best
  }

  /** The free buffer chosen is the one that has waited longest for an update. */
  lemma {:induction false} BestFreeIsOldest(buffers: seq<Buffer>, n: nat)
    requires n <= |buffers|
    ensures var r := BestFree(buffers, n);
            && (r < 0 <==> forall k :: 0 <= k < n ==> !buffers[k].isDone)
            && forall k :: 0 <= k < n && buffers[k].isDone ==>
                 && buffers[r].lastUpdateNum <= buffers[k].lastUpdateNum
                 && (k < r ==> buffers[r].lastUpdateNum < buffers[k].lastUpdateNum)
  {
    if n > 0 {
      BestFreeIsOldest(buffers, n - 1);
    }
  }

  /** getBufferForHandle's sanity check. */
  predicate Owns(s: State, g: Game) {
    g in s.gamesToBuffers ==>
      s.gamesToBuffers[g] < |s.buffers| && s.buffers[s.gamesToBuffers[g]].owner == Some(g)
  }

  function BufferIndex(s: State, g: Game): nat {
    if g in s.gamesToBuffers then s.gamesToBuffers[g]
    else
      var best := BestFree(s.buffers, |s.buffers|);
      if best < 0 then |s.buffers| else best
  }

  /** getBufferForHandle: the game's buffer, or a free one, or a new one. */
  function Acquire(s: State, g: Game): (r: State)
    requires Owns(s, g)
    ensures BufferIndex(s, g) < |r.buffers|
  {
    if g in s.gamesToBuffers then s
    else
      var i := BufferIndex(s, g);
      var buffers := if i == |s.buffers| then s.buffers + [EMPTY] else s.buffers;
      s.(buffers := buffers[i := buffers[i].(owner := Some(g), isDone := false)],
         gamesToBuffers := s.gamesToBuffers[g := i])
  }

  /** Appends a frame to buffer `i`. */
  function PushFrame(c: Config, s: State, i: nat, f: Frame): State
    requires i < |s.buffers|
  {
    var b := s.buffers[i];
    var b' := b.(frames := b.frames + [f], isDone := f.terminal, pushed := b.pushed + 1,
                 cumReward := if f.terminal then 0.0 else b.cumReward + f.reward);
    s.(buffers := s.buffers[i := b'],
       actives := if f.terminal then s.actives - {f.game} else s.actives,
       ready := if |b'.frames| >= c.returnsLength then s.ready + {i} else s.ready)
  }

  function Cleared(b: Buffer): Buffer {
    b.(frames := [], cumReward := 0.0, isDone := true)
  }

  function ClearBuffer(s: State, i: nat, g: Game): State
    requires i < |s.buffers|
  {
    s.(buffers := s.buffers[i := Cleared(s.buffers[i]).(lastUpdateNum := s.updateCount)],
       actives := s.actives - {g}, ready := s.ready - {i})
  }

  /** What an update may select: some of the ready buffers, none twice. */
  predicate Selectable(s: State, selected: seq<nat>) {
    && selected != []
    && (forall j :: 0 <= j < |selected| ==> selected[j] in s.ready)
    && (forall j, k :: 0 <= j < k < |selected| ==> selected[j] != selected[k])
  }

  predicate LongEnough(c: Config, s: State, selected: seq<nat>) {
    forall j :: 0 <= j < |selected| ==>
      selected[j] < |s.buffers| && |s.buffers[selected[j]].frames| >= c.returnsLength
  }

  function Name(buffers: seq<Buffer>, b: nat, i: nat): FrameName {
    (b, if b < |buffers| then buffers[b].Base() + i else 0)
  }

  /** The frames of the selected buffers that are used with their own reward. */
  ghost function NonFinalRows(c: Config, s: State, selected: seq<nat>): set<FrameName>
    requires LongEnough(c, s, selected)
  {
    set b, i | b in selected && 0 <= i < c.returnsLength - 1 :: Name(s.buffers, b, i)
  }

  /** A buffer without the frames an update consumed. */
  function Dropped(c: Config, b: Buffer, isSelected: bool): Buffer
    requires c.Valid()
  {
    if c.forceOnPolicy then b.(frames := [])
    else if isSelected && c.ToDelete() <= |b.frames| then b.(frames := b.frames[c.ToDelete()..])
    else b
  }

  /** A buffer after an update. */
  function Trimmed(c: Config, b: Buffer, isSelected: bool, updateCount: nat): Buffer
    requires c.Valid()
  {
    var b' := Dropped(c, b, isSelected);
    if isSelected then b'.(lastUpdateNum := updateCount) else b'
  }

  /** The selected buffers that do not hold a full window any more. */
  function Short(c: Config, buffers: seq<Buffer>, selected: seq<nat>): set<nat> {
    set i | i in selected && i < |buffers| && |buffers[i].frames| < c.returnsLength
  }

  function TrimmedAll(c: Config, buffers: seq<Buffer>, selected: seq<nat>, updateCount: nat): (r: seq<Buffer>)
    requires c.Valid()
    ensures |r| == |buffers|
    ensures forall i :: 0 <= i < |r| ==> r[i] == Trimmed(c, buffers[i], i in selected, updateCount)
  {
    seq(|buffers|, i requires 0 <= i < |buffers| => Trimmed(c, buffers[i], i in selected, updateCount))
  }

  ghost function DoUpdate(c: Config, s: State, selected: seq<nat>): State
    requires c.Valid()
  {
    if !Selectable(s, selected) then s
    else if !LongEnough(c, s, selected) then s.(fault := Some(WrongBufferSize))
    else
      var buffers := TrimmedAll(c, s.buffers, selected, s.updateCount + 1);
      s.(buffers := buffers,
         ready := if c.forceOnPolicy then {} else s.ready - Short(c, buffers, selected),
         updateCount := s.updateCount + 1,
         used := s.used + NonFinalRows(c, s, selected))
  }

  lemma UpdateIs(c: Config, s: State, selected: seq<nat>, buffers: seq<Buffer>, ready: set<nat>)
    requires c.Valid() && Selectable(s, selected) && LongEnough(c, s, selected) && |buffers| == |s.buffers|
    requires forall i :: 0 <= i < |buffers| ==> buffers[i] == Trimmed(c, s.buffers[i], i in selected, s.updateCount + 1)
    requires ready == if c.forceOnPolicy then {} else s.ready - Short(c, buffers, selected)
    ensures DoUpdate(c, s, selected) ==
            s.(buffers := buffers, ready := ready, updateCount := s.updateCount + 1,
               used := s.used + NonFinalRows(c, s, selected))
  {
    hide Trimmed, TrimmedAll, Short, Selectable, LongEnough, NonFinalRows;
    assert TrimmedAll(c, s.buffers, selected, s.updateCount + 1) == buffers;
  }

  function DoReset(s: State): State {
    s.(buffers := seq(|s.buffers|, i requires 0 <= i < |s.buffers| => Cleared(s.buffers[i]).(owner := None)),
       ready := {}, actives := {})
  }

  ghost function Apply(c: Config, s: State, e: Event): State
    requires c.Valid()
  {
    if s.fault.Some? then s else
    match e
    case StartEpisode => s.(actives := s.actives + {s.nextGame}, nextGame := s.nextGame + 1)
    case Step(g, reward, isDone) =>
      if !s.train || g !in s.actives then s
      else if !Owns(s, g) then s.(fault := Some(NoLongerOwner))
      else PushFrame(c, Acquire(s, g), BufferIndex(s, g), Frame(g, reward, isDone))
    case ForceStop(g) =>
      if g !in s.actives then s
      else if !Owns(s, g) then s.(fault := Some(NoLongerOwner))
      else ClearBuffer(Acquire(s, g), BufferIndex(s, g), g)
    case Forward(g) =>
      if !c.forceOnPolicy || g !in s.actives then s
      else if !Owns(s, g) then s.(fault := Some(NoLongerOwner))
      else Acquire(s, g)
    case Update(selected) => DoUpdate(c, s, selected)
    case Reset => DoReset(s)
    case SetTrain(train) => s.(train := train)
  }

  ghost function Run(c: Config, es: seq<Event>): State
    requires c.Valid()
    decreases |es|
  {
    if es == [] then INIT else Apply(c, Run(c, es[..|es| - 1]), es[|es| - 1])
  }

  /** Frames of different games are adjacent exactly at terminal frames, and a
      game with a terminal frame is over. */
  ghost predicate FramesOk(frames: seq<Frame>, actives: set<Game>, nextGame: Game) {
    && (forall k :: 0 <= k < |frames| ==>
          frames[k].game < nextGame && (frames[k].terminal ==> frames[k].game !in actives))
    && (forall k :: 0 < k < |frames| ==> (frames[k - 1].terminal <==> frames[k - 1].game != frames[k].game))
  }

  /** An unfinished buffer belongs to an active game, and only such a buffer may
      end in a frame that is not terminal. */
  ghost predicate BufferOk(s: State, i: nat)
    requires i < |s.buffers|
  {
    var b := s.buffers[i];
    && FramesOk(b.frames, s.actives, s.nextGame)
    && |b.frames| <= b.pushed
    && (!b.isDone ==> b.owner.Some? && b.owner.value in s.actives
                      && b.owner.value in s.gamesToBuffers && s.gamesToBuffers[b.owner.value] == i)
    && (b.frames != [] && !b.frames[|b.frames| - 1].terminal ==>
          !b.isDone && b.owner == Some(b.frames[|b.frames| - 1].game))
  }

  /** An active game that has a buffer owns it, unfinished. */
  ghost predicate GameOk(s: State, g: Game) {
    g in s.gamesToBuffers ==>
      && s.gamesToBuffers[g] < |s.buffers|
      && s.buffers[s.gamesToBuffers[g]].owner == Some(g) && !s.buffers[s.gamesToBuffers[g]].isDone
  }

  ghost predicate ReadyOk(c: Config, s: State) {
    forall i :: i in s.ready <==> 0 <= i < |s.buffers| && |s.buffers[i].frames| >= c.returnsLength
  }

  /** Unless updates overlap, a used frame has left its buffer. */
  ghost predicate UsedOk(c: Config, s: State) {
    (c.forceOnPolicy || !c.overlappingUpdates) ==>
      forall u :: u in s.used ==> 0 <= u.0 < |s.buffers| && u.1 < s.buffers[u.0].Base()
  }

  ghost predicate BuffersOk(s: State) {
    forall i :: 0 <= i < |s.buffers| ==> BufferOk(s, i)
  }

  ghost predicate GamesOk(s: State) {
    && (forall g :: g in s.actives ==> g < s.nextGame && GameOk(s, g))
    && (forall g :: g in s.gamesToBuffers ==> g < s.nextGame)
  }

  ghost predicate Inv(c: Config, s: State) {
    BuffersOk(s) && GamesOk(s) && ReadyOk(c, s) && UsedOk(c, s)
  }

  /** Taking a buffer keeps everything, and the game then owns an unfinished
      buffer of its own. */
  lemma AcquireKeeps(c: Config, s: State, g: Game)
    requires c.Valid() && Inv(c, s) && g in s.actives
    ensures Owns(s, g)
    ensures var s', i := Acquire(s, g), BufferIndex(s, g);
            && Inv(c, s')
            && g in s'.gamesToBuffers && s'.gamesToBuffers[g] == i
  {
    assert GameOk(s, g);
    if g !in s.gamesToBuffers {
      AcquireBuffers(c, s, g);
      AcquireGames(c, s, g);
    }
  }

  lemma AcquireBuffers(c: Config, s: State, g: Game)
    requires c.Valid() && Inv(c, s) && g in s.actives && g !in s.gamesToBuffers
    ensures var s' := Acquire(s, g);
            BuffersOk(s') && ReadyOk(c, s') && UsedOk(c, s')
  {
    var s', i := Acquire(s, g), BufferIndex(s, g);
    forall k | 0 <= k < |s'.buffers| ensures BufferOk(s', k) {
      if k < |s.buffers| {
        assert BufferOk(s, k);
      }
    }
  }

  lemma AcquireGames(c: Config, s: State, g: Game)
    requires c.Valid() && Inv(c, s) && g in s.actives && g !in s.gamesToBuffers
    ensures GamesOk(Acquire(s, g))
  {
    var s', i := Acquire(s, g), BufferIndex(s, g);
    forall o | o in s'.actives ensures o < s'.nextGame && GameOk(s', o) {
      assert GameOk(s, o);
    }
  }

  /** A frame of the same unfinished game, or the first of a new one. */
  lemma PushFrames(frames: seq<Frame>, f: Frame, actives: set<Game>, nextGame: Game)
    requires FramesOk(frames, actives, nextGame) && f.game in actives && f.game < nextGame
    requires frames != [] && !frames[|frames| - 1].terminal ==> frames[|frames| - 1].game == f.game
    ensures FramesOk(frames + [f], if f.terminal then actives - {f.game} else actives, nextGame)
  {
  }

  lemma FewerActives(frames: seq<Frame>, g: Game, actives: set<Game>, nextGame: Game)
    requires FramesOk(frames, actives, nextGame)
    ensures FramesOk(frames, actives - {g}, nextGame)
  {
  }

  lemma PushBuffer(c: Config, s: State, i: nat, f: Frame, k: nat)
    requires c.Valid() && f.game in s.actives && f.game < s.nextGame && i < |s.buffers| && k < |s.buffers|
    requires BufferOk(s, i) && BufferOk(s, k) && f.game in s.gamesToBuffers
    requires s.gamesToBuffers[f.game] == i && GameOk(s, f.game)
    ensures BufferOk(PushFrame(c, s, i, f), k)
  {
    hide FramesOk;
    PushFrames(s.buffers[i].frames, f, s.actives, s.nextGame);
    FewerActives(s.buffers[k].frames, f.game, s.actives, s.nextGame);
  }

  lemma PushKeeps(c: Config, s: State, i: nat, f: Frame)
    requires c.Valid() && Inv(c, s) && f.game in s.actives
    requires f.game in s.gamesToBuffers && s.gamesToBuffers[f.game] == i
    ensures i < |s.buffers| && Inv(c, PushFrame(c, s, i, f))
  {
    assert GameOk(s, f.game);
    var s' := PushFrame(c, s, i, f);
    hide FramesOk, BufferOk;
    forall k | 0 <= k < |s'.buffers| ensures BufferOk(s', k) {
      PushBuffer(c, s, i, f, k);
    }
    forall o | o in s'.actives ensures o < s'.nextGame && GameOk(s', o) {
      assert GameOk(s, o);
    }
    assert |s'.buffers| == |s.buffers|;
  }

  lemma ClearKeeps(c: Config, s: State, i: nat, g: Game)
    requires c.Valid() && Inv(c, s) && g in s.actives
    requires g in s.gamesToBuffers && s.gamesToBuffers[g] == i
    ensures i < |s.buffers| && Inv(c, ClearBuffer(s, i, g))
  {
    assert GameOk(s, g);
    var s' := ClearBuffer(s, i, g);
    forall k | 0 <= k < |s'.buffers| ensures BufferOk(s', k) {
      assert BufferOk(s, k);
    }
    forall o | o in s'.actives ensures o < s'.nextGame && GameOk(s', o) {
      assert GameOk(s, o);
    }
  }

  lemma ReadyIsLong(c: Config, s: State, selected: seq<nat>)
    requires ReadyOk(c, s) && Selectable(s, selected)
    ensures LongEnough(c, s, selected)
  {
  }

  lemma DropFrames(frames: seq<Frame>, n: nat, actives: set<Game>, nextGame: Game)
    requires n <= |frames| && FramesOk(frames, actives, nextGame)
    ensures FramesOk(frames[n..], actives, nextGame)
  {
    var rest := frames[n..];
    forall k | 0 < k < |rest| ensures rest[k - 1].terminal <==> rest[k - 1].game != rest[k].game {
      assert rest[k - 1] == frames[n + k - 1] && rest[k] == frames[n + k];
    }
  }

  /** What an update leaves of one buffer. */
  lemma UpdatedBuffer(c: Config, s: State, selected: seq<nat>, k: nat)
    requires c.Valid() && Selectable(s, selected) && LongEnough(c, s, selected) && k < |s.buffers|
    ensures var s' := DoUpdate(c, s, selected);
            && |s'.buffers| == |s.buffers|
            && s'.buffers[k] == Trimmed(c, s.buffers[k], k in selected, s.updateCount + 1)
            && s'.actives == s.actives && s'.nextGame == s.nextGame && s'.gamesToBuffers == s.gamesToBuffers
  {
    hide Trimmed, TrimmedAll, Short, NonFinalRows, Selectable, LongEnough;
  }

  lemma UpdateBuffer(c: Config, s: State, selected: seq<nat>, k: nat)
    requires c.Valid() && Selectable(s, selected) && LongEnough(c, s, selected)
    requires k < |s.buffers| && BufferOk(s, k)
    ensures k < |DoUpdate(c, s, selected).buffers| && BufferOk(DoUpdate(c, s, selected), k)
  {
    hide DoUpdate, Selectable, LongEnough, FramesOk;
    UpdatedBuffer(c, s, selected, k);
    if c.ToDelete() <= |s.buffers[k].frames| {
      DropFrames(s.buffers[k].frames, c.ToDelete(), s.actives, s.nextGame);
    }
    NoFrames(s.actives, s.nextGame);
  }

  lemma NoFrames(actives: set<Game>, nextGame: Game)
    ensures FramesOk([], actives, nextGame)
  {
  }

  lemma UpdateGame(c: Config, s: State, selected: seq<nat>, g: Game)
    requires c.Valid() && Selectable(s, selected) && LongEnough(c, s, selected) && GameOk(s, g)
    ensures GameOk(DoUpdate(c, s, selected), g)
  {
  }

  lemma UpdateBuffers(c: Config, s: State, selected: seq<nat>)
    requires c.Valid() && Inv(c, s) && Selectable(s, selected)
    ensures LongEnough(c, s, selected)
    ensures var s' := DoUpdate(c, s, selected);
            BuffersOk(s') && GamesOk(s')
  {
    ReadyIsLong(c, s, selected);
    hide ReadyOk, UsedOk, BufferOk, GameOk;
    var s' := DoUpdate(c, s, selected);
    forall k | 0 <= k < |s'.buffers| ensures BufferOk(s', k) {
      UpdateBuffer(c, s, selected, k);
    }
    forall o | o in s'.actives ensures o < s'.nextGame && GameOk(s', o) {
      UpdateGame(c, s, selected, o);
    }
  }

  lemma UpdateReady(c: Config, s: State, selected: seq<nat>)
    requires c.Valid() && Inv(c, s) && Selectable(s, selected)
    ensures ReadyOk(c, DoUpdate(c, s, selected))
  {
    UpdateBuffers(c, s, selected);
    hide BuffersOk, GamesOk, UsedOk;
  }

  lemma UpdateUsed(c: Config, s: State, selected: seq<nat>)
    requires c.Valid() && Inv(c, s) && Selectable(s, selected)
    ensures UsedOk(c, DoUpdate(c, s, selected))
  {
    UpdateBuffers(c, s, selected);
    hide BuffersOk, GamesOk;
    var s' := DoUpdate(c, s, selected);
    if c.forceOnPolicy || !c.overlappingUpdates {
      forall u | u in s'.used ensures 0 <= u.0 < |s'.buffers| && u.1 < s'.buffers[u.0].Base() {
        if u in s.used {
          assert s'.buffers[u.0].Base() >= s.buffers[u.0].Base();
        } else {
          var b, i :| b in selected && 0 <= i < c.returnsLength - 1 && u == Name(s.buffers, b, i);
        }
      }
    }
  }

  lemma ResetKeeps(c: Config, s: State)
    requires c.Valid() && Inv(c, s)
    ensures Inv(c, DoReset(s))
  {
    var s' := DoReset(s);
    forall k | 0 <= k < |s'.buffers| ensures BufferOk(s', k) {
      assert BufferOk(s, k);
    }
  }

  lemma StartKeeps(c: Config, s: State)
    requires c.Valid() && Inv(c, s) && s.fault.None?
    ensures Inv(c, Apply(c, s, StartEpisode))
  {
    var s' := Apply(c, s, StartEpisode);
    forall k | 0 <= k < |s'.buffers| ensures BufferOk(s', k) {
      assert BufferOk(s, k);
    }
    forall o | o in s'.actives ensures o < s'.nextGame && GameOk(s', o) {
      assert o in s.actives ==> GameOk(s, o);
    }
  }

  /** An event of an active game. */
  lemma GameKeeps(c: Config, s: State, e: Event)
    requires c.Valid() && Inv(c, s) && s.fault.None? && (e.Step? || e.ForceStop? || e.Forward?)
    ensures Inv(c, Apply(c, s, e)) && Apply(c, s, e).fault.None?
  {
    if e.g in s.actives {
      AcquireKeeps(c, s, e.g);
      if e.Step? {
        PushKeeps(c, Acquire(s, e.g), BufferIndex(s, e.g), Frame(e.g, e.reward, e.isDone));
      } else if e.ForceStop? {
        ClearKeeps(c, Acquire(s, e.g), BufferIndex(s, e.g), e.g);
      }
      hide Inv;
    }
  }

  lemma UpdateKeeps(c: Config, s: State, selected: seq<nat>)
    requires c.Valid() && Inv(c, s) && s.fault.None?
    ensures Inv(c, DoUpdate(c, s, selected)) && DoUpdate(c, s, selected).fault.None?
  {
    hide BuffersOk, GamesOk, UsedOk, Trimmed, TrimmedAll, Short, NonFinalRows;
    if Selectable(s, selected) {
      ReadyIsLong(c, s, selected);
      UpdateBuffers(c, s, selected);
      UpdateReady(c, s, selected);
      UpdateUsed(c, s, selected);
      hide ReadyOk, Selectable, LongEnough;
    }
  }

  lemma TrainKeeps(c: Config, s: State, train: bool)
    requires Inv(c, s)
    ensures Inv(c, s.(train := train))
  {
    var s' := s.(train := train);
    assert forall k :: 0 <= k < |s.buffers| && BufferOk(s, k) ==> BufferOk(s', k);
    assert forall o :: GameOk(s, o) ==> GameOk(s', o);
  }

  /** No event trips a check of the source, and all keep the invariant. */
  lemma KeepsInv(c: Config, s: State, e: Event)
    requires c.Valid() && Inv(c, s) && s.fault.None?
    ensures Inv(c, Apply(c, s, e)) && Apply(c, s, e).fault.None?
  {
    hide Inv, DoUpdate, Acquire, PushFrame, ClearBuffer;
    match e
    case StartEpisode => StartKeeps(c, s);
    case Update(selected) => UpdateKeeps(c, s, selected);
    case Reset => ResetKeeps(c, s);
    case SetTrain(train) => TrainKeeps(c, s, train);
    case _ => GameKeeps(c, s, e);
  }

  lemma {:induction false} Reachable(c: Config, es: seq<Event>)
    requires c.Valid()
    ensures Inv(c, Run(c, es)) && Run(c, es).fault.None?
    decreases |es|
  {
    if es != [] {
      Reachable(c, es[..|es| - 1]);
      hide Inv, Apply;
      KeepsInv(c, Run(c, es[..|es| - 1]), es[|es| - 1]);
    }
  }

  /** In every run: a buffer is ready exactly when it holds a full window, active
      games own distinct unfinished buffers, and neither the wrong-buffer-size
      abort nor the no-longer-owns-it exception is ever reached. */
  lemma RunInvariant(c: Config, es: seq<Event>, g: Game, h: Game, i: nat)
    requires c.Valid()
    ensures var s := Run(c, es);
            && s.fault.None?
            && (i in s.ready <==> i < |s.buffers| && |s.buffers[i].frames| >= c.returnsLength)
            && (g in s.actives && g in s.gamesToBuffers ==>
                  var b := s.gamesToBuffers[g];
                  && b < |s.buffers| && !s.buffers[b].isDone
                  && (h in s.actives && h in s.gamesToBuffers && s.gamesToBuffers[h] == b ==> g == h))
  {
    Reachable(c, es);
    var s := Run(c, es);
    hide Run, BuffersOk, UsedOk;
    assert g in s.actives ==> GameOk(s, g);
    assert h in s.actives ==> GameOk(s, h);
  }

  /** Where two games meet in a buffer there is a terminal frame, and only there. */
  lemma GamesSeparated(c: Config, es: seq<Event>, i: nat, k: nat)
    requires c.Valid() && i < |Run(c, es).buffers| && 0 < k < |Run(c, es).buffers[i].frames|
    ensures var frames := Run(c, es).buffers[i].frames;
            frames[k - 1].terminal <==> frames[k - 1].game != frames[k].game
  {
    Reachable(c, es);
    hide Run, GamesOk, ReadyOk, UsedOk;
    assert BufferOk(Run(c, es), i);
  }

  /** Without overlapping updates no frame is a non-final row twice. */
  lemma NonFinalOnce(c: Config, es: seq<Event>, selected: seq<nat>)
    requires c.Valid() && (c.forceOnPolicy || !c.overlappingUpdates) && Selectable(Run(c, es), selected)
    ensures LongEnough(c, Run(c, es), selected)
    ensures NonFinalRows(c, Run(c, es), selected) !! Run(c, es).used
    ensures Run(c, es + [Update(selected)]).used == Run(c, es).used + NonFinalRows(c, Run(c, es), selected)
  {
    Reachable(c, es);
    var s := Run(c, es);
    ReadyIsLong(c, s, selected);
    forall u | u in NonFinalRows(c, s, selected) ensures u !in s.used {
      var b, i :| b in selected && 0 <= i < c.returnsLength - 1 && u == Name(s.buffers, b, i);
    }
    assert (es + [Update(selected)])[..|es|] == es;
  }

  /** The column of the batch that comes from buffer `b`. */
  function Rewards(c: Config, b: Buffer): (r: seq<real>)
    requires |b.frames| >= c.returnsLength
    ensures |r| == c.returnsLength
  {
    seq(c.returnsLength, i requires 0 <= i < c.returnsLength => b.frames[i].reward)
  }

  function Terminals(c: Config, b: Buffer): (r: seq<bool>)
    requires |b.frames| >= c.returnsLength
    ensures |r| == c.returnsLength
  {
    seq(c.returnsLength, i requires 0 <= i < c.returnsLength => b.frames[i].terminal)
  }

  lemma {:induction false} SameGame(frames: seq<Frame>, i: nat, k: nat)
    requires i <= k < |frames|
    requires forall j :: 0 < j < |frames| ==> (frames[j - 1].terminal <==> frames[j - 1].game != frames[j].game)
    requires forall j :: i <= j < k ==> !frames[j].terminal
    ensures frames[k].game == frames[i].game
    decreases k
  {
    if i < k {
      SameGame(frames, i, k - 1);
    }
  }

  /** Returns never mix games: in every run, the rows that enter the return of
      row `i` of a selected buffer, the bootstrap row included, are all of one
      game, and if the sum stops early that game was over. */
  lemma ReturnsNeverMix(c: Config, es: seq<Event>, selected: seq<nat>, j: nat, i: nat)
    requires c.Valid() && Selectable(Run(c, es), selected) && j < |selected| && i < c.returnsLength - 1
    ensures var s := Run(c, es);
            && selected[j] < |s.buffers| && |s.buffers[selected[j]].frames| >= c.returnsLength
            && var b := s.buffers[selected[j]];
               var last := A2C.FirstTerminal(Terminals(c, b), i);
               && (forall k :: i <= k <= last ==> b.frames[k].game == b.frames[i].game)
               && (last < c.returnsLength - 1 ==>
                     b.frames[i].game !in s.actives && b.frames[last + 1].game != b.frames[i].game)
  {
    Reachable(c, es);
    var s := Run(c, es);
    hide Run;
    ReadyIsLong(c, s, selected);
    hide GamesOk, ReadyOk, UsedOk;
    assert BufferOk(s, selected[j]);
    hide BuffersOk;
    var b := s.buffers[selected[j]];
    var terminals := Terminals(c, b);
    var last := A2C.FirstTerminal(terminals, i);
    forall k | i <= k < last ensures !b.frames[k].terminal {
      assert terminals[k] == b.frames[k].terminal;
    }
    forall k | i <= k <= last ensures b.frames[k].game == b.frames[i].game {
      SameGame(b.frames, i, k);
    }
    if last < c.returnsLength - 1 {
      assert terminals[last] && b.frames[last].terminal;
      assert b.frames[last].game == b.frames[i].game;
      assert b.frames[(last + 1) - 1].terminal;
    }
  }

  /** What an update leaves of the frames: none on policy, else all of a buffer that was not
      selected, and of one that was, all but the first frame with overlapping updates, or
      all from the last row of the window on. */
  lemma DroppedFrames(c: Config, b: Buffer, isSelected: bool)
    requires c.Valid() && (isSelected ==> |b.frames| >= c.returnsLength)
    ensures Dropped(c, b, isSelected) == b.(frames :=
              if c.forceOnPolicy then []
              else if !isSelected then b.frames
              else if c.overlappingUpdates then b.frames[1..] else b.frames[c.returnsLength - 1..])
  {
  }

  /** Buffer `i`, perhaps a new one, now is the game's; no frame moved. */
  ghost predicate Taken(was: seq<Buffer>, now: seq<Buffer>, i: nat, g: Game) {
    && i < |now| && (if i < |was| then |now| == |was| else |now| == |was| + 1 == i + 1)
    && now[i].frames == (if i < |was| then was[i].frames else []) && now[i].owner == Some(g) && !now[i].isDone
    && forall k :: 0 <= k < |was| && k != i ==> now[k] == was[k]
  }

  /** The trainer's fields and methods. */
  class Trainer {
    const config: Config
    const trainerBatchSize: int
    var buffers: seq<Buffer>
    var ready: set<nat>
    var gamesToBuffers: map<Game, nat>
    var actives: set<Game>
    var updateCount: nat
    var train: bool
    var nextGame: Game
    ghost var used: set<FrameName>

    ghost function View(): State
      reads this
    {
      State(buffers, ready, gamesToBuffers, actives, updateCount, train, nextGame, used, None)
    }

    ghost predicate Valid()
      reads this
    {
      config.Valid() && Inv(config, View())
    }

    constructor (config: Config, trainerBatchSize: int)
      requires config.Valid()
      ensures Valid() && this.config == config && View() == INIT
    {
      this.config := config;
      this.trainerBatchSize := trainerBatchSize;
      buffers, ready, gamesToBuffers, actives := [], {}, map[], {};
      updateCount, train, nextGame, used := 0, true, 0, {};
      new;
      Reachable(config, []);
    }

    /** The buffer of an active game; it never has to throw. */
    method GetBufferForHandle(g: Game) returns (idx: nat)
      requires Valid() && g in actives
      modifies this`buffers, this`gamesToBuffers
      ensures old(Owns(View(), g)) && View() == Acquire(old(View()), g) && idx == BufferIndex(old(View()), g)
      ensures Valid() && g in gamesToBuffers && gamesToBuffers[g] == idx && idx < |buffers|
      ensures old(g in gamesToBuffers) ==> buffers == old(buffers) && gamesToBuffers == old(gamesToBuffers)
      ensures old(g !in gamesToBuffers) ==>
                && Taken(old(buffers), buffers, idx, g) && gamesToBuffers == old(gamesToBuffers)[g := idx]
                && if idx == |old(buffers)| then forall k :: 0 <= k < idx ==> !old(buffers)[k].isDone
                   else old(buffers)[idx].isDone && forall k :: 0 <= k < |old(buffers)| && old(buffers)[k].isDone ==>
                          old(buffers)[idx].lastUpdateNum <= old(buffers)[k].lastUpdateNum
    {
      hide Inv;
      AcquireKeeps(config, View(), g);
      BestFreeIsOldest(buffers, |buffers|);
      if g in gamesToBuffers {
        assert buffers[gamesToBuffers[g]].owner == Some(g);
        return gamesToBuffers[g];
      }
      var best := -1;
      for i := 0 to |buffers|
        invariant best == BestFree(buffers, i)
        invariant View() == old(View())
      {
        if buffers[i].isDone && (best < 0 || buffers[i].lastUpdateNum < buffers[best].lastUpdateNum) {
          best := i;
        }
      }
      if best < 0 {
        best := |buffers|;
        buffers := buffers + [EMPTY];
      }
      buffers := buffers[best := buffers[best].(owner := Some(g), isDone := false)];
      gamesToBuffers := gamesToBuffers[g := best];
      return best;
    }

    /** A new game. */
    method StartGame() returns (g: Game)
      requires Valid()
      modifies this`actives, this`nextGame
      ensures Valid() && View() == Apply(config, old(View()), StartEpisode)
      ensures g == old(nextGame) && actives == old(actives) + {g} && nextGame == g + 1
    {
      hide Inv;
      KeepsInv(config, View(), StartEpisode);
      g := nextGame;
      actives := actives + {g};
      nextGame := nextGame + 1;
    }

    /** Before a forward pass, with frames of the latest model only: the game takes a buffer. */
    method PrepareForward(g: Game)
      requires Valid()
      modifies this`buffers, this`gamesToBuffers
      ensures Valid() && View() == Apply(config, old(View()), Forward(g))
      ensures config.forceOnPolicy && g in actives ==> g in gamesToBuffers
      ensures !config.forceOnPolicy || g !in actives ==> View() == old(View())
    {
      hide Inv;
      KeepsInv(config, View(), Forward(g));
      if config.forceOnPolicy && g in actives {
        var idx := GetBufferForHandle(g);
      }
    }

    /** Training can be switched off; frames are then ignored. */
    method SetTraining(on: bool)
      requires Valid()
      modifies this`train
      ensures Valid() && View() == Apply(config, old(View()), SetTrain(on)) && train == on
    {
      hide Inv;
      KeepsInv(config, View(), SetTrain(on));
      train := on;
    }

    /** A frame of game `g`; ignored if the game is over or training is off. */
    method StepEpisode(g: Game, reward: real, isDone: bool)
      requires Valid()
      modifies this
      ensures Valid() && View() == Apply(config, old(View()), Step(g, reward, isDone))
      ensures if !old(train) || g !in old(actives) then View() == old(View())
              else
                && g in gamesToBuffers && var i, was := gamesToBuffers[g], old(buffers);
                && i < |buffers| && (g in old(gamesToBuffers) ==> i == old(gamesToBuffers)[g])
                && buffers[i].frames == (if i < |was| then was[i].frames else []) + [Frame(g, reward, isDone)]
                && buffers[i].owner == Some(g) && buffers[i].isDone == isDone
                && buffers[i].cumReward ==
                   (if isDone then 0.0 else (if i < |was| then was[i].cumReward else 0.0) + reward)
                && (forall k :: 0 <= k < |was| && k != i ==> k < |buffers| && buffers[k] == was[k])
                && actives == (if isDone then old(actives) - {g} else old(actives))
                && ready == if |buffers[i].frames| >= config.returnsLength then old(ready) + {i} else old(ready)
    {
      hide Inv;
      KeepsInv(config, View(), Step(g, reward, isDone));
      if !train || g !in actives {
        return;
      }
      var key := GetBufferForHandle(g);
      var b := buffers[key];
      b := b.(cumReward := b.cumReward + reward);
      b := b.(frames := b.frames + [Frame(g, reward, isDone)], pushed := b.pushed + 1);
      if isDone {
        b := b.(cumReward := 0.0);
      }
      b := b.(isDone := isDone);
      buffers := buffers[key := b];
      if isDone {
        actives := actives - {g};
      }
      if |b.frames| >= config.returnsLength {
        ready := ready + {key};
      }
    }

    /** Drops the game and everything in its buffer. */
    method ForceStopEpisode(g: Game)
      requires Valid()
      modifies this
      ensures Valid() && View() == Apply(config, old(View()), ForceStop(g))
      ensures if g !in old(actives) then View() == old(View())
              else
                && g in gamesToBuffers && var i := gamesToBuffers[g];
                && i < |buffers| && buffers[i].frames == [] && buffers[i].isDone && buffers[i].cumReward == 0.0
                && buffers[i].lastUpdateNum == updateCount == old(updateCount)
                && (forall k :: 0 <= k < |old(buffers)| && k != i ==> k < |buffers| && buffers[k] == old(buffers)[k])
                && actives == old(actives) - {g} && ready == old(ready) - {i}
    {
      hide Inv;
      KeepsInv(config, View(), ForceStop(g));
      if g !in actives {
        return;
      }
      var key := GetBufferForHandle(g);
      actives := actives - {g};
      var cleared := buffers[key].(frames := [], cumReward := 0.0, isDone := true, lastUpdateNum := updateCount);
      buffers := buffers[key := cleared];
      ready := ready - {key};
    }

    /** Picks ready buffers, at most a batch of them; all have a full window. */
    method Select() returns (selected: seq<nat>)
      requires Valid() && ready != {}
      ensures Selectable(View(), selected) && LongEnough(config, View(), selected)
      ensures trainerBatchSize > 0 ==> |selected| <= trainerBatchSize
      ensures trainerBatchSize <= 0 || |selected| < trainerBatchSize ==> forall b :: b in ready ==> b in selected
    {
      selected := [];
      var rest := ready;
      while rest != {}
        invariant rest <= ready && (rest == {} ==> selected != [])
        invariant forall b :: b in ready <==> b in rest || b in selected
        invariant forall j :: 0 <= j < |selected| ==> selected[j] in ready && selected[j] !in rest
        invariant forall j, k :: 0 <= j < k < |selected| ==> selected[j] != selected[k]
        invariant trainerBatchSize > 0 ==> |selected| < trainerBatchSize || rest == {}
        invariant trainerBatchSize > 0 ==> |selected| <= trainerBatchSize
        decreases rest
      {
        var b :| b in rest;
        rest := rest - {b};
        selected := selected + [b];
        assert |buffers[b].frames| >= config.returnsLength;
        if |selected| == trainerBatchSize {
          break;
        }
      }
    }

    /** Rows of the batch, one frame from each selected buffer. */
    method CreateBatch(selected: seq<nat>) returns (b: A2C.Batch)
      requires config.Valid() && LongEnough(config, View(), selected)
      ensures b.Valid() && b.columns == |selected| && |b.rewards| == config.returnsLength
      ensures forall j :: 0 <= j < |selected| ==>
                && b.Rewards(j) == Rewards(config, buffers[selected[j]])
                && b.Terminals(j) == Terminals(config, buffers[selected[j]])
      ensures forall i, j :: 0 <= i < config.returnsLength && 0 <= j < |selected| ==>
                && b.rewards[i][j] == buffers[selected[j]].frames[i].reward
                && b.terminal[i][j] == buffers[selected[j]].frames[i].terminal
    {
      var rewards: seq<seq<real>>, terminal: seq<seq<bool>> := [], [];
      for i := 0 to config.returnsLength
        invariant |rewards| == |terminal| == i
        invariant forall k :: 0 <= k < i ==> |rewards[k]| == |terminal[k]| == |selected|
        invariant forall k, j :: 0 <= k < i && 0 <= j < |selected| ==>
                    && rewards[k][j] == buffers[selected[j]].frames[k].reward
                    && terminal[k][j] == buffers[selected[j]].frames[k].terminal
      {
        var n := |selected|;
        var row := seq(n, j requires 0 <= j < n reads this =>
          if selected[j] < |buffers| && i < |buffers[selected[j]].frames|
          then buffers[selected[j]].frames[i].reward else 0.0);
        var flags := seq(n, j requires 0 <= j < n reads this =>
          selected[j] < |buffers| && i < |buffers[selected[j]].frames| && buffers[selected[j]].frames[i].terminal);
        rewards := rewards + [row];
        terminal := terminal + [flags];
      }
      b := A2C.Batch(rewards, terminal, |selected|);
    }

    /** The training targets of the selected buffers. */
    method Targets(selected: seq<nat>, value: seq<real>, discount: real) returns (targets: seq<seq<real>>)
      requires config.Valid() && LongEnough(config, View(), selected) && |value| == |selected|
      ensures |targets| == config.returnsLength - 1
      ensures forall i :: 0 <= i < |targets| ==> |targets[i]| == |selected|
      ensures forall i, j :: 0 <= i < |targets| && 0 <= j < |selected| ==>
                var b := buffers[selected[j]];
                targets[i][j] == A2C.Return(Rewards(config, b), Terminals(config, b), value[j], discount, i)
    {
      var batch := CreateBatch(selected);
      targets := A2C.Returns(batch, value, discount);
    }

    /** One update: select, build the batch, train, and trim the buffers. The
        values of the last row, one for each selected buffer, come from the
        model. */
    method UpdateModel(value: seq<nat> -> seq<real>, discount: real)
      returns (selected: seq<nat>, targets: seq<seq<real>>)
      requires Valid() && ready != {}
      requires forall sel: seq<nat> :: |value(sel)| == |sel|
      modifies this
      ensures Valid() && View() == Apply(config, old(View()), Update(selected)) && updateCount == old(updateCount) + 1
      ensures old(Selectable(View(), selected)) && old(LongEnough(config, View(), selected))
      ensures |buffers| == |old(buffers)| && forall i :: 0 <= i < |buffers| ==>
                buffers[i].lastUpdateNum == if i in selected then updateCount else old(buffers)[i].lastUpdateNum
      ensures |targets| == config.returnsLength - 1
      ensures forall i :: 0 <= i < |targets| ==> |targets[i]| == |selected|
      ensures forall i, j :: 0 <= i < |targets| && 0 <= j < |selected| ==>
                var b := old(buffers)[selected[j]];
                targets[i][j] == A2C.Return(Rewards(config, b), Terminals(config, b), value(selected)[j], discount, i)
    {
      hide Inv, Selectable, DoUpdate;
      selected := Select();
      targets := Targets(selected, value(selected), discount);
      Trim(selected);
    }

    /** The end of an update: what it used is noted and dropped. */
    method Trim(selected: seq<nat>)
      requires Valid() && Selectable(View(), selected) && LongEnough(config, View(), selected)
      modifies this
      ensures Valid() && View() == Apply(config, old(View()), Update(selected)) && updateCount == old(updateCount) + 1
      ensures |buffers| == |old(buffers)| && forall i :: 0 <= i < |buffers| ==>
                buffers[i].lastUpdateNum == if i in selected then updateCount else old(buffers)[i].lastUpdateNum
    {
      hide Inv, DoUpdate;
      ghost var s := View();
      KeepsInv(config, s, Update(selected));
      used := used + NonFinalRows(config, s, selected);
      updateCount := updateCount + 1;
      DropFrames(selected);
      Stamp(selected);
      UpdateIs(config, s, selected, buffers, ready);
    }

    /** Removes what the update consumed. */
    method DropFrames(selected: seq<nat>)
      requires config.Valid() && LongEnough(config, View(), selected)
      requires forall j, k :: 0 <= j < k < |selected| ==> selected[j] != selected[k]
      modifies this`buffers, this`ready
      ensures |buffers| == old(|buffers|)
      ensures forall i :: 0 <= i < |buffers| ==> buffers[i] == Dropped(config, old(buffers)[i], i in selected)
      ensures ready == if config.forceOnPolicy then {} else old(ready) - Short(config, buffers, selected)
    {
      var bs := buffers;
      if config.forceOnPolicy {
        buffers := seq(|bs|, i requires 0 <= i < |bs| => bs[i].(frames := []));
        ready := {};
        return;
      }
      var n := config.ToDelete();
      ghost var done: set<nat> := {};
      for j := 0 to |selected|
        invariant |buffers| == |bs|
        invariant forall i :: i in done <==> exists k :: 0 <= k < j && selected[k] == i
        invariant forall i :: 0 <= i < |bs| ==> buffers[i] == Dropped(config, bs[i], i in done)
        invariant ready == old(ready) - set i | i in done && i < |buffers| && |buffers[i].frames| < config.returnsLength
      {
        var b := selected[j];
        assert b !in done;
        buffers := buffers[b := buffers[b].(frames := buffers[b].frames[n..])];
        if |buffers[b].frames| < config.returnsLength {
          ready := ready - {b};
        }
        done := done + {b};
      }
      assert forall i :: i in done <==> i in selected;
    }

    /** Notes the update in the selected buffers. */
    method Stamp(selected: seq<nat>)
      requires forall j :: 0 <= j < |selected| ==> selected[j] < |buffers|
      modifies this`buffers
      ensures |buffers| == old(|buffers|)
      ensures forall i :: 0 <= i < |buffers| ==>
                buffers[i] == if i in selected then old(buffers)[i].(lastUpdateNum := updateCount) else old(buffers)[i]
    {
      var bs := buffers;
      ghost var done: set<nat> := {};
      for j := 0 to |selected|
        invariant |buffers| == |bs|
        invariant forall i :: i in done <==> exists k :: 0 <= k < j && selected[k] == i
        invariant forall i :: 0 <= i < |bs| ==>
          buffers[i] == if i in done then bs[i].(lastUpdateNum := updateCount) else bs[i]
      {
        buffers := buffers[selected[j] := buffers[selected[j]].(lastUpdateNum := updateCount)];
        done := done + {selected[j]};
      }
      assert forall i :: i in done <==> i in selected;
    }

    /** Drops all games and all frames. */
    method ResetTrainer()
      requires Valid()
      modifies this
      ensures Valid() && View() == Apply(config, old(View()), Reset)
      ensures ready == {} && actives == {} && |buffers| == |old(buffers)|
      ensures forall i :: 0 <= i < |buffers| ==>
                buffers[i].frames == [] && buffers[i].isDone && buffers[i].owner.None? && buffers[i].cumReward == 0.0
    {
      hide Inv;
      KeepsInv(config, View(), Reset);
      ghost var s := View();
      var bs := buffers;
      for i := 0 to |bs|
        invariant |buffers| == |bs|
        invariant forall k :: 0 <= k < |bs| ==> buffers[k] == if k < i then Cleared(bs[k]).(owner := None) else bs[k]
        invariant View() == old(View()).(buffers := buffers)
      {
        buffers := buffers[i := buffers[i].(cumReward := 0.0, frames := [], isDone := true, owner := None)];
      }
      ready := {};
      actives := {};
      assert buffers == DoReset(s).buffers;
    }
  }
}
