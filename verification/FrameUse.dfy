/** How often the synchronous trainer uses a frame: as a non-final row of a batch,
    with its own reward. Overlapping updates drop one frame at a time, so that a
    frame comes up again. */
module FrameUse {
  import opened Options
  import opened SyncTrainer

  /** The event is an update that has the frame in a row with its own reward. */
  ghost predicate UsesNow(c: Config, s: State, e: Event, f: FrameName)
    requires c.Valid()
  {
    && e.Update? && s.fault.None? && Selectable(s, e.selected) && LongEnough(c, s, e.selected)
    && f in NonFinalRows(c, s, e.selected)
  }

  /** In how many updates of a run a frame is such a row. */
  ghost function Uses(c: Config, es: seq<Event>, f: FrameName): nat
    requires c.Valid()
    decreases |es|
  {
    if es == [] then 0
    else
      var before := es[..|es| - 1];
      Uses(c, before, f) + if UsesNow(c, Run(c, before), es[|es| - 1], f) then 1 else 0
  }

  /** An update leaves frames that it has used in the buffer. */
  predicate Repeats(c: Config) {
    c.overlappingUpdates && !c.forceOnPolicy
  }

  function Bound(c: Config): nat
    requires c.Valid()
  {
    if Repeats(c) then c.returnsLength - 1 else 1
  }

  /** What the number of uses so far says about the place of the frame. */
  ghost predicate Placed(c: Config, s: State, f: FrameName, uses: nat)
    requires c.Valid()
  {
    uses > 0 ==>
      && uses <= Bound(c) && f.0 < |s.buffers|
      && if Repeats(c) then uses <= s.buffers[f.0].Base() + c.returnsLength - 2 - f.1
         else f.1 < s.buffers[f.0].Base()
  }

  /** A frame is used exactly if its buffer is selected and it is in the window. */
  lemma UsedExactly(c: Config, s: State, e: Event, f: FrameName)
    requires c.Valid()
    ensures UsesNow(c, s, e, f) <==>
            && e.Update? && s.fault.None? && Selectable(s, e.selected) && LongEnough(c, s, e.selected)
            && f.0 in e.selected && f.0 < |s.buffers|
            && 0 <= f.1 - s.buffers[f.0].Base() < c.returnsLength - 1
  {
    if e.Update? && LongEnough(c, s, e.selected) && f.0 in e.selected && f.0 < |s.buffers|
       && 0 <= f.1 - s.buffers[f.0].Base() < c.returnsLength - 1 {
      assert f == Name(s.buffers, f.0, f.1 - s.buffers[f.0].Base());
    }
  }

  /** Buffers stay, and frames only leave them at the front. */
  lemma FramesLeave(c: Config, s: State, e: Event, b: nat)
    requires c.Valid() && Inv(c, s) && b < |s.buffers|
    ensures b < |Apply(c, s, e).buffers| && s.buffers[b].Base() <= Apply(c, s, e).buffers[b].Base()
  {
    assert BufferOk(s, b);
    hide Inv, BufferOk, BestFree, DoUpdate, Acquire;
    match e
    case Step(g, _, _) => AcquireKeepsBase(s, g, b);
    case ForceStop(g) => AcquireKeepsBase(s, g, b);
    case Forward(g) => AcquireKeepsBase(s, g, b);
    case Update(selected) => UpdateLeaves(c, s, selected, b);
    case _ =>
  }

  lemma AcquireKeepsBase(s: State, g: Game, b: nat)
    requires b < |s.buffers|
    ensures Owns(s, g) ==>
            var s' := Acquire(s, g);
            && b < |s'.buffers| && s'.buffers[b].Base() == s.buffers[b].Base()
            && s'.buffers[b].pushed == s.buffers[b].pushed
  {
    hide BestFree;
  }

  lemma UpdateLeaves(c: Config, s: State, selected: seq<nat>, b: nat)
    requires c.Valid() && b < |s.buffers|
    ensures var s' := DoUpdate(c, s, selected); b < |s'.buffers| && s.buffers[b].Base() <= s'.buffers[b].Base()
  {
    hide TrimmedAll, NonFinalRows, Short, Selectable, LongEnough;
    if Selectable(s, selected) && LongEnough(c, s, selected) {
      UpdatedBuffer(c, s, selected, b);
    }
  }

  /** How many of them leave a selected buffer. */
  lemma UpdateDrops(c: Config, s: State, selected: seq<nat>, b: nat)
    requires c.Valid() && Selectable(s, selected) && LongEnough(c, s, selected) && b in selected
    ensures b < |s.buffers| && b < |DoUpdate(c, s, selected).buffers|
    ensures DoUpdate(c, s, selected).buffers[b].Base() >=
            s.buffers[b].Base() + if Repeats(c) then 1 else c.returnsLength - 1
  {
    UpdatedBuffer(c, s, selected, b);
    hide DoUpdate, Selectable;
  }

  lemma PlacedStep(c: Config, s: State, e: Event, f: FrameName, uses: nat)
    requires c.Valid() && Inv(c, s) && s.fault.None? && Placed(c, s, f, uses)
    ensures Placed(c, Apply(c, s, e), f, uses + if UsesNow(c, s, e, f) then 1 else 0)
  {
    hide Inv, UsesNow, Placed, Apply, Selectable, LongEnough, DoUpdate;
    UsedExactly(c, s, e, f);
    if f.0 < |s.buffers| {
      FramesLeave(c, s, e, f.0);
    }
    if UsesNow(c, s, e, f) {
      UpdateDrops(c, s, e.selected, f.0);
      UpdateApplies(c, s, e.selected);
      PlacedOnce(c, s, Apply(c, s, e), f, uses);
    } else {
      PlacedStill(c, s, Apply(c, s, e), f, uses);
    }
  }

  lemma UpdateApplies(c: Config, s: State, selected: seq<nat>)
    requires c.Valid() && s.fault.None?
    ensures Apply(c, s, Update(selected)) == DoUpdate(c, s, selected)
  {
    hide DoUpdate;
  }

  lemma PlacedStill(c: Config, s: State, s': State, f: FrameName, uses: nat)
    requires c.Valid() && Placed(c, s, f, uses)
    requires f.0 < |s.buffers| ==> f.0 < |s'.buffers| && s.buffers[f.0].Base() <= s'.buffers[f.0].Base()
    ensures Placed(c, s', f, uses)
  {
  }

  lemma PlacedOnce(c: Config, s: State, s': State, f: FrameName, uses: nat)
    requires c.Valid() && Placed(c, s, f, uses) && f.0 < |s.buffers| && f.0 < |s'.buffers|
    requires 0 <= f.1 - s.buffers[f.0].Base() < c.returnsLength - 1
    requires s'.buffers[f.0].Base() >= s.buffers[f.0].Base() + if Repeats(c) then 1 else c.returnsLength - 1
    ensures Placed(c, s', f, uses + 1)
  {
  }

  lemma {:induction false} StaysPlaced(c: Config, es: seq<Event>, f: FrameName)
    requires c.Valid()
    ensures Placed(c, Run(c, es), f, Uses(c, es, f))
    decreases |es|
  {
    if es != [] {
      var before := es[..|es| - 1];
      StaysPlaced(c, before, f);
      Reachable(c, before);
      hide Placed, Apply, Inv, UsesNow;
      PlacedStep(c, Run(c, before), es[|es| - 1], f, Uses(c, before, f));
    }
  }

  /** In every run each frame is a non-final row at most `returnsLength - 1` times
      with overlapping updates, and at most once otherwise. */
  lemma UsedAtMost(c: Config, es: seq<Event>, f: FrameName)
    requires c.Valid()
    ensures Uses(c, es, f) <= Bound(c)
  {
    StaysPlaced(c, es, f);
  }

  // ---------------------------------------------------------------------
  // No frame is left out
  // ---------------------------------------------------------------------

  /** No frame is thrown away: games are not stopped, the trainer is not reset and does
      not insist on frames of the latest model. */
  ghost predicate KeepsAll(c: Config, es: seq<Event>) {
    !c.forceOnPolicy && forall i :: 0 <= i < |es| ==> !es[i].Reset? && !es[i].ForceStop?
  }

  /** What leaves a buffer: of a selected one the first frame with overlapping updates,
      and all frames but the last of the window without; of any other none. */
  lemma BaseExactly(c: Config, s: State, e: Event, b: nat)
    requires c.Valid() && Inv(c, s) && s.fault.None? && KeepsAll(c, [e]) && b < |s.buffers|
    ensures b < |Apply(c, s, e).buffers|
    ensures Apply(c, s, e).buffers[b].Base() == s.buffers[b].Base() +
              if e.Update? && Selectable(s, e.selected) && b in e.selected
              then if c.overlappingUpdates then 1 else c.returnsLength - 1
              else 0
  {
    assert [e][0] == e;
    hide Apply, DoUpdate, Inv, Selectable, LongEnough;
    if e.Update? {
      UpdateApplies(c, s, e.selected);
      if Selectable(s, e.selected) {
        LongWhenReady(c, s, e.selected);
        UpdateBase(c, s, e.selected, b);
      } else {
        NoUpdate(c, s, e.selected);
      }
    } else {
      OtherBase(c, s, e, b);
    }
  }

  lemma OtherBase(c: Config, s: State, e: Event, b: nat)
    requires c.Valid() && !c.forceOnPolicy && !e.Update? && !e.Reset? && !e.ForceStop? && b < |s.buffers|
    ensures b < |Apply(c, s, e).buffers| && Apply(c, s, e).buffers[b].Base() == s.buffers[b].Base()
  {
    if e.Step? {
      AcquireKeepsBase(s, e.g, b);
    }
    hide BestFree, Acquire, BufferIndex;
  }

  lemma NoUpdate(c: Config, s: State, selected: seq<nat>)
    requires c.Valid() && !Selectable(s, selected)
    ensures DoUpdate(c, s, selected) == s
  {
  }

  lemma UpdateBase(c: Config, s: State, selected: seq<nat>, b: nat)
    requires c.Valid() && !c.forceOnPolicy && Selectable(s, selected) && LongEnough(c, s, selected) && b < |s.buffers|
    ensures b < |DoUpdate(c, s, selected).buffers|
    ensures DoUpdate(c, s, selected).buffers[b].Base() == s.buffers[b].Base() +
              if b in selected then if c.overlappingUpdates then 1 else c.returnsLength - 1 else 0
  {
    UpdatedBuffer(c, s, selected, b);
    hide DoUpdate, Selectable;
  }

  /** How often frame `n` was used, if the buffer now begins with frame `base`. */
  function Expected(c: Config, base: int, n: int): nat
    requires c.Valid()
  {
    if n < 0 then 0
    else if c.overlappingUpdates then
      var lo := if n < c.returnsLength - 2 then 0 else n - (c.returnsLength - 2);
      var hi := if n < base then n else base - 1;
      if lo <= hi then hi - lo + 1 else 0
    else if n < base then 1 else 0
  }

  /** The window moves on by what leaves the buffer. */
  lemma WindowMoves(c: Config, base: int, n: int)
    requires c.Valid() && base >= 0
    ensures Expected(c, base + if c.overlappingUpdates then 1 else c.returnsLength - 1, n) ==
            Expected(c, base, n) + if base <= n < base + c.returnsLength - 1 then 1 else 0
  {
  }

  ghost predicate Tallied(c: Config, s: State, f: FrameName, uses: nat)
    requires c.Valid()
  {
    if f.0 < |s.buffers|
    then s.buffers[f.0].Base() >= 0 && uses == Expected(c, s.buffers[f.0].Base(), f.1) else uses == 0
  }

  lemma TallyStep(c: Config, s: State, e: Event, f: FrameName, uses: nat)
    requires c.Valid() && Inv(c, s) && s.fault.None? && KeepsAll(c, [e]) && Tallied(c, s, f, uses)
    ensures Tallied(c, Apply(c, s, e), f, uses + if UsesNow(c, s, e, f) then 1 else 0)
  {
    UsedExactly(c, s, e, f);
    hide UsesNow, Apply, Expected, Inv, KeepsAll, LongEnough, Selectable;
    if f.0 < |s.buffers| {
      BaseExactly(c, s, e, f.0);
      WindowMoves(c, s.buffers[f.0].Base(), f.1);
      if e.Update? && Selectable(s, e.selected) {
        LongWhenReady(c, s, e.selected);
      }
    } else {
      NewBuffer(c, s, e, f.0);
      Unused(c, f.1);
    }
  }

  lemma LongWhenReady(c: Config, s: State, selected: seq<nat>)
    requires Inv(c, s) && Selectable(s, selected)
    ensures LongEnough(c, s, selected)
  {
    ReadyIsLong(c, s, selected);
  }

  lemma Unused(c: Config, n: int)
    requires c.Valid()
    ensures Expected(c, 0, n) == 0
  {
  }

  /** A buffer that is new begins with frame 0. */
  lemma NewBuffer(c: Config, s: State, e: Event, b: nat)
    requires c.Valid() && |s.buffers| <= b
    ensures b < |Apply(c, s, e).buffers| ==> Apply(c, s, e).buffers[b].Base() == 0
  {
    hide BestFree, DoUpdate;
    if e.Update? {
      UpdateCount(c, s, e.selected);
    }
  }

  lemma UpdateCount(c: Config, s: State, selected: seq<nat>)
    requires c.Valid()
    ensures |DoUpdate(c, s, selected).buffers| == |s.buffers|
  {
    hide TrimmedAll, Short, NonFinalRows, Selectable, LongEnough;
  }

  lemma {:induction false} UsesAre(c: Config, es: seq<Event>, f: FrameName)
    requires c.Valid() && KeepsAll(c, es)
    ensures Tallied(c, Run(c, es), f, Uses(c, es, f))
    decreases |es|
  {
    if es != [] {
      var before, e := es[..|es| - 1], es[|es| - 1];
      UsesAre(c, before, f);
      Reachable(c, before);
      assert KeepsAll(c, [e]);
      hide Tallied, Apply, Inv, UsesNow, KeepsAll;
      TallyStep(c, Run(c, before), e, f, Uses(c, before, f));
    }
  }

  /** No frame leaves its buffer unused: without overlapping updates each one that left was
      a non-final row exactly once, and with them frame `n` exactly `n + 1` times, but
      not more often than a window has such rows. */
  lemma UsedThatOftenWhenGone(c: Config, es: seq<Event>, b: nat, n: nat)
    requires c.Valid() && KeepsAll(c, es) && b < |Run(c, es).buffers| && n < Run(c, es).buffers[b].Base()
    ensures Uses(c, es, (b, n)) ==
              if !c.overlappingUpdates then 1 else if n + 1 < c.returnsLength - 1 then n + 1 else c.returnsLength - 1
  {
    UsesAre(c, es, (b, n));
  }

  // ---------------------------------------------------------------------
  // The bound is reached
  // ---------------------------------------------------------------------

  lemma Then(c: Config, es: seq<Event>, e: Event) returns (r: seq<Event>)
    requires c.Valid()
    ensures r == es + [e] && Run(c, r) == Apply(c, Run(c, es), e)
    ensures forall f :: Uses(c, r, f) == Uses(c, es, f) + if UsesNow(c, Run(c, es), e, f) then 1 else 0
  {
    r := es + [e];
    assert r[..|es|] == es;
  }

  /** One game with one buffer. */
  ghost predicate OneGame(s: State, frames: nat, base: nat) {
    && s.fault.None? && s.train && 0 in s.actives && |s.buffers| == 1 && |s.buffers[0].frames| == frames
    && s.buffers[0].pushed == base + frames && s.buffers[0].owner == Some(0)
    && 0 in s.gamesToBuffers && s.gamesToBuffers[0] == 0
  }

  lemma FirstFrame(c: Config) returns (es: seq<Event>)
    requires c.Valid()
    ensures OneGame(Run(c, es), 1, 0) && forall f :: Uses(c, es, f) == 0
  {
    var start := Then(c, [], StartEpisode);
    assert Run(c, start).actives == {0};
    es := Then(c, start, Step(0, 0.0, false));
  }

  lemma NextFrame(c: Config, s: State, frames: nat)
    requires c.Valid() && OneGame(s, frames, 0)
    ensures OneGame(Apply(c, s, Step(0, 0.0, false)), frames + 1, 0)
  {
  }

  lemma {:induction false} ManyFrames(c: Config, n: nat) returns (es: seq<Event>)
    requires c.Valid() && n >= 1
    ensures OneGame(Run(c, es), n, 0) && forall f :: Uses(c, es, f) == 0
  {
    if n == 1 {
      es := FirstFrame(c);
    } else {
      var before := ManyFrames(c, n - 1);
      NextFrame(c, Run(c, before), n - 1);
      hide OneGame, Apply;
      es := Then(c, before, Step(0, 0.0, false));
    }
  }

  /** With a full window the buffer is selected and its second to last row used. */
  lemma OneUse(c: Config, s: State, frames: nat, base: nat)
    requires c.Valid() && Inv(c, s) && OneGame(s, frames, base)
    requires frames >= c.returnsLength && base <= c.returnsLength - 2
    ensures UsesNow(c, s, Update([0]), (0, c.returnsLength - 2))
    ensures Repeats(c) ==> OneGame(Apply(c, s, Update([0])), frames - 1, base + 1)
  {
    assert 0 in s.ready;
    assert Selectable(s, [0]) && LongEnough(c, s, [0]);
    UsedExactly(c, s, Update([0]), (0, c.returnsLength - 2));
    UpdatedBuffer(c, s, [0], 0);
    hide Inv, UsesNow, TrimmedAll, NonFinalRows, Short, Selectable, LongEnough;
  }

  lemma {:induction false} ManyUses(c: Config, k: nat) returns (es: seq<Event>)
    requires c.Valid() && k <= Bound(c)
    ensures Uses(c, es, (0, c.returnsLength - 2)) == k
    ensures Repeats(c) || k == 0 ==> OneGame(Run(c, es), 2 * c.returnsLength - 2 - k, k)
  {
    if k == 0 {
      es := ManyFrames(c, 2 * c.returnsLength - 2);
    } else {
      var before := ManyUses(c, k - 1);
      Reachable(c, before);
      hide Run, Inv;
      OneUse(c, Run(c, before), 2 * c.returnsLength - 1 - k, k - 1);
      hide OneGame, Apply, UsesNow, Uses;
      es := Then(c, before, Update([0]));
    }
  }

  /** The bound is exact: some run uses some frame that often. */
  lemma UsedThatOften(c: Config) returns (es: seq<Event>, f: FrameName)
    requires c.Valid()
    ensures Uses(c, es, f) == Bound(c)
  {
    es := ManyUses(c, Bound(c));
    f := (0, c.returnsLength - 2);
  }
}
