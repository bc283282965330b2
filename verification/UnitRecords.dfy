/**
  What a frame does to the record of a unit (src/unitsinfo.cpp): four loops over the
  shown units, the deaths, the visible and the hidden units come to a table that
  speaks of the unit alone.
 */
module UnitRecords {
  import opened Options
  import opened UnitContainers

  ghost predicate Shown(f: Frame, u: Id) {
    exists i :: 0 <= i < |f.shown| && f.shown[i].0 == u
  }

  // ---------------------------------------------------------------------
  // The four loops
  // ---------------------------------------------------------------------

  /** What being shown leaves alone. */
  ghost predicate SameFate(s: State, t: State, u: Id) {
    u in t.units ==>
      if u in s.units then
        && t.units[u].dead == s.units[u].dead && t.units[u].gone == s.units[u].gone
        && t.units[u].goneFrame == s.units[u].goneFrame
      else !t.units[u].dead && !t.units[u].gone && t.units[u].goneFrame == 0
  }

  lemma NotedFate(at: Perspective, x: Unit, o: Sight, frame: int)
    ensures var y := Noted(at, x, o, frame); y.dead == x.dead && y.gone == x.gone && y.goneFrame == x.goneFrame
  {
  }

  lemma {:induction false} FateStays(at: Perspective, s: State, f: Frame, k: nat, u: Id)
    requires Ok(at, s) && k <= |f.shown|
    ensures SameFate(s, ObserveFirst(at, s, f, k), u)
    ensures u in ObserveFirst(at, s, f, k).units <==> u in s.units || exists i :: 0 <= i < k && f.shown[i].0 == u
    decreases k
  {
    hide Ok, Observe, Noted;
    if k > 0 {
      FateStays(at, s, f, k - 1, u);
      var was := ObserveFirst(at, s, f, k - 1);
      var (v, o) := f.shown[k - 1];
      ObserveUnits(at, was, v, o, f.number);
      NotedFate(at, if v in was.units then was.units[v] else NewUnit, o, f.number);
      assert f.shown[k - 1].0 == v;
    }
  }

  /** What is noted about a unit that is shown as `o`. */
  ghost predicate Reads(at: Perspective, y: Unit, o: Sight, frame: int) {
    && y.kind.Some? && y.kind.value.unit == o.kind.unit && y.playerId == o.playerId && y.flags == o.flags
    && y.visible && y.lastSeen == frame
    && (y.isEnemy <==> o.playerId != at.me && o.playerId != at.neutral) && (y.isNeutral <==> o.playerId == at.neutral)
  }

  lemma NotedReads(at: Perspective, x: Unit, o: Sight, frame: int)
    ensures var y := Noted(at, x, o, frame);
            && Reads(at, y, o, frame)
            && y.kind == if x.kind.Some? && x.kind.value.unit == o.kind.unit then x.kind else Some(o.kind)
  {
  }

  lemma LastShown(at: Perspective, s: State, f: Frame, i: nat, u: Id)
    requires Ok(at, s) && i < |f.shown| && f.shown[i].0 == u && forall j :: i < j < |f.shown| ==> f.shown[j].0 != u
    ensures var t := ObserveFirst(at, s, f, |f.shown|); u in t.units && Reads(at, t.units[u], f.shown[i].1, f.number)
    ensures (forall j :: 0 <= j < i ==> f.shown[j].0 != u) ==>
            ObserveFirst(at, s, f, |f.shown|).units[u].kind ==
            if u in s.units && s.units[u].kind.Some? && s.units[u].kind.value.unit == f.shown[i].1.kind.unit
            then s.units[u].kind else Some(f.shown[i].1.kind)
  {
    hide Ok, Observe, Noted, Reads;
    var was := ObserveFirst(at, s, f, i);
    ObserveUnits(at, was, u, f.shown[i].1, f.number);
    NotedReads(at, if u in was.units then was.units[u] else NewUnit, f.shown[i].1, f.number);
    ShownLater(at, s, f, i + 1, |f.shown|, u);
    if forall j :: 0 <= j < i ==> f.shown[j].0 != u {
      if u in s.units {
        NotShownStays(at, s, f, i, u);
      } else {
        NotShownAbsent(at, s, f, i, u);
      }
    }
  }

  /** A death is noted, and nothing else. */
  ghost predicate Died(x: Unit, y: Unit, died: bool, frame: int) {
    && (y.dead <==> x.dead || died) && y.goneFrame == (if died then frame else x.goneFrame)
    && y.kind == x.kind && y.playerId == x.playerId && y.flags == x.flags && y.visible == x.visible
    && y.lastSeen == x.lastSeen && y.gone == x.gone && y.isEnemy == x.isEnemy && y.isNeutral == x.isNeutral
  }

  lemma KillRecord(at: Perspective, s: State, v: Id, frame: int, u: Id)
    requires Ok(at, s) && u in s.units
    ensures u in Kill(at, s, v, frame).units && Died(s.units[u], Kill(at, s, v, frame).units[u], u == v, frame)
  {
    hide Ok, Regrouped;
  }

  lemma {:induction false} KillFirstRecord(at: Perspective, s: State, f: Frame, k: nat, u: Id)
    requires Ok(at, s) && u in s.units && k <= |f.deaths|
    ensures var r := KillFirst(at, s, f, k);
            u in r.units && Died(s.units[u], r.units[u], u in f.deaths[..k], f.number)
    decreases k
  {
    hide Ok, Kill;
    if k > 0 {
      KillFirstRecord(at, s, f, k - 1, u);
      KillRecord(at, KillFirst(at, s, f, k - 1), f.deaths[k - 1], f.number, u);
      assert f.deaths[..k] == f.deaths[..k - 1] + [f.deaths[k - 1]];
    }
  }

  /** The loop over visible units: a live unit in sight is not gone, and one that was
      not seen in this frame is out of sight. */
  ghost predicate Hidden(x: Unit, y: Unit, frame: int) {
    && (y.gone <==> x.gone && (x.dead || !x.visible))
    && (y.visible <==> x.visible && (x.dead || x.lastSeen == frame))
    && y.dead == x.dead && y.kind == x.kind && y.playerId == x.playerId && y.flags == x.flags
    && y.lastSeen == x.lastSeen && y.goneFrame == x.goneFrame && y.isEnemy == x.isEnemy && y.isNeutral == x.isNeutral
  }

  lemma HideRecord(at: Perspective, s: State, frame: int, u: Id)
    requires Exact(at, s) && u in s.units
    ensures Hidden(s.units[u], HideUnseen(at, s, frame).units[u], frame)
  {
    hide Ok, Agrees, HideUnseen;
    HideUnseenUnit(at, s, frame, u);
  }

  /** The loop over hidden units: its clock starts anew after 40 frames, and strikes
      after 20. */
  ghost predicate Vanished(x: Unit, y: Unit, looked: bool, frame: int) {
    && (y.gone <==> x.gone || (looked && 20 <= frame - x.goneFrame < 40))
    && y.goneFrame == (if looked && !x.gone && frame - x.goneFrame >= 40 then frame else x.goneFrame)
    && y.dead == x.dead && y.kind == x.kind && y.playerId == x.playerId && y.flags == x.flags && y.visible == x.visible
    && y.lastSeen == x.lastSeen && y.isEnemy == x.isEnemy && y.isNeutral == x.isNeutral
  }

  lemma VanishOneRecord(at: Perspective, s: State, v: Id, f: Frame, u: Id)
    requires Ok(at, s) && v in s.units && u in s.units
    ensures Vanished(s.units[u], Vanish(at, s, v, f).units[u], u == v && u in f.scouted, f.number)
  {
    hide Ok, Regrouped;
  }

  lemma {:induction false} VanishFirstRecord(at: Perspective, s: State, list: seq<Id>, k: nat, f: Frame, u: Id)
    requires Ok(at, s) && k <= |list| && (forall v :: v in list ==> v in s.units) && u in s.units && Distinct(list)
    ensures Vanished(s.units[u], VanishFirst(at, s, list, k, f).units[u], u in list[..k] && u in f.scouted, f.number)
    decreases k
  {
    hide Ok, Vanish;
    if k > 0 {
      VanishFirstRecord(at, s, list, k - 1, f, u);
      assert list[k - 1] in list;
      VanishOneRecord(at, VanishFirst(at, s, list, k - 1, f), list[k - 1], f, u);
      assert list[..k] == list[..k - 1] + [list[k - 1]];
    }
  }

  lemma VanishRecord(at: Perspective, s: State, f: Frame, u: Id)
    requires Exact(at, s) && u in s.units
    ensures var x, r := s.units[u], VanishAll(at, s, f);
            u in r.units && Vanished(x, r.units[u], !x.dead && !x.visible && u in f.scouted, f.number)
  {
    hide Known, LinkedAt, VanishFirst, Vanished;
    var list := s.groups.lists[HIDDEN];
    LinkedMeans(s.groups, HIDDEN);
    assert Agrees(at, s, u);
    assert list[..|list|] == list;
    VanishFirstRecord(at, s, list, |list|, f, u);
  }

  // ---------------------------------------------------------------------
  // One frame
  // ---------------------------------------------------------------------

  /** The records that a frame passes through. */
  lemma ThroughFrame(at: Perspective, s: State, f: Frame, u: Id) returns (x: Unit, k: Unit, h: Unit)
    requires Exact(at, s) && u in ObserveFirst(at, s, f, |f.shown|).units
    ensures x == ObserveFirst(at, s, f, |f.shown|).units[u] && u in NextFrame(at, s, f).units
    ensures Died(x, k, u in f.deaths, f.number) && Hidden(k, h, f.number)
    ensures Vanished(h, NextFrame(at, s, f).units[u], !h.dead && !h.visible && u in f.scouted, f.number)
  {
    hide Ok, Agrees, ObserveFirst, KillFirst, HideUnseen, VanishAll, Died, Hidden, Vanished;
    ObserveFirstKeeps(at, s, f, |f.shown|);
    var t := ObserveFirst(at, s, f, |f.shown|);
    KillFirstKeeps(at, t, f, |f.deaths|);
    KillFirstRecord(at, t, f, |f.deaths|, u);
    assert f.deaths[..|f.deaths|] == f.deaths;
    var d := KillFirst(at, t, f, |f.deaths|);
    HideUnseenKeeps(at, d, f.number);
    HideRecord(at, d, f.number, u);
    VanishRecord(at, HideUnseen(at, d, f.number), f, u);
    x, k, h := t.units[u], d.units[u], HideUnseen(at, d, f.number).units[u];
  }

  lemma FrameKnows(at: Perspective, s: State, f: Frame, u: Id)
    requires Exact(at, s)
    ensures u in NextFrame(at, s, f).units <==> u in s.units || Shown(f, u)
  {
    hide Ok, Agrees, NextFrame, ObserveFirst;
    FrameKeepsUnits(at, s, f);
    FateStays(at, s, f, |f.shown|, u);
  }

  /** Death over a frame: a unit is dead afterwards exactly if it was, or if the frame
      tells of its death. */
  lemma DeathExactly(at: Perspective, s: State, f: Frame, u: Id)
    requires Exact(at, s) && (u in s.units || Shown(f, u))
    ensures var r := NextFrame(at, s, f);
            u in r.units && (r.units[u].dead <==> (u in s.units && s.units[u].dead) || u in f.deaths)
  {
    hide Ok, Agrees, NextFrame, ObserveFirst;
    FateStays(at, s, f, |f.shown|, u);
    var x, k, h := ThroughFrame(at, s, f, u);
  }

  /** A unit that is shown: the record says what the frame says, and the unit is in
      sight and not gone, unless it is dead. */
  lemma ShownRecord(at: Perspective, s: State, f: Frame, i: nat, u: Id)
    requires Exact(at, s) && i < |f.shown| && f.shown[i].0 == u && forall j :: i < j < |f.shown| ==> f.shown[j].0 != u
    ensures var r, o := NextFrame(at, s, f), f.shown[i].1;
            && u in r.units && r.units[u].playerId == o.playerId && r.units[u].flags == o.flags
            && r.units[u].kind.Some? && r.units[u].kind.value.unit == o.kind.unit
            && (r.units[u].isEnemy <==> o.playerId != at.me && o.playerId != at.neutral)
            && (r.units[u].isNeutral <==> o.playerId == at.neutral)
            && r.units[u].visible && r.units[u].lastSeen == f.number && (r.units[u].gone ==> r.units[u].dead)
    ensures (forall j :: 0 <= j < i ==> f.shown[j].0 != u) ==>
            NextFrame(at, s, f).units[u].kind ==
            if u in s.units && s.units[u].kind.Some? && s.units[u].kind.value.unit == f.shown[i].1.kind.unit
            then s.units[u].kind else Some(f.shown[i].1.kind)
  {
    hide Ok, Agrees, NextFrame, ObserveFirst;
    LastShown(at, s, f, i, u);
    var x, k, h := ThroughFrame(at, s, f, u);
  }

  /** A unit that is not shown keeps what was noted about it; it is out of sight, unless
      it is dead, and counts as gone by the clock of `goneFrame`. */
  lemma UnshownRecord(at: Perspective, s: State, f: Frame, u: Id)
    requires Exact(at, s) && u in s.units && !Shown(f, u)
    ensures var x, r := s.units[u], NextFrame(at, s, f);
            u in r.units && var y := r.units[u];
            && y.kind == x.kind && y.playerId == x.playerId && y.flags == x.flags && y.lastSeen == x.lastSeen
            && y.isEnemy == x.isEnemy && y.isNeutral == x.isNeutral
            && (y.visible <==> x.visible && (y.dead || x.lastSeen == f.number))
            && var wasGone, clock := x.gone && (y.dead || !x.visible), if u in f.deaths then f.number else x.goneFrame;
               var looked := !y.dead && !y.visible && u in f.scouted;
               && (y.gone <==> wasGone || (looked && 20 <= f.number - clock < 40))
               && y.goneFrame == if looked && !wasGone && f.number - clock >= 40 then f.number else clock
  {
    hide Ok, Agrees, NextFrame, ObserveFirst;
    NotShownStays(at, s, f, |f.shown|, u);
    var x, k, h := ThroughFrame(at, s, f, u);
  }

  // ---------------------------------------------------------------------
  // All frames
  // ---------------------------------------------------------------------

  /** The unit was shown in one of the first `n` frames. */
  ghost predicate Seen(fs: seq<Frame>, n: nat, u: Id)
    requires n <= |fs|
  {
    exists m :: 0 <= m < n && Shown(fs[m], u)
  }

  /** A frame tells of its death, and the unit is known by then. */
  ghost predicate Told(fs: seq<Frame>, u: Id) {
    exists n :: 0 <= n < |fs| && u in fs[n].deaths && Seen(fs, n + 1, u)
  }

  /** In every run the units known are those that were shown, and of them those are dead
      of whose death a frame told, in or after the frame that first showed the unit. */
  lemma {:induction false} DeadExactly(at: Perspective, fs: seq<Frame>, u: Id)
    ensures u in Run(at, fs).units <==> Seen(fs, |fs|, u)
    ensures u in Run(at, fs).units ==> (Run(at, fs).units[u].dead <==> Told(fs, u))
    decreases |fs|
  {
    if fs != [] {
      var before, f := fs[..|fs| - 1], fs[|fs| - 1];
      DeadExactly(at, before, u);
      Reachable(at, before);
      var s := Run(at, before);
      assert Run(at, fs) == NextFrame(at, s, f);
      hide Run, NextFrame, Exact, Shown;
      FrameKnows(at, s, f, u);
      SeenMore(fs, u);
      ToldMore(fs, u);
      if u in s.units || Shown(f, u) {
        DeathExactly(at, s, f, u);
      }
    }
  }

  lemma SeenMore(fs: seq<Frame>, u: Id)
    requires fs != []
    ensures Seen(fs, |fs|, u) <==> Seen(fs[..|fs| - 1], |fs| - 1, u) || Shown(fs[|fs| - 1], u)
  {
    hide Shown;
    var before := fs[..|fs| - 1];
    if Seen(before, |before|, u) {
      var m :| 0 <= m < |before| && Shown(before[m], u);
      assert fs[m] == before[m];
    }
    if Seen(fs, |fs|, u) && !Shown(fs[|fs| - 1], u) {
      var m :| 0 <= m < |fs| && Shown(fs[m], u);
      assert before[m] == fs[m];
    }
  }

  lemma SeenPrefix(fs: seq<Frame>, n: nat, u: Id)
    requires fs != [] && n <= |fs| - 1
    ensures Seen(fs, n, u) <==> Seen(fs[..|fs| - 1], n, u)
  {
    hide Shown;
    var before := fs[..|fs| - 1];
    forall m | 0 <= m < n ensures fs[m] == before[m] {
    }
  }

  lemma ToldMore(fs: seq<Frame>, u: Id)
    requires fs != []
    ensures Told(fs, u) <==> Told(fs[..|fs| - 1], u) || (u in fs[|fs| - 1].deaths && Seen(fs, |fs|, u))
  {
    hide Seen;
    var before := fs[..|fs| - 1];
    forall n | 0 <= n < |before| ensures fs[n] == before[n] && (Seen(fs, n + 1, u) <==> Seen(before, n + 1, u)) {
      SeenPrefix(fs, n + 1, u);
    }
    if Told(before, u) {
      var n :| 0 <= n < |before| && u in before[n].deaths && Seen(before, n + 1, u);
      assert u in fs[n].deaths && Seen(fs, n + 1, u);
    }
    if u in fs[|fs| - 1].deaths && Seen(fs, |fs|, u) {
      assert u in fs[|fs| - 1].deaths && Seen(fs, |fs| - 1 + 1, u);
    }
  }

  lemma DeadMineStep(at: Perspective, s: State, f: Frame, u: Id)
    requires Exact(at, s) && (u in s.units && s.units[u].dead ==> MineAgrees(at, s, u))
    requires u in NextFrame(at, s, f).units && NextFrame(at, s, f).units[u].dead
    ensures MineAgrees(at, NextFrame(at, s, f), u)
  {
    hide Ok, Agrees, MineAgrees, ObserveFirst, KillFirst, HideUnseen, VanishAll;
    FrameKeepsUnits(at, s, f);
    FateStays(at, s, f, |f.shown|, u);
    var x, k, h := ThroughFrame(at, s, f, u);
    ObserveFirstKeeps(at, s, f, |f.shown|);
    var t := ObserveFirst(at, s, f, |f.shown|);
    if u in s.units && s.units[u].dead {
      ObserveDeadMine(at, s, f, |f.shown|, u);
    }
    KillFirstKeeps(at, t, f, |f.deaths|);
    KillFirstMine(at, t, f, |f.deaths|, u);
    assert f.deaths[..|f.deaths|] == f.deaths;
    var d := KillFirst(at, t, f, |f.deaths|);
    HideUnseenKeeps(at, d, f.number);
    HideMine(at, d, f.number, u);
    VanishAllMine(at, HideUnseen(at, d, f.number), f, u);
  }

  lemma {:induction false} ObserveDeadMine(at: Perspective, s: State, f: Frame, k: nat, u: Id)
    requires Ok(at, s) && k <= |f.shown| && u in s.units && s.units[u].dead && MineAgrees(at, s, u)
    ensures var t := ObserveFirst(at, s, f, k); u in t.units && t.units[u].dead && MineAgrees(at, t, u)
    decreases k
  {
    hide Ok, Observe, MineAgrees, Changed, Noted;
    if k > 0 {
      ObserveDeadMine(at, s, f, k - 1, u);
      var was := ObserveFirst(at, s, f, k - 1);
      var (v, o) := f.shown[k - 1];
      if v == u {
        MineExactly(at, was, u, o, f.number);
        ObserveUnits(at, was, u, o, f.number);
        NotedFate(at, was.units[u], o, f.number);
      } else {
        ObserveMineOther(at, was, v, o, f.number, u);
      }
    }
  }

  lemma {:induction false} DeadMine(at: Perspective, fs: seq<Frame>, u: Id)
    requires u in Run(at, fs).units && Run(at, fs).units[u].dead
    ensures MineAgrees(at, Run(at, fs), u)
    decreases |fs|
  {
    if fs != [] {
      var before, f := fs[..|fs| - 1], fs[|fs| - 1];
      var s := Run(at, before);
      assert Run(at, fs) == NextFrame(at, s, f);
      if u in s.units && s.units[u].dead {
        DeadMine(at, before, u);
      }
      Reachable(at, before);
      hide Run, NextFrame, Exact, MineAgrees;
      DeadMineStep(at, s, f, u);
    }
  }

  /** A dead unit is among all units ever, and in no other group. */
  lemma DeadIsInNoGroup(at: Perspective, fs: seq<Frame>, u: Id, c: nat)
    requires u in Run(at, fs).units && Run(at, fs).units[u].dead && c < COUNT
    ensures u in Run(at, fs).groups.lists[c] <==> c == ALL
  {
    var s := Run(at, fs);
    Reachable(at, fs);
    BelongsTable(at, s.units[u]);
    DeadMine(at, fs, u);
    LinkedMeans(s.groups, c);
    hide Run, Known, LinkedAt;
    assert Agrees(at, s, u);
  }
}
