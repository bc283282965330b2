/**
  The unit groups of the bot (src/unitsinfo.cpp): every unit ever seen is kept in
  a map, and a dozen vectors of units are kept up to date by swap-removal, with
  the position of a unit in each vector stored in the unit.
 */
module UnitContainers {
  import opened Options

  type Id = int

  /** The attributes of a build type that the groups depend on. */
  datatype Type = Type(unit: int, isBuilding: bool, isResourceContainer: bool, isWorker: bool, isResourceDepot: bool)

  datatype Flag =
    Completed | Morphing | Powered | BeingConstructed | Loaded | LockedDown | Maelstrommed | Stasised | Stuck

  /** What the groups depend on in a unit. */
  datatype Unit = Unit(
    kind: Option<Type>,
    playerId: int,
    visible: bool,
    dead: bool,
    gone: bool,
    lastSeen: int,
    goneFrame: int,
    isEnemy: bool,
    isNeutral: bool,
    flags: set<Flag>)
  {
    predicate Active() {
      !dead && Completed in flags && Powered in flags
      && flags !! {BeingConstructed, Loaded, LockedDown, Maelstrommed, Stasised, Stuck}
    }
  }

  const NewUnit := Unit(None, -1, false, false, false, 0, 0, false, false, {})

  /** What the game tells about a unit it shows. */
  datatype Sight = Sight(kind: Type, playerId: int, flags: set<Flag>)

  /** One frame: the units shown, the deaths, and the units whose last tile is in
      view, or off the map. */
  datatype Frame = Frame(number: int, shown: seq<(Id, Sight)>, deaths: seq<Id>, scouted: set<Id>)

  datatype Perspective = Perspective(me: int, neutral: int)

  const ALL := 0
  const LIVE := 1
  const VISIBLE := 2
  const HIDDEN := 3
  const VISIBLE_BUILDINGS := 4
  const RESOURCES := 5
  const MINE := 6
  const MY_WORKERS := 7
  const MY_BUILDINGS := 8
  const MY_DEPOTS := 9
  const ENEMIES := 10
  const VISIBLE_ENEMIES := 11
  const NEUTRAL := 12
  const COUNT := 13

  /** The position of a unit in a group it does not belong to. */
  const INVALID := -1

  /** Which units a group is for. */
  predicate Belongs(at: Perspective, c: nat, u: Unit)
    requires u.kind.Some?
  {
    if c == ALL then true
    else if c == LIVE then !u.dead
    else if c == VISIBLE then !u.dead && u.visible
    else if c == HIDDEN then !u.dead && !u.visible
    else if c == VISIBLE_BUILDINGS then !u.dead && u.visible && u.kind.value.isBuilding
    else if c == RESOURCES then !u.dead && !u.gone && u.kind.value.isResourceContainer
    else if c == MINE then !u.dead && u.visible && u.playerId == at.me && Powered in u.flags
    else if c == MY_WORKERS then
      !u.dead && u.visible && u.playerId == at.me && u.kind.value.isWorker && Completed in u.flags
    else if c == MY_BUILDINGS then !u.dead && u.visible && u.playerId == at.me && u.kind.value.isBuilding
    else if c == MY_DEPOTS then !u.dead && u.visible && u.playerId == at.me && u.kind.value.isResourceDepot
    else if c == ENEMIES then !u.dead && u.isEnemy
    else if c == VISIBLE_ENEMIES then !u.dead && u.visible && u.isEnemy
    else !u.dead && u.isNeutral
  }

  // ---------------------------------------------------------------------
  // Vectors with back indices
  // ---------------------------------------------------------------------

  datatype Groups = Groups(lists: seq<seq<Id>>, index: map<Id, seq<int>>)

  ghost predicate Shaped(g: Groups) {
    |g.lists| == COUNT && forall u :: u in g.index ==> |g.index[u]| == COUNT
  }

  /** Positions and back indices of one group are inverse to each other. */
  ghost predicate LinkedAt(g: Groups, c: nat)
    requires Shaped(g) && c < COUNT
  {
    && (forall p :: 0 <= p < |g.lists[c]| ==> var u := g.lists[c][p]; u in g.index && g.index[u][c] == p)
    && (forall u :: u in g.index ==>
          g.index[u][c] == INVALID || (0 <= g.index[u][c] < |g.lists[c]| && g.lists[c][g.index[u][c]] == u))
  }

  ghost predicate Linked(g: Groups) {
    Shaped(g) && forall c :: 0 <= c < COUNT ==> LinkedAt(g, c)
  }

  ghost predicate Member(g: Groups, u: Id, c: nat)
    requires Shaped(g) && c < COUNT
  {
    u in g.index && g.index[u][c] != INVALID
  }

  ghost predicate Distinct(l: seq<Id>) {
    forall p, q :: 0 <= p < q < |l| ==> l[p] != l[q]
  }

  /** The back index is set exactly for the units in the vector, and the vector
      holds no unit twice. */
  lemma LinkedMeans(g: Groups, c: nat)
    requires Linked(g) && c < COUNT
    ensures forall u :: u in g.lists[c] <==> Member(g, u, c)
    ensures Distinct(g.lists[c])
  {
    assert LinkedAt(g, c);
    forall u ensures u in g.lists[c] <==> Member(g, u, c) {
      if Member(g, u, c) {
        assert g.lists[c][g.index[u][c]] == u;
      }
    }
  }

  /** Puts `u` into a group, or takes it out by moving the last unit to its place. */
  function Put(g: Groups, u: Id, c: nat, contain: bool): (r: Groups)
    requires Linked(g) && u in g.index && c < COUNT
  {
    assert LinkedAt(g, c);
    var i, l := g.index[u][c], g.lists[c];
    if contain == (i != INVALID) then g
    else if contain then Groups(g.lists[c := l + [u]], g.index[u := g.index[u][c := |l|]])
    else
      var last := l[|l| - 1];
      var index := g.index[last := g.index[last][c := i]];
      Groups(g.lists[c := l[i := last][..|l| - 1]], index[u := index[u][c := INVALID]])
  }

  lemma PutHere(g: Groups, u: Id, c: nat, contain: bool)
    requires Linked(g) && u in g.index && c < COUNT
    ensures var g' := Put(g, u, c, contain);
            && Shaped(g') && LinkedAt(g', c) && g'.index.Keys == g.index.Keys
            && (Member(g', u, c) <==> contain)
            && (forall v :: v != u ==> (Member(g', v, c) <==> Member(g, v, c)))
  {
    assert LinkedAt(g, c);
  }

  lemma PutElsewhere(g: Groups, u: Id, c: nat, contain: bool, d: nat)
    requires Linked(g) && u in g.index && c < COUNT && d < COUNT && d != c
    ensures var g' := Put(g, u, c, contain);
            && Shaped(g') && LinkedAt(g', d) && g'.lists[d] == g.lists[d]
            && (forall v :: Member(g', v, d) <==> Member(g, v, d))
  {
    assert LinkedAt(g, d) && LinkedAt(g, c);
  }

  /** Every group stays a bijection between positions and back indices, and only
      the membership of `u` in `c` is decided. */
  lemma PutKeeps(g: Groups, u: Id, c: nat, contain: bool)
    requires Linked(g) && u in g.index && c < COUNT
    ensures var g' := Put(g, u, c, contain);
            && Linked(g') && g'.index.Keys == g.index.Keys
            && (forall d :: 0 <= d < COUNT && d != c ==> g'.lists[d] == g.lists[d])
            && (forall v, d :: 0 <= d < COUNT ==>
                  (Member(g', v, d) <==> if v == u && d == c then contain else Member(g, v, d)))
  {
    var g' := Put(g, u, c, contain);
    PutHere(g, u, c, contain);
    forall d | 0 <= d < COUNT && d != c
      ensures LinkedAt(g', d) && g'.lists[d] == g.lists[d] && (forall v :: Member(g', v, d) <==> Member(g, v, d))
    {
      PutElsewhere(g, u, c, contain, d);
    }
    hide Put, LinkedAt;
  }

  lemma PutNothing(g: Groups, u: Id, c: nat, contain: bool)
    requires Linked(g) && u in g.index && c < COUNT && (Member(g, u, c) <==> contain)
    ensures Put(g, u, c, contain) == g
  {
  }

  /** The first `k` groups, decided anew for `u`. */
  function Regrouped(at: Perspective, g: Groups, u: Id, x: Unit, k: nat): (r: Groups)
    requires Linked(g) && u in g.index && x.kind.Some? && k <= COUNT
    ensures Linked(r) && r.index.Keys == g.index.Keys
  {
    if k == 0 then g
    else
      var r := Regrouped(at, g, u, x, k - 1);
      PutKeeps(r, u, k - 1, Belongs(at, k - 1, x));
      Put(r, u, k - 1, Belongs(at, k - 1, x))
  }

  /** Afterwards `u` is exactly in the groups it belongs to, and nothing else moved. */
  lemma {:induction false} RegroupedIs(at: Perspective, g: Groups, u: Id, x: Unit, k: nat, v: Id, d: nat)
    requires Linked(g) && u in g.index && x.kind.Some? && k <= COUNT && d < COUNT
    ensures Member(Regrouped(at, g, u, x, k), v, d) <==>
            if v == u && d < k then Belongs(at, d, x) else Member(g, v, d)
    decreases k
  {
    hide Put, LinkedAt, Belongs;
    if k > 0 {
      RegroupedIs(at, g, u, x, k - 1, v, d);
      PutKeeps(Regrouped(at, g, u, x, k - 1), u, k - 1, Belongs(at, k - 1, x));
    }
  }

  /** A group that already is right about `u` keeps its vector as it is. */
  lemma {:induction false} RightListsStay(at: Perspective, g: Groups, u: Id, x: Unit, k: nat, d: nat)
    requires Linked(g) && u in g.index && x.kind.Some? && k <= COUNT && d < COUNT
    requires Member(g, u, d) <==> Belongs(at, d, x)
    ensures Regrouped(at, g, u, x, k).lists[d] == g.lists[d]
    decreases k
  {
    hide Put, LinkedAt, Belongs;
    if k > 0 {
      RightListsStay(at, g, u, x, k - 1, d);
      var r := Regrouped(at, g, u, x, k - 1);
      RegroupedIs(at, g, u, x, k - 1, u, d);
      if d == k - 1 {
        PutNothing(r, u, d, Belongs(at, d, x));
      } else {
        PutKeeps(r, u, k - 1, Belongs(at, k - 1, x));
      }
    }
  }

  // ---------------------------------------------------------------------
  // One frame
  // ---------------------------------------------------------------------

  datatype State = State(units: map<Id, Unit>, groups: Groups)

  function Start(): State {
    State(map[], Groups([[], [], [], [], [], [], [], [], [], [], [], [], []], map[]))
  }

  ghost predicate Known(at: Perspective, x: Unit) {
    && x.kind.Some?
    && x.isEnemy == (x.playerId != at.me && x.playerId != at.neutral)
    && x.isNeutral == (x.playerId == at.neutral)
  }

  ghost predicate Ok(at: Perspective, s: State) {
    && Linked(s.groups) && s.groups.index.Keys == s.units.Keys
    && forall u :: u in s.units ==> Known(at, s.units[u])
  }

  /** The groups are right about `u`; the powered units of the player are apart. */
  ghost predicate Agrees(at: Perspective, s: State, u: Id)
    requires Ok(at, s) && u in s.units
  {
    forall c :: 0 <= c < COUNT && c != MINE ==> (Member(s.groups, u, c) <==> Belongs(at, c, s.units[u]))
  }

  ghost predicate MineAgrees(at: Perspective, s: State, u: Id)
    requires Ok(at, s) && u in s.units
  {
    Member(s.groups, u, MINE) <==> Belongs(at, MINE, s.units[u])
  }

  ghost predicate Exact(at: Perspective, s: State) {
    Ok(at, s) && forall u :: u in s.units ==> Agrees(at, s, u)
  }

  function Regroup(at: Perspective, s: State, u: Id): (r: State)
    requires Ok(at, s) && u in s.units
    ensures Ok(at, r) && r.units == s.units
  {
    s.(groups := Regrouped(at, s.groups, u, s.units[u], COUNT))
  }

  lemma RegroupAgrees(at: Perspective, s: State, u: Id)
    requires Ok(at, s) && u in s.units
    ensures var r := Regroup(at, s, u);
            && Agrees(at, r, u) && MineAgrees(at, r, u)
            && forall v :: v in s.units && v != u ==>
                 (Agrees(at, r, v) <==> Agrees(at, s, v)) && (MineAgrees(at, r, v) <==> MineAgrees(at, s, v))
  {
    hide Belongs, Regrouped, LinkedAt;
    var r := Regroup(at, s, u);
    forall v, c | v in s.units && 0 <= c < COUNT
      ensures Member(r.groups, v, c) <==> if v == u then Belongs(at, c, s.units[u]) else Member(s.groups, v, c)
    {
      RegroupedIs(at, s.groups, u, s.units[u], COUNT, v, c);
    }
  }

  /** What the bot notes about a unit it is shown. */
  function Noted(at: Perspective, x: Unit, o: Sight, frame: int): (y: Unit)
    ensures Known(at, y) && y.visible && y.lastSeen == frame && y.dead == x.dead && y.gone == x.gone
  {
    x.(kind := if x.kind.Some? && x.kind.value.unit == o.kind.unit then x.kind else Some(o.kind),
       playerId := o.playerId, visible := true, lastSeen := frame, flags := o.flags,
       isEnemy := o.playerId != at.me && o.playerId != at.neutral, isNeutral := o.playerId == at.neutral)
  }

  /** The changes that make the bot regroup a unit it is shown. */
  predicate Changed(x: Unit, y: Unit) {
    || x.kind.None? || !x.visible
    || (Morphing in y.flags && (Morphing !in x.flags || y.kind != x.kind))
    || y.kind != x.kind
    || (Completed in y.flags) != (Completed in x.flags) || (Morphing in y.flags) != (Morphing in x.flags)
    || y.Active() != x.Active() || y.playerId != x.playerId
  }

  /** A change not on that list leaves every group right, but for one. */
  lemma UnchangedBelongs(at: Perspective, x: Unit, o: Sight, frame: int, c: nat)
    requires Known(at, x) && c < COUNT && c != MINE && !Changed(x, Noted(at, x, o, frame))
    ensures Belongs(at, c, Noted(at, x, o, frame)) == Belongs(at, c, x)
  {
  }

  /** A unit's record, if need be a new one. */
  function Entered(s: State, u: Id): (r: State)
    ensures u in r.units && r.units == if u in s.units then s.units else s.units[u := NewUnit]
  {
    if u in s.units then s
    else State(s.units[u := NewUnit], s.groups.(index := s.groups.index[u := seq(COUNT, _ => INVALID)]))
  }

  lemma EnteredKeeps(at: Perspective, s: State, u: Id)
    requires Ok(at, s)
    ensures var g := Entered(s, u).groups;
            && Linked(g) && g.lists == s.groups.lists && g.index.Keys == s.units.Keys + {u}
            && forall v, c :: v in s.units && 0 <= c < COUNT ==> (Member(g, v, c) <==> Member(s.groups, v, c))
  {
    hide Known;
    var g := Entered(s, u).groups;
    forall c | 0 <= c < COUNT ensures LinkedAt(g, c) {
      assert LinkedAt(s.groups, c);
    }
  }

  /** The record of `u` is replaced; its groups are not looked at. */
  function Written(at: Perspective, s: State, u: Id, y: Unit): (r: State)
    requires Linked(s.groups) && s.groups.index.Keys == s.units.Keys + {u} && Known(at, y)
    requires forall v :: v in s.units && v != u ==> Known(at, s.units[v])
    ensures Ok(at, r) && r.groups == s.groups && r.units == s.units[u := y]
  {
    s.(units := s.units[u := y])
  }

  lemma WrittenAgrees(at: Perspective, s: State, u: Id, y: Unit, v: Id)
    requires Ok(at, s) && u in s.units && Known(at, y) && v in s.units && v != u && Agrees(at, s, v)
    ensures Agrees(at, Written(at, s, u, y), v)
  {
    hide Belongs, LinkedAt, Known;
  }

  function Observe(at: Perspective, s: State, u: Id, o: Sight, frame: int): (r: State)
    requires Ok(at, s)
    ensures Ok(at, r)
  {
    var e := Entered(s, u);
    EnteredKeeps(at, s, u);
    var y := Noted(at, e.units[u], o, frame);
    var w := Written(at, e, u, y);
    if Changed(e.units[u], y) then Regroup(at, w, u) else w
  }

  lemma ObserveUnits(at: Perspective, s: State, u: Id, o: Sight, frame: int)
    requires Ok(at, s)
    ensures var x := if u in s.units then s.units[u] else NewUnit;
            Observe(at, s, u, o, frame).units == s.units[u := Noted(at, x, o, frame)]
  {
    hide Ok, Regrouped, Noted, Changed, Linked;
  }

  lemma ObserveKeeps(at: Perspective, s: State, u: Id, o: Sight, frame: int)
    requires Exact(at, s)
    ensures Exact(at, Observe(at, s, u, o, frame))
  {
    hide Regrouped, LinkedAt, Noted, Changed, Belongs;
    var e := Entered(s, u);
    EnteredKeeps(at, s, u);
    var y := Noted(at, e.units[u], o, frame);
    var w := Written(at, e, u, y);
    forall v | v in w.units && v != u ensures Agrees(at, w, v) {
      assert Agrees(at, s, v);
    }
    if Changed(e.units[u], y) {
      RegroupAgrees(at, w, u);
    } else {
      NotNew(e.units[u], y);
      assert u in s.units && Agrees(at, s, u);
      forall c | 0 <= c < COUNT && c != MINE ensures Member(w.groups, u, c) <==> Belongs(at, c, y) {
        UnchangedBelongs(at, s.units[u], o, frame, c);
      }
    }
  }

  lemma NotNew(x: Unit, y: Unit)
    requires !Changed(x, y)
    ensures x != NewUnit
  {
  }

  /** The player's powered units: an observation leaves that group right exactly
      if the unit is regrouped, or its power did not change, or it is not a live
      unit of the player. */
  lemma MineExactly(at: Perspective, s: State, u: Id, o: Sight, frame: int)
    requires Ok(at, s) && u in s.units && MineAgrees(at, s, u)
    ensures var x, r := s.units[u], Observe(at, s, u, o, frame);
            u in r.units && (MineAgrees(at, r, u) <==>
            || Changed(x, Noted(at, x, o, frame)) || x.dead || o.playerId != at.me
            || (Powered in o.flags <==> Powered in x.flags))
  {
    hide Regrouped, LinkedAt;
    var y := Noted(at, s.units[u], o, frame);
    var w := Written(at, s, u, y);
    if Changed(s.units[u], y) {
      RegroupAgrees(at, w, u);
    }
  }

  /** It does go wrong: a unit of the player that is under construction loses its
      power, and stays among the powered units. */
  lemma MineGoesStale()
    ensures var at, o := Perspective(0, 1), Sight(Type(0, true, false, false, false), 0, {Powered});
            && Ok(at, Start())
            && var s := Observe(at, Start(), 7, o, 1);
               && 7 in s.units && MineAgrees(at, s, 7)
               && var r := Observe(at, s, 7, o.(flags := {}), 2);
                  7 in r.units && !MineAgrees(at, r, 7)
  {
    hide Ok, Observe, Regrouped, Start, MineAgrees;
    var at, o := Perspective(0, 1), Sight(Type(0, true, false, false, false), 0, {Powered});
    StartOk(at);
    FirstSight(at, Start(), 7, o, 1);
    MineExactly(at, Observe(at, Start(), 7, o, 1), 7, o.(flags := {}), 2);
  }

  lemma StartOk(at: Perspective)
    ensures Ok(at, Start()) && Start().units == map[]
  {
  }

  /** A unit is regrouped when it is seen for the first time. */
  lemma FirstSight(at: Perspective, s: State, u: Id, o: Sight, frame: int)
    requires Ok(at, s) && u !in s.units
    ensures var r := Observe(at, s, u, o, frame);
            u in r.units && r.units[u] == Noted(at, NewUnit, o, frame) && Agrees(at, r, u) && MineAgrees(at, r, u)
  {
    hide Known, LinkedAt, Regrouped, Noted, Agrees, MineAgrees;
    EnteredKeeps(at, s, u);
    RegroupAgrees(at, Written(at, Entered(s, u), u, Noted(at, NewUnit, o, frame)), u);
  }

  function Kill(at: Perspective, s: State, u: Id, frame: int): (r: State)
    requires Ok(at, s)
    ensures Ok(at, r)
  {
    if u in s.units then Regroup(at, Written(at, s, u, s.units[u].(dead := true, goneFrame := frame)), u) else s
  }

  lemma KillKeeps(at: Perspective, s: State, u: Id, frame: int)
    requires Exact(at, s)
    ensures Exact(at, Kill(at, s, u, frame))
  {
    hide Regrouped, LinkedAt, Belongs;
    if u in s.units {
      WriteAndRegroup(at, s, u, s.units[u].(dead := true, goneFrame := frame));
    }
  }

  lemma WriteAndRegroup(at: Perspective, s: State, u: Id, y: Unit)
    requires Exact(at, s) && u in s.units && Known(at, y)
    ensures Exact(at, Regroup(at, Written(at, s, u, y), u))
  {
    hide Regrouped, LinkedAt, Belongs, Known, Agrees;
    var w := Written(at, s, u, y);
    forall v | v in s.units && v != u ensures Agrees(at, w, v) {
      WrittenAgrees(at, s, u, y, v);
    }
    RegroupAgrees(at, w, u);
  }

  /** A unit that is no longer seen gets hidden; one that is seen is not gone. */
  function Hide(x: Unit, frame: int): (y: Unit) {
    x.(gone := false, visible := x.visible && x.lastSeen == frame)
  }

  /** The records after the first `k` units of the list were looked at. */
  function HideFirst(at: Perspective, s: State, list: seq<Id>, k: nat, frame: int): (r: State)
    requires Ok(at, s) && k <= |list| && forall u :: u in list ==> u in s.units
    ensures Ok(at, r) && r.groups == s.groups && r.units.Keys == s.units.Keys
  {
    if k == 0 then s
    else
      var r := HideFirst(at, s, list, k - 1, frame);
      var u := list[k - 1];
      assert u in list;
      Written(at, r, u, Hide(r.units[u], frame))
  }

  /** The units to regroup: one that was gone and is not seen is noted twice. */
  function NeedFirst(at: Perspective, s: State, list: seq<Id>, k: nat, frame: int): (need: seq<Id>)
    requires Ok(at, s) && k <= |list| && forall u :: u in list ==> u in s.units
    ensures forall u :: u in need ==> u in s.units
  {
    if k == 0 then []
    else
      var u := list[k - 1];
      assert u in list;
      var x := HideFirst(at, s, list, k - 1, frame).units[u];
      NeedFirst(at, s, list, k - 1, frame)
      + (if x.gone then [u] else [])
      + if x.lastSeen != frame then [u] else []
  }

  lemma {:induction false} HideFirstIs(at: Perspective, s: State, list: seq<Id>, k: nat, frame: int, u: Id)
    requires Ok(at, s) && k <= |list| && (forall v :: v in list ==> v in s.units) && u in s.units
    ensures HideFirst(at, s, list, k, frame).units[u] == if u in list[..k] then Hide(s.units[u], frame) else s.units[u]
    decreases k
  {
    hide Ok;
    if k > 0 {
      HideFirstIs(at, s, list, k - 1, frame, u);
      assert list[..k] == list[..k - 1] + [list[k - 1]];
    }
  }

  lemma {:induction false} NeedFirstIs(at: Perspective, s: State, list: seq<Id>, k: nat, frame: int, u: Id)
    requires Ok(at, s) && k <= |list| && (forall v :: v in list ==> v in s.units) && u in s.units
    ensures u in NeedFirst(at, s, list, k, frame) <==>
            u in list[..k] && (s.units[u].gone || s.units[u].lastSeen != frame)
    decreases k
  {
    hide Ok, HideFirst;
    if k > 0 {
      NeedFirstIs(at, s, list, k - 1, frame, u);
      HideFirstIs(at, s, list, k - 1, frame, u);
      assert list[..k] == list[..k - 1] + [list[k - 1]];
    }
  }

  function RegroupFirst(at: Perspective, s: State, need: seq<Id>, k: nat): (r: State)
    requires Ok(at, s) && k <= |need| && forall u :: u in need ==> u in s.units
    ensures Ok(at, r) && r.units == s.units
  {
    if k == 0 then s
    else
      assert need[k - 1] in need;
      Regroup(at, RegroupFirst(at, s, need, k - 1), need[k - 1])
  }

  lemma {:induction false} RegroupFirstAgrees(at: Perspective, s: State, need: seq<Id>, k: nat, u: Id)
    requires Ok(at, s) && k <= |need| && (forall v :: v in need ==> v in s.units) && u in s.units
    requires u in need[..k] || Agrees(at, s, u)
    ensures Agrees(at, RegroupFirst(at, s, need, k), u)
    decreases k
  {
    hide Ok, Agrees, Regroup;
    if k > 0 {
      var r := RegroupFirst(at, s, need, k - 1);
      assert need[k - 1] in need;
      RegroupAgrees(at, r, need[k - 1]);
      if u != need[k - 1] {
        assert need[..k] == need[..k - 1] + [need[k - 1]];
        RegroupFirstAgrees(at, s, need, k - 1, u);
      }
    }
  }

  /** The visible units are looked at first, then the ones that changed are
      regrouped, so that the list of visible units is not changed under the loop. */
  function HideUnseen(at: Perspective, s: State, frame: int): (r: State)
    requires Ok(at, s)
    ensures Ok(at, r) && r.units.Keys == s.units.Keys
  {
    var list := s.groups.lists[VISIBLE];
    LinkedMeans(s.groups, VISIBLE);
    var need := NeedFirst(at, s, list, |list|, frame);
    RegroupFirst(at, HideFirst(at, s, list, |list|, frame), need, |need|)
  }

  /** A unit in sight was seen in this frame. */
  ghost predicate Settled(s: State, frame: int) {
    forall u :: u in s.units && !s.units[u].dead && s.units[u].visible ==>
      s.units[u].lastSeen == frame && !s.units[u].gone
  }

  lemma HideUnseenUnit(at: Perspective, s: State, frame: int, u: Id)
    requires Exact(at, s) && u in s.units
    ensures var r := HideUnseen(at, s, frame);
            && Agrees(at, r, u)
            && r.units[u] == if !s.units[u].dead && s.units[u].visible then Hide(s.units[u], frame) else s.units[u]
  {
    hide LinkedAt, Known, HideFirst, NeedFirst, RegroupFirst;
    var list := s.groups.lists[VISIBLE];
    LinkedMeans(s.groups, VISIBLE);
    assert Agrees(at, s, u);
    var need := NeedFirst(at, s, list, |list|, frame);
    var h := HideFirst(at, s, list, |list|, frame);
    assert list[..|list|] == list && need[..|need|] == need;
    HideFirstIs(at, s, list, |list|, frame, u);
    NeedFirstIs(at, s, list, |list|, frame, u);
    if u !in need {
      assert h.units[u] == s.units[u];
      SameAgrees(at, s, h, u);
    }
    RegroupFirstAgrees(at, h, need, |need|, u);
  }

  lemma SameAgrees(at: Perspective, s: State, t: State, u: Id)
    requires Ok(at, s) && Ok(at, t) && s.groups == t.groups && u in s.units && u in t.units && s.units[u] == t.units[u]
    requires Agrees(at, s, u)
    ensures Agrees(at, t, u)
  {
  }

  lemma HideUnseenKeeps(at: Perspective, s: State, frame: int)
    requires Exact(at, s)
    ensures Exact(at, HideUnseen(at, s, frame)) && Settled(HideUnseen(at, s, frame), frame)
  {
    hide Agrees, Ok, HideFirst, NeedFirst, RegroupFirst;
    var r := HideUnseen(at, s, frame);
    hide HideUnseen;
    forall u | u in s.units
      ensures Agrees(at, r, u)
      ensures !r.units[u].dead && r.units[u].visible ==> r.units[u].lastSeen == frame && !r.units[u].gone
    {
      HideUnseenUnit(at, s, frame, u);
    }
  }

  /** A hidden unit whose last place is in view: the clock starts, and after
      twenty frames the unit counts as gone. */
  function Vanish(at: Perspective, s: State, u: Id, f: Frame): (r: State)
    requires Ok(at, s) && u in s.units
    ensures Ok(at, r) && r.units.Keys == s.units.Keys
  {
    var x := s.units[u];
    if x.gone || u !in f.scouted then s
    else if f.number - x.goneFrame >= 40 then Written(at, s, u, x.(goneFrame := f.number))
    else if f.number - x.goneFrame >= 20 then Regroup(at, Written(at, s, u, x.(gone := true)), u)
    else s
  }

  ghost predicate SameSight(s: State, r: State) {
    forall u :: u in s.units ==>
      u in r.units && r.units[u].visible == s.units[u].visible && r.units[u].lastSeen == s.units[u].lastSeen
  }

  lemma SameSightTrans(s: State, t: State, r: State)
    requires SameSight(s, t) && SameSight(t, r)
    ensures SameSight(s, r)
  {
  }

  /** The list of hidden units stays as it is. */
  lemma VanishKeeps(at: Perspective, s: State, u: Id, f: Frame)
    requires Exact(at, s) && Settled(s, f.number) && u in s.units && u in s.groups.lists[HIDDEN]
    ensures var r := Vanish(at, s, u, f);
            && Exact(at, r) && Settled(r, f.number) && r.groups.lists[HIDDEN] == s.groups.lists[HIDDEN]
            && SameSight(s, r)
  {
    hide LinkedAt, Regrouped, Agrees;
    HiddenIsHidden(at, s, u);
    var x := s.units[u];
    if !x.gone && u in f.scouted {
      if f.number - x.goneFrame >= 40 {
        LaterGone(at, s, u, f.number);
      } else if f.number - x.goneFrame >= 20 {
        WriteAndRegroup(at, s, u, x.(gone := true));
        var w := Written(at, s, u, x.(gone := true));
        RightListsStay(at, w.groups, u, w.units[u], COUNT, HIDDEN);
      }
    }
  }

  lemma HiddenIsHidden(at: Perspective, s: State, u: Id)
    requires Exact(at, s) && u in s.units && u in s.groups.lists[HIDDEN]
    ensures !s.units[u].visible && !s.units[u].dead && Member(s.groups, u, HIDDEN)
  {
    LinkedMeans(s.groups, HIDDEN);
    assert Agrees(at, s, u);
  }

  lemma GoneFrameApart(at: Perspective, s: State, w: State, u: Id)
    requires Ok(at, s) && Ok(at, w) && u in s.units && u in w.units && w.groups == s.groups && Agrees(at, s, u)
    requires w.units[u] == s.units[u].(goneFrame := w.units[u].goneFrame)
    ensures Agrees(at, w, u)
  {
  }

  lemma LaterGone(at: Perspective, s: State, u: Id, frame: int)
    requires Exact(at, s) && u in s.units
    ensures Exact(at, Written(at, s, u, s.units[u].(goneFrame := frame)))
  {
    hide LinkedAt, Agrees;
    var w := Written(at, s, u, s.units[u].(goneFrame := frame));
    forall v | v in s.units && v != u ensures Agrees(at, w, v) {
      WrittenAgrees(at, s, u, w.units[u], v);
    }
    GoneFrameApart(at, s, w, u);
  }

  /** The hidden units, one after the other. */
  function VanishFirst(at: Perspective, s: State, list: seq<Id>, k: nat, f: Frame): (r: State)
    requires Ok(at, s) && k <= |list| && forall u :: u in list ==> u in s.units
    ensures Ok(at, r) && r.units.Keys == s.units.Keys
  {
    if k == 0 then s
    else
      assert list[k - 1] in list;
      Vanish(at, VanishFirst(at, s, list, k - 1, f), list[k - 1], f)
  }

  /** The list that the loop runs over is the same at every step. */
  lemma {:induction false} VanishFirstKeeps(at: Perspective, s: State, k: nat, f: Frame)
    requires Exact(at, s) && Settled(s, f.number) && k <= |s.groups.lists[HIDDEN]|
    requires forall u :: u in s.groups.lists[HIDDEN] ==> u in s.units
    ensures var r := VanishFirst(at, s, s.groups.lists[HIDDEN], k, f);
            && Exact(at, r) && Settled(r, f.number) && r.groups.lists[HIDDEN] == s.groups.lists[HIDDEN]
            && SameSight(s, r)
    decreases k
  {
    hide Vanish, LinkedAt, Known, Agrees, Settled;
    if k == 0 {
      assert SameSight(s, s);
    } else {
      VanishFirstKeeps(at, s, k - 1, f);
      hide SameSight;
      var list := s.groups.lists[HIDDEN];
      assert list[k - 1] in list;
      var t := VanishFirst(at, s, list, k - 1, f);
      VanishKeeps(at, t, list[k - 1], f);
      SameSightTrans(s, t, Vanish(at, t, list[k - 1], f));
    }
  }

  function ObserveFirst(at: Perspective, s: State, f: Frame, k: nat): (r: State)
    requires Ok(at, s) && k <= |f.shown|
    ensures Ok(at, r)
  {
    if k == 0 then s
    else Observe(at, ObserveFirst(at, s, f, k - 1), f.shown[k - 1].0, f.shown[k - 1].1, f.number)
  }

  function KillFirst(at: Perspective, s: State, f: Frame, k: nat): (r: State)
    requires Ok(at, s) && k <= |f.deaths|
    ensures Ok(at, r)
  {
    if k == 0 then s else Kill(at, KillFirst(at, s, f, k - 1), f.deaths[k - 1], f.number)
  }

  function VanishAll(at: Perspective, s: State, f: Frame): (r: State)
    requires Ok(at, s)
    ensures Ok(at, r)
  {
    var list := s.groups.lists[HIDDEN];
    LinkedMeans(s.groups, HIDDEN);
    VanishFirst(at, s, list, |list|, f)
  }

  function NextFrame(at: Perspective, s: State, f: Frame): (r: State)
    requires Ok(at, s)
    ensures Ok(at, r)
  {
    VanishAll(at, HideUnseen(at, KillFirst(at, ObserveFirst(at, s, f, |f.shown|), f, |f.deaths|), f.number), f)
  }

  function Run(at: Perspective, fs: seq<Frame>): (r: State)
    ensures Ok(at, r)
  {
    if fs == [] then Start() else NextFrame(at, Run(at, fs[..|fs| - 1]), fs[|fs| - 1])
  }

  lemma {:induction false} ObserveFirstKeeps(at: Perspective, s: State, f: Frame, k: nat)
    requires Exact(at, s) && k <= |f.shown|
    ensures Exact(at, ObserveFirst(at, s, f, k))
    decreases k
  {
    hide Agrees, Ok, Observe;
    if k > 0 {
      ObserveFirstKeeps(at, s, f, k - 1);
      ObserveKeeps(at, ObserveFirst(at, s, f, k - 1), f.shown[k - 1].0, f.shown[k - 1].1, f.number);
    }
  }

  lemma {:induction false} KillFirstKeeps(at: Perspective, s: State, f: Frame, k: nat)
    requires Exact(at, s) && k <= |f.deaths|
    ensures Exact(at, KillFirst(at, s, f, k))
    decreases k
  {
    hide Agrees, Ok, Kill;
    if k > 0 {
      KillFirstKeeps(at, s, f, k - 1);
      KillKeeps(at, KillFirst(at, s, f, k - 1), f.deaths[k - 1], f.number);
    }
  }

  lemma VanishAllKeeps(at: Perspective, s: State, f: Frame)
    requires Exact(at, s) && Settled(s, f.number)
    ensures Exact(at, VanishAll(at, s, f)) && Settled(VanishAll(at, s, f), f.number)
  {
    hide Agrees, Known, LinkedAt, VanishFirst, Settled;
    LinkedMeans(s.groups, HIDDEN);
    VanishFirstKeeps(at, s, |s.groups.lists[HIDDEN]|, f);
  }

  /** After every update all groups but one are right about every unit, and the
      units in sight are units seen in this frame. */
  lemma UpdateIsExact(at: Perspective, s: State, f: Frame)
    requires Exact(at, s)
    ensures Exact(at, NextFrame(at, s, f)) && Settled(NextFrame(at, s, f), f.number)
  {
    hide Agrees, Ok, Settled, VanishAll, HideUnseen, KillFirst, ObserveFirst;
    ObserveFirstKeeps(at, s, f, |f.shown|);
    var t := ObserveFirst(at, s, f, |f.shown|);
    KillFirstKeeps(at, t, f, |f.deaths|);
    var k := KillFirst(at, t, f, |f.deaths|);
    HideUnseenKeeps(at, k, f.number);
    VanishAllKeeps(at, HideUnseen(at, k, f.number), f);
  }

  lemma {:induction false} Reachable(at: Perspective, fs: seq<Frame>)
    ensures Exact(at, Run(at, fs))
    decreases |fs|
  {
    if fs != [] {
      Reachable(at, fs[..|fs| - 1]);
      hide Exact, NextFrame;
      UpdateIsExact(at, Run(at, fs[..|fs| - 1]), fs[|fs| - 1]);
    }
  }

  /** What that means for the vectors: each holds the units it is for, each once. */
  lemma GroupsAreExact(at: Perspective, fs: seq<Frame>, c: nat)
    requires c < COUNT && c != MINE
    ensures var s := Run(at, fs);
            && (forall u :: u in s.groups.lists[c] <==> u in s.units && Belongs(at, c, s.units[u]))
            && Distinct(s.groups.lists[c])
  {
    Reachable(at, fs);
    var s := Run(at, fs);
    hide Run, Belongs;
    LinkedMeans(s.groups, c);
    forall u ensures u in s.groups.lists[c] <==> u in s.units && Belongs(at, c, s.units[u]) {
      if u in s.units {
        assert Agrees(at, s, u);
      }
    }
  }

  /** The live units are the visible and the hidden ones, and no unit is both. */
  lemma LiveSplits(at: Perspective, fs: seq<Frame>)
    ensures var l := Run(at, fs).groups.lists;
            && multiset(l[LIVE]) == multiset(l[VISIBLE]) + multiset(l[HIDDEN])
            && forall u :: u in l[VISIBLE] ==> u !in l[HIDDEN]
  {
    var l := Run(at, fs).groups.lists;
    GroupsAreExact(at, fs, LIVE);
    GroupsAreExact(at, fs, VISIBLE);
    GroupsAreExact(at, fs, HIDDEN);
    hide Run;
    forall u ensures multiset(l[LIVE])[u] == (multiset(l[VISIBLE]) + multiset(l[HIDDEN]))[u] {
      OnceAtMost(l[LIVE], u);
      OnceAtMost(l[VISIBLE], u);
      OnceAtMost(l[HIDDEN], u);
    }
  }

  lemma {:induction false} OnceAtMost(l: seq<Id>, u: Id)
    requires Distinct(l)
    ensures multiset(l)[u] == if u in l then 1 else 0
    decreases |l|
  {
    if l != [] {
      var rest := l[..|l| - 1];
      OnceAtMost(rest, u);
      assert l == rest + [l[|l| - 1]];
    }
  }

  ghost predicate InSight(s: State, u: Id, frame: int) {
    u in s.units && s.units[u].visible && s.units[u].lastSeen == frame
  }

  lemma {:induction false} ShownIsNoted(at: Perspective, s: State, f: Frame, j: nat, k: nat)
    requires Ok(at, s) && j < k <= |f.shown|
    ensures InSight(ObserveFirst(at, s, f, k), f.shown[j].0, f.number)
    decreases k
  {
    hide Ok, Observe, Noted;
    ObserveUnits(at, ObserveFirst(at, s, f, k - 1), f.shown[k - 1].0, f.shown[k - 1].1, f.number);
    if j < k - 1 {
      ShownIsNoted(at, s, f, j, k - 1);
    }
  }

  lemma {:induction false} DeathsKeepSight(at: Perspective, s: State, f: Frame, k: nat, u: Id)
    requires Ok(at, s) && k <= |f.deaths| && InSight(s, u, f.number)
    ensures InSight(KillFirst(at, s, f, k), u, f.number)
    decreases k
  {
    hide Ok, Regroup;
    if k > 0 {
      DeathsKeepSight(at, s, f, k - 1, u);
    }
  }

  /** The other direction of `Settled`: a unit that was shown in this frame is in
      sight after it, and if it lives it is in the group of the visible units. */
  lemma ShownIsVisible(at: Perspective, s: State, f: Frame, j: nat)
    requires Exact(at, s) && j < |f.shown|
    ensures InSight(NextFrame(at, s, f), f.shown[j].0, f.number)
  {
    hide Agrees, Ok, Settled, VanishFirst, HideUnseen, KillFirst, ObserveFirst, SameSight;
    var u := f.shown[j].0;
    ObserveFirstKeeps(at, s, f, |f.shown|);
    ShownIsNoted(at, s, f, j, |f.shown|);
    var t := ObserveFirst(at, s, f, |f.shown|);
    KillFirstKeeps(at, t, f, |f.deaths|);
    DeathsKeepSight(at, t, f, |f.deaths|, u);
    var k := KillFirst(at, t, f, |f.deaths|);
    HideUnseenKeeps(at, k, f.number);
    HideUnseenUnit(at, k, f.number, u);
    VanishKeepsSight(at, HideUnseen(at, k, f.number), f, u);
  }

  lemma VanishKeepsSight(at: Perspective, s: State, f: Frame, u: Id)
    requires Exact(at, s) && Settled(s, f.number) && InSight(s, u, f.number)
    ensures InSight(VanishAll(at, s, f), u, f.number)
  {
    hide Agrees, Known, LinkedAt, VanishFirst, Settled;
    LinkedMeans(s.groups, HIDDEN);
    VanishFirstKeeps(at, s, |s.groups.lists[HIDDEN]|, f);
  }

  /** Whether a hidden unit counts as gone after a frame. */
  predicate GoneAfter(x: Unit, inView: bool, frame: int) {
    x.gone || (inView && 20 <= frame - x.goneFrame < 40)
  }

  lemma VanishIs(at: Perspective, s: State, v: Id, f: Frame, u: Id)
    requires Ok(at, s) && v in s.units && u in s.units
    ensures var y := Vanish(at, s, v, f).units[u];
            if u == v then y.gone == GoneAfter(s.units[u], u in f.scouted, f.number) else y == s.units[u]
  {
    hide Ok, Regrouped;
  }

  lemma {:induction false} VanishFirstIs(at: Perspective, s: State, list: seq<Id>, k: nat, f: Frame, u: Id)
    requires Ok(at, s) && k <= |list| && (forall v :: v in list ==> v in s.units) && u in s.units && Distinct(list)
    ensures var y := VanishFirst(at, s, list, k, f).units[u];
            if u in list[..k] then y.gone == GoneAfter(s.units[u], u in f.scouted, f.number) else y == s.units[u]
    decreases k
  {
    hide Ok, Vanish, GoneAfter;
    if k > 0 {
      VanishFirstIs(at, s, list, k - 1, f, u);
      assert list[k - 1] in list;
      VanishIs(at, VanishFirst(at, s, list, k - 1, f), list[k - 1], f, u);
      assert list[..k] == list[..k - 1] + [list[k - 1]];
    }
  }

  lemma {:induction false} NotShownStays(at: Perspective, s: State, f: Frame, k: nat, u: Id)
    requires Ok(at, s) && u in s.units && k <= |f.shown| && forall i :: 0 <= i < k ==> f.shown[i].0 != u
    ensures var r := ObserveFirst(at, s, f, k); u in r.units && r.units[u] == s.units[u]
    decreases k
  {
    hide Ok, Observe, Noted;
    if k > 0 {
      NotShownStays(at, s, f, k - 1, u);
      ObserveUnits(at, ObserveFirst(at, s, f, k - 1), f.shown[k - 1].0, f.shown[k - 1].1, f.number);
    }
  }

  lemma {:induction false} NotDeadStays(at: Perspective, s: State, f: Frame, k: nat, u: Id)
    requires Ok(at, s) && u in s.units && k <= |f.deaths| && forall i :: 0 <= i < k ==> f.deaths[i] != u
    ensures var r := KillFirst(at, s, f, k); u in r.units && r.units[u] == s.units[u]
    decreases k
  {
    hide Ok, Regroup;
    if k > 0 {
      NotDeadStays(at, s, f, k - 1, u);
    }
  }

  /** A hidden unit that is neither shown nor dies becomes gone exactly if its last
      place is in view and was first found so between 20 and 39 frames ago. */
  lemma GoneExactly(at: Perspective, s: State, f: Frame, u: Id)
    requires Exact(at, s) && u in s.units && !s.units[u].dead && !s.units[u].visible
    requires (forall i :: 0 <= i < |f.shown| ==> f.shown[i].0 != u) && u !in f.deaths
    ensures var r := NextFrame(at, s, f);
            u in r.units && (r.units[u].gone <==>
              s.units[u].gone || (u in f.scouted && 20 <= f.number - s.units[u].goneFrame < 40))
  {
    hide Agrees, Ok, Settled, VanishAll, HideUnseen, KillFirst, ObserveFirst;
    NotShownStays(at, s, f, |f.shown|, u);
    ObserveFirstKeeps(at, s, f, |f.shown|);
    var t := ObserveFirst(at, s, f, |f.shown|);
    NotDeadStays(at, t, f, |f.deaths|, u);
    KillFirstKeeps(at, t, f, |f.deaths|);
    var k := KillFirst(at, t, f, |f.deaths|);
    HideUnseenUnit(at, k, f.number, u);
    HideUnseenKeeps(at, k, f.number);
    VanishAllGone(at, HideUnseen(at, k, f.number), f, u);
  }

  lemma VanishAllGone(at: Perspective, s: State, f: Frame, u: Id)
    requires Exact(at, s) && u in s.units && !s.units[u].dead && !s.units[u].visible
    ensures var r := VanishAll(at, s, f);
            u in r.units && r.units[u].gone == GoneAfter(s.units[u], u in f.scouted, f.number)
  {
    hide Known, LinkedAt, VanishFirst, GoneAfter;
    var list := s.groups.lists[HIDDEN];
    LinkedMeans(s.groups, HIDDEN);
    assert Agrees(at, s, u);
    assert list[..|list|] == list;
    VanishFirstIs(at, s, list, |list|, f, u);
  }

  // ---------------------------------------------------------------------
  // The group of powered units, over whole runs
  // ---------------------------------------------------------------------

  /** A live unit of the player changes its power, and nothing that would make the
      bot regroup it. */
  ghost predicate Unnoticed(at: Perspective, x: Unit, o: Sight, frame: int) {
    && !Changed(x, Noted(at, x, o, frame)) && !x.dead && o.playerId == at.me
    && (Powered in o.flags) != (Powered in x.flags)
  }

  ghost predicate ShownOnce(f: Frame) {
    forall i, j :: 0 <= i < j < |f.shown| ==> f.shown[i].0 != f.shown[j].0
  }

  ghost predicate UnnoticedBefore(at: Perspective, s: State, f: Frame, k: nat, u: Id)
    requires k <= |f.shown|
  {
    u in s.units && exists j :: 0 <= j < k && f.shown[j].0 == u && Unnoticed(at, s.units[u], f.shown[j].1, f.number)
  }

  lemma ObserveMineOther(at: Perspective, s: State, v: Id, o: Sight, frame: int, u: Id)
    requires Ok(at, s) && u in s.units && v != u
    ensures var r := Observe(at, s, v, o, frame);
            u in r.units && r.units[u] == s.units[u] && (MineAgrees(at, r, u) <==> MineAgrees(at, s, u))
  {
    hide Regrouped, LinkedAt, Noted, Changed, Belongs;
    var e := Entered(s, v);
    EnteredKeeps(at, s, v);
    var y := Noted(at, e.units[v], o, frame);
    var w := Written(at, e, v, y);
    if Changed(e.units[v], y) {
      RegroupAgrees(at, w, v);
    }
  }

  lemma {:induction false} NotShownAbsent(at: Perspective, s: State, f: Frame, k: nat, u: Id)
    requires Ok(at, s) && u !in s.units && k <= |f.shown| && forall i :: 0 <= i < k ==> f.shown[i].0 != u
    ensures u !in ObserveFirst(at, s, f, k).units
    decreases k
  {
    hide Ok, Observe, Noted;
    if k > 0 {
      NotShownAbsent(at, s, f, k - 1, u);
      ObserveUnits(at, ObserveFirst(at, s, f, k - 1), f.shown[k - 1].0, f.shown[k - 1].1, f.number);
    }
  }

  lemma {:induction false} ObserveFirstMine(at: Perspective, s: State, f: Frame, k: nat, u: Id)
    requires Ok(at, s) && ShownOnce(f) && k <= |f.shown| && (u in s.units ==> MineAgrees(at, s, u))
    ensures var r := ObserveFirst(at, s, f, k);
            u in r.units ==> (MineAgrees(at, r, u) <==> !UnnoticedBefore(at, s, f, k, u))
    decreases k
  {
    hide Ok, Observe, Unnoticed, MineAgrees;
    if k > 0 {
      var was := ObserveFirst(at, s, f, k - 1);
      var (v, o) := f.shown[k - 1];
      ObserveFirstMine(at, s, f, k - 1, u);
      if v != u {
        ObserveUnits(at, was, v, o, f.number);
        if u in was.units {
          ObserveMineOther(at, was, v, o, f.number, u);
        }
        assert UnnoticedBefore(at, s, f, k, u) <==> UnnoticedBefore(at, s, f, k - 1, u);
      } else if u in s.units {
        NotShownStays(at, s, f, k - 1, u);
        MineOfShown(at, was, u, o, f.number);
        assert UnnoticedBefore(at, s, f, k, u) <==> Unnoticed(at, s.units[u], o, f.number);
      } else {
        NotShownAbsent(at, s, f, k - 1, u);
        FirstSight(at, was, u, o, f.number);
      }
    }
  }

  lemma MineOfShown(at: Perspective, s: State, u: Id, o: Sight, frame: int)
    requires Ok(at, s) && u in s.units && MineAgrees(at, s, u)
    ensures var r := Observe(at, s, u, o, frame);
            u in r.units && (MineAgrees(at, r, u) <==> !Unnoticed(at, s.units[u], o, frame))
  {
    hide Ok, Observe, MineAgrees, Changed, Noted;
    MineExactly(at, s, u, o, frame);
  }

  lemma KillMine(at: Perspective, s: State, v: Id, frame: int, u: Id)
    requires Ok(at, s) && u in s.units
    ensures var r := Kill(at, s, v, frame);
            u in r.units && (MineAgrees(at, r, u) <==> MineAgrees(at, s, u) || u == v)
  {
    hide Regrouped, LinkedAt, Belongs;
    if v in s.units {
      RegroupAgrees(at, Written(at, s, v, s.units[v].(dead := true, goneFrame := frame)), v);
    }
  }

  lemma {:induction false} KillFirstMine(at: Perspective, s: State, f: Frame, k: nat, u: Id)
    requires Ok(at, s) && u in s.units && k <= |f.deaths|
    ensures var r := KillFirst(at, s, f, k);
            u in r.units && (MineAgrees(at, r, u) <==> MineAgrees(at, s, u) || u in f.deaths[..k])
    decreases k
  {
    hide Ok, Kill, MineAgrees;
    if k > 0 {
      KillFirstMine(at, s, f, k - 1, u);
      KillMine(at, KillFirst(at, s, f, k - 1), f.deaths[k - 1], f.number, u);
      assert f.deaths[..k] == f.deaths[..k - 1] + [f.deaths[k - 1]];
    }
  }

  lemma {:induction false} RegroupFirstMine(at: Perspective, s: State, need: seq<Id>, k: nat, u: Id)
    requires Ok(at, s) && k <= |need| && (forall v :: v in need ==> v in s.units) && u in s.units
    ensures MineAgrees(at, RegroupFirst(at, s, need, k), u) <==> MineAgrees(at, s, u) || u in need[..k]
    decreases k
  {
    hide Ok, Agrees, MineAgrees, Regroup;
    if k > 0 {
      RegroupFirstMine(at, s, need, k - 1, u);
      assert need[k - 1] in need;
      RegroupAgrees(at, RegroupFirst(at, s, need, k - 1), need[k - 1]);
      assert need[..k] == need[..k - 1] + [need[k - 1]];
    }
  }

  lemma SameMine(at: Perspective, s: State, t: State, u: Id)
    requires Ok(at, s) && Ok(at, t) && s.groups == t.groups && u in s.units && u in t.units && s.units[u] == t.units[u]
    ensures MineAgrees(at, s, u) <==> MineAgrees(at, t, u)
  {
  }

  /** A visible unit that was gone, or was not shown, is regrouped. */
  lemma HideMine(at: Perspective, s: State, frame: int, u: Id)
    requires Exact(at, s) && u in s.units
    ensures var x := s.units[u];
            MineAgrees(at, HideUnseen(at, s, frame), u) <==>
            MineAgrees(at, s, u) || (!x.dead && x.visible && (x.gone || x.lastSeen != frame))
  {
    hide LinkedAt, Known, HideFirst, NeedFirst, RegroupFirst, MineAgrees;
    var list := s.groups.lists[VISIBLE];
    LinkedMeans(s.groups, VISIBLE);
    assert Agrees(at, s, u);
    var need := NeedFirst(at, s, list, |list|, frame);
    var h := HideFirst(at, s, list, |list|, frame);
    assert list[..|list|] == list && need[..|need|] == need;
    HideFirstIs(at, s, list, |list|, frame, u);
    NeedFirstIs(at, s, list, |list|, frame, u);
    RegroupFirstMine(at, h, need, |need|, u);
    if u !in need {
      assert h.units[u] == s.units[u];
      SameMine(at, s, h, u);
    }
  }

  /** Of a hidden unit nothing changes that the group depends on. */
  lemma VanishMine(at: Perspective, s: State, v: Id, f: Frame, u: Id)
    requires Ok(at, s) && v in s.units && u in s.units
    ensures var r := Vanish(at, s, v, f);
            && u in r.units && (MineAgrees(at, s, u) ==> MineAgrees(at, r, u))
            && (u != v ==> (MineAgrees(at, r, u) <==> MineAgrees(at, s, u)))
  {
    hide Regrouped, LinkedAt, Agrees;
    var x := s.units[v];
    RegroupAgrees(at, Written(at, s, v, x.(gone := true)), v);
  }

  lemma {:induction false} VanishFirstMine(at: Perspective, s: State, list: seq<Id>, k: nat, f: Frame, u: Id)
    requires Ok(at, s) && k <= |list| && (forall v :: v in list ==> v in s.units) && u in s.units
    ensures var r := VanishFirst(at, s, list, k, f);
            && u in r.units && (MineAgrees(at, s, u) ==> MineAgrees(at, r, u))
            && (u !in list ==> (MineAgrees(at, r, u) <==> MineAgrees(at, s, u)))
    decreases k
  {
    hide Ok, Vanish, MineAgrees;
    if k > 0 {
      VanishFirstMine(at, s, list, k - 1, f, u);
      assert list[k - 1] in list;
      VanishMine(at, VanishFirst(at, s, list, k - 1, f), list[k - 1], f, u);
    }
  }

  lemma VanishAllMine(at: Perspective, s: State, f: Frame, u: Id)
    requires Exact(at, s) && u in s.units
    ensures var r := VanishAll(at, s, f);
            && u in r.units && (MineAgrees(at, s, u) ==> MineAgrees(at, r, u))
            && (s.units[u].visible ==> (MineAgrees(at, r, u) <==> MineAgrees(at, s, u)))
  {
    hide Known, LinkedAt, VanishFirst, MineAgrees;
    var list := s.groups.lists[HIDDEN];
    LinkedMeans(s.groups, HIDDEN);
    assert Agrees(at, s, u);
    VanishFirstMine(at, s, list, |list|, f, u);
  }

  /** The update makes the group wrong about the unit. */
  ghost predicate GoesStale(at: Perspective, s: State, f: Frame, u: Id) {
    UnnoticedBefore(at, s, f, |f.shown|, u) && u !in f.deaths && !s.units[u].gone
  }

  /** If the group of powered units was right about a unit, or the unit is new, it is
      right after the update exactly unless the power changed unnoticed. */
  lemma MineFrameExactly(at: Perspective, s: State, f: Frame, u: Id)
    requires Exact(at, s) && ShownOnce(f) && (u in s.units ==> MineAgrees(at, s, u))
    ensures var r := NextFrame(at, s, f);
            u in r.units ==> (MineAgrees(at, r, u) <==> !GoesStale(at, s, f, u))
  {
    hide Agrees, Ok, MineAgrees, VanishAll, HideUnseen, KillFirst, ObserveFirst, Unnoticed;
    ObserveFirstKeeps(at, s, f, |f.shown|);
    ObserveFirstMine(at, s, f, |f.shown|, u);
    var t := ObserveFirst(at, s, f, |f.shown|);
    FrameKeepsUnits(at, s, f);
    if u in t.units {
      KillFirstKeeps(at, t, f, |f.deaths|);
      KillFirstMine(at, t, f, |f.deaths|, u);
      assert f.deaths[..|f.deaths|] == f.deaths;
      var k := KillFirst(at, t, f, |f.deaths|);
      HideMine(at, k, f.number, u);
      HideUnseenKeeps(at, k, f.number);
      var h := HideUnseen(at, k, f.number);
      VanishAllMine(at, h, f, u);
      if UnnoticedBefore(at, s, f, |f.shown|, u) {
        UnnoticedRecord(at, s, f, u);
        if u !in f.deaths {
          NotDeadStays(at, t, f, |f.deaths|, u);
          HideUnseenUnit(at, k, f.number, u);
        }
      }
    }
  }

  lemma FrameKeepsUnits(at: Perspective, s: State, f: Frame)
    requires Exact(at, s)
    ensures NextFrame(at, s, f).units.Keys == ObserveFirst(at, s, f, |f.shown|).units.Keys
  {
    hide Ok, ObserveFirst, HideUnseen, VanishAll;
    var t := ObserveFirst(at, s, f, |f.shown|);
    KillFirstUnits(at, t, f, |f.deaths|);
    var h := HideUnseen(at, KillFirst(at, t, f, |f.deaths|), f.number);
    VanishAllUnits(at, h, f);
  }

  lemma {:induction false} KillFirstUnits(at: Perspective, s: State, f: Frame, k: nat)
    requires Ok(at, s) && k <= |f.deaths|
    ensures KillFirst(at, s, f, k).units.Keys == s.units.Keys
    decreases k
  {
    hide Ok, Regroup;
    if k > 0 {
      KillFirstUnits(at, s, f, k - 1);
    }
  }

  lemma VanishAllUnits(at: Perspective, s: State, f: Frame)
    requires Ok(at, s)
    ensures VanishAll(at, s, f).units.Keys == s.units.Keys
  {
    hide VanishFirst;
  }

  /** The record of a unit whose power changed unnoticed, after the observations. */
  lemma UnnoticedRecord(at: Perspective, s: State, f: Frame, u: Id)
    requires Ok(at, s) && ShownOnce(f) && UnnoticedBefore(at, s, f, |f.shown|, u)
    ensures var t := ObserveFirst(at, s, f, |f.shown|);
            && u in t.units && !t.units[u].dead && t.units[u].visible && t.units[u].lastSeen == f.number
            && t.units[u].gone == s.units[u].gone
  {
    hide Ok, Observe, Noted;
    var j :| 0 <= j < |f.shown| && f.shown[j].0 == u && Unnoticed(at, s.units[u], f.shown[j].1, f.number);
    NotShownStays(at, s, f, j, u);
    ObserveUnits(at, ObserveFirst(at, s, f, j), u, f.shown[j].1, f.number);
    ShownLater(at, s, f, j + 1, |f.shown|, u);
  }

  /** What is noted about a unit stays until it is shown again. */
  lemma {:induction false} ShownLater(at: Perspective, s: State, f: Frame, j: nat, k: nat, u: Id)
    requires Ok(at, s) && j <= k <= |f.shown| && u in ObserveFirst(at, s, f, j).units
    requires forall i :: j <= i < k ==> f.shown[i].0 != u
    ensures var t := ObserveFirst(at, s, f, k); u in t.units && t.units[u] == ObserveFirst(at, s, f, j).units[u]
    decreases k
  {
    hide Ok, Observe, Noted;
    if j < k {
      ShownLater(at, s, f, j, k - 1, u);
      ObserveUnits(at, ObserveFirst(at, s, f, k - 1), f.shown[k - 1].0, f.shown[k - 1].1, f.number);
    }
  }

  ghost predicate MineExact(at: Perspective, s: State) {
    Ok(at, s) && forall u :: u in s.units ==> MineAgrees(at, s, u)
  }

  /** The group is exact after every update of the run. */
  ghost predicate AlwaysExact(at: Perspective, fs: seq<Frame>)
    decreases |fs|
  {
    MineExact(at, Run(at, fs)) && (fs != [] ==> AlwaysExact(at, fs[..|fs| - 1]))
  }

  ghost predicate NoneStale(at: Perspective, s: State, f: Frame) {
    forall u :: !GoesStale(at, s, f, u)
  }

  /** No frame of the run changes the power of a unit unnoticed. */
  ghost predicate NeverStale(at: Perspective, fs: seq<Frame>)
    decreases |fs|
  {
    fs != [] ==>
      NeverStale(at, fs[..|fs| - 1]) && NoneStale(at, Run(at, fs[..|fs| - 1]), fs[|fs| - 1])
  }

  ghost predicate AllShownOnce(fs: seq<Frame>) {
    forall n :: 0 <= n < |fs| ==> ShownOnce(fs[n])
  }

  lemma {:induction false} MineRunExactly(at: Perspective, fs: seq<Frame>)
    requires AllShownOnce(fs)
    ensures AlwaysExact(at, fs) <==> NeverStale(at, fs)
    decreases |fs|
  {
    hide MineExact, NoneStale, ShownOnce, Run;
    if fs == [] {
      StartMine(at);
    } else {
      var before, f := fs[..|fs| - 1], fs[|fs| - 1];
      MineRunExactly(at, before);
      assert before + [f] == fs;
      if AlwaysExact(at, before) {
        MineStep(at, before, f);
      }
    }
  }

  lemma StartMine(at: Perspective)
    ensures MineExact(at, Run(at, []))
  {
  }

  lemma MineStep(at: Perspective, before: seq<Frame>, f: Frame)
    requires ShownOnce(f) && MineExact(at, Run(at, before))
    ensures MineExact(at, Run(at, before + [f])) <==> NoneStale(at, Run(at, before), f)
  {
    Reachable(at, before);
    var s := Run(at, before);
    assert (before + [f])[..|before|] == before;
    var r := NextFrame(at, s, f);
    assert r == Run(at, before + [f]);
    hide Run, NextFrame, Ok, Agrees, MineAgrees, ShownOnce;
    forall u | u in r.units ensures MineAgrees(at, r, u) <==> !GoesStale(at, s, f, u) {
      MineFrameExactly(at, s, f, u);
    }
    forall u | GoesStale(at, s, f, u) ensures u in r.units {
      StaleIsKnown(at, s, f, u);
    }
  }

  lemma StaleIsKnown(at: Perspective, s: State, f: Frame, u: Id)
    requires Exact(at, s) && ShownOnce(f) && GoesStale(at, s, f, u)
    ensures u in NextFrame(at, s, f).units
  {
    hide Ok, NextFrame;
    FrameKeepsUnits(at, s, f);
    UnnoticedRecord(at, s, f, u);
  }

  // ---------------------------------------------------------------------
  // The class
  // ---------------------------------------------------------------------

  class UnitsInfo {
    const at: Perspective
    var units: map<Id, Unit>
    var lists: seq<seq<Id>>
    var index: map<Id, seq<int>>

    ghost function Links(): (g: Groups)
      reads `lists, `index
    {
      Groups(lists, index)
    }

    ghost function View(): (s: State)
      reads this
    {
      State(units, Links())
    }

    ghost predicate Valid()
      reads this
    {
      Ok(at, View())
    }

    constructor (at: Perspective)
      ensures this.at == at && Valid() && View() == Run(at, [])
    {
      this.at := at;
      units, index := map[], map[];
      lists := [[], [], [], [], [], [], [], [], [], [], [], [], []];
    }

    method UpdateUnitContainer(u: Id, c: nat, contain: bool)
      requires Linked(Links()) && u in index && c < COUNT
      modifies `lists, `index
      ensures Links() == Put(old(Links()), u, c, contain)
      ensures forall d :: 0 <= d < COUNT && d != c ==> lists[d] == old(lists[d])
      ensures contain == old(index[u][c] != INVALID) ==> lists[c] == old(lists[c])
      ensures contain && old(index[u][c] == INVALID) ==> lists[c] == old(lists[c]) + [u]
      ensures !contain && old(index[u][c] != INVALID) ==>
                var i, was := old(index[u][c]), old(lists[c]);
                0 <= i < |was| && lists[c] == was[i := was[|was| - 1]][..|was| - 1]
      ensures Linked(Links()) && index.Keys == old(index.Keys)
    {
      PutKeeps(Links(), u, c, contain);
      assert LinkedAt(Links(), c);
      var i := index[u][c];
      if contain {
        if i == INVALID {
          index := index[u := index[u][c := |lists[c]|]];
          lists := lists[c := lists[c] + [u]];
        }
      } else if i != INVALID {
        var n := |lists[c]| - 1;
        if i != n {
          var back := lists[c][n];
          index := index[back := index[back][c := i]];
          lists := lists[c := lists[c][i := back][n := u]];
        }
        assert index[u][c := i] == index[u];
        assert lists[c][..n] == old(lists[c])[i := old(lists[c][n])][..n];
        lists := lists[c := lists[c][..n]];
        index := index[u := index[u][c := INVALID]];
      }
    }

    /** The next group is decided for `u`. */
    method Decide(u: Id, x: Unit, c: nat, ghost g: Groups, contain: bool)
      requires x.kind.Some? && c < COUNT && DecidedUpTo(at, g, Links(), u, x, c) && contain == Belongs(at, c, x)
      modifies `lists, `index
      ensures DecidedUpTo(at, g, Links(), u, x, c + 1)
    {
      hide Put, Belongs;
      UpdateUnitContainer(u, c, contain);
      RegroupedStep(at, g, u, x, c);
    }

    method UpdateGroups(u: Id)
      requires Valid() && u in units
      modifies `lists, `index
      ensures Valid() && View() == Regroup(at, old(View()), u)
    {
      hide Ok, DecidedUpTo, Belongs, Regrouped;
      var x := units[u];
      ghost var was := View();
      ghost var g := Links();
      NoneDecided(at, was, u);
      BelongsTable(at, x);
      Decide(u, x, ALL, g, true);
      Decide(u, x, LIVE, g, !x.dead);
      Decide(u, x, VISIBLE, g, !x.dead && x.visible);
      Decide(u, x, HIDDEN, g, !x.dead && !x.visible);
      Decide(u, x, VISIBLE_BUILDINGS, g, !x.dead && x.visible && x.kind.value.isBuilding);
      Decide(u, x, RESOURCES, g, !x.dead && !x.gone && x.kind.value.isResourceContainer);
      Decide(u, x, MINE, g, !x.dead && x.visible && x.playerId == at.me && Powered in x.flags);
      Decide(u, x, MY_WORKERS, g,
        !x.dead && x.visible && x.playerId == at.me && x.kind.value.isWorker && Completed in x.flags);
      Decide(u, x, MY_BUILDINGS, g, !x.dead && x.visible && x.playerId == at.me && x.kind.value.isBuilding);
      Decide(u, x, MY_DEPOTS, g, !x.dead && x.visible && x.playerId == at.me && x.kind.value.isResourceDepot);
      Decide(u, x, ENEMIES, g, !x.dead && x.isEnemy);
      Decide(u, x, VISIBLE_ENEMIES, g, !x.dead && x.visible && x.isEnemy);
      Decide(u, x, NEUTRAL, g, !x.dead && x.isNeutral);
      AllDecided(at, was, Links(), u);
    }

    method UpdateUnit(u: Id, o: Sight, frame: int)
      requires Valid()
      modifies this
      ensures Valid() && View() == Observe(at, old(View()), u, o, frame)
    {
      hide Known, LinkedAt, Noted, Changed, Regrouped;
      EnteredKeeps(at, View(), u);
      if u !in units {
        units := units[u := NewUnit];
        index := index[u := seq(COUNT, _ => INVALID)];
      }
      assert View() == Entered(old(View()), u);
      var x := units[u];
      var y := Noted(at, x, o, frame);
      ghost var w := Written(at, View(), u, y);
      units := units[u := y];
      assert View() == w;
      hide Ok, Regroup;
      if Changed(x, y) {
        UpdateGroups(u);
      }
    }

    method ObserveUnits(f: Frame)
      requires Valid()
      modifies this
      ensures Valid() && View() == ObserveFirst(at, old(View()), f, |f.shown|)
    {
      hide Ok, Observe;
      for i := 0 to |f.shown|
        invariant Valid() && View() == ObserveFirst(at, old(View()), f, i)
      {
        UpdateUnit(f.shown[i].0, f.shown[i].1, f.number);
      }
    }

    method CountDeaths(f: Frame)
      requires Valid()
      modifies this
      ensures Valid() && View() == KillFirst(at, old(View()), f, |f.deaths|)
    {
      hide LinkedAt, Regroup;
      for i := 0 to |f.deaths|
        invariant Valid() && View() == KillFirst(at, old(View()), f, i)
      {
        var u := f.deaths[i];
        if u in units {
          ghost var w := Written(at, View(), u, units[u].(dead := true, goneFrame := f.number));
          units := units[u := units[u].(dead := true, goneFrame := f.number)];
          assert View() == w;
          UpdateGroups(u);
        }
      }
    }

    /** The vector of visible units is not touched while it is looked through. */
    method HideUnits(frame: int)
      requires Valid()
      modifies this
      ensures Valid() && View() == HideUnseen(at, old(View()), frame)
    {
      hide RegroupFirst, HideFirst, NeedFirst, Hide, Ok;
      ghost var was := View();
      VisibleKnown(at, was);
      ghost var list := lists[VISIBLE];
      var need := [];
      FirstNone(at, was, list, frame);
      for i := 0 to |lists[VISIBLE]|
        invariant lists == old(lists) && index == old(index)
        invariant View() == HideFirst(at, was, list, i, frame)
        invariant need == NeedFirst(at, was, list, i, frame)
      {
        FirstStep(at, was, list, i, frame);
        var more := HideOne(lists[VISIBLE][i], frame);
        need := need + more;
      }
      assert Valid();
      RegroupUnits(need);
    }

    method HideOne(u: Id, frame: int) returns (need: seq<Id>)
      requires u in units
      modifies `units
      ensures units == old(units)[u := Hide(old(units[u]), frame)]
      ensures var x := old(units[u]);
              need == (if x.gone then [u] else []) + if x.lastSeen != frame then [u] else []
    {
      var x := units[u];
      need := [];
      if x.gone {
        units := units[u := units[u].(gone := false)];
        need := need + [u];
      }
      if x.lastSeen != frame {
        units := units[u := units[u].(visible := false)];
        need := need + [u];
      }
      assert units[u] == Hide(x, frame);
    }

    method RegroupUnits(need: seq<Id>)
      requires Valid() && forall u :: u in need ==> u in units
      modifies `lists, `index
      ensures Valid() && View() == RegroupFirst(at, old(View()), need, |need|)
    {
      hide Ok, Regroup;
      for i := 0 to |need|
        invariant Valid() && View() == RegroupFirst(at, old(View()), need, i)
      {
        assert need[i] in need;
        UpdateGroups(need[i]);
      }
    }

    /** The vector of hidden units is regrouped while it is looked through, and
        stays the same. */
    method VanishUnits(f: Frame)
      requires Exact(at, View()) && Settled(View(), f.number)
      modifies this
      ensures Valid() && View() == VanishAll(at, old(View()), f)
    {
      hide LinkedAt, Known, Agrees, Settled, Regroup, SameSight;
      ghost var was := View();
      LinkedMeans(was.groups, HIDDEN);
      ghost var list := lists[HIDDEN];
      for i := 0 to |lists[HIDDEN]|
        invariant Valid() && View() == VanishFirst(at, was, list, i, f)
        invariant lists[HIDDEN] == list
      {
        assert list[i] in list;
        var u := lists[HIDDEN][i];
        VanishOne(u, f);
        VanishFirstKeeps(at, was, i + 1, f);
      }
    }

    method VanishOne(u: Id, f: Frame)
      requires Valid() && u in units
      modifies this
      ensures Valid() && View() == Vanish(at, old(View()), u, f)
    {
      hide LinkedAt, Regroup;
      var x := units[u];
      if !x.gone && u in f.scouted {
        if f.number - x.goneFrame >= 40 {
          units := units[u := x.(goneFrame := f.number)];
        } else if f.number - x.goneFrame >= 20 {
          ghost var w := Written(at, View(), u, x.(gone := true));
          units := units[u := x.(gone := true)];
          assert View() == w;
          UpdateGroups(u);
        }
      }
    }

    method Update(f: Frame)
      requires Exact(at, View())
      modifies this
      ensures View() == NextFrame(at, old(View()), f)
      ensures Exact(at, View()) && Settled(View(), f.number)
    {
      hide Agrees, Ok, Settled, VanishAll, HideUnseen, KillFirst, ObserveFirst;
      UpdateIsExact(at, View(), f);
      ObserveFirstKeeps(at, View(), f, |f.shown|);
      ObserveUnits(f);
      KillFirstKeeps(at, View(), f, |f.deaths|);
      CountDeaths(f);
      HideUnseenKeeps(at, View(), f.number);
      HideUnits(f.number);
      VanishUnits(f);
    }
  }

  lemma FirstNone(at: Perspective, s: State, list: seq<Id>, frame: int)
    requires Ok(at, s) && forall u :: u in list ==> u in s.units
    ensures HideFirst(at, s, list, 0, frame) == s && NeedFirst(at, s, list, 0, frame) == []
  {
    hide Ok;
  }

  lemma FirstStep(at: Perspective, s: State, list: seq<Id>, k: nat, frame: int)
    requires Ok(at, s) && k < |list| && forall u :: u in list ==> u in s.units
    ensures var h, u := HideFirst(at, s, list, k, frame), list[k];
            && u in h.units
            && HideFirst(at, s, list, k + 1, frame) == State(h.units[u := Hide(h.units[u], frame)], h.groups)
            && NeedFirst(at, s, list, k + 1, frame) == NeedFirst(at, s, list, k, frame)
               + ((if h.units[u].gone then [u] else []) + if h.units[u].lastSeen != frame then [u] else [])
  {
    hide Ok, Hide;
    assert list[k] in list;
  }

  lemma VisibleKnown(at: Perspective, s: State)
    requires Ok(at, s)
    ensures |s.groups.lists| == COUNT && forall u :: u in s.groups.lists[VISIBLE] ==> u in s.units
  {
    LinkedMeans(s.groups, VISIBLE);
  }

  ghost predicate DecidedUpTo(at: Perspective, g: Groups, now: Groups, u: Id, x: Unit, c: nat) {
    Linked(g) && u in g.index && x.kind.Some? && c <= COUNT && now == Regrouped(at, g, u, x, c)
  }

  lemma NoneDecided(at: Perspective, s: State, u: Id)
    requires Ok(at, s) && u in s.units
    ensures s.units[u].kind.Some? && DecidedUpTo(at, s.groups, s.groups, u, s.units[u], 0)
  {
  }

  lemma AllDecided(at: Perspective, s: State, now: Groups, u: Id)
    requires Ok(at, s) && u in s.units && DecidedUpTo(at, s.groups, now, u, s.units[u], COUNT)
    ensures State(s.units, now) == Regroup(at, s, u) && Ok(at, State(s.units, now))
  {
    hide Ok, Regrouped;
  }

  lemma BelongsTable(at: Perspective, x: Unit)
    requires x.kind.Some?
    ensures Belongs(at, ALL, x)
    ensures Belongs(at, LIVE, x) == !x.dead
    ensures Belongs(at, VISIBLE, x) == (!x.dead && x.visible)
    ensures Belongs(at, HIDDEN, x) == (!x.dead && !x.visible)
    ensures Belongs(at, VISIBLE_BUILDINGS, x) == (!x.dead && x.visible && x.kind.value.isBuilding)
    ensures Belongs(at, RESOURCES, x) == (!x.dead && !x.gone && x.kind.value.isResourceContainer)
    ensures Belongs(at, MINE, x) == (!x.dead && x.visible && x.playerId == at.me && Powered in x.flags)
    ensures Belongs(at, MY_WORKERS, x) ==
            (!x.dead && x.visible && x.playerId == at.me && x.kind.value.isWorker && Completed in x.flags)
    ensures Belongs(at, MY_BUILDINGS, x) == (!x.dead && x.visible && x.playerId == at.me && x.kind.value.isBuilding)
    ensures Belongs(at, MY_DEPOTS, x) == (!x.dead && x.visible && x.playerId == at.me && x.kind.value.isResourceDepot)
    ensures Belongs(at, ENEMIES, x) == (!x.dead && x.isEnemy)
    ensures Belongs(at, VISIBLE_ENEMIES, x) == (!x.dead && x.visible && x.isEnemy)
    ensures Belongs(at, NEUTRAL, x) == (!x.dead && x.isNeutral)
  {
  }

  lemma RegroupedStep(at: Perspective, g: Groups, u: Id, x: Unit, k: nat)
    requires Linked(g) && u in g.index && x.kind.Some? && k < COUNT
    ensures Regrouped(at, g, u, x, k + 1) == Put(Regrouped(at, g, u, x, k), u, k, Belongs(at, k, x))
  {
    hide Put, Linked, Belongs;
  }
}
