/** The nearest-area cache of `src/areainfo.cpp`: a breadth-first search from all
    tiles that belong to an area, over the eight neighbours of a tile. */
module AreaCache {
  import opened Options

  datatype Tile = Tile(x: int, y: int)

  function Abs(i: int): nat { if i < 0 then -i else i }

  function Max(a: nat, b: nat): nat { if a < b then b else a }

  /** Chebyshev distance. */
  function Dist(a: Tile, b: Tile): nat {
    Max(Abs(a.x - b.x), Abs(a.y - b.y))
  }

  /** The map as the search sees it: its size and the area of a tile, if any. */
  datatype Map = Map(width: nat, height: nat, area: Tile -> Option<int>) {

    predicate Contains(t: Tile) {
      0 <= t.x < width && 0 <= t.y < height
    }

    predicate IsSeed(t: Tile) {
      Contains(t) && area(t).Some?
    }

    /** Tiles are numbered row by row. */
    function GetId(t: Tile): nat
      requires Contains(t)
    {
      Offset(width, t.y) + t.x
    }

    /** Some tile of area `id` is as close to `t` as any tile of any area. */
    ghost predicate Nearest(t: Tile, id: int) {
      exists s :: IsSeed(s) && area(s).value == id && forall o :: IsSeed(o) ==> Dist(t, s) <= Dist(t, o)
    }

    ghost predicate HasArea() {
      exists s :: IsSeed(s)
    }

    ghost function Tiles(): set<Tile> {
      set x, y | 0 <= x < width && 0 <= y < height :: Tile(x, y)
    }

    lemma IdInjective(a: Tile, b: Tile)
      requires Contains(a) && Contains(b)
      ensures GetId(a) < Offset(width, height)
      ensures GetId(a) == GetId(b) ==> a == b
    {
      OffsetMonotone(width, a.y, height);
      if a.y < b.y {
        OffsetMonotone(width, a.y, b.y);
      } else if b.y < a.y {
        OffsetMonotone(width, b.y, a.y);
      }
    }

    lemma IdIsLinear(t: Tile)
      requires Contains(t)
      ensures GetId(t) == width * t.y + t.x
    {
      OffsetIsProduct(width, t.y);
    }
  }

  /** Number of tiles in the first `rows` rows, without a product. */
  function Offset(width: nat, rows: nat): nat {
    if rows == 0 then 0 else width + Offset(width, rows - 1)
  }

  lemma {:induction false} OffsetIsProduct(width: nat, rows: nat)
    ensures Offset(width, rows) == width * rows
  {
    if rows > 0 {
      OffsetIsProduct(width, rows - 1);
      assert width * rows == width * (rows - 1) + width;
    }
  }

  lemma {:induction false} OffsetMonotone(width: nat, a: nat, b: nat)
    requires a < b
    ensures Offset(width, a) + width <= Offset(width, b)
    decreases b
  {
    if a + 1 < b {
      OffsetMonotone(width, a, b - 1);
    }
  }

  /** A path steps to one of the eight neighbours and stays on the map. */
  ghost predicate IsPath(m: Map, path: seq<Tile>) {
    && path != []
    && (forall i :: 0 <= i < |path| ==> m.Contains(path[i]))
    && (forall i :: 0 < i < |path| ==> Dist(path[i - 1], path[i]) == 1)
  }

  /** One step from `a` towards `b`. */
  function Towards(a: Tile, b: Tile): Tile {
    var dx := if a.x < b.x then 1 else if a.x > b.x then -1 else 0;
    var dy := if a.y < b.y then 1 else if a.y > b.y then -1 else 0;
    Tile(a.x + dx, a.y + dy)
  }

  /** On a map without obstacles the shortest path has Chebyshev length. */
  lemma {:induction false} ShortestPath(m: Map, a: Tile, b: Tile) returns (path: seq<Tile>)
    requires m.Contains(a) && m.Contains(b)
    ensures IsPath(m, path) && path[0] == a && path[|path| - 1] == b && |path| == Dist(a, b) + 1
    ensures forall other :: IsPath(m, other) && other[0] == a && other[|other| - 1] == b ==> |path| <= |other|
    decreases Dist(a, b)
  {
    if a == b {
      path := [a];
    } else {
      var rest := ShortestPath(m, Towards(a, b), b);
      path := [a] + rest;
    }
    forall other | IsPath(m, other) && other[0] == a && other[|other| - 1] == b ensures Dist(a, b) + 1 <= |other| {
      PathIsLong(m, other);
    }
  }

  lemma {:induction false} PathIsLong(m: Map, path: seq<Tile>)
    requires IsPath(m, path)
    ensures Dist(path[0], path[|path| - 1]) < |path|
    decreases |path|
  {
    if |path| > 1 {
      PathIsLong(m, path[1..]);
      assert Dist(path[0], path[1]) == 1;
    }
  }

  const DIRS: seq<Tile> := [
    Tile(-1, 0), Tile(1, 0), Tile(0, -1), Tile(0, 1), Tile(-1, -1), Tile(1, -1), Tile(-1, 1), Tile(1, 1)]

  function Add(a: Tile, d: Tile): Tile { Tile(a.x + d.x, a.y + d.y) }

  lemma DirIsStep(a: Tile, i: nat)
    requires i < |DIRS|
    ensures Dist(a, Add(a, DIRS[i])) == 1
  {
  }

  /** The eight directions are all the neighbours. */
  lemma DirTo(a: Tile, b: Tile) returns (i: nat)
    requires Dist(a, b) == 1
    ensures i < |DIRS| && Add(a, DIRS[i]) == b
  {
    i := if b.y == a.y then (if b.x < a.x then 0 else 1)
         else if b.x == a.x then (if b.y < a.y then 2 else 3)
         else if b.y < a.y then (if b.x < a.x then 4 else 5)
         else (if b.x < a.x then 6 else 7);
  }

  /** What the search knows about a tile: its level and the seed it came from. */
  datatype Mark = Mark(level: nat, source: Tile)

  type Marks = map<Tile, Mark>
  type Queue = seq<(Tile, int)>

  ghost predicate Marked(m: Map, marks: Marks) {
    && (forall t :: t in marks ==>
          m.Contains(t) && m.IsSeed(marks[t].source) && Dist(t, marks[t].source) <= marks[t].level)
    && (forall s :: m.IsSeed(s) ==> s in marks && marks[s] == Mark(0, s))
  }

  /** Queued tiles carry the area of their seed, and levels never decrease along
      the queue nor differ by more than one from `low`. */
  ghost predicate Queued(m: Map, marks: Marks, queue: Queue, low: nat) {
    && (forall i :: 0 <= i < |queue| ==>
          && queue[i].0 in marks
          && low <= marks[queue[i].0].level <= low + 1
          && m.area(marks[queue[i].0].source) == Some(queue[i].1))
    && (forall i, j :: 0 <= i < j < |queue| ==> marks[queue[i].0].level <= marks[queue[j].0].level)
  }

  /** Expanded tiles are at most at level `low`, and their neighbours are marked
      at most one level higher. */
  ghost predicate Expanded(m: Map, marks: Marks, done: set<Tile>, low: nat) {
    forall t :: t in done ==>
      && t in marks && marks[t].level <= low
      && forall n :: m.Contains(n) && Dist(t, n) == 1 ==> n in marks && marks[n].level <= marks[t].level + 1
  }

  ghost predicate Covers(marks: Marks, done: set<Tile>, queue: Queue) {
    forall t :: t in marks ==> t in done || exists i :: 0 <= i < |queue| && queue[i].0 == t
  }

  /** The cache holds the area of its seed for every marked tile that has no
      area of its own, and nothing else. */
  ghost predicate Cached(m: Map, marks: Marks, cache: map<int, int>) {
    && (forall t :: t in marks && m.Contains(t) && m.area(t).None? ==>
          m.GetId(t) in cache && m.area(marks[t].source) == Some(cache[m.GetId(t)]))
    && (forall k :: k in cache ==> exists t :: t in marks && m.Contains(t) && m.area(t).None? && m.GetId(t) == k)
  }

  ghost predicate SeenIs(m: Map, marks: Marks, seen: seq<bool>) {
    && |seen| == Offset(m.width, m.height)
    && forall t :: m.Contains(t) ==> m.GetId(t) < |seen| && (seen[m.GetId(t)] <==> t in marks)
  }

  /** The search is in step with its queue, with tiles of level `low` in front. */
  ghost predicate Searching(m: Map, marks: Marks, done: set<Tile>, queue: Queue, low: nat) {
    Marked(m, marks) && Queued(m, marks, queue, low) && Expanded(m, marks, done, low)
  }

  /** Marking a tile and setting its bit. */
  lemma SeenMark(m: Map, marks: Marks, seen: seq<bool>, t: Tile, mark: Mark)
    requires SeenIs(m, marks, seen) && m.Contains(t)
    ensures SeenIs(m, marks[t := mark], seen[m.GetId(t) := true])
  {
    forall o | m.Contains(o) ensures m.GetId(o) == m.GetId(t) ==> o == t {
      m.IdInjective(o, t);
    }
  }

  /** Marks are only ever added. */
  ghost predicate Extends(old_: Marks, new_: Marks) {
    forall t :: t in old_ ==> t in new_ && new_[t] == old_[t]
  }

  lemma ExtendsTrans(a: Marks, b: Marks, c: Marks)
    requires Extends(a, b) && Extends(b, c)
    ensures Extends(a, c) && (a == c ==> a == b && b == c)
  {
    if a == c {
      assert b.Keys == a.Keys;
      assert a == b && b == c;
    }
  }

  lemma CoversPush(marks: Marks, done: set<Tile>, queue: Queue, t: Tile, mark: Mark, area: int)
    requires Covers(marks, done, queue)
    ensures Covers(marks[t := mark], done, queue + [(t, area)])
  {
    var queue' := queue + [(t, area)];
    assert queue'[|queue|].0 == t;
    forall o | o in marks && o !in done ensures exists i :: 0 <= i < |queue'| && queue'[i].0 == o {
      var i :| 0 <= i < |queue| && queue[i].0 == o;
      assert queue'[i].0 == o;
    }
  }

  ghost predicate NeighbourMarked(m: Map, marks: Marks, n: Tile, low: nat) {
    m.Contains(n) ==> n in marks && marks[n].level <= low + 1
  }

  /** A marked tile is at most one level above the tile being expanded. */
  lemma AlreadySeen(m: Map, marks: Marks, done: set<Tile>, queue: Queue, pos: Tile, n: Tile)
    requires pos in marks && Searching(m, marks, done, queue, marks[pos].level) && Covers(marks, done + {pos}, queue)
    requires m.Contains(n) ==> n in marks
    ensures NeighbourMarked(m, marks, n, marks[pos].level)
  {
  }

  lemma AllNeighbours(m: Map, marks: Marks, done: set<Tile>, queue: Queue, pos: Tile, low: nat)
    requires pos in marks && marks[pos].level == low && Searching(m, marks, done, queue, low)
    requires forall j :: 0 <= j < |DIRS| ==> NeighbourMarked(m, marks, Add(pos, DIRS[j]), low)
    ensures Searching(m, marks, done + {pos}, queue, low)
  {
    forall n | m.Contains(n) && Dist(pos, n) == 1 ensures n in marks && marks[n].level <= low + 1 {
      var j := DirTo(pos, n);
      assert NeighbourMarked(m, marks, Add(pos, DIRS[j]), low);
    }
  }

  /** Discovering `next` from `pos` keeps the search in step. */
  lemma Discover(m: Map, marks: Marks, done: set<Tile>, queue: Queue, pos: Tile, area: int, next: Tile,
                 cache: map<int, int>)
    requires pos in marks && m.area(marks[pos].source) == Some(area)
    requires Searching(m, marks, done, queue, marks[pos].level) && Cached(m, marks, cache)
    requires m.Contains(next) && next !in marks && Dist(pos, next) == 1
    ensures var mark := Mark(marks[pos].level + 1, marks[pos].source);
            var marks' := marks[next := mark];
            && Searching(m, marks', done, queue + [(next, area)], marks[pos].level)
            && Cached(m, marks', cache[m.GetId(next) := area])
  {
    assert !m.IsSeed(next);
    hide Marked, Queued, Expanded, Cached;
    var mark := Mark(marks[pos].level + 1, marks[pos].source);
    DiscoverMarked(m, marks, pos, next);
    DiscoverQueued(m, marks, queue, marks[pos].level, next, mark, area);
    DiscoverExpanded(m, marks, done, marks[pos].level, next, mark);
    DiscoverCached(m, marks, cache, next, mark, area);
  }

  lemma DiscoverMarked(m: Map, marks: Marks, pos: Tile, next: Tile)
    requires Marked(m, marks) && pos in marks && m.Contains(next) && next !in marks && Dist(pos, next) == 1
    ensures Marked(m, marks[next := Mark(marks[pos].level + 1, marks[pos].source)])
  {
  }

  lemma DiscoverQueued(m: Map, marks: Marks, queue: Queue, low: nat, next: Tile, mark: Mark, area: int)
    requires Queued(m, marks, queue, low) && next !in marks && mark.level == low + 1
    requires m.area(mark.source) == Some(area)
    ensures Queued(m, marks[next := mark], queue + [(next, area)], low)
  {
  }

  lemma DiscoverExpanded(m: Map, marks: Marks, done: set<Tile>, low: nat, next: Tile, mark: Mark)
    requires Expanded(m, marks, done, low) && next !in marks
    ensures Expanded(m, marks[next := mark], done, low)
  {
    hide Dist;
  }

  lemma DiscoverCached(m: Map, marks: Marks, cache: map<int, int>, next: Tile, mark: Mark, area: int)
    requires Cached(m, marks, cache) && next !in marks && m.Contains(next) && m.area(next).None?
    requires m.area(mark.source) == Some(area)
    requires forall t :: t in marks ==> m.Contains(t)
    ensures Cached(m, marks[next := mark], cache[m.GetId(next) := area])
  {
    var marks', cache' := marks[next := mark], cache[m.GetId(next) := area];
    forall t | t in marks && m.area(t).None? ensures m.GetId(t) != m.GetId(next) {
      m.IdInjective(t, next);
    }
    forall k | k in cache' ensures exists t :: t in marks' && m.Contains(t) && m.area(t).None? && m.GetId(t) == k {
      if k == m.GetId(next) {
        assert next in marks';
      } else {
        var t :| t in marks && m.Contains(t) && m.area(t).None? && m.GetId(t) == k;
        assert t in marks';
      }
    }
  }

  /** Once everything marked is expanded, no seed is closer to a tile than its
      own: walk from the tile towards any other seed. */
  lemma {:induction false} LevelIsDistance(m: Map, marks: Marks, done: set<Tile>, low: nat, t: Tile, s: Tile)
    requires Marked(m, marks) && Expanded(m, marks, done, low) && marks.Keys <= done
    requires m.Contains(t) && m.IsSeed(s)
    ensures t in marks && marks[t].level <= Dist(t, s)
    decreases Dist(t, s)
  {
    if t != s {
      LevelIsDistance(m, marks, done, low, Towards(t, s), s);
      assert Dist(Towards(t, s), t) == 1;
    }
  }

  /** The front of the queue becomes the tile being expanded. */
  lemma Pop(m: Map, marks: Marks, done: set<Tile>, queue: Queue, low: nat)
    requires Searching(m, marks, done, queue, low) && Covers(marks, done, queue) && queue != []
    ensures var (pos, area) := queue[0];
            && pos in marks && m.area(marks[pos].source) == Some(area)
            && Searching(m, marks, done, queue[1..], marks[pos].level)
            && Covers(marks, done + {pos}, queue[1..])
  {
    hide Marked, Queued, Expanded, Covers;
    PopCovers(marks, done, queue);
    PopQueued(m, marks, queue, low);
    ExpandedHigher(m, marks, done, low, marks[queue[0].0].level);
  }

  lemma PopQueued(m: Map, marks: Marks, queue: Queue, low: nat)
    requires Queued(m, marks, queue, low) && queue != []
    ensures var (pos, area) := queue[0];
            && pos in marks && m.area(marks[pos].source) == Some(area) && low <= marks[pos].level
            && Queued(m, marks, queue[1..], marks[pos].level)
  {
  }

  lemma ExpandedHigher(m: Map, marks: Marks, done: set<Tile>, low: nat, high: nat)
    requires Expanded(m, marks, done, low) && low <= high
    ensures Expanded(m, marks, done, high)
  {
    hide Dist;
  }

  lemma PopCovers(marks: Marks, done: set<Tile>, queue: Queue)
    requires Covers(marks, done, queue) && queue != []
    ensures Covers(marks, done + {queue[0].0}, queue[1..])
  {
    var pos := queue[0].0;
    forall t | t in marks && t !in done && t != pos ensures exists i :: 0 <= i < |queue[1..]| && queue[1..][i].0 == t {
      var i :| 0 <= i < |queue| && queue[i].0 == t;
      assert queue[1..][i - 1].0 == t;
    }
  }

  /** Either a tile was marked or the queue got shorter. */
  lemma Progress(m: Map, before: Marks, marks: Marks, done: set<Tile>, queue: Queue, low: nat)
    requires Searching(m, marks, done, queue, low) && Extends(before, marks)
    ensures marks == before || m.Tiles() - marks.Keys < m.Tiles() - before.Keys
  {
    if marks != before {
      assert marks.Keys != before.Keys;
      var t :| t in marks && t !in before;
      assert t == Tile(t.x, t.y) && t in m.Tiles() - before.Keys;
    }
  }

  lemma SearchIsOver(m: Map, marks: Marks, done: set<Tile>, queue: Queue, low: nat, cache: map<int, int>)
    requires Searching(m, marks, done, queue, low) && Covers(marks, done, queue) && queue == []
    requires Cached(m, marks, cache)
    ensures forall k :: k in cache ==> exists t :: m.Contains(t) && m.area(t).None? && m.GetId(t) == k
    ensures forall t :: m.Contains(t) && m.area(t).None? ==>
              && (m.GetId(t) in cache <==> m.HasArea())
              && (m.HasArea() ==> m.Nearest(t, cache[m.GetId(t)]))
  {
    forall t | m.Contains(t) && m.area(t).None?
      ensures m.GetId(t) in cache <==> m.HasArea()
      ensures m.HasArea() ==> m.Nearest(t, cache[m.GetId(t)])
    {
      if m.GetId(t) in cache {
        var o :| o in marks && m.Contains(o) && m.area(o).None? && m.GetId(o) == m.GetId(t);
        assert m.IsSeed(marks[o].source);
      }
      if m.HasArea() {
        forall o | m.IsSeed(o) ensures t in marks && Dist(t, marks[t].source) <= Dist(t, o) {
          LevelIsDistance(m, marks, done, low, t, o);
        }
        assert t in marks;
      }
    }
  }

  class AreaInfo {
    const grid: Map
    var neighborAreaCache: map<int, int>

    constructor (grid: Map)
      ensures this.grid == grid && neighborAreaCache == map[]
    {
      this.grid := grid;
      neighborAreaCache := map[];
    }

    /** The cache is right: it knows the nearest area of every tile that has
        none, unless there is no area at all, and holds nothing else. */
    ghost predicate Valid()
      reads this
    {
      && (forall k :: k in neighborAreaCache ==>
            exists t :: grid.Contains(t) && grid.area(t).None? && grid.GetId(t) == k)
      && forall t :: grid.Contains(t) && grid.area(t).None? ==>
           && (grid.GetId(t) in neighborAreaCache <==> grid.HasArea())
           && (grid.HasArea() ==> grid.Nearest(t, neighborAreaCache[grid.GetId(t)]))
    }

    method PopulateCache()
      modifies this
      ensures Valid()
    {
      hide Searching, Covers, Cached, SeenIs;
      neighborAreaCache := map[];
      var queue, seen;
      ghost var marks;
      queue, seen, marks := Seeds();
      ghost var done: set<Tile> := {};
      ghost var low := 0;
      while queue != []
        invariant Searching(grid, marks, done, queue, low)
        invariant Covers(marks, done, queue)
        invariant Cached(grid, marks, neighborAreaCache)
        invariant SeenIs(grid, marks, seen)
        decreases grid.Tiles() - marks.Keys, |queue|
      {
        var (pos, area) := queue[0];
        Pop(grid, marks, done, queue, low);
        low := marks[pos].level;
        ghost var before := marks;
        queue, seen, marks := Expand(queue[1..], seen, pos, area, marks, done);
        done := done + {pos};
        Progress(grid, before, marks, done, queue, low);
      }
      SearchIsOver(grid, marks, done, queue, low, neighborAreaCache);
    }

    /** Fills the queue with the tiles that have an area. */
    method Seeds() returns (queue: Queue, seen: seq<bool>, ghost marks: Marks)
      ensures Searching(grid, marks, {}, queue, 0)
      ensures Covers(marks, {}, queue)
      ensures SeenIs(grid, marks, seen)
      ensures Cached(grid, marks, map[])
    {
      queue, marks := [], map[];
      OffsetIsProduct(grid.width, grid.height);
      seen := seq(grid.width * grid.height, i => false);
      forall t | grid.Contains(t) ensures grid.GetId(t) < |seen| {
        grid.IdInjective(t, t);
      }
      for x := 0 to grid.width
        invariant forall s :: s in marks <==> grid.IsSeed(s) && s.x < x
        invariant forall s :: s in marks ==> marks[s] == Mark(0, s)
        invariant Queued(grid, marks, queue, 0) && Covers(marks, {}, queue)
        invariant SeenIs(grid, marks, seen)
      {
        for y := 0 to grid.height
          invariant forall s :: s in marks <==> grid.IsSeed(s) && (s.x < x || (s.x == x && s.y < y))
          invariant forall s :: s in marks ==> marks[s] == Mark(0, s)
          invariant Queued(grid, marks, queue, 0) && Covers(marks, {}, queue)
          invariant SeenIs(grid, marks, seen)
        {
          var t := Tile(x, y);
          var curArea := grid.area(t);
          if curArea.Some? {
            ghost var before := queue;
            SeenMark(grid, marks, seen, t, Mark(0, t));
            queue := queue + [(t, curArea.value)];
            seen := seen[grid.GetId(t) := true];
            marks := marks[t := Mark(0, t)];
            assert queue[|before|].0 == t;
            assert forall i :: 0 <= i < |before| ==> queue[i] == before[i];
          }
        }
      }
    }

    /** Everything the search maintains while it looks at the neighbours of
        `pos`, which has just left the queue. */
    ghost predicate Expanding(queue: Queue, seen: seq<bool>, pos: Tile, area: int, marks: Marks, done: set<Tile>)
      reads this
    {
      && pos in marks && grid.area(marks[pos].source) == Some(area)
      && Searching(grid, marks, done, queue, marks[pos].level)
      && Covers(marks, done + {pos}, queue)
      && Cached(grid, marks, neighborAreaCache)
      && SeenIs(grid, marks, seen)
    }

    /** Looks at one neighbour, and pushes it if it is on the map and unseen. */
    method Visit(queue0: Queue, seen0: seq<bool>, pos: Tile, area: int, next: Tile,
                 ghost marks0: Marks, ghost done: set<Tile>)
      returns (queue: Queue, seen: seq<bool>, ghost marks: Marks)
      requires Expanding(queue0, seen0, pos, area, marks0, done) && Dist(pos, next) == 1
      modifies this
      ensures Expanding(queue, seen, pos, area, marks, done)
      ensures Extends(marks0, marks) && (marks == marks0 ==> queue == queue0)
      ensures NeighbourMarked(grid, marks, next, marks0[pos].level)
    {
      queue, seen, marks := queue0, seen0, marks0;
      if next.x >= 0 && next.y >= 0 && next.x < grid.width && next.y < grid.height && !seen[grid.GetId(next)] {
        ghost var mark := Mark(marks[pos].level + 1, marks[pos].source);
        SeenMark(grid, marks, seen, next, mark);
        Discover(grid, marks, done, queue, pos, area, next, neighborAreaCache);
        CoversPush(marks, done + {pos}, queue, next, mark, area);
        seen := seen[grid.GetId(next) := true];
        neighborAreaCache := neighborAreaCache[grid.GetId(next) := area];
        queue := queue + [(next, area)];
        marks := marks[next := mark];
        assert next !in marks0 && next in marks;
      } else {
        AlreadySeen(grid, marks, done, queue, pos, next);
      }
    }

    /** Pushes the unseen neighbours of `pos`. */
    method Expand(queue0: Queue, seen0: seq<bool>, pos: Tile, area: int, ghost marks0: Marks, ghost done: set<Tile>)
      returns (queue: Queue, seen: seq<bool>, ghost marks: Marks)
      requires Expanding(queue0, seen0, pos, area, marks0, done)
      modifies this
      ensures Expanding(queue, seen, pos, area, marks, done)
      ensures Searching(grid, marks, done + {pos}, queue, marks0[pos].level)
      ensures Extends(marks0, marks) && (marks == marks0 ==> queue == queue0)
    {
      hide Searching, Covers, Cached, SeenIs;
      queue, seen, marks := queue0, seen0, marks0;
      ghost var low := marks0[pos].level;
      for i := 0 to |DIRS|
        invariant Expanding(queue, seen, pos, area, marks, done)
        invariant Extends(marks0, marks) && (marks == marks0 ==> queue == queue0)
        invariant forall j :: 0 <= j < i ==> NeighbourMarked(grid, marks, Add(pos, DIRS[j]), low)
      {
        ghost var before := marks;
        DirIsStep(pos, i);
        queue, seen, marks := Visit(queue, seen, pos, area, Add(pos, DIRS[i]), marks, done);
        ExtendsTrans(marks0, before, marks);
      }
      AllNeighbours(grid, marks, done, queue, pos, low);
    }

    /** The area of a tile, or the nearest one from the cache; nothing only if
        the map has no area at all. */
    method GetCachedArea(p: Tile) returns (id: Option<int>)
      requires Valid() && grid.Contains(p)
      ensures id.Some? ==> grid.Nearest(p, id.value)
      ensures grid.area(p).Some? ==> id == grid.area(p)
      ensures id.Some? <==> grid.HasArea()
    {
      var curArea := grid.area(p);
      if curArea.Some? {
        assert grid.IsSeed(p) && Dist(p, p) == 0;
        return curArea;
      }
      var pos := grid.GetId(p);
      if pos !in neighborAreaCache {
        return None;
      }
      return Some(neighborAreaCache[pos]);
    }
  }
}
