/** The bounded topology search (internal/hub/topology.go): a recursive query that walks
    the evidence-backed relationships of one snapshot of the database, at most three hops
    far and over at most twelve relationships a node. */
module Topology {
  import opened Sizes
  import opened Sorting

  datatype Kind =
    | RunsOn | DefinedIn | DeployedAs | Uses | Exposes | ConnectsTo | Provides | Invokes | ConfiguredBy | ContainedIn
    | Other(name: string)

  datatype Relation = Relation(from: string, to: string, kind: Kind, seenAt: int, current: bool, stale: bool)

  datatype Evidence = Evidence(source: string, relations: set<string>, expires: int)

  /** `sources` are the unrevoked ones, `observed` the current, fresh rows of
      source_relationships and `entities` the current entities. */
  datatype Database = Database(
    relations: map<string, Relation>, evidence: map<string, Evidence>, sources: set<string>,
    observed: set<(string, string)>, entities: set<string>)

  datatype Direction = Downstream | Upstream

  const MAX_HOPS := 3
  const FANOUT := 12
  const MAX_ROWS := 80

  // ----- The edges of the walk -----

  predicate Backed(db: Database, id: string, now: int) {
    exists e :: e in db.evidence && db.evidence[e].source in db.sources && id in db.evidence[e].relations
                && db.evidence[e].expires >= now && (db.evidence[e].source, id) in db.observed
  }

  predicate Qualifies(db: Database, id: string, now: int) {
    id in db.relations && db.relations[id].current && !db.relations[id].stale && !db.relations[id].kind.Other? && Backed(db, id, now)
  }

  function Tail(db: Database, dir: Direction, id: string): string
    requires id in db.relations
  {
    if dir == Downstream then db.relations[id].from else db.relations[id].to
  }

  function Next(db: Database, dir: Direction, id: string): string
    requires id in db.relations
  {
    if dir == Downstream then db.relations[id].to else db.relations[id].from
  }

  /** The relationship qualifies and leaves the node in the direction of the walk. */
  predicate Leaves(db: Database, dir: Direction, node: string, id: string, now: int) {
    Qualifies(db, id, now) && Tail(db, dir, id) == node
  }

  /** The order of the fan-out: latest first, then by id. */
  predicate Later(x: (int, string), y: (int, string)) {
    x.0 > y.0 || (x.0 == y.0 && Before(x.1, y.1))
  }

  lemma LaterOrders(s: set<(int, string)>)
    ensures Orders(Later, s)
  {
    forall x: (int, string) ensures !Later(x, x) { BeforeIrreflexive(x.1); }
    forall x: (int, string), y: (int, string), z: (int, string) | Later(x, y) && Later(y, z)
      ensures Later(x, z)
    {
      if Before(x.1, y.1) && Before(y.1, z.1) { BeforeTransitive(x.1, y.1, z.1); }
    }
    forall x, y | x in s && y in s && x != y
      ensures Later(x, y) || Later(y, x)
    {
      if x.0 == y.0 { BeforeTotal(x.1, y.1); }
    }
  }

  ghost function Edges(db: Database, dir: Direction, node: string, now: int): set<(int, string)> {
    set id | id in db.relations && Leaves(db, dir, node, id, now) :: (db.relations[id].seenAt, id)
  }

  /** The first twelve edges of a node; the query takes them before it looks at whether
      they lead back to the path. */
  ghost function Fanout(db: Database, dir: Direction, node: string, now: int): seq<(int, string)> {
    var edges := Edges(db, dir, node, now);
    LaterOrders(edges);
    var ranked := Sort(Later, edges);
    if |ranked| <= FANOUT then ranked else ranked[..FANOUT]
  }

  ghost predicate Within(db: Database, dir: Direction, node: string, id: string, now: int) {
    id in db.relations && (db.relations[id].seenAt, id) in Fanout(db, dir, node, now)
  }

  ghost predicate Narrow(db: Database, dir: Direction, now: int) {
    forall node :: |Edges(db, dir, node, now)| <= FANOUT
  }

  lemma WithinLeaves(db: Database, dir: Direction, node: string, id: string, now: int)
    ensures Within(db, dir, node, id, now) ==> Leaves(db, dir, node, id, now)
    ensures |Edges(db, dir, node, now)| <= FANOUT ==> (Within(db, dir, node, id, now) <==> Leaves(db, dir, node, id, now))
  {
    var edges := Edges(db, dir, node, now);
    LaterOrders(edges);
    assert forall x :: x in Fanout(db, dir, node, now) ==> x in edges;
    assert id in db.relations && Leaves(db, dir, node, id, now) <==> id in db.relations && (db.relations[id].seenAt, id) in edges;
  }

  // ----- The walk -----

  datatype Path = Path(nodes: seq<string>, edges: seq<string>)

  ghost predicate Extends(db: Database, dir: Direction, now: int, p: Path, id: string) {
    && p.nodes != [] && Within(db, dir, p.nodes[|p.nodes| - 1], id, now) && Next(db, dir, id) !in p.nodes
  }

  function Grown(db: Database, dir: Direction, p: Path, id: string): Path
    requires id in db.relations
  {
    Path(p.nodes + [Next(db, dir, id)], p.edges + [id])
  }

  ghost function Grow(db: Database, dir: Direction, now: int, walk: set<Path>): set<Path> {
    set p, id | p in walk && id in db.relations && Extends(db, dir, now, p, id) :: Grown(db, dir, p, id)
  }

  /** The rows of the recursive query at one depth. */
  ghost function Level(db: Database, dir: Direction, start: string, now: int, depth: nat): set<Path> {
    if depth == 0 then {Path([start], [])} else Grow(db, dir, now, Level(db, dir, start, now, depth - 1))
  }

  ghost function Walk(db: Database, dir: Direction, start: string, now: int): set<Path> {
    Level(db, dir, start, now, 1) + Level(db, dir, start, now, 2) + Level(db, dir, start, now, 3)
  }

  predicate Long(p: Path) { |p.nodes| > 1 && |p.edges| > 0 }

  function Drop(p: Path): Path
    requires Long(p)
  {
    Path(p.nodes[..|p.nodes| - 1], p.edges[..|p.edges| - 1])
  }

  lemma GrowIff(db: Database, dir: Direction, now: int, walk: set<Path>, p: Path)
    ensures p in Grow(db, dir, now, walk) <==>
              && Long(p) && Drop(p) in walk && p.edges[|p.edges| - 1] in db.relations
              && Extends(db, dir, now, Drop(p), p.edges[|p.edges| - 1]) && p == Grown(db, dir, Drop(p), p.edges[|p.edges| - 1])
  {
    hide Extends, Next;
    if p in Grow(db, dir, now, walk) {
      var q, id :| q in walk && id in db.relations && Extends(db, dir, now, q, id) && p == Grown(db, dir, q, id);
      NonEmpty(db, dir, now, q, id);
      assert Drop(p) == q && p.edges[|p.edges| - 1] == id;
    }
  }

  lemma NonEmpty(db: Database, dir: Direction, now: int, p: Path, id: string)
    requires Extends(db, dir, now, p, id)
    ensures p.nodes != []
  {
  }

  // ----- What a path is -----

  predicate Simple(p: Path) {
    forall i, j :: 0 <= i < j < |p.nodes| ==> p.nodes[i] != p.nodes[j]
  }

  predicate Step(db: Database, dir: Direction, now: int, p: Path, i: nat) {
    i < |p.edges| && i + 1 < |p.nodes| && Leaves(db, dir, p.nodes[i], p.edges[i], now) && Next(db, dir, p.edges[i]) == p.nodes[i + 1]
  }

  /** A simple path from `start` of the given length over qualifying relationships, each
      in the direction of the walk. */
  ghost predicate Route(db: Database, dir: Direction, start: string, now: int, p: Path) {
    && |p.nodes| == |p.edges| + 1 && p.nodes[0] == start && Simple(p)
    && forall i :: 0 <= i < |p.edges| ==> Step(db, dir, now, p, i)
  }

  /** Every edge is among the first twelve of its node. */
  ghost predicate Reached(db: Database, dir: Direction, now: int, p: Path) {
    forall i :: 0 <= i < |p.edges| && i < |p.nodes| ==> Within(db, dir, p.nodes[i], p.edges[i], now)
  }

  ghost predicate Found(db: Database, dir: Direction, start: string, now: int, p: Path) {
    Route(db, dir, start, now, p) && Reached(db, dir, now, p)
  }

  /** A path is found exactly when its last edge extends a path that is. */
  lemma FoundIff(db: Database, dir: Direction, start: string, now: int, p: Path)
    requires Long(p)
    ensures Found(db, dir, start, now, p) <==>
              && Found(db, dir, start, now, Drop(p)) && p.edges[|p.edges| - 1] in db.relations
              && Extends(db, dir, now, Drop(p), p.edges[|p.edges| - 1]) && p == Grown(db, dir, Drop(p), p.edges[|p.edges| - 1])
  {
    hide Found, Extends, Grown;
    var q, id := Drop(p), p.edges[|p.edges| - 1];
    if Found(db, dir, start, now, p) {
      FoundShorter(db, dir, start, now, p);
    }
    if Found(db, dir, start, now, q) && id in db.relations && Extends(db, dir, now, q, id) && p == Grown(db, dir, q, id) {
      FoundLonger(db, dir, start, now, p);
    }
  }

  lemma FoundShorter(db: Database, dir: Direction, start: string, now: int, p: Path)
    requires Long(p) && Found(db, dir, start, now, p)
    ensures var q, id := Drop(p), p.edges[|p.edges| - 1];
      Found(db, dir, start, now, q) && id in db.relations && Extends(db, dir, now, q, id) && p == Grown(db, dir, q, id)
  {
    hide Within, Leaves;
    var q, id, k := Drop(p), p.edges[|p.edges| - 1], |p.edges| - 1;
    assert Step(db, dir, now, p, k) && Within(db, dir, p.nodes[k], p.edges[k], now);
    forall i | 0 <= i < |q.edges| ensures Step(db, dir, now, q, i) { assert Step(db, dir, now, p, i); }
    forall i | 0 <= i < |q.edges| && i < |q.nodes| ensures Within(db, dir, q.nodes[i], q.edges[i], now) {
      assert Within(db, dir, p.nodes[i], p.edges[i], now);
    }
    LeavesKnown(db, dir, p.nodes[k], id, now);
  }

  lemma FoundLonger(db: Database, dir: Direction, start: string, now: int, p: Path)
    requires Long(p)
    requires var q, id := Drop(p), p.edges[|p.edges| - 1];
      Found(db, dir, start, now, q) && id in db.relations && Extends(db, dir, now, q, id) && p == Grown(db, dir, q, id)
    ensures Found(db, dir, start, now, p)
  {
    hide Within, Leaves;
    var q, id, k := Drop(p), p.edges[|p.edges| - 1], |p.edges| - 1;
    WithinLeaves(db, dir, q.nodes[k], id, now);
    forall i | 0 <= i < |p.edges| ensures Step(db, dir, now, p, i) { if i < k { assert Step(db, dir, now, q, i); } }
    forall i | 0 <= i < |p.edges| && i < |p.nodes| ensures Within(db, dir, p.nodes[i], p.edges[i], now) {
      if i < k { assert Within(db, dir, q.nodes[i], q.edges[i], now); }
    }
  }

  lemma LeavesKnown(db: Database, dir: Direction, node: string, id: string, now: int)
    requires Leaves(db, dir, node, id, now)
    ensures id in db.relations
  {
  }

  lemma {:induction false} LevelIff(db: Database, dir: Direction, start: string, now: int, depth: nat, p: Path)
    ensures p in Level(db, dir, start, now, depth) <==> |p.edges| == depth && Found(db, dir, start, now, p)
    decreases depth
  {
    hide Grow, Extends, Grown, Found;
    if depth == 0 {
      RootFound(db, dir, start, now, p);
    } else {
      GrowIff(db, dir, now, Level(db, dir, start, now, depth - 1), p);
      FoundLong(db, dir, start, now, p);
      if Long(p) {
        LevelIff(db, dir, start, now, depth - 1, Drop(p));
        FoundIff(db, dir, start, now, p);
      }
    }
  }

  lemma RootFound(db: Database, dir: Direction, start: string, now: int, p: Path)
    ensures p == Path([start], []) <==> |p.edges| == 0 && Found(db, dir, start, now, p)
  {
    if |p.nodes| == 1 && p.nodes[0] == start { assert p.nodes == [start]; }
  }

  lemma FoundLong(db: Database, dir: Direction, start: string, now: int, p: Path)
    ensures Found(db, dir, start, now, p) && |p.edges| > 0 ==> Long(p)
  {
  }

  /** The walk finds exactly the simple paths of one to three hops whose edges are all
      among the first twelve of their nodes. */
  lemma WalkIff(db: Database, dir: Direction, start: string, now: int, p: Path)
    ensures p in Walk(db, dir, start, now) <==>
              1 <= |p.edges| <= MAX_HOPS && Route(db, dir, start, now, p) && Reached(db, dir, now, p)
  {
    hide Level, Route, Reached;
    LevelIff(db, dir, start, now, 1, p);
    LevelIff(db, dir, start, now, 2, p);
    LevelIff(db, dir, start, now, 3, p);
  }

  /** With at most twelve qualifying edges a node it finds them all. */
  lemma WalkComplete(db: Database, dir: Direction, start: string, now: int, p: Path)
    requires Narrow(db, dir, now)
    ensures p in Walk(db, dir, start, now) <==> 1 <= |p.edges| <= MAX_HOPS && Route(db, dir, start, now, p)
  {
    hide Walk, Within, Leaves;
    WalkIff(db, dir, start, now, p);
    if Route(db, dir, start, now, p) {
      forall i | 0 <= i < |p.edges| && i < |p.nodes| ensures Within(db, dir, p.nodes[i], p.edges[i], now) {
        assert Step(db, dir, now, p, i);
        WithinLeaves(db, dir, p.nodes[i], p.edges[i], now);
      }
    }
  }

  // ----- Downstream and upstream -----

  function Reversed<T>(q: seq<T>): seq<T> {
    seq(|q|, i requires 0 <= i < |q| => q[|q| - 1 - i])
  }

  function Back(p: Path): Path {
    Path(Reversed(p.nodes), Reversed(p.edges))
  }

  function Turned(dir: Direction): Direction {
    if dir == Downstream then Upstream else Downstream
  }

  lemma BackBack(p: Path)
    ensures Back(Back(p)) == p
  {
    assert Reversed(Reversed(p.nodes)) == p.nodes && Reversed(Reversed(p.edges)) == p.edges;
  }

  lemma RouteBack(db: Database, dir: Direction, start: string, now: int, p: Path)
    requires Route(db, dir, start, now, p)
    ensures Route(db, Turned(dir), p.nodes[|p.nodes| - 1], now, Back(p))
  {
    var b := Back(p);
    forall i | 0 <= i < |b.edges|
      ensures Step(db, Turned(dir), now, b, i)
    {
      assert Step(db, dir, now, p, |p.edges| - 1 - i);
    }
  }

  predicate Ends(p: Path, node: string) {
    p.nodes != [] && p.nodes[|p.nodes| - 1] == node
  }

  lemma RouteReversal(db: Database, dir: Direction, a: string, b: string, now: int, p: Path)
    ensures Route(db, dir, a, now, p) && Ends(p, b) <==> Route(db, Turned(dir), b, now, Back(p)) && Ends(Back(p), a)
  {
    hide Step;
    if Route(db, dir, a, now, p) && Ends(p, b) {
      RouteBack(db, dir, a, now, p);
    }
    if Route(db, Turned(dir), b, now, Back(p)) && Ends(Back(p), a) {
      RouteBack(db, Turned(dir), b, now, Back(p));
      BackBack(p);
    }
  }

  /** The paths from `a` to `b` one way are exactly the reversed paths from `b` to `a` the
      other way, with at most twelve qualifying edges a node in each direction. */
  lemma Reversal(db: Database, dir: Direction, a: string, b: string, now: int, p: Path)
    requires Narrow(db, Downstream, now) && Narrow(db, Upstream, now)
    ensures p in Walk(db, dir, a, now) && Ends(p, b) <==> Back(p) in Walk(db, Turned(dir), b, now) && Ends(Back(p), a)
  {
    hide Walk, Route, Narrow;
    WalkComplete(db, dir, a, now, p);
    WalkComplete(db, Turned(dir), b, now, Back(p));
    RouteReversal(db, dir, a, b, now, p);
  }

  /** Without that limit a found path is found the other way round exactly when its edges
      are also among the first twelve that lead to their heads. */
  lemma ReversalIff(db: Database, dir: Direction, a: string, b: string, now: int, p: Path)
    ensures p in Walk(db, dir, a, now) && Ends(p, b) ==>
              (Back(p) in Walk(db, Turned(dir), b, now) <==>
               forall i :: 0 <= i < |p.edges| && i + 1 < |p.nodes| ==> Within(db, Turned(dir), p.nodes[i + 1], p.edges[i], now))
  {
    hide Walk, Within, Step;
    WalkIff(db, dir, a, now, p);
    WalkIff(db, Turned(dir), b, now, Back(p));
    RouteReversal(db, dir, a, b, now, p);
    var q, n := Back(p), |p.edges|;
    assert forall i :: 0 <= i < n && |p.nodes| == n + 1 ==> q.edges[i] == p.edges[n - 1 - i] && q.nodes[i] == p.nodes[n - i];
    var found := p in Walk(db, dir, a, now) && Ends(p, b);
    if found && Reached(db, Turned(dir), now, q) {
      forall i | 0 <= i < n ensures Within(db, Turned(dir), p.nodes[i + 1], p.edges[i], now) {
        assert Within(db, Turned(dir), q.nodes[n - 1 - i], q.edges[n - 1 - i], now);
      }
    }
    if found && forall i :: 0 <= i < n && i + 1 < |p.nodes| ==> Within(db, Turned(dir), p.nodes[i + 1], p.edges[i], now) {
      forall i | 0 <= i < n ensures Within(db, Turned(dir), q.nodes[i], q.edges[i], now) {
        assert Within(db, Turned(dir), p.nodes[n - 1 - i + 1], p.edges[n - 1 - i], now);
      }
    }
  }

  // ----- A node that too many lead to -----

  function Id(i: nat): string {
    seq(i, _ => 'a')
  }

  function Spoke(i: nat): Relation {
    Relation(Id(i), "h", Uses, 0, true, false)
  }

  /** Thirteen nodes with one relationship each, all to the head "h". */
  const WHEEL := Database(
    map id | id in Spokes() :: Spoke(|id|), map["v" := Evidence("s", Spokes(), 0)], {"s"},
    set id | id in Spokes() :: ("s", id), Spokes() + {"h"})

  function Spokes(): set<string> {
    set i: nat | i < FANOUT + 1 :: Id(i)
  }

  lemma SpokeQualifies(id: string)
    ensures Qualifies(WHEEL, id, 0) <==> id in Spokes()
    ensures id in Spokes() ==> id != "h" && id in WHEEL.relations && WHEEL.relations[id] == Relation(id, "h", Uses, 0, true, false)
  {
    if id in Spokes() {
      assert id == Id(|id|) && (id != [] ==> id[0] == 'a');
      assert "h"[0] == 'h';
      var v := WHEEL.evidence["v"];
      assert v.source in WHEEL.sources && id in v.relations && (v.source, id) in WHEEL.observed;
    }
  }

  lemma {:induction false} IdsDiffer(n: nat, ids: set<(int, string)>)
    requires forall i: nat :: i < n ==> (0, Id(i)) in ids
    ensures |ids| >= n
  {
    if n == 0 {
    } else {
      var last := (0, Id(n - 1));
      forall i: nat | i < n - 1
        ensures (0, Id(i)) in ids - {last}
      {
        assert |Id(i)| != |Id(n - 1)|;
      }
      IdsDiffer(n - 1, ids - {last});
    }
  }

  lemma {:induction false} FewElements<T>(q: seq<T>)
    ensures |set x | x in q| <= |q|
  {
    if q == [] {
    } else {
      FewElements(q[1..]);
      assert (set x | x in q) == {q[0]} + (set x | x in q[1..]);
    }
  }

  /** One of the thirteen is not followed upstream from the head. */
  lemma SpokeCut() returns (id: string)
    ensures id in Spokes() && !Within(WHEEL, Upstream, "h", id, 0)
  {
    hide WHEEL, Qualifies;
    var edges, first := Edges(WHEEL, Upstream, "h", 0), Fanout(WHEEL, Upstream, "h", 0);
    forall i: nat | i < FANOUT + 1
      ensures (0, Id(i)) in edges
    {
      SpokeQualifies(Id(i));
      assert Leaves(WHEEL, Upstream, "h", Id(i), 0);
    }
    IdsDiffer(FANOUT + 1, edges);
    FewElements(first);
    if edges <= set x | x in first {
      SizeOfSubset(edges, set x | x in first);
      assert false;
    }
    var edge :| edge in edges && edge !in first;
    id := edge.1;
    SpokeQualifies(id);
  }

  lemma WheelNarrow()
    ensures Narrow(WHEEL, Downstream, 0)
  {
    forall node
      ensures |Edges(WHEEL, Downstream, node, 0)| <= FANOUT
    {
      forall edge | edge in Edges(WHEEL, Downstream, node, 0)
        ensures edge == (0, node)
      {
        SpokeQualifies(edge.1);
      }
      SizeOfSubset(Edges(WHEEL, Downstream, node, 0), {(0, node)});
    }
  }

  ghost predicate OneWay(db: Database, a: string, b: string, p: Path) {
    p in Walk(db, Downstream, a, 0) && Ends(p, b) && Back(p) !in Walk(db, Upstream, b, 0)
  }

  /** So the two directions differ: a path that is found downstream and not upstream. */
  lemma ReversalFails()
    ensures exists a, p :: OneWay(WHEEL, a, "h", p)
  {
    hide Walk, Within, WHEEL;
    var id := SpokeCut();
    SpokeQualifies(id);
    var p := Path([id, "h"], [id]);
    assert Simple(p);
    assert Leaves(WHEEL, Downstream, id, id, 0);
    assert Step(WHEEL, Downstream, 0, p, 0);
    WheelNarrow();
    WalkComplete(WHEEL, Downstream, id, 0, p);
    ReversalIff(WHEEL, Downstream, id, "h", 0, p);
    assert !Within(WHEEL, Turned(Downstream), p.nodes[1], p.edges[0], 0);
    assert OneWay(WHEEL, id, "h", p);
  }

  // ----- The answer -----

  /** The rows that the query returns: the deepest first, at most eighty. */
  ghost predicate Selected(rows: seq<Path>, walk: set<Path>) {
    && |rows| == (if |walk| <= MAX_ROWS then |walk| else MAX_ROWS)
    && (forall i :: 0 <= i < |rows| ==> rows[i] in walk)
    && (forall i, j :: 0 <= i < j < |rows| ==> rows[i] != rows[j] && |rows[i].edges| >= |rows[j].edges|)
    && (forall i, p :: 0 <= i < |rows| && p in walk && p !in rows ==> |rows[i].edges| >= |p.edges|)
  }

  /** What the second look at the database asks of a row. */
  predicate Shown(db: Database, now: int, p: Path) {
    && (forall i :: 0 <= i < |p.nodes| ==> p.nodes[i] in db.entities)
    && (forall i :: 0 <= i < |p.edges| ==> p.edges[i] in db.relations && db.relations[p.edges[i]].current && !db.relations[p.edges[i]].stale && Backed(db, p.edges[i], now))
  }

  function Answer(db: Database, now: int, rows: seq<Path>): seq<Path> {
    if rows == [] then []
    else
      var last := rows[|rows| - 1];
      Answer(db, now, rows[..|rows| - 1]) + (if Shown(db, now, last) then [last] else [])
  }

  /** Unexpired evidence for the relationship from a live source that still observes it. */
  ghost predicate Vouched(db: Database, id: string, now: int) {
    exists e, source :: e in db.evidence && source in db.sources && db.evidence[e].source == source && id in db.evidence[e].relations
                        && now <= db.evidence[e].expires && (source, id) in db.observed
  }

  /** Every node is a current entity, and every edge a current, fresh relationship with
      unexpired evidence from a live source that still observes it. */
  ghost predicate Supported(db: Database, now: int, p: Path) {
    && (forall node :: node in p.nodes ==> node in db.entities)
    && forall id :: id in p.edges ==> id in db.relations && db.relations[id].current && !db.relations[id].stale && Vouched(db, id, now)
  }

  lemma ShownIsSupported(db: Database, now: int, p: Path)
    ensures Shown(db, now, p) <==> Supported(db, now, p)
  {
    if Shown(db, now, p) {
      forall id | id in p.edges
        ensures Backed(db, id, now) && id in db.relations && db.relations[id].current && !db.relations[id].stale
      {
        var i :| 0 <= i < |p.edges| && p.edges[i] == id;
      }
      forall id | id in p.edges
        ensures Vouched(db, id, now)
      {
        BackedBy(db, id, now);
      }
    }
    if Supported(db, now, p) {
      forall i | 0 <= i < |p.edges|
        ensures Backed(db, p.edges[i], now)
      {
        assert p.edges[i] in p.edges;
        BackedBy(db, p.edges[i], now);
      }
    }
  }

  lemma BackedBy(db: Database, id: string, now: int)
    ensures Backed(db, id, now) <==> Vouched(db, id, now)
  {
    if Backed(db, id, now) {
      var e :| e in db.evidence && db.evidence[e].source in db.sources && id in db.evidence[e].relations
               && db.evidence[e].expires >= now && (db.evidence[e].source, id) in db.observed;
      assert db.evidence[e].source in db.sources;
    }
  }

  /** Whatever order the rows are in, the items are in it as well. */
  ghost predicate OrderKept(rows: seq<Path>, items: seq<Path>) {
    forall before: (Path, Path) -> bool :: SortedBy(before, rows) ==> SortedBy(before, items)
  }

  /** The answer has exactly the supported rows, in the order of the rows. */
  lemma AnswerKeeps(db: Database, now: int, rows: seq<Path>)
    ensures forall p :: p in Answer(db, now, rows) <==> p in rows && Supported(db, now, p)
    ensures OrderKept(rows, Answer(db, now, rows))
  {
    forall p ensures p in Answer(db, now, rows) <==> p in rows && Supported(db, now, p) {
      AnswerIff(db, now, rows, p);
      ShownIsSupported(db, now, p);
    }
    forall before: (Path, Path) -> bool | SortedBy(before, rows)
      ensures SortedBy(before, Answer(db, now, rows))
    {
      AnswerOrder(db, now, rows, before);
    }
  }

  lemma {:induction false} AnswerOrder(db: Database, now: int, rows: seq<Path>, before: (Path, Path) -> bool)
    requires SortedBy(before, rows)
    ensures SortedBy(before, Answer(db, now, rows))
  {
    hide Shown;
    if rows == [] {
    } else {
      var n := |rows| - 1;
      AnswerOrder(db, now, rows[..n], before);
      var kept := Answer(db, now, rows[..n]);
      forall i | 0 <= i < |kept|
        ensures before(kept[i], rows[n])
      {
        AnswerIff(db, now, rows[..n], kept[i]);
        assert kept[i] in kept;
        var j :| 0 <= j < n && rows[..n][j] == kept[i];
        assert rows[j] == kept[i];
      }
    }
  }

  method Check(ids: seq<string>, known: set<string>) returns (valid: bool)
    ensures valid <==> forall i :: 0 <= i < |ids| ==> ids[i] in known
  {
    valid := true;
    var i := 0;
    while i < |ids| && valid
      invariant i <= |ids|
      invariant valid ==> forall j :: 0 <= j < i ==> ids[j] in known
      invariant !valid ==> exists j :: 0 <= j < |ids| && ids[j] !in known
    {
      if ids[i] !in known {
        valid := false;
      }
      i := i + 1;
    }
  }

  method Collect(rows: seq<Path>) returns (nodes: set<string>, edges: set<string>)
    ensures forall i, j :: 0 <= i < |rows| && 0 <= j < |rows[i].nodes| ==> rows[i].nodes[j] in nodes
    ensures forall i, j :: 0 <= i < |rows| && 0 <= j < |rows[i].edges| ==> rows[i].edges[j] in edges
  {
    nodes, edges := {}, {};
    var i := 0;
    while i < |rows|
      invariant 0 <= i <= |rows|
      invariant forall k, j :: 0 <= k < i && 0 <= j < |rows[k].nodes| ==> rows[k].nodes[j] in nodes
      invariant forall k, j :: 0 <= k < i && 0 <= j < |rows[k].edges| ==> rows[k].edges[j] in edges
    {
      nodes := nodes + set id | id in rows[i].nodes;
      edges := edges + set id | id in rows[i].edges;
      i := i + 1;
    }
  }

  /** The rows become items: their entities, relationships and evidence are read in one
      batch each, and a row that misses one of them is left out. */
  method Assemble(db: Database, now: int, rows: seq<Path>) returns (items: seq<Path>)
    ensures items == Answer(db, now, rows)
    ensures forall p :: p in items <==> p in rows && Supported(db, now, p)
    ensures OrderKept(rows, items)
  {
    AnswerKeeps(db, now, rows);
    var nodes, edges := Collect(rows);
    var entities := set id | id in nodes && id in db.entities;
    var relationships := set id | id in edges && id in db.relations && db.relations[id].current && !db.relations[id].stale;
    var evidence := set id | id in edges && Backed(db, id, now);
    items := [];
    var i := 0;
    while i < |rows|
      invariant 0 <= i <= |rows|
      invariant items == Answer(db, now, rows[..i])
    {
      assert rows[..i + 1][..i] == rows[..i];
      var valid := Check(rows[i].nodes, entities);
      var supported := Check(rows[i].edges, relationships * evidence);
      assert valid && supported <==> Shown(db, now, rows[i]);
      if valid && supported {
        items := items + [rows[i]];
      }
      i := i + 1;
    }
    assert rows[..|rows|] == rows;
  }

  lemma {:induction false} AnswerIff(db: Database, now: int, rows: seq<Path>, p: Path)
    ensures p in Answer(db, now, rows) <==> p in rows && Shown(db, now, p)
  {
    if rows == [] {
    } else {
      AnswerIff(db, now, rows[..|rows| - 1], p);
      assert rows == rows[..|rows| - 1] + [rows[|rows| - 1]];
    }
  }

  /** Every path of the answer is simple, has one to three hops in the direction of the
      walk, and uses current, fresh, evidence-backed relationships between current
      entities. */
  lemma AnswerSound(db: Database, dir: Direction, start: string, now: int, rows: seq<Path>, p: Path)
    ensures Selected(rows, Walk(db, dir, start, now)) && p in Answer(db, now, rows) ==>
              && 1 <= |p.edges| <= MAX_HOPS && Route(db, dir, start, now, p) && Reached(db, dir, now, p)
              && (forall i :: 0 <= i < |p.nodes| ==> p.nodes[i] in db.entities)
              && (forall i :: 0 <= i < |p.edges| ==> Edge(db, dir, now, p.nodes[i], p.nodes[i + 1], p.edges[i]))
  {
    hide Walk, Answer, Reached, Step, Edge;
    AnswerIff(db, now, rows, p);
    WalkIff(db, dir, start, now, p);
    if Selected(rows, Walk(db, dir, start, now)) && p in Answer(db, now, rows) {
      forall i | 0 <= i < |p.edges|
        ensures Edge(db, dir, now, p.nodes[i], p.nodes[i + 1], p.edges[i])
      {
        assert Step(db, dir, now, p, i);
        StepIsEdge(db, dir, now, p, i);
      }
    }
  }

  /** A current, fresh relationship of a followed kind between the two nodes, in the
      direction of the walk, with evidence that has not expired from a source that is not
      revoked and still observes it. */
  ghost predicate Edge(db: Database, dir: Direction, now: int, node: string, next: string, id: string) {
    && id in db.relations && db.relations[id].current && !db.relations[id].stale && !db.relations[id].kind.Other?
    && (dir == Downstream ==> db.relations[id].from == node && db.relations[id].to == next)
    && (dir == Upstream ==> db.relations[id].to == node && db.relations[id].from == next)
    && Vouched(db, id, now)
  }

  lemma StepIsEdge(db: Database, dir: Direction, now: int, p: Path, i: nat)
    requires Step(db, dir, now, p, i)
    ensures Edge(db, dir, now, p.nodes[i], p.nodes[i + 1], p.edges[i])
  {
    BackedBy(db, p.edges[i], now);
  }

  /** The first twelve edges of a node are those with fewer than twelve others that were
      seen later, or at the same time with a smaller id. */
  lemma WithinIs(db: Database, dir: Direction, node: string, id: string, now: int)
    ensures Within(db, dir, node, id, now) <==>
              && Leaves(db, dir, node, id, now)
              && id in db.relations && |Ahead(db, dir, node, id, now)| < FANOUT
  {
    hide Leaves, Later;
    var edges := Edges(db, dir, node, now);
    LaterOrders(edges);
    var ranked := Sort(Later, edges);
    if id in db.relations && Leaves(db, dir, node, id, now) {
      var x := (db.relations[id].seenAt, id);
      assert x in edges;
      var k :| 0 <= k < |ranked| && ranked[k] == x;
      AheadIs(db, dir, node, id, now, ranked, k);
      assert k < FANOUT ==> Fanout(db, dir, node, now)[k] == x;
    } else {
      WithinLeaves(db, dir, node, id, now);
    }
  }

  ghost function Ahead(db: Database, dir: Direction, node: string, id: string, now: int): set<(int, string)>
    requires id in db.relations
  {
    set x | x in Edges(db, dir, node, now) && (x.0 > db.relations[id].seenAt || (x.0 == db.relations[id].seenAt && Before(x.1, id)))
  }

  lemma AheadIs(db: Database, dir: Direction, node: string, id: string, now: int, ranked: seq<(int, string)>, k: nat)
    requires id in db.relations && k < |ranked| && ranked[k] == (db.relations[id].seenAt, id)
    requires Orders(Later, Edges(db, dir, node, now)) && SortedBy(Later, ranked) && forall x :: x in ranked <==> x in Edges(db, dir, node, now)
    ensures |Ahead(db, dir, node, id, now)| == k
  {
    hide Edges;
    forall x
      ensures x in Ahead(db, dir, node, id, now) <==> x in Members(ranked[..k])
    {
      if x in Ahead(db, dir, node, id, now) {
        var j :| 0 <= j < |ranked| && ranked[j] == x;
        assert Later(x, ranked[k]);
        assert ranked[..k][j] == x;
      }
      if x in Members(ranked[..k]) {
        var j :| 0 <= j < k && ranked[j] == x;
        assert Later(ranked[j], ranked[k]);
      }
    }
    assert Ahead(db, dir, node, id, now) == Members(ranked[..k]);
    assert forall i, j :: 0 <= i < j < k ==> Later(ranked[i], ranked[j]);
    assert forall i, j :: 0 <= i < j < k ==> ranked[i] != ranked[j];
    DistinctSize(ranked[..k]);
  }

  lemma SeqOfAll(rows: seq<Path>, walk: set<Path>)
    requires Selected(rows, walk) && |walk| <= MAX_ROWS
    ensures forall p :: p in walk ==> p in rows
  {
    var seen := Members(rows);
    DistinctSize(rows);
    assert seen <= walk;
    assert |walk - seen| == |walk| - |seen|;
    assert walk == seen + (walk - seen);
    assert walk - seen == {};
  }

  /** Below the cap, and with at most twelve qualifying edges a node, the answer has all
      the paths between current entities. */
  lemma AnswerComplete(db: Database, dir: Direction, start: string, now: int, rows: seq<Path>, p: Path)
    requires Selected(rows, Walk(db, dir, start, now)) && |Walk(db, dir, start, now)| <= MAX_ROWS && Narrow(db, dir, now)
    ensures p in Answer(db, now, rows) <==>
              && 1 <= |p.edges| <= MAX_HOPS && Route(db, dir, start, now, p)
              && forall i :: 0 <= i < |p.nodes| ==> p.nodes[i] in db.entities
  {
    hide Walk, Answer, Route, Narrow;
    AnswerIff(db, now, rows, p);
    WalkComplete(db, dir, start, now, p);
    SeqOfAll(rows, Walk(db, dir, start, now));
    if Route(db, dir, start, now, p) {
      RouteShown(db, dir, start, now, p);
    }
  }

  lemma RouteShown(db: Database, dir: Direction, start: string, now: int, p: Path)
    requires Route(db, dir, start, now, p)
    ensures Shown(db, now, p) <==> forall i :: 0 <= i < |p.nodes| ==> p.nodes[i] in db.entities
  {
    forall i | 0 <= i < |p.edges|
      ensures Qualifies(db, p.edges[i], now)
    {
      assert Step(db, dir, now, p, i);
    }
  }
}
