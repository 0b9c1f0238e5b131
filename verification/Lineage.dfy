/** Source lineage as a graph: the capture worklist and what it computes. */
module Lineage {
  import opened Outcomes

  datatype Kind = Record | Event | Artifact | Unknown

  datatype Node = Node(kind: Kind, id: nat)

  type Version = nat

  /** One row of `source_edges`: `subject` was derived from `source`. */
  datatype Edge = Edge(subject: Node, source: Node, version: Option<Version>, access: bool)

  /** A source as some traversal reaches it. */
  datatype Arrival = Arrival(node: Node, version: Option<Version>, access: bool)

  /** What one subject keeps about one of its sources. */
  datatype Tag = Tag(version: Option<Version>, access: bool)

  type Rows = map<nat, Edge>

  const VISIT_BOUND := 1000

  function Across(from: Arrival, edge: Edge): Arrival {
    Arrival(edge.source, edge.version, from.access && edge.access)
  }

  // ---------------------------------------------------------------- paths

  /** A path from a root through stored rows. */
  datatype Path = Start(root: Arrival) | Follow(prefix: Path, row: nat)

  ghost function End(rows: Rows, p: Path): Arrival {
    match p
    case Start(root) => root
    case Follow(q, r) => if r in rows then Across(End(rows, q), rows[r]) else End(rows, q)
  }

  ghost predicate IsPath(rows: Rows, roots: seq<Arrival>, p: Path) {
    match p
    case Start(root) => root in roots
    case Follow(q, r) => IsPath(rows, roots, q) && r in rows && rows[r].subject == End(rows, q).node
  }

  ghost predicate Arrives(rows: Rows, roots: seq<Arrival>, x: Arrival) {
    exists p :: IsPath(rows, roots, p) && End(rows, p) == x
  }

  lemma ArrivesRoot(rows: Rows, roots: seq<Arrival>, x: Arrival)
    requires x in roots
    ensures Arrives(rows, roots, x)
  {
    assert IsPath(rows, roots, Start(x)) && End(rows, Start(x)) == x;
  }

  lemma ArrivesAcross(rows: Rows, roots: seq<Arrival>, x: Arrival, r: nat)
    requires Arrives(rows, roots, x)
    requires r in rows && rows[r].subject == x.node
    ensures Arrives(rows, roots, Across(x, rows[r]))
  {
    var p :| IsPath(rows, roots, p) && End(rows, p) == x;
    assert IsPath(rows, roots, Follow(p, r)) && End(rows, Follow(p, r)) == Across(x, rows[r]);
  }

  /** Anything true of the roots and kept along every row is true of every arrival. */
  lemma {:induction false} ArrivalInduction(rows: Rows, roots: seq<Arrival>, holds: Arrival -> bool, x: Arrival)
    requires forall y :: y in roots ==> holds(y)
    requires forall y, r :: holds(y) && r in rows && rows[r].subject == y.node ==> holds(Across(y, rows[r]))
    requires Arrives(rows, roots, x)
    ensures holds(x)
  {
    var p :| IsPath(rows, roots, p) && End(rows, p) == x;
    PathInduction(rows, roots, holds, p);
  }

  lemma {:induction false} PathInduction(rows: Rows, roots: seq<Arrival>, holds: Arrival -> bool, p: Path)
    requires forall y :: y in roots ==> holds(y)
    requires forall y, r :: holds(y) && r in rows && rows[r].subject == y.node ==> holds(Across(y, rows[r]))
    requires IsPath(rows, roots, p)
    ensures holds(End(rows, p))
  {
    match p
    case Start(_) =>
    case Follow(q, r) => PathInduction(rows, roots, holds, q);
  }

  // ------------------------------------------------- the declarative meet

  ghost function Ends(rows: Rows, roots: seq<Arrival>): set<Node> {
    (set r | r in rows :: rows[r].source) + (set x | x in roots :: x.node)
  }

  ghost predicate ReachedAt(rows: Rows, roots: seq<Arrival>, n: Node) {
    exists x :: Arrives(rows, roots, x) && x.node == n
  }

  ghost predicate ReachedWith(rows: Rows, roots: seq<Arrival>, n: Node, access: bool) {
    exists x :: Arrives(rows, roots, x) && x.node == n && x.access == access
  }

  ghost predicate Unanimous(rows: Rows, roots: seq<Arrival>, n: Node, v: Version) {
    forall x :: Arrives(rows, roots, x) && x.node == n ==> x.version == Some(v)
  }

  /** The version every arrival agrees on, and none otherwise. */
  ghost function AgreedVersion(rows: Rows, roots: seq<Arrival>, n: Node): Option<Version> {
    if exists v :: Unanimous(rows, roots, n, v) then
      var v :| Unanimous(rows, roots, n, v);
      Some(v)
    else None
  }

  /** The meet over all paths: exactly the reached nodes, access when some path
      requires it on every edge, a version only when every path agrees. */
  ghost function Meet(rows: Rows, roots: seq<Arrival>): map<Node, Tag> {
    map n | n in Ends(rows, roots) && ReachedAt(rows, roots, n)
      :: Tag(AgreedVersion(rows, roots, n), ReachedWith(rows, roots, n, true))
  }

  /** The (node, access) pairs some path reaches. */
  ghost function Pairs(rows: Rows, roots: seq<Arrival>): set<(Node, bool)> {
    set n, a | n in Ends(rows, roots) && a in {true, false} && ReachedWith(rows, roots, n, a) :: (n, a)
  }

  lemma ArrivalIsEnd(rows: Rows, roots: seq<Arrival>, x: Arrival)
    requires Arrives(rows, roots, x)
    ensures x.node in Ends(rows, roots)
    ensures (x.node, x.access) in Pairs(rows, roots)
    ensures x.node in Meet(rows, roots)
  {
    var p :| IsPath(rows, roots, p) && End(rows, p) == x;
    match p
    case Start(root) => assert x in roots;
    case Follow(q, r) => assert rows[r].source == x.node;
  }

  /** Arrivals see the roots only as a set. */
  lemma ArrivalsIgnoreOrder(rows: Rows, roots: seq<Arrival>, others: seq<Arrival>, x: Arrival)
    requires forall y :: y in roots ==> y in others
    requires Arrives(rows, roots, x)
    ensures Arrives(rows, others, x)
  {
    var p :| IsPath(rows, roots, p) && End(rows, p) == x;
    PathsIgnoreOrder(rows, roots, others, p);
  }

  lemma {:induction false} PathsIgnoreOrder(rows: Rows, roots: seq<Arrival>, others: seq<Arrival>, p: Path)
    requires forall y :: y in roots ==> y in others
    requires IsPath(rows, roots, p)
    ensures IsPath(rows, others, p)
  {
    match p
    case Start(_) =>
    case Follow(q, r) => PathsIgnoreOrder(rows, roots, others, q);
  }

  /** Source capture is order independent: permuting or repeating the references
      changes neither the meet nor the set of pairs that is counted. */
  lemma MeetIgnoresOrder(rows: Rows, roots: seq<Arrival>, others: seq<Arrival>)
    requires forall y :: y in roots <==> y in others
    ensures Meet(rows, roots) == Meet(rows, others)
    ensures Pairs(rows, roots) == Pairs(rows, others)
  {
    forall x: Arrival
      ensures Arrives(rows, roots, x) <==> Arrives(rows, others, x)
    {
      if Arrives(rows, roots, x) { ArrivalsIgnoreOrder(rows, roots, others, x); }
      if Arrives(rows, others, x) { ArrivalsIgnoreOrder(rows, others, roots, x); }
    }
    assert Ends(rows, roots) == Ends(rows, others);
    forall n: Node
      ensures ReachedAt(rows, roots, n) <==> ReachedAt(rows, others, n)
      ensures forall a :: ReachedWith(rows, roots, n, a) <==> ReachedWith(rows, others, n, a)
      ensures AgreedVersion(rows, roots, n) == AgreedVersion(rows, others, n)
      || !ReachedAt(rows, roots, n)
    {
      forall v ensures Unanimous(rows, roots, n, v) <==> Unanimous(rows, others, n, v) {}
    }
  }

  // ------------------------------------------------- the capture worklist

  /** Rows whose ancestry is pinned: those of records that are not withdrawn. */
  function Expandable(rows: Rows, tombs: set<Node>): Rows {
    map r | r in rows && rows[r].subject.kind.Record? && rows[r].subject !in tombs :: rows[r]
  }

  /** The rows of one subject, in whatever order the table yields them. */
  method RowsOf(rows: Rows, subject: Node) returns (out: seq<nat>)
    ensures forall r :: r in out <==> r in rows && rows[r].subject == subject
  {
    out := [];
    var todo := set r | r in rows && rows[r].subject == subject;
    ghost var all := todo;
    while todo != {}
      invariant todo <= all
      invariant forall r :: r in out <==> r in all - todo
    {
      var r :| r in todo;
      out := out + [r];
      todo := todo - {r};
    }
  }

  /** The merge of one arrival into an entry. */
  function Merge(entry: Tag, x: Arrival): Tag {
    Tag(if entry.version == x.version then entry.version else None, entry.access || x.access)
  }

  ghost predicate Absorbed(captured: map<Node, Tag>, visited: set<(Node, bool)>, x: Arrival) {
    && x.node in captured
    && (captured[x.node].version == x.version || captured[x.node].version == None)
    && (x.access ==> captured[x.node].access)
    && (x.node.kind.Record? ==> (x.node, x.access) in visited)
  }

  ghost predicate Handled(pending: seq<Arrival>, captured: map<Node, Tag>, visited: set<(Node, bool)>, x: Arrival) {
    x in pending || Absorbed(captured, visited, x)
  }

  /** Every row of a visited record is waiting or absorbed. */
  ghost predicate Expanded(rows: Rows, pending: seq<Arrival>, captured: map<Node, Tag>, visited: set<(Node, bool)>) {
    forall q, r :: (q in visited && r in rows && rows[r].subject == q.0) ==>
      Handled(pending, captured, visited, Across(Arrival(q.0, None, q.1), rows[r]))
  }

  ghost predicate Differ(rows: Rows, roots: seq<Arrival>, n: Node) {
    exists x, y :: Arrives(rows, roots, x) && Arrives(rows, roots, y) && x.node == n && y.node == n
      && x.version != y.version
  }

  ghost predicate Seen(rows: Rows, roots: seq<Arrival>, n: Node, v: Option<Version>) {
    exists x :: Arrives(rows, roots, x) && x.node == n && x.version == v
  }

  /** Every part of an entry comes from some path. */
  ghost predicate Witnessed(rows: Rows, roots: seq<Arrival>, n: Node, tag: Tag) {
    && ReachedAt(rows, roots, n)
    && (tag.access ==> ReachedWith(rows, roots, n, true))
    && (Seen(rows, roots, n, tag.version) || (tag.version == None && Differ(rows, roots, n)))
  }

  ghost predicate AllWitnessed(rows: Rows, roots: seq<Arrival>, captured: map<Node, Tag>) {
    forall n :: n in captured ==> Witnessed(rows, roots, n, captured[n])
  }

  function Absorb(captured: map<Node, Tag>, x: Arrival): map<Node, Tag> {
    captured[x.node := if x.node in captured then Merge(captured[x.node], x) else Tag(x.version, x.access)]
  }

  lemma AbsorbWitnessed(rows: Rows, roots: seq<Arrival>, captured: map<Node, Tag>, x: Arrival)
    requires Arrives(rows, roots, x) && AllWitnessed(rows, roots, captured)
    ensures AllWitnessed(rows, roots, Absorb(captured, x))
  {
    assert Seen(rows, roots, x.node, x.version) && ReachedAt(rows, roots, x.node);
    assert x.access ==> ReachedWith(rows, roots, x.node, true);
  }

  /** Taking one arrival off the worklist loses nothing that was handled. */
  lemma TakeKeepsHandled(before: seq<Arrival>, captured: map<Node, Tag>, seen: set<(Node, bool)>, x: Arrival,
      pending: seq<Arrival>, visited: set<(Node, bool)>, y: Arrival)
    requires forall z :: z in before ==> z == x || z in pending
    requires seen <= visited
    requires x.node.kind.Record? ==> (x.node, x.access) in visited
    requires Handled(before, captured, seen, y)
    ensures Handled(pending, Absorb(captured, x), visited, y)
  {
  }

  lemma TakeKeepsExpanded(rows: Rows, before: seq<Arrival>, captured: map<Node, Tag>, seen: set<(Node, bool)>,
          x: Arrival,
      pending: seq<Arrival>, visited: set<(Node, bool)>)
    requires forall z :: z in before ==> z == x || z in pending
    requires seen <= visited <= seen + {(x.node, x.access)}
    requires x.node.kind.Record? ==> (x.node, x.access) in visited
    requires Expanded(rows, before, captured, seen)
    requires (x.node, x.access) !in seen ==> forall r :: r in rows && rows[r].subject == x.node ==>
             Across(x, rows[r]) in pending
    ensures Expanded(rows, pending, Absorb(captured, x), visited)
  {
    forall q, r | q in visited && r in rows && rows[r].subject == q.0
      ensures Handled(pending, Absorb(captured, x), visited, Across(Arrival(q.0, None, q.1), rows[r]))
    {
      if q in seen {
        TakeKeepsHandled(before, captured, seen, x, pending, visited, Across(Arrival(q.0, None, q.1), rows[r]));
      } else {
        assert Across(Arrival(q.0, None, q.1), rows[r]) == Across(x, rows[r]);
      }
    }
  }

  /** Once the worklist is empty, every arrival has been absorbed. */
  lemma EmptyWorklistAbsorbs(table: Rows, tombs: set<Node>, roots: seq<Arrival>, captured: map<Node, Tag>,
          visited: set<(Node, bool)>)
    requires forall x :: x in roots ==> Handled([], captured, visited, x)
    requires Expanded(Expandable(table, tombs), [], captured, visited)
    ensures forall x :: Arrives(Expandable(table, tombs), roots, x) ==> Absorbed(captured, visited, x)
  {
    var rows := Expandable(table, tombs);
    forall x | Arrives(rows, roots, x)
      ensures Absorbed(captured, visited, x)
    {
      forall y, r | Absorbed(captured, visited, y) && r in rows && rows[r].subject == y.node
        ensures Absorbed(captured, visited, Across(y, rows[r]))
      {
        assert Handled([], captured, visited, Across(Arrival(y.node, None, y.access), rows[r]));
      }
      ArrivalInduction(rows, roots, y => Absorbed(captured, visited, y), x);
    }
  }

  /** Every arrival absorbed and every entry witnessed make the map the meet. */
  lemma WorklistIsMeet(rows: Rows, roots: seq<Arrival>, captured: map<Node, Tag>, visited: set<(Node, bool)>)
    requires forall x :: Arrives(rows, roots, x) ==> Absorbed(captured, visited, x)
    requires AllWitnessed(rows, roots, captured)
    ensures captured == Meet(rows, roots)
  {
    forall n | n in captured
      ensures n in Meet(rows, roots) && captured[n] == Meet(rows, roots)[n]
    {
      var x :| Arrives(rows, roots, x) && x.node == n;
      ArrivalIsEnd(rows, roots, x);
      var tag := captured[n];
      if tag.version.Some? {
        assert Unanimous(rows, roots, n, tag.version.value);
      } else if exists v :: Unanimous(rows, roots, n, v) {
        assert false;
      }
    }
  }

  /** The record pairs the capture counts against its bound. */
  ghost function RecordPairs(rows: Rows, roots: seq<Arrival>): set<(Node, bool)> {
    set q | q in Pairs(rows, roots) && q.0.kind.Record?
  }

  lemma SubsetSize<T>(a: set<T>, b: set<T>)
    requires a <= b
    ensures |a| <= |b|
  {
    assert b == a + (b - a);
  }

  /** What crossing each row of one visited node leads to. */
  method Parents(table: Rows, x: Arrival) returns (out: seq<Arrival>)
    ensures forall r :: r in table && table[r].subject == x.node ==> Across(x, table[r]) in out
    ensures forall y :: y in out ==> exists r :: r in table && table[r].subject == x.node && y == Across(x, table[r])
  {
    var ids := RowsOf(table, x.node);
    out := [];
    for i := 0 to |ids|
      invariant forall k :: 0 <= k < i ==> Across(x, table[ids[k]]) in out
      invariant forall y :: y in out ==>
                exists r :: r in table && table[r].subject == x.node && y == Across(x, table[r])
    {
      assert ids[i] in ids;
      out := out + [Across(x, table[ids[i]])];
    }
    forall r | r in table && table[r].subject == x.node ensures Across(x, table[r]) in out {
      var k :| 0 <= k < |ids| && ids[k] == r;
    }
  }

  /** The capture worklist. It fails exactly when more than a thousand record
      pairs are reachable, and otherwise returns the declarative meet. */
  method CaptureAncestry(table: Rows, tombs: set<Node>, roots: seq<Arrival>) returns (out: Result<map<Node, Tag>>)
    ensures out.Ok? <==> |RecordPairs(Expandable(table, tombs), roots)| <= VISIT_BOUND
    ensures out.Ok? ==> out.value == Meet(Expandable(table, tombs), roots)
    ensures out.Err? ==> out.error == Exhausted
  {
    ghost var rows := Expandable(table, tombs);
    var pending := roots;
    var captured: map<Node, Tag> := map[];
    var visited: set<(Node, bool)> := {};
    forall x | x in roots ensures Arrives(rows, roots, x) { ArrivesRoot(rows, roots, x); }
    while pending != []
      invariant |visited| <= VISIT_BOUND
      invariant forall x :: x in pending ==> Arrives(rows, roots, x)
      invariant AllWitnessed(rows, roots, captured)
      invariant visited <= RecordPairs(rows, roots)
      invariant forall x :: x in roots ==> Handled(pending, captured, visited, x)
      invariant Expanded(rows, pending, captured, visited)
      decreases VISIT_BOUND + 1 - |visited|, |pending|
    {
      ghost var before, was, seen := pending, captured, visited;
      var x := pending[|pending| - 1];
      pending := pending[..|pending| - 1];
      assert before == pending + [x];
      captured := Absorb(captured, x);
      AbsorbWitnessed(rows, roots, was, x);
      if x.node.kind.Record? && (x.node, x.access) !in visited {
        ArrivalIsEnd(rows, roots, x);
        visited := visited + {(x.node, x.access)};
        if |visited| > VISIT_BOUND {
          SubsetSize(visited, RecordPairs(rows, roots));
          return Err(Exhausted);
        }
        if x.node !in tombs {
          var parents := Parents(table, x);
          forall y | y in parents ensures Arrives(rows, roots, y) {
            var r :| r in table && table[r].subject == x.node && y == Across(x, table[r]);
            ArrivesAcross(rows, roots, x, r);
          }
          pending := pending + parents;
        }
      }
      forall y | y in roots ensures Handled(pending, captured, visited, y) {
        TakeKeepsHandled(before, was, seen, x, pending, visited, y);
      }
      TakeKeepsExpanded(rows, before, was, seen, x, pending, visited);
    }
    EmptyWorklistAbsorbs(table, tombs, roots, captured, visited);
    WorklistIsMeet(rows, roots, captured, visited);
    assert RecordPairs(rows, roots) <= visited;
    SubsetSize(RecordPairs(rows, roots), visited);
    return Ok(captured);
  }
}
