/** The lineage tables, the steps that change them, and who may read a source. */
module Sources {
  import opened Outcomes
  import opened Lineage

  datatype Split = Development | Evaluation | Holdout

  type Scope = nat

  /** A declared reference; a released one passes availability but not access. */
  datatype Ref = Ref(id: nat, released: bool)

  /** What a record's kind allows: revision, nothing after creation, or protected use. */
  datatype Purpose = Revisable | Fixed | Admitting | Evaluating

  datatype Info =
    | RecordInfo(scope: Scope, split: Split, purpose: Purpose, version: Version, retired: bool, emptied: bool,
                 expires: Option<nat>, refs: seq<Ref>)
    | EventInfo(scope: Scope, split: Split, host: bool, content: bool, redacted: bool)
    | ArtifactInfo(scope: Scope, split: Split, path: nat, branch: bool, owner: nat, available: bool,
                   toolResult: bool, exported: bool, payload: bool)

  datatype Status = Pending | Complete | Failed

  datatype Job = Job(scope: Scope, delete: bool, status: Status)

  datatype Key = Key(job: Node, node: Node)

  /** A node one job has discovered; `after` is its cursor into the row ids. */
  datatype Item = Item(after: nat, payloadDone: bool, complete: bool)

  datatype Tables = Tables(info: map<Node, Info>, rows: Rows, tombs: set<Node>,
                           jobs: map<Node, Job>, items: map<Key, Item>)

  const Empty := Tables(map[], map[], {}, map[], map[])

  datatype Delivery = Delivery(scope: Scope, deliverable: bool)

  /** What authorization reads of a grant; `restricted` marks a prepared run or
      an assigned corpus, whose donor ancestry is checked for availability only. */
  datatype Grant = Grant(id: nat, scope: Scope, splits: set<Split>, paths: set<nat>, exports: bool,
                         restricted: bool, delivered: map<Node, Delivery>)

  predicate KindMatches(n: Node, i: Info) {
    match i
    case RecordInfo(_, _, _, _, _, _, _, _) => n.kind.Record?
    case EventInfo(_, _, _, _, _) => n.kind.Event?
    case ArtifactInfo(_, _, _, _, _, _, _, _, _) => n.kind.Artifact?
  }

  /** Records whose payload a cleanup retains under its own policy. */
  predicate Kept(i: Info)
    requires i.RecordInfo?
  {
    i.purpose.Admitting? || (i.purpose.Evaluating? && !i.split.Development?)
  }

  // ---------------------------------------------------------- authorization

  predicate Acceptable(t: Tables, g: Grant, now: nat, roots: seq<Node>, n: Node, access: bool) {
    && n !in t.tombs
    && (n in g.delivered && n in roots ==> g.delivered[n].deliverable)
    && n in t.info
    && KindMatches(n, t.info[n])
    && t.info[n].scope == (if n in g.delivered then g.delivered[n].scope else g.scope)
    && match t.info[n] {
         case RecordInfo(_, split, _, _, retired, _, expires, _) =>
           !retired && !(expires.Some? && expires.value <= now) && (access ==> split in g.splits)
         case EventInfo(_, split, host, content, _) =>
           (host ==> content) && (access ==> split in g.splits)
         case ArtifactInfo(_, split, path, branch, owner, available, toolResult, exported, _) =>
           var lineageOnly := g.restricted && n !in roots;
           && available
           && (lineageOnly || toolResult || exported || path in g.paths)
           && (lineageOnly || !exported || g.exports)
           && split in g.splits
           && (lineageOnly || !branch || owner == g.id)
       }
  }

  function Starts(sources: seq<Node>): seq<Arrival> {
    seq(|sources|, i requires 0 <= i < |sources| => Arrival(sources[i], None, true))
  }

  lemma StartsExact(sources: seq<Node>, x: Arrival)
    ensures x in Starts(sources) <==> x.version == None && x.access && x.node in sources
  {
    if x.version == None && x.access && x.node in sources {
      var i :| 0 <= i < |sources| && sources[i] == x.node;
      assert Starts(sources)[i] == x;
    }
  }

  /** Authorization, declaratively: every (node, access) pair reachable from the
      roots, with access conjoined along the rows, is acceptable on its own. */
  ghost predicate Authorized(t: Tables, g: Grant, now: nat, sources: seq<Node>) {
    && |Pairs(t.rows, Starts(sources))| <= VISIT_BOUND
    && forall x :: Arrives(t.rows, Starts(sources), x) ==> Acceptable(t, g, now, sources, x.node, x.access)
  }

  ghost predicate Waiting(pending: seq<Arrival>, visited: set<(Node, bool)>, x: Arrival) {
    x in pending || (x.node, x.access) in visited
  }

  ghost predicate Followed(rows: Rows, pending: seq<Arrival>, visited: set<(Node, bool)>) {
    forall q, r :: (q in visited && r in rows && rows[r].subject == q.0) ==>
      Waiting(pending, visited, Across(Arrival(q.0, None, q.1), rows[r]))
  }

  lemma FollowedAll(rows: Rows, roots: seq<Arrival>, visited: set<(Node, bool)>)
    requires forall x :: x in roots ==> Waiting([], visited, x)
    requires Followed(rows, [], visited)
    ensures forall x :: Arrives(rows, roots, x) ==> (x.node, x.access) in visited
  {
    forall x | Arrives(rows, roots, x)
      ensures (x.node, x.access) in visited
    {
      forall y: Arrival, r | (y.node, y.access) in visited && r in rows && rows[r].subject == y.node
        ensures (Across(y, rows[r]).node, Across(y, rows[r]).access) in visited
      {
        assert Waiting([], visited, Across(Arrival(y.node, None, y.access), rows[r]));
      }
      ArrivalInduction(rows, roots, (y: Arrival) => (y.node, y.access) in visited, x);
    }
  }

  lemma FollowedStep(rows: Rows, before: seq<Arrival>, seen: set<(Node, bool)>, x: Arrival,
      pending: seq<Arrival>, visited: set<(Node, bool)>)
    requires forall z :: z in before ==> z == x || z in pending
    requires visited == seen + {(x.node, x.access)}
    requires Followed(rows, before, seen)
    requires (x.node, x.access) !in seen ==> forall r :: r in rows && rows[r].subject == x.node ==>
             Across(x, rows[r]) in pending
    ensures Followed(rows, pending, visited)
  {
    forall q, r | q in visited && r in rows && rows[r].subject == q.0
      ensures Waiting(pending, visited, Across(Arrival(q.0, None, q.1), rows[r]))
    {
      var y := Across(Arrival(q.0, None, q.1), rows[r]);
      if q in seen {
        assert Waiting(before, seen, y);
      } else {
        assert y == Across(x, rows[r]);
      }
    }
  }

  /** The authorization worklist accepts exactly what the declarative rule does,
      on shared and on cyclic ancestry alike. */
  method RequireSources(t: Tables, g: Grant, now: nat, sources: seq<Node>) returns (ok: bool)
    ensures ok <==> Authorized(t, g, now, sources)
  {
    ghost var roots := Starts(sources);
    var pending := Starts(sources);
    var visited: set<(Node, bool)> := {};
    forall x | x in roots ensures Arrives(t.rows, roots, x) { ArrivesRoot(t.rows, roots, x); }
    while pending != []
      invariant |visited| <= VISIT_BOUND
      invariant forall x :: x in pending ==> Arrives(t.rows, roots, x)
      invariant visited <= Pairs(t.rows, roots)
      invariant forall q :: q in visited ==> Acceptable(t, g, now, sources, q.0, q.1)
      invariant forall x :: x in roots ==> Waiting(pending, visited, x)
      invariant Followed(t.rows, pending, visited)
      decreases VISIT_BOUND + 1 - |visited|, |pending|
    {
      ghost var before, seen := pending, visited;
      var x := pending[|pending| - 1];
      pending := pending[..|pending| - 1];
      assert before == pending + [x];
      if (x.node, x.access) in visited {
        FollowedStep(t.rows, before, seen, x, pending, visited);
        continue;
      }
      ArrivalIsEnd(t.rows, roots, x);
      visited := visited + {(x.node, x.access)};
      if |visited| > VISIT_BOUND {
        SubsetSize(visited, Pairs(t.rows, roots));
        return false;
      }
      if !Acceptable(t, g, now, sources, x.node, x.access) {
        return false;
      }
      var parents := Parents(t.rows, x);
      forall y | y in parents ensures Arrives(t.rows, roots, y) {
        var r :| r in t.rows && t.rows[r].subject == x.node && y == Across(x, t.rows[r]);
        ArrivesAcross(t.rows, roots, x, r);
      }
      pending := pending + parents;
      FollowedStep(t.rows, before, seen, x, pending, visited);
    }
    FollowedAll(t.rows, roots, visited);
    assert Pairs(t.rows, roots) <= visited;
    SubsetSize(Pairs(t.rows, roots), visited);
    return true;
  }
}
