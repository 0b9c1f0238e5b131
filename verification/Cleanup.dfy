/** Withdrawal cleanup stays complete under interruption and late derivatives. */
module Cleanup {
  import opened Outcomes
  import opened Lineage
  import opened Sources
  import opened SourceSteps

  // ------------------------------------------------------------ invariants

  /** A chain of stored rows from a node up to a withdrawn one. */
  datatype Route = Here | Up(row: nat, rest: Route)

  ghost predicate Leads(rows: Rows, tombs: set<Node>, n: Node, route: Route)
    decreases route
  {
    match route
    case Here => n in tombs
    case Up(r, rest) => r in rows && rows[r].subject == n && Leads(rows, tombs, rows[r].source, rest)
  }

  ghost predicate Doomed(rows: Rows, tombs: set<Node>, n: Node) {
    exists route :: Leads(rows, tombs, n, route)
  }

  /** The payload of a node is gone at the given level. */
  predicate PayloadGone(t: Tables, n: Node, delete: bool)
    requires n in t.info
  {
    match t.info[n]
    case RecordInfo(_, _, _, _, retired, emptied, _, _) =>
      Kept(t.info[n]) || (retired && n in t.tombs && (delete ==> emptied))
    case EventInfo(_, split, _, content, redacted) =>
      delete && split.Development? ==> redacted && !content && n in t.tombs
    case ArtifactInfo(_, split, _, _, _, available, _, exported, payload) =>
      split.Development? ==> (exported ==> !available) && (delete ==> !payload)
  }

  ghost predicate RowsValid(t: Tables) {
    && (forall n :: n in t.info ==> KindMatches(n, t.info[n]))
    && (forall r :: r in t.rows ==> r > 0 && t.rows[r].subject in t.info)
  }

  ghost predicate JobsValid(t: Tables) {
    forall j :: j in t.jobs ==> j in t.info && j in t.tombs && t.jobs[j].scope == t.info[j].scope
  }

  ghost predicate ItemsValid(t: Tables) {
    forall k {:trigger k in t.items} :: k in t.items ==>
      k.job in t.jobs && k.node in t.info && Doomed(t.rows, t.tombs, k.node)
  }

  /** Everything behind an item's cursor has been discovered. */
  ghost predicate CursorsValid(t: Tables) {
    forall k, r {:trigger t.items[k], t.rows[r]} ::
      (k in t.items && r in t.rows && t.rows[r].source == k.node && r <= t.items[k].after) ==>
      Key(k.job, t.rows[r].subject) in t.items
  }

  ghost predicate ItemDone(t: Tables, k: Key)
    requires k in t.items && k.node in t.info && k.job in t.jobs
  {
    && (t.items[k].payloadDone ==> PayloadGone(t, k.node, t.jobs[k.job].delete))
    && (t.items[k].complete && Owned(t, k) ==>
          t.items[k].payloadDone && forall r :: r in t.rows && t.rows[r].source == k.node ==> r <= t.items[k].after)
  }

  ghost predicate ProgressValid(t: Tables)
    requires ItemsValid(t)
  {
    forall k {:trigger ItemDone(t, k)} :: k in t.items ==> ItemDone(t, k)
  }

  ghost predicate StatusValid(t: Tables) {
    forall j :: j in t.jobs && t.jobs[j].status == Complete ==> Key(j, j) in t.items && !Unfinished(t.items, j)
  }

  ghost predicate Valid(t: Tables) {
    && RowsValid(t) && JobsValid(t) && ItemsValid(t) && CursorsValid(t) && ProgressValid(t) && StatusValid(t)
  }

  // ---------------------------------------------------------- the theorem

  /** A chain of in-scope derivations downstream from a job's root. */
  datatype Chain = Root | Down(prefix: Chain, row: nat)

  ghost function Bottom(rows: Rows, root: Node, c: Chain): Node {
    match c
    case Root => root
    case Down(_, r) => if r in rows then rows[r].subject else root
  }

  ghost predicate InScope(t: Tables, scope: Scope, n: Node) {
    n in t.info && t.info[n].scope == scope
  }

  ghost predicate Derives(t: Tables, scope: Scope, root: Node, c: Chain) {
    match c
    case Root => InScope(t, scope, root)
    case Down(q, r) =>
      && Derives(t, scope, root, q)
      && r in t.rows && t.rows[r].source == Bottom(t.rows, root, q)
      && InScope(t, scope, t.rows[r].subject)
  }

  /** Whenever a job is complete, every in-scope node downstream of its root
      through in-scope nodes has lost its payload at the job's level. */
  lemma {:induction false} CompleteMeansClean(t: Tables, job: Node, c: Chain)
    requires Valid(t)
    requires job in t.jobs && t.jobs[job].status == Complete
    requires Derives(t, t.jobs[job].scope, job, c)
    ensures var n := Bottom(t.rows, job, c);
            Key(job, n) in t.items && t.items[Key(job, n)].complete && n in t.info
            && PayloadGone(t, n, t.jobs[job].delete)
  {
    var n := Bottom(t.rows, job, c);
    match c {
      case Root =>
      case Down(q, r) =>
        CompleteMeansClean(t, job, q);
        var k := Key(job, Bottom(t.rows, job, q));
        BottomInScope(t, t.jobs[job].scope, job, q);
        assert ItemDone(t, k) && Owned(t, k);
    }
    BottomInScope(t, t.jobs[job].scope, job, c);
    assert ItemDone(t, Key(job, n)) && Owned(t, Key(job, n));
  }

  lemma {:induction false} BottomInScope(t: Tables, scope: Scope, root: Node, c: Chain)
    requires Derives(t, scope, root, c)
    ensures InScope(t, scope, Bottom(t.rows, root, c))
  {
  }

  // ---------------------------------------------------------- preservation

  /** A node that cannot reach a withdrawn one lies on no chain that does. */
  lemma {:induction false} RouteAvoids(rows: Rows, tombs: set<Node>, n: Node, route: Route, s: Node, after: Rows,
          more: set<Node>)
    requires Leads(rows, tombs, n, route)
    requires !Doomed(rows, tombs, s) || (forall r :: r in rows ==> rows[r].subject != s)
    requires forall r :: r in rows && rows[r].subject != s ==> r in after && after[r] == rows[r]
    requires tombs <= more
    ensures Leads(after, more, n, route)
    decreases route
  {
    match route
    case Here =>
    case Up(r, rest) =>
      RouteAvoids(rows, tombs, rows[r].source, rest, s, after, more);
  }

  lemma DoomStays(rows: Rows, tombs: set<Node>, s: Node, after: Rows, more: set<Node>)
    requires !Doomed(rows, tombs, s) || (forall r :: r in rows ==> rows[r].subject != s)
    requires forall r :: r in rows && rows[r].subject != s ==> r in after && after[r] == rows[r]
    requires tombs <= more
    ensures forall n :: Doomed(rows, tombs, n) ==> Doomed(after, more, n)
  {
    forall n | Doomed(rows, tombs, n) ensures Doomed(after, more, n) {
      var route :| Leads(rows, tombs, n, route);
      RouteAvoids(rows, tombs, n, route, s, after, more);
    }
  }

  /** Replacing the ancestry of a node no cleanup can depend on. */
  lemma RecaptureKeeps(t: Tables, s: Node, kept: map<Node, Tag>, after: Tables)
    requires Valid(t) && s in t.info
    requires !Doomed(t.rows, t.tombs, s) || (forall r :: r in t.rows ==> t.rows[r].subject != s)
    requires Recaptured(t, s, kept, after)
    ensures Valid(after)
  {
    DoomStays(t.rows, t.tombs, s, after.rows, after.tombs);
    RecaptureKeepsTables(t, s, kept, after);
    RecaptureKeepsCursors(t, s, kept, after);
    RecaptureKeepsProgress(t, s, kept, after);
    RecaptureKeepsStatus(t, s, kept, after);
  }

  lemma RecaptureKeepsTables(t: Tables, s: Node, kept: map<Node, Tag>, after: Tables)
    requires Valid(t) && s in t.info && Recaptured(t, s, kept, after)
    requires forall n :: Doomed(t.rows, t.tombs, n) ==> Doomed(after.rows, after.tombs, n)
    ensures RowsValid(after) && JobsValid(after) && ItemsValid(after)
  {
  }

  /** A row either was there before or starts from a source that was reset. */
  lemma OldRow(rows: Rows, s: Node, kept: map<Node, Tag>, after: Rows, r: nat)
    requires RowsReplaced(rows, s, kept, after)
    requires r in after && after[r].source !in kept
    ensures r in rows && rows[r] == after[r]
  {
  }

  lemma RecaptureKeepsCursors(t: Tables, s: Node, kept: map<Node, Tag>, after: Tables)
    requires RowsValid(t) && RowsValid(after) && CursorsValid(t)
    requires Recaptured(t, s, kept, after)
    ensures CursorsValid(after)
  {
    forall k, r | k in after.items && r in after.rows && after.rows[r].source == k.node && r <= after.items[k].after
      ensures Key(k.job, after.rows[r].subject) in after.items
    {
      if k.node !in kept {
        OldRow(t.rows, s, kept, after.rows, r);
      }
    }
  }

  lemma RecaptureKeepsProgress(t: Tables, s: Node, kept: map<Node, Tag>, after: Tables)
    requires ItemsValid(t) && ProgressValid(t) && ItemsValid(after)
    requires Recaptured(t, s, kept, after)
    ensures ProgressValid(after)
  {
    forall k | k in after.items ensures ItemDone(after, k) {
      assert ItemDone(t, k);
      if k.node !in kept {
        forall r | r in after.rows && after.rows[r].source == k.node ensures r in t.rows && t.rows[r] == after.rows[r] {
          OldRow(t.rows, s, kept, after.rows, r);
        }
      }
    }
  }

  lemma RecaptureKeepsStatus(t: Tables, s: Node, kept: map<Node, Tag>, after: Tables)
    requires StatusValid(t)
    requires Recaptured(t, s, kept, after)
    ensures StatusValid(after)
  {
    forall j | j in after.jobs && after.jobs[j].status == Complete
      ensures Key(j, j) in after.items && !Unfinished(after.items, j)
    {
      forall k | k in after.items && k.job == j ensures after.items[k].complete {
        assert Key(j, k.node) == k && k.node !in kept.Keys;
      }
    }
  }

  lemma {:induction false} RouteArrives(t: Tables, g: Grant, now: nat, sources: seq<Node>, x: Arrival, route: Route)
    requires Authorized(t, g, now, sources)
    requires Arrives(t.rows, Starts(sources), x)
    ensures !Leads(t.rows, t.tombs, x.node, route)
    decreases route
  {
    if Leads(t.rows, t.tombs, x.node, route) && route.Up? {
      ArrivesAcross(t.rows, Starts(sources), x, route.row);
      RouteArrives(t, g, now, sources, Across(x, t.rows[route.row]), route.rest);
    }
  }

  /** Nothing readable descends from a withdrawn source. */
  lemma AuthorizedNotDoomed(t: Tables, g: Grant, now: nat, sources: seq<Node>, n: Node)
    requires Authorized(t, g, now, sources) && n in sources
    ensures !Doomed(t.rows, t.tombs, n)
  {
    var x := Arrival(n, None, true);
    StartsExact(sources, x);
    ArrivesRoot(t.rows, Starts(sources), x);
    forall route ensures !Leads(t.rows, t.tombs, n, route) {
      RouteArrives(t, g, now, sources, x, route);
    }
  }

  lemma InsertKeeps(t: Tables, n: Node, i: Info, refs: seq<Ref>, after: Tables)
    requires Valid(t) && InsertFits(t, n, i, refs) && Inserted(t, n, i, refs, after)
    ensures Valid(after)
  {
    var mid := t.(info := t.info[n := i]);
    forall k | k in mid.items ensures ItemDone(mid, k) { assert ItemDone(t, k); }
    assert Valid(mid);
    RecaptureKeeps(mid, n, Meet(Expandable(mid.rows, mid.tombs), Roots(mid.info, refs)), after);
  }

  lemma ReviseKeeps(t: Tables, g: Grant, now: nat, n: Node, expected: Version, d: Draft, after: Tables)
    requires Valid(t) && ReviseFits(t, g, now, n, expected, d) && Revised(t, n, d, after)
    ensures Valid(after)
  {
    AuthorizedNotDoomed(t, g, now, [n], n);
    assert Leads(t.rows, t.tombs, n, Here) <==> n in t.tombs;
    var mid := t.(info := t.info[n := RevisedInfo(t.info[n], d)]);
    forall k | k in mid.items ensures ItemDone(mid, k) { assert ItemDone(t, k) && k.node != n; }
    assert Valid(mid);
    RecaptureKeeps(mid, n, Meet(Expandable(mid.rows, mid.tombs), Roots(mid.info, d.refs)), after);
  }

  lemma {:induction false} RouteSurvives(rows: Rows, tombs: set<Node>, n: Node, route: Route, more: set<Node>)
    requires Leads(rows, tombs, n, route) && tombs <= more
    ensures Leads(rows, more, n, route)
    decreases route
  {
    match route
    case Here =>
    case Up(r, rest) => RouteSurvives(rows, tombs, rows[r].source, rest, more);
  }

  /** Growing the tombstones and clearing one row's payload disturbs nothing. */
  lemma FadeKeeps(t: Tables, n: Node, i: Info, more: set<Node>)
    requires Valid(t) && n in t.info && t.tombs <= more
    requires KindMatches(n, i) && i.scope == t.info[n].scope
    requires forall d :: PayloadGone(t, n, d) ==> PayloadGone(t.(info := t.info[n := i], tombs := more), n, d)
    ensures Valid(t.(info := t.info[n := i], tombs := more))
  {
    var after := t.(info := t.info[n := i], tombs := more);
    forall k | k in after.items ensures Doomed(after.rows, after.tombs, k.node) {
      var route :| Leads(t.rows, t.tombs, k.node, route);
      RouteSurvives(t.rows, t.tombs, k.node, route, after.tombs);
    }
    forall k | k in after.items ensures ItemDone(after, k) { assert ItemDone(t, k); }
  }

  /** Job rows may be added, reopened or closed, and items sent back. */
  lemma JobsKeep(t: Tables, after: Tables)
    requires Valid(t) && after == t.(jobs := after.jobs, items := after.items)
    requires t.jobs.Keys <= after.jobs.Keys && JobsValid(after) && StatusValid(after)
    requires after.items.Keys == t.items.Keys
    requires forall k :: k in t.items ==>
      after.items[k] == t.items[k] || after.items[k] == t.items[k].(payloadDone := false, complete := false)
    requires forall k :: k in t.items && after.items[k].payloadDone && after.jobs[k.job].delete ==> t.jobs[k.job].delete
    ensures Valid(after)
  {
    forall k | k in after.items ensures ItemDone(after, k) {
      assert ItemDone(t, k);
      assert after.jobs[k.job].scope == t.jobs[k.job].scope;
    }
    assert ItemsValid(after) && CursorsValid(after);
  }

  lemma WithdrawnKeeps(t: Tables, n: Node, deleted: bool)
    requires Valid(t) && n in t.info
    ensures Valid(Withdrawn(t, n, t.info[n].scope, deleted))
  {
    FadeKeeps(t, n, t.info[n], t.tombs + {n});
    var mid := t.(info := t.info[n := t.info[n]], tombs := t.tombs + {n});
    var after := Withdrawn(t, n, t.info[n].scope, deleted);
    forall j | j in after.jobs && after.jobs[j].status == Complete
      ensures Key(j, j) in after.items && !Unfinished(after.items, j)
    {
      forall k | k in after.items && k.job == j ensures after.items[k].complete { assert t.items[k].complete; }
    }
    assert mid.info == t.info;
    JobsKeep(mid, after);
  }

  lemma RetireKeeps(t: Tables, g: Grant, n: Node, expected: Version, delete: bool, after: Tables)
    requires Valid(t) && RetireApplies(t, g, n, expected, delete) && Retired(t, n, delete, after)
    ensures Valid(after)
  {
    var i := RetiredInfo(t.info[n], delete);
    var mid := t.(info := t.info[n := i]);
    FadeKeeps(t, n, i, t.tombs);
    var kept :| (if HasRows(t.rows, n) then kept == mid else Captures(mid, n, Roots(mid.info, i.refs), kept))
                && after == Withdrawn(kept, n, i.scope, i.emptied);
    if !HasRows(t.rows, n) {
      RecaptureKeeps(mid, n, Meet(Expandable(mid.rows, mid.tombs), Roots(mid.info, i.refs)), kept);
    }
    WithdrawnKeeps(kept, n, i.emptied);
  }

  lemma DisappearKeeps(t: Tables, n: Node)
    requires Valid(t) && n in t.info && t.info[n].ArtifactInfo?
    ensures Valid(Disappeared(t, n))
  {
    var gone := t.info[n].(available := false);
    FadeKeeps(t, n, gone, t.tombs + {n});
    JobsKeep(t.(info := t.info[n := gone], tombs := t.tombs + {n}), Disappeared(t, n));
  }

  lemma CleanPayloadKeeps(t: Tables, n: Node, delete: bool)
    requires Valid(t) && n in t.info
    ensures Valid(CleanPayload(t, n, delete))
    ensures PayloadGone(CleanPayload(t, n, delete), n, delete)
  {
    FadeKeeps(t, n, CleanInfo(t.info[n], delete), CleanPayload(t, n, delete).tombs);
  }

  lemma WithRootKeeps(t: Tables, job: Node)
    requires Valid(t) && job in t.jobs
    ensures Valid(WithRoot(t, job))
  {
    assert Leads(t.rows, t.tombs, job, Here);
    var after := WithRoot(t, job);
    forall k | k in after.items ensures ItemDone(after, k) {
      if k in t.items { assert ItemDone(t, k); }
    }
    forall j | j in after.jobs && after.jobs[j].status == Complete
      ensures Key(j, j) in after.items && !Unfinished(after.items, j)
    {
      forall k | k in after.items && k.job == j ensures after.items[k].complete { assert t.items[k].complete; }
    }
  }

  lemma CloseKeeps(t: Tables, job: Node, after: Tables)
    requires Valid(t) && CloseStep(t, job, after)
    ensures Valid(after)
  {
    WithRootKeeps(t, job);
    JobsKeep(WithRoot(t, job), after);
  }

  lemma FailKeeps(t: Tables, job: Node)
    requires Valid(t) && job in t.jobs
    ensures Valid(FailJob(t, job))
  {
    JobsKeep(t, FailJob(t, job));
  }

  /** The tables an item transaction works on once the payload is clean. */
  ghost function Cleansed(t: Tables, k: Key): Tables
    requires k.job in t.jobs && k in t.items && k.node in t.info
  {
    if t.items[k].payloadDone then t else CleanPayload(t, k.node, t.jobs[k.job].delete)
  }

  /** Rows no later than the new cursor were behind the old one or in the batch. */
  lemma BatchCovers(rows: Rows, n: Node, cursor: nat, limit: nat, batch: set<nat>, next: nat, r: nat)
    requires FirstRows(rows, n, cursor, limit, batch, next)
    requires r in rows && rows[r].source == n && r <= next
    ensures r <= cursor || r in batch
  {
    var rest := After(rows, n, cursor) - batch;
    assert r in rest && batch != {} ==> next < r;
  }

  /** The items after one owned transaction. */
  ghost function Advanced(t: Tables, k: Key, batch: set<nat>, next: nat): map<Key, Item>
    requires k in t.items
  {
    Discover(t.items, k.job,
      Subjects(t.rows, batch))[k := Item(next, true, batch == After(t.rows, k.node, t.items[k].after))]
  }

  lemma AdvanceKeepsItems(t: Tables, k: Key, limit: nat, batch: set<nat>, next: nat, after: Tables)
    requires Valid(t) && k in t.items
    requires FirstRows(t.rows, k.node, t.items[k].after, limit, batch, next)
    requires after == t.(jobs := after.jobs, items := Advanced(t, k, batch, next)) && after.jobs.Keys == t.jobs.Keys
    ensures ItemsValid(after)
  {
    forall q | q in after.items
      ensures q.job in after.jobs && q.node in after.info && Doomed(after.rows, after.tombs, q.node) {
      if q !in t.items {
        var r :| r in batch && r in t.rows && t.rows[r].subject == q.node;
        var route :| Leads(t.rows, t.tombs, k.node, route);
        assert Leads(t.rows, t.tombs, q.node, Up(r, route));
      }
    }
  }

  lemma AdvanceKeepsCursors(t: Tables, k: Key, limit: nat, batch: set<nat>, next: nat, after: Tables)
    requires Valid(t) && k in t.items
    requires FirstRows(t.rows, k.node, t.items[k].after, limit, batch, next)
    requires after == t.(jobs := after.jobs, items := Advanced(t, k, batch, next))
    ensures CursorsValid(after)
  {
    forall q, r | q in after.items && r in after.rows && after.rows[r].source == q.node && r <= after.items[q].after
      ensures Key(q.job, after.rows[r].subject) in after.items
    {
      if q == k {
        BatchCovers(t.rows, k.node, t.items[k].after, limit, batch, next, r);
        if r in batch { assert after.rows[r].subject in Subjects(t.rows, batch); }
      } else if q in t.items {
        assert Key(q.job, t.rows[r].subject) in t.items;
      }
    }
  }

  lemma AdvanceKeepsProgress(t: Tables, k: Key, limit: nat, batch: set<nat>, next: nat, after: Tables)
    requires Valid(t) && k in t.items && PayloadGone(t, k.node, t.jobs[k.job].delete)
    requires FirstRows(t.rows, k.node, t.items[k].after, limit, batch, next)
    requires after == t.(jobs := after.jobs, items := Advanced(t, k, batch, next)) && ItemsValid(after)
    requires after.jobs.Keys == t.jobs.Keys
    requires forall j :: j in t.jobs ==>
             after.jobs[j].scope == t.jobs[j].scope && after.jobs[j].delete == t.jobs[j].delete
    ensures ProgressValid(after)
  {
    forall q | q in after.items ensures ItemDone(after, q) {
      if q == k {
        forall r | r in t.rows && t.rows[r].source == k.node && after.items[k].complete ensures r <= next {
          if r > t.items[k].after { assert r in After(t.rows, k.node, t.items[k].after); }
        }
      } else if q in t.items {
        assert ItemDone(t, q);
      }
    }
  }

  lemma ForeignItemKeeps(t: Tables, k: Key, after: Tables)
    requires Valid(t) && k in t.items && !t.items[k].complete && !Owned(t, k)
    requires after == t.(items := t.items[k := t.items[k].(complete := true)])
    ensures Valid(after)
  {
    forall q | q in after.items ensures ItemDone(after, q) { assert ItemDone(t, q); }
    forall j | j in after.jobs && after.jobs[j].status == Complete ensures !Unfinished(after.items, j) {
      forall q | q in after.items && q.job == j ensures after.items[q].complete { assert t.items[q].complete; }
    }
    assert ItemsValid(after) && CursorsValid(after);
  }

  lemma OwnedItemKeeps(t: Tables, k: Key, limit: nat, batch: set<nat>, next: nat, after: Tables)
    requires Valid(t) && k in t.items && PayloadGone(t, k.node, t.jobs[k.job].delete) && Key(k.job, k.job) in t.items
    requires FirstRows(t.rows, k.node, t.items[k].after, limit, batch, next)
    requires var items := Advanced(t, k, batch, next);
      after == t.(items := items,
                  jobs := t.jobs[k.job :=
                    t.jobs[k.job].(status := if Unfinished(items, k.job) then Pending else Complete)])
    ensures Valid(after)
  {
    AdvanceKeepsItems(t, k, limit, batch, next, after);
    AdvanceKeepsCursors(t, k, limit, batch, next, after);
    AdvanceKeepsProgress(t, k, limit, batch, next, after);
    AdvanceKeepsStatus(t, k, batch, next, after);
  }

  lemma OwnedStepKeeps(start: Tables, k: Key, limit: nat, batch: set<nat>, next: nat, after: Tables)
    requires Valid(start) && k in start.items && k.job in start.jobs && k.node in start.info
             && Key(k.job, k.job) in start.items
    requires FirstRows(start.rows, k.node, start.items[k].after, limit, batch, next)
    requires var clean, items := Cleansed(start, k), Advanced(Cleansed(start, k), k, batch, next);
      after == clean.(items := items,
                      jobs := start.jobs[k.job :=
                        start.jobs[k.job].(status := if Unfinished(items, k.job) then Pending else Complete)])
    ensures Valid(after)
  {
    if start.items[k].payloadDone {
      assert ItemDone(start, k);
    } else {
      CleanPayloadKeeps(start, k.node, start.jobs[k.job].delete);
    }
    OwnedItemKeeps(Cleansed(start, k), k, limit, batch, next, after);
  }

  lemma ItemStepKeeps(t: Tables, k: Key, limit: nat, batch: set<nat>, next: nat, after: Tables)
    requires Valid(t) && ItemStep(t, k, limit, batch, next, after)
    ensures Valid(after)
  {
    var start := WithRoot(t, k.job);
    WithRootKeeps(t, k.job);
    if Owned(start, k) {
      OwnedStepKeeps(start, k, limit, batch, next, after);
    } else {
      ForeignItemKeeps(start, k, after);
    }
  }

  lemma AdvanceKeepsStatus(t: Tables, k: Key, batch: set<nat>, next: nat, after: Tables)
    requires StatusValid(t) && k in t.items && k.job in t.jobs && Key(k.job, k.job) in t.items
    requires after.items == Advanced(t, k, batch, next)
    requires after.jobs ==
             t.jobs[k.job := t.jobs[k.job].(status := if Unfinished(after.items, k.job) then Pending else Complete)]
    ensures StatusValid(after)
  {
    forall j | j in after.jobs && after.jobs[j].status == Complete
      ensures Key(j, j) in after.items && !Unfinished(after.items, j)
    {
      if j != k.job {
        forall q | q in after.items && q.job == j ensures after.items[q].complete { assert t.items[q].complete; }
      }
    }
  }

  lemma CleanStepKeeps(t: Tables, job: Node, limit: nat, spent: nat, after: Tables)
    requires Valid(t) && CleanStep(t, job, limit, spent, after)
    ensures Valid(after)
  {
    if spent == 0 && CloseStep(t, job, after) {
      CloseKeeps(t, job, after);
    } else {
      var k: Key, batch: set<nat>, next: nat :| k.job == job && spent == 1 + |batch| && |batch| <= limit
        && ItemStep(t, k, limit, batch, next, after);
      ItemStepKeeps(t, k, limit, batch, next, after);
    }
  }

  lemma ExportKeeps(t: Tables, g: Grant, now: nat, n: Node, i: Info, sources: seq<Node>, kept: map<Node, Tag>,
          after: Tables)
    requires Valid(t) && Exported(t, g, now, n, i, sources, kept, after)
    ensures Valid(after)
  {
    DoomStays(t.rows, t.tombs, n, after.rows, after.tombs);
    forall k | k in t.items ensures k.node !in kept {
      if k.node in kept { AuthorizedNotDoomed(t, g, now, [k.node], k.node); }
    }
    ExportKeepsItems(t, n, kept, after);
    assert RowsValid(after) && JobsValid(after) && ItemsValid(after) && StatusValid(after);
  }

  lemma ExportKeepsItems(t: Tables, n: Node, kept: map<Node, Tag>, after: Tables)
    requires RowsValid(t) && ItemsValid(t) && CursorsValid(t) && ProgressValid(t) && ItemsValid(after)
    requires n !in t.info && RowsReplaced(t.rows, n, kept, after.rows)
    requires after == t.(info := after.info, rows := after.rows) && n in after.info
             && after.info == t.info[n := after.info[n]]
    requires forall k :: k in t.items ==> k.node !in kept
    ensures CursorsValid(after) && ProgressValid(after)
  {
    forall k, r | k in after.items && r in after.rows && after.rows[r].source == k.node && r <= after.items[k].after
      ensures Key(k.job, after.rows[r].subject) in after.items
    {
      OldRow(t.rows, n, kept, after.rows, r);
    }
    forall k | k in after.items ensures ItemDone(after, k) {
      assert ItemDone(t, k);
      forall r | r in after.rows && after.rows[r].source == k.node ensures r in t.rows && t.rows[r] == after.rows[r] {
        OldRow(t.rows, n, kept, after.rows, r);
      }
    }
  }

  lemma PublishKeeps(t: Tables, g: Grant, now: nat, n: Node, after: Tables)
    requires Valid(t) && Published(t, g, now, n, after)
    ensures Valid(after)
  {
    forall route ensures !Leads(t.rows, t.tombs, n, route) {
      if route.Up? && route.row in t.rows && t.rows[route.row].subject == n {
        AuthorizedNotDoomed(t, g, now, [t.rows[route.row].source], t.rows[route.row].source);
      }
    }
    forall k | k in after.items ensures ItemDone(after, k) { assert ItemDone(t, k) && k.node != n; }
  }

  lemma NextKeeps(t: Tables, op: Op, after: Tables)
    requires Valid(t) && Next(t, op, after)
    ensures Valid(after)
  {
    if after != t {
      match op
      case InsertOp(n, i, refs) => InsertKeeps(t, n, i, refs, after);
      case ReviseOp(g, now, n, expected, d) => ReviseKeeps(t, g, now, n, expected, d, after);
      case RetireOp(g, n, expected, delete) => RetireKeeps(t, g, n, expected, delete, after);
      case DisappearOp(n) => DisappearKeeps(t, n);
      case CleanOp(job, limit, spent) => CleanStepKeeps(t, job, limit, spent, after);
      case FailOp(job) => FailKeeps(t, job);
      case ExportOp(g, now, n, i, sources, kept) => ExportKeeps(t, g, now, n, i, sources, kept, after);
      case PublishOp(g, now, n) => PublishKeeps(t, g, now, n, after);
    }
  }

  lemma {:induction false} RunKeeps(ts: seq<Tables>, ops: seq<Op>, i: nat)
    requires IsRun(ts, ops) && i < |ts|
    ensures Valid(ts[i])
  {
    if i > 0 {
      RunKeeps(ts, ops, i - 1);
      NextKeeps(ts[i - 1], ops[i - 1], ts[i]);
    }
  }

  /** The main theorem, for any interleaving of insertions, revisions, exports,
      withdrawals, upgrades, interrupted batches and failed items. */
  lemma CleanupComplete(ts: seq<Tables>, ops: seq<Op>, i: nat, job: Node, c: Chain)
    requires IsRun(ts, ops) && i < |ts|
    requires job in ts[i].jobs && ts[i].jobs[job].status == Complete
    requires Derives(ts[i], ts[i].jobs[job].scope, job, c)
    ensures var n := Bottom(ts[i].rows, job, c); n in ts[i].info && PayloadGone(ts[i], n, ts[i].jobs[job].delete)
  {
    RunKeeps(ts, ops, i);
    CompleteMeansClean(ts[i], job, c);
  }

  // ----------------------------------------------------------- termination

  datatype Token = ToFinish(n: Node) | ToClean(n: Node) | ToFollow(row: nat)

  predicate Open(t: Tables, job: Node, x: Token) {
    match x
    case ToFinish(n) => Key(job, n) !in t.items || !t.items[Key(job, n)].complete
    case ToClean(n) => Key(job, n) !in t.items || !t.items[Key(job, n)].payloadDone
    case ToFollow(r) => r in t.rows && (var k := Key(job, t.rows[r].source); k !in t.items || r > t.items[k].after)
  }

  function Tokens(nodes: set<Node>, rows: set<nat>): set<Token> {
    (set n | n in nodes :: ToFinish(n)) + (set n | n in nodes :: ToClean(n)) + (set r | r in rows :: ToFollow(r))
  }

  /** What one job may still have to do in the present graph. */
  ghost function Work(t: Tables, job: Node): set<Token> {
    set x | x in Tokens(t.info.Keys, t.rows.Keys) && Open(t, job, x)
  }

  lemma CloseWork(t: Tables, job: Node, after: Tables)
    requires Valid(t) && CloseStep(t, job, after)
    ensures Work(after, job) == Work(t, job) && after.jobs[job].status == Complete
  {
  }

  lemma RootWork(t: Tables, job: Node)
    requires RowsValid(t)
    ensures Work(WithRoot(t, job), job) == Work(t, job)
  {
  }

  lemma AdvancedOpen(t: Tables, k: Key, limit: nat, batch: set<nat>, next: nat, after: Tables, x: Token)
    requires RowsValid(t) && k in t.items && !t.items[k].complete
    requires FirstRows(t.rows, k.node, t.items[k].after, limit, batch, next)
    requires after.rows == t.rows && after.items == Advanced(t, k, batch, next)
    requires Open(after, k.job, x) && (x.ToFollow? ==> x.row > 0)
    ensures Open(t, k.job, x)
  {
  }

  lemma AdvancedWork(t: Tables, k: Key, limit: nat, batch: set<nat>, next: nat, after: Tables)
    requires RowsValid(t) && k in t.items && k.node in t.info && !t.items[k].complete
    requires FirstRows(t.rows, k.node, t.items[k].after, limit, batch, next)
    requires after.rows == t.rows && after.info.Keys == t.info.Keys && after.items == Advanced(t, k, batch, next)
    ensures Work(after, k.job) <= Work(t, k.job)
    ensures limit > 0 ==> Work(after, k.job) < Work(t, k.job)
  {
    forall x | x in Work(after, k.job) ensures x in Work(t, k.job) {
      AdvancedOpen(t, k, limit, batch, next, after, x);
    }
    if batch != {} {
      assert next in After(t.rows, k.node, t.items[k].after);
      assert ToFollow(next) in Work(t, k.job) && !Open(after, k.job, ToFollow(next));
    } else if limit > 0 {
      assert ToFinish(k.node) in Work(t, k.job) && !Open(after, k.job, ToFinish(k.node));
    }
  }

  lemma ForeignWork(t: Tables, k: Key)
    requires k in t.items && k.node in t.info && !t.items[k].complete
    ensures Work(t.(items := t.items[k := t.items[k].(complete := true)]), k.job) < Work(t, k.job)
  {
    var after := t.(items := t.items[k := t.items[k].(complete := true)]);
    assert ToFinish(k.node) in Work(t, k.job) && !Open(after, k.job, ToFinish(k.node));
  }

  /** The part of an item transaction that decides how much work is left. */
  lemma StepShape(t: Tables, k: Key, limit: nat, batch: set<nat>, next: nat, after: Tables)
    requires ItemStep(t, k, limit, batch, next, after)
    ensures var start := WithRoot(t, k.job);
      k in start.items && !start.items[k].complete
      && if !Owned(start, k) then after == start.(items := start.items[k := start.items[k].(complete := true)])
         else FirstRows(start.rows, k.node, start.items[k].after, limit, batch, next) && after.rows == start.rows
              && after.info.Keys == start.info.Keys && after.items == Advanced(start, k, batch, next)
  {
  }

  /** A transaction never adds work, and with a row to spare it always removes some. */
  lemma ItemWork(t: Tables, k: Key, limit: nat, batch: set<nat>, next: nat, after: Tables)
    requires Valid(t) && ItemStep(t, k, limit, batch, next, after)
    ensures Work(after, k.job) <= Work(t, k.job)
    ensures limit > 0 ==> Work(after, k.job) < Work(t, k.job)
  {
    var start := WithRoot(t, k.job);
    RootWork(t, k.job);
    WithRootKeeps(t, k.job);
    StepShape(t, k, limit, batch, next, after);
    if !Owned(start, k) {
      ForeignWork(start, k);
    } else {
      AdvancedWork(start, k, limit, batch, next, after);
    }
  }

  lemma StepWork(t: Tables, job: Node, limit: nat, spent: nat, after: Tables)
    requires Valid(t) && CleanStep(t, job, limit, spent, after)
    ensures Work(after, job) <= Work(t, job)
    ensures job in t.jobs && job in after.jobs
    ensures limit > 0 ==> Work(after, job) < Work(t, job) || after.jobs[job].status == Complete
    ensures t.jobs[job].status == Complete ==> after.jobs[job].status == Complete
  {
    if spent == 0 && CloseStep(t, job, after) {
      CloseWork(t, job, after);
    } else {
      var k: Key, batch: set<nat>, next: nat :| k.job == job && spent == 1 + |batch| && |batch| <= limit
        && ItemStep(t, k, limit, batch, next, after);
      ItemWork(t, k, limit, batch, next, after);
    }
  }

  lemma BatchStep(trail: seq<Tables>, left: seq<nat>, job: Node, i: nat)
    requires Batched(trail, left, job) && i < |trail| - 1
    ensures left[i] > 0 && left[i + 1] <= left[i]
            && CleanStep(trail[i], job, left[i] - 1, left[i] - left[i + 1], trail[i + 1])
  {
    assert StepOf(job)(trail[i], left[i] - 1, left[i] - left[i + 1], trail[i + 1]);
  }

  ghost predicate Improved(start: Tables, t: Tables, job: Node) {
    && job in t.jobs
    && Work(t, job) <= Work(start, job)
    && (Work(t, job) < Work(start, job) || t.jobs[job].status == Complete)
  }

  lemma ImproveStep(start: Tables, t: Tables, job: Node, limit: nat, spent: nat, after: Tables)
    requires Valid(t) && CleanStep(t, job, limit, spent, after)
    requires Improved(start, t, job) || (start == t && limit > 0)
    ensures Valid(after) && Improved(start, after, job)
  {
    CleanStepKeeps(t, job, limit, spent, after);
    StepWork(t, job, limit, spent, after);
  }

  /** One advance keeps the invariant and either removes work or closes the job. */
  lemma {:induction false} AdvanceProgress(trail: seq<Tables>, left: seq<nat>, job: Node, i: nat)
    requires Batched(trail, left, job) && Valid(trail[0]) && i < |trail|
    ensures Valid(trail[i])
    ensures i > 0 ==> Improved(trail[0], trail[i], job)
  {
    if i > 0 {
      var k := i - 1;
      AdvanceProgress(trail, left, job, k);
      BatchStep(trail, left, job, k);
      ImproveStep(trail[0], trail[k], job, left[k] - 1, left[k] - left[k + 1], trail[k + 1]);
    }
  }

  ghost predicate AdvanceBy(t: Tables, job: Node, after: Tables, trail: seq<Tables>, left: seq<nat>) {
    Batched(trail, left, job) && |trail| > 1 && trail[0] == t && trail[|trail| - 1] == after
  }

  /** A successful advance of an open job, with nothing else committed meanwhile. */
  ghost predicate Advance(t: Tables, job: Node, after: Tables) {
    exists trail, left :: AdvanceBy(t, job, after, trail, left)
  }

  /** With no new edges, finitely many advances finish: more advances than there
      was work at the start include one that closed the job. */
  lemma {:induction false} AdvancesFinish(ts: seq<Tables>, job: Node)
    requires |ts| > 0 && Valid(ts[0])
    requires forall i :: 0 <= i < |ts| - 1 ==> Advance(ts[i], job, ts[i + 1])
    requires |ts| > |Work(ts[0], job)| + 1
    ensures exists i :: 0 <= i < |ts| && job in ts[i].jobs && ts[i].jobs[job].status == Complete
    decreases |ts|
  {
    assert Advance(ts[0], job, ts[0 + 1]);
    var trail, left :| AdvanceBy(ts[0], job, ts[1], trail, left);
    AdvanceProgress(trail, left, job, |trail| - 1);
    if ts[1].jobs[job].status != Complete {
      SmallerSet(Work(ts[1], job), Work(ts[0], job));
      AdvancesFinish(ts[1..], job);
      var i :| 0 <= i < |ts[1..]| && job in ts[1..][i].jobs && ts[1..][i].jobs[job].status == Complete;
      assert ts[1..][i] == ts[i + 1];
    }
  }

  lemma SmallerSet<T>(a: set<T>, b: set<T>)
    requires a < b
    ensures |a| < |b|
  {
    assert b == a + (b - a);
    assert b - a != {};
  }
}
