/** The store's lineage operations. `tx` is a transaction's working copy of the
    tables: it is committed by assigning it to `db`, and any earlier return or a
    crash leaves `db` as it was. */
module SourceStore {
  import opened Outcomes
  import opened Lineage
  import opened Sources
  import opened SourceSteps
  import opened Cleanup

  /** The row id an insertion receives: one more than the largest present. */
  method FreshRow(rows: Rows) returns (id: nat)
    ensures id > 0 && id !in rows && forall r :: r in rows ==> r < id
  {
    id := 1;
    var todo := rows.Keys;
    while todo != {}
      invariant id > 0 && todo <= rows.Keys
      invariant forall r :: r in rows ==> r in todo || r < id
    {
      var r :| r in todo;
      if r >= id { id := r + 1; }
      todo := todo - {r};
    }
  }

  function Only(kept: map<Node, Tag>, done: set<Node>): map<Node, Tag> {
    map n | n in kept && n in done :: kept[n]
  }

  /** Storing one more captured source extends the replacement by it. */
  lemma StoreOne(rows: Rows, s: Node, kept: map<Node, Tag>, n: Node, tag: Tag, after: Rows, id: nat)
    requires RowsReplaced(rows, s, kept, after) && n !in kept && id > 0 && id !in after
    ensures RowsReplaced(rows, s, kept[n := tag], after[id := EdgeTo(s, n, tag)])
  {
    var more, last := kept[n := tag], after[id := EdgeTo(s, n, tag)];
    forall m | m in more ensures exists r :: r in last && last[r] == EdgeTo(s, m, more[m]) {
      if m == n {
        assert last[id] == EdgeTo(s, n, tag);
      } else {
        var r :| r in after && after[r] == EdgeTo(s, m, kept[m]);
        assert last[r] == EdgeTo(s, m, kept[m]);
      }
    }
  }

  /** Resetting source by source is resetting them together. */
  lemma ResetOne(jobs: map<Node, Job>, items: map<Key, Item>, done: set<Node>, n: Node)
    ensures Reset(Reset(items, done), {n}) == Reset(items, done + {n})
    ensures Reopened(Reopened(jobs, items, done), Reset(items, done), {n}) == Reopened(jobs, items, done + {n})
  {
    assert Reset(items, done).Keys == items.Keys;
    forall j | j in jobs
      ensures Reopened(Reopened(jobs, items, done), Reset(items, done), {n})[j] == Reopened(jobs, items, done + {n})[j]
    {
      assert (exists m :: m in done + {n} && Key(j, m) in items) <==>
        (Key(j, n) in items || exists m :: m in done && Key(j, m) in items);
    }
  }

  /** The tables after some of the captured sources have been stored. */
  ghost predicate Storing(tx: Tables, s: Node, kept: map<Node, Tag>, done: set<Node>, rows: Rows, jobs: map<Node, Job>,
          items: map<Key, Item>) {
    && RowsReplaced(tx.rows, s, Only(kept, done), rows)
    && items == Reset(tx.items, done)
    && jobs == Reopened(tx.jobs, tx.items, done)
  }

  lemma StoringNone(tx: Tables, s: Node, kept: map<Node, Tag>, rows: Rows)
    requires rows == map r | r in tx.rows && tx.rows[r].subject != s :: tx.rows[r]
    ensures Storing(tx, s, kept, {}, rows, tx.jobs, tx.items)
  {
    assert Reset(tx.items, {}) == tx.items;
    assert Reopened(tx.jobs, tx.items, {}) == tx.jobs;
  }

  lemma StoringOne(tx: Tables, s: Node, kept: map<Node, Tag>, done: set<Node>, rows: Rows, jobs: map<Node, Job>,
          items: map<Key, Item>, n: Node, id: nat)
    requires Storing(tx, s, kept, done, rows, jobs, items) && n in kept && n !in done && id > 0 && id !in rows
    ensures Storing(tx, s, kept, done + {n}, rows[id := EdgeTo(s, n, kept[n])], Reopened(jobs, items, {n}),
            Reset(items, {n}))
  {
    StoreOne(tx.rows, s, Only(kept, done), n, kept[n], rows, id);
    assert Only(kept, done)[n := kept[n]] == Only(kept, done + {n});
    ResetOne(tx.jobs, tx.items, done, n);
  }

  lemma StoringAll(tx: Tables, s: Node, kept: map<Node, Tag>, done: set<Node>, rows: Rows, jobs: map<Node, Job>,
          items: map<Key, Item>)
    requires Storing(tx, s, kept, done, rows, jobs, items) && done == kept.Keys
    ensures Recaptured(tx, s, kept, tx.(rows := rows, jobs := jobs, items := items))
  {
    assert Only(kept, done) == kept;
  }

  /** Deleting the subject's rows and storing each captured source in turn. */
  method StoreCaptured(tx: Tables, s: Node, kept: map<Node, Tag>) returns (out: Tables)
    ensures Recaptured(tx, s, kept, out)
  {
    var rows: Rows := map r | r in tx.rows && tx.rows[r].subject != s :: tx.rows[r];
    var jobs, items := tx.jobs, tx.items;
    var todo := kept.Keys;
    ghost var done: set<Node> := {};
    StoringNone(tx, s, kept, rows);
    while todo != {}
      invariant todo <= kept.Keys && done == kept.Keys - todo
      invariant Storing(tx, s, kept, done, rows, jobs, items)
    {
      var n :| n in todo;
      var id := FreshRow(rows);
      StoringOne(tx, s, kept, done, rows, jobs, items, n, id);
      rows := rows[id := EdgeTo(s, n, kept[n])];
      jobs := Reopened(jobs, items, {n});
      items := Reset(items, {n});
      todo := todo - {n};
      done := done + {n};
    }
    StoringAll(tx, s, kept, done, rows, jobs, items);
    out := tx.(rows := rows, jobs := jobs, items := items);
  }

  method CaptureMutableAncestry(tx: Tables, s: Node, roots: seq<Arrival>) returns (out: Result<Tables>)
    ensures out.Ok? <==> CaptureFits(tx, roots)
    ensures out.Ok? ==> Captures(tx, s, roots, out.value)
  {
    var captured := CaptureAncestry(tx.rows, tx.tombs, roots);
    if captured.Err? { return Err(captured.error); }
    var stored := StoreCaptured(tx, s, captured.value);
    return Ok(stored);
  }

  /** The page of derivatives one transaction reads, in row order. */
  method ReadChildren(rows: Rows, n: Node, cursor: nat, limit: nat) returns (batch: set<nat>, next: nat)
    ensures FirstRows(rows, n, cursor, limit, batch, next)
  {
    batch, next := {}, cursor;
    while |batch| < limit && After(rows, n, next) != {}
      invariant |batch| <= limit && next >= cursor
      invariant batch == After(rows, n, cursor) - After(rows, n, next)
      invariant if batch == {} then next == cursor else next in batch
      decreases limit - |batch|
    {
      var r := Least(After(rows, n, next));
      batch := batch + {r};
      next := r;
    }
    if |batch| < limit { assert batch == After(rows, n, cursor); }
  }

  /** The part of an advance's transaction that handles an owned item. */
  method CleanItem(t: Tables, tx: Tables, k: Key, limit: nat, broken: set<Node>) returns (r: Result<Tables>, spent: nat)
    requires k.job in t.jobs && tx == WithRoot(t, k.job)
    requires k in tx.items && !tx.items[k].complete && Owned(tx, k)
    ensures r.Ok? ==> spent > 0 && CleanStep(t, k.job, limit, spent, r.value) && spent <= limit + 1
    ensures r.Ok? ==> k.job in r.value.jobs
  {
    var clean, item := tx, tx.items[k];
    if !item.payloadDone {
      if k.node in broken { return Err(Invalid), 0; }
      clean := CleanPayload(tx, k.node, tx.jobs[k.job].delete);
    }
    var batch, next := ReadChildren(tx.rows, k.node, item.after, limit);
    var items := Discover(clean.items, k.job, Subjects(tx.rows, batch))
                 [k := Item(next, true, batch == After(tx.rows, k.node, item.after))];
    var out := clean.(items := items,
                      jobs := tx.jobs[k.job :=
                        tx.jobs[k.job].(status := if Unfinished(items, k.job) then Pending else Complete)]);
    assert ItemStep(t, k, limit, batch, next, out);
    return Ok(out), 1 + |batch|;
  }

  /** One transaction of an advance: `remaining` operations are left before it,
      and `broken` holds the nodes whose payload cannot be cleaned. */
  method CleanOnce(t: Tables, job: Node, remaining: nat, broken: set<Node>) returns (r: Result<Tables>, spent: nat)
    requires job in t.jobs && remaining > 0
    ensures r.Ok? ==> spent <= remaining && StepOf(job)(t, remaining - 1, spent, r.value) && job in r.value.jobs
    ensures r.Ok? && spent == 0 ==> r.value.jobs[job].status == Complete
  {
    var tx := WithRoot(t, job);
    if !Unfinished(tx.items, job) {
      tx := tx.(jobs := tx.jobs[job := tx.jobs[job].(status := Complete)]);
      assert CloseStep(t, job, tx);
      return Ok(tx), 0;
    }
    var k :| k in tx.items && k.job == job && !tx.items[k].complete;
    if Owned(tx, k) {
      r, spent := CleanItem(t, tx, k, remaining - 1, broken);
      return;
    }
    tx := tx.(items := tx.items[k := tx.items[k].(complete := true)]);
    assert ItemStep(t, k, remaining - 1, {}, 0, tx);
    return Ok(tx), 1;
  }

  /** An advance so far: its states, ending at `t` with `remaining` operations left. */
  ghost predicate Trailing(trail: seq<Tables>, left: seq<nat>, job: Node, start: Tables, t: Tables, remaining: nat) {
    Batched(trail, left, job) && trail[0] == start && trail[|trail| - 1] == t && left[|left| - 1] == remaining
  }

  lemma TrailStarts(job: Node, t: Tables)
    ensures Trailing([t], [BATCH_WORK], job, t, t, BATCH_WORK)
  {
  }

  lemma TrailMore(trail: seq<Tables>, left: seq<nat>, job: Node, start: Tables, t: Tables, remaining: nat, spent: nat,
          after: Tables)
    requires Trailing(trail, left, job, start, t, remaining)
    requires 0 < remaining && spent <= remaining && StepOf(job)(t, remaining - 1, spent, after)
    ensures Trailing(trail + [after], left + [remaining - spent], job, start, after, remaining - spent)
  {
    SpendMore(trail, left, StepOf(job), spent, after);
  }

  method RequireReference(t: Tables, g: Grant, now: nat, d: Draft, k: nat) returns (ok: bool)
    requires k < |d.refs| && k < |d.checks|
    ensures ok <==> ReferenceFits(t, g, now, d, k)
  {
    var id := d.refs[k].id;
    match d.checks[k] {
      case Opaque =>
        var n := Node(Record, id);
        ok := n in t.info && t.info[n].RecordInfo? && t.info[n].purpose.Evaluating? && t.info[n].scope == g.scope;
      case Readable => ok := RequireSources(t, LineageGrant(g, d.split), now, [Cited(t.info, id)]);
      case Hosted => ok := RequireSources(t, HostGrant(g), now, [Cited(t.info, id)]);
    }
  }

  method RequireReferences(t: Tables, g: Grant, now: nat, d: Draft) returns (ok: bool)
    ensures ok <==> |d.checks| == |d.refs| && forall k :: 0 <= k < |d.refs| ==> ReferenceFits(t, g, now, d, k)
  {
    if |d.checks| != |d.refs| { return false; }
    for k := 0 to |d.refs|
      invariant forall j :: 0 <= j < k ==> ReferenceFits(t, g, now, d, j)
    {
      var fits := RequireReference(t, g, now, d, k);
      if !fits { return false; }
    }
    return true;
  }

  class Store {
    var db: Tables

    constructor ()
      ensures db == Empty
    {
      db := Empty;
    }

    /** A new record, event or snapshot with its ancestry pinned. */
    method Insert(n: Node, i: Info, refs: seq<Ref>) returns (r: Result<()>)
      modifies this
      ensures r.Ok? <==> InsertFits(old(db), n, i, refs)
      ensures r.Ok? ==> Inserted(old(db), n, i, refs, db)
      ensures r.Err? ==> db == old(db)
      ensures Valid(old(db)) ==> Valid(db)
    {
      var tx := db;
      if n in tx.info { return Err(Conflict); }
      if !KindMatches(n, i) || (i.RecordInfo? && (i.retired || i.emptied || i.refs != refs)) { return Err(Invalid); }
      tx := tx.(info := tx.info[n := i]);
      var captured := CaptureMutableAncestry(tx, n, Roots(tx.info, refs));
      if captured.Err? { return Err(captured.error); }
      db := captured.value;
      if Valid(old(db)) { InsertKeeps(old(db), n, i, refs, db); }
      return Ok(());
    }

    /** A new revision of a record the grant may still read, from references it may
        publish under the new label. */
    method Revise(g: Grant, now: nat, n: Node, expected: Version, d: Draft) returns (r: Result<()>)
      modifies this
      ensures r.Ok? <==> ReviseFits(old(db), g, now, n, expected, d)
      ensures r.Ok? ==> Revised(old(db), n, d, db)
      ensures r.Err? ==> db == old(db)
      ensures Valid(old(db)) ==> Valid(db)
    {
      var tx := db;
      if d.split !in g.splits { return Err(Denied); }
      var cited := RequireReferences(tx, g, now, d);
      if !cited { return Err(Denied); }
      var readable := RequireSources(tx, g, now, [n]);
      if !readable || n !in tx.info || !tx.info[n].RecordInfo? { return Err(Missing); }
      if tx.info[n].scope != g.scope { return Err(Denied); }
      if tx.info[n].version != expected || !tx.info[n].purpose.Revisable? { return Err(Conflict); }
      tx := tx.(info := tx.info[n := RevisedInfo(tx.info[n], d)]);
      var captured := CaptureMutableAncestry(tx, n, Roots(tx.info, d.refs));
      if captured.Err? { return Err(captured.error); }
      db := captured.value;
      if Valid(old(db)) { ReviseKeeps(old(db), g, now, n, expected, d, db); }
      return Ok(());
    }

    /** Retirement or deletion of a record; its ancestry outlives its content. */
    method Retire(g: Grant, n: Node, expected: Version, delete: bool) returns (r: Result<()>)
      modifies this
      ensures r.Ok? ==>
              db == old(db) || (RetireApplies(old(db), g, n, expected, delete) && Retired(old(db), n, delete, db))
      ensures RetireApplies(old(db), g, n, expected, delete) ==> (r.Ok? <==> RetireFits(old(db), n, delete))
      ensures r.Ok? && RetireApplies(old(db), g, n, expected, delete) ==> Retired(old(db), n, delete, db)
      ensures r.Err? ==> db == old(db)
      ensures Valid(old(db)) ==> Valid(db)
    {
      var tx := db;
      if n !in tx.info || !tx.info[n].RecordInfo? || tx.info[n].scope != g.scope { return Err(Missing); }
      if tx.info[n].split !in g.splits { return Err(Denied); }
      if tx.info[n].version != expected { return Err(Conflict); }
      if tx.info[n].purpose.Admitting? || tx.info[n].purpose.Evaluating? { return Err(Denied); }
      if tx.info[n].retired && (!delete || tx.info[n].emptied) { return Ok(()); }
      var i := RetiredInfo(tx.info[n], delete);
      tx := tx.(info := tx.info[n := i]);
      if !HasRows(tx.rows, n) {
        var captured := CaptureMutableAncestry(tx, n, Roots(tx.info, i.refs));
        if captured.Err? { return Err(captured.error); }
        tx := captured.value;
      }
      db := Withdrawn(tx, n, i.scope, i.emptied);
      if Valid(old(db)) { RetireKeeps(old(db), g, n, expected, delete, db); }
      return Ok(());
    }

    /** The host finds a snapshot's file absent. */
    method Disappear(n: Node) returns (r: Result<()>)
      modifies this
      ensures r.Ok? <==> n in old(db).info && old(db).info[n].ArtifactInfo?
      ensures r.Ok? ==> db == Disappeared(old(db), n)
      ensures r.Err? ==> db == old(db)
      ensures Valid(old(db)) ==> Valid(db)
    {
      if n !in db.info || !db.info[n].ArtifactInfo? { return Err(Missing); }
      db := Disappeared(db, n);
      if Valid(old(db)) { DisappearKeeps(old(db), n); }
      return Ok(());
    }

    /** One bounded advance of a cleanup job. Every turn of the loop is a
        transaction of its own, so a failure keeps the turns before it. */
    method AdvanceCleanup(job: Node, scope: Scope, broken: set<Node>)
      returns (r: Result<()>, ghost trail: seq<Tables>, ghost left: seq<nat>)
      modifies this
      ensures Batched(trail, left, job) && trail[0] == old(db) && trail[|trail| - 1] == db
      ensures job in old(db).jobs ==> job in db.jobs
      ensures r.Ok? ==> job in db.jobs && (db.jobs[job].status == Complete || left[|left| - 1] == 0)
      ensures job !in old(db).jobs || old(db).jobs[job].scope != scope ==> r.Err? && db == old(db)
    {
      var remaining: nat := BATCH_WORK;
      trail, left := [db], [remaining];
      TrailStarts(job, db);
      if job !in db.jobs || db.jobs[job].scope != scope { return Err(Missing), trail, left; }
      while remaining > 0
        invariant Trailing(trail, left, job, old(db), db, remaining) && job in db.jobs
      {
        var step, spent := CleanOnce(db, job, remaining, broken);
        if step.Err? { return Err(step.error), trail, left; }
        TrailMore(trail, left, job, old(db), db, remaining, spent, step.value);
        db := step.value;
        remaining := remaining - spent;
        trail, left := trail + [db], left + [remaining];
        if spent == 0 { return Ok(()), trail, left; }
      }
      return Ok(()), trail, left;
    }

    /** One selected job: advance it, and record a failure instead of an error. An
        advance without failure completes the job or leaves strictly less work. */
    method CleanupJob(job: Node, broken: set<Node>)
      returns (failed: bool, ghost trail: seq<Tables>, ghost left: seq<nat>)
      requires job in db.jobs
      modifies this
      ensures Batched(trail, left, job) && trail[0] == old(db)
      ensures job in trail[|trail| - 1].jobs
      ensures db == if failed then FailJob(trail[|trail| - 1], job) else trail[|trail| - 1]
      ensures job in db.jobs && (failed ==> db.jobs[job].status == Failed)
      ensures Valid(old(db)) ==> Valid(db) && (!failed ==> Improved(old(db), db, job))
    {
      var r;
      r, trail, left := AdvanceCleanup(job, db.jobs[job].scope, broken);
      failed := r.Err?;
      if Valid(old(db)) { AdvanceProgress(trail, left, job, |trail| - 1); }
      if failed {
        if Valid(db) { FailKeeps(db, job); }
        db := FailJob(db, job);
      }
    }
  }
}
