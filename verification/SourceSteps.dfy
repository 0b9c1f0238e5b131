/** The transactions on the lineage tables: what each one commits. */
module SourceSteps {
  import opened Outcomes
  import opened Lineage
  import opened Sources

  // ------------------------------------------------------ capturing edges

  /** A declared reference resolved against the rows present at capture. */
  function Resolve(info: map<Node, Info>, id: nat): Node {
    if Node(Record, id) in info then Node(Record, id)
    else if Node(Event, id) in info then Node(Event, id)
    else if Node(Artifact, id) in info then Node(Artifact, id)
    else Node(Unknown, id)
  }

  function Roots(info: map<Node, Info>, refs: seq<Ref>): seq<Arrival> {
    seq(|refs|, i requires 0 <= i < |refs| => Arrival(Resolve(info, refs[i].id), None, !refs[i].released))
  }

  function EdgeTo(s: Node, n: Node, tag: Tag): Edge {
    Edge(s, n, tag.version, tag.access)
  }

  /** The subject's rows are exactly the captured ones; every other row stays. */
  ghost predicate RowsReplaced(rows: Rows, s: Node, kept: map<Node, Tag>, after: Rows) {
    && (forall r :: r in rows && rows[r].subject != s ==> r in after && after[r] == rows[r])
    && (forall r :: r in after && after[r].subject != s ==> r in rows && rows[r] == after[r])
    && (forall r :: r in after && after[r].subject == s ==>
          r > 0 && after[r].source in kept && after[r] == EdgeTo(s, after[r].source, kept[after[r].source]))
    && (forall n :: n in kept ==> exists r :: r in after && after[r] == EdgeTo(s, n, kept[n]))
    && (forall r, q :: (r in after && q in after && after[r].subject == s && after[r] == after[q]) ==> r == q)
  }

  /** New derivatives put their source back on every cleanup that knows it. */
  function Reset(items: map<Key, Item>, sources: set<Node>): map<Key, Item> {
    map k | k in items :: if k.node in sources then Item(0, false, false) else items[k]
  }

  function Reopened(jobs: map<Node, Job>, items: map<Key, Item>, sources: set<Node>): map<Node, Job> {
    map j | j in jobs :: if exists n | n in sources :: Key(j, n) in items then jobs[j].(status := Pending) else jobs[j]
  }

  ghost predicate Recaptured(t: Tables, s: Node, kept: map<Node, Tag>, after: Tables) {
    && RowsReplaced(t.rows, s, kept, after.rows)
    && after == t.(rows := after.rows, items := Reset(t.items, kept.Keys), jobs := Reopened(t.jobs, t.items, kept.Keys))
  }

  ghost predicate CaptureFits(t: Tables, roots: seq<Arrival>) {
    |RecordPairs(Expandable(t.rows, t.tombs), roots)| <= VISIT_BOUND
  }

  ghost predicate Captures(t: Tables, s: Node, roots: seq<Arrival>, after: Tables) {
    Recaptured(t, s, Meet(Expandable(t.rows, t.tombs), roots), after)
  }

  // ------------------------------------------------ inserting and revising

  /** A new record, event or snapshot, together with its captured ancestry. */
  ghost predicate InsertFits(t: Tables, n: Node, i: Info, refs: seq<Ref>) {
    && n !in t.info
    && KindMatches(n, i)
    && (i.RecordInfo? ==> !i.retired && !i.emptied && i.refs == refs)
    && CaptureFits(t.(info := t.info[n := i]), Roots(t.info[n := i], refs))
  }

  ghost predicate Inserted(t: Tables, n: Node, i: Info, refs: seq<Ref>, after: Tables) {
    Captures(t.(info := t.info[n := i]), n, Roots(t.info[n := i], refs), after)
  }

  /** How a submission's reference is checked: as readable below the draft's own
      label, as an opaque evaluation of the scope that a recommendation may cite, or,
      for the host, against every split. */
  datatype Check = Readable | Opaque | Hosted

  /** `checks[k]` is how reference `k` is checked. */
  datatype Draft = Draft(split: Split, expires: Option<nat>, refs: seq<Ref>, checks: seq<Check>)

  function Level(s: Split): nat {
    match s
    case Development => 0
    case Evaluation => 1
    case Holdout => 2
  }

  /** What a derived record may be published from: nothing labelled above it. */
  function LineageGrant(g: Grant, split: Split): Grant {
    g.(splits := set s | s in g.splits && Level(s) <= Level(split))
  }

  function HostGrant(g: Grant): Grant {
    g.(splits := {Development, Evaluation, Holdout})
  }

  /** A reference looked up by id, a record before a snapshot before an event. */
  function Cited(info: map<Node, Info>, id: nat): Node {
    if Node(Record, id) in info then Node(Record, id)
    else if Node(Artifact, id) in info then Node(Artifact, id)
    else Node(Event, id)
  }

  ghost predicate ReferenceFits(t: Tables, g: Grant, now: nat, d: Draft, k: nat) {
    && k < |d.refs| && k < |d.checks|
    && var id := d.refs[k].id;
       match d.checks[k]
       case Opaque =>
         var n := Node(Record, id);
         n in t.info && t.info[n].RecordInfo? && t.info[n].purpose.Evaluating? && t.info[n].scope == g.scope
       case Readable => Authorized(t, LineageGrant(g, d.split), now, [Cited(t.info, id)])
       case Hosted => Authorized(t, HostGrant(g), now, [Cited(t.info, id)])
  }

  function RevisedInfo(i: Info, d: Draft): Info
    requires i.RecordInfo?
  {
    RecordInfo(i.scope, d.split, i.purpose, i.version + 1, false, false, d.expires, d.refs)
  }

  /** A record may be revised only by a grant that may read it and its new
      references now. */
  ghost predicate ReviseFits(t: Tables, g: Grant, now: nat, n: Node, expected: Version, d: Draft) {
    && d.split in g.splits && |d.checks| == |d.refs|
    && (forall k :: 0 <= k < |d.refs| ==> ReferenceFits(t, g, now, d, k))
    && n in t.info && t.info[n].RecordInfo?
    && Authorized(t, g, now, [n])
    && t.info[n].scope == g.scope
    && t.info[n].purpose.Revisable?
    && t.info[n].version == expected
    && var info := t.info[n := RevisedInfo(t.info[n], d)];
       CaptureFits(t.(info := info), Roots(info, d.refs))
  }

  ghost predicate Revised(t: Tables, n: Node, d: Draft, after: Tables) {
    && n in t.info && t.info[n].RecordInfo?
    && var info := t.info[n := RevisedInfo(t.info[n], d)];
       Captures(t.(info := info), n, Roots(info, d.refs), after)
  }

  // ------------------------------------------------------------ withdrawal

  predicate HasRows(rows: Rows, n: Node) {
    exists r | r in rows :: rows[r].subject == n
  }

  function RetiredInfo(i: Info, delete: bool): Info
    requires i.RecordInfo?
  {
    i.(retired := true, version := i.version + 1, emptied := i.emptied || delete,
       refs := if delete then [] else i.refs)
  }

  /** Turning a retirement into a deletion visits every discovered payload again. */
  function Upgraded(items: map<Key, Item>, job: Node): map<Key, Item> {
    map k | k in items :: if k.job == job then items[k].(payloadDone := false, complete := false) else items[k]
  }

  function Withdrawn(t: Tables, n: Node, scope: Scope, deleted: bool): Tables {
    t.(tombs := t.tombs + {n},
       items := if deleted && n in t.jobs && !t.jobs[n].delete then Upgraded(t.items, n) else t.items,
       jobs := t.jobs[n := if n in t.jobs then Job(t.jobs[n].scope, t.jobs[n].delete || deleted, Pending)
                           else Job(scope, deleted, Pending)])
  }

  predicate RetireApplies(t: Tables, g: Grant, n: Node, expected: Version, delete: bool) {
    && n in t.info && t.info[n].RecordInfo?
    && t.info[n].scope == g.scope
    && t.info[n].split in g.splits
    && t.info[n].version == expected
    && !t.info[n].purpose.Admitting? && !t.info[n].purpose.Evaluating?
    && !(t.info[n].retired && (!delete || t.info[n].emptied))
  }

  /** A record without rows has its ancestry captured on retirement, if it fits. */
  ghost predicate RetireFits(t: Tables, n: Node, delete: bool)
    requires n in t.info && t.info[n].RecordInfo?
  {
    var i := RetiredInfo(t.info[n], delete);
    var info := t.info[n := i];
    HasRows(t.rows, n) || CaptureFits(t.(info := info), Roots(info, i.refs))
  }

  /** Retirement keeps captured ancestry; only a record without any is captured. */
  ghost predicate Retired(t: Tables, n: Node, delete: bool, after: Tables) {
    && n in t.info && t.info[n].RecordInfo?
    && var i := RetiredInfo(t.info[n], delete);
       var mid := t.(info := t.info[n := i]);
       exists kept :: (if HasRows(t.rows, n) then kept == mid else Captures(mid, n, Roots(mid.info, i.refs), kept))
         && after == Withdrawn(kept, n, i.scope, i.emptied)
  }

  /** A snapshot whose file has disappeared becomes a deletion root. */
  function Disappeared(t: Tables, n: Node): Tables
    requires n in t.info && t.info[n].ArtifactInfo?
  {
    t.(info := t.info[n := t.info[n].(available := false)],
       tombs := t.tombs + {n},
       jobs := if n in t.jobs then t.jobs else t.jobs[n := Job(t.info[n].scope, true, Pending)])
  }

  // --------------------------------------------------------------- cleanup

  predicate Owned(t: Tables, k: Key) {
    k.job in t.jobs && k.node in t.info && t.info[k.node].scope == t.jobs[k.job].scope
  }

  /** What cleaning one payload does to the row it belongs to. */
  function CleanInfo(i: Info, delete: bool): Info {
    match i
    case RecordInfo(_, _, _, _, _, _, _, _) =>
      if Kept(i) || (i.retired && !(delete && !i.emptied)) then i
      else i.(version := i.version + 1, retired := true, emptied := i.emptied || delete,
              refs := if delete then [] else i.refs)
    case EventInfo(_, split, _, _, _) =>
      if delete && split.Development? then i.(content := false, redacted := true) else i
    case ArtifactInfo(_, split, _, _, _, available, _, exported, payload) =>
      i.(available := available && !(exported && split.Development?),
         payload := payload && !(delete && split.Development?))
  }

  predicate CleanTombs(i: Info, delete: bool) {
    match i
    case RecordInfo(_, _, _, _, _, _, _, _) => !Kept(i)
    case EventInfo(_, split, _, _, _) => delete && split.Development?
    case ArtifactInfo(_, _, _, _, _, _, _, _, _) => false
  }

  function CleanPayload(t: Tables, n: Node, delete: bool): Tables
    requires n in t.info
  {
    t.(info := t.info[n := CleanInfo(t.info[n], delete)],
       tombs := if CleanTombs(t.info[n], delete) then t.tombs + {n} else t.tombs)
  }

  function WithRoot(t: Tables, job: Node): Tables {
    if Key(job, job) in t.items then t else t.(items := t.items[Key(job, job) := Item(0, false, false)])
  }

  function Discover(items: map<Key, Item>, job: Node, nodes: set<Node>): map<Key, Item> {
    map k | k in items.Keys + (set n | n in nodes :: Key(job, n)) :: if k in items then items[k]
      else Item(0, false, false)
  }

  predicate Unfinished(items: map<Key, Item>, job: Node) {
    exists k | k in items :: k.job == job && !items[k].complete
  }

  function After(rows: Rows, n: Node, cursor: nat): set<nat> {
    set r | r in rows && rows[r].source == n && r > cursor
  }

  /** `batch` is the first `limit` rows after the cursor, and `next` the last of them. */
  ghost predicate FirstRows(rows: Rows, n: Node, cursor: nat, limit: nat, batch: set<nat>, next: nat) {
    && batch <= After(rows, n, cursor)
    && |batch| <= limit
    && (batch == After(rows, n, cursor) || |batch| == limit)
    && (forall r, q :: r in batch && q in After(rows, n, cursor) - batch ==> r < q)
    && (if batch == {} then next == cursor else next in batch && forall r :: r in batch ==> r <= next)
  }

  function Subjects(rows: Rows, batch: set<nat>): set<Node> {
    set r | r in batch && r in rows :: rows[r].subject
  }

  /** One transaction of an advance on an unfinished item. */
  ghost predicate ItemStep(t: Tables, k: Key, limit: nat, batch: set<nat>, next: nat, after: Tables) {
    && k.job in t.jobs
    && var start := WithRoot(t, k.job);
    && k in start.items && !start.items[k].complete
    && if !Owned(start, k) then
         && batch == {}
         && after == start.(items := start.items[k := start.items[k].(complete := true)])
       else
         var item := start.items[k];
         var clean := if item.payloadDone then start else CleanPayload(start, k.node, t.jobs[k.job].delete);
         && FirstRows(t.rows, k.node, item.after, limit, batch, next)
         && var items := Discover(clean.items, k.job, Subjects(t.rows, batch))
                         [k := Item(next, true, batch == After(t.rows, k.node, item.after))];
            after == clean.(items := items,
                            jobs := t.jobs[k.job :=
                              t.jobs[k.job].(status := if Unfinished(items, k.job) then Pending else Complete)])
  }

  /** The transaction that finds nothing left and closes the job. */
  ghost predicate CloseStep(t: Tables, job: Node, after: Tables) {
    && job in t.jobs
    && var start := WithRoot(t, job);
    && !Unfinished(start.items, job)
    && after == start.(jobs := start.jobs[job := start.jobs[job].(status := Complete)])
  }

  /** One transaction of an advance and the node/edge operations it spends. */
  ghost predicate CleanStep(t: Tables, job: Node, limit: nat, spent: nat, after: Tables) {
    || (spent == 0 && CloseStep(t, job, after))
    || (exists k: Key, batch: set<nat>, next: nat ::
          && k.job == job && spent == 1 + |batch| && |batch| <= limit
          && ItemStep(t, k, limit, batch, next, after))
  }

  function FailJob(t: Tables, job: Node): Tables
    requires job in t.jobs
  {
    t.(jobs := t.jobs[job := t.jobs[job].(status := Failed)])
  }

  /** A chain of steps that spend from a budget: `left[i]` is what remains at `trail[i]`. */
  ghost predicate Spends<T(!new)>(trail: seq<T>, left: seq<nat>, step: (T, nat, nat, T) -> bool) {
    && |trail| == |left| > 0
    && forall i :: 0 <= i < |trail| - 1 ==>
         left[i] > 0 && left[i + 1] <= left[i] && step(trail[i], left[i] - 1, left[i] - left[i + 1], trail[i + 1])
  }

  ghost function StepOf(job: Node): (Tables, nat, nat, Tables) -> bool {
    (t: Tables, limit: nat, spent: nat, after: Tables) => CleanStep(t, job, limit, spent, after)
  }

  /** The states one advance passes through, and the operations left at each. */
  ghost predicate Batched(trail: seq<Tables>, left: seq<nat>, job: Node) {
    Spends(trail, left, StepOf(job)) && left[0] == BATCH_WORK
  }

  lemma SpendMore<T(!new)>(trail: seq<T>, left: seq<nat>, step: (T, nat, nat, T) -> bool, spent: nat, after: T)
    requires Spends(trail, left, step) && 0 < left[|left| - 1] && spent <= left[|left| - 1]
    requires step(trail[|trail| - 1], left[|left| - 1] - 1, spent, after)
    ensures Spends(trail + [after], left + [left[|left| - 1] - spent], step)
  {
  }

  const BATCH_WORK := 100

  // --------------------------------------------------------------- exports

  /** Every node an export review visits. */
  ghost function Closure(t: Tables, sources: seq<Node>): set<Node> {
    set n | n in Ends(t.rows, Starts(sources)) && ReachedAt(t.rows, Starts(sources), n)
  }

  /** An export manifest copies its reviewed closure without touching cleanup rows. */
  ghost predicate Exported(t: Tables, g: Grant, now: nat, n: Node, i: Info, sources: seq<Node>, kept: map<Node, Tag>,
          after: Tables) {
    && n !in t.info && i.ArtifactInfo? && n.kind.Artifact? && i.exported && !i.available
    && kept.Keys == Closure(t, sources)
    && (forall m :: m in kept ==> Authorized(t, g, now, [m]))
    && RowsReplaced(t.rows, n, kept, after.rows)
    && after == t.(info := t.info[n := i], rows := after.rows)
  }

  /** Publication checks the whole closure again before the export is readable. */
  ghost predicate Published(t: Tables, g: Grant, now: nat, n: Node, after: Tables) {
    && n in t.info && t.info[n].ArtifactInfo? && t.info[n].exported && n !in t.tombs
    && (forall r :: r in t.rows && t.rows[r].subject == n ==> Authorized(t, g, now, [t.rows[r].source]))
    && after == t.(info := t.info[n := t.info[n].(available := true)])
  }

  // ------------------------------------------------------------------ runs

  datatype Op =
    | InsertOp(n: Node, i: Info, refs: seq<Ref>)
    | ReviseOp(g: Grant, now: nat, n: Node, expected: Version, d: Draft)
    | RetireOp(g: Grant, n: Node, expected: Version, delete: bool)
    | DisappearOp(n: Node)
    | CleanOp(job: Node, limit: nat, spent: nat)
    | FailOp(job: Node)
    | ExportOp(g: Grant, now: nat, n: Node, i: Info, sources: seq<Node>, kept: map<Node, Tag>)
    | PublishOp(g: Grant, now: nat, n: Node)

  ghost predicate Commits(t: Tables, op: Op, after: Tables) {
    match op
    case InsertOp(n, i, refs) => InsertFits(t, n, i, refs) && Inserted(t, n, i, refs, after)
    case ReviseOp(g, now, n, expected, d) => ReviseFits(t, g, now, n, expected, d) && Revised(t, n, d, after)
    case RetireOp(g, n, expected, delete) => RetireApplies(t, g, n, expected, delete) && Retired(t, n, delete, after)
    case DisappearOp(n) => n in t.info && t.info[n].ArtifactInfo? && after == Disappeared(t, n)
    case CleanOp(job, limit, spent) => CleanStep(t, job, limit, spent, after)
    case FailOp(job) => job in t.jobs && after == FailJob(t, job)
    case ExportOp(g, now, n, i, sources, kept) => Exported(t, g, now, n, i, sources, kept, after)
    case PublishOp(g, now, n) => Published(t, g, now, n, after)
  }

  /** A transaction commits as described, or fails or is lost and changes nothing. */
  ghost predicate Next(t: Tables, op: Op, after: Tables) {
    after == t || Commits(t, op, after)
  }

  ghost predicate IsRun(ts: seq<Tables>, ops: seq<Op>) {
    && |ts| == |ops| + 1
    && ts[0] == Empty
    && forall i {:trigger ops[i]} :: 0 <= i < |ops| ==> Next(ts[i], ops[i], ts[i + 1])
  }
}
