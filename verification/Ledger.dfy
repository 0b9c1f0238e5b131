/** The budget ledger's tables and atomic steps: a forest of ceilings, the permits
    charged to it, the runs and work items that own its allocations, and parking.
    A step that the source refuses has no successor and changes nothing. */
module Ledger {
  import opened Outcomes
  import opened Totals

  type Id = nat
  type Millis = nat

  // ------------------------------------------------------------------ data

  datatype Budget = Budget(calls: nat, items: nat, depth: nat, tokens: nat, cost: nat, deadline: Millis)

  /** Allocation ids are hashes of what they belong to, or chosen by the host. */
  datatype AllocId =
    | Root(grant: Id)
    | RunOf(run: Id)
    | WorkOf(work: Id)
    | Summary(run: Id, summary: Id)
    | Named(name: Id)

  datatype Disposition = Completed | Abstained | Failed | Cancelled | Exhausted | Interrupted

  datatype Label = Label(purpose: nat, cause: nat)

  datatype Allocation = Allocation(grant: Id, parent: Option<AllocId>, note: Label, budget: Budget,
                                   disposition: Option<Disposition>)

  datatype Usage = Usage(input: nat, output: nat, cost: nat, complete: bool)

  datatype Request = Request(input: nat, output: nat, cost: nat, call: Option<Id>, summary: Option<Id>)

  datatype State = Reserved | Dispatched | Settled | Released

  /** `tokens` and `cost` are what the permit charges now: the reservation until
      its complete usage is settled, the usage afterwards. */
  datatype Permit = Permit(grant: Id, run: Id, allocation: AllocId, request: Request, state: State,
                           tokens: nat, cost: nat, usage: Option<Usage>)

  datatype RunStatus = Running | Waiting | Paused | Ended(how: Disposition)

  datatype RunRow = RunRow(grant: Id, pinned: nat, status: RunStatus)

  datatype ItemStatus = Queued | Leased | Halted | Done(how: Disposition)

  datatype Item = Item(grant: Id, subject: nat, parent: Id, root: Id, depth: nat, status: ItemStatus,
                       attempts: nat, lease: Millis, owner: Id)

  datatype Tables = Tables(grants: map<Id, Budget>, allocs: map<AllocId, Allocation>, runs: map<Id, RunRow>,
                           permits: map<Id, Permit>, work: map<Id, Item>, waits: map<Id, seq<Id>>)

  const Fresh := Tables(map[], map[], map[], map[], map[], map[])

  const MAX_CHAIN := 64
  const MAX_GRAFT := 60
  const MAX_ATTEMPTS := 3
  const MAX_LEASE := 300000
  const RANGE: nat := 0x7fff_ffff_ffff_ffff

  // ----------------------------------------------------------- allocations

  /** An allocation followed by its ancestors; none past the bound or a gap. */
  function Chain(allocs: map<AllocId, Allocation>, id: AllocId, bound: nat): Option<seq<AllocId>>
    decreases bound
  {
    if bound == 0 || id !in allocs then None
    else if allocs[id].parent.None? then Some([id])
    else
      match Chain(allocs, allocs[id].parent.value, bound - 1)
      case None => None
      case Some(rest) => Some([id] + rest)
  }

  function Ancestry(t: Tables, id: AllocId): Option<seq<AllocId>> {
    Chain(t.allocs, id, MAX_CHAIN)
  }

  /** `top` is the allocation itself or one of its ancestors. */
  predicate Under(t: Tables, id: AllocId, top: AllocId) {
    Ancestry(t, id).Some? && top in Ancestry(t, id).value
  }

  predicate Stops(d: Disposition) {
    d.Cancelled? || d.Exhausted? || d.Failed?
  }

  predicate Closes(a: Allocation, own: bool) {
    a.disposition.Some? && (own || Stops(a.disposition.value))
  }

  /** An allocation that may still fund new work at this time. */
  predicate Open(t: Tables, id: AllocId, now: Millis) {
    && Ancestry(t, id).Some?
    && forall k :: 0 <= k < |Ancestry(t, id).value| ==>
         && Ancestry(t, id).value[k] in t.allocs
         && !Closes(t.allocs[Ancestry(t, id).value[k]], k == 0)
         && now < t.allocs[Ancestry(t, id).value[k]].budget.deadline
  }

  predicate Within(b: Budget, ceiling: Budget) {
    && b.calls <= ceiling.calls && b.items <= ceiling.items && b.depth <= ceiling.depth
    && b.tokens <= ceiling.tokens && b.cost <= ceiling.cost && b.deadline <= ceiling.deadline
  }

  function RootOf(t: Tables, g: Id): Allocation
    requires g in t.grants
  {
    Allocation(g, None, Label(0, g), t.grants[g], None)
  }

  /** A grant's root allocation is created the first time it is needed. */
  function WithRoot(t: Tables, g: Id): Tables {
    if g !in t.grants || Root(g) in t.allocs then t else t.(allocs := t.allocs[Root(g) := RootOf(t, g)])
  }

  function AllocateIn(t: Tables, g: Id, id: AllocId, parent: AllocId, note: Label, budget: Budget,
          now: Millis): Result<Tables> {
    var made := Allocation(g, Some(parent), note, budget, None);
    if parent !in t.allocs || t.allocs[parent].grant != g then Err(Missing)
    else if id in t.allocs then
      if t.allocs[id].(disposition := None) == made then Ok(t) else Err(Conflict)
    else if !Open(t, parent, now) then Err(Denied)
    else if |Ancestry(t, parent).value| >= MAX_CHAIN then Err(Invalid)
    else if !Within(budget, t.allocs[parent].budget) then Err(Denied)
    else Ok(t.(allocs := t.allocs[id := made]))
  }

  function Disposed(allocs: map<AllocId, Allocation>, ids: set<AllocId>, how: Option<Disposition>)
    : map<AllocId, Allocation>
  {
    map a | a in allocs :: if a in ids then allocs[a].(disposition := how) else allocs[a]
  }

  // --------------------------------------------------------------- ledger

  /** Rows the status of `top` counts: those in its subtree, and for a root also
      every row of its grant. */
  predicate Counts(t: Tables, g: Id, id: AllocId, top: AllocId) {
    (top in t.allocs && t.allocs[top].parent.None? && t.allocs[top].grant == g) || Under(t, id, top)
  }

  predicate Counted(t: Tables, p: Id, top: AllocId) {
    p in t.permits && !t.permits[p].state.Released? && Counts(t, t.permits[p].grant, t.permits[p].allocation, top)
  }

  function LivePermits(t: Tables, top: AllocId): set<Id> {
    set p | p in t.permits && Counted(t, p, top)
  }

  /** What the ledger meters besides calls. */
  datatype Unit = TokenUnit | CostUnit

  function Charge(p: Permit, unit: Unit): nat {
    if unit.TokenUnit? then p.tokens else p.cost
  }

  function Reservation(r: Request, unit: Unit): nat {
    if unit.TokenUnit? then Tokens(r) else r.cost
  }

  function Ceiling(b: Budget, unit: Unit): nat {
    if unit.TokenUnit? then b.tokens else b.cost
  }

  function Charges(t: Tables, top: AllocId, unit: Unit): map<Id, nat> {
    map p | p in t.permits && Counted(t, p, top) :: Charge(t.permits[p], unit)
  }

  function ItemsOf(t: Tables, top: AllocId): set<Id> {
    set w | w in t.work && Counts(t, t.work[w].grant, WorkOf(w), top)
  }

  function Less(a: nat, b: nat): nat {
    if a < b then 0 else a - b
  }

  /** What one allocation has left, counting only its own subtree. */
  ghost function Left(t: Tables, top: AllocId): Budget
    requires top in t.allocs
  {
    var b := t.allocs[top].budget;
    b.(calls := Less(b.calls, |LivePermits(t, top)|), items := Less(b.items, |ItemsOf(t, top)|),
       tokens := Less(b.tokens, Total(Charges(t, top, TokenUnit))),
         cost := Less(b.cost, Total(Charges(t, top, CostUnit))))
  }

  /** A new reservation fits what one owner has left. */
  ghost predicate Fits(t: Tables, top: AllocId, tokens: nat, cost: nat) {
    && top in t.allocs
    && Left(t, top).calls > 0 && tokens <= Left(t, top).tokens && cost <= Left(t, top).cost
  }

  ghost predicate Admits(t: Tables, id: AllocId, tokens: nat, cost: nat) {
    && Ancestry(t, id).Some?
    && forall k :: 0 <= k < |Ancestry(t, id).value| ==> Fits(t, Ancestry(t, id).value[k], tokens, cost)
  }

  predicate Active(t: Tables, run: Id, now: Millis) {
    && run in t.runs && t.runs[run].status.Running? && t.runs[run].grant in t.grants
    && now < t.grants[t.runs[run].grant].deadline
    && RunOf(run) in t.allocs && t.allocs[RunOf(run)].grant == t.runs[run].grant && Open(t, RunOf(run), now)
  }

  function Tokens(r: Request): nat {
    r.input + r.output
  }

  predicate Previous(t: Tables, run: Id, call: Id, p: Id) {
    p in t.permits && t.permits[p].run == run && t.permits[p].request.call == Some(call)
  }

  /** The allocation a permit is charged to; a compaction gets its own child. */
  function Charging(t: Tables, run: Id, r: Request, within: AllocId, now: Millis): Result<(Tables, AllocId)> {
    if run !in t.runs || within !in t.allocs then Err(Missing)
    else if r.summary.None? then Ok((t, within))
    else
      var id := Summary(run, r.summary.value);
      match AllocateIn(t, t.runs[run].grant, id, within, Label(1, r.summary.value), t.allocs[within].budget, now)
      case Err(e) => Err(e)
      case Ok(u) => Ok((u, id))
  }

  function Issued(t: Tables, run: Id, r: Request, id: AllocId): Permit
    requires run in t.runs
  {
    Permit(t.runs[run].grant, run, id, r, if r.call.Some? then Reserved else Dispatched, Tokens(r), r.cost, None)
  }

  /** A provider call id that already has a permit. */
  ghost predicate Known(t: Tables, run: Id, r: Request) {
    r.call.Some? && exists p :: Previous(t, run, r.call.value, p)
  }

  ghost predicate CanReserve(t: Tables, run: Id, r: Request, within: AllocId, now: Millis) {
    && Active(t, run, now) && Tokens(r) <= RANGE && r.cost <= RANGE
    && Charging(t, run, r, within, now).Ok?
    && var (u, id) := Charging(t, run, r, within, now).value;
    && !Known(t, run, r)
    && id in u.allocs && u.allocs[id].grant == t.runs[run].grant
    && Open(u, id, now) && Under(u, id, RunOf(run)) && Admits(u, id, Tokens(r), r.cost)
  }

  // ----------------------------------------------------------------- work

  predicate Settles(s: ItemStatus) {
    s.Done?
  }

  function DepthOf(t: Tables, run: Id): nat {
    if run in t.work then t.work[run].depth else 0
  }

  predicate Used(t: Tables, id: Id) {
    || id in t.runs || id in t.work || id in t.waits
    || WorkOf(id) in t.allocs || RunOf(id) in t.allocs
    || exists w :: w in t.work && t.work[w].parent == id
  }

  predicate SubjectActive(t: Tables, g: Id, subject: nat, w: Id) {
    w in t.work && t.work[w].grant == g && t.work[w].subject == subject && !t.work[w].status.Done?
  }

  /** The parent run's allocation, or the grant's root for a parent that is no run. */
  function FundedBy(t: Tables, g: Id, parent: Id): AllocId {
    if parent in t.runs then RunOf(parent) else Root(g)
  }

  predicate CanEnqueue(t: Tables, g: Id, parent: Id, subject: nat, id: Id, now: Millis) {
    && g in t.grants && !Used(t, id) && id != parent
    && (forall w :: w in t.work ==> !(t.work[w].grant == g && t.work[w].subject == subject))
    && DepthOf(t, parent) + 1 <= t.grants[g].depth
    && |set w | w in t.work && t.work[w].grant == g| < t.grants[g].items
    && var u := WithRoot(t, g);
    var top := FundedBy(t, g, parent);
    && top in u.allocs && u.allocs[top].grant == g && Open(u, top, now)
    && |Ancestry(u, top).value| < MAX_CHAIN
    && forall k :: 0 <= k < |Ancestry(u, top).value| ==>
         var owner := Ancestry(u, top).value[k];
         && owner in u.allocs && DepthOf(t, parent) + 1 <= u.allocs[owner].budget.depth
         && |ItemsOf(u, owner)| < u.allocs[owner].budget.items
  }

  function NewItem(t: Tables, g: Id, parent: Id, subject: nat): Item {
    var root := if parent in t.work then t.work[parent].root else parent;
    Item(g, subject, parent, root, DepthOf(t, parent) + 1, Queued, 0, 0, parent)
  }

  /** Items a claim may take: unleased ones, within the given filter; a claim
      outside a wait leaves waited items to their parents. */
  predicate Eligible(t: Tables, g: Id, only: Option<set<Id>>, waited: Option<seq<Id>>, now: Millis, w: Id) {
    && w in t.work && t.work[w].grant == g
    && (t.work[w].status.Queued? || t.work[w].status.Halted? || (t.work[w].status.Leased? && t.work[w].lease < now))
    && (only.Some? ==> w in only.value)
    && (waited.Some? ==> w in waited.value)
    && (waited.None? ==> forall r :: r in t.waits ==> w !in t.waits[r])
  }

  /** The first eligible item that has attempts left. */
  predicate Chosen(t: Tables, g: Id, only: Option<set<Id>>, waited: Option<seq<Id>>, now: Millis, w: Id) {
    && Eligible(t, g, only, waited, now, w) && t.work[w].attempts < MAX_ATTEMPTS
    && forall v :: v in t.work && Eligible(t, g, only, waited, now, v) && t.work[v].attempts < MAX_ATTEMPTS ==> w <= v
  }

  /** Eligible items out of attempts that the scan passes before `taken`. */
  function Spent(t: Tables, g: Id, only: Option<set<Id>>, waited: Option<seq<Id>>, now: Millis,
          taken: Option<Id>): set<Id> {
    set w | w in t.work && Eligible(t, g, only, waited, now, w) && t.work[w].attempts >= MAX_ATTEMPTS
            && (taken.Some? ==> w < taken.value)
  }

  predicate CanClaim(t: Tables, g: Id, lease: Millis, now: Millis) {
    g in t.grants && now < t.grants[g].deadline && 0 < lease <= MAX_LEASE
  }

  function LeaseEnd(t: Tables, g: Id, lease: Millis, now: Millis): Millis
    requires g in t.grants
  {
    Min(now + lease, t.grants[g].deadline)
  }

  function AfterClaim(t: Tables, g: Id, owner: Id, lease: Millis, now: Millis, spent: set<Id>,
          taken: Option<Id>): Tables
    requires g in t.grants
  {
    var allocs := Disposed(t.allocs, set w | w in spent :: WorkOf(w), Some(Failed));
    var work := map w | w in t.work ::
      if w in spent then t.work[w].(status := Done(Failed))
      else if taken == Some(w)
        then t.work[w].(status := Leased, attempts := t.work[w].attempts + 1, owner := owner,
          lease := LeaseEnd(t, g, lease, now))
      else t.work[w];
    t.(allocs := allocs, work := work)
  }

  // -------------------------------------------------------------- parking

  /** Waiting is allowed on a run's own child items only. */
  predicate Children(t: Tables, run: Id, items: seq<Id>) {
    && run in t.runs
    && forall k :: 0 <= k < |items| ==>
         items[k] in t.work && t.work[items[k]].parent == run && t.work[items[k]].grant == t.runs[run].grant
  }

  predicate AllSettled(t: Tables, items: seq<Id>) {
    forall k :: 0 <= k < |items| ==> items[k] in t.work && Settles(t.work[items[k]].status)
  }

  predicate CanResume(t: Tables, run: Id) {
    run in t.waits && Children(t, run, t.waits[run]) && AllSettled(t, t.waits[run])
  }

  function Unfinished(t: Tables, items: seq<Id>): set<Id> {
    set w | w in items && w in t.work && !Settles(t.work[w].status)
  }

  // ---------------------------------------------------------------- steps

  datatype Step =
    | Register(grant: Id, budget: Budget, now: Millis)
    | OpenRoot(grant: Id)
    | Allocate(grant: Id, name: Id, above: AllocId, note: Label, budget: Budget, now: Millis)
    | Close(grant: Id, allocation: AllocId, how: Disposition)
    | Begin(run: Id, grant: Id, pinned: nat, wanted: Option<AllocId>, now: Millis)
    | End(run: Id, how: Disposition)
    | Restart
    | Reserve(run: Id, request: Request, within: AllocId, permit: Id, now: Millis)
    | Send(run: Id, permit: Id, now: Millis)
    | Release(run: Id, permit: Id)
    | Report(run: Id, permit: Id, usage: Usage)
    | Enqueue(grant: Id, parent: Id, subject: nat, item: Id, now: Millis)
    | Claim(grant: Id, owner: Id, lease: Millis, only: Option<set<Id>>, waited: Option<seq<Id>>, taken: Option<Id>,
      now: Millis)
    | FinishWork(item: Id, owner: Id, how: Disposition)
    | Renew(item: Id, owner: Id, lease: Millis, now: Millis)
    | Park(run: Id, items: seq<Id>, now: Millis)
    | Resume(run: Id)
    | StopChildren(run: Id, how: Disposition)
    | Graft(run: Id, within: AllocId, grant: Id, budget: Budget, now: Millis)

  /** A study's case allocation: only host-named allocations up to its run. */
  ghost predicate IsCase(t: Tables, run: Id, within: AllocId) {
    && Ancestry(t, within).Some?
    && exists k :: 0 <= k < |Ancestry(t, within).value| && Ancestry(t, within).value[k] == RunOf(run)
                   && forall j :: 0 <= j < k ==> Ancestry(t, within).value[j].Named?
  }

  /** The parent a new run is funded by. */
  function RunParent(t: Tables, run: Id, g: Id, parent: Option<AllocId>): Result<AllocId> {
    if parent.Some? && run in t.work && parent != Some(WorkOf(run)) then Err(Denied)
    else Ok(if parent.Some? then parent.value else if run in t.work then WorkOf(run) else Root(g))
  }

  function Begun(t: Tables, run: Id, g: Id, pinned: nat, parent: Option<AllocId>, now: Millis): Result<Tables> {
    if g !in t.grants then Err(Missing)
    else if run in t.runs then
      if t.runs[run].grant != g || t.runs[run].pinned != pinned || !t.runs[run].status.Paused? then Err(Conflict)
      else Ok(t.(runs := t.runs[run := t.runs[run].(status := if run in t.waits then Waiting else Running)],
                 allocs := Disposed(t.allocs, {RunOf(run)}, None)))
    else
      var u := WithRoot(t.(runs := t.runs[run := RunRow(g, pinned, Running)]), g);
      var above := RunParent(t, run, g, parent);
      if above.Err? then Err(above.error)
      else if above.value !in u.allocs then Err(Missing)
      else AllocateIn(u, g, RunOf(run), above.value, Label(2, run), u.allocs[above.value].budget, now)
  }

  /** Usage is accepted once, for a permit that was dispatched. */
  function Reported(t: Tables, run: Id, p: Id, usage: Usage): Result<Tables> {
    if p !in t.permits || t.permits[p].run != run then Err(Missing)
    else
      var row := t.permits[p];
      if row.usage.Some? then if row.usage.value == usage then Ok(t) else Err(Conflict)
      else if !row.state.Dispatched? then Err(Conflict)
      else if usage.input + usage.output > RANGE || usage.cost > RANGE then Err(Invalid)
      else Ok(t.(permits := t.permits[p :=
        if usage.complete
          then row.(usage := Some(usage), tokens := usage.input + usage.output, cost := usage.cost, state := Settled)
        else row.(usage := Some(usage))]))
  }

  function Registered(t: Tables, g: Id, budget: Budget): Tables {
    t.(grants := t.grants[g := budget])
  }

  function AllocClosed(t: Tables, id: AllocId, how: Disposition): Tables {
    t.(allocs := Disposed(t.allocs, {id}, Some(how)))
  }

  function RunEnded(t: Tables, run: Id, how: Disposition): Tables
    requires run in t.runs
  {
    t.(runs := t.runs[run := t.runs[run].(status := if how.Interrupted? then Paused else Ended(how))],
       allocs := Disposed(t.allocs, {RunOf(run)}, Some(how)),
       waits := if how.Interrupted? then t.waits else t.waits - {run})
  }

  /** After a restart nothing is running. */
  function Restarted(t: Tables): Tables {
    t.(runs := map r | r in t.runs :: if t.runs[r].status.Running? || t.runs[r].status.Waiting?
      then t.runs[r].(status := Paused) else t.runs[r],
       work := map w | w in t.work :: if t.work[w].status.Leased? then t.work[w].(status := Halted) else t.work[w])
  }

  function Permitted(t: Tables, run: Id, r: Request, within: AllocId, permit: Id, now: Millis): Tables
    requires run in t.runs && Charging(t, run, r, within, now).Ok?
  {
    var (u, id) := Charging(t, run, r, within, now).value;
    u.(permits := u.permits[permit := Issued(t, run, r, id)])
  }

  function PermitMoved(t: Tables, p: Id, state: State): Tables
    requires p in t.permits
  {
    t.(permits := t.permits[p := t.permits[p].(state := state)])
  }

  function Enqueued(t: Tables, g: Id, parent: Id, subject: nat, id: Id): Tables
    requires FundedBy(t, g, parent) in WithRoot(t, g).allocs
  {
    var u := WithRoot(t, g);
    var top := FundedBy(t, g, parent);
    u.(allocs := u.allocs[WorkOf(id) := Allocation(g, Some(top), Label(3, id), u.allocs[top].budget, None)],
       work := u.work[id := NewItem(t, g, parent, subject)])
  }

  function Finished(how: Disposition): ItemStatus {
    if how.Interrupted? then Halted else Done(how)
  }

  function ItemFinished(t: Tables, id: Id, how: Disposition): Tables
    requires id in t.work
  {
    if t.work[id].status == Finished(how) then t
    else t.(work := t.work[id := t.work[id].(status := Finished(how))],
      allocs := Disposed(t.allocs, {WorkOf(id)}, Some(how)))
  }

  function LeaseRenewed(t: Tables, id: Id, lease: Millis, now: Millis): Tables
    requires id in t.work && t.work[id].grant in t.grants
  {
    t.(work := t.work[id := t.work[id].(lease := LeaseEnd(t, t.work[id].grant, lease, now))])
  }

  function Parked(t: Tables, run: Id, items: seq<Id>): Tables
    requires run in t.runs
  {
    t.(waits := t.waits[run := items], runs := t.runs[run := t.runs[run].(status := Waiting)])
  }

  function Resumed(t: Tables, run: Id): Tables
    requires run in t.runs
  {
    t.(waits := t.waits - {run},
       runs := t.runs[run :=
         t.runs[run].(status := if t.runs[run].status.Waiting? then Running else t.runs[run].status)])
  }

  function ChildrenStopped(t: Tables, run: Id, how: Disposition): Tables {
    if run !in t.waits then t
    else
      var open := Unfinished(t, t.waits[run]);
      t.(allocs := Disposed(t.allocs, set w | w in open :: WorkOf(w), Some(how)),
         work := map w | w in t.work :: if w in open && !t.work[w].status.Leased? then t.work[w].(status := Done(how))
           else t.work[w])
  }

  function Grafted(t: Tables, within: AllocId, g: Id, budget: Budget): Tables {
    t.(grants := t.grants[g := budget],
       allocs := t.allocs[Root(g) := Allocation(g, Some(within), Label(4, 0), budget, None)])
  }

  predicate CanRegister(t: Tables, g: Id, budget: Budget, now: Millis) {
    (g in t.grants ==> t.grants[g] == budget) && now < budget.deadline
  }

  predicate CanClose(t: Tables, g: Id, id: AllocId, how: Disposition) {
    id in t.allocs && t.allocs[id].grant == g
      && (t.allocs[id].disposition == None || t.allocs[id].disposition == Some(how))
  }

  predicate CanEnd(t: Tables, run: Id) {
    run in t.runs && (t.runs[run].status.Running? || t.runs[run].status.Waiting?)
  }

  predicate CanSend(t: Tables, run: Id, p: Id, now: Millis) {
    && Active(t, run, now) && p in t.permits && t.permits[p].run == run && t.permits[p].state.Reserved?
    && Open(t, t.permits[p].allocation, now)
  }

  predicate CanRelease(t: Tables, run: Id, p: Id) {
    p in t.permits && t.permits[p].run == run && (t.permits[p].state.Reserved? || t.permits[p].state.Released?)
  }

  /** `taken` is what the claim's scan settles on. */
  predicate CanTake(t: Tables, g: Id, lease: Millis, only: Option<set<Id>>, waited: Option<seq<Id>>, taken: Option<Id>,
          now: Millis) {
    && CanClaim(t, g, lease, now)
    && (taken.Some? ==> Chosen(t, g, only, waited, now, taken.value))
    && (taken.None? ==> forall w :: w in t.work && Eligible(t, g, only, waited, now, w) ==>
       t.work[w].attempts >= MAX_ATTEMPTS)
  }

  predicate CanFinish(t: Tables, id: Id, owner: Id, how: Disposition) {
    id in t.work && !how.Abstained? && t.work[id].owner == owner
      && (t.work[id].status.Leased? || t.work[id].status == Finished(how))
  }

  predicate CanRenew(t: Tables, id: Id, owner: Id, lease: Millis, now: Millis) {
    && id in t.work && t.work[id].owner == owner && t.work[id].status.Leased? && now <= t.work[id].lease
    && 0 < lease <= MAX_LEASE && t.work[id].grant in t.grants
  }

  predicate CanPark(t: Tables, run: Id, items: seq<Id>, now: Millis) {
    Active(t, run, now) && run !in t.waits && Children(t, run, items)
  }

  predicate CanStop(t: Tables, run: Id, how: Disposition) {
    (how.Cancelled? || how.Exhausted?) && (run in t.waits ==> Children(t, run, t.waits[run]))
  }

  ghost predicate CanGraft(t: Tables, run: Id, within: AllocId, g: Id, budget: Budget, now: Millis) {
    && Active(t, run, now) && within in t.allocs && t.allocs[within].grant == t.runs[run].grant
    && IsCase(t, run, within) && |Ancestry(t, within).value| < MAX_GRAFT
    && g !in t.grants && Root(g) !in t.allocs && now < budget.deadline && Within(budget, t.allocs[within].budget)
  }

  ghost predicate Enabled(t: Tables, s: Step) {
    match s
    case Register(g, budget, now) => CanRegister(t, g, budget, now)
    case OpenRoot(g) => g in t.grants
    case Allocate(g, name, above, note, budget, now) => g in t.grants
      && AllocateIn(t, g, Named(name), above, note, budget, now).Ok?
    case Close(g, id, how) => CanClose(t, g, id, how)
    case Begin(run, g, pinned, wanted, now) => Begun(t, run, g, pinned, wanted, now).Ok?
    case End(run, _) => CanEnd(t, run)
    case Restart => true
    case Reserve(run, request, within, permit, now) => permit !in t.permits && CanReserve(t, run, request, within, now)
    case Send(run, p, now) => CanSend(t, run, p, now)
    case Release(run, p) => CanRelease(t, run, p)
    case Report(run, p, usage) => Reported(t, run, p, usage).Ok?
    case Enqueue(g, parent, subject, id, now) => CanEnqueue(t, g, parent, subject, id, now)
    case Claim(g, owner, lease, only, waited, taken, now) => CanTake(t, g, lease, only, waited, taken, now)
    case FinishWork(id, owner, how) => CanFinish(t, id, owner, how)
    case Renew(id, owner, lease, now) => CanRenew(t, id, owner, lease, now)
    case Park(run, items, now) => CanPark(t, run, items, now)
    case Resume(run) => CanResume(t, run)
    case StopChildren(run, how) => CanStop(t, run, how)
    case Graft(run, within, g, budget, now) => CanGraft(t, run, within, g, budget, now)
  }

  ghost function After(t: Tables, s: Step): Tables
    requires Enabled(t, s)
  {
    match s
    case Register(g, budget, _) => Registered(t, g, budget)
    case OpenRoot(g) => WithRoot(t, g)
    case Allocate(g, name, above, note, budget, now) => AllocateIn(t, g, Named(name), above, note, budget, now).value
    case Close(_, id, how) => AllocClosed(t, id, how)
    case Begin(run, g, pinned, wanted, now) => Begun(t, run, g, pinned, wanted, now).value
    case End(run, how) => RunEnded(t, run, how)
    case Restart => Restarted(t)
    case Reserve(run, request, within, permit, now) => Permitted(t, run, request, within, permit, now)
    case Send(_, p, _) => PermitMoved(t, p, Dispatched)
    case Release(_, p) => PermitMoved(t, p, Released)
    case Report(run, p, usage) => Reported(t, run, p, usage).value
    case Enqueue(g, parent, subject, id, _) => Enqueued(t, g, parent, subject, id)
    case Claim(g, owner, lease, only, waited, taken, now) =>
      AfterClaim(t, g, owner, lease, now, Spent(t, g, only, waited, now, taken), taken)
    case FinishWork(id, _, how) => ItemFinished(t, id, how)
    case Renew(id, _, lease, now) => LeaseRenewed(t, id, lease, now)
    case Park(run, items, _) => Parked(t, run, items)
    case Resume(run) => Resumed(t, run)
    case StopChildren(run, how) => ChildrenStopped(t, run, how)
    case Graft(_, within, g, budget, _) => Grafted(t, within, g, budget)
  }

  /** The tables a sequence of successful steps goes through. */
  ghost predicate IsRun(ts: seq<Tables>, steps: seq<Step>) {
    && |ts| == |steps| + 1 && ts[0] == Fresh
    && forall k {:trigger steps[k]} :: 0 <= k < |steps| ==>
       Enabled(ts[k], steps[k]) && ts[k + 1] == After(ts[k], steps[k])
  }
}
