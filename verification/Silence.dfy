/** A stopped run is silent for ever: under its allocation no later step creates
    an allocation, a work item or a permit, dispatches a permit, or moves an effect
    to dispatching, while usage of permits already dispatched still settles. */
module Silence {
  import opened Outcomes
  import opened Ledger
  import opened Forest
  import Spending
  import Scheduling
  import E = Effects

  // ------------------------------------------------------------ invariants

  /** Every run has its allocation, and an ended run's allocation says how it ended. */
  ghost predicate RunsSound(t: Tables) {
    forall r :: r in t.runs ==>
      && RunOf(r) in t.allocs
      && (t.runs[r].status.Ended? ==> t.allocs[RunOf(r)].disposition == Some(t.runs[r].status.how))
  }

  predicate Stopped(t: Tables, r: Id) {
    r in t.runs && t.runs[r].status.Ended? && Stops(t.runs[r].status.how)
  }

  /** Runs stay sound, and ended ones stay as they are. */
  ghost predicate RunsKept(t: Tables, u: Tables) {
    RunsSound(u) && forall r :: r in t.runs && t.runs[r].status.Ended? ==> r in u.runs && u.runs[r] == t.runs[r]
  }

  /** A step that touches no run and no run's allocation. */
  lemma RunsUntouched(t: Tables, u: Tables)
    requires RunsSound(t) && u.runs == t.runs
    requires forall r :: r in t.runs ==> RunOf(r) in u.allocs && u.allocs[RunOf(r)] == t.allocs[RunOf(r)]
    ensures RunsKept(t, u)
  {
  }

  lemma AddsRuns(t: Tables, u: Tables)
    requires RunsSound(t) && u.runs == t.runs && Adds(t, u)
    ensures RunsKept(t, u)
  {
    RunsUntouched(t, u);
  }

  /** Closing work items' allocations leaves the runs' own alone. */
  lemma ItemsDisposedRuns(t: Tables, u: Tables, items: set<Id>, how: Disposition)
    requires RunsSound(t) && u.runs == t.runs
             && u.allocs == Disposed(t.allocs, set w | w in items :: WorkOf(w), Some(how))
    ensures RunsKept(t, u)
  {
    RunsUntouched(t, u);
  }

  lemma BegunRuns(t: Tables, run: Id, g: Id, pinned: nat, wanted: Option<AllocId>, now: Millis)
    requires WellFormed(t) && RunsSound(t) && Begun(t, run, g, pinned, wanted, now).Ok?
    ensures RunsKept(t, Begun(t, run, g, pinned, wanted, now).value)
  {
    BegunSame(t, run, g, pinned, wanted, now);
    if run !in t.runs {
      NewRunForest(t, run, g, pinned, wanted, now);
      NewRunAdds(t, run, g, pinned, wanted, now);
    }
  }

  lemma WithRootAdds(t: Tables, g: Id)
    ensures Adds(t, WithRoot(t, g))
  {
  }

  lemma AllocateInAdds(t: Tables, g: Id, id: AllocId, parent: AllocId, note: Label, budget: Budget, now: Millis)
    requires AllocateIn(t, g, id, parent, note, budget, now).Ok?
    ensures Adds(t, AllocateIn(t, g, id, parent, note, budget, now).value)
  {
  }

  lemma AddsTrans(t: Tables, u: Tables, v: Tables)
    requires Adds(t, u) && Adds(u, v)
    ensures Adds(t, v)
  {
  }

  lemma NewRunAdds(t: Tables, run: Id, g: Id, pinned: nat, wanted: Option<AllocId>, now: Millis)
    requires run !in t.runs && Begun(t, run, g, pinned, wanted, now).Ok?
    ensures Adds(t, Begun(t, run, g, pinned, wanted, now).value)
  {
    var u := WithRoot(t.(runs := t.runs[run := RunRow(g, pinned, Running)]), g);
    WithRootAdds(t.(runs := t.runs[run := RunRow(g, pinned, Running)]), g);
    var above := RunParent(t, run, g, wanted).value;
    AllocateInAdds(u, g, RunOf(run), above, Label(2, run), u.allocs[above].budget, now);
    AddsTrans(t, u, Begun(t, run, g, pinned, wanted, now).value);
  }

  lemma ClosedRuns(t: Tables, g: Id, id: AllocId, how: Disposition)
    requires RunsSound(t) && CanClose(t, g, id, how)
    ensures RunsKept(t, AllocClosed(t, id, how))
  {
  }

  lemma EndedRuns(t: Tables, run: Id, how: Disposition)
    requires RunsSound(t) && CanEnd(t, run)
    ensures RunsKept(t, RunEnded(t, run, how))
  {
  }

  lemma RestartedRuns(t: Tables)
    requires RunsSound(t)
    ensures RunsKept(t, Restarted(t))
  {
  }

  lemma ParkedRuns(t: Tables, run: Id, items: seq<Id>, now: Millis)
    requires RunsSound(t) && CanPark(t, run, items, now)
    ensures RunsKept(t, Parked(t, run, items))
  {
  }

  lemma ResumedRuns(t: Tables, run: Id)
    requires RunsSound(t) && run in t.runs
    ensures RunsKept(t, Resumed(t, run))
  {
  }

  lemma ItemRuns(t: Tables, s: Step)
    requires RunsSound(t) && Enabled(t, s) && (s.Claim? || s.FinishWork? || s.Renew? || s.StopChildren?)
    ensures RunsKept(t, After(t, s))
  {
    match s
    case Claim(g, owner, lease, only, waited, taken, now) =>
      var gone := Spent(t, g, only, waited, now, taken);
      ItemsDisposedRuns(t, AfterClaim(t, g, owner, lease, now, gone, taken), gone, Failed);
    case FinishWork(id, _, how) => RunsUntouched(t, ItemFinished(t, id, how));
    case Renew(id, _, lease, now) => RunsUntouched(t, LeaseRenewed(t, id, lease, now));
    case StopChildren(run, how) =>
      if run in t.waits {
        ItemsDisposedRuns(t, ChildrenStopped(t, run, how), Unfinished(t, t.waits[run]), how);
      } else {
        RunsUntouched(t, t);
      }
  }

  lemma MoneyRuns(t: Tables, s: Step)
    requires WellFormed(t) && RunsSound(t) && Enabled(t, s) && Scheduling.Money(s)
    ensures RunsKept(t, After(t, s))
  {
    match s
    case Register(g, budget, _) => AddsRuns(t, Registered(t, g, budget));
    case OpenRoot(g) => AddsRuns(t, WithRoot(t, g));
    case Allocate(g, name, above, note, budget, now) =>
      AllocateInSame(t, g, Named(name), above, note, budget, now);
      AddsRuns(t, AllocateIn(t, g, Named(name), above, note, budget, now).value);
    case Close(g, id, how) => ClosedRuns(t, g, id, how);
    case Reserve(run, request, within, permit, now) =>
      PermittedForest(t, run, request, within, permit, now);
      AddsRuns(t, Permitted(t, run, request, within, permit, now));
    case Send(_, p, _) => AddsRuns(t, PermitMoved(t, p, Dispatched));
    case Release(_, p) => AddsRuns(t, PermitMoved(t, p, Released));
    case Report(run, p, usage) =>
      ReportedRow(t, run, p, usage);
      AddsRuns(t, Reported(t, run, p, usage).value);
    case Graft(run, within, g, budget, now) => AddsRuns(t, Grafted(t, within, g, budget));
  }

  /** No step revives an ended run. */
  lemma StepRuns(t: Tables, s: Step)
    requires WellFormed(t) && RunsSound(t) && Enabled(t, s)
    ensures RunsKept(t, After(t, s))
  {
    if Scheduling.Money(s) {
      MoneyRuns(t, s);
    } else if s.Claim? || s.FinishWork? || s.Renew? || s.StopChildren? {
      ItemRuns(t, s);
    } else {
      match s
      case Begin(run, g, pinned, wanted, now) => BegunRuns(t, run, g, pinned, wanted, now);
      case End(run, how) => EndedRuns(t, run, how);
      case Restart => RestartedRuns(t);
      case Enqueue(g, parent, subject, item, now) =>
        EnqueueMeans(t, g, parent, subject, item, now);
        EnqueuedForest(t, g, parent, subject, item);
        AddsRuns(t, Enqueued(t, g, parent, subject, item));
      case Park(run, items, now) => ParkedRuns(t, run, items, now);
      case Resume(run) => ResumedRuns(t, run);
      case _ =>
    }
  }

  lemma {:induction false} RunRuns(ts: seq<Tables>, steps: seq<Step>, k: nat)
    requires IsRun(ts, steps) && k < |ts|
    ensures RunsSound(ts[k])
  {
    if k > 0 {
      var j := k - 1;
      RunRuns(ts, steps, j);
      RunForest(ts, steps, j);
      StepRuns(ts[j], steps[j]);
    }
  }

  lemma {:induction false} StaysStopped(ts: seq<Tables>, steps: seq<Step>, i: nat, j: nat, r: Id)
    requires IsRun(ts, steps) && i <= j < |ts| && Stopped(ts[i], r)
    ensures Stopped(ts[j], r)
    decreases j - i
  {
    if i < j {
      var m := j - 1;
      StaysStopped(ts, steps, i, m, r);
      RunRuns(ts, steps, m);
      RunForest(ts, steps, m);
      StepRuns(ts[m], steps[m]);
    }
  }

  // --------------------------------------------------------------- silence

  /** Nothing under a stopped run is open. */
  lemma ClosedUnder(t: Tables, id: AllocId, r: Id, now: Millis)
    requires RunsSound(t) && Stopped(t, r)
    ensures Under(t, id, RunOf(r)) ==> !Open(t, id, now)
  {
    if Under(t, id, RunOf(r)) {
      var c := Ancestry(t, id).value;
      var k :| 0 <= k < |c| && c[k] == RunOf(r);
      assert Closes(t.allocs[c[k]], k == 0);
    }
  }

  /** No run under a stopped run is active. */
  lemma IdleUnder(t: Tables, run: Id, r: Id, now: Millis)
    requires RunsSound(t) && Stopped(t, r)
    ensures Under(t, RunOf(run), RunOf(r)) ==> !Active(t, run, now)
  {
    ClosedUnder(t, RunOf(run), r, now);
  }

  lemma CaseUnder(t: Tables, run: Id, within: AllocId, r: Id)
    requires IsCase(t, run, within)
    ensures Under(t, within, RunOf(r)) ==> Under(t, RunOf(run), RunOf(r))
  {
    var c := Ancestry(t, within).value;
    var k :| 0 <= k < |c| && c[k] == RunOf(run) && forall j :: 0 <= j < k ==> c[j].Named?;
    AncestorsOf(t, within, k);
    if Under(t, within, RunOf(r)) {
      var m :| 0 <= m < |c| && c[m] == RunOf(r);
      assert c[k..][m - k] == RunOf(r);
    }
  }

  /** Between two states, nothing new appeared under a run and none of its permits
      was dispatched. */
  ghost predicate Silent(t: Tables, u: Tables, r: Id) {
    && Outside(t, u, r)
    && (forall p :: p in u.permits && Under(u, u.permits[p].allocation, RunOf(r)) ==>
          p in t.permits && t.permits[p].allocation == u.permits[p].allocation
          && (u.permits[p].state.Reserved? ==> t.permits[p].state.Reserved?)
          && (u.permits[p].state.Dispatched? ==> t.permits[p].state.Dispatched?))
    && (forall w :: w in u.work && Under(u, WorkOf(w), RunOf(r)) ==> w in t.work)
  }

  lemma UnderSame(t: Tables, u: Tables, id: AllocId, top: AllocId)
    requires WellFormed(t) && Extends(t, u) && id in t.allocs
    ensures Under(u, id, top) <==> Under(t, id, top)
  {
    assert WellPlaced(t, id);
    ChainStays(t, u, id);
  }

  lemma PlacedOutside(t: Tables, u: Tables, id: AllocId, r: Id)
    requires WellFormed(t) && Placed(t, u, id) && RunOf(r) in t.allocs
    requires u.allocs[id].parent.Some? ==> !Under(t, u.allocs[id].parent.value, RunOf(r))
    ensures Outside(t, u, r)
  {
    PlacedChain(t, u, id);
    forall a | a in u.allocs && Under(u, a, RunOf(r)) ensures a in t.allocs && Under(t, a, RunOf(r)) {
      if a in t.allocs { UnderSame(t, u, a, RunOf(r)); }
    }
  }

  lemma ReshapedOutside(t: Tables, u: Tables, r: Id)
    requires WellFormed(t) && Extends(t, u) && u.allocs.Keys == t.allocs.Keys
    ensures Outside(t, u, r)
  {
    forall a | a in u.allocs && Under(u, a, RunOf(r)) ensures a in t.allocs && Under(t, a, RunOf(r)) {
      UnderSame(t, u, a, RunOf(r));
    }
  }

  lemma WithRootOutside(t: Tables, g: Id, r: Id)
    requires WellFormed(t) && RunsSound(t) && Stopped(t, r)
    ensures var u := WithRoot(t, g);
            WellFormed(u) && RunsSound(u) && Stopped(u, r) && Outside(t, u, r)
  {
    WithRootKeeps(t, g);
    if WithRoot(t, g) != t { PlacedOutside(t, WithRoot(t, g), Root(g), r); }
  }

  lemma AllocateInOutside(t: Tables, g: Id, id: AllocId, parent: AllocId, note: Label, budget: Budget, now: Millis,
          r: Id)
    requires WellFormed(t) && RunsSound(t) && Stopped(t, r) && !id.Root?
             && AllocateIn(t, g, id, parent, note, budget, now).Ok?
    ensures Outside(t, AllocateIn(t, g, id, parent, note, budget, now).value, r)
  {
    AllocateInKeeps(t, g, id, parent, note, budget, now);
    var u := AllocateIn(t, g, id, parent, note, budget, now).value;
    if id !in t.allocs {
      assert WellPlaced(t, parent);
      ClosedUnder(t, parent, r, now);
      PlacedOutside(t, u, id, r);
    }
  }

  /** What lay under the run before is all that lies under it now. */
  ghost predicate Outside(t: Tables, u: Tables, r: Id) {
    forall a {:trigger Under(u, a, RunOf(r))} :: a in u.allocs && Under(u, a, RunOf(r)) ==>
      a in t.allocs && Under(t, a, RunOf(r))
  }

  lemma BegunOutside(t: Tables, run: Id, g: Id, pinned: nat, wanted: Option<AllocId>, now: Millis, r: Id)
    requires WellFormed(t) && RunsSound(t) && Stopped(t, r) && Begun(t, run, g, pinned, wanted, now).Ok?
    ensures Outside(t, Begun(t, run, g, pinned, wanted, now).value, r)
  {
    if run in t.runs {
      var u := Begun(t, run, g, pinned, wanted, now).value;
      DisposedCalm(t, u, {RunOf(run)}, None);
      ReshapedOutside(t, u, r);
    } else {
      NewRunOutside(t, run, g, pinned, wanted, now, r);
    }
  }

  lemma NewRunOutside(t: Tables, run: Id, g: Id, pinned: nat, wanted: Option<AllocId>, now: Millis, r: Id)
    requires WellFormed(t) && RunsSound(t) && Stopped(t, r) && run !in t.runs
             && Begun(t, run, g, pinned, wanted, now).Ok?
    ensures Outside(t, Begun(t, run, g, pinned, wanted, now).value, r)
  {
    // the new run's own row does not matter to what lies under a stopped one
    var v := t.(runs := t.runs[run := RunRow(g, pinned, Running)]);
    var x, z := WithRoot(t, g), WithRoot(v, g);
    WithRootOutside(t, g, r);
    assert x.allocs == z.allocs;
    var above := RunParent(t, run, g, wanted).value;
    var budget := x.allocs[above].budget;
    SameAllocate(x, z, g, RunOf(run), above, Label(2, run), budget, now);
    AllocateInOutside(x, g, RunOf(run), above, Label(2, run), budget, now, r);
    OutsideTrans(t, x, AllocateIn(x, g, RunOf(run), above, Label(2, run), budget, now).value,
                 Begun(t, run, g, pinned, wanted, now).value, r);
  }

  lemma OutsideTrans(t: Tables, x: Tables, y: Tables, u: Tables, r: Id)
    requires Outside(t, x, r) && Outside(x, y, r) && u.allocs == y.allocs
    ensures Outside(t, u, r)
  {
    forall a ensures Under(u, a, RunOf(r)) <==> Under(y, a, RunOf(r)) { UnderAllocs(u, y, a, RunOf(r)); }
  }

  lemma UnderAllocs(t: Tables, u: Tables, a: AllocId, top: AllocId)
    requires t.allocs == u.allocs
    ensures Under(t, a, top) <==> Under(u, a, top)
  {
  }

  /** Allocation looks at nothing but the allocations. */
  lemma SameAllocate(t: Tables, u: Tables, g: Id, id: AllocId, parent: AllocId, note: Label, budget: Budget,
          now: Millis)
    requires t.allocs == u.allocs
    ensures AllocateIn(t, g, id, parent, note, budget, now).Ok? <==> AllocateIn(u, g, id, parent, note, budget, now).Ok?
    ensures AllocateIn(t, g, id, parent, note, budget, now).Ok? ==>
              AllocateIn(t, g, id, parent, note, budget, now).value.allocs ==
                AllocateIn(u, g, id, parent, note, budget, now).value.allocs
  {
    assert Open(t, parent, now) <==> Open(u, parent, now);
  }

  lemma EnqueuedOutside(t: Tables, g: Id, parent: Id, subject: nat, item: Id, now: Millis, r: Id)
    requires WellFormed(t) && RunsSound(t) && Stopped(t, r) && Fundable(t, g, parent) && WorkOf(item) !in t.allocs
    requires Open(WithRoot(t, g), FundedBy(t, g, parent), now)
    ensures Outside(t, Enqueued(t, g, parent, subject, item), r)
  {
    var u := WithRoot(t, g);
    var x := Enqueued(t, g, parent, subject, item);
    WithRootOutside(t, g, r);
    ClosedUnder(u, FundedBy(t, g, parent), r, now);
    EnqueuedForest(t, g, parent, subject, item);
    PlacedOutside(u, x, WorkOf(item), r);
    OutsideTrans(t, u, x, x, r);
  }

  lemma GraftedOutside(t: Tables, run: Id, within: AllocId, g: Id, budget: Budget, now: Millis, r: Id)
    requires WellFormed(t) && RunsSound(t) && Stopped(t, r) && CanGraft(t, run, within, g, budget, now)
    ensures Outside(t, Grafted(t, within, g, budget), r)
  {
    CaseUnder(t, run, within, r);
    IdleUnder(t, run, r, now);
    PlacedOutside(t, Grafted(t, within, g, budget), Root(g), r);
  }

  /** One permit added outside the run. */
  lemma NewPermitSilent(t: Tables, u: Tables, x: Tables, p: Id, row: Permit, r: Id)
    requires x == u.(permits := u.permits[p := row]) && u.permits == t.permits && u.work == t.work
    requires !Under(u, row.allocation, RunOf(r)) && Outside(t, u, r)
    ensures Silent(t, x, r)
  {
    forall a ensures Under(x, a, RunOf(r)) <==> Under(u, a, RunOf(r)) { UnderAllocs(x, u, a, RunOf(r)); }
    assert Outside(t, x, r);
  }

  lemma ChargingOutside(t: Tables, run: Id, q: Request, within: AllocId, now: Millis, r: Id)
    requires WellFormed(t) && RunsSound(t) && Stopped(t, r) && Charging(t, run, q, within, now).Ok?
    ensures Outside(t, Charging(t, run, q, within, now).value.0, r)
  {
    if q.summary.Some? {
      AllocateInOutside(t, t.runs[run].grant, Summary(run, q.summary.value), within, Label(1, q.summary.value),
        t.allocs[within].budget, now, r);
    }
  }

  lemma PermittedSilent(t: Tables, run: Id, q: Request, within: AllocId, permit: Id, now: Millis, r: Id)
    requires WellFormed(t) && RunsSound(t) && Stopped(t, r) && CanReserve(t, run, q, within, now)
    ensures Silent(t, Permitted(t, run, q, within, permit, now), r)
  {
    var (u, id) := Charging(t, run, q, within, now).value;
    ChargingKeeps(t, run, q, within, now);
    ChargingOutside(t, run, q, within, now, r);
    AddsRuns(t, u);
    ClosedUnder(u, id, r, now);
    NewPermitSilent(t, u, Permitted(t, run, q, within, permit, now), permit, Issued(t, run, q, id), r);
  }

  /** One permit of the same allocation changed, without being dispatched under the run. */
  lemma RowSilent(t: Tables, u: Tables, p: Id, r: Id)
    requires p in t.permits && p in u.permits && u == t.(permits := t.permits[p := u.permits[p]])
    requires u.permits[p].allocation == t.permits[p].allocation
    requires u.permits[p].state.Reserved? ==> t.permits[p].state.Reserved?
    requires u.permits[p].state.Dispatched? && Under(t, t.permits[p].allocation, RunOf(r)) ==>
             t.permits[p].state.Dispatched?
    ensures Silent(t, u, r)
  {
    forall a ensures Under(u, a, RunOf(r)) <==> Under(t, a, RunOf(r)) { UnderAllocs(t, u, a, RunOf(r)); }
    assert Outside(t, u, r);
  }

  lemma SentSilent(t: Tables, run: Id, p: Id, now: Millis, r: Id)
    requires RunsSound(t) && Stopped(t, r) && CanSend(t, run, p, now)
    ensures Silent(t, PermitMoved(t, p, Dispatched), r)
  {
    ClosedUnder(t, t.permits[p].allocation, r, now);
    RowSilent(t, PermitMoved(t, p, Dispatched), p, r);
  }

  lemma ReportedSilent(t: Tables, run: Id, p: Id, usage: Usage, r: Id)
    requires Reported(t, run, p, usage).Ok?
    ensures Silent(t, Reported(t, run, p, usage).value, r)
  {
    var u := Reported(t, run, p, usage).value;
    assert u == t.(permits := t.permits[p := u.permits[p]]);
    RowSilent(t, u, p, r);
  }

  /** The same permits and items, and nothing new under the run. */
  lemma QuietSilent(t: Tables, u: Tables, r: Id)
    requires u.permits == t.permits && Outside(t, u, r)
    requires forall p :: p in t.permits ==> t.permits[p].allocation in t.allocs
    requires Extends(t, u)
    requires forall w :: w in u.work && w !in t.work ==> WorkOf(w) !in t.allocs && WorkOf(w) in u.allocs
    ensures Silent(t, u, r)
  {
  }

  /** Every permit's allocation exists. */
  ghost predicate Charged(t: Tables) {
    forall p :: p in t.permits ==> t.permits[p].allocation in t.allocs
  }

  lemma AllocatedSilent(t: Tables, g: Id, name: Id, above: AllocId, note: Label, budget: Budget, now: Millis, r: Id)
    requires WellFormed(t) && RunsSound(t) && Stopped(t, r) && Charged(t)
             && AllocateIn(t, g, Named(name), above, note, budget, now).Ok?
    ensures Silent(t, AllocateIn(t, g, Named(name), above, note, budget, now).value, r)
  {
    AllocateInKeeps(t, g, Named(name), above, note, budget, now);
    AllocateInSame(t, g, Named(name), above, note, budget, now);
    AllocateInOutside(t, g, Named(name), above, note, budget, now, r);
    QuietSilent(t, AllocateIn(t, g, Named(name), above, note, budget, now).value, r);
  }

  lemma BegunSilent(t: Tables, run: Id, g: Id, pinned: nat, wanted: Option<AllocId>, now: Millis, r: Id)
    requires WellFormed(t) && RunsSound(t) && Stopped(t, r) && Charged(t) && Begun(t, run, g, pinned, wanted, now).Ok?
    ensures Silent(t, Begun(t, run, g, pinned, wanted, now).value, r)
  {
    BegunForest(t, run, g, pinned, wanted, now);
    BegunSame(t, run, g, pinned, wanted, now);
    BegunOutside(t, run, g, pinned, wanted, now, r);
    QuietSilent(t, Begun(t, run, g, pinned, wanted, now).value, r);
  }

  lemma EnqueuedSilent(t: Tables, g: Id, parent: Id, subject: nat, item: Id, now: Millis, r: Id)
    requires WellFormed(t) && RunsSound(t) && Stopped(t, r) && Charged(t) && Fundable(t, g, parent) && !Used(t, item)
    requires Open(WithRoot(t, g), FundedBy(t, g, parent), now)
    ensures Silent(t, Enqueued(t, g, parent, subject, item), r)
  {
    EnqueuedForest(t, g, parent, subject, item);
    EnqueuedOutside(t, g, parent, subject, item, now, r);
    QuietSilent(t, Enqueued(t, g, parent, subject, item), r);
  }

  lemma GraftedSilent(t: Tables, run: Id, within: AllocId, g: Id, budget: Budget, now: Millis, r: Id)
    requires WellFormed(t) && RunsSound(t) && Stopped(t, r) && Charged(t) && CanGraft(t, run, within, g, budget, now)
    ensures Silent(t, Grafted(t, within, g, budget), r)
  {
    GraftForest(t, run, within, g, budget, now);
    GraftedOutside(t, run, within, g, budget, now, r);
    QuietSilent(t, Grafted(t, within, g, budget), r);
  }

  lemma OpenedSilent(t: Tables, g: Id, r: Id)
    requires WellFormed(t) && RunsSound(t) && Stopped(t, r) && Charged(t)
    ensures Silent(t, WithRoot(t, g), r)
  {
    WithRootKeeps(t, g);
    WithRootOutside(t, g, r);
    QuietSilent(t, WithRoot(t, g), r);
  }

  lemma CalmSilent(t: Tables, u: Tables, r: Id)
    requires WellFormed(t) && Calm(t, u) && Charged(t)
    ensures Silent(t, u, r)
  {
    ReshapedOutside(t, u, r);
    QuietSilent(t, u, r);
  }

  lemma StepSilent(t: Tables, s: Step, r: Id)
    requires WellFormed(t) && RunsSound(t) && Stopped(t, r) && Charged(t) && Enabled(t, s)
    ensures Silent(t, After(t, s), r)
  {
    if Quiet(s) {
      QuietCalm(t, s);
      CalmSilent(t, After(t, s), r);
    } else {
      match s
      case OpenRoot(g) => OpenedSilent(t, g, r);
      case Allocate(g, name, above, note, budget, now) => AllocatedSilent(t, g, name, above, note, budget, now, r);
      case Begin(run, g, pinned, wanted, now) => BegunSilent(t, run, g, pinned, wanted, now, r);
      case Reserve(run, request, within, permit, now) => PermittedSilent(t, run, request, within, permit, now, r);
      case Send(run, p, now) => SentSilent(t, run, p, now, r);
      case Release(_, p) => RowSilent(t, PermitMoved(t, p, Released), p, r);
      case Report(run, p, usage) => ReportedSilent(t, run, p, usage, r);
      case Enqueue(g, parent, subject, item, now) =>
        EnqueueMeans(t, g, parent, subject, item, now);
        EnqueuedSilent(t, g, parent, subject, item, now, r);
      case Graft(run, within, g, budget, now) => GraftedSilent(t, run, within, g, budget, now, r);
      case _ =>
    }
  }

  lemma SilentTrans(t: Tables, u: Tables, v: Tables, r: Id)
    requires WellFormed(u) && Extends(u, v) && Silent(t, u, r) && Silent(u, v, r)
    requires forall w :: w in u.work ==> WorkOf(w) in u.allocs
    ensures Silent(t, v, r)
  {
    forall w | w in v.work && Under(v, WorkOf(w), RunOf(r)) ensures w in t.work {
      assert w in u.work;
      UnderSame(u, v, WorkOf(w), RunOf(r));
    }
  }

  /** In a reachable state everything has its allocation. */
  lemma RunCharged(ts: seq<Tables>, steps: seq<Step>, m: nat)
    requires IsRun(ts, steps) && m < |ts|
    ensures Charged(ts[m]) && forall w :: w in ts[m].work ==> WorkOf(w) in ts[m].allocs
  {
    Scheduling.RunScheduled(ts, steps, m);
    Spending.RunAccounts(ts, steps, m);
    forall p | p in ts[m].permits ensures ts[m].permits[p].allocation in ts[m].allocs {
      assert Spending.Sound(ts[m], p);
    }
    forall w | w in ts[m].work ensures WorkOf(w) in ts[m].allocs { assert Scheduling.ItemSound(ts[m], w); }
  }

  lemma NextSilent(ts: seq<Tables>, steps: seq<Step>, m: nat, r: Id)
    requires IsRun(ts, steps) && m + 1 < |ts| && Stopped(ts[m], r)
    ensures Silent(ts[m], ts[m + 1], r) && WellFormed(ts[m]) && Extends(ts[m], ts[m + 1])
  {
    RunForest(ts, steps, m);
    RunRuns(ts, steps, m);
    RunCharged(ts, steps, m);
    StepSilent(ts[m], steps[m], r);
    StepForest(ts[m], steps[m]);
  }

  /** Once a run has stopped it stays stopped, and every later state is silent
      relative to the one it stopped in: no allocation, permit or work item has
      been added under its allocation and no permit there has been dispatched. */
  lemma {:induction false} StoppedIsSilent(ts: seq<Tables>, steps: seq<Step>, i: nat, j: nat, r: Id)
    requires IsRun(ts, steps) && i <= j < |ts| && Stopped(ts[i], r)
    ensures Stopped(ts[j], r) && Silent(ts[i], ts[j], r)
    decreases j - i
  {
    StaysStopped(ts, steps, i, j, r);
    if i < j {
      var m := j - 1;
      StoppedIsSilent(ts, steps, i, m, r);
      NextSilent(ts, steps, m, r);
      RunCharged(ts, steps, m);
      SilentTrans(ts[i], ts[m], ts[j], r);
    }
  }

  /** Stopping never blocks the books: any dispatched permit whose usage is not yet
      known still accepts it, wherever it lies. */
  lemma UsageStillSettles(t: Tables, p: Id, usage: Usage)
    requires p in t.permits && t.permits[p].state.Dispatched? && t.permits[p].usage == None
    requires usage.input + usage.output <= RANGE && usage.cost <= RANGE
    ensures Enabled(t, Report(t.permits[p].run, p, usage))
    ensures var row := After(t, Report(t.permits[p].run, p, usage)).permits[p];
            && row.usage == Some(usage) && row.state == (if usage.complete then Settled else Dispatched)
            && (usage.complete ==> row.tokens == usage.input + usage.output && row.cost == usage.cost)
  {
  }

  // ------------------------------------------------- together with effects

  /** A step of the whole store: the ledger's, or the effect journal's. An effect
      may dispatch only for runs the ledger holds active at that time. */
  datatype Joint = Books(step: Step) | Effect(effect: E.Step, now: Millis)

  ghost predicate Admitted(t: Tables, s: E.Step, now: Millis) {
    s.Dispatch? ==> forall run :: run in s.open ==> Active(t, run, now)
  }

  ghost predicate JointStep(t: Tables, w: E.World, s: Joint, t': Tables, w': E.World) {
    match s
    case Books(step) => Enabled(t, step) && t' == After(t, step) && w' == w
    case Effect(step, now) => E.Enabled(w, step) && Admitted(t, step, now) && w' == E.After(w, step) && t' == t
  }

  ghost predicate IsJointRun(ts: seq<Tables>, ws: seq<E.World>, steps: seq<Joint>) {
    && |ts| == |ws| == |steps| + 1 && ts[0] == Fresh && ws[0] == E.Empty
    && forall k {:trigger steps[k]} :: 0 <= k < |steps| ==> JointStep(ts[k], ws[k], steps[k], ts[k + 1], ws[k + 1])
  }

  /** What the ledger's invariants amount to at one point of a joint run. */
  ghost predicate Kept(t: Tables) {
    WellFormed(t) && RunsSound(t)
  }

  lemma {:induction false} JointKeeps(ts: seq<Tables>, ws: seq<E.World>, steps: seq<Joint>, k: nat)
    requires IsJointRun(ts, ws, steps) && k < |ts|
    ensures Kept(ts[k])
  {
    if k > 0 {
      var j := k - 1;
      JointKeeps(ts, ws, steps, j);
      assert JointStep(ts[j], ws[j], steps[j], ts[k], ws[k]);
      if steps[j].Books? {
        StepForest(ts[j], steps[j].step);
        StepRuns(ts[j], steps[j].step);
      }
    }
  }

  lemma {:induction false} JointStopped(ts: seq<Tables>, ws: seq<E.World>, steps: seq<Joint>, i: nat, j: nat, r: Id)
    requires IsJointRun(ts, ws, steps) && i <= j < |ts| && Stopped(ts[i], r)
    ensures Stopped(ts[j], r)
    decreases j - i
  {
    if i < j {
      var m := j - 1;
      JointStopped(ts, ws, steps, i, m, r);
      JointKeeps(ts, ws, steps, m);
      assert JointStep(ts[m], ws[m], steps[m], ts[j], ws[j]);
      if steps[m].Books? { StepRuns(ts[m], steps[m].step); }
    }
  }

  /** After a run has stopped, no effect of it or of any run under it is moved to
      dispatching again. */
  lemma NoEffectDispatches(ts: seq<Tables>, ws: seq<E.World>, steps: seq<Joint>, i: nat, j: nat, r: Id)
    requires IsJointRun(ts, ws, steps) && i <= j < |steps| && Stopped(ts[i], r)
    requires steps[j].Effect? && steps[j].effect.Dispatch?
    ensures steps[j].effect.op in ws[j].effects
    ensures !Under(ts[j], RunOf(ws[j].effects[steps[j].effect.op].run), RunOf(r))
  {
    assert JointStep(ts[j], ws[j], steps[j], ts[j + 1], ws[j + 1]);
    JointKeeps(ts, ws, steps, j);
    JointStopped(ts, ws, steps, i, j, r);
    IdleUnder(ts[j], ws[j].effects[steps[j].effect.op].run, r, steps[j].now);
  }
}
