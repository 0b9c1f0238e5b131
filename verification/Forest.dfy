/** The allocation forest stays well formed in every run: no cycle, no chain past
    the bound, every ceiling within all of its ancestors' ceilings, and the
    downward family recursion meets each allocation of a subtree exactly once. */
module Forest {
  import opened Outcomes
  import opened Ledger

  // ---------------------------------------------------------------- chains

  /** Consecutive allocations linked by their parents, up to one without. */
  ghost predicate IsChain(allocs: map<AllocId, Allocation>, c: seq<AllocId>) {
    && c != []
    && (forall k :: 0 <= k < |c| ==> c[k] in allocs)
    && (forall k {:trigger allocs[c[k]]} :: 0 <= k < |c| - 1 ==> allocs[c[k]].parent == Some(c[k + 1]))
    && allocs[c[|c| - 1]].parent == None
  }

  lemma {:induction false} ChainShape(allocs: map<AllocId, Allocation>, id: AllocId, bound: nat)
    ensures Chain(allocs, id, bound).Some? ==>
              var c := Chain(allocs, id, bound).value;
              IsChain(allocs, c) && c[0] == id && |c| <= bound
    decreases bound
  {
    if bound > 0 && id in allocs && allocs[id].parent.Some? { ChainShape(allocs, allocs[id].parent.value, bound - 1); }
  }

  /** Following the parents of a chain reproduces it under any sufficient bound. */
  lemma {:induction false} ChainFound(allocs: map<AllocId, Allocation>, c: seq<AllocId>, bound: nat)
    requires IsChain(allocs, c) && |c| <= bound
    ensures Chain(allocs, c[0], bound) == Some(c)
    decreases bound
  {
    if |c| > 1 {
      ChainFound(allocs, c[1..], bound - 1);
      assert c == [c[0]] + c[1..];
    } else {
      assert c == [c[0]];
    }
  }

  lemma TailChain(allocs: map<AllocId, Allocation>, c: seq<AllocId>, k: nat)
    requires IsChain(allocs, c) && k < |c|
    ensures IsChain(allocs, c[k..])
  {
  }

  /** Every member of a chain has the rest of it as its own chain. */
  lemma AncestorsOf(t: Tables, id: AllocId, k: nat)
    requires Ancestry(t, id).Some? && k < |Ancestry(t, id).value|
    ensures Ancestry(t, Ancestry(t, id).value[k]) == Some(Ancestry(t, id).value[k..])
  {
    var c := Ancestry(t, id).value;
    ChainShape(t.allocs, id, MAX_CHAIN);
    TailChain(t.allocs, c, k);
    ChainFound(t.allocs, c[k..], MAX_CHAIN);
  }

  /** No allocation is its own ancestor. */
  lemma ChainOnce(t: Tables, id: AllocId, i: nat, j: nat)
    requires Ancestry(t, id).Some? && i < |Ancestry(t, id).value| && j < |Ancestry(t, id).value|
    requires Ancestry(t, id).value[i] == Ancestry(t, id).value[j]
    ensures i == j
  {
    AncestorsOf(t, id, i);
    AncestorsOf(t, id, j);
    assert |Ancestry(t, id).value[i..]| == |Ancestry(t, id).value[j..]|;
  }

  lemma UnderTrans(t: Tables, a: AllocId, b: AllocId, c: AllocId)
    requires Under(t, a, b) && Under(t, b, c)
    ensures Under(t, a, c)
  {
    var up := Ancestry(t, a).value;
    var k :| 0 <= k < |up| && up[k] == b;
    AncestorsOf(t, a, k);
    assert c in up[k..];
  }

  lemma UnderSelf(t: Tables, id: AllocId)
    requires Ancestry(t, id).Some?
    ensures Under(t, id, id)
  {
    ChainShape(t.allocs, id, MAX_CHAIN);
    assert Ancestry(t, id).value[0] == id;
  }

  // ------------------------------------------------------------ invariants

  ghost predicate WellPlaced(t: Tables, id: AllocId)
    requires id in t.allocs
  {
    var a := t.allocs[id];
    && Ancestry(t, id).Some? && a.grant in t.grants
    && (id.Root? ==> a.grant == id.grant)
    && match a.parent
       case None => id == Root(a.grant)
       case Some(p) =>
         && p in t.allocs && Within(a.budget, t.allocs[p].budget)
         && (a.grant == t.allocs[p].grant || id == Root(a.grant))
  }

  ghost predicate WellFormed(t: Tables) {
    forall id {:trigger WellPlaced(t, id)} :: id in t.allocs ==> WellPlaced(t, id)
  }

  /** What no step changes about an allocation once it exists. */
  predicate SameShape(a: Allocation, b: Allocation) {
    b == a.(disposition := b.disposition)
  }

  ghost predicate Extends(t: Tables, u: Tables) {
    && t.grants.Keys <= u.grants.Keys
    && (forall g :: g in t.grants ==> u.grants[g] == t.grants[g])
    && (forall a :: a in t.allocs ==> a in u.allocs && SameShape(t.allocs[a], u.allocs[a]))
  }

  lemma ChainStays(t: Tables, u: Tables, id: AllocId)
    requires Extends(t, u) && Ancestry(t, id).Some?
    ensures Ancestry(u, id) == Ancestry(t, id)
  {
    ChainShape(t.allocs, id, MAX_CHAIN);
    var c := Ancestry(t, id).value;
    assert IsChain(u.allocs, c);
    ChainFound(u.allocs, c, MAX_CHAIN);
  }

  /** A new allocation placed under an existing one, or a new root. */
  ghost predicate Placed(t: Tables, u: Tables, id: AllocId) {
    && id !in t.allocs && id in u.allocs && u.allocs == t.allocs[id := u.allocs[id]]
    && t.grants.Keys <= u.grants.Keys && (forall g :: g in t.grants ==> u.grants[g] == t.grants[g])
    && var a := u.allocs[id];
    && a.grant in u.grants && (id.Root? ==> a.grant == id.grant)
    && match a.parent
       case None => id == Root(a.grant)
       case Some(p) =>
         && p in t.allocs && Ancestry(t, p).Some? && |Ancestry(t, p).value| < MAX_CHAIN
         && Within(a.budget, t.allocs[p].budget) && (a.grant == t.allocs[p].grant || id == Root(a.grant))
  }

  lemma PlacedChain(t: Tables, u: Tables, id: AllocId)
    requires Placed(t, u, id)
    ensures Extends(t, u)
    ensures match u.allocs[id].parent
            case None => Ancestry(u, id) == Some([id])
            case Some(p) => Ancestry(u, id) == Some([id] + Ancestry(t, p).value)
  {
    if u.allocs[id].parent.Some? {
      var p := u.allocs[id].parent.value;
      ChainStays(t, u, p);
      ChainShape(u.allocs, p, MAX_CHAIN);
      var c := [id] + Ancestry(t, p).value;
      assert IsChain(u.allocs, c);
      ChainFound(u.allocs, c, MAX_CHAIN);
    }
  }

  lemma PlacedKeeps(t: Tables, u: Tables, id: AllocId)
    requires WellFormed(t) && Placed(t, u, id)
    ensures WellFormed(u) && Extends(t, u)
  {
    PlacedChain(t, u, id);
    forall a | a in u.allocs ensures WellPlaced(u, a) {
      if a != id {
        assert WellPlaced(t, a);
        ChainStays(t, u, a);
      }
    }
  }

  /** Only dispositions, or nothing about allocations, changed. */
  lemma ReshapedKeeps(t: Tables, u: Tables)
    requires WellFormed(t) && Extends(t, u) && u.allocs.Keys == t.allocs.Keys
    ensures WellFormed(u)
  {
    forall a | a in u.allocs ensures WellPlaced(u, a) {
      assert WellPlaced(t, a);
      ChainStays(t, u, a);
    }
  }

  lemma ExtendsTrans(t: Tables, u: Tables, v: Tables)
    requires Extends(t, u) && Extends(u, v)
    ensures Extends(t, v)
  {
  }

  lemma WithRootKeeps(t: Tables, g: Id)
    requires WellFormed(t)
    ensures WellFormed(WithRoot(t, g)) && Extends(t, WithRoot(t, g))
  {
    var u := WithRoot(t, g);
    if u != t { PlacedKeeps(t, u, Root(g)); }
  }

  lemma AllocateInKeeps(t: Tables, g: Id, id: AllocId, parent: AllocId, note: Label, budget: Budget, now: Millis)
    requires WellFormed(t) && !id.Root? && AllocateIn(t, g, id, parent, note, budget, now).Ok?
    ensures var u := AllocateIn(t, g, id, parent, note, budget, now).value;
            WellFormed(u) && Extends(t, u) && u == t.(allocs := u.allocs) && id in u.allocs
  {
    assert WellPlaced(t, parent);
    var u := AllocateIn(t, g, id, parent, note, budget, now).value;
    if id !in t.allocs { PlacedKeeps(t, u, id); }
  }

  // ----------------------------------------------------------------- steps

  predicate SameButAllocs(t: Tables, u: Tables) {
    u == t.(allocs := u.allocs)
  }

  lemma AllocateInSame(t: Tables, g: Id, id: AllocId, parent: AllocId, note: Label, budget: Budget, now: Millis)
    requires AllocateIn(t, g, id, parent, note, budget, now).Ok?
    ensures SameButAllocs(t, AllocateIn(t, g, id, parent, note, budget, now).value)
  {
  }

  /** New allocations beside unchanged ones. */
  ghost predicate Adds(t: Tables, u: Tables) {
    forall a {:trigger a in u.allocs} {:trigger a in t.allocs} :: a in t.allocs ==>
      a in u.allocs && u.allocs[a] == t.allocs[a]
  }

  /** No new allocation, permit or item, and every ceiling as it was. */
  ghost predicate Calm(t: Tables, u: Tables) {
    Extends(t, u) && u.allocs.Keys == t.allocs.Keys && u.permits == t.permits && u.work.Keys == t.work.Keys
  }

  lemma DisposedCalm(t: Tables, u: Tables, ids: set<AllocId>, how: Option<Disposition>)
    requires u.allocs == Disposed(t.allocs, ids, how) && u.grants == t.grants && u.permits == t.permits
             && u.work.Keys == t.work.Keys
    ensures Calm(t, u)
  {
  }

  lemma SameCalm(t: Tables, u: Tables)
    requires u.allocs == t.allocs && u.permits == t.permits && u.work.Keys == t.work.Keys
    requires t.grants.Keys <= u.grants.Keys && forall g :: g in t.grants ==> u.grants[g] == t.grants[g]
    ensures Calm(t, u)
  {
  }

  /** Steps that neither create nor charge anything. */
  predicate Quiet(s: Step) {
    s.Register? || s.Close? || s.End? || s.Restart? || s.Claim? || s.FinishWork? || s.Renew? || s.Park? || s.Resume?
      || s.StopChildren?
  }

  lemma StoppedCalm(t: Tables, run: Id, how: Disposition)
    ensures Calm(t, ChildrenStopped(t, run, how))
  {
    if run in t.waits {
      DisposedCalm(t, ChildrenStopped(t, run, how), set w | w in Unfinished(t, t.waits[run]) :: WorkOf(w), Some(how));
    } else {
      SameCalm(t, t);
    }
  }

  lemma FinishedCalm(t: Tables, id: Id, how: Disposition)
    requires id in t.work
    ensures Calm(t, ItemFinished(t, id, how))
  {
    if t.work[id].status == Finished(how) {
      SameCalm(t, t);
    } else {
      DisposedCalm(t, ItemFinished(t, id, how), {WorkOf(id)}, Some(how));
    }
  }

  lemma QuietCalm(t: Tables, s: Step)
    requires Enabled(t, s) && Quiet(s)
    ensures Calm(t, After(t, s))
  {
    match s
    case Register(g, budget, _) => SameCalm(t, Registered(t, g, budget));
    case Close(_, id, how) => DisposedCalm(t, AllocClosed(t, id, how), {id}, Some(how));
    case End(run, how) => DisposedCalm(t, RunEnded(t, run, how), {RunOf(run)}, Some(how));
    case Restart => SameCalm(t, Restarted(t));
    case Claim(g, owner, lease, only, waited, taken, now) =>
      var gone := Spent(t, g, only, waited, now, taken);
      DisposedCalm(t, AfterClaim(t, g, owner, lease, now, gone, taken), set w | w in gone :: WorkOf(w), Some(Failed));
    case FinishWork(id, _, how) => FinishedCalm(t, id, how);
    case Renew(id, _, lease, now) => SameCalm(t, LeaseRenewed(t, id, lease, now));
    case Park(run, items, _) => SameCalm(t, Parked(t, run, items));
    case Resume(run) => SameCalm(t, Resumed(t, run));
    case StopChildren(run, how) => StoppedCalm(t, run, how);
  }

  /** The row of a run that has just begun or been resumed. */
  function BegunRow(t: Tables, run: Id, g: Id, pinned: nat): RunRow {
    RunRow(g, pinned, if run in t.runs && run in t.waits then Waiting else Running)
  }

  lemma BegunSame(t: Tables, run: Id, g: Id, pinned: nat, wanted: Option<AllocId>, now: Millis)
    requires Begun(t, run, g, pinned, wanted, now).Ok?
    ensures var u := Begun(t, run, g, pinned, wanted, now).value;
            && u.permits == t.permits && u.work == t.work && u.waits == t.waits
            && u.runs == t.runs[run := BegunRow(t, run, g, pinned)]
            && (run in t.runs ==> t.runs[run].status.Paused? && t.runs[run].grant == g)
  {
    if run !in t.runs {
      var u := WithRoot(t.(runs := t.runs[run := RunRow(g, pinned, Running)]), g);
      var above := RunParent(t, run, g, wanted).value;
      AllocateInSame(u, g, RunOf(run), above, Label(2, run), u.allocs[above].budget, now);
      assert u.permits == t.permits && u.work == t.work && u.waits == t.waits
        && u.runs == t.runs[run := RunRow(g, pinned, Running)];
      assert Begun(t, run, g, pinned, wanted, now) ==
        AllocateIn(u, g, RunOf(run), above, Label(2, run), u.allocs[above].budget, now);
    }
  }

  lemma NewRunForest(t: Tables, run: Id, g: Id, pinned: nat, wanted: Option<AllocId>, now: Millis)
    requires WellFormed(t) && run !in t.runs && Begun(t, run, g, pinned, wanted, now).Ok?
    ensures var u := Begun(t, run, g, pinned, wanted, now).value;
            WellFormed(u) && Extends(t, u) && RunOf(run) in u.allocs
  {
    var v := t.(runs := t.runs[run := RunRow(g, pinned, Running)]);
    ReshapedKeeps(t, v);
    WithRootKeeps(v, g);
    var u := WithRoot(v, g);
    var above := RunParent(t, run, g, wanted).value;
    AllocateInKeeps(u, g, RunOf(run), above, Label(2, run), u.allocs[above].budget, now);
    ExtendsTrans(v, u, Begun(t, run, g, pinned, wanted, now).value);
  }

  lemma BegunForest(t: Tables, run: Id, g: Id, pinned: nat, wanted: Option<AllocId>, now: Millis)
    requires WellFormed(t) && Begun(t, run, g, pinned, wanted, now).Ok?
    ensures var u := Begun(t, run, g, pinned, wanted, now).value; WellFormed(u) && Extends(t, u)
  {
    if run in t.runs {
      var u := Begun(t, run, g, pinned, wanted, now).value;
      DisposedCalm(t, u, {RunOf(run)}, None);
      ReshapedKeeps(t, u);
    } else {
      NewRunForest(t, run, g, pinned, wanted, now);
    }
  }

  /** The tables a permit is charged in: at most one allocation was added. */
  lemma ChargingKeeps(t: Tables, run: Id, q: Request, within: AllocId, now: Millis)
    requires WellFormed(t) && Charging(t, run, q, within, now).Ok?
    ensures var u := Charging(t, run, q, within, now).value.0;
            WellFormed(u) && Extends(t, u) && SameButAllocs(t, u) && Adds(t, u)
  {
    if q.summary.Some? {
      AllocateInKeeps(t, t.runs[run].grant, Summary(run, q.summary.value), within, Label(1, q.summary.value),
        t.allocs[within].budget, now);
      AllocateInSame(t, t.runs[run].grant, Summary(run, q.summary.value), within, Label(1, q.summary.value),
        t.allocs[within].budget, now);
    } else {
      SameCalm(t, t);
    }
  }

  lemma PermittedForest(t: Tables, run: Id, q: Request, within: AllocId, permit: Id, now: Millis)
    requires WellFormed(t) && run in t.runs && Charging(t, run, q, within, now).Ok?
    ensures var u := Permitted(t, run, q, within, permit, now);
            WellFormed(u) && Extends(t, u) && Adds(t, u) && u.work == t.work && u.runs == t.runs && u.waits == t.waits
  {
    ChargingKeeps(t, run, q, within, now);
    ReshapedKeeps(Charging(t, run, q, within, now).value.0, Permitted(t, run, q, within, permit, now));
  }

  /** What a new item needs of its parent's allocation to be placed under it. */
  ghost predicate Fundable(t: Tables, g: Id, parent: Id) {
    && var u := WithRoot(t, g);
    && var top := FundedBy(t, g, parent);
    && g in t.grants && top in u.allocs && u.allocs[top].grant == g
    && Ancestry(u, top).Some? && |Ancestry(u, top).value| < MAX_CHAIN
  }

  lemma EnqueueMeans(t: Tables, g: Id, parent: Id, subject: nat, item: Id, now: Millis)
    requires CanEnqueue(t, g, parent, subject, item, now)
    ensures Fundable(t, g, parent) && !Used(t, item) && item != parent && DepthOf(t, parent) + 1 <= t.grants[g].depth
    ensures Open(WithRoot(t, g), FundedBy(t, g, parent), now)
  {
  }

  lemma EnqueuedPlaced(t: Tables, u: Tables, g: Id, parent: Id, subject: nat, item: Id)
    requires Fundable(t, g, parent) && WorkOf(item) !in t.allocs && u == WithRoot(t, g) && WellFormed(u)
    ensures var x := Enqueued(t, g, parent, subject, item);
            Placed(u, x, WorkOf(item)) && x.allocs[WorkOf(item)].parent == Some(FundedBy(t, g, parent)) && Adds(t, x)
  {
    assert WellPlaced(u, FundedBy(t, g, parent));
  }

  lemma EnqueuedForest(t: Tables, g: Id, parent: Id, subject: nat, item: Id)
    requires WellFormed(t) && Fundable(t, g, parent) && WorkOf(item) !in t.allocs
    ensures var u := Enqueued(t, g, parent, subject, item);
            && WellFormed(u) && Extends(t, u) && Adds(t, u)
            && Placed(WithRoot(t, g), u, WorkOf(item)) && u.allocs[WorkOf(item)].parent == Some(FundedBy(t, g, parent))
  {
    var u, x := WithRoot(t, g), Enqueued(t, g, parent, subject, item);
    WithRootKeeps(t, g);
    EnqueuedPlaced(t, u, g, parent, subject, item);
    PlacedKeeps(u, x, WorkOf(item));
    ExtendsTrans(t, u, x);
  }

  lemma GraftForest(t: Tables, run: Id, within: AllocId, g: Id, budget: Budget, now: Millis)
    requires WellFormed(t) && CanGraft(t, run, within, g, budget, now)
    ensures WellFormed(Grafted(t, within, g, budget)) && Extends(t, Grafted(t, within, g, budget))
  {
    PlacedKeeps(t, Grafted(t, within, g, budget), Root(g));
  }

  lemma RowForest(t: Tables, u: Tables)
    requires WellFormed(t) && u == t.(permits := u.permits)
    ensures WellFormed(u) && Extends(t, u)
  {
    ReshapedKeeps(t, u);
  }

  lemma ReportedRow(t: Tables, run: Id, p: Id, usage: Usage)
    requires Reported(t, run, p, usage).Ok?
    ensures var u := Reported(t, run, p, usage).value; u == t.(permits := u.permits)
  {
  }

  /** Every step keeps the forest well formed and every earlier allocation as it
      was, except for its disposition. */
  lemma StepForest(t: Tables, s: Step)
    requires WellFormed(t) && Enabled(t, s)
    ensures WellFormed(After(t, s)) && Extends(t, After(t, s))
  {
    if Quiet(s) {
      QuietCalm(t, s);
      ReshapedKeeps(t, After(t, s));
    } else {
      match s
      case OpenRoot(g) => WithRootKeeps(t, g);
      case Allocate(g, name, above, note, budget, now) => AllocateInKeeps(t, g, Named(name), above, note, budget, now);
      case Begin(run, g, pinned, wanted, now) => BegunForest(t, run, g, pinned, wanted, now);
      case Reserve(run, request, within, permit, now) => PermittedForest(t, run, request, within, permit, now);
      case Send(_, p, _) => RowForest(t, PermitMoved(t, p, Dispatched));
      case Release(_, p) => RowForest(t, PermitMoved(t, p, Released));
      case Report(run, p, usage) =>
        ReportedRow(t, run, p, usage);
        RowForest(t, Reported(t, run, p, usage).value);
      case Enqueue(g, parent, subject, item, now) =>
        EnqueueMeans(t, g, parent, subject, item, now);
        EnqueuedForest(t, g, parent, subject, item);
      case Graft(run, within, g, budget, now) => GraftForest(t, run, within, g, budget, now);
      case _ =>
    }
  }

  /** Steps that touch no permit. */
  predicate Unpaid(s: Step) {
    !s.Reserve? && !s.Send? && !s.Release? && !s.Report?
  }

  lemma UnpaidSame(t: Tables, s: Step)
    requires Enabled(t, s) && Unpaid(s)
    ensures After(t, s).permits == t.permits
  {
    if Quiet(s) {
      QuietCalm(t, s);
    } else {
      match s
      case Allocate(g, name, above, note, budget, now) => AllocateInSame(t, g, Named(name), above, note, budget, now);
      case Begin(run, g, pinned, wanted, now) => BegunSame(t, run, g, pinned, wanted, now);
      case _ =>
    }
  }

  lemma {:induction false} RunForest(ts: seq<Tables>, steps: seq<Step>, k: nat)
    requires IsRun(ts, steps) && k < |ts|
    ensures WellFormed(ts[k])
  {
    if k > 0 {
      var j := k - 1;
      RunForest(ts, steps, j);
      StepForest(ts[j], steps[j]);
    }
  }

  lemma {:induction false} RunExtends(ts: seq<Tables>, steps: seq<Step>, i: nat, j: nat)
    requires IsRun(ts, steps) && i <= j < |ts|
    ensures Extends(ts[i], ts[j])
    decreases j - i
  {
    if i < j {
      var m := j - 1;
      RunExtends(ts, steps, i, m);
      RunForest(ts, steps, m);
      StepForest(ts[m], steps[m]);
      ExtendsTrans(ts[i], ts[m], ts[j]);
    }
  }

  // ------------------------------------------------------------- domination

  lemma WithinTrans(a: Budget, b: Budget, c: Budget)
    requires Within(a, b) && Within(b, c)
    ensures Within(a, c)
  {
  }

  /** Every ceiling is within all of its ancestors' ceilings. */
  lemma {:induction false} Dominated(t: Tables, id: AllocId, k: nat)
    requires WellFormed(t) && id in t.allocs && Ancestry(t, id).Some? && k < |Ancestry(t, id).value|
    ensures Ancestry(t, id).value[k] in t.allocs
    ensures Within(t.allocs[id].budget, t.allocs[Ancestry(t, id).value[k]].budget)
    decreases k
  {
    ChainShape(t.allocs, id, MAX_CHAIN);
    var c := Ancestry(t, id).value;
    if k > 0 {
      assert WellPlaced(t, id);
      Dominated(t, id, k - 1);
      assert WellPlaced(t, c[k - 1]);
      WithinTrans(t.allocs[id].budget, t.allocs[c[k - 1]].budget, t.allocs[c[k]].budget);
    }
  }

  /** Every allocation of a grant lies under that grant's root, grafted or not,
      so counting a root by grant and by subtree is the same. */
  lemma {:induction false} UnderOwnRoot(t: Tables, id: AllocId, n: nat)
    requires WellFormed(t) && id in t.allocs && Ancestry(t, id).Some? && |Ancestry(t, id).value| <= n
    ensures Root(t.allocs[id].grant) in t.allocs && Under(t, id, Root(t.allocs[id].grant))
    decreases n
  {
    assert WellPlaced(t, id);
    UnderSelf(t, id);
    if id != Root(t.allocs[id].grant) {
      var p := t.allocs[id].parent.value;
      ChainShape(t.allocs, id, MAX_CHAIN);
      AncestorsOf(t, id, 1);
      UnderOwnRoot(t, p, n - 1);
      assert Under(t, id, p) by { assert Ancestry(t, id).value[1] == p; }
      UnderTrans(t, id, p, Root(t.allocs[p].grant));
    }
  }

  lemma CountsFamily(t: Tables, g: Id, id: AllocId, top: AllocId)
    requires WellFormed(t) && id in t.allocs && t.allocs[id].grant == g && top in t.allocs
    ensures Counts(t, g, id, top) <==> Under(t, id, top)
  {
    if t.allocs[top].parent.None? && t.allocs[top].grant == g {
      assert WellPlaced(t, top) && WellPlaced(t, id);
      ChainShape(t.allocs, id, MAX_CHAIN);
      UnderOwnRoot(t, id, MAX_CHAIN);
    }
  }

  // ----------------------------------------------------------------- family

  ghost predicate Distinct(s: seq<AllocId>) {
    forall i, j :: 0 <= i < |s| && 0 <= j < |s| && s[i] == s[j] ==> i == j
  }

  lemma {:induction false} DistinctFits(s: seq<AllocId>, all: set<AllocId>)
    requires Distinct(s) && forall k :: 0 <= k < |s| ==> s[k] in all
    ensures |s| <= |all|
  {
    if s != [] {
      var n := |s| - 1;
      assert forall k :: 0 <= k < n ==> s[..n][k] == s[k];
      DistinctFits(s[..n], all - {s[n]});
    }
  }

  /** A child of an allocation in the subtree is in the subtree, and is not its top. */
  lemma ChildUnder(t: Tables, child: AllocId, p: AllocId, top: AllocId)
    requires WellFormed(t) && child in t.allocs && t.allocs[child].parent == Some(p) && Under(t, p, top)
    ensures Under(t, child, top) && child != top
  {
    assert WellPlaced(t, child);
    ChainShape(t.allocs, child, MAX_CHAIN);
    var c := Ancestry(t, child).value;
    AncestorsOf(t, child, 1);
    var k :| 0 <= k < |c[1..]| && c[1..][k] == top;
    assert c[k + 1] == top;
    if child == top { ChainOnce(t, child, 0, k + 1); }
  }

  lemma {:induction false} ClosedHolds(t: Tables, family: seq<AllocId>, id: AllocId, top: AllocId, k: nat)
    requires WellFormed(t) && id in t.allocs && Ancestry(t, id).Some? && k < |Ancestry(t, id).value|
             && Ancestry(t, id).value[k] == top
    requires top in family
    requires forall a :: a in t.allocs && t.allocs[a].parent.Some? && t.allocs[a].parent.value in family ==> a in family
    ensures id in family
    decreases k
  {
    ChainShape(t.allocs, id, MAX_CHAIN);
    if k > 0 {
      AncestorsOf(t, id, 1);
      ClosedHolds(t, family, Ancestry(t, id).value[1], top, k - 1);
    }
  }

  /** The walk's state: `i` members have had their children added. */
  ghost predicate Walking(t: Tables, top: AllocId, family: seq<AllocId>, i: nat) {
    && Distinct(family) && family != [] && family[0] == top && i <= |family|
    && (forall k :: 0 <= k < |family| ==> Under(t, family[k], top) && family[k] in t.allocs)
    && (forall k :: 1 <= k < |family| ==>
       t.allocs[family[k]].parent.Some? && t.allocs[family[k]].parent.value in family[..i])
    && (forall a :: a in t.allocs && t.allocs[a].parent.Some? && t.allocs[a].parent.value in family[..i] ==>
       a in family)
  }

  /** The children of the next member are all new. */
  lemma WalkingNext(t: Tables, top: AllocId, family: seq<AllocId>, i: nat, children: seq<AllocId>)
    requires WellFormed(t) && Walking(t, top, family, i) && i < |family| && Distinct(children)
    requires forall a :: a in children <==> a in t.allocs && t.allocs[a].parent == Some(family[i])
    ensures Walking(t, top, family + children, i + 1)
  {
    var all := family + children;
    forall a | a in children ensures Under(t, a, top) && a !in family {
      ChildUnder(t, a, family[i], top);
      assert family[i] !in family[..i];
    }
    assert all[..i + 1] == family[..i] + [family[i]];
  }

  lemma DistinctSnoc(s: seq<AllocId>, a: AllocId)
    requires Distinct(s) && a !in s
    ensures Distinct(s + [a])
  {
  }

  method ChildrenOf(t: Tables, p: AllocId) returns (children: seq<AllocId>)
    ensures Distinct(children)
    ensures forall a :: a in children <==> a in t.allocs && t.allocs[a].parent == Some(p)
  {
    children := [];
    var todo := set a | a in t.allocs && t.allocs[a].parent == Some(p);
    ghost var all := todo;
    while todo != {}
      invariant todo <= all && Distinct(children)
      invariant forall a :: a in children <==> a in all - todo
    {
      var a :| a in todo;
      DistinctSnoc(children, a);
      children := children + [a];
      todo := todo - {a};
    }
  }

  /** The downward recursion ends and meets each allocation of the subtree once. */
  method Family(t: Tables, top: AllocId) returns (family: seq<AllocId>)
    requires WellFormed(t) && top in t.allocs
    ensures Distinct(family)
    ensures forall id :: id in family <==> Under(t, id, top)
  {
    family := [top];
    var i := 0;
    assert WellPlaced(t, top);
    UnderSelf(t, top);
    while i < |family|
      invariant Walking(t, top, family, i)
      decreases |t.allocs.Keys| - i
    {
      DistinctFits(family, t.allocs.Keys);
      var children := ChildrenOf(t, family[i]);
      WalkingNext(t, top, family, i, children);
      family := family + children;
      i := i + 1;
    }
    assert family[..i] == family;
    forall id | Under(t, id, top) ensures id in family {
      ChainShape(t.allocs, id, MAX_CHAIN);
      var k :| 0 <= k < |Ancestry(t, id).value| && Ancestry(t, id).value[k] == top;
      assert id == Ancestry(t, id).value[0];
      ClosedHolds(t, family, id, top, k);
    }
  }
}
