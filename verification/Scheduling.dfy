/** Leases and parking: waiting never deadlocks, an item is claimed at most three
    times, and a superseded owner can neither finish nor renew. */
module Scheduling {
  import opened Outcomes
  import opened Ledger
  import opened Forest

  // ------------------------------------------------------------ invariants

  ghost predicate ItemSound(t: Tables, w: Id)
    requires w in t.work
  {
    var item := t.work[w];
    && item.grant in t.grants && item.parent != w
    && item.depth == DepthOf(t, item.parent) + 1 && item.depth <= t.grants[item.grant].depth
    && item.attempts <= MAX_ATTEMPTS
    && WorkOf(w) in t.allocs && t.allocs[WorkOf(w)].grant == item.grant
    && (w in t.runs ==> t.runs[w].grant == item.grant)
  }

  ghost predicate WaitSound(t: Tables, r: Id)
    requires r in t.waits
  {
    Children(t, r, t.waits[r]) && (t.runs[r].status.Waiting? || t.runs[r].status.Paused?)
  }

  ghost predicate Scheduled(t: Tables) {
    && (forall w {:trigger ItemSound(t, w)} :: w in t.work ==> ItemSound(t, w))
    && (forall r {:trigger WaitSound(t, r)} :: r in t.waits ==> WaitSound(t, r))
    && (forall r :: r in t.runs && t.runs[r].status.Waiting? ==> r in t.waits)
  }

  /** What no step changes about an item. */
  predicate SameItem(a: Item, b: Item) {
    b == a.(status := b.status, attempts := b.attempts, lease := b.lease, owner := b.owner)
  }

  /** Items are added with unused ids, never removed or moved. */
  ghost predicate Items(t: Tables, u: Tables) {
    && (forall w :: w in t.work ==> w in u.work && SameItem(t.work[w], u.work[w]))
    && (forall w :: w in u.work && w !in t.work ==> !Used(t, w))
    && (forall r :: r in t.runs ==> r in u.runs && u.runs[r].grant == t.runs[r].grant)
  }

  lemma ItemStays(t: Tables, u: Tables, w: Id)
    requires w in t.work && ItemSound(t, w) && Items(t, u) && Extends(t, u)
    requires u.work[w].attempts <= MAX_ATTEMPTS
    requires w in u.runs ==> u.runs[w].grant == t.work[w].grant
    ensures ItemSound(u, w)
  {
    var p := t.work[w].parent;
    assert Used(t, p);
    assert p in u.work ==> p in t.work;
  }

  lemma ChildrenStay(t: Tables, u: Tables, r: Id, items: seq<Id>)
    requires Children(t, r, items) && Items(t, u)
    ensures Children(u, r, items)
  {
    forall k | 0 <= k < |items|
      ensures items[k] in u.work && u.work[items[k]].parent == r && u.work[items[k]].grant == u.runs[r].grant {
      assert SameItem(t.work[items[k]], u.work[items[k]]);
    }
  }

  /** The general step: items keep their place and stay within the attempts, new
      items are sound, and waits are sound. */
  lemma KeepsScheduled(t: Tables, u: Tables)
    requires Scheduled(t) && Extends(t, u) && Items(t, u)
    requires forall w :: w in u.work && w in t.work ==>
             u.work[w].attempts <= MAX_ATTEMPTS && (w in u.runs ==> u.runs[w].grant == t.work[w].grant)
    requires forall w {:trigger ItemSound(u, w)} :: w in u.work && w !in t.work ==> ItemSound(u, w)
    requires forall r {:trigger WaitSound(u, r)} :: r in u.waits ==> WaitSound(u, r)
    requires forall r :: r in u.runs && u.runs[r].status.Waiting? ==> r in u.waits
    ensures Scheduled(u)
  {
    forall w | w in u.work ensures ItemSound(u, w) {
      if w in t.work {
        assert ItemSound(t, w);
        ItemStays(t, u, w);
      }
    }
  }

  /** A wait that was there before, of a run whose state still allows it. */
  lemma WaitStays(t: Tables, u: Tables, r: Id)
    requires Scheduled(t) && Items(t, u) && r in t.waits && r in u.waits && u.waits[r] == t.waits[r]
    requires r in u.runs && (u.runs[r].status.Waiting? || u.runs[r].status.Paused?)
    ensures WaitSound(u, r)
  {
    assert WaitSound(t, r);
    ChildrenStay(t, u, r, t.waits[r]);
  }

  /** Items, runs and waits are untouched. */
  lemma CalmScheduled(t: Tables, u: Tables)
    requires Scheduled(t) && Extends(t, u) && u.work == t.work && u.runs == t.runs && u.waits == t.waits
    ensures Scheduled(u) && Items(t, u)
  {
    forall w | w in t.work ensures w in u.runs ==> u.runs[w].grant == t.work[w].grant { assert ItemSound(t, w); }
    forall w | w in t.work ensures u.work[w].attempts <= MAX_ATTEMPTS { assert ItemSound(t, w); }
    forall r | r in u.waits ensures WaitSound(u, r) {
      assert WaitSound(t, r);
      WaitStays(t, u, r);
    }
    KeepsScheduled(t, u);
  }

  /** One run's row changed its state; items are untouched. */
  lemma RunScheduledRow(t: Tables, u: Tables, run: Id)
    requires Scheduled(t) && Extends(t, u) && u.work == t.work && run in u.runs
    requires u.runs == t.runs[run := u.runs[run]]
    requires run in t.runs ==> u.runs[run].grant == t.runs[run].grant
    requires run in t.work ==> u.runs[run].grant == t.work[run].grant
    requires forall r :: r != run ==> (r in u.waits <==> r in t.waits) && (r in t.waits ==> u.waits[r] == t.waits[r])
    requires run in u.waits ==> WaitSound(u, run)
    requires u.runs[run].status.Waiting? ==> run in u.waits
    ensures Scheduled(u) && Items(t, u)
  {
    forall w | w in t.work
      ensures u.work[w].attempts <= MAX_ATTEMPTS && (w in u.runs ==> u.runs[w].grant == t.work[w].grant)
    {
      assert ItemSound(t, w);
    }
    forall r | r in u.waits ensures WaitSound(u, r) {
      if r != run {
        assert WaitSound(t, r);
        WaitStays(t, u, r);
      }
    }
    KeepsScheduled(t, u);
  }

  lemma NewRunGrant(t: Tables, run: Id, g: Id, pinned: nat, wanted: Option<AllocId>, now: Millis)
    requires Scheduled(t) && run !in t.runs && run in t.work && Begun(t, run, g, pinned, wanted, now).Ok?
    ensures t.work[run].grant == g
  {
    assert ItemSound(t, run);
  }

  lemma BegunScheduled(t: Tables, run: Id, g: Id, pinned: nat, wanted: Option<AllocId>, now: Millis)
    requires WellFormed(t) && Scheduled(t) && Begun(t, run, g, pinned, wanted, now).Ok?
    ensures Scheduled(Begun(t, run, g, pinned, wanted, now).value)
            && Items(t, Begun(t, run, g, pinned, wanted, now).value)
  {
    var u := Begun(t, run, g, pinned, wanted, now).value;
    BegunForest(t, run, g, pinned, wanted, now);
    BegunSame(t, run, g, pinned, wanted, now);
    if run in t.work {
      assert ItemSound(t, run);
      if run !in t.runs { NewRunGrant(t, run, g, pinned, wanted, now); }
    }
    if run in t.waits {
      assert WaitSound(t, run);
      ChildrenStay(t, u, run, t.waits[run]);
    }
    RunScheduledRow(t, u, run);
  }

  lemma EndedScheduled(t: Tables, run: Id, how: Disposition)
    requires Scheduled(t) && CanEnd(t, run)
    ensures Scheduled(RunEnded(t, run, how)) && Items(t, RunEnded(t, run, how))
  {
    var u := RunEnded(t, run, how);
    DisposedCalm(t, u, {RunOf(run)}, Some(how));
    if run in t.work { assert ItemSound(t, run); }
    if run in u.waits {
      assert WaitSound(t, run);
      ChildrenStay(t, u, run, t.waits[run]);
    }
    RunScheduledRow(t, u, run);
  }

  lemma ParkedScheduled(t: Tables, run: Id, items: seq<Id>, now: Millis)
    requires Scheduled(t) && CanPark(t, run, items, now)
    ensures Scheduled(Parked(t, run, items)) && Items(t, Parked(t, run, items))
  {
    var u := Parked(t, run, items);
    SameCalm(t, u);
    if run in t.work { assert ItemSound(t, run); }
    ChildrenStay(t, u, run, items);
    RunScheduledRow(t, u, run);
  }

  lemma ResumedScheduled(t: Tables, run: Id)
    requires Scheduled(t) && CanResume(t, run)
    ensures Scheduled(Resumed(t, run)) && Items(t, Resumed(t, run))
  {
    var u := Resumed(t, run);
    SameCalm(t, u);
    if run in t.work { assert ItemSound(t, run); }
    RunScheduledRow(t, u, run);
  }

  lemma RestartedScheduled(t: Tables)
    requires Scheduled(t)
    ensures Scheduled(Restarted(t)) && Items(t, Restarted(t))
  {
    var u := Restarted(t);
    SameCalm(t, u);
    forall w | w in t.work
      ensures u.work[w].attempts <= MAX_ATTEMPTS && (w in u.runs ==> u.runs[w].grant == t.work[w].grant)
    {
      assert ItemSound(t, w);
    }
    forall r | r in u.waits ensures WaitSound(u, r) {
      assert WaitSound(t, r);
      WaitStays(t, u, r);
    }
    KeepsScheduled(t, u);
  }

  lemma NewItemSound(t: Tables, u: Tables, w: Id, g: Id, parent: Id, subject: nat)
    requires !Used(t, w) && w != parent && g in t.grants && DepthOf(t, parent) + 1 <= t.grants[g].depth
    requires u.work == t.work[w := NewItem(t, g, parent, subject)] && u.grants == t.grants && u.runs == t.runs
    requires WorkOf(w) in u.allocs && u.allocs[WorkOf(w)].grant == g
    ensures ItemSound(u, w)
  {
  }

  /** One item was added. */
  lemma AddedScheduled(t: Tables, u: Tables, item: Id)
    requires Scheduled(t) && Extends(t, u) && u.runs == t.runs && u.waits == t.waits
    requires !Used(t, item) && item in u.work && u.work == t.work[item := u.work[item]] && ItemSound(u, item)
    ensures Scheduled(u) && Items(t, u)
  {
    forall w | w in t.work
      ensures u.work[w].attempts <= MAX_ATTEMPTS && (w in u.runs ==> u.runs[w].grant == t.work[w].grant)
    {
      assert ItemSound(t, w);
    }
    forall r | r in u.waits ensures WaitSound(u, r) {
      assert WaitSound(t, r);
      WaitStays(t, u, r);
    }
    KeepsScheduled(t, u);
  }

  lemma EnqueuedScheduled(t: Tables, g: Id, parent: Id, subject: nat, item: Id)
    requires WellFormed(t) && Scheduled(t) && Fundable(t, g, parent)
    requires !Used(t, item) && item != parent && DepthOf(t, parent) + 1 <= t.grants[g].depth
    ensures Scheduled(Enqueued(t, g, parent, subject, item)) && Items(t, Enqueued(t, g, parent, subject, item))
  {
    var u := Enqueued(t, g, parent, subject, item);
    EnqueuedForest(t, g, parent, subject, item);
    NewItemSound(t, u, item, g, parent, subject);
    AddedScheduled(t, u, item);
  }

  /** Only items' states moved. */
  lemma MovedScheduled(t: Tables, u: Tables)
    requires Scheduled(t) && Extends(t, u) && u.runs == t.runs && u.waits == t.waits && u.work.Keys == t.work.Keys
    requires forall w :: w in t.work ==> SameItem(t.work[w], u.work[w]) && u.work[w].attempts <= MAX_ATTEMPTS
    ensures Scheduled(u) && Items(t, u)
  {
    forall w | w in t.work ensures w in u.runs ==> u.runs[w].grant == t.work[w].grant { assert ItemSound(t, w); }
    forall r | r in u.waits ensures WaitSound(u, r) {
      assert WaitSound(t, r);
      WaitStays(t, u, r);
    }
    KeepsScheduled(t, u);
  }

  lemma AttemptsKept(t: Tables, w: Id)
    requires Scheduled(t) && w in t.work
    ensures t.work[w].attempts <= MAX_ATTEMPTS
  {
    assert ItemSound(t, w);
  }

  lemma ClaimedScheduled(t: Tables, g: Id, owner: Id, lease: Millis, only: Option<set<Id>>, waited: Option<seq<Id>>,
          taken: Option<Id>, now: Millis)
    requires Scheduled(t) && CanTake(t, g, lease, only, waited, taken, now)
    ensures var u := AfterClaim(t, g, owner, lease, now, Spent(t, g, only, waited, now, taken), taken);
            Scheduled(u) && Items(t, u)
  {
    var gone := Spent(t, g, only, waited, now, taken);
    var u := AfterClaim(t, g, owner, lease, now, gone, taken);
    DisposedCalm(t, u, set w | w in gone :: WorkOf(w), Some(Failed));
    forall w | w in t.work ensures u.work[w].attempts <= MAX_ATTEMPTS { AttemptsKept(t, w); }
    MovedScheduled(t, u);
  }

  lemma FinishedScheduled(t: Tables, id: Id, how: Disposition)
    requires Scheduled(t) && id in t.work
    ensures Scheduled(ItemFinished(t, id, how)) && Items(t, ItemFinished(t, id, how))
  {
    FinishedCalm(t, id, how);
    forall w | w in t.work ensures t.work[w].attempts <= MAX_ATTEMPTS { AttemptsKept(t, w); }
    MovedScheduled(t, ItemFinished(t, id, how));
  }

  lemma RenewedScheduled(t: Tables, id: Id, lease: Millis, now: Millis)
    requires Scheduled(t) && id in t.work && t.work[id].grant in t.grants
    ensures Scheduled(LeaseRenewed(t, id, lease, now)) && Items(t, LeaseRenewed(t, id, lease, now))
  {
    SameCalm(t, LeaseRenewed(t, id, lease, now));
    forall w | w in t.work ensures t.work[w].attempts <= MAX_ATTEMPTS { AttemptsKept(t, w); }
    MovedScheduled(t, LeaseRenewed(t, id, lease, now));
  }

  lemma StoppedScheduled(t: Tables, run: Id, how: Disposition)
    requires Scheduled(t)
    ensures Scheduled(ChildrenStopped(t, run, how)) && Items(t, ChildrenStopped(t, run, how))
  {
    StoppedCalm(t, run, how);
    forall w | w in t.work ensures t.work[w].attempts <= MAX_ATTEMPTS { AttemptsKept(t, w); }
    MovedScheduled(t, ChildrenStopped(t, run, how));
  }

  /** Steps about money only. */
  predicate Money(s: Step) {
    s.Register? || s.OpenRoot? || s.Allocate? || s.Close? || s.Reserve? || s.Send? || s.Release? || s.Report?
      || s.Graft?
  }

  lemma MoneyCalm(t: Tables, s: Step)
    requires WellFormed(t) && Enabled(t, s) && Money(s)
    ensures After(t, s).work == t.work && After(t, s).runs == t.runs && After(t, s).waits == t.waits
  {
    match s
    case Reserve(run, request, within, permit, now) => PermittedForest(t, run, request, within, permit, now);
    case Allocate(g, name, above, note, budget, now) => AllocateInSame(t, g, Named(name), above, note, budget, now);
    case Report(run, p, usage) => ReportedRow(t, run, p, usage);
    case _ =>
  }

  lemma StepScheduled(t: Tables, s: Step)
    requires WellFormed(t) && Scheduled(t) && Enabled(t, s)
    ensures Scheduled(After(t, s)) && Items(t, After(t, s))
  {
    if Money(s) {
      MoneyCalm(t, s);
      StepForest(t, s);
      CalmScheduled(t, After(t, s));
    } else {
      match s
      case Begin(run, g, pinned, wanted, now) => BegunScheduled(t, run, g, pinned, wanted, now);
      case End(run, how) => EndedScheduled(t, run, how);
      case Restart => RestartedScheduled(t);
      case Enqueue(g, parent, subject, item, now) =>
        EnqueueMeans(t, g, parent, subject, item, now);
        EnqueuedScheduled(t, g, parent, subject, item);
      case Claim(g, owner, lease, only, waited, taken, now) => ClaimedScheduled(t, g, owner, lease, only, waited, taken,
        now);
      case FinishWork(id, _, how) => FinishedScheduled(t, id, how);
      case Renew(id, _, lease, now) => RenewedScheduled(t, id, lease, now);
      case Park(run, items, now) => ParkedScheduled(t, run, items, now);
      case Resume(run) => ResumedScheduled(t, run);
      case StopChildren(run, how) => StoppedScheduled(t, run, how);
      case _ =>
    }
  }

  lemma {:induction false} RunScheduled(ts: seq<Tables>, steps: seq<Step>, k: nat)
    requires IsRun(ts, steps) && k < |ts|
    ensures Scheduled(ts[k])
  {
    if k > 0 {
      var j := k - 1;
      RunScheduled(ts, steps, j);
      RunForest(ts, steps, j);
      StepScheduled(ts[j], steps[j]);
    }
  }

  // -------------------------------------------------------------- progress

  predicate WaitsFor(t: Tables, r: Id, w: Id) {
    r in t.waits && w in t.waits[r]
  }

  /** Waits go from a run to its own child items, one level deeper. */
  lemma WaitsGoDeeper(t: Tables, r: Id, w: Id)
    requires Scheduled(t) && WaitsFor(t, r, w)
    ensures w in t.work && t.work[w].parent == r && DepthOf(t, w) == DepthOf(t, r) + 1
    ensures r in t.runs && t.work[w].grant == t.runs[r].grant && t.work[w].grant in t.grants
            && DepthOf(t, w) <= t.grants[t.work[w].grant].depth
  {
    assert WaitSound(t, r);
    var k :| 0 <= k < |t.waits[r]| && t.waits[r][k] == w;
    assert ItemSound(t, w);
  }

  ghost predicate WaitPath(t: Tables, path: seq<Id>) {
    path != [] && forall k :: 0 <= k < |path| - 1 ==> WaitsFor(t, path[k], path[k + 1])
  }

  lemma {:induction false} PathDeepens(t: Tables, path: seq<Id>)
    requires Scheduled(t) && WaitPath(t, path)
    ensures DepthOf(t, path[|path| - 1]) == DepthOf(t, path[0]) + |path| - 1
  {
    if |path| > 1 {
      var n := |path| - 1;
      assert forall k :: 0 <= k < n - 1 ==> WaitsFor(t, path[..n][k], path[..n][k + 1]) by {
        assert forall k :: 0 <= k < n - 1 ==> WaitsFor(t, path[k], path[k + 1]);
      }
      PathDeepens(t, path[..n]);
      WaitsGoDeeper(t, path[n - 1], path[n]);
    }
  }

  /** No run waits for itself, directly or through others. */
  lemma WaitsAcyclic(t: Tables, path: seq<Id>)
    requires Scheduled(t) && WaitPath(t, path) && |path| > 1
    ensures path[0] != path[|path| - 1]
  {
    PathDeepens(t, path);
  }

  predicate LiveLease(t: Tables, w: Id, now: Millis) {
    w in t.work && t.work[w].status.Leased? && now <= t.work[w].lease
  }

  /** A waiting run whose wait can move now: it can resume, one of its items can be
      claimed, or one is running under a live lease and is not itself waiting. */
  ghost predicate CanMove(t: Tables, r: Id, now: Millis) {
    && r in t.waits && r in t.runs
    && (|| CanResume(t, r)
        || (exists w :: w in t.waits[r] && Eligible(t, t.runs[r].grant, None, Some(t.waits[r]), now, w))
        || (exists w :: w in t.waits[r] && LiveLease(t, w, now) && w !in t.waits))
  }

  /** Below every waiting run there is one that can move: parking cannot deadlock. */
  lemma {:induction false} SomeoneMoves(t: Tables, r: Id, now: Millis) returns (path: seq<Id>)
    requires Scheduled(t) && r in t.waits
    ensures WaitPath(t, path) && path[0] == r && CanMove(t, path[|path| - 1], now)
    ensures path[|path| - 1] in t.runs && r in t.runs && t.runs[path[|path| - 1]].grant == t.runs[r].grant
    decreases if r in t.runs && t.runs[r].grant in t.grants
      then Less(t.grants[t.runs[r].grant].depth + 1, DepthOf(t, r)) else 0
  {
    assert WaitSound(t, r);
    var items := t.waits[r];
    if CanResume(t, r) || exists w :: w in items && Eligible(t, t.runs[r].grant, None, Some(items), now, w) {
      path := [r];
    } else {
      var k :| 0 <= k < |items| && !(items[k] in t.work && Settles(t.work[items[k]].status));
      var w := items[k];
      assert !Eligible(t, t.runs[r].grant, None, Some(items), now, w);
      assert LiveLease(t, w, now);
      if w !in t.waits {
        path := [r];
      } else {
        WaitsGoDeeper(t, r, w);
        assert ItemSound(t, w) && WaitSound(t, w);
        var rest := SomeoneMoves(t, w, now);
        path := [r] + rest;
      }
    }
  }

  /** The least eligible item with attempts left, if any. */
  lemma {:induction false} FirstChosen(t: Tables, g: Id, only: Option<set<Id>>, waited: Option<seq<Id>>, now: Millis,
          some: set<Id>, w: Id) returns (c: Id)
    requires some == set v | v in t.work && Eligible(t, g, only, waited, now, v) && t.work[v].attempts < MAX_ATTEMPTS
             && v <= w
    requires w in some
    ensures Chosen(t, g, only, waited, now, c)
    decreases w
  {
    assert forall v ::
        (v in t.work && Eligible(t, g, only, waited, now, v) && t.work[v].attempts < MAX_ATTEMPTS && v <= w) ==>
          v in some;
    if v :| v in some && v < w {
      c := FirstChosen(t, g, only, waited, now, (set u | u in some && u <= v), v);
    } else {
      c := w;
    }
  }

  /** An eligible waited item makes a claim possible that leases an item or
      retires one out of attempts, as long as the grant has not expired. */
  lemma EligibleClaims(t: Tables, r: Id, owner: Id, now: Millis, w: Id) returns (s: Step)
    requires r in t.waits && r in t.runs && CanClaim(t, t.runs[r].grant, MAX_LEASE, now)
    requires Eligible(t, t.runs[r].grant, None, Some(t.waits[r]), now, w)
    ensures s.Claim? && s.owner == owner && s.waited == Some(t.waits[r]) && s.now == now
    ensures Enabled(t, s)
    ensures s.taken.Some? || (w in After(t, s).work && After(t, s).work[w].status == Done(Failed))
  {
    var g, waited := t.runs[r].grant, Some(t.waits[r]);
    var all := set v | v in t.work && Eligible(t, g, None, waited, now, v) && t.work[v].attempts < MAX_ATTEMPTS;
    assert forall v :: v in t.work && Eligible(t, g, None, waited, now, v) && t.work[v].attempts < MAX_ATTEMPTS ==>
      v in all;
    if all == {} {
      s := Claim(g, owner, MAX_LEASE, None, waited, None, now);
      assert w in Spent(t, g, None, waited, now, None);
    } else {
      var v :| v in all;
      var c := FirstChosen(t, g, None, waited, now, (set u | u in all && u <= v), v);
      s := Claim(g, owner, MAX_LEASE, None, waited, Some(c), now);
    }
  }

  /** A step that moves a parked run on: it resumes, or a claim on its items leases
      one or retires one out of attempts. */
  ghost predicate MovesOn(t: Tables, r: Id, s: Step) {
    && Enabled(t, s) && r in t.waits
    && (s == Resume(r)
        || (s.Claim? && s.waited == Some(t.waits[r])
            && (s.taken.Some?
               || exists w :: w in t.waits[r] && w in After(t, s).work && After(t, s).work[w].status == Done(Failed))))
  }

  /** In every reachable state with a waiting run under an unexpired grant, follow its
      waits: some run on the way can be moved on by a step that is enabled now, or
      has an item that runs under a live lease and waits on nothing. */
  lemma ParkingProgress(ts: seq<Tables>, steps: seq<Step>, k: nat, r: Id, owner: Id, now: Millis)
    returns (path: seq<Id>, s: Step)
    requires IsRun(ts, steps) && k < |ts| && r in ts[k].waits
    requires r in ts[k].runs && CanClaim(ts[k], ts[k].runs[r].grant, MAX_LEASE, now)
    ensures WaitPath(ts[k], path) && path[0] == r && path[|path| - 1] in ts[k].waits
    ensures MovesOn(ts[k], path[|path| - 1], s)
            || exists w :: w in ts[k].waits[path[|path| - 1]] && LiveLease(ts[k], w, now) && w !in ts[k].waits
  {
    var t := ts[k];
    RunScheduled(ts, steps, k);
    path := SomeoneMoves(t, r, now);
    var last := path[|path| - 1];
    s := Resume(last);
    if !CanResume(t, last) {
      if w :| w in t.waits[last] && Eligible(t, t.runs[last].grant, None, Some(t.waits[last]), now, w) {
        s := EligibleClaims(t, last, owner, now, w);
      }
    }
  }

  // ----------------------------------------------------------------- leases

  function ClaimsOf(steps: seq<Step>, w: Id): nat {
    if steps == [] then 0
    else ClaimsOf(steps[..|steps| - 1], w) + if Takes(steps[|steps| - 1], w) then 1 else 0
  }

  predicate Takes(s: Step, w: Id) {
    s.Claim? && s.taken == Some(w)
  }

  /** The owner named by the latest claim of an item. */
  function LastOwner(steps: seq<Step>, w: Id): Option<Id> {
    if steps == [] then None
    else if Takes(steps[|steps| - 1], w) then Some(steps[|steps| - 1].owner)
    else LastOwner(steps[..|steps| - 1], w)
  }

  function Taken(s: Step, w: Id): nat {
    if Takes(s, w) then 1 else 0
  }

  /** What a step does to one item's attempts and owner. */
  ghost predicate Tracks(t: Tables, s: Step, u: Tables, w: Id) {
    && (w in t.work ==> w in u.work && u.work[w].attempts == t.work[w].attempts + Taken(s, w)
                        && u.work[w].owner == if Takes(s, w) then s.owner else t.work[w].owner)
    && (w !in t.work ==> !Takes(s, w) && (w in u.work ==> u.work[w].attempts == 0))
  }

  lemma SameCounts(t: Tables, s: Step, u: Tables, w: Id)
    requires u.work == t.work && !s.Claim?
    ensures Tracks(t, s, u, w)
  {
  }

  predicate MovesItems(s: Step) {
    s.Restart? || s.Enqueue? || s.Claim? || s.FinishWork? || s.Renew? || s.StopChildren?
  }

  lemma ItemAttempts(t: Tables, s: Step, w: Id)
    requires Enabled(t, s) && MovesItems(s)
    ensures Tracks(t, s, After(t, s), w)
  {
    match s
    case Enqueue(g, parent, subject, item, now) => EnqueueMeans(t, g, parent, subject, item, now);
    case Claim(g, owner, lease, only, waited, taken, now) => ClaimAttempts(t, s, w);
    case _ =>
  }

  lemma ClaimAttempts(t: Tables, s: Step, w: Id)
    requires s.Claim? && CanTake(t, s.grant, s.lease, s.only, s.waited, s.taken, s.now)
    ensures Tracks(t, s,
            AfterClaim(t, s.grant, s.owner, s.lease, s.now, Spent(t, s.grant, s.only, s.waited, s.now, s.taken),
              s.taken), w)
  {
  }

  lemma StepAttempts(t: Tables, s: Step, w: Id)
    requires WellFormed(t) && Enabled(t, s)
    ensures Tracks(t, s, After(t, s), w)
  {
    if MovesItems(s) {
      ItemAttempts(t, s, w);
    } else {
      if Money(s) { MoneyCalm(t, s); }
      if s.Begin? { BegunSame(t, s.run, s.grant, s.pinned, s.wanted, s.now); }
      SameCounts(t, s, After(t, s), w);
    }
  }

  lemma {:induction false} RunAttempts(ts: seq<Tables>, steps: seq<Step>, k: nat, w: Id)
    requires IsRun(ts, steps) && k < |ts|
    ensures w in ts[k].work ==> ts[k].work[w].attempts == ClaimsOf(steps[..k], w)
    ensures w in ts[k].work && LastOwner(steps[..k], w).Some? ==> ts[k].work[w].owner == LastOwner(steps[..k], w).value
    ensures w !in ts[k].work ==> ClaimsOf(steps[..k], w) == 0 && LastOwner(steps[..k], w) == None
  {
    if k > 0 {
      var j := k - 1;
      RunAttempts(ts, steps, j, w);
      RunForest(ts, steps, j);
      RunScheduled(ts, steps, j);
      StepAttempts(ts[j], steps[j], w);
      assert steps[..k][..j] == steps[..j] && steps[..k][j] == steps[j];
    }
  }

  /** Over any run, restarts included, an item is claimed at most three times. */
  lemma AtMostThreeClaims(ts: seq<Tables>, steps: seq<Step>, k: nat, w: Id)
    requires IsRun(ts, steps) && k < |ts|
    ensures ClaimsOf(steps[..k], w) <= MAX_ATTEMPTS
  {
    RunAttempts(ts, steps, k, w);
    RunScheduled(ts, steps, k);
    assert w in ts[k].work ==> ItemSound(ts[k], w);
  }

  /** Whoever is not the latest claimant can neither finish nor renew the item,
      and nobody claims it while that lease is live. */
  lemma SupersededOwner(ts: seq<Tables>, steps: seq<Step>, k: nat, w: Id, owner: Id, s: Step)
    requires IsRun(ts, steps) && k < |ts| && LastOwner(steps[..k], w) == Some(owner)
    requires Enabled(ts[k], s)
    ensures s.FinishWork? && s.item == w ==> s.owner == owner
    ensures s.Renew? && s.item == w ==> s.owner == owner
    ensures Takes(s, w) ==> !LiveLease(ts[k], w, s.now)
  {
    RunAttempts(ts, steps, k, w);
  }
}
