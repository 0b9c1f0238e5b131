/** What every run of the effect journal keeps: an adapter is called at most once
    per operation, receipts tell the truth about that call, phases only move
    forward, the write fence holds, and invalidations are counted exactly. */
module Journal {
  import opened Outcomes
  import opened Totals
  import opened Validity
  import opened Effects

  // ------------------------------------------------------------ invariants

  /** The evidence comes from an operation of the same grant that really called
      its adapter, having read the clock at this generation before the call. */
  ghost predicate Backed(w: World, g: Grant, v: Evidence) {
    && v.operation in w.effects
    && var c := w.effects[v.operation];
    && c.grant == g && !c.phase.Prepared? && c.generation == v.generation && Calls(w, v.operation) == 1
  }

  ghost predicate AllBacked(w: World, g: Grant, vs: seq<Evidence>) {
    forall k {:trigger Backed(w, g, vs[k])} :: 0 <= k < |vs| ==> Backed(w, g, vs[k])
  }

  /** What a captured receipt says about the adapter, against `n` actual calls. */
  predicate Honest(r: Receipt, n: nat) {
    && r.basis.Some? && !r.status.Started?
    && (r.basis.value.NotDispatched? ==> n == 0)
    && (r.basis.value.Established? <==> r.status.Succeeded? || (r.status.Failed? && !r.basis.value.NotDispatched?))
    && (r.basis.value.Established? ==> n == 1)
    && (r.status.Unknown? <==> r.basis.value.Unresolved? || r.basis.value.PostconditionObserved?)
  }

  ghost predicate Told(w: World, op: Op)
    requires op in w.effects
  {
    var e, n := w.effects[op], Calls(w, op);
    && n <= 1 && e.generation <= Now(w.book, e.grant.scope)
    && AllBacked(w, e.grant, e.receipt.validations)
    && (e.phase.Prepared? ==> n == 0 && e.potential == [])
    && (e.phase.Prepared? || e.phase.Dispatching? ==> e.observation.None?)
    && (e.phase.Observed? || e.phase.Finalized? ==>
          && e.observation.Some?
          && Honest(e.observation.value.receipt, n)
          && AllBacked(w, e.grant, e.observation.value.receipt.validations)
          && (e.observation.value.receipt.basis == Some(NotDispatched) ==>
             op !in w.frames && e.observation.value.writes == []))
    && (!e.phase.Finalized? ==> e.receipt.status.Started? && e.receipt.basis == None && !e.settled)
    && (e.phase.Finalized? ==>
          && e.receipt.status == e.observation.value.receipt.status
          && e.receipt.basis == e.observation.value.receipt.basis
          && e.receipt.validations == e.observation.value.receipt.validations)
    && (e.settled ==> e.receipt.status.Unknown?)
  }

  ghost predicate Framed(w: World, op: Op) {
    && op in w.frames && op in w.effects
    && var f, e, n := w.frames[op], w.effects[op], Calls(w, op);
    && AllBacked(w, e.grant, f.seen.receipt.validations)
    && (!f.stage.Returned? ==> f.seen.receipt.status.Started? && f.seen.receipt.basis == None)
    && (f.stage.Ready? ==> n == 0 && !e.phase.Dispatching?)
    && (f.stage.Issued? ==> n == 0 && !e.phase.Prepared? && f.seen.generation == e.generation)
    && (f.stage.Calling? ==> n == 1 && !e.phase.Prepared? && f.seen.generation == e.generation)
    && (f.stage.Returned? ==>
          && Honest(f.seen.receipt, n)
          && (f.seen.receipt.basis == Some(NotDispatched) ==> !e.phase.Dispatching? && f.seen.writes == []))
  }

  ghost predicate Valid(w: World) {
    && Bounded(w.book) && Aligned(w.book)
    && w.calls.Keys <= w.effects.Keys
    && (forall op {:trigger Told(w, op)} :: op in w.effects ==> Told(w, op))
    && (forall op {:trigger Framed(w, op)} :: op in w.frames ==> Framed(w, op))
  }

  // ------------------------------------------------------------ evolution

  function Rank(p: Phase): nat {
    match p case Prepared => 0 case Dispatching => 1 case Observed => 2 case Finalized => 3
  }

  /** What no step undoes: operations stay, keep their identity, move only
      forward, and a finalized receipt is final. */
  ghost predicate Forward(w: World, x: World, op: Op)
    requires op in w.effects
  {
    && op in x.effects
    && var e, f := w.effects[op], x.effects[op];
    && f.grant == e.grant && f.run == e.run && f.action == e.action
    && Rank(e.phase) <= Rank(f.phase)
    && Calls(w, op) <= Calls(x, op)
    && (!e.phase.Prepared? ==> f.generation == e.generation && f.potential == e.potential)
    && (e.observation.Some? ==> f.observation == e.observation)
    && (e.phase.Finalized? ==> f.receipt == e.receipt)
    && (e.settled ==> f.settled)
  }

  ghost predicate Evolves(w: World, x: World) {
    && (forall op {:trigger Forward(w, x, op)} :: op in w.effects ==> Forward(w, x, op))
    && (forall s :: Now(w.book, s) <= Now(x.book, s))
    && (forall op :: Calls(w, op) == 1 ==> Calls(x, op) == 1)
  }

  lemma StaysBacked(w: World, x: World, g: Grant, vs: seq<Evidence>)
    requires Evolves(w, x) && AllBacked(w, g, vs)
    ensures AllBacked(x, g, vs)
  {
    forall k | 0 <= k < |vs| ensures Backed(x, g, vs[k]) {
      assert Backed(w, g, vs[k]);
      assert Forward(w, x, vs[k].operation);
    }
  }

  /** An operation a step leaves alone keeps its invariant. */
  lemma UntouchedTold(w: World, x: World, op: Op)
    requires Evolves(w, x) && op in w.effects && Told(w, op)
    requires op in x.effects && x.effects[op] == w.effects[op] && Calls(x, op) == Calls(w, op)
    requires op in x.frames ==> op in w.frames
    ensures Told(x, op)
  {
    var e := w.effects[op];
    StaysBacked(w, x, e.grant, e.receipt.validations);
    if e.observation.Some? && (e.phase.Observed? || e.phase.Finalized?) {
      StaysBacked(w, x, e.grant, e.observation.value.receipt.validations);
    }
  }

  lemma UntouchedFramed(w: World, x: World, op: Op)
    requires Evolves(w, x) && op in w.frames && Framed(w, op)
    requires op in x.frames && x.frames[op] == w.frames[op]
    requires op in x.effects && x.effects[op] == w.effects[op] && Calls(x, op) == Calls(w, op)
    ensures Framed(x, op)
  {
    StaysBacked(w, x, w.effects[op].grant, w.frames[op].seen.receipt.validations);
  }

  /** A step touches at most one operation. */
  ghost predicate Only(w: World, x: World, op: Op) {
    && x.effects.Keys <= w.effects.Keys + {op} && w.effects.Keys <= x.effects.Keys
    && x.frames.Keys <= w.frames.Keys + {op}
    && x.calls.Keys <= w.calls.Keys + {op}
    && (forall o :: o in w.effects && o != op ==> x.effects[o] == w.effects[o])
    && (forall o :: o in x.frames && o != op ==> x.frames[o] == w.frames[o])
    && (forall o :: o != op ==> Calls(x, o) == Calls(w, o))
  }

  lemma OthersKeep(w: World, x: World, op: Op)
    requires Valid(w) && Evolves(w, x) && Only(w, x, op) && Bounded(x.book) && Aligned(x.book)
    requires op in x.effects && Told(x, op) && (op in x.frames ==> Framed(x, op))
    ensures Valid(x)
  {
    forall o | o in x.effects ensures Told(x, o) {
      if o != op { UntouchedTold(w, x, o); }
    }
    forall o | o in x.frames ensures Framed(x, o) {
      if o != op { assert Framed(w, o); UntouchedFramed(w, x, o); }
    }
  }

  lemma Evolved(w: World, x: World, op: Op)
    requires Valid(w) && Only(w, x, op)
    requires op in w.effects ==> Forward(w, x, op) && (Calls(w, op) == 1 ==> Calls(x, op) == 1)
    requires op !in w.effects ==> Calls(w, op) == 0
    requires forall s :: Now(w.book, s) <= Now(x.book, s)
    ensures Evolves(w, x)
  {
  }

  // ---------------------------------------------------------- frame steps

  /** What every step on one operation preserves. */
  ghost predicate Keeps(w: World, x: World, op: Op) {
    Valid(x) && Evolves(w, x) && Only(w, x, op)
  }

  lemma IntendKeeps(w: World, op: Op, grant: Grant, run: Run, action: Action)
    requires Valid(w) && op !in w.effects
    ensures Keeps(w, Intended(w, op, grant, run, action), op)
  {
    var x := Intended(w, op, grant, run, action);
    assert op in w.frames ==> Framed(w, op);
    Evolved(w, x, op);
    OthersKeep(w, x, op);
  }

  lemma SameEvolves(w: World, x: World)
    requires x.effects == w.effects && x.calls == w.calls && x.book.clock == w.book.clock
    ensures Evolves(w, x)
  {
    forall s ensures Now(w.book, s) == Now(x.book, s) {}
    forall op ensures Calls(w, op) == Calls(x, op) {}
  }

  /** A step that only moves the running frame. */
  lemma ReframedKeeps(w: World, op: Op, f: Frame)
    requires Valid(w) && op in w.frames && Framed(Reframed(w, op, f), op)
    ensures Keeps(w, Reframed(w, op, f), op)
  {
    var x := Reframed(w, op, f);
    SameEvolves(w, x);
    assert Framed(w, op);
    UntouchedTold(w, x, op);
    OthersKeep(w, x, op);
  }

  lemma SameBacked(w: World, x: World, g: Grant, vs: seq<Evidence>)
    requires x.effects == w.effects && x.calls == w.calls && AllBacked(w, g, vs)
    ensures AllBacked(x, g, vs)
  {
    forall k | 0 <= k < |vs| ensures Backed(x, g, vs[k]) { assert Backed(w, g, vs[k]); }
  }

  lemma PlanKeeps(w: World, op: Op, plan: Preflight)
    requires Valid(w) && CanPlan(w, op)
    ensures Keeps(w, Reframed(w, op, WithPlan(w.frames[op], plan)), op)
  {
    var f := WithPlan(w.frames[op], plan);
    assert Framed(w, op);
    SameBacked(w, Reframed(w, op, f), w.effects[op].grant, f.seen.receipt.validations);
    ReframedKeeps(w, op, f);
  }

  lemma RefusalKeeps(w: World, op: Op, status: Status)
    requires Valid(w) && InStage(w, op, Ready) && Refuses(status)
    ensures Keeps(w, Reframed(w, op, Refusal(w, op, status)), op)
  {
    var f := Refusal(w, op, status);
    assert Framed(w, op);
    SameBacked(w, Reframed(w, op, f), w.effects[op].grant, f.seen.receipt.validations);
    ReframedKeeps(w, op, f);
  }

  lemma CollectKeeps(w: World, op: Op, check: Op)
    requires Valid(w) && Certifies(w, op, check)
    ensures Keeps(w, Reframed(w, op, WithCheck(w.frames[op], w.effects[check].receipt.validations[0])), op)
  {
    var v := w.effects[check].receipt.validations[0];
    var f := WithCheck(w.frames[op], v);
    assert Framed(w, op) && Told(w, check);
    assert Backed(w, w.effects[op].grant, v);
    forall k | 0 <= k < |f.seen.receipt.validations|
      ensures Backed(w, w.effects[op].grant, f.seen.receipt.validations[k]) {
      assert k < |w.frames[op].seen.receipt.validations| ==>
        Backed(w, w.effects[op].grant, w.frames[op].seen.receipt.validations[k]);
    }
    SameBacked(w, Reframed(w, op, f), w.effects[op].grant, f.seen.receipt.validations);
    ReframedKeeps(w, op, f);
  }

  lemma AnswerKeeps(w: World, op: Op, outcome: Outcome)
    requires Valid(w) && InStage(w, op, Calling)
    ensures Keeps(w, Reframed(w, op, Answer(w, op, outcome)), op)
  {
    var f := Answer(w, op, outcome);
    var g, vs := w.effects[op].grant, f.seen.receipt.validations;
    assert Framed(w, op);
    forall k | 0 <= k < |vs| ensures Backed(w, g, vs[k]) {
      assert !outcome.Ran? ==> Backed(w, g, w.frames[op].seen.receipt.validations[k]);
    }
    SameBacked(w, Reframed(w, op, f), g, vs);
    ReframedKeeps(w, op, f);
  }

  lemma DispatchKeeps(w: World, op: Op, writes: seq<Path>)
    requires Valid(w) && InStage(w, op, Ready) && w.effects[op].phase.Prepared?
    ensures Keeps(w, Dispatched(w, op, writes), op)
  {
    var x := Dispatched(w, op, writes);
    assert Framed(w, op) && Told(w, op);
    Evolved(w, x, op);
    StaysBacked(w, x, w.effects[op].grant, w.frames[op].seen.receipt.validations);
    OthersKeep(w, x, op);
  }

  lemma CallKeeps(w: World, op: Op)
    requires Valid(w) && InStage(w, op, Issued)
    ensures Keeps(w, Called(w, op), op)
  {
    var x := Called(w, op);
    var e := w.effects[op];
    assert Framed(w, op) && Told(w, op);
    Evolved(w, x, op);
    StaysBacked(w, x, e.grant, w.frames[op].seen.receipt.validations);
    StaysBacked(w, x, e.grant, e.receipt.validations);
    if e.observation.Some? && (e.phase.Observed? || e.phase.Finalized?) {
      StaysBacked(w, x, e.grant, e.observation.value.receipt.validations);
    }
    OthersKeep(w, x, op);
  }

  lemma CaptureKeeps(w: World, op: Op)
    requires Valid(w) && CanCapture(w, op)
    ensures Keeps(w, Captured(w, op), op)
  {
    var x := Captured(w, op);
    assert Framed(w, op) && Told(w, op);
    Evolved(w, x, op);
    StaysBacked(w, x, w.effects[op].grant, w.frames[op].seen.receipt.validations);
    StaysBacked(w, x, w.effects[op].grant, w.effects[op].receipt.validations);
    OthersKeep(w, x, op);
  }

  lemma ReconcileKeeps(w: World, op: Op, matches: bool)
    requires Valid(w) && CanReconcile(w, op)
    ensures Keeps(w, Reconciled(w, op, matches), op)
  {
    var x := Reconciled(w, op, matches);
    assert Told(w, op);
    Evolved(w, x, op);
    StaysBacked(w, x, w.effects[op].grant, w.effects[op].receipt.validations);
    if op in w.frames {
      assert Framed(w, op);
      StaysBacked(w, x, w.effects[op].grant, w.frames[op].seen.receipt.validations);
    }
    OthersKeep(w, x, op);
  }

  // ----------------------------------------------------------- book steps

  lemma MarkedKeeps(v: Book, s: Scope, paths: set<Path>)
    requires Aligned(v)
    ensures Aligned(Marked(v, s, paths)) && Marked(v, s, paths).deps == v.deps
    ensures Now(Marked(v, s, paths), s) == Now(v, s) + 1
    ensures forall t :: t != s ==> Now(Marked(v, s, paths), t) == Now(v, t)
  {
  }

  lemma {:induction false} WrittenAllKeeps(v: Book, s: Scope, writes: seq<Path>)
    requires Aligned(v)
    ensures Aligned(WrittenAll(v, s, writes)) && WrittenAll(v, s, writes).deps == v.deps
    ensures Now(WrittenAll(v, s, writes), s) == Now(v, s) + |writes|
    ensures forall t :: t != s ==> Now(WrittenAll(v, s, writes), t) == Now(v, t)
    decreases |writes|
  {
    if writes != [] {
      var k := |writes| - 1;
      WrittenAllKeeps(v, s, writes[..k]);
      var before := WrittenAll(v, s, writes[..k]);
      MarkedKeeps(before, s, Affected(before.deps, s, writes[k]));
    }
  }

  lemma {:induction false} SpoiledAllKeeps(v: Book, s: Scope, writes: seq<Path>)
    requires Aligned(v)
    ensures Aligned(SpoiledAll(v, s, writes)) && SpoiledAll(v, s, writes).deps == v.deps
    ensures Now(SpoiledAll(v, s, writes), s) == Now(v, s) + |writes|
    ensures forall t :: t != s ==> Now(SpoiledAll(v, s, writes), t) == Now(v, t)
    decreases |writes|
  {
    if writes != [] {
      var k := |writes| - 1;
      SpoiledAllKeeps(v, s, writes[..k]);
      var before := SpoiledAll(v, s, writes[..k]);
      MarkedKeeps(before, s, Affected(before.deps, s, writes[k]) + {writes[k]});
    }
  }

  lemma SameDepsBounded(v: Book, u: Book)
    requires Bounded(v) && u.deps == v.deps
    ensures Bounded(u)
  {
    forall s: Scope ensures |Scoped(u.deps, s)| <= MAX_EDGES {
      assert |Scoped(v.deps, s)| <= MAX_EDGES;
    }
  }

  /** What a finalization leaves, without how it decides what to restore. */
  ghost predicate Concludes(w: World, op: Op, x: World) {
    && op in w.effects && w.effects[op].observation.Some?
    && var e, o := w.effects[op], w.effects[op].observation.value;
    && x.frames == w.frames && x.calls == w.calls
    && op in x.effects && x.effects == w.effects[op := x.effects[op]]
    && x.effects[op] == e.(phase := Finalized, receipt := x.effects[op].receipt)
    && x.effects[op].receipt.status == o.receipt.status && x.effects[op].receipt.basis == o.receipt.basis
    && x.effects[op].receipt.validations == o.receipt.validations
    && var v := WrittenAll(w.book, e.grant.scope, o.writes);
    && x.book.deps == v.deps && x.book.clock == v.clock && x.book.stamped == v.stamped
    && x.book.invalid.Keys <= v.invalid.Keys && forall p :: p in x.book.invalid ==> x.book.invalid[p] == v.invalid[p]
  }

  lemma FinishedConcludes(w: World, c: Case)
    requires c.op in w.effects && c.effect == w.effects[c.op] && c.effect.observation == Some(c.seen)
    ensures Concludes(w, c.op, Finished(w, c))
  {
  }

  lemma ConcludesBook(w: World, op: Op, x: World)
    requires Bounded(w.book) && Aligned(w.book) && Concludes(w, op, x)
    ensures Bounded(x.book) && Aligned(x.book)
    ensures forall s :: Now(w.book, s) <= Now(x.book, s)
  {
    var e := w.effects[op];
    var v := WrittenAll(w.book, e.grant.scope, e.observation.value.writes);
    WrittenAllKeeps(w.book, e.grant.scope, e.observation.value.writes);
    SameDepsBounded(w.book, x.book);
    forall s ensures Now(x.book, s) == Now(v, s) && Now(w.book, s) <= Now(v, s) {}
  }

  lemma ConcludesForward(w: World, op: Op, x: World)
    requires Concludes(w, op, x) && w.effects[op].phase.Observed?
    requires !w.effects[op].settled
    ensures Forward(w, x, op) && Only(w, x, op) && Calls(w, op) == Calls(x, op)
  {
  }

  lemma ConcludesEvolves(w: World, op: Op, x: World)
    requires Valid(w) && Concludes(w, op, x) && w.effects[op].phase.Observed?
    ensures Evolves(w, x) && Only(w, x, op) && Bounded(x.book) && Aligned(x.book)
  {
    ConcludesBook(w, op, x);
    assert Told(w, op);
    ConcludesForward(w, op, x);
    Evolved(w, x, op);
  }

  lemma ConcludesKeeps(w: World, op: Op, x: World)
    requires Valid(w) && Concludes(w, op, x) && w.effects[op].phase.Observed?
    ensures Valid(x) && Evolves(w, x) && Only(w, x, op)
  {
    var e := w.effects[op];
    ConcludesEvolves(w, op, x);
    assert Told(w, op);
    StaysBacked(w, x, e.grant, e.observation.value.receipt.validations);
    assert Told(x, op);
    if op in w.frames {
      assert Framed(w, op);
      StaysBacked(w, x, e.grant, w.frames[op].seen.receipt.validations);
      assert Framed(x, op);
    }
    OthersKeep(w, x, op);
  }

  lemma FinalizeKeeps(w: World, op: Op, before: Site, site: Site)
    requires Valid(w) && op in w.effects && w.effects[op].phase.Observed? && w.effects[op].observation.Some?
    ensures Keeps(w, Finished(w, CaseOf(w, op, before, site)), op)
    ensures Concludes(w, op, Finished(w, CaseOf(w, op, before, site)))
  {
    FinishedConcludes(w, CaseOf(w, op, before, site));
    ConcludesKeeps(w, op, Finished(w, CaseOf(w, op, before, site)));
  }

  lemma SettleEvolves(w: World, op: Op)
    requires Valid(w) && op in w.effects && w.effects[op].phase.Finalized? && w.effects[op].observation.Some?
             && !w.effects[op].settled
    ensures Evolves(w, Settled(w, op)) && Only(w, Settled(w, op), op)
    ensures Bounded(Settled(w, op).book) && Aligned(Settled(w, op).book)
  {
    var e := w.effects[op];
    SpoiledAllKeeps(w.book, e.grant.scope, e.observation.value.writes);
    SameDepsBounded(w.book, Settled(w, op).book);
    Evolved(w, Settled(w, op), op);
  }

  lemma SettleKeeps(w: World, op: Op)
    requires Valid(w) && op in w.effects && w.effects[op].phase.Finalized? && w.effects[op].observation.Some?
    requires w.effects[op].receipt.status.Unknown? && !w.effects[op].settled
    ensures Keeps(w, Settled(w, op), op)
  {
    var x := Settled(w, op);
    var e := w.effects[op];
    assert Told(w, op);
    SettleEvolves(w, op);
    StaysBacked(w, x, e.grant, e.receipt.validations);
    if op in w.frames {
      assert Framed(w, op);
      StaysBacked(w, x, e.grant, w.frames[op].seen.receipt.validations);
    }
    OthersKeep(w, x, op);
  }

  /** A step that touches no operation. */
  lemma QuietKeeps(w: World, x: World)
    requires Valid(w) && x.effects == w.effects && x.calls == w.calls && x.facts == w.facts
    requires x.frames == w.frames || x.frames == map[]
    requires Bounded(x.book) && Aligned(x.book) && x.book.clock == w.book.clock
    ensures Valid(x) && Evolves(w, x)
  {
    SameEvolves(w, x);
    forall o | o in x.effects ensures Told(x, o) { UntouchedTold(w, x, o); }
    forall o | o in x.frames ensures Framed(x, o) { assert Framed(w, o); UntouchedFramed(w, x, o); }
  }

  lemma StepKeeps(w: World, s: Step)
    requires Valid(w) && Enabled(w, s)
    ensures Valid(After(w, s)) && Evolves(w, After(w, s))
  {
    match s
    case Intend(op, grant, run, action) => IntendKeeps(w, op, grant, run, action);
    case Plan(op, plan) => PlanKeeps(w, op, plan);
    case Collect(op, check) => CollectKeeps(w, op, check);
    case Abort(op, status) => RefusalKeeps(w, op, status);
    case Dispatch(op, writes, _) => DispatchKeeps(w, op, writes);
    case Call(op) => CallKeeps(w, op);
    case Return(op, outcome) => AnswerKeeps(w, op, outcome);
    case Capture(op) => CaptureKeeps(w, op);
    case Reconcile(op, matches) => ReconcileKeeps(w, op, matches);
    case Finalize(op, before, site) => FinalizeKeeps(w, op, before, site);
    case Settle(op, _) => SettleKeeps(w, op);
    case Depend(dep, size) =>
      DependKeepsBounded(w.book, dep, size);
      QuietKeeps(w, After(w, s));
    case Crash => QuietKeeps(w, After(w, s));
  }

  // ----------------------------------------------------------------- runs

  lemma {:induction false} RunKeeps(ws: seq<World>, steps: seq<Step>, k: nat)
    requires IsRun(ws, steps) && k < |ws|
    ensures Valid(ws[k])
  {
    if k == 0 {
      EmptyBounded();
    } else {
      var j := k - 1;
      RunKeeps(ws, steps, j);
      StepKeeps(ws[j], steps[j]);
    }
  }

  /** In every reachable state invalidation reads every affected path: the limit of
      its query never truncates the closure. */
  lemma RunInvalidatesAll(ws: seq<World>, steps: seq<Step>, k: nat, s: Scope, from: Path)
    requires IsRun(ws, steps) && k < |ws|
    ensures |Scoped(ws[k].book.deps, s)| <= MAX_EDGES
    ensures |Affected(ws[k].book.deps, s, from)| <= READ_LIMIT
  {
    RunKeeps(ws, steps, k);
    AffectedSmall(ws[k].book.deps, s, from);
    assert |Scoped(ws[k].book.deps, s)| <= MAX_EDGES;
  }

  lemma EmptyBounded()
    ensures Valid(Empty)
  {
    forall s: Scope ensures |Scoped(Blank.deps, s)| <= MAX_EDGES { assert Scoped(Blank.deps, s) == map[]; }
  }

  lemma {:induction false} RunForward(ws: seq<World>, steps: seq<Step>, i: nat, j: nat, op: Op)
    requires IsRun(ws, steps) && i <= j < |ws| && op in ws[i].effects
    ensures Forward(ws[i], ws[j], op)
    decreases j - i
  {
    if i < j {
      var m := j - 1;
      RunForward(ws, steps, i, m, op);
      RunKeeps(ws, steps, m);
      StepKeeps(ws[m], steps[m]);
      assert Forward(ws[m], ws[j], op);
    }
  }

  /** No operation ever calls its adapter twice. */
  lemma AtMostOneCall(ws: seq<World>, steps: seq<Step>, op: Op, i: nat, j: nat)
    requires IsRun(ws, steps) && i < |steps| && j < |steps| && steps[i] == Call(op) && steps[j] == Call(op)
    ensures i == j
  {
    if i < j { CalledBefore(ws, steps, op, i, j); }
    if j < i { CalledBefore(ws, steps, op, j, i); }
  }

  lemma CalledBefore(ws: seq<World>, steps: seq<Step>, op: Op, i: nat, j: nat)
    requires IsRun(ws, steps) && i < j < |steps| && steps[i] == Call(op)
    ensures steps[j] != Call(op)
  {
    RunKeeps(ws, steps, i);
    RunKeeps(ws, steps, j);
    assert Calls(ws[i + 1], op) > 0 && op in ws[i + 1].effects;
    RunForward(ws, steps, i + 1, j, op);
    assert op in ws[j].frames ==> Framed(ws[j], op);
  }

  /** A finalized receipt is final, and at every later point it still tells the
      truth: never dispatched means never called, established means called once
      with backed evidence, unknown means neither is claimed. */
  lemma ReceiptsTellTruth(ws: seq<World>, steps: seq<Step>, i: nat, j: nat, op: Op)
    requires IsRun(ws, steps) && i <= j < |ws| && op in ws[i].effects && ws[i].effects[op].phase.Finalized?
    ensures op in ws[j].effects && ws[j].effects[op].phase.Finalized?
    ensures ws[j].effects[op].receipt == ws[i].effects[op].receipt
    ensures Honest(ws[i].effects[op].receipt, Calls(ws[j], op))
    ensures AllBacked(ws[j], ws[j].effects[op].grant, ws[i].effects[op].receipt.validations)
  {
    RunForward(ws, steps, i, j, op);
    RunKeeps(ws, steps, j);
    assert Told(ws[j], op);
  }

  // --------------------------------------------------------- conservation

  /** How many times an operation's captured writes have been invalidated. */
  function Effort(e: Effect): nat {
    if e.observation.None? then 0
    else (if e.phase.Finalized? then |e.observation.value.writes| else 0)
         + (if e.settled then |e.observation.value.writes| else 0)
  }

  ghost function Efforts(w: World, s: Scope): map<Op, nat> {
    map op | op in w.effects && w.effects[op].grant.scope == s :: Effort(w.effects[op])
  }

  /** The clock of a scope counts exactly the captured writes finalized there,
      plus once more each those of settled operations. */
  ghost predicate Counted(w: World) {
    forall s :: Now(w.book, s) == Total(Efforts(w, s))
  }

  lemma EffortsOne(w: World, x: World, op: Op, s: Scope)
    requires Only(w, x, op) && op in x.effects
    requires op in w.effects ==> x.effects[op].grant == w.effects[op].grant
    ensures s == x.effects[op].grant.scope ==> Efforts(x, s) == Efforts(w, s)[op := Effort(x.effects[op])]
    ensures s != x.effects[op].grant.scope ==> Efforts(x, s) == Efforts(w, s)
  {
  }

  /** One operation's effort moves with its scope's clock. */
  lemma CountedOne(w: World, x: World, op: Op, more: nat)
    requires Counted(w) && Only(w, x, op) && op in x.effects
    requires op in w.effects ==>
             x.effects[op].grant == w.effects[op].grant && Effort(x.effects[op]) == Effort(w.effects[op]) + more
    requires op !in w.effects ==> Effort(x.effects[op]) == more
    requires Now(x.book, x.effects[op].grant.scope) == Now(w.book, x.effects[op].grant.scope) + more
    requires forall s :: s != x.effects[op].grant.scope ==> Now(x.book, s) == Now(w.book, s)
    ensures Counted(x)
  {
    forall s ensures Now(x.book, s) == Total(Efforts(x, s)) {
      assert Now(w.book, s) == Total(Efforts(w, s));
      EffortsOne(w, x, op, s);
      if s == x.effects[op].grant.scope { TotalSet(Efforts(w, s), op, Effort(x.effects[op])); }
    }
  }

  lemma CountedSame(w: World, x: World)
    requires Counted(w) && x.effects == w.effects && x.book.clock == w.book.clock
    ensures Counted(x)
  {
    forall s ensures Now(x.book, s) == Total(Efforts(x, s)) {
      assert Now(w.book, s) == Total(Efforts(w, s));
      assert Efforts(x, s) == Efforts(w, s);
    }
  }

  lemma ConcludesCounts(w: World, op: Op, x: World)
    requires Concludes(w, op, x) && Only(w, x, op) && Counted(w) && Aligned(w.book)
    requires w.effects[op].phase.Observed? && !w.effects[op].settled
    ensures Counted(x)
  {
    var e := w.effects[op];
    var o := e.observation.value;
    WrittenAllKeeps(w.book, e.grant.scope, o.writes);
    var v := WrittenAll(w.book, e.grant.scope, o.writes);
    forall t ensures Now(x.book, t) == Now(v, t) {}
    CountedOne(w, x, op, |o.writes|);
  }

  lemma FinalizeCounts(w: World, op: Op, before: Site, site: Site)
    requires Valid(w) && op in w.effects && w.effects[op].phase.Observed? && w.effects[op].observation.Some?
             && Counted(w)
    ensures Counted(Finished(w, CaseOf(w, op, before, site)))
  {
    FinalizeKeeps(w, op, before, site);
    assert Told(w, op);
    ConcludesCounts(w, op, Finished(w, CaseOf(w, op, before, site)));
  }

  lemma SettleCounts(w: World, op: Op)
    requires Valid(w) && Counted(w) && op in w.effects && w.effects[op].phase.Finalized?
             && w.effects[op].observation.Some?
    requires w.effects[op].receipt.status.Unknown? && !w.effects[op].settled
    ensures Counted(Settled(w, op))
  {
    SettleEvolves(w, op);
    var e := w.effects[op];
    SpoiledAllKeeps(w.book, e.grant.scope, e.observation.value.writes);
    CountedOne(w, Settled(w, op), op, |e.observation.value.writes|);
  }

  /** A step that leaves the clock and adds no effort. */
  lemma EffortlessCounts(w: World, x: World, op: Op)
    requires Counted(w) && Only(w, x, op) && op in x.effects && x.book.clock == w.book.clock
             && Effort(x.effects[op]) == 0
    requires op in w.effects ==> x.effects[op].grant == w.effects[op].grant && Effort(w.effects[op]) == 0
    ensures Counted(x)
  {
    forall s ensures Now(x.book, s) == Now(w.book, s) {}
    CountedOne(w, x, op, 0);
  }

  lemma StepCounts(w: World, s: Step)
    requires Valid(w) && Enabled(w, s) && Counted(w)
    ensures Counted(After(w, s))
  {
    match s
    case Finalize(op, before, site) => FinalizeCounts(w, op, before, site);
    case Settle(op, _) => SettleCounts(w, op);
    case Intend(op, grant, run, action) =>
      IntendKeeps(w, op, grant, run, action);
      EffortlessCounts(w, Intended(w, op, grant, run, action), op);
    case Dispatch(op, writes, _) =>
      assert Told(w, op);
      DispatchKeeps(w, op, writes);
      EffortlessCounts(w, Dispatched(w, op, writes), op);
    case Capture(op) =>
      assert Told(w, op);
      CaptureKeeps(w, op);
      EffortlessCounts(w, Captured(w, op), op);
    case Reconcile(op, matches) =>
      assert Told(w, op);
      ReconcileKeeps(w, op, matches);
      EffortlessCounts(w, Reconciled(w, op, matches), op);
    case Plan(op, plan) => CountedSame(w, After(w, s));
    case Collect(op, check) => CountedSame(w, After(w, s));
    case Call(op) => CountedSame(w, After(w, s));
    case Return(op, outcome) => CountedSame(w, After(w, s));
    case Abort(op, status) => CountedSame(w, After(w, s));
    case Depend(dep, size) => CountedSame(w, After(w, s));
    case Crash => CountedSame(w, After(w, s));
  }

  /** Over every run the validity clock of each scope equals the writes of its
      finalized operations plus those of its settled ones: however often a
      finalization or settlement is retried, each captured write counts once. */
  lemma {:induction false} RunCounts(ws: seq<World>, steps: seq<Step>, k: nat)
    requires IsRun(ws, steps) && k < |ws|
    ensures Counted(ws[k])
  {
    if k == 0 {
      forall s ensures Now(Empty.book, s) == Total(Efforts(Empty, s)) { TotalEmpty(Efforts(Empty, s)); }
    } else {
      var j := k - 1;
      RunCounts(ws, steps, j);
      RunKeeps(ws, steps, j);
      StepCounts(ws[j], steps[j]);
    }
  }

  // ---------------------------------------------------------------- fence

  /** An unsettled operation that announced live writes. */
  predicate Claims(e: Effect) {
    Unsettled(e) && e.potential != []
  }

  ghost predicate OneOwner(w: World) {
    forall a, b :: a in w.effects && b in w.effects && Claims(w.effects[a]) && Claims(w.effects[b]) ==> a == b
  }

  lemma NoNewClaim(w: World, s: Step, op: Op)
    requires Valid(w) && Enabled(w, s) && op in After(w, s).effects && Claims(After(w, s).effects[op])
    ensures (op in w.effects && Claims(w.effects[op])) || (s.Dispatch? && s.op == op && s.writes != [])
  {
    assert op in w.effects ==> Told(w, op);
    if s.Finalize? { FinishedConcludes(w, CaseOf(w, s.op, s.before, s.site)); }
  }

  /** Every run keeps at most one unsettled owner of live workspace writes. */
  lemma {:induction false} RunFenced(ws: seq<World>, steps: seq<Step>, k: nat)
    requires IsRun(ws, steps) && k < |ws|
    ensures OneOwner(ws[k])
  {
    if k > 0 {
      var j := k - 1;
      RunFenced(ws, steps, j);
      RunKeeps(ws, steps, j);
      var w, s := ws[j], steps[j];
      forall a, b | a in ws[k].effects && b in ws[k].effects && Claims(ws[k].effects[a]) && Claims(ws[k].effects[b])
        ensures a == b
      {
        NoNewClaim(w, s, a);
        NoNewClaim(w, s, b);
        if s.Dispatch? && s.writes != [] {
          assert a in w.effects && a != s.op && Claims(w.effects[a]) ==> Holds(w.effects[a]);
          assert b in w.effects && b != s.op && Claims(w.effects[b]) ==> Holds(w.effects[b]);
        }
      }
    }
  }

  // ----------------------------------------------------------- settlement

  /** A path or anything that depends on it. */
  ghost predicate Under(v: Book, s: Scope, from: Path, q: Path) {
    q == from || q in Affected(v.deps, s, from)
  }

  lemma MarkedRaises(v: Book, s: Scope, paths: set<Path>, q: Path, floor: nat)
    requires Aligned(v) && floor <= Now(v, s)
    requires q in paths || (Place(s, q) in v.invalid && v.invalid[Place(s, q)] > floor)
    ensures Place(s, q) in Marked(v, s, paths).invalid && Marked(v, s, paths).invalid[Place(s, q)] > floor
  {
  }

  /** An artifact whose open invalidation is newer than a generation. */
  ghost predicate Newer(v: Book, s: Scope, q: Path, floor: nat) {
    Place(s, q) in v.invalid && v.invalid[Place(s, q)] > floor
  }

  lemma SpoiledReaches(v: Book, s: Scope, from: Path, q: Path, floor: nat)
    requires Aligned(v) && floor <= Now(v, s)
    requires Under(v, s, from, q) || Newer(v, s, q, floor)
    ensures Newer(Spoiled(v, s, from), s, q, floor)
  {
    MarkedRaises(v, s, Affected(v.deps, s, from) + {from}, q, floor);
  }

  lemma UnderSame(v: Book, u: Book, s: Scope, from: Path, q: Path)
    requires u.deps == v.deps && Under(v, s, from, q)
    ensures Under(u, s, from, q)
  {
  }

  lemma {:induction false} SpoiledAllReaches(v: Book, s: Scope, writes: seq<Path>, from: Path, q: Path)
    requires Aligned(v) && from in writes && Under(v, s, from, q)
    ensures Newer(SpoiledAll(v, s, writes), s, q, Now(v, s))
    decreases |writes|
  {
    var early, last := writes[..|writes| - 1], writes[|writes| - 1];
    var before := SpoiledAll(v, s, early);
    SpoiledAllKeeps(v, s, early);
    if from in early {
      SpoiledAllReaches(v, s, early, from, q);
    } else {
      assert writes == early + [last];
      UnderSame(v, before, s, from, q);
    }
    SpoiledReaches(before, s, last, q, Now(v, s));
  }

  /** Settling an operation leaves each of its writes and all their dependents
      invalid at a generation newer than any check dispatched before. */
  lemma SettlementDistrusts(w: World, s: Step, from: Path, q: Path, other: Op)
    requires Valid(w) && s.Settle? && Enabled(w, s)
    requires from in w.effects[s.op].observation.value.writes && Under(w.book, w.effects[s.op].grant.scope, from, q)
    requires other in w.effects && w.effects[other].grant.scope == w.effects[s.op].grant.scope
    ensures Newer(After(w, s).book, w.effects[s.op].grant.scope, q, w.effects[other].generation)
  {
    var e := w.effects[s.op];
    assert Told(w, other);
    SpoiledAllReaches(w.book, e.grant.scope, e.observation.value.writes, from, q);
  }
}
