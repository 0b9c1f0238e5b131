/** The hierarchical spending bound, kept by every run of the ledger. */
module Spending {
  import opened Outcomes
  import opened Totals
  import opened Ledger
  import opened Forest

  // ------------------------------------------------------------ invariants

  /** A permit belongs to its allocation's grant, and until it is settled it
      charges exactly what it reserved. */
  ghost predicate Sound(t: Tables, p: Id)
    requires p in t.permits
  {
    var row := t.permits[p];
    && row.allocation in t.allocs && t.allocs[row.allocation].grant == row.grant
    && (!row.state.Settled? ==> row.tokens == Tokens(row.request) && row.cost == row.request.cost)
    && (row.state.Settled? <==> row.usage.Some? && row.usage.value.complete)
    && (row.state.Reserved? || row.state.Released? ==> row.usage == None)
  }

  /** A charge, counted no higher than its reservation. */
  function Capped(p: Permit, unit: Unit): nat {
    Min(Charge(p, unit), Reservation(p.request, unit))
  }

  /** How far settled usage went past its reservation. */
  function Overrun(p: Permit, unit: Unit): nat {
    Less(Charge(p, unit), Reservation(p.request, unit))
  }

  function CappedCharges(t: Tables, top: AllocId, unit: Unit): map<Id, nat> {
    map p | p in t.permits && Counted(t, p, top) :: Capped(t.permits[p], unit)
  }

  function Overruns(t: Tables, top: AllocId, unit: Unit): map<Id, nat> {
    map p | p in t.permits && Counted(t, p, top) :: Overrun(t.permits[p], unit)
  }

  ghost predicate Bounded(t: Tables, top: AllocId)
    requires top in t.allocs
  {
    && |LivePermits(t, top)| <= t.allocs[top].budget.calls
    && forall unit: Unit :: Total(CappedCharges(t, top, unit)) <= Ceiling(t.allocs[top].budget, unit)
  }

  ghost predicate Accounts(t: Tables) {
    && WellFormed(t)
    && (forall p {:trigger Sound(t, p)} :: p in t.permits ==> Sound(t, p))
    && (forall top {:trigger Bounded(t, top)} :: top in t.allocs ==> Bounded(t, top))
  }

  // --------------------------------------------------------------- framing

  lemma CountedUnder(t: Tables, p: Id, top: AllocId)
    requires WellFormed(t) && p in t.permits && Sound(t, p) && top in t.allocs
    ensures Counted(t, p, top) <==> !t.permits[p].state.Released? && Under(t, t.permits[p].allocation, top)
  {
    CountsFamily(t, t.permits[p].grant, t.permits[p].allocation, top);
  }

  /** Growing the forest changes no account: old ones count the same permits, new ones none. */
  lemma SameCount(t: Tables, u: Tables, p: Id, top: AllocId)
    requires WellFormed(t) && WellFormed(u) && Extends(t, u) && u.permits == t.permits
    requires p in t.permits && Sound(t, p) && top in u.allocs
    ensures Sound(u, p)
    ensures Counted(u, p, top) <==> top in t.allocs && Counted(t, p, top)
  {
    var id := t.permits[p].allocation;
    assert WellPlaced(t, id);
    ChainStays(t, u, id);
    CountedUnder(u, p, top);
    ChainShape(t.allocs, id, MAX_CHAIN);
    if top in t.allocs { CountedUnder(t, p, top); }
  }

  lemma SameBound(t: Tables, u: Tables, top: AllocId)
    requires Accounts(t) && WellFormed(u) && Extends(t, u) && u.permits == t.permits && top in u.allocs
    ensures Bounded(u, top)
  {
    forall p | p in t.permits ensures Counted(u, p, top) <==> top in t.allocs && Counted(t, p, top) {
      SameCount(t, u, p, top);
    }
    if top in t.allocs {
      assert Bounded(t, top);
      assert LivePermits(u, top) == LivePermits(t, top);
      forall unit: Unit ensures Total(CappedCharges(u, top, unit)) <= Ceiling(u.allocs[top].budget, unit) {
        assert CappedCharges(u, top, unit) == CappedCharges(t, top, unit);
      }
    } else {
      assert LivePermits(u, top) == {};
      forall unit: Unit ensures Total(CappedCharges(u, top, unit)) <= Ceiling(u.allocs[top].budget, unit) {
        TotalEmpty(CappedCharges(u, top, unit));
      }
    }
  }

  lemma GrowKeeps(t: Tables, u: Tables)
    requires Accounts(t) && WellFormed(u) && Extends(t, u) && u.permits == t.permits
    ensures Accounts(u)
  {
    forall p | p in u.permits ensures Sound(u, p) { SameCount(t, u, p, t.permits[p].allocation); }
    forall top | top in u.allocs ensures Bounded(u, top) { SameBound(t, u, top); }
  }

  // --------------------------------------------------------- permit changes

  /** One permit's row changed in place. */
  lemma RowCount(t: Tables, p: Id, row: Permit, q: Id, top: AllocId)
    requires p in t.permits && q in t.permits && row.grant == t.permits[p].grant
             && row.allocation == t.permits[p].allocation
    ensures var u := t.(permits := t.permits[p := row]);
            Counted(u, q, top) <==>
              if q == p then !row.state.Released? && Counts(t, row.grant, row.allocation, top) else Counted(t, q, top)
  {
  }

  /** A row whose charge did not rise above what it was capped at. */
  lemma RowBound(t: Tables, p: Id, row: Permit, top: AllocId)
    requires p in t.permits && row.grant == t.permits[p].grant && row.allocation == t.permits[p].allocation
             && row.request == t.permits[p].request
    requires t.permits[p].state.Released? ==> row.state.Released?
    requires forall unit: Unit :: Capped(row, unit) <= Capped(t.permits[p], unit)
    requires top in t.allocs && Bounded(t, top)
    ensures Bounded(t.(permits := t.permits[p := row]), top)
  {
    var u := t.(permits := t.permits[p := row]);
    forall q | q in t.permits ensures Counted(u, q, top) ==> Counted(t, q, top) { RowCount(t, p, row, q, top); }
    assert LivePermits(u, top) <= LivePermits(t, top);
    SubsetFits(LivePermits(u, top), LivePermits(t, top));
    forall unit: Unit ensures Total(CappedCharges(u, top, unit)) <= Ceiling(u.allocs[top].budget, unit) {
      TotalMonotone(CappedCharges(u, top, unit), CappedCharges(t, top, unit));
    }
  }

  lemma {:induction false} SubsetFits(a: set<Id>, b: set<Id>)
    requires a <= b
    ensures |a| <= |b|
  {
    assert b == a + (b - a);
  }

  lemma RowKeeps(t: Tables, p: Id, row: Permit)
    requires Accounts(t)
    requires p in t.permits && row.grant == t.permits[p].grant && row.allocation == t.permits[p].allocation
             && row.request == t.permits[p].request
    requires t.permits[p].state.Released? ==> row.state.Released?
    requires forall unit: Unit :: Capped(row, unit) <= Capped(t.permits[p], unit)
    requires Sound(t.(permits := t.permits[p := row]), p)
    ensures Accounts(t.(permits := t.permits[p := row]))
  {
    var u := t.(permits := t.permits[p := row]);
    assert Extends(t, u);
    ReshapedKeeps(t, u);
    forall q | q in u.permits ensures Sound(u, q) { assert Sound(t, q); }
    forall top | top in u.allocs ensures Bounded(u, top) { RowBound(t, p, row, top); }
  }

  lemma NewCount(t: Tables, p: Id, row: Permit, top: AllocId)
    requires p !in t.permits
    ensures var u := t.(permits := t.permits[p := row]);
            && (forall q :: q in t.permits ==> (Counted(u, q, top) <==> Counted(t, q, top)))
            && (Counted(u, p, top) <==> !row.state.Released? && Counts(t, row.grant, row.allocation, top))
  {
  }

  lemma NewUncounted(t: Tables, p: Id, row: Permit, top: AllocId)
    requires p !in t.permits && top in t.allocs && Bounded(t, top)
             && !Counted(t.(permits := t.permits[p := row]), p, top)
    ensures Bounded(t.(permits := t.permits[p := row]), top)
  {
    var u := t.(permits := t.permits[p := row]);
    NewCount(t, p, row, top);
    assert LivePermits(u, top) == LivePermits(t, top);
    forall unit: Unit ensures Total(CappedCharges(u, top, unit)) <= Ceiling(u.allocs[top].budget, unit) {
      assert CappedCharges(u, top, unit) == CappedCharges(t, top, unit);
    }
  }

  lemma NewCapped(t: Tables, p: Id, row: Permit, top: AllocId, unit: Unit)
    requires p !in t.permits && Counted(t.(permits := t.permits[p := row]), p, top)
    ensures CappedCharges(t.(permits := t.permits[p := row]), top, unit) ==
            CappedCharges(t, top, unit)[p := Capped(row, unit)]
  {
    NewCount(t, p, row, top);
  }

  lemma CappedBelow(t: Tables, top: AllocId, unit: Unit)
    ensures Total(CappedCharges(t, top, unit)) <= Total(Charges(t, top, unit))
  {
    TotalMonotone(CappedCharges(t, top, unit), Charges(t, top, unit));
  }

  lemma NewCharge(t: Tables, p: Id, row: Permit, top: AllocId, unit: Unit)
    requires p !in t.permits && Counted(t.(permits := t.permits[p := row]), p, top)
    requires Capped(row, unit) == Charge(row, unit)
    ensures Total(CappedCharges(t.(permits := t.permits[p := row]), top, unit)) <=
            Total(Charges(t, top, unit)) + Charge(row, unit)
  {
    NewCapped(t, p, row, top, unit);
    TotalSet(CappedCharges(t, top, unit), p, Charge(row, unit));
    CappedBelow(t, top, unit);
  }

  /** A reservation of nothing never raises what is charged. */
  lemma NewNothing(t: Tables, p: Id, row: Permit, top: AllocId, unit: Unit)
    requires p !in t.permits && Counted(t.(permits := t.permits[p := row]), p, top) && Capped(row, unit) == 0
    ensures Total(CappedCharges(t.(permits := t.permits[p := row]), top, unit)) == Total(CappedCharges(t, top, unit))
  {
    NewCapped(t, p, row, top, unit);
    TotalSet(CappedCharges(t, top, unit), p, 0);
  }

  lemma FitsUnder(t: Tables, row: Permit, top: AllocId, unit: Unit)
    requires top in t.allocs && Fits(t, top, row.tokens, row.cost)
    ensures Charge(row, unit) == 0
            || Total(Charges(t, top, unit)) + Charge(row, unit) <= Ceiling(t.allocs[top].budget, unit)
    ensures |LivePermits(t, top)| < t.allocs[top].budget.calls
  {
  }

  lemma NewTotal(t: Tables, p: Id, row: Permit, top: AllocId, unit: Unit)
    requires p !in t.permits && top in t.allocs && Bounded(t, top)
             && Counted(t.(permits := t.permits[p := row]), p, top)
    requires row.tokens == Tokens(row.request) && row.cost == row.request.cost && Fits(t, top, row.tokens, row.cost)
    ensures Total(CappedCharges(t.(permits := t.permits[p := row]), top, unit)) <= Ceiling(t.allocs[top].budget, unit)
  {
    FitsUnder(t, row, top, unit);
    if Charge(row, unit) == 0 { NewNothing(t, p, row, top, unit); } else { NewCharge(t, p, row, top, unit); }
  }

  lemma NewCounted(t: Tables, p: Id, row: Permit, top: AllocId)
    requires p !in t.permits && top in t.allocs && Bounded(t, top)
             && Counted(t.(permits := t.permits[p := row]), p, top)
    requires row.tokens == Tokens(row.request) && row.cost == row.request.cost && Fits(t, top, row.tokens, row.cost)
    ensures Bounded(t.(permits := t.permits[p := row]), top)
  {
    var u := t.(permits := t.permits[p := row]);
    NewCount(t, p, row, top);
    assert LivePermits(u, top) == LivePermits(t, top) + {p};
    FitsUnder(t, row, top, TokenUnit);
    forall unit: Unit ensures Total(CappedCharges(u, top, unit)) <= Ceiling(u.allocs[top].budget, unit) {
      NewTotal(t, p, row, top, unit);
    }
  }

  /** A new permit fits every account it is charged to. */
  lemma NewBound(t: Tables, p: Id, row: Permit, top: AllocId)
    requires Accounts(t) && p !in t.permits && row.allocation in t.allocs && t.allocs[row.allocation].grant == row.grant
    requires row.tokens == Tokens(row.request) && row.cost == row.request.cost
    requires top in t.allocs && (Under(t, row.allocation, top) ==> Fits(t, top, row.tokens, row.cost))
    ensures Bounded(t.(permits := t.permits[p := row]), top)
  {
    assert Bounded(t, top);
    NewCount(t, p, row, top);
    CountsFamily(t, row.grant, row.allocation, top);
    if Counted(t.(permits := t.permits[p := row]), p, top) { NewCounted(t, p, row, top); } else {
      NewUncounted(t, p, row, top);
    }
  }

  lemma NewKeeps(u: Tables, p: Id, row: Permit)
    requires Accounts(u) && p !in u.permits && row.allocation in u.allocs && u.allocs[row.allocation].grant == row.grant
    requires row.tokens == Tokens(row.request) && row.cost == row.request.cost && row.usage == None
             && (row.state.Reserved? || row.state.Dispatched?)
    requires Admits(u, row.allocation, row.tokens, row.cost)
    ensures Accounts(u.(permits := u.permits[p := row]))
  {
    var x := u.(permits := u.permits[p := row]);
    assert Extends(u, x);
    ReshapedKeeps(u, x);
    forall top | top in x.allocs ensures Bounded(x, top) {
      var c := Ancestry(u, row.allocation).value;
      if Under(u, row.allocation, top) {
        var k :| 0 <= k < |c| && c[k] == top;
        assert Fits(u, c[k], row.tokens, row.cost);
      }
      NewBound(u, p, row, top);
    }
    forall q | q in x.permits ensures Sound(x, q) { assert q != p ==> Sound(u, q); }
  }

  lemma PermittedKeeps(t: Tables, run: Id, q: Request, within: AllocId, permit: Id, now: Millis)
    requires Accounts(t) && permit !in t.permits && CanReserve(t, run, q, within, now)
    ensures Accounts(Permitted(t, run, q, within, permit, now))
  {
    var (u, id) := Charging(t, run, q, within, now).value;
    ChargingKeeps(t, run, q, within, now);
    GrowKeeps(t, u);
    NewKeeps(u, permit, Issued(t, run, q, id));
  }

  lemma MovedKeeps(t: Tables, p: Id, state: State)
    requires Accounts(t) && p in t.permits && t.permits[p].usage == None
             && (state.Released? || (state.Dispatched? && t.permits[p].state.Reserved?))
    ensures Accounts(PermitMoved(t, p, state))
  {
    assert Sound(t, p);
    RowKeeps(t, p, t.permits[p].(state := state));
  }

  lemma ReportedKeeps(t: Tables, run: Id, p: Id, usage: Usage)
    requires Accounts(t) && Reported(t, run, p, usage).Ok?
    ensures Accounts(Reported(t, run, p, usage).value)
  {
    var u := Reported(t, run, p, usage).value;
    if u != t {
      assert Sound(t, p);
      RowKeeps(t, p, u.permits[p]);
      assert u == t.(permits := t.permits[p := u.permits[p]]);
    }
  }

  lemma AllocatedKeeps(t: Tables, g: Id, name: Id, above: AllocId, note: Label, budget: Budget, now: Millis)
    requires Accounts(t) && AllocateIn(t, g, Named(name), above, note, budget, now).Ok?
    ensures Accounts(AllocateIn(t, g, Named(name), above, note, budget, now).value)
  {
    AllocateInKeeps(t, g, Named(name), above, note, budget, now);
    AllocateInSame(t, g, Named(name), above, note, budget, now);
    GrowKeeps(t, AllocateIn(t, g, Named(name), above, note, budget, now).value);
  }

  lemma StepAccounts(t: Tables, s: Step)
    requires Accounts(t) && Enabled(t, s)
    ensures Accounts(After(t, s))
  {
    if Quiet(s) {
      QuietCalm(t, s);
      ReshapedKeeps(t, After(t, s));
      GrowKeeps(t, After(t, s));
    } else {
      match s
      case OpenRoot(g) =>
        WithRootKeeps(t, g);
        GrowKeeps(t, WithRoot(t, g));
      case Allocate(g, name, above, note, budget, now) => AllocatedKeeps(t, g, name, above, note, budget, now);
      case Begin(run, g, pinned, wanted, now) =>
        BegunForest(t, run, g, pinned, wanted, now);
        BegunSame(t, run, g, pinned, wanted, now);
        GrowKeeps(t, Begun(t, run, g, pinned, wanted, now).value);
      case Reserve(run, request, within, permit, now) => PermittedKeeps(t, run, request, within, permit, now);
      case Send(_, p, _) =>
        assert Sound(t, p);
        MovedKeeps(t, p, Dispatched);
      case Release(_, p) =>
        assert Sound(t, p);
        MovedKeeps(t, p, Released);
      case Report(run, p, usage) => ReportedKeeps(t, run, p, usage);
      case Enqueue(g, parent, subject, item, now) =>
        EnqueueMeans(t, g, parent, subject, item, now);
        EnqueuedForest(t, g, parent, subject, item);
        GrowKeeps(t, Enqueued(t, g, parent, subject, item));
      case Graft(run, within, g, budget, now) =>
        GraftForest(t, run, within, g, budget, now);
        GrowKeeps(t, Grafted(t, within, g, budget));
      case _ =>
    }
  }

  lemma {:induction false} RunAccounts(ts: seq<Tables>, steps: seq<Step>, k: nat)
    requires IsRun(ts, steps) && k < |ts|
    ensures Accounts(ts[k])
  {
    if k > 0 {
      var j := k - 1;
      RunAccounts(ts, steps, j);
      StepAccounts(ts[j], steps[j]);
    }
  }

  // ------------------------------------------------------------- the bound

  /** In every reachable state, for every allocation: the permits of its subtree
      that were not released number at most its call ceiling, and what they charge
      is at most its ceiling plus what settled usage overran its reservations. */
  lemma SpendingBound(ts: seq<Tables>, steps: seq<Step>, k: nat, top: AllocId, unit: Unit)
    requires IsRun(ts, steps) && k < |ts| && top in ts[k].allocs
    ensures |LivePermits(ts[k], top)| <= ts[k].allocs[top].budget.calls
    ensures Total(Charges(ts[k], top, unit)) <=
            Ceiling(ts[k].allocs[top].budget, unit) + Total(Overruns(ts[k], top, unit))
    ensures forall p :: p in ts[k].permits && Overrun(ts[k].permits[p], unit) > 0 ==> ts[k].permits[p].state.Settled?
  {
    var t := ts[k];
    RunAccounts(ts, steps, k);
    assert Bounded(t, top);
    TotalAdds(Charges(t, top, unit), CappedCharges(t, top, unit), Overruns(t, top, unit));
    forall p | p in t.permits && Overrun(t.permits[p], unit) > 0 ensures t.permits[p].state.Settled? {
      assert Sound(t, p);
    }
  }

  /** When no settled usage overran its reservation, spending is within the ceiling. */
  lemma HonestSpending(ts: seq<Tables>, steps: seq<Step>, k: nat, top: AllocId, unit: Unit)
    requires IsRun(ts, steps) && k < |ts| && top in ts[k].allocs
    requires forall p :: p in ts[k].permits && Counted(ts[k], p, top) ==>
             Charge(ts[k].permits[p], unit) <= Reservation(ts[k].permits[p].request, unit)
    ensures Total(Charges(ts[k], top, unit)) <= Ceiling(ts[k].allocs[top].budget, unit)
  {
    SpendingBound(ts, steps, k, top, unit);
    AllZero(Overruns(ts[k], top, unit));
  }

  lemma {:induction false} AllZero(m: map<Id, nat>)
    requires forall k :: k in m ==> m[k] == 0
    ensures Total(m) == 0
    decreases m.Keys
  {
    if m.Keys != {} {
      var k :| k in m;
      TotalWithout(m, k);
      AllZero(m - {k});
    }
  }

  // ----------------------------------------------------- one permit per call

  predicate CallOnce(t: Tables, p: Id, q: Id) {
    && p in t.permits && q in t.permits
    && t.permits[p].run == t.permits[q].run && t.permits[p].request.call == t.permits[q].request.call
    && t.permits[p].request.call.Some?
    ==> p == q
  }

  /** Within a run, no provider call has two permits. */
  ghost predicate CallsOnce(t: Tables) {
    forall p, q :: CallOnce(t, p, q)
  }

  lemma PermittedCalls(t: Tables, run: Id, r: Request, within: AllocId, permit: Id, now: Millis)
    requires CallsOnce(t) && permit !in t.permits && CanReserve(t, run, r, within, now)
    requires Charging(t, run, r, within, now).value.0.permits == t.permits
    ensures CallsOnce(Permitted(t, run, r, within, permit, now))
  {
    var u := Permitted(t, run, r, within, permit, now);
    forall p, q ensures CallOnce(u, p, q) {
      assert CallOnce(t, p, q);
      if r.call.Some? {
        assert !Previous(t, run, r.call.value, p) && !Previous(t, run, r.call.value, q);
      }
    }
  }

  lemma RowCalls(t: Tables, p: Id, row: Permit)
    requires CallsOnce(t) && p in t.permits && row.run == t.permits[p].run && row.request == t.permits[p].request
    ensures CallsOnce(t.(permits := t.permits[p := row]))
  {
    var u := t.(permits := t.permits[p := row]);
    forall a, b ensures CallOnce(u, a, b) { assert CallOnce(t, a, b); }
  }

  lemma StepCalls(t: Tables, s: Step)
    requires WellFormed(t) && CallsOnce(t) && Enabled(t, s)
    ensures CallsOnce(After(t, s))
  {
    if Unpaid(s) {
      UnpaidSame(t, s);
      forall p, q ensures CallOnce(After(t, s), p, q) { assert CallOnce(t, p, q); }
    } else if s.Reserve? {
      ChargingKeeps(t, s.run, s.request, s.within, s.now);
      PermittedCalls(t, s.run, s.request, s.within, s.permit, s.now);
    } else {
      var row := After(t, s).permits[s.permit];
      RowCalls(t, s.permit, row);
      assert After(t, s) == t.(permits := t.permits[s.permit := row]);
    }
  }

  /** In every reachable state a run's call has at most one permit, whatever was
      retried, released or settled in between. */
  lemma {:induction false} RunCalls(ts: seq<Tables>, steps: seq<Step>, k: nat)
    requires IsRun(ts, steps) && k < |ts|
    ensures CallsOnce(ts[k])
  {
    if k > 0 {
      var j := k - 1;
      RunCalls(ts, steps, j);
      RunForest(ts, steps, j);
      StepCalls(ts[j], steps[j]);
    }
  }

  // ------------------------------------------------- the published allowance

  /** The componentwise minimum, over an allocation and its ancestors, of what
      each has left: the allowance the ledger publishes. */
  ghost function Remaining(t: Tables, c: seq<AllocId>): Budget
    requires c != [] && forall k :: 0 <= k < |c| ==> c[k] in t.allocs
  {
    if |c| == 1 then Left(t, c[0]) else Meet(Left(t, c[0]), Remaining(t, c[1..]))
  }

  function Meet(a: Budget, b: Budget): Budget {
    Budget(Min(a.calls, b.calls), Min(a.items, b.items), Min(a.depth, b.depth),
           Min(a.tokens, b.tokens), Min(a.cost, b.cost), Min(a.deadline, b.deadline))
  }

  lemma {:induction false} RemainingFits(t: Tables, c: seq<AllocId>, tokens: nat, cost: nat)
    requires c != [] && forall k :: 0 <= k < |c| ==> c[k] in t.allocs
    ensures (forall k :: 0 <= k < |c| ==> Fits(t, c[k], tokens, cost))
            <==> Remaining(t, c).calls > 0 && tokens <= Remaining(t, c).tokens && cost <= Remaining(t, c).cost
  {
    if |c| > 1 {
      RemainingFits(t, c[1..], tokens, cost);
      assert (forall k :: 0 <= k < |c[1..]| ==> Fits(t, c[1..][k], tokens, cost)) <==>
        (forall k :: 1 <= k < |c| ==> Fits(t, c[k], tokens, cost)) by {
        assert forall k :: 1 <= k < |c| ==> c[k] == c[1..][k - 1];
      }
    }
  }

  /** For an open allocation inside an active run, whether it is the run's own, one
      chosen by the host or the child of a compaction, a new permit is admitted
      exactly when it fits the published allowance. */
  lemma AllowanceAdmits(t: Tables, run: Id, r: Request, within: AllocId, now: Millis)
    requires WellFormed(t) && Active(t, run, now) && Tokens(r) <= RANGE && r.cost <= RANGE && !Known(t, run, r)
    requires Charging(t, run, r, within, now).Ok?
    requires var (u, id) := Charging(t, run, r, within, now).value;
             id in u.allocs && u.allocs[id].grant == t.runs[run].grant && Open(u, id, now) && Under(u, id, RunOf(run))
    ensures var (u, id) := Charging(t, run, r, within, now).value;
            var c := Ancestry(u, id).value;
            && c != [] && (forall k :: 0 <= k < |c| ==> c[k] in u.allocs)
            && (CanReserve(t, run, r, within, now)
                <==> Remaining(u, c).calls > 0 && Tokens(r) <= Remaining(u, c).tokens && r.cost <= Remaining(u, c).cost)
  {
    var (u, id) := Charging(t, run, r, within, now).value;
    ChainShape(u.allocs, id, MAX_CHAIN);
    RemainingFits(u, Ancestry(u, id).value, Tokens(r), r.cost);
  }

  /** The allowance is within the ceiling of the allocation and of every ancestor,
      so a subject root funded by it stays within the case it is grafted under. */
  lemma {:induction false} RemainingWithin(t: Tables, c: seq<AllocId>, k: nat)
    requires c != [] && forall j :: 0 <= j < |c| ==> c[j] in t.allocs
    requires k < |c|
    ensures Within(Remaining(t, c), t.allocs[c[k]].budget)
  {
    if k > 0 {
      RemainingWithin(t, c[1..], k - 1);
      assert c[1..][k - 1] == c[k];
    }
  }
}
