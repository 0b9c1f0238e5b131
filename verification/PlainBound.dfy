/** The plain bound "spent is at most the ceiling": when each usage report keeps
    it, when a run keeps it, and a run that does not. */
module PlainBound {
  import opened Outcomes
  import opened Totals
  import opened Ledger
  import opened Forest
  import opened Spending

  ghost predicate Plain(t: Tables, top: AllocId, unit: Unit)
    requires top in t.allocs
  {
    Total(Charges(t, top, unit)) <= Ceiling(t.allocs[top].budget, unit)
  }

  function Amount(usage: Usage, unit: Unit): nat {
    if unit.TokenUnit? then usage.input + usage.output else usage.cost
  }

  /** The report that settles a permit counted under `top`. */
  predicate SettlesPermit(t: Tables, s: Step, top: AllocId) {
    && s.Report? && s.permit in t.permits && t.permits[s.permit].usage.None? && s.usage.complete
    && top in t.allocs && Counted(t, s.permit, top)
  }

  /** What can be compared before settling: the charges with this permit's
      reservation replaced by the amount used. */
  ghost predicate Affordable(t: Tables, p: Id, usage: Usage, top: AllocId, unit: Unit)
    requires p in t.permits && top in t.allocs
  {
    Total(Charges(t, top, unit)) - Reservation(t.permits[p].request, unit) + Amount(usage, unit) <=
      Ceiling(t.allocs[top].budget, unit)
  }

  ghost predicate Guarded(t: Tables, s: Step, top: AllocId, unit: Unit) {
    SettlesPermit(t, s, top) ==> Affordable(t, s.permit, s.usage, top, unit)
  }

  // ------------------------------------------------------- one permit's row

  /** Replacing a counted row by one that is still counted moves the total by the
      difference of their charges. */
  lemma RowTotal(t: Tables, p: Id, row: Permit, top: AllocId, unit: Unit)
    requires Counted(t, p, top) && row.grant == t.permits[p].grant && row.allocation == t.permits[p].allocation
             && !row.state.Released?
    ensures Total(Charges(t.(permits := t.permits[p := row]), top, unit)) + Charge(t.permits[p], unit)
            == Total(Charges(t, top, unit)) + Charge(row, unit)
  {
    var u := t.(permits := t.permits[p := row]);
    forall q | q in t.permits ensures Counted(u, q, top) <==> Counted(t, q, top) { RowCount(t, p, row, q, top); }
    assert Charges(u, top, unit) == Charges(t, top, unit)[p := Charge(row, unit)];
    TotalSet(Charges(t, top, unit), p, Charge(row, unit));
  }

  /** A row that charges no more, or is released, lowers the total or keeps it. */
  lemma RowLowers(t: Tables, p: Id, row: Permit, top: AllocId, unit: Unit)
    requires p in t.permits && row.grant == t.permits[p].grant && row.allocation == t.permits[p].allocation
    requires t.permits[p].state.Released? ==> row.state.Released?
    requires Charge(row, unit) <= Charge(t.permits[p], unit)
    ensures Total(Charges(t.(permits := t.permits[p := row]), top, unit)) <= Total(Charges(t, top, unit))
  {
    var u := t.(permits := t.permits[p := row]);
    forall q | q in t.permits ensures Counted(u, q, top) ==> Counted(t, q, top) { RowCount(t, p, row, q, top); }
    TotalMonotone(Charges(u, top, unit), Charges(t, top, unit));
  }

  lemma RowUncounted(t: Tables, p: Id, row: Permit, top: AllocId, unit: Unit)
    requires p in t.permits && row.grant == t.permits[p].grant && row.allocation == t.permits[p].allocation
    requires t.permits[p].state.Released? ==> row.state.Released?
    requires !Counted(t, p, top)
    ensures Charges(t.(permits := t.permits[p := row]), top, unit) == Charges(t, top, unit)
  {
    var u := t.(permits := t.permits[p := row]);
    forall q | q in t.permits ensures Counted(u, q, top) <==> Counted(t, q, top) { RowCount(t, p, row, q, top); }
  }

  /** The exact condition, for both units: after the report that settles a permit
      the bound holds if and only if the amount was affordable. */
  lemma SettledPlain(t: Tables, s: Step, top: AllocId, unit: Unit)
    requires Accounts(t) && Enabled(t, s) && SettlesPermit(t, s, top)
    ensures top in After(t, s).allocs
    ensures Plain(After(t, s), top, unit) <==> Affordable(t, s.permit, s.usage, top, unit)
  {
    assert Sound(t, s.permit);
    RowTotal(t, s.permit, SettledRow(t.permits[s.permit], s.usage), top, unit);
  }

  function SettledRow(row: Permit, usage: Usage): Permit {
    row.(usage := Some(usage), tokens := usage.input + usage.output, cost := usage.cost, state := State.Settled)
  }

  // -------------------------------------------------------------- every step

  lemma SamePlain(t: Tables, u: Tables, top: AllocId, unit: Unit)
    requires Accounts(t) && WellFormed(u) && Extends(t, u) && u.permits == t.permits && top in u.allocs
    requires top in t.allocs ==> Plain(t, top, unit)
    ensures Plain(u, top, unit)
  {
    forall p | p in t.permits ensures Counted(u, p, top) <==> top in t.allocs && Counted(t, p, top) {
      assert Sound(t, p);
      SameCount(t, u, p, top);
    }
    if top in t.allocs {
      assert Charges(u, top, unit) == Charges(t, top, unit);
    } else {
      TotalEmpty(Charges(u, top, unit));
    }
  }

  lemma NewCharges(t: Tables, p: Id, row: Permit, top: AllocId, unit: Unit)
    requires p !in t.permits
    ensures var u := t.(permits := t.permits[p := row]);
            Charges(u, top, unit) == if Counted(u, p, top) then Charges(t, top, unit)[p := Charge(row, unit)]
              else Charges(t, top, unit)
  {
    NewCount(t, p, row, top);
  }

  lemma AdmitsTop(t: Tables, id: AllocId, tokens: nat, cost: nat, top: AllocId)
    requires Admits(t, id, tokens, cost) && Under(t, id, top)
    ensures Fits(t, top, tokens, cost)
  {
    var c := Ancestry(t, id).value;
    var k :| 0 <= k < |c| && c[k] == top;
    assert Fits(t, c[k], tokens, cost);
  }

  lemma NewPlain(t: Tables, p: Id, row: Permit, top: AllocId, unit: Unit)
    requires WellFormed(t) && p !in t.permits && row.allocation in t.allocs
             && t.allocs[row.allocation].grant == row.grant
    requires top in t.allocs && Plain(t, top, unit) && Admits(t, row.allocation, row.tokens, row.cost)
    ensures Plain(t.(permits := t.permits[p := row]), top, unit)
  {
    NewCharges(t, p, row, top, unit);
    if Counted(t.(permits := t.permits[p := row]), p, top) {
      NewCount(t, p, row, top);
      CountsFamily(t, row.grant, row.allocation, top);
      AdmitsTop(t, row.allocation, row.tokens, row.cost, top);
      FitsUnder(t, row, top, unit);
      TotalSet(Charges(t, top, unit), p, Charge(row, unit));
    }
  }

  lemma ReservePlain(t: Tables, run: Id, q: Request, within: AllocId, p: Id, now: Millis, top: AllocId, unit: Unit)
    requires Accounts(t) && p !in t.permits && CanReserve(t, run, q, within, now)
    requires top in Permitted(t, run, q, within, p, now).allocs && (top in t.allocs ==> Plain(t, top, unit))
    ensures Plain(Permitted(t, run, q, within, p, now), top, unit)
  {
    var (u, id) := Charging(t, run, q, within, now).value;
    ChargingKeeps(t, run, q, within, now);
    SamePlain(t, u, top, unit);
    NewPlain(u, p, Issued(t, run, q, id), top, unit);
  }

  lemma ReportPlain(t: Tables, s: Step, top: AllocId, unit: Unit)
    requires Accounts(t) && Enabled(t, s) && s.Report? && top in t.allocs && Plain(t, top, unit)
    ensures top in After(t, s).allocs && (Plain(After(t, s), top, unit) <==> Guarded(t, s, top, unit))
  {
    var row := t.permits[s.permit];
    if SettlesPermit(t, s, top) {
      SettledPlain(t, s, top, unit);
    } else if row.usage.None? && s.usage.complete {
      RowUncounted(t, s.permit, SettledRow(row, s.usage), top, unit);
    } else if row.usage.None? {
      RowLowers(t, s.permit, row.(usage := Some(s.usage)), top, unit);
    }
  }

  lemma MovedPlain(t: Tables, s: Step, top: AllocId, unit: Unit)
    requires Enabled(t, s) && (s.Send? || s.Release?) && top in t.allocs && Plain(t, top, unit)
    ensures top in After(t, s).allocs && Plain(After(t, s), top, unit)
  {
    RowLowers(t, s.permit, t.permits[s.permit].(state := if s.Send? then Dispatched else Released), top, unit);
  }

  /** The only step that can break the bound is a settling report, and it does so
      exactly when the amount was not affordable. */
  lemma StepPlain(t: Tables, s: Step, top: AllocId, unit: Unit)
    requires Accounts(t) && Enabled(t, s) && top in After(t, s).allocs && (top in t.allocs ==> Plain(t, top, unit))
    ensures Plain(After(t, s), top, unit) <==> Guarded(t, s, top, unit)
  {
    if Unpaid(s) {
      UnpaidSame(t, s);
      StepForest(t, s);
      SamePlain(t, After(t, s), top, unit);
    } else if s.Report? {
      ReportedRow(t, s.run, s.permit, s.usage);
      ReportPlain(t, s, top, unit);
    } else if s.Reserve? {
      ReservePlain(t, s.run, s.request, s.within, s.permit, s.now, top, unit);
    } else {
      MovedPlain(t, s, top, unit);
    }
  }

  // ------------------------------------------------------------ over a run

  ghost predicate PlainAt(t: Tables, top: AllocId, unit: Unit) {
    top in t.allocs ==> Plain(t, top, unit)
  }

  lemma {:induction false} GuardedRun(ts: seq<Tables>, steps: seq<Step>, k: nat, top: AllocId, unit: Unit)
    requires IsRun(ts, steps) && k < |ts|
    requires forall j {:trigger steps[j]} :: 0 <= j < |steps| ==> Guarded(ts[j], steps[j], top, unit)
    ensures PlainAt(ts[k], top, unit)
  {
    if k > 0 {
      var j := k - 1;
      GuardedRun(ts, steps, j, top, unit);
      RunAccounts(ts, steps, j);
      assert Guarded(ts[j], steps[j], top, unit);
      if top in ts[k].allocs { StepPlain(ts[j], steps[j], top, unit); }
    }
  }

  /** The plain bound holds for an allocation at every point of a run if and only
      if every report that settled one of its permits was affordable for it. */
  lemma PlainExactly(ts: seq<Tables>, steps: seq<Step>, top: AllocId, unit: Unit)
    requires IsRun(ts, steps)
    ensures (forall k {:trigger ts[k]} :: 0 <= k < |ts| ==> PlainAt(ts[k], top, unit))
            <==> (forall j {:trigger steps[j]} :: 0 <= j < |steps| ==> Guarded(ts[j], steps[j], top, unit))
  {
    if forall j {:trigger steps[j]} :: 0 <= j < |steps| ==> Guarded(ts[j], steps[j], top, unit) {
      forall k | 0 <= k < |ts| ensures PlainAt(ts[k], top, unit) { GuardedRun(ts, steps, k, top, unit); }
    }
    if forall k {:trigger ts[k]} :: 0 <= k < |ts| ==> PlainAt(ts[k], top, unit) {
      forall j | 0 <= j < |steps| ensures Guarded(ts[j], steps[j], top, unit) {
        assert PlainAt(ts[j], top, unit) && PlainAt(ts[j + 1], top, unit);
        RunAccounts(ts, steps, j);
        if SettlesPermit(ts[j], steps[j], top) { SettledPlain(ts[j], steps[j], top, unit); }
      }
    }
  }

  /** Some usage the source accepts breaks the bound exactly when the largest
      amount it accepts would: for every dispatched permit still without usage. */
  lemma UsageMayOverrun(t: Tables, p: Id, top: AllocId, unit: Unit)
    requires Accounts(t) && top in t.allocs && Counted(t, p, top) && t.permits[p].state.Dispatched?
             && t.permits[p].usage.None?
    ensures (exists usage: Usage :: Breaks(t, p, usage, top, unit))
            <==> Total(Charges(t, top, unit)) - Reservation(t.permits[p].request, unit) + RANGE
                   > Ceiling(t.allocs[top].budget, unit)
  {
    forall usage: Usage | Breaks(t, p, usage, top, unit)
      ensures Amount(usage, unit) <= RANGE && !Affordable(t, p, usage, top, unit) {
      SettledPlain(t, Report(t.permits[p].run, p, usage), top, unit);
    }
    if Total(Charges(t, top, unit)) - Reservation(t.permits[p].request, unit)
      + RANGE > Ceiling(t.allocs[top].budget, unit) {
      var usage := if unit.TokenUnit? then Usage(RANGE, 0, 0, true) else Usage(0, 0, RANGE, true);
      SettledPlain(t, Report(t.permits[p].run, p, usage), top, unit);
      assert Breaks(t, p, usage, top, unit);
    }
  }

  /** A complete report that is accepted and leaves the bound broken. */
  ghost predicate Breaks(t: Tables, p: Id, usage: Usage, top: AllocId, unit: Unit) {
    && p in t.permits && usage.complete && Enabled(t, Report(t.permits[p].run, p, usage))
    && var u := After(t, Report(t.permits[p].run, p, usage)); top in u.allocs && !Plain(u, top, unit)
  }

  // ------------------------------------------------------- a run that overruns

  lemma NextStep(ts: seq<Tables>, steps: seq<Step>, s: Step, u: Tables)
    requires IsRun(ts, steps) && Enabled(ts[|steps|], s) && After(ts[|steps|], s) == u
    ensures IsRun(ts + [u], steps + [s])
  {
    forall k | 0 <= k < |steps| + 1
      ensures Enabled((ts + [u])[k], (steps + [s])[k]) && (ts + [u])[k + 1] == After((ts + [u])[k], (steps + [s])[k]) {
      if k < |steps| {
        assert (steps + [s])[k] == steps[k];
      }
    }
  }

  lemma ReserveStep(t: Tables, run: Id, r: Request, within: AllocId, p: Id, now: Millis)
    requires p !in t.permits && CanReserve(t, run, r, within, now)
    ensures Enabled(t, Reserve(run, r, within, p, now))
    ensures After(t, Reserve(run, r, within, p, now)) == Permitted(t, run, r, within, p, now)
  {}

  const SMALL := Budget(1, 0, 0, 0, 0, 10)

  /** Tables with one run of one grant, both bounded by the small budget. */
  const ONE_GRANT := Fresh.(grants := map[1 := SMALL])

  const ONE_RUN := ONE_GRANT.(
    runs := map[7 := RunRow(1, 0, Running)],
    allocs := map[Root(1) := Allocation(1, None, Label(0, 1), SMALL, None),
                  RunOf(7) := Allocation(1, Some(Root(1)), Label(2, 7), SMALL, None)])

  const FREE_CALL := Request(0, 0, 0, None, None)

  lemma SmallChains()
    ensures Ancestry(ONE_RUN, Root(1)) == Some([Root(1)])
    ensures Ancestry(ONE_RUN, RunOf(7)) == Some([RunOf(7), Root(1)])
    ensures Open(ONE_RUN, RunOf(7), 0)
  {
    ChainFound(ONE_RUN.allocs, [Root(1)], MAX_CHAIN);
    ChainFound(ONE_RUN.allocs, [RunOf(7), Root(1)], MAX_CHAIN);
  }

  lemma SmallBegins()
    ensures Begun(ONE_GRANT, 7, 1, 0, None, 0) == Ok(ONE_RUN)
  {
    var u := WithRoot(ONE_GRANT.(runs := map[7 := RunRow(1, 0, Running)]), 1);
    assert u.allocs == map[Root(1) := Allocation(1, None, Label(0, 1), SMALL, None)];
    ChainFound(u.allocs, [Root(1)], MAX_CHAIN);
    assert Open(u, Root(1), 0);
    assert ONE_GRANT.runs[7 := RunRow(1, 0, Running)] == map[7 := RunRow(1, 0, Running)];
  }

  /** With no permits at all, every owner that allows one call admits a free one. */
  lemma FreeCallFits(t: Tables, top: AllocId)
    requires t.permits == map[] && top in t.allocs && t.allocs[top].budget.calls > 0
    ensures Fits(t, top, 0, 0)
  {
    assert LivePermits(t, top) == {};
  }

  lemma SmallAdmits()
    ensures Admits(ONE_RUN, RunOf(7), 0, 0)
  {
    SmallChains();
    FreeCallFits(ONE_RUN, RunOf(7));
    FreeCallFits(ONE_RUN, Root(1));
  }

  lemma SmallReserves()
    ensures CanReserve(ONE_RUN, 7, FREE_CALL, RunOf(7), 0)
  {
    SmallChains();
    SmallAdmits();
    assert Active(ONE_RUN, 7, 0);
    assert Charging(ONE_RUN, 7, FREE_CALL, RunOf(7), 0) == Ok((ONE_RUN, RunOf(7)));
    assert !Known(ONE_RUN, 7, FREE_CALL);
    assert Under(ONE_RUN, RunOf(7), RunOf(7));
  }

  lemma SmallRun() returns (ts: seq<Tables>, steps: seq<Step>)
    ensures IsRun(ts, steps) && ts[|steps|] == ONE_RUN
  {
    ts, steps := [Fresh, ONE_GRANT], [Register(1, SMALL, 0)];
    assert Fresh.grants[1 := SMALL] == map[1 := SMALL];
    assert IsRun(ts, steps);
    SmallBegins();
    NextStep(ts, steps, Begin(7, 1, 0, None, 0), ONE_RUN);
    ts, steps := ts + [ONE_RUN], steps + [Begin(7, 1, 0, None, 0)];
  }

  /** From a run's own allocation, with a ceiling below the largest usage, a free
      request is admitted, dispatched at once, and can be settled above the ceiling. */
  lemma FreeCallOverruns(t: Tables, run: Id, p: Id, now: Millis) returns (usage: Usage)
    requires Accounts(t) && p !in t.permits && CanReserve(t, run, FREE_CALL, RunOf(run), now)
    requires RunOf(run) in t.allocs && t.allocs[RunOf(run)].budget.tokens < RANGE
    ensures Breaks(Permitted(t, run, FREE_CALL, RunOf(run), p, now), p, usage, RunOf(run), TokenUnit)
  {
    var u := Permitted(t, run, FREE_CALL, RunOf(run), p, now);
    PermittedKeeps(t, run, FREE_CALL, RunOf(run), p, now);
    UnderSelf(u, RunOf(run));
    assert Counted(u, p, RunOf(run));
    UsageMayOverrun(u, p, RunOf(run), TokenUnit);
    usage :| Breaks(u, p, usage, RunOf(run), TokenUnit);
  }

  /** A whole run from empty tables whose settled usage exceeds a ceiling of no tokens. */
  lemma OverrunHappens() returns (ts: seq<Tables>, steps: seq<Step>)
    ensures IsRun(ts, steps) && RunOf(7) in ts[|steps|].allocs && !Plain(ts[|steps|], RunOf(7), TokenUnit)
  {
    ts, steps := SmallRun();
    SmallReserves();
    RunAccounts(ts, steps, |steps|);
    var usage := FreeCallOverruns(ts[|steps|], 7, 0, 0);
    ReserveStep(ts[|steps|], 7, FREE_CALL, RunOf(7), 0, 0);
    var u := Permitted(ts[|steps|], 7, FREE_CALL, RunOf(7), 0, 0);
    NextStep(ts, steps, Reserve(7, FREE_CALL, RunOf(7), 0, 0), u);
    ts, steps := ts + [u], steps + [Reserve(7, FREE_CALL, RunOf(7), 0, 0)];
    var s := Report(u.permits[0].run, 0, usage);
    NextStep(ts, steps, s, After(u, s));
    ts, steps := ts + [After(u, s)], steps + [s];
  }
}
