/** The ledger's operations. Each transaction works on a copy `tx` of the tables
    and commits by assigning `db`; an early return leaves `db` as it was. */
module LedgerStore {
  import opened Outcomes
  import opened Totals
  import opened Ledger
  import opened Forest
  import opened Spending
  import opened Scheduling
  import Silence

  // ------------------------------------------------------------ reading

  /** `allocation_ancestry`: follow the parents, at most 64 rows. */
  method AllocationAncestry(t: Tables, id: AllocId) returns (r: Result<seq<AllocId>>)
    ensures r.Ok? <==> Ancestry(t, id).Some?
    ensures r.Ok? ==> r.value == Ancestry(t, id).value
  {
    var owners: seq<AllocId> := [];
    var next := Some(id);
    JoinedNone(Ancestry(t, id));
    while next.Some?
      invariant |owners| <= MAX_CHAIN
      invariant next.Some? ==> Ancestry(t, id) == Joined(owners, Chain(t.allocs, next.value, MAX_CHAIN - |owners|))
      invariant next.None? ==> Ancestry(t, id) == Some(owners)
      decreases next.Some?, MAX_CHAIN - |owners|
    {
      if |owners| >= MAX_CHAIN { return Err(Invalid); }
      if next.value !in t.allocs { return Err(Missing); }
      var here := next.value;
      next := t.allocs[here].parent;
      JoinedNext(t.allocs, owners, here, MAX_CHAIN - |owners|);
      owners := owners + [here];
    }
    return Ok(owners);
  }

  function Joined(owners: seq<AllocId>, rest: Option<seq<AllocId>>): Option<seq<AllocId>> {
    match rest
    case None => None
    case Some(c) => Some(owners + c)
  }

  lemma JoinedNone(rest: Option<seq<AllocId>>)
    ensures Joined([], rest) == rest
  {
    if rest.Some? { assert [] + rest.value == rest.value; }
  }

  lemma JoinedNext(allocs: map<AllocId, Allocation>, owners: seq<AllocId>, id: AllocId, bound: nat)
    requires bound > 0 && id in allocs
    ensures allocs[id].parent.None? ==> Joined(owners, Chain(allocs, id, bound)) == Some(owners + [id])
    ensures allocs[id].parent.Some? ==>
              Joined(owners, Chain(allocs, id, bound)) ==
                Joined(owners + [id], Chain(allocs, allocs[id].parent.value, bound - 1))
  {
    if allocs[id].parent.Some? {
      var rest := Chain(allocs, allocs[id].parent.value, bound - 1);
      if rest.Some? { assert owners + ([id] + rest.value) == (owners + [id]) + rest.value; }
    }
  }

  predicate OwnerOpen(t: Tables, c: seq<AllocId>, k: nat, now: Millis) {
    k < |c| && c[k] in t.allocs && !Closes(t.allocs[c[k]], k == 0) && now < t.allocs[c[k]].budget.deadline
  }

  lemma OpenOwners(t: Tables, id: AllocId, now: Millis)
    requires Ancestry(t, id).Some?
    ensures var c := Ancestry(t, id).value;
            Open(t, id, now) <==>
              forall k: nat {:trigger OwnerOpen(t, c, k, now)} :: k < |c| ==> OwnerOpen(t, c, k, now)
  {
    var c := Ancestry(t, id).value;
    if forall k: nat {:trigger OwnerOpen(t, c, k, now)} :: k < |c| ==> OwnerOpen(t, c, k, now) {
      forall k: nat | k < |c|
        ensures c[k] in t.allocs && !Closes(t.allocs[c[k]], k == 0) && now < t.allocs[c[k]].budget.deadline {
        assert OwnerOpen(t, c, k, now);
      }
    }
  }

  /** An allocation comes first among its owners and only there. */
  predicate OwnerPlaced(t: Tables, c: seq<AllocId>, id: AllocId, k: nat) {
    k < |c| && c[k] in t.allocs && (c[k] == id <==> k == 0)
  }

  lemma OwnersPlaced(t: Tables, id: AllocId)
    requires Ancestry(t, id).Some?
    ensures var c := Ancestry(t, id).value;
            forall k: nat {:trigger OwnerPlaced(t, c, id, k)} :: k < |c| ==> OwnerPlaced(t, c, id, k)
  {
    var c := Ancestry(t, id).value;
    ChainShape(t.allocs, id, MAX_CHAIN);
    forall k: nat | k < |c| ensures OwnerPlaced(t, c, id, k) {
      if k > 0 && c[k] == id { ChainOnce(t, id, 0, k); }
    }
  }

  method RequireOwnersOpen(t: Tables, c: seq<AllocId>, id: AllocId, now: Millis) returns (r: Result<seq<AllocId>>)
    requires forall k: nat {:trigger OwnerPlaced(t, c, id, k)} :: k < |c| ==> OwnerPlaced(t, c, id, k)
    ensures r.Ok? <==> forall k: nat {:trigger OwnerOpen(t, c, k, now)} :: k < |c| ==> OwnerOpen(t, c, k, now)
    ensures r.Ok? ==> r.value == c
  {
    for k := 0 to |c|
      invariant forall j: nat {:trigger OwnerOpen(t, c, j, now)} :: j < k ==> OwnerOpen(t, c, j, now)
    {
      assert OwnerPlaced(t, c, id, k);
      var owner := t.allocs[c[k]];
      assert OwnerOpen(t, c, k, now) <==> !Closes(owner, c[k] == id) && now < owner.budget.deadline;
      if Closes(owner, c[k] == id) { return Err(Denied); }
      if now >= owner.budget.deadline { return Err(Error.Exhausted); }
    }
    return Ok(c);
  }

  method RequireAllocationOpen(t: Tables, g: Id, id: AllocId, now: Millis) returns (r: Result<seq<AllocId>>)
    ensures r.Ok? <==> id in t.allocs && t.allocs[id].grant == g && Open(t, id, now)
    ensures r.Ok? ==> r.value == Ancestry(t, id).value
  {
    if id !in t.allocs || t.allocs[id].grant != g { return Err(Missing); }
    var owners := AllocationAncestry(t, id);
    if owners.Err? { return Err(owners.error); }
    OpenOwners(t, id, now);
    OwnersPlaced(t, id);
    r := RequireOwnersOpen(t, owners.value, id, now);
  }

  /** Membership in a listed subtree is what the ledger counts. */
  lemma FamilyCounts(t: Tables, top: AllocId, family: seq<AllocId>, g: Id, id: AllocId)
    requires forall a :: a in family <==> Under(t, a, top)
    requires top in t.allocs
    ensures Counts(t, g, id, top) <==> (t.allocs[top].parent.None? && g == t.allocs[top].grant) || id in family
  {
  }

  method LiveRows(t: Tables, top: AllocId, family: seq<AllocId>) returns (live: set<Id>)
    requires top in t.allocs && forall a :: a in family <==> Under(t, a, top)
    ensures live == LivePermits(t, top)
  {
    var a := t.allocs[top];
    live := set p | p in t.permits && !t.permits[p].state.Released?
                    && ((a.parent.None? && t.permits[p].grant == a.grant) || t.permits[p].allocation in family);
    forall p | p in t.permits ensures p in live <==> Counted(t, p, top) {
      FamilyCounts(t, top, family, t.permits[p].grant, t.permits[p].allocation);
    }
  }

  method LiveItems(t: Tables, top: AllocId, family: seq<AllocId>) returns (items: set<Id>)
    requires top in t.allocs && forall a :: a in family <==> Under(t, a, top)
    ensures items == ItemsOf(t, top)
  {
    var a := t.allocs[top];
    items := set w | w in t.work && ((a.parent.None? && t.work[w].grant == a.grant) || WorkOf(w) in family);
    forall w | w in t.work ensures w in items <==> Counts(t, t.work[w].grant, WorkOf(w), top) {
      FamilyCounts(t, top, family, t.work[w].grant, WorkOf(w));
    }
  }

  /** The charges of the live rows, in one unit. */
  method SumCharges(t: Tables, top: AllocId, live: set<Id>, unit: Unit) returns (sum: nat)
    requires live == LivePermits(t, top)
    ensures sum == Total(Charges(t, top, unit))
  {
    var charges: map<Id, nat> := map p | p in live :: Charge(t.permits[p], unit);
    assert charges == Charges(t, top, unit);
    sum := Sum(charges);
  }

  lemma LeftIs(t: Tables, top: AllocId, live: set<Id>, items: set<Id>, tokens: nat, cost: nat)
    requires top in t.allocs && live == LivePermits(t, top) && items == ItemsOf(t, top)
    requires tokens == Total(Charges(t, top, TokenUnit)) && cost == Total(Charges(t, top, CostUnit))
    ensures var b := t.allocs[top].budget;
            Left(t, top) == b.(calls := Less(b.calls, |live|), items := Less(b.items, |items|),
                               tokens := Less(b.tokens, tokens), cost := Less(b.cost, cost))
  {
  }

  /** `allocation_ledger_status`: one walk down the subtree, then one pass over the rows. */
  method LedgerStatus(t: Tables, top: AllocId) returns (left: Budget)
    requires WellFormed(t) && top in t.allocs
    ensures left == Left(t, top)
  {
    var b := t.allocs[top].budget;
    var family := Family(t, top);
    var live := LiveRows(t, top, family);
    var items := LiveItems(t, top, family);
    var tokens := SumCharges(t, top, live, TokenUnit);
    var cost := SumCharges(t, top, live, CostUnit);
    LeftIs(t, top, live, items, tokens, cost);
    left := b.(calls := Less(b.calls, |live|), items := Less(b.items, |items|),
               tokens := Less(b.tokens, tokens), cost := Less(b.cost, cost));
  }

  lemma {:induction false} MeetSnoc(t: Tables, c: seq<AllocId>, id: AllocId)
    requires c != [] && id in t.allocs && forall k :: 0 <= k < |c| ==> c[k] in t.allocs
    ensures Remaining(t, c + [id]) == Meet(Remaining(t, c), Left(t, id))
  {
    if |c| == 1 {
      assert (c + [id])[1..] == [id];
    } else {
      assert (c + [id])[1..] == c[1..] + [id];
      MeetSnoc(t, c[1..], id);
    }
  }

  lemma LeftWithin(t: Tables, top: AllocId)
    requires top in t.allocs
    ensures Meet(t.allocs[top].budget, Left(t, top)) == Left(t, top)
  {
  }

  /** `allocation_remaining`: lowered by every owner in turn. */
  method AllocationRemaining(t: Tables, g: Id, id: AllocId) returns (r: Result<Budget>)
    requires WellFormed(t)
    ensures r.Ok? <==> id in t.allocs && t.allocs[id].grant == g
    ensures r.Ok? ==>
            Ancestry(t, id).Some? && IsChain(t.allocs, Ancestry(t, id).value)
              && r.value == Remaining(t, Ancestry(t, id).value)
  {
    if id !in t.allocs || t.allocs[id].grant != g { return Err(Missing); }
    assert WellPlaced(t, id);
    var owners := AllocationAncestry(t, id);
    var c := owners.value;
    ChainShape(t.allocs, id, MAX_CHAIN);
    var remaining := Lowered(t, c);
    return Ok(remaining);
  }

  method Lowered(t: Tables, c: seq<AllocId>) returns (remaining: Budget)
    requires WellFormed(t) && c != [] && forall k :: 0 <= k < |c| ==> c[k] in t.allocs
    ensures remaining == Remaining(t, c)
  {
    remaining := t.allocs[c[0]].budget;
    LeftWithin(t, c[0]);
    for k := 0 to |c|
      invariant k == 0 ==> remaining == t.allocs[c[0]].budget
      invariant k > 0 ==> remaining == Remaining(t, c[..k])
    {
      var other := LedgerStatus(t, c[k]);
      remaining := Meet(remaining, other);
      assert c[..k + 1] == c[..k] + [c[k]];
      if k > 0 { MeetSnoc(t, c[..k], c[k]); }
    }
    assert c[..|c|] == c;
  }

  // ------------------------------------------------------------- scanning

  /** The first item a claim's scan meets. */
  method FirstEligible(t: Tables, g: Id, only: Option<set<Id>>, waited: Option<seq<Id>>, now: Millis)
    returns (r: Option<Id>)
    ensures r.None? ==> forall w :: w in t.work ==> !Eligible(t, g, only, waited, now, w)
    ensures r.Some? ==> Eligible(t, g, only, waited, now, r.value)
    ensures r.Some? ==> forall w :: w in t.work && Eligible(t, g, only, waited, now, w) ==> r.value <= w
  {
    var all := set w | w in t.work && Eligible(t, g, only, waited, now, w);
    assert forall w :: w in t.work && Eligible(t, g, only, waited, now, w) ==> w in all;
    if all == {} { return None; }
    var least := Least(all);
    return Some(least);
  }

  /** The tables after these items, out of attempts, have been failed. */
  ghost predicate Retired(t: Tables, g: Id, only: Option<set<Id>>, waited: Option<seq<Id>>, now: Millis, tx: Tables,
          gone: set<Id>) {
    && tx == t.(allocs := tx.allocs, work := tx.work)
    && gone <= t.work.Keys
    && tx.allocs == Disposed(t.allocs, set w | w in gone :: WorkOf(w), Some(Failed))
    && tx.work == (map w | w in t.work :: if w in gone then t.work[w].(status := Done(Failed)) else t.work[w])
    && (forall w :: w in gone ==> Eligible(t, g, only, waited, now, w) && t.work[w].attempts >= MAX_ATTEMPTS)
    && (forall w :: w in t.work ==>
       (Eligible(tx, g, only, waited, now, w) <==> w !in gone && Eligible(t, g, only, waited, now, w)))
    && (forall w, v :: w in gone && v in t.work && v !in gone && Eligible(t, g, only, waited, now, v) ==> w < v)
  }

  lemma RetiredNone(t: Tables, g: Id, only: Option<set<Id>>, waited: Option<seq<Id>>, now: Millis)
    ensures Retired(t, g, only, waited, now, t, {})
  {
    assert Disposed(t.allocs, {}, Some(Failed)) == t.allocs;
  }

  function Retire(tx: Tables, w: Id): Tables
    requires w in tx.work
  {
    tx.(work := tx.work[w := tx.work[w].(status := Done(Failed))],
      allocs := Disposed(tx.allocs, {WorkOf(w)}, Some(Failed)))
  }

  lemma DisposedOne(allocs: map<AllocId, Allocation>, gone: set<Id>, w: Id)
    ensures Disposed(Disposed(allocs, set v | v in gone :: WorkOf(v), Some(Failed)), {WorkOf(w)}, Some(Failed))
            == Disposed(allocs, set v | v in gone + {w} :: WorkOf(v), Some(Failed))
  {
  }

  lemma RetiredOne(t: Tables, g: Id, only: Option<set<Id>>, waited: Option<seq<Id>>, now: Millis, tx: Tables,
          gone: set<Id>, w: Id)
    requires Retired(t, g, only, waited, now, tx, gone) && w in t.work && tx.work[w].attempts >= MAX_ATTEMPTS
    requires Eligible(tx, g, only, waited, now, w)
    requires forall v :: v in tx.work && Eligible(tx, g, only, waited, now, v) ==> w <= v
    ensures Retired(t, g, only, waited, now, Retire(tx, w), gone + {w})
  {
    var u := Retire(tx, w);
    DisposedOne(t.allocs, gone, w);
    forall v | v in t.work
      ensures Eligible(u, g, only, waited, now, v) <==> v !in gone + {w} && Eligible(t, g, only, waited, now, v) {
      assert v != w ==> (Eligible(u, g, only, waited, now, v) <==> Eligible(tx, g, only, waited, now, v));
    }
  }

  lemma RetiredAll(t: Tables, g: Id, owner: Id, lease: Millis, only: Option<set<Id>>, waited: Option<seq<Id>>,
          now: Millis, tx: Tables, gone: set<Id>)
    requires Retired(t, g, only, waited, now, tx, gone) && CanClaim(t, g, lease, now)
    requires forall v :: v in tx.work ==> !Eligible(tx, g, only, waited, now, v)
    ensures Enabled(t, Claim(g, owner, lease, only, waited, None, now))
    ensures After(t, Claim(g, owner, lease, only, waited, None, now)) == tx
  {
    assert gone == Spent(t, g, only, waited, now, None);
  }

  lemma RetiredThen(t: Tables, g: Id, owner: Id, lease: Millis, only: Option<set<Id>>, waited: Option<seq<Id>>,
          now: Millis, tx: Tables, gone: set<Id>, w: Id)
    requires Retired(t, g, only, waited, now, tx, gone) && CanClaim(t, g, lease, now)
    requires Eligible(tx, g, only, waited, now, w) && tx.work[w].attempts < MAX_ATTEMPTS
    requires forall v :: v in tx.work && Eligible(tx, g, only, waited, now, v) ==> w <= v
    ensures var s := Claim(g, owner, lease, only, waited, Some(w), now);
            Enabled(t, s)
              && After(t, s) ==
                 tx.(work :=
                   tx.work[w :=
                     t.work[w].(status := Leased, attempts := t.work[w].attempts + 1, owner := owner,
                       lease := LeaseEnd(t, g, lease, now))])
  {
    assert w in t.work && w !in gone;
    forall v | v in t.work && Eligible(t, g, only, waited, now, v) && t.work[v].attempts < MAX_ATTEMPTS ensures w <= v {
      assert v !in gone;
    }
    forall v ensures v in gone <==> v in Spent(t, g, only, waited, now, Some(w)) {}
    assert gone == Spent(t, g, only, waited, now, Some(w));
  }

  // ------------------------------------------------------------ admission

  method RequireActive(t: Tables, run: Id, now: Millis) returns (r: Result<Id>)
    ensures r.Ok? <==> Active(t, run, now)
    ensures r.Ok? ==> r.value == t.runs[run].grant
  {
    if run !in t.runs || t.runs[run].grant !in t.grants { return Err(Missing); }
    var g := t.runs[run].grant;
    if !t.runs[run].status.Running? { return Err(Denied); }
    if now >= t.grants[g].deadline { return Err(Error.Exhausted); }
    var open := RequireAllocationOpen(t, g, RunOf(run), now);
    if open.Err? { return Err(open.error); }
    return Ok(g);
  }

  method MakeAllocation(t: Tables, g: Id, id: AllocId, parent: AllocId, note: Label, budget: Budget, now: Millis)
    returns (r: Result<Tables>)
    ensures r.Ok? <==> AllocateIn(t, g, id, parent, note, budget, now).Ok?
    ensures r.Ok? ==> r.value == AllocateIn(t, g, id, parent, note, budget, now).value
  {
    var made := Allocation(g, Some(parent), note, budget, None);
    if parent !in t.allocs || t.allocs[parent].grant != g { return Err(Missing); }
    if id in t.allocs {
      if t.allocs[id].(disposition := None) != made { return Err(Conflict); }
      return Ok(t);
    }
    var owners := RequireAllocationOpen(t, g, parent, now);
    if owners.Err? { return Err(owners.error); }
    if |owners.value| >= MAX_CHAIN { return Err(Invalid); }
    if !Within(budget, t.allocs[parent].budget) { return Err(Denied); }
    return Ok(t.(allocs := t.allocs[id := made]));
  }

  /** A permit must fit what every owner has left. */
  method FitsEveryOwner(t: Tables, owners: seq<AllocId>, tokens: nat, cost: nat) returns (ok: bool)
    requires WellFormed(t) && forall k :: 0 <= k < |owners| ==> owners[k] in t.allocs
    ensures ok <==> forall k :: 0 <= k < |owners| ==> Fits(t, owners[k], tokens, cost)
  {
    for k := 0 to |owners|
      invariant forall j :: 0 <= j < k ==> Fits(t, owners[j], tokens, cost)
    {
      var left := LedgerStatus(t, owners[k]);
      if left.calls == 0 || tokens > left.tokens || cost > left.cost { return false; }
    }
    return true;
  }

  method FindCall(t: Tables, run: Id, call: Id) returns (found: Option<Id>)
    ensures found.Some? ==> Previous(t, run, call, found.value)
    ensures found.None? ==> forall p :: !Previous(t, run, call, p)
  {
    var todo := t.permits.Keys;
    while todo != {}
      invariant todo <= t.permits.Keys
      invariant forall p :: p in t.permits.Keys - todo ==> !Previous(t, run, call, p)
    {
      var p :| p in todo;
      if Previous(t, run, call, p) { return Some(p); }
      todo := todo - {p};
    }
    return None;
  }

  method ChooseAllocation(t: Tables, run: Id, q: Request, within: AllocId, now: Millis)
    returns (r: Result<(Tables, AllocId)>)
    ensures r.Ok? <==> Charging(t, run, q, within, now).Ok?
    ensures r.Ok? ==> r.value == Charging(t, run, q, within, now).value
  {
    if run !in t.runs || within !in t.allocs { return Err(Missing); }
    if q.summary.None? { return Ok((t, within)); }
    var id := Summary(run, q.summary.value);
    var made :=
      MakeAllocation(t, t.runs[run].grant, id, within, Label(1, q.summary.value), t.allocs[within].budget, now);
    if made.Err? { return Err(made.error); }
    return Ok((made.value, id));
  }

  /** The tests a new permit passes: an open allocation of the grant, inside the
      run, in which every owner has enough left. */
  method AdmitNew(u: Tables, run: Id, g: Id, id: AllocId, q: Request, now: Millis) returns (r: Result<()>)
    requires WellFormed(u)
    ensures r.Ok? <==>
            id in u.allocs && u.allocs[id].grant == g && Open(u, id, now) && Under(u, id, RunOf(run))
              && Admits(u, id, Tokens(q), q.cost)
  {
    var owners := RequireAllocationOpen(u, g, id, now);
    if owners.Err? { return Err(owners.error); }
    if RunOf(run) !in owners.value { return Err(Denied); }
    ChainShape(u.allocs, id, MAX_CHAIN);
    var fits := FitsEveryOwner(u, owners.value, Tokens(q), q.cost);
    if !fits { return Err(Error.Exhausted); }
    return Ok(());
  }

  /** A permit already issued for this call, for the same request and allocation. */
  ghost predicate Repeats(t: Tables, run: Id, q: Request, within: AllocId, now: Millis, p: Id) {
    && q.call.Some? && Previous(t, run, q.call.value, p) && t.permits[p].request == q
    && Charging(t, run, q, within, now).Ok? && t.permits[p].allocation == Charging(t, run, q, within, now).value.1
  }

  ghost predicate Presentable(t: Tables, run: Id, q: Request, within: AllocId, now: Millis) {
    Active(t, run, now) && Tokens(q) <= RANGE && q.cost <= RANGE && Charging(t, run, q, within, now).Ok?
  }

  method Present(t: Tables, run: Id, q: Request, within: AllocId, now: Millis) returns (r: Result<(Tables, AllocId)>)
    ensures r.Ok? <==> Presentable(t, run, q, within, now)
    ensures r.Ok? ==> r.value == Charging(t, run, q, within, now).value
  {
    var active := RequireActive(t, run, now);
    if active.Err? { return Err(active.error); }
    if Tokens(q) > RANGE || q.cost > RANGE { return Err(Invalid); }
    r := ChooseAllocation(t, run, q, within, now);
  }

  lemma ReserveMeans(t: Tables, run: Id, q: Request, within: AllocId, now: Millis)
    ensures CanReserve(t, run, q, within, now) <==>
              Presentable(t, run, q, within, now) && !Known(t, run, q)
              && var (u, id) := Charging(t, run, q, within, now).value;
                 id in u.allocs && u.allocs[id].grant == t.runs[run].grant && Open(u, id, now)
                   && Under(u, id, RunOf(run)) && Admits(u, id, Tokens(q), q.cost)
  {
  }

  /** `permit_in_allocation`: a known call returns its permit and changes nothing,
      a new one is admitted against every owner at once. */
  method IssuePermit(t: Tables, run: Id, q: Request, within: AllocId, permit: Id, now: Millis)
    returns (r: Result<(Tables, Id)>)
    requires WellFormed(t) && CallsOnce(t) && permit !in t.permits
    ensures r.Ok? && !Known(t, run, q) <==> CanReserve(t, run, q, within, now)
    ensures CanReserve(t, run, q, within, now) ==>
              var (u, id) := Charging(t, run, q, within, now).value;
              r == Ok((u.(permits := u.permits[permit := Issued(t, run, q, id)]), permit))
    ensures r.Ok? && Known(t, run, q) ==> r.value.0 == t && Repeats(t, run, q, within, now, r.value.1)
    ensures forall p: Id :: Presentable(t, run, q, within, now) && Repeats(t, run, q, within, now, p) ==>
            r == Ok((t, p))
  {
    ReserveMeans(t, run, q, within, now);
    var chosen := Present(t, run, q, within, now);
    if chosen.Err? { return Err(chosen.error); }
    var (u, id) := chosen.value;
    if q.call.Some? {
      var previous := FindCall(t, run, q.call.value);
      if previous.Some? {
        var p := previous.value;
        assert forall o :: Previous(t, run, q.call.value, o) ==> CallOnce(t, o, p);
        if t.permits[p].request != q || t.permits[p].allocation != id { return Err(Conflict); }
        return Ok((t, p));
      }
    }
    ChargingKeeps(t, run, q, within, now);
    var admitted := AdmitNew(u, run, t.runs[run].grant, id, q, now);
    if admitted.Err? { return Err(admitted.error); }
    return Ok((u.(permits := u.permits[permit := Issued(t, run, q, id)]), permit));
  }

  // ------------------------------------------------------------- the store

  ghost predicate Kept(t: Tables) {
    Accounts(t) && CallsOnce(t) && Scheduled(t) && Silence.RunsSound(t)
  }

  lemma StepKept(t: Tables, s: Step)
    requires Kept(t) && Enabled(t, s)
    ensures Kept(After(t, s))
  {
    StepAccounts(t, s);
    StepCalls(t, s);
    StepScheduled(t, s);
    Silence.StepRuns(t, s);
  }

  /** One successful step. */
  ghost predicate Did(t: Tables, s: Step, u: Tables) {
    Enabled(t, s) && u == After(t, s)
  }

  /** Creating a run's allocation, or reopening that of an interrupted run. */
  method BindRun(t: Tables, run: Id, g: Id, pinned: nat, wanted: Option<AllocId>, now: Millis)
    returns (r: Result<Tables>)
    ensures r.Ok? <==> Begun(t, run, g, pinned, wanted, now).Ok?
    ensures r.Ok? ==> r.value == Begun(t, run, g, pinned, wanted, now).value
  {
    if g !in t.grants { return Err(Missing); }
    if run in t.runs {
      var row := t.runs[run];
      if row.grant != g || row.pinned != pinned || !row.status.Paused? { return Err(Conflict); }
      return Ok(t.(runs := t.runs[run := row.(status := if run in t.waits then Waiting else Running)],
                   allocs := Disposed(t.allocs, {RunOf(run)}, None)));
    }
    var u := WithRoot(t.(runs := t.runs[run := RunRow(g, pinned, Running)]), g);
    var above := RunParent(t, run, g, wanted);
    if above.Err? { return Err(above.error); }
    if above.value !in u.allocs { return Err(Missing); }
    r := MakeAllocation(u, g, RunOf(run), above.value, Label(2, run), u.allocs[above.value].budget, now);
  }

  /** Whether any of these child items still has to settle. */
  method WorkWaitStatus(t: Tables, run: Id, items: seq<Id>) returns (r: Result<bool>)
    ensures r.Ok? <==> Children(t, run, items)
    ensures r.Ok? ==> (r.value <==> !AllSettled(t, items))
  {
    if run !in t.runs { return Err(Missing); }
    var waiting := false;
    for k := 0 to |items|
      invariant forall j :: 0 <= j < k ==>
                items[j] in t.work && t.work[items[j]].parent == run && t.work[items[j]].grant == t.runs[run].grant
      invariant waiting <==> exists j :: 0 <= j < k && !Settles(t.work[items[j]].status)
    {
      if items[k] !in t.work || t.work[items[k]].parent != run || t.work[items[k]].grant != t.runs[run].grant {
        return Err(Denied);
      }
      if !Settles(t.work[items[k]].status) { waiting := true; }
    }
    return Ok(waiting);
  }

  /** The tables after the first of a wait's items have been stopped. */
  ghost predicate Stopping(t: Tables, items: set<Id>, how: Disposition, tx: Tables) {
    && tx == t.(allocs := tx.allocs, work := tx.work)
    && tx.allocs == Disposed(t.allocs, set w | w in items :: WorkOf(w), Some(how))
    && tx.work ==
       (map w | w in t.work :: if w in items && !t.work[w].status.Leased? then t.work[w].(status := Done(how))
         else t.work[w])
  }

  lemma StoppingNone(t: Tables, how: Disposition)
    ensures Stopping(t, {}, how, t)
  {
    assert Disposed(t.allocs, {}, Some(how)) == t.allocs;
  }

  lemma StoppingOne(t: Tables, items: set<Id>, how: Disposition, tx: Tables, w: Id)
    requires Stopping(t, items, how, tx) && w in t.work && !Settles(tx.work[w].status)
    ensures Stopping(t, items + {w}, how,
      tx.(allocs := Disposed(tx.allocs, {WorkOf(w)}, Some(how)),
          work := if tx.work[w].status.Leased? then tx.work else tx.work[w := tx.work[w].(status := Done(how))]))
  {
    var done := set v | v in items :: WorkOf(v);
    assert Disposed(Disposed(t.allocs, done, Some(how)), {WorkOf(w)}, Some(how)) ==
      Disposed(t.allocs, set v | v in items + {w} :: WorkOf(v), Some(how));
    assert w in items ==> t.work[w].status.Leased?;
  }

  /** The loop over a wait's items. */
  method StopItems(t: Tables, items: seq<Id>, how: Disposition) returns (tx: Tables, running: set<Id>)
    requires forall k :: 0 <= k < |items| ==> items[k] in t.work
    ensures Stopping(t, Unfinished(t, items), how, tx)
    ensures running == set w | w in Unfinished(t, items) && t.work[w].status.Leased?
  {
    tx, running := t, {};
    ghost var seen: set<Id> := {};
    StoppingNone(t, how);
    for k := 0 to |items|
      invariant Stopping(t, seen, how, tx)
      invariant seen == Unfinished(t, items[..k])
      invariant running == set w | w in seen && t.work[w].status.Leased?
    {
      var w := items[k];
      UnfinishedSnoc(t, items[..k], w);
      assert items[..k + 1] == items[..k] + [w];
      if !Settles(tx.work[w].status) {
        StoppingOne(t, seen, how, tx, w);
        if tx.work[w].status.Leased? { running := running + {w}; }
        tx := tx.(allocs := Disposed(tx.allocs, {WorkOf(w)}, Some(how)),
                  work := if tx.work[w].status.Leased? then tx.work
                    else tx.work[w := tx.work[w].(status := Done(how))]);
        seen := seen + {w};
      }
    }
    assert items[..|items|] == items;
  }

  lemma UnfinishedSnoc(t: Tables, items: seq<Id>, w: Id)
    requires w in t.work
    ensures Unfinished(t, items + [w]) == if Settles(t.work[w].status) then Unfinished(t, items)
            else Unfinished(t, items) + {w}
  {
  }

  lemma StoppingIs(t: Tables, run: Id, how: Disposition, tx: Tables)
    requires run in t.waits && Stopping(t, Unfinished(t, t.waits[run]), how, tx)
    ensures tx == ChildrenStopped(t, run, how)
    ensures forall w :: w in t.work && t.work[w].status.Leased? ==> w in tx.work && tx.work[w] == t.work[w]
  {
  }

  /** `stop_waiting_children`: close each unsettled child's allowance, and retire
      those nobody is running; the running ones keep their owners. */
  method StopChildrenOf(t: Tables, run: Id, how: Disposition) returns (r: Result<(Tables, set<Id>)>)
    ensures r.Ok? <==> CanStop(t, run, how)
    ensures r.Ok? ==> r.value.0 == ChildrenStopped(t, run, how)
    ensures r.Ok? && run in t.waits ==>
            r.value.1 == set w | w in Unfinished(t, t.waits[run]) && t.work[w].status.Leased?
    ensures r.Ok? ==> forall w :: w in r.value.1 ==>
            w in t.work && t.work[w].status.Leased? && w in r.value.0.work && r.value.0.work[w] == t.work[w]
  {
    if !how.Cancelled? && !how.Exhausted? { return Err(Invalid); }
    if run !in t.waits { return Ok((t, {})); }
    var status := WorkWaitStatus(t, run, t.waits[run]);
    if status.Err? { return Err(status.error); }
    var tx, running := StopItems(t, t.waits[run], how);
    StoppingIs(t, run, how, tx);
    return Ok((tx, running));
  }

  method LeaseItem(t: Tables, g: Id, owner: Id, lease: Millis, only: Option<set<Id>>, waited: Option<seq<Id>>,
          now: Millis,
                   tx: Tables, ghost gone: set<Id>, w: Id) returns (u: Tables)
    requires Retired(t, g, only, waited, now, tx, gone) && CanClaim(t, g, lease, now)
    requires Eligible(tx, g, only, waited, now, w) && tx.work[w].attempts < MAX_ATTEMPTS
    requires forall v :: v in tx.work && Eligible(tx, g, only, waited, now, v) ==> w <= v
    ensures Did(t, Claim(g, owner, lease, only, waited, Some(w), now), u)
  {
    RetiredThen(t, g, owner, lease, only, waited, now, tx, gone, w);
    var row :=
      tx.work[w].(status := Leased, attempts := tx.work[w].attempts + 1, owner := owner,
        lease := LeaseEnd(t, g, lease, now));
    u := tx.(work := tx.work[w := row]);
  }

  /** `claim_work_filter`: fail items out of attempts until one can be leased. */
  method ClaimFrom(t: Tables, g: Id, owner: Id, lease: Millis, only: Option<set<Id>>, waited: Option<seq<Id>>,
          now: Millis)
    returns (r: Result<(Tables, Option<Id>)>)
    ensures r.Ok? <==> CanClaim(t, g, lease, now)
    ensures r.Ok? ==> Did(t, Claim(g, owner, lease, only, waited, r.value.1, now), r.value.0)
  {
    if g !in t.grants { return Err(Missing); }
    if t.grants[g].deadline <= now { return Err(Error.Exhausted); }
    if lease == 0 || lease > MAX_LEASE { return Err(Invalid); }
    var tx := t;
    ghost var gone: set<Id> := {};
    RetiredNone(t, g, only, waited, now);
    while true
      invariant Retired(t, g, only, waited, now, tx, gone)
      decreases t.work.Keys - gone
    {
      var next := FirstEligible(tx, g, only, waited, now);
      if next.None? {
        RetiredAll(t, g, owner, lease, only, waited, now, tx, gone);
        return Ok((tx, None));
      }
      var w := next.value;
      if tx.work[w].attempts < MAX_ATTEMPTS {
        var leased := LeaseItem(t, g, owner, lease, only, waited, now, tx, gone, w);
        return Ok((leased, Some(w)));
      }
      RetiredOne(t, g, only, waited, now, tx, gone, w);
      tx := Retire(tx, w);
      gone := gone + {w};
    }
  }

  method SendPermit(t: Tables, run: Id, permit: Id, now: Millis) returns (r: Result<Tables>)
    requires Accounts(t)
    ensures r.Ok? <==> CanSend(t, run, permit, now)
    ensures r.Ok? ==> r.value == PermitMoved(t, permit, Dispatched)
  {
    var active := RequireActive(t, run, now);
    if active.Err? { return Err(active.error); }
    if permit !in t.permits || t.permits[permit].run != run || !t.permits[permit].state.Reserved? {
      return Err(Conflict);
    }
    assert Spending.Sound(t, permit);
    var id := t.permits[permit].allocation;
    var open := RequireAllocationOpen(t, t.allocs[id].grant, id, now);
    if open.Err? { return Err(open.error); }
    return Ok(t.(permits := t.permits[permit := t.permits[permit].(state := Dispatched)]));
  }

  /** `usage`: accepted once per dispatched permit; the same report again is a no-op. */
  method SettleUsage(t: Tables, run: Id, permit: Id, usage: Usage) returns (r: Result<Tables>)
    ensures r.Ok? <==> Reported(t, run, permit, usage).Ok?
    ensures r.Ok? ==> r.value == Reported(t, run, permit, usage).value
    ensures permit in t.permits && t.permits[permit].run == run && t.permits[permit].usage == Some(usage) ==> r == Ok(t)
  {
    if permit !in t.permits || t.permits[permit].run != run { return Err(Missing); }
    var row := t.permits[permit];
    if row.usage.Some? {
      if row.usage.value != usage { return Err(Conflict); }
      return Ok(t);
    }
    if !row.state.Dispatched? { return Err(Conflict); }
    var tokens := usage.input + usage.output;
    if tokens > RANGE || usage.cost > RANGE { return Err(Invalid); }
    if usage.complete {
      return Ok(t.(permits :=
        t.permits[permit := row.(usage := Some(usage), tokens := tokens, cost := usage.cost, state := Settled)]));
    }
    return Ok(t.(permits := t.permits[permit := row.(usage := Some(usage))]));
  }

  method Complete(t: Tables, item: Id, owner: Id, how: Disposition) returns (r: Result<Tables>)
    requires !how.Abstained?
    ensures r.Ok? <==> CanFinish(t, item, owner, how)
    ensures r.Ok? ==> r.value == ItemFinished(t, item, how)
  {
    if item !in t.work { return Err(Missing); }
    var row := t.work[item];
    if row.owner != owner { return Err(Denied); }
    if row.status == Finished(how) { return Ok(t); }
    if !row.status.Leased? { return Err(Conflict); }
    return Ok(t.(work := t.work[item := row.(status := Finished(how))],
      allocs := Disposed(t.allocs, {WorkOf(item)}, Some(how))));
  }

  method FindSubject(t: Tables, g: Id, subject: nat) returns (r: Option<Id>)
    ensures r.None? ==> forall w :: w in t.work ==> !(t.work[w].grant == g && t.work[w].subject == subject)
    ensures r.Some? ==> r.value in t.work && t.work[r.value].grant == g && t.work[r.value].subject == subject
    ensures r.Some? && t.work[r.value].status.Done? ==> forall w :: w in t.work ==> !SubjectActive(t, g, subject, w)
  {
    var all := set w | w in t.work && t.work[w].grant == g && t.work[w].subject == subject;
    assert forall w :: w in t.work && t.work[w].grant == g && t.work[w].subject == subject ==> w in all;
    if all == {} { return None; }
    var open := set w | w in all && !t.work[w].status.Done?;
    assert forall w :: w in all && !t.work[w].status.Done? ==> w in open;
    var w :| w in all;
    if open == {} { return Some(w); }
    var o :| o in open;
    return Some(o);
  }

  /** Every owner has depth and items left for one more work item. */
  method RoomForItem(u: Tables, owners: seq<AllocId>, depth: nat) returns (ok: bool)
    requires WellFormed(u) && forall k :: 0 <= k < |owners| ==> owners[k] in u.allocs
    ensures ok <==>
            forall k :: 0 <= k < |owners| ==>
              depth <= u.allocs[owners[k]].budget.depth && |ItemsOf(u, owners[k])| < u.allocs[owners[k]].budget.items
  {
    for k := 0 to |owners|
      invariant forall j :: 0 <= j < k ==>
                depth <= u.allocs[owners[j]].budget.depth && |ItemsOf(u, owners[j])| < u.allocs[owners[j]].budget.items
    {
      var left := LedgerStatus(u, owners[k]);
      if depth > u.allocs[owners[k]].budget.depth || left.items == 0 { return false; }
    }
    return true;
  }

  /** `enqueue_work_in`, past the duplicate check. */
  method Schedule(t: Tables, g: Id, parent: Id, subject: nat, item: Id, now: Millis) returns (r: Result<Tables>)
    requires WellFormed(t) && !Used(t, item) && item != parent
    ensures r.Ok? <==> CanEnqueue(t, g, parent, subject, item, now)
    ensures r.Ok? ==> r.value == Enqueued(t, g, parent, subject, item)
  {
    if g !in t.grants { return Err(Missing); }
    var depth := DepthOf(t, parent) + 1;
    if depth > t.grants[g].depth { return Err(Error.Exhausted); }
    if |set w | w in t.work && t.work[w].grant == g| >= t.grants[g].items { return Err(Error.Exhausted); }
    var same := FindSubject(t, g, subject);
    if same.Some? { return Err(Conflict); }
    WithRootKeeps(t, g);
    var u := WithRoot(t, g);
    var top := FundedBy(t, g, parent);
    if top !in u.allocs || u.allocs[top].grant != g { return Err(Missing); }
    var owners := RequireAllocationOpen(u, g, top, now);
    if owners.Err? { return Err(owners.error); }
    ChainShape(u.allocs, top, MAX_CHAIN);
    var room := RoomForItem(u, owners.value, depth);
    if !room { return Err(Error.Exhausted); }
    if |owners.value| >= MAX_CHAIN { return Err(Invalid); }
    return Ok(u.(allocs :=
      u.allocs[WorkOf(item) := Allocation(g, Some(top), Label(3, item), u.allocs[top].budget, None)],
                 work := u.work[item := NewItem(t, g, parent, subject)]));
  }

  method ResumeRun(t: Tables, run: Id) returns (r: Result<Tables>)
    ensures r.Ok? <==> CanResume(t, run)
    ensures r.Ok? ==> r.value == Resumed(t, run)
  {
    if run !in t.waits { return Err(Conflict); }
    var status := WorkWaitStatus(t, run, t.waits[run]);
    if status.Err? || status.value { return Err(Conflict); }
    var row := t.runs[run];
    return Ok(t.(waits := t.waits - {run},
      runs := t.runs[run := row.(status := if row.status.Waiting? then Running else row.status)]));
  }

  /** A fresh grant's root, placed under a study case of an active run. */
  method GraftRoot(t: Tables, run: Id, within: AllocId, g: Id, budget: Budget, now: Millis) returns (r: Result<Tables>)
    requires g !in t.grants && Root(g) !in t.allocs && within in t.allocs && IsCase(t, run, within)
             && Within(budget, t.allocs[within].budget)
    ensures r.Ok? <==> CanGraft(t, run, within, g, budget, now)
    ensures r.Ok? ==> r.value == Grafted(t, within, g, budget)
  {
    var active := RequireActive(t, run, now);
    if active.Err? { return Err(active.error); }
    if t.allocs[within].grant != active.value { return Err(Missing); }
    var owners := AllocationAncestry(t, within);
    if |owners.value| >= MAX_GRAFT { return Err(Invalid); }
    if budget.deadline <= now { return Err(Invalid); }
    return Ok(t.(grants := t.grants[g := budget],
                 allocs := t.allocs[Root(g) := Allocation(g, Some(within), Label(4, 0), budget, None)]));
  }

  class Store {
    var db: Tables

    ghost predicate Valid()
      reads this
    {
      Kept(db)
    }

    constructor ()
      ensures Valid() && db == Fresh
    {
      db := Fresh;
    }

    method RegisterGrant(g: Id, budget: Budget, now: Millis) returns (r: Result<()>)
      requires Valid()
      modifies this
      ensures Valid()
      ensures if r.Ok? then Did(old(db), Register(g, budget, now), db)
              else db == old(db) && !Enabled(old(db), Register(g, budget, now))
    {
      if budget.deadline <= now { return Err(Invalid); }
      if g in db.grants && db.grants[g] != budget { return Err(Conflict); }
      StepKept(db, Register(g, budget, now));
      db := db.(grants := db.grants[g := budget]);
      return Ok(());
    }

    method Allocate(g: Id, name: Id, above: AllocId, note: Label, budget: Budget, now: Millis) returns (r: Result<()>)
      requires Valid()
      modifies this
      ensures Valid()
      ensures if r.Ok? then Did(old(db), Step.Allocate(g, name, above, note, budget, now), db)
              else db == old(db) && !Enabled(old(db), Step.Allocate(g, name, above, note, budget, now))
    {
      if g !in db.grants { return Err(Missing); }
      var made := MakeAllocation(db, g, Named(name), above, note, budget, now);
      if made.Err? { return Err(made.error); }
      StepKept(db, Step.Allocate(g, name, above, note, budget, now));
      db := made.value;
      return Ok(());
    }

    /** Finishing an allocation the same way twice is accepted. */
    method FinishAllocation(g: Id, id: AllocId, how: Disposition) returns (r: Result<()>)
      requires Valid()
      modifies this
      ensures Valid()
      ensures if r.Ok? then Did(old(db), Close(g, id, how), db)
              else db == old(db) && !Enabled(old(db), Close(g, id, how))
    {
      if id !in db.allocs || db.allocs[id].grant != g { return Err(Missing); }
      var existing := db.allocs[id].disposition;
      if existing.Some? && existing.value != how { return Err(Conflict); }
      StepKept(db, Close(g, id, how));
      db := db.(allocs := Disposed(db.allocs, {id}, Some(how)));
      return Ok(());
    }

    method BeginRun(run: Id, g: Id, pinned: nat, wanted: Option<AllocId>, now: Millis) returns (r: Result<()>)
      requires Valid()
      modifies this
      ensures Valid()
      ensures if r.Ok? then Did(old(db), Begin(run, g, pinned, wanted, now), db)
              else db == old(db) && !Enabled(old(db), Begin(run, g, pinned, wanted, now))
    {
      var bound := BindRun(db, run, g, pinned, wanted, now);
      if bound.Err? { return Err(bound.error); }
      StepKept(db, Begin(run, g, pinned, wanted, now));
      db := bound.value;
      return Ok(());
    }

    /** Finishing a run that is not running or waiting changes nothing. */
    method FinishRun(run: Id, how: Disposition)
      requires Valid()
      modifies this
      ensures Valid()
      ensures if Enabled(old(db), End(run, how)) then db == After(old(db), End(run, how)) else db == old(db)
      ensures run in old(db).runs && Enabled(old(db), End(run, how)) && Stops(how) ==> Silence.Stopped(db, run)
    {
      if run !in db.runs || (!db.runs[run].status.Running? && !db.runs[run].status.Waiting?) { return; }
      StepKept(db, End(run, how));
      db := db.(runs := db.runs[run := db.runs[run].(status := if how.Interrupted? then Paused else Ended(how))],
                allocs := Disposed(db.allocs, {RunOf(run)}, Some(how)),
                waits := if how.Interrupted? then db.waits else db.waits - {run});
    }

    /** A retried call returns its first permit and changes nothing. `planned` says
        that the run may use the summary a compaction's request names. */
    method Permit(run: Id, q: Request, within: AllocId, permit: Id, planned: bool, now: Millis) returns (r: Result<Id>)
      requires Valid() && permit !in db.permits
      modifies this
      ensures Valid()
      ensures q.summary.Some? && !planned ==> r.Err? && db == old(db)
      ensures (q.summary.Some? ==> planned) && CanReserve(old(db), run, q, within, now) ==>
                r == Ok(permit) && Did(old(db), Reserve(run, q, within, permit, now), db)
      ensures !CanReserve(old(db), run, q, within, now) ==> db == old(db)
      ensures !CanReserve(old(db), run, q, within, now) && r.Ok? ==> Repeats(db, run, q, within, now, r.value)
      ensures (q.summary.Some? ==> planned) && Presentable(old(db), run, q, within, now) ==>
                forall p: Id :: Repeats(old(db), run, q, within, now, p) ==> r == Ok(p)
    {
      if q.summary.Some? && !planned { return Err(Denied); }
      var issued := IssuePermit(db, run, q, within, permit, now);
      if issued.Err? { return Err(issued.error); }
      ghost var admitted := CanReserve(db, run, q, within, now);
      if admitted { StepKept(db, Reserve(run, q, within, permit, now)); }
      db := issued.value.0;
      return Ok(issued.value.1);
    }

    method DispatchPermit(run: Id, permit: Id, now: Millis) returns (r: Result<()>)
      requires Valid()
      modifies this
      ensures Valid()
      ensures if r.Ok? then Did(old(db), Send(run, permit, now), db)
              else db == old(db) && !Enabled(old(db), Send(run, permit, now))
    {
      var sent := SendPermit(db, run, permit, now);
      if sent.Err? { return Err(sent.error); }
      StepKept(db, Send(run, permit, now));
      db := sent.value;
      return Ok(());
    }

    method ReleasePermit(run: Id, permit: Id) returns (r: Result<()>)
      requires Valid()
      modifies this
      ensures Valid()
      ensures if r.Ok? then Did(old(db), Release(run, permit), db)
              else db == old(db) && !Enabled(old(db), Release(run, permit))
    {
      if permit !in db.permits || db.permits[permit].run != run { return Err(Missing); }
      if !db.permits[permit].state.Reserved? && !db.permits[permit].state.Released? { return Err(Conflict); }
      StepKept(db, Release(run, permit));
      db := db.(permits := db.permits[permit := db.permits[permit].(state := Released)]);
      return Ok(());
    }

    /** Reporting the same usage again is accepted and changes nothing. */
    method RecordUsage(run: Id, permit: Id, usage: Usage) returns (r: Result<()>)
      requires Valid()
      modifies this
      ensures Valid()
      ensures if r.Ok? then Did(old(db), Report(run, permit, usage), db)
              else db == old(db) && !Enabled(old(db), Report(run, permit, usage))
      ensures (permit in old(db).permits && old(db).permits[permit].run == run
               && old(db).permits[permit].usage == Some(usage)) ==>
              r.Ok? && db == old(db)
    {
      var settled := SettleUsage(db, run, permit, usage);
      if settled.Err? { return Err(settled.error); }
      StepKept(db, Report(run, permit, usage));
      db := settled.value;
      return Ok(());
    }

    method ClaimWork(g: Id, owner: Id, lease: Millis, only: Option<set<Id>>, waited: Option<seq<Id>>, now: Millis)
      returns (r: Result<Option<Id>>)
      requires Valid()
      modifies this
      ensures Valid()
      ensures r.Ok? <==> CanClaim(old(db), g, lease, now)
      ensures if r.Ok? then Did(old(db), Claim(g, owner, lease, only, waited, r.value, now), db) else db == old(db)
    {
      var claimed := ClaimFrom(db, g, owner, lease, only, waited, now);
      if claimed.Err? { return Err(claimed.error); }
      StepKept(db, Claim(g, owner, lease, only, waited, claimed.value.1, now));
      db := claimed.value.0;
      return Ok(claimed.value.1);
    }

    method FinishWork(item: Id, owner: Id, how: Disposition) returns (r: Result<()>)
      requires Valid() && !how.Abstained?
      modifies this
      ensures Valid()
      ensures if r.Ok? then Did(old(db), Step.FinishWork(item, owner, how), db)
              else db == old(db) && !Enabled(old(db), Step.FinishWork(item, owner, how))
    {
      var done := Complete(db, item, owner, how);
      if done.Err? { return Err(done.error); }
      StepKept(db, Step.FinishWork(item, owner, how));
      db := done.value;
      return Ok(());
    }

    method RenewWork(item: Id, owner: Id, lease: Millis, now: Millis) returns (r: Result<()>)
      requires Valid()
      modifies this
      ensures Valid()
      ensures if r.Ok? then Did(old(db), Renew(item, owner, lease, now), db)
              else db == old(db) && !Enabled(old(db), Renew(item, owner, lease, now))
    {
      if lease == 0 || lease > MAX_LEASE { return Err(Invalid); }
      if item !in db.work { return Err(Missing); }
      assert ItemSound(db, item);
      var row := db.work[item];
      if row.owner != owner || !row.status.Leased? || row.lease < now { return Err(Conflict); }
      StepKept(db, Renew(item, owner, lease, now));
      db := db.(work := db.work[item := row.(lease := LeaseEnd(db, row.grant, lease, now))]);
      return Ok(());
    }

    /** `parkable` says that the checkpoint is bounded and still authorized, no repair
        is under way, every issued effect is settled and no tool exchange is open. */
    method ParkRun(run: Id, items: seq<Id>, parkable: bool, now: Millis) returns (r: Result<()>)
      requires Valid()
      modifies this
      ensures Valid()
      ensures r.Ok? <==> parkable && Enabled(old(db), Park(run, items, now))
      ensures db == if r.Ok? then After(old(db), Park(run, items, now)) else old(db)
    {
      if !parkable { return Err(Denied); }
      var active := RequireActive(db, run, now);
      if active.Err? { return Err(active.error); }
      var status := WorkWaitStatus(db, run, items);
      if status.Err? { return Err(status.error); }
      if run in db.waits { return Err(Conflict); }
      StepKept(db, Park(run, items, now));
      db := db.(waits := db.waits[run := items], runs := db.runs[run := db.runs[run].(status := Waiting)]);
      return Ok(());
    }

    method ResumeWaiting(run: Id) returns (r: Result<()>)
      requires Valid()
      modifies this
      ensures Valid()
      ensures if r.Ok? then Did(old(db), Resume(run), db) else db == old(db) && !Enabled(old(db), Resume(run))
    {
      var resumed := ResumeRun(db, run);
      if resumed.Err? { return Err(resumed.error); }
      StepKept(db, Resume(run));
      db := resumed.value;
      return Ok(());
    }

    method StopWaitingChildren(run: Id, how: Disposition) returns (r: Result<set<Id>>)
      requires Valid()
      modifies this
      ensures Valid()
      ensures if r.Ok? then Did(old(db), StopChildren(run, how), db)
              else db == old(db) && !Enabled(old(db), StopChildren(run, how))
      ensures r.Ok? ==> forall w :: w in r.value ==>
              w in db.work && db.work[w] == old(db).work[w] && db.work[w].status.Leased?
    {
      var stopped := StopChildrenOf(db, run, how);
      if stopped.Err? { return Err(stopped.error); }
      StepKept(db, StopChildren(run, how));
      db := stopped.value.0;
      return Ok(stopped.value.1);
    }

    /** A host or worker asks for follow-up work under a profile the grant has or
        lacks; an active item on the same subject is returned instead of a second one. */
    method EnqueueWork(g: Id, parent: Id, subject: nat, item: Id, profiled: bool, now: Millis) returns (r: Result<Id>)
      requires Valid() && !Used(db, item) && item != parent
      modifies this
      ensures Valid()
      ensures !profiled ==> r.Err?
      ensures r == Ok(item) <==> profiled && Enabled(old(db), Enqueue(g, parent, subject, item, now))
      ensures if r == Ok(item) then db == After(old(db), Enqueue(g, parent, subject, item, now)) else db == old(db)
      ensures r.Ok? && r.value != item ==> SubjectActive(db, g, subject, r.value)
      ensures profiled && (exists w :: SubjectActive(old(db), g, subject, w)) ==> r.Ok? && r.value != item
    {
      if !profiled { return Err(Denied); }
      var same := FindSubject(db, g, subject);
      if same.Some? && !db.work[same.value].status.Done? { return Ok(same.value); }
      var made := Schedule(db, g, parent, subject, item, now);
      if made.Err? { return Err(made.error); }
      StepKept(db, Enqueue(g, parent, subject, item, now));
      db := made.value;
      return Ok(item);
    }

    /** `subject_runtime`: a fresh grant whose root is funded by a study case. */
    method SubjectRuntime(run: Id, within: AllocId, g: Id, budget: Budget, now: Millis) returns (r: Result<()>)
      requires Valid() && g !in db.grants && Root(g) !in db.allocs
      requires within in db.allocs && IsCase(db, run, within) && Within(budget, db.allocs[within].budget)
      modifies this
      ensures Valid()
      ensures if r.Ok? then Did(old(db), Graft(run, within, g, budget, now), db)
              else db == old(db) && !Enabled(old(db), Graft(run, within, g, budget, now))
    {
      var grafted := GraftRoot(db, run, within, g, budget, now);
      if grafted.Err? { return Err(grafted.error); }
      StepKept(db, Graft(run, within, g, budget, now));
      db := grafted.value;
      return Ok(());
    }

    /** A restarted host finds nothing running. */
    method Recover()
      requires Valid()
      modifies this
      ensures Valid() && db == After(old(db), Restart)
    {
      StepKept(db, Restart);
      db := db.(
        runs := map r | r in db.runs :: if db.runs[r].status.Running? || db.runs[r].status.Waiting?
          then db.runs[r].(status := Paused) else db.runs[r],
        work := map w | w in db.work :: if db.work[w].status.Leased? then db.work[w].(status := Halted)
          else db.work[w]);
    }
  }
}
