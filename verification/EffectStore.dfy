/** The journal's operations. Each write transaction works on a copy of the
    world and commits by assigning it; an early return leaves the world alone. */
module EffectStore {
  import opened Outcomes
  import opened Validity
  import opened Effects
  import opened Journal
  import opened Restoration

  // ------------------------------------------------------------ validation

  method MatchesSite(files: map<Path, Version>, s: seq<Artifact>) returns (ok: bool)
    ensures ok <==> Matches(files, s)
  {
    for i := 0 to |s|
      invariant Matches(files, s[..i])
    {
      if s[i].path !in files || files[s[i].path] != s[i].version { return false; }
      assert s[..i + 1] == s[..i] + [s[i]];
    }
    assert s[..|s|] == s;
    return true;
  }

  lemma {:induction false} OldestSnoc(vs: seq<Evidence>, v: Evidence)
    ensures Oldest(vs + [v]) == if vs == [] then v.generation else Min(Oldest(vs), v.generation)
  {
    if |vs| > 1 {
      OldestSnoc(vs[1..], v);
      assert (vs + [v])[1..] == vs[1..] + [v];
    } else if |vs| == 1 {
      assert (vs + [v])[1..] == [v];
    }
  }

  method CheckCurrent(g: Grant, site: Site, v: Evidence) returns (ok: bool)
    ensures ok <==> Current(g, site, v)
  {
    var inputs := MatchesSite(site.files, v.inputs);
    var outputs := MatchesSite(site.files, v.targets);
    return v.passed && v.policy == g.policy && v.check in site.checkers && site.checkers[v.check] == v.checker && inputs
      && outputs;
  }

  /** An application speaks for its own path only. */
  function Narrowed(a: Action, paths: set<Path>): set<Path> {
    set p | p in paths && (a.kind.Apply? ==> a.path == Some(p))
  }

  lemma NarrowedMore(a: Action, vs: seq<Evidence>, v: Evidence)
    ensures Narrowed(a, AllTargets(vs + [v])) == Narrowed(a, AllTargets(vs)) + Narrowed(a, PathsOf(v.targets))
  {
    AllTargetsSnoc(vs, v);
  }

  /** One pass over the checks: reject on the first that is not current, gather
      the targets and keep the oldest generation. */
  method Gather(c: Case) returns (ok: bool, targets: set<Path>, oldest: nat)
    requires c.seen.receipt.validations != []
    ensures ok <==>
            forall k :: 0 <= k < |c.seen.receipt.validations| ==>
              Current(c.effect.grant, c.before, c.seen.receipt.validations[k])
    ensures ok ==> oldest == Oldest(c.seen.receipt.validations)
    ensures ok ==> targets == Narrowed(c.effect.action, AllTargets(c.seen.receipt.validations))
  {
    var a, vs := c.effect.action, c.seen.receipt.validations;
    targets, oldest := {}, 0;
    for i := 0 to |vs|
      invariant forall k :: 0 <= k < i ==> Current(c.effect.grant, c.before, vs[k])
      invariant i > 0 ==> oldest == Oldest(vs[..i])
      invariant targets == Narrowed(a, AllTargets(vs[..i]))
    {
      var current := CheckCurrent(c.effect.grant, c.before, vs[i]);
      if !current { return false, {}, 0; }
      assert vs[..i + 1] == vs[..i] + [vs[i]];
      OldestSnoc(vs[..i], vs[i]);
      oldest := if i == 0 then vs[i].generation else Min(oldest, vs[i].generation);
      NarrowedMore(a, vs[..i], vs[i]);
      targets := targets + Narrowed(a, PathsOf(vs[i].targets));
    }
    assert vs[..|vs|] == vs;
    return true, targets, oldest;
  }

  lemma AllTargetsSnoc(vs: seq<Evidence>, v: Evidence)
    ensures AllTargets(vs + [v]) == AllTargets(vs) + PathsOf(v.targets)
  {
    var all := vs + [v];
    forall p | p in AllTargets(vs) ensures p in AllTargets(all) {
      var k :| 0 <= k < |vs| && p in PathsOf(vs[k].targets);
      assert all[k] == vs[k];
    }
    forall p | p in PathsOf(v.targets) ensures p in AllTargets(all) {
      assert all[|vs|] == v;
    }
  }

  /** The artifacts a captured outcome may restore, all at its oldest check. */
  method TransferableValidation(c: Case) returns (targets: set<Path>, generation: nat)
    ensures targets == Targets(c.effect, c.seen, c.before)
    ensures targets != {} ==> generation == Cutoff(c.seen)
  {
    var a, r := c.effect.action, c.seen.receipt;
    if !r.status.Succeeded? || r.basis != Some(Established) || (!a.kind.Apply? && a.branch.Some?) { return {}, 0; }
    if r.validations == [] || !c.before.live { return {}, 0; }
    if a.kind.Apply? && !Intervenes(c.before, c.seen.preflight) { return {}, 0; }
    var ok;
    ok, targets, generation := Gather(c);
    if !ok || !Planned(c.seen.preflight.checks, r.validations) { return {}, 0; }
  }

  // ------------------------------------------------------------ properties

  function AssessedDuties(w: World, g: Grant, site: Site, a: Artifact): set<nat> {
    set d | d in DutiesOf(site, a.path) && Assessed(w, g, site, a, d)
  }

  /** The obligations of one artifact that stored validations still establish.
      Each operation's receipt is judged once and remembered. */
  method AssessProperties(w: World, g: Grant, site: Site, a: Artifact) returns (r: Result<set<nat>>)
    ensures r.Ok? <==> |DutiesOf(site, a.path)| <= DUTY_LIMIT
    ensures r.Ok? ==> r.value == AssessedDuties(w, g, site, a)
  {
    var todo := DutiesOf(site, a.path);
    if |todo| > DUTY_LIMIT { return Err(Exhausted); }
    var receipts: map<Op, bool> := map[];
    var validated: set<nat> := {};
    ghost var all := todo;
    while todo != {}
      invariant todo <= all
      invariant validated == set d | d in all - todo && Assessed(w, g, site, a, d)
      invariant forall op :: op in receipts ==>
                op in w.effects && receipts[op] == Vouches(g, site, op, w.effects[op].receipt)
    {
      var d :| d in todo;
      var f := Fact(Place(g.scope, a.path), d);
      if site.duties[d].readable && f in w.facts && w.facts[f].operation in w.effects {
        var row := w.facts[f];
        if row.operation !in receipts {
          receipts := receipts[row.operation := Vouches(g, site, row.operation, w.effects[row.operation].receipt)];
        }
        if receipts[row.operation] && row.obligation == site.duties[d].version && row.artifact == a.version
           && row.generation >= Stamp(w.book, f.place)
           && Property(VersionRef(d, row.obligation), a) in w.effects[row.operation].receipt.restoredProperties
        {
          validated := validated + {d};
        }
      }
      todo := todo - {d};
    }
    return Ok(validated);
  }

  // ---------------------------------------------------- recording one target

  /** The stored validations after renewing these obligations of one target. */
  ghost function Upserted(c: Case, p: Path, facts: map<Fact, Row>, duties: set<nat>): map<Fact, Row>
    requires p in c.before.files && duties <= c.site.duties.Keys
  {
    map f | f in facts.Keys + (set d | d in duties :: Fact(Place(c.effect.grant.scope, p), d)) ::
      if f.place == Place(c.effect.grant.scope, p) && f.duty in duties
        && (f !in facts || facts[f].generation <= Cutoff(c.seen))
      then Row(c.site.duties[f.duty].version, c.before.files[p], c.op, Cutoff(c.seen))
      else facts[f]
  }

  lemma UpsertedNone(c: Case, p: Path, facts: map<Fact, Row>)
    requires p in c.before.files
    ensures Upserted(c, p, facts, {}) == facts
  {
  }

  lemma UpsertedOne(c: Case, p: Path, facts: map<Fact, Row>, duties: set<nat>, d: nat)
    requires p in c.before.files && duties <= c.site.duties.Keys && d in c.site.duties
    ensures var f := Fact(Place(c.effect.grant.scope, p), d);
            var now := Upserted(c, p, facts, duties);
            var row := Row(c.site.duties[d].version, c.before.files[p], c.op, Cutoff(c.seen));
            Upserted(c, p, facts, duties + {d}) == if f !in now || now[f].generation <= Cutoff(c.seen)
              then now[f := row] else now
  {
  }

  /** The obligations one target's captured properties renew. */
  function RenewedDuties(c: Case, p: Path): set<nat>
    requires p in c.before.files
  {
    set d | d in c.site.duties
      && Offers(c.effect, c.seen, c.site, Property(VersionRef(d, c.site.duties[d].version), At(c.before, p)))
  }

  function OfferedProperties(c: Case, p: Path): set<Property>
    requires p in c.before.files
  {
    set k, pr | 0 <= k < |c.seen.receipt.validations| && pr in c.seen.receipt.validations[k].properties
      && pr.artifact == At(c.before, p) :: pr
  }

  method RecordTarget(c: Case, p: Path, facts: map<Fact, Row>) returns (out: map<Fact, Row>, renewed: set<nat>)
    requires p in c.before.files
    ensures renewed == RenewedDuties(c, p)
    ensures out == Upserted(c, p, facts, renewed)
  {
    out, renewed := facts, {};
    UpsertedNone(c, p, facts);
    var todo := OfferedProperties(c, p);
    var cutoff := Cutoff(c.seen);
    while todo != {}
      invariant todo <= OfferedProperties(c, p) && renewed <= RenewedDuties(c, p)
      invariant forall pr :: pr in OfferedProperties(c, p) - todo && Binds(c.effect.grant, c.site, pr) ==>
                pr.obligation.id in renewed
      invariant out == Upserted(c, p, facts, renewed)
    {
      var pr :| pr in todo;
      if Binds(c.effect.grant, c.site, pr) {
        var d := pr.obligation.id;
        var f := Fact(Place(c.effect.grant.scope, p), d);
        UpsertedOne(c, p, facts, renewed, d);
        if f !in out || out[f].generation <= cutoff {
          out := out[f := Row(pr.obligation.version, pr.artifact.version, c.op, cutoff)];
        }
        renewed := renewed + {d};
      }
      todo := todo - {pr};
    }
    forall d | d in RenewedDuties(c, p) ensures d in renewed {
      assert Property(VersionRef(d, c.site.duties[d].version), At(c.before, p)) in OfferedProperties(c, p);
    }
  }

  /** Whether every live obligation of a target is covered by current evidence. */
  method PropertiesCoverArtifact(c: Case, w: World, v: Book, facts: map<Fact, Row>, p: Path, previous: set<nat>,
          renewed: set<nat>)
    returns (r: Result<bool>)
    requires p in c.before.files && p in Accepted(c, v)
    requires renewed == RenewedDuties(c, p) && previous == AssessedDuties(w, c.effect.grant, c.before, At(c.before, p))
    ensures r.Ok? <==> |DutiesOf(c.site, p)| <= DUTY_LIMIT
    ensures r.Ok? ==> (r.value <==> Clears(c, w, v, facts, p))
  {
    var todo := DutiesOf(c.site, p);
    if |todo| > DUTY_LIMIT { return Err(Exhausted); }
    if todo == {} { return Ok(false); }
    var place := Place(c.effect.grant.scope, p);
    ghost var all := todo;
    while todo != {}
      invariant todo <= all
      invariant forall d :: d in all - todo ==> CoveredBy(c, w, v, facts, At(c.before, p), d)
    {
      var d :| d in todo;
      var duty, f := c.site.duties[d], Fact(place, d);
      var candidate := d in renewed || (d in previous && c.before.duties[d].version == duty.version);
      if !duty.readable || !candidate || f !in facts || facts[f].obligation != duty.version
         || facts[f].artifact != c.before.files[p] || facts[f].generation < Stamp(v, place)
      {
        assert !CoveredBy(c, w, v, facts, At(c.before, p), d);
        return Ok(false);
      }
      todo := todo - {d};
    }
    return Ok(true);
  }

  // ----------------------------------------------------------- finalization

  /** `Recorded`, for the targets already handled. */
  ghost function RecordedIn(c: Case, v: Book, facts: map<Fact, Row>, paths: set<Path>): map<Fact, Row> {
    map f | f in facts.Keys + Renewals(c, v) && (f in facts || f.place.path in paths) ::
      if f.place.path in paths && Renews(c, v, f) && (f !in facts || facts[f].generation <= Cutoff(c.seen))
      then Row(c.site.duties[f.duty].version, c.before.files[f.place.path], c.op, Cutoff(c.seen))
      else facts[f]
  }

  predicate SameRow(a: map<Fact, Row>, b: map<Fact, Row>, f: Fact) {
    (f in a <==> f in b) && (f in a ==> a[f] == b[f])
  }

  lemma SameRows(a: map<Fact, Row>, b: map<Fact, Row>)
    requires forall f :: SameRow(a, b, f)
    ensures a == b
  {
    assert forall f :: f in a ==> SameRow(a, b, f);
    assert forall f :: f in b ==> SameRow(a, b, f);
  }

  lemma RecordedInEnds(c: Case, v: Book, facts: map<Fact, Row>)
    ensures RecordedIn(c, v, facts, {}) == facts
    ensures RecordedIn(c, v, facts, Accepted(c, v)) == Recorded(c, v, facts)
  {
  }

  lemma RenewsThese(c: Case, v: Book, p: Path, f: Fact)
    requires p in Accepted(c, v) && p in c.before.files
    ensures Renews(c, v, f) && f.place.path == p <==>
            f.place == Place(c.effect.grant.scope, p) && f.duty in RenewedDuties(c, p)
    ensures Renews(c, v, f) ==> f in Renewals(c, v)
  {
  }

  lemma RecordedInAt(c: Case, v: Book, facts: map<Fact, Row>, paths: set<Path>, p: Path, f: Fact)
    requires p in Accepted(c, v) && p in c.before.files && p !in paths
    ensures SameRow(Upserted(c, p, RecordedIn(c, v, facts, paths), RenewedDuties(c, p)),
            RecordedIn(c, v, facts, paths + {p}), f)
  {
    RenewsThese(c, v, p, f);
    var before := RecordedIn(c, v, facts, paths);
    if f.place.path == p {
      assert f in before <==> f in facts;
    } else {
      assert f in before <==> f in RecordedIn(c, v, facts, paths + {p});
    }
  }

  lemma RecordedInOne(c: Case, v: Book, facts: map<Fact, Row>, paths: set<Path>, p: Path)
    requires p in Accepted(c, v) && p in c.before.files && p !in paths
    ensures Upserted(c, p, RecordedIn(c, v, facts, paths), RenewedDuties(c, p)) == RecordedIn(c, v, facts, paths + {p})
  {
    var once, whole := Upserted(c, p, RecordedIn(c, v, facts, paths), RenewedDuties(c, p)),
      RecordedIn(c, v, facts, paths + {p});
    forall f ensures SameRow(once, whole, f) { RecordedInAt(c, v, facts, paths, p, f); }
    SameRows(once, whole);
  }

  /** Whether a target clears depends only on its own stored validations. */
  lemma ClearsHere(c: Case, w: World, v: Book, facts: map<Fact, Row>, paths: set<Path>, p: Path)
    requires p in paths
    ensures Clears(c, w, v, RecordedIn(c, v, facts, paths), p) <==> Clears(c, w, v, Recorded(c, v, facts), p)
  {
    var here, all := RecordedIn(c, v, facts, paths), Recorded(c, v, facts);
    if p in c.before.files {
      forall d ensures CoveredBy(c, w, v, here, At(c.before, p), d) <==> CoveredBy(c, w, v, all, At(c.before, p), d) {
        var f := Fact(Place(c.effect.grant.scope, p), d);
        assert (f in here <==> f in all) && (f in here ==> here[f] == all[f]);
      }
    }
  }

  method InvalidateWrites(v: Book, s: Scope, writes: seq<Path>) returns (out: Book, sides: set<Path>)
    requires Bounded(v) && Aligned(v)
    ensures out == WrittenAll(v, s, writes) && sides == SideEffects(v, s, writes)
  {
    out, sides := v, {};
    for i := 0 to |writes|
      invariant out == WrittenAll(v, s, writes[..i]) && sides == SideEffects(v, s, writes[..i])
    {
      WrittenAllKeeps(v, s, writes[..i]);
      SameDepsBounded(v, out);
      var paths;
      out, paths := InvalidateDependents(out, s, writes[i]);
      sides := sides + paths;
      assert writes[..i + 1][..i] == writes[..i];
      SidesSnoc(v, s, writes[..i], writes[i]);
      assert writes[..i + 1] == writes[..i] + [writes[i]];
    }
    assert writes[..|writes|] == writes;
  }

  lemma SidesSnoc(v: Book, s: Scope, writes: seq<Path>, p: Path)
    ensures SideEffects(v, s, writes + [p]) == SideEffects(v, s, writes) + Affected(v.deps, s, p)
  {
    var all := writes + [p];
    forall q | q in SideEffects(v, s, writes) ensures q in SideEffects(v, s, all) {
      var k :| 0 <= k < |writes| && q in Affected(v.deps, s, writes[k]);
      assert all[k] == writes[k];
    }
    forall q | q in Affected(v.deps, s, p) ensures q in SideEffects(v, s, all) {
      assert all[|writes|] == p;
    }
  }

  method SpoilWrites(v: Book, s: Scope, writes: seq<Path>) returns (out: Book)
    requires Bounded(v) && Aligned(v)
    ensures out == SpoiledAll(v, s, writes)
  {
    out := v;
    for i := 0 to |writes|
      invariant out == SpoiledAll(v, s, writes[..i])
    {
      SpoiledAllKeeps(v, s, writes[..i]);
      SameDepsBounded(v, out);
      out := InvalidateArtifactAndDependents(out, s, writes[i]);
      assert writes[..i + 1][..i] == writes[..i];
    }
    assert writes[..|writes|] == writes;
  }

  ghost function ClearedIn(c: Case, w: World, v: Book, paths: set<Path>): set<Path> {
    set p | p in paths && p in Cleared(c, w, v, Recorded(c, v, w.facts))
  }

  function RenewedOf(c: Case, p: Path): set<Property>
    requires p in c.before.files
  {
    set d | d in RenewedDuties(c, p) :: Property(VersionRef(d, c.site.duties[d].version), At(c.before, p))
  }

  ghost function RenewedIn(c: Case, v: Book, paths: set<Path>): set<Property> {
    set p, pr | p in paths && p in Accepted(c, v) && p in c.before.files && pr in RenewedOf(c, p) :: pr
  }

  /** What the targets handled so far amount to. */
  ghost predicate Restoring(c: Case, w: World, v: Book, paths: set<Path>, facts: map<Fact, Row>, cleared: set<Path>,
          renewed: set<Property>) {
    facts == RecordedIn(c, v, w.facts, paths) && cleared == ClearedIn(c, w, v, paths)
      && renewed == RenewedIn(c, v, paths)
  }

  lemma NeverRenewed(c: Case, v: Book, p: Path, f: Fact)
    requires p !in Accepted(c, v) && f.place.path == p
    ensures !Renews(c, v, f) && f !in Renewals(c, v)
  {
  }

  lemma RecordedInSkipsAt(c: Case, v: Book, facts: map<Fact, Row>, paths: set<Path>, p: Path, f: Fact)
    requires p !in Accepted(c, v)
    ensures SameRow(RecordedIn(c, v, facts, paths + {p}), RecordedIn(c, v, facts, paths), f)
  {
    if f.place.path == p {
      NeverRenewed(c, v, p, f);
    } else {
      assert f.place.path in paths + {p} <==> f.place.path in paths;
    }
  }

  lemma RecordedInSkips(c: Case, v: Book, facts: map<Fact, Row>, paths: set<Path>, p: Path)
    requires p !in Accepted(c, v)
    ensures RecordedIn(c, v, facts, paths + {p}) == RecordedIn(c, v, facts, paths)
  {
    forall f ensures SameRow(RecordedIn(c, v, facts, paths + {p}), RecordedIn(c, v, facts, paths), f) {
      RecordedInSkipsAt(c, v, facts, paths, p, f);
    }
    SameRows(RecordedIn(c, v, facts, paths + {p}), RecordedIn(c, v, facts, paths));
  }

  lemma RenewedInSkips(c: Case, v: Book, paths: set<Path>, p: Path)
    requires p !in Accepted(c, v)
    ensures RenewedIn(c, v, paths + {p}) == RenewedIn(c, v, paths)
  {
  }

  lemma ClearedInSkips(c: Case, w: World, v: Book, paths: set<Path>, p: Path)
    requires !Clears(c, w, v, Recorded(c, v, w.facts), p)
    ensures ClearedIn(c, w, v, paths + {p}) == ClearedIn(c, w, v, paths)
  {
  }

  lemma RestoringSkips(c: Case, w: World, v: Book, paths: set<Path>, facts: map<Fact, Row>, cleared: set<Path>,
          renewed: set<Property>, p: Path)
    requires Restoring(c, w, v, paths, facts, cleared, renewed) && p !in Accepted(c, v)
    ensures Restoring(c, w, v, paths + {p}, facts, cleared, renewed)
  {
    RecordedInSkips(c, v, w.facts, paths, p);
    RenewedInSkips(c, v, paths, p);
    ClearedInSkips(c, w, v, paths, p);
  }

  lemma RenewedInOne(c: Case, v: Book, paths: set<Path>, p: Path)
    requires p in Accepted(c, v) && p in c.before.files
    ensures RenewedIn(c, v, paths + {p}) == RenewedIn(c, v, paths) + RenewedOf(c, p)
  {
  }

  lemma ClearedInOne(c: Case, w: World, v: Book, paths: set<Path>, p: Path)
    requires Clears(c, w, v, Recorded(c, v, w.facts), p)
    ensures ClearedIn(c, w, v, paths + {p}) == ClearedIn(c, w, v, paths) + {p}
  {
  }

  lemma RestoringOne(c: Case, w: World, v: Book, paths: set<Path>, facts: map<Fact, Row>, cleared: set<Path>,
          renewed: set<Property>, p: Path)
    requires Restoring(c, w, v, paths, facts, cleared, renewed) && p in Accepted(c, v) && p in c.before.files
             && p !in paths
    ensures var next := Upserted(c, p, facts, RenewedDuties(c, p));
            Restoring(c, w, v, paths + {p}, next,
                      if Clears(c, w, v, next, p) then cleared + {p} else cleared, renewed + RenewedOf(c, p))
  {
    RecordedInOne(c, v, w.facts, paths, p);
    ClearsHere(c, w, v, w.facts, paths + {p}, p);
    RenewedInOne(c, v, paths, p);
    if Clears(c, w, v, Recorded(c, v, w.facts), p) {
      ClearedInOne(c, w, v, paths, p);
    } else {
      ClearedInSkips(c, w, v, paths, p);
    }
  }

  lemma TargetsSeen(c: Case, p: Path)
    requires p in Targets(c.effect, c.seen, c.before)
    ensures p in c.before.files
  {
    var vs := c.seen.receipt.validations;
    var k :| 0 <= k < |vs| && p in PathsOf(vs[k].targets);
    assert Current(c.effect.grant, c.before, vs[k]);
  }

  /** Each accepted target in turn: store its properties, then test its cover. */
  method RestoreTargets(c: Case, w: World, v: Book, targets: set<Path>, cutoff: nat, previous: map<Path, set<nat>>)
    returns (r: Result<(map<Fact, Row>, set<Path>, set<Property>)>)
    requires targets == Targets(c.effect, c.seen, c.before) && (targets != {} ==> cutoff == Cutoff(c.seen))
    requires previous.Keys == targets
    requires forall p :: p in targets && p in c.before.files ==>
             previous[p] == AssessedDuties(w, c.effect.grant, c.before, At(c.before, p))
    ensures r.Ok? <==> Countable(c.site, Accepted(c, v))
    ensures r.Ok? ==> Restoring(c, w, v, targets, r.value.0, r.value.1, r.value.2)
  {
    var facts, cleared, renewed := w.facts, {}, {};
    var todo := targets;
    RecordedInEnds(c, v, w.facts);
    while todo != {}
      invariant todo <= targets
      invariant Restoring(c, w, v, targets - todo, facts, cleared, renewed)
      invariant forall p :: p in targets - todo && p in Accepted(c, v) ==> |DutiesOf(c.site, p)| <= DUTY_LIMIT
    {
      var p :| p in todo;
      TargetsSeen(c, p);
      assert targets - (todo - {p}) == (targets - todo) + {p};
      if Stamp(v, Place(c.effect.grant.scope, p)) > cutoff {
        RestoringSkips(c, w, v, targets - todo, facts, cleared, renewed, p);
      } else {
        RestoringOne(c, w, v, targets - todo, facts, cleared, renewed, p);
        var vouched;
        facts, vouched := RecordTarget(c, p, facts);
        var cover := PropertiesCoverArtifact(c, w, v, facts, p, previous[p], vouched);
        if cover.Err? { return Err(Exhausted); }
        if cover.value { cleared := cleared + {p}; }
        renewed := renewed + RenewedOf(c, p);
      }
      todo := todo - {p};
    }
    assert targets - todo == targets;
    return Ok((facts, cleared, renewed));
  }

  method AssessTargets(c: Case, w: World, targets: set<Path>) returns (r: Result<map<Path, set<nat>>>)
    requires targets == Targets(c.effect, c.seen, c.before)
    ensures r.Ok? <==> Countable(c.before, targets)
    ensures r.Ok? ==> r.value.Keys == targets
    ensures r.Ok? ==> forall p :: p in targets && p in c.before.files ==>
            r.value[p] == AssessedDuties(w, c.effect.grant, c.before, At(c.before, p))
  {
    var previous: map<Path, set<nat>> := map[];
    var todo := targets;
    while todo != {}
      invariant todo <= targets && previous.Keys == targets - todo
      invariant forall p :: p in targets - todo ==> |DutiesOf(c.before, p)| <= DUTY_LIMIT
      invariant forall p :: p in previous && p in c.before.files ==>
                previous[p] == AssessedDuties(w, c.effect.grant, c.before, At(c.before, p))
    {
      var p :| p in todo;
      TargetsSeen(c, p);
      var assessed := AssessProperties(w, c.effect.grant, c.before, At(c.before, p));
      if assessed.Err? { return Err(Exhausted); }
      previous := previous[p := assessed.value];
      todo := todo - {p};
    }
    return Ok(previous);
  }

  lemma RenewedAll(c: Case, v: Book)
    ensures RenewedIn(c, v, Targets(c.effect, c.seen, c.before)) <= Renewed(c, v)
  {
    var targets := Targets(c.effect, c.seen, c.before);
    forall pr | pr in RenewedIn(c, v, targets) ensures pr in Renewed(c, v) {
      var p :| p in targets && p in Accepted(c, v) && p in c.before.files && pr in RenewedOf(c, p);
      var d :| d in RenewedDuties(c, p) && pr == Property(VersionRef(d, c.site.duties[d].version), At(c.before, p));
      RenewsThese(c, v, p, Fact(Place(c.effect.grant.scope, p), d));
    }
  }

  lemma RenewedOnly(c: Case, v: Book, f: Fact)
    requires f in Renewals(c, v)
    ensures f.duty in c.site.duties && f.place.path in c.before.files
    ensures Property(VersionRef(f.duty, c.site.duties[f.duty].version), At(c.before, f.place.path))
            in RenewedIn(c, v, Targets(c.effect, c.seen, c.before))
  {
    RenewsThese(c, v, f.place.path, f);
    assert Property(VersionRef(f.duty, c.site.duties[f.duty].version), At(c.before, f.place.path))
           in RenewedOf(c, f.place.path);
  }

  lemma RenewedExactly(c: Case, v: Book)
    ensures RenewedIn(c, v, Targets(c.effect, c.seen, c.before)) == Renewed(c, v)
  {
    RenewedAll(c, v);
    forall f | f in Renewals(c, v)
      ensures f.duty in c.site.duties && f.place.path in c.before.files
      ensures Property(VersionRef(f.duty, c.site.duties[f.duty].version), At(c.before, f.place.path))
              in RenewedIn(c, v, Targets(c.effect, c.seen, c.before))
    {
      RenewedOnly(c, v, f);
    }
  }

  lemma RestoringAll(c: Case, w: World, v: Book, facts: map<Fact, Row>, cleared: set<Path>, renewed: set<Property>)
    requires Restoring(c, w, v, Targets(c.effect, c.seen, c.before), facts, cleared, renewed)
    ensures facts == Recorded(c, v, w.facts) && cleared == Cleared(c, w, v, facts) && renewed == Renewed(c, v)
  {
    RecordedInEnds(c, v, w.facts);
    RecordedInAll(c, v, w.facts);
    RenewedExactly(c, v);
  }

  lemma RecordedInAll(c: Case, v: Book, facts: map<Fact, Row>)
    ensures RecordedIn(c, v, facts, Targets(c.effect, c.seen, c.before)) == RecordedIn(c, v, facts, Accepted(c, v))
  {
  }

  method FinishTransaction(w: World, c: Case) returns (r: Result<World>)
    requires Bounded(w.book) && Aligned(w.book)
    ensures r.Ok? <==> Countable(c.before, Targets(c.effect, c.seen, c.before))
                       && Countable(c.site, Accepted(c, WrittenAll(w.book, c.effect.grant.scope, c.seen.writes)))
    ensures r.Ok? ==> r.value == Finished(w, c)
  {
    var s := c.effect.grant.scope;
    var targets, cutoff := TransferableValidation(c);
    var previous := AssessTargets(c, w, targets);
    if previous.Err? { return Err(previous.error); }
    var book, sides := InvalidateWrites(w.book, s, c.seen.writes);
    var restored := RestoreTargets(c, w, book, targets, cutoff, previous.value);
    if restored.Err? { return Err(restored.error); }
    var (facts, cleared, renewed) := restored.value;
    RestoringAll(c, w, book, facts, cleared, renewed);
    var invalid :=
      if targets == {} then book.invalid
      else
        map p | p in book.invalid && !(p.scope == s && p.path in cleared && book.invalid[p] <= cutoff)
          :: book.invalid[p];
    assert invalid == Unspoiled(book, s, cleared, Cutoff(c.seen)).invalid;
    var receipt := c.seen.receipt.(
      sideEffects := c.seen.receipt.sideEffects + sides,
      restored := set p | p in cleared && p in c.before.files :: At(c.before, p),
      restoredProperties := renewed);
    return Ok(w.(effects := w.effects[c.op := c.effect.(phase := Finalized, receipt := receipt)],
                 book := book.(invalid := invalid), facts := facts));
  }

  /** The fence query: some other row may still write the live workspace. */
  method FindHolder(w: World, op: Op) returns (found: bool)
    ensures found <==> Fenced(w, op)
  {
    var todo := w.effects.Keys - {op};
    while todo != {}
      invariant todo <= w.effects.Keys - {op}
      invariant forall other :: other in w.effects.Keys - {op} - todo ==> !Holds(w.effects[other])
    {
      var other :| other in todo;
      if Holds(w.effects[other]) { return true; }
      todo := todo - {other};
    }
    return false;
  }

  // --------------------------------------------------------------- execute

  predicate SameOp(w: World, x: World, o: Op) {
    && (o in x.effects <==> o in w.effects) && (o in w.effects ==> x.effects[o] == w.effects[o])
    && (o in x.frames <==> o in w.frames) && (o in w.frames ==> x.frames[o] == w.frames[o])
    && Calls(x, o) == Calls(w, o)
  }

  /** Only this operation's row, frame and calls may have moved. */
  ghost predicate Spared(w: World, x: World, op: Op) {
    forall o {:trigger SameOp(w, x, o)} :: o != op ==> SameOp(w, x, o)
  }

  lemma SparedTrans(w: World, x: World, y: World, op: Op)
    requires Spared(w, x, op) && Spared(x, y, op)
    ensures Spared(w, y, op)
  {
    forall o | o != op ensures SameOp(w, y, o) { assert SameOp(w, x, o) && SameOp(x, y, o); }
  }

  /** The dispatch guards that precede an adapter call. */
  ghost predicate Admits(w: World, op: Op, run: Run, writes: seq<Path>, open: set<Run>) {
    run in open && (writes != [] ==> !Fenced(w, op))
  }

  /** The frame of a new operation after its intent and checker plan are durable. */
  ghost predicate Poised(w: World, op: Op, run: Run, action: Action, plan: Preflight) {
    && Valid(w) && InStage(w, op, Ready) && w.effects[op].phase.Prepared?
    && w.effects[op].run == run && w.effects[op].action == action && w.frames[op].seen.preflight == plan
  }

  method CommitIntent(w: World, op: Op, grant: Grant, run: Run, action: Action) returns (x: World)
    requires Valid(w) && op !in w.effects
    ensures Poised(x, op, run, action, NoPlan) && x.calls == w.calls && x.frames[op].seen.receipt == Intent
    ensures x.effects == w.effects[op := x.effects[op]]
    ensures Spared(w, x, op)
  {
    StepKeeps(w, Step.Intend(op, grant, run, action));
    x := w.(effects := w.effects[op := Effect(grant, run, action, Prepared, Intent, [], 0, None, false)],
            frames := w.frames[op := Frame(Ready, Observation(Intent, [], 0, NoPlan))]);
  }

  /** `pin_effect_checks`. */
  method PinPlan(w: World, op: Op, plan: Preflight) returns (x: World)
    requires Valid(w) && InStage(w, op, Ready) && w.effects[op].phase.Prepared?
             && w.frames[op].seen.receipt.validations == []
    ensures Poised(x, op, w.effects[op].run, w.effects[op].action, plan) && x.calls == w.calls && x.effects == w.effects
    ensures Spared(w, x, op)
    ensures x.frames[op].seen.receipt == w.frames[op].seen.receipt
  {
    StepKeeps(w, Plan(op, plan));
    x := w.(frames := w.frames[op := Frame(Ready, w.frames[op].seen.(preflight := plan))]);
  }

  method Poise(w: World, op: Op, grant: Grant, run: Run, action: Action, plan: Preflight) returns (x: World)
    requires Valid(w) && op !in w.effects
    ensures Poised(x, op, run, action, plan) && x.calls == w.calls
    ensures x.effects == w.effects[op := x.effects[op]]
    ensures Spared(w, x, op)
    ensures x.frames[op].seen.receipt.validations == []
  {
    var y := CommitIntent(w, op, grant, run, action);
    x := PinPlan(y, op, plan);
    SparedTrans(w, y, x, op);
  }

  /** A frame whose adapter has answered, or never had to. */
  ghost predicate Answered(w: World, op: Op, called: bool) {
    && Valid(w) && CanCapture(w, op) && Calls(w, op) == (if called then 1 else 0)
    && (!called ==> w.frames[op].seen.receipt.basis == Some(NotDispatched))
  }

  method DispatchNow(w: World, op: Op, writes: seq<Path>, open: set<Run>) returns (x: World)
    requires Valid(w) && CanDispatch(w, op, writes, open)
    ensures Valid(x) && InStage(x, op, Issued) && x.effects[op].phase.Dispatching? && x.calls == w.calls
    ensures x.effects[op].action == w.effects[op].action && Calls(x, op) == 0
    ensures Spared(w, x, op)
  {
    StepKeeps(w, Dispatch(op, writes, open));
    assert Framed(w, op);
    var e, seen, now := w.effects[op], w.frames[op].seen, Now(w.book, w.effects[op].grant.scope);
    x := w.(effects :=
      w.effects[op := e.(phase := Dispatching, receipt := seen.receipt, potential := writes, generation := now)],
            frames := w.frames[op := Frame(Issued, seen.(writes := writes, generation := now))]);
  }

  method CallNow(w: World, op: Op) returns (x: World)
    requires Valid(w) && InStage(w, op, Issued) && Calls(w, op) == 0
    ensures Valid(x) && InStage(x, op, Calling) && x.calls == w.calls[op := 1] && x.effects == w.effects
    ensures Spared(w, x, op)
  {
    StepKeeps(w, Call(op));
    x := w.(calls := w.calls[op := 1], frames := w.frames[op := Frame(Calling, w.frames[op].seen)]);
  }

  method ReturnNow(w: World, op: Op, outcome: Outcome) returns (x: World)
    requires Valid(w) && InStage(w, op, Calling) && Fits(w.effects[op].action, outcome)
    ensures Valid(x) && InStage(x, op, Returned) && x.calls == w.calls && x.effects == w.effects
    ensures Spared(w, x, op)
  {
    StepKeeps(w, Return(op, outcome));
    x := w.(frames := w.frames[op := Frame(Returned, ReturnedWith(w.effects[op], op, w.frames[op].seen, outcome))]);
  }

  method CallAdapter(w: World, op: Op, writes: seq<Path>, open: set<Run>, outcome: Outcome) returns (x: World)
    requires Valid(w) && CanDispatch(w, op, writes, open) && Fits(w.effects[op].action, outcome)
    ensures Answered(x, op, true) && x.calls == w.calls[op := 1]
    ensures Spared(w, x, op)
  {
    var y := DispatchNow(w, op, writes, open);
    var z := CallNow(y, op);
    SparedTrans(w, y, z, op);
    x := ReturnNow(z, op, outcome);
    SparedTrans(w, z, x, op);
  }

  method GiveUp(w: World, op: Op, status: Status) returns (x: World)
    requires Valid(w) && InStage(w, op, Ready) && w.effects[op].phase.Prepared?
             && (status.Refused? || status.Stale? || status.Failed?)
    ensures Answered(x, op, false) && x.calls == w.calls
    ensures Spared(w, x, op)
  {
    assert Framed(w, op);
    StepKeeps(w, Abort(op, status));
    x := w.(frames := w.frames[op := Frame(Returned, Aborted(w.effects[op], w.frames[op].seen, status))]);
  }

  method CaptureOutcome(w: World, op: Op) returns (x: World)
    requires Valid(w) && CanCapture(w, op)
    ensures Valid(x) && x == After(w, Capture(op)) && x.calls == w.calls
    ensures op in x.effects && x.effects[op].phase.Observed? && x.effects[op].observation == Some(w.frames[op].seen)
    ensures Spared(w, x, op)
  {
    StepKeeps(w, Capture(op));
    x := w.(effects := w.effects[op := w.effects[op].(phase := Observed, observation := Some(w.frames[op].seen))],
            frames := w.frames - {op});
  }

  lemma PoisedDispatches(w: World, op: Op, run: Run, action: Action, plan: Preflight, writes: seq<Path>, open: set<Run>)
    requires Poised(w, op, run, action, plan) && !action.kind.Apply? && Announces(action, writes)
    requires action.kind.Check? || action.kind.Execute? ==> |plan.checks| == 1 && Some(plan.checks[0].0) == action.tool
    ensures CanDispatch(w, op, writes, open) <==> Admits(w, op, run, writes, open)
  {
  }

  /** The guards, then the adapter call or the refusal. */
  method CallOrRefuse(w: World, op: Op, run: Run, action: Action, plan: Preflight, writes: seq<Path>, open: set<Run>,
          outcome: Outcome) returns (x: World)
    requires Poised(w, op, run, action, plan) && !action.kind.Apply? && Announces(action, writes)
             && Fits(action, outcome)
    requires action.kind.Check? || action.kind.Execute? ==> |plan.checks| == 1 && Some(plan.checks[0].0) == action.tool
    ensures Answered(x, op, Admits(w, op, run, writes, open))
    ensures x.calls == if Admits(w, op, run, writes, open) then w.calls[op := 1] else w.calls
    ensures Spared(w, x, op)
  {
    PoisedDispatches(w, op, run, action, plan, writes, open);
    var held := FindHolder(w, op);
    if run in open && (writes == [] || !held) {
      x := CallAdapter(w, op, writes, open, outcome);
    } else {
      x := GiveUp(w, op, Refused);
    }
  }

  /** `execute` for a new operation without nested checks, up to the captured
      outcome: one adapter call if the guards admit it, and none otherwise. */
  method ExecuteNew(w: World, op: Op, grant: Grant, run: Run, action: Action, plan: Preflight, writes: seq<Path>,
          open: set<Run>, outcome: Outcome)
    returns (x: World)
    requires Valid(w) && op !in w.effects && !action.kind.Apply? && Announces(action, writes) && Fits(action, outcome)
    requires action.kind.Check? || action.kind.Execute? ==> |plan.checks| == 1 && Some(plan.checks[0].0) == action.tool
    ensures Valid(x) && op in x.effects && x.effects[op].phase.Observed? && x.effects[op].observation.Some?
    ensures x.calls == if Admits(w, op, run, writes, open) then w.calls[op := 1] else w.calls
    ensures !Admits(w, op, run, writes, open) ==> x.effects[op].observation.value.receipt.basis == Some(NotDispatched)
    ensures Spared(w, x, op)
  {
    var y := Poise(w, op, grant, run, action, plan);
    FencedSame(w, y, op);
    var z := CallOrRefuse(y, op, run, action, plan, writes, open, outcome);
    SparedTrans(w, y, z, op);
    x := CaptureOutcome(z, op);
    SparedTrans(w, z, x, op);
  }

  lemma FencedSame(w: World, x: World, op: Op)
    requires forall other :: other in x.effects && other != op ==>
             other in w.effects && x.effects[other] == w.effects[other]
    requires forall other :: other in w.effects ==> other in x.effects
    ensures Fenced(x, op) <==> Fenced(w, op)
  {
    if Fenced(w, op) {
      var other :| other in w.effects && other != op && Holds(w.effects[other]);
      assert other in x.effects;
    }
  }

  /** Recovery's observation restores nothing, so it can always be finalized. */
  lemma RecoveryFinalizes(w: World, op: Op, matches: bool, before: Site, site: Site)
    requires Valid(w) && CanReconcile(w, op)
    ensures var x := Reconciled(w, op, matches); Valid(x) && Enabled(x, Finalize(op, before, site))
    ensures var c := CaseOf(Reconciled(w, op, matches), op, before, site); Targets(c.effect, c.seen, before) == {}
  {
    var x := Reconciled(w, op, matches);
    ReconcileKeeps(w, op, matches);
    var c := CaseOf(x, op, before, site);
    var v := WrittenAll(x.book, c.effect.grant.scope, c.seen.writes);
    assert Targets(c.effect, c.seen, c.before) == {} && Accepted(c, v) == {};
  }

  /** What recovery leaves: an unknown receipt that claims and restores nothing. */
  ghost predicate Uncaptured(w: World, op: Op, y: World) {
    && Valid(y) && y.calls == w.calls && op in y.effects && y.effects[op].phase.Finalized?
    && var r := y.effects[op].receipt;
    && r.status.Unknown? && r.reconciled && r.restored == {} && r.restoredProperties == {}
  }

  lemma RecoveryEnds(w: World, op: Op, matches: bool, before: Site, site: Site)
    requires Valid(w) && CanReconcile(w, op)
    ensures var x := Reconciled(w, op, matches); Uncaptured(w, op, Finished(x, CaseOf(x, op, before, site)))
  {
    var x := Reconciled(w, op, matches);
    var c := CaseOf(x, op, before, site);
    var v := WrittenAll(x.book, c.effect.grant.scope, c.seen.writes);
    RecoveryFinalizes(w, op, matches, before, site);
    FinalizeKeeps(x, op, before, site);
    assert Accepted(c, v) == {};
    assert Renewals(c, v) == {};
  }

  lemma FinalHonest(w: World, op: Op)
    requires Valid(w) && op in w.effects && w.effects[op].phase.Finalized?
    ensures Honest(w.effects[op].receipt, Calls(w, op))
  {
    assert Told(w, op);
  }

  lemma FinishedSpares(w: World, c: Case)
    ensures Spared(w, Finished(w, c), c.op)
  {
    forall o | o != c.op ensures SameOp(w, Finished(w, c), o) {}
  }

  lemma ReconciledSpares(w: World, op: Op, matches: bool)
    requires CanReconcile(w, op)
    ensures Spared(w, Reconciled(w, op, matches), op)
  {
    forall o | o != op ensures SameOp(w, Reconciled(w, op, matches), o) {}
  }

  // ----------------------------------------------------------- applications

  /** One acceptance check of an application: its operation, the checker it is
      prepared with and what it meets. */
  datatype Trial = Trial(op: Op, checker: Version, open: set<Run>, outcome: Outcome, matches: bool, before: Site,
    site: Site)

  function CheckAction(a: Action, name: Name): Action {
    Action(Check, None, None, a.branch, Some(name))
  }

  /** The operation ids of an application's checks are derived from its own. */
  predicate Separate(op: Op, trials: seq<Trial>) {
    && (forall k :: 0 <= k < |trials| ==> trials[k].op != op)
    && forall j, k :: 0 <= j < k < |trials| ==> trials[j].op != trials[k].op
  }

  predicate TrialFits(a: Action, trial: Trial) {
    Fits(CheckAction(a, 0), trial.outcome)
  }

  /** A finalized check that established its one planned validation. */
  predicate Passed(w: World, check: Op, planned: (Name, Version)) {
    && check in w.effects && w.effects[check].phase.Finalized?
    && var r := w.effects[check].receipt;
    && r.status.Succeeded? && r.basis == Some(Effects.Established)
    && |r.validations| == 1 && r.validations[0].passed && planned == (r.validations[0].check, r.validations[0].checker)
  }

  ghost predicate AllPassed(w: World, plan: Preflight, trials: seq<Trial>, n: nat) {
    n <= |trials| && n <= |plan.checks| && forall k :: 0 <= k < n ==> Passed(w, trials[k].op, plan.checks[k])
  }

  lemma PassedStays(w: World, x: World, op: Op, plan: Preflight, trials: seq<Trial>, n: nat)
    requires AllPassed(w, plan, trials, n) && Spared(w, x, op) && forall k :: 0 <= k < n ==> trials[k].op != op
    ensures AllPassed(x, plan, trials, n)
  {
    forall k | 0 <= k < n ensures Passed(x, trials[k].op, plan.checks[k]) { assert SameOp(w, x, trials[k].op); }
  }

  /** The frame of an application that has collected its first `n` checks. */
  ghost predicate Applying(w: World, op: Op, run: Run, action: Action, plan: Preflight, n: nat) {
    Poised(w, op, run, action, plan) && Calls(w, op) == 0 && |w.frames[op].seen.receipt.validations| == n
  }

  /** What an application's adapter call stood on: an open run, an intervention and
      at least one acceptance check, all of them passed as planned. */
  ghost predicate Applicable(w: World, run: Run, plan: Preflight, trials: seq<Trial>, open: set<Run>) {
    run in open && plan.intervention.Some? && plan.checks != [] && AllPassed(w, plan, trials, |plan.checks|)
  }

  method CollectCheck(w: World, op: Op, check: Op) returns (x: World)
    requires Valid(w) && Certifies(w, op, check) && w.effects[op].phase.Prepared?
    ensures Applying(w, op, w.effects[op].run, w.effects[op].action, w.frames[op].seen.preflight,
            |w.frames[op].seen.receipt.validations|) ==>
              Applying(x, op, w.effects[op].run, w.effects[op].action, w.frames[op].seen.preflight,
                |w.frames[op].seen.receipt.validations| + 1)
    ensures Valid(x) && x.effects == w.effects && Spared(w, x, op)
  {
    StepKeeps(w, Collect(op, check));
    x := w.(frames := w.frames[op := WithCheck(w.frames[op], w.effects[check].receipt.validations[0])]);
  }

  /** The guards of an application whose checks are collected, then the adapter
      call or the refusal. */
  method ApplyOrRefuse(w: World, op: Op, run: Run, action: Action, plan: Preflight, writes: seq<Path>, open: set<Run>,
          outcome: Outcome)
    returns (x: World)
    requires Poised(w, op, run, action, plan) && Calls(w, op) == 0 && Announces(action, writes) && Fits(action, outcome)
    ensures Answered(x, op, CanDispatch(w, op, writes, open)) && Spared(w, x, op)
  {
    var held := FindHolder(w, op);
    if run in open && Checked(action, w.frames[op].seen) && (writes == [] || !held) {
      x := CallAdapter(w, op, writes, open, outcome);
    } else {
      x := GiveUp(w, op, Refused);
    }
  }

  class Store {
    /** The durable tables, with the frames of running calls beside them. */
    var world: World

    constructor ()
      ensures world == Empty
    {
      world := Empty;
    }

    /** `execute` up to the committed intent; a known operation is not redone. */
    method Intend(op: Op, grant: Grant, run: Run, action: Action) returns (r: Result<bool>)
      modifies this
      ensures r.Ok? && r.value ==> Enabled(old(world), Step.Intend(op, grant, run, action))
                                   && world == After(old(world), Step.Intend(op, grant, run, action))
      ensures !(r.Ok? && r.value) ==> world == old(world) && op in world.effects
      ensures op in old(world).effects ==>
              (r.Ok? <==> old(world).effects[op].grant.id == grant.id && old(world).effects[op].action == action)
    {
      if op in world.effects {
        var e := world.effects[op];
        if e.grant.id != grant.id || e.action != action { return Err(Conflict); }
        return Ok(false);
      }
      world := world.(effects := world.effects[op := Effect(grant, run, action, Prepared, Intent, [], 0, None, false)],
                      frames := world.frames[op := Frame(Ready, Observation(Intent, [], 0, NoPlan))]);
      return Ok(true);
    }

    /** Guards, clock reading and the phase change in one step. `ready` says that the
        grant is unchanged, the run not cancelled, its attachment allows the action,
        the intervention has its pinned version and the properties still bind. */
    method StartDispatch(op: Op, writes: seq<Path>, open: set<Run>, ready: bool) returns (r: Result<nat>)
      requires InStage(world, op, Ready) && Announces(world.effects[op].action, writes)
               && Checked(world.effects[op].action, world.frames[op].seen)
      modifies this
      ensures r.Ok? <==> ready && CanDispatch(old(world), op, writes, open)
      ensures world == if r.Ok? then After(old(world), Dispatch(op, writes, open)) else old(world)
      ensures r.Ok? ==> r.value == Now(world.book, world.effects[op].grant.scope)
    {
      var e, seen := world.effects[op], world.frames[op].seen;
      if e.run !in open || !ready { return Err(Denied); }
      if writes != [] {
        var unsettled := FindHolder(world, op);
        if unsettled { return Err(Denied); }
      }
      if !e.phase.Prepared? { return Err(Conflict); }
      var now := Now(world.book, e.grant.scope);
      world := world.(
        effects :=
          world.effects[op :=
            e.(phase := Dispatching, receipt := seen.receipt, potential := writes, generation := now)],
        frames := world.frames[op := Frame(Issued, seen.(writes := writes, generation := now))]);
      return Ok(now);
    }

    method CaptureEffect(op: Op) returns (r: Result<()>)
      requires InStage(world, op, Returned)
      modifies this
      ensures r.Ok? <==> CanCapture(old(world), op)
      ensures world == if r.Ok? then After(old(world), Capture(op)) else old(world)
    {
      var e := world.effects[op];
      if !e.phase.Prepared? && !e.phase.Dispatching? { return Err(Conflict); }
      world := world.(effects := world.effects[op := e.(phase := Observed, observation := Some(world.frames[op].seen))],
                      frames := world.frames - {op});
      return Ok(());
    }

    /** Finalizing an operation that already is returns its receipt unchanged. */
    method FinalizeEffect(op: Op, before: Site, site: Site) returns (r: Result<Receipt>)
      requires Valid(world)
      modifies this
      ensures Valid(world) && world.calls == old(world).calls
      ensures op !in old(world).effects ==> r == Err(Missing) && world == old(world)
      ensures op in old(world).effects && old(world).effects[op].phase.Finalized? ==>
              r == Ok(old(world).effects[op].receipt) && world == old(world)
      ensures r.Ok? ==>
              op in world.effects && world.effects[op].phase.Finalized? && r.value == world.effects[op].receipt
      ensures op in old(world).effects && !old(world).effects[op].phase.Finalized? ==>
                && (r.Ok? <==> Enabled(old(world), Finalize(op, before, site)))
                && world == if r.Ok? then After(old(world), Finalize(op, before, site)) else old(world)
      ensures Spared(old(world), world, op)
    {
      if op !in world.effects { return Err(Missing); }
      var e := world.effects[op];
      assert Told(world, op);
      if e.phase.Finalized? { return Ok(e.receipt); }
      if !e.phase.Observed? { return Err(Conflict); }
      var finished := FinishTransaction(world, CaseOf(world, op, before, site));
      if finished.Err? { return Err(finished.error); }
      StepKeeps(world, Finalize(op, before, site));
      FinishedSpares(world, CaseOf(world, op, before, site));
      world := finished.value;
      return Ok(world.effects[op].receipt);
    }

    /** Records that no adapter outcome was captured, and finalizes that. */
    method Reconcile(op: Op, matches: bool, before: Site, site: Site) returns (r: Receipt)
      requires Valid(world) && CanReconcile(world, op)
      modifies this
      ensures world == var x := Reconciled(old(world), op, matches); Finished(x, CaseOf(x, op, before, site))
      ensures Uncaptured(old(world), op, world) && r == world.effects[op].receipt && Spared(old(world), world, op)
    {
      RecoveryFinalizes(world, op, matches, before, site);
      RecoveryEnds(world, op, matches, before, site);
      var x := Reconciled(world, op, matches);
      var finished := FinishTransaction(x, CaseOf(x, op, before, site));
      ReconciledSpares(world, op, matches);
      FinishedSpares(x, CaseOf(x, op, before, site));
      SparedTrans(world, x, finished.value, op);
      world := finished.value;
      r := world.effects[op].receipt;
    }

    /** Recovery: finish what was captured, otherwise record that nothing was.
        It never calls an adapter, and its receipt is honest about past calls. */
    method LookupForRecovery(op: Op, matches: bool, before: Site, site: Site) returns (r: Result<Receipt>)
      requires Valid(world)
      modifies this
      ensures Valid(world) && world.calls == old(world).calls && Spared(old(world), world, op)
      ensures r.Ok? ==>
              op in world.effects && world.effects[op].phase.Finalized? && r.value == world.effects[op].receipt
      ensures r.Ok? ==> Honest(r.value, Calls(world, op))
      ensures op in old(world).effects && old(world).effects[op].phase.Finalized? ==> world == old(world) && r.Ok?
      ensures CanReconcile(old(world), op) ==>
              r.Ok? && r.value.status.Unknown? && r.value.reconciled && r.value.restored == {}
    {
      if op !in world.effects { return Err(Missing); }
      var phase := world.effects[op].phase;
      if phase.Prepared? || phase.Dispatching? {
        var receipt := Reconcile(op, matches, before, site);
        r := Ok(receipt);
      } else {
        r := FinalizeEffect(op, before, site);
      }
      if r.Ok? { FinalHonest(world, op); }
    }

    /** `execute` for anything but an application. */
    method ExecutePlain(op: Op, grant: Grant, run: Run, action: Action, plan: Preflight, writes: seq<Path>,
            open: set<Run>, outcome: Outcome,
                        matches: bool, before: Site, site: Site) returns (r: Result<Receipt>)
      requires Valid(world) && !action.kind.Apply? && Announces(action, writes) && Fits(action, outcome)
      requires action.kind.Check? || action.kind.Execute? ==>
               |plan.checks| == 1 && Some(plan.checks[0].0) == action.tool
      modifies this
      ensures Valid(world) && Spared(old(world), world, op)
      ensures op in old(world).effects ==> world.calls == old(world).calls
      ensures op in old(world).effects
              && (old(world).effects[op].grant.id != grant.id || old(world).effects[op].action != action) ==>
                r == Err(Conflict) && world == old(world)
      ensures op !in old(world).effects ==>
                world.calls == if Admits(old(world), op, run, writes, open) then old(world).calls[op := 1]
                  else old(world).calls
      ensures r.Ok? ==>
              op in world.effects && world.effects[op].phase.Finalized? && r.value == world.effects[op].receipt
      ensures r.Ok? ==> Honest(r.value, Calls(world, op))
    {
      if op in world.effects {
        if world.effects[op].grant.id != grant.id || world.effects[op].action != action { return Err(Conflict); }
        r := LookupForRecovery(op, matches, before, site);
        return;
      }
      var executed := ExecuteNew(world, op, grant, run, action, plan, writes, open, outcome);
      ghost var start := world;
      world := executed;
      r := FinalizeEffect(op, before, site);
      SparedTrans(start, executed, world, op);
      if r.Ok? { FinalHonest(world, op); }
    }

    /** The acceptance checks of an application, each an operation of its own; the
        first that does not certify its part of the plan ends them. */
    method RunTrials(op: Op, grant: Grant, run: Run, action: Action, plan: Preflight, trials: seq<Trial>)
      returns (passed: bool)
      requires Applying(world, op, run, action, plan, 0) && action.kind.Apply?
      requires |trials| == |plan.checks| && Separate(op, trials) && forall k :: 0 <= k < |trials| ==>
               TrialFits(action, trials[k])
      modifies this
      ensures Poised(world, op, run, action, plan) && Calls(world, op) == 0
      ensures passed ==> AllPassed(world, plan, trials, |plan.checks|)
      ensures !passed ==> |world.frames[op].seen.receipt.validations| < |plan.checks|
    {
      for k := 0 to |trials|
        invariant Applying(world, op, run, action, plan, k) && AllPassed(world, plan, trials, k)
      {
        var trial, name := trials[k], plan.checks[k].0;
        ghost var start := world;
        var result :=
          ExecutePlain(trial.op, grant, run, CheckAction(action, name), Preflight([(name, trial.checker)], None), [],
                                   trial.open, trial.outcome, trial.matches, trial.before, trial.site);
        assert SameOp(start, world, op);
        PassedStays(start, world, trial.op, plan, trials, k);
        if result.Err? || !Certifies(world, op, trial.op) { return false; }
        assert Passed(world, trial.op, plan.checks[k]);
        ghost var checked := world;
        world := CollectCheck(world, op, trial.op);
        PassedStays(checked, world, op, plan, trials, k);
      }
      return true;
    }

    /** `execute` for a new application: its intent and plan, its checks, and the
        adapter call they allow. */
    method ApplyNew(op: Op, grant: Grant, run: Run, action: Action, plan: Preflight, trials: seq<Trial>,
            writes: seq<Path>, open: set<Run>,
                    outcome: Outcome)
      requires Valid(world) && op !in world.effects && action.kind.Apply? && Announces(action, writes)
               && Fits(action, outcome)
      requires |trials| == |plan.checks| && Separate(op, trials) && forall k :: 0 <= k < |trials| ==>
               TrialFits(action, trials[k])
      modifies this
      ensures Valid(world) && op in world.effects && world.effects[op].phase.Observed?
      ensures Calls(world, op) > 0 ==> Applicable(world, run, plan, trials, open)
    {
      world := Poise(world, op, grant, run, action, plan);
      var passed := RunTrials(op, grant, run, action, plan, trials);
      ghost var checked := world;
      var answered := ApplyOrRefuse(world, op, run, action, plan, writes, open, outcome);
      world := CaptureOutcome(answered, op);
      SparedTrans(checked, answered, world, op);
      if passed { PassedStays(checked, world, op, plan, trials, |plan.checks|); }
    }

    /** `execute`: a known operation is looked up, never redone; a new one calls its
        adapter at most once, and an application only behind its passed checks. */
    method Execute(op: Op, grant: Grant, run: Run, action: Action, plan: Preflight, trials: seq<Trial>,
            writes: seq<Path>, open: set<Run>,
                   outcome: Outcome, matches: bool, before: Site, site: Site) returns (r: Result<Receipt>)
      requires Valid(world) && Announces(action, writes) && Fits(action, outcome)
      requires action.kind.Check? || action.kind.Execute? ==>
               |plan.checks| == 1 && Some(plan.checks[0].0) == action.tool
      requires |trials| == |plan.checks| && Separate(op, trials) && forall k :: 0 <= k < |trials| ==>
               TrialFits(action, trials[k])
      modifies this
      ensures Valid(world)
      ensures op in old(world).effects ==> world.calls == old(world).calls
      ensures op in old(world).effects
              && (old(world).effects[op].grant.id != grant.id || old(world).effects[op].action != action) ==>
                r == Err(Conflict) && world == old(world)
      ensures op !in old(world).effects && !action.kind.Apply? ==>
                world.calls == if Admits(old(world), op, run, writes, open) then old(world).calls[op := 1]
                  else old(world).calls
      ensures op !in old(world).effects && action.kind.Apply? && Calls(world, op) > 0 ==>
              Applicable(world, run, plan, trials, open)
      ensures r.Ok? ==>
              op in world.effects && world.effects[op].phase.Finalized? && r.value == world.effects[op].receipt
      ensures r.Ok? ==> Honest(r.value, Calls(world, op))
    {
      if !action.kind.Apply? {
        r := ExecutePlain(op, grant, run, action, plan, writes, open, outcome, matches, before, site);
      } else if op in world.effects {
        if world.effects[op].grant.id != grant.id || world.effects[op].action != action { return Err(Conflict); }
        r := LookupForRecovery(op, matches, before, site);
      } else {
        ApplyNew(op, grant, run, action, plan, trials, writes, open, outcome);
        ghost var applied := world;
        r := FinalizeEffect(op, before, site);
        if Calls(applied, op) > 0 { PassedStays(applied, world, op, plan, trials, |plan.checks|); }
        if r.Ok? { FinalHonest(world, op); }
      }
    }

    /** The owner attests that the executor has stopped. `current` says that the
        receipt, the workspace and the cited sources are as the request states them,
        `same` that the request repeats the recorded settlement. */
    method SettleEffect(op: Op, running: set<Run>, current: bool, same: bool) returns (r: Result<()>)
      requires Valid(world)
      modifies this
      ensures Valid(world)
      ensures r.Ok? <==>
              current && (CanSettle(old(world), op, running)
                || (op in old(world).effects && old(world).effects[op].settled && same))
      ensures world == if r.Ok? && !old(world).effects[op].settled then After(old(world), Settle(op, running))
              else old(world)
    {
      if op !in world.effects { return Err(Missing); }
      var e := world.effects[op];
      assert Told(world, op);
      if !current { return Err(Conflict); }
      if e.settled && same { return Ok(()); }
      if e.settled || e.run in running || !e.phase.Finalized? || !e.receipt.status.Unknown? { return Err(Conflict); }
      var book := SpoilWrites(world.book, e.grant.scope, e.observation.value.writes);
      StepKeeps(world, Settle(op, running));
      world := world.(effects := world.effects[op := e.(settled := true)], book := book);
      return Ok(());
    }
  }
}
