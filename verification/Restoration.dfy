/** No stale check restores validity: what an artifact's leaving the invalidated
    set proves about the checks behind it, in one step and over whole runs. */
module Restoration {
  import opened Outcomes
  import opened Validity
  import opened Effects
  import opened Journal

  lemma {:induction false} OldestIsLeast(vs: seq<Evidence>, k: nat)
    requires k < |vs|
    ensures Oldest(vs) <= vs[k].generation
  {
    if |vs| > 1 && k > 0 { OldestIsLeast(vs[1..], k - 1); }
  }

  lemma {:induction false} OldestIsOne(vs: seq<Evidence>) returns (k: nat)
    requires vs != []
    ensures k < |vs| && Oldest(vs) == vs[k].generation
  {
    if |vs| == 1 || vs[0].generation < Oldest(vs[1..]) {
      k := 0;
    } else {
      k := OldestIsOne(vs[1..]);
      k := k + 1;
    }
  }

  // ---------------------------------------------------------- stored facts

  /** Every check of a receipt passed, and none is older than a generation. */
  predicate PassedSince(r: Receipt, since: nat) {
    && r.status.Succeeded? && r.basis == Some(Established) && r.validations != []
    && forall k :: 0 <= k < |r.validations| ==> r.validations[k].passed && r.validations[k].generation >= since
  }

  /** A stored property validation is backed by a finalized success whose checks
      all passed no earlier than its generation, one of them naming the property. */
  ghost predicate RowSound(w: World, f: Fact)
    requires f in w.facts
  {
    var row := w.facts[f];
    && row.operation in w.effects
    && var e := w.effects[row.operation];
    && e.phase.Finalized? && e.grant.scope == f.place.scope
    && PassedSince(e.receipt, row.generation)
    && exists k :: 0 <= k < |e.receipt.validations|
                   && Property(VersionRef(f.duty, row.obligation),
                      Artifact(f.place.path, row.artifact)) in e.receipt.validations[k].properties
  }

  ghost predicate FactsSound(w: World) {
    forall f :: f in w.facts ==> RowSound(w, f)
  }

  lemma CutoffPassed(c: Case)
    requires Transfers(c.effect, c.seen, c.before)
    ensures PassedSince(c.seen.receipt, Cutoff(c.seen))
  {
    var vs := c.seen.receipt.validations;
    forall k | 0 <= k < |vs| ensures vs[k].passed && vs[k].generation >= Cutoff(c.seen) {
      assert Current(c.effect.grant, c.before, vs[k]);
      OldestIsLeast(vs, k);
    }
  }

  /** A stored row's soundness survives any step that keeps its operation. */
  lemma RowStays(w: World, x: World, f: Fact)
    requires Valid(w) && f in w.facts && f in x.facts && x.facts[f] == w.facts[f] && RowSound(w, f) && Evolves(w, x)
    ensures RowSound(x, f)
  {
    assert Forward(w, x, w.facts[f].operation);
  }

  lemma RenewedSound(w: World, c: Case, v: Book, f: Fact, x: World)
    requires c.op in w.effects && c.effect == w.effects[c.op] && c.effect.observation == Some(c.seen) && Renews(c, v, f)
    requires Concludes(w, c.op, x) && f in x.facts
    requires x.facts[f] == Row(c.site.duties[f.duty].version, c.before.files[f.place.path], c.op, Cutoff(c.seen))
    ensures RowSound(x, f)
  {
    CutoffPassed(c);
    var pr := Property(VersionRef(f.duty, c.site.duties[f.duty].version), At(c.before, f.place.path));
    var k :| 0 <= k < |c.seen.receipt.validations| && pr in c.seen.receipt.validations[k].properties;
    assert pr in x.effects[c.op].receipt.validations[k].properties;
  }

  lemma FinalizeFacts(w: World, op: Op, before: Site, site: Site)
    requires Valid(w) && FactsSound(w) && op in w.effects && w.effects[op].phase.Observed?
             && w.effects[op].observation.Some?
    ensures FactsSound(Finished(w, CaseOf(w, op, before, site)))
  {
    var c := CaseOf(w, op, before, site);
    var x := Finished(w, c);
    var v := WrittenAll(w.book, c.effect.grant.scope, c.seen.writes);
    FinalizeKeeps(w, op, before, site);
    assert x.facts == Recorded(c, v, w.facts);
    forall f | f in x.facts ensures RowSound(x, f) {
      if Renews(c, v, f) && (f !in w.facts || w.facts[f].generation <= Cutoff(c.seen)) {
        RenewedSound(w, c, v, f, x);
      } else {
        assert RowSound(w, f);
        RowStays(w, x, f);
      }
    }
  }

  lemma StepFacts(w: World, s: Step)
    requires Valid(w) && FactsSound(w) && Enabled(w, s)
    ensures FactsSound(After(w, s))
  {
    if s.Finalize? {
      FinalizeFacts(w, s.op, s.before, s.site);
    } else {
      var x := After(w, s);
      StepKeeps(w, s);
      forall f | f in x.facts ensures RowSound(x, f) { assert RowSound(w, f); RowStays(w, x, f); }
    }
  }

  lemma {:induction false} RunFacts(ws: seq<World>, steps: seq<Step>, k: nat)
    requires IsRun(ws, steps) && k < |ws|
    ensures FactsSound(ws[k])
  {
    if k > 0 {
      var j := k - 1;
      RunFacts(ws, steps, j);
      RunKeeps(ws, steps, j);
      StepFacts(ws[j], steps[j]);
    }
  }

  // ------------------------------------------------------------ restoring

  /** What must hold for an artifact to leave the invalidated set. `cutoff` is its
      latest invalidation, counting the finalization's own. */
  ghost predicate Restores(w: World, s: Step, x: World, p: Place, cutoff: nat) {
    && s.Finalize? && s.op in w.effects && w.effects[s.op].observation.Some?
    && var e, r := w.effects[s.op], w.effects[s.op].observation.value.receipt;
    && e.grant.scope == p.scope
    && PassedSince(r, cutoff) && AllBacked(w, e.grant, r.validations)
    && p.path in s.before.files
    && DutiesOf(s.site, p.path) != {}
    && forall d :: d in DutiesOf(s.site, p.path) ==> Vouched(s.site, s.before.files[p.path], x.facts, p, d, cutoff)
  }

  /** A live obligation has a stored validation for its current version and the
      artifact's, at a generation no older than `cutoff`. */
  predicate Vouched(site: Site, version: Version, facts: map<Fact, Row>, p: Place, d: nat, cutoff: nat) {
    && d in site.duties && site.duties[d].readable
    && Fact(p, d) in facts
    && facts[Fact(p, d)].obligation == site.duties[d].version
    && facts[Fact(p, d)].artifact == version
    && facts[Fact(p, d)].generation >= cutoff
  }

  lemma {:induction false} WrittenAllStays(v: Book, s: Scope, writes: seq<Path>, p: Place)
    requires Aligned(v)
    ensures p in v.invalid ==> p in WrittenAll(v, s, writes).invalid
    ensures Stamp(v, p) <= Stamp(WrittenAll(v, s, writes), p)
    decreases |writes|
  {
    if writes != [] {
      var early, last := writes[..|writes| - 1], writes[|writes| - 1];
      WrittenAllStays(v, s, early, p);
      WrittenAllKeeps(v, s, early);
      MarkedStays(WrittenAll(v, s, early), s, Affected(WrittenAll(v, s, early).deps, s, last), p);
    }
  }

  lemma MarkedStays(v: Book, s: Scope, paths: set<Path>, p: Place)
    requires Aligned(v)
    ensures p in v.invalid ==> p in Marked(v, s, paths).invalid
    ensures Stamp(v, p) <= Stamp(Marked(v, s, paths), p)
  {
  }

  lemma {:induction false} SpoiledAllStays(v: Book, s: Scope, writes: seq<Path>, p: Place)
    requires Aligned(v)
    ensures p in v.invalid ==> p in SpoiledAll(v, s, writes).invalid
    ensures Stamp(v, p) <= Stamp(SpoiledAll(v, s, writes), p)
    decreases |writes|
  {
    if writes != [] {
      var early, last := writes[..|writes| - 1], writes[|writes| - 1];
      SpoiledAllStays(v, s, early, p);
      SpoiledAllKeeps(v, s, early);
      MarkedStays(SpoiledAll(v, s, early), s, Affected(SpoiledAll(v, s, early).deps, s, last) + {last}, p);
    }
  }

  lemma FinalizeClears(w: World, s: Step, p: Place)
    requires Valid(w) && s.Finalize? && Enabled(w, s)
    requires p in w.book.invalid && p !in After(w, s).book.invalid
    ensures var c := CaseOf(w, s.op, s.before, s.site);
            var v := WrittenAll(w.book, c.effect.grant.scope, c.seen.writes);
            && p.scope == c.effect.grant.scope && Clears(c, w, v, Recorded(c, v, w.facts), p.path)
            && Stamp(After(w, s).book, p) == Stamp(v, p) && After(w, s).facts == Recorded(c, v, w.facts)
  {
    var c := CaseOf(w, s.op, s.before, s.site);
    WrittenAllStays(w.book, c.effect.grant.scope, c.seen.writes, p);
  }

  lemma ClearsFresh(c: Case, w: World, v: Book, facts: map<Fact, Row>, p: Path)
    requires Clears(c, w, v, facts, p)
    ensures PassedSince(c.seen.receipt, Stamp(v, Place(c.effect.grant.scope, p)))
  {
    CutoffPassed(c);
  }

  lemma ClearsCovered(c: Case, w: World, v: Book, facts: map<Fact, Row>, p: Path, d: nat)
    requires Clears(c, w, v, facts, p) && d in DutiesOf(c.site, p)
    ensures var place :=
            Place(c.effect.grant.scope, p); Vouched(c.site, c.before.files[p], facts, place, d, Stamp(v, place))
  {
    assert CoveredBy(c, w, v, facts, At(c.before, p), d);
  }

  lemma FinalizeRestores(w: World, s: Step, p: Place)
    requires Valid(w) && s.Finalize? && Enabled(w, s)
    requires p in w.book.invalid && p !in After(w, s).book.invalid
    ensures Restores(w, s, After(w, s), p, Stamp(After(w, s).book, p))
  {
    var c := CaseOf(w, s.op, s.before, s.site);
    var v := WrittenAll(w.book, c.effect.grant.scope, c.seen.writes);
    var facts := Recorded(c, v, w.facts);
    assert Told(w, s.op);
    FinalizeClears(w, s, p);
    ClearsFresh(c, w, v, facts, p.path);
    forall d | d in DutiesOf(s.site, p.path)
      ensures p.path in s.before.files && Vouched(s.site, s.before.files[p.path], facts, p, d, Stamp(v, p)) {
      ClearsCovered(c, w, v, facts, p.path, d);
    }
  }

  /** An artifact leaves the invalidated set only when a captured success whose
      every check passed, came from a real call and read the clock no earlier than
      the artifact's latest invalidation is finalized, and then it has live
      obligations, each with a stored validation for the current versions at a
      generation no older than that invalidation. */
  lemma OnlyFreshChecksRestore(w: World, s: Step, p: Place)
    requires Valid(w) && Enabled(w, s)
    requires p in w.book.invalid && p !in After(w, s).book.invalid
    ensures Restores(w, s, After(w, s), p, Stamp(After(w, s).book, p))
  {
    if s.Settle? {
      var e := w.effects[s.op];
      SpoiledAllStays(w.book, e.grant.scope, e.observation.value.writes, p);
    } else if s.Finalize? {
      FinalizeRestores(w, s, p);
    }
  }

  lemma StampRises(w: World, s: Step, p: Place)
    requires Valid(w) && Enabled(w, s)
    ensures Stamp(w.book, p) <= Stamp(After(w, s).book, p)
  {
    if s.Settle? {
      SpoiledAllStays(w.book, w.effects[s.op].grant.scope, w.effects[s.op].observation.value.writes, p);
    } else if s.Finalize? {
      WrittenAllStays(w.book, w.effects[s.op].grant.scope, w.effects[s.op].observation.value.writes, p);
    }
  }

  lemma {:induction false} WrittenAllReaches(v: Book, s: Scope, writes: seq<Path>, from: Path, q: Path)
    requires Aligned(v) && from in writes && q in Affected(v.deps, s, from)
    ensures Place(s, q) in WrittenAll(v, s, writes).invalid
    ensures Stamp(WrittenAll(v, s, writes), Place(s, q)) > Now(v, s)
    decreases |writes|
  {
    var early, last := writes[..|writes| - 1], writes[|writes| - 1];
    var before := WrittenAll(v, s, early);
    WrittenAllKeeps(v, s, early);
    if from in early {
      WrittenAllReaches(v, s, early, from, q);
      MarkedStays(before, s, Affected(before.deps, s, last), Place(s, q));
    } else {
      assert writes == early + [last];
      MarkedRaises(before, s, Affected(before.deps, s, last), q, Now(v, s));
      MarkedKeeps(before, s, Affected(before.deps, s, last));
    }
  }

  /** A finalization never restores what its own captured writes invalidate. */
  lemma OwnDependentsStayInvalid(w: World, s: Step, from: Path, q: Path)
    requires Valid(w) && s.Finalize? && Enabled(w, s) && from in w.effects[s.op].observation.value.writes
    requires q in Affected(w.book.deps, w.effects[s.op].grant.scope, from)
    ensures Place(w.effects[s.op].grant.scope, q) in After(w, s).book.invalid
  {
    var c := CaseOf(w, s.op, s.before, s.site);
    var g := c.effect.grant;
    var v := WrittenAll(w.book, g.scope, c.seen.writes);
    assert Told(w, s.op);
    WrittenAllReaches(w.book, g.scope, c.seen.writes, from, q);
    if Transfers(c.effect, c.seen, c.before) {
      var k := OldestIsOne(c.seen.receipt.validations);
      var check := c.seen.receipt.validations[k];
      assert Backed(w, g, check);
      assert Told(w, check.operation);
    }
    assert q !in Accepted(c, v);
  }

  // ----------------------------------------------------------------- runs

  /** Over any run: an artifact invalid at one point and valid at a later one was
      restored in between by checks none of which predates that invalidation. */
  lemma {:induction false} RunRestores(ws: seq<World>, steps: seq<Step>, i: nat, j: nat, p: Place) returns (m: nat)
    requires IsRun(ws, steps) && i <= j < |ws| && p in ws[i].book.invalid && p !in ws[j].book.invalid
    ensures i <= m < j
    ensures Restores(ws[m], steps[m], ws[m + 1], p, Stamp(ws[m + 1].book, p))
    ensures Stamp(ws[i].book, p) <= Stamp(ws[m + 1].book, p)
    decreases j - i
  {
    var w, s := ws[i], steps[i];
    RunKeeps(ws, steps, i);
    StampRises(w, s, p);
    if p !in ws[i + 1].book.invalid {
      OnlyFreshChecksRestore(w, s, p);
      m := i;
    } else {
      m := RunRestores(ws, steps, i + 1, j, p);
    }
  }

  predicate Undispatched(w: World, op: Op) {
    op in w.effects ==> w.effects[op].phase.Prepared?
  }

  /** A check that read a later clock than a point of the run knew had not been
      dispatched at that point. */
  lemma LaterCheck(ws: seq<World>, steps: seq<Step>, i: nat, m: nat, g: Grant, v: Evidence)
    requires IsRun(ws, steps) && i <= m < |ws| && Backed(ws[m], g, v) && v.generation > Now(ws[i].book, g.scope)
    ensures Undispatched(ws[i], v.operation)
  {
    if v.operation in ws[i].effects {
      RunForward(ws, steps, i, m, v.operation);
      RunKeeps(ws, steps, i);
      assert Told(ws[i], v.operation);
    }
  }

  /** Settling puts every dependent of a captured write past the clock it read. */
  lemma SettledMarks(ws: seq<World>, steps: seq<Step>, i: nat, from: Path, q: Path)
    requires IsRun(ws, steps) && i + 1 < |ws| && steps[i].Settle?
    requires steps[i].op in ws[i].effects && ws[i].effects[steps[i].op].observation.Some?
    requires from in ws[i].effects[steps[i].op].observation.value.writes
    requires Under(ws[i].book, ws[i].effects[steps[i].op].grant.scope, from, q)
    ensures var s := ws[i].effects[steps[i].op].grant.scope;
            Place(s, q) in ws[i + 1].book.invalid && Stamp(ws[i + 1].book, Place(s, q)) > Now(ws[i].book, s)
  {
    RunKeeps(ws, steps, i);
    RunKeeps(ws, steps, i + 1);
    var e := ws[i].effects[steps[i].op];
    SpoiledAllReaches(ws[i].book, e.grant.scope, e.observation.value.writes, from, q);
  }

  /** The checks a finalization at `m` restored with. */
  function ChecksOf(w: World, op: Op): seq<Evidence>
    requires op in w.effects && w.effects[op].observation.Some?
  {
    w.effects[op].observation.value.receipt.validations
  }

  lemma RestoringChecks(w: World, s: Step, x: World, p: Place, cutoff: nat, k: nat)
    requires Restores(w, s, x, p, cutoff) && k < |ChecksOf(w, s.op)|
    ensures Backed(w, w.effects[s.op].grant, ChecksOf(w, s.op)[k]) && ChecksOf(w, s.op)[k].generation >= cutoff
    ensures w.effects[s.op].grant.scope == p.scope
  {
  }

  /** After an operation is settled, each path it may have written and each of
      their dependents becomes valid again only through checks that had not been
      dispatched when it was settled. */
  lemma SettledNeedsNewChecks(ws: seq<World>, steps: seq<Step>, i: nat, j: nat, from: Path, q: Path) returns (m: nat)
    requires IsRun(ws, steps) && i < j < |ws| && steps[i].Settle?
    requires steps[i].op in ws[i].effects && ws[i].effects[steps[i].op].observation.Some?
    requires from in ws[i].effects[steps[i].op].observation.value.writes
    requires Under(ws[i].book, ws[i].effects[steps[i].op].grant.scope, from, q)
    requires Place(ws[i].effects[steps[i].op].grant.scope, q) !in ws[j].book.invalid
    ensures i < m < j && steps[m].Finalize? && steps[m].op in ws[m].effects
    ensures ws[m].effects[steps[m].op].observation.Some?
    ensures forall k :: 0 <= k < |ChecksOf(ws[m], steps[m].op)| ==>
            Undispatched(ws[i], ChecksOf(ws[m], steps[m].op)[k].operation)
  {
    var p := Place(ws[i].effects[steps[i].op].grant.scope, q);
    SettledMarks(ws, steps, i, from, q);
    m := RunRestores(ws, steps, i + 1, j, p);
    var cutoff := Stamp(ws[m + 1].book, p);
    forall k | 0 <= k < |ChecksOf(ws[m], steps[m].op)|
      ensures Undispatched(ws[i], ChecksOf(ws[m], steps[m].op)[k].operation) {
      RestoringChecks(ws[m], steps[m], ws[m + 1], p, cutoff, k);
      LaterCheck(ws, steps, i, m, ws[m].effects[steps[m].op].grant, ChecksOf(ws[m], steps[m].op)[k]);
    }
  }
}
