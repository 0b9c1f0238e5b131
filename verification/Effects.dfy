/** The effect journal: one durable row per operation, the volatile frame of a
    running `execute`, and the atomic steps between them. A crash discards the
    frames and keeps everything else. */
module Effects {
  import opened Outcomes
  import opened Validity

  type Op = nat
  type Run = nat
  type Name = nat

  // ------------------------------------------------------------------ data

  datatype Kind = Branch | Edit | Check | Execute | Apply

  datatype Action = Action(kind: Kind, path: Option<Path>, content: Option<Version>,
                           branch: Option<nat>, tool: Option<Name>)

  datatype Grant = Grant(id: nat, scope: Scope, paths: seq<Path>, writable: Option<seq<Path>>, policy: Version)

  datatype Status = Started | Succeeded | Failed | Refused | Stale | Unknown

  datatype Basis = NotDispatched | Established | Unresolved | PostconditionObserved

  datatype Artifact = Artifact(path: Path, version: Version)

  datatype VersionRef = VersionRef(id: nat, version: Version)

  datatype Property = Property(obligation: VersionRef, artifact: Artifact)

  /** A captured check: `operation` is the check's own effect, `generation` the
      validity clock it read before it was dispatched. */
  datatype Evidence = Evidence(check: Name, checker: Version, policy: Version, operation: Op,
                               inputs: seq<Artifact>, targets: seq<Artifact>, passed: bool,
                               generation: nat, properties: set<Property>)

  datatype Receipt = Receipt(status: Status, basis: Option<Basis>, validations: seq<Evidence>,
                             sideEffects: set<Path>, restored: set<Artifact>,
                             restoredProperties: set<Property>, reconciled: bool)

  datatype Preflight = Preflight(checks: seq<(Name, Version)>, intervention: Option<VersionRef>)

  datatype Observation = Observation(receipt: Receipt, writes: seq<Path>, generation: nat, preflight: Preflight)

  datatype Phase = Prepared | Dispatching | Observed | Finalized

  datatype Effect = Effect(grant: Grant, run: Run, action: Action, phase: Phase, receipt: Receipt,
                           potential: seq<Path>, generation: nat,
                           observation: Option<Observation>, settled: bool)

  /** Where a running `execute` stands relative to its adapter call. */
  datatype Stage = Ready | Issued | Calling | Returned

  datatype Frame = Frame(stage: Stage, seen: Observation)

  datatype Fact = Fact(place: Place, duty: nat)

  /** A stored property validation. */
  datatype Row = Row(obligation: Version, artifact: Version, operation: Op, generation: nat)

  /** `calls` counts adapter calls; no code reads it. */
  datatype World = World(effects: map<Op, Effect>, frames: map<Op, Frame>, calls: map<Op, nat>,
                         book: Book, facts: map<Fact, Row>)

  /** An obligation record as the effect's grant sees it. */
  datatype Duty = Duty(version: Version, outputs: set<Path>, retired: bool, readable: bool)

  /** What a finalization observes outside the journal: workspace and checker
      versions, the obligations and interventions, whether the grant is unchanged
      and unexpired, the attachment allows writing, and which operations' events
      are still readable sources. */
  datatype Site = Site(files: map<Path, Version>, checkers: map<Name, Version>, duties: map<nat, Duty>,
                       interventions: map<nat, Version>, live: bool, attached: bool, citable: set<Op>)

  const Empty := World(map[], map[], map[], Blank, map[])

  const Intent := Receipt(Started, None, [], {}, {}, {}, false)

  const NoPlan := Preflight([], None)

  function Calls(w: World, op: Op): nat {
    if op in w.calls then w.calls[op] else 0
  }

  function Live(a: Action): bool {
    a.branch.None?
  }

  // ------------------------------------------------------- dispatch guards

  /** The writes an action announces before its adapter runs. */
  predicate Announces(a: Action, writes: seq<Path>) {
    match a.kind
    case Branch => writes == []
    case Edit => a.path.Some? && writes == if Live(a) then [a.path.value] else []
    case Check | Execute => a.tool.Some? && (Live(a) || writes == [])
    case Apply => a.path.Some? && !Live(a) && writes == [a.path.value]
  }

  /** An application dispatches only behind every planned check, each passed. */
  predicate Checked(a: Action, seen: Observation) {
    && (a.kind.Check? || a.kind.Execute? ==> |seen.preflight.checks| == 1 && Some(seen.preflight.checks[0].0) == a.tool)
    && (a.kind.Apply? ==>
          && |seen.preflight.checks| > 0 && seen.preflight.intervention.Some?
          && |seen.receipt.validations| == |seen.preflight.checks|)
  }

  predicate Unsettled(e: Effect) {
    e.phase.Dispatching? || e.phase.Observed? || (e.receipt.status.Unknown? && !e.settled)
  }

  /** Rows the fence query counts: they may still write the live workspace. */
  predicate Holds(e: Effect) {
    && Unsettled(e)
    && (|| e.potential != []
        || e.action.kind.Apply?
        || (Live(e.action) && (e.action.kind.Edit? || e.action.kind.Execute?)))
  }

  predicate Fenced(w: World, op: Op) {
    exists other :: other in w.effects && other != op && Holds(w.effects[other])
  }

  // ------------------------------------------------------------- recovery

  function WritablePaths(g: Grant): seq<Path> {
    if g.writable.Some? then g.writable.value else g.paths
  }

  predicate Desires(a: Action) {
    (a.kind.Edit? || a.kind.Apply?) && a.path.Some? && a.content.Some?
  }

  /** The writes recovery must suspect when no adapter outcome was captured. */
  function SuspectedWrites(e: Effect): seq<Path> {
    var a := e.action;
    (if e.potential == [] && a.kind.Execute? && Live(a) then WritablePaths(e.grant) else e.potential)
    + (if Desires(a) && (a.kind.Apply? || Live(a)) then [a.path.value] else [])
  }

  function Recovered(e: Effect, matches: bool): Observation {
    var basis := if Desires(e.action) && matches then PostconditionObserved else Unresolved;
    Observation(e.receipt.(status := Unknown, basis := Some(basis), reconciled := true),
                SuspectedWrites(e), e.generation, NoPlan)
  }

  // ----------------------------------------------------------- validation

  predicate Matches(files: map<Path, Version>, s: seq<Artifact>) {
    forall k :: 0 <= k < |s| ==> s[k].path in files && files[s[k].path] == s[k].version
  }

  predicate Current(g: Grant, site: Site, v: Evidence) {
    && v.passed && v.policy == g.policy
    && v.check in site.checkers && site.checkers[v.check] == v.checker
    && Matches(site.files, v.inputs) && Matches(site.files, v.targets)
  }

  predicate Planned(checks: seq<(Name, Version)>, vs: seq<Evidence>) {
    && |checks| == |vs|
    && forall k :: 0 <= k < |checks| ==>
       exists j :: 0 <= j < |vs| && vs[j].check == checks[k].0 && vs[j].checker == checks[k].1
  }

  predicate Intervenes(site: Site, p: Preflight) {
    && p.intervention.Some? && p.intervention.value.id in site.interventions
    && site.interventions[p.intervention.value.id] == p.intervention.value.version
    && site.attached
  }

  /** When a captured outcome may restore validity at all. */
  predicate Transfers(e: Effect, o: Observation, site: Site) {
    && o.receipt.status.Succeeded? && o.receipt.basis == Some(Established)
    && (e.action.kind.Apply? || Live(e.action))
    && o.receipt.validations != [] && site.live
    && (e.action.kind.Apply? ==> Intervenes(site, o.preflight))
    && (forall k :: 0 <= k < |o.receipt.validations| ==> Current(e.grant, site, o.receipt.validations[k]))
    && Planned(o.preflight.checks, o.receipt.validations)
  }

  function PathsOf(s: seq<Artifact>): set<Path> {
    set k | 0 <= k < |s| :: s[k].path
  }

  function AllTargets(vs: seq<Evidence>): set<Path> {
    set k, p | 0 <= k < |vs| && p in PathsOf(vs[k].targets) :: p
  }

  /** The artifacts whose validity the outcome speaks for. */
  function Targets(e: Effect, o: Observation, site: Site): set<Path> {
    if !Transfers(e, o, site) then {}
    else set p | p in AllTargets(o.receipt.validations) && (e.action.kind.Apply? ==> e.action.path == Some(p))
  }

  /** The oldest clock reading among the checks; every required check counts. */
  function Oldest(vs: seq<Evidence>): nat
    requires vs != []
  {
    if |vs| == 1 then vs[0].generation else Min(vs[0].generation, Oldest(vs[1..]))
  }

  function Cutoff(o: Observation): nat {
    if o.receipt.validations == [] then 0 else Oldest(o.receipt.validations)
  }

  // ----------------------------------------------------------- properties

  const DUTY_LIMIT := 1000

  function DutiesOf(site: Site, p: Path): set<nat> {
    set d | d in site.duties && !site.duties[d].retired && p in site.duties[d].outputs
  }

  predicate Countable(site: Site, paths: set<Path>) {
    forall p :: p in paths ==> |DutiesOf(site, p)| <= DUTY_LIMIT
  }

  predicate Binds(g: Grant, site: Site, pr: Property) {
    && pr.obligation.id in site.duties
    && var duty := site.duties[pr.obligation.id];
    && duty.readable && !duty.retired && duty.version == pr.obligation.version
    && pr.artifact.path in g.paths && pr.artifact.path in duty.outputs
  }

  /** The receipt of an earlier operation still vouches for its properties. */
  predicate Vouches(g: Grant, site: Site, op: Op, r: Receipt) {
    && r.status.Succeeded? && r.basis == Some(Established)
    && op in site.citable && r.validations != []
    && forall k :: 0 <= k < |r.validations| ==>
       Current(g, site, r.validations[k]) && r.validations[k].operation in site.citable
  }

  /** One obligation of an artifact is assessed as validated. */
  predicate Assessed(w: World, g: Grant, site: Site, a: Artifact, d: nat) {
    var f := Fact(Place(g.scope, a.path), d);
    && d in DutiesOf(site, a.path) && site.duties[d].readable
    && f in w.facts && w.facts[f].operation in w.effects
    && var row := w.facts[f];
    && Vouches(g, site, row.operation, w.effects[row.operation].receipt)
    && row.obligation == site.duties[d].version && row.artifact == a.version
    && row.generation >= Stamp(w.book, f.place)
    && Property(VersionRef(d, row.obligation), a) in w.effects[row.operation].receipt.restoredProperties
  }

  /** The properties the captured checks vouch for on one artifact. */
  predicate Offers(e: Effect, o: Observation, site: Site, pr: Property) {
    && Binds(e.grant, site, pr)
    && exists k :: 0 <= k < |o.receipt.validations| && pr in o.receipt.validations[k].properties
  }

  // --------------------------------------------------------- finalization

  /** The invalidations of a captured outcome's writes, in order. */
  ghost function WrittenAll(v: Book, s: Scope, writes: seq<Path>): Book
    decreases |writes|
  {
    if writes == [] then v
    else Written(WrittenAll(v, s, writes[..|writes| - 1]), s, writes[|writes| - 1])
  }

  ghost function SpoiledAll(v: Book, s: Scope, writes: seq<Path>): Book
    decreases |writes|
  {
    if writes == [] then v
    else Spoiled(SpoiledAll(v, s, writes[..|writes| - 1]), s, writes[|writes| - 1])
  }

  ghost function SideEffects(v: Book, s: Scope, writes: seq<Path>): set<Path> {
    set k, q | 0 <= k < |writes| && q in Affected(v.deps, s, writes[k]) :: q
  }

  function At(site: Site, p: Path): Artifact
    requires p in site.files
  {
    Artifact(p, site.files[p])
  }

  /** Everything one finalization works with. */
  datatype Case = Case(op: Op, effect: Effect, seen: Observation, before: Site, site: Site)

  /** Targets whose oldest check is not older than their latest invalidation. */
  function Accepted(c: Case, v: Book): set<Path> {
    set p | p in Targets(c.effect, c.seen, c.before) && Stamp(v, Place(c.effect.grant.scope, p)) <= Cutoff(c.seen)
  }

  /** The stored validation a finalization writes for an obligation of a target. */
  predicate Renews(c: Case, v: Book, f: Fact) {
    && f.place.scope == c.effect.grant.scope && f.place.path in Accepted(c, v)
    && f.place.path in c.before.files && f.duty in c.site.duties
    && Offers(c.effect, c.seen, c.site,
       Property(VersionRef(f.duty, c.site.duties[f.duty].version), At(c.before, f.place.path)))
  }

  ghost function Renewals(c: Case, v: Book): set<Fact> {
    set p, d | p in Accepted(c, v) && d in c.site.duties && Renews(c, v, Fact(Place(c.effect.grant.scope, p), d))
      :: Fact(Place(c.effect.grant.scope, p), d)
  }

  /** An older stored validation is replaced, a newer one kept. */
  ghost function Recorded(c: Case, v: Book, facts: map<Fact, Row>): map<Fact, Row> {
    map f | f in facts.Keys + Renewals(c, v) ::
      if Renews(c, v, f) && (f !in facts || facts[f].generation <= Cutoff(c.seen))
      then Row(c.site.duties[f.duty].version, c.before.files[f.place.path], c.op, Cutoff(c.seen))
      else facts[f]
  }

  /** One obligation is covered: a candidate property and a stored validation for
      the current versions at a generation no older than the latest invalidation. */
  ghost predicate CoveredBy(c: Case, w: World, v: Book, facts: map<Fact, Row>, a: Artifact, d: nat) {
    var f := Fact(Place(c.effect.grant.scope, a.path), d);
    && d in c.site.duties && c.site.duties[d].readable
    && var pr := Property(VersionRef(d, c.site.duties[d].version), a);
    && (Offers(c.effect, c.seen, c.site, pr)
        || (Assessed(w, c.effect.grant, c.before, a, d) && c.before.duties[d].version == c.site.duties[d].version))
    && f in facts && facts[f].obligation == c.site.duties[d].version && facts[f].artifact == a.version
    && facts[f].generation >= Stamp(v, f.place)
  }

  ghost predicate Clears(c: Case, w: World, v: Book, facts: map<Fact, Row>, p: Path) {
    && p in Accepted(c, v) && p in c.before.files
    && DutiesOf(c.site, p) != {}
    && forall d :: d in DutiesOf(c.site, p) ==> CoveredBy(c, w, v, facts, At(c.before, p), d)
  }

  ghost function Cleared(c: Case, w: World, v: Book, facts: map<Fact, Row>): set<Path> {
    set p | p in Accepted(c, v) && Clears(c, w, v, facts, p)
  }

  ghost function Renewed(c: Case, v: Book): set<Property> {
    set f | f in Renewals(c, v) && f.duty in c.site.duties && f.place.path in c.before.files
      :: Property(VersionRef(f.duty, c.site.duties[f.duty].version), At(c.before, f.place.path))
  }

  ghost function Unspoiled(v: Book, s: Scope, paths: set<Path>, cutoff: nat): Book {
    v.(invalid := map p | p in v.invalid
      && !(p.scope == s && p.path in paths && v.invalid[p] <= cutoff) :: v.invalid[p])
  }

  /** The world after `finalize_effect`, for the case it worked on. */
  ghost function Finished(w: World, c: Case): World {
    var s := c.effect.grant.scope;
    var v := WrittenAll(w.book, s, c.seen.writes);
    var facts := Recorded(c, v, w.facts);
    var cleared := Cleared(c, w, v, facts);
    var receipt := c.seen.receipt.(
      sideEffects := c.seen.receipt.sideEffects + SideEffects(w.book, s, c.seen.writes),
      restored := set p | p in cleared && p in c.before.files :: At(c.before, p),
      restoredProperties := Renewed(c, v));
    w.(effects := w.effects[c.op := c.effect.(phase := Finalized, receipt := receipt)],
       book := Unspoiled(v, s, cleared, Cutoff(c.seen)), facts := facts)
  }

  // ---------------------------------------------------------------- steps

  /** What an adapter call brings back. */
  datatype Outcome =
    | Threw
    | Done
    | Ran(success: bool, passed: bool, checker: Version, inputs: seq<Artifact>, targets: seq<Artifact>,
          properties: set<Property>, writes: seq<Path>)

  datatype Step =
    | Intend(op: Op, grant: Grant, run: Run, action: Action)
    | Plan(op: Op, plan: Preflight)
    | Collect(op: Op, check: Op)
    | Dispatch(op: Op, writes: seq<Path>, open: set<Run>)
    | Call(op: Op)
    | Return(op: Op, outcome: Outcome)
    | Abort(op: Op, status: Status)
    | Capture(op: Op)
    | Reconcile(op: Op, matches: bool)
    | Finalize(op: Op, before: Site, site: Site)
    | Settle(op: Op, running: set<Run>)
    | Depend(dep: Dep, size: nat)
    | Crash

  predicate InStage(w: World, op: Op, stage: Stage) {
    op in w.frames && op in w.effects && w.frames[op].stage == stage
  }

  /** A finished check of the same grant whose only evidence fits the plan. */
  predicate Certifies(w: World, op: Op, check: Op) {
    && InStage(w, op, Ready) && w.effects[op].action.kind.Apply? && check in w.effects
    && var c := w.effects[check];
    && var plan := w.frames[op].seen.preflight.checks;
    && var n := |w.frames[op].seen.receipt.validations|;
    && c.grant == w.effects[op].grant && c.action.kind.Check? && c.action.branch == w.effects[op].action.branch
    && c.phase.Finalized? && c.receipt.status.Succeeded? && c.receipt.basis == Some(Established)
    && |c.receipt.validations| == 1 && c.receipt.validations[0].passed
    && c.receipt.validations[0].policy == c.grant.policy
    && n < |plan| && plan[n] == (c.receipt.validations[0].check, c.receipt.validations[0].checker)
  }

  predicate CanCapture(w: World, op: Op) {
    InStage(w, op, Returned) && (w.effects[op].phase.Prepared? || w.effects[op].phase.Dispatching?)
  }

  predicate CanReconcile(w: World, op: Op) {
    op in w.effects && (w.effects[op].phase.Prepared? || w.effects[op].phase.Dispatching?)
  }

  predicate CanDispatch(w: World, op: Op, writes: seq<Path>, open: set<Run>) {
    && InStage(w, op, Ready) && w.effects[op].phase.Prepared? && w.effects[op].run in open
    && Announces(w.effects[op].action, writes) && Checked(w.effects[op].action, w.frames[op].seen)
    && (writes != [] ==> !Fenced(w, op))
  }

  predicate CanSettle(w: World, op: Op, running: set<Run>) {
    && op in w.effects && w.effects[op].phase.Finalized? && w.effects[op].receipt.status.Unknown?
    && !w.effects[op].settled && w.effects[op].run !in running && w.effects[op].observation.Some?
  }

  ghost predicate CanFinalize(w: World, op: Op, before: Site, site: Site) {
    && op in w.effects && w.effects[op].phase.Observed? && w.effects[op].observation.Some?
    && var c := CaseOf(w, op, before, site);
    && Countable(before, Targets(c.effect, c.seen, before))
    && Countable(site, Accepted(c, WrittenAll(w.book, c.effect.grant.scope, c.seen.writes)))
  }

  function CaseOf(w: World, op: Op, before: Site, site: Site): Case
    requires op in w.effects && w.effects[op].observation.Some?
  {
    Case(op, w.effects[op], w.effects[op].observation.value, before, site)
  }

  function ReturnedWith(e: Effect, op: Op, seen: Observation, outcome: Outcome): Observation {
    match outcome
    case Threw => seen.(receipt := seen.receipt.(status := Unknown, basis := Some(Unresolved)))
    case Done => seen.(receipt := seen.receipt.(status := Succeeded, basis := Some(Established)))
    case Ran(success, passed, checker, inputs, targets, properties, writes) =>
      var same := |seen.preflight.checks| > 0 && seen.preflight.checks[0].1 == checker;
      var tool := if e.action.tool.Some? then e.action.tool.value else 0;
      var evidence :=
        Evidence(tool, checker, e.grant.policy, op, inputs, targets, passed && same, seen.generation, properties);
      seen.(receipt := seen.receipt.(status := if success && same then Succeeded else Failed,
                                     basis := Some(Established), validations := [evidence]),
            writes := if Live(e.action) then writes else seen.writes)
  }

  predicate Fits(a: Action, outcome: Outcome) {
    outcome.Threw? || (outcome.Ran? <==> a.kind.Check? || a.kind.Execute?)
  }

  function Aborted(e: Effect, seen: Observation, status: Status): Observation {
    if e.phase.Prepared?
    then seen.(receipt := seen.receipt.(status := status, basis := Some(NotDispatched)), writes := [])
    else seen.(receipt := seen.receipt.(status := Unknown, basis := Some(Unresolved)))
  }

  function Intended(w: World, op: Op, grant: Grant, run: Run, action: Action): World {
    w.(effects := w.effects[op := Effect(grant, run, action, Prepared, Intent, [], 0, None, false)],
       frames := w.frames[op := Frame(Ready, Observation(Intent, [], 0, NoPlan))])
  }

  /** Only the running frame moved. */
  function Reframed(w: World, op: Op, f: Frame): World {
    w.(frames := w.frames[op := f])
  }

  predicate CanPlan(w: World, op: Op) {
    InStage(w, op, Ready) && w.effects[op].phase.Prepared? && w.frames[op].seen.receipt.validations == []
  }

  function WithPlan(f: Frame, plan: Preflight): Frame {
    Frame(Ready, f.seen.(preflight := plan))
  }

  function WithCheck(f: Frame, v: Evidence): Frame {
    Frame(Ready, f.seen.(receipt := f.seen.receipt.(validations := f.seen.receipt.validations + [v])))
  }

  /** The guards passed, the clock read and the phase moved, all at once. */
  function Dispatched(w: World, op: Op, writes: seq<Path>): World
    requires InStage(w, op, Ready)
  {
    var e, seen, now := w.effects[op], w.frames[op].seen, Now(w.book, w.effects[op].grant.scope);
    w.(effects :=
      w.effects[op := e.(phase := Dispatching, receipt := seen.receipt, potential := writes, generation := now)],
       frames := w.frames[op := Frame(Issued, seen.(writes := writes, generation := now))])
  }

  function Called(w: World, op: Op): World
    requires InStage(w, op, Issued)
  {
    w.(calls := w.calls[op := Calls(w, op) + 1], frames := w.frames[op := Frame(Calling, w.frames[op].seen)])
  }

  function Answer(w: World, op: Op, outcome: Outcome): Frame
    requires InStage(w, op, Calling)
  {
    Frame(Returned, ReturnedWith(w.effects[op], op, w.frames[op].seen, outcome))
  }

  function Refusal(w: World, op: Op, status: Status): Frame
    requires InStage(w, op, Ready)
  {
    Frame(Returned, Aborted(w.effects[op], w.frames[op].seen, status))
  }

  function Captured(w: World, op: Op): World
    requires CanCapture(w, op)
  {
    w.(effects := w.effects[op := w.effects[op].(phase := Observed, observation := Some(w.frames[op].seen))],
       frames := w.frames - {op})
  }

  function Reconciled(w: World, op: Op, matches: bool): World
    requires CanReconcile(w, op)
  {
    w.(effects :=
      w.effects[op := w.effects[op].(phase := Observed, observation := Some(Recovered(w.effects[op], matches)))])
  }

  ghost function Settled(w: World, op: Op): World
    requires op in w.effects && w.effects[op].observation.Some?
  {
    var e := w.effects[op];
    w.(effects := w.effects[op := e.(settled := true)],
       book := SpoiledAll(w.book, e.grant.scope, e.observation.value.writes))
  }

  predicate Refuses(status: Status) {
    status.Refused? || status.Stale? || status.Failed?
  }

  ghost predicate Enabled(w: World, s: Step) {
    match s
    case Intend(op, _, _, _) => op !in w.effects
    case Plan(op, _) => CanPlan(w, op)
    case Collect(op, check) => Certifies(w, op, check)
    case Dispatch(op, writes, open) => CanDispatch(w, op, writes, open)
    case Call(op) => InStage(w, op, Issued)
    case Return(op, outcome) => InStage(w, op, Calling) && Fits(w.effects[op].action, outcome)
    case Abort(op, status) => InStage(w, op, Ready) && Refuses(status)
    case Capture(op) => CanCapture(w, op)
    case Reconcile(op, _) => CanReconcile(w, op)
    case Finalize(op, before, site) => CanFinalize(w, op, before, site)
    case Settle(op, running) => CanSettle(w, op, running)
    case Depend(d, size) => DependFits(w.book, d, size)
    case Crash => true
  }

  ghost function After(w: World, s: Step): World
    requires Enabled(w, s)
  {
    match s
    case Intend(op, grant, run, action) => Intended(w, op, grant, run, action)
    case Plan(op, plan) => Reframed(w, op, WithPlan(w.frames[op], plan))
    case Collect(op, check) => Reframed(w, op, WithCheck(w.frames[op], w.effects[check].receipt.validations[0]))
    case Dispatch(op, writes, _) => Dispatched(w, op, writes)
    case Call(op) => Called(w, op)
    case Return(op, outcome) => Reframed(w, op, Answer(w, op, outcome))
    case Abort(op, status) => Reframed(w, op, Refusal(w, op, status))
    case Capture(op) => Captured(w, op)
    case Reconcile(op, matches) => Reconciled(w, op, matches)
    case Finalize(op, before, site) => Finished(w, CaseOf(w, op, before, site))
    case Settle(op, _) => Settled(w, op)
    case Depend(d, size) => w.(book := w.book.(deps := w.book.deps[d := size]))
    case Crash => w.(frames := map[])
  }

  /** A run is the sequence of worlds its steps produce from the empty one. */
  ghost predicate IsRun(ws: seq<World>, steps: seq<Step>) {
    && |ws| == |steps| + 1 && ws[0] == Empty
    && forall k {:trigger steps[k]} :: 0 <= k < |steps| ==>
       Enabled(ws[k], steps[k]) && ws[k + 1] == After(ws[k], steps[k])
  }
}
