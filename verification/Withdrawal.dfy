/** Withdrawal always reaches derived observations, however records change. */
module Withdrawal {
  import opened Outcomes
  import opened Lineage
  import opened Sources
  import opened SourceSteps
  import opened Cleanup

  /** The tables together with what every subject was really derived from. */
  datatype World = World(db: Tables, history: map<Node, set<Node>>)

  /** A derivation history: each direct reference and all of its own history,
      at the revision in force when the subject was captured. */
  ghost function Derivation(h: map<Node, set<Node>>, roots: seq<Arrival>): set<Node> {
    (set x | x in roots :: x.node)
    + (set y, z | y in h && (exists x :: x in roots && x.node == y) && z in h[y] :: z)
  }

  ghost function Track(t: Tables, h: map<Node, set<Node>>, op: Op): map<Node, set<Node>> {
    match op
    case InsertOp(n, i, refs) => h[n := Derivation(h, Roots(t.info[n := i], refs))]
    case ReviseOp(_, _, n, _, d) => h[n := Derivation(h, Roots(t.info, d.refs))]
    case RetireOp(_, n, _, delete) =>
      if n in t.info && t.info[n].RecordInfo? && !HasRows(t.rows, n)
      then h[n := Derivation(h, Roots(t.info, RetiredInfo(t.info[n], delete).refs))] else h
    case ExportOp(_, _, n, _, sources, _) => h[n := Derivation(h, Starts(sources))]
    case _ => h
  }

  ghost predicate NextWorld(w: World, op: Op, after: World) {
    after == w || (Commits(w.db, op, after.db) && after.history == Track(w.db, w.history, op))
  }

  ghost predicate IsHistory(ws: seq<World>, ops: seq<Op>) {
    && |ws| == |ops| + 1
    && ws[0] == World(Empty, map[])
    && forall i {:trigger ops[i]} :: 0 <= i < |ops| ==> NextWorld(ws[i], ops[i], ws[i + 1])
  }

  predicate Observation(n: Node) {
    n.kind.Event? || n.kind.Artifact?
  }

  /** A chain whose nodes after the first are observations, so that none of its
      rows can change, ending at `x` or at something already withdrawn. */
  ghost predicate Pins(rows: Rows, tombs: set<Node>, s: Node, x: Node, route: Route)
    decreases route
  {
    match route
    case Here => false
    case Up(r, rest) =>
      && r in rows && rows[r].subject == s
      && var y := rows[r].source;
         y == x || y in tombs || (Observation(y) && Pins(rows, tombs, y, x, rest))
  }

  ghost predicate Pinned(rows: Rows, tombs: set<Node>, s: Node, x: Node) {
    exists route :: Pins(rows, tombs, s, x, route)
  }

  ghost predicate Faithful(w: World) {
    && Valid(w.db)
    && w.history.Keys == w.db.info.Keys
    && AllPinned(w.db.rows, w.db.tombs, w.history)
  }

  lemma {:induction false} PinsSurvive(rows: Rows, tombs: set<Node>, s: Node, x: Node, route: Route, c: Node,
          after: Rows, more: set<Node>)
    requires Pins(rows, tombs, s, x, route) && s != c && tombs <= more
    requires !Observation(c) || (forall r :: r in rows ==> rows[r].subject != c)
    requires forall r :: r in rows && rows[r].subject != c ==> r in after && after[r] == rows[r]
    ensures Pins(after, more, s, x, route)
    decreases route
  {
    var y := rows[route.row].source;
    if !(y == x || y in tombs) {
      assert y != c by { assert Pins(rows, tombs, y, x, route.rest); }
      PinsSurvive(rows, tombs, y, x, route.rest, c, after, more);
    }
  }

  /** A captured subject is pinned to everything one reference derives from. */
  lemma CapturePins(rows: Rows, tombs: set<Node>, n: Node, kept: map<Node, Tag>, after: Rows, y: Node, x: Node)
    requires RowsReplaced(rows, n, kept, after) && y in kept
    requires !Observation(n) || (forall r :: r in rows ==> rows[r].subject != n)
    requires x == y || Observation(y) || y in tombs
             || (forall r :: r in rows && rows[r].subject == y ==> rows[r].source in kept)
    requires x == y || Pinned(rows, tombs, y, x)
    ensures Pinned(after, tombs, n, x)
  {
    var r :| r in after && after[r] == EdgeTo(n, y, kept[y]);
    if x == y || y in tombs {
      assert Pins(after, tombs, n, x, Up(r, Here));
    } else {
      var route :| Pins(rows, tombs, y, x, route);
      if Observation(y) {
        assert y != n;
        PinsSurvive(rows, tombs, y, x, route, n, after, tombs);
        assert Pins(after, tombs, n, x, Up(r, route));
      } else {
        var z := rows[route.row].source;
        var q :| q in after && after[q] == EdgeTo(n, z, kept[z]);
        if !(z == x || z in tombs) {
          assert z != n by { assert Pins(rows, tombs, z, x, route.rest); }
          PinsSurvive(rows, tombs, z, x, route.rest, n, after, tombs);
        }
        assert Pins(after, tombs, n, x, Up(q, route.rest));
      }
    }
  }

  ghost predicate ParentsKept(rows: Rows, tombs: set<Node>, n: Node, kept: map<Node, Tag>) {
    n.kind.Record? && n !in tombs ==> forall r :: r in rows && rows[r].subject == n ==> rows[r].source in kept
  }

  /** The meet keeps every root and one row beyond every record still in force. */
  lemma MeetKeeps(rows: Rows, tombs: set<Node>, roots: seq<Arrival>, x: Arrival)
    requires x in roots
    ensures x.node in Meet(Expandable(rows, tombs), roots)
    ensures ParentsKept(rows, tombs, x.node, Meet(Expandable(rows, tombs), roots))
  {
    var live := Expandable(rows, tombs);
    ArrivesRoot(live, roots, x);
    ArrivalIsEnd(live, roots, x);
    if x.node.kind.Record? && x.node !in tombs {
      forall r | r in rows && rows[r].subject == x.node ensures rows[r].source in Meet(live, roots) {
        ArrivesAcross(live, roots, x, r);
        ArrivalIsEnd(live, roots, Across(x, live[r]));
      }
    }
  }

  ghost predicate AllPinned(rows: Rows, tombs: set<Node>, h: map<Node, set<Node>>) {
    forall s, x {:trigger Pinned(rows, tombs, s, x)} :: (s in h && x in h[s]) ==> Pinned(rows, tombs, s, x)
  }

  ghost predicate Known(h: map<Node, set<Node>>) {
    forall s :: s in h ==> !s.kind.Unknown?
  }

  lemma OthersStayPinned(rows: Rows, tombs: set<Node>, h: map<Node, set<Node>>, c: Node, after: Rows, more: set<Node>,
          s: Node, x: Node)
    requires AllPinned(rows, tombs, h) && s in h && x in h[s] && s != c && tombs <= more
    requires !Observation(c) || (forall r :: r in rows ==> rows[r].subject != c)
    requires forall r :: r in rows && rows[r].subject != c ==> r in after && after[r] == rows[r]
    ensures Pinned(after, more, s, x)
  {
    assert Pinned(rows, tombs, s, x);
      var route :| Pins(rows, tombs, s, x, route);
    PinsSurvive(rows, tombs, s, x, route, c, after, more);
  }

  /** Capturing one subject keeps every history pinned, its own new one included. */
  lemma CaptureKeepsPins(rows: Rows, tombs: set<Node>, h: map<Node, set<Node>>, n: Node, roots: seq<Arrival>,
          kept: map<Node, Tag>, after: Rows)
    requires AllPinned(rows, tombs, h) && Known(h)
    requires !Observation(n) || (forall r :: r in rows ==> rows[r].subject != n)
    requires RowsReplaced(rows, n, kept, after)
    requires forall x :: x in roots ==> x.node in kept && ParentsKept(rows, tombs, x.node, kept)
    ensures AllPinned(after, tombs, h[n := Derivation(h, roots)])
  {
    var h' := h[n := Derivation(h, roots)];
    forall s, x | s in h' && x in h'[s]
      ensures Pinned(after, tombs, s, x)
    {
      if s != n {
        OthersStayPinned(rows, tombs, h, n, after, tombs, s, x);
      } else if exists a :: a in roots && a.node == x {
        CapturePins(rows, tombs, n, kept, after, x, x);
      } else {
        var y :| y in h && (exists a :: a in roots && a.node == y) && x in h[y];
        CapturePins(rows, tombs, n, kept, after, y, x);
      }
    }
  }

  lemma MeetCaptureKeepsPins(rows: Rows, tombs: set<Node>, h: map<Node, set<Node>>, n: Node, roots: seq<Arrival>,
          after: Rows)
    requires AllPinned(rows, tombs, h) && Known(h)
    requires !Observation(n) || (forall r :: r in rows ==> rows[r].subject != n)
    requires RowsReplaced(rows, n, Meet(Expandable(rows, tombs), roots), after)
    ensures AllPinned(after, tombs, h[n := Derivation(h, roots)])
  {
    forall x | x in roots
      ensures x.node in Meet(Expandable(rows, tombs), roots)
      ensures ParentsKept(rows, tombs, x.node, Meet(Expandable(rows, tombs), roots))
    {
      MeetKeeps(rows, tombs, roots, x);
    }
    CaptureKeepsPins(rows, tombs, h, n, roots, Meet(Expandable(rows, tombs), roots), after);
  }

  lemma MoreTombsKeepPins(rows: Rows, tombs: set<Node>, h: map<Node, set<Node>>, more: set<Node>)
    requires AllPinned(rows, tombs, h) && tombs <= more
    ensures AllPinned(rows, more, h)
  {
    forall s, x | s in h && x in h[s] ensures Pinned(rows, more, s, x) {
      assert Pinned(rows, tombs, s, x);
      var route :| Pins(rows, tombs, s, x, route);
      PinsGrow(rows, tombs, s, x, route, more);
    }
  }

  lemma {:induction false} PinsGrow(rows: Rows, tombs: set<Node>, s: Node, x: Node, route: Route, more: set<Node>)
    requires Pins(rows, tombs, s, x, route) && tombs <= more
    ensures Pins(rows, more, s, x, route)
    decreases route
  {
    var y := rows[route.row].source;
    if !(y == x || y in tombs) { PinsGrow(rows, tombs, y, x, route.rest, more); }
  }

  lemma ExportKeepsPins(t: Tables, h: map<Node, set<Node>>, g: Grant, now: nat, n: Node, i: Info, sources: seq<Node>,
          kept: map<Node, Tag>, after: Tables)
    requires RowsValid(t) && AllPinned(t.rows, t.tombs, h) && Known(h)
    requires Exported(t, g, now, n, i, sources, kept, after)
    ensures AllPinned(after.rows, after.tombs, h[n := Derivation(h, Starts(sources))])
  {
    forall x | x in Starts(sources)
      ensures x.node in kept && forall r :: r in t.rows && t.rows[r].subject == x.node ==> t.rows[r].source in kept
    {
      ArrivesRoot(t.rows, Starts(sources), x);
      ArrivalIsEnd(t.rows, Starts(sources), x);
      forall r | r in t.rows && t.rows[r].subject == x.node ensures t.rows[r].source in kept {
        ArrivesAcross(t.rows, Starts(sources), x, r);
        ArrivalIsEnd(t.rows, Starts(sources), Across(x, t.rows[r]));
      }
    }
    CaptureKeepsPins(t.rows, t.tombs, h, n, Starts(sources), kept, after.rows);
  }

  lemma LateCapturePins(t: Tables, h: map<Node, set<Node>>, n: Node, i: Info, after: Tables)
    requires AllPinned(t.rows, t.tombs, h) && Known(h) && n in t.info && n.kind.Record? && i.RecordInfo?
    requires Captures(t.(info := t.info[n := i]), n, Roots(t.info[n := i], i.refs), after)
    ensures AllPinned(after.rows, after.tombs, h[n := Derivation(h, Roots(t.info, i.refs))]) && after.tombs == t.tombs
  {
    assert Roots(t.info[n := i], i.refs) == Roots(t.info, i.refs);
    MeetCaptureKeepsPins(t.rows, t.tombs, h, n, Roots(t.info[n := i], i.refs), after.rows);
  }

  lemma RetireKeepsPins(t: Tables, h: map<Node, set<Node>>, op: Op, after: Tables)
    requires op.RetireOp? && Commits(t, op, after) && RowsValid(t) && AllPinned(t.rows, t.tombs, h) && Known(h)
    ensures AllPinned(after.rows, after.tombs, Track(t, h, op))
  {
    var n := op.n;
    var i := RetiredInfo(t.info[n], op.delete);
    var mid := t.(info := t.info[n := i]);
    var kept :| (if HasRows(t.rows, n) then kept == mid else Captures(mid, n, Roots(mid.info, i.refs), kept))
                && after == Withdrawn(kept, n, i.scope, i.emptied);
    if !HasRows(t.rows, n) { LateCapturePins(t, h, n, i, kept); }
    MoreTombsKeepPins(kept.rows, kept.tombs, Track(t, h, op), after.tombs);
  }

  lemma ItemKeepsRows(t: Tables, k: Key, limit: nat, batch: set<nat>, next: nat, after: Tables)
    requires ItemStep(t, k, limit, batch, next, after)
    ensures after.rows == t.rows && t.tombs <= after.tombs && after.info.Keys == t.info.Keys
  {
  }

  lemma CleanKeepsRows(t: Tables, job: Node, limit: nat, spent: nat, after: Tables)
    requires CleanStep(t, job, limit, spent, after)
    ensures after.rows == t.rows && t.tombs <= after.tombs && after.info.Keys == t.info.Keys
  {
    if !(spent == 0 && CloseStep(t, job, after)) {
      var k: Key, batch: set<nat>, next: nat :| k.job == job && spent == 1 + |batch| && |batch| <= limit
        && ItemStep(t, k, limit, batch, next, after);
      ItemKeepsRows(t, k, limit, batch, next, after);
    }
  }

  /** Which subjects a step adds, and that it never forgets one. */
  lemma SubjectsGrow(t: Tables, op: Op, after: Tables)
    requires Commits(t, op, after)
    ensures after.info.Keys == t.info.Keys + (if op.InsertOp? || op.ExportOp? then {op.n} else {})
    ensures op.ReviseOp? || op.RetireOp? ==> op.n in t.info && t.info[op.n].RecordInfo?
    ensures op.InsertOp? || op.ExportOp? ==> op.n !in t.info
  {
    if op.CleanOp? { CleanKeepsRows(t, op.job, op.limit, op.spent, after); }
  }

  lemma InsertKeepsPins(t: Tables, h: map<Node, set<Node>>, n: Node, i: Info, refs: seq<Ref>, after: Tables)
    requires RowsValid(t) && AllPinned(t.rows, t.tombs, h) && Known(h)
    requires InsertFits(t, n, i, refs) && Inserted(t, n, i, refs, after)
    ensures AllPinned(after.rows, after.tombs, h[n := Derivation(h, Roots(t.info[n := i], refs))])
  {
    MeetCaptureKeepsPins(t.rows, t.tombs, h, n, Roots(t.info[n := i], refs), after.rows);
  }

  lemma ReviseKeepsPins(t: Tables, h: map<Node, set<Node>>, g: Grant, now: nat, n: Node, expected: Version, d: Draft,
          after: Tables)
    requires RowsValid(t) && AllPinned(t.rows, t.tombs, h) && Known(h)
    requires ReviseFits(t, g, now, n, expected, d) && Revised(t, n, d, after)
    ensures AllPinned(after.rows, after.tombs, h[n := Derivation(h, Roots(t.info, d.refs))])
  {
    assert Roots(t.info[n := RevisedInfo(t.info[n], d)], d.refs) == Roots(t.info, d.refs);
    MeetCaptureKeepsPins(t.rows, t.tombs, h, n, Roots(t.info, d.refs), after.rows);
  }

  lemma StepKeepsPins(t: Tables, h: map<Node, set<Node>>, op: Op, after: Tables)
    requires Valid(t) && Commits(t, op, after) && AllPinned(t.rows, t.tombs, h) && Known(h)
    ensures AllPinned(after.rows, after.tombs, Track(t, h, op))
  {
    match op
    case InsertOp(n, i, refs) => InsertKeepsPins(t, h, n, i, refs, after);
    case ReviseOp(g, now, n, expected, d) => ReviseKeepsPins(t, h, g, now, n, expected, d, after);
    case RetireOp(_, _, _, _) => RetireKeepsPins(t, h, op, after);
    case ExportOp(g, now, n, i, sources, kept) => ExportKeepsPins(t, h, g, now, n, i, sources, kept, after);
    case CleanOp(job, limit, spent) =>
      CleanKeepsRows(t, job, limit, spent, after);
      MoreTombsKeepPins(t.rows, t.tombs, h, after.tombs);
    case DisappearOp(_) => MoreTombsKeepPins(t.rows, t.tombs, h, after.tombs);
    case _ =>
  }

  lemma NextFaithful(w: World, op: Op, after: World)
    requires Faithful(w) && NextWorld(w, op, after)
    ensures Faithful(after)
  {
    if after != w {
      assert Known(w.history);
      StepKeepsPins(w.db, w.history, op, after.db);
      SubjectsGrow(w.db, op, after.db);
      NextKeeps(w.db, op, after.db);
    }
  }

  lemma {:induction false} HistoryFaithful(ws: seq<World>, ops: seq<Op>, i: nat)
    requires IsHistory(ws, ops) && i < |ws|
    ensures Faithful(ws[i])
  {
    if i > 0 {
      HistoryFaithful(ws, ops, i - 1);
      NextFaithful(ws[i - 1], ops[i - 1], ws[i]);
    }
  }

  lemma StepKeepsObservation(w: World, op: Op, after: World, e: Node)
    requires Faithful(w) && NextWorld(w, op, after) && Observation(e) && e in w.history
    ensures e in after.history && after.history[e] == w.history[e]
  {
    if after != w {
      SubjectsGrow(w.db, op, after.db);
      assert KindMatches(e, w.db.info[e]);
    }
  }

  /** An observation's history never changes again. */
  lemma {:induction false} ObservationFixed(ws: seq<World>, ops: seq<Op>, e: Node, i: nat, j: nat)
    requires IsHistory(ws, ops) && i <= j < |ws|
    requires Observation(e) && e in ws[i].history
    ensures e in ws[j].history && ws[j].history[e] == ws[i].history[e]
    decreases j - i
  {
    if i < j {
      var k := j - 1;
      ObservationFixed(ws, ops, e, i, k);
      HistoryFaithful(ws, ops, k);
      StepKeepsObservation(ws[k], ops[k], ws[k + 1], e);
    }
  }

  lemma {:induction false} PinsLead(rows: Rows, tombs: set<Node>, s: Node, x: Node, route: Route)
    requires Pins(rows, tombs, s, x, route) && x in tombs
    ensures Doomed(rows, tombs, s)
    decreases route
  {
    var y := rows[route.row].source;
    if y == x || y in tombs {
      assert Leads(rows, tombs, y, Here);
      assert Leads(rows, tombs, s, Up(route.row, Here));
    } else {
      PinsLead(rows, tombs, y, x, route.rest);
      var up :| Leads(rows, tombs, y, up);
      assert Leads(rows, tombs, s, Up(route.row, up));
    }
  }

  /** Once anything in an observation's derivation history is withdrawn, in any
      later state no grant can read that observation, whatever happened to the
      records in between. */
  lemma WithdrawalReaches(ws: seq<World>, ops: seq<Op>, e: Node, x: Node, i: nat, j: nat, g: Grant, now: nat,
          sources: seq<Node>)
    requires IsHistory(ws, ops) && i <= j < |ws|
    requires Observation(e) && e in ws[i].history && x in ws[i].history[e]
    requires x in ws[j].db.tombs && e in sources
    ensures !Authorized(ws[j].db, g, now, sources)
  {
    ObservationFixed(ws, ops, e, i, j);
    HistoryFaithful(ws, ops, j);
    var t := ws[j].db;
    assert Pinned(t.rows, t.tombs, e, x);
    var route :| Pins(t.rows, t.tombs, e, x, route);
    PinsLead(t.rows, t.tombs, e, x, route);
    if Authorized(t, g, now, sources) {
      AuthorizedNotDoomed(t, g, now, sources, e);
    }
  }

  /** The history really contains what was cited: every reference of a new
      observation, and the whole history each reference then had. */
  lemma HistoryCoversReferences(w: World, n: Node, i: Info, refs: seq<Ref>, after: World, k: nat)
    requires NextWorld(w, InsertOp(n, i, refs), after) && after != w && k < |refs|
    ensures var y := Resolve(w.db.info[n := i], refs[k].id);
      && n in after.history
      && y in after.history[n]
      && (y in w.history ==> w.history[y] <= after.history[n])
  {
    var roots := Roots(w.db.info[n := i], refs);
    assert roots[k] in roots;
  }
}
