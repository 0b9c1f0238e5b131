/** Artifact validity: declared dependencies, the validity clock and invalidation. */
module Validity {
  import opened Outcomes
  import opened Totals

  type Path = nat
  type Scope = nat
  type Version = nat

  datatype Place = Place(scope: Scope, path: Path)

  /** A declared dependency; the three fields are the table's key. */
  datatype Dep = Dep(scope: Scope, source: Path, dependent: Path)

  /** `deps` maps each edge to the size of its stored body. `stamped` keeps the
      generation of every artifact's latest invalidation, `invalid` those open. */
  datatype Book = Book(deps: map<Dep, nat>, clock: map<Scope, nat>,
                       stamped: map<Place, nat>, invalid: map<Place, nat>)

  const Blank := Book(map[], map[], map[], map[])

  const MAX_EDGES := 1000
  const MAX_BYTES := 262144

  function Now(v: Book, s: Scope): nat {
    if s in v.clock then v.clock[s] else 0
  }

  function Stamp(v: Book, p: Place): nat {
    if p in v.stamped then v.stamped[p] else 0
  }

  // ----------------------------------------------------------- dependencies

  function Scoped(deps: map<Dep, nat>, s: Scope): map<Dep, nat> {
    map d | d in deps && d.scope == s :: deps[d]
  }

  ghost predicate DependFits(v: Book, d: Dep, size: nat) {
    && |Scoped(v.deps, d.scope) - {d}| < MAX_EDGES
    && Total(Scoped(v.deps, d.scope) - {d}) + size <= MAX_BYTES
  }

  /** No scope ever holds more edges than an invalidation reads. */
  ghost predicate Bounded(v: Book) {
    forall s :: |Scoped(v.deps, s)| <= MAX_EDGES
  }

  lemma ScopedSet(v: Book, d: Dep, size: nat, s: Scope)
    ensures s != d.scope ==> Scoped(v.deps[d := size], s) == Scoped(v.deps, s)
    ensures s == d.scope ==> Scoped(v.deps[d := size], s) == (Scoped(v.deps, s) - {d})[d := size]
  {
  }

  lemma DependKeepsBounded(v: Book, d: Dep, size: nat)
    requires Bounded(v) && DependFits(v, d, size)
    ensures Bounded(v.(deps := v.deps[d := size]))
  {
    var w := v.(deps := v.deps[d := size]);
    forall s: Scope ensures |Scoped(w.deps, s)| <= MAX_EDGES {
      ScopedSet(v, d, size, s);
      if s != d.scope { assert |Scoped(v.deps, s)| <= MAX_EDGES; }
    }
  }

  method AddDependency(v: Book, d: Dep, size: nat) returns (r: Result<Book>)
    ensures r.Ok? <==> DependFits(v, d, size)
    ensures r.Ok? ==> r.value == v.(deps := v.deps[d := size])
    ensures Bounded(v) && r.Ok? ==> Bounded(r.value)
  {
    var others := Scoped(v.deps, d.scope) - {d};
    var bytes := Sum(others);
    if |others| >= MAX_EDGES || bytes + size > MAX_BYTES { return Err(Exhausted); }
    ghost var fits := Bounded(v);
    if fits { DependKeepsBounded(v, d, size); }
    return Ok(v.(deps := v.deps[d := size]));
  }

  // ---------------------------------------------------------- invalidation

  /** One or more dependency steps inside a scope. */
  datatype Walk = First(d: Dep) | Then(prefix: Walk, d: Dep)

  ghost predicate IsWalk(deps: map<Dep, nat>, s: Scope, from: Path, w: Walk) {
    && w.d in deps && w.d.scope == s
    && match w
       case First(d) => d.source == from
       case Then(q, d) => IsWalk(deps, s, from, q) && d.source == q.d.dependent
  }

  ghost predicate Reaches(deps: map<Dep, nat>, s: Scope, from: Path, to: Path) {
    exists w :: IsWalk(deps, s, from, w) && w.d.dependent == to
  }

  /** Precisely the paths reachable in one or more dependency steps. */
  ghost function Affected(deps: map<Dep, nat>, s: Scope, from: Path): set<Path> {
    set d | d in deps && Reaches(deps, s, from, d.dependent) :: d.dependent
  }

  lemma AffectedExact(deps: map<Dep, nat>, s: Scope, from: Path, to: Path)
    ensures to in Affected(deps, s, from) <==> Reaches(deps, s, from, to)
  {
    if Reaches(deps, s, from, to) {
      var w :| IsWalk(deps, s, from, w) && w.d.dependent == to;
      assert w.d in deps;
    }
  }

  /** Closed under depending on `from` or on a member. */
  ghost predicate Closed(deps: map<Dep, nat>, s: Scope, from: Path, found: set<Path>) {
    forall d :: d in deps && d.scope == s && (d.source == from || d.source in found) ==> d.dependent in found
  }

  /** The affected paths are the least closed set: they are closed themselves, and
      within every closed set. */
  lemma AffectedLeast(deps: map<Dep, nat>, s: Scope, from: Path, found: set<Path>)
    ensures Closed(deps, s, from, Affected(deps, s, from))
    ensures Closed(deps, s, from, found) ==> Affected(deps, s, from) <= found
  {
    forall d | d in deps && d.scope == s && (d.source == from || d.source in Affected(deps, s, from))
      ensures d.dependent in Affected(deps, s, from)
    {
      if d.source == from {
        assert IsWalk(deps, s, from, First(d));
      } else {
        var w :| IsWalk(deps, s, from, w) && w.d.dependent == d.source;
        assert IsWalk(deps, s, from, Then(w, d));
      }
    }
    if Closed(deps, s, from, found) {
      forall q | q in Affected(deps, s, from) ensures q in found {
        var w :| IsWalk(deps, s, from, w) && w.d.dependent == q;
        WalkStays(deps, s, from, found, w);
      }
    }
  }

  lemma {:induction false} WalkStays(deps: map<Dep, nat>, s: Scope, from: Path, found: set<Path>, w: Walk)
    requires Closed(deps, s, from, found) && IsWalk(deps, s, from, w)
    ensures w.d.dependent in found
  {
    match w
    case First(_) =>
    case Then(q, _) => WalkStays(deps, s, from, found, q);
  }

  /** The affected paths are no more than the edges of their scope, so a limit
      at that size never truncates them. */
  lemma AffectedSmall(deps: map<Dep, nat>, s: Scope, from: Path)
    ensures |Affected(deps, s, from)| <= |Scoped(deps, s)|
  {
    var all := Affected(deps, s, from);
    var edges := Scoped(deps, s).Keys;
    forall q | q in all ensures exists d :: d in edges && d.dependent == q {
      AffectedExact(deps, s, from, q);
      var w :| IsWalk(deps, s, from, w) && w.d.dependent == q;
      assert w.d in edges;
    }
    ImageSmall(edges, all);
  }

  lemma {:induction false} ImageSmall(edges: set<Dep>, image: set<Path>)
    requires forall q :: q in image ==> exists d :: d in edges && d.dependent == q
    ensures |image| <= |edges|
    decreases edges
  {
    if image != {} {
      var q :| q in image;
      var d :| d in edges && d.dependent == q;
      forall p | p in image - {q} ensures exists e :: e in edges - {d} && e.dependent == p {
        var e :| e in edges && e.dependent == p;
        assert e in edges - {d};
      }
      ImageSmall(edges - {d}, image - {q});
    }
  }

  /** The recursive query: each newly found path is expanded once, so shared and
      cyclic dependencies end. */
  method DependentsOf(deps: map<Dep, nat>, s: Scope, from: Path) returns (found: set<Path>)
    ensures found == Affected(deps, s, from)
  {
    found := {};
    var queue, expanded := {from}, {};
    ghost var targets := set d | d in deps :: d.dependent;
    while queue != {}
      invariant found <= targets && queue <= found + {from}
      invariant forall q :: q in found ==> Reaches(deps, s, from, q)
      invariant expanded !! queue && {from} + found == expanded + queue
      invariant forall d :: d in deps && d.scope == s && d.source in expanded ==> d.dependent in found
      decreases targets - found, queue
    {
      var p :| p in queue;
      var next := set d | d in deps && d.scope == s && d.source == p && d.dependent !in found :: d.dependent;
      forall q | q in next ensures Reaches(deps, s, from, q) {
        var d :| d in deps && d.scope == s && d.source == p && d.dependent == q;
        if p in found {
          var w :| IsWalk(deps, s, from, w) && w.d.dependent == p;
          assert IsWalk(deps, s, from, Then(w, d));
        } else {
          assert IsWalk(deps, s, from, First(d));
        }
      }
      expanded := expanded + {p};
      queue := (queue - {p}) + (next - expanded);
      found := found + next;
    }
    forall q | Reaches(deps, s, from, q) ensures q in found {
      var w :| IsWalk(deps, s, from, w) && w.d.dependent == q;
      WalkStays(deps, s, from, found, w);
    }
    forall q ensures q in found <==> q in Affected(deps, s, from) { AffectedExact(deps, s, from, q); }
  }

  function Placed(s: Scope, paths: set<Path>): (places: set<Place>)
    ensures forall p :: p in places <==> p.scope == s && p.path in paths
  {
    var places := set q | q in paths :: Place(s, q);
    assert forall p: Place :: p == Place(p.scope, p.path);
    places
  }

  function Spread(m: map<Place, nat>, s: Scope, paths: set<Path>, g: nat): map<Place, nat> {
    map p | p in m.Keys + Placed(s, paths) :: if p.scope == s && p.path in paths then g else m[p]
  }

  lemma SpreadNone(m: map<Place, nat>, s: Scope, g: nat)
    ensures Spread(m, s, {}, g) == m
  {
  }

  lemma SpreadOne(m: map<Place, nat>, s: Scope, paths: set<Path>, q: Path, g: nat)
    ensures Spread(m, s, paths, g)[Place(s, q) := g] == Spread(m, s, paths + {q}, g)
  {
  }

  /** One tick of the clock, with these artifacts invalidated at the new generation. */
  function Marked(v: Book, s: Scope, paths: set<Path>): Book {
    var g := Now(v, s) + 1;
    v.(clock := v.clock[s := g], stamped := Spread(v.stamped, s, paths, g), invalid := Spread(v.invalid, s, paths, g))
  }

  /** What writing `from` invalidates: everything that depends on it. */
  ghost function Written(v: Book, s: Scope, from: Path): Book {
    Marked(v, s, Affected(v.deps, s, from))
  }

  /** What distrusting `from` invalidates: itself and everything that depends on it. */
  ghost function Spoiled(v: Book, s: Scope, from: Path): Book {
    Marked(v, s, Affected(v.deps, s, from) + {from})
  }

  /** Every open invalidation is the artifact's latest one, and none is ahead of the clock. */
  ghost predicate Aligned(v: Book) {
    && (forall p :: p in v.stamped ==> 0 < v.stamped[p] <= Now(v, p.scope))
    && (forall p :: p in v.invalid ==> p in v.stamped && v.invalid[p] == v.stamped[p])
  }

  /** The query reads at most this many affected paths. */
  const READ_LIMIT := 1000

  /** The rows written for the paths the query returned. */
  method Mark(v: Book, s: Scope, from: Path, todo: set<Path>) returns (out: Book, paths: set<Path>)
    ensures paths <= todo && (|paths| == READ_LIMIT || paths == todo)
    ensures out == Marked(v, s, paths)
    ensures |paths| <= READ_LIMIT
  {
    var g := Now(v, s) + 1;
    var stamped, invalid, rest := v.stamped, v.invalid, todo;
    paths := {};
    SpreadNone(stamped, s, g);
    SpreadNone(invalid, s, g);
    while rest != {} && |paths| < READ_LIMIT
      invariant rest <= todo && paths == todo - rest && |paths| <= READ_LIMIT
      invariant stamped == Spread(v.stamped, s, paths, g) && invalid == Spread(v.invalid, s, paths, g)
    {
      var q :| q in rest;
      SpreadOne(v.stamped, s, paths, q, g);
      SpreadOne(v.invalid, s, paths, q, g);
      stamped, invalid := stamped[Place(s, q) := g], invalid[Place(s, q) := g];
      rest, paths := rest - {q}, paths + {q};
    }
    out := v.(clock := v.clock[s := g], stamped := stamped, invalid := invalid);
  }

  lemma NeverTruncated(v: Book, s: Scope, from: Path, paths: set<Path>)
    requires paths <= Affected(v.deps, s, from) && (|paths| == READ_LIMIT || paths == Affected(v.deps, s, from))
    ensures Bounded(v) ==> paths == Affected(v.deps, s, from)
  {
    var all := Affected(v.deps, s, from);
    AffectedSmall(v.deps, s, from);
    assert all == paths + (all - paths) && |all| == |paths| + |all - paths|;
    assert Bounded(v) ==> |Scoped(v.deps, s)| <= MAX_EDGES;
  }

  method InvalidateDependents(v: Book, s: Scope, from: Path) returns (out: Book, paths: set<Path>)
    ensures paths <= Affected(v.deps, s, from) && |paths| <= READ_LIMIT
    ensures out == Marked(v, s, paths)
    ensures Bounded(v) ==> out == Written(v, s, from) && paths == Affected(v.deps, s, from)
  {
    var found := DependentsOf(v.deps, s, from);
    out, paths := Mark(v, s, from, found);
    NeverTruncated(v, s, from, paths);
  }

  method InvalidateArtifactAndDependents(v: Book, s: Scope, from: Path) returns (out: Book)
    requires Bounded(v)
    ensures out == Spoiled(v, s, from)
  {
    var paths;
    out, paths := InvalidateDependents(v, s, from);
    var g := Now(out, s);
    SpreadOne(v.stamped, s, paths, from, g);
    SpreadOne(v.invalid, s, paths, from, g);
    out := out.(stamped := out.stamped[Place(s, from) := g], invalid := out.invalid[Place(s, from) := g]);
  }
}
