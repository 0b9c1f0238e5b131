/** One context segment: an append-only log of items, the backward scan that picks
    where a continuation's tail starts, and the summaries that tile what precedes. */
module ContextLog {
  import opened Outcomes

  type Id = nat

  datatype Kind = Owner | Interpretation | Evidence

  /** `size` is what the tail scan measures, `visible` what a compaction reads. */
  datatype Item = Item(kind: Kind, body: nat, size: nat, visible: nat, deleted: bool)

  datatype Status = Prepared | Committed | Redacted

  datatype Summary = Summary(after: nat, through: nat, predecessor: Option<Id>, status: Status,
    result: Option<(nat, nat)>)

  /** Item number `k` of the log, counting from 1, is `items[k - 1]`. */
  datatype Log = Log(items: seq<Item>, summaries: map<Id, Summary>)

  const Blank := Log([], map[])

  const WINDOW := 180_000
  const RESERVE := 16 * 1024 + 2000
  const PAGE := 20
  const TEXT_LIMIT := 16 * 1024

  // ------------------------------------------------------------- the tail

  function Length(i: Item): nat {
    if i.deleted then 0 else i.size
  }

  function Bytes(items: seq<Item>): nat {
    if items == [] then 0 else Length(items[0]) + Bytes(items[1..])
  }

  /** What the tail may hold beside the owner's instruction, a summary and framing. */
  function Allowance(items: seq<Item>): nat {
    var owner := if items != [] && items[0].kind.Owner? then Length(items[0]) else 0;
    if owner + RESERVE > WINDOW then 0 else WINDOW - owner - RESERVE
  }

  /** A tail may start at the beginning or at an item that is not tool evidence. */
  predicate Legal(items: seq<Item>, cut: nat) {
    cut == 0 || (cut < |items| && !items[cut].kind.Evidence?)
  }

  predicate Fits(items: seq<Item>, allowance: nat, cut: nat)
    requires cut <= |items|
  {
    Bytes(items[cut..]) <= allowance
  }

  /** The longest suffix that fits and starts legally, or, when none fits, the
      shortest legal suffix. */
  ghost predicate IsTail(items: seq<Item>, allowance: nat, cut: nat) {
    && cut <= |items| && Legal(items, cut)
    && if Fits(items, allowance, cut) then forall c: nat :: c < cut && Legal(items, c) ==> !Fits(items, allowance, c)
       else forall c: nat :: c <= |items| && Legal(items, c) ==> c <= cut
  }

  lemma {:induction false} ShorterFits(items: seq<Item>, a: nat, b: nat)
    requires a <= b <= |items|
    ensures Bytes(items[b..]) <= Bytes(items[a..])
    decreases b - a
  {
    if a < b {
      assert items[a..][1..] == items[a + 1..];
      ShorterFits(items, a + 1, b);
    }
  }

  /** The choice is unique, so the scan has no latitude. */
  lemma TailUnique(items: seq<Item>, allowance: nat, a: nat, b: nat)
    requires IsTail(items, allowance, a) && IsTail(items, allowance, b)
    ensures a == b
  {
    if a < b { ShorterFits(items, a, b); }
    if b < a { ShorterFits(items, b, a); }
  }

  /** When the whole log is kept: it fits, or nothing after its first item may start a tail. */
  lemma WholeTail(items: seq<Item>, allowance: nat, cut: nat)
    requires IsTail(items, allowance, cut)
    ensures cut == 0 <==> Bytes(items) <= allowance || forall k :: 0 < k < |items| ==> items[k].kind.Evidence?
  {
    assert items[0..] == items;
    assert Legal(items, 0) && (Fits(items, allowance, 0) <==> Bytes(items) <= allowance);
    ShorterFits(items, 0, cut);
    if cut == 0 && Bytes(items) > allowance {
      forall k | 0 < k < |items| ensures items[k].kind.Evidence? { assert !Legal(items, k); }
    }
  }

  /** The tail starts at tool evidence exactly when the log itself does and the
      whole of it is kept. */
  lemma EvidenceStart(items: seq<Item>, allowance: nat, cut: nat)
    requires IsTail(items, allowance, cut)
    ensures cut < |items| && items[cut].kind.Evidence? <==>
              && items != [] && items[0].kind.Evidence?
              && (Bytes(items) <= allowance || forall k :: 0 < k < |items| ==> items[k].kind.Evidence?)
  {
    WholeTail(items, allowance, cut);
  }

  /** `context_tail`: scan from the newest item, remembering the last legal start. */
  method ContextTail(items: seq<Item>) returns (cut: nat)
    ensures IsTail(items, Allowance(items), cut)
    ensures cut > 0 ==> !items[cut].kind.Evidence?
  {
    var allowance := Allowance(items);
    var bytes, boundary := 0, None;
    var i := |items|;
    while i > 0
      invariant 0 <= i <= |items| && bytes == Bytes(items[i..])
      invariant boundary.Some? ==> i <= boundary.value < |items| && !items[boundary.value].kind.Evidence?
      invariant forall c: nat :: i <= c < |items| && !items[c].kind.Evidence? ==> boundary.Some? && boundary.value <= c
      invariant bytes > allowance && boundary.Some? ==>
                  boundary.value == i && !Fits(items, allowance, i) && forall c: nat :: i < c < |items| ==>
                    items[c].kind.Evidence?
    {
      i := i - 1;
      assert items[i..][1..] == items[i + 1..];
      bytes := bytes + Length(items[i]);
      if bytes > allowance && boundary.Some? {
        TailFound(items, allowance, i, boundary.value);
        return boundary.value;
      }
      if !items[i].kind.Evidence? { boundary := Some(i); }
    }
    assert items[0..] == items;
    return 0;
  }

  /** The scan stopped at item `i`: the last legal start after it is the tail. */
  lemma TailFound(items: seq<Item>, allowance: nat, i: nat, cut: nat)
    requires i < cut < |items| && !items[cut].kind.Evidence? && !Fits(items, allowance, i)
    requires forall c: nat :: i < c < cut ==> items[c].kind.Evidence?
    requires !Fits(items, allowance, i + 1) ==> cut == i + 1 && forall c: nat :: cut < c < |items| ==>
             items[c].kind.Evidence?
    ensures IsTail(items, allowance, cut)
  {
    if Fits(items, allowance, i + 1) { ShorterFits(items, i + 1, cut); }
    forall c: nat | c < cut && Legal(items, c) ensures !Fits(items, allowance, c) { ShorterFits(items, c, i); }
  }

  // ------------------------------------------------------------- summaries

  predicate Live(l: Log, s: Id) {
    s in l.summaries && l.summaries[s].status.Committed?
  }

  /** The committed summary that reaches furthest. */
  ghost predicate IsHead(l: Log, head: Option<Id>) {
    match head
    case None => forall s :: s in l.summaries ==> !Live(l, s)
    case Some(h) => Live(l, h) && forall s :: Live(l, s) ==> l.summaries[s].through <= l.summaries[h].through
  }

  function Reach(l: Log, head: Option<Id>): nat
    requires head.Some? ==> head.value in l.summaries
  {
    if head.Some? then l.summaries[head.value].through else 0
  }

  method SummaryHead(l: Log) returns (head: Option<Id>)
    ensures IsHead(l, head)
  {
    head := None;
    var todo := set s | s in l.summaries && l.summaries[s].status.Committed?;
    ghost var all := todo;
    while todo != {}
      invariant todo <= all && (head.Some? ==> head.value in all)
      invariant head.None? ==> todo == all
      invariant head.Some? ==> forall s :: s in all - todo ==> l.summaries[s].through <= l.summaries[head.value].through
    {
      var s :| s in todo;
      if head.None? || l.summaries[s].through > l.summaries[head.value].through { head := Some(s); }
      todo := todo - {s};
    }
    assert forall s :: Live(l, s) ==> s in all;
  }

  /** Items a compaction reads; the owner's opening instruction is kept verbatim. */
  predicate Read(l: Log, k: nat) {
    0 < k <= |l.items| && !(k == 1 && l.items[0].kind.Owner?)
  }

  function Visible(l: Log, after: nat, through: nat): nat
    requires after <= through <= |l.items|
    decreases through - after
  {
    if after == through then 0
    else (if Read(l, after + 1) then l.items[after].visible else 0) + Visible(l, after + 1, through)
  }

  function Rows(l: Log, after: nat, through: nat): nat
    requires after <= through <= |l.items|
    decreases through - after
  {
    if after == through then 0
    else (if Read(l, after + 1) then 1 else 0) + Rows(l, after + 1, through)
  }

  /** A chunk a compaction may take: undeleted items ending at one that is read,
      within the row limit, and within the window unless it is a single row. */
  ghost predicate Chunk(l: Log, after: nat, target: nat, through: nat) {
    && after <= through <= target <= |l.items|
    && (forall k :: after < k <= through && Read(l, k) ==> !l.items[k - 1].deleted)
    && Rows(l, after, through) <= PAGE
    && (through > after ==> Read(l, through))
    && (Visible(l, after, through) <= WINDOW || Rows(l, after, through) == 1)
  }

  /** The row a compaction stumbles on: it is deleted, and the rows before it were
      all taken without reaching a limit. */
  ghost predicate Blocks(l: Log, after: nat, target: nat, k: nat) {
    && after < k <= target <= |l.items|
    && Read(l, k) && l.items[k - 1].deleted
    && (forall j :: after < j < k && Read(l, j) ==> !l.items[j - 1].deleted)
    && Rows(l, after, k - 1) < PAGE
    && (Visible(l, after, k - 1) <= WINDOW || Rows(l, after, k - 1) == 1)
  }

  lemma {:induction false} RowsSplit(l: Log, after: nat, mid: nat, through: nat)
    requires after <= mid <= through <= |l.items|
    ensures Rows(l, after, through) == Rows(l, after, mid) + Rows(l, mid, through)
    ensures Visible(l, after, through) == Visible(l, after, mid) + Visible(l, mid, through)
    decreases mid - after
  {
    if after < mid { RowsSplit(l, after + 1, mid, through); }
  }

  /** The loop's state: rows up to `k` have been looked at, the last taken is `through`. */
  ghost predicate Paging(l: Log, after: nat, target: nat, through: nat, k: nat) {
    Chunk(l, after, target, through) && through <= k <= target && forall j :: through < j <= k ==> !Read(l, j)
  }

  lemma PagingSums(l: Log, after: nat, target: nat, through: nat, k: nat)
    requires Paging(l, after, target, through, k)
    ensures Rows(l, after, k) == Rows(l, after, through) && Visible(l, after, k) == Visible(l, after, through)
  {
    NoneRead(l, through, k);
    RowsSplit(l, after, through, k);
  }

  /** A deleted row that is reached blocks. */
  lemma PagingBlocked(l: Log, after: nat, target: nat, through: nat, k: nat)
    requires Paging(l, after, target, through, k) && k < target && Read(l, k + 1) && l.items[k].deleted
    requires Rows(l, after, through) < PAGE
    ensures Blocks(l, after, target, k + 1)
  {
    PagingSums(l, after, target, through, k);
  }

  /** Stopping at the byte limit leaves no later row within it. */
  lemma PagingFull(l: Log, after: nat, target: nat, through: nat, k: nat)
    requires Paging(l, after, target, through, k) && k < target && Read(l, k + 1) && !l.items[k].deleted
             && through > after
    requires Visible(l, after, through) + l.items[k].visible > WINDOW
    ensures forall j :: k < j <= target && Read(l, j) ==> Visible(l, after, j) > WINDOW
    ensures forall j: nat :: !Blocks(l, after, target, j)
  {
    PagingSums(l, after, target, through, k);
    RowsSplit(l, after, k, k + 1);
    TakenRows(l, after, through);
    forall j | k + 1 <= j <= target ensures Visible(l, after, j) > WINDOW && Rows(l, after, j) > 1 {
      RowsSplit(l, after, k + 1, j);
    }
    forall j: nat ensures !Blocks(l, after, target, j) {
      if k + 1 < j <= target { assert Visible(l, after, j - 1) > WINDOW; }
    }
  }

  /** Stopping at the row limit, or at the target, leaves no later row within it. */
  lemma PagingDone(l: Log, after: nat, target: nat, through: nat, k: nat)
    requires Paging(l, after, target, through, k) && (k == target || Rows(l, after, through) == PAGE)
    ensures forall j :: k < j <= target && Read(l, j) ==> Rows(l, after, j) > PAGE
    ensures forall j: nat :: !Blocks(l, after, target, j)
  {
    PagingSums(l, after, target, through, k);
    forall j | k < j <= target ensures !Blocks(l, after, target, j) && (Read(l, j) ==> Rows(l, after, j) > PAGE) {
      RowsSplit(l, after, k, j - 1);
      RowsSplit(l, after, j - 1, j);
    }
  }

  lemma TakenRows(l: Log, after: nat, through: nat)
    requires after < through <= |l.items| && Read(l, through)
    ensures Rows(l, after, through) > 0
  {
    RowsSplit(l, after, through - 1, through);
  }

  /** One more row is taken: the first always, a later one within the window. */
  lemma PagingNext(l: Log, after: nat, target: nat, through: nat, k: nat)
    requires Paging(l, after, target, through, k) && k < target && Read(l, k + 1) && !l.items[k].deleted
    requires Rows(l, after, through) < PAGE
    requires through == after || Visible(l, after, through) + l.items[k].visible <= WINDOW
    ensures Paging(l, after, target, k + 1, k + 1)
    ensures Rows(l, after, k + 1) == Rows(l, after, through) + 1
    ensures Visible(l, after, k + 1) == Visible(l, after, through) + l.items[k].visible
  {
    PagingSums(l, after, target, through, k);
    RowsSplit(l, after, k, k + 1);
  }

  /** The paging loop of `prepare_compaction`: it fails exactly on a deleted row it
      reaches, and stops short of the target only when one more row would pass a
      limit. */
  method ChooseChunk(l: Log, after: nat, target: nat) returns (r: Result<nat>)
    requires after <= |l.items| && target <= |l.items|
    ensures r.Ok? && target >= after ==> Chunk(l, after, target, r.value)
    ensures r.Ok? && target < after ==> r.value == after
    ensures r.Ok? ==> (r.value == after <==> NothingToRead(l, after, target))
    ensures r.Ok? && target >= after ==>
              forall k :: r.value < k <= target && Read(l, k) ==>
                Rows(l, after, k) > PAGE || (r.value > after && Visible(l, after, k) > WINDOW)
    ensures r.Err? <==> exists k: nat :: Blocks(l, after, target, k)
    ensures r.Err? ==> r == Err(Denied)
  {
    if target < after { return Ok(after); }
    var through: nat, bytes: nat, rows: nat := after, 0, 0;
    var k := after;
    while k < target && rows < PAGE
      invariant Paging(l, after, target, through, k)
      invariant rows == Rows(l, after, through) && bytes == Visible(l, after, through)
    {
      if Read(l, k + 1) {
        if l.items[k].deleted {
          PagingBlocked(l, after, target, through, k);
          return Err(Denied);
        }
        var size := l.items[k].visible;
        if through > after && bytes + size > WINDOW {
          PagingFull(l, after, target, through, k);
          return Ok(through);
        }
        PagingNext(l, after, target, through, k);
        bytes, rows, through := bytes + size, rows + 1, k + 1;
      }
      k := k + 1;
    }
    PagingDone(l, after, target, through, k);
    return Ok(through);
  }

  predicate NothingToRead(l: Log, after: nat, target: nat) {
    forall k :: after < k <= target ==> !Read(l, k)
  }

  lemma {:induction false} NoneRead(l: Log, a: nat, b: nat)
    requires a <= b <= |l.items| && forall j :: a < j <= b ==> !Read(l, j)
    ensures Rows(l, a, b) == 0 && Visible(l, a, b) == 0
    decreases b - a
  {
    if a < b { NoneRead(l, a + 1, b); }
  }

  // ----------------------------------------------------------------- steps

  datatype Step =
    | Append(item: Item)
    | Prepare(id: Id, head: Option<Id>, through: nat)
    | Commit(id: Id, text: nat, permit: nat)
    | Redact(first: nat)

  predicate Planned(l: Log, s: Id, after: nat, through: nat) {
    s in l.summaries && l.summaries[s].status.Prepared? && l.summaries[s].after == after
      && l.summaries[s].through == through
  }

  ghost predicate Enabled(l: Log, s: Step) {
    match s
    case Append(_) => true
    case Prepare(id, head, through) =>
      && IsHead(l, head) && Reach(l, head) < through <= |l.items|
      && (Planned(l, id, Reach(l, head), through)
          || (id !in l.summaries && forall s :: s in l.summaries ==> !Planned(l, s, Reach(l, head), through)))
    case Commit(id, _, _) =>
      id in l.summaries && l.summaries[id].status.Prepared? && IsHead(l, l.summaries[id].predecessor)
    case Redact(first) => true
  }

  ghost function After(l: Log, s: Step): Log
    requires Enabled(l, s)
  {
    match s
    case Append(item) => l.(items := l.items + [item])
    case Prepare(id, head, through) =>
      if id in l.summaries then l
      else l.(summaries := l.summaries[id := Summary(Reach(l, head), through, head, Prepared, None)])
    case Commit(id, text, permit) =>
      l.(summaries := l.summaries[id := l.summaries[id].(status := Committed, result := Some((text, permit)))])
    case Redact(first) => Withdrawn(l, first)
  }

  /** Withdrawing a source first observed at an item deletes the log from there on,
      with every summary that reaches it. */
  function Withdrawn(l: Log, first: nat): Log {
    Log(seq(|l.items|, k requires 0 <= k < |l.items| => if k + 1 >= first then l.items[k].(deleted := true)
      else l.items[k]),
        map s | s in l.summaries :: if l.summaries[s].through >= first
          then l.summaries[s].(status := Redacted, result := None) else l.summaries[s])
  }

  // ---------------------------------------------------------------- tiling

  predicate Covers(s: Summary, k: nat) {
    s.after < k <= s.through
  }

  /** A summary that is not redacted starts where its predecessor ends. */
  ghost predicate Linked(l: Log, s: Id)
    requires s in l.summaries
  {
    var row := l.summaries[s];
    && row.after < row.through <= |l.items|
    && (!row.status.Redacted? ==>
          match row.predecessor
          case None => row.after == 0
          case Some(p) => Live(l, p) && l.summaries[p].through == row.after)
  }

  /** An item some committed summary reaches. */
  predicate Reached(l: Log, h: Id, k: nat) {
    Live(l, h) && 0 < k <= l.summaries[h].through
  }

  ghost predicate Covered(l: Log, k: nat) {
    exists s :: Live(l, s) && Covers(l.summaries[s], k)
  }

  ghost predicate AllLinked(l: Log) {
    forall s {:trigger Linked(l, s)} :: s in l.summaries ==> Linked(l, s)
  }

  /** Committed summaries do not overlap. */
  predicate Apart(l: Log, a: Id, b: Id) {
    Live(l, a) && Live(l, b) && a != b ==>
      l.summaries[a].through <= l.summaries[b].after || l.summaries[b].through <= l.summaries[a].after
  }

  ghost predicate AllApart(l: Log) {
    forall a, b :: Apart(l, a, b)
  }

  ghost predicate Gapless(l: Log) {
    forall h, k :: Reached(l, h, k) ==> Covered(l, k)
  }

  /** The committed summaries cover (0, head] without gap or overlap, and each
      starts where its predecessor ends. */
  ghost predicate Tiles(l: Log) {
    AllLinked(l) && AllApart(l) && Gapless(l)
  }

  lemma CoveredStays(l: Log, m: Log, k: nat)
    requires Covered(l, k) && forall s :: Live(l, s) && Covers(l.summaries[s], k) ==>
             Live(m, s) && Covers(m.summaries[s], k)
    ensures Covered(m, k)
  {
    var s :| Live(l, s) && Covers(l.summaries[s], k);
    assert Live(m, s);
  }

  /** A step that changes no committed summary. */
  lemma SameLive(l: Log, m: Log)
    requires Tiles(l) && AllLinked(m)
    requires forall x :: Live(m, x) <==> Live(l, x)
    requires forall x :: Live(l, x) ==>
             x in m.summaries && m.summaries[x].after == l.summaries[x].after
               && m.summaries[x].through == l.summaries[x].through
    ensures Tiles(m)
  {
    forall a, b ensures Apart(m, a, b) { assert Apart(l, a, b); }
    forall h, k | Reached(m, h, k) ensures Covered(m, k) {
      assert Reached(l, h, k);
      CoveredStays(l, m, k);
    }
  }

  lemma PrepareKeeps(l: Log, s: Step)
    requires Tiles(l) && s.Prepare? && Enabled(l, s)
    ensures Tiles(After(l, s))
  {
    var m := After(l, s);
    if m != l {
      forall x ensures Live(m, x) <==> Live(l, x) {}
      forall x | x in m.summaries ensures Linked(m, x) { assert x != s.id ==> Linked(l, x); }
      SameLive(l, m);
    }
  }

  /** A committed plan extends the tiling by its own span. */
  lemma CommitApart(l: Log, id: Id, m: Log, a: Id)
    requires Tiles(l) && id in l.summaries && l.summaries[id].status.Prepared? && IsHead(l, l.summaries[id].predecessor)
    requires m == l.(summaries := m.summaries) && m.summaries.Keys == l.summaries.Keys
    requires m.summaries == l.summaries[id := m.summaries[id]] && m.summaries[id].after == l.summaries[id].after
             && m.summaries[id].through == l.summaries[id].through
    ensures Apart(m, a, id) && Apart(m, id, a)
  {
    assert Linked(l, id);
    assert Live(m, a) && a != id ==> Live(l, a);
  }

  lemma CommitCovers(l: Log, s: Step, k: nat)
    requires Tiles(l) && s.Commit? && Enabled(l, s) && 0 < k <= l.summaries[s.id].through
    ensures Covered(After(l, s), k)
  {
    var m := After(l, s);
    assert Linked(l, s.id);
    if k > l.summaries[s.id].after {
      assert Live(m, s.id) && Covers(m.summaries[s.id], k);
    } else {
      var p := l.summaries[s.id].predecessor.value;
      assert Reached(l, p, k);
      CoveredStays(l, m, k);
    }
  }

  lemma CommitKeeps(l: Log, s: Step)
    requires Tiles(l) && s.Commit? && Enabled(l, s)
    ensures Tiles(After(l, s))
  {
    var m := After(l, s);
    forall x ensures Live(m, x) <==> Live(l, x) || x == s.id {}
    forall x | x in m.summaries ensures Linked(m, x) { assert Linked(l, x); }
    forall a, b ensures Apart(m, a, b) {
      if a == s.id || b == s.id {
        CommitApart(l, s.id, m, a);
        CommitApart(l, s.id, m, b);
      } else {
        assert Apart(l, a, b);
      }
    }
    forall h, k | Reached(m, h, k) ensures Covered(m, k) {
      if h == s.id {
        CommitCovers(l, s, k);
      } else {
        assert Reached(l, h, k);
        CoveredStays(l, m, k);
      }
    }
  }

  /** What lies below a surviving summary survives with it. */
  lemma RedactCovers(l: Log, first: nat, h: Id, k: nat)
    requires Tiles(l) && Reached(l, h, k) && l.summaries[h].through < first
    ensures Covered(Withdrawn(l, first), k)
  {
    var m := Withdrawn(l, first);
    assert Covered(l, k);
    var x :| Live(l, x) && Covers(l.summaries[x], k);
    assert Linked(l, h) && Linked(l, x) && Apart(l, x, h);
    assert Live(m, x) && Covers(m.summaries[x], k);
  }

  lemma RedactKeeps(l: Log, first: nat)
    requires Tiles(l)
    ensures Tiles(Withdrawn(l, first))
  {
    var m := Withdrawn(l, first);
    forall x ensures Live(m, x) <==> Live(l, x) && l.summaries[x].through < first {}
    forall x | x in m.summaries ensures Linked(m, x) { assert Linked(l, x); }
    forall a, b ensures Apart(m, a, b) { assert Apart(l, a, b); }
    forall h, k | Reached(m, h, k) ensures Covered(m, k) {
      assert Reached(l, h, k);
      RedactCovers(l, first, h, k);
    }
  }

  lemma AppendKeeps(l: Log, s: Step)
    requires Tiles(l) && s.Append?
    ensures Tiles(After(l, s))
  {
    var m := After(l, s);
    forall x ensures Live(m, x) <==> Live(l, x) {}
    forall x | x in m.summaries ensures Linked(m, x) { assert Linked(l, x); }
    SameLive(l, m);
  }

  lemma {:induction false} AppendManyKeeps(l: Log, items: seq<Item>)
    requires Tiles(l) && l.items <= items
    ensures Tiles(l.(items := items))
    decreases |items|
  {
    if |items| == |l.items| {
      assert l.(items := items) == l;
    } else {
      var n := |items| - 1;
      AppendManyKeeps(l, items[..n]);
      AppendKeeps(l.(items := items[..n]), Append(items[n]));
      assert items == items[..n] + [items[n]];
    }
  }

  lemma StepTiles(l: Log, s: Step)
    requires Tiles(l) && Enabled(l, s)
    ensures Tiles(After(l, s))
  {
    match s
    case Append(_) => AppendKeeps(l, s);
    case Prepare(_, _, _) => PrepareKeeps(l, s);
    case Commit(_, _, _) => CommitKeeps(l, s);
    case Redact(first) => RedactKeeps(l, first);
  }

  ghost predicate IsRun(ls: seq<Log>, steps: seq<Step>) {
    && |ls| == |steps| + 1 && ls[0] == Blank
    && forall k {:trigger steps[k]} :: 0 <= k < |steps| ==>
       Enabled(ls[k], steps[k]) && ls[k + 1] == After(ls[k], steps[k])
  }

  /** Under any interleaving of appends, prepares, commits, retries and redactions. */
  lemma {:induction false} RunTiles(ls: seq<Log>, steps: seq<Step>, k: nat)
    requires IsRun(ls, steps) && k < |ls|
    ensures Tiles(ls[k])
  {
    if k > 0 {
      var j := k - 1;
      RunTiles(ls, steps, j);
      StepTiles(ls[j], steps[j]);
    }
  }

  /** A tail can start at tool evidence: the log whose first item is evidence. */
  lemma EvidenceFirst() returns (ls: seq<Log>, steps: seq<Step>, cut: nat)
    ensures IsRun(ls, steps) && |ls| == 2
    ensures IsTail(ls[1].items, Allowance(ls[1].items), cut) && cut < |ls[1].items| && ls[1].items[cut].kind.Evidence?
  {
    var items := [Item(Evidence, 0, 1, 1, false)];
    ls, steps, cut := [Blank, Log(items, map[])], [Append(items[0])], 0;
    assert Blank.items + [items[0]] == items;
    assert items[0..] == items && Bytes(items[1..]) == 0;
  }

  /** Tiling, item by item: an item up to the head is in exactly one committed
      summary, and no item past it is in any. */
  lemma TiledExactly(l: Log, head: Option<Id>, k: nat)
    requires Tiles(l) && IsHead(l, head) && k > 0
    ensures Covered(l, k) <==> k <= Reach(l, head)
    ensures forall a, b :: Live(l, a) && Live(l, b) && Covers(l.summaries[a], k) && Covers(l.summaries[b], k) ==> a == b
  {
    if head.Some? && k <= Reach(l, head) { assert Reached(l, head.value, k); }
    forall a, b | Live(l, a) && Live(l, b) && Covers(l.summaries[a], k) && Covers(l.summaries[b], k) ensures a == b {
      assert Apart(l, a, b);
    }
  }

  /** No predecessor has two committed successors, and neither has the start. */
  lemma OneSuccessor(l: Log, a: Id, b: Id)
    requires Tiles(l) && Live(l, a) && Live(l, b) && l.summaries[a].predecessor == l.summaries[b].predecessor
    ensures a == b
  {
    assert Linked(l, a) && Linked(l, b) && Apart(l, a, b);
  }

  /** A plan just prepared, new or reused, can be committed right away. */
  lemma PlanCommits(l: Log, s: Step, text: nat, permit: nat)
    requires Tiles(l) && s.Prepare? && Enabled(l, s)
    ensures Enabled(After(l, s), Commit(s.id, text, permit))
    ensures After(l, s).summaries[s.id].predecessor == s.head
  {
    var m := After(l, s);
    forall x ensures Live(m, x) <==> Live(l, x) {}
    if s.id in l.summaries {
      assert Linked(l, s.id);
      var p := l.summaries[s.id].predecessor;
      if s.head.Some? {
        assert Linked(l, s.head.value);
        assert p.Some? ==> Linked(l, p.value) && Apart(l, p.value, s.head.value);
      }
    }
  }

  /** An entry repeats the item at its place, or is new and cites retained revisions. */
  predicate Appends(l: Log, after: nat, entries: seq<Item>, retained: seq<bool>, k: nat) {
    && k < |entries| && k < |retained|
    && if after + k < |l.items| then l.items[after + k] == entries[k] else retained[k]
  }

  ghost predicate PlanInputs(l: Log, head: Option<Id>, target: nat) {
    IsHead(l, head) && IsTail(l.items, Allowance(l.items), target)
  }

  /** The next chunk runs into a deleted row. */
  ghost predicate Blocked(l: Log) {
    exists head, target, k: nat :: PlanInputs(l, head, target) && Blocks(l, Reach(l, head), target, k)
  }

  /** Nothing between the head and the tail is left to summarize. */
  ghost predicate Idle(l: Log) {
    exists head, target :: PlanInputs(l, head, target) && NothingToRead(l, Reach(l, head), target)
  }

  lemma PlanDetermined(l: Log, head: Option<Id>, target: nat)
    requires Tiles(l) && PlanInputs(l, head, target)
    ensures Blocked(l) <==> exists k: nat :: Blocks(l, Reach(l, head), target, k)
    ensures Idle(l) <==> NothingToRead(l, Reach(l, head), target)
  {
    forall h, t | PlanInputs(l, h, t) ensures h == head && t == target {
      HeadUnique(l, head, h);
      TailUnique(l.items, Allowance(l.items), target, t);
    }
  }

  class Segment {
    var log: Log

    constructor ()
      ensures log == Blank
    {
      log := Blank;
    }

    /** Entries already in the log must be repeated exactly; the rest is appended.
        `latest` says whether the run has no newer segment, `retained[k]` whether
        every record revision entry `k` cites is current, withdrawn or captured. */
    method AppendContext(after: nat, entries: seq<Item>, latest: bool, retained: seq<bool>) returns (r: Result<()>)
      requires Tiles(log) && |retained| == |entries| && forall k :: 0 <= k < |entries| ==> !entries[k].deleted
      modifies this
      ensures Tiles(log)
      ensures r.Ok? <==>
              latest && after <= |old(log).items| && forall k :: 0 <= k < |entries| ==>
                Appends(old(log), after, entries, retained, k)
      ensures r.Err? ==> log == old(log) && r == Err(Conflict)
      ensures r.Ok? ==> log == old(log).(items := log.items) && old(log).items <= log.items
      ensures r.Ok? ==> after + |entries| <= |log.items| && log.items[after..after + |entries|] == entries
      ensures r.Ok? ==> |log.items| == Max(|old(log).items|, after + |entries|)
    {
      if !latest { return Err(Conflict); }
      var count := |log.items|;
      if after > count { return Err(Conflict); }
      var items := log.items;
      for k := 0 to |entries|
        invariant log.items <= items && |items| == Max(count, after + k) && log == old(log)
        invariant items[after..after + k] == entries[..k]
        invariant forall j :: 0 <= j < k ==> Appends(log, after, entries, retained, j)
      {
        if after + k < count {
          if items[after + k] != entries[k] {
            assert !Appends(log, after, entries, retained, k);
            return Err(Conflict);
          }
        } else {
          if !retained[k] {
            assert !Appends(log, after, entries, retained, k);
            return Err(Conflict);
          }
          assert (items + [entries[k]])[after..after + k] == items[after..after + k];
          items := items + [entries[k]];
        }
        assert entries[..k + 1] == entries[..k] + [entries[k]];
        assert items[after..after + k + 1] == items[after..after + k] + [items[after + k]];
      }
      AppendManyKeeps(log, items);
      log := log.(items := items);
      return Ok(());
    }

    /** Withdrawing a source first observed at item `first`. */
    method RedactFrom(first: nat)
      requires Tiles(log)
      modifies this
      ensures Tiles(log) && log == Withdrawn(old(log), first)
    {
      RedactKeeps(log, first);
      log := Withdrawn(log, first);
    }

    /** A retried prepare returns the plan it returned before. `usable` says that the
        run is active and its latest segment still authorized and current. */
    method PrepareCompaction(unused: Id, usable: bool) returns (r: Result<Option<Id>>)
      requires Tiles(log) && unused !in log.summaries
      modifies this
      ensures Tiles(log)
      ensures r.Err? <==> !usable || Blocked(old(log))
      ensures r.Ok? ==> (r.value.None? <==> Idle(old(log)))
      ensures r.Err? || r.value.None? ==> log == old(log)
      ensures r.Ok? && r.value.Some? ==> exists head, through ::
                && Enabled(old(log), Prepare(r.value.value, head, through))
                && log == After(old(log), Prepare(r.value.value, head, through))
                && exists target ::
                     && PlanInputs(old(log), head, target)
                     && Chunk(old(log), Reach(old(log), head), target, through)
    {
      if !usable { return Err(Denied); }
      var head := SummaryHead(log);
      var after := Reach(log, head);
      assert head.Some? ==> Linked(log, head.value);
      var target := ContextTail(log.items);
      PlanDetermined(log, head, target);
      var chosen := ChooseChunk(log, after, target);
      if chosen.Err? { return Err(chosen.error); }
      var through := chosen.value;
      if through == after { return Ok(None); }
      var existing := FindPlan(log, after, through);
      var id := if existing.Some? then existing.value else unused;
      PrepareKeeps(log, Prepare(id, head, through));
      if existing.None? {
        log := log.(summaries := log.summaries[id := Summary(after, through, head, Prepared, None)]);
      }
      return Ok(Some(id));
    }

    /** Committing the same result again is accepted; another result is not. `bytes`
        is the length of the text, `owned` says that the run may use the plan, `paid`
        that the permit is its own and has complete usage. */
    method CommitCompaction(id: Id, text: nat, bytes: nat, permit: nat, owned: bool, paid: bool) returns (r: Result<()>)
      requires Tiles(log)
      modifies this
      ensures Tiles(log)
      ensures bytes > TEXT_LIMIT || !owned ==> r.Err?
      ensures bytes <= TEXT_LIMIT && owned && Live(old(log), id) ==>
              (r.Ok? <==> old(log).summaries[id].result == Some((text, permit)))
      ensures Live(old(log), id) ==> log == old(log)
      ensures bytes <= TEXT_LIMIT && owned && !Live(old(log), id) ==>
              (r.Ok? <==> paid && Enabled(old(log), Commit(id, text, permit)))
      ensures !Live(old(log), id) ==> log == if r.Ok? then After(old(log), Commit(id, text, permit)) else old(log)
    {
      if bytes > TEXT_LIMIT { return Err(Exhausted); }
      if !owned || id !in log.summaries { return Err(Denied); }
      var row := log.summaries[id];
      if row.status.Committed? {
        if row.result != Some((text, permit)) { return Err(Conflict); }
        return Ok(());
      }
      var head := SummaryHead(log);
      HeadUnique(log, head, row.predecessor);
      if !row.status.Prepared? || head != row.predecessor { return Err(Conflict); }
      if !paid { return Err(Denied); }
      CommitKeeps(log, Commit(id, text, permit));
      log := log.(summaries := log.summaries[id := row.(status := Committed, result := Some((text, permit)))]);
      return Ok(());
    }
  }

  method FindPlan(l: Log, after: nat, through: nat) returns (r: Option<Id>)
    ensures r.Some? ==> Planned(l, r.value, after, through)
    ensures r.None? ==> forall s :: s in l.summaries ==> !Planned(l, s, after, through)
  {
    var all := set s | s in l.summaries && Planned(l, s, after, through);
    assert forall s :: s in l.summaries && Planned(l, s, after, through) ==> s in all;
    if all == {} { return None; }
    var s :| s in all;
    return Some(s);
  }

  lemma HeadUnique(l: Log, a: Option<Id>, b: Option<Id>)
    requires Tiles(l) && IsHead(l, a)
    ensures IsHead(l, b) <==> a == b
  {
    if IsHead(l, b) && a.Some? && b.Some? {
      assert Linked(l, a.value) && Linked(l, b.value) && Apart(l, a.value, b.value);
    }
  }
}
