/** The checkpointed query windows of a durable billing report.

    A report cuts its period into seven-day windows per metric and project, and bisects a window
    whenever its query times out or is too large.  The table of rows is the only durable state: a
    crash between two commits leaves it exactly as the last commit wrote it.  Rows are listed in
    id order, and a split appends its two halves.  Timestamps are seconds.
 */
module Shards {
  import opened UsageDict

  const HOUR: int := 3600
  const INITIAL_SHARD: int := 7 * 24 * 3600

  /** The identity of a usage record inside one metric. */
  datatype Meter = Meter(project: string, meta: map<string, string>)

  datatype Status = Pending | Success | Split

  datatype Shard = Shard(metric: string, project: string, lo: int, hi: int, status: Status,
                         usage: seq<Entry<Meter>>)

  /** What the frozen snapshot says to query. */
  datatype Scope = Scope(metrics: seq<string>, projects: seq<string>, start: int, end: int)

  function Hours(s: Shard): int {
    (s.hi - s.lo) / HOUR
  }

  predicate SameMeter(a: Shard, b: Shard) {
    a.metric == b.metric && a.project == b.project
  }

  // ---- figures summed over a table ----

  /** A figure to add up over the rows: how many live windows hold an instant; how many queries the
      pending windows can still cost; and the two numbers of the progress bar, the windows that
      succeeded and the windows there are, not counting those that were split. */
  datatype Gauge = CoverAt(metric: string, project: string, instant: int) | QueryBound
                 | ProgressCurrent | ProgressTotal

  function Weigh(s: Shard, g: Gauge): int {
    match g
    case CoverAt(m, p, x) =>
      if s.status != Split && s.metric == m && s.project == p && s.lo <= x < s.hi then 1 else 0
    case QueryBound =>
      if s.status == Pending then 2 * Hours(s) - 1 else 0
    case ProgressCurrent => if s.status == Success then 1 else 0
    case ProgressTotal => if s.status != Split then 1 else 0
  }

  function Total(t: seq<Shard>, g: Gauge): int {
    if t == [] then 0 else Weigh(t[0], g) + Total(t[1..], g)
  }

  lemma {:induction false} TotalConcat(a: seq<Shard>, b: seq<Shard>, g: Gauge)
    ensures Total(a + b, g) == Total(a, g) + Total(b, g)
  {
    if a == [] {
      assert a + b == b;
    } else {
      assert (a + b)[1..] == a[1..] + b;
      TotalConcat(a[1..], b, g);
    }
  }

  lemma TotalAround(t: seq<Shard>, i: nat, g: Gauge)
    requires i < |t|
    ensures Total(t, g) == Total(t[..i], g) + Weigh(t[i], g) + Total(t[i + 1..], g)
  {
    assert t == t[..i] + t[i..];
    TotalConcat(t[..i], t[i..], g);
  }

  lemma TotalUpdate(t: seq<Shard>, i: nat, s: Shard, g: Gauge)
    requires i < |t|
    ensures Total(t[i := s], g) == Total(t, g) - Weigh(t[i], g) + Weigh(s, g)
  {
    TotalAround(t, i, g);
    TotalAround(t[i := s], i, g);
    assert t[i := s][..i] == t[..i] && t[i := s][i + 1..] == t[i + 1..];
  }

  // ---- invariants of a reachable table ----

  ghost predicate Unique(names: seq<string>) {
    forall i, j :: 0 <= i < j < |names| ==> names[i] != names[j]
  }

  /** A billing period is a whole month, so it starts and ends on an hour. */
  ghost predicate ValidScope(sc: Scope) {
    && Unique(sc.metrics) && Unique(sc.projects)
    && sc.start % HOUR == 0 && sc.end % HOUR == 0
  }

  ghost predicate Asked(sc: Scope, m: string, p: string, x: int) {
    m in sc.metrics && p in sc.projects && sc.start <= x < sc.end
  }

  /** Per metric and project, the pending and successful windows tile the period: every instant
      inside lies in exactly one of them, every instant outside in none. */
  ghost predicate Tiled(sc: Scope, t: seq<Shard>) {
    forall m, p, x :: Total(t, CoverAt(m, p, x)) == if Asked(sc, m, p, x) then 1 else 0
  }

  /** Every window is non-empty and keeps to hour edges. */
  predicate Shaped(t: seq<Shard>) {
    forall i :: 0 <= i < |t| ==> t[i].lo < t[i].hi && t[i].lo % HOUR == 0 && t[i].hi % HOUR == 0
  }

  predicate Apart(a: Shard, b: Shard) {
    a.hi <= b.lo || b.hi <= a.lo
  }

  /** `b` lies inside `a` and is at most half of it, rounded up to an hour. */
  predicate Inside(b: Shard, a: Shard) {
    && a.lo <= b.lo && b.hi <= a.hi
    && Hours(b) < Hours(a) && 2 * Hours(b) <= Hours(a) + 1
  }

  /** Of two rows of one metric and project, the later is apart from the earlier or lies inside
      it, and a row with another inside it has been split. */
  predicate Laminar(t: seq<Shard>) {
    forall i, j :: 0 <= i < j < |t| && SameMeter(t[i], t[j]) ==>
      Apart(t[i], t[j]) || (t[i].status == Split && Inside(t[j], t[i]))
  }

  /** A report has no shards yet, or shards that tile its period. */
  ghost predicate Inv(sc: Scope, t: seq<Shard>) {
    t == [] || (Shaped(t) && Laminar(t) && Tiled(sc, t))
  }

  // ---- creating the table ----

  function WindowRows(m: string, p: string, lo: int, hi: int): seq<Shard>
    decreases hi - lo
  {
    if lo >= hi then []
    else
      var next := if lo + INITIAL_SHARD < hi then lo + INITIAL_SHARD else hi;
      [Shard(m, p, lo, next, Pending, [])] + WindowRows(m, p, next, hi)
  }

  function ProjectRows(m: string, ps: seq<string>, lo: int, hi: int): seq<Shard> {
    if ps == [] then [] else WindowRows(m, ps[0], lo, hi) + ProjectRows(m, ps[1..], lo, hi)
  }

  function PlanRows(ms: seq<string>, ps: seq<string>, lo: int, hi: int): seq<Shard> {
    if ms == [] then [] else ProjectRows(ms[0], ps, lo, hi) + PlanRows(ms[1..], ps, lo, hi)
  }

  function Planned(sc: Scope): seq<Shard> {
    PlanRows(sc.metrics, sc.projects, sc.start, sc.end)
  }

  predicate AllPending(t: seq<Shard>) {
    forall i :: 0 <= i < |t| ==> t[i].status == Pending
  }

  lemma {:induction false} WindowRowsTile(m: string, p: string, lo: int, hi: int)
    requires lo % HOUR == 0 && hi % HOUR == 0
    ensures AllPending(WindowRows(m, p, lo, hi)) && Shaped(WindowRows(m, p, lo, hi))
    ensures forall m', p', x :: Total(WindowRows(m, p, lo, hi), CoverAt(m', p', x))
                             == if m' == m && p' == p && lo <= x < hi then 1 else 0
    decreases hi - lo
  {
    if lo < hi {
      WindowRowsTile(m, p, if lo + INITIAL_SHARD < hi then lo + INITIAL_SHARD else hi, hi);
    }
  }

  lemma {:induction false} ProjectRowsTile(m: string, ps: seq<string>, lo: int, hi: int)
    requires Unique(ps) && lo % HOUR == 0 && hi % HOUR == 0
    ensures AllPending(ProjectRows(m, ps, lo, hi)) && Shaped(ProjectRows(m, ps, lo, hi))
    ensures forall m', p', x :: Total(ProjectRows(m, ps, lo, hi), CoverAt(m', p', x))
                             == if m' == m && p' in ps && lo <= x < hi then 1 else 0
  {
    if ps != [] {
      WindowRowsTile(m, ps[0], lo, hi);
      ProjectRowsTile(m, ps[1..], lo, hi);
      assert ps[0] !in ps[1..];
      forall g { TotalConcat(WindowRows(m, ps[0], lo, hi), ProjectRows(m, ps[1..], lo, hi), g); }
    }
  }

  lemma {:induction false} PlanRowsTile(ms: seq<string>, ps: seq<string>, lo: int, hi: int)
    requires Unique(ms) && Unique(ps) && lo % HOUR == 0 && hi % HOUR == 0
    ensures AllPending(PlanRows(ms, ps, lo, hi)) && Shaped(PlanRows(ms, ps, lo, hi))
    ensures forall m', p', x :: Total(PlanRows(ms, ps, lo, hi), CoverAt(m', p', x))
                             == if m' in ms && p' in ps && lo <= x < hi then 1 else 0
  {
    if ms != [] {
      ProjectRowsTile(ms[0], ps, lo, hi);
      PlanRowsTile(ms[1..], ps, lo, hi);
      assert ms[0] !in ms[1..];
      forall g { TotalConcat(ProjectRows(ms[0], ps, lo, hi), PlanRows(ms[1..], ps, lo, hi), g); }
    }
  }

  lemma {:induction false} CoverNonNegative(t: seq<Shard>, m: string, p: string, x: int)
    ensures Total(t, CoverAt(m, p, x)) >= 0
  {
    if t != [] {
      CoverNonNegative(t[1..], m, p, x);
    }
  }

  /** Two live rows over one instant would cover it twice. */
  lemma OverlapCountsTwice(t: seq<Shard>, i: nat, j: nat, x: int)
    requires i < j < |t| && SameMeter(t[i], t[j])
    requires t[i].status != Split && t[j].status != Split
    requires t[i].lo <= x < t[i].hi && t[j].lo <= x < t[j].hi
    ensures Total(t, CoverAt(t[i].metric, t[i].project, x)) >= 2
  {
    var g := CoverAt(t[i].metric, t[i].project, x);
    TotalAround(t, j, g);
    TotalAround(t[..j], i, g);
    CoverNonNegative(t[..j][..i], g.metric, g.project, x);
    CoverNonNegative(t[..j][i + 1..], g.metric, g.project, x);
    CoverNonNegative(t[j + 1..], g.metric, g.project, x);
  }

  /** A freshly planned table tiles the period with non-overlapping windows. */
  lemma {:induction false} WindowEdges(m: string, p: string, start: int, lo: int, hi: int)
    requires start <= lo && (lo - start) % 604800 == 0
    ensures forall i :: 0 <= i < |WindowRows(m, p, lo, hi)| ==> WeeklyFrom(start, hi, WindowRows(m, p, lo, hi)[i])
    decreases hi - lo
  {
    if lo + 604800 < hi {
      WindowEdges(m, p, start, lo + 604800, hi);
    } else if lo < hi {
      assert WindowRows(m, p, hi, hi) == [];
    }
  }

  /** A window that begins a whole number of weeks into the period and lasts a week, or up to its end. */
  predicate WeeklyFrom(start: int, end: int, s: Shard) {
    && start <= s.lo < end && (s.lo - start) % 604800 == 0
    && s.hi == if s.lo + 604800 <= end then s.lo + 604800 else end
  }

  lemma {:induction false} ProjectEdges(m: string, ps: seq<string>, lo: int, hi: int)
    ensures forall i :: 0 <= i < |ProjectRows(m, ps, lo, hi)| ==> WeeklyFrom(lo, hi, ProjectRows(m, ps, lo, hi)[i])
  {
    if ps != [] {
      hide WeeklyFrom, WindowRows;
      ProjectEdges(m, ps[1..], lo, hi);
      WindowEdges(m, ps[0], lo, lo, hi);
    }
  }

  /** The planned windows are the weeks of the period: each begins a whole number of seven-day spans
      into it and lasts seven days, but for the last one, which ends with the period. */
  lemma {:induction false} PlannedWeekly(ms: seq<string>, ps: seq<string>, lo: int, hi: int)
    ensures forall i :: 0 <= i < |PlanRows(ms, ps, lo, hi)| ==> WeeklyFrom(lo, hi, PlanRows(ms, ps, lo, hi)[i])
  {
    if ms != [] {
      hide WeeklyFrom, ProjectRows;
      PlannedWeekly(ms[1..], ps, lo, hi);
      ProjectEdges(ms[0], ps, lo, hi);
    }
  }

  lemma PlannedInv(sc: Scope)
    requires ValidScope(sc)
    ensures Inv(sc, Planned(sc)) && AllPending(Planned(sc)) && Tiled(sc, Planned(sc))
  {
    var t := Planned(sc);
    PlanRowsTile(sc.metrics, sc.projects, sc.start, sc.end);
    forall i, j | 0 <= i < j < |t| && SameMeter(t[i], t[j]) ensures Apart(t[i], t[j]) {
      if !Apart(t[i], t[j]) {
        OverlapCountsTwice(t, i, j, if t[i].lo < t[j].lo then t[j].lo else t[i].lo);
      }
    }
  }

  // ---- one checkpoint of the shard loop ----

  /** What one query, and the commit after it, came to.  `Answered` carries the checkpointed usage;
      `Failed` is any other error; `Interrupted` is a crash or a failed commit. */
  datatype Outcome = TooLarge | Answered(usage: seq<Entry<Meter>>) | Failed | Interrupted

  /** The pending row with the lowest id, or the table's length. */
  function FirstPending(t: seq<Shard>): (i: nat)
    ensures i <= |t|
    ensures forall k :: 0 <= k < i ==> t[k].status != Pending
    ensures i < |t| ==> t[i].status == Pending
  {
    if t == [] || t[0].status == Pending then 0 else 1 + FirstPending(t[1..])
  }

  function Midpoint(s: Shard): int {
    s.lo + HOUR * (if Hours(s) / 2 < 1 then 1 else Hours(s) / 2)
  }

  function SplitAt(t: seq<Shard>, i: nat): seq<Shard>
    requires i < |t|
  {
    var s := t[i];
    t[i := s.(status := Split)] + [Shard(s.metric, s.project, s.lo, Midpoint(s), Pending, []),
                                   Shard(s.metric, s.project, Midpoint(s), s.hi, Pending, [])]
  }

  /** The table after one pass of the loop body; an error or a crash commits nothing. */
  function Step(t: seq<Shard>, o: Outcome): seq<Shard> {
    var i := FirstPending(t);
    if i == |t| then t
    else match o
      case TooLarge => if Hours(t[i]) <= 1 then t else SplitAt(t, i)
      case Answered(usage) => t[i := t[i].(status := Success, usage := usage)]
      case Failed => t
      case Interrupted => t
  }

  function Replay(t: seq<Shard>, os: seq<Outcome>): seq<Shard> {
    if os == [] then t else Step(Replay(t, os[..|os| - 1]), os[|os| - 1])
  }

  /** The first `n` answers of a source of answers. */
  function Consulted(answer: nat -> Outcome, n: nat): (os: seq<Outcome>)
    ensures |os| == n
  {
    if n == 0 then [] else Consulted(answer, n - 1) + [answer(n - 1)]
  }

  lemma SplitGauges(t: seq<Shard>, i: nat, g: Gauge)
    requires i < |t| && Shaped(t) && t[i].status == Pending && Hours(t[i]) > 1
    ensures t[i].lo < Midpoint(t[i]) < t[i].hi
    ensures Total(SplitAt(t, i), g)
         == Total(t, g) - (if g == QueryBound then 1 else 0) + if g == ProgressTotal then 1 else 0
  {
    var s := t[i];
    var t' := SplitAt(t, i);
    var halves := t'[|t|..];
    assert t' == t[i := s.(status := Split)] + halves;
    TotalConcat(t[i := s.(status := Split)], halves, g);
    TotalUpdate(t, i, s.(status := Split), g);
    assert halves == [halves[0], halves[1]];
    TotalPair(halves[0], halves[1], g);
    HalfHours(s);
  }

  lemma TotalPair(a: Shard, b: Shard, g: Gauge)
    ensures Total([a, b], g) == Weigh(a, g) + Weigh(b, g)
  {
    assert [a, b] == [a] + [b] && [a][1..] == [] && [b][1..] == [];
    TotalConcat([a], [b], g);
  }

  /** The midpoint falls on an hour strictly inside, and neither half exceeds half, rounded up. */
  lemma HalfHours(s: Shard)
    requires s.lo % HOUR == 0 && s.hi % HOUR == 0 && Hours(s) > 1
    ensures s.lo < Midpoint(s) < s.hi && Midpoint(s) % HOUR == 0
    ensures (Midpoint(s) - s.lo) / HOUR == Hours(s) / 2
    ensures (s.hi - Midpoint(s)) / HOUR == Hours(s) - Hours(s) / 2
  {
    assert Midpoint(s) == s.lo + HOUR * (Hours(s) / 2);
  }

  /** A split leaves the family laminar: its halves are apart from each other, inside the row they
      replace, and stand to every other row as that row did. */
  lemma SplitLaminar(t: seq<Shard>, i: nat)
    requires i < |t| && Shaped(t) && Laminar(t) && t[i].status == Pending && Hours(t[i]) > 1
    ensures Shaped(SplitAt(t, i)) && Laminar(SplitAt(t, i))
  {
    var t' := SplitAt(t, i);
    HalfHours(t[i]);
    forall k, h | 0 <= k < |t| && |t| <= h < |t| + 2 && SameMeter(t'[k], t'[h])
      ensures Apart(t'[k], t'[h]) || (t'[k].status == Split && Inside(t'[h], t'[k]))
    {
      if k < i {
        assert Apart(t[k], t[i]) || (t[k].status == Split && Inside(t[i], t[k]));
        HalfStands(t[k], t[i], t'[h]);
      } else if k > i {
        assert Apart(t[i], t[k]);
      }
    }
    assert Laminar(t');
  }

  /** A half stands to an earlier row as the whole did. */
  lemma HalfStands(a: Shard, s: Shard, half: Shard)
    requires Apart(a, s) || Inside(s, a)
    requires s.lo <= half.lo && half.hi <= s.hi && Hours(half) <= Hours(s)
    ensures Apart(a, s) ==> Apart(a, half)
    ensures Inside(s, a) ==> Inside(half, a)
  {
  }

  lemma SplitInv(sc: Scope, t: seq<Shard>, i: nat)
    requires i < |t| && Inv(sc, t) && t[i].status == Pending && Hours(t[i]) > 1
    ensures Inv(sc, SplitAt(t, i))
  {
    SplitLaminar(t, i);
    forall m, p, x
      ensures Total(SplitAt(t, i), CoverAt(m, p, x)) == Total(t, CoverAt(m, p, x))
    {
      SplitGauges(t, i, CoverAt(m, p, x));
    }
  }

  lemma SucceedInv(sc: Scope, t: seq<Shard>, i: nat, usage: seq<Entry<Meter>>)
    requires i < |t| && Inv(sc, t) && t[i].status == Pending
    ensures Inv(sc, t[i := t[i].(status := Success, usage := usage)])
  {
    var s := t[i].(status := Success, usage := usage);
    forall m, p, x
      ensures Total(t[i := s], CoverAt(m, p, x)) == Total(t, CoverAt(m, p, x))
    {
      TotalUpdate(t, i, s, CoverAt(m, p, x));
    }
    assert Laminar(t[i := s]);
  }

  /** Every checkpoint keeps the table tiled and laminar. */
  lemma StepInv(sc: Scope, t: seq<Shard>, o: Outcome)
    requires Inv(sc, t)
    ensures Inv(sc, Step(t, o)) && (Tiled(sc, t) ==> Tiled(sc, Step(t, o)))
  {
    var i := FirstPending(t);
    if i < |t| {
      match o {
        case TooLarge =>
          if Hours(t[i]) > 1 {
            SplitInv(sc, t, i);
          }
        case Answered(usage) => SucceedInv(sc, t, i, usage);
        case Failed =>
        case Interrupted =>
      }
    }
  }

  /** In every run from a planned table, whatever the queries answer and wherever a crash falls. */
  lemma {:induction false} ReplayInv(sc: Scope, t: seq<Shard>, os: seq<Outcome>)
    requires Inv(sc, t)
    ensures Inv(sc, Replay(t, os))
    ensures Tiled(sc, t) ==> Tiled(sc, Replay(t, os))
  {
    if os != [] {
      ReplayInv(sc, t, os[..|os| - 1]);
      StepInv(sc, Replay(t, os[..|os| - 1]), os[|os| - 1]);
    }
  }

  /** No two rows of a reachable table share metric, project and window, so inserting a row never
      meets the unique-window constraint. */
  lemma WindowsDistinct(sc: Scope, t: seq<Shard>, i: nat, j: nat)
    requires Inv(sc, t) && i < j < |t| && SameMeter(t[i], t[j])
    ensures t[i].lo != t[j].lo || t[i].hi != t[j].hi
  {
    assert Apart(t[i], t[j]) || Inside(t[j], t[i]);
  }

  // ---- the bound on queries and on split depth ----

  /** A split lowers the bound by exactly one, a success by the window's whole weight, which is at
      least one; nothing else moves it. */
  lemma StepBound(sc: Scope, t: seq<Shard>, o: Outcome)
    requires Inv(sc, t) && FirstPending(t) < |t|
    ensures var s := t[FirstPending(t)];
            && 1 <= 2 * Hours(s) - 1
            && Total(Step(t, o), QueryBound) == Total(t, QueryBound) -
               (match o
                case TooLarge => if Hours(s) <= 1 then 0 else 1
                case Answered(_) => 2 * Hours(s) - 1
                case _ => 0)
  {
    var i := FirstPending(t);
    OneHour(t[i]);
    match o {
      case TooLarge =>
        if Hours(t[i]) > 1 {
          SplitGauges(t, i, QueryBound);
        }
      case Answered(usage) =>
        TotalUpdate(t, i, t[i].(status := Success, usage := usage), QueryBound);
      case Failed =>
      case Interrupted =>
    }
  }

  /** Progress never goes backwards, and the bar is full exactly when nothing is pending. */
  lemma StepProgress(t: seq<Shard>, o: Outcome)
    requires Shaped(t) && FirstPending(t) < |t|
    ensures var s := t[FirstPending(t)];
            && Total(Step(t, o), ProgressCurrent) == Total(t, ProgressCurrent) + (if o.Answered? then 1 else 0)
            && Total(Step(t, o), ProgressTotal)
               == Total(t, ProgressTotal) + if o.TooLarge? && Hours(s) > 1 then 1 else 0
  {
    var i := FirstPending(t);
    match o {
      case TooLarge =>
        if Hours(t[i]) > 1 {
          SplitGauges(t, i, ProgressCurrent);
          SplitGauges(t, i, ProgressTotal);
        }
      case Answered(usage) =>
        TotalUpdate(t, i, t[i].(status := Success, usage := usage), ProgressCurrent);
        TotalUpdate(t, i, t[i].(status := Success, usage := usage), ProgressTotal);
      case Failed =>
      case Interrupted =>
    }
  }

  lemma {:induction false} ProgressFull(t: seq<Shard>)
    ensures 0 <= Total(t, ProgressCurrent) <= Total(t, ProgressTotal)
    ensures Total(t, ProgressCurrent) == Total(t, ProgressTotal) <==> FirstPending(t) == |t|
  {
    if t != [] {
      ProgressFull(t[1..]);
    }
  }

  lemma OneHour(s: Shard)
    requires s.lo < s.hi && s.lo % HOUR == 0 && s.hi % HOUR == 0
    ensures Hours(s) >= 1
  {
  }

  lemma {:induction false} BoundNonNegative(t: seq<Shard>)
    requires Shaped(t)
    ensures Total(t, QueryBound) >= 0
    ensures Total(t, QueryBound) == 0 ==> FirstPending(t) == |t|
  {
    if t != [] {
      assert forall i :: 0 <= i < |t[1..]| ==> t[1..][i] == t[i + 1];
      BoundNonNegative(t[1..]);
      OneHour(t[0]);
    }
  }

  /** How many halvings, each rounding up, bring `h` hours down to one. */
  function CeilLog2(h: int): nat {
    if h <= 1 then 0 else 1 + CeilLog2((h + 1) / 2)
  }

  function Pow2(n: nat): nat {
    if n == 0 then 1 else 2 * Pow2(n - 1)
  }

  lemma {:induction false} CeilLog2Meaning(h: int)
    requires h >= 1
    ensures Pow2(CeilLog2(h)) >= h
    ensures h > 1 ==> Pow2(CeilLog2(h) - 1) < h
  {
    if h > 1 {
      CeilLog2Meaning((h + 1) / 2);
    }
  }

  lemma {:induction false} CeilLog2Monotone(a: int, b: int)
    requires a <= b
    ensures CeilLog2(a) <= CeilLog2(b)
  {
    if a > 1 {
      CeilLog2Monotone((a + 1) / 2, (b + 1) / 2);
    }
  }

  /** A lineage of rows, each a later row overlapping the one before it. */
  predicate Lineage(t: seq<Shard>, c: seq<nat>) {
    && c != []
    && (forall k :: 0 <= k < |c| ==> c[k] < |t|)
    && (forall k :: 0 <= k < |c| - 1 ==>
          c[k] < c[k + 1] && SameMeter(t[c[k]], t[c[k + 1]]) && !Apart(t[c[k]], t[c[k + 1]]))
  }

  /** Splits nest at most logarithmically deep below the window a lineage starts from. */
  lemma {:induction false} SplitDepth(t: seq<Shard>, c: seq<nat>)
    requires Shaped(t) && Laminar(t) && Lineage(t, c)
    ensures |c| - 1 <= CeilLog2(Hours(t[c[0]]))
  {
    if |c| > 1 {
      assert Inside(t[c[1]], t[c[0]]);
      assert Lineage(t, c[1..]) by {
        assert forall k :: 0 <= k < |c[1..]| ==> c[1..][k] == c[k + 1];
      }
      SplitDepth(t, c[1..]);
      CeilLog2Monotone(Hours(t[c[1]]), (Hours(t[c[0]]) + 1) / 2);
    }
  }

  // ---- the loops themselves ----

  /** How a call of the shard loop ended. */
  datatype Stop = Finished | Raised

  class ReportShards {
    const scope: Scope
    var rows: seq<Shard>

    constructor (scope: Scope)
      ensures this.scope == scope && rows == []
    {
      this.scope := scope;
      rows := [];
    }

    /** The windows generator: consecutive windows of at most seven days. */
    static method Windows(start: int, end: int) returns (windows: seq<(int, int)>)
      ensures forall m, p :: WindowRows(m, p, start, end) == AsRows(m, p, windows)
    {
      windows := [];
      var current := start;
      while current < end
        invariant forall m, p :: WindowRows(m, p, start, end)
                              == AsRows(m, p, windows) + WindowRows(m, p, current, end)
        decreases end - current
      {
        var following := if current + INITIAL_SHARD < end then current + INITIAL_SHARD else end;
        forall m, p
          ensures AsRows(m, p, windows + [(current, following)])
               == AsRows(m, p, windows) + [Shard(m, p, current, following, Pending, [])]
        {
        }
        windows := windows + [(current, following)];
        current := following;
      }
    }

    static function AsRows(m: string, p: string, windows: seq<(int, int)>): seq<Shard> {
      seq(|windows|, i requires 0 <= i < |windows| =>
        Shard(m, p, windows[i].0, windows[i].1, Pending, []))
    }

    /** First visit of a report: one pending row per metric, project and window. */
    method CreateShards()
      requires ValidScope(scope) && rows == []
      modifies this
      ensures rows == Planned(scope)
      ensures Inv(scope, rows) && AllPending(rows)
    {
      for a := 0 to |scope.metrics|
        invariant rows + PlanRows(scope.metrics[a..], scope.projects, scope.start, scope.end)
               == Planned(scope)
      {
        PlanRowsHead(scope, a, rows);
        CreateMetricShards(scope.metrics[a]);
      }
      assert rows + [] == rows;
      PlannedInv(scope);
    }

    static lemma PlanRowsHead(sc: Scope, a: nat, before: seq<Shard>)
      requires a < |sc.metrics|
      ensures before + PlanRows(sc.metrics[a..], sc.projects, sc.start, sc.end)
           == before + ProjectRows(sc.metrics[a], sc.projects, sc.start, sc.end)
              + PlanRows(sc.metrics[a + 1..], sc.projects, sc.start, sc.end)
    {
      assert sc.metrics[a..][1..] == sc.metrics[a + 1..];
    }

    method CreateMetricShards(metric: string)
      modifies this
      ensures rows == old(rows) + ProjectRows(metric, scope.projects, scope.start, scope.end)
    {
      for b := 0 to |scope.projects|
        invariant rows + ProjectRows(metric, scope.projects[b..], scope.start, scope.end)
               == old(rows) + ProjectRows(metric, scope.projects, scope.start, scope.end)
      {
        assert scope.projects[b..][1..] == scope.projects[b + 1..];
        var windows := Windows(scope.start, scope.end);
        rows := rows + AsRows(metric, scope.projects[b], windows);
      }
      assert rows + [] == rows;
    }

    /** Bisect a window, or refuse when it is a single hour. */
    method SplitShard(i: nat) returns (ok: bool)
      requires i < |rows|
      modifies this
      ensures ok == (Hours(old(rows)[i]) > 1)
      ensures rows == if ok then SplitAt(old(rows), i) else old(rows)
    {
      var shard := rows[i];
      var hours := (shard.hi - shard.lo) / HOUR;
      if hours <= 1 {
        return false;
      }
      var midpoint := shard.lo + HOUR * (if hours / 2 < 1 then 1 else hours / 2);
      rows := rows[i := shard.(status := Split)];
      rows := rows + [Shard(shard.metric, shard.project, shard.lo, midpoint, Pending, [])];
      rows := rows + [Shard(shard.metric, shard.project, midpoint, shard.hi, Pending, [])];
      return true;
    }

    /** One pass of the loop body: query the lowest pending window and commit the outcome. */
    method Checkpoint(o: Outcome) returns (raised: bool)
      requires FirstPending(rows) < |rows|
      modifies this
      ensures rows == Step(old(rows), o)
      ensures raised ==> rows == old(rows) && !o.Answered?
      ensures !raised ==> o.Answered? || (o.TooLarge? && Hours(old(rows)[FirstPending(old(rows))]) > 1)
    {
      var i := FirstPending(rows);
      match o {
        case TooLarge =>
          var ok := SplitShard(i);
          raised := !ok;
        case Answered(usage) =>
          rows := rows[i := rows[i].(status := Success, usage := usage)];
          raised := false;
        case Failed =>
          raised := true;
        case Interrupted =>
          raised := true;
      }
    }

    static lemma ReplayNothing(t: seq<Shard>)
      ensures Replay(t, []) == t
    {
    }

    static lemma ReplayMore(t: seq<Shard>, os: seq<Outcome>, o: Outcome)
      ensures Replay(t, os + [o]) == Step(Replay(t, os), o)
    {
      assert (os + [o])[..|os|] == os;
    }

    /** One pass keeps the invariant, and never raises the bound; unless it raises, it lowers it. */
    static lemma LoopStep(sc: Scope, t: seq<Shard>, o: Outcome)
      requires Inv(sc, t) && FirstPending(t) < |t|
      ensures Inv(sc, Step(t, o))
      ensures 0 <= Total(Step(t, o), QueryBound) <= Total(t, QueryBound)
      ensures o.Answered? || (o.TooLarge? && Hours(t[FirstPending(t)]) > 1) ==>
                Total(Step(t, o), QueryBound) < Total(t, QueryBound)
    {
      StepInv(sc, t, o);
      StepBound(sc, t, o);
      BoundNonNegative(t);
      BoundNonNegative(Step(t, o));
    }

    /** The shard loop.  `answer(n)` is what the n-th query of this call comes to.  The loop ends
        with nothing pending unless a query raised, and a call that resumes any reachable table
        spends at most the table's query bound, plus the query that raised. */
    method ProcessPending(answer: nat -> Outcome) returns (stop: Stop, queries: nat)
      requires Inv(scope, rows)
      modifies this
      ensures Inv(scope, rows)
      ensures rows == Replay(old(rows), Consulted(answer, queries))
      ensures stop == Finished <==> FirstPending(rows) == |rows|
      ensures stop == Raised ==> queries > 0 && !answer(queries - 1).Answered?
      ensures queries + Total(rows, QueryBound)
           <= Total(old(rows), QueryBound) + if stop == Raised then 1 else 0
    {
      hide Inv, Step, Total, Replay;
      queries := 0;
      stop := Finished;
      assert Replay(rows, []) == rows by { ReplayNothing(rows); }
      while FirstPending(rows) < |rows|
        invariant Inv(scope, rows)
        invariant rows == Replay(old(rows), Consulted(answer, queries))
        invariant queries + Total(rows, QueryBound) <= Total(old(rows), QueryBound)
        decreases Total(rows, QueryBound)
      {
        LoopStep(scope, rows, answer(queries));
        ReplayMore(old(rows), Consulted(answer, queries), answer(queries));
        var raised := Checkpoint(answer(queries));
        queries := queries + 1;
        if raised {
          return Raised, queries;
        }
      }
    }
  }
}
