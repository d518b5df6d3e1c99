/** Billing job runs and the reports they own.

    Each transaction is one atomic event.  Rows are in id order, which is also the order in which
    runs were started; a run and its report are inserted together.
 */
module JobRuns {
  import opened Options

  datatype RunStatus = Active | Error | Success

  datatype ReportStatus = Queued | Processing | Succeeded | Failed | Expired

  /** One run of a job for a billing period, beside the report it owns. */
  datatype Row = Row(job: int, period: int, run: RunStatus, report: ReportStatus)

  datatype Event = Execute(job: int, period: int, noContracts: bool) | Claim(i: nat) | Complete(i: nat)
                 | Break(i: nat) | Retry(i: nat) | Purge(i: nat)

  predicate Same(a: Row, job: int, period: int) {
    a.job == job && a.period == period
  }

  /** The last failed run of a job and period, or the table's length. */
  function LatestError(t: seq<Row>, job: int, period: int): (i: nat)
    ensures i <= |t|
    ensures i < |t| ==> Same(t[i], job, period) && t[i].run == Error
                        && forall k :: i < k < |t| && Same(t[k], job, period) ==> t[k].run != Error
    ensures i == |t| ==> forall k :: 0 <= k < |t| && Same(t[k], job, period) ==> t[k].run != Error
  {
    if t == [] then 0
    else
      var n := |t| - 1;
      if Same(t[n], job, period) && t[n].run == Error then n
      else if LatestError(t[..n], job, period) == n then |t|
      else LatestError(t[..n], job, period)
  }

  /** The active run the partial unique index would report, or the table's length. */
  function ActiveRun(t: seq<Row>, job: int, period: int): (i: nat)
    ensures i <= |t|
    ensures i < |t| ==> Same(t[i], job, period) && t[i].run == Active
    ensures i == |t| ==> forall k :: 0 <= k < |t| && Same(t[k], job, period) ==> t[k].run != Active
  {
    if t == [] then 0
    else if Same(t[0], job, period) && t[0].run == Active then 0
    else 1 + ActiveRun(t[1..], job, period)
  }

  function NewRow(job: int, period: int, noContracts: bool): Row {
    if noContracts then Row(job, period, Success, Succeeded) else Row(job, period, Active, Queued)
  }

  function Requeued(r: Row): Row {
    r.(run := Active, report := Queued)
  }

  /** Re-queue the latest failed run if its report can be retried; otherwise insert a run, unless one
      is active. */
  function Executed(t: seq<Row>, job: int, period: int, noContracts: bool): seq<Row> {
    var e := LatestError(t, job, period);
    if e < |t| && t[e].report == Failed then t[e := Requeued(t[e])]
    else if ActiveRun(t, job, period) < |t| then t
    else t + [NewRow(job, period, noContracts)]
  }

  /** The table after one event; an event whose guard fails changes nothing. */
  function Step(t: seq<Row>, e: Event): seq<Row> {
    match e
    case Execute(job, period, noContracts) => Executed(t, job, period, noContracts)
    case Claim(i) =>
      if i < |t| && t[i].report == Queued then t[i := t[i].(report := Processing)] else t
    case Complete(i) =>
      if i < |t| && t[i].report == Processing then t[i := t[i].(run := Success, report := Succeeded)] else t
    case Break(i) =>
      if i < |t| && t[i].report == Processing
      then t[i := t[i].(report := Failed, run := if t[i].run == Active then Error else t[i].run)] else t
    case Retry(i) =>
      if i < |t| && t[i].report == Failed then t[i := Requeued(t[i])] else t
    case Purge(i) =>
      if i < |t| && Finished(t[i]) then t[i := t[i].(report := Expired)] else t
  }

  predicate Finished(r: Row) {
    r.report == Succeeded || r.report == Failed
  }

  function Purges(due: seq<nat>): (es: seq<Event>)
    ensures |es| == |due| && forall n :: 0 <= n < |due| ==> es[n] == Purge(due[n])
  {
    seq(|due|, n requires 0 <= n < |due| => Purge(due[n]))
  }

  function Run(t: seq<Row>, es: seq<Event>): seq<Row> {
    if es == [] then t else Step(Run(t, es[..|es| - 1]), es[|es| - 1])
  }

  /** A run and its report agree. */
  predicate Coupled(r: Row) {
    && (r.run == Active <==> r.report == Queued || r.report == Processing)
    && (r.report == Failed ==> r.run == Error)
    && (r.report == Succeeded ==> r.run == Success)
  }

  /** A run that is active, or can become active again. */
  predicate Open(r: Row) {
    r.run == Active || (r.run == Error && r.report == Failed)
  }

  /** Every row is coupled, and an open row is the last of its job and period. */
  predicate Inv(t: seq<Row>) {
    && (forall i :: 0 <= i < |t| ==> Coupled(t[i]))
    && (forall i, j :: 0 <= i < j < |t| && Open(t[i]) ==> !Same(t[j], t[i].job, t[i].period))
  }

  /** The partial unique index on active runs. */
  predicate UniqueActive(t: seq<Row>) {
    forall i, j :: 0 <= i < j < |t| && t[i].run == Active && t[j].run == Active ==>
      !Same(t[j], t[i].job, t[i].period)
  }

  lemma ExecuteInv(t: seq<Row>, job: int, period: int, noContracts: bool)
    requires Inv(t)
    ensures Inv(Executed(t, job, period, noContracts))
  {
    hide LatestError, ActiveRun;
    var e := LatestError(t, job, period);
    if e < |t| && t[e].report == Failed {
      assert Open(t[e]);
    } else if ActiveRun(t, job, period) == |t| {
      forall i | 0 <= i < |t| && Open(t[i]) ensures !Same(t[i], job, period) {
        assert t[i].run == Active || (t[i].run == Error && t[i].report == Failed);
      }
    }
  }

  lemma StepInv(t: seq<Row>, e: Event)
    requires Inv(t)
    ensures Inv(Step(t, e))
  {
    if e.Execute? {
      ExecuteInv(t, e.job, e.period, e.noContracts);
    }
  }

  lemma {:induction false} RunInv(t: seq<Row>, es: seq<Event>)
    requires Inv(t)
    ensures Inv(Run(t, es))
  {
    if es != [] {
      RunInv(t, es[..|es| - 1]);
      StepInv(Run(t, es[..|es| - 1]), es[|es| - 1]);
    }
  }

  /** In every run from the empty table: a run is active exactly when its report is queued or being
      processed, and at most one run of a job and period is active or can become so. */
  lemma CoupledAlways(es: seq<Event>)
    ensures var t := Run([], es);
            && (forall i :: 0 <= i < |t| ==> (t[i].run == Active <==> t[i].report == Queued || t[i].report == Processing))
            && (forall i, j :: 0 <= i < j < |t| && Open(t[i]) && Open(t[j]) ==>
                  !Same(t[j], t[i].job, t[i].period))
  {
    RunInv([], es);
  }

  /** Re-queuing never meets the unique index: no other run of the job and period is active, whether
      the schedule or a user asked for it. */
  lemma RequeueNeverCollides(es: seq<Event>, i: nat)
    requires i < |Run([], es)| && Run([], es)[i].report == Failed
    ensures var t := Run([], es);
            && (forall k :: 0 <= k < |t| && k != i && Same(t[k], t[i].job, t[i].period) ==> t[k].run != Active)
            && UniqueActive(t[i := Requeued(t[i])])
  {
    RunInv([], es);
    var t := Run([], es);
    assert Coupled(t[i]) && Open(t[i]);
    StepInv(t, Retry(i));
    assert forall k :: 0 <= k < |t| && t[k].run == Active ==> Open(t[k]);
  }

  /** Executing a job whose last failure can be retried always retries it, and never starts a second
      run beside it. */
  lemma FailureIsRetried(es: seq<Event>, i: nat, noContracts: bool)
    requires i < |Run([], es)| && Run([], es)[i].report == Failed
    ensures var t := Run([], es);
            Executed(t, t[i].job, t[i].period, noContracts) == t[i := Requeued(t[i])]
  {
    RunInv([], es);
    var t := Run([], es);
    assert Coupled(t[i]) && Open(t[i]);
    var e := LatestError(t, t[i].job, t[i].period);
    assert e == i;
  }

  /** How far a row moves in one step.  A report is queued, claimed, and succeeds or fails together with
      its run; a failed one is queued again together with its run, whoever asks; a finished one expires,
      and its run stays how it ended.  Nothing else ever moves. */
  lemma RowMoves(t: seq<Row>, e: Event, i: nat)
    requires Inv(t) && i < |t|
    ensures i < |Step(t, e)|
    ensures var a, b := t[i], Step(t, e)[i];
            && (a.report == Queued && e == Claim(i) ==> (b.run, b.report) == (Active, Processing))
            && (a.report == Processing && e == Complete(i) ==> (b.run, b.report) == (Success, Succeeded))
            && (a.report == Processing && e == Break(i) ==> (b.run, b.report) == (Error, ReportStatus.Failed))
            && (a.report == Failed && (e == Retry(i) || (e.Execute? && Same(a, e.job, e.period))) ==>
                  (b.run, b.report) == (Active, Queued))
            && ((a.report == Succeeded || a.report == Failed) && e == Purge(i) ==> b == a.(report := Expired))
    ensures var a, b := t[i], Step(t, e)[i];
            b != a ==>
              || (a.report == Queued && e == Claim(i)) || (a.report == Processing && (e == Complete(i) || e == Break(i)))
              || (a.report == Failed && (e == Retry(i) || (e.Execute? && Same(a, e.job, e.period))))
              || ((a.report == Succeeded || a.report == Failed) && e == Purge(i))
  {
    hide LatestError, ActiveRun;
    assert Coupled(t[i]);
    if t[i].report == Failed && e.Execute? && Same(t[i], e.job, e.period) {
      assert Open(t[i]);
    }
  }

  /** When a job is executed a row is added exactly when no run of the job and period is active or can
      be retried; it starts queued, or is done at once when there is nothing to bill. */
  lemma ExecuteAdds(t: seq<Row>, job: int, period: int, noContracts: bool)
    requires Inv(t)
    ensures var after := Executed(t, job, period, noContracts);
            var open := exists i :: 0 <= i < |t| && Same(t[i], job, period) && Open(t[i]);
            && (open ==> |after| == |t|)
            && (!open ==> after == t + [if noContracts then Row(job, period, Success, Succeeded)
                                        else Row(job, period, Active, Queued)])
  {
    hide LatestError, ActiveRun;
    var e := LatestError(t, job, period);
    if e < |t| && t[e].report == Failed {
      assert Open(t[e]);
    } else if i :| 0 <= i < |t| && Same(t[i], job, period) && Open(t[i]) {
      assert Coupled(t[i]);
      assert t[i].run == Active || (t[i].run == Error && i <= e < |t|);
    }
  }

  /** What a table settled: its rows stay, for the same job and period, and no later event reopens a
      run that succeeded or whose report expired. */
  predicate Settled(before: seq<Row>, after: seq<Row>) {
    |before| <= |after| && forall i :: 0 <= i < |before| ==>
      && Same(after[i], before[i].job, before[i].period)
      && (before[i].run == Success ==> after[i].run == Success)
      && (before[i].report == Expired ==> after[i] == before[i])
  }

  lemma {:induction false} SettledForever(t: seq<Row>, es: seq<Event>)
    requires Inv(t)
    ensures Settled(t, Run(t, es))
  {
    if es != [] {
      hide Executed;
      RunInv(t, es[..|es| - 1]);
      SettledForever(t, es[..|es| - 1]);
      StepSettles(Run(t, es[..|es| - 1]), es[|es| - 1]);
    }
  }

  lemma StepSettles(t: seq<Row>, e: Event)
    requires Inv(t)
    ensures Settled(t, Step(t, e))
  {
    assert forall i :: 0 <= i < |t| ==> Coupled(t[i]);
  }

  lemma RunNothing(t: seq<Row>)
    ensures Run(t, []) == t && Purges([]) == []
  {
  }

  lemma PurgeMore(t: seq<Row>, due: seq<nat>, n: nat)
    requires n < |due|
    ensures var before := Run(t, Purges(due[..n]));
            Run(t, Purges(due[..n + 1]))
            == if due[n] < |before| && Finished(before[due[n]]) then before[due[n] := before[due[n]].(report := Expired)]
               else before
  {
    hide Executed;
    assert Purges(due[..n + 1])[..n] == Purges(due[..n]);
  }

  class JobTable {
    var rows: seq<Row>

    constructor ()
      ensures rows == []
    {
      rows := [];
    }

    /** Execute a job for a period: the run it returns is active, or done because there was nothing to
        bill; and the table is what the event says. */
    method ExecuteJob(job: int, period: int, noContracts: bool) returns (i: nat)
      requires Inv(rows)
      modifies this
      ensures rows == Step(old(rows), Execute(job, period, noContracts)) && Inv(rows)
      ensures i < |rows| && Same(rows[i], job, period)
      ensures rows[i].run == Active || (noContracts && i == |old(rows)| && rows[i].run == Success)
    {
      ExecuteInv(rows, job, period, noContracts);
      var e := LatestError(rows, job, period);
      if e < |rows| && rows[e].report == Failed {
        RequeueFailed(e);
        return e;
      }
      var active := ActiveRun(rows, job, period);
      if active < |rows| {
        return active;
      }
      rows := rows + [NewRow(job, period, noContracts)];
      return |rows| - 1;
    }

    /** Requeue a failed report and reactivate its run. */
    method RequeueFailed(i: nat)
      requires i < |rows| && rows[i].report == Failed
      modifies this
      ensures rows == Step(old(rows), Retry(i))
    {
      rows := rows[i := rows[i].(report := Queued)];
      rows := rows[i := rows[i].(run := Active)];
    }

    /** Claim a queued report. */
    method ClaimReport(i: nat) returns (claimed: bool)
      requires Inv(rows) && i < |rows|
      modifies this
      ensures rows == Step(old(rows), Claim(i)) && Inv(rows)
      ensures claimed <==> old(rows)[i].report == Queued
      ensures claimed ==> rows[i].report == Processing && rows[i].run == Active
    {
      StepInv(rows, Claim(i));
      claimed := rows[i].report == Queued;
      if claimed {
        rows := rows[i := rows[i].(report := Processing)];
      }
    }

    /** Record how processing a claimed report ended. */
    method FinishReport(i: nat, succeeded: bool)
      requires Inv(rows) && i < |rows| && rows[i].report == Processing
      modifies this
      ensures rows == Step(old(rows), if succeeded then Complete(i) else Break(i)) && Inv(rows)
      ensures rows[i] == old(rows)[i].(run := if succeeded then Success else Error,
                                       report := if succeeded then Succeeded else Failed)
    {
      StepInv(rows, if succeeded then Complete(i) else Break(i));
      if succeeded {
        rows := rows[i := rows[i].(run := Success, report := Succeeded)];
      } else {
        rows := rows[i := rows[i].(run := Error, report := Failed)];
      }
    }

    /** Expire the reports among the given ones that are finished; their runs keep how they ended. */
    method PurgeExpired(due: seq<nat>)
      requires Inv(rows)
      modifies this
      ensures rows == Run(old(rows), Purges(due)) && Inv(rows)
      ensures |rows| == |old(rows)| && forall k :: 0 <= k < |rows| ==>
                rows[k] == if k in due && Finished(old(rows)[k]) then old(rows)[k].(report := Expired) else old(rows)[k]
    {
      ghost var start := rows;
      RunInv(rows, Purges(due));
      RunNothing(rows);
      for n := 0 to |due|
        invariant rows == Run(start, Purges(due[..n])) && |rows| == |start|
        invariant forall k :: 0 <= k < |rows| ==>
                    rows[k] == if k in due[..n] && Finished(start[k]) then start[k].(report := Expired) else start[k]
      {
        hide Run, Step, Inv, Executed;
        var i := due[n];
        assert due[..n + 1] == due[..n] + [i];
        PurgeMore(start, due, n);
        if i < |rows| && (rows[i].report == Succeeded || rows[i].report == Failed) {
          rows := rows[i := rows[i].(report := Expired)];
        }
      }
      assert due[..|due|] == due;
    }
  }
}
