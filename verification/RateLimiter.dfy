/** The rate limiter of OpenStack calls, as interleaved thread steps.

    An acquisition takes a permit if it is the thread's outermost one, then waits for its turn at the
    clock; leaving gives the permit back if it was the outermost.  Threads step in any order.
 */
module RateLimiter {
  import opened Options

  /** A thread: how deep it is nested, and whether it is past the semaphore but not yet granted. */
  datatype Thread = Thread(depth: nat, waiting: bool)

  /** `grants` lists the moments calls were let through, `clock` the monotonic time. */
  datatype State = State(permits: int, lastCall: real, clock: real, threads: seq<Thread>, grants: seq<real>)

  datatype Limits = Limits(max: nat, minInterval: real)

  /** The steps of a thread: enter (blocked while it is outermost and no permit is free), be granted
      (after sleeping what is left of the interval), leave; and time passing. */
  datatype Move = Enter(t: nat) | Grant(t: nat, slack: real) | Leave(t: nat) | Tick(span: real)

  predicate Blocked(s: State, t: nat)
    requires t < |s.threads|
  {
    s.threads[t].depth == 0 && s.permits == 0
  }

  /** The moment a grant happens: the clock, or the end of the interval if that is later, and whatever
      the sleep overshoots. */
  function GrantTime(l: Limits, s: State, slack: real): real {
    var due := s.lastCall + l.minInterval;
    (if s.clock >= due then s.clock else due) + slack
  }

  /** A move that is not possible changes nothing. */
  function Step(l: Limits, s: State, m: Move): State {
    match m
    case Enter(t) =>
      if t < |s.threads| && !s.threads[t].waiting && !Blocked(s, t) then
        var thread := s.threads[t];
        s.(permits := if thread.depth == 0 then s.permits - 1 else s.permits,
           threads := s.threads[t := Thread(thread.depth + 1, true)])
      else s
    case Grant(t, slack) =>
      if t < |s.threads| && s.threads[t].waiting && slack >= 0.0 then
        var at := GrantTime(l, s, slack);
        s.(lastCall := at, clock := at, grants := s.grants + [at],
           threads := s.threads[t := s.threads[t].(waiting := false)])
      else s
    case Leave(t) =>
      if t < |s.threads| && s.threads[t].depth > 0 then
        var thread := s.threads[t];
        s.(permits := if thread.depth == 1 then s.permits + 1 else s.permits,
           threads := s.threads[t := Thread(thread.depth - 1, false)])
      else s
    case Tick(span) => if span >= 0.0 then s.(clock := s.clock + span) else s
  }

  function Run(l: Limits, s: State, ms: seq<Move>): State {
    if ms == [] then s else Step(l, Run(l, s, ms[..|ms| - 1]), ms[|ms| - 1])
  }

  predicate Initial(l: Limits, s: State) {
    && s.permits == l.max && s.grants == [] && s.lastCall == 0.0
    && forall t :: 0 <= t < |s.threads| ==> s.threads[t] == Thread(0, false)
  }

  // ---- permits are conserved ----

  function Inside(ts: seq<Thread>): nat {
    if ts == [] then 0 else Inside(ts[..|ts| - 1]) + if ts[|ts| - 1].depth > 0 then 1 else 0
  }

  lemma {:induction false} InsideUpdate(ts: seq<Thread>, t: nat, thread: Thread)
    requires t < |ts|
    ensures Inside(ts[t := thread])
         == Inside(ts) - (if ts[t].depth > 0 then 1 else 0) + if thread.depth > 0 then 1 else 0
  {
    var n := |ts| - 1;
    if t < n {
      assert ts[t := thread][..n] == ts[..n][t := thread];
      InsideUpdate(ts[..n], t, thread);
    } else {
      assert ts[t := thread][..n] == ts[..n];
    }
  }

  lemma {:induction false} NobodyInside(ts: seq<Thread>)
    requires forall t :: 0 <= t < |ts| ==> ts[t].depth == 0
    ensures Inside(ts) == 0
  {
    if ts != [] {
      NobodyInside(ts[..|ts| - 1]);
    }
  }

  /** Grants are spaced by the minimum interval, and the last one is remembered. */
  predicate Spaced(l: Limits, s: State) {
    && (forall i :: 0 <= i < |s.grants| - 1 ==> s.grants[i + 1] >= s.grants[i] + l.minInterval)
    && (s.grants != [] ==> s.lastCall == s.grants[|s.grants| - 1])
  }

  predicate Inv(l: Limits, s: State) {
    && s.permits >= 0 && s.permits + Inside(s.threads) == l.max
    && Spaced(l, s)
    && (forall t :: 0 <= t < |s.threads| && s.threads[t].waiting ==> s.threads[t].depth > 0)
  }

  lemma GrantSpaced(l: Limits, s: State, t: nat, slack: real)
    requires Spaced(l, s)
    ensures Spaced(l, Step(l, s, Grant(t, slack)))
  {
  }

  lemma StepInv(l: Limits, s: State, m: Move)
    requires Inv(l, s)
    ensures Inv(l, Step(l, s, m))
  {
    match m {
      case Enter(t) =>
        if t < |s.threads| {
          InsideUpdate(s.threads, t, Thread(s.threads[t].depth + 1, true));
        }
      case Grant(t, slack) =>
        GrantSpaced(l, s, t, slack);
        hide Spaced, GrantTime;
        if t < |s.threads| {
          InsideUpdate(s.threads, t, s.threads[t].(waiting := false));
        }
      case Leave(t) =>
        if t < |s.threads| && s.threads[t].depth > 0 {
          InsideUpdate(s.threads, t, Thread(s.threads[t].depth - 1, false));
        }
      case Tick(span) =>
    }
  }

  /** Over every interleaving of threads with nested acquisitions: free permits and threads inside add
      up to the maximum, and calls are let through at least an interval apart. */
  lemma {:induction false} RunInv(l: Limits, s: State, ms: seq<Move>)
    requires Inv(l, s)
    ensures Inv(l, Run(l, s, ms))
  {
    if ms != [] {
      RunInv(l, s, ms[..|ms| - 1]);
      StepInv(l, Run(l, s, ms[..|ms| - 1]), ms[|ms| - 1]);
    }
  }

  lemma InitialInv(l: Limits, s: State)
    requires Initial(l, s)
    ensures Inv(l, s)
  {
    NobodyInside(s.threads);
  }

  /** A thread already inside never waits on the semaphore, however many permits are out: it can always
      enter again, and takes no permit; so nesting cannot deadlock. */
  lemma InsideNeverBlocks(l: Limits, s: State, t: nat)
    requires Inv(l, s) && t < |s.threads| && s.threads[t].depth > 0 && !s.threads[t].waiting
    ensures !Blocked(s, t)
    ensures Step(l, s, Enter(t)).permits == s.permits
    ensures Step(l, s, Enter(t)).threads[t].depth == s.threads[t].depth + 1
  {
  }

  /** Entering and leaving undo each other on the semaphore and the nesting. */
  lemma EnterLeave(l: Limits, s: State, t: nat, slack: real)
    requires Inv(l, s) && t < |s.threads| && !s.threads[t].waiting && !Blocked(s, t) && slack >= 0.0
    ensures var after := Run(l, s, [Enter(t), Grant(t, slack), Leave(t)]);
            after.permits == s.permits && after.threads == s.threads && |after.grants| == |s.grants| + 1
  {
    var ms := [Enter(t), Grant(t, slack), Leave(t)];
    assert ms[..2] == [Enter(t), Grant(t, slack)] && ms[..2][..1] == [Enter(t)] && ms[..2][..1][..0] == [];
    assert Run(l, s, ms[..2][..1]) == Step(l, s, Enter(t));
    assert Run(l, s, ms[..2]) == Step(l, Run(l, s, ms[..2][..1]), Grant(t, slack));
    assert Run(l, s, ms).threads == s.threads;
  }

  lemma {:induction false} SomeoneInside(ts: seq<Thread>) returns (u: nat)
    requires Inside(ts) > 0
    ensures u < |ts| && ts[u].depth > 0
  {
    var n := |ts| - 1;
    if ts[n].depth > 0 {
      u := n;
    } else {
      u := SomeoneInside(ts[..n]);
    }
  }

  /** There is no deadlock: while a thread is blocked another one is inside, which is never blocked
      itself, and once it has left all its acquisitions the blocked one can enter. */
  lemma NoDeadlock(l: Limits, s: State, t: nat) returns (u: nat)
    requires Inv(l, s) && l.max > 0 && t < |s.threads| && Blocked(s, t)
    ensures u < |s.threads| && u != t && !Blocked(s, u)
    ensures var after := Run(l, s, Leaving(u, s.threads[u].depth));
            t < |after.threads| && !Blocked(after, t)
  {
    u := SomeoneInside(s.threads);
    LeavesAll(l, s, u, s.threads[u].depth);
  }

  function Leaving(u: nat, n: nat): (ms: seq<Move>)
    ensures |ms| == n
  {
    if n == 0 then [] else Leaving(u, n - 1) + [Leave(u)]
  }

  lemma {:induction false} LeavesAll(l: Limits, s: State, u: nat, n: nat)
    requires u < |s.threads| && 0 < n <= s.threads[u].depth
    ensures var after := Run(l, s, Leaving(u, n));
            && |after.threads| == |s.threads| && after.threads[u].depth == s.threads[u].depth - n
            && (forall t :: 0 <= t < |s.threads| && t != u ==> after.threads[t] == s.threads[t])
            && after.permits == s.permits + if n == s.threads[u].depth then 1 else 0
  {
    assert Leaving(u, n)[..n - 1] == Leaving(u, n - 1);
    if n > 1 {
      LeavesAll(l, s, u, n - 1);
    } else {
      assert Leaving(u, 0) == [];
    }
  }

  /** Time never goes back, and a grant comes no earlier than the moment it was asked for. */
  lemma {:induction false} TimeAdvances(l: Limits, s: State, ms: seq<Move>)
    ensures Run(l, s, ms).clock >= s.clock
    ensures s.grants <= Run(l, s, ms).grants
    ensures forall i :: |s.grants| <= i < |Run(l, s, ms).grants| ==> Run(l, s, ms).grants[i] >= s.clock
  {
    if ms != [] {
      TimeAdvances(l, s, ms[..|ms| - 1]);
    }
  }

  /** A waiting thread is granted at the first moment that is neither past nor within the interval of
      the call before it, plus what the sleep overshoots; then it is that moment, which is recorded, and
      the thread no longer waits. */
  lemma GrantedInTurn(l: Limits, s: State, t: nat, slack: real)
    requires t < |s.threads| && s.threads[t].waiting && slack >= 0.0
    ensures var after := Step(l, s, Grant(t, slack));
            var at := after.clock - slack;
            && at >= s.clock && at >= s.lastCall + l.minInterval && (at == s.clock || at == s.lastCall + l.minInterval)
            && after.lastCall == after.clock && after.grants == s.grants + [after.clock]
            && after.threads == s.threads[t := Thread(s.threads[t].depth, false)] && after.permits == s.permits
  {
  }

  // ---- how many grants a window can hold ----

  lemma {:induction false} Apart(l: Limits, s: State, i: nat, j: nat)
    requires Spaced(l, s) && i <= j < |s.grants| && l.minInterval >= 0.0
    ensures s.grants[j] - s.grants[i] >= (j - i) as real * l.minInterval
  {
    if i < j {
      Apart(l, s, i, j - 1);
    }
  }

  /** How many grants fall into a window. */
  function GrantsIn(grants: seq<real>, from: real, to: real): nat {
    if grants == [] then 0
    else GrantsIn(grants[..|grants| - 1], from, to) + if from <= grants[|grants| - 1] <= to then 1 else 0
  }

  /** They lie between the first and the last of them. */
  lemma {:induction false} GrantsBetween(grants: seq<real>, from: real, to: real) returns (i: nat, j: nat)
    requires GrantsIn(grants, from, to) > 0
    ensures i <= j < |grants| && from <= grants[i] && grants[j] <= to
    ensures GrantsIn(grants, from, to) <= j - i + 1
  {
    var n := |grants| - 1;
    if from <= grants[n] <= to {
      j := n;
      if GrantsIn(grants[..n], from, to) == 0 {
        i := n;
      } else {
        var k;
        i, k := GrantsBetween(grants[..n], from, to);
      }
    } else {
      i, j := GrantsBetween(grants[..n], from, to);
    }
  }

  /** Any window of length w holds at most floor(w / interval) + 1 grants, in every run. */
  lemma WindowBound(l: Limits, s: State, ms: seq<Move>, from: real, w: real)
    requires Initial(l, s) && l.minInterval > 0.0 && w >= 0.0
    ensures GrantsIn(Run(l, s, ms).grants, from, from + w) <= (w / l.minInterval).Floor + 1
  {
    hide Step, Run;
    InitialInv(l, s);
    RunInv(l, s, ms);
    var after := Run(l, s, ms);
    if GrantsIn(after.grants, from, from + w) > 0 {
      var i, j := GrantsBetween(after.grants, from, from + w);
      Apart(l, after, i, j);
      var n, d := (j - i) as real, l.minInterval;
      assert n * d <= after.grants[j] - after.grants[i] <= w;
      Quotient((j - i) as real, l.minInterval, w);
    } else {
      Quotient(0.0, l.minInterval, w);
    }
  }

  lemma Quotient(n: real, d: real, w: real)
    requires d > 0.0 && n * d <= w
    ensures n <= w / d
  {
    assert w / d * d == w;
    if n > w / d {
      Larger(n, w / d, d);
    }
  }

  lemma Larger(a: real, b: real, d: real)
    requires a > b && d > 0.0
    ensures a * d > b * d
  {
    assert (a - b) * d > 0.0;
  }

  // ---- the limiter ----

  class Limiter {
    const limits: Limits
    var permits: int
    var lastCall: real
    var clock: real
    var threads: seq<Thread>
    var grants: seq<real>

    constructor (limits: Limits, count: nat)
      ensures this.limits == limits && Initial(limits, Now()) && |threads| == count && Inv(limits, Now())
    {
      this.limits, permits, lastCall, clock := limits, limits.max, 0.0, 0.0;
      threads, grants := seq(count, i => Thread(0, false)), [];
      new;
      InitialInv(limits, Now());
    }

    function Now(): State
      reads this
    {
      State(permits, lastCall, clock, threads, grants)
    }

    /** The first half of an acquisition: the semaphore, if this is the thread's outermost one. */
    method Enter(t: nat) returns (blocked: bool)
      requires Inv(limits, Now()) && t < |threads| && !threads[t].waiting
      modifies this
      ensures Now() == Step(limits, old(Now()), Move.Enter(t)) && Inv(limits, Now())
      ensures blocked <==> old(threads)[t].depth == 0 && old(permits) == 0
    {
      StepInv(limits, Now(), Move.Enter(t));
      var outermost := threads[t].depth == 0;
      if outermost {
        if permits == 0 {
          return true;
        }
        permits := permits - 1;
      }
      threads := threads[t := Thread(threads[t].depth + 1, true)];
      return false;
    }

    /** The second half: under the lock, sleep what is left of the interval, then take the time. */
    method Grant(t: nat, slack: real)
      requires Inv(limits, Now()) && t < |threads| && threads[t].waiting && slack >= 0.0
      modifies this
      ensures Now() == Step(limits, old(Now()), Move.Grant(t, slack)) && Inv(limits, Now())
    {
      StepInv(limits, Now(), Move.Grant(t, slack));
      var wait := limits.minInterval - (clock - lastCall);
      if wait > 0.0 {
        clock := clock + wait;
      }
      clock := clock + slack;
      lastCall := clock;
      grants := grants + [clock];
      threads := threads[t := threads[t].(waiting := false)];
    }

    /** Leaving, also on an exception. */
    method Leave(t: nat)
      requires Inv(limits, Now()) && t < |threads| && threads[t].depth > 0
      modifies this
      ensures Now() == Step(limits, old(Now()), Move.Leave(t)) && Inv(limits, Now())
    {
      StepInv(limits, Now(), Move.Leave(t));
      var outermost := threads[t].depth == 1;
      threads := threads[t := Thread(threads[t].depth - 1, false)];
      if outermost {
        permits := permits + 1;
      }
    }
  }
}
