/** The restart circuit breaker and the supervisor that asks it: fast restarts within a budget per sliding
    window, spaced probes once the budget is spent. */
module Supervisor {
  import opened Arith

  datatype Limits = Limits(maxRestarts: nat, window: real, probeBase: real, probeMax: real) {
    predicate Ok() { maxRestarts >= 1 && window > 0.0 && 0.0 < probeBase <= probeMax }
  }

  function Pow2(n: nat): (p: nat)
    ensures p >= 1
  {
    if n == 0 then 1 else 2 * Pow2(n - 1)
  }

  /** The attempts still inside the window at `now`. */
  function Recent(attempts: seq<real>, window: real, now: real): seq<real> {
    if attempts == [] then []
    else
      var last := attempts[|attempts| - 1];
      var before := Recent(attempts[..|attempts| - 1], window, now);
      if last > now - window then before + [last] else before
  }

  function Latest(attempts: seq<real>): (m: real)
    requires attempts != []
    ensures forall i :: 0 <= i < |attempts| ==> attempts[i] <= m
  {
    if |attempts| == 1 then attempts[0]
    else
      assert attempts == attempts[..|attempts| - 1] + [attempts[|attempts| - 1]];
      MaxOf(Latest(attempts[..|attempts| - 1]), attempts[|attempts| - 1])
  }

  function ProbeSpacing(limits: Limits, beyond: nat): real {
    var doubled := limits.probeBase * Pow2(beyond) as real;
    if doubled <= limits.probeMax then doubled else limits.probeMax
  }

  predicate AllowsRestart(limits: Limits, attempts: seq<real>, now: real) {
    |Recent(attempts, limits.window, now)| < limits.maxRestarts
  }

  predicate AllowsProbe(limits: Limits, attempts: seq<real>, now: real) {
    var recent := Recent(attempts, limits.window, now);
    && |recent| >= limits.maxRestarts
    && (recent != [] ==> now - Latest(recent) >= ProbeSpacing(limits, |recent| - limits.maxRestarts))
  }

  // ---------------------------------------------------------------- histories

  predicate Ordered(attempts: seq<real>) {
    forall i, j :: 0 <= i < j < |attempts| ==> attempts[i] <= attempts[j]
  }

  /** Every attempt of the history was admitted by what went before it. */
  predicate AllAdmitted(limits: Limits, attempts: seq<real>) {
    forall k :: 0 <= k < |attempts| ==>
      AllowsRestart(limits, attempts[..k], attempts[k]) || AllowsProbe(limits, attempts[..k], attempts[k])
  }

  lemma SpacingAtLeastBase(limits: Limits, beyond: nat)
    requires limits.Ok()
    ensures ProbeSpacing(limits, beyond) >= limits.probeBase
  {
    var p := Pow2(beyond) as real;
    assert p >= 1.0;
    assert limits.probeBase * p >= limits.probeBase * 1.0;
  }

  /** The gap before a probe: the base interval right after the budget is spent, doubled with every further attempt in the
      window, up to the ceiling. */
  lemma SpacingDoubles(limits: Limits, beyond: nat)
    requires limits.Ok()
    ensures ProbeSpacing(limits, 0) == limits.probeBase
    ensures var gap, next := ProbeSpacing(limits, beyond), ProbeSpacing(limits, beyond + 1);
            gap <= limits.probeMax && next == if 2.0 * gap <= limits.probeMax then 2.0 * gap else limits.probeMax
  {
    var p := Pow2(beyond) as real;
    assert Pow2(beyond + 1) as real == 2.0 * p;
    assert limits.probeBase * (2.0 * p) == 2.0 * (limits.probeBase * p);
  }

  /** The attempts inside the window are those after its beginning. */
  lemma {:induction false} RecentIsSuffix(attempts: seq<real>, window: real, now: real) returns (k: nat)
    requires Ordered(attempts)
    ensures k <= |attempts| && Recent(attempts, window, now) == attempts[k..]
    ensures forall i :: 0 <= i < |attempts| ==> (i < k <==> attempts[i] <= now - window)
  {
    k := 0;
    if attempts != [] {
      var init, last := attempts[..|attempts| - 1], attempts[|attempts| - 1];
      k := RecentIsSuffix(init, window, now);
      assert forall i :: 0 <= i < |init| ==> init[i] == attempts[i];
      if last > now - window {
        assert attempts[k..] == init[k..] + [last];
      } else {
        assert forall i :: 0 <= i < |init| ==> init[i] <= last;
        assert k == |init|;
        k := |attempts|;
        assert attempts[k..] == [] && init[|init|..] == [];
      }
    }
  }

  /** WHO MAY RESTART. With n attempts in the window, a restart is allowed if and only if n is below the budget, and a probe
      if and only if it is not and the gap for n attempts has passed since the last one. */
  lemma AllowsByFields(limits: Limits, attempts: seq<real>, now: real) returns (k: nat)
    requires limits.Ok() && Ordered(attempts)
    ensures k <= |attempts| && forall i :: 0 <= i < |attempts| ==> (i < k <==> attempts[i] <= now - limits.window)
    ensures AllowsRestart(limits, attempts, now) <==> |attempts| - k < limits.maxRestarts
    ensures AllowsProbe(limits, attempts, now) <==>
              |attempts| - k >= limits.maxRestarts
              && attempts[|attempts| - 1] + ProbeSpacing(limits, |attempts| - k - limits.maxRestarts) <= now
  {
    k := RecentIsSuffix(attempts, limits.window, now);
    var recent := Recent(attempts, limits.window, now);
    if recent != [] {
      LatestIsLast(recent);
    }
  }

  lemma {:induction false} LatestIsLast(attempts: seq<real>)
    requires attempts != [] && Ordered(attempts)
    ensures Latest(attempts) == attempts[|attempts| - 1]
  {
    if |attempts| > 1 {
      LatestIsLast(attempts[..|attempts| - 1]);
    }
  }

  /** Attempts from i on are all still in the window if the i-th is. */
  lemma {:induction false} RecentFrom(attempts: seq<real>, window: real, now: real, i: nat)
    requires Ordered(attempts) && i < |attempts| && attempts[i] > now - window
    ensures |Recent(attempts, window, now)| >= |attempts| - i
    ensures var recent := Recent(attempts, window, now);
            recent != [] && recent[|recent| - 1] == attempts[|attempts| - 1]
  {
    var init := attempts[..|attempts| - 1];
    assert attempts[|attempts| - 1] >= attempts[i];
    if i < |init| {
      assert init[i] == attempts[i];
      RecentFrom(init, window, now, i);
    }
  }

  /** Beyond the budget each attempt of a window follows the one before by at least the base probe interval. */
  lemma BeyondBudget(limits: Limits, attempts: seq<real>, i: nat, m: nat)
    requires limits.Ok() && Ordered(attempts) && AllAdmitted(limits, attempts)
    requires i + limits.maxRestarts <= m < |attempts| && attempts[m] - attempts[i] < limits.window
    ensures attempts[m] - attempts[m - 1] >= limits.probeBase
  {
    var before, now := attempts[..m], attempts[m];
    assert before[i] == attempts[i];
    RecentFrom(before, limits.window, now, i);
    var recent := Recent(before, limits.window, now);
    assert AllowsProbe(limits, before, now);
    SpacingAtLeastBase(limits, |recent| - limits.maxRestarts);
    assert Latest(recent) >= recent[|recent| - 1];
  }

  lemma {:induction false} ExcessSpan(limits: Limits, attempts: seq<real>, i: nat, j: nat)
    requires limits.Ok() && Ordered(attempts) && AllAdmitted(limits, attempts)
    requires i + limits.maxRestarts - 1 <= j < |attempts| && attempts[j] - attempts[i] < limits.window
    ensures attempts[j] - attempts[i + limits.maxRestarts - 1]
            >= Intervals(j + 1 - i - limits.maxRestarts, limits.probeBase)
  {
    if j >= i + limits.maxRestarts {
      assert attempts[j - 1] <= attempts[j];
      ExcessSpan(limits, attempts, i, j - 1);
      BeyondBudget(limits, attempts, i, j);
    }
  }

  lemma FewerThan(n: nat, base: real, window: real)
    requires base > 0.0 && Intervals(n, base) < window
    ensures n as real < window / base
  {
    IntervalsMultiply(n, base);
    DivideBound(n as real, base, window);
  }

  lemma DivideBound(c: real, base: real, window: real)
    requires base > 0.0 && c * base < window
    ensures c < window / base
  {
    var q := window / base;
    assert q * base == window;
    assert c >= q ==> c * base >= q * base;
  }

  /** In any run of admitted attempts, those within one window exceed the budget by fewer than
      window / probeBase. */
  lemma WindowBound(limits: Limits, attempts: seq<real>, i: nat, j: nat)
    requires limits.Ok() && Ordered(attempts) && AllAdmitted(limits, attempts)
    requires i <= j < |attempts| && attempts[j] - attempts[i] < limits.window
    requires j + 1 - i > limits.maxRestarts
    ensures (j + 1 - i - limits.maxRestarts) as real < limits.window / limits.probeBase
  {
    var excess := j + 1 - i - limits.maxRestarts;
    assert Intervals(excess, limits.probeBase) < limits.window by {
      ExcessSpan(limits, attempts, i, j);
      assert attempts[i] <= attempts[i + limits.maxRestarts - 1];
    }
    FewerThan(excess, limits.probeBase, limits.window);
  }

  /** A window without attempts closes the breaker. */
  lemma {:induction false} QuietWindowCloses(limits: Limits, attempts: seq<real>, now: real)
    requires limits.Ok() && forall i :: 0 <= i < |attempts| ==> attempts[i] <= now - limits.window
    ensures Recent(attempts, limits.window, now) == [] && AllowsRestart(limits, attempts, now)
  {
    if attempts != [] {
      QuietWindowCloses(limits, attempts[..|attempts| - 1], now);
    }
  }

  // ---------------------------------------------------------------- the objects

  /** Pruning now and pruning later leaves what pruning later would. */
  lemma {:induction false} PruneAgain(attempts: seq<real>, window: real, now: real, later: real)
    requires now <= later
    ensures Recent(Recent(attempts, window, now), window, later) == Recent(attempts, window, later)
  {
    if attempts != [] {
      var init, last := attempts[..|attempts| - 1], attempts[|attempts| - 1];
      PruneAgain(init, window, now, later);
      if last > now - window {
        var kept := Recent(init, window, now) + [last];
        assert kept[..|kept| - 1] == Recent(init, window, now) && kept[|kept| - 1] == last;
        assert Recent(attempts, window, now) == kept;
      }
    }
  }

  lemma RecentRecorded(attempts: seq<real>, window: real, now: real)
    requires window > 0.0
    ensures Recent(attempts + [now], window, now) == Recent(attempts, window, now) + [now]
  {
    assert (attempts + [now])[..|attempts + [now]| - 1] == attempts;
  }

  class RestartCircuitBreaker {
    const limits: Limits
    var timestamps: seq<real>
    /** Every attempt ever recorded, and the latest clock reading the breaker was given. */
    ghost var history: seq<real>
    ghost var clock: real

    constructor (limits: Limits, ghost now: real)
      requires limits.Ok()
      ensures Valid() && this.limits == limits && history == [] && clock == now
    {
      this.limits, timestamps, history, clock := limits, [], [], now;
    }

    ghost predicate Valid()
      reads this
    {
      && limits.Ok()
      && timestamps == Recent(history, limits.window, clock)
      && Ordered(history) && (forall i :: 0 <= i < |history| ==> history[i] <= clock)
    }

    method Prune(now: real)
      requires Valid() && clock <= now
      modifies this
      ensures Valid() && clock == now && history == old(history)
    {
      PruneAgain(history, limits.window, clock, now);
      var kept := [];
      for k := 0 to |timestamps|
        invariant kept == Recent(timestamps[..k], limits.window, now)
      {
        assert timestamps[..k + 1][..k] == timestamps[..k];
        if timestamps[k] > now - limits.window {
          kept := kept + [timestamps[k]];
        }
      }
      assert timestamps[..|timestamps|] == timestamps;
      timestamps := kept;
      clock := now;
    }

    method AllowRestart(now: real) returns (allowed: bool)
      requires Valid() && clock <= now
      modifies this
      ensures Valid() && clock == now && history == old(history)
      ensures allowed <==> AllowsRestart(limits, history, now)
    {
      Prune(now);
      allowed := |timestamps| < limits.maxRestarts;
    }

    method AllowProbe(now: real) returns (allowed: bool)
      requires Valid() && clock <= now
      modifies this
      ensures Valid() && clock == now && history == old(history)
      ensures allowed <==> AllowsProbe(limits, history, now)
    {
      Prune(now);
      if |timestamps| < limits.maxRestarts {
        return false;
      }
      var spacing := ProbeSpacing(limits, |timestamps| - limits.maxRestarts);
      allowed := now - Latest(timestamps) >= spacing;
    }

    method IsOpen(now: real) returns (open: bool)
      requires Valid() && clock <= now
      modifies this
      ensures Valid() && clock == now && history == old(history)
      ensures open <==> !AllowsRestart(limits, history, now)
    {
      Prune(now);
      open := |timestamps| >= limits.maxRestarts;
    }

    method RecordRestart(now: real)
      requires Valid() && clock <= now
      modifies this
      ensures Valid() && clock == now && history == old(history) + [now]
    {
      Prune(now);
      RecentRecorded(history, limits.window, now);
      timestamps := timestamps + [now];
      history := history + [now];
    }
  }

  lemma AdmitsOne(limits: Limits, attempts: seq<real>, now: real)
    requires AllAdmitted(limits, attempts) && (AllowsRestart(limits, attempts, now) || AllowsProbe(limits, attempts, now))
    ensures AllAdmitted(limits, attempts + [now])
  {
    var more := attempts + [now];
    forall k | 0 <= k < |more|
      ensures AllowsRestart(limits, more[..k], more[k]) || AllowsProbe(limits, more[..k], more[k])
    {
      assert more[..k] == attempts[..k];
      assert attempts[..|attempts|] == attempts;
    }
  }

  // ---------------------------------------------------------------- one alert per open episode

  /** One look at the breaker: whether it was to take the alert, and whether the breaker was open. */
  datatype Glance = Glance(take: bool, open: bool)

  /** An alert was asked for and the breaker has been open at every look since. */
  predicate Latched(glances: seq<Glance>) {
    exists i :: 0 <= i < |glances| && glances[i].take && forall m :: i <= m < |glances| ==> glances[m].open
  }

  /** The k-th look takes the alert: it is the first to ask since the breaker was last seen closed. */
  predicate Alerts(glances: seq<Glance>, k: nat)
    requires k < |glances|
  {
    glances[k].take && glances[k].open && !Latched(glances[..k])
  }

  lemma LatchedNext(glances: seq<Glance>, g: Glance)
    ensures Latched(glances + [g]) <==> g.open && (g.take || Latched(glances))
  {
    var more := glances + [g];
    if Latched(more) {
      var i :| 0 <= i < |more| && more[i].take && forall m :: i <= m < |more| ==> more[m].open;
      assert more[|glances|].open;
      if i < |glances| {
        assert glances[i].take && forall m :: i <= m < |glances| ==> glances[m] == more[m];
      }
    }
    if g.open && g.take {
      assert more[|glances|].take;
    } else if g.open && Latched(glances) {
      var i :| 0 <= i < |glances| && glances[i].take && forall m :: i <= m < |glances| ==> glances[m].open;
      assert more[i].take;
    }
  }

  /** Between two alerts the breaker was seen closed. */
  lemma OncePerEpisode(glances: seq<Glance>, i: nat, j: nat)
    requires i < j < |glances| && Alerts(glances, i) && Alerts(glances, j)
    ensures exists m :: i < m < j && !glances[m].open
  {
    if forall m :: i < m < j ==> glances[m].open {
      LatchedSince(glances, i, j);
    }
  }

  lemma LatchedSince(glances: seq<Glance>, i: nat, j: nat)
    requires i < j < |glances| && glances[i].take && forall m :: i <= m < j ==> glances[m].open
    ensures Latched(glances[..j])
  {
    assert glances[..j][i].take;
  }

  /** Whoever asks while the breaker is open was preceded by an alert since which it was never seen closed, or takes it. */
  lemma {:induction false} EpisodeAlerts(glances: seq<Glance>, k: nat) returns (i: nat)
    requires k < |glances| && glances[k].take && glances[k].open
    ensures i <= k && Alerts(glances, i) && forall m :: i <= m <= k ==> glances[m].open
  {
    i := k;
    if Latched(glances[..k]) {
      var j :| 0 <= j < k && glances[..k][j].take && forall m :: j <= m < k ==> glances[..k][m].open;
      forall m | j <= m <= k
        ensures glances[m].open
      {
        assert m < k ==> glances[..k][m].open;
      }
      i := EpisodeAlerts(glances, j);
    }
  }

  lemma {:induction false} RecentShrinks(attempts: seq<real>, window: real, t: real, now: real)
    requires t <= now
    ensures |Recent(attempts, window, now)| <= |Recent(attempts, window, t)|
  {
    if attempts != [] {
      RecentShrinks(attempts[..|attempts| - 1], window, t, now);
    }
  }

  /** A breaker that is open was open all the time since its last attempt was recorded, so an episode without a look that
      saw it closed is one without an interruption. */
  lemma OpenSince(limits: Limits, attempts: seq<real>, t: real, now: real)
    requires t <= now && !AllowsRestart(limits, attempts, now)
    ensures !AllowsRestart(limits, attempts, t)
  {
    RecentShrinks(attempts, limits.window, t, now);
  }

  datatype Status = Started | Running | Restarted | CircuitOpen

  class ProcessSupervisor {
    const breaker: RestartCircuitBreaker
    var started: bool
    var openAlerted: bool
    ghost var glances: seq<Glance>

    constructor (breaker: RestartCircuitBreaker)
      requires breaker.Valid() && breaker.history == []
      ensures Valid() && this.breaker == breaker && !started && glances == []
    {
      this.breaker, started, openAlerted, glances := breaker, false, false, [];
    }

    /** Every restart this supervisor made was admitted when it was made, and the latch says whether the alert of the
        present episode was taken. */
    ghost predicate Valid()
      reads this, breaker
    {
      breaker.Valid() && AllAdmitted(breaker.limits, breaker.history) && (openAlerted <==> Latched(glances))
    }

    /** One look at the child: `alive` is what polling it says. */
    method EnsureRunning(now: real, alive: bool) returns (status: Status)
      requires Valid() && breaker.clock <= now
      modifies this, breaker
      ensures Valid() && breaker.clock == now && (old(started) ==> started)
      ensures status == if !old(started) then Started else if alive then Running
                        else if AllowsRestart(breaker.limits, old(breaker.history), now)
                                || AllowsProbe(breaker.limits, old(breaker.history), now) then Restarted
                        else CircuitOpen
      ensures breaker.history == old(breaker.history) + if status.Restarted? then [now] else []
      ensures glances == old(glances) + [Glance(false, !AllowsRestart(breaker.limits, old(breaker.history), now))]
    {
      var open := breaker.IsOpen(now);
      LatchedNext(glances, Glance(false, open));
      glances := glances + [Glance(false, open)];
      if !open {
        openAlerted := false;
      }
      if started && alive {
        return Running;
      }
      if !started {
        started := true;
        return Started;
      }
      var allowed := breaker.AllowRestart(now);
      if !allowed {
        allowed := breaker.AllowProbe(now);
      }
      if !allowed {
        return CircuitOpen;
      }
      AdmitsOne(breaker.limits, breaker.history, now);
      breaker.RecordRestart(now);
      status := Restarted;
    }

    /** Takes the alert of an open episode, once. */
    method TakeCircuitAlert(now: real) returns (alert: bool)
      requires Valid() && breaker.clock <= now
      modifies this, breaker
      ensures Valid() && breaker.clock == now && breaker.history == old(breaker.history) && started == old(started)
      ensures glances == old(glances) + [Glance(true, !AllowsRestart(breaker.limits, breaker.history, now))]
      ensures alert <==> Alerts(glances, |glances| - 1)
    {
      var open := breaker.IsOpen(now);
      ghost var before := glances;
      LatchedNext(glances, Glance(true, open));
      glances := glances + [Glance(true, open)];
      assert glances[..|glances| - 1] == before;
      if !open {
        openAlerted := false;
        return false;
      }
      if openAlerted {
        return false;
      }
      openAlerted := true;
      alert := true;
    }
  }
}
