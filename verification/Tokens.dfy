/** The host-wide token store: one record file and one issue-guard file shared by any number of
    processes, each of which reads, decides, issues and publishes under an exclusive file lock. A run is
    any interleaving of the processes' steps; a process may be killed between any two of them. */
module Tokens {
  import opened Contracts

  datatype IssuedToken = IssuedToken(token: string, expiresIn: Option<real>)

  datatype TokenRecord = TokenRecord(token: string, issuedAt: real, expiresAt: Option<real>, generation: nat)

  /** Per-process settings; the minimum issue interval belongs to the vendor and is shared. */
  datatype Settings = Settings(margin: real, maxAge: real, lockTimeout: real, waits: bool)

  datatype Op = Get | Replace(rejected: string)

  /** Where a process stands inside a call; a process that is in no call has no phase. */
  datatype Phase =
    | Waiting(op: Op)
    | Entered(op: Op)
    | Refused(op: Op, cached: Option<TokenRecord>, at: real)
    | Cleared(op: Op, cached: Option<TokenRecord>, at: real)
    | Issued(op: Op, cached: Option<TokenRecord>, at: real, issued: IssuedToken)

  /** A publish: who did it in which call, the record it read under the lock and when, and what it wrote. */
  datatype Publication = Publication(process: nat, op: Op, seen: Option<TokenRecord>, at: real, record: TokenRecord)

  /** The two files, the lock, the processes' phases, and what happened so far: every publish, and for every
      issue attempt the stamp in the guard file at that moment. */
  datatype Host = Host(
    record: Option<TokenRecord>, guard: Option<real>, holder: Option<nat>, phases: map<nat, Phase>,
    published: seq<Publication>, attempts: seq<Option<real>>)

  datatype Step =
    | Request(p: nat, op: Op, now: real)
    | Lock(p: nat)
    | Look(p: nat, now: real)
    | Guard(p: nat, now: real, later: real)
    | Issue(p: nat, outcome: Option<IssuedToken>)
    | Publish(p: nat, now: real)
    | Quit(p: nat)

  function BuildRecord(issued: IssuedToken, previous: Option<TokenRecord>, now: real): TokenRecord {
    TokenRecord(
      issued.token, now,
      if issued.expiresIn.Some? then Some(now + issued.expiresIn.value) else None,
      if previous.Some? then previous.value.generation + 1 else 1)
  }

  predicate Usable(record: TokenRecord, now: real, settings: Settings) {
    if record.expiresAt.None? then now - record.issuedAt < settings.maxAge
    else now < record.expiresAt.value - settings.margin
  }

  /** The record a caller takes over instead of issuing. */
  predicate Adopts(op: Op, cached: Option<TokenRecord>, now: real, settings: Settings) {
    && cached.Some?
    && (op.Replace? ==> cached.value.token != op.rejected)
    && Usable(cached.value, now, settings)
  }

  function ThrottleDelay(interval: real, guard: Option<real>, now: real): real {
    if interval <= 0.0 || guard.None? then 0.0
    else
      var wait := guard.value + interval - now;
      if wait > 0.0 then wait else 0.0
  }

  predicate Throttled(interval: real, guard: Option<real>, now: real, settings: Settings) {
    var wait := ThrottleDelay(interval, guard, now);
    wait > 0.0 && (!settings.waits || wait > settings.lockTimeout)
  }

  // ---------------------------------------------------------------- the decisions by fields

  /** The token is good for longer than the margin; without an expiry, it is younger than the allowed age. */
  predicate StillGood(record: TokenRecord, now: real, settings: Settings) {
    && (record.expiresAt.Some? ==> now + settings.margin < record.expiresAt.value)
    && (record.expiresAt.None? ==> now < record.issuedAt + settings.maxAge)
  }

  /** There is a good record, and not of the token that was just rejected. */
  predicate CanKeep(op: Op, record: Option<TokenRecord>, now: real, settings: Settings) {
    record.Some? && StillGood(record.value, now, settings) && op != Replace(record.value.token)
  }

  /** The last issue was less than an interval ago, and waiting for the rest is not wanted or would take too long. */
  predicate HeldBack(interval: real, guard: Option<real>, now: real, settings: Settings) {
    && interval > 0.0 && guard.Some? && now < guard.value + interval
    && (settings.waits ==> guard.value + interval > now + settings.lockTimeout)
  }

  /** The record of a token issued at this moment, on top of the previous one. */
  predicate RecordOf(record: TokenRecord, issued: IssuedToken, previous: Option<TokenRecord>, now: real) {
    && record.token == issued.token && record.issuedAt == now
    && (issued.expiresIn.Some? ==> record.expiresAt == Some(now + issued.expiresIn.value))
    && (issued.expiresIn.None? ==> record.expiresAt.None?)
    && (previous.Some? ==> record.generation == previous.value.generation + 1) && (previous.None? ==> record.generation == 1)
  }

  lemma DecisionsByFields(op: Op, record: Option<TokenRecord>, interval: real, guard: Option<real>, now: real, settings: Settings)
    ensures Adopts(op, record, now, settings) <==> CanKeep(op, record, now, settings)
    ensures interval > 0.0 && Throttled(interval, guard, now, settings) <==> HeldBack(interval, guard, now, settings)
  {
  }

  // ---------------------------------------------------------------- steps

  function Enter(h: Host, p: nat, phase: Phase): Host { h.(phases := h.phases[p := phase]) }

  /** The process leaves its call; the lock is free again if it held it. */
  function Leave(h: Host, p: nat): Host {
    h.(phases := h.phases - {p}, holder := if h.holder == Some(p) then None else h.holder)
  }

  predicate Inside(phase: Phase) { !phase.Waiting? }

  /** One step; a step whose process is not at that point of a call does nothing. */
  function Apply(interval: real, settings: nat -> Settings, h: Host, step: Step): Host {
    match step
    case Request(p, op, now) =>
      if p in h.phases || (op.Get? && Adopts(op, h.record, now, settings(p))) then h else Enter(h, p, Waiting(op))
    case Lock(p) =>
      if p in h.phases && h.phases[p].Waiting? && h.holder.None?
      then Enter(h, p, Entered(h.phases[p].op)).(holder := Some(p)) else h
    case Look(p, now) =>
      if !(p in h.phases && h.phases[p].Entered?) then h
      else if Adopts(h.phases[p].op, h.record, now, settings(p)) then Leave(h, p)
      else Enter(h, p, Refused(h.phases[p].op, h.record, now))
    case Guard(p, now, later) =>
      if !(p in h.phases && h.phases[p].Refused?) then h
      else
        var next := Enter(h, p, Cleared(h.phases[p].op, h.phases[p].cached, h.phases[p].at));
        if interval <= 0.0 then next
        else if Throttled(interval, h.guard, now, settings(p)) then Leave(h, p)
        else next.(guard := Some(later))
    case Issue(p, outcome) =>
      if !(p in h.phases && h.phases[p].Cleared?) then h
      else
        var next := if outcome.None? then Leave(h, p)
                    else Enter(h, p, Issued(h.phases[p].op, h.phases[p].cached, h.phases[p].at, outcome.value));
        next.(attempts := h.attempts + [h.guard])
    case Publish(p, now) =>
      if !(p in h.phases && h.phases[p].Issued?) then h
      else
        var phase := h.phases[p];
        var record := BuildRecord(phase.issued, phase.cached, now);
        Leave(h, p).(record := Some(record),
                     published := h.published + [Publication(p, phase.op, phase.cached, phase.at, record)])
    case Quit(p) => Leave(h, p)
  }

  function Run(interval: real, settings: nat -> Settings, h: Host, steps: seq<Step>): Host {
    if steps == [] then h
    else Apply(interval, settings, Run(interval, settings, h, steps[..|steps| - 1]), steps[|steps| - 1])
  }

  /** The files as some earlier day left them; nobody is in a call. */
  function Opened(record: Option<TokenRecord>, guard: Option<real>): Host {
    Host(record, guard, None, map[], [], [])
  }

  // ---------------------------------------------------------------- the lock keeps the record still

  /** One process at most is past the lock, and from its look until its publish the record file is what it read. */
  ghost predicate Exclusive(h: Host) {
    && (h.holder.Some? ==> h.holder.value in h.phases && Inside(h.phases[h.holder.value]))
    && (forall p :: p in h.phases && Inside(h.phases[p]) ==> h.holder == Some(p))
    && (forall p :: p in h.phases && Inside(h.phases[p]) && !h.phases[p].Entered? ==> h.phases[p].cached == h.record)
  }

  lemma ExclusiveKept(interval: real, settings: nat -> Settings, h: Host, step: Step)
    requires Exclusive(h)
    ensures Exclusive(Apply(interval, settings, h, step))
  {
  }

  lemma {:induction false} ExclusiveRun(interval: real, settings: nat -> Settings, h: Host, steps: seq<Step>)
    requires Exclusive(h)
    ensures Exclusive(Run(interval, settings, h, steps))
  {
    if steps != [] {
      ExclusiveRun(interval, settings, h, steps[..|steps| - 1]);
      ExclusiveKept(interval, settings, Run(interval, settings, h, steps[..|steps| - 1]), steps[|steps| - 1]);
    }
  }

  // ---------------------------------------------------------------- generations

  function Generation(record: Option<TokenRecord>): nat { if record.Some? then record.value.generation else 0 }

  /** The record file after the first n publishes. */
  function Nth(first: Option<TokenRecord>, published: seq<Publication>, n: nat): Option<TokenRecord>
    requires n <= |published|
  {
    if n == 0 then first else Some(published[n - 1].record)
  }

  /** Every publication was decided on the record published just before it. */
  predicate Chained(first: Option<TokenRecord>, published: seq<Publication>, last: Option<TokenRecord>) {
    && (forall i :: 0 <= i < |published| ==>
          && published[i].seen == Nth(first, published, i)
          && published[i].record.generation == Generation(Nth(first, published, i)) + 1)
    && last == Nth(first, published, |published|)
  }

  lemma ChainExtends(first: Option<TokenRecord>, published: seq<Publication>, last: Option<TokenRecord>, p: Publication)
    requires Chained(first, published, last) && p.seen == last && p.record.generation == Generation(last) + 1
    ensures Chained(first, published + [p], Some(p.record))
  {
    forall i | 0 <= i <= |published|
      ensures Nth(first, published + [p], i) == Nth(first, published, i)
    {
    }
  }

  lemma ChainKept(interval: real, settings: nat -> Settings, first: Option<TokenRecord>, h: Host, step: Step)
    requires Exclusive(h) && Chained(first, h.published, h.record)
    ensures Chained(first, Apply(interval, settings, h, step).published, Apply(interval, settings, h, step).record)
  {
    if step.Publish? && step.p in h.phases && h.phases[step.p].Issued? {
      var phase := h.phases[step.p];
      var record := BuildRecord(phase.issued, phase.cached, step.now);
      ChainExtends(first, h.published, h.record, Publication(step.p, phase.op, phase.cached, phase.at, record));
    }
  }

  lemma {:induction false} ChainRun(
    interval: real, settings: nat -> Settings, record: Option<TokenRecord>, guard: Option<real>, steps: seq<Step>)
    ensures var h := Run(interval, settings, Opened(record, guard), steps);
            Exclusive(h) && Chained(record, h.published, h.record)
  {
    ExclusiveRun(interval, settings, Opened(record, guard), steps);
    if steps != [] {
      var init := steps[..|steps| - 1];
      ChainRun(interval, settings, record, guard, init);
      ChainKept(interval, settings, record, Run(interval, settings, Opened(record, guard), init), steps[|steps| - 1]);
    }
  }

  lemma {:induction false} ChainCounts(first: Option<TokenRecord>, published: seq<Publication>, last: Option<TokenRecord>, i: nat)
    requires Chained(first, published, last) && i < |published|
    ensures published[i].record.generation == Generation(first) + i + 1
  {
    if i > 0 {
      ChainCounts(first, published, last, i - 1);
    }
    assert published[i].record.generation == Generation(Nth(first, published, i)) + 1;
  }

  /** In every interleaving the n-th publish carries the first record's generation plus n, and the record
      file holds the latest. */
  lemma GenerationsCount(
    interval: real, settings: nat -> Settings, record: Option<TokenRecord>, guard: Option<real>, steps: seq<Step>)
    ensures var h := Run(interval, settings, Opened(record, guard), steps);
            && (forall i :: 0 <= i < |h.published| ==> h.published[i].record.generation == Generation(record) + i + 1)
            && Generation(h.record) == Generation(record) + |h.published|
  {
    var h := Run(interval, settings, Opened(record, guard), steps);
    ChainRun(interval, settings, record, guard, steps);
    forall i | 0 <= i < |h.published|
      ensures h.published[i].record.generation == Generation(record) + i + 1
    {
      ChainCounts(record, h.published, h.record, i);
    }
  }

  // ---------------------------------------------------------------- one replacement

  /** No issue call of the run hands out the token again. */
  predicate NeverReissued(steps: seq<Step>, token: string) {
    forall i :: 0 <= i < |steps| && steps[i].Issue? && steps[i].outcome.Some? ==> steps[i].outcome.value.token != token
  }

  /** Whoever looks finds a record published during the run still usable. */
  ghost predicate StaysUsable(interval: real, settings: nat -> Settings, h: Host, steps: seq<Step>) {
    forall i :: 0 <= i < |steps| && steps[i].Look? ==>
      var now := Run(interval, settings, h, steps[..i]);
      now.published != [] && now.record.Some? ==> StillGood(now.record.value, steps[i].now, settings(steps[i].p))
  }

  predicate ReplacedBy(published: seq<Publication>, i: nat, token: string) {
    i < |published| && published[i].op == Replace(token)
  }

  /** What holds of one rejected token along such a run. */
  ghost predicate Settled(h: Host, token: string) {
    && (h.published != [] ==> h.record.Some? && h.record.value.token != token)
    && (forall p :: p in h.phases && h.phases[p].Issued? ==> h.phases[p].issued.token != token)
    && (h.published != [] ==> forall p :: p in h.phases && Inside(h.phases[p]) && !h.phases[p].Entered? ==>
          h.phases[p].op != Replace(token))
    && (forall i, j :: ReplacedBy(h.published, i, token) && ReplacedBy(h.published, j, token) ==> i == j)
  }

  lemma SettledKept(interval: real, settings: nat -> Settings, h: Host, step: Step, token: string)
    requires Exclusive(h) && Settled(h, token)
    requires step.Issue? && step.outcome.Some? ==> step.outcome.value.token != token
    requires step.Look? && h.published != [] && h.record.Some? ==> StillGood(h.record.value, step.now, settings(step.p))
    ensures Settled(Apply(interval, settings, h, step), token)
  {
    var next := Apply(interval, settings, h, step);
    if step.Look? {
      DecisionsByFields(if step.p in h.phases then h.phases[step.p].op else Get, h.record, interval, h.guard, step.now, settings(step.p));
    }
    forall i: nat | i < |h.published|
      ensures ReplacedBy(next.published, i, token) <==> ReplacedBy(h.published, i, token)
    {
    }
  }

  lemma {:induction false} SettledRun(interval: real, settings: nat -> Settings, h: Host, steps: seq<Step>, token: string)
    requires Exclusive(h) && h.phases == map[] && h.published == []
    requires NeverReissued(steps, token) && StaysUsable(interval, settings, h, steps)
    ensures Settled(Run(interval, settings, h, steps), token)
  {
    if steps != [] {
      var init, last := steps[..|steps| - 1], steps[|steps| - 1];
      assert StaysUsable(interval, settings, h, init) by {
        forall i | 0 <= i < |init| ensures init[..i] == steps[..i] {}
      }
      SettledRun(interval, settings, h, init, token);
      ExclusiveRun(interval, settings, h, init);
      SettledKept(interval, settings, Run(interval, settings, h, init), last, token);
    }
  }

  /** However the processes interleave, all callers that report one rejected token publish at most one
      replacement between them, as long as replacements are fresh and stay usable. */
  lemma OneReplacement(
    interval: real, settings: nat -> Settings, record: Option<TokenRecord>, guard: Option<real>, steps: seq<Step>,
    token: string, i: nat, j: nat)
    requires NeverReissued(steps, token) && StaysUsable(interval, settings, Opened(record, guard), steps)
    requires ReplacedBy(Run(interval, settings, Opened(record, guard), steps).published, i, token)
    requires ReplacedBy(Run(interval, settings, Opened(record, guard), steps).published, j, token)
    ensures i == j
  {
    SettledRun(interval, settings, Opened(record, guard), steps, token);
  }

  // ---------------------------------------------------------------- issue spacing

  /** Sleeping lasts at least as long as asked and the clock does not step back meanwhile. */
  predicate Timely(interval: real, h: Host, step: Step) {
    step.Guard? ==> step.later >= step.now + ThrottleDelay(interval, h.guard, step.now)
  }

  ghost predicate AllTimely(interval: real, settings: nat -> Settings, h: Host, steps: seq<Step>) {
    forall i :: 0 <= i < |steps| ==> Timely(interval, Run(interval, settings, h, steps[..i]), steps[i])
  }

  predicate AllAtMost(attempts: seq<Option<real>>, bound: real) {
    forall i :: 0 <= i < |attempts| ==> attempts[i].Some? && attempts[i].value <= bound
  }

  predicate Apart(attempts: seq<Option<real>>, interval: real) {
    forall i, j :: 0 <= i < j < |attempts| && attempts[i].Some? && attempts[j].Some? ==>
      attempts[j].value >= attempts[i].value + interval
  }

  /** Attempts so far are stamped and spaced; whoever is cleared for the next one has stamped it. */
  ghost predicate Stamped(interval: real, h: Host) {
    && Apart(h.attempts, interval)
    && (h.attempts != [] ==> h.guard.Some? && AllAtMost(h.attempts, h.guard.value))
    && (forall p :: p in h.phases && h.phases[p].Cleared? ==>
          h.guard.Some? && AllAtMost(h.attempts, h.guard.value - interval))
  }

  lemma StampedByGuard(interval: real, settings: nat -> Settings, h: Host, step: Step)
    requires interval > 0.0 && Exclusive(h) && Stamped(interval, h) && step.Guard? && Timely(interval, h, step)
    ensures Stamped(interval, Apply(interval, settings, h, step))
  {
    var next := Apply(interval, settings, h, step);
    if h.guard.Some? {
      assert step.later >= h.guard.value + interval || next.guard == h.guard;
    }
  }

  lemma StampedKept(interval: real, settings: nat -> Settings, h: Host, step: Step)
    requires interval > 0.0 && Exclusive(h) && Stamped(interval, h) && Timely(interval, h, step)
    ensures Stamped(interval, Apply(interval, settings, h, step))
  {
    var next := Apply(interval, settings, h, step);
    if step.Issue? && step.p in h.phases && h.phases[step.p].Cleared? {
      assert next.attempts == h.attempts + [h.guard];
    } else if step.Guard? {
      StampedByGuard(interval, settings, h, step);
    }
  }

  lemma {:induction false} StampedRun(interval: real, settings: nat -> Settings, h: Host, steps: seq<Step>)
    requires interval > 0.0 && Exclusive(h) && Stamped(interval, h) && AllTimely(interval, settings, h, steps)
    ensures Stamped(interval, Run(interval, settings, h, steps))
  {
    if steps != [] {
      var init := steps[..|steps| - 1];
      assert AllTimely(interval, settings, h, init) by {
        forall i | 0 <= i < |init| ensures init[..i] == steps[..i] {}
      }
      StampedRun(interval, settings, h, init);
      ExclusiveRun(interval, settings, h, init);
      assert Timely(interval, Run(interval, settings, h, steps[..|steps| - 1]), steps[|steps| - 1]);
      StampedKept(interval, settings, Run(interval, settings, h, init), steps[|steps| - 1]);
    }
  }

  /** Every issue attempt of a throttled vendor carries a stamp, and stamps are pairwise an interval apart. */
  lemma IssuesSpaced(
    interval: real, settings: nat -> Settings, record: Option<TokenRecord>, guard: Option<real>, steps: seq<Step>,
    i: nat, j: nat)
    requires interval > 0.0 && AllTimely(interval, settings, Opened(record, guard), steps)
    requires i < j < |Run(interval, settings, Opened(record, guard), steps).attempts|
    ensures var attempts := Run(interval, settings, Opened(record, guard), steps).attempts;
            && attempts[i].Some? && attempts[j].Some?
            && attempts[j].value >= attempts[i].value + interval
  {
    StampedRun(interval, settings, Opened(record, guard), steps);
  }

  // ---------------------------------------------------------------- why a publish happened

  /** Nobody publishes over a record it could have taken over, and the token is not handed out again. */
  ghost predicate Justified(settings: nat -> Settings, h: Host, token: string) {
    && (forall p :: p in h.phases && Inside(h.phases[p]) && !h.phases[p].Entered? ==>
          !Adopts(h.phases[p].op, h.phases[p].cached, h.phases[p].at, settings(p)))
    && (forall p :: p in h.phases && h.phases[p].Issued? ==> h.phases[p].issued.token != token)
    && (forall k :: 0 <= k < |h.published| ==>
          && h.published[k].record.token != token
          && !Adopts(h.published[k].op, h.published[k].seen, h.published[k].at, settings(h.published[k].process)))
  }

  lemma JustifiedKept(interval: real, settings: nat -> Settings, h: Host, step: Step, token: string)
    requires Justified(settings, h, token)
    requires step.Issue? && step.outcome.Some? ==> step.outcome.value.token != token
    ensures Justified(settings, Apply(interval, settings, h, step), token)
  {
  }

  lemma {:induction false} JustifiedRun(interval: real, settings: nat -> Settings, h: Host, steps: seq<Step>, token: string)
    requires Justified(settings, h, token) && NeverReissued(steps, token)
    ensures Justified(settings, Run(interval, settings, h, steps), token)
  {
    if steps != [] {
      var init := steps[..|steps| - 1];
      JustifiedRun(interval, settings, h, init, token);
      JustifiedKept(interval, settings, Run(interval, settings, h, init), steps[|steps| - 1], token);
    }
  }

  /** A second replacement of one rejected token happens only after the record published just before it
      had stopped being usable. */
  lemma SecondReplacement(
    interval: real, settings: nat -> Settings, record: Option<TokenRecord>, guard: Option<real>, steps: seq<Step>,
    token: string, i: nat, j: nat)
    requires NeverReissued(steps, token) && i < j
    requires ReplacedBy(Run(interval, settings, Opened(record, guard), steps).published, i, token)
    requires ReplacedBy(Run(interval, settings, Opened(record, guard), steps).published, j, token)
    ensures var published := Run(interval, settings, Opened(record, guard), steps).published;
            && published[j].seen == Some(published[j - 1].record)
            && !StillGood(published[j - 1].record, published[j].at, settings(published[j].process))
  {
    var h := Run(interval, settings, Opened(record, guard), steps);
    ChainRun(interval, settings, record, guard, steps);
    JustifiedRun(interval, settings, Opened(record, guard), steps, token);
    assert h.published[j].seen == Nth(record, h.published, j);
    DecisionsByFields(h.published[j].op, h.published[j].seen, interval, guard, h.published[j].at, settings(h.published[j].process));
  }

  // ---------------------------------------------------------------- what is published

  /** Who is past its look could not keep what it read, and who has issued holds what an issue call of the run gave it. */
  ghost predicate Needed(settings: nat -> Settings, steps: seq<Step>, h: Host) {
    && (forall p :: p in h.phases && Inside(h.phases[p]) && !h.phases[p].Entered? ==>
          !CanKeep(h.phases[p].op, h.phases[p].cached, h.phases[p].at, settings(p)))
    && (forall p :: p in h.phases && h.phases[p].Issued? ==> exists i :: 0 <= i < |steps| && steps[i] == Issue(p, Some(h.phases[p].issued)))
    && (forall k :: 0 <= k < |h.published| ==> Warranted(settings, steps, h.published[k]))
  }

  /** A publish of a token that some issue call gave, at the reading of the publishing step, by a process that could not
      keep what it read. */
  ghost predicate Warranted(settings: nat -> Settings, steps: seq<Step>, p: Publication) {
    && !CanKeep(p.op, p.seen, p.at, settings(p.process))
    && exists i, j, issued, now ::
         && 0 <= i < |steps| && 0 <= j < |steps| && steps[i] == Issue(p.process, Some(issued)) && steps[j] == Publish(p.process, now)
         && RecordOf(p.record, issued, p.seen, now)
  }

  lemma WarrantedOn(settings: nat -> Settings, steps: seq<Step>, step: Step, p: Publication)
    requires Warranted(settings, steps, p)
    ensures Warranted(settings, steps + [step], p)
  {
    var i, j, issued, now :| 0 <= i < |steps| && 0 <= j < |steps| && steps[i] == Issue(p.process, Some(issued))
                             && steps[j] == Publish(p.process, now) && RecordOf(p.record, issued, p.seen, now);
    assert (steps + [step])[i] == Issue(p.process, Some(issued)) && (steps + [step])[j] == Publish(p.process, now);
  }

  lemma PublishWarranted(settings: nat -> Settings, steps: seq<Step>, h: Host, p: nat, now: real)
    requires Needed(settings, steps, h) && p in h.phases && h.phases[p].Issued?
    ensures var phase := h.phases[p];
            Warranted(settings, steps + [Publish(p, now)],
                      Publication(p, phase.op, phase.cached, phase.at, BuildRecord(phase.issued, phase.cached, now)))
  {
    var phase, more := h.phases[p], steps + [Publish(p, now)];
    var i :| 0 <= i < |steps| && steps[i] == Issue(p, Some(phase.issued));
    assert more[i] == Issue(p, Some(phase.issued)) && more[|steps|] == Publish(p, now);
    assert RecordOf(BuildRecord(phase.issued, phase.cached, now), phase.issued, phase.cached, now);
  }

  lemma NeededKept(interval: real, settings: nat -> Settings, steps: seq<Step>, h: Host, step: Step)
    requires Needed(settings, steps, h)
    ensures Needed(settings, steps + [step], Apply(interval, settings, h, step))
  {
    var next, more := Apply(interval, settings, h, step), steps + [step];
    forall k | 0 <= k < |h.published|
      ensures Warranted(settings, more, h.published[k])
    {
      WarrantedOn(settings, steps, step, h.published[k]);
    }
    if step.Publish? && step.p in h.phases && h.phases[step.p].Issued? {
      PublishWarranted(settings, steps, h, step.p, step.now);
    }
    if step.Look? {
      DecisionsByFields(if step.p in h.phases then h.phases[step.p].op else Get, h.record, interval, h.guard, step.now, settings(step.p));
    }
    forall p | p in next.phases && next.phases[p].Issued?
      ensures exists i :: 0 <= i < |more| && more[i] == Issue(p, Some(next.phases[p].issued))
    {
      if p in h.phases && h.phases[p].Issued? {
        var i :| 0 <= i < |steps| && steps[i] == Issue(p, Some(h.phases[p].issued));
        assert more[i] == steps[i];
      } else {
        assert more[|steps|] == step;
      }
    }
  }

  /** EVERY PUBLISH IS NEEDED. In every interleaving each published record is that of a token an issue call of the same
      process gave, stamped with the reading of its publish and good for as long as was granted; and the process had read,
      under the lock, no record it could have kept. */
  lemma {:induction false} EveryPublishNeeded(
    interval: real, settings: nat -> Settings, record: Option<TokenRecord>, guard: Option<real>, steps: seq<Step>)
    ensures Needed(settings, steps, Run(interval, settings, Opened(record, guard), steps))
  {
    if steps != [] {
      var init, last := steps[..|steps| - 1], steps[|steps| - 1];
      EveryPublishNeeded(interval, settings, record, guard, init);
      NeededKept(interval, settings, init, Run(interval, settings, Opened(record, guard), init), last);
      assert steps == init + [last];
    }
  }

  // ---------------------------------------------------------------- the store object

  datatype TokenError = IssueThrottled | IssueFailed

  class TokenFiles {
    var record: Option<TokenRecord>
    var guard: Option<real>

    constructor ()
      ensures record.None? && guard.None?
    {
      record, guard := None, None;
    }
  }

  /** The clock readings of one call under the lock. */
  datatype Readings = Readings(look: real, guard: real, woken: real, publish: real)

  /** One call from its look to its end, with the lock held throughout. */
  function Alone(interval: real, settings: Settings, h: Host, op: Op, t: Readings, outcome: Option<IssuedToken>): Host {
    var each := (p: nat) => settings;
    var entered := Host(h.record, h.guard, Some(0), map[0 := Entered(op)], h.published, h.attempts);
    var looked := Apply(interval, each, entered, Look(0, t.look));
    var guarded := Apply(interval, each, looked, Guard(0, t.guard, t.woken));
    var issued := Apply(interval, each, guarded, Issue(0, outcome));
    Apply(interval, each, issued, Publish(0, t.publish))
  }

  /** How a call alone ends, by the record and the guard it found. */
  lemma AloneEnds(interval: real, settings: Settings, record: Option<TokenRecord>, guard: Option<real>, op: Op, t: Readings,
                  outcome: Option<IssuedToken>)
    ensures var h := Alone(interval, settings, Opened(record, guard), op, t, outcome);
            && h.phases == map[] && h.holder.None?
            && (CanKeep(op, record, t.look, settings) || HeldBack(interval, guard, t.guard, settings) ==>
                  h.record == record && h.guard == guard && h.published == [])
            && (!CanKeep(op, record, t.look, settings) && !HeldBack(interval, guard, t.guard, settings) ==>
                  && h.guard == (if interval > 0.0 then Some(t.woken) else guard) && (outcome.None? <==> h.published == [])
                  && h.record == if outcome.None? then record else Some(BuildRecord(outcome.value, record, t.publish)))
  {
    DecisionsByFields(op, record, interval, guard, t.look, settings);
    DecisionsByFields(op, record, interval, guard, t.guard, settings);
  }

  /** The steps of one process that calls the store. */
  function CallOf(p: nat, op: Op, first: real, t: Readings, outcome: Option<IssuedToken>): seq<Step> {
    [Request(p, op, first), Lock(p), Look(p, t.look), Guard(p, t.guard, t.woken), Issue(p, outcome), Publish(p, t.publish)]
  }

  lemma RunUnfolds(interval: real, settings: nat -> Settings, h: Host, steps: seq<Step>, n: nat)
    requires n < |steps|
    ensures Run(interval, settings, h, steps[..n + 1]) == Apply(interval, settings, Run(interval, settings, h, steps[..n]), steps[n])
  {
    assert steps[..n + 1][..n] == steps[..n];
  }

  /** Four steps in a row, after the first two. */
  lemma RunOfSix(interval: real, settings: nat -> Settings, h: Host, steps: seq<Step>, two: Host)
    requires |steps| == 6 && two == Apply(interval, settings, Apply(interval, settings, h, steps[0]), steps[1])
    ensures var three := Apply(interval, settings, two, steps[2]);
            var four := Apply(interval, settings, three, steps[3]);
            Run(interval, settings, h, steps)
            == Apply(interval, settings, Apply(interval, settings, four, steps[4]), steps[5])
  {
    assert steps[..0] == [] && steps[..6] == steps;
    RunUnfolds(interval, settings, h, steps, 0);
    RunUnfolds(interval, settings, h, steps, 1);
    RunUnfolds(interval, settings, h, steps, 2);
    RunUnfolds(interval, settings, h, steps, 3);
    RunUnfolds(interval, settings, h, steps, 4);
    RunUnfolds(interval, settings, h, steps, 5);
  }

  /** A lone process is let into the lock unless its first look finds a good record. */
  lemma LetIn(
    interval: real, settings: Settings, record: Option<TokenRecord>, guard: Option<real>, op: Op, first: real)
    ensures var each := (p: nat) => settings;
            Apply(interval, each, Apply(interval, each, Opened(record, guard), Request(0, op, first)), Lock(0))
            == if op.Get? && CanKeep(op, record, first, settings) then Opened(record, guard)
               else Host(record, guard, Some(0), map[0 := Entered(op)], [], [])
  {
    DecisionsByFields(op, record, interval, guard, first, settings);
  }

  /** A call is a run of the protocol: it ends where the object's call ends, and at once if a first look finds a good record. */
  lemma CallRuns(
    interval: real, settings: Settings, record: Option<TokenRecord>, guard: Option<real>, op: Op, first: real, t: Readings,
    outcome: Option<IssuedToken>)
    ensures Run(interval, (p: nat) => settings, Opened(record, guard), CallOf(0, op, first, t, outcome))
            == if op.Get? && CanKeep(op, record, first, settings) then Opened(record, guard)
               else Alone(interval, settings, Opened(record, guard), op, t, outcome)
  {
    var each, h := (p: nat) => settings, Opened(record, guard);
    var two := Apply(interval, each, Apply(interval, each, h, Request(0, op, first)), Lock(0));
    LetIn(interval, settings, record, guard, op, first);
    RunOfSix(interval, each, h, CallOf(0, op, first, t, outcome), two);
  }

  class TokenStore {
    const files: TokenFiles
    const interval: real
    const settings: Settings

    constructor (files: TokenFiles, interval: real, settings: Settings)
      requires settings.margin >= 0.0 && settings.maxAge >= 0.0 && settings.lockTimeout > 0.0
      ensures this.files == files && this.interval == interval && this.settings == settings
    {
      this.files, this.interval, this.settings := files, interval, settings;
    }

    method GuardBeforeIssue(now: real, woken: real) returns (throttled: bool)
      modifies files`guard
      ensures throttled <==> interval > 0.0 && Throttled(interval, old(files.guard), now, settings)
      ensures files.guard == if interval > 0.0 && !throttled then Some(woken) else old(files.guard)
      ensures throttled <==> HeldBack(interval, old(files.guard), now, settings)
    {
      if interval <= 0.0 {
        return false;
      }
      DecisionsByFields(Get, None, interval, files.guard, now, settings);
      var wait := ThrottleDelay(interval, files.guard, now);
      if wait > 0.0 {
        if !settings.waits {
          return true;
        }
        if wait > settings.lockTimeout {
          return true;
        }
      }
      files.guard := Some(woken);
      throttled := false;
    }

    /** Takes over what a peer published, or issues and publishes; the files move as the steps of one
        uninterrupted call move them. */
    method IssueUnlessAdopted(op: Op, t: Readings, outcome: Option<IssuedToken>) returns (r: Result<TokenRecord, TokenError>)
      modifies files
      ensures var h := Alone(interval, settings, Opened(old(files.record), old(files.guard)), op, t, outcome);
              && files.record == h.record && files.guard == h.guard
              && h.phases == map[] && h.holder.None?
              && (r.Success? ==> files.record == Some(r.value))
              && (r.Success? && h.published == [] ==> Adopts(op, Some(r.value), t.look, settings))
              && (r.Failure? ==> files.record == old(files.record))
      ensures CanKeep(op, old(files.record), t.look, settings) ==>
                r == Success(old(files.record).value) && files.record == old(files.record) && files.guard == old(files.guard)
      ensures !CanKeep(op, old(files.record), t.look, settings) ==>
                if HeldBack(interval, old(files.guard), t.guard, settings) then r == Failure(IssueThrottled)
                else if outcome.None? then r == Failure(IssueFailed)
                else r.Success? && RecordOf(r.value, outcome.value, old(files.record), t.publish)
    {
      DecisionsByFields(op, files.record, interval, files.guard, t.look, settings);
      AloneEnds(interval, settings, files.record, files.guard, op, t, outcome);
      var cached := files.record;
      if Adopts(op, cached, t.look, settings) {
        return Success(cached.value);
      }
      var throttled := GuardBeforeIssue(t.guard, t.woken);
      if throttled {
        return Failure(IssueThrottled);
      }
      if outcome.None? {
        return Failure(IssueFailed);
      }
      var record := BuildRecord(outcome.value, cached, t.publish);
      files.record := Some(record);
      r := Success(record);
    }

    /** A usable record as first read is returned without the lock; otherwise one call under it. */
    method GetOrIssue(first: real, t: Readings, outcome: Option<IssuedToken>) returns (r: Result<TokenRecord, TokenError>)
      modifies files
      ensures if Adopts(Get, old(files.record), first, settings)
              then r == Success(old(files.record).value) && files.record == old(files.record) && files.guard == old(files.guard)
              else
                var h := Alone(interval, settings, Opened(old(files.record), old(files.guard)), Get, t, outcome);
                files.record == h.record && files.guard == h.guard && (r.Success? ==> files.record == Some(r.value))
      ensures CanKeep(Get, old(files.record), first, settings) || CanKeep(Get, old(files.record), t.look, settings) ==>
                r == Success(old(files.record).value) && files.record == old(files.record) && files.guard == old(files.guard)
      ensures !CanKeep(Get, old(files.record), first, settings) && !CanKeep(Get, old(files.record), t.look, settings) ==>
                if HeldBack(interval, old(files.guard), t.guard, settings) then r == Failure(IssueThrottled)
                else if outcome.None? then r == Failure(IssueFailed)
                else r.Success? && RecordOf(r.value, outcome.value, old(files.record), t.publish) && files.record == Some(r.value)
    {
      DecisionsByFields(Get, files.record, interval, files.guard, first, settings);
      var cached := files.record;
      if Adopts(Get, cached, first, settings) {
        return Success(cached.value);
      }
      r := IssueUnlessAdopted(Get, t, outcome);
    }

    method ReplaceRejected(rejected: string, t: Readings, outcome: Option<IssuedToken>)
      returns (r: Result<TokenRecord, TokenError>)
      modifies files
      ensures var h := Alone(interval, settings, Opened(old(files.record), old(files.guard)), Replace(rejected), t, outcome);
              && files.record == h.record && files.guard == h.guard
              && (r.Success? ==> files.record == Some(r.value))
              && (r.Success? && r.value.token == rejected ==> h.published != [])
      ensures CanKeep(Replace(rejected), old(files.record), t.look, settings) ==>
                r == Success(old(files.record).value) && files.record == old(files.record) && files.guard == old(files.guard)
      ensures !CanKeep(Replace(rejected), old(files.record), t.look, settings) ==>
                if HeldBack(interval, old(files.guard), t.guard, settings) then r == Failure(IssueThrottled)
                else if outcome.None? then r == Failure(IssueFailed)
                else r.Success? && RecordOf(r.value, outcome.value, old(files.record), t.publish) && files.record == Some(r.value)
    {
      r := IssueUnlessAdopted(Replace(rejected), t, outcome);
    }
  }
}
