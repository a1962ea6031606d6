/** One pass of the lease-eviction loop, with whatever other commands and reports
    may do to executions while the lock is free, and one visit of recovery, with a
    completion that the runtime may report meanwhile. */
module LifecyclePasses {
  import opened Protocol
  import opened AllocatorState
  import opened AllocatorInvariant
  import opened AllocatorSteps

  /** A completion reported while the lock is free, and whether its save commits. */
  datatype Report = Silent | Report(c: Completion, at: Time, ok: bool)

  predicate Names(report: Report, x: string) {
    report.Report? && report.c.executionId == x
  }

  predicate TimelyReport(report: Report) {
    report.Report? ==> report.at > UNSET
  }

  function Heard(cfg: Config, s: State, report: Report): State {
    if report.Report? then RuntimeCompleted(cfg, s, report.c, report.at, report.ok).0 else s
  }

  /** A report only ever ends the execution it names. */
  lemma HeardFates(cfg: Config, s: State, report: Report, y: string)
    requires y in s.executions
    ensures var t := Heard(cfg, s, report);
      && t.executions.Keys == s.executions.Keys && t.highWater == s.highWater && y in t.executions
      && (t.executions[y] == s.executions[y] || (Names(report, y) && Terminal(t.executions[y].phase)))
  {
    hide Ended;
    EndedTerminal(cfg, s, report);
  }

  lemma EndedTerminal(cfg: Config, s: State, report: Report)
    ensures report.Report? && report.c.executionId in s.executions ==>
      Terminal(Ended(cfg, s.executions[report.c.executionId], CompletionPhase(report.c), CompletionDetail(report.c),
                     report.c.exitCode, report.at, s.highWater).phase)
  {
  }

  // ------------------------------------------------------------- interruptions

  /** A locked section of a command or report on an execution that exists, and whether its save commits. */
  datatype Interruption =
    | Completes(c: Completion, at: Time, ok: bool)
    | Renews(e: Envelope, id: string, duration: int, at: Time, ok: bool)
    | Cancels(e: Envelope, id: string, reason: string, at: Time, ok: bool)
    | StopReturns(id: string, reason: string, wasPhase: Phase, wasDetail: string, stopped: bool, at: Time, ok: bool)
    | StartReturns(id: string, startErr: Option<string>, at: Time, ok: bool)

  predicate TimelyInterruption(i: Interruption) {
    i.at > UNSET && (i.Renews? ==> i.duration > 0) && (i.StopReturns? ==> Live(i.wasPhase))
  }

  function InterruptedBy(cfg: Config, s: State, i: Interruption): State {
    match i
    case Completes(c, at, ok) => RuntimeCompleted(cfg, s, c, at, ok).0
    case Renews(e, id, duration, at, ok) => HandleRenew(s, e, id, duration, at, ok).0
    case Cancels(e, id, reason, at, ok) => CancelBegin(s, e, id, reason, at, ok).0
    case StopReturns(id, reason, wasPhase, wasDetail, stopped, at, ok) =>
      if id in s.executions then CancelEnd(cfg, s, id, reason, wasPhase, wasDetail, stopped, at) else s
    case StartReturns(id, startErr, at, ok) => if id in s.executions then AssignEnd(cfg, s, id, startErr, at) else s
  }

  function Interrupted(cfg: Config, s: State, between: seq<Interruption>): State {
    if between == [] then s else InterruptedBy(cfg, Interrupted(cfg, s, between[..|between| - 1]), between[|between| - 1])
  }

  predicate Reports(i: Interruption, x: string) {
    i.Completes? && i.c.executionId == x
  }

  predicate Commands(i: Interruption, x: string) {
    !i.Completes? && i.id == x
  }

  /** What an interruption does to `y`: nothing, unless it names it, and nothing once it has ended. */
  predicate Disturbs(r: Execution, r': Execution, reported: bool, commanded: bool) {
    r' == r || (!Terminal(r.phase) && ((reported && Terminal(r'.phase)) || commanded))
  }

  predicate DisturbedOnly(s: State, t: State, y: string, reported: bool, commanded: bool)
    requires y in s.executions
  {
    && t.executions.Keys == s.executions.Keys && t.highWater == s.highWater && y in t.executions
    && Disturbs(s.executions[y], t.executions[y], reported, commanded)
  }

  lemma OneInterruption(cfg: Config, s: State, i: Interruption, y: string)
    requires y in s.executions
    ensures DisturbedOnly(s, InterruptedBy(cfg, s, i), y, Reports(i, y), Commands(i, y))
  {
    hide RuntimeCompleted, HandleRenew, CancelBegin, CancelEnd, AssignEnd;
    match i
    case Completes(c, at, ok) =>
      HeardFates(cfg, s, Report(c, at, ok), y);
      if Terminal(s.executions[y].phase) { CompletedLeaves(cfg, s, c, at, ok, y); }
    case Renews(e, id, duration, at, ok) => RenewDisturbs(s, e, id, duration, at, ok, y);
    case Cancels(e, id, reason, at, ok) => CancelDisturbs(s, e, id, reason, at, ok, y);
    case StopReturns(id, reason, wasPhase, wasDetail, stopped, at, ok) =>
      if id in s.executions { StopDisturbs(cfg, s, id, reason, wasPhase, wasDetail, stopped, at, y); }
    case StartReturns(id, startErr, at, ok) =>
      if id in s.executions { StartDisturbs(cfg, s, id, startErr, at, y); }
  }

  lemma CompletedLeaves(cfg: Config, s: State, c: Completion, at: Time, ok: bool, y: string)
    requires y in s.executions && Terminal(s.executions[y].phase)
    ensures var t := RuntimeCompleted(cfg, s, c, at, ok).0; y in t.executions && t.executions[y] == s.executions[y]
  {
  }

  lemma RenewDisturbs(s: State, e: Envelope, x: string, duration: int, at: Time, ok: bool, y: string)
    requires y in s.executions
    ensures DisturbedOnly(s, HandleRenew(s, e, x, duration, at, ok).0, y, false, y == x)
  {
  }

  lemma CancelDisturbs(s: State, e: Envelope, x: string, reason: string, at: Time, ok: bool, y: string)
    requires y in s.executions
    ensures DisturbedOnly(s, CancelBegin(s, e, x, reason, at, ok).0, y, false, y == x)
  {
    hide Touch;
  }

  lemma OneReplaced(s: State, t: State, x: string, r: Execution, y: string)
    requires y in s.executions && x in s.executions && !Terminal(s.executions[x].phase)
    requires t.executions == s.executions[x := r] && t.highWater == s.highWater
    ensures DisturbedOnly(s, t, y, false, y == x)
  {
    assert s.executions.Keys + {x} == s.executions.Keys;
  }

  lemma FinishReplaces(cfg: Config, s: State, x: string, phase: Phase, detail: string, at: Time)
    requires x in s.executions
    ensures var t := Finish(cfg, s, x, phase, detail, None, at);
      t.executions == s.executions[x := Ended(cfg, s.executions[x], phase, detail, None, at, s.highWater)] && t.highWater == s.highWater
  {
    hide Ended;
  }

  lemma StopDisturbs(cfg: Config, s: State, x: string, reason: string, wasPhase: Phase, wasDetail: string, stopped: bool, at: Time, y: string)
    requires y in s.executions && x in s.executions
    ensures DisturbedOnly(s, CancelEnd(cfg, s, x, reason, wasPhase, wasDetail, stopped, at), y, false, y == x)
  {
    hide Touch, Ended, Finish;
    var t := CancelEnd(cfg, s, x, reason, wasPhase, wasDetail, stopped, at);
    FinishReplaces(cfg, s, x, Phase.Cancelled, reason, at);
    if t != s { OneReplaced(s, t, x, t.executions[x], y); }
  }

  lemma StartDisturbs(cfg: Config, s: State, x: string, startErr: Option<string>, at: Time, y: string)
    requires y in s.executions && x in s.executions
    ensures DisturbedOnly(s, AssignEnd(cfg, s, x, startErr, at), y, false, y == x)
  {
    hide Touch, Ended, Finish;
    var t := AssignEnd(cfg, s, x, startErr, at);
    if startErr.Some? { FinishReplaces(cfg, s, x, Phase.Failed, startErr.value, at); }
    if t != s { OneReplaced(s, t, x, t.executions[x], y); }
  }

  predicate ReportedIn(between: seq<Interruption>, x: string) {
    exists k | 0 <= k < |between| :: Reports(between[k], x)
  }

  predicate CommandedIn(between: seq<Interruption>, x: string) {
    exists k | 0 <= k < |between| :: Commands(between[k], x)
  }

  lemma {:induction false} Interruptions(cfg: Config, s: State, between: seq<Interruption>, y: string)
    requires y in s.executions
    ensures DisturbedOnly(s, Interrupted(cfg, s, between), y, ReportedIn(between, y), CommandedIn(between, y))
  {
    hide InterruptedBy, Reports, Commands;
    if between != [] {
      var n := |between| - 1;
      var rest, last := between[..n], between[n];
      Interruptions(cfg, s, rest, y);
      OneInterruption(cfg, Interrupted(cfg, s, rest), last, y);
      NamedLater(between, y);
    }
  }

  lemma NamedLater(between: seq<Interruption>, y: string)
    requires between != []
    ensures var rest, last := between[..|between| - 1], between[|between| - 1];
      && (ReportedIn(rest, y) || Reports(last, y) ==> ReportedIn(between, y))
      && (CommandedIn(rest, y) || Commands(last, y) ==> CommandedIn(between, y))
  {
    hide Reports, Commands;
    var rest := between[..|between| - 1];
    if k :| 0 <= k < |rest| && Reports(rest[k], y) { assert between[k] == rest[k]; }
    if k :| 0 <= k < |rest| && Commands(rest[k], y) { assert between[k] == rest[k]; }
  }

  // ------------------------------------------------------------------ eviction

  /** What the surroundings do during one pass: before it takes the lock, and while the runtime stops the workload. */
  datatype EvictionPass = EvictionPass(before: seq<Interruption>, clock: Time, cancelled: bool, beginOk: bool,
                                       between: seq<Interruption>, stopped: bool, endAt: Time, endOk: bool)

  predicate AllTimely(between: seq<Interruption>) {
    forall k | 0 <= k < |between| :: TimelyInterruption(between[k])
  }

  predicate Timely(p: EvictionPass) {
    p.clock > UNSET && p.endAt > UNSET && AllTimely(p.before) && AllTimely(p.between)
  }

  /** What one pass over `x` leaves when its begin commits. */
  function Evicted(cfg: Config, s: State, x: string, p: EvictionPass): State
    requires x in s.executions
  {
    var r := s.executions[x];
    EvictEnd(cfg, Interrupted(cfg, EvictBegin(s, x, s.highWater, true), p.between), x, r.phase, r.detail, p.stopped, p.endAt)
  }

  /** The earlier phase, detail and lease are back, under a larger revision. */
  predicate Restored(was: Execution, now: Execution) {
    now == was.(occurredAt := now.occurredAt, revision := now.revision) && now.revision > was.revision
  }

  predicate LeaseFailed(r: Execution) {
    r.phase == Failed && r.detail == LEASE_EXPIRED
  }

  lemma EndFates(cfg: Config, s: State, x: string, was: Execution, stopped: bool, now: Time, y: string)
    requires x in s.executions && y in s.executions
    ensures var t := EvictEnd(cfg, s, x, was.phase, was.detail, stopped, now);
      && t.executions.Keys == s.executions.Keys && t.highWater == s.highWater && y in t.executions && x in t.executions
      && (y != x ==> t.executions[y] == s.executions[y])
      && (Terminal(s.executions[x].phase) ==> t.executions[x] == s.executions[x])
      && (stopped && !Terminal(s.executions[x].phase) ==> LeaseFailed(t.executions[x]))
      && (!stopped && s.executions[x].phase == Phase.Cancelling ==>
            t.executions[x] == Touch(s.executions[x], was.phase, was.detail, now))
  {
  }

  /** A pass touches the execution it evicts and those that commands and reports name meanwhile, nothing else.
      A stopped workload has ended, with the lease marker if nobody else ended it; a failed stop restores the record. */
  lemma PassFates(cfg: Config, s: State, x: string, p: EvictionPass, y: string)
    requires x in s.executions && y in s.executions && LeaseLapsed(s.executions[x], s.highWater)
    ensures var t := Evicted(cfg, s, x, p);
      && t.executions.Keys == s.executions.Keys && t.highWater == s.highWater && y in t.executions && x in t.executions
      && (y != x ==> Disturbs(s.executions[y], t.executions[y], ReportedIn(p.between, y), CommandedIn(p.between, y)))
      && (|| (ReportedIn(p.between, x) && Terminal(t.executions[x].phase)) || CommandedIn(p.between, x)
          || (if p.stopped then LeaseFailed(t.executions[x]) else Restored(s.executions[x], t.executions[x])))
      && (p.stopped ==> Terminal(t.executions[x].phase))
  {
    hide Interrupted, EvictEnd, ReportedIn, CommandedIn;
    var r := s.executions[x];
    var s1 := EvictBegin(s, x, s.highWater, true);
    var s2 := Interrupted(cfg, s1, p.between);
    Interruptions(cfg, s1, p.between, y);
    Interruptions(cfg, s1, p.between, x);
    EndFates(cfg, s2, x, r, p.stopped, p.endAt, y);
  }

  function Unended(executions: map<string, Execution>): set<string> {
    set x | x in executions && !Terminal(executions[x].phase)
  }

  /** A pass whose stop succeeds leaves strictly fewer executions that have not ended. */
  lemma PassShrinks(cfg: Config, s: State, x: string, p: EvictionPass)
    requires x in s.executions && LeaseLapsed(s.executions[x], s.highWater) && p.stopped
    ensures |Unended(Evicted(cfg, s, x, p).executions)| < |Unended(s.executions)|
  {
    hide Evicted, ReportedIn, CommandedIn;
    var t := Evicted(cfg, s, x, p);
    PassFates(cfg, s, x, p, x);
    forall y | y in Unended(t.executions) ensures y in Unended(s.executions) - {x} {
      PassFates(cfg, s, x, p, y);
    }
    SubsetSmaller(Unended(t.executions), Unended(s.executions) - {x});
  }

  /** And none are added before it begins. */
  lemma InterruptedShrinks(cfg: Config, s: State, between: seq<Interruption>)
    ensures |Unended(Interrupted(cfg, s, between).executions)| <= |Unended(s.executions)|
    ensures Interrupted(cfg, s, between).executions.Keys == s.executions.Keys && Interrupted(cfg, s, between).highWater == s.highWater
  {
    hide Interrupted, ReportedIn, CommandedIn;
    var t := Interrupted(cfg, s, between);
    InterruptedKeys(cfg, s, between);
    forall y | y in Unended(t.executions) ensures y in Unended(s.executions) {
      Interruptions(cfg, s, between, y);
    }
    SubsetSmaller(Unended(t.executions), Unended(s.executions));
  }

  lemma {:induction false} InterruptedKeys(cfg: Config, s: State, between: seq<Interruption>)
    ensures Interrupted(cfg, s, between).executions.Keys == s.executions.Keys && Interrupted(cfg, s, between).highWater == s.highWater
  {
    if between != [] {
      hide InterruptedBy;
      InterruptedKeys(cfg, s, between[..|between| - 1]);
      OneKeys(cfg, Interrupted(cfg, s, between[..|between| - 1]), between[|between| - 1]);
    }
  }

  lemma OneKeys(cfg: Config, s: State, i: Interruption)
    ensures InterruptedBy(cfg, s, i).executions.Keys == s.executions.Keys && InterruptedBy(cfg, s, i).highWater == s.highWater
  {
    hide InterruptedBy, Disturbs;
    if s.executions.Keys == {} {
      NothingThere(cfg, s, i);
    } else {
      var y :| y in s.executions;
      OneInterruption(cfg, s, i, y);
    }
  }

  lemma NothingThere(cfg: Config, s: State, i: Interruption)
    requires s.executions.Keys == {}
    ensures InterruptedBy(cfg, s, i) == s
  {
  }

  // ---------------------------------------------------------------- the whole loop

  /** What a pass finds when it has the lock. */
  function Found(cfg: Config, s: State, p: EvictionPass): State {
    Advance(Interrupted(cfg, s, p.before), p.clock)
  }

  /** The state after the passes that evicted `picks`, one each. */
  function AfterPasses(cfg: Config, s: State, env: nat -> EvictionPass, picks: seq<string>): State {
    if picks == [] then s else
    var n := |picks| - 1;
    var f := Found(cfg, AfterPasses(cfg, s, env, picks[..n]), env(n));
    if picks[n] in f.executions then Evicted(cfg, f, picks[n], env(n)) else f
  }

  /** Each pass picks an execution whose lease, as it stands when the pass has the lock, has lapsed; and there is a
      next one only if the stop succeeded. */
  predicate Lawful(cfg: Config, s: State, env: nat -> EvictionPass, picks: seq<string>) {
    picks == [] ||
      (var n := |picks| - 1;
       var f := Found(cfg, AfterPasses(cfg, s, env, picks[..n]), env(n));
       && Lawful(cfg, s, env, picks[..n]) && (n > 0 ==> env(n - 1).stopped)
       && picks[n] in f.executions && LeaseLapsed(f.executions[picks[n]], f.highWater))
  }

  /** A report names `x` in one of the first `n` passes or, if one more has begun, before it. */
  ghost predicate Reported(env: nat -> EvictionPass, n: nat, begun: bool, x: string) {
    || (exists i | 0 <= i < n :: ReportedIn(env(i).before, x) || ReportedIn(env(i).between, x))
    || (begun && ReportedIn(env(n).before, x))
  }

  ghost predicate Commanded(env: nat -> EvictionPass, n: nat, begun: bool, x: string) {
    || (exists i | 0 <= i < n :: CommandedIn(env(i).before, x) || CommandedIn(env(i).between, x))
    || (begun && CommandedIn(env(n).before, x))
  }

  predicate LastFailed(env: nat -> EvictionPass, picks: seq<string>, x: string) {
    picks != [] && picks[|picks| - 1] == x && !env(|picks| - 1).stopped
  }

  /** What the loop did to one execution. One it did not pick is as the commands and reports that ran left it. One it
      picked has ended, unless its stop failed; and if no command named it, either a report ended it or its lease had
      lapsed all along and it failed with the marker, or is back as it was if its stop failed. */
  ghost predicate Fate(env: nat -> EvictionPass, picks: seq<string>, begun: bool, x: string, was: Execution, now: Execution, highWater: Time) {
    var reported, commanded := Reported(env, |picks|, begun, x), Commanded(env, |picks|, begun, x);
    if x !in picks then Disturbs(was, now, reported, commanded)
    else
      && (Terminal(now.phase) || LastFailed(env, picks, x))
      && (|| commanded || (reported && Terminal(now.phase))
          || (LeaseLapsed(was, highWater) && (LeaseFailed(now) || (LastFailed(env, picks, x) && Restored(was, now)))))
  }

  lemma DisturbsTwice(a: Execution, b: Execution, c: Execution, r: bool, r': bool, r'': bool, m: bool, m': bool, m'': bool)
    requires Disturbs(a, b, r, m) && Disturbs(b, c, r', m') && (r || r' ==> r'') && (m || m' ==> m'')
    ensures Disturbs(a, c, r'', m'')
  {
  }

  lemma NamedSoFar(env: nat -> EvictionPass, n: nat, x: string)
    ensures Reported(env, n, true, x) <==> Reported(env, n, false, x) || ReportedIn(env(n).before, x)
    ensures Commanded(env, n, true, x) <==> Commanded(env, n, false, x) || CommandedIn(env(n).before, x)
    ensures Reported(env, n + 1, false, x) <==> Reported(env, n, true, x) || ReportedIn(env(n).between, x)
    ensures Commanded(env, n + 1, false, x) <==> Commanded(env, n, true, x) || CommandedIn(env(n).between, x)
  {
    hide ReportedIn, CommandedIn;
  }

  predicate Grown(s: State, t: State, x: string) {
    t.executions.Keys == s.executions.Keys && t.highWater >= s.highWater && x in t.executions
  }

  lemma FoundFates(cfg: Config, s: State, p: EvictionPass, x: string)
    requires x in s.executions
    ensures var f := Found(cfg, s, p);
      Grown(s, f, x) && Disturbs(s.executions[x], f.executions[x], ReportedIn(p.before, x), CommandedIn(p.before, x))
  {
    hide Interrupted, ReportedIn, CommandedIn;
    Interruptions(cfg, s, p.before, x);
  }

  /** One more pass has begun after passes that all stopped their workloads. */
  lemma FateFound(cfg: Config, s: State, env: nat -> EvictionPass, picks: seq<string>, x: string, was: Execution)
    requires x in s.executions && Fate(env, picks, false, x, was, s.executions[x], s.highWater)
    requires picks != [] ==> env(|picks| - 1).stopped
    ensures var f := Found(cfg, s, env(|picks|)); Grown(s, f, x) && Fate(env, picks, true, x, was, f.executions[x], f.highWater)
  {
    hide Found, ReportedIn, CommandedIn, Reported, Commanded, LeaseFailed, Restored;
    var n, f := |picks|, Found(cfg, s, env(|picks|));
    FoundFates(cfg, s, env(n), x);
    NamedSoFar(env, n, x);
    if x !in picks {
      DisturbsTwice(was, s.executions[x], f.executions[x], Reported(env, n, false, x), ReportedIn(env(n).before, x), Reported(env, n, true, x),
                    Commanded(env, n, false, x), CommandedIn(env(n).before, x), Commanded(env, n, true, x));
    }
  }

  lemma FatePass(cfg: Config, f: State, env: nat -> EvictionPass, picks: seq<string>, p: string, x: string, was: Execution)
    requires x in f.executions && p in f.executions && LeaseLapsed(f.executions[p], f.highWater)
    requires Fate(env, picks, true, x, was, f.executions[x], f.highWater) && (picks != [] ==> env(|picks| - 1).stopped)
    ensures var t := Evicted(cfg, f, p, env(|picks|));
      Grown(f, t, x) && Fate(env, picks + [p], false, x, was, t.executions[x], t.highWater)
  {
    hide Evicted, ReportedIn, CommandedIn, Reported, Commanded, LeaseFailed, Restored;
    var n, t := |picks|, Evicted(cfg, f, p, env(|picks|));
    var more := picks + [p];
    assert |more| == n + 1 && more[n] == p && (x in more <==> x in picks || x == p);
    PassFates(cfg, f, p, env(n), x);
    NamedSoFar(env, n, x);
    if x == p {
      if x !in picks { FateOwnPass(env, picks, x, was, f.executions[x], t.executions[x], f.highWater); }
    } else if x !in picks {
      DisturbsTwice(was, f.executions[x], t.executions[x], Reported(env, n, true, x), ReportedIn(env(n).between, x), Reported(env, n + 1, false, x),
                    Commanded(env, n, true, x), CommandedIn(env(n).between, x), Commanded(env, n + 1, false, x));
    }
  }

  /** The pass over an execution the loop had not picked before. */
  lemma FateOwnPass(env: nat -> EvictionPass, picks: seq<string>, x: string, was: Execution, found: Execution, now: Execution, highWater: Time)
    requires x !in picks && LeaseLapsed(found, highWater)
    requires Disturbs(was, found, Reported(env, |picks|, true, x), Commanded(env, |picks|, true, x))
    requires var p := env(|picks|);
      && (|| (ReportedIn(p.between, x) && Terminal(now.phase)) || CommandedIn(p.between, x)
          || (if p.stopped then LeaseFailed(now) else Restored(found, now)))
      && (p.stopped ==> Terminal(now.phase))
    ensures Fate(env, picks + [x], false, x, was, now, highWater)
  {
    hide ReportedIn, CommandedIn, Reported, Commanded, LeaseFailed, Restored;
    NamedSoFar(env, |picks|, x);
    assert |picks + [x]| == |picks| + 1 && (picks + [x])[|picks|] == x && x in picks + [x];
  }

  lemma {:induction false} PassesFates(cfg: Config, s: State, env: nat -> EvictionPass, picks: seq<string>, x: string)
    requires Lawful(cfg, s, env, picks) && x in s.executions
    ensures var t := AfterPasses(cfg, s, env, picks);
      Grown(s, t, x) && Fate(env, picks, false, x, s.executions[x], t.executions[x], t.highWater)
  {
    hide Found, Evicted, Fate, LeaseLapsed;
    if picks == [] {
      NothingPicked(env, x, s.executions[x], s.highWater);
    } else {
      var n := |picks| - 1;
      var rest, p := picks[..n], picks[n];
      PassesFates(cfg, s, env, rest, x);
      var t := AfterPasses(cfg, s, env, rest);
      FateFound(cfg, t, env, rest, x, s.executions[x]);
      FatePass(cfg, Found(cfg, t, env(n)), env, rest, p, x, s.executions[x]);
      assert picks == rest + [p];
    }
  }

  lemma NothingPicked(env: nat -> EvictionPass, x: string, was: Execution, highWater: Time)
    ensures Fate(env, [], false, x, was, was, highWater)
  {
  }

  /** Where the loop ends: in a pass that has begun and evicts nothing, or after one that evicted. */
  function LoopEnd(cfg: Config, s: State, env: nat -> EvictionPass, picks: seq<string>, begun: bool): State {
    var t := AfterPasses(cfg, s, env, picks);
    if begun then Found(cfg, t, env(|picks|)) else t
  }

  lemma LoopFates(cfg: Config, s: State, env: nat -> EvictionPass, picks: seq<string>, begun: bool, x: string)
    requires Lawful(cfg, s, env, picks) && x in s.executions && (begun && picks != [] ==> env(|picks| - 1).stopped)
    ensures var t := LoopEnd(cfg, s, env, picks, begun);
      Grown(s, t, x) && Fate(env, picks, begun, x, s.executions[x], t.executions[x], t.highWater)
  {
    hide Found, AfterPasses, Lawful, Fate;
    PassesFates(cfg, s, env, picks, x);
    if begun { FateFound(cfg, AfterPasses(cfg, s, env, picks), env, picks, x, s.executions[x]); }
  }

  // ------------------------------------------------------------------ recovery

  datatype RecoveryVisit = RecoveryVisit(cancelled: bool, checked: Time, report: Report, outcome: RuntimeOutcome, now: Time, ok: bool)

  predicate TimelyVisit(v: RecoveryVisit) {
    v.now > UNSET && TimelyReport(v.report)
  }

  /** Whether the runtime's answer makes the visit of `r` give up. */
  predicate GivesUp(r: Execution, v: RecoveryVisit) {
    v.outcome.Broken? || (v.outcome.Conflicting? && (r.phase == Phase.Cancelling || LeaseLapsed(r, v.checked)))
  }

  function Visited(cfg: Config, s: State, x: string, v: RecoveryVisit): State
    requires x in s.executions
  {
    if Terminal(s.executions[x].phase) then s else
    var t := Heard(cfg, s, v.report);
    if x in t.executions then RecoverVisit(cfg, t, x, v.outcome, v.checked, v.now) else t
  }

  /** What a successful visit leaves: ended, or running under a lease that had not lapsed, with the runtime
      having taken it over and reporting on it again. */
  predicate Settles(r: Execution, v: RecoveryVisit) {
    Terminal(r.phase) || (r.phase == Running && r.leaseUntil > v.checked && v.outcome.Ok?)
  }

  /** How an interrupted stop ends: as a lease failure if the stored detail is the lease marker, whoever put it there,
      and otherwise cancelled with that detail. */
  predicate StopResumed(was: Execution, r: Execution) {
    if was.detail == LEASE_EXPIRED then LeaseFailed(r) else r.phase == Cancelled && r.detail == was.detail
  }

  predicate Replaced(s: State, t: State, x: string) {
    x in t.executions && t.executions == s.executions[x := t.executions[x]]
  }

  lemma ReplacedAt(s: State, t: State, x: string, y: string)
    requires Replaced(s, t, x) && x in s.executions && y in s.executions
    ensures t.executions.Keys == s.executions.Keys && x in t.executions && y in t.executions
    ensures y != x ==> t.executions[y] == s.executions[y]
  {
    assert t.executions.Keys == s.executions.Keys + {x};
  }

  lemma FinishAt(cfg: Config, s: State, x: string, phase: Phase, detail: string, now: Time)
    requires x in s.executions
    ensures var t := Finish(cfg, s, x, phase, detail, None, now);
      Replaced(s, t, x) && t.executions[x].phase == phase && t.executions[x].detail == detail
  {
  }

  lemma VisitSettles(cfg: Config, s: State, x: string, v: RecoveryVisit)
    requires x in s.executions && ExecutionShape(x, s.executions[x]) && !GivesUp(s.executions[x], v)
    ensures var t := RecoverVisit(cfg, s, x, v.outcome, v.checked, v.now);
      && Replaced(s, t, x) && Settles(t.executions[x], v)
      && (s.executions[x].phase == Phase.Cancelling ==> StopResumed(s.executions[x], t.executions[x]))
  {
    hide Finish;
    var r := s.executions[x];
    if r.phase == Phase.Cancelling {
      FinishAt(cfg, s, x, if r.detail == LEASE_EXPIRED then Failed else Cancelled, r.detail, v.now);
    } else if LeaseLapsed(r, v.checked) {
      FinishAt(cfg, s, x, Failed, LEASE_EXPIRED, v.now);
    } else if v.outcome.Missing? || v.outcome.Conflicting? {
      FinishAt(cfg, s, x, Failed, v.outcome.detail, v.now);
    }
  }

  lemma VisitFates(cfg: Config, s: State, x: string, v: RecoveryVisit, y: string)
    requires Inv(cfg, s) && x in s.executions && y in s.executions && !GivesUp(s.executions[x], v)
    ensures var t := Visited(cfg, s, x, v);
      && t.executions.Keys == s.executions.Keys && y in t.executions && x in t.executions && Settles(t.executions[x], v)
      && (y != x ==> t.executions[y] == s.executions[y] || Terminal(t.executions[y].phase))
      && (y != x && !Names(v.report, y) ==> t.executions[y] == s.executions[y])
      && (s.executions[x].phase == Phase.Cancelling && !Names(v.report, x) ==> StopResumed(s.executions[x], t.executions[x]))
      && (Terminal(s.executions[x].phase) ==> t == s)
  {
    ShapeAt(cfg, s, x);
    hide Inv, Heard, RecoverVisit, Settles, Replaced, StopResumed, GivesUp, ExecutionShape;
    if Terminal(s.executions[x].phase) {
      assert Settles(s.executions[x], v) by { SettledEnd(s.executions[x], v); }
    } else {
      var s1 := Heard(cfg, s, v.report);
      HeardFates(cfg, s, v.report, x);
      HeardFates(cfg, s, v.report, y);
      if s1.executions[x] == s.executions[x] {
        VisitSettles(cfg, s1, x, v);
        ReplacedAt(s1, RecoverVisit(cfg, s1, x, v.outcome, v.checked, v.now), x, y);
      } else {
        VisitEnded(cfg, s1, x, v);
        SettledEnd(s1.executions[x], v);
      }
    }
  }

  /** Recovery gives up on an execution exactly when the visit would leave it neither ended nor running under its lease. */
  lemma GivesUpExactly(cfg: Config, s: State, x: string, v: RecoveryVisit)
    requires Inv(cfg, s) && x in s.executions && !Terminal(s.executions[x].phase)
    ensures var t := RecoverVisit(cfg, s, x, v.outcome, v.checked, v.now);
      x in t.executions && (GivesUp(s.executions[x], v) <==> !Settles(t.executions[x], v))
  {
    hide Inv, RecoverVisit, GivesUp, ExecutionShape;
    ShapeAt(cfg, s, x);
    if GivesUp(s.executions[x], v) { GaveUp(cfg, s, x, v); } else { VisitSettles(cfg, s, x, v); }
  }

  lemma GaveUp(cfg: Config, s: State, x: string, v: RecoveryVisit)
    requires x in s.executions && !Terminal(s.executions[x].phase) && GivesUp(s.executions[x], v)
    ensures RecoverVisit(cfg, s, x, v.outcome, v.checked, v.now) == s && !v.outcome.Ok?
  {
    hide Finish, Touch, SetExecution;
  }

  lemma SettledEnd(r: Execution, v: RecoveryVisit)
    requires Terminal(r.phase)
    ensures Settles(r, v)
  {
  }

  lemma VisitEnded(cfg: Config, s: State, x: string, v: RecoveryVisit)
    requires x in s.executions && Terminal(s.executions[x].phase)
    ensures RecoverVisit(cfg, s, x, v.outcome, v.checked, v.now) == s
  {
  }

  lemma ShapeAt(cfg: Config, s: State, x: string)
    requires Inv(cfg, s) && x in s.executions
    ensures ExecutionShape(x, s.executions[x])
  {
    hide Offered, Indexed, Paired, LedgerExact, WithinLimits, Budgeted, QuotasKept, ReplaySound;
  }
}
