/** Stopped time does not count against the TTL: the books kept by Stop, Start, Restart, the
    reconciler and the startup monitor over whole runs of one persistent sandbox. */
module Ttl {
  import opened Base
  import opened Names
  import opened Store
  import opened Cluster
  import opened Startup
  import opened Deletion
  import opened DeletionRuns
  import opened Reconcile
  import opened SandboxApi
  import opened StartupMonitor

  /** A persistent sandbox with its Deployment, of which only the replica count matters here. */
  datatype Sandbox = Sandbox(row: Record, replicas: int)

  /** `Watch` is the guarded write of the startup monitor or of a post-creation task, which may come
      at any time and carry any status and pod. */
  datatype Step =
    | StopCall(now: Time)
    | StartCall(now: Time)
    | RestartCall(now: Time)
    | Pass(now: Time, sight: Sighting)
    | Watch(now: Time, seen: Conclusion)

  /** Only Stop and Start change the replica count, and only if their guards let them. */
  function After(s: Sandbox, step: Step): Sandbox {
    var r := s.row;
    match step
    case StopCall(now) =>
      if StopRule(r) == Done then Sandbox(RowAfter(SetStopped(r.id, now), r), 0) else s
    case StartCall(now) =>
      if StartRule(r) == Done then Sandbox(RowAfter(SetStarted(r.id, StartedExpiry(r, now), now), r), 1) else s
    case RestartCall(now) =>
      if RestartRule(r) == Done then
          Sandbox(RowAfter(UpdateStatus(r.id, Pending, "restart requested", now), r), s.replicas) else s
    case Pass(now, sight) => Sandbox(RowAct(ReconcilePersistent(r, sight, now).actions, r), s.replicas)
    case Watch(now, seen) => Sandbox(RowAfter(WriteOf(r.id, seen, now), r), s.replicas)
  }

  /** The ledger's view of a table and a cluster. */
  function View(rows: Rows, c: State, id: Id): Option<Sandbox> {
    if id in rows && RuntimeName(id) in c.deployments && c.deployments[RuntimeName(id)].replicas.Some?
    then Some(Sandbox(rows[id], c.deployments[RuntimeName(id)].replicas.value)) else None
  }

  /** The calls do to table and cluster what the ledger's steps do to its view of them: Stop, Start and
      Restart by the new state that their contracts promise on success, and nothing when their rules
      refuse. */
  lemma CallsFollowTheLedger(rows: Rows, c: State, id: Id, now: Time)
    requires View(rows, c, id).Some? && rows[id].id == id
    ensures var s := View(rows, c, id).value;
            && (StopVerdict(rows, id) == Done ==>
                  View(Apply(SetStopped(id, now), rows), Scaled(c, id, 0), id) == Some(After(s, StopCall(now))))
            && (StartVerdict(rows, id) == Done ==>
                  View(Apply(SetStarted(id, StartedExpiry(rows[id], now), now), rows), Scaled(c, id, 1), id)
                  == Some(After(s, StartCall(now))))
            && (RestartVerdict(rows, id) == Done ==>
                  forall pod: Option<string> ::
                    View(Apply(UpdateStatus(id, Pending, "restart requested", now), rows),
                         if pod.Some? then ApplyOp(c, DeletePod(pod.value)) else c, id)
                    == Some(After(s, RestartCall(now))))
            && (StopVerdict(rows, id) != Done ==> After(s, StopCall(now)) == s)
            && (StartVerdict(rows, id) != Done ==> After(s, StartCall(now)) == s)
            && (RestartVerdict(rows, id) != Done ==> After(s, RestartCall(now)) == s)
  {
  }

  /** A pass sees the Deployment as it is. */
  predicate Sees(s: Sandbox, step: Step) {
    step.Pass? ==> step.sight.deployment.Some? && step.sight.deployment.value.replicas == Some(s.replicas)
  }

  /** The instant of the i-th state: creation, then the clock of each step. */
  function Clock(trace: seq<Sandbox>, steps: seq<Step>, i: nat): Time
    requires |trace| > 0 && i <= |steps|
  {
    if i == 0 then trace[0].row.createdAt else steps[i - 1].now
  }

  /** A run from creation: the clock never goes back, and the run is shorter than 292 years, so
      that no duration saturates. */
  ghost predicate IsRun(trace: seq<Sandbox>, steps: seq<Step>) {
    && |trace| == |steps| + 1
    && Created(trace[0])
    && (forall i {:trigger steps[i]} :: 0 <= i < |steps| ==>
          && trace[i + 1] == After(trace[i], steps[i])
          && Sees(trace[i], steps[i])
          && Clock(trace, steps, i) <= steps[i].now < trace[0].row.createdAt + TWO_63)
  }

  predicate Created(s: Sandbox) {
    s.replicas == 1 && s.row.stoppedAt.None? && s.row.expiresAt == ComputeExpires(s.row.createdAt, s.row.ttl)
  }

  /** Reference: the time with no replica up to the i-th instant, read off the replica counts. */
  ghost function Down(trace: seq<Sandbox>, steps: seq<Step>, i: nat): int
    requires |trace| == |steps| + 1 && i <= |steps|
  {
    if i == 0 then 0
    else Down(trace, steps, i - 1) +
         (if trace[i - 1].replicas == 0 then steps[i - 1].now - Clock(trace, steps, i - 1) else 0)
  }

  /** The part of it that belongs to the current, unfinished stop. */
  function Ongoing(s: Sandbox, now: Time): int {
    if s.row.stoppedAt.Some? then now - s.row.stoppedAt.value else 0
  }

  predicate StopsAgain(s: Sandbox, step: Step) {
    step.StopCall? && StopRule(s.row) == Done && s.row.stoppedAt.Some?
  }

  /** Stopped time forgotten because Stop was accepted for a sandbox that was already stopped. */
  ghost function Forgotten(trace: seq<Sandbox>, steps: seq<Step>, i: nat): int
    requires |trace| == |steps| + 1 && i <= |steps|
  {
    if i == 0 then 0
    else Forgotten(trace, steps, i - 1) +
         (if StopsAgain(trace[i - 1], steps[i - 1]) then Ongoing(trace[i - 1], steps[i - 1].now) else 0)
  }

  predicate Consistent(s: Sandbox, base: Time, now: Time) {
    && base <= now
    && (s.row.stoppedAt.Some? <==> s.replicas == 0)
    && (s.row.stoppedAt.Some? ==> base <= s.row.stoppedAt.value <= now)
  }

  // ----- One step ---------------------------------------------------------------------------

  /** Statements that leave the deadline and a remembered stop alone. */
  predicate KeepsBooks(a: Action) {
    a.Db? ==> !a.stmt.SetStopped? && !a.stmt.SetStarted?
  }

  lemma {:induction false} ActionsKeepBooks(actions: seq<Action>, r: Record)
    requires forall a :: a in actions ==> KeepsBooks(a)
    requires r.stoppedAt.None? ==> forall a :: a in actions && a.Db? ==> !a.stmt.EnsureStoppedAt?
    ensures RowAct(actions, r).expiresAt == r.expiresAt && RowAct(actions, r).stoppedAt == r.stoppedAt
  {
    if actions != [] {
      var a := actions[0];
      assert a in actions;
      var r1 := if a.Db? then RowAfter(a.stmt, r) else r;
      ActionsKeepBooks(actions[1..], r1);
    }
  }

  lemma PassKeepsBooks(r: Record, s: Sighting, now: Time)
    requires s.deployment.Some? && (r.stoppedAt.None? ==> s.deployment.value.replicas != Some(0))
    ensures var r' := RowAct(ReconcilePersistent(r, s, now).actions, r);
            r'.expiresAt == r.expiresAt && r'.stoppedAt == r.stoppedAt
  {
    ActionsKeepBooks(ReconcilePersistent(r, s, now).actions, r);
  }

  /** What a step adds: the deadline moves by exactly the stopped time that ends, minus what a
      repeated stop forgets. */
  predicate Kept(s: Sandbox, step: Step, s': Sandbox, base: Time, before: Time) {
    && Consistent(s', base, step.now)
    && s'.row.ttl == s.row.ttl
    && s'.row.expiresAt + Ongoing(s', step.now) + (if StopsAgain(s, step) then Ongoing(s, step.now) else 0)
       == s.row.expiresAt + Ongoing(s, before) + (if s.replicas == 0 then step.now - before else 0)
  }

  lemma StepKeepsBooks(s: Sandbox, step: Step, s': Sandbox, base: Time, before: Time)
    requires Consistent(s, base, before) && Sees(s, step) && before <= step.now < base + TWO_63 && s' == After(s, step)
    ensures Kept(s, step, s', base, before)
  {
    if step.Pass? {
      PassKeepsBooks(s.row, step.sight, step.now);
      RowActKeepsStatic(ReconcilePersistent(s.row, step.sight, step.now).actions, s.row);
      assert StaticOf(s'.row).ttl == StaticOf(s.row).ttl;
    } else if step.Watch? {
      MonitorWriteIsAbsorbed(s.row.id, step.seen, s.row, step.now);
      RowAfterKeepsStatic(WriteOf(s.row.id, step.seen, step.now), s.row);
      assert StaticOf(s'.row).ttl == StaticOf(s.row).ttl;
    }
  }

  lemma RunKeepsBooksAt(trace: seq<Sandbox>, steps: seq<Step>, k: nat)
    requires IsRun(trace, steps) && k < |steps| && Consistent(trace[k], trace[0].row.createdAt, Clock(trace, steps, k))
    ensures Kept(trace[k], steps[k], trace[k + 1], trace[0].row.createdAt, Clock(trace, steps, k))
  {
    StepKeepsBooks(trace[k], steps[k], trace[k + 1], trace[0].row.createdAt, Clock(trace, steps, k));
  }

  lemma {:induction false} KeptBooksBalance(trace: seq<Sandbox>, steps: seq<Step>, base: Time, i: nat)
    requires |trace| == |steps| + 1 && i <= |steps| && base == trace[0].row.createdAt && Created(trace[0])
    requires forall k {:trigger steps[k]} :: 0 <= k < |steps| && Consistent(trace[k], base, Clock(trace, steps, k)) ==>
               Kept(trace[k], steps[k], trace[k + 1], base, Clock(trace, steps, k))
    ensures Consistent(trace[i], base, Clock(trace, steps, i)) && trace[i].row.ttl == trace[0].row.ttl
    ensures trace[i].row.expiresAt + Ongoing(trace[i], Clock(trace, steps, i)) + Forgotten(trace, steps, i)
         == trace[0].row.expiresAt + Down(trace, steps, i)
  {
    if i > 0 {
      KeptBooksBalance(trace, steps, base, i - 1);
      var _ := steps[i - 1];
    }
  }

  lemma BooksBalance(trace: seq<Sandbox>, steps: seq<Step>, i: nat)
    requires IsRun(trace, steps) && i <= |steps|
    ensures Consistent(trace[i], trace[0].row.createdAt, Clock(trace, steps, i)) && trace[i].row.ttl == trace[0].row.ttl
    ensures trace[i].row.expiresAt + Ongoing(trace[i], Clock(trace, steps, i)) + Forgotten(trace, steps, i)
         == trace[0].row.expiresAt + Down(trace, steps, i)
  {
    var base := trace[0].row.createdAt;
    forall k | 0 <= k < |steps| && Consistent(trace[k], base, Clock(trace, steps, k))
      ensures Kept(trace[k], steps[k], trace[k + 1], base, Clock(trace, steps, k))
    {
      RunKeepsBooksAt(trace, steps, k);
    }
    KeptBooksBalance(trace, steps, base, i);
  }

  // ----- Main results -----------------------------------------------------------------------

  /** In every run, at every step: the deadline is creation plus TTL plus the completed stopped
      time, less what repeated stops forgot. So stopped time is conserved exactly when no accepted
      Stop found a stop still running. */
  lemma TtlConservation(trace: seq<Sandbox>, steps: seq<Step>, i: nat)
    requires IsRun(trace, steps) && i <= |steps|
    ensures var completed := Down(trace, steps, i) - Ongoing(trace[i], Clock(trace, steps, i));
            && trace[i].row.expiresAt == ComputeExpires(trace[0].row.createdAt, trace[0].row.ttl) +
                completed - Forgotten(trace, steps, i)
            && 0 <= Forgotten(trace, steps, i)
            && (Forgotten(trace, steps, i) == 0 <==>
                  forall k {:trigger steps[k]} :: 0 <= k < i && StopsAgain(trace[k], steps[k]) ==>
                      Ongoing(trace[k], steps[k].now) == 0)
  {
    BooksBalance(trace, steps, i);
    forall k {:trigger steps[k]} | 0 <= k < |steps| && StopsAgain(trace[k], steps[k])
        ensures 0 <= Ongoing(trace[k], steps[k].now) {
      NothingNegative(trace, steps, k);
    }
    ForgottenIffAgain(trace, steps, i);
  }

  lemma {:induction false} ForgottenIffAgain(trace: seq<Sandbox>, steps: seq<Step>, i: nat)
    requires |trace| == |steps| + 1 && i <= |steps|
    requires forall k {:trigger steps[k]} :: 0 <= k < |steps| && StopsAgain(trace[k], steps[k]) ==>
        0 <= Ongoing(trace[k], steps[k].now)
    ensures 0 <= Forgotten(trace, steps, i)
    ensures Forgotten(trace, steps, i) == 0 <==>
            forall k {:trigger steps[k]} :: 0 <= k < i && StopsAgain(trace[k], steps[k]) ==>
                Ongoing(trace[k], steps[k].now) == 0
  {
    if i > 0 {
      ForgottenIffAgain(trace, steps, i - 1);
      var _ := steps[i - 1];
    }
  }

  lemma NothingNegative(trace: seq<Sandbox>, steps: seq<Step>, k: nat)
    requires IsRun(trace, steps) && k < |steps| && StopsAgain(trace[k], steps[k])
    ensures 0 <= Ongoing(trace[k], steps[k].now)
  {
    BooksBalance(trace, steps, k);
  }

  /** No monitor or post-creation task writes during the run. */
  ghost predicate Unwatched(steps: seq<Step>) {
    forall k :: 0 <= k < |steps| ==> !steps[k].Watch?
  }

  /** A stopped sandbox whose row says so, or is no longer live. */
  predicate SaysSo(s: Sandbox) {
    s.row.stoppedAt.Some? ==> s.row.lifecycle == Stopped || !IsLive(s.row)
  }

  lemma {:induction false} AlwaysSaysSo(trace: seq<Sandbox>, i: nat)
    requires i < |trace| && SaysSo(trace[0])
    requires forall k {:trigger trace[k]} :: 0 <= k < |trace| - 1 && SaysSo(trace[k]) ==> SaysSo(trace[k + 1])
    ensures SaysSo(trace[i])
  {
    if i > 0 {
      AlwaysSaysSo(trace, i - 1);
      var _ := trace[i - 1];
    }
  }

  /** Without monitor writes a stopped sandbox always says so, hence nothing is ever forgotten. */
  lemma StoppedSaysSo(trace: seq<Sandbox>, steps: seq<Step>, i: nat)
    requires IsRun(trace, steps) && i <= |steps| && Unwatched(steps)
    ensures SaysSo(trace[i]) && Forgotten(trace, steps, i) == 0
  {
    forall k {:trigger trace[k]} | 0 <= k < |steps| && SaysSo(trace[k]) ensures SaysSo(trace[k + 1]) {
      BooksBalance(trace, steps, k);
      StopStaysVisible(trace[k], steps[k], trace[k + 1]);
    }
    forall k {:trigger steps[k]} | 0 <= k < |steps| ensures !StopsAgain(trace[k], steps[k]) {
      AlwaysSaysSo(trace, k);
    }
    AlwaysSaysSo(trace, i);
    ForgottenIffAgain(trace, steps, i);
  }

  lemma StopStaysVisible(s: Sandbox, step: Step, s': Sandbox)
    requires Sees(s, step) && !step.Watch? && s' == After(s, step)
    requires (s.row.stoppedAt.Some? <==> s.replicas == 0) && SaysSo(s)
    ensures SaysSo(s')
  {
    if step.Pass? {
      PassKeepsBooks(s.row, step.sight, step.now);
      if s.row.stoppedAt.Some? && IsLive(s.row) {
        StoppedResult(s.row, step.sight.pod, step.now);
      } else if s.row.stoppedAt.Some? {
        DeadRowsStayDead(s.row, step.sight, step.now);
      }
    }
  }

  lemma DeadRowsStayDead(r: Record, s: Sighting, now: Time)
    requires !IsLive(r) && s.deployment.Some?
    ensures !IsLive(RowAct(ReconcilePersistent(r, s, now).actions, r))
  {
    if r.desired == WantActive {
      if TreatAsStopped(r, s) {
        StoppedResult(r, s.pod, now);
      } else {
        StartupResult(r, s, now);
      }
    }
  }

  /** The TTL cleaner's decision at any later instant, in terms of the time the sandbox was up. */
  lemma ExpiresExactlyOnUptime(trace: seq<Sandbox>, steps: seq<Step>, i: nat, now: Time)
    requires IsRun(trace, steps) && i <= |steps| && Clock(trace, steps, i) <= now
    requires 0 < trace[0].row.ttl <= 9223372036
    requires IsLive(trace[i].row) && trace[i].row.lifecycle !in {Stopped, Terminating}
    requires Unwatched(steps)
    ensures var uptime := now - trace[0].row.createdAt - Down(trace, steps, i);
            ExpiredActive(trace[i].row, now) <==> uptime >= trace[0].row.ttl * SECOND
  {
    BooksBalance(trace, steps, i);
    StoppedSaysSo(trace, steps, i);
    ExpiryIsExactIff(trace[0].row.createdAt, trace[0].row.ttl);
  }

  /** The forgetting is real: a monitor that reports late lets a second Stop through, and the first
      hour of the stop is lost. */
  lemma LateMonitorForgetsAnHour(r: Record) returns (trace: seq<Sandbox>, steps: seq<Step>)
    requires IsLive(r) && r.persistent && r.lifecycle == Running
    requires r.createdAt == 0 && r.ttl == 7200 && r.stoppedAt.None? && r.expiresAt == 7200 * SECOND
    ensures IsRun(trace, steps) && |steps| == 5
    ensures steps == [StopCall(0), Watch(0, Conclusion(None, Running, "")), StopCall(3600 * SECOND),
        StartCall(3600 * SECOND), RestartCall(7200 * SECOND)]
    ensures Down(trace, steps, 5) == 3600 * SECOND
    ensures trace[5].row.expiresAt == 7200 * SECOND && ExpiredActive(trace[5].row, 7200 * SECOND)
  {
    steps := [StopCall(0), Watch(0, Conclusion(None, Running, "")), StopCall(3600 * SECOND), StartCall(3600 * SECOND),
        RestartCall(7200 * SECOND)];
    var s0 := Sandbox(r, 1);
    var s1 := After(s0, steps[0]);
    var s2 := After(s1, steps[1]);
    var s3 := After(s2, steps[2]);
    var s4 := After(s3, steps[3]);
    var s5 := After(s4, steps[4]);
    trace := [s0, s1, s2, s3, s4, s5];
    assert Down(trace, steps, 1) == 0;
    assert Down(trace, steps, 2) == 0;
    assert Down(trace, steps, 3) == 3600 * SECOND;
    assert Down(trace, steps, 4) == 3600 * SECOND;
  }
}
