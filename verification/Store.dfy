/** The `sandboxes` table: one record per sandbox, every UPDATE as a guarded row transition,
    and the two list queries that drive deletion and expiry. */
module Store {
  import opened Base
  import opened Names

  datatype Desired = WantActive | WantDeleted

  datatype Lifecycle =
    | Creating | Pending | Running | Succeeded | Failed
    | Stopped | Terminating | Unknown | Lost | Deleted

  datatype PodPhase =
    | PhaseNone | PhasePending | PhaseRunning | PhaseSucceeded | PhaseFailed | PhaseUnknown

  datatype Policy = NoPolicy | Delete | Retain

  /** `deletion_phase` is a text column, so a value outside the six known phases can be stored. */
  datatype Phase =
    | Unset | Requested | QuiescingRuntime | DeletingStorage
    | ForceCleanup | Verifying | Completed | Other(text: string)

  datatype Record = Record(
    id: Id,
    templateName: string,
    templateVersion: int,
    ttl: int,
    desired: Desired,
    lifecycle: Lifecycle,
    reason: string,
    podUid: string,
    podPhase: PodPhase,
    podIp: string,
    lastSeen: Option<Time>,
    namespace: string,
    persistent: bool,
    size: string,
    storageClass: string,
    claim: string,
    policy: Policy,
    runtimeName: string,
    phase: Phase,
    startedAt: Option<Time>,
    lastAttempt: Option<Time>,
    nextRetry: Option<Time>,
    attempts: int,
    forceLevel: int,
    lastError: string,
    createdAt: Time,
    expiresAt: Time,
    updatedAt: Time,
    deletedAt: Option<Time>,
    stoppedAt: Option<Time>)

  type Rows = map<Id, Record>

  /** Object names stored in a record are the ones derived from its id. */
  predicate WellNamed(r: Record) {
    r.persistent ==> r.runtimeName == RuntimeName(r.id) && r.claim == ClaimName(r.id)
  }

  datatype Stmt =
    | Insert(rec: Record)
    | MarkDeletionRequested(id: Id, now: Time)
    | AdvancePhase(id: Id, phase: Phase, now: Time)
    | RecordAttempt(id: Id, attempts: int, level: int, last: Option<Time>, next: Option<Time>, err: string, now: Time)
    | MarkCompleted(id: Id, why: string, now: Time)
    | UpdateStatus(id: Id, status: Lifecycle, why: string, now: Time)
    | UpdateStatusIfActive(id: Id, status: Lifecycle, why: string, now: Time)
    | SetStopped(id: Id, now: Time)
    | SetStarted(id: Id, expires: Time, now: Time)
    | EnsureStoppedAt(id: Id, now: Time)
    | UpdateObserved(id: Id, uid: string, pod: PodPhase, ip: string, status: Lifecycle, why: string, now: Time)
    | UpdateObservedIfActive(id: Id, uid: string, pod: PodPhase, ip: string, status: Lifecycle, why: string, now: Time)
    | Purge(cutoff: Time)

  /** The WHERE clause of the IfActive statements. */
  predicate IsLive(r: Record) {
    r.desired == WantActive && r.lifecycle != Deleted
  }

  predicate Purgeable(r: Record, cutoff: Time) {
    r.lifecycle == Deleted && (r.phase == Completed || r.phase == Unset)
    && r.deletedAt.Some? && r.deletedAt.value < cutoff
  }

  function Coalesce(a: Option<Time>, b: Time): Option<Time> {
    if a.Some? then a else Some(b)
  }

  function Observed(r: Record, uid: string, pod: PodPhase, ip: string, status: Lifecycle, why: string,
      now: Time): Record {
    r.(podUid := uid, podPhase := pod, podIp := ip, lifecycle := status, reason := why,
       lastSeen := Some(now), updatedAt := now)
  }

  /** Effect of a single-row UPDATE on the row it names. */
  function RowAfter(s: Stmt, r: Record): Record {
    match s
    case Insert(_) => r
    case Purge(_) => r
    case MarkDeletionRequested(_, now) =>
      if r.lifecycle == Deleted then r
      else r.(desired := WantDeleted, lifecycle := Terminating, reason := "delete requested", deletedAt := None,
              phase := Requested, startedAt := Coalesce(r.startedAt, now), lastAttempt := None,
              nextRetry := Some(now), attempts := 0, forceLevel := 0, lastError := "", updatedAt := now)
    case AdvancePhase(_, p, now) => r.(phase := p, updatedAt := now)
    case RecordAttempt(_, n, level, last, next, err, now) =>
      r.(lastAttempt := last, nextRetry := next, attempts := n, forceLevel := level, lastError := err, updatedAt := now)
    case MarkCompleted(_, why, now) =>
      r.(desired := WantDeleted, lifecycle := Deleted, reason := why, deletedAt := Some(now), updatedAt := now,
         phase := Completed, nextRetry := None, lastError := "")
    case UpdateStatus(_, status, why, now) => r.(lifecycle := status, reason := why, updatedAt := now)
    case UpdateStatusIfActive(_, status, why, now) =>
      if IsLive(r) then r.(lifecycle := status, reason := why, updatedAt := now) else r
    case SetStopped(_, now) =>
      r.(lifecycle := Stopped, reason := "stopped by request", stoppedAt := Some(now),
         podPhase := PhaseNone, podIp := "", podUid := "", updatedAt := now)
    case SetStarted(_, expires, now) =>
      r.(lifecycle := Pending, reason := "start requested", stoppedAt := None, expiresAt := expires, updatedAt := now)
    case EnsureStoppedAt(_, now) => r.(stoppedAt := Coalesce(r.stoppedAt, now), updatedAt := now)
    case UpdateObserved(_, uid, pod, ip, status, why, now) => Observed(r, uid, pod, ip, status, why, now)
    case UpdateObservedIfActive(_, uid, pod, ip, status, why, now) =>
      if IsLive(r) then Observed(r, uid, pod, ip, status, why, now) else r
  }

  /** Effect of one statement on the table. `id` is the primary key, so a second Insert fails. */
  function Apply(s: Stmt, rows: Rows): Rows {
    match s
    case Insert(rec) => if rec.id in rows then rows else rows[rec.id := rec]
    case Purge(cutoff) => map id | id in rows && !Purgeable(rows[id], cutoff) :: rows[id]
    case _ => if s.id in rows then rows[s.id := RowAfter(s, rows[s.id])] else rows
  }

  function ApplyAll(ss: seq<Stmt>, rows: Rows): Rows {
    if ss == [] then rows else ApplyAll(ss[1..], Apply(ss[0], rows))
  }

  /** Selection of `ListPendingDeletion`. */
  predicate PendingDeletion(r: Record, now: Time) {
    && r.desired == WantDeleted
    && r.lifecycle != Deleted
    && r.phase != Completed
    && (r.nextRetry.None? || r.nextRetry.value <= now)
  }

  /** Selection of `ListExpiredActive`. */
  predicate ExpiredActive(r: Record, now: Time) {
    && r.desired == WantActive
    && r.ttl > 0
    && r.expiresAt <= now
    && r.lifecycle !in {Deleted, Terminating, Stopped}
  }

  /** Identity and storage settings of a sandbox: fixed when its row is inserted. */
  datatype Static = Static(persistent: bool, claim: string, policy: Policy, runtimeName: string, ttl: int,
      createdAt: Time)

  function StaticOf(r: Record): Static {
    Static(r.persistent, r.claim, r.policy, r.runtimeName, r.ttl, r.createdAt)
  }

  lemma RowAfterKeepsStatic(s: Stmt, r: Record)
    ensures StaticOf(RowAfter(s, r)) == StaticOf(r) && RowAfter(s, r).id == r.id
  {
  }

  /** A deletion request starts the deletion over, whatever an earlier one had got to, but keeps the
      instant of the first request; it means nothing to a deleted row. */
  lemma RequestStartsOver(r: Record, now: Time)
    ensures var r' := RowAfter(MarkDeletionRequested(r.id, now), r);
            if r.lifecycle == Deleted then r' == r
            else
              && r'.desired == WantDeleted && r'.lifecycle == Terminating && r'.reason == "delete requested"
              && r'.phase == Requested && r'.forceLevel == 0 && r'.attempts == 0 && r'.lastError == ""
              && r'.lastAttempt == None && r'.nextRetry == Some(now) && r'.deletedAt == None
              && r'.startedAt == Some(if r.startedAt.Some? then r.startedAt.value else now)
              && PendingDeletion(r', now) && !PendingDeletion(r', now - 1)
  {
  }

  /** A completion ends it: the row says so, and no query of the workers selects it any more. */
  lemma CompletionEndsIt(r: Record, why: string, at: Time, now: Time)
    ensures var r' := RowAfter(MarkCompleted(r.id, why, at), r);
            && r'.desired == WantDeleted && r'.lifecycle == Deleted && r'.phase == Completed
            && r'.reason == why && r'.deletedAt == Some(at) && r'.nextRetry == None && r'.lastError == ""
            && r'.startedAt == r.startedAt && r'.attempts == r.attempts && r'.forceLevel == r.forceLevel
            && !PendingDeletion(r', now) && !ExpiredActive(r', now)
            && (Purgeable(r', now) <==> at < now)
  {
  }

  /** The workers never compete for a row: whatever the clocks, the deletion worker's, the cleaner's and
      the purge's selections are disjoint, and a due deletion is due at every later instant. */
  lemma SelectionsAreDisjoint(r: Record, a: Time, b: Time, c: Time)
    ensures !(PendingDeletion(r, a) && ExpiredActive(r, b))
    ensures !(PendingDeletion(r, a) && Purgeable(r, c))
    ensures !(ExpiredActive(r, b) && Purgeable(r, c))
    ensures a <= b ==> (PendingDeletion(r, a) ==> PendingDeletion(r, b))
    ensures a <= b ==> (ExpiredActive(r, a) ==> ExpiredActive(r, b))
    ensures a <= b ==> (Purgeable(r, a) ==> Purgeable(r, b))
  {
  }

  /** The primary key of a row is the id it stores. */
  predicate Keyed(rows: Rows) {
    forall id :: id in rows ==> rows[id].id == id
  }

  /** Every row once, in some order. */
  ghost predicate Lists(recs: seq<Record>, rows: Rows) {
    && (forall i :: 0 <= i < |recs| ==> recs[i].id in rows && rows[recs[i].id] == recs[i])
    && (forall i, j :: 0 <= i < j < |recs| ==> recs[i].id != recs[j].id)
    && (forall id :: id in rows ==> rows[id] in recs)
  }

  // ----- Deletion is absorbing --------------------------------------------------------------

  /** Once a row is wanted deleted it is either on its way out or gone. */
  predicate OnItsWayOut(r: Record) {
    r.desired == WantDeleted ==> r.lifecycle == Terminating || r.lifecycle == Deleted
  }

  /** What no later write may undo. */
  predicate Absorbed(r: Record, r': Record) {
    && (r.desired == WantDeleted ==> r'.desired == WantDeleted)
    && (r.lifecycle == Deleted ==> r'.lifecycle == Deleted)
    && (r.startedAt.Some? ==> r'.startedAt == r.startedAt)
    && (OnItsWayOut(r) ==> OnItsWayOut(r'))
  }

  /** The statements that set `lifecycle_status` without looking at the row: the last write of
      Create, Restart, Stop and Start. */
  predicate Unguarded(s: Stmt) {
    s.UpdateStatus? || s.SetStopped? || s.SetStarted? || s.UpdateObserved?
  }

  /** The statements of the delete call, TTL cleaner, startup monitor, post-creation tasks,
      reconciler, deletion service and purge. */
  predicate WorkerStmt(s: Stmt) {
    !Unguarded(s) && !s.Insert?
  }

  function StatusWritten(s: Stmt): Lifecycle
    requires Unguarded(s)
  {
    match s
    case SetStopped(_, _) => Stopped
    case SetStarted(_, _, _) => Pending
    case _ => s.status
  }

  lemma AbsorbedTransitive(a: Record, b: Record, c: Record)
    requires Absorbed(a, b) && Absorbed(b, c)
    ensures Absorbed(a, c)
  {
  }

  /** Under any interleaving of worker statements, whatever their arguments and however stale the
      reads behind them, deletion is absorbing for every row that is still in the table. */
  lemma {:induction false} DeletionIsAbsorbing(rows: Rows, ss: seq<Stmt>)
    requires forall s :: s in ss ==> WorkerStmt(s)
    ensures ApplyAll(ss, rows).Keys <= rows.Keys
    ensures forall id :: id in ApplyAll(ss, rows) ==> Absorbed(rows[id], ApplyAll(ss, rows)[id])
  {
    if ss == [] {
    } else {
      assert WorkerStmt(ss[0]);
      var next := Apply(ss[0], rows);
      DeletionIsAbsorbing(next, ss[1..]);
      forall id | id in ApplyAll(ss, rows) ensures Absorbed(rows[id], ApplyAll(ss, rows)[id]) {
        AbsorbedTransitive(rows[id], next[id], ApplyAll(ss, rows)[id]);
      }
    }
  }

  /** The API writes respect absorption exactly when the row is not yet wanted deleted, unless the
      status they carry happens to agree with it. */
  lemma UnguardedWriteAbsorbsIff(s: Stmt, r: Record)
    requires Unguarded(s) && OnItsWayOut(r)
    ensures Absorbed(r, RowAfter(s, r)) <==>
            (r.lifecycle == Deleted ==> StatusWritten(s) == Deleted) &&
            (r.desired == WantDeleted ==> StatusWritten(s) in {Terminating, Deleted})
  {
  }

  /** A row that was completed and then overwritten by a late Stop, Start or Restart. */
  predicate Zombie(r: Record) {
    r.desired == WantDeleted && r.phase == Completed && r.lifecycle != Deleted
  }

  lemma LateApiWriteMakesZombie(s: Stmt, r: Record)
    requires Unguarded(s) && StatusWritten(s) != Deleted
    requires r.desired == WantDeleted && r.phase == Completed
    ensures Zombie(RowAfter(s, r))
  {
  }

  /** The statements that bring a zombie back or finish it off. */
  predicate EndsZombie(s: Stmt) {
    match s
    case MarkDeletionRequested(_, _) => true
    case MarkCompleted(_, _, _) => true
    case AdvancePhase(_, p, _) => p != Completed
    case UpdateStatus(_, status, _, _) => status == Deleted
    case UpdateObserved(_, _, _, _, status, _, _) => status == Deleted
    case _ => false
  }

  lemma ZombieEndsIff(s: Stmt, r: Record)
    requires Zombie(r)
    ensures Zombie(RowAfter(s, r)) <==> !EndsZombie(s)
  {
  }

  /** No sequence of other statements, on this row or any other, frees a zombie: the row stays in the
      table, a zombie, and neither the pending query nor the expiry query nor the purge selects it.
      Only the reconciler's full listing still shows it. */
  lemma {:induction false} ZombiesAreStuck(rows: Rows, ss: seq<Stmt>, id: Id)
    requires id in rows && Zombie(rows[id])
    requires forall s :: s in ss && !s.Insert? && !s.Purge? && s.id == id ==> !EndsZombie(s)
    ensures id in ApplyAll(ss, rows) && Zombie(ApplyAll(ss, rows)[id])
    ensures forall now :: !PendingDeletion(ApplyAll(ss, rows)[id], now) && !ExpiredActive(ApplyAll(ss, rows)[id], now)
    ensures forall cutoff :: !Purgeable(ApplyAll(ss, rows)[id], cutoff)
    decreases |ss|
  {
    if ss != [] {
      var s := ss[0];
      assert s in ss;
      ZombieEndsIff(s, rows[id]);
      ZombiesAreStuck(Apply(s, rows), ss[1..], id);
    }
  }

  // ----- The table as an object -------------------------------------------------------------

  /** `SandboxStore`. Every method may fail on the database side, in which case it changes nothing;
      a reliable store never does. */
  class SandboxStore {
    const reliable: bool
    var rows: Rows

    constructor (reliable: bool)
      ensures rows == map[] && this.reliable == reliable
    {
      this.reliable := reliable;
      rows := map[];
    }

    method InsertRow(rec: Record) returns (ok: bool)
      modifies this
      ensures rows == if ok then Apply(Insert(rec), old(rows)) else old(rows)
      ensures reliable && rec.id !in old(rows) ==> ok
      ensures ok ==> rec.id !in old(rows)
    {
      var fault := Fault(reliable);
      ok := !fault && rec.id !in rows;
      if ok {
        rows := rows[rec.id := rec];
      }
    }

    method RequestDeletion(id: Id, now: Time) returns (ok: bool)
      modifies this
      ensures rows == if ok then Apply(MarkDeletionRequested(id, now), old(rows)) else old(rows)
      ensures reliable ==> ok
      ensures id in old(rows) ==> Absorbed(old(rows)[id], rows[id])
      ensures ok && id in old(rows) && old(rows)[id].lifecycle != Deleted ==> PendingDeletion(rows[id], now)
    {
      var fault := Fault(reliable);
      ok := !fault;
      if ok && id in rows && rows[id].lifecycle != Deleted {
        var r := rows[id];
        var started := if r.startedAt.Some? then r.startedAt else Some(now);
        rows := rows[id := r.(desired := WantDeleted, lifecycle := Terminating, reason := "delete requested",
                              deletedAt := None, phase := Requested, startedAt := started, lastAttempt := None,
                              nextRetry := Some(now), attempts := 0, forceLevel := 0, lastError := "",
                              updatedAt := now)];
      }
    }

    method Advance(id: Id, phase: Phase, now: Time) returns (ok: bool)
      modifies this
      ensures rows == if ok then Apply(AdvancePhase(id, phase, now), old(rows)) else old(rows)
      ensures reliable ==> ok
      ensures id in old(rows) ==> Absorbed(old(rows)[id], rows[id])
    {
      var fault := Fault(reliable);
      ok := !fault;
      if ok && id in rows {
        rows := rows[id := rows[id].(phase := phase, updatedAt := now)];
      }
    }

    method Attempt(id: Id, attempts: int, level: int, last: Option<Time>, next: Option<Time>, err: string, now: Time)
      returns (ok: bool)
      modifies this
      ensures rows == if ok then Apply(RecordAttempt(id, attempts, level, last, next, err, now), old(rows))
          else old(rows)
      ensures reliable ==> ok
      ensures id in old(rows) ==> Absorbed(old(rows)[id], rows[id])
    {
      var fault := Fault(reliable);
      ok := !fault;
      if ok && id in rows {
        rows := rows[id := rows[id].(lastAttempt := last, nextRetry := next, attempts := attempts,
                                     forceLevel := level, lastError := err, updatedAt := now)];
      }
    }

    method Complete(id: Id, why: string, now: Time) returns (ok: bool)
      modifies this
      ensures rows == if ok then Apply(MarkCompleted(id, why, now), old(rows)) else old(rows)
      ensures reliable ==> ok
      ensures id in old(rows) ==> Absorbed(old(rows)[id], rows[id])
    {
      var fault := Fault(reliable);
      ok := !fault;
      if ok && id in rows {
        rows := rows[id := rows[id].(desired := WantDeleted, lifecycle := Deleted, reason := why,
                                     deletedAt := Some(now), updatedAt := now,
                                     phase := Completed, nextRetry := None, lastError := "")];
      }
    }

    /** Reports whether a row was written, like the affected-rows count. */
    method StatusIfActive(id: Id, status: Lifecycle, why: string, now: Time) returns (updated: bool)
      modifies this
      ensures rows == if updated then Apply(UpdateStatusIfActive(id, status, why, now), old(rows)) else old(rows)
      ensures updated ==> id in old(rows) && IsLive(old(rows)[id])
      ensures reliable && id in old(rows) && IsLive(old(rows)[id]) ==> updated
      ensures id in old(rows) ==> Absorbed(old(rows)[id], rows[id])
    {
      var fault := Fault(reliable);
      updated := !fault && id in rows && rows[id].desired == WantActive && rows[id].lifecycle != Deleted;
      if updated {
        rows := rows[id := rows[id].(lifecycle := status, reason := why, updatedAt := now)];
      }
    }

    method ObservedIfActive(id: Id, uid: string, pod: PodPhase, ip: string, status: Lifecycle, why: string, now: Time)
      returns (updated: bool)
      modifies this
      ensures rows == if updated then Apply(UpdateObservedIfActive(id, uid, pod, ip, status, why, now), old(rows))
          else old(rows)
      ensures updated ==> id in old(rows) && IsLive(old(rows)[id])
      ensures reliable && id in old(rows) && IsLive(old(rows)[id]) ==> updated
      ensures id in old(rows) ==> Absorbed(old(rows)[id], rows[id])
    {
      var fault := Fault(reliable);
      updated := !fault && id in rows && rows[id].desired == WantActive && rows[id].lifecycle != Deleted;
      if updated {
        rows := rows[id := rows[id].(podUid := uid, podPhase := pod, podIp := ip, lifecycle := status, reason := why,
                                     lastSeen := Some(now), updatedAt := now)];
      }
    }

    method BackfillStoppedAt(id: Id, now: Time) returns (ok: bool)
      modifies this
      ensures rows == if ok then Apply(EnsureStoppedAt(id, now), old(rows)) else old(rows)
      ensures reliable ==> ok
      ensures id in old(rows) ==> Absorbed(old(rows)[id], rows[id])
    {
      var fault := Fault(reliable);
      ok := !fault;
      if ok && id in rows {
        var r := rows[id];
        rows := rows[id := r.(stoppedAt := if r.stoppedAt.None? then Some(now) else r.stoppedAt, updatedAt := now)];
      }
    }

    /** Unconditional status write that ends Restart. */
    method WriteStatus(id: Id, status: Lifecycle, why: string, now: Time) returns (ok: bool)
      modifies this
      ensures rows == if ok then Apply(UpdateStatus(id, status, why, now), old(rows)) else old(rows)
      ensures reliable ==> ok
    {
      var fault := Fault(reliable);
      ok := !fault;
      if ok && id in rows {
        rows := rows[id := rows[id].(lifecycle := status, reason := why, updatedAt := now)];
      }
    }

    method WriteStopped(id: Id, now: Time) returns (ok: bool)
      modifies this
      ensures rows == if ok then Apply(SetStopped(id, now), old(rows)) else old(rows)
      ensures reliable ==> ok
    {
      var fault := Fault(reliable);
      ok := !fault;
      if ok && id in rows {
        rows := rows[id := rows[id].(lifecycle := Stopped, reason := "stopped by request", stoppedAt := Some(now),
                                     podPhase := PhaseNone, podIp := "", podUid := "", updatedAt := now)];
      }
    }

    method WriteStarted(id: Id, expires: Time, now: Time) returns (ok: bool)
      modifies this
      ensures rows == if ok then Apply(SetStarted(id, expires, now), old(rows)) else old(rows)
      ensures reliable ==> ok
    {
      var fault := Fault(reliable);
      ok := !fault;
      if ok && id in rows {
        rows := rows[id := rows[id].(lifecycle := Pending, reason := "start requested", stoppedAt := None,
                                     expiresAt := expires, updatedAt := now)];
      }
    }

    method ListRows() returns (recs: seq<Record>)
      requires Keyed(rows)
      ensures Lists(recs, rows)
    {
      recs := [];
      var todo := rows.Keys;
      while todo != {}
        invariant todo <= rows.Keys
        invariant forall i :: 0 <= i < |recs| ==>
            recs[i].id in rows && recs[i].id !in todo && rows[recs[i].id] == recs[i]
        invariant forall i, j :: 0 <= i < j < |recs| ==> recs[i].id != recs[j].id
        invariant forall id :: id in rows && id !in todo ==> rows[id] in recs
        decreases |todo|
      {
        var id :| id in todo;
        recs := recs + [rows[id]];
        todo := todo - {id};
      }
    }

    /** Deletes the rows of finished deletions older than the cutoff. */
    method PurgeHistory(cutoff: Time) returns (ok: bool, purged: set<Id>)
      modifies this
      ensures rows == if ok then Apply(Purge(cutoff), old(rows)) else old(rows)
      ensures forall id :: id in purged <==>
                && ok && id in old(rows)
                && old(rows)[id].lifecycle == Deleted && old(rows)[id].phase in {Completed, Unset}
                && old(rows)[id].deletedAt.Some? && old(rows)[id].deletedAt.value < cutoff
      ensures forall id :: id in old(rows) && id !in purged ==> id in rows && rows[id] == old(rows)[id]
      ensures forall id :: id in rows ==> id in old(rows) && id !in purged
      ensures forall id :: id in purged ==> old(rows)[id].lifecycle == Deleted
      ensures reliable ==> ok
    {
      var fault := Fault(reliable);
      if fault {
        return false, {};
      }
      ok := true;
      purged := set id | id in rows && rows[id].lifecycle == Deleted
                         && (rows[id].phase == Completed || rows[id].phase == Unset)
                         && rows[id].deletedAt.Some? && rows[id].deletedAt.value < cutoff;
      rows := rows - purged;
    }
  }
}
