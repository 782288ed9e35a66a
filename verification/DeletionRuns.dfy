/** What holds of one record over every sequence of deletion passes: the phase graph, the force
    levels, and how fast an empty cluster lets a deletion finish. */
module DeletionRuns {
  import opened Base
  import opened Store
  import opened Cluster
  import opened Deletion

  /** One pass of the worker over the record, broken off after `made` calls. `Blind` is a pass that
      could not read the cluster. Snapshots and clocks are arbitrary. */
  datatype Pass =
    | Sighted(snap: Snapshot, now: Time, later: Time, made: nat)
    | Blind(now: Time, failure: string, made: nat)

  function Intended(r: Record, p: Pass): seq<Action> {
    match p
    case Sighted(s, now, later, _) => Plan(r, s, now, later)
    case Blind(now, failure, _) => [Db(AttemptStmt(r, now)), Db(AttemptStmt(r, now).(err := failure))]
  }

  function Made(r: Record, p: Pass): seq<Action> {
    var all := Intended(r, p);
    if p.made <= |all| then all[..p.made] else all
  }

  predicate Whole(r: Record, p: Pass) {
    p.Sighted? && p.made >= |Intended(r, p)|
  }

  /** The row part of a list of calls that all concern this row. */
  function RowAct(actions: seq<Action>, r: Record): Record {
    if actions == [] then r
    else RowAct(actions[1..], if actions[0].Db? then RowAfter(actions[0].stmt, r) else r)
  }

  function AfterPass(r: Record, p: Pass): Record {
    RowAct(Made(r, p), r)
  }

  /** The states a record goes through. */
  predicate IsRun(trace: seq<Record>, ps: seq<Pass>) {
    |trace| == |ps| + 1 && forall i {:trigger ps[i]} :: 0 <= i < |ps| ==> trace[i + 1] == AfterPass(trace[i], ps[i])
  }

  /** Cluster calls issued by a pass. */
  predicate Silent(r: Record, p: Pass) {
    forall a :: a in Made(r, p) ==> a.Db?
  }

  // ----- The row a pass leaves --------------------------------------------------------------

  lemma {:induction false} RowActAppend(xs: seq<Action>, ys: seq<Action>, r: Record)
    ensures RowAct(xs + ys, r) == RowAct(ys, RowAct(xs, r))
  {
    if xs == [] {
      assert xs + ys == ys;
    } else {
      assert (xs + ys)[1..] == xs[1..] + ys;
      RowActAppend(xs[1..], ys, if xs[0].Db? then RowAfter(xs[0].stmt, r) else r);
    }
  }

  lemma {:induction false} RowActCalls(xs: seq<Action>, r: Record)
    requires forall a :: a in xs ==> a.K8s?
    ensures RowAct(xs, r) == r
  {
    if xs != [] {
      assert xs[0] in xs;
      RowActCalls(xs[1..], r);
    }
  }

  lemma RowActOne(a: Action, r: Record)
    ensures RowAct([a], r) == if a.Db? then RowAfter(a.stmt, r) else r
  {
    assert RowAct([a][1..], if a.Db? then RowAfter(a.stmt, r) else r) == if a.Db? then RowAfter(a.stmt, r) else r;
  }

  lemma RowActTwo(a: Stmt, b: Stmt, r: Record)
    ensures RowAct([Db(a), Db(b)], r) == RowAfter(b, RowAfter(a, r))
  {
    assert [Db(a), Db(b)] == [Db(a)] + [Db(b)];
    RowActAppend([Db(a)], [Db(b)], r);
    RowActOne(Db(a), r);
    RowActOne(Db(b), RowAfter(a, r));
  }

  /** The row after the first `j` statements of a decision. */
  function AfterStmts(ss: seq<Stmt>, j: nat, r: Record): Record
    requires j <= |ss| <= 2
  {
    if j == 0 then r
    else if j == 1 then RowAfter(ss[0], r)
    else RowAfter(ss[1], RowAfter(ss[0], r))
  }

  /** A broken-off pass leaves the row untouched, or counted, or counted and then moved by a prefix
      of the handler's statements. */
  lemma PassOutcome(r: Record, p: Pass) returns (j: nat)
    requires p.Sighted?
    ensures var d := Handle(Attempted(r, p.now), p.snap, p.now, p.later);
            && j <= |d.stmts| <= 2
            && (AfterPass(r, p) == r || AfterPass(r, p) == AfterStmts(d.stmts, j, RowAfter(AttemptStmt(r, p.now), r)))
            && (Whole(r, p) ==> AfterPass(r, p) == AfterStmts(d.stmts, |d.stmts|, RowAfter(AttemptStmt(r, p.now), r)))
  {
    var d := Handle(Attempted(r, p.now), p.snap, p.now, p.later);
    var all := Intended(r, p);
    var first := [Db(AttemptStmt(r, p.now))];
    var calls, writes := Calls(d.ops), Writes(d.stmts);
    var made := Made(r, p);
    var r1 := RowAfter(AttemptStmt(r, p.now), r);
    j := 0;
    if p.made == 0 {
      assert made == [];
    } else if p.made <= 1 + |calls| {
      var some := calls[..p.made - 1];
      assert made == first + some;
      RowActAppend(first, some, r);
      RowActOne(first[0], r);
      RowActCalls(some, r1);
      if Whole(r, p) {
        assert |writes| == 0;
      }
    } else {
      j := if p.made - 1 - |calls| <= |writes| then p.made - 1 - |calls| else |writes|;
      var some := writes[..j];
      assert made == first + calls + some;
      RowActAppend(first + calls, some, r);
      RowActAppend(first, calls, r);
      RowActOne(first[0], r);
      RowActCalls(calls, r1);
      if j == 1 {
        assert some == [Db(d.stmts[0])];
        RowActOne(some[0], r1);
      } else if j == 2 {
        assert some == [Db(d.stmts[0]), Db(d.stmts[1])];
        RowActTwo(d.stmts[0], d.stmts[1], r1);
      }
    }
  }

  lemma BlindOutcome(r: Record, p: Pass)
    requires p.Blind?
    ensures AfterPass(r, p).phase == r.phase && AfterPass(r, p).forceLevel == r.forceLevel
    ensures AfterPass(r, p).startedAt == r.startedAt && AfterPass(r, p).lifecycle == r.lifecycle
  {
    var a, b := AttemptStmt(r, p.now), AttemptStmt(r, p.now).(err := p.failure);
    if p.made == 0 {
      assert Made(r, p) == [];
    } else if p.made == 1 {
      assert Made(r, p) == [Db(a)];
      RowActOne(Db(a), r);
    } else {
      assert Made(r, p) == [Db(a), Db(b)];
      RowActTwo(a, b, r);
    }
  }

  // ----- Escalation -------------------------------------------------------------------------

  predicate Late(p: Phase) {
    p == ForceCleanup || p == Verifying || p == Completed
  }

  /** The arrows of the deletion state machine. */
  predicate Edge(p: Phase, q: Phase) {
    match p
    case Unset => q == QuiescingRuntime
    case Requested => q == QuiescingRuntime
    case QuiescingRuntime => q in {DeletingStorage, ForceCleanup, Verifying}
    case DeletingStorage => q in {ForceCleanup, Verifying}
    case ForceCleanup => q == Verifying
    case Verifying => q in {ForceCleanup, Completed}
    case Completed => false
    case Other(_) => q == Requested
  }

  /** Levels only rise once force cleanup has begun. */
  predicate Sound(r: Record) {
    0 <= r.forceLevel <= 3 && (r.forceLevel > 0 ==> Late(r.phase))
  }

  /** The only ways a handler writes its row. */
  predicate Move(r: Record, ss: seq<Stmt>, now: Time, later: Time) {
    || ss == []
    || ss == [ReadyNow(r, later)]
    || (|ss| == 2 && ss[0].AdvancePhase? && Edge(r.phase, ss[0].phase) && ss[0].phase != Completed
        && ss == EnterPhase(r, ss[0].phase, later))
    || (r.phase == ForceCleanup && r.forceLevel in {0, 1, 2} && ss == BumpLevel(r, r.forceLevel + 1, now))
    || (r.phase == Verifying && ss == [MarkCompleted(r.id, "delete completed", now)])
  }

  lemma HandlersOnlyMove(r: Record, s: Snapshot, now: Time, later: Time)
    ensures Move(r, Handle(r, s, now, later).stmts, now, later)
  {
  }

  /** What one pass may do to a sound record. */
  predicate OneStep(r: Record, r': Record) {
    && Sound(r')
    && (r'.phase == r.phase || Edge(r.phase, r'.phase))
    && r.forceLevel <= r'.forceLevel <= r.forceLevel + 1
    && (r'.forceLevel > r.forceLevel ==> r.phase == ForceCleanup && r'.phase == ForceCleanup)
    && (Late(r.phase) ==> Late(r'.phase))
  }

  lemma OnePassIsDisciplined(r: Record, p: Pass, r': Record)
    requires Sound(r) && r' == AfterPass(r, p)
    ensures OneStep(r, r')
  {
    if p.Blind? {
      BlindOutcome(r, p);
    } else {
      var j := PassOutcome(r, p);
      HandlersOnlyMove(Attempted(r, p.now), p.snap, p.now, p.later);
    }
  }

  lemma TopLevelIsSilent(r: Record, p: Pass)
    requires Sound(r) && r.forceLevel == 3
    ensures Silent(r, p)
    ensures Whole(r, p) && r.phase == ForceCleanup ==> AfterPass(r, p).phase == Verifying
    ensures Whole(r, p) && r.phase == Verifying ==>
              AfterPass(r, p).phase == if Residue(r, p.snap) then ForceCleanup else Completed
  {
    if p.Sighted? {
      var j := PassOutcome(r, p);
      assert Handle(Attempted(r, p.now), p.snap, p.now, p.later).ops == [];
    }
  }

  /** What `n` passes may do to a sound record. */
  predicate Disciplined(a: Record, b: Record, n: int) {
    && Sound(a) && Sound(b)
    && (Late(a.phase) ==> Late(b.phase))
    && a.forceLevel <= b.forceLevel <= a.forceLevel + n
  }

  lemma {:induction false} StepsAreDisciplined(trace: seq<Record>, i: nat, j: nat)
    requires i <= j < |trace| && Sound(trace[i])
    requires forall k {:trigger trace[k]} :: 0 <= k < |trace| - 1 && Sound(trace[k]) ==> OneStep(trace[k], trace[k + 1])
    ensures Disciplined(trace[i], trace[j], j - i)
    decreases j
  {
    if i < j {
      StepsAreDisciplined(trace, i, j - 1);
      assert OneStep(trace[j - 1], trace[j]);
    }
  }

  lemma RunIsDisciplinedAt(trace: seq<Record>, ps: seq<Pass>, k: nat)
    requires IsRun(trace, ps) && k < |ps| && Sound(trace[k])
    ensures OneStep(trace[k], trace[k + 1])
  {
    OnePassIsDisciplined(trace[k], ps[k], trace[k + 1]);
  }

  /** Escalation discipline, for every sequence of passes over arbitrary cluster views, broken off
      anywhere: each pass follows an arrow of the phase graph or stays, no early phase is re-entered
      once force cleanup was reached, the level rises at most once per pass and never beyond 3, and
      from level 3 on no cluster call is ever made again. */
  lemma EscalationDiscipline(trace: seq<Record>, ps: seq<Pass>, i: nat, j: nat)
    requires IsRun(trace, ps) && i <= j < |ps| && Sound(trace[i])
    ensures Disciplined(trace[i], trace[j], j - i)
    ensures trace[j + 1].phase == trace[j].phase || Edge(trace[j].phase, trace[j + 1].phase)
    ensures trace[i].forceLevel == 3 ==> Silent(trace[j], ps[j])
  {
    forall k | 0 <= k < |ps| && Sound(trace[k]) ensures OneStep(trace[k], trace[k + 1]) {
      RunIsDisciplinedAt(trace, ps, k);
    }
    StepsAreDisciplined(trace, i, j);
    if trace[i].forceLevel == 3 {
      TopLevelIsSilent(trace[j], ps[j]);
    }
  }

  // ----- Termination ------------------------------------------------------------------------

  predicate EmptySnapshot(s: Snapshot) {
    s.deployment.None? && s.pods == [] && s.pvc.None? && s.pv.None? && s.attachments == []
  }

  /** Passes left until completion when there is nothing left to delete. */
  function Rank(r: Record): (n: nat)
    ensures n <= 5
  {
    match r.phase
    case Completed => 0
    case Verifying => 1
    case QuiescingRuntime => 2
    case DeletingStorage => 2
    case ForceCleanup =>
      if r.forceLevel == 0 then 5 else if r.forceLevel == 1 then 4 else if r.forceLevel == 2 then 3 else 2
    case Other(_) => 4
    case _ => 3
  }

  /** With nothing to delete, a handler makes no call and moves the row one rank down. */
  lemma EmptyHandlerMovesDown(r: Record, s: Snapshot, now: Time, later: Time)
    requires EmptySnapshot(s) && r.phase != Completed
    ensures var ss := Handle(r, s, now, later).stmts;
            && 1 <= |ss| <= 2
            && (r.phase == Verifying ==> ss == [MarkCompleted(r.id, "delete completed", now)])
            && (r.phase != Verifying ==> AfterStmts(ss, |ss|, r).phase != Completed)
            && Rank(AfterStmts(ss, |ss|, r)) == Rank(r) - 1
  {
  }

  predicate Down(r: Record, r': Record) {
    Rank(r') == Rank(r) - 1 && (r'.phase == Completed ==> r'.lifecycle == Deleted && r'.desired == WantDeleted)
  }

  lemma EmptyPassLowersRank(r: Record, p: Pass, r': Record)
    requires Whole(r, p) && EmptySnapshot(p.snap) && r.phase != Completed && r' == AfterPass(r, p)
    ensures Down(r, r')
  {
    var j := PassOutcome(r, p);
    EmptyHandlerMovesDown(Attempted(r, p.now), p.snap, p.now, p.later);
  }

  lemma {:induction false} RankCountsDown(trace: seq<Record>, i: nat)
    requires i < |trace| == Rank(trace[0]) + 1
    requires forall k {:trigger trace[k]} :: 0 <= k < |trace| - 1 && trace[k].phase != Completed ==>
        Down(trace[k], trace[k + 1])
    ensures Rank(trace[i]) == Rank(trace[0]) - i
    ensures i == Rank(trace[0]) > 0 ==> trace[i].lifecycle == Deleted && trace[i].desired == WantDeleted
  {
    if i > 0 {
      RankCountsDown(trace, i - 1);
      assert Down(trace[i - 1], trace[i]);
    }
  }

  /** From any phase, known or not, and any level, a deletion whose objects are gone is recorded as
      completed after exactly `Rank` undisturbed passes, so after at most five, and never before. */
  lemma EmptyClusterCompletes(trace: seq<Record>, ps: seq<Pass>, i: nat)
    requires IsRun(trace, ps) && i <= |ps| == Rank(trace[0])
    requires forall k {:trigger ps[k]} :: 0 <= k < |ps| ==> Whole(trace[k], ps[k]) && EmptySnapshot(ps[k].snap)
    ensures Rank(trace[i]) == Rank(trace[0]) - i
    ensures trace[i].phase == Completed <==> i == Rank(trace[0])
    ensures i == Rank(trace[0]) > 0 ==> trace[i].lifecycle == Deleted && trace[i].desired == WantDeleted
  {
    forall k | 0 <= k < |ps| && trace[k].phase != Completed ensures Down(trace[k], trace[k + 1]) {
      var _ := ps[k];
      EmptyStepDown(trace, ps, k);
    }
    RankCountsDown(trace, i);
  }

  lemma EmptyStepDown(trace: seq<Record>, ps: seq<Pass>, k: nat)
    requires IsRun(trace, ps) && k < |ps| && trace[k].phase != Completed
    requires Whole(trace[k], ps[k]) && EmptySnapshot(ps[k].snap)
    ensures Down(trace[k], trace[k + 1])
  {
    EmptyPassLowersRank(trace[k], ps[k], trace[k + 1]);
  }
}
