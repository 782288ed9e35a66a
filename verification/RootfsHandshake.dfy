/** The rootfs handshake: the wrapper in the main container announces a generation and waits; the
    helper container mounts an overlay into the wrapper's mount namespace and acknowledges through
    files. Either process may die and be restarted between any two steps. */
module RootfsHandshake {
  import opened Base

  /** Where the wrapper is: it clears its files, announces itself, waits, has seen the mount, runs
      the command, and after the command asks for the unmount. `Gone` is no wrapper at all. */
  datatype MainPc = Prep | WriteInfo | Wait | Saw | Launched | Finished | Asked | Gone

  /** Where the helper is. `last` means that it exits after this cleanup. */
  datatype HelperPc =
    | Top
    | RemoveMounted(g: nat) | RemoveFailed(g: nat) | RemoveUnmounted(g: nat)
    | MountOverlay(g: nat) | MountRest(g: nat) | TouchMounted(g: nat) | TouchFailed(g: nat)
    | CheckStop
    | Umount(g: nat, last: bool) | TouchUnmounted(g: nat, last: bool) | RemoveStop(g: nat, last: bool)
    | CheckAlive | CheckTerm
    | HelperGone

  /** Generations are numbered in the order the wrappers start. `gen` is the current wrapper's, and
      a generation stands for its process, so an overlay lives in at most one namespace. */
  datatype Pod = Pod(
    next: nat, gen: nat, main: MainPc, signalled: bool,
    info: Option<nat>, mountedFiles: set<nat>, failedFiles: set<nat>, stopFiles: set<nat>, unmountedFiles: set<nat>,
    mounted: set<nat>,
    helper: HelperPc, current: Option<nat>, termRequested: bool)

  datatype Step =
    | StartMain | ClearOwn | Announce | FindMounted | FailOrTimeOut | Launch | ChildExits | AskUnmount | ExitMain
    | KillMain | TermMain
    | ReadInfo | RmMounted | RmFailed | RmUnmounted | DoMount | DoMountRest | MountFails | AckMount | AckFailure
    | LookForStop | DoUmount | AckUmount | RmStop | LookForDeath | LookForTerm
    | KillHelper | TermHelper | RestartHelper

  predicate Alive(s: Pod) {
    !s.main.Gone?
  }

  predicate BeforeLaunch(s: Pod) {
    s.main.Prep? || s.main.WriteInfo? || s.main.Wait? || s.main.Saw?
  }

  predicate Enabled(s: Pod, e: Step) {
    match e
    case StartMain => s.main.Gone?
    case ClearOwn => s.main.Prep?
    case Announce => s.main.WriteInfo?
    case FindMounted => s.main.Wait? && s.gen in s.mountedFiles
    case FailOrTimeOut => s.main.Wait?
    case Launch => s.main.Saw?
    case ChildExits => s.main.Launched?
    case AskUnmount => s.main.Finished?
    case ExitMain => s.main.Asked?
    case KillMain => Alive(s)
    case TermMain => Alive(s)
    case ReadInfo => s.helper.Top?
    case RmMounted => s.helper.RemoveMounted?
    case RmFailed => s.helper.RemoveFailed?
    case RmUnmounted => s.helper.RemoveUnmounted?
    case DoMount => s.helper.MountOverlay? && Alive(s) && s.gen == s.helper.g
    case DoMountRest => s.helper.MountRest? && Alive(s) && s.gen == s.helper.g
    case MountFails => s.helper.MountOverlay? || s.helper.MountRest?
    case AckMount => s.helper.TouchMounted?
    case AckFailure => s.helper.TouchFailed?
    case LookForStop => s.helper.CheckStop?
    case DoUmount => s.helper.Umount?
    case AckUmount => s.helper.TouchUnmounted?
    case RmStop => s.helper.RemoveStop?
    case LookForDeath => s.helper.CheckAlive?
    case LookForTerm => s.helper.CheckTerm?
    case KillHelper => !s.helper.HelperGone?
    case TermHelper => !s.helper.HelperGone?
    case RestartHelper => s.helper.HelperGone?
  }

  /** The wrapper's death takes its mount namespace with it. */
  function Died(s: Pod): Pod {
    s.(main := Gone, mounted := s.mounted - {s.gen})
  }

  function AfterMain(s: Pod, e: Step): Pod {
    match e
    case StartMain => s.(gen := s.next, next := s.next + 1, main := Prep, signalled := s.termRequested)
    case ClearOwn =>
      s.(mountedFiles := s.mountedFiles - {s.gen}, failedFiles := s.failedFiles - {s.gen},
         stopFiles := s.stopFiles - {s.gen}, unmountedFiles := s.unmountedFiles - {s.gen}, main := WriteInfo)
    case Announce => s.(info := Some(s.gen), main := Wait)
    case FindMounted => s.(main := Saw)
    case Launch => s.(main := Launched)
    case ChildExits => s.(main := Finished)
    case AskUnmount => s.(stopFiles := s.stopFiles + {s.gen}, main := Asked)
    case TermMain => s.(stopFiles := s.stopFiles + {s.gen}, signalled := s.signalled || BeforeLaunch(s))
    case _ => Died(s)
  }

  function AfterHelper(s: Pod, e: Step): Pod
    requires Enabled(s, e)
  {
    match e
    case ReadInfo =>
      if s.info.Some? && s.info != s.current then s.(current := s.info, helper := RemoveMounted(s.info.value))
      else s.(helper := CheckStop)
    case RmMounted => s.(mountedFiles := s.mountedFiles - {s.helper.g}, helper := RemoveFailed(s.helper.g))
    case RmFailed => s.(failedFiles := s.failedFiles - {s.helper.g}, helper := RemoveUnmounted(s.helper.g))
    case RmUnmounted => s.(unmountedFiles := s.unmountedFiles - {s.helper.g}, helper := MountOverlay(s.helper.g))
    case DoMount => s.(mounted := s.mounted + {s.helper.g}, helper := MountRest(s.helper.g))
    case DoMountRest => s.(helper := TouchMounted(s.helper.g))
    case MountFails => s.(helper := TouchFailed(s.helper.g))
    case AckMount => s.(mountedFiles := s.mountedFiles + {s.helper.g}, helper := CheckStop)
    case AckFailure => s.(failedFiles := s.failedFiles + {s.helper.g}, current := None, helper := CheckStop)
    case LookForStop =>
      if s.current.Some? && s.current.value in s.stopFiles then s.(helper := Umount(s.current.value, false))
      else s.(helper := CheckAlive)
    case DoUmount => s.(mounted := s.mounted - {s.helper.g}, helper := TouchUnmounted(s.helper.g, s.helper.last))
    case AckUmount =>
      s.(unmountedFiles := s.unmountedFiles + {s.helper.g}, helper := RemoveStop(s.helper.g, s.helper.last))
    case RmStop =>
      s.(stopFiles := s.stopFiles - {s.helper.g}, current := None,
         helper := if s.helper.last then HelperGone else CheckAlive)
    case LookForDeath =>
      if s.current.Some? && !(Alive(s) && s.gen == s.current.value)
      then s.(unmountedFiles := s.unmountedFiles + {s.current.value}, current := None, helper := CheckTerm)
      else s.(helper := CheckTerm)
    case LookForTerm =>
      if !s.termRequested then s.(helper := Top)
      else if s.current.Some? then s.(helper := Umount(s.current.value, true))
      else s.(helper := HelperGone)
    case KillHelper => s.(helper := HelperGone)
    case TermHelper => s.(termRequested := true, signalled := s.signalled || BeforeLaunch(s))
    case RestartHelper => s.(helper := Top, current := None, termRequested := false)
    case _ => s
  }

  predicate ByMain(e: Step) {
    e.StartMain? || e.ClearOwn? || e.Announce? || e.FindMounted? || e.FailOrTimeOut? || e.Launch? || e.ChildExits?
    || e.AskUnmount? || e.ExitMain? || e.KillMain? || e.TermMain?
  }

  function After(s: Pod, e: Step): Pod
    requires Enabled(s, e)
  {
    if ByMain(e) then AfterMain(s, e) else AfterHelper(s, e)
  }

  /** A pod whose init container has cleared the control directory. */
  function Fresh(): Pod {
    Pod(0, 0, Gone, false, None, {}, {}, {}, {}, {}, HelperGone, None, false)
  }

  ghost predicate IsRun(trace: seq<Pod>, steps: seq<Step>) {
    && |trace| == |steps| + 1
    && trace[0] == Fresh()
    && (forall i {:trigger steps[i]} :: 0 <= i < |steps| ==>
        Enabled(trace[i], steps[i]) && trace[i + 1] == After(trace[i], steps[i]))
  }

  // ----- Invariants -------------------------------------------------------------------------

  predicate Below(xs: set<nat>, n: nat) {
    forall x :: x in xs ==> x < n
  }

  /** The generation the helper is working on. */
  function Subject(h: HelperPc): Option<nat> {
    match h
    case Top => None
    case CheckStop => None
    case CheckAlive => None
    case CheckTerm => None
    case HelperGone => None
    case _ => Some(h.g)
  }

  /** Nobody knows a generation before its wrapper starts. */
  predicate NoneAhead(s: Pod) {
    && (Alive(s) ==> s.gen < s.next)
    && Below(s.mountedFiles, s.next) && Below(s.stopFiles, s.next) && Below(s.unmountedFiles, s.next) &&
        Below(s.mounted, s.next)
    && (s.info.Some? ==> s.info.value < s.next)
    && (s.current.Some? ==> s.current.value < s.next)
    && (Subject(s.helper).Some? ==> Subject(s.helper).value < s.next)
  }

  /** Only the living wrapper's namespace holds an overlay, and an acknowledged unmount is true. */
  predicate UnmountsAreTrue(s: Pod) {
    && (forall g :: g in s.mounted ==> Alive(s) && g == s.gen)
    && (forall g :: g in s.unmountedFiles ==> g !in s.mounted)
    && (s.helper.MountOverlay? || s.helper.MountRest? || s.helper.TouchMounted? ==> s.helper.g !in s.unmountedFiles)
    && (s.helper.TouchUnmounted? ==> s.helper.g !in s.mounted)
  }

  /** Until it launches, an unsignalled wrapper can trust its mounted file. */
  predicate MountsAreTrue(s: Pod) {
    BeforeLaunch(s) && !s.signalled ==>
      && !s.termRequested
      && s.gen !in s.stopFiles
      && !(s.helper.Umount? && s.helper.g == s.gen)
      && (s.gen in s.mountedFiles ==> s.gen in s.mounted)
      && ((s.helper.MountRest? || s.helper.TouchMounted?) && s.helper.g == s.gen ==> s.gen in s.mounted)
      && (s.main.Saw? ==> s.gen in s.mounted)
  }

  predicate Inv(s: Pod) {
    NoneAhead(s) && UnmountsAreTrue(s) && MountsAreTrue(s)
  }

  lemma MainStepKeepsInv(s: Pod, e: Step)
    requires Inv(s) && Enabled(s, e) && ByMain(e)
    ensures Inv(AfterMain(s, e))
  {
  }

  lemma HelperStepKeepsNoneAhead(s: Pod, e: Step)
    requires Inv(s) && Enabled(s, e) && !ByMain(e)
    ensures NoneAhead(AfterHelper(s, e))
  {
  }

  lemma HelperStepKeepsUnmounts(s: Pod, e: Step)
    requires Inv(s) && Enabled(s, e) && !ByMain(e)
    ensures UnmountsAreTrue(AfterHelper(s, e))
  {
  }

  lemma HelperStepKeepsMounts(s: Pod, e: Step)
    requires Inv(s) && Enabled(s, e) && !ByMain(e)
    ensures MountsAreTrue(AfterHelper(s, e))
  {
  }

  lemma {:induction false} InvHolds(trace: seq<Pod>, steps: seq<Step>, i: nat)
    requires IsRun(trace, steps) && i <= |steps|
    ensures Inv(trace[i])
  {
    if i > 0 {
      InvHolds(trace, steps, i - 1);
      var s, e := trace[i - 1], steps[i - 1];
      if ByMain(e) {
        MainStepKeepsInv(s, e);
      } else {
        HelperStepKeepsNoneAhead(s, e);
        HelperStepKeepsUnmounts(s, e);
        HelperStepKeepsMounts(s, e);
      }
    }
  }

  // ----- Main results -----------------------------------------------------------------------

  /** In every interleaving, whatever dies and restarts: a wrapper that was not signalled before its
      launch, and whose helper was not either, launches into its own mounted overlay. */
  lemma LaunchIsMounted(trace: seq<Pod>, steps: seq<Step>, i: nat)
    requires IsRun(trace, steps) && i < |steps| && steps[i].Launch? && !trace[i].signalled
    ensures trace[i].gen in trace[i].mounted && trace[i + 1].gen in trace[i + 1].mounted
  {
    InvHolds(trace, steps, i);
  }

  predicate Mounts(s: Pod, e: Step, g: nat) {
    e.DoMount? && s.helper == MountOverlay(g)
  }

  predicate Unmounts(s: Pod, e: Step, g: nat) {
    e.DoUmount? && s.helper.Umount? && s.helper.g == g
  }

  /** What the helper last did to a generation's overlay. */
  datatype Move = Untouched | DidMount | DidUnmount

  function LastMove(trace: seq<Pod>, steps: seq<Step>, i: nat, g: nat): Move
    requires i <= |steps| < |trace|
  {
    if i == 0 then Untouched
    else if Mounts(trace[i - 1], steps[i - 1], g) then DidMount
    else if Unmounts(trace[i - 1], steps[i - 1], g) then DidUnmount
    else LastMove(trace, steps, i - 1, g)
  }

  /** The wrapper of this generation lives, or has yet to start. */
  predicate NotDead(s: Pod, g: nat) {
    s.next <= g || (Alive(s) && s.gen == g)
  }

  lemma OnlyMovesMatter(s: Pod, e: Step, g: nat)
    requires Inv(s) && Enabled(s, e) && NotDead(After(s, e), g)
    ensures NotDead(s, g)
    ensures g in After(s, e).mounted <==> Mounts(s, e, g) || (g in s.mounted && !Unmounts(s, e, g))
  {
  }

  /** As long as a wrapper lives, only the helper's moves bring and take its overlay. */
  lemma {:induction false} MoveHistory(trace: seq<Pod>, steps: seq<Step>, i: nat, g: nat)
    requires IsRun(trace, steps) && i <= |steps| && NotDead(trace[i], g)
    ensures g in trace[i].mounted <==> LastMove(trace, steps, i, g) == DidMount
  {
    if i > 0 {
      InvHolds(trace, steps, i - 1);
      var _ := steps[i - 1];
      OnlyMovesMatter(trace[i - 1], steps[i - 1], g);
      MoveHistory(trace, steps, i - 1, g);
    }
  }

  /** Somebody has been told, or is about to be told, that a generation is mounted. */
  predicate ToldMounted(s: Pod, g: nat) {
    || g in s.mountedFiles || ((s.helper.MountRest? || s.helper.TouchMounted?) && s.helper.g == g)
    || (s.main.Saw? && s.gen == g)
  }

  lemma OnlyMountsTell(s: Pod, e: Step, g: nat)
    requires Enabled(s, e) && ToldMounted(After(s, e), g)
    ensures ToldMounted(s, g) || Mounts(s, e, g)
  {
  }

  lemma {:induction false} TellingFollowsMount(trace: seq<Pod>, steps: seq<Step>, i: nat, g: nat)
    requires IsRun(trace, steps) && i <= |steps| && ToldMounted(trace[i], g)
    ensures LastMove(trace, steps, i, g) != Untouched
  {
    if i > 0 {
      var _ := steps[i - 1];
      OnlyMountsTell(trace[i - 1], steps[i - 1], g);
      if !Mounts(trace[i - 1], steps[i - 1], g) {
        TellingFollowsMount(trace, steps, i - 1, g);
      }
    }
  }

  /** Signals or not: at every launch the helper has mounted the wrapper's overlay before, and it is
      missing exactly when the helper has unmounted it again since, which takes a TERM. */
  lemma LaunchIsMountedIff(trace: seq<Pod>, steps: seq<Step>, i: nat)
    requires IsRun(trace, steps) && i < |steps| && steps[i].Launch?
    ensures LastMove(trace, steps, i, trace[i].gen) == if trace[i].gen in trace[i].mounted then DidMount else DidUnmount
    ensures LastMove(trace, steps, i, trace[i].gen) == DidUnmount ==> trace[i].signalled
  {
    InvHolds(trace, steps, i);
    TellingFollowsMount(trace, steps, i, trace[i].gen);
    MoveHistory(trace, steps, i, trace[i].gen);
  }

  /** An unmount acknowledgement is never premature or stale, signals or not. */
  lemma UnmountedFileIsTrue(trace: seq<Pod>, steps: seq<Step>, i: nat, g: nat)
    requires IsRun(trace, steps) && i <= |steps| && g in trace[i].unmountedFiles
    ensures g !in trace[i].mounted
  {
    InvHolds(trace, steps, i);
  }

  // ----- When an acknowledgement stays ------------------------------------------------------

  /** A wrapper that has not announced itself is unknown to everybody else. */
  predicate Unannounced(s: Pod) {
    s.main.Prep? || s.main.WriteInfo? ==>
      s.info != Some(s.gen) && s.current != Some(s.gen) && Subject(s.helper) != Some(s.gen) &&
          s.gen !in s.unmountedFiles
  }

  lemma MainStepKeepsUnannounced(s: Pod, e: Step)
    requires NoneAhead(s) && Unannounced(s) && Enabled(s, e) && ByMain(e)
    ensures Unannounced(AfterMain(s, e))
  {
  }

  lemma HelperStepKeepsUnannounced(s: Pod, e: Step)
    requires Unannounced(s) && Enabled(s, e) && !ByMain(e)
    ensures Unannounced(AfterHelper(s, e))
  {
  }

  lemma StepKeepsUnannounced(s: Pod, e: Step)
    requires NoneAhead(s) && Unannounced(s) && Enabled(s, e)
    ensures Unannounced(After(s, e))
  {
    if ByMain(e) {
      MainStepKeepsUnannounced(s, e);
    } else {
      HelperStepKeepsUnannounced(s, e);
    }
  }

  lemma {:induction false} UnannouncedHolds(trace: seq<Pod>, steps: seq<Step>, i: nat)
    requires IsRun(trace, steps) && i <= |steps|
    ensures Unannounced(trace[i])
  {
    if i > 0 {
      UnannouncedHolds(trace, steps, i - 1);
      InvHolds(trace, steps, i - 1);
      var _ := steps[i - 1];
      StepKeepsUnannounced(trace[i - 1], steps[i - 1]);
    }
  }

  /** An acknowledgement survives a step exactly when the step is not one of the two that remove it. */
  predicate Removes(s: Pod, e: Step, g: nat) {
    (e.RmUnmounted? && s.helper.RemoveUnmounted? && s.helper.g == g) || (e.ClearOwn? && s.gen == g)
  }

  lemma FileSurvivesIff(s: Pod, e: Step, g: nat)
    requires Enabled(s, e) && g in s.unmountedFiles
    ensures g in After(s, e).unmountedFiles <==> !Removes(s, e, g)
  {
  }

  /** The helper reads the announcement of this generation again. */
  predicate Rereads(s: Pod, e: Step, g: nat) {
    e.ReadInfo? && s.info == Some(g)
  }

  /** The helper is about to mount the generation anew and has not come to the acknowledgement yet. */
  predicate AboutToRemove(h: HelperPc, g: nat) {
    (h.RemoveMounted? || h.RemoveFailed? || h.RemoveUnmounted?) && h.g == g
  }

  predicate Acknowledged(s: Pod, g: nat) {
    && g in s.unmountedFiles && !AboutToRemove(s.helper, g)
    && (s.current == Some(g) ==> (s.helper.RemoveStop? && s.helper.g == g) || s.helper.HelperGone?)
  }

  lemma AcknowledgedStep(s: Pod, e: Step, g: nat)
    requires Unannounced(s) && Enabled(s, e) && Acknowledged(s, g) && !Rereads(s, e, g)
    ensures Acknowledged(After(s, e), g)
  {
    FileSurvivesIff(s, e, g);
  }

  /** From the moment the helper acknowledges an unmount, the acknowledgement is there, and true, in
      every state up to the helper's next reading of an announcement of the same generation. */
  lemma {:induction false} AcknowledgementStays(trace: seq<Pod>, steps: seq<Step>, i: nat, j: nat, g: nat)
    requires IsRun(trace, steps) && i < j <= |steps|
    requires steps[i].AckUmount? && trace[i].helper.g == g
    requires forall k {:trigger steps[k]} :: i < k < j ==> !Rereads(trace[k], steps[k], g)
    ensures Acknowledged(trace[j], g) && g !in trace[j].mounted
    decreases j
  {
    var _ := steps[i];
    if j > i + 1 {
      AcknowledgementStays(trace, steps, i, j - 1, g);
      UnannouncedHolds(trace, steps, j - 1);
      AcknowledgedStep(trace[j - 1], steps[j - 1], g);
    }
    InvHolds(trace, steps, j);
  }

  /** The helper's own moves; a signal only sets a flag. */
  predicate HelperMoves(e: Step) {
    !ByMain(e) && !e.TermHelper?
  }

  function Moves(steps: seq<Step>, from: nat, to: nat): nat
    requires from <= to <= |steps|
  {
    if from == to then 0 else Moves(steps, from, to - 1) + (if HelperMoves(steps[to - 1]) then 1 else 0)
  }

  /** Where the helper is after so many moves of a round that mounts `g` anew. */
  predicate InRound(s: Pod, g: nat, moves: nat) {
    match moves
    case 0 => s.helper == RemoveMounted(g) && g in s.unmountedFiles
    case 1 => s.helper == RemoveFailed(g) && g in s.unmountedFiles
    case 2 => s.helper == RemoveUnmounted(g) && g in s.unmountedFiles
    case _ => s.helper == MountOverlay(g) && g !in s.unmountedFiles
  }

  lemma RoundAdvances(s: Pod, e: Step, g: nat, moves: nat)
    requires Unannounced(s) && Enabled(s, e) && InRound(s, g, moves) && !e.KillHelper?
    requires HelperMoves(e) ==> moves < 3
    ensures InRound(After(s, e), g, if HelperMoves(e) then moves + 1 else moves)
  {
  }

  /** That reading takes the acknowledgement back: it starts a round in which, unless the helper dies,
      the file is there for exactly its next two moves and gone with the third, whatever the wrapper
      does meanwhile. `k` is the first such reading after the acknowledgement. */
  lemma {:induction false} RereadingTakesItBack(trace: seq<Pod>, steps: seq<Step>, i: nat, k: nat, j: nat, g: nat)
    requires IsRun(trace, steps) && i < k < j <= |steps|
    requires steps[i].AckUmount? && trace[i].helper.g == g
    requires forall m {:trigger steps[m]} :: i < m < k ==> !Rereads(trace[m], steps[m], g)
    requires Rereads(trace[k], steps[k], g)
    requires forall m {:trigger steps[m]} :: k < m < j ==> !steps[m].KillHelper?
    requires Moves(steps, k + 1, j) <= 3
    ensures InRound(trace[j], g, Moves(steps, k + 1, j))
    ensures g in trace[j].unmountedFiles <==> Moves(steps, k + 1, j) < 3
    decreases j
  {
    var _ := steps[k];
    if j == k + 1 {
      AcknowledgementStays(trace, steps, i, k, g);
    } else {
      var _ := steps[j - 1];
      RereadingTakesItBack(trace, steps, i, k, j - 1, g);
      UnannouncedHolds(trace, steps, j - 1);
      RoundAdvances(trace[j - 1], steps[j - 1], g, Moves(steps, k + 1, j - 1));
    }
  }

  // ----- The helper's end -------------------------------------------------------------------

  /** Moves the helper can still make once it was asked to stop. */
  function Rank(h: HelperPc): nat {
    match h
    case Top => 16
    case RemoveMounted(_) => 15
    case RemoveFailed(_) => 14
    case RemoveUnmounted(_) => 13
    case MountOverlay(_) => 12
    case MountRest(_) => 11
    case TouchMounted(_) => 10
    case TouchFailed(_) => 10
    case CheckStop => 9
    case Umount(_, last) => if last then 3 else 8
    case TouchUnmounted(_, last) => if last then 2 else 7
    case RemoveStop(_, last) => if last then 1 else 6
    case CheckAlive => 5
    case CheckTerm => 4
    case HelperGone => 0
  }

  /** The helper is never stuck: whatever the wrapper does, it has a move of its own. */
  lemma HelperHasAMove(s: Pod)
    requires !s.helper.HelperGone?
    ensures exists e :: HelperMoves(e) && !e.KillHelper? && Enabled(s, e)
  {
    var e := match s.helper
      case Top => ReadInfo
      case RemoveMounted(_) => RmMounted
      case RemoveFailed(_) => RmFailed
      case RemoveUnmounted(_) => RmUnmounted
      case MountOverlay(_) => MountFails
      case MountRest(_) => MountFails
      case TouchMounted(_) => AckMount
      case TouchFailed(_) => AckFailure
      case CheckStop => LookForStop
      case Umount(_, _) => DoUmount
      case TouchUnmounted(_, _) => AckUmount
      case RemoveStop(_, _) => RmStop
      case CheckAlive => LookForDeath
      case _ => LookForTerm;
    assert Enabled(s, e);
  }

  lemma TermedMoveLowersRank(s: Pod, e: Step)
    requires Enabled(s, e) && s.termRequested && !e.RestartHelper?
    ensures After(s, e).termRequested
    ensures if HelperMoves(e) then Rank(After(s, e).helper) < Rank(s.helper) else After(s, e).helper == s.helper
  {
  }

  /** A TERM ends the helper: unless it is restarted, every move of its own brings it closer, and after
      at most sixteen it is gone. */
  lemma {:induction false} HelperStopsAfterTerm(trace: seq<Pod>, steps: seq<Step>, i: nat, j: nat)
    requires IsRun(trace, steps) && i < j <= |steps| && steps[i].TermHelper?
    requires forall m {:trigger steps[m]} :: i < m < j ==> !steps[m].RestartHelper?
    ensures trace[j].termRequested && Rank(trace[j].helper) + Moves(steps, i + 1, j) <= 16
    ensures Moves(steps, i + 1, j) >= 16 ==> trace[j].helper.HelperGone?
    decreases j
  {
    var _ := steps[i];
    if j > i + 1 {
      HelperStopsAfterTerm(trace, steps, i, j - 1);
      var _ := steps[j - 1];
      TermedMoveLowersRank(trace[j - 1], steps[j - 1]);
    }
  }

  /** Looking for death, the helper acknowledges and forgets its generation exactly if that is not the
      living wrapper's. */
  lemma DeathIsNoticed(s: Pod)
    requires s.helper.CheckAlive? && s.current.Some?
    ensures var s', g := After(s, LookForDeath), s.current.value;
            && (s'.current == None <==> s.main.Gone? || s.gen != g)
            && (s.main.Gone? || s.gen != g ==> g in s'.unmountedFiles)
            && (!s.main.Gone? && s.gen == g ==> s' == s.(helper := CheckTerm))
  {
  }

  // ----- What the protocol does not give ----------------------------------------------------

  ghost predicate Reachable(s: Pod) {
    exists trace, steps :: IsRun(trace, steps) && trace[|steps|] == s
  }

  lemma ReachNext(s: Pod, e: Step)
    requires Reachable(s) && Enabled(s, e)
    ensures Reachable(After(s, e))
  {
    var trace, steps :| IsRun(trace, steps) && trace[|steps|] == s;
    var trace', steps' := trace + [After(s, e)], steps + [e];
    forall i {:trigger steps'[i]} | 0 <= i < |steps'|
      ensures Enabled(trace'[i], steps'[i]) && trace'[i + 1] == After(trace'[i], steps'[i])
    {
      if i < |steps| {
        assert steps'[i] == steps[i];
      }
    }
    assert IsRun(trace', steps') && trace'[|steps'|] == After(s, e);
  }

  lemma FreshIsReachable()
    ensures Reachable(Fresh())
  {
    var none: seq<Step> := [];
    assert IsRun([Fresh()], none) && [Fresh()][|none|] == Fresh();
  }

  /** The state after the first wrapper's overlay has been mounted and acknowledged. */
  function Ready(): Pod {
    Pod(1, 0, Wait, false, Some(0), {0}, {}, {}, {}, {0}, CheckStop, Some(0), false)
  }

  lemma ReadyIsReachable()
    ensures Reachable(Ready())
  {
    FreshIsReachable();
    var s1 := Fresh().(helper := Top);
    ReachNext(Fresh(), RestartHelper);
    var s2 := s1.(next := 1, main := Prep);
    ReachNext(s1, StartMain);
    var s3 := s2.(main := WriteInfo);
    assert AfterMain(s2, ClearOwn) == s3;
    ReachNext(s2, ClearOwn);
    var s4 := s3.(info := Some(0), main := Wait);
    ReachNext(s3, Announce);
    MountedFrom(s4);
  }

  lemma MountedFrom(s: Pod)
    requires Reachable(s) && s == Ready().(mountedFiles := {}, mounted := {}, helper := Top, current := None)
    ensures Reachable(Ready())
  {
    var s5 := s.(current := Some(0), helper := RemoveMounted(0));
    ReachNext(s, ReadInfo);
    var s6 := s5.(helper := RemoveFailed(0));
    assert AfterHelper(s5, RmMounted) == s6;
    ReachNext(s5, RmMounted);
    var s7 := s6.(helper := RemoveUnmounted(0));
    assert AfterHelper(s6, RmFailed) == s7;
    ReachNext(s6, RmFailed);
    var s8 := s7.(helper := MountOverlay(0));
    assert AfterHelper(s7, RmUnmounted) == s8;
    ReachNext(s7, RmUnmounted);
    AckedFrom(s8);
  }

  lemma AckedFrom(s8: Pod)
    requires Reachable(s8) && s8 == Ready().(mountedFiles := {}, mounted := {}, helper := MountOverlay(0))
    ensures Reachable(Ready())
  {
    var s9 := s8.(mounted := {0}, helper := MountRest(0));
    assert AfterHelper(s8, DoMount) == s9;
    ReachNext(s8, DoMount);
    var s10 := s9.(helper := TouchMounted(0));
    ReachNext(s9, DoMountRest);
    assert AfterHelper(s10, AckMount) == Ready();
    ReachNext(s10, AckMount);
  }

  /** A TERM before the launch does break it: the helper unmounts, the mounted file stays, and the
      wrapper, back in its waiting loop, goes on to launch into nothing. */
  lemma TermBeforeLaunchBreaksIt() returns (s: Pod)
    ensures Reachable(s) && Enabled(s, Launch) && s.gen !in s.mounted && s.signalled
  {
    ReadyIsReachable();
    var s1 := Ready().(stopFiles := {0}, signalled := true);
    assert AfterMain(Ready(), TermMain) == s1;
    ReachNext(Ready(), TermMain);
    var s2 := s1.(helper := Umount(0, false));
    ReachNext(s1, LookForStop);
    var s3 := s2.(mounted := {}, helper := TouchUnmounted(0, false));
    assert AfterHelper(s2, DoUmount) == s3;
    ReachNext(s2, DoUmount);
    s := s3.(main := Saw);
    ReachNext(s3, FindMounted);
  }

  /** A wrapper that asked for the unmount may never see the answer: the announcement file still
      names its generation, so the helper's next round takes the acknowledgement back. */
  lemma UnmountAnswerMayBeWithdrawn() returns (asked: Pod, answered: Pod, s: Pod)
    ensures Reachable(answered) && answered.main.Asked? && answered.gen in answered.unmountedFiles
    ensures Reachable(s) && s.main.Asked? && s.gen == answered.gen && s.gen !in s.unmountedFiles &&
        s.gen !in s.stopFiles
    ensures asked == Ready().(main := Asked, stopFiles := {0})
  {
    ReadyIsReachable();
    var s1 := Ready().(main := Saw);
    ReachNext(Ready(), FindMounted);
    var s2 := s1.(main := Launched);
    ReachNext(s1, Launch);
    var s3 := s2.(main := Finished);
    ReachNext(s2, ChildExits);
    asked := Ready().(main := Asked, stopFiles := {0});
    assert AfterMain(s3, AskUnmount) == asked;
    ReachNext(s3, AskUnmount);
    answered, s := AnswerAndWithdraw(asked);
  }

  lemma AnswerAndWithdraw(asked: Pod) returns (answered: Pod, s: Pod)
    requires Reachable(asked) && asked == Ready().(main := Asked, stopFiles := {0})
    ensures Reachable(answered) && answered.main.Asked? && answered.gen == 0 && 0 in answered.unmountedFiles
    ensures Reachable(s) && s.main.Asked? && s.gen == 0 && 0 !in s.unmountedFiles && 0 !in s.stopFiles
  {
    var s1 := asked.(helper := Umount(0, false));
    ReachNext(asked, LookForStop);
    var s2 := s1.(mounted := {}, helper := TouchUnmounted(0, false));
    assert AfterHelper(s1, DoUmount) == s2;
    ReachNext(s1, DoUmount);
    answered := s2.(unmountedFiles := {0}, helper := RemoveStop(0, false));
    assert AfterHelper(s2, AckUmount) == answered;
    ReachNext(s2, AckUmount);
    s := Withdraw(answered);
  }

  lemma Withdraw(answered: Pod) returns (s: Pod)
    requires Reachable(answered)
    requires answered == Ready().(main := Asked, stopFiles := {0}, mounted := {}, unmountedFiles := {0},
        helper := RemoveStop(0, false))
    ensures Reachable(s) && s.main.Asked? && s.gen == 0 && 0 !in s.unmountedFiles && 0 !in s.stopFiles
  {
    var s4 := answered.(stopFiles := {}, current := None, helper := CheckAlive);
    assert AfterHelper(answered, RmStop) == s4;
    ReachNext(answered, RmStop);
    var s5 := s4.(helper := CheckTerm);
    ReachNext(s4, LookForDeath);
    var s6 := s5.(helper := Top);
    ReachNext(s5, LookForTerm);
    var s7 := s6.(current := Some(0), helper := RemoveMounted(0));
    ReachNext(s6, ReadInfo);
    ReachNext(s7, RmMounted);
    var s8 := AfterHelper(s7, RmMounted);
    ReachNext(s8, RmFailed);
    var s9 := AfterHelper(s8, RmFailed);
    ReachNext(s9, RmUnmounted);
    s := AfterHelper(s9, RmUnmounted);
  }
}
