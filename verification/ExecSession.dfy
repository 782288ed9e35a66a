/** The exec session of the Go SDK: a goroutine that fills a buffer from the socket and a reader that
    drains it, synchronised by a one-slot token channel and two closing channels. */
module ExecSession {

  datatype Message = Output(data: string) | Exit(code: int) | Error(text: string) | Ignored

  /** Where the filling goroutine is. `AtReturn` is the deferred close of the exit channel. */
  datatype LoopPc = AtReceive | AtAppend(text: string, last: bool) | AtSignal(last: bool) | AtReturn | LoopDone

  /** Where the reader is; `n` is the size of the caller's buffer. */
  datatype ReadPc = Idle | AtRead(n: nat) | Waiting(n: nat) | AtDrain(n: nat)

  /** `feed` are the messages the socket will still deliver before it fails. */
  datatype Session = Session(
    feed: seq<Message>, loop: LoopPc, buf: string, token: bool, exited: bool, closed: bool, code: int,
    reader: ReadPc, got: string, eof: bool)

  datatype Step = Receive | SeeClose | Append | Signal | Return | CallRead(n: nat) | TryRead | TakeToken | SeeExit |
      StopOnClose | Drain | Close

  function Opened(feed: seq<Message>): Session {
    Session(feed, AtReceive, "", false, false, false, 0, Idle, "", false)
  }

  function ErrorText(text: string): string {
    "\r\nError: " + text + "\r\n"
  }

  predicate Enabled(s: Session, e: Step) {
    match e
    case Receive => s.loop.AtReceive?
    case SeeClose => s.loop.AtReceive? && s.closed
    case Append => s.loop.AtAppend?
    case Signal => s.loop.AtSignal?
    case Return => s.loop.AtReturn?
    case CallRead(n) => s.reader.Idle? && n > 0
    case TryRead => s.reader.AtRead?
    case TakeToken => s.reader.Waiting? && s.token
    case SeeExit => s.reader.Waiting? && s.exited
    case StopOnClose => s.reader.Waiting? && s.closed
    case Drain => s.reader.AtDrain?
    case Close => true
  }

  /** One message, or the end of the socket. */
  function Received(s: Session): Session
  {
    if s.feed == [] then s.(loop := AtReturn)
    else
      var rest := s.(feed := s.feed[1..]);
      match s.feed[0]
      case Output(d) => rest.(loop := AtAppend(d, false))
      case Exit(code) => rest.(code := code, loop := AtReturn)
      case Error(text) => rest.(code := 1, loop := AtAppend(ErrorText(text), true))
      case Ignored => rest
  }

  function Taken(n: nat, buf: string): nat {
    if n <= |buf| then n else |buf|
  }

  /** `bytes.Buffer.Read` into a buffer of size `n`. */
  function Delivered(s: Session, n: nat): Session {
    var k := Taken(n, s.buf);
    s.(got := s.got + s.buf[..k], buf := s.buf[k..])
  }

  function After(s: Session, e: Step): Session
    requires Enabled(s, e)
  {
    match e
    case Receive => Received(s)
    case SeeClose => s.(loop := AtReturn)
    case Append => s.(buf := s.buf + s.loop.text, loop := AtSignal(s.loop.last))
    case Signal => s.(token := true, loop := if s.loop.last then AtReturn else AtReceive)
    case Return => s.(exited := true, loop := LoopDone)
    case CallRead(n) => s.(reader := AtRead(n))
    case TryRead =>
      if s.buf != "" then Delivered(s, s.reader.n).(reader := Idle) else s.(reader := Waiting(s.reader.n))
    case TakeToken => s.(token := false, reader := AtRead(s.reader.n))
    case SeeExit => s.(reader := AtDrain(s.reader.n))
    case StopOnClose => s.(eof := true, reader := Idle)
    case Drain =>
      if s.buf != "" then Delivered(s, s.reader.n).(reader := Idle) else s.(eof := true, reader := Idle)
    case Close => s.(closed := true)
  }

  ghost predicate IsRun(trace: seq<Session>, steps: seq<Step>, feed: seq<Message>) {
    && |trace| == |steps| + 1
    && trace[0] == Opened(feed)
    && (forall i {:trigger steps[i]} :: 0 <= i < |steps| ==>
        Enabled(trace[i], steps[i]) && trace[i + 1] == After(trace[i], steps[i]))
  }

  /** Reference: what the session prints, up to the first exit or error message. */
  function Transcript(feed: seq<Message>): string {
    if feed == [] then ""
    else match feed[0]
      case Output(d) => d + Transcript(feed[1..])
      case Exit(_) => ""
      case Error(text) => ErrorText(text)
      case Ignored => Transcript(feed[1..])
  }

  /** What the filling goroutine has still to put into the buffer. */
  function Pending(s: Session): string {
    match s.loop
    case AtReceive => Transcript(s.feed)
    case AtAppend(text, last) => text + (if last then "" else Transcript(s.feed))
    case AtSignal(last) => if last then "" else Transcript(s.feed)
    case _ => ""
  }

  /** Nothing is lost, duplicated or reordered; and a reader that waits while data is buffered has a
      wake-up token, or the goroutine is about to leave one. */
  predicate Inv(s: Session, all: string) {
    && (!s.closed ==> s.got + s.buf + Pending(s) == all)
    && s.got + s.buf <= all
    && (s.exited <==> s.loop.LoopDone?)
    && (s.reader.AtDrain? ==> s.exited)
    && (s.reader.Waiting? && s.buf != "" ==> s.token || s.loop.AtSignal?)
    && (s.eof && !s.closed ==> s.exited && s.buf == "")
    && (s.loop.AtAppend? || s.loop.AtSignal? || s.loop.AtReceive? ==> s.got + s.buf + Pending(s) == all)
  }

  lemma Reassociate(a: string, b: string, c: string)
    ensures (a + b) + c == a + (b + c)
  {
  }

  lemma ReceiveKeepsPending(s: Session)
    requires s.loop.AtReceive?
    ensures Pending(Received(s)) == Pending(s)
  {
  }

  lemma ReceiveKeepsInv(s: Session, all: string)
    requires Inv(s, all) && Enabled(s, Receive)
    ensures Inv(After(s, Receive), all)
  {
    var s' := Received(s);
    ReceiveKeepsPending(s);
    assert s'.got == s.got && s'.buf == s.buf && s'.closed == s.closed && s'.exited == s.exited;
    assert s'.reader == s.reader && s'.token == s.token && s'.eof == s.eof && !s'.loop.LoopDone?;
  }

  lemma AppendKeepsInv(s: Session, all: string)
    requires Inv(s, all) && Enabled(s, Append)
    ensures Inv(After(s, Append), all)
  {
    var rest := if s.loop.last then "" else Transcript(s.feed);
    Reassociate(s.got + s.buf, s.loop.text, rest);
    Reassociate(s.got, s.buf, s.loop.text);
  }

  lemma LoopStepKeepsInv(s: Session, e: Step, all: string)
    requires Inv(s, all) && Enabled(s, e) && ByLoop(e)
    ensures Inv(After(s, e), all)
  {
    match e {
      case Receive => ReceiveKeepsInv(s, all);
      case Append => AppendKeepsInv(s, all);
      case _ =>
    }
  }

  lemma DeliveryKeepsOrder(s: Session, n: nat)
    ensures Delivered(s, n).got + Delivered(s, n).buf == s.got + s.buf
    ensures n > 0 && s.buf != "" ==> |Delivered(s, n).got| > |s.got|
  {
    var k := Taken(n, s.buf);
    assert s.buf[..k] + s.buf[k..] == s.buf;
    Reassociate(s.got, s.buf[..k], s.buf[k..]);
  }

  /** A delivery ends the Read call. */
  lemma DeliveryKeepsInv(s: Session, n: nat, all: string)
    requires Inv(s, all) && (s.reader.AtRead? || s.reader.AtDrain?) && s.buf != ""
    ensures Inv(Delivered(s, n).(reader := Idle), all)
  {
    var s' := Delivered(s, n).(reader := Idle);
    DeliveryKeepsOrder(s, n);
    assert s'.got + s'.buf == s.got + s.buf;
    assert Pending(s') == Pending(s);
    assert s'.closed == s.closed && s'.exited == s.exited && s'.loop == s.loop && s'.eof == s.eof;
  }

  lemma ReaderStepKeepsInv(s: Session, e: Step, all: string)
    requires Inv(s, all) && Enabled(s, e) && !ByLoop(e)
    ensures Inv(After(s, e), all)
  {
    if (e.TryRead? || e.Drain?) && s.buf != "" {
      DeliveryKeepsInv(s, s.reader.n, all);
    } else {
      var s' := After(s, e);
      assert s'.got == s.got && s'.buf == s.buf && s'.loop == s.loop && s'.feed == s.feed && s'.exited == s.exited;
      assert Pending(s') == Pending(s);
    }
  }

  lemma {:induction false} InvHolds(trace: seq<Session>, steps: seq<Step>, feed: seq<Message>, i: nat)
    requires IsRun(trace, steps, feed) && i <= |steps|
    ensures Inv(trace[i], Transcript(feed))
  {
    if i > 0 {
      InvHolds(trace, steps, feed, i - 1);
      var e := steps[i - 1];
      if ByLoop(e) {
        LoopStepKeepsInv(trace[i - 1], e, Transcript(feed));
      } else {
        ReaderStepKeepsInv(trace[i - 1], e, Transcript(feed));
      }
    }
  }

  /** Fidelity: in every interleaving the bytes read are a prefix of the transcript, and if the
      session was not closed locally, end of file comes only after all of it. */
  lemma StreamIsFaithful(trace: seq<Session>, steps: seq<Step>, feed: seq<Message>, i: nat)
    requires IsRun(trace, steps, feed) && i <= |steps|
    ensures trace[i].got <= Transcript(feed)
    ensures trace[i].eof && !trace[i].closed ==> trace[i].got == Transcript(feed)
  {
    InvHolds(trace, steps, feed, i);
  }

  // ----- Ends and wake-ups ------------------------------------------------------------------

  /** Somebody took a step of this kind before. */
  ghost predicate Earlier(steps: seq<Step>, n: nat, e: Step)
    requires n <= |steps|
  {
    exists i :: 0 <= i < n && steps[i] == e
  }

  lemma EarlierGrows(steps: seq<Step>, n: nat, e: Step)
    requires n < |steps|
    ensures Earlier(steps, n + 1, e) <==> Earlier(steps, n, e) || steps[n] == e
  {
    if steps[n] == e {
      assert 0 <= n < n + 1;
    }
  }

  lemma FlagsAfter(s: Session, e: Step)
    requires Enabled(s, e) && (s.reader.AtDrain? ==> s.exited)
    ensures var s' := After(s, e);
            && (s'.closed <==> s.closed || e == Close) && (s'.exited <==> s.exited || e == Return)
            && (s'.token ==> s.token || e == Signal) && (s'.eof ==> s.eof || s.closed || s.exited)
  {
  }

  /** Nothing comes from nowhere: a session is closed only by Close and over only when the goroutine has
      returned; a token was left by it; and end of file means one of the two. */
  lemma {:induction false} FlagsHaveCauses(trace: seq<Session>, steps: seq<Step>, feed: seq<Message>, i: nat)
    requires IsRun(trace, steps, feed) && i <= |steps|
    ensures trace[i].closed <==> Earlier(steps, i, Close)
    ensures trace[i].exited <==> Earlier(steps, i, Return)
    ensures trace[i].token ==> Earlier(steps, i, Signal)
    ensures trace[i].eof ==> trace[i].closed || trace[i].exited
  {
    if i > 0 {
      FlagsHaveCauses(trace, steps, feed, i - 1);
      EarlierGrows(steps, i - 1, Close);
      EarlierGrows(steps, i - 1, Return);
      EarlierGrows(steps, i - 1, Signal);
      InvHolds(trace, steps, feed, i - 1);
      var _ := steps[i - 1];
      FlagsAfter(trace[i - 1], steps[i - 1]);
    }
  }

  /** Every Read call ends once the session is over or closed: with as much as fits of what is buffered,
      and with end of file exactly if nothing is; a token wakes it once. */
  lemma ReadEnds(s: Session, n: nat)
    requires n > 0 && s.reader == AtRead(n)
    ensures var s1 := After(s, TryRead);
            if s.buf != "" then
              && s1.reader == Idle && s1.eof == s.eof
              && s1.got == s.got + s.buf[..if n <= |s.buf| then n else |s.buf|] && s1.got + s1.buf == s.got + s.buf
            else
              && s1 == s.(reader := Waiting(n))
              && (s.token ==> After(s1, TakeToken) == s.(token := false))
              && (s.closed ==> After(s1, StopOnClose) == s.(eof := true, reader := Idle))
              && (s.exited ==> After(After(s1, SeeExit), Drain) == s.(eof := true, reader := Idle))
  {
    DeliveryKeepsOrder(s, n);
  }

  /** Reference: the exit code of the session. A socket that fails without one leaves zero. */
  function ExitCode(feed: seq<Message>): int {
    if feed == [] then 0
    else match feed[0]
      case Exit(code) => code
      case Error(_) => 1
      case _ => ExitCode(feed[1..])
  }

  /** The code is set by the message that ends the session and by nothing else. */
  predicate CodeInv(s: Session, code: int) {
    match s.loop
    case AtReceive => s.code == 0 && ExitCode(s.feed) == code
    case AtAppend(_, last) => if last then s.code == code else s.code == 0 && ExitCode(s.feed) == code
    case AtSignal(last) => if last then s.code == code else s.code == 0 && ExitCode(s.feed) == code
    case _ => s.code == code || (s.closed && s.code == 0)
  }

  lemma StepKeepsCode(s: Session, e: Step, code: int)
    requires CodeInv(s, code) && Enabled(s, e)
    ensures CodeInv(After(s, e), code)
  {
    if e.Receive? {
      ReceiveKeepsCode(s, code);
    }
  }

  lemma ReceiveKeepsCode(s: Session, code: int)
    requires CodeInv(s, code) && s.loop.AtReceive?
    ensures CodeInv(Received(s), code)
  {
  }

  lemma {:induction false} CodeHolds(trace: seq<Session>, steps: seq<Step>, feed: seq<Message>, i: nat)
    requires IsRun(trace, steps, feed) && i <= |steps|
    ensures CodeInv(trace[i], ExitCode(feed))
  {
    if i > 0 {
      CodeHolds(trace, steps, feed, i - 1);
      var _ := steps[i - 1];
      StepKeepsCode(trace[i - 1], steps[i - 1], ExitCode(feed));
    }
  }

  /** `Wait` answers once the exit channel is closed, and then with the code the session ended with; only
      a session that was closed locally may answer zero instead. */
  lemma ExitCodeIsFaithful(trace: seq<Session>, steps: seq<Step>, feed: seq<Message>, i: nat)
    requires IsRun(trace, steps, feed) && i <= |steps| && trace[i].exited
    ensures trace[i].code == ExitCode(feed) || (trace[i].closed && trace[i].code == 0)
  {
    InvHolds(trace, steps, feed, i);
    CodeHolds(trace, steps, feed, i);
  }

  /** A reader that cannot move. */
  predicate Blocked(s: Session) {
    s.reader.Waiting? && !s.token && !s.exited && !s.closed
  }

  /** No lost wake-up: a blocked reader with data in the buffer is woken by the very next step of the
      goroutine, and a blocked reader is never alone. */
  lemma NoLostWakeUp(trace: seq<Session>, steps: seq<Step>, feed: seq<Message>, i: nat)
    requires IsRun(trace, steps, feed) && i <= |steps| && Blocked(trace[i])
    ensures !trace[i].loop.LoopDone?
    ensures trace[i].buf != "" ==> Enabled(trace[i], Signal) && Enabled(After(trace[i], Signal), TakeToken)
  {
    InvHolds(trace, steps, feed, i);
  }

  /** Steps the goroutine can still take. */
  function Remaining(s: Session): nat {
    match s.loop
    case AtReceive => 3 * |s.feed| + 2
    case AtAppend(_, last) => if last then 3 else 3 * |s.feed| + 4
    case AtSignal(last) => if last then 2 else 3 * |s.feed| + 3
    case AtReturn => 1
    case LoopDone => 0
  }

  predicate ByLoop(e: Step) {
    e.Receive? || e.SeeClose? || e.Append? || e.Signal? || e.Return?
  }

  lemma ReceiveUsesUp(s: Session)
    requires s.loop.AtReceive?
    ensures Remaining(Received(s)) < Remaining(s)
  {
  }

  lemma LoopStepUsesUp(s: Session, e: Step)
    requires Enabled(s, e) && ByLoop(e)
    ensures Remaining(After(s, e)) < Remaining(s)
  {
    if e.Receive? {
      ReceiveUsesUp(s);
    }
  }

  /** The goroutine always has a step until it is done, and only finitely many, whatever the reader
      does meanwhile; so every blocked reader is eventually woken. */
  lemma GoroutineFinishes(s: Session, e: Step)
    requires Enabled(s, e)
    ensures !s.loop.LoopDone? ==> Enabled(s, Receive) || Enabled(s, Append) || Enabled(s, Signal) || Enabled(s, Return)
    ensures if ByLoop(e) then Remaining(After(s, e)) < Remaining(s) else Remaining(After(s, e)) == Remaining(s)
  {
    if ByLoop(e) {
      LoopStepUsesUp(s, e);
    }
  }
}
