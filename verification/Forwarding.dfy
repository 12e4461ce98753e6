/** The signal forwarder of a waiting invoker, interrupting the wait loop at any point.

    The handler and the loop share the signal dispositions and a pipe.  The machine below takes one
    small step at a time: a signal arrives, a signal is delivered, the running handler goes on, or,
    when no handler is running, the loop goes on. */
module Forwarding {
  import opened Basics

  type Sig = int

  /** The signals that sigs_set gives a handler. */
  predicate Handled(sig: Sig) {
    sig in {1, 2, 3, 5, 6, 7, 10, 11, 12, 13, 14, 15, 17, 18, 20, 21, 22, 24, 25, 26, 27, 28, 29, 30, 31}
  }

  /** What the kernel does with a signal that has no handler; a stopped invoker goes on later,
      so that stopping it leaves no trace here. */
  datatype Action = Terminate | Ignore | Stop

  function DefaultAction(sig: Sig): Action {
    if sig in {17, 18, 23, 28} then Ignore        // SIGCHLD, SIGCONT, SIGURG, SIGWINCH
    else if sig in {19, 20, 21, 22} then Stop     // SIGSTOP, SIGTSTP, SIGTTIN, SIGTTOU
    else Terminate
  }

  /** What a running handler does next. */
  datatype Stage = Kill | Restore | Write | Raise | Return

  datatype Frame = Frame(sig: Sig, stage: Stage)

  /** What the loop does next: block in select, read a byte from the pipe, install the forwarder,
      or, once the exit status is in, restore the default handlers. */
  datatype Phase = Select | Read | Install | Leaving | Left

  datatype Machine = Machine(
    alive: bool,
    installed: bool,          // all handlers are the forwarder; otherwise all are SIG_DFL
    pipe: nat,                // bytes in the pipe
    phase: Phase,
    frames: seq<Frame>,       // the handlers that are running, innermost last
    pending: set<Sig>)

  /** Signals taken by the forwarder, signals sent to the application, and signals that a handler
      raised and that were taken by the forwarder again. */
  datatype History = History(taken: seq<Sig>, sent: seq<Sig>, reentered: seq<Sig>)

  datatype State = State(m: Machine, h: History)

  datatype Step = Arrive(sig: Sig) | Deliver(sig: Sig) | Handler | Loop(answered: bool)

  /** A signal is blocked while its own handler is running. */
  predicate Blocked(m: Machine, sig: Sig) { exists i :: 0 <= i < |m.frames| && m.frames[i].sig == sig }

  /** An unblocked signal goes to the forwarder, or gets its default action. */
  function Delivered(s: State, sig: Sig): State {
    var m := s.m.(pending := s.m.pending - {sig});
    if m.installed then State(m.(frames := m.frames + [Frame(sig, Kill)]), s.h.(taken := s.h.taken + [sig]))
    else State(m.(alive := DefaultAction(sig) != Terminate), s.h)
  }

  /** sig_forwarder, statement by statement.  The signal that it raises is blocked until it returns,
      and then delivered at once. */
  function HandlerStep(s: State): State
    requires s.m.frames != []
  {
    var n := |s.m.frames| - 1;
    var (below, f) := (s.m.frames[..n], s.m.frames[n]);
    match f.stage
    case Kill => State(s.m.(frames := below + [Frame(f.sig, Restore)]), s.h.(sent := s.h.sent + [f.sig]))
    case Restore => State(s.m.(frames := below + [Frame(f.sig, Write)], installed := false), s.h)
    case Write => State(s.m.(frames := below + [Frame(f.sig, Raise)], pipe := s.m.pipe + 1), s.h)
    case Raise => State(s.m.(frames := below + [Frame(f.sig, Return)], pending := s.m.pending + {f.sig}), s.h)
    case Return =>
      var t := s.(m := s.m.(frames := below));
      if f.sig !in t.m.pending then t
      else
        var u := Delivered(t, f.sig);
        if t.m.installed then u.(h := u.h.(reentered := u.h.reentered + [f.sig])) else u
  }

  /** The wait loop; `answered` says whether the connection is readable when select looks at it. */
  function LoopStep(m: Machine, answered: bool): Machine {
    match m.phase
    case Select => if answered then m.(phase := Leaving) else if m.pipe > 0 then m.(phase := Read) else m
    case Read => m.(pipe := if m.pipe > 0 then m.pipe - 1 else 0, phase := Install)
    case Install => m.(installed := true, phase := Select)
    case Leaving => m.(installed := false, phase := Left)
    case Left => m
  }

  /** A signal that has no handler, such as SIGKILL, gets its default action at once. */
  function Arrived(m: Machine, sig: Sig): Machine {
    if Handled(sig) then m.(pending := m.pending + {sig}) else m.(alive := DefaultAction(sig) != Terminate)
  }

  function Next(s: State, e: Step): State {
    if !s.m.alive then s else
    match e
    case Arrive(sig) => s.(m := Arrived(s.m, sig))
    case Deliver(sig) => if sig in s.m.pending && !Blocked(s.m, sig) then Delivered(s, sig) else s
    case Handler => if s.m.frames == [] then s else HandlerStep(s)
    case Loop(answered) => if s.m.frames == [] then s.(m := LoopStep(s.m, answered)) else s
  }

  function Run(s: State, es: seq<Step>): State
    decreases |es|
  {
    if es == [] then s else Run(Next(s, es[0]), es[1..])
  }

  /** The invoker knows the pid and is about to install the forwarder for the first time. */
  function Start(): State { State(Machine(true, false, 0, Install, [], {}), History([], [], [])) }

  lemma RunFirst(s: State, e: Step, es: seq<Step>)
    ensures Run(s, [e] + es) == Run(Next(s, e), es)
  {
    assert ([e] + es)[1..] == es;
  }

  // ---------------------------------------------------------------- the invariant

  /** The forwarder can interrupt only a handler that has not restored the default handlers yet. */
  ghost predicate FramesOk(m: Machine) {
    && (forall i :: 0 <= i < |m.frames| - 1 ==> m.frames[i].stage.Kill? || m.frames[i].stage.Restore?)
    && (m.frames != [] && m.installed ==> var f := m.frames[|m.frames| - 1]; f.stage.Kill? || f.stage.Restore?)
  }

  /** Whenever the forwarder is not installed, something is under way that will install it. */
  ghost predicate Rearming(m: Machine) {
    || m.installed || m.pipe > 0 || m.phase.Install? || m.phase.Leaving? || m.phase.Left?
    || (m.frames != [] && m.frames[|m.frames| - 1].stage.Write?)
  }

  /** How often a signal occurs. */
  function Times(sigs: seq<Sig>, x: Sig): nat
    decreases |sigs|
  {
    if sigs == [] then 0 else Times(sigs[..|sigs| - 1], x) + if sigs[|sigs| - 1] == x then 1 else 0
  }

  lemma TimesMore(sigs: seq<Sig>, sig: Sig, x: Sig)
    ensures Times(sigs + [sig], x) == Times(sigs, x) + if sig == x then 1 else 0
  {
    assert (sigs + [sig])[..|sigs|] == sigs;
  }

  function OneUnsent(f: Frame, x: Sig): nat { if f.stage.Kill? && f.sig == x then 1 else 0 }

  /** How many handlers of this signal have not sent it on yet. */
  function Unsent(frames: seq<Frame>, x: Sig): nat
    decreases |frames|
  {
    if frames == [] then 0 else Unsent(frames[..|frames| - 1], x) + OneUnsent(frames[|frames| - 1], x)
  }

  ghost predicate ControlOk(m: Machine) { FramesOk(m) && Rearming(m) && (m.phase.Read? ==> m.pipe > 0) }

  ghost predicate CountOk(s: State, x: Sig) {
    Times(s.h.taken, x) == Times(s.h.sent, x) + Unsent(s.m.frames, x)
  }

  /** A signal is blocked while its handler runs, so it has one handler at most. */
  ghost predicate OneHandlerEach(m: Machine) {
    forall i, j :: 0 <= i < j < |m.frames| ==> m.frames[i].sig != m.frames[j].sig
  }

  ghost predicate Inv(s: State) {
    ControlOk(s.m) && OneHandlerEach(s.m) && (forall x :: CountOk(s, x)) && s.h.reentered == []
  }

  lemma UnsentPush(frames: seq<Frame>, f: Frame, x: Sig)
    ensures Unsent(frames + [f], x) == Unsent(frames, x) + OneUnsent(f, x)
  {
    assert (frames + [f])[..|frames|] == frames;
  }

  lemma DeliveredControl(s: State, sig: Sig)
    requires ControlOk(s.m)
    ensures ControlOk(Delivered(s, sig).m)
  {
  }

  lemma DeliveredCount(s: State, sig: Sig, x: Sig)
    requires CountOk(s, x)
    ensures CountOk(Delivered(s, sig), x)
  {
    UnsentPush(s.m.frames, Frame(sig, Kill), x);
    TimesMore(s.h.taken, sig, x);
  }

  lemma DeliveredKeeps(s: State, sig: Sig)
    requires Inv(s) && !Blocked(s.m, sig)
    ensures Inv(Delivered(s, sig))
  {
    DeliveredControl(s, sig);
    forall x { DeliveredCount(s, sig, x); }
  }

  lemma StageControl(s: State)
    requires ControlOk(s.m) && s.m.frames != [] && !s.m.frames[|s.m.frames| - 1].stage.Return?
    ensures ControlOk(HandlerStep(s).m)
  {
    var n := |s.m.frames| - 1;
    assert forall i :: 0 <= i < n ==> HandlerStep(s).m.frames[i] == s.m.frames[i];
  }

  lemma TopUnsent(frames: seq<Frame>, f: Frame, x: Sig)
    requires frames != []
    ensures var n := |frames| - 1;
            Unsent(frames[..n] + [f], x) + OneUnsent(frames[n], x) == Unsent(frames, x) + OneUnsent(f, x)
  {
    UnsentPush(frames[..|frames| - 1], f, x);
  }

  /** The frame of the innermost handler after its next statement. */
  function NextFrame(f: Frame): Frame
    requires !f.stage.Return?
  {
    Frame(f.sig, match f.stage case Kill => Restore case Restore => Write case Write => Raise case Raise => Return)
  }

  lemma StageEffect(s: State)
    requires s.m.frames != [] && !s.m.frames[|s.m.frames| - 1].stage.Return?
    ensures var n := |s.m.frames| - 1;
            var (f, t) := (s.m.frames[n], HandlerStep(s));
            && t.m.frames == s.m.frames[..n] + [NextFrame(f)] && t.h.taken == s.h.taken
            && t.h.sent == if f.stage.Kill? then s.h.sent + [f.sig] else s.h.sent
  {
  }

  lemma StageCount(s: State, x: Sig)
    requires CountOk(s, x) && s.m.frames != [] && !s.m.frames[|s.m.frames| - 1].stage.Return?
    ensures CountOk(HandlerStep(s), x)
  {
    var f := s.m.frames[|s.m.frames| - 1];
    StageEffect(s);
    TopUnsent(s.m.frames, NextFrame(f), x);
    TimesMore(s.h.sent, f.sig, x);
  }

  /** The machine right after the innermost handler has returned. */
  function Popped(s: State): State
    requires s.m.frames != []
  {
    s.(m := s.m.(frames := s.m.frames[..|s.m.frames| - 1]))
  }

  lemma PoppedKeeps(s: State)
    requires Inv(s) && s.m.frames != [] && s.m.frames[|s.m.frames| - 1].stage.Return?
    ensures Inv(Popped(s)) && !Popped(s).m.installed && !Blocked(Popped(s).m, s.m.frames[|s.m.frames| - 1].sig)
  {
    forall x
      ensures CountOk(Popped(s), x)
    {
      assert CountOk(s, x);
    }
  }

  lemma HandlerKeeps(s: State)
    requires Inv(s) && s.m.frames != []
    ensures Inv(HandlerStep(s))
  {
    if s.m.frames[|s.m.frames| - 1].stage.Return? {
      PoppedKeeps(s);
      DeliveredKeeps(Popped(s), s.m.frames[|s.m.frames| - 1].sig);
    } else {
      StageControl(s);
      forall x { StageCount(s, x); }
    }
  }

  lemma OthersKeep(s: State, m: Machine)
    requires Inv(s) && ControlOk(m) && m.frames == s.m.frames
    ensures Inv(s.(m := m))
  {
    forall x
      ensures CountOk(s.(m := m), x)
    {
      assert CountOk(s, x);
    }
  }

  lemma NextKeeps(s: State, e: Step)
    requires Inv(s)
    ensures Inv(Next(s, e))
  {
    match e
    case Arrive(sig) => OthersKeep(s, Arrived(s.m, sig));
    case Deliver(sig) => if !Blocked(s.m, sig) { DeliveredKeeps(s, sig); }
    case Handler => if s.m.frames != [] { HandlerKeeps(s); }
    case Loop(answered) => if s.m.frames == [] { OthersKeep(s, LoopStep(s.m, answered)); }
  }

  lemma {:induction false} RunKeeps(s: State, es: seq<Step>)
    requires Inv(s)
    ensures Inv(Run(s, es))
    decreases |es|
  {
    if es != [] {
      NextKeeps(s, es[0]);
      RunKeeps(Next(s, es[0]), es[1..]);
    }
  }

  /** The handler of `x` is running and has not reached `kill` yet. */
  ghost predicate NotSentYet(m: Machine, x: Sig) {
    exists i :: 0 <= i < |m.frames| && m.frames[i] == Frame(x, Kill)
  }

  lemma {:induction false} UnsentIs(frames: seq<Frame>, x: Sig)
    requires forall i, j :: 0 <= i < j < |frames| ==> frames[i].sig != frames[j].sig
    ensures Unsent(frames, x) == if exists i :: 0 <= i < |frames| && frames[i] == Frame(x, Kill) then 1 else 0
    decreases |frames|
  {
    if frames != [] {
      var below := frames[..|frames| - 1];
      UnsentIs(below, x);
      if i :| 0 <= i < |frames| && frames[i] == Frame(x, Kill) {
        if i < |below| { assert below[i] == frames[i]; }
      }
      if i :| 0 <= i < |below| && below[i] == Frame(x, Kill) { assert frames[i] == below[i]; }
    }
  }

  /** In every run: whenever the loop is about to block, the forwarder is installed or a byte is
      waiting to wake it, and the read of the pipe never blocks; every signal that the forwarder took
      has been sent to the application exactly as often, but for one whose handler has not reached
      `kill` yet; and no signal it raised for itself ever came back to it. */
  lemma Forwards(es: seq<Step>)
    ensures var s := Run(Start(), es);
            && (s.m.frames == [] && s.m.phase.Select? ==> s.m.installed || s.m.pipe > 0)
            && (s.m.phase.Read? ==> s.m.pipe > 0)
            && (forall x :: Times(s.h.taken, x) == Times(s.h.sent, x) + if NotSentYet(s.m, x) then 1 else 0)
            && s.h.reentered == []
  {
    RunKeeps(Start(), es);
    var s := Run(Start(), es);
    forall x
      ensures Times(s.h.taken, x) == Times(s.h.sent, x) + if NotSentYet(s.m, x) then 1 else 0
    {
      assert CountOk(s, x);
      UnsentIs(s.m.frames, x);
    }
  }

  // ---------------------------------------------------------------- what becomes of one signal

  /** A signal that arrives and is not blocked: with the forwarder installed it is taken, if it has a
      handler at all; otherwise it ends the invoker unless it is one that is ignored or only stops it. */
  lemma SignalFate(s: State, sig: Sig)
    requires s.m.alive && !Blocked(s.m, sig) && sig !in s.m.pending
    ensures var t := Next(Next(s, Arrive(sig)), Deliver(sig));
            if s.m.installed && 1 <= sig <= 31 && sig !in {4, 8, 9, 16, 19, 23}
            then t == State(s.m.(frames := s.m.frames + [Frame(sig, Kill)]), s.h.(taken := s.h.taken + [sig]))
            else t == s.(m := s.m.(alive := sig in {17, 18, 19, 20, 21, 22, 23, 28}))
  {
    assert s.m.pending + {sig} - {sig} == s.m.pending;
  }

  /** The steps of a forwarder that nothing interrupts. */
  function Uninterrupted(): seq<Step> { [Handler, Handler, Handler, Handler, Handler] }

  /** What such a forwarder leaves. */
  function Forwarded(s: State, sig: Sig): State {
    State(s.m.(installed := false, pipe := s.m.pipe + 1, alive := DefaultAction(sig) != Terminate),
          s.h.(sent := s.h.sent + [sig]))
  }

  lemma RunFive(t: State, t1: State, t2: State, t3: State, t4: State)
    requires t1 == Next(t, Handler) && t2 == Next(t1, Handler) && t3 == Next(t2, Handler) && t4 == Next(t3, Handler)
    ensures Run(t, Uninterrupted()) == Next(t4, Handler)
  {
    hide Next;
    var es := Uninterrupted();
    assert es == [es[0]] + es[1..] && es[1..] == [es[1]] + es[2..] && es[2..] == [es[2]] + es[3..];
    assert es[3..] == [es[3]] + es[4..] && es[4..] == [es[4]] + [];
    RunFirst(t, Handler, es[1..]);
    RunFirst(t1, Handler, es[2..]);
    RunFirst(t2, Handler, es[3..]);
    RunFirst(t3, Handler, es[4..]);
    RunFirst(t4, Handler, []);
  }

  lemma FourStages(s: State, sig: Sig, t: State)
    requires s.m.alive && t == s.(m := s.m.(frames := [Frame(sig, Kill)]))
    ensures var t4 := Next(Next(Next(Next(t, Handler), Handler), Handler), Handler);
            t4 == State(s.m.(installed := false, pipe := s.m.pipe + 1, frames := [Frame(sig, Return)],
                             pending := s.m.pending + {sig}),
                        s.h.(sent := s.h.sent + [sig]))
  {
    var h := s.h.(sent := s.h.sent + [sig]);
    var t1 := State(s.m.(frames := [Frame(sig, Restore)]), h);
    var t2 := State(s.m.(frames := [Frame(sig, Write)], installed := false), h);
    var t3 := State(s.m.(frames := [Frame(sig, Raise)], installed := false, pipe := s.m.pipe + 1), h);
    assert Next(t, Handler) == t1;
    assert Next(t1, Handler) == t2;
    assert Next(t2, Handler) == t3;
  }

  lemma LastStage(s: State, sig: Sig, t4: State)
    requires s.m.alive && s.m.frames == [] && !s.m.installed && sig !in s.m.pending
    requires t4 == s.(m := s.m.(frames := [Frame(sig, Return)], pending := s.m.pending + {sig}))
    ensures Next(t4, Handler) == s.(m := s.m.(alive := DefaultAction(sig) != Terminate))
  {
    hide DefaultAction;
    assert s.m.pending + {sig} - {sig} == s.m.pending;
  }

  lemma HandlerRuns(s: State, sig: Sig, t: State)
    requires s.m.alive && s.m.frames == [] && sig !in s.m.pending && t == s.(m := s.m.(frames := [Frame(sig, Kill)]))
    ensures Run(t, Uninterrupted()) == Forwarded(s, sig)
  {
    hide Next, DefaultAction;
    FourStages(s, sig, t);
    var t3 := Next(Next(Next(t, Handler), Handler), Handler);
    LastStage(Forwarded(s, sig).(m := s.m.(installed := false, pipe := s.m.pipe + 1)), sig, Next(t3, Handler));
    RunFive(t, Next(t, Handler), Next(Next(t, Handler), Handler), t3, Next(t3, Handler));
  }

  /** The loop wakes up for a byte in the pipe, takes it and installs the forwarder again. */
  lemma LoopRearms(s: State)
    requires s.m.alive && s.m.frames == [] && s.m.phase.Select? && s.m.pipe > 0
    ensures Run(s, [Loop(false), Loop(false), Loop(false)]) == s.(m := s.m.(installed := true, pipe := s.m.pipe - 1))
  {
    var s1 := s.(m := s.m.(phase := Read));
    var s2 := s.(m := s.m.(phase := Install, pipe := s.m.pipe - 1));
    assert Next(s, Loop(false)) == s1 && Next(s1, Loop(false)) == s2;
    var es := [Loop(false), Loop(false), Loop(false)];
    assert es == [es[0]] + es[1..] && es[1..] == [es[1]] + es[2..] && es[2..] == [es[2]] + [];
    RunFirst(s, Loop(false), es[1..]);
    RunFirst(s1, Loop(false), es[2..]);
    RunFirst(s2, Loop(false), []);
  }

  /** A signal that does not end the invoker, with nothing in between: it is sent to the application
      once, and everything else is as before, the forwarder installed and the loop blocked. */
  lemma ForwardedOnce(s: State, sig: Sig)
    requires s.m.alive && s.m.installed && s.m.frames == [] && s.m.phase.Select? && s.m.pending == {}
    requires sig in {17, 18, 20, 21, 22, 28}
    ensures Run(Run(Next(Next(s, Arrive(sig)), Deliver(sig)), Uninterrupted()), [Loop(false), Loop(false), Loop(false)])
         == s.(h := s.h.(taken := s.h.taken + [sig], sent := s.h.sent + [sig]))
  {
    SignalFate(s, sig);
    var u := s.(h := s.h.(taken := s.h.taken + [sig]));
    HandlerRuns(u, sig, Next(Next(s, Arrive(sig)), Deliver(sig)));
    LoopRearms(Forwarded(u, sig));
  }

  /** Any other signal with a handler is sent to the application once as well, and ends the invoker. */
  lemma ForwardedLast(s: State, sig: Sig)
    requires s.m.alive && s.m.installed && s.m.frames == [] && s.m.pending == {}
    requires 1 <= sig <= 31 && sig !in {4, 8, 9, 16, 19, 23} && sig !in {17, 18, 20, 21, 22, 28}
    ensures var t := Run(Next(Next(s, Arrive(sig)), Deliver(sig)), Uninterrupted());
            !t.m.alive && t.h == s.h.(taken := s.h.taken + [sig], sent := s.h.sent + [sig])
  {
    SignalFate(s, sig);
    HandlerRuns(s.(h := s.h.(taken := s.h.taken + [sig])), sig, Next(Next(s, Arrive(sig)), Deliver(sig)));
  }

  /** Once the answer is there, the loop ends with the default handlers, whatever comes next. */
  lemma AnswerEndsLoop(s: State, answered: bool)
    requires s.m.alive && s.m.frames == [] && s.m.phase.Select?
    ensures Next(Next(s, Loop(true)), Loop(answered)) == s.(m := s.m.(installed := false, phase := Left))
  {
  }

  // ---------------------------------------------------------------- signals that are lost

  /** Nothing that can still happen will have the signal sent as often as it was taken. */
  ghost predicate Lost(s: State, x: Sig) {
    forall more :: Times(Run(s, more).h.taken, x) > Times(Run(s, more).h.sent, x)
  }

  /** The handler of `x` at `i` has not reached `kill`, and it will not go on: the invoker is dead, or
      it was interrupted by the handler of a signal that is going to terminate the invoker. */
  ghost predicate CutShort(m: Machine, x: Sig, i: nat) {
    && i < |m.frames| && m.frames[i] == Frame(x, Kill)
    && (m.alive ==> exists j :: i < j < |m.frames| && DefaultAction(m.frames[j].sig) == Terminate)
  }

  /** A handler that is about to return has raised its signal, which is still pending. */
  ghost predicate Raised(m: Machine) {
    forall i :: 0 <= i < |m.frames| && m.frames[i].stage.Return? ==> m.frames[i].sig in m.pending
  }

  ghost predicate Running(s: State) { Inv(s) && Raised(s.m) }

  lemma RaisedHandler(s: State)
    requires Inv(s) && Raised(s.m) && s.m.frames != []
    ensures Raised(HandlerStep(s).m)
  {
    var n := |s.m.frames| - 1;
    var t := HandlerStep(s).m;
    assert forall i :: 0 <= i < n ==> t.frames[i] == s.m.frames[i] && t.frames[i].sig != s.m.frames[n].sig;
  }

  lemma RunningKeeps(s: State, e: Step)
    requires Running(s)
    ensures Running(Next(s, e))
  {
    NextKeeps(s, e);
    if s.m.alive && e.Handler? && s.m.frames != [] {
      RaisedHandler(s);
    } else if e.Deliver? {
      assert forall i :: 0 <= i < |s.m.frames| ==> Next(s, e).m.frames[i] == s.m.frames[i];
    }
  }

  lemma CutShortHandler(s: State, x: Sig, i: nat)
    requires Running(s) && CutShort(s.m, x, i) && s.m.alive
    ensures CutShort(HandlerStep(s).m, x, i)
  {
    hide DefaultAction;
    var j :| i < j < |s.m.frames| && DefaultAction(s.m.frames[j].sig) == Terminate;
    var n := |s.m.frames| - 1;
    var t := HandlerStep(s).m;
    assert forall k :: 0 <= k < n ==> t.frames[k] == s.m.frames[k];
    if s.m.frames[n].stage.Return? {
      assert s.m.frames[n].sig in s.m.pending && !s.m.installed;
    } else {
      assert t.frames[n].sig == s.m.frames[n].sig;
    }
  }

  lemma CutShortStep(s: State, e: Step, x: Sig, i: nat)
    requires Running(s) && CutShort(s.m, x, i)
    ensures CutShort(Next(s, e).m, x, i)
  {
    hide DefaultAction, HandlerStep;
    if s.m.alive {
      var j :| i < j < |s.m.frames| && DefaultAction(s.m.frames[j].sig) == Terminate;
      match e
      case Handler => CutShortHandler(s, x, i);
      case Deliver(_) => assert forall k :: 0 <= k <= j ==> Next(s, e).m.frames[k] == s.m.frames[k];
      case _ =>
    }
  }

  lemma {:induction false} CutShortForEver(s: State, more: seq<Step>, x: Sig, i: nat)
    requires Running(s) && CutShort(s.m, x, i)
    ensures Times(Run(s, more).h.taken, x) > Times(Run(s, more).h.sent, x)
    decreases |more|
  {
    if more == [] {
      assert CountOk(s, x);
      UnsentIs(s.m.frames, x);
    } else {
      RunningKeeps(s, more[0]);
      CutShortStep(s, more[0], x, i);
      CutShortForEver(Next(s, more[0]), more[1..], x, i);
    }
  }

  function Rank(stage: Stage): nat {
    match stage case Kill => 5 case Restore => 4 case Write => 3 case Raise => 2 case Return => 1
  }

  /** The innermost handler has taken one more statement, or it has returned. */
  ghost predicate WentOn(m: Machine, t: Machine)
    requires m.frames != []
  {
    var n := |m.frames| - 1;
    && t.alive && n <= |t.frames| <= n + 1 && (forall k :: 0 <= k < n ==> t.frames[k] == m.frames[k])
    && (|t.frames| == n + 1 ==>
          t.frames[n].sig == m.frames[n].sig && Rank(t.frames[n].stage) < Rank(m.frames[n].stage))
  }

  lemma HandlerGoesOn(s: State)
    requires Running(s) && s.m.frames != [] && DefaultAction(s.m.frames[|s.m.frames| - 1].sig) != Terminate
    requires s.m.alive
    ensures WentOn(s.m, HandlerStep(s).m)
  {
    if !s.m.frames[|s.m.frames| - 1].stage.Return? { StageEffect(s); }
  }

  lemma {:induction false} NoneUnsent(frames: seq<Frame>, x: Sig)
    requires forall k :: 0 <= k < |frames| ==> frames[k] != Frame(x, Kill)
    ensures Unsent(frames, x) == 0
    decreases |frames|
  {
    if frames != [] { NoneUnsent(frames[..|frames| - 1], x); }
  }

  lemma OthersNotAtKill(m: Machine, x: Sig, n: nat)
    requires OneHandlerEach(m) && n == |m.frames| - 1 && m.frames[n] == Frame(x, Kill)
    ensures Unsent(m.frames[..n] + [Frame(x, Restore)], x) == 0
  {
    var frames := m.frames[..n] + [Frame(x, Restore)];
    forall k | 0 <= k < |frames|
      ensures frames[k] != Frame(x, Kill)
    {
      if k < n { assert frames[k] == m.frames[k] && m.frames[k].sig != m.frames[n].sig; }
    }
    NoneUnsent(frames, x);
  }

  /** After the innermost handler has called `kill`, its signal has been sent as often as taken. */
  lemma NoneLeft(s: State, x: Sig, n: nat)
    requires Running(s) && s.m.alive && n == |s.m.frames| - 1 && s.m.frames[n] == Frame(x, Kill)
    ensures var t := HandlerStep(s); Times(t.h.taken, x) == Times(t.h.sent, x)
  {
    HandlerKeeps(s);
    OthersNotAtKill(s.m, x, n);
    assert CountOk(HandlerStep(s), x);
  }

  /** The handler of `x` at `i` was interrupted only by handlers that leave the invoker alive. */
  ghost predicate CanGoOn(s: State, x: Sig, i: nat) {
    && Running(s) && s.m.alive && i < |s.m.frames| && s.m.frames[i] == Frame(x, Kill)
    && forall j :: i < j < |s.m.frames| ==> DefaultAction(s.m.frames[j].sig) != Terminate
  }

  lemma GoesOnBelow(s: State, t: State, x: Sig, i: nat)
    requires CanGoOn(s, x, i) && i < |s.m.frames| - 1 && Running(t) && WentOn(s.m, t.m)
    ensures CanGoOn(t, x, i)
  {
  }

  lemma SendsNow(s: State, x: Sig, i: nat)
    requires CanGoOn(s, x, i) && i == |s.m.frames| - 1
    ensures Times(Run(s, [Handler]).h.taken, x) == Times(Run(s, [Handler]).h.sent, x)
  {
    NoneLeft(s, x, i);
    RunFirst(s, Handler, []);
    assert [Handler] + [] == [Handler];
  }

  /** If it was interrupted only by handlers that leave the invoker alive, these can return and the
      handler can go on to send its signal. */
  lemma {:induction false} CanStillSend(s: State, x: Sig, i: nat) returns (more: seq<Step>)
    requires CanGoOn(s, x, i)
    ensures Times(Run(s, more).h.taken, x) == Times(Run(s, more).h.sent, x)
    decreases |s.m.frames|, Rank(s.m.frames[|s.m.frames| - 1].stage)
  {
    if i == |s.m.frames| - 1 {
      SendsNow(s, x, i);
      more := [Handler];
    } else {
      var t := Next(s, Handler);
      RunningKeeps(s, Handler);
      HandlerGoesOn(s);
      GoesOnBelow(s, t, x, i);
      var rest := CanStillSend(t, x, i);
      RunFirst(s, Handler, rest);
      more := [Handler] + rest;
    }
  }

  lemma {:induction false} RunRuns(s: State, es: seq<Step>)
    requires Running(s)
    ensures Running(Run(s, es))
    decreases |es|
  {
    if es != [] {
      RunningKeeps(s, es[0]);
      RunRuns(Next(s, es[0]), es[1..]);
    }
  }

  /** Which signals are lost, exactly: those whose handler has not reached `kill` when the invoker
      dies, or when it is interrupted by the handler of a signal that terminates the invoker. */
  lemma LostExactly(es: seq<Step>, x: Sig)
    ensures var s := Run(Start(), es); Lost(s, x) <==> exists i: nat :: CutShort(s.m, x, i)
  {
    RunRuns(Start(), es);
    var s := Run(Start(), es);
    if i: nat :| CutShort(s.m, x, i) {
      forall more ensures Times(Run(s, more).h.taken, x) > Times(Run(s, more).h.sent, x) {
        CutShortForEver(s, more, x, i);
      }
    } else if NotSentYet(s.m, x) {
      var i :| 0 <= i < |s.m.frames| && s.m.frames[i] == Frame(x, Kill);
      assert !CutShort(s.m, x, i);
      var more := CanStillSend(s, x, i);
      assert !Lost(s, x);
    } else {
      Forwards(es);
      assert Run(s, []) == s;
    }
  }

  const SIGINT: Sig := 2

  lemma {:induction false} RunAppend(s: State, a: seq<Step>, b: seq<Step>)
    ensures Run(s, a + b) == Run(Run(s, a), b)
    decreases |a|
  {
    if a == [] {
      assert a + b == b;
    } else {
      assert (a + b)[1..] == a[1..] + b;
      RunAppend(Next(s, a[0]), a[1..], b);
    }
  }

  lemma TwoHandlers(up: seq<Step>, s5: State)
    requires up == [Loop(false), Arrive(SIGTERM), Deliver(SIGTERM), Arrive(SIGINT), Deliver(SIGINT)]
    requires s5 == State(Machine(true, true, 0, Select, [Frame(SIGTERM, Kill), Frame(SIGINT, Kill)], {}),
                         History([SIGTERM, SIGINT], [], []))
    ensures Run(Start(), up) == s5
  {
    var m1 := Machine(true, true, 0, Select, [], {});
    var m3 := m1.(frames := [Frame(SIGTERM, Kill)]);
    var h0, h3 := History([], [], []), History([SIGTERM], [], []);
    assert Next(Start(), Loop(false)) == State(m1, h0);
    assert Next(State(m1, h0), Arrive(SIGTERM)) == State(m1.(pending := {SIGTERM}), h0);
    assert Next(State(m1.(pending := {SIGTERM}), h0), Deliver(SIGTERM)) == State(m3, h3);
    assert Next(State(m3, h3), Arrive(SIGINT)) == State(m3.(pending := {SIGINT}), h3);
    assert Next(State(m3.(pending := {SIGINT}), h3), Deliver(SIGINT)) == s5;
    RunFirst(Start(), Loop(false), up[1..]);
    RunFirst(State(m1, h0), Arrive(SIGTERM), up[2..]);
    RunFirst(State(m1.(pending := {SIGTERM}), h0), Deliver(SIGTERM), up[3..]);
    RunFirst(State(m3, h3), Arrive(SIGINT), up[4..]);
    RunFirst(State(m3.(pending := {SIGINT}), h3), Deliver(SIGINT), []);
    assert up == [up[0]] + up[1..] && up[1..] == [up[1]] + up[2..] && up[2..] == [up[2]] + up[3..];
    assert up[3..] == [up[3]] + up[4..] && up[4..] == [up[4]] + [];
  }

  lemma LastHandler(s5: State, down: seq<Step>)
    requires s5 == State(Machine(true, true, 0, Select, [Frame(SIGTERM, Kill), Frame(SIGINT, Kill)], {}),
                         History([SIGTERM, SIGINT], [], []))
    requires down == [Handler, Handler, Handler, Handler, Handler]
    ensures var s := Run(s5, down); !s.m.alive && s.h == History([SIGTERM, SIGINT], [SIGINT], [])
  {
    var below := [Frame(SIGTERM, Kill)];
    assert s5.m.frames[..1] == below;
    var h := History([SIGTERM, SIGINT], [SIGINT], []);
    var s6 := State(s5.m.(frames := below + [Frame(SIGINT, Restore)]), h);
    var s7 := State(s6.m.(frames := below + [Frame(SIGINT, Write)], installed := false), h);
    var s8 := State(s7.m.(frames := below + [Frame(SIGINT, Raise)], pipe := 1), h);
    var s9 := State(s8.m.(frames := below + [Frame(SIGINT, Return)], pending := {SIGINT}), h);
    var s10 := State(s9.m.(frames := below, pending := {}, alive := false), h);
    assert Next(s5, Handler) == s6;
    assert Next(s6, Handler) == s7;
    assert Next(s7, Handler) == s8;
    assert Next(s8, Handler) == s9;
    assert Next(s9, Handler) == s10;
    RunFirst(s5, Handler, down[1..]);
    RunFirst(s6, Handler, down[2..]);
    RunFirst(s7, Handler, down[3..]);
    RunFirst(s8, Handler, down[4..]);
    RunFirst(s9, Handler, []);
    assert down == [down[0]] + down[1..] && down[1..] == [down[1]] + down[2..] && down[2..] == [down[2]] + down[3..];
    assert down[3..] == [down[3]] + down[4..] && down[4..] == [down[4]] + [];
  }

  /** A signal that is lost: SIGINT interrupts the handler of SIGTERM before it has called `kill`, and
      its own handler terminates the invoker. */
  lemma LosingRun()
    ensures var s := Run(Start(), [Loop(false), Arrive(SIGTERM), Deliver(SIGTERM), Arrive(SIGINT), Deliver(SIGINT),
                                   Handler, Handler, Handler, Handler, Handler]);
            !s.m.alive && s.h.taken == [SIGTERM, SIGINT] && s.h.sent == [SIGINT]
  {
    hide Next, Run, Start;
    var two := Machine(true, true, 0, Select, [Frame(SIGTERM, Kill), Frame(SIGINT, Kill)], {});
    var s5 := State(two, History([SIGTERM, SIGINT], [], []));
    var up: seq<Step> := [Loop(false), Arrive(SIGTERM), Deliver(SIGTERM), Arrive(SIGINT), Deliver(SIGINT)];
    var down: seq<Step> := [Handler, Handler, Handler, Handler, Handler];
    TwoHandlers(up, s5);
    RunAppend(Start(), up, down);
    LastHandler(s5, down);
    assert up + down == [Loop(false), Arrive(SIGTERM), Deliver(SIGTERM), Arrive(SIGINT), Deliver(SIGINT),
                         Handler, Handler, Handler, Handler, Handler];
  }
}
