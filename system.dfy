/** The whole process: the controller and the session it supervises,
    driven by one serialised stream of inputs (the two signals, the ticks
    of the running session, and the stop/start handler receiving a closed
    done channel). A session that sees its countdown reach zero closes its
    done channel at once; the handler receives it later, as a separate
    input, and in between other signals may be handled first. */
module System {
  import Engine
  import opened ControllerSpec
  import opened Seqs

  /** The session holding the handler's current done channel, if any. */
  datatype Slot = NoSession | Active(session: Engine.Session)

  /** The controller, its session, and everything the handlers have done. */
  datatype Sys = Sys(ctl: Ctl, slot: Slot, log: seq<Effect>)

  datatype Input = StopStartSignal | PauseResumeSignal | TickElapsed | DoneNotified

  /** The process either goes on, or is stuck for good. */
  datatype Progress = Proceeds(sys: Sys) | Hung(sys: Sys)

  function Boot(): Sys {
    Sys(Init(), NoSession, [])
  }

  /** A session runs exactly while the controller is not idle; it is never
      one that was stopped, and it never has more time left than the
      configured length of the current mode. */
  predicate SysInv(cfg: Config, s: Sys) {
    && Inv(s.ctl)
    && (s.ctl.live <==> s.slot.Active?)
    && (s.slot.Active? ==>
          && Engine.Settled(s.slot.session)
          && s.slot.session.status != Engine.Stopped
          && s.slot.session.countdown <= Duration(cfg, s.ctl.mode))
  }

  /** The session is waiting in its select, so it can receive. */
  predicate Receiving(s: Sys) {
    s.slot.Active? && s.slot.session.status == Engine.Running
  }

  /** A pause/resume request that no session can receive: the controller is
      not idle, but its session has already closed its done channel and
      returned, and the handler has not yet received that. */
  predicate Unreceivable(s: Sys, i: Input) {
    i == PauseResumeSignal && s.ctl.mode != Idle && !Receiving(s)
  }

  /** Every input on which the program as written and the corrected one agree.
      A stop ends the session, which returns without closing its done
      channel; a start, or the handling of a closed done channel, starts a
      fresh session of the new mode's configured length. */
  function Handle(cfg: Config, s: Sys, i: Input): (t: Sys)
    requires SysInv(cfg, s) && !Unreceivable(s, i)
    ensures SysInv(cfg, t)
  {
    match i
    case TickElapsed =>
      if Receiving(s) then s.(slot := Active(Engine.Consume(s.slot.session, Engine.Tick))) else s
    case DoneNotified =>
      if s.slot.Active? && s.slot.session.status == Engine.Completed then
        var r := React(cfg, s.ctl, Done(s.ctl.done));
        Sys(r.next, Active(Engine.Start(Duration(cfg, r.next.mode))), s.log + r.effects)
      else s
    case StopStartSignal =>
      var r := React(cfg, s.ctl, StopStart);
      Sys(r.next, if s.ctl.mode == Idle then Active(Engine.Start(cfg.workTime)) else NoSession, s.log + r.effects)
    case PauseResumeSignal =>
      var r := React(cfg, s.ctl, PauseResume);
      Sys(r.next, if s.ctl.mode == Idle then s.slot else Active(Engine.Consume(s.slot.session, Engine.Toggle)),
          s.log + r.effects)
  }

  /** The program as written: an unreceivable pause/resume request blocks
      the handler forever in its send, while it holds the lock that every
      other handler needs. */
  function StepAsWritten(cfg: Config, s: Sys, i: Input): (p: Progress)
    requires SysInv(cfg, s)
    ensures SysInv(cfg, p.sys)
    ensures p.Hung? <==> Unreceivable(s, i)
  {
    if Unreceivable(s, i) then Hung(s) else Proceeds(Handle(cfg, s, i))
  }

  function RunAsWritten(cfg: Config, p: Progress, inputs: seq<Input>): (q: Progress)
    requires SysInv(cfg, p.sys)
    ensures SysInv(cfg, q.sys)
    ensures p.Hung? ==> q == p
    decreases |inputs|
  {
    if inputs == [] || p.Hung? then p
    else RunAsWritten(cfg, StepAsWritten(cfg, p.sys, inputs[0]), inputs[1..])
  }

  /** The corrected program: a pause/resume request with no session to
      receive it is dropped, as it is while idle. */
  function Step(cfg: Config, s: Sys, i: Input): (t: Sys)
    requires SysInv(cfg, s)
    ensures SysInv(cfg, t)
  {
    if Unreceivable(s, i) then s else Handle(cfg, s, i)
  }

  function RunAll(cfg: Config, s: Sys, inputs: seq<Input>): (t: Sys)
    requires SysInv(cfg, s)
    ensures SysInv(cfg, t)
    decreases |inputs|
  {
    if inputs == [] then s else RunAll(cfg, Step(cfg, s, inputs[0]), inputs[1..])
  }

  /** The controller's mode after each input. */
  function Modes(cfg: Config, s: Sys, inputs: seq<Input>): (ms: seq<Mode>)
    requires SysInv(cfg, s)
    ensures |ms| == |inputs|
    decreases |inputs|
  {
    if inputs == [] then []
    else var t := Step(cfg, s, inputs[0]); [t.ctl.mode] + Modes(cfg, t, inputs[1..])
  }

  // ----- properties of the whole process -----

  /** Whatever the inputs, from start-up: a session runs exactly while the
      controller is not idle, an idle controller remembers Rest, and the
      running session never has more left than its configured length. */
  lemma ReachableStates(cfg: Config, inputs: seq<Input>)
    ensures var s := RunAll(cfg, Boot(), inputs);
      && (s.ctl.mode == Idle <==> s.slot == NoSession)
      && (s.ctl.mode == Idle ==> s.ctl.prevMode == Rest)
      && (s.slot.Active? ==> s.slot.session.countdown <= Duration(cfg, s.ctl.mode))
  {
  }

  /** A pause/resume request while idle changes nothing and creates no session. */
  lemma IdlePauseIgnored(cfg: Config, s: Sys)
    requires SysInv(cfg, s) && s.ctl.mode == Idle
    ensures Step(cfg, s, PauseResumeSignal) == s
    ensures StepAsWritten(cfg, s, PauseResumeSignal) == Proceeds(s)
  {
  }

  lemma {:induction false} RunAsWrittenAppend(cfg: Config, p: Progress, a: seq<Input>, b: seq<Input>)
    requires SysInv(cfg, p.sys)
    ensures RunAsWritten(cfg, p, a + b) == RunAsWritten(cfg, RunAsWritten(cfg, p, a), b)
    decreases |a|
  {
    if a == [] {
      assert a + b == b;
    } else if p.Proceeds? {
      assert (a + b)[0] == a[0] && (a + b)[1..] == a[1..] + b;
      RunAsWrittenAppend(cfg, StepAsWritten(cfg, p.sys, a[0]), a[1..], b);
    }
  }

  /** In the program as written, once a session has closed its done channel
      and before the handler has received it, a single pause/resume request
      hangs the process: whatever comes after, the mode never changes again
      and no further prompt or session ever happens. */
  lemma {:induction false} PauseBeforeDoneHangs(cfg: Config, s: Sys, more: seq<Input>)
    requires SysInv(cfg, s) && s.slot.Active? && s.slot.session.status == Engine.Completed
    ensures var p := RunAsWritten(cfg, Proceeds(s), [PauseResumeSignal] + more);
      p == Hung(s) && p.sys.ctl.mode == s.ctl.mode && p.sys.log == s.log
  {
  }

  /** In the corrected program the same requests are dropped: after any
      number of them the closed done channel is still received, and the
      controller switches to the other kind of session and launches it. */
  lemma {:induction false} PauseBeforeDoneDropped(cfg: Config, s: Sys, n: nat)
    requires SysInv(cfg, s) && s.slot.Active? && s.slot.session.status == Engine.Completed
    ensures var t := RunAll(cfg, s, Repeat(PauseResumeSignal, n) + [DoneNotified]);
      && t.ctl.mode == Other(s.ctl.mode) && t.ctl.prevMode == s.ctl.mode
      && t.log == s.log + [Prompt(PromptName(s.ctl.mode), PromptName(t.ctl.mode)),
                           Launch(Kind(t.ctl.mode), Duration(cfg, t.ctl.mode), t.ctl.done)]
      && t.slot == Active(Engine.Start(Duration(cfg, t.ctl.mode)))
    decreases n
  {
    var inputs := Repeat(PauseResumeSignal, n) + [DoneNotified];
    if n == 0 {
      assert inputs == [DoneNotified];
    } else {
      assert inputs[0] == PauseResumeSignal && inputs[1..] == Repeat(PauseResumeSignal, n - 1) + [DoneNotified];
      assert Step(cfg, s, PauseResumeSignal) == s;
      PauseBeforeDoneDropped(cfg, s, n - 1);
    }
  }

  /** The input that shows the hang: one-second work sessions; start; one
      tick (the session closes its done channel and returns); a
      pause/resume request before the handler has received the done
      notification. The rest session is never launched. */
  lemma OneSecondSessionHangs(more: seq<Input>)
    ensures var cfg := Config(1, 1);
      var p := RunAsWritten(cfg, Proceeds(Boot()), [StopStartSignal, TickElapsed, PauseResumeSignal] + more);
      p.Hung? && p.sys.ctl.mode == Work && p.sys.log == [Launch("work", 1, 1)]
  {
    var cfg := Config(1, 1);
    var s := Handle(cfg, Handle(cfg, Boot(), StopStartSignal), TickElapsed);
    assert s.slot == Active(Engine.Session(0, false, Engine.Completed));
    RunAsWrittenAppend(cfg, Proceeds(Boot()), [StopStartSignal, TickElapsed], [PauseResumeSignal] + more);
    assert [StopStartSignal, TickElapsed, PauseResumeSignal] + more == [StopStartSignal, TickElapsed] + ([PauseResumeSignal] + more);
    assert RunAsWritten(cfg, Proceeds(Boot()), [StopStartSignal, TickElapsed]) == Proceeds(s);
    PauseBeforeDoneHangs(cfg, s, more);
  }

  /** Work of two seconds, rest of one: start, two ticks, the work session
      ends, one tick, the rest session ends. The mode goes Idle, Work, Rest,
      Work and the prompts name the sessions that end and begin. */
  lemma WorkRestWork()
    ensures var cfg := Config(2, 1);
      var inputs := [StopStartSignal, TickElapsed, TickElapsed, DoneNotified, TickElapsed, DoneNotified];
      && Modes(cfg, Boot(), inputs) == [Work, Work, Work, Rest, Rest, Work]
      && RunAll(cfg, Boot(), inputs).log
         == [Launch("work", 2, 1), Prompt("Pomodoro", "Rest"), Launch("rest", 1, 2),
             Prompt("Rest", "Pomodoro"), Launch("work", 2, 3)]
  {
    var cfg := Config(2, 1);
    var inputs := [StopStartSignal, TickElapsed, TickElapsed, DoneNotified, TickElapsed, DoneNotified];
    var s1 := Step(cfg, Boot(), StopStartSignal);
    var s2 := Step(cfg, s1, TickElapsed);
    var s3 := Step(cfg, s2, TickElapsed);
    var s4 := Step(cfg, s3, DoneNotified);
    var s5 := Step(cfg, s4, TickElapsed);
    var s6 := Step(cfg, s5, DoneNotified);
    assert s3.slot == Active(Engine.Session(0, false, Engine.Completed));
    assert s5.slot == Active(Engine.Session(0, false, Engine.Completed));
    assert inputs[1..] == [TickElapsed, TickElapsed, DoneNotified, TickElapsed, DoneNotified];
    assert inputs[2..] == [TickElapsed, DoneNotified, TickElapsed, DoneNotified];
    assert inputs[3..] == [DoneNotified, TickElapsed, DoneNotified];
    assert inputs[4..] == [TickElapsed, DoneNotified];
    assert inputs[5..] == [DoneNotified];
  }

  /** Work of ten seconds: start, three ticks, stop. The session is
      stopped with seven seconds left and discarded; the next start
      begins a fresh work session of ten seconds. */
  lemma StopDiscardsRemaining()
    ensures var cfg := Config(10, 5);
      var running := RunAll(cfg, Boot(), [StopStartSignal, TickElapsed, TickElapsed, TickElapsed]);
      var stopped := Step(cfg, running, StopStartSignal);
      var restarted := Step(cfg, stopped, StopStartSignal);
      && running.slot == Active(Engine.Session(7, false, Engine.Running))
      && stopped.ctl.mode == Idle && stopped.slot == NoSession
      && stopped.log == [Launch("work", 10, 1), CloseStop]
      && restarted.ctl.mode == Work && restarted.slot == Active(Engine.Session(10, false, Engine.Running))
  {
    var inputs := [StopStartSignal, TickElapsed, TickElapsed, TickElapsed];
    assert inputs[1..] == [TickElapsed, TickElapsed, TickElapsed];
    assert inputs[2..] == [TickElapsed, TickElapsed];
    assert inputs[3..] == [TickElapsed];
  }
}
