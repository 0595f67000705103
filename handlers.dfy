/** The session controller as the program keeps it: mutable mode state
    shared by the two signal handlers, each handler a method that runs
    under the lock. The prompt popup and the session goroutines are
    recorded in `effects` instead of being performed. */
module Handlers {
  import opened ControllerSpec

  class Controller {
    var mode: Mode
    var prevMode: Mode
    /** The stop/start handler's current done channel. */
    var done: nat
    /** A session holding the current done channel is under way. */
    var live: bool
    /** The global stop/start channel has not been closed. */
    var stopOpen: bool
    /** Prompts, session launches, stop broadcasts and forwarded pause/resume
        requests, in the order the handlers performed them. */
    var effects: seq<Effect>
    const cfg: Config

    function State(): Ctl
      reads this
    {
      Ctl(mode, prevMode, done, live, stopOpen)
    }

    predicate Valid()
      reads this
    {
      Inv(State())
    }

    /** Start-up: idle, remembering Rest, with fresh channels. */
    constructor (workTime: int, restTime: int)
      ensures Valid()
      ensures cfg == Config(workTime, restTime)
      ensures mode == Idle && prevMode == Rest && State() == Init() && effects == []
    {
      cfg := Config(workTime, restTime);
      mode, prevMode := Idle, Rest;
      done, live, stopOpen := 0, false, true;
      effects := [];
    }

    /** The stop/start signal: stop the running session and go idle, or,
        when idle, start a work session. */
    method HandleStopStart()
      requires Valid()
      requires mode == Idle ==> prevMode == Rest
      requires mode != Idle ==> stopOpen
      modifies this
      ensures Valid()
      ensures done == old(done) + 1
      ensures old(mode) != Idle ==>
        mode == Idle && prevMode == Rest && !live && !stopOpen && effects == old(effects) + [CloseStop]
      ensures old(mode) == Idle ==>
        && mode == Work && prevMode == old(prevMode) && live && stopOpen
        && effects == old(effects) + [Launch("work", cfg.workTime, done)]
      ensures Reaction(State(), effects[|old(effects)|..]) == React(cfg, old(State()), StopStart)
    {
      done := done + 1;
      match mode {
        case Work =>
          StopSession();
        case Rest =>
          StopSession();
        case Idle =>
          if prevMode == Rest {
            stopOpen := true;
            mode := Work;
            live := true;
            effects := effects + [Launch("work", cfg.workTime, done)];
          } else {
            assert false;
          }
      }
    }

    /** Broadcast the stop to the running session and go idle; when
        stopping, the next mode is always work. */
    method StopSession()
      requires stopOpen
      modifies this`stopOpen, this`live, this`prevMode, this`mode, this`effects
      ensures mode == Idle && prevMode == Rest && !live && !stopOpen
      ensures effects == old(effects) + [CloseStop]
    {
      effects := effects + [CloseStop];
      stopOpen := false;
      live := false;
      prevMode := Rest;
      mode := Idle;
    }

    /** The pause/resume signal: forwarded to the running session, ignored
        while idle. The mode state never changes. */
    method HandlePauseResume()
      requires Valid()
      modifies this`effects
      ensures Valid()
      ensures State() == old(State())
      ensures effects == old(effects) + (if mode == Idle then [] else [ForwardPauseResume])
      ensures Reaction(State(), effects[|old(effects)|..]) == React(cfg, old(State()), PauseResume)
    {
      match mode {
        case Work =>
          effects := effects + [ForwardPauseResume];
        case Rest =>
          effects := effects + [ForwardPauseResume];
        case Idle =>
      }
    }

    /** The current session closed its done channel: prompt the user, switch
        to the other kind of session and launch it on a fresh channel. */
    method HandleDone(chan: nat)
      requires Valid()
      requires chan == done && live
      requires mode != Idle
      modifies this
      ensures Valid()
      ensures done == old(done) + 1 && live && stopOpen == old(stopOpen)
      ensures prevMode == old(mode) && mode == Other(old(mode)) && mode != Idle
      ensures effects == old(effects) + [Prompt(PromptName(old(mode)), PromptName(mode)),
                                         Launch(Kind(mode), Duration(cfg, mode), done)]
      ensures Reaction(State(), effects[|old(effects)|..]) == React(cfg, old(State()), Done(chan))
    {
      done := done + 1;
      match mode {
        case Rest =>
          prevMode := mode;
          mode := Work;
          effects := effects + [Prompt("Rest", "Pomodoro"), Launch("work", cfg.workTime, done)];
        case Work =>
          prevMode := mode;
          mode := Rest;
          effects := effects + [Prompt("Pomodoro", "Rest"), Launch("rest", cfg.restTime, done)];
        case Idle =>
          assert false;
      }
    }
  }

  /** A client that drives one controller through start, a completed work
      session, a completed rest session, a pause/resume and a stop, and
      checks the mode trace Idle, Work, Rest, Work, Work, Idle. */
  method FullCycle(workTime: int, restTime: int) returns (trace: seq<Mode>, effects: seq<Effect>)
    ensures trace == [Idle, Work, Rest, Work, Work, Idle]
    ensures effects == [Launch("work", workTime, 1),
                        Prompt("Pomodoro", "Rest"), Launch("rest", restTime, 2),
                        Prompt("Rest", "Pomodoro"), Launch("work", workTime, 3),
                        ForwardPauseResume,
                        CloseStop]
  {
    var c := new Controller(workTime, restTime);
    trace := [c.mode];
    c.HandleStopStart();
    trace := trace + [c.mode];
    c.HandleDone(c.done);
    trace := trace + [c.mode];
    c.HandleDone(c.done);
    trace := trace + [c.mode];
    c.HandlePauseResume();
    trace := trace + [c.mode];
    c.HandleStopStart();
    trace := trace + [c.mode];
    effects := c.effects;
  }
}
