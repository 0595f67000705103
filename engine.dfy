/** The countdown engine: the loop that runs one work or rest session.
    Wall-clock ticks, the shared pause/resume channel and the shared
    stop/start channel become one serialised stream of events; the loop
    consumes one of them per iteration after checking whether the countdown
    has run out. Durations are whole seconds. */
module Engine {
  import opened Seqs

  /** The three things one iteration of the session's select can receive. */
  datatype Event = Tick | Toggle | Stop

  /** Running, or ended by expiry (done closed) or by a stop (done left open). */
  datatype Status = Running | Completed | Stopped

  /** One session's own state: seconds left, the pause flag, and how it ended. */
  datatype Session = Session(countdown: int, paused: bool, status: Status)

  /** A run over a finite stream: the final session and how many events it consumed. */
  datatype RunResult = RunResult(session: Session, used: nat)

  /** The state at the point where the loop waits for an event: a session
      that is still running has time left. */
  predicate Settled(s: Session) {
    s.status == Running ==> s.countdown > 0
  }

  /** The check at the top of every iteration. */
  function Settle(s: Session): (t: Session)
    ensures Settled(t)
  {
    if s.status == Running && s.countdown <= 0 then s.(status := Completed) else s
  }

  /** A new session starts from its configured duration, unpaused; a
      non-positive duration completes before any event is consumed. */
  function Start(duration: int): (s: Session)
    ensures s.countdown == duration && !s.paused && Settled(s)
    ensures s.status != Stopped
    ensures s.status == Completed <==> duration <= 0
  {
    Settle(Session(duration, false, Running))
  }

  /** One iteration of the select, for a session that is waiting. */
  function Consume(s: Session, e: Event): (t: Session)
    requires s.status == Running && s.countdown > 0
    ensures Settled(t)
    // a tick counts only when not paused, and never changes the pause flag
    ensures e == Tick ==> t.paused == s.paused && s.countdown - t.countdown == (if s.paused then 0 else 1)
    // a pause/resume flips the flag and leaves the countdown alone
    ensures e == Toggle ==> t.paused != s.paused && t.countdown == s.countdown && t.status == Running
    // a stop ends the session at once, whatever is left
    ensures e == Stop ==> t.status == Stopped && t.countdown == s.countdown && t.paused == s.paused
    ensures t.status == Stopped <==> e == Stop
    // expiry happens exactly on an unpaused tick from one second left
    ensures t.status == Completed <==> e == Tick && !s.paused && s.countdown == 1
  {
    match e
    case Tick => Settle(s.(countdown := if s.paused then s.countdown else s.countdown - 1))
    case Toggle => s.(paused := !s.paused)
    case Stop => s.(status := Stopped)
  }

  /** The loop over a finite stream of events: it stops consuming once the
      session has ended, or when the stream runs out while it still runs. */
  function Exec(s: Session, evs: seq<Event>): (r: RunResult)
    requires Settled(s)
    ensures r.used <= |evs| && Settled(r.session)
    ensures s.status != Running ==> r == RunResult(s, 0)
    ensures r.session.status == Running ==> r.used == |evs|
    decreases |evs|
  {
    if s.status != Running || evs == [] then RunResult(s, 0)
    else
      var r := Exec(Consume(s, evs[0]), evs[1..]);
      RunResult(r.session, r.used + 1)
  }

  /** The session loop itself, run on a finite stream of events. It starts
      from the configured duration, unpaused, so nothing is carried over
      from an earlier session. */
  method Run(duration: int, events: seq<Event>) returns (r: RunResult)
    ensures r == Exec(Start(duration), events)
  {
    var countdown, paused := duration, false;
    var used: nat := 0;
    while true
      invariant used <= |events|
      invariant Exec(Start(duration), events) == Shift(Exec(Settle(Session(countdown, paused, Running)), events[used..]), used)
      decreases |events| - used
    {
      if countdown <= 0 {
        return RunResult(Session(countdown, paused, Completed), used);
      }
      if used == |events| {
        return RunResult(Session(countdown, paused, Running), used);
      }
      assert events[used..][1..] == events[used + 1..];
      match events[used] {
        case Tick =>
          if !paused {
            countdown := countdown - 1;
          }
        case Toggle =>
          paused := !paused;
        case Stop =>
          return RunResult(Session(countdown, paused, Stopped), used + 1);
      }
      used := used + 1;
    }
  }

  function Shift(r: RunResult, k: nat): RunResult {
    RunResult(r.session, r.used + k)
  }

  // ----- counting events -----

  /** Ticks that arrive while the session is not paused, starting from `paused`. */
  function UnpausedTicks(paused: bool, evs: seq<Event>): nat
    decreases |evs|
  {
    if evs == [] then 0
    else match evs[0]
      case Tick => (if paused then 0 else 1) + UnpausedTicks(paused, evs[1..])
      case Toggle => UnpausedTicks(!paused, evs[1..])
      case Stop => UnpausedTicks(paused, evs[1..])
  }

  /** Ticks that arrive while the session is paused, starting from `paused`. */
  function PausedTicks(paused: bool, evs: seq<Event>): nat
    decreases |evs|
  {
    if evs == [] then 0
    else match evs[0]
      case Tick => (if paused then 1 else 0) + PausedTicks(paused, evs[1..])
      case Toggle => PausedTicks(!paused, evs[1..])
      case Stop => PausedTicks(paused, evs[1..])
  }

  /** The pause flag after the given events, starting from `paused`. */
  function PausedAfter(paused: bool, evs: seq<Event>): bool
    decreases |evs|
  {
    if evs == [] then paused
    else PausedAfter(if evs[0] == Toggle then !paused else paused, evs[1..])
  }

  function Ticks(evs: seq<Event>): nat {
    if evs == [] then 0 else (if evs[0] == Tick then 1 else 0) + Ticks(evs[1..])
  }

  // ----- properties of the loop -----

  lemma PrefixTail(evs: seq<Event>, k: nat)
    requires 1 <= k <= |evs|
    ensures evs[..k][0] == evs[0] && evs[..k][1..] == evs[1..][..k - 1]
  {
  }

  /** Every tick is either paused or unpaused. */
  lemma {:induction false} TicksSplit(paused: bool, evs: seq<Event>)
    ensures Ticks(evs) == UnpausedTicks(paused, evs) + PausedTicks(paused, evs)
    decreases |evs|
  {
    if evs != [] {
      TicksSplit(if evs[0] == Toggle then !paused else paused, evs[1..]);
    }
  }

  /** Counting unpaused ticks over a prefix never gives more than over the whole. */
  lemma {:induction false} UnpausedTicksPrefix(paused: bool, evs: seq<Event>, k: nat)
    requires k <= |evs|
    ensures UnpausedTicks(paused, evs[..k]) <= UnpausedTicks(paused, evs)
    decreases k
  {
    if k > 0 {
      PrefixTail(evs, k);
      UnpausedTicksPrefix(if evs[0] == Toggle then !paused else paused, evs[1..], k - 1);
    }
  }

  /** What a run leaves behind: the countdown has dropped by exactly the
      unpaused ticks consumed, and the pause flag has flipped once per
      consumed pause/resume event. */
  lemma {:induction false} ExecAccounting(s: Session, evs: seq<Event>)
    requires Settled(s)
    ensures Exec(s, evs).session.countdown == s.countdown - UnpausedTicks(s.paused, evs[..Exec(s, evs).used])
    ensures Exec(s, evs).session.paused == PausedAfter(s.paused, evs[..Exec(s, evs).used])
    decreases |evs|
  {
    var r := Exec(s, evs);
    if s.status == Running && evs != [] {
      var t := Consume(s, evs[0]);
      ExecAccounting(t, evs[1..]);
      PrefixTail(evs, r.used);
    }
  }

  /** How a run ends. A stop is the last event consumed and no earlier
      event was a stop; expiry leaves no stop consumed and the countdown
      at exactly zero; a stop pre-empts expiry, so a stopped session still
      had time left; and while the session runs, every proper prefix of
      what it consumed has fewer unpaused ticks than the countdown. */
  lemma {:induction false} ExecEnding(s: Session, evs: seq<Event>)
    requires Settled(s) && s.status == Running
    ensures var r := Exec(s, evs);
      && (r.session.status == Running ==> r.used == |evs| && Stop !in evs && r.session.countdown > 0)
      && (r.session.status == Completed ==>
            r.used > 0 && evs[r.used - 1] == Tick && Stop !in evs[..r.used] && r.session.countdown == 0)
      && (r.session.status == Stopped ==>
            r.used > 0 && evs[r.used - 1] == Stop && Stop !in evs[..r.used - 1] && r.session.countdown > 0)
    ensures forall k :: 0 <= k < Exec(s, evs).used ==> UnpausedTicks(s.paused, evs[..k]) < s.countdown
    decreases |evs|
  {
    var r := Exec(s, evs);
    if evs != [] {
      var t := Consume(s, evs[0]);
      var r' := Exec(t, evs[1..]);
      assert r.used == r'.used + 1 && r.session == r'.session;
      if t.status == Running {
        ExecEnding(t, evs[1..]);
        assert evs[..r.used] == [evs[0]] + evs[1..][..r'.used];
        if r.session.status == Stopped {
          assert evs[..r.used - 1] == [evs[0]] + evs[1..][..r'.used - 1];
        }
      } else {
        assert r.used == 1;
        assert evs[..1] == [evs[0]];
      }
      forall k | 0 <= k < r.used
        ensures UnpausedTicks(s.paused, evs[..k]) < s.countdown
      {
        if k > 0 {
          PrefixTail(evs, k);
          assert t.countdown == s.countdown - UnpausedTicks(s.paused, [evs[0]]);
          assert UnpausedTicks(s.paused, evs[..k]) == UnpausedTicks(s.paused, [evs[0]]) + UnpausedTicks(t.paused, evs[1..][..k - 1]);
          ExecEnding(t, evs[1..]);
        }
      }
    }
  }

  /** A session of d >= 1 seconds that is not stopped completes exactly
      when it has seen d unpaused ticks: it completes iff the stream holds
      at least d of them, it consumes events up to and including the d-th
      one and no further, and the ticks it consumed are d plus those that
      arrived while paused. If the stream holds fewer, the session is
      still running with d minus the unpaused ticks left. */
  lemma CompletesAfterUnpausedTicks(d: int, evs: seq<Event>)
    requires d >= 1 && Stop !in evs
    ensures var r := Exec(Start(d), evs);
      && (r.session.status == Completed <==> UnpausedTicks(false, evs) >= d)
      && r.session.status != Stopped
      && (r.session.status == Completed ==>
            && UnpausedTicks(false, evs[..r.used]) == d
            && UnpausedTicks(false, evs[..r.used - 1]) < d
            && Ticks(evs[..r.used]) == d + PausedTicks(false, evs[..r.used]))
      && (r.session.status == Running ==> r.session.countdown == d - UnpausedTicks(false, evs))
  {
    var s := Start(d);
    var r := Exec(s, evs);
    ExecAccounting(s, evs);
    ExecEnding(s, evs);
    UnpausedTicksPrefix(false, evs, r.used);
    TicksSplit(false, evs[..r.used]);
    if r.session.status == Running {
      assert evs[..r.used] == evs;
    }
  }

  /** With no pause and no stop, a session of d >= 1 seconds completes
      after exactly d ticks, at zero. */
  lemma {:induction false} UninterruptedRun(d: int)
    requires d >= 1
    ensures Exec(Session(d, false, Running), Repeat(Tick, d)) == RunResult(Session(0, false, Completed), d)
    decreases d
  {
    var evs := Repeat(Tick, d);
    assert evs[0] == Tick && evs[1..] == Repeat(Tick, d - 1);
    if d > 1 {
      UninterruptedRun(d - 1);
    }
  }

  /** Consuming a stream in two pieces: while the session is still running
      after the first piece, the run over the whole is the run over the
      second piece started where the first left off. */
  lemma {:induction false} ExecAppend(s: Session, a: seq<Event>, b: seq<Event>)
    requires Settled(s) && Exec(s, a).session.status == Running
    ensures Exec(s, a + b) == Shift(Exec(Exec(s, a).session, b), |a|)
    decreases |a|
  {
    if a != [] {
      assert (a + b)[0] == a[0] && (a + b)[1..] == a[1..] + b;
      ExecAppend(Consume(s, a[0]), a[1..], b);
    } else {
      assert a + b == b;
    }
  }

  lemma {:induction false} TicksAppend(a: seq<Event>, b: seq<Event>)
    ensures Ticks(a + b) == Ticks(a) + Ticks(b)
    decreases |a|
  {
    if a != [] {
      assert (a + b)[0] == a[0] && (a + b)[1..] == a[1..] + b;
      TicksAppend(a[1..], b);
    } else {
      assert a + b == b;
    }
  }

  lemma {:induction false} TicksRepeat(n: nat)
    ensures Ticks(Repeat(Tick, n)) == n
    decreases n
  {
    if n > 0 {
      TicksRepeat(n - 1);
    }
  }

  /** A session of d >= 3 seconds that is paused after two ticks, sees two
      ticks while paused, is resumed and then left alone completes with the
      last event of the stream, after d + 2 ticks in all: the two paused
      ticks do not count. */
  lemma PausedRun(d: int)
    requires d >= 3
    ensures var evs := [Tick, Tick, Toggle, Tick, Tick, Toggle] + Repeat(Tick, d - 2);
      && Exec(Start(d), evs) == RunResult(Session(0, false, Completed), |evs|)
      && Ticks(evs) == d + 2
  {
    var head := [Tick, Tick, Toggle, Tick, Tick, Toggle];
    var tail := Repeat(Tick, d - 2);
    var mid := Exec(Start(d), head);
    assert mid == RunResult(Session(d - 2, false, Running), 6);
    ExecAppend(Start(d), head, tail);
    UninterruptedRun(d - 2);
    TicksAppend(head, tail);
    TicksRepeat(d - 2);
  }

  /** A ten-second session stopped after three ticks reports a stop, not
      expiry, with seven seconds left. */
  lemma StoppedAfterThreeTicks()
    ensures Exec(Start(10), [Tick, Tick, Tick, Stop]) == RunResult(Session(7, false, Stopped), 4)
  {
    var evs := [Tick, Tick, Tick, Stop];
    assert evs[1..] == [Tick, Tick, Stop] && evs[2..] == [Tick, Stop] && evs[3..] == [Stop];
  }
}
