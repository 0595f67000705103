/** The session controller as a transition function: what the stop/start
    handler and the pause/resume handler do with one event while holding
    the lock. Channels are named by numbers: every `make` of a done channel
    gives the next number. */
module ControllerSpec {
  import opened Seqs

  datatype Mode = Work | Rest | Idle

  /** What a handler does besides updating its own state: the prompt popup
      (ending session, starting session), launching a session goroutine
      (its kind, duration in seconds and done channel), closing the global
      stop channel, and forwarding a request on the pause/resume channel. */
  datatype Effect =
    | Prompt(from: string, to: string)
    | Launch(kind: string, duration: int, done: nat)
    | CloseStop
    | ForwardPauseResume

  /** The two configured session lengths, fixed for the process lifetime. */
  datatype Config = Config(workTime: int, restTime: int)

  /** The controller's state: `mode` and `prevMode`; `done`, the handler's
      current done channel; `live`, whether a session holding that channel
      is under way; `stopOpen`, whether the global stop channel is still open. */
  datatype Ctl = Ctl(mode: Mode, prevMode: Mode, done: nat, live: bool, stopOpen: bool)

  /** The events the handlers react to: the stop/start signal, the
      pause/resume signal, and the closing of a done channel. */
  datatype Signal = StopStart | PauseResume | Done(chan: nat)

  datatype Reaction = Reaction(next: Ctl, effects: seq<Effect>)

  /** At start-up the process is idle, remembers Rest, and holds a fresh
      done channel and a fresh stop channel. */
  function Init(): Ctl {
    Ctl(Idle, Rest, 0, false, true)
  }

  /** The controller's invariant. While idle the remembered mode is Rest and
      no session runs; otherwise a session runs and the stop channel is open. */
  predicate Inv(c: Ctl) {
    && c.prevMode != Idle
    && (c.mode == Idle ==> c.prevMode == Rest && !c.live)
    && (c.mode != Idle ==> c.live && c.stopOpen)
  }

  /** The handler only selects on its current done channel, and only the
      session holding it can close it. */
  predicate Deliverable(c: Ctl, sig: Signal) {
    sig.Done? ==> sig.chan == c.done && c.live
  }

  /** When a handler does not panic: "bad mode!" on a done while idle,
      "unexpected prevMode!" on a start, and closing an already closed
      stop channel on a stop. */
  predicate NoPanic(c: Ctl, sig: Signal) {
    match sig
    case Done(_) => c.mode != Idle
    case StopStart => (c.mode == Idle ==> c.prevMode == Rest) && (c.mode != Idle ==> c.stopOpen)
    case PauseResume => true
  }

  /** Work and rest follow each other. */
  function Other(m: Mode): Mode {
    match m
    case Work => Rest
    case Rest => Work
    case Idle => Idle
  }

  /** The session's name in the prompt. */
  function PromptName(m: Mode): string {
    if m == Work then "Pomodoro" else "Rest"
  }

  /** The session's name when launched. */
  function Kind(m: Mode): string {
    if m == Work then "work" else "rest"
  }

  function Duration(cfg: Config, m: Mode): int {
    if m == Work then cfg.workTime else cfg.restTime
  }

  /** One event, handled under the lock. Every done or stop/start event
      first makes a new done channel. */
  function React(cfg: Config, c: Ctl, sig: Signal): (r: Reaction)
    requires NoPanic(c, sig)
    ensures Inv(c) ==> Inv(r.next)
    ensures r.next.done >= c.done
    // stop/start and done make a new done channel first; pause/resume keeps it
    ensures r.next.done == (if sig == PauseResume then c.done else c.done + 1)
    // a launched session is handed the new channel
    ensures forall k :: 0 <= k < |r.effects| && r.effects[k].Launch? ==> r.effects[k].done == r.next.done
  {
    match sig
    case Done(_) =>
      var d := c.done + 1;
      if c.mode == Rest then
        Reaction(Ctl(Work, Rest, d, true, c.stopOpen), [Prompt("Rest", "Pomodoro"), Launch("work", cfg.workTime, d)])
      else
        Reaction(Ctl(Rest, Work, d, true, c.stopOpen), [Prompt("Pomodoro", "Rest"), Launch("rest", cfg.restTime, d)])
    case StopStart =>
      var d := c.done + 1;
      if c.mode != Idle then
        // when stopping, the next mode is always work
        Reaction(Ctl(Idle, Rest, d, false, false), [CloseStop])
      else
        Reaction(Ctl(Work, c.prevMode, d, true, true), [Launch("work", cfg.workTime, d)])
    case PauseResume =>
      if c.mode == Idle then Reaction(c, []) else Reaction(c, [ForwardPauseResume])
  }

  /** The handlers' panics cannot happen: under the invariant every event
      that can arrive is one they handle. */
  lemma NeverPanics(c: Ctl, sig: Signal)
    requires Inv(c) && Deliverable(c, sig)
    ensures NoPanic(c, sig)
  {
  }

  /** A sequence of events, in the order the lock serialises them. A done
      notification from a channel the handler no longer selects on is
      never received. */
  function Replay(cfg: Config, c: Ctl, sigs: seq<Signal>): (r: Reaction)
    requires Inv(c)
    ensures Inv(r.next)
    ensures r.next.done >= c.done
    decreases |sigs|
  {
    if sigs == [] then Reaction(c, [])
    else if !Deliverable(c, sigs[0]) then Replay(cfg, c, sigs[1..])
    else
      NeverPanics(c, sigs[0]);
      var step := React(cfg, c, sigs[0]);
      var rest := Replay(cfg, step.next, sigs[1..]);
      Reaction(rest.next, step.effects + rest.effects)
  }

  /** The kinds of the sessions launched, in order. */
  function LaunchedKinds(effects: seq<Effect>): seq<string> {
    if effects == [] then []
    else (if effects[0].Launch? then [effects[0].kind] else []) + LaunchedKinds(effects[1..])
  }

  /** The done channels handed to the sessions launched, in order. */
  function LaunchedChannels(effects: seq<Effect>): seq<nat> {
    if effects == [] then []
    else (if effects[0].Launch? then [effects[0].done] else []) + LaunchedChannels(effects[1..])
  }

  /** The done channels of `n` consecutive sessions, starting after `chan`. */
  function Completions(chan: nat, n: nat): seq<Signal>
    decreases n
  {
    if n == 0 then [] else [Done(chan)] + Completions(chan + 1, n - 1)
  }

  // ----- properties of one event -----

  /** A stop/start event during a session closes the stop channel, goes idle
      and remembers Rest; no session is launched. */
  lemma StopGoesIdle(cfg: Config, c: Ctl)
    requires Inv(c) && c.mode != Idle
    ensures var r := React(cfg, c, StopStart);
      r.next.mode == Idle && r.next.prevMode == Rest && !r.next.live && r.effects == [CloseStop]
  {
  }

  /** A stop/start event while idle launches a work session of the
      configured work length on a fresh done channel, and never a rest one. */
  lemma StartLaunchesWork(cfg: Config, c: Ctl)
    requires Inv(c) && c.mode == Idle
    ensures var r := React(cfg, c, StopStart);
      && r.next.mode == Work && r.next.prevMode == Rest && r.next.live
      && r.next.done > c.done
      && r.effects == [Launch("work", cfg.workTime, r.next.done)]
  {
  }

  /** The end of a session prompts (ending session, next session), switches
      to the other kind, remembers the one that ended, and launches the
      other kind with its configured length. */
  lemma CompletionSwitches(cfg: Config, c: Ctl)
    requires Inv(c) && Deliverable(c, Done(c.done))
    ensures var r := React(cfg, c, Done(c.done));
      && c.mode != Idle
      && r.next.mode == Other(c.mode) && r.next.mode != c.mode && r.next.prevMode == c.mode
      && r.effects == [Prompt(PromptName(c.mode), PromptName(r.next.mode)),
                       Launch(Kind(r.next.mode), Duration(cfg, r.next.mode), r.next.done)]
  {
  }

  // ----- properties of event sequences -----

  /** From start-up, whatever the events, an idle controller remembers
      Rest, so the "unexpected prevMode!" panic is unreachable, and the next
      stop/start launches a work session. */
  lemma IdleRemembersRest(cfg: Config, sigs: seq<Signal>)
    ensures var c := Replay(cfg, Init(), sigs).next;
      c.mode == Idle ==>
        (c.prevMode == Rest && NoPanic(c, StopStart)
         && React(cfg, c, StopStart).effects == [Launch("work", cfg.workTime, c.done + 1)])
  {
  }

  /** Pause/resume events never change the controller: while idle they
      are ignored, otherwise each one is forwarded to the session. */
  lemma {:induction false} PauseResumeKeepsMode(cfg: Config, c: Ctl, n: nat)
    requires Inv(c)
    ensures var r := Replay(cfg, c, Repeat(PauseResume, n));
      r.next == c && r.effects == (if c.mode == Idle then [] else Repeat(ForwardPauseResume, n))
    decreases n
  {
    if n > 0 {
      assert Repeat(PauseResume, n)[1..] == Repeat(PauseResume, n - 1);
      PauseResumeKeepsMode(cfg, c, n - 1);
    }
  }

  lemma {:induction false} LaunchedKindsAppend(a: seq<Effect>, b: seq<Effect>)
    ensures LaunchedKinds(a + b) == LaunchedKinds(a) + LaunchedKinds(b)
    decreases |a|
  {
    if a != [] {
      assert (a + b)[0] == a[0] && (a + b)[1..] == a[1..] + b;
      LaunchedKindsAppend(a[1..], b);
    } else {
      assert a + b == b;
    }
  }

  lemma {:induction false} LaunchedChannelsAppend(a: seq<Effect>, b: seq<Effect>)
    ensures LaunchedChannels(a + b) == LaunchedChannels(a) + LaunchedChannels(b)
    decreases |a|
  {
    if a != [] {
      assert (a + b)[0] == a[0] && (a + b)[1..] == a[1..] + b;
      LaunchedChannelsAppend(a[1..], b);
    } else {
      assert a + b == b;
    }
  }

  /** Replaying a received event is reacting to it, then replaying the rest. */
  lemma ReplayStep(cfg: Config, c: Ctl, sigs: seq<Signal>)
    requires Inv(c) && sigs != [] && Deliverable(c, sigs[0])
    ensures NoPanic(c, sigs[0])
    ensures var step := React(cfg, c, sigs[0]); var rest := Replay(cfg, step.next, sigs[1..]);
      Replay(cfg, c, sigs) == Reaction(rest.next, step.effects + rest.effects)
  {
  }

  /** The kind of the i-th session launched by uninterrupted completions
      that start in mode m. */
  function NthNext(m: Mode, i: nat): Mode {
    if i % 2 == 0 then Other(m) else m
  }

  lemma NthNextShift(m: Mode, i: nat)
    requires m != Idle && i > 0
    ensures NthNext(Other(m), i - 1) == NthNext(m, i)
  {
  }

  /** One completion at the head of a run of completions. */
  lemma CompletionUnfold(cfg: Config, c: Ctl, n: nat)
    requires Inv(c) && c.mode != Idle && n > 0
    ensures Inv(Ctl(Other(c.mode), c.mode, c.done + 1, true, c.stopOpen))
    ensures var next := Ctl(Other(c.mode), c.mode, c.done + 1, true, c.stopOpen);
      var whole := Replay(cfg, c, Completions(c.done, n));
      var rest := Replay(cfg, next, Completions(c.done + 1, n - 1));
      whole.next == rest.next && LaunchedKinds(whole.effects) == [Kind(Other(c.mode))] + LaunchedKinds(rest.effects)
  {
    var sigs := Completions(c.done, n);
    assert sigs[0] == Done(c.done) && sigs[1..] == Completions(c.done + 1, n - 1);
    ReplayStep(cfg, c, sigs);
    var step := React(cfg, c, Done(c.done));
    var rest := Replay(cfg, step.next, sigs[1..]);
    LaunchedKindsAppend(step.effects, rest.effects);
  }

  /** A done notification the handler does not select on changes nothing. */
  lemma ReplaySkip(cfg: Config, c: Ctl, sigs: seq<Signal>)
    requires Inv(c) && sigs != [] && !Deliverable(c, sigs[0])
    ensures Replay(cfg, c, sigs) == Replay(cfg, c, sigs[1..])
  {
  }

  /** Uninterrupted completions strictly alternate: n sessions ending one
      after another launch n sessions whose kinds alternate, beginning with
      the kind opposite to the current one, and leave the controller in the
      current mode after an even number and in the other after an odd one. */
  lemma {:induction false} CompletionsAlternate(cfg: Config, c: Ctl, n: nat)
    requires Inv(c) && c.mode != Idle
    ensures var r := Replay(cfg, c, Completions(c.done, n));
      && r.next.mode == (if n % 2 == 0 then c.mode else Other(c.mode))
      && |LaunchedKinds(r.effects)| == n
      && (forall i :: 0 <= i < n ==> LaunchedKinds(r.effects)[i] == Kind(NthNext(c.mode, i)))
    decreases n
  {
    if n > 0 {
      var next := Ctl(Other(c.mode), c.mode, c.done + 1, true, c.stopOpen);
      CompletionUnfold(cfg, c, n);
      CompletionsAlternate(cfg, next, n - 1);
      var later := LaunchedKinds(Replay(cfg, next, Completions(c.done + 1, n - 1)).effects);
      KindsShift(c.mode, later, n);
    }
  }

  /** Prefixing the kind that follows m to an alternation that starts from
      the other mode gives an alternation that starts from m. */
  lemma KindsShift(m: Mode, later: seq<string>, n: nat)
    requires m != Idle && n > 0 && |later| == n - 1
    requires forall i :: 0 <= i < n - 1 ==> later[i] == Kind(NthNext(Other(m), i))
    ensures forall i :: 0 <= i < n ==> ([Kind(Other(m))] + later)[i] == Kind(NthNext(m, i))
  {
    var all := [Kind(Other(m))] + later;
    forall i | 0 <= i < n
      ensures all[i] == Kind(NthNext(m, i))
    {
      if i > 0 {
        NthNextShift(m, i);
        assert all[i] == later[i - 1];
      }
    }
  }

  /** Every session gets a done channel of its own: the channels handed to
      launched sessions are strictly increasing, all newer than the one
      held before, and none newer than the handler's current one. So a done
      channel of a session that was stopped or has already been handled is
      never the one the handler selects on again. */
  lemma {:induction false} FreshDoneChannels(cfg: Config, c: Ctl, sigs: seq<Signal>)
    requires Inv(c)
    ensures var r := Replay(cfg, c, sigs); var chans := LaunchedChannels(r.effects);
      && (forall i :: 0 <= i < |chans| ==> c.done < chans[i] <= r.next.done)
      && (forall i, j :: 0 <= i < j < |chans| ==> chans[i] < chans[j])
    decreases |sigs|
  {
    if sigs != [] {
      if !Deliverable(c, sigs[0]) {
        ReplaySkip(cfg, c, sigs);
        FreshDoneChannels(cfg, c, sigs[1..]);
      } else {
        ReplayStep(cfg, c, sigs);
        var step := React(cfg, c, sigs[0]);
        var rest := Replay(cfg, step.next, sigs[1..]);
        FreshDoneChannels(cfg, step.next, sigs[1..]);
        LaunchedChannelsAppend(step.effects, rest.effects);
        var first := LaunchedChannels(step.effects);
        assert first == [] || (first == [step.next.done] && step.next.done == c.done + 1);
        ChannelsJoin(first, LaunchedChannels(rest.effects), c.done, step.next.done, rest.next.done);
      }
    }
  }

  /** The bookkeeping step of FreshDoneChannels: a channel newer than `lo`
      (or none) followed by increasing channels in (mid, hi] is increasing
      and lies in (lo, hi]. */
  lemma ChannelsJoin(first: seq<nat>, later: seq<nat>, lo: nat, mid: nat, hi: nat)
    requires lo <= mid <= hi
    requires first == [] || (first == [mid] && lo < mid)
    requires forall i :: 0 <= i < |later| ==> mid < later[i] <= hi
    requires forall i, j :: 0 <= i < j < |later| ==> later[i] < later[j]
    ensures forall i :: 0 <= i < |first + later| ==> lo < (first + later)[i] <= hi
    ensures forall i, j :: 0 <= i < j < |first + later| ==> (first + later)[i] < (first + later)[j]
  {
  }
}
