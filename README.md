# pomodogo — a verified model of the session controller and countdown engine

pomodogo is a Pomodoro timer driven only by two operating-system signals:
SIGUSR1 stops the running session or, when idle, starts a work session;
SIGUSR2 pauses or resumes the running session. When a work session runs out,
the process pops up a prompt ("Pomodoro ended. Rest time!") and starts a rest
session. When a rest session runs out, it prompts again and starts a work
session.

This project models the two small state machines at its core:

- **Engine** (`engine.dfy`) is the countdown loop `run`. It covers one
  session's `countdown` and `paused` state, the check at the top of every
  iteration, and the three events it can consume: a tick, a pause/resume
  request and a stop. `Run` is that loop as a method over a finite stream of
  events. It is proved equal to the specification function `Exec`, and the
  lemmas state the timing properties of `Exec`.
- **ControllerSpec** (`controller_spec.dfy`) gives the controller's
  transition function `React` for one event under the lock, with the
  invariant `Inv`. `Replay` runs `React` over a sequence of events. The
  lemmas cover sequences of events: the panics are unreachable, completions
  alternate, pause/resume never changes the mode, and every session has its
  own done channel.
- **Handlers** (`handlers.dfy`) is the controller as the program keeps it. It
  is a class whose fields are `mode`, `prevMode`, the current done channel
  and the state of the stop channel. It has one method per event, each
  proved to perform the transition of `React`. The prompt, the session
  launches, the stop broadcast and the forwarded pause/resume requests go
  into an `effects` log.
- **System** (`system.dfy`) puts the controller and its running session
  together and drives them with one stream of inputs. It holds the
  end-to-end scenarios and one finding (see below).

Channels are represented by numbers. Each `make(chan struct{})` of a done
channel yields the next number. The controller state `live` says whether a
session holding the current done channel is still under way. `stopOpen` says
whether the global stop channel is still open; closing it a second time
would panic in Go.

## Model

| member | source | states |
|---|---|---|
| `Engine.Start` | main.go:153-162 | A new session starts with its configured duration and is not paused. It completes before consuming any event exactly when the duration is not positive, and it is never started in the stopped state. |
| `Engine.Consume` | main.go:163-179 | One event. A tick lowers the countdown by exactly one when not paused and by nothing when paused. A pause/resume flips `paused` and keeps the countdown. A stop ends the session whatever time is left. The session expires exactly on an unpaused tick from one second. |
| `Engine.Exec` | main.go:157-180 | The loop consumes at most the given events. It consumes none once the session has ended. A session still running at the end has consumed every event. |
| `Engine.Run` | main.go:152-181 | The loop method, with local `countdown` and `paused`, returns exactly what `Exec(Start(duration), events)` specifies. |
| `Engine.ExecAccounting` | main.go:164-175 | After a run the countdown has dropped by exactly the number of unpaused ticks consumed. The pause flag has flipped once per pause/resume consumed. |
| `Engine.ExecEnding` | main.go:157-179 | A run still going has consumed everything, with no stop and time left. An expired run ended on a tick, with no stop consumed and the countdown at zero. A stopped run ended on its first stop, with time left, so it never both completes and stops. Before the end, every prefix has fewer unpaused ticks than the countdown. |
| `Engine.CompletesAfterUnpausedTicks` | main.go:157-175 | With duration d >= 1 and no stop, the session completes iff the stream holds at least d unpaused ticks. It completes on the d-th one. The ticks consumed are d plus the paused ones. Otherwise d minus the unpaused ticks remain. |
| `Engine.UninterruptedRun` | main.go:157-168 | d >= 1 ticks with no pause and no stop complete the session after exactly d ticks, with the countdown at zero. |
| `Engine.PausedRun` | main.go:164-175 | Two ticks, a pause, two ticks, a resume, then ticks: the session completes with the last event, after d + 2 ticks. |
| `Engine.StoppedAfterThreeTicks` | main.go:176-178 | A ten-second session stopped after three ticks reports a stop, not expiry, with seven seconds left. |
| `ControllerSpec.React` | main.go:65-125 | One event under the lock keeps the controller invariant. A stop/start or a done makes a new done channel, numbered one past the old one, and a launched session is handed that new channel. A pause/resume keeps the channel. |
| `ControllerSpec.NeverPanics` | main.go:79-104 | Under the invariant no event that can arrive reaches "bad mode!" or "unexpected prevMode!", or closes an already closed stop channel. |
| `ControllerSpec.Replay` | main.go:61-127 | Any serialised sequence of events from an invariant state keeps the invariant. A done from a channel the handler no longer selects on is never received. |
| `ControllerSpec.StopGoesIdle` | main.go:88-93 | Stop/start during a session closes the stop channel and goes idle. It remembers Rest and launches no session. |
| `ControllerSpec.StartLaunchesWork` | main.go:94-99 | Stop/start while idle launches a work session of the configured work length on a new done channel, never a rest session. |
| `ControllerSpec.CompletionSwitches` | main.go:65-78 | The end of the current session prompts with (ending name, next name) and switches to the other kind. It remembers the kind that ended and launches the other kind with its configured length. |
| `ControllerSpec.IdleRemembersRest` | main.go:92-101 | From start-up, after any events, an idle controller remembers Rest. So the next stop/start cannot panic and launches a work session. |
| `ControllerSpec.PauseResumeKeepsMode` | main.go:118-125 | Any number of pause/resume events leave the controller unchanged. They are ignored while idle and forwarded one by one otherwise. |
| `ControllerSpec.CompletionsAlternate` | main.go:68-78 | n completions in a row launch n sessions whose kinds alternate, starting with the kind opposite to the current one. The mode ends where parity says. |
| `ControllerSpec.FreshDoneChannels` | main.go:62-86 | Launched sessions get strictly increasing done channels. All of them are newer than the starting one and none is newer than the current one. |
| `Handlers.Controller.constructor` | main.go:21-31 | Start-up: idle, remembering Rest, with fresh channels and nothing done yet. |
| `Handlers.Controller.HandleStopStart` | main.go:83-106 | The exact transition for stop (idle, Rest, stop channel closed, no launch) and for start (Work, one work launch). It equals `React`. |
| `Handlers.Controller.StopSession` | main.go:88-93 | Closes the stop channel and goes idle, remembering Rest. |
| `Handlers.Controller.HandlePauseResume` | main.go:113-127 | The mode state is unchanged. The request is forwarded only when not idle. It equals `React`. |
| `Handlers.Controller.HandleDone` | main.go:65-82 | Switches to the other kind and remembers the one that ended. It prompts (ending, next) and launches the next kind on a fresh channel. It equals `React`. |
| `Handlers.FullCycle` | main.go:61-127 | A client run gives the trace Idle, Work, Rest, Work, Work, Idle: start, two completions, a pause/resume, a stop. It lists the exact prompts and launches. |
| `System.Handle` | main.go:61-181 | Every input on which the program as written and the corrected one agree keeps the process invariant. A session runs exactly while not idle, is never a stopped one, and never has more left than its mode's length. |
| `System.StepAsWritten` | main.go:118-121 | As written, the process hangs exactly on a pause/resume request that no session can receive. |
| `System.RunAsWritten` | main.go:113-127 | As written, a hung process stays hung whatever comes next. |
| `System.Step` | main.go:118-125 | Corrected, every input keeps the process invariant. |
| `System.RunAll` | main.go:61-181 | Corrected, any input stream keeps the process invariant. |
| `System.ReachableStates` | main.go:22-23 | From start-up, after any inputs: idle iff no session, idle implies remembering Rest, and the session never exceeds its configured length. |
| `System.IdlePauseIgnored` | main.go:122-124 | Pause/resume while idle changes nothing and creates no session, as written and corrected. |
| `System.PauseBeforeDoneHangs` | main.go:119-121 | As written, one pause/resume after the session closed done, before the handler received it, hangs the process for good with the mode frozen. |
| `System.PauseBeforeDoneDropped` | main.go:118-125 | Corrected, after any number of such requests the done is still received and the next session is prompted and launched. |
| `System.OneSecondSessionHangs` | main.go:157-162 | The concrete input for the hang: one-second work, start, one tick, pause/resume. The rest session is never launched. |
| `System.WorkRestWork` | main.go:65-78 | Work 2 s, rest 1 s: start, 2 ticks, done, 1 tick, done. The mode trace is Idle, Work, Rest, Work, with prompts ("Pomodoro","Rest") then ("Rest","Pomodoro"). |
| `System.StopDiscardsRemaining` | main.go:88-99 | Work 10 s: start, 3 ticks, stop leaves 7 s discarded. The next start begins a fresh 10 s session. |

## Findings

| source | as written | input that shows it | evidently intended | confidence | as-written member | corrected member |
|---|---|---|---|---|---|---|
| main.go:119-121 | When the mode is Work or Rest, the pause/resume handler sends on the unbuffered pause channel while holding the lock. If the session has just closed its done channel and returned (main.go:158-161), nothing will receive. The handler then blocks forever, and the stop/start handler waits on the lock forever. | `-ptime 1s`: SIGUSR1, one tick elapses (the session closes done and returns), then SIGUSR2 is handled before the done case takes the lock | drop the request when no session can receive it, as when idle | not executed; medium: it needs SIGUSR2 to win the lock in a short window | `System.PauseBeforeDoneHangs` | `System.PauseBeforeDoneDropped` |

`System.RunAll`, which the scenarios use, is the corrected program.
`System.RunAsWritten` and `System.OneSecondSessionHangs` show the
as-written behaviour.

## Left out

- Signal delivery, `signal.Notify`, the goroutines and the lock (main.go:28-31, 135-145) are left out. The model handles events one at a time in a given order, which is the order the lock imposes. Go's random choice among ready `select` cases is covered because any order can be given.
- `time.Tick` (main.go:155): ticks are abstract events. Only the running session's ticks are modelled.
- `t.Seconds()` (main.go:154) gives a float64 countdown. The model uses whole seconds. A duration with a fraction (such as 1.5 s) completes after the ceiling of its seconds in the source. The model does not represent such durations.
- `prompt` (main.go:36-57) starts `dmenu` and waits for it to exit. The model records only the (ending, next) names. The time spent in the popup while holding the lock is not modelled.
- Flag parsing (main.go:131-133), all printing, and the commented-out notification code (main.go:183-198) are left out.
- A stop is modelled as ending the session at once (System.Handle). In the source, a session between two `select`s that re-reads the global stop channel after a quick restart could keep running alongside the new one. That interleaving is not modelled.
- The source has only one stop/start signal. Sent while idle, it starts a work session (main.go:94-99). The model follows the code.
- The `default: panic("bad mode!")` at main.go:103-104 cannot be reached with a three-valued `Mode` type, so it has no counterpart.
