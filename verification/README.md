# Session manager of Custom Claude Terminal, in Dafny

This project models the main-process session manager of Custom Claude Terminal, an Electron
desktop app. The app's terminal view runs a shell that launches the `claude` agent in a
pseudo-terminal. The manager is the module-level `sessions` map in `electron/main.ts` and the
code that uses it: the `shell:create`, `shell:write`, `shell:resize` and `shell:kill` IPC
handlers, the output and exit callbacks each process registers, and the `window-all-closed`
shutdown.

- **Launch construction** (`launch.dfy`, module `Launch`). These are pure functions of the bypass
  flag, the platform string, the optional working directory and the home directory. They give
  the agent command, the shell (`powershell.exe` or `bash`), its argument list
  (`-Command <cmd>` or `-l -c <cmd>`), the working directory (`workingDir || homedir`) and the
  fixed spawn options (`xterm-256color`, 80x24).
- **Session ids** (`session_ids.dfy`, module `SessionIds`). An id is `session-` followed by the
  decimal digits of the clock value. The clock is a parameter that stands for `Date.now()`.
  The model proves that rendering the digits is reversible. So two ids are equal exactly when
  their clock values are equal.
- **Processes** (`pty.dfy`, module `PtyProcess`). A node-pty handle becomes a `Pty` object.
  Its state is whether it runs, its size, and the log of data written to it. It also keeps the
  session id that its output and exit callbacks captured. `PtyState` is the same state as a value.
- **Registry and handlers** (`sessions.dfy`, module `Sessions`). `Registry` holds the
  `sessions` map and the log of events sent to the window (`Data(id, chunk)`, `Exit(id, code)`).
  Each handler is one method, because Node runs handlers one at a time. Each method's
  postcondition ties the new registry, viewed as a `map<string, PtyState>`, to a pure function
  of the old one (`CreatedAt`, `WrittenAt`, `ResizedAt`, `RemovedAt`). The lemmas are stated
  about those functions. The invariant `Valid` says that every registered process runs and is
  registered under the id its callbacks captured.

Platform, home directory, clock and "a window is open" (`mainWindow?.`) are parameters.

Behaviour of the code worth knowing:

- Ids are not unique. Two creates in the same millisecond give the same id, and `Map.set`
  overwrites the first entry. The displaced process keeps running, unregistered, and shutdown
  never kills it (`SameMillisecondCreateOrphans`).
- A process that was killed and whose id was then reused still delivers its exit callback
  later. That callback deletes the id, which now belongs to the newer, running process
  (`LateExitDeregistersSuccessor`).
- A registered process always runs (`Registry.Valid`), but a running process need not be
  registered.
- Registering an id that is already present is not an error. It overwrites.

## Model

| member | source | states |
|---|---|---|
| Launch.AgentCommand | electron/main.ts:103 | the command is `claude` followed by ` --dangerously-skip-permissions` in bypass mode, and `claude` alone otherwise |
| Launch.ShellProgram | electron/main.ts:97 | the shell is `powershell.exe` exactly when the platform is `win32`, otherwise `bash` |
| Launch.ShellArgs | electron/main.ts:100-110 | the command is the last argument; before it stands exactly `-Command` on win32 and exactly `-l`, `-c` elsewhere |
| Launch.ResolveCwd | electron/main.ts:98 | a present, non-empty directory is used; an absent or empty one falls back to the home directory |
| Launch.BuildLaunch | electron/main.ts:97-118 | spawn options are `xterm-256color`, 80 columns, 24 rows, the resolved cwd; args are the platform's flags followed by the agent command |
| Launch.LaunchDeterminesMode | electron/main.ts:103-110 | two launches that differ only in the bypass flag differ, so the mode is fixed by the launch |
| Launch.BypassLaunchInTmp | electron/main.ts:97-118 | a bypass launch on a POSIX host in `/tmp` is `bash -l -c "claude --dangerously-skip-permissions"` in `/tmp` |
| Launch.NormalLaunchOnWindows | electron/main.ts:97-118 | a normal launch on win32 without a directory is `powershell.exe -Command claude` in the home directory |
| SessionIds.DecimalString | electron/main.ts:95 | a clock value renders as a non-empty string of decimal digits, one digit exactly for values below 10, with no leading zero |
| SessionIds.DecimalRoundTrip | electron/main.ts:95 | reading the rendered digits back gives the clock value |
| SessionIds.SessionId | electron/main.ts:95 | an id is `session-` followed by digits only |
| SessionIds.SessionIdRoundTrip | electron/main.ts:95 | the clock value can be recovered from the id |
| SessionIds.SessionIdInjective | electron/main.ts:95 | two ids are equal exactly when their clock values are equal |
| PtyProcess.Spawned | electron/main.ts:112-118 | a spawned process runs, at the size of its options, with nothing written |
| PtyProcess.Written | electron/main.ts:139 | a write appends the data to the end of the input log and changes nothing else |
| PtyProcess.Resized | electron/main.ts:147 | a resize sets columns and rows to the given values and changes nothing else |
| PtyProcess.Stopped | electron/main.ts:155 | a stopped process no longer runs and is otherwise unchanged |
| PtyProcess.Pty.Spawn | electron/main.ts:112-118 | the new process is in the spawned state for its launch and carries the id its callbacks capture |
| PtyProcess.Pty.Write | electron/main.ts:139 | the process's new state is the written state |
| PtyProcess.Pty.Resize | electron/main.ts:147 | the process's new state is the resized state |
| PtyProcess.Pty.Kill | electron/main.ts:155 | the process's new state is the stopped state, also when it already stopped |
| Sessions.Notify | electron/main.ts:124 | with a window open the event is appended after the old log; without one the log is unchanged |
| Sessions.CreatedAt | electron/main.ts:120 | the key set gains the id, the id maps to a fresh process, other entries are unchanged, and an existing entry is overwritten |
| Sessions.WrittenAt | electron/main.ts:136-141 | an absent id changes nothing; a present one takes the data; no other entry and no key changes |
| Sessions.ResizedAt | electron/main.ts:144-149 | an absent id changes nothing; a present one takes the size; no other entry and no key changes |
| Sessions.RemovedAt | electron/main.ts:156 | the id leaves the key set, other entries are unchanged, and removing an absent id changes nothing |
| Sessions.RemoveIdempotent | electron/main.ts:152-158 | killing an id twice leaves the registry as killing it once |
| Sessions.KilledSessionIgnoresInput | electron/main.ts:136-158 | after a kill, writing to or resizing that id changes nothing |
| Sessions.ResizeThenQuery | electron/main.ts:144-149 | resizing a present session to (cols, rows) makes its size (cols, rows) |
| Sessions.CreateOverwrites | electron/main.ts:120 | creating under a present id does not grow the registry, and the old entry is lost: apart from the id, the table is what it was |
| Sessions.WritesApplyInOrder | electron/main.ts:136-141 | a sequence of writes extends that session's input log by exactly the written chunks, in order, and touches nothing else |
| Sessions.OutputKeepsOrderAndTag | electron/main.ts:123-125 | with a window open, a session's received output grows by exactly its chunks in order, and no other session's output changes |
| Sessions.Registry.constructor | electron/main.ts:27 | the registry starts empty, with no events |
| Sessions.Registry.Create | electron/main.ts:94-133 | the id is `session-<clock>`; every other id keeps its process object; the registry becomes `CreatedAt` of the built launch; a displaced process stays running but unregistered; no event is sent |
| Sessions.Registry.Write | electron/main.ts:136-141 | the registry becomes `WrittenAt`; its keys and events are unchanged |
| Sessions.Registry.Resize | electron/main.ts:144-149 | the registry becomes `ResizedAt`; its keys and events are unchanged |
| Sessions.Registry.Kill | electron/main.ts:152-158 | a present id's process is stopped and the id removed; an absent id changes nothing |
| Sessions.Registry.OnData | electron/main.ts:123-125 | the chunk is sent tagged with the process's own id, registered or not; the registry and every registered process are unchanged |
| Sessions.Registry.OnExit | electron/main.ts:127-130 | the exit is sent with the process's id and code, then that id is deleted; the process no longer runs |
| Sessions.Registry.Shutdown | electron/main.ts:71-78 | every registered process is stopped and otherwise unchanged, and the registry ends empty |
| Sessions.SameMillisecondCreateOrphans | electron/main.ts:95-120 | after two creates at the same clock and a shutdown, the first process still runs and the registry is empty |
| Sessions.LateExitDeregistersSuccessor | electron/main.ts:94-158 | kill, create at the same clock, then the killed process's exit: the new process runs but is no longer registered |

## Left out

- Window creation, bounds persistence, dev/prod loading, `activate` and the `darwin` quit branch (electron/main.ts:31-69, 80-89). These are UI plumbing.
- The settings handlers and the directory picker (electron/main.ts:161-184). They are persistence and dialog I/O.
- electron/preload.ts, src/global.d.ts, src/App.tsx and src/components/Terminal.tsx. They forward IPC or render UI. The renderer's filter on session ids is UI.
- Real node-pty behaviour is not modelled: spawning, streaming, process groups, and when exit arrives. A process is an object with state only. The environment passed to spawn (`process.env`) is not modelled.
- Sessions.Registry.Create: a `pty.spawn` that throws is not modelled. In the code the handler then rejects before `sessions.set`, so the registry is unchanged.
- Sessions.Registry.Kill: a `kill()` that throws is not modelled. In the code `sessions.delete` would then be skipped.
- Sessions.Registry.Shutdown: every kill is assumed to succeed, so every registered process ends stopped. In the code an exception from `pty.kill()` is caught and ignored, and that process's state is then unknown. Only the registry result matches the code: the map is cleared either way.
- Sessions.Registry.Resize: node-pty's own rejection of sizes that are not positive integers is not modelled. The size is stored as given.
- Sessions.Registry.Shutdown: the map is visited in no particular order, not in JavaScript's insertion order. The result does not depend on the order.
- SessionIds.SessionId: the clock is a natural number. JavaScript's exponent notation for numbers at or above 10^21 is not modelled.
- Concurrency and IPC asynchrony are not modelled. Each handler is one atomic step. A process's exit and its exit callback are one step (`OnExit`).
- Unique ids, exactly one exit per session, and no data after exit are not modelled, because the code does not promise them. `OnData` forwards output for an unregistered id as the code does.
