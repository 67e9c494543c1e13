/**
 * The session registry of the main process (electron/main.ts:27) and the
 * handlers that operate on it: `shell:create`, `shell:write`, `shell:resize`,
 * `shell:kill`, the output and exit callbacks each session registers, and the
 * `window-all-closed` shutdown. Node runs one handler at a time, so each is one
 * atomic step on the registry. The window is the single consumer of events;
 * what reaches it is an append-only log.
 */
module Sessions {
  import opened Wrappers
  import opened Launch
  import opened SessionIds
  import opened PtyProcess

  /** A message to the window: `shell:data` or `shell:exit`, tagged with a session id. */
  datatype Event = Data(id: string, chunk: string) | Exit(id: string, code: int)

  /** What the registry holds, seen as values: session id to process state. */
  type Table = map<string, PtyState>

  /**
   * `mainWindow?.webContents.send(...)`: the event joins the log when a
   * window is open and is dropped when there is none.
   */
  function Notify(events: seq<Event>, e: Event, windowOpen: bool): (r: seq<Event>)
    ensures |r| == |events| + (if windowOpen then 1 else 0)
    ensures r[..|events|] == events
    ensures windowOpen ==> r[|events|] == e
  {
    if windowOpen then events + [e] else events
  }

  /** `sessions.set(id, p)` with a fresh process: a present id is overwritten. */
  function CreatedAt(t: Table, id: string, l: LaunchSpec): (r: Table)
    ensures r.Keys == t.Keys + {id}
    ensures r[id] == Spawned(l)
    ensures forall k :: k in t && k != id ==> r[k] == t[k]
  {
    t[id := Spawned(l)]
  }

  /** `shell:write`: only a present session takes the data; the key set never changes. */
  function WrittenAt(t: Table, id: string, data: string): (r: Table)
    ensures r.Keys == t.Keys
    ensures forall k :: k in t && k != id ==> r[k] == t[k]
    ensures id in t ==> r[id] == Written(t[id], data)
    ensures id !in t ==> r == t
  {
    if id in t then t[id := Written(t[id], data)] else t
  }

  /** `shell:resize`: only a present session takes the size; the key set never changes. */
  function ResizedAt(t: Table, id: string, cols: int, rows: int): (r: Table)
    ensures r.Keys == t.Keys
    ensures forall k :: k in t && k != id ==> r[k] == t[k]
    ensures id in t ==> r[id] == Resized(t[id], cols, rows)
    ensures id !in t ==> r == t
  {
    if id in t then t[id := Resized(t[id], cols, rows)] else t
  }

  /** `sessions.delete(id)`: removing an absent id changes nothing. */
  function RemovedAt(t: Table, id: string): (r: Table)
    ensures r.Keys == t.Keys - {id}
    ensures forall k :: k in r ==> r[k] == t[k]
    ensures id !in t ==> r == t
  {
    t - {id}
  }

  /** `kill(id); kill(id)` leaves the registry as one `kill(id)` does. */
  lemma RemoveIdempotent(t: Table, id: string)
    ensures RemovedAt(RemovedAt(t, id), id) == RemovedAt(t, id)
  {
  }

  /** After `kill(id)`, writing to or resizing `id` changes nothing. */
  lemma KilledSessionIgnoresInput(t: Table, id: string, data: string, cols: int, rows: int)
    ensures WrittenAt(RemovedAt(t, id), id, data) == RemovedAt(t, id)
    ensures ResizedAt(RemovedAt(t, id), id, cols, rows) == RemovedAt(t, id)
  {
  }

  /** Resizing a present session to (cols, rows) and then looking at it yields (cols, rows). */
  lemma ResizeThenQuery(t: Table, id: string, cols: int, rows: int)
    requires id in t
    ensures id in ResizedAt(t, id, cols, rows)
    ensures ResizedAt(t, id, cols, rows)[id].cols == cols && ResizedAt(t, id, cols, rows)[id].rows == rows
  {
  }

  /** Creating under an id that is already present loses the old entry: the table does not grow. */
  lemma CreateOverwrites(t: Table, id: string, l: LaunchSpec)
    requires id in t
    ensures |CreatedAt(t, id, l)| == |t|
    ensures RemovedAt(CreatedAt(t, id, l), id) == RemovedAt(t, id)
  {
  }

  /** A sequence of `shell:write` calls for one id, applied one after the other. */
  function WrittenAllAt(t: Table, id: string, ds: seq<string>): Table
    decreases |ds|
  {
    if ds == [] then t else WrittenAllAt(WrittenAt(t, id, ds[0]), id, ds[1..])
  }

  /**
   * Writes reach the process in the order they were submitted, and touch
   * nothing else: the input log grows by exactly the written chunks.
   */
  lemma {:induction false} WritesApplyInOrder(t: Table, id: string, ds: seq<string>)
    ensures WrittenAllAt(t, id, ds).Keys == t.Keys
    ensures forall k :: k in t && k != id ==> WrittenAllAt(t, id, ds)[k] == t[k]
    ensures id in t ==> WrittenAllAt(t, id, ds)[id] == t[id].(input := t[id].input + ds)
    decreases |ds|
  {
    if ds != [] {
      var t' := WrittenAt(t, id, ds[0]);
      WritesApplyInOrder(t', id, ds[1..]);
      if id in t {
        assert t[id].input + ds == (t[id].input + [ds[0]]) + ds[1..];
      }
    }
  }

  /** The output chunks the window received for one session, in arrival order. */
  function DataOf(events: seq<Event>, id: string): seq<string>
  {
    if events == [] then []
    else
      var last := match events[|events| - 1]
        case Data(i, c) => if i == id then [c] else []
        case Exit(_, _) => [];
      DataOf(events[..|events| - 1], id) + last
  }

  /** The output callback of the session `id` run once per chunk, in order. */
  function ForwardAll(events: seq<Event>, id: string, chunks: seq<string>, windowOpen: bool): seq<Event>
    decreases |chunks|
  {
    if chunks == [] then events
    else ForwardAll(Notify(events, Data(id, chunks[0]), windowOpen), id, chunks[1..], windowOpen)
  }

  /**
   * Output is delivered tagged with its own session's id and in the order it
   * was produced: with a window open, the session's data grows by exactly the
   * chunks, and no other session's data changes.
   */
  lemma {:induction false} OutputKeepsOrderAndTag(events: seq<Event>, id: string, chunks: seq<string>, other: string)
    requires other != id
    ensures DataOf(ForwardAll(events, id, chunks, true), id) == DataOf(events, id) + chunks
    ensures DataOf(ForwardAll(events, id, chunks, true), other) == DataOf(events, other)
    decreases |chunks|
  {
    if chunks != [] {
      var next := events + [Data(id, chunks[0])];
      assert next[..|next| - 1] == events;
      assert DataOf(next, id) == DataOf(events, id) + [chunks[0]];
      assert DataOf(next, other) == DataOf(events, other);
      OutputKeepsOrderAndTag(next, id, chunks[1..], other);
      assert DataOf(events, id) + chunks == DataOf(events, id) + [chunks[0]] + chunks[1..];
    }
  }

  class Registry {
    /** The module-level `sessions` map. */
    var sessions: map<string, Pty>
    /** What has been sent to the window, oldest first. */
    var events: seq<Event>

    /**
     * Every registered process is registered under the id its callbacks
     * captured, and still runs. (It follows that no process is registered twice.)
     */
    ghost predicate Valid()
      reads this, sessions.Values
    {
      forall id :: id in sessions ==> sessions[id].sessionId == id && sessions[id].alive
    }

    ghost function View(): Table
      reads this, sessions.Values
    {
      map id | id in sessions :: sessions[id].State()
    }

    constructor ()
      ensures Valid() && sessions == map[] && events == []
    {
      sessions := map[];
      events := [];
    }

    /**
     * `shell:create`: spawns the launch built from the arguments, registers it
     * under `session-<clock>` and returns that id. A process already registered
     * under the same id is dropped from the registry and left running.
     */
    method Create(bypass: bool, workingDir: Option<string>, platform: string, home: string, clock: nat)
      returns (id: string)
      requires Valid()
      modifies this
      ensures Valid() && events == old(events)
      ensures id == SessionId(clock)
      ensures id in sessions && fresh(sessions[id])
      ensures sessions == old(sessions)[id := sessions[id]]
      ensures sessions.Values <= old(sessions.Values) + {sessions[id]}
      ensures View() == CreatedAt(old(View()), id, BuildLaunch(bypass, platform, workingDir, home))
      ensures id in old(sessions) ==> old(sessions)[id].alive && old(sessions)[id] !in sessions.Values
    {
      id := SessionId(clock);
      var l := BuildLaunch(bypass, platform, workingDir, home);
      var p := new Pty.Spawn(l, id);
      sessions := sessions[id := p];
    }

    /** `shell:write`: forwards the data to the session if it is registered. */
    method Write(id: string, data: string)
      requires Valid()
      modifies sessions.Values
      ensures Valid() && sessions == old(sessions) && events == old(events)
      ensures View() == WrittenAt(old(View()), id, data)
    {
      if id in sessions {
        sessions[id].Write(data);
      }
    }

    /** `shell:resize`: forwards the size to the session if it is registered. */
    method Resize(id: string, cols: int, rows: int)
      requires Valid()
      modifies sessions.Values
      ensures Valid() && sessions == old(sessions) && events == old(events)
      ensures View() == ResizedAt(old(View()), id, cols, rows)
    {
      if id in sessions {
        sessions[id].Resize(cols, rows);
      }
    }

    /** `shell:kill`: kills and deregisters the session if it is registered; otherwise does nothing. */
    method Kill(id: string)
      requires Valid()
      modifies this, sessions.Values
      ensures Valid() && events == old(events)
      ensures sessions == old(sessions) - {id}
      ensures View() == RemovedAt(old(View()), id)
      ensures id in old(sessions) ==> old(sessions)[id].State() == Stopped(old(sessions[id].State()))
    {
      if id in sessions {
        var p := sessions[id];
        p.Kill();
        sessions := sessions - {id};
      }
    }

    /**
     * The output callback of process `p`: sends the chunk tagged with the id
     * `p` was created under, whether or not that id is still registered.
     */
    method OnData(p: Pty, chunk: string, windowOpen: bool)
      requires Valid()
      modifies this
      ensures Valid() && sessions == old(sessions)
      ensures View() == old(View())
      ensures events == Notify(old(events), Data(p.sessionId, chunk), windowOpen)
    {
      events := Notify(events, Data(p.sessionId, chunk), windowOpen);
    }

    /**
     * Process `p` ends and its exit callback runs: the exit is sent first,
     * then the id `p` was created under is deleted, which is a no-op when a
     * kill already deleted it.
     */
    method OnExit(p: Pty, code: int, windowOpen: bool)
      requires Valid()
      modifies this, p
      ensures Valid()
      ensures events == Notify(old(events), Exit(p.sessionId, code), windowOpen)
      ensures sessions == old(sessions) - {p.sessionId}
      ensures View() == RemovedAt(old(View()), p.sessionId)
      ensures p.State() == Stopped(old(p.State()))
    {
      p.alive := false;
      events := Notify(events, Exit(p.sessionId, code), windowOpen);
      sessions := sessions - {p.sessionId};
    }

    /**
     * `window-all-closed`: kills every registered process, then clears the
     * registry. Apart from stopping, each process is left as it was.
     */
    method Shutdown()
      requires Valid()
      modifies this, sessions.Values
      ensures Valid() && sessions == map[] && events == old(events)
      ensures forall id :: id in old(sessions) ==> old(sessions)[id].State() == Stopped(old(sessions[id].State()))
    {
      var pending := sessions.Keys;
      while pending != {}
        invariant pending <= sessions.Keys
        invariant sessions == old(sessions) && events == old(events)
        invariant forall id :: id in sessions && id !in pending ==> sessions[id].State() == Stopped(old(sessions[id].State()))
        invariant forall id :: id in pending ==> sessions[id].State() == old(sessions[id].State())
        decreases pending
      {
        var id :| id in pending;
        sessions[id].Kill();
        pending := pending - {id};
      }
      sessions := map[];
    }
  }

  /**
   * Two creates in the same millisecond: the first process is still running
   * but no longer registered, so even shutdown does not stop it.
   */
  method SameMillisecondCreateOrphans(platform: string, home: string, clock: nat)
    returns (r: Registry, first: Pty)
    ensures r.sessions == map[]
    ensures first.alive && first.sessionId == SessionId(clock)
  {
    r := new Registry();
    var id := r.Create(false, None, platform, home, clock);
    first := r.sessions[id];
    id := r.Create(false, None, platform, home, clock);
    r.Shutdown();
  }

  /**
   * A session killed and recreated in the same millisecond: the late exit of
   * the killed process deletes the id, which now belongs to the new, still
   * running process.
   */
  method LateExitDeregistersSuccessor(platform: string, home: string, clock: nat, code: int)
    returns (r: Registry, second: Pty)
    ensures second.alive && second.sessionId == SessionId(clock)
    ensures second !in r.sessions.Values
  {
    r := new Registry();
    var id := r.Create(false, None, platform, home, clock);
    var first := r.sessions[id];
    r.Kill(id);
    id := r.Create(true, None, platform, home, clock);
    second := r.sessions[id];
    r.OnExit(first, code, true);
  }
}
