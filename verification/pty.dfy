/**
 * A pseudo-terminal process as the session manager sees it (the node-pty
 * `IPty` handle of electron/main.ts:112-118). The real process, its output and
 * its timing belong to a foreign library; here it is an object with state only:
 * whether it still runs, its window size, and the log of what was written to it.
 */
module PtyProcess {
  import opened Launch

  /** The observable state of one process. */
  datatype PtyState = PtyState(launch: LaunchSpec, alive: bool, cols: int, rows: int, input: seq<string>)

  /** A freshly spawned process: running, at the size its options ask for, nothing written yet. */
  function Spawned(l: LaunchSpec): (s: PtyState)
    ensures s.alive && s.input == [] && s.launch == l
    ensures s.cols == l.options.cols && s.rows == l.options.rows
  {
    PtyState(l, true, l.options.cols, l.options.rows, [])
  }

  /** `write(data)`: the data joins the end of the input, nothing else changes. */
  function Written(s: PtyState, data: string): (t: PtyState)
    ensures |t.input| == |s.input| + 1
    ensures t.input[..|s.input|] == s.input && t.input[|s.input|] == data
    ensures t.(input := s.input) == s
  {
    s.(input := s.input + [data])
  }

  /** `resize(cols, rows)`: the window size becomes the given one, nothing else changes. */
  function Resized(s: PtyState, cols: int, rows: int): (t: PtyState)
    ensures t.cols == cols && t.rows == rows
    ensures t.(cols := s.cols, rows := s.rows) == s
  {
    s.(cols := cols, rows := rows)
  }

  /** The process no longer runs (it was killed or ended on its own), nothing else changes. */
  function Stopped(s: PtyState): (t: PtyState)
    ensures !t.alive && t.(alive := s.alive) == s
  {
    s.(alive := false)
  }

  class Pty {
    /** What the process was launched with. */
    const launch: LaunchSpec
    /**
     * The session id that the handler's output and exit callbacks captured
     * when this process was created (electron/main.ts:123-130).
     */
    const sessionId: string
    var alive: bool
    var cols: int
    var rows: int
    var input: seq<string>

    function State(): PtyState
      reads this
    {
      PtyState(launch, alive, cols, rows, input)
    }

    /** `pty.spawn(shell, args, options)`. */
    constructor Spawn(l: LaunchSpec, id: string)
      ensures State() == Spawned(l) && sessionId == id
    {
      launch := l;
      sessionId := id;
      alive := true;
      cols := l.options.cols;
      rows := l.options.rows;
      input := [];
    }

    method Write(data: string)
      modifies this
      ensures State() == Written(old(State()), data)
    {
      input := input + [data];
    }

    method Resize(c: int, r: int)
      modifies this
      ensures State() == Resized(old(State()), c, r)
    {
      cols, rows := c, r;
    }

    /** `kill()`: a kill of a process that already stopped is harmless. */
    method Kill()
      modifies this
      ensures State() == Stopped(old(State()))
    {
      alive := false;
    }
  }
}
