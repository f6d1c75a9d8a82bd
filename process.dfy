/** The command runner, `execCommand` in src/backend/BtrfsManager.ts (and its
    copy without elevation in src/backend/TimersManager.ts).

    No process is spawned here. The operating system is an oracle `world`
    that, given every invocation issued so far (the last one being the
    command just spawned), says how that process ended. The runner records
    each invocation it is asked to run in `trace`, so the orchestration
    methods can state which commands were issued and in what order. */
module Process {
  import opened Wrappers

  /** A program and its argument vector, exactly as handed to spawn. */
  datatype Invocation = Invocation(program: string, args: seq<string>)

  /** How one spawned process ended: it closed with an exit code (null when
      a signal ended it), or it could not be spawned and the error event
      carried a message. `stdout` is whatever had been read before. */
  datatype Outcome =
    | Closed(stdout: string, stderr: string, exitCode: Option<int>)
    | SpawnFailed(stdout: string, message: string)

  /** What `execCommand` resolves with. */
  datatype CmdResult = CmdResult(stdout: string, stderr: string, code: int)

  /** The spawned invocation: with elevation the program is `pkexec` and the
      original command becomes its first argument. */
  function Wrap(command: string, args: seq<string>, elevate: bool): Invocation {
    if elevate then Invocation("pkexec", [command] + args) else Invocation(command, args)
  }

  /** The command an elevated invocation runs, as pkexec reads its argv. */
  function Unwrap(inv: Invocation): Option<Invocation> {
    if inv.program == "pkexec" && |inv.args| >= 1
    then Some(Invocation(inv.args[0], inv.args[1..]))
    else None
  }

  /** Elevation runs `pkexec` with the original command and its arguments,
      each argument kept as one element (no shell re-interpretation). */
  lemma ElevationKeepsArguments(command: string, args: seq<string>)
    ensures Wrap(command, args, true).program == "pkexec"
    ensures Unwrap(Wrap(command, args, true)) == Some(Invocation(command, args))
    ensures Wrap(command, args, false) == Invocation(command, args)
  {
    assert ([command] + args)[1..] == args;
  }

  /** The non-throwing contract: a spawn failure becomes exit code 1 with the
      error message as stderr; a null exit code becomes 0 (`code || 0`). */
  function Settle(o: Outcome): (r: CmdResult)
    ensures r.stdout == o.stdout
    ensures o.SpawnFailed? ==> r.code == 1 && r.stderr == o.message
    ensures o.Closed? ==> r.stderr == o.stderr
    ensures o.Closed? ==> (r.code == 0 <==> o.exitCode.None? || o.exitCode.value == 0)
    ensures o.Closed? && o.exitCode.Some? ==> r.code == o.exitCode.value
  {
    match o
    case Closed(out, err, code) => CmdResult(out, err, if code.None? then 0 else code.value)
    case SpawnFailed(out, message) => CmdResult(out, message, 1)
  }

  class Runner {
    /** The operating system: how each spawned process ends, given the whole
        history of invocations up to and including it. */
    const world: seq<Invocation> -> Outcome
    /** Every invocation spawned so far, oldest first. */
    var trace: seq<Invocation>

    constructor (world: seq<Invocation> -> Outcome)
      ensures this.world == world && trace == []
    {
      this.world := world;
      trace := [];
    }

    /** The result `execCommand` resolves with for the last command of `t`. */
    function Reply(t: seq<Invocation>): CmdResult {
      Settle(world(t))
    }

    /** Spawns `command` (through pkexec when `elevate`) and resolves with its
        output; never fails. */
    method Exec(command: string, args: seq<string>, elevate: bool) returns (r: CmdResult)
      modifies this
      ensures trace == old(trace) + [Wrap(command, args, elevate)]
      ensures r == Reply(trace)
    {
      trace := trace + [Wrap(command, args, elevate)];
      r := Settle(world(trace));
    }
  }
}
