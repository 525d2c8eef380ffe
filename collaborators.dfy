/**
 * The run state the engine is handed (`fuzzer_state_t`) and the code it
 * calls but does not own: the instrumentation harness that runs one
 * iteration (`do_fuzz_iteration`), the liveness probe (`kill(pid, 0)`), the
 * respawn (`spawn_or_attach`), the teardown (`do_exit`) and the timer
 * (`_stop_measure`).
 *
 * Those collaborators are oracles: a `Target` says, for the iteration that
 * starts when `total_payload_count` is `n`, what each of them answers. The
 * `Harness` object answers from its `Target` and keeps a log of the calls,
 * so that how often each collaborator is called can be stated.
 */
module Fuzzer {
  import opened Protocol

  datatype ExecMode = Spawn | Attach

  /** The fields of `fuzzer_state_t` the engine uses; `execMode` and `metrics` come from its config. */
  class FuzzerState {
    var execRetStatus: bv32
    var totalPayloadCount: nat
    var mutationTime: nat
    var coverageTime: nat
    var targetPid: int
    const execMode: ExecMode
    const metrics: bool

    constructor (targetPid: int, execMode: ExecMode, metrics: bool)
      ensures this.targetPid == targetPid && this.execMode == execMode && this.metrics == metrics
      ensures execRetStatus == 0 && totalPayloadCount == 0 && mutationTime == 0 && coverageTime == 0
    {
      this.execRetStatus := 0;
      this.totalPayloadCount := 0;
      this.mutationTime := 0;
      this.coverageTime := 0;
      this.targetPid := targetPid;
      this.execMode := execMode;
      this.metrics := metrics;
    }
  }
}

module Collaborators {
  import opened Protocol
  import opened Channels
  import opened Fuzzer

  /** One call into a collaborator: an iteration on `len` bytes, a probe of `pid`, a respawn, a teardown. */
  datatype Call = Fuzz(len: nat) | Probe(pid: int) | Respawn | Exit

  datatype Target = Target(
    fuzz: (nat, seq<bv8>) -> Option<bv32>,   // the status do_fuzz_iteration stores, if it stores one
    alive: (nat, int) -> bool,               // kill(pid, 0) != -1
    respawn: nat -> Option<int>,             // spawn_or_attach: the new target PID, or failure
    mutationDelay: nat -> nat)               // microseconds since the mutation timer started

  /** The execution status after an iteration that stored `effect`, starting from `status`. */
  function Executed(effect: Option<bv32>, status: bv32): bv32 {
    match effect
    case Some(s) => s
    case None => status
  }

  class Harness {
    const target: Target
    var calls: seq<Call>

    constructor (target: Target)
      ensures this.target == target && calls == []
    {
      this.target := target;
      this.calls := [];
    }

    /** `_stop_measure(mut_timer)` in the iteration that starts at payload count `round`. */
    method StopMeasure(round: nat) returns (elapsed: nat)
      ensures elapsed == target.mutationDelay(round)
    {
      elapsed := target.mutationDelay(round);
    }

    method DoFuzzIteration(fs: FuzzerState, buf: array<bv8>, len: nat)
      requires len <= buf.Length
      modifies this, fs`execRetStatus
      ensures calls == old(calls) + [Fuzz(len)]
      ensures fs.execRetStatus == Executed(target.fuzz(fs.totalPayloadCount, buf[..len]), old(fs.execRetStatus))
    {
      fs.execRetStatus := Executed(target.fuzz(fs.totalPayloadCount, buf[..len]), fs.execRetStatus);
      calls := calls + [Fuzz(len)];
    }

    /** `kill(fs->target_pid, 0) != -1`. */
    method TargetAlive(fs: FuzzerState) returns (alive: bool)
      modifies this
      ensures alive == target.alive(fs.totalPayloadCount, fs.targetPid)
      ensures calls == old(calls) + [Probe(fs.targetPid)]
    {
      alive := target.alive(fs.totalPayloadCount, fs.targetPid);
      calls := calls + [Probe(fs.targetPid)];
    }

    method SpawnOrAttach(fs: FuzzerState) returns (ok: bool)
      modifies this, fs`targetPid
      ensures ok == target.respawn(fs.totalPayloadCount).Some?
      ensures fs.targetPid == if ok then target.respawn(fs.totalPayloadCount).value else old(fs.targetPid)
      ensures calls == old(calls) + [Respawn]
    {
      var pid := target.respawn(fs.totalPayloadCount);
      ok := pid.Some?;
      if ok {
        fs.targetPid := pid.value;
      }
      calls := calls + [Respawn];
    }

    method DoExit(fs: FuzzerState)
      modifies this
      ensures calls == old(calls) + [Exit]
    {
      calls := calls + [Exit];
    }
  }
}
