/**
 * The forkserver main loop, `run_forkserver`.
 *
 * `RunState` is everything one run can change: the fields of the fuzzer
 * state, the test-case buffer, the channels and the log of collaborator
 * calls. `Body` is one pass through the loop after a test case was taken in
 * (execute, probe, recover or give up, report), `Round` is the intake and
 * that pass, `Loop` repeats rounds until one of them ends the run, and
 * `Run` puts the handshake in front. `RunForkserver` is the imperative loop
 * over the live objects, proved to end in the state `Run` describes; its
 * body is `Iteration`, split into the same phases as `Body`.
 */
module Engine {
  import opened Protocol
  import opened Channels
  import opened Transactions
  import opened Fuzzer
  import opened Collaborators

  datatype RunState = RunState(
    execRetStatus: bv32,
    totalPayloadCount: nat,
    mutationTime: nat,
    targetPid: int,
    buf: seq<bv8>,
    wire: Wire,
    calls: seq<Call>)

  /** The state after one pass of the loop body, and whether the loop goes on. */
  datatype Step = Step(proceed: bool, state: RunState)

  /** The buffer after `bzero(buf, len)`. */
  function Zeroed(s: seq<bv8>, len: nat): (r: seq<bv8>)
    requires len <= |s|
    ensures |r| == |s|
    ensures forall k :: 0 <= k < len ==> r[k] == 0
    ensures forall k :: len <= k < |s| ==> r[k] == s[k]
  {
    seq(len, _ => 0) + s[len..]
  }

  /**
   * `_end_testcase(exec_ret_status)` and, when it succeeds, the reset of the
   * status, the clearing of the payload and the count of the iteration.
   */
  function Report(p: RunState, len: nat): (r: Step)
    requires len <= |p.buf|
    ensures r.proceed <==> 0 < p.wire.writesLeft
    ensures r.state.wire.toFuzzer == if r.proceed then p.wire.toFuzzer + [p.execRetStatus] else p.wire.toFuzzer
    ensures r.state.calls == p.calls && r.state.targetPid == p.targetPid
  {
    var sent := PutWord(p.wire, p.execRetStatus);
    if !sent.ok then Step(false, p.(wire := sent.wire))
    else Step(true, p.(wire := sent.wire, execRetStatus := 0, buf := Zeroed(p.buf, len),
                       totalPayloadCount := p.totalPayloadCount + 1))
  }

  /** Error word out, teardown, loop left. */
  function Fatal(p: RunState, code: bv32): (r: RunState)
    ensures r.wire.toFuzzer == if 0 < p.wire.writesLeft then p.wire.toFuzzer + [ErrorWord(code)] else p.wire.toFuzzer
    ensures r.calls == p.calls + [Exit]
    ensures r.wire.fromFuzzer == p.wire.fromFuzzer && r.wire.stdin == p.wire.stdin
    ensures r.totalPayloadCount == p.totalPayloadCount && r.buf == p.buf
  {
    p.(wire := PutWord(p.wire, ErrorWord(code)).wire, calls := p.calls + [Exit])
  }

  /**
   * The mutation timer is read, `do_fuzz_iteration` runs on the payload and
   * the target is probed; the iteration is the one that starts at the
   * current payload count.
   */
  function Execute(p: RunState, len: nat, t: Target): (r: RunState)
    requires len <= |p.buf|
    ensures r.wire == p.wire && r.buf == p.buf
    ensures r.totalPayloadCount == p.totalPayloadCount && r.targetPid == p.targetPid
    ensures p.mutationTime <= r.mutationTime
    ensures r.calls == p.calls + [Fuzz(len), Probe(p.targetPid)]
  {
    var round := p.totalPayloadCount;
    p.(mutationTime := p.mutationTime + t.mutationDelay(round),
       execRetStatus := Executed(t.fuzz(round, p.buf[..len]), p.execRetStatus),
       calls := p.calls + [Fuzz(len), Probe(p.targetPid)])
  }

  /** The target was found dead: respawn it in spawn mode, give up in attach mode. */
  function Recover(p: RunState, len: nat, mode: ExecMode, respawn: Option<int>): (r: Step)
    requires len <= |p.buf|
    ensures r.proceed ==> mode.Spawn? && respawn.Some? && r.state.targetPid == respawn.value
    ensures mode.Spawn? ==> r.state.calls == p.calls + [Respawn] + (if respawn.Some? then [] else [Exit])
    ensures mode.Attach? ==> r.state.calls == p.calls + [Exit]
    ensures !r.proceed ==> r.state.totalPayloadCount == p.totalPayloadCount && r.state.buf == p.buf
  {
    if mode.Spawn? then
      var respawned := p.(calls := p.calls + [Respawn]);
      match respawn
      case Some(pid) => Report(respawned.(targetPid := pid), len)
      case None => Step(false, Fatal(respawned, FsErrorTargetCrashed))
    else Step(false, Fatal(p, FsErrorTargetNoAttach))
  }

  /** One pass of the loop body on a test case of `len` bytes. */
  function Body(p: RunState, len: nat, mode: ExecMode, t: Target): (r: Step)
    requires 0 < len <= |p.buf|
    ensures r.state.wire.fromFuzzer == p.wire.fromFuzzer && r.state.wire.stdin == p.wire.stdin
    ensures |r.state.buf| == |p.buf|
    ensures p.mutationTime <= r.state.mutationTime
    ensures p.calls <= r.state.calls
    ensures r.proceed ==>
              && r.state.totalPayloadCount == p.totalPayloadCount + 1
              && r.state.execRetStatus == 0
              && r.state.buf == Zeroed(p.buf, len)
              && |r.state.wire.toFuzzer| == |p.wire.toFuzzer| + 1
              && p.wire.toFuzzer <= r.state.wire.toFuzzer
    ensures !r.proceed ==>
              && r.state.totalPayloadCount == p.totalPayloadCount
              && r.state.buf == p.buf
              && (|| r.state.wire.toFuzzer == p.wire.toFuzzer
                  || r.state.wire.toFuzzer == p.wire.toFuzzer + [ErrorWord(FsErrorTargetCrashed)]
                  || r.state.wire.toFuzzer == p.wire.toFuzzer + [ErrorWord(FsErrorTargetNoAttach)])
  {
    var executed := Execute(p, len, t);
    if t.alive(p.totalPayloadCount, p.targetPid) then Report(executed, len)
    else Recover(executed.(execRetStatus := Sigsegv), len, mode, t.respawn(p.totalPayloadCount))
  }

  /** What a round that ends the loop writes: nothing, the PID, or the PID and a fatal error word. */
  predicate LastFrame(ws: seq<bv32>) {
    && |ws| <= 2
    && (0 < |ws| ==> ws[0] == DummyChildPid)
    && (|ws| == 2 ==> ws[1] == ErrorWord(FsErrorTargetCrashed) || ws[1] == ErrorWord(FsErrorTargetNoAttach))
  }

  /** A log in which the teardown, if it happens, is the last call and happens once. */
  predicate ExitsLast(made: seq<Call>) {
    Exit in made ==> made[|made| - 1] == Exit && Exit !in made[..|made| - 1]
  }

  /**
   * The collaborator calls of one round: teardown only in a round that ends
   * the loop, and then last; no respawn in attach mode.
   */
  predicate RoundCalls(made: seq<Call>, proceed: bool, mode: ExecMode) {
    && (proceed ==> Exit !in made)
    && ExitsLast(made)
    && (mode.Attach? ==> Respawn !in made)
  }

  /**
   * One round of `while ((len = _next_testcase(buf, max)) > 0) { ... }`:
   * the intake, and the body when the intake returned a payload. A round
   * that goes on has consumed a control word and counted a test case.
   */
  function Round(p: RunState, mode: ExecMode, t: Target, maxLen: nat): (r: Step)
    requires maxLen <= |p.buf|
    ensures |r.state.buf| == |p.buf|
    ensures r.state.wire.fromFuzzer == if |p.wire.fromFuzzer| == 0 then p.wire.fromFuzzer else p.wire.fromFuzzer[1..]
    ensures r.proceed ==> 0 < |p.wire.fromFuzzer|
    ensures r.state.totalPayloadCount == if r.proceed then p.totalPayloadCount + 1 else p.totalPayloadCount
    ensures p.mutationTime <= r.state.mutationTime
  {
    var intake := Intake(p.wire, p.buf, maxLen);
    var q := p.(wire := intake.wire, buf := intake.buf);
    if intake.len == 0 then Step(false, q) else Body(q, intake.len, mode, t)
  }

  /** What one round writes: the PID and the status when it goes on; a last frame when it ends the loop. */
  lemma RoundWrites(p: RunState, mode: ExecMode, t: Target, maxLen: nat)
    requires maxLen <= |p.buf|
    ensures var r := Round(p, mode, t, maxLen);
      && p.wire.toFuzzer <= r.state.wire.toFuzzer
      && (r.proceed ==>
            && |r.state.wire.toFuzzer| == |p.wire.toFuzzer| + 2
            && r.state.wire.toFuzzer[|p.wire.toFuzzer|] == DummyChildPid)
      && (!r.proceed ==> LastFrame(r.state.wire.toFuzzer[|p.wire.toFuzzer|..]))
  {
    var intake := Intake(p.wire, p.buf, maxLen);
    var q := p.(wire := intake.wire, buf := intake.buf);
    if intake.len > 0 {
      var r := Body(q, intake.len, mode, t);
      assert q.wire.toFuzzer == p.wire.toFuzzer + [DummyChildPid];
      if !r.proceed {
        var ws := r.state.wire.toFuzzer[|p.wire.toFuzzer|..];
        assert ws == [DummyChildPid] || ws == [DummyChildPid, ErrorWord(FsErrorTargetCrashed)]
            || ws == [DummyChildPid, ErrorWord(FsErrorTargetNoAttach)];
      }
    }
  }

  /** The collaborators one pass of the body calls, in order, in each of its four cases. */
  lemma BodyCallLog(p: RunState, len: nat, mode: ExecMode, t: Target)
    requires 0 < len <= |p.buf|
    ensures var r := Body(p, len, mode, t);
      p.calls <= r.state.calls && RoundCalls(r.state.calls[|p.calls|..], r.proceed, mode)
  {
    var made := Body(p, len, mode, t).state.calls[|p.calls|..];
    var executed := Execute(p, len, t);
    assert executed.calls == p.calls + [Fuzz(len), Probe(p.targetPid)];
    if t.alive(p.totalPayloadCount, p.targetPid) {
      assert made == [Fuzz(len), Probe(p.targetPid)];
    } else if mode.Attach? {
      assert made == [Fuzz(len), Probe(p.targetPid), Exit];
    } else if t.respawn(p.totalPayloadCount).Some? {
      assert made == [Fuzz(len), Probe(p.targetPid), Respawn];
    } else {
      assert made == [Fuzz(len), Probe(p.targetPid), Respawn, Exit];
    }
  }

  /** The collaborators one round calls. */
  lemma RoundCallLog(p: RunState, mode: ExecMode, t: Target, maxLen: nat)
    requires maxLen <= |p.buf|
    ensures var r := Round(p, mode, t, maxLen);
      && p.calls <= r.state.calls && RoundCalls(r.state.calls[|p.calls|..], r.proceed, mode)
      && (Intake(p.wire, p.buf, maxLen).len == 0 ==> !r.proceed && r.state.calls == p.calls)
  {
    hide Body;
    var intake := Intake(p.wire, p.buf, maxLen);
    if intake.len > 0 {
      BodyCallLog(p.(wire := intake.wire, buf := intake.buf), intake.len, mode, t);
    } else {
      assert Round(p, mode, t, maxLen).state.calls == p.calls;
    }
  }

  /**
   * The loop: rounds until one of them ends it. Each round that goes on
   * consumes a control word. Its properties are the lemmas of `Properties`.
   */
  function Loop(p: RunState, mode: ExecMode, t: Target, maxLen: nat): RunState
    requires maxLen <= |p.buf|
    decreases |p.wire.fromFuzzer|
  {
    var r := Round(p, mode, t, maxLen);
    if r.proceed then Loop(r.state, mode, t, maxLen) else r.state
  }

  /** Where a run goes from a state in which intake has just returned `len`. */
  function Resume(p: RunState, len: nat, mode: ExecMode, t: Target, maxLen: nat): RunState
    requires len <= |p.buf| && maxLen <= |p.buf|
  {
    if len == 0 then p
    else
      var s := Body(p, len, mode, t);
      if s.proceed then Loop(s.state, mode, t, maxLen) else s.state
  }

  /** `run_forkserver`: the handshake, then the loop only if the handshake succeeded. */
  function Run(p: RunState, mode: ExecMode, t: Target, mapSize: bv32, maxLen: nat): RunState
    requires maxLen <= |p.buf|
  {
    var handshake := Handshake(p.wire, mapSize);
    var q := p.(wire := handshake.wire);
    if !handshake.ok then q else Loop(q, mode, t, maxLen)
  }

  /** The per-iteration averages of the metrics line, truncated as integer division truncates. */
  function Averages(mutationTime: nat, coverageTime: nat, count: nat): (r: (nat, nat))
    requires 1 <= count
    ensures r.0 * count <= mutationTime < (r.0 + 1) * count
    ensures r.1 * count <= coverageTime < (r.1 + 1) * count
  {
    (mutationTime / count, coverageTime / count)
  }

  /** The part of the live objects a run can change. */
  function Snapshot(fs: FuzzerState, io: Io, h: Harness, buf: array<bv8>): RunState
    reads fs, io, h, buf
  {
    RunState(fs.execRetStatus, fs.totalPayloadCount, fs.mutationTime, fs.targetPid, buf[..], io.State(), h.calls)
  }

  /** `bzero(buf, len)`. */
  method Bzero(buf: array<bv8>, len: nat)
    requires len <= buf.Length
    modifies buf
    ensures buf[..] == Zeroed(old(buf[..]), len)
  {
    for i := 0 to len
      invariant forall k :: 0 <= k < i ==> buf[k] == 0
      invariant forall k :: i <= k < buf.Length ==> buf[k] == old(buf[k])
    {
      buf[i] := 0;
    }
  }

  /** The timer, the harness and the probe: `Execute`, and whether the target is still there. */
  method ExecuteTestcase(fs: FuzzerState, io: Io, h: Harness, buf: array<bv8>, len: nat) returns (alive: bool)
    requires 0 < len <= buf.Length
    modifies fs`mutationTime, fs`execRetStatus, h
    ensures alive == h.target.alive(old(fs.totalPayloadCount), old(fs.targetPid))
    ensures Snapshot(fs, io, h, buf) == Execute(old(Snapshot(fs, io, h, buf)), len, h.target)
  {
    var elapsed := h.StopMeasure(fs.totalPayloadCount);
    fs.mutationTime := fs.mutationTime + elapsed;

    // Hand the test case to the instrumentation harness.
    h.DoFuzzIteration(fs, buf, len);

    // Is the target still there?
    alive := h.TargetAlive(fs);
  }

  /** `_end_testcase`, then, when it went through, the reset, `bzero` and the count. */
  method ReportStatus(fs: FuzzerState, io: Io, h: Harness, buf: array<bv8>, len: nat) returns (proceed: bool)
    requires 0 < len <= buf.Length
    modifies fs`execRetStatus, fs`totalPayloadCount, io, buf
    ensures Step(proceed, Snapshot(fs, io, h, buf)) == Report(old(Snapshot(fs, io, h, buf)), len)
  {
    proceed := EndTestcase(io, fs.execRetStatus);
    if !proceed {
      return;
    }

    fs.execRetStatus := 0;
    Bzero(buf, len);
    fs.totalPayloadCount := fs.totalPayloadCount + 1;

    if fs.metrics {
      var averages := Averages(fs.mutationTime, fs.coverageTime, fs.totalPayloadCount);
    }
  }

  /** The target is gone: respawn and report in spawn mode, error word and teardown otherwise. */
  method RecoverTarget(fs: FuzzerState, io: Io, h: Harness, buf: array<bv8>, len: nat) returns (proceed: bool)
    requires 0 < len <= buf.Length
    modifies fs`execRetStatus, fs`totalPayloadCount, fs`targetPid, io, h, buf
    ensures Step(proceed, Snapshot(fs, io, h, buf)) ==
              Recover(old(Snapshot(fs, io, h, buf)), len, fs.execMode, h.target.respawn(old(fs.totalPayloadCount)))
  {
    if fs.execMode == Spawn {
      var respawned := h.SpawnOrAttach(fs);
      if !respawned {
        SendError(io, FsErrorTargetCrashed);
        h.DoExit(fs);
        return false;
      }
      proceed := ReportStatus(fs, io, h, buf, len);
    } else {
      SendError(io, FsErrorTargetNoAttach);
      h.DoExit(fs);
      return false;
    }
  }

  /**
   * One pass of the `while` body of `run_forkserver` on a test case of `len`
   * bytes; `proceed` is false where the source leaves the loop with `break`.
   */
  method Iteration(fs: FuzzerState, io: Io, h: Harness, buf: array<bv8>, len: nat) returns (proceed: bool)
    requires 0 < len <= buf.Length
    modifies fs`execRetStatus, fs`totalPayloadCount, fs`mutationTime, fs`targetPid, io, h, buf
    ensures Step(proceed, Snapshot(fs, io, h, buf)) == Body(old(Snapshot(fs, io, h, buf)), len, fs.execMode, h.target)
  {
    var alive := ExecuteTestcase(fs, io, h, buf, len);
    if !alive {
      fs.execRetStatus := Sigsegv;
      proceed := RecoverTarget(fs, io, h, buf, len);
    } else {
      proceed := ReportStatus(fs, io, h, buf, len);
    }
  }

  /**
   * The buffer stands for the `FUZZING_PAYLOAD_SIZE` bytes on the stack of
   * `run_forkserver`; its length is passed to `_next_testcase` as `max_len`.
   */
  method RunForkserver(fs: FuzzerState, io: Io, h: Harness, buf: array<bv8>, mapSize: bv32)
    modifies fs`execRetStatus, fs`totalPayloadCount, fs`mutationTime, fs`targetPid, io, h, buf
    ensures Snapshot(fs, io, h, buf) == Run(old(Snapshot(fs, io, h, buf)), fs.execMode, h.target, mapSize, buf.Length)
  {
    var started := StartForkserver(io, mapSize);
    if !started {
      return;
    }
    ghost var final := Loop(Snapshot(fs, io, h, buf), fs.execMode, h.target, buf.Length);
    var len: nat := NextTestcase(io, buf, buf.Length);
    while len > 0
      invariant len <= buf.Length
      invariant Resume(Snapshot(fs, io, h, buf), len, fs.execMode, h.target, buf.Length) == final
      decreases |io.fromFuzzer| + (if len > 0 then 1 else 0)
    {
      var proceed := Iteration(fs, io, h, buf, len);
      if !proceed {
        break;
      }
      len := NextTestcase(io, buf, buf.Length);
    }
  }
}
