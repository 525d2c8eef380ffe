/**
 * What the forkserver engine guarantees to the fuzzer that drives it: the
 * recovery policy of one iteration, the framing of everything one run
 * writes, the bookkeeping of test cases and control words, and which
 * collaborators a run calls.
 */
module Properties {
  import opened Protocol
  import opened Channels
  import opened Transactions
  import opened Fuzzer
  import opened Collaborators
  import opened Engine

  // ---------------------------------------------------------------------
  // One iteration
  // ---------------------------------------------------------------------

  /**
   * A live target: the status the executor left is what gets reported, and
   * the reset, the clearing and the count follow only a successful report.
   */
  lemma LiveTargetIteration(p: RunState, len: nat, mode: ExecMode, t: Target)
    requires 0 < len <= |p.buf|
    requires t.alive(p.totalPayloadCount, p.targetPid)
    ensures var r := Body(p, len, mode, t);
      var status := Executed(t.fuzz(p.totalPayloadCount, p.buf[..len]), p.execRetStatus);
      && r.state.calls == p.calls + [Fuzz(len), Probe(p.targetPid)]
      && (r.proceed <==> 0 < p.wire.writesLeft)
      && r.state.wire.toFuzzer == (if r.proceed then p.wire.toFuzzer + [status] else p.wire.toFuzzer)
      && (r.proceed ==> r.state.execRetStatus == 0 && r.state.totalPayloadCount == p.totalPayloadCount + 1)
      && r.state.targetPid == p.targetPid
  {
  }

  /**
   * A dead target in spawn mode: exactly one respawn. If it works, SIGSEGV
   * is reported and the loop goes on with the new PID; if not, the only
   * word written is the TARGET_CRASHED error, the harness is torn down and
   * the loop stops.
   */
  lemma SpawnModeTargetDeath(p: RunState, len: nat, t: Target)
    requires 0 < len <= |p.buf|
    requires !t.alive(p.totalPayloadCount, p.targetPid)
    ensures var r := Body(p, len, Spawn, t);
      match t.respawn(p.totalPayloadCount)
      case Some(pid) =>
        && r.state.calls == p.calls + [Fuzz(len), Probe(p.targetPid), Respawn]
        && r.state.targetPid == pid
        && (r.proceed <==> 0 < p.wire.writesLeft)
        && r.state.wire.toFuzzer == (if r.proceed then p.wire.toFuzzer + [Sigsegv] else p.wire.toFuzzer)
      case None =>
        && !r.proceed
        && r.state.calls == p.calls + [Fuzz(len), Probe(p.targetPid), Respawn, Exit]
        && r.state.wire.toFuzzer ==
             (if 0 < p.wire.writesLeft then p.wire.toFuzzer + [ErrorWord(FsErrorTargetCrashed)] else p.wire.toFuzzer)
        && r.state.totalPayloadCount == p.totalPayloadCount
  {
  }

  /**
   * A dead target in attach mode: no respawn, the TARGET_NO_ATTACH error is
   * the only word written, the harness is torn down and the loop stops.
   */
  lemma AttachModeTargetDeath(p: RunState, len: nat, t: Target)
    requires 0 < len <= |p.buf|
    requires !t.alive(p.totalPayloadCount, p.targetPid)
    ensures var r := Body(p, len, Attach, t);
      && !r.proceed
      && r.state.calls == p.calls + [Fuzz(len), Probe(p.targetPid), Exit]
      && r.state.wire.toFuzzer ==
           (if 0 < p.wire.writesLeft then p.wire.toFuzzer + [ErrorWord(FsErrorTargetNoAttach)] else p.wire.toFuzzer)
      && r.state.totalPayloadCount == p.totalPayloadCount
  {
  }

  /** When the fuzzer has no control word left, the loop ends at once and changes nothing. */
  lemma SilentFuzzerEndsLoop(p: RunState, mode: ExecMode, t: Target, maxLen: nat)
    requires maxLen <= |p.buf|
    requires |p.wire.fromFuzzer| == 0
    ensures Round(p, mode, t, maxLen) == Step(false, p)
    ensures Loop(p, mode, t, maxLen) == p
  {
  }

  /** An empty payload still announces the dummy PID, and then the loop is over. */
  lemma EmptyPayloadEndsLoop(p: RunState, mode: ExecMode, t: Target, maxLen: nat)
    requires maxLen <= |p.buf|
    requires Announces(p.wire) && PendingLength(p.wire, maxLen) == 0
    ensures var q := Loop(p, mode, t, maxLen);
      && q.wire.toFuzzer == p.wire.toFuzzer + [DummyChildPid]
      && q.calls == p.calls
      && q.totalPayloadCount == p.totalPayloadCount
  {
  }

  // ---------------------------------------------------------------------
  // Whole runs
  // ---------------------------------------------------------------------

  /** The words after the handshake: `k` frames [PID, status], then the frame the run ended in. */
  predicate Framed(ws: seq<bv32>, k: nat)
    decreases k
  {
    if k == 0 then LastFrame(ws)
    else 2 <= |ws| && ws[0] == DummyChildPid && Framed(ws[2..], k - 1)
  }

  /** A frame that starts with the PID, in front of `k` framed iterations, makes `k + 1` of them. */
  lemma FrameStep(before: seq<bv32>, middle: seq<bv32>, after: seq<bv32>, k: nat)
    requires before <= middle <= after
    requires |middle| == |before| + 2 && middle[|before|] == DummyChildPid
    requires Framed(after[|middle|..], k)
    ensures Framed(after[|before|..], k + 1)
  {
    assert after[|before|..][2..] == after[|middle|..];
  }

  /** Everything the loop writes is framed, one frame per reported test case. */
  lemma {:induction false} LoopTranscript(p: RunState, mode: ExecMode, t: Target, maxLen: nat)
    requires maxLen <= |p.buf|
    ensures var q := Loop(p, mode, t, maxLen);
      && p.totalPayloadCount <= q.totalPayloadCount
      && p.wire.toFuzzer <= q.wire.toFuzzer
      && Framed(q.wire.toFuzzer[|p.wire.toFuzzer|..], q.totalPayloadCount - p.totalPayloadCount)
    decreases |p.wire.fromFuzzer|
  {
    hide Round;
    var r := Round(p, mode, t, maxLen);
    RoundWrites(p, mode, t, maxLen);
    if r.proceed {
      var q := Loop(r.state, mode, t, maxLen);
      assert Loop(p, mode, t, maxLen) == q;
      LoopTranscript(r.state, mode, t, maxLen);
      FrameStep(p.wire.toFuzzer, r.state.wire.toFuzzer, q.wire.toFuzzer,
                q.totalPayloadCount - r.state.totalPayloadCount);
    } else {
      assert Loop(p, mode, t, maxLen) == r.state;
    }
  }

  /**
   * Each test case costs one control word: a run that reported `k` test
   * cases consumed `k + 1` words, or `k` words and found none left.
   * Counters and the mutation time never go down.
   */
  lemma {:induction false} LoopProgress(p: RunState, mode: ExecMode, t: Target, maxLen: nat)
    requires maxLen <= |p.buf|
    ensures var q := Loop(p, mode, t, maxLen);
      var used := |p.wire.fromFuzzer| - |q.wire.fromFuzzer|;
      && p.totalPayloadCount <= q.totalPayloadCount
      && p.mutationTime <= q.mutationTime
      && |q.wire.fromFuzzer| <= |p.wire.fromFuzzer|
      && q.wire.fromFuzzer == p.wire.fromFuzzer[used..]
      && (|| used == q.totalPayloadCount - p.totalPayloadCount + 1
          || (used == q.totalPayloadCount - p.totalPayloadCount && |q.wire.fromFuzzer| == 0))
    decreases |p.wire.fromFuzzer|
  {
    hide Round;
    var r := Round(p, mode, t, maxLen);
    if r.proceed {
      LoopProgress(r.state, mode, t, maxLen);
      var f := p.wire.fromFuzzer;
      var g := Loop(r.state, mode, t, maxLen).wire.fromFuzzer;
      assert f[1..][|f| - 1 - |g|..] == f[|f| - |g|..];
    }
  }

  /** Calls without a teardown, in front of a log that ends in it, still end in it. */
  lemma ExitsLastAfter(a: seq<Call>, b: seq<Call>)
    requires Exit !in a && ExitsLast(b)
    ensures ExitsLast(a + b)
  {
    if Exit in a + b {
      assert Exit in b;
      assert (a + b)[..|a + b| - 1] == a + b[..|b| - 1];
    }
  }

  /**
   * The collaborators a loop calls: the harness is torn down at most once
   * and nothing is called after it, and in attach mode nothing is ever
   * respawned.
   */
  lemma {:induction false} LoopCalls(p: RunState, mode: ExecMode, t: Target, maxLen: nat)
    requires maxLen <= |p.buf|
    ensures p.calls <= Loop(p, mode, t, maxLen).calls
    ensures var made := Loop(p, mode, t, maxLen).calls[|p.calls|..];
      ExitsLast(made) && (mode.Attach? ==> Respawn !in made)
    decreases |p.wire.fromFuzzer|
  {
    hide Round;
    var r := Round(p, mode, t, maxLen);
    RoundCallLog(p, mode, t, maxLen);
    if r.proceed {
      var q := Loop(r.state, mode, t, maxLen);
      assert Loop(p, mode, t, maxLen) == q;
      LoopCalls(r.state, mode, t, maxLen);
      var start := |p.calls|;
      var middle := r.state.calls;
      assert q.calls[start..] == middle[start..] + q.calls[|middle|..];
      ExitsLastAfter(middle[start..], q.calls[|middle|..]);
    } else {
      assert Loop(p, mode, t, maxLen) == r.state;
    }
  }

  /**
   * A failed handshake ends the run: no test case is read, no collaborator
   * is called, and only a part of the handshake went out. When the reply
   * was missing or wrong, that part is the version word alone.
   */
  lemma HandshakeFailureEndsRun(p: RunState, mode: ExecMode, t: Target, mapSize: bv32, maxLen: nat)
    requires maxLen <= |p.buf|
    requires !HandshakeAccepted(p.wire)
    ensures var q := Run(p, mode, t, mapSize, maxLen);
      && q.wire.stdin == p.wire.stdin
      && q.buf == p.buf
      && q.calls == p.calls
      && q.totalPayloadCount == p.totalPayloadCount
      && q.execRetStatus == p.execRetStatus
      && p.wire.toFuzzer <= q.wire.toFuzzer
      && q.wire.toFuzzer[|p.wire.toFuzzer|..] < HandshakeWords(mapSize)
    ensures 0 < p.wire.writesLeft && (|p.wire.fromFuzzer| == 0 || p.wire.fromFuzzer[0] != FsNewMagicReply) ==>
              Run(p, mode, t, mapSize, maxLen).wire.toFuzzer == p.wire.toFuzzer + [FsNewMagic]
  {
  }

  /** A run writes the handshake words and then only framed iterations. */
  lemma RunTranscript(p: RunState, mode: ExecMode, t: Target, mapSize: bv32, maxLen: nat)
    requires maxLen <= |p.buf|
    requires HandshakeAccepted(p.wire)
    ensures var q := Run(p, mode, t, mapSize, maxLen);
      var start := |p.wire.toFuzzer| + 4;
      && p.totalPayloadCount <= q.totalPayloadCount
      && start <= |q.wire.toFuzzer|
      && q.wire.toFuzzer[..start] == p.wire.toFuzzer + HandshakeWords(mapSize)
      && Framed(q.wire.toFuzzer[start..], q.totalPayloadCount - p.totalPayloadCount)
  {
    hide Round;
    var handshake := Handshake(p.wire, mapSize);
    LoopTranscript(p.(wire := handshake.wire), mode, t, maxLen);
  }

  /**
   * The first round of the run below: the test case is read into the
   * buffer, executed on a live target, reported with status 0 and cleared.
   */
  lemma OneTestcaseFirstRound()
    ensures
      var payload: seq<bv8> := [1, 2, 3, 4, 5, 6, 7, 8, 9, 10];
      var p := RunState(0, 0, 0, 42, seq(16, _ => 0xff),
                        Wire([0], HandshakeWords(65536), 4, [Chunk(payload)]), []);
      var t := Target((n, b) => None, (n, pid) => true, n => None, n => 0);
      Round(p, Spawn, t, 16) ==
        Step(true, RunState(0, 1, 0, 42, seq(10, _ => 0) + seq(6, _ => 0xff),
                            Wire([], HandshakeWords(65536) + [DummyChildPid, 0], 2, []), [Fuzz(10), Probe(42)]))
  {
    var payload: seq<bv8> := [1, 2, 3, 4, 5, 6, 7, 8, 9, 10];
    var p := RunState(0, 0, 0, 42, seq(16, _ => 0xff),
                      Wire([0], HandshakeWords(65536), 4, [Chunk(payload)]), []);
    var t := Target((n, b) => None, (n, pid) => true, n => None, n => 0);
    var intake := Intake(p.wire, p.buf, 16);
    assert intake.len == 10;
    assert intake.wire == Wire([], HandshakeWords(65536) + [DummyChildPid], 3, []);
    var q := p.(wire := intake.wire, buf := intake.buf);
    var s := Body(q, 10, Spawn, t);
    assert s.state.buf == seq(10, _ => 0) + seq(6, _ => 0xff);
  }

  /**
   * The fuzzer answers the handshake and sends one test case of 10 bytes;
   * the target stays alive and leaves the status at 0. The control channel
   * then carries the four handshake words, the dummy PID and status 0, and
   * the run stops when the fuzzer sends nothing more.
   */
  lemma OneTestcaseRun()
    ensures
      var payload: seq<bv8> := [1, 2, 3, 4, 5, 6, 7, 8, 9, 10];
      var p := RunState(0, 0, 0, 42, seq(16, _ => 0xff),
                        Wire([FsNewMagicReply, 0], [], 8, [Chunk(payload)]), []);
      var t := Target((n, b) => None, (n, pid) => true, n => None, n => 0);
      var q := Run(p, Spawn, t, 65536, 16);
      && q.wire.toFuzzer == [0x41464c01, 0xc000_0001, 65536, 0x41464c01, 1, 0]
      && q.wire.fromFuzzer == [] && q.wire.stdin == []
      && q.totalPayloadCount == 1
      && q.calls == [Fuzz(10), Probe(42)]
      && q.buf == seq(10, _ => 0) + seq(6, _ => 0xff)
  {
    hide Round;
    var payload: seq<bv8> := [1, 2, 3, 4, 5, 6, 7, 8, 9, 10];
    var p := RunState(0, 0, 0, 42, seq(16, _ => 0xff),
                      Wire([FsNewMagicReply, 0], [], 8, [Chunk(payload)]), []);
    var t := Target((n, b) => None, (n, pid) => true, n => None, n => 0);
    ProtocolWords();
    var p1 := p.(wire := Handshake(p.wire, 65536).wire);
    assert p1.wire == Wire([0], HandshakeWords(65536), 4, [Chunk(payload)]);
    OneTestcaseFirstRound();
    var s1 := Round(p1, Spawn, t, 16).state;
    SilentFuzzerEndsLoop(s1, Spawn, t, 16);
  }
}
