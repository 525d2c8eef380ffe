/**
 * The single transactions of the forkserver protocol: the handshake
 * (`_start_forkserver`), the intake of one test case (`_next_testcase`),
 * the status report (`_end_testcase`) and the out-of-band error
 * (`_forkserver_send_error`).
 *
 * Each is given twice: as a function on `Wire` values, which says what the
 * transaction does to the channels and is what the loop's specification is
 * built from, and as a method with the source's early returns, proved to do
 * exactly what the function says to the live `Io` object.
 */
module Transactions {
  import opened Protocol
  import opened Channels

  /** The words a completed handshake writes, in order. */
  function HandshakeWords(mapSize: bv32): seq<bv32> {
    [FsNewMagic, ProxyOptions, mapSize, FsNewMagic]
  }

  /** The fuzzer answers the version with the XORed magic, and all four writes go through. */
  predicate HandshakeAccepted(w: Wire) {
    4 <= w.writesLeft && |w.fromFuzzer| > 0 && w.fromFuzzer[0] == FsNewMagicReply
  }

  /** The handshake: version out, reply in, options, map size and version out. */
  function Handshake(w: Wire, mapSize: bv32): (r: Sent)
    ensures r.ok <==> HandshakeAccepted(w)
    ensures r.ok ==> r.wire.toFuzzer == w.toFuzzer + HandshakeWords(mapSize)
    ensures 0 < w.writesLeft && (|w.fromFuzzer| == 0 || w.fromFuzzer[0] != FsNewMagicReply) ==>
              r.wire.toFuzzer == w.toFuzzer + [FsNewMagic]
    ensures w.toFuzzer <= r.wire.toFuzzer && r.wire.toFuzzer[|w.toFuzzer|..] <= HandshakeWords(mapSize)
    ensures r.wire.fromFuzzer ==
              if w.writesLeft == 0 || |w.fromFuzzer| == 0 then w.fromFuzzer else w.fromFuzzer[1..]
    ensures r.wire.stdin == w.stdin
  {
    var version := PutWord(w, FsNewMagic);
    if !version.ok then version
    else
      var reply := TakeWord(version.wire);
      if reply.word.None? || reply.word.value != FsNewMagicReply then Sent(false, reply.wire)
      else
        var options := PutWord(reply.wire, ProxyOptions);
        if !options.ok then options
        else
          var size := PutWord(options.wire, mapSize);
          if !size.ok then size
          else PutWord(size.wire, FsNewMagic)
  }

  method StartForkserver(io: Io, mapSize: bv32) returns (ok: bool)
    modifies io
    ensures Sent(ok, io.State()) == Handshake(old(io.State()), mapSize)
  {
    // Version out.
    ok := io.WriteControl(FsNewMagic);
    if !ok {
      return;
    }
    // The fuzzer's reply, the version XORed with all ones.
    var reply := io.ReadControl();
    if reply.None? {
      return false;
    }
    if reply.value != FsNewMagicReply {
      return false;
    }
    // Options: capability negotiation with a map size.
    ok := io.WriteControl(ProxyOptions);
    if !ok {
      return;
    }
    // The map size.
    ok := io.WriteControl(mapSize);
    if !ok {
      return;
    }
    // The version again, as confirmation; no dictionary or shared-memory options are sent.
    ok := io.WriteControl(FsNewMagic);
  }

  /** One intake: its return value, the channels and the buffer afterwards. */
  datatype Testcase = Testcase(len: nat, wire: Wire, buf: seq<bv8>)

  /** The intake gets as far as announcing the dummy PID, and that write succeeds. */
  predicate Announces(w: Wire) {
    |w.fromFuzzer| > 0 && !StdinFails(w) && 0 < w.writesLeft
  }

  /**
   * `_next_testcase`: one control word in, up to `maxLen` bytes of stdin into
   * the buffer, the dummy PID out. Any failure returns 0; so does an empty
   * payload, which still announces the PID.
   */
  function Intake(w: Wire, buf: seq<bv8>, maxLen: nat): (r: Testcase)
    requires maxLen <= |buf|
    ensures r.len == if Announces(w) then PendingLength(w, maxLen) else 0
    ensures r.len <= maxLen
    ensures r.wire.toFuzzer == if Announces(w) then w.toFuzzer + [DummyChildPid] else w.toFuzzer
    ensures r.wire.fromFuzzer == if |w.fromFuzzer| == 0 then w.fromFuzzer else w.fromFuzzer[1..]
    ensures r.wire.stdin == if |w.fromFuzzer| == 0 then w.stdin else AfterRead(w.stdin)
    ensures |w.fromFuzzer| == 0 ==> r.buf == buf
    ensures |r.buf| == |buf|
    ensures forall k :: 0 <= k < r.len ==> r.buf[k] == w.stdin[0].bytes[k]
    ensures forall k :: r.len <= k < |buf| && (|w.fromFuzzer| == 0 || PendingLength(w, maxLen) <= k) ==> r.buf[k] == buf[k]
  {
    var status := TakeWord(w);
    if status.word.None? then Testcase(0, status.wire, buf)
    else
      var input := TakeInput(status.wire, buf, maxLen);
      if input.count < 0 then Testcase(0, input.wire, input.buf)
      else
        var started := PutWord(input.wire, DummyChildPid);
        if !started.ok then Testcase(0, started.wire, input.buf)
        else Testcase(input.count, started.wire, input.buf)
  }

  method NextTestcase(io: Io, buf: array<bv8>, maxLen: nat) returns (len: nat)
    requires maxLen <= buf.Length
    modifies io, buf
    ensures Testcase(len, io.State(), buf[..]) == Intake(old(io.State()), old(buf[..]), maxLen)
  {
    var status := io.ReadControl();
    if status.None? {
      return 0;
    }
    var count := io.ReadStdin(buf, maxLen);
    if count < 0 {
      return 0;
    }
    var started := io.WriteControl(DummyChildPid);
    if !started {
      return 0;
    }
    return count;
  }

  /** `_end_testcase`: the execution status, as the bits of a 4-byte `int32_t`. */
  method EndTestcase(io: Io, status: bv32) returns (ok: bool)
    modifies io
    ensures Sent(ok, io.State()) == PutWord(old(io.State()), status)
  {
    ok := io.WriteControl(status);
  }

  /** `_forkserver_send_error`: a failed write is only logged, so nothing is returned. */
  method SendError(io: Io, code: bv32)
    modifies io
    ensures io.State() == PutWord(old(io.State()), ErrorWord(code)).wire
  {
    var written := io.WriteControl(ErrorWord(code));
  }
}
