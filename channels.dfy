/**
 * The three descriptors the forkserver engine talks through: the control
 * channel from the fuzzer (FORKSRV_FD), the control channel to the fuzzer
 * (FORKSRV_FD + 1), and standard input, from which test cases are read.
 *
 * A `Wire` is what the outside world will do when the engine touches those
 * descriptors. `fromFuzzer` holds the words the fuzzer will still deliver;
 * a read when none is left is a short read. `toFuzzer` is every word the
 * fuzzer has received so far. `writesLeft` counts the 4-byte writes that
 * still succeed; once it reaches 0 every write is short or fails. `stdin`
 * holds what the successive `read(0, buf, max_len)` calls return; once it
 * is used up, a read returns 0 bytes (end of file). In the engine a failed
 * read or write is never followed by another operation on that descriptor,
 * so this describes every run the engine can see.
 */
module Channels {
  import opened Protocol

  datatype Option<T> = None | Some(value: T)

  /** What one read of standard input returns: some bytes, or -1. */
  datatype StdinRead = Chunk(bytes: seq<bv8>) | ReadError

  datatype Wire = Wire(fromFuzzer: seq<bv32>, toFuzzer: seq<bv32>, writesLeft: nat, stdin: seq<StdinRead>)

  /** A control read: the word, when all 4 bytes arrived, and the channels afterwards. */
  datatype Received = Received(word: Option<bv32>, wire: Wire)

  /** A control write, handshake or other transaction: success, and the channels afterwards. */
  datatype Sent = Sent(ok: bool, wire: Wire)

  /** A read of standard input: its return value, the channels and the buffer afterwards. */
  datatype Input = Input(count: int, wire: Wire, buf: seq<bv8>)

  function Min(a: nat, b: nat): nat {
    if a <= b then a else b
  }

  /** `read(FORKSRV_FD, &word, 4)`: the next word of the fuzzer, or a short read when none is left. */
  function TakeWord(w: Wire): Received {
    if |w.fromFuzzer| == 0 then Received(None, w)
    else Received(Some(w.fromFuzzer[0]), w.(fromFuzzer := w.fromFuzzer[1..]))
  }

  /** `write(FORKSRV_FD + 1, &x, 4)`: the word is appended while writes still succeed. */
  function PutWord(w: Wire, x: bv32): Sent {
    if w.writesLeft == 0 then Sent(false, w)
    else Sent(true, w.(toFuzzer := w.toFuzzer + [x], writesLeft := w.writesLeft - 1))
  }

  /** True when the next read of standard input fails. */
  predicate StdinFails(w: Wire) {
    |w.stdin| > 0 && w.stdin[0].ReadError?
  }

  /** The number of bytes the next read of standard input delivers into a buffer of `maxLen`. */
  function PendingLength(w: Wire, maxLen: nat): (n: nat)
    ensures n <= maxLen
  {
    if |w.stdin| == 0 then 0
    else match w.stdin[0]
      case Chunk(bytes) => Min(|bytes|, maxLen)
      case ReadError => 0
  }

  /** What is left of the standard input script after one read. */
  function AfterRead(stdin: seq<StdinRead>): seq<StdinRead> {
    if |stdin| == 0 then stdin else stdin[1..]
  }

  /**
   * `read(0, buf, maxLen)`: at most `maxLen` bytes land at the front of the
   * buffer, the rest of the buffer stays as it was, and -1 means an error.
   */
  function TakeInput(w: Wire, buf: seq<bv8>, maxLen: nat): (r: Input)
    requires maxLen <= |buf|
    ensures r.count == if StdinFails(w) then -1 else PendingLength(w, maxLen)
    ensures |r.buf| == |buf|
    ensures forall k :: 0 <= k < PendingLength(w, maxLen) ==> r.buf[k] == w.stdin[0].bytes[k]
    ensures forall k :: PendingLength(w, maxLen) <= k < |buf| ==> r.buf[k] == buf[k]
    ensures r.wire == w.(stdin := AfterRead(w.stdin))
  {
    if |w.stdin| == 0 then Input(0, w, buf)
    else match w.stdin[0]
      case ReadError => Input(-1, w.(stdin := w.stdin[1..]), buf)
      case Chunk(bytes) =>
        var n := Min(|bytes|, maxLen);
        Input(n, w.(stdin := w.stdin[1..]), bytes[..n] + buf[n..])
  }

  /** The descriptors of the running proxy, read and written in place. */
  class Io {
    var fromFuzzer: seq<bv32>
    var toFuzzer: seq<bv32>
    var writesLeft: nat
    var stdin: seq<StdinRead>

    constructor (fromFuzzer: seq<bv32>, writesLeft: nat, stdin: seq<StdinRead>)
      ensures State() == Wire(fromFuzzer, [], writesLeft, stdin)
    {
      this.fromFuzzer := fromFuzzer;
      this.toFuzzer := [];
      this.writesLeft := writesLeft;
      this.stdin := stdin;
    }

    function State(): Wire
      reads this
    {
      Wire(fromFuzzer, toFuzzer, writesLeft, stdin)
    }

    /** Reads one control word; `None` stands for `read(...) != 4`. */
    method ReadControl() returns (word: Option<bv32>)
      modifies this
      ensures Received(word, State()) == TakeWord(old(State()))
    {
      if |fromFuzzer| == 0 {
        word := None;
      } else {
        word := Some(fromFuzzer[0]);
        fromFuzzer := fromFuzzer[1..];
      }
    }

    /** Writes one control word; `ok` stands for `write(...) == 4`. */
    method WriteControl(x: bv32) returns (ok: bool)
      modifies this
      ensures Sent(ok, State()) == PutWord(old(State()), x)
    {
      ok := writesLeft > 0;
      if ok {
        toFuzzer := toFuzzer + [x];
        writesLeft := writesLeft - 1;
      }
    }

    /** Reads up to `maxLen` bytes of standard input into `buf`. */
    method ReadStdin(buf: array<bv8>, maxLen: nat) returns (count: int)
      requires maxLen <= buf.Length
      modifies this, buf
      ensures Input(count, State(), buf[..]) == TakeInput(old(State()), old(buf[..]), maxLen)
    {
      ghost var before := buf[..];
      ghost var r := TakeInput(State(), before, maxLen);
      if |stdin| == 0 {
        count := 0;
      } else if stdin[0].ReadError? {
        count := -1;
        stdin := stdin[1..];
      } else {
        var bytes := stdin[0].bytes;
        var n := Min(|bytes|, maxLen);
        forall k | 0 <= k < n {
          buf[k] := bytes[k];
        }
        count := n;
        stdin := stdin[1..];
        assert buf[..] == r.buf;
      }
    }
  }
}
