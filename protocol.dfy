/**
 * Wire constants of the AFL++ forkserver protocol as the proxy uses them,
 * and the encoding of out-of-band error words.
 *
 * Every word on the control channel is a 32-bit unsigned integer, so the
 * protocol words are `bv32`. The signed C integers the engine writes
 * (`int32_t status`, `int error_code`) are kept as their 32-bit
 * two's-complement pattern, which is what `write(fd, &status, 4)` puts on
 * the wire; the engine never does arithmetic on them.
 */
module Protocol {

  // Versioning
  const FsNewVersionMax: bv32 := 1
  const FsNewMagic: bv32 := 0x41464c00 + FsNewVersionMax
  const FsNewMagicReply: bv32 := FsNewMagic ^ 0xffffffff

  // Options
  const FsOptEnabled: bv32 := 0x8000_0001
  const FsOptMapSize: bv32 := 0x4000_0000
  const FsOptShdmemFuzz: bv32 := 0x0100_0000
  const FsOptAutodict: bv32 := 0x1000_0000
  /** The options word the proxy advertises: capability negotiation, map size follows. */
  const ProxyOptions: bv32 := FsOptEnabled | FsOptMapSize

  // Error codes
  const FsOptError: bv32 := 0xf800_008f
  const FsErrorTargetCrashed: bv32 := 101
  const FsErrorTargetNoAttach: bv32 := 102

  /** The placeholder child PID written when a test case starts. */
  const DummyChildPid: bv32 := 1

  /** The status reported for a target found dead (SIGSEGV on Linux). */
  const Sigsegv: bv32 := 11

  /** FS_OPT_SET_ERROR: the low 16 bits of the code, moved up by one byte. */
  function SetError(code: bv32): bv32 {
    (code & 0xffff) << 8
  }

  /** The word `_forkserver_send_error` writes: FS_OPT_ERROR | FS_OPT_SET_ERROR(code). */
  function ErrorWord(code: bv32): (w: bv32)
    ensures w & 0xff == 0x8f
    ensures w >> 24 == 0xf8
    ensures IsErrorWord(w)
    ensures ErrorCode(w) == code & 0xffff
  {
    FsOptError | SetError(code)
  }

  /** The reason code carried by an error word. */
  function ErrorCode(w: bv32): bv32 {
    (w >> 8) & 0xffff
  }

  /** The fixed bits of FS_OPT_ERROR that mark a word as an error word. */
  predicate IsErrorWord(w: bv32) {
    w & 0xff00_00ff == FsOptError
  }

  /** A 16-bit code is recovered unchanged from its error word. */
  lemma ErrorCodeRoundTrip(code: bv32)
    requires code < 0x1_0000
    ensures ErrorCode(ErrorWord(code)) == code
  {
    assert code & 0xffff == code;
  }

  /** Two different 16-bit codes never share an error word. */
  lemma ErrorWordInjective(a: bv32, b: bv32)
    requires a < 0x1_0000 && b < 0x1_0000
    requires ErrorWord(a) == ErrorWord(b)
    ensures a == b
  {
    ErrorCodeRoundTrip(a);
    ErrorCodeRoundTrip(b);
  }

  /** The concrete protocol words. */
  lemma ProtocolWords()
    ensures FsNewMagic == 0x41464c01
    ensures FsNewMagicReply == 0xbeb9b3fe
    ensures ProxyOptions == 0xc000_0001
    ensures ProxyOptions & (FsOptAutodict | FsOptShdmemFuzz) == 0
    ensures ErrorWord(FsErrorTargetCrashed) == 0xf800_658f
    ensures ErrorWord(FsErrorTargetNoAttach) == 0xf800_668f
    ensures !IsErrorWord(0) && !IsErrorWord(Sigsegv)
  {
  }
}
