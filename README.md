# fpicker AFL++ forkserver engine, modelled in Dafny

fpicker's AFL++ mode pretends to be an AFL++ forkserver. When AFL++ starts
it, the proxy runs the handshake of the forkserver protocol over two pipes:
FORKSRV_FD carries words from the fuzzer and FORKSRV_FD + 1 carries words
back. After that, each round works like this:

1. Read one control word from the fuzzer.
2. Read the test case from standard input.
3. Send a dummy child PID.
4. Run the test case through the instrumentation harness.
5. Check that the target process is still alive. If it died, respawn it
   (spawn mode) or give up with an out-of-band error word (attach mode).
6. Report the execution status, clear the payload buffer and count the
   test case.

This project models that engine, `fp_afl_mode.c`, and proves what it
guarantees to the fuzzer.

- `protocol.dfy` (`Protocol`) holds the protocol words, the `FS_OPT_ERROR`
  / `FS_OPT_SET_ERROR` encoding and facts about them. Words are `bv32`.
  Signed C integers are kept as their 32-bit pattern, which is what
  `write(fd, &x, 4)` sends.
- `channels.dfy` (`Channels`) models the three descriptors.
  - A `Wire` value holds:
    - the words the fuzzer will still deliver; a read when none is left is
      a short read;
    - the words sent so far;
    - how many more 4-byte writes succeed;
    - what the successive `read(0, buf, max_len)` calls return; once that
      runs out, a read returns 0 bytes.
  - The `Io` class holds the same state as fields and updates them in
    place.
  - This abstraction covers every run the engine can see, because the engine
    never touches a descriptor again after one of its reads or writes fails.
- `transactions.dfy` (`Transactions`) models `_start_forkserver`,
  `_next_testcase`, `_end_testcase` and `_forkserver_send_error`. Each
  transaction that shapes the run has two forms:
  - a function on `Wire` values, which states what it does to the channels;
  - a method on `Io` with the source's early returns, proved equal to that
    function.

  `_end_testcase` and `_forkserver_send_error` each make a single write,
  and their methods are proved equal to that write.
- `collaborators.dfy` models the fuzzer state.
  - `Fuzzer.FuzzerState` has the fields of `fuzzer_state_t` that the engine
    reads or updates.
  - `Collaborators.Harness` stands for the code the engine calls but does
    not own: `do_fuzz_iteration`, `kill(pid, 0)`, `spawn_or_attach`,
    `do_exit` and `_stop_measure`.
  - Their answers come from an oracle `Target`, indexed by the payload count
    at the start of the iteration.
  - The harness logs every call, so that call counts can be stated.
- `engine.dfy` (`Engine`) models `run_forkserver`.
  - `RunState` is everything a run can change.
  - The specification functions:
    - `Body` is one pass of the loop body, built from `Execute`, `Recover`
      and `Report`;
    - `Round` is the intake followed by that pass;
    - `Loop` repeats rounds while they go on;
    - `Run` puts the handshake in front.
  - `Loop`, `Resume` and `Run` carry no contract of their own; what they
    guarantee is proved as the lemmas in `Properties`.
  - `RunForkserver` is the imperative `while` loop over the live objects.
    Its body is `Iteration`, and its buffer is an `array` that `Bzero`
    clears in place. It is proved to end in exactly the state `Run`
    predicts.
- `properties.dfy` (`Properties`) proves the engine's guarantees:
  - the recovery policy of one iteration;
  - the framing of everything a run writes;
  - the bookkeeping of control words and test cases;
  - which collaborators a run calls;
  - one concrete end-to-end run.

The model follows the code where a natural reading of the protocol differs:

- **Reply mismatch.** The handshake writes the version word before it reads
  the reply. A missing or wrong reply therefore leaves exactly that one word
  sent (`fp_afl_mode.c:37-54`).
- **Empty payload.** An empty standard-input read is not an error for
  `_next_testcase`: it still announces the dummy PID and returns 0, which
  then ends the loop (`fp_afl_mode.c:96-108`, `fp_afl_mode.c:140`).

## Model

| member | source | states |
|---|---|---|
| Protocol.ErrorWord | fp_afl_mode.c:17-18 | The error word always has low byte 0x8f and top byte 0xf8, is recognised as an error word, and carries the low 16 bits of the code in bits 8-23. |
| Protocol.SetError | fp_afl_mode.c:18 | FS_OPT_SET_ERROR. It has no contract of its own; what it contributes is stated by `ErrorWord`'s contract and `ErrorCodeRoundTrip`. |
| Protocol.ErrorCodeRoundTrip | fp_afl_mode.c:17-18 | For a code below 0x10000, decoding the error word gives the code back. |
| Protocol.ErrorWordInjective | fp_afl_mode.c:119-121 | Two codes below 0x10000 with the same error word are equal, so distinct error codes reach the fuzzer as distinct words. |
| Protocol.ProtocolWords | fp_afl_mode.c:6-24 | This lemma fixes the concrete values: FS_NEW_MAGIC is 0x41464c01, the expected reply is 0xbeb9b3fe, the options word is 0xc0000001 and does not have AUTODICT or SHDMEM_FUZZ set, and the error words for codes 101 and 102 are 0xf800658f and 0xf800668f. Neither 0 nor SIGSEGV looks like an error word. |
| Channels.TakeWord | fp_afl_mode.c:44 | One 4-byte control read: the next word of the fuzzer, or a short read that changes nothing when none is left. It has no contract of its own; `Handshake` and `Intake` state its effect on a transaction. |
| Channels.PutWord | fp_afl_mode.c:37 | One 4-byte control write: the word is appended while writes still succeed, and nothing changes once they fail. It has no contract of its own; `Handshake`, `Intake`, `Report` and `Fatal` state its effect. |
| Channels.TakeInput | fp_afl_mode.c:96-100 | One `read(0, buf, max_len)`. It returns -1 on an error. Otherwise it delivers at most `max_len` bytes to the front of the buffer, leaves the rest of the buffer unchanged and uses up one read of standard input. |
| Channels.Io.ReadControl | fp_afl_mode.c:44-47 | A control read on the live descriptor does what `TakeWord` says: it returns the next word, or none on a short read. |
| Channels.Io.WriteControl | fp_afl_mode.c:37-40 | A control write on the live descriptor does what `PutWord` says: it appends the word and succeeds, or fails and changes nothing. |
| Channels.Io.ReadStdin | fp_afl_mode.c:96 | A standard-input read into the array buffer changes the descriptor and the buffer as `TakeInput` says. |
| Transactions.Handshake | fp_afl_mode.c:26-82 | The handshake succeeds exactly when the reply is 0xbeb9b3fe and all four writes go through. On success it appends exactly [FS_NEW_MAGIC, options, map size, FS_NEW_MAGIC] and consumes exactly one control word. On a missing or wrong reply, with the first write done, only FS_NEW_MAGIC was sent. In every case what was sent is a prefix of the four words, and standard input is untouched. |
| Transactions.StartForkserver | fp_afl_mode.c:26-82 | The method with its early returns changes the descriptors exactly as `Handshake` describes and returns its verdict. |
| Transactions.Intake | fp_afl_mode.c:84-109 | A short control read returns 0, reads no standard input, writes nothing and leaves the buffer alone. A failed standard-input read returns 0 and writes nothing. Otherwise the dummy PID 1 is written if the channel still takes a write: then the result is the number of bytes read, and if the PID write fails the result is 0 and nothing is written. The result is never more than `max_len`. The payload bytes land at the front of the buffer and the rest of the buffer is unchanged. |
| Transactions.NextTestcase | fp_afl_mode.c:84-109 | The method returns what `Intake` returns and leaves the descriptors and the array buffer as `Intake` describes. |
| Transactions.EndTestcase | fp_afl_mode.c:111-117 | The status goes out as one word, and the result says whether the write went through. |
| Transactions.SendError | fp_afl_mode.c:119-125 | The error word for the code is written if the channel still takes writes. A failure changes nothing else. |
| Collaborators.Harness.StopMeasure | fp_afl_mode.c:141 | The elapsed mutation time is the oracle's delay for this iteration. |
| Collaborators.Harness.DoFuzzIteration | fp_afl_mode.c:145 | The harness runs once on the first `len` bytes and may store a new execution status; the call is logged. |
| Collaborators.Harness.TargetAlive | fp_afl_mode.c:148 | The probe answers whether the current target PID is alive; the call is logged. |
| Collaborators.Harness.SpawnOrAttach | fp_afl_mode.c:154 | The respawn either succeeds and installs the new PID, or fails and keeps the old one; the call is logged. |
| Collaborators.Harness.DoExit | fp_afl_mode.c:157 | The teardown is logged. |
| Engine.Zeroed | fp_afl_mode.c:174 | After `bzero(buf, len)` the first `len` bytes are 0 and every byte from `len` on is unchanged. |
| Engine.Fatal | fp_afl_mode.c:156-158 | The fatal path: the error word for the code is written if the channel still takes a write, and the teardown is logged. The count, the buffer, the control words still to come and standard input are untouched. |
| Engine.Execute | fp_afl_mode.c:141-148 | The timer, the harness run and the probe change no channel, no buffer byte, no count and no PID. The mutation time only grows, and the log gains exactly one harness run on `len` bytes and one probe of the current PID. |
| Engine.Recover | fp_afl_mode.c:148-166 | After a dead target, the loop can go on only in spawn mode after a successful respawn, and then with the new PID. Spawn mode logs exactly one respawn, followed by the teardown when the respawn fails. Attach mode logs only the teardown. A stop leaves the count and the buffer unchanged. |
| Engine.Report | fp_afl_mode.c:168-176 | The report goes through exactly when the channel still takes a write. When it does, the stored status is sent, and nothing is sent otherwise. The report calls no collaborator and does not change the PID. |
| Engine.Body | fp_afl_mode.c:140-176 | One iteration never reads a control word or standard input. The mutation time and the call log only grow. If the loop goes on, exactly one status word was written, the count went up by exactly 1, the status was reset to 0 and the payload was cleared. If the loop stops, the count and the buffer are unchanged, and the only word written, if any, is the error word for 101 or 102. |
| Engine.BodyCallLog | fp_afl_mode.c:145-165 | The calls of one iteration only extend the log. A teardown happens only on a stopping iteration, and then last and once. No respawn happens in attach mode. |
| Engine.Round | fp_afl_mode.c:140-176 | One round of the loop consumes the next control word, if there is one, and keeps the buffer size. It goes on only if a word was there, and then it counts exactly one test case. The mutation time never goes down. |
| Engine.RoundWrites | fp_afl_mode.c:96-171 | A round that goes on writes exactly two words, the first being the dummy PID. A round that stops writes nothing, the PID alone, or the PID and one fatal error word. |
| Engine.RoundCallLog | fp_afl_mode.c:90-165 | The calls of one round follow the same rules as those of one iteration. A round whose intake returned 0 stops the loop and calls nothing: this covers a short control read, a failed standard-input read, a failed PID write and an empty payload. |
| Engine.Loop | fp_afl_mode.c:140-188 | The `while` loop: rounds until one of them stops. It has no contract of its own; its properties are `Properties.LoopTranscript`, `Properties.LoopProgress`, `Properties.LoopCalls` and `Properties.SilentFuzzerEndsLoop`. |
| Engine.Run | fp_afl_mode.c:127-134 | The handshake, then the loop only if the handshake succeeded. It has no contract of its own; its properties are `Properties.HandshakeFailureEndsRun`, `Properties.RunTranscript` and `Properties.OneTestcaseRun`, and `Engine.RunForkserver` is proved to end in the state it gives. |
| Engine.Averages | fp_afl_mode.c:178-183 | With a count of at least 1, as the source guarantees, each average is the truncated quotient of its total by the count. |
| Engine.Bzero | fp_afl_mode.c:174 | The loop clears the array in place to exactly `Zeroed` of its old contents. |
| Engine.ExecuteTestcase | fp_afl_mode.c:141-148 | Reading the timer, running the harness and probing the target change the live state as `Execute` says. The result is the probe's answer. |
| Engine.ReportStatus | fp_afl_mode.c:168-186 | Reporting, resetting, clearing, counting and the metrics averages leave the live state as `Report` says. |
| Engine.RecoverTarget | fp_afl_mode.c:148-171 | Respawn-then-report in spawn mode, and error word plus teardown otherwise, leave the live state as `Recover` says. |
| Engine.Iteration | fp_afl_mode.c:141-187 | One pass of the `while` body over the live objects ends in exactly the state `Body` gives, and it goes on exactly when `Body` does. |
| Engine.RunForkserver | fp_afl_mode.c:127-192 | The whole of `run_forkserver` over the live objects ends in exactly the state `Run` gives. |
| Properties.LiveTargetIteration | fp_afl_mode.c:145-176 | If the target is alive, the calls are one harness run and one probe. The status the harness left is the word written, and the loop goes on exactly when that write succeeds. After the report the status is 0 and the count is one higher. The PID is unchanged. |
| Properties.SpawnModeTargetDeath | fp_afl_mode.c:148-171 | In spawn mode a dead target gets exactly one respawn. On success, SIGSEGV is the status reported, the new PID is kept and the loop goes on if that write succeeds. On failure, the only word written is the error word for 101, the teardown follows, the loop stops and the count is unchanged. |
| Properties.AttachModeTargetDeath | fp_afl_mode.c:160-165 | In attach mode a dead target is never respawned. The only word written is the error word for 102, the teardown follows, the loop stops and the count is unchanged. |
| Properties.EmptyPayloadEndsLoop | fp_afl_mode.c:96-140 | An empty payload still writes the dummy PID. The loop then ends with no collaborator called and no test case counted. |
| Properties.SilentFuzzerEndsLoop | fp_afl_mode.c:90-93 | When no control word is left, the round stops without changing anything, and so does the whole loop. |
| Properties.LoopTranscript | fp_afl_mode.c:140-188 | Everything the loop writes is `k` frames [PID, status], where `k` is the number of test cases counted, followed by a final frame: nothing, the PID alone, or the PID and a fatal error word. |
| Properties.LoopProgress | fp_afl_mode.c:140-176 | The loop consumes control words from the front. A run that counted `k` test cases consumed `k + 1` words, or `k` words when none was left. The count and the mutation time never go down. |
| Properties.LoopCalls | fp_afl_mode.c:153-165 | Over a whole loop the call log only grows. The harness is torn down at most once, and nothing is called after it. In attach mode nothing is ever respawned. |
| Properties.HandshakeFailureEndsRun | fp_afl_mode.c:131-134 | If the handshake fails, the run reads no test case, calls no collaborator, counts nothing and leaves the buffer and the status alone. It sent only a strict prefix of the handshake words. With a missing or wrong reply, that prefix is FS_NEW_MAGIC alone. |
| Properties.RunTranscript | fp_afl_mode.c:127-188 | A run with an accepted handshake writes the four handshake words first and then only framed iterations, one frame per counted test case. |
| Properties.OneTestcaseFirstRound | fp_afl_mode.c:140-176 | In the concrete run below, the first round reads the 10-byte test case and runs it on a live target. It writes the PID and status 0, clears the first 10 bytes and counts one test case, leaving exactly the state given. |
| Properties.OneTestcaseRun | fp_afl_mode.c:127-192 | A concrete run: the fuzzer answers the handshake and sends one 10-byte test case, and the target stays alive. The words sent are the four handshake words, then PID 1 and status 0. The first 10 bytes of the buffer are then cleared, the rest of the buffer is untouched, and one test case is counted. |

## Left out

- Raw system calls are abstract channel operations. The byte order of the words is not modelled, because the words are written as host `uint32_t`.
- Channels.Io.WriteControl: a short write (1 to 3 bytes) is treated as writing nothing. The handshake, `_next_testcase` and `_end_testcase` all treat a short write as a failure, and the engine never writes again after one. `_forkserver_send_error` only treats a negative result as an error, so a short error-word write passes silently there. That is harmless too, because the teardown and the `break` always follow it (`fp_afl_mode.c:156-158`, `fp_afl_mode.c:162-164`).
- Channels.TakeInput: when the next chunk of standard input is longer than `max_len`, the bytes beyond `max_len` are dropped instead of being left for the next read. The choice is harmless because the engine does one read per test case and AFL++ supplies each test case afresh.
- `_start_measure`, `_stop_measure`, `time(NULL)` and the iteration timer are not modelled as clocks. The mutation timer is an oracle delay per iteration, which only accumulates into the mutation time. The iteration timer is only logged, so it is left out.
- `plog` output, including the metrics log line, is left out because it has no protocol meaning. Only the averages that feed it are computed.
- The bodies of `do_fuzz_iteration`, `spawn_or_attach` and `do_exit` are not part of this model. They are oracles and logged calls, and `do_exit` is modelled as returning, as the loop's `break` after it assumes.
- Collaborators.Harness.SpawnOrAttach: keeping the old PID when the respawn fails is an assumption about a body that is not part of this model. It is harmless, because the run reads the PID no more after the fatal `break`.
- `coverage_time` is updated outside this file, presumably by the harness. The model holds it constant for a whole run, because no modelled method may change it. The metrics average over it is computed from that constant value.
- Engine.Averages: the averages are unbounded natural numbers. The model does not capture the 64-bit wrap of `total_payload_count` or the truncation of the quotients to `int`.
- A failed write of an error word is only logged by the source, so the model records no effect beyond that failure.
- `FS_OPT_AUTODICT` and `FS_OPT_SHDMEM_FUZZ` are defined but never sent. Only their absence from the options word is proved.
- Exec modes other than spawn behave like attach mode, as the source's `else` branch does. The model has just the two modes.
- `fpicker.h` is not part of this model. COVERAGE_BITMAP_SIZE is the `mapSize` parameter, FUZZING_PAYLOAD_SIZE is the length of the buffer array, and SIGSEGV has its Linux value 11.
- The Frida harness scripts written in JavaScript are not part of this model, because they only wrap native calls.
