# Verified models of the client's base library

The client for a cloud phone or desktop rests on a small hand-written base library. This project
models the parts of it that are algorithms or protocols, and proves what they are for:

- **Events** (`Events*.dfy`): Win32-style events on POSIX threads. Any number of waiters, events and
  `SetEvent` calls interleave; a step is one critical section or one access to an atomic. An
  inductive invariant gives exact reference counts, no use of a freed wait record, an exact balance of
  signals, no lost wake-up and exact counting for wait-all, in every reachable state of every run; and only a
  lock or the condition variable ever stops a thread.
- **The task pump** (`TaskQueue.dfy`, `TaskPump*.dfy`): two priority queues drained in nested loops while
  tasks are queued again and other threads push between any two critical sections.
- **DES and Triple-DES** (`Des*.dfy`): the swap-and-mask permutations, merged S-box tables, rotated halves
  and key schedules compute exactly the cipher of FIPS 46-3 (`DesStandard.dfy` states it with the
  standard's own tables); decryption undoes encryption; CBC with padding is that of NIST SP 800-38A and works
  inside one buffer.
- **Replace-all** (`ReplaceAll.dfy`): a gap-buffer algorithm over one array leaves the unique leftmost
  replacement.
- **SHA-1, HMAC and MD5** (`Basics.dfy`, `Blocks.dfy`, `Sha1*.dfy`, `Hmac.dfy`, `Md5*.dfy`): a sixteen-word circular schedule, and 64-bit
  words with junk in their high halves, refine FIPS 180-4 and RFC 1321; any split of the input gives the
  same digest; HMAC is that of RFC 2104 over three uses of one self-wiping hash object.
- **Frames, Base64 and UUIDs** (`Frames.dfy`, `Base64.dfy`, `Uuid*.dfy`): chunk-independent reassembly, two round trips,
  order, and uniqueness of timestamps over whole runs of the clock.

`DesVector.dfy`, `Sha1Vector.dfy` and `Md5Vector.dfy` work out one published example each, so that the statements of the
standards in `DesStandard.dfy`, `Sha1Standard.dfy` and `Md5Standard.dfy` are held against something outside themselves.

Where the source works by changing things step by step, the model does: classes with fields, arrays
changed in place, loops. Each such method is proved against a specification function, and the
properties are lemmas about those functions or about runs.

Some properties one might expect are false of the code, and are stated as such with a concrete input or
an exact condition:

- `EventsLostSignal.LostExactly`: a manual-reset `SetEvent` does not look at `StillWaiting` again under the
  record's lock (lines 479-498 of pevents.cpp, against lines 391-396) and can overwrite the index of an
  auto-reset event whose signal is then spent unseen. Some run loses a signal in a wait-any on a list if and only
  if the list holds both an auto-reset and a manual-reset event.
- `EventsDeadlock.LocksItselfExactly`, `EventsDeadlock.LockUpExactly`: a call keeps its record locked while it locks one event
  after the other, and `SetEvent` does it the other way round. A call, for any or for all, can lock itself up with a
  `SetEvent` call if and only if its list names an event twice; two calls can lock each other up if and only if their
  lists come to two different events in opposite orders. Calls that are locked up stay so for ever
  (`EventsDeadlock.KnotForever`).
- `TaskPumpEnds.EndsExactly`, `TaskPumpEnds.EndsNowExactly`: tasks can arrive for ever while a drain loop works, and then it need not
  end. For every unending sequence of arrivals the loop over delayed tasks ends exactly when, at some look at its
  queue, all the work brought so far is done, and the loop over immediate tasks when no more tasks have come than it
  has run. If what arrives is not due, the first ends if and only if no task that is due repeats for ever with a
  negative interval (`TaskPumpEnds.EndsWhenLate`). A task that submits itself again with a negative delay, or posts
  itself to its own thread, keeps the loop going for ever (`TaskPumpEnds.SelfSubmitting`, `TaskPumpEnds.SelfPosting`).
- `ReplaceAll.StringReplaceAll`: the count returned is doubled when the text grows; and the `memcpy` of the tail (line 129 of
  string_util.cpp) copies between overlapping stretches if and only if the text shrinks, and by less than the tail is
  long (`ReplaceAll.TailOverlaps`), as it does with `aabcd` when `aa` becomes `a`.
- `Md5.HighExactMore`, `Md5.GenerateCMD5Ex`: the length counter stays right exactly when a chunk is below 2^29 bytes or the low
  word overflows anyway; one buffer of 2^29 bytes or more is closed with a wrong length.
- `UuidClock.CollisionHappens`, `UuidClock.EpochOrdered`: `MAX_ADJUSTMENT` is 10, not 9, so the eleventh timestamp of a microsecond is the
  first of the next; timestamps repeat exactly then.
- `Base64.NegativeExactly`: a text that ends in one `=` more than its whole groups have bytes, such as `====`, has a
  negative decoded length, which `Base64.DecodeAll` gives as no length and the code takes for a size.

`des_padding` looks at the value of the last byte anywhere in the block, so decryption returns the length of
the message exactly when no byte of its last partial block has the padding value (`DesCbc.CbcRecovers`).

`dafny verify dfyconfig.toml` checks everything.

## Model

| member | source | states |
|---|---|---|
| EventsSteps.StepKeeps | base/event/pevents.cpp:65-524 | every step of every thread (registration, cleanup, waiting, waking, leaving, `SetEvent`, `ResetEvent`, single waits) keeps the invariant |
| EventsTheorems.RunKeeps | base/event/pevents.cpp:65-524 | the invariant holds after every step of every run, for any number of threads and events |
| EventsTheorems.ReachableInv | base/event/pevents.cpp:65-524 | hence in every reachable state |
| EventsTheorems.ReferencesExact | base/event/pevents.cpp:207-332 | `RefCount` is what the waiting call still holds plus the registrations naming the record in all queues; the record is deleted once, when both are gone |
| EventsTheorems.NoDanglingRegistration | base/event/pevents.cpp:370-448 | no registration that can still be visited names a deleted record |
| EventsTheorems.TargetAlive | base/event/pevents.cpp:66-79 | every access to a record, by cleanup, `SetEvent` or the leaving call, is to one that is not deleted and has references left |
| EventsTheorems.SignalsNotDuplicated | base/event/pevents.cpp:363-458 | an auto-reset event has satisfied no more waits, plus one if it is still set, than it had signals |
| EventsSignals.SignalsBalance | base/event/pevents.cpp:99-458 | over every run, every signal given to an auto-reset event has satisfied one wait, is present, is on its way, or is one of those thrown away: by `ResetEvent` on a set event, or by a `SetEvent` that ends on one |
| EventsSignals.UntakenSignalStays | base/event/pevents.cpp:432-450 | if neither happens, a free auto-reset event is set if and only if one signal more was given than waits were satisfied |
| EventsSignals.SetEventEnds | base/event/pevents.cpp:440-514 | a `SetEvent` that comes to the end of the queue leaves the event free, nobody queued, and an auto-reset event set |
| EventsSignals.ManualChanges | base/event/pevents.cpp:363-533 | a manual-reset event becomes set only by `SetEvent`, at its beginning, and clear only by `ResetEvent` |
| EventsSignals.ResetClears | base/event/pevents.cpp:527-533 | `ResetEvent` clears the event and does nothing else |
| EventsSignals.OthersStay | base/event/pevents.cpp:185-533 | a step changes no event but the one it works on |
| EventsTheorems.NoLostWakeup | base/event/pevents.cpp:246-515 | whenever the event's mutex is free and the event is set, nobody is registered on it |
| EventsTheorems.SleeperIsSignalled | base/event/pevents.cpp:426-430 | a call asleep although its wait is over has been signalled, or the `SetEvent` that fired it is about to |
| EventsTheorems.ServedMeansSignalled | base/event/pevents.cpp:246-262 | a registration counts as served only if its event was seen set, or by a `SetEvent` on that event |
| EventsTheorems.EventsLeftExact | base/event/pevents.cpp:200-276 | `EventsLeft` of a waiting wait-all is its unfired registrations plus the events it has not visited, and is never negative |
| EventsTheorems.WaitAllSucceeds | base/event/pevents.cpp:274-334 | a wait-all that succeeds had every listed event seen set or signalled to it |
| EventsTheorems.WaitAnySucceeds | base/event/pevents.cpp:301-317 | the index a wait-any reports is in range and names an event that was set for this wait |
| EventsTheorems.AutoClaimOnce | base/event/pevents.cpp:388-424 | a wait-any is claimed by at most one auto-reset event |
| EventsTheorems.AutoIndexExact | base/event/pevents.cpp:391-424 | among auto-reset events the reported index is exactly the one that spent its signal |
| EventsSignals.CheckDecides | base/event/pevents.cpp:266-300 | a call looking at its record succeeds if and only if all its events have been satisfied, or for any one; if not, it gives up at once exactly if it may not wait, and sleeps otherwise |
| EventsProgress.CallStopsForMutex | base/event/pevents.cpp:207-334 | in every reachable state a call that has not returned can go on, unless the event mutex it is about to take is held |
| EventsProgress.SetterStopsForRecord | base/event/pevents.cpp:363-515 | and a `SetEvent` call, unless a waiting call holds the record it is about to lock |
| EventsProgress.OthersDoNotStop | base/event/pevents.cpp:99-176 | whoever else holds an event can go on, and a free event can be locked |
| EventsProgress.CallGetsNearer | base/event/pevents.cpp:207-334 | every step of a call but waking up to look again brings it nearer its end, in a well-founded order |
| EventsProgress.CallKeepsPlace | base/event/pevents.cpp:185-524 | and no step of another thread takes that back |
| EventsProgress.SetterGetsNearer | base/event/pevents.cpp:363-515 | a `SetEvent` call that found n registrations is done after at most 3 n + 1 steps of its own, and nobody prolongs it |
| EventsProgress.GivesUpInTime | base/event/pevents.cpp:270-304 | in every reachable state, a call without a time limit has returned only if its wait was over, and one that may not wait does not sleep |
| EventsProgress.SleeperSucceeds | base/event/pevents.cpp:281-317 | a sleeping call whose wait is over returns success with the index in its record once it wakes up |
| EventsProgress.TimeoutIsFinal | base/event/pevents.cpp:294-317 | a call whose time runs out returns so, even if it has been signalled meanwhile |
| EventsProgress.LookTakes | base/event/pevents.cpp:225-261 | a set manual-reset event is taken with two looks and no lock; any other is locked |
| EventsProgress.SingleWaitTakes | base/event/pevents.cpp:99-176 | a single wait obtains a free event exactly if it is set, clears it then if it is auto-reset, and changes nothing else |
| EventsProgress.OverIsPassedOver | base/event/pevents.cpp:374-384 | `SetEvent` neither locks the record of a wait that is over nor spends its signal on it |
| EventsProgress.RunPurges | base/event/pevents.cpp:233-243 | between locking an event and trying it a call removes every registration of a wait that was over before |
| EventsListing.UptoReachable | base/event/pevents.cpp:207-282 | from every reachable state with clear, free events a call on any list can get onto the queues of its first n positions, behind those that wait there, for every n |
| EventsLostSignal.SignalCanDisappear | base/event/pevents.cpp:479-498 | on every list with events of both kinds there is a run in which a manual-reset event hides the signal an auto-reset event has spent on the wait, and that event is left clear |
| EventsLostSignal.LostExactly | base/event/pevents.cpp:388-498 | some run loses a signal in a wait-any on a list if and only if the list holds both kinds of event |
| EventsDeadlock.KnotStays | base/event/pevents.cpp:207-498 | calls blocked on events whose `SetEvent` calls need the records of such calls stay so, whatever step anybody takes |
| EventsDeadlock.KnotForever | base/event/pevents.cpp:207-498 | hence in every continuation of the run |
| EventsDeadlock.LocksItselfExactly | base/event/pevents.cpp:207-498 | a call, for any or for all, can be locked up with a `SetEvent` call on its own list if and only if the list names an event twice |
| EventsDeadlock.LockUpExactly | base/event/pevents.cpp:207-498 | two calls can lock each other up if and only if their lists come to two different events in opposite orders |
| TaskQueue.Queue.PushTask | base/thread/thread.h:57-62 | the task gets the next sequence number and its place in the order |
| TaskQueue.Queue.GetTask | base/thread/thread.h:64-69 | the most urgent task comes out, before all that stay |
| TaskQueue.Queue.CheckTopTask | base/thread/thread.h:71-76 | the tick reported is the least in the queue |
| TaskQueue.PushOrdered | base/thread/thread.h:30-62 | the queue stays sorted by due tick and then by order of submission |
| TaskQueue.TopOnlyMoreUrgent | base/thread/thread.h:186-189 | after what other threads push between the peek and the pop the top is the task seen, or one before it in the order of tick and submission |
| TaskPump.Thread.SubmitRepeatedTask | base/thread/thread.h:162-168 | the delayed queue after the call |
| TaskPump.Thread.SubmitDelayTask | base/thread/thread.h:156-160 | the delayed queue after the call |
| TaskPump.Thread.SubmitTask | base/thread/thread.h:151-154 | the immediate queue after the call |
| TaskPump.Thread.RunImmediate | base/thread/thread.h:177-179 | for every finite list of arrivals the loop ends and runs what the specification of a pass says |
| TaskPump.Thread.Repeat | base/thread/thread.h:191-203 | when a task is queued again, and as what |
| TaskPump.Thread.RunDelayed | base/thread/thread.h:182-208 | for every finite list of arrivals the loop ends although tasks are queued again, unless a task that is due repeats for ever with a negative interval, and refines the pass |
| TaskPump.Thread.RunPass | base/thread/thread.h:174-215 | one turn of the outer loop, for finite lists of arrivals |
| TaskPump.Thread.RunMsgPump | base/thread/thread.h:171-217 | the outer loop performs the passes, each with finite lists of arrivals, up to the one that stops it |
| TaskPump.DrainStep | base/thread/thread.h:185-204 | an iteration without interference does one piece of the work left |
| TaskPumpTheorems.SteadyRun | base/thread/thread.h:171-217 | if no task, queued or arriving, repeats for ever with a negative interval, no pass of any run has a task that is due again at once for ever |
| TaskPumpTheorems.NeverEarly | base/thread/thread.h:184-207 | no task runs before its due tick, and a pass leaves nothing behind that was due |
| TaskPumpTheorems.RunsExactlyTheDue | base/thread/thread.h:184-208 | with non-negative delays a pass runs exactly the tasks due at its start, in order of tick and submission, each once |
| TaskPumpTheorems.RunsInTurn | base/thread/thread.h:30-35 | those tasks run by smaller tick, and by smaller sequence number where ticks are equal |
| TaskPumpTheorems.SameTickInTurn | base/thread/thread.h:57-62 | of two tasks submitted with one due tick the one submitted first runs first, whatever is submitted between and after them |
| TaskPumpEnds.EndsExactly | base/thread/thread.h:185-208 | whatever arrives, for ever and in any step, the loop ends within n looks at the queue if and only if one of them comes when all the work brought so far is done |
| TaskPumpEnds.EndsWhenLate | base/thread/thread.h:185-208 | if nothing that arrives is due, the loop ends if and only if no task that is due repeats for ever with a negative interval, and then within as many iterations as the due tasks have runs |
| TaskPumpEnds.NeverEnds | base/thread/thread.h:185-208 | if every task that runs submits one that is due already, the loop never ends |
| TaskPumpEnds.SelfSubmitting | base/thread/thread.h:156-208 | it does not end for a task that submits itself with a negative delay, though no task repeats |
| TaskPumpEnds.EveryEndIsPass | base/thread/thread.h:185-208 | every loop that ends, whatever could have arrived later, is a pass over a finite list of arrivals |
| TaskPumpEnds.EndsNowExactly | base/thread/thread.h:177-179 | whatever arrives, for ever, the loop over immediate tasks ends within n looks at the queue if and only if by one of them no more tasks have come than it has run |
| TaskPumpEnds.SelfPosting | base/thread/threadmanager.cpp:34-42 | if every task that runs posts one to its own thread, the loop never ends |
| TaskPumpEnds.EndedIsPassNow | base/thread/thread.h:177-179 | every loop over immediate tasks that ends is a pass over a finite list of arrivals |
| TaskPumpTheorems.FirstInFirstOut | base/thread/thread.h:177-179 | immediate tasks run in order of submission and none is left |
| TaskPumpTheorems.PassConservesRuns | base/thread/thread.h:185-204 | runs made plus runs owed after a pass are the runs owed before it |
| TaskPumpTheorems.RunsConserve | base/thread/thread.h:171-217 | the same over any number of passes, for any number of tasks of one closure |
| TaskPumpTheorems.PassRuns | base/thread/thread.h:185-204 | a pass runs a task as often, and leaves of it what, it would if the task were alone, whatever else is queued or arrives |
| TaskPumpTheorems.OncePerPass | base/thread/thread.h:185-204 | a repeated task runs once in a pass that begins after its due tick and is then next due an interval later, and does not run in any other |
| TaskPumpTheorems.RunsAsAlone | base/thread/thread.h:171-217 | over any number of passes the ticks at which a task runs are those of the task alone |
| TaskPumpTheorems.ExactCount | base/thread/thread.h:171-217 | a task submitted with a finite count runs max(1, times) times in all if and only if that many passes begin after its due tick as it moves on (one, if its interval is negative); before that it has run in each of them and is owed the rest |
| TaskPumpTheorems.EndlessCount | base/thread/thread.h:191-195 | a task that repeats for ever runs in every pass that begins after its due tick |
| TaskPumpTheorems.RunsApart | base/thread/thread.h:171-217 | the runs of a repeated task lie more than the interval apart over any number of passes, the first after the due tick |
| ReplaceAll.FindLeast | base/util/string_util.cpp:107 | searching finds the least position, and none only if there is none |
| ReplaceAll.MatchesExactly | base/util/string_util.cpp:107 | `find` occurs at a position exactly if the text is so many characters, `find`, and something |
| ReplaceAll.ReplacedJoins | base/util/string_util.cpp:104-134 | the text is some pieces joined by `find`, the result the same pieces joined by `replace` |
| ReplaceAll.CutLeftmost | base/util/string_util.cpp:104-134 | every piece is cut at the leftmost occurrence and the last contains none |
| ReplaceAll.CutUnique | base/util/string_util.cpp:104-134 | no other cutting is leftmost, so this determines the result |
| ReplaceAll.ReplacedLength | base/util/string_util.cpp:83 | the length of the result, which the buffer is enlarged or cut to |
| ReplaceAll.CountAll | base/util/string_util.cpp:70-78 | the first pass counts the occurrences that will be replaced |
| ReplaceAll.Fits | base/util/string_util.cpp:116-119 | the write cursor never overtakes the unread text: the gap is what the replacements to come need |
| ReplaceAll.SecondPass | base/util/string_util.cpp:103-134 | the pass over one buffer leaves the replaced text |
| ReplaceAll.MakeRoom | base/util/string_util.cpp:68-94 | the text is moved to the end of a buffer that is larger by just what is needed |
| ReplaceAll.StringReplaceAll | base/util/string_util.cpp:48-140 | the final contents for every text, `find` and `replace`; the exact count returned, doubled when growing; when the tail is copied between overlapping stretches |
| Des.FinalUndoesInitial | base/algorithm/des.cpp:203-225 | `DES_FP` undoes `DES_IP` |
| Des.InitialUndoesFinal | base/algorithm/des.cpp:203-225 | and the other way round |
| Des.PutGet | base/algorithm/des.cpp:193-199 | bytes to a word and back |
| Des.GetPut | base/algorithm/des.cpp:193-199 | a word to bytes and back |
| DesCipher.RoundsUndone | base/algorithm/des.cpp:229-242 | rounds with the key words reversed pair by pair undo the rounds on swapped halves |
| DesCipher.CryptUndone | base/algorithm/des.cpp:336-358 | decryption undoes encryption for every schedule and block |
| DesCipher.TripleIsThree | base/algorithm/des.cpp:497-537 | the 48 rounds with changing roles of X and Y are three ciphers in a row |
| DesCipher.Crypt3Undone | base/algorithm/des.cpp:497-537 | Triple-DES decryption undoes encryption |
| DesContext.MainKeySchedule | base/algorithm/des.cpp:246-313 | the 32 words at the given place are the schedule, and nothing else changes |
| DesContext.DesCrypt | base/algorithm/des.cpp:336-358 | eight bytes of the output become the ciphertext of the input, also in place |
| DesContext.Des3Crypt | base/algorithm/des.cpp:497-537 | the same for Triple-DES |
| DesContext.DesKeys.SetKey | base/algorithm/des.cpp:315-332 | `dsk` is the pair-wise reversal of `esk` |
| DesContext.DesKeys.Encrypt | base/algorithm/des.cpp:435-438 | encryption with `esk` |
| DesContext.DesKeys.Decrypt | base/algorithm/des.cpp:440-443 | encryption with `dsk` |
| DesContext.Des3Keys.SetTwoKeys | base/algorithm/des.cpp:447-470 | both schedules of 96 words, filled by one loop that reads what it has written |
| DesContext.Des3Keys.SetThreeKeys | base/algorithm/des.cpp:472-493 | both schedules for three keys |
| DesContext.Des3Keys.Encrypt | base/algorithm/des.cpp:539-542 | Triple-DES with `esk` |
| DesContext.Des3Keys.Decrypt | base/algorithm/des.cpp:544-547 | Triple-DES with `dsk` |
| DesContext.DesUndone | base/algorithm/des.cpp:435-443 | `des_decrypt` undoes `des_encrypt` for every key and block |
| DesContext.Des3Undone | base/algorithm/des.cpp:447-547 | under both Triple-DES schedules `dsk` is the reversal of `esk`, encryption is encrypt-decrypt-encrypt, and decryption undoes it |
| DesRefines.InitialIs | base/algorithm/des.cpp:203-212 | `DES_IP` is IP of FIPS 46-3 with both halves rotated |
| DesRefines.FinalIs | base/algorithm/des.cpp:216-225 | `DES_FP` is the inverse of IP on rotated halves |
| DesRefines.Table1 | base/algorithm/des.cpp:5-23 | every entry of `SB1` is S1 followed by P |
| DesRefines.Table2 | base/algorithm/des.cpp:25-43 | every entry of `SB2` is S2 followed by P |
| DesRefines.Table3 | base/algorithm/des.cpp:45-63 | every entry of `SB3` is S3 followed by P |
| DesRefines.Table4 | base/algorithm/des.cpp:65-83 | every entry of `SB4` is S4 followed by P |
| DesRefines.Table5 | base/algorithm/des.cpp:85-103 | every entry of `SB5` is S5 followed by P |
| DesRefines.Table6 | base/algorithm/des.cpp:105-123 | every entry of `SB6` is S6 followed by P |
| DesRefines.Table7 | base/algorithm/des.cpp:125-143 | every entry of `SB7` is S7 followed by P |
| DesRefines.Table8 | base/algorithm/des.cpp:145-163 | every entry of `SB8` is S8 followed by P |
| DesRefines.RoundFunctionIs | base/algorithm/des.cpp:229-242 | a round macro computes f of FIPS 46-3 on rotated halves |
| DesRefines.ChoiceIs | base/algorithm/des.cpp:254-270 | permuted choice 1 by swaps and nibble tables is PC-1 |
| DesRefines.WordsAre | base/algorithm/des.cpp:287-309 | the two words of a subkey hold the eight groups of PC-2 |
| DesRefines.HalvesAre | base/algorithm/des.cpp:274-285 | the rotations are those of the standard in every round |
| DesRefines.ScheduleIs | base/algorithm/des.cpp:246-313 | the schedule holds the round keys of FIPS 46-3 |
| DesRefines.CryptIs | base/algorithm/des.cpp:336-358 | `des_crypt` is the enciphering computation of the standard |
| DesRefines.BitsInOrder | base/algorithm/des.cpp:193-199 | the bits of a block in the order of the standard |
| DesRefines.DesIsStandard | base/algorithm/des.cpp:315-358 | both schedules of a key encrypt and decrypt as FIPS 46-3 does, on every block |
| DesRefines.Des3IsStandard | base/algorithm/des.cpp:447-547 | Triple-DES is encrypt-decrypt-encrypt of the standard, and decryption the reverse |
| DesVector.EncryptionOfExample | base/algorithm/des.cpp:315-358 | the cipher all this is about takes the first block of the example in FIPS 81 to what is given there |
| DesCbc.XorInto | base/algorithm/des.cpp:360-365 | the eight bytes combined, the rest unchanged |
| DesCbc.RemovePadding | base/algorithm/des.cpp:366-383 | the size found and the block left |
| DesCbc.PaddingExact | base/algorithm/des.cpp:366-383 | padding is recognised exactly when no message byte of the block has its value |
| DesCbc.PlainOfCipher | base/algorithm/des.cpp:385-433 | every block comes back, as in section 6.2 of NIST SP 800-38A |
| DesCbc.CbcEncrypt | base/algorithm/des.cpp:385-409 | the output is the chained ciphertext of the padded message, also when it is the input buffer |
| DesCbc.CbcDecrypt | base/algorithm/des.cpp:411-433 | the output and the length returned, also in place |
| DesCbc.CbcRecovers | base/algorithm/des.cpp:385-433 | decryption starts with the message; the length is right if and only if no byte of the final partial block equals the padding value |
| DesCbc.ThereAndBack | base/algorithm/des.cpp:385-433 | both calls one after the other inside one buffer |
| DesCbcStandard.CipherChains | base/algorithm/des.cpp:385-409 | every ciphertext block is the encryption of FIPS 46-3 of the plaintext block combined by exclusive or with the initialisation vector or the ciphertext block before |
| DesCbcStandard.PlainChains | base/algorithm/des.cpp:411-433 | every block of the output is the decryption of FIPS 46-3 of the ciphertext block combined so, the last one without its padding |
| Sha1.SwappedWord | base/algorithm/SHA1.cpp:47-52 | the swap makes a little-endian load the big-endian word of the standard |
| Sha1.MacroIsStep | base/algorithm/SHA1.cpp:57-62 | a round macro, with its own constant and rotation, is one round of section 6.1.2 of FIPS 180-4 |
| Sha1.WindowLate | base/algorithm/SHA1.cpp:54-55 | the circular sixteen words give the next word of the 80-word schedule |
| Sha1.Round | base/algorithm/SHA1.cpp:57-62 | a macro with rotated names is one step of section 6.1.2 |
| Sha1.FiveRounds | base/algorithm/SHA1.cpp:96-116 | after five macros the names are back |
| Sha1.Hash.Transform | base/algorithm/SHA1.cpp:89-129 | the state becomes the standard's hash value after the block |
| Sha1.CountsMore | base/algorithm/SHA1.cpp:136-140 | two wrapping 32-bit words count the bits modulo 2^64 |
| Sha1.Hash.Reset | base/algorithm/SHA1.cpp:76-87 | a new message |
| Sha1.Hash.Update | base/algorithm/SHA1.cpp:132-155 | the object holds the hash of everything taken in so far |
| Sha1.Hash.PadZeros | base/algorithm/SHA1.cpp:212-215 | the padding loop ends within 64 turns at exactly the padding of section 5.1.1 |
| Sha1.CounterBytes | base/algorithm/SHA1.cpp:208-210 | the bytes of the counter are the 64-bit length field |
| Sha1.Hash.Wipe | base/algorithm/SHA1.cpp:224-232 | what the object holds after it has wiped itself |
| Sha1.Hash.Final | base/algorithm/SHA1.cpp:203-233 | the digest of FIPS 180-4 of the whole message |
| Sha1.Hash.GetHash | base/algorithm/SHA1.cpp:272-275 | the digest is copied and the rest of the target kept |
| Sha1.Hash.HashPieces | base/algorithm/SHA1.cpp:132-233 | any split over `Update` calls gives the digest of the whole |
| Sha1Standard.ConstantsAreRoots | base/algorithm/SHA1.cpp:58-62 | the round constants are 2^30 times the square roots of 2, 3, 5 and 10 |
| Sha1Standard.WordsBefore | base/algorithm/SHA1.cpp:54-55 | the recurrence of the message schedule, in plain operators |
| Sha1Standard.StepSpelledOut | base/algorithm/SHA1.cpp:57-62 | one round, in plain operators |
| Sha1Standard.PlusSpelledOut | base/algorithm/SHA1.cpp:118-123 | the sums at the end of a block, in plain operators |
| Sha1Vector.DigestOfAbc | base/algorithm/SHA1.cpp:20-23 | the digest of "abc" is the one the header gives |
| Blocks.EightBytes | base/algorithm/SHA1.cpp:208-210 | the eight length bytes are the digits of the length modulo 2^64 |
| Hmac.Hmac.SetKey | base/algorithm/HMAC_SHA1.cpp:14-30 | the block key of RFC 2104, hashed first if longer than 64 bytes |
| Hmac.Hmac.XorKey | base/algorithm/HMAC_SHA1.cpp:33-36 | the pad combined with the key |
| Hmac.Hmac.HashInto | base/algorithm/HMAC_SHA1.cpp:43-47 | one use of the wiping hash object gives the digest |
| Hmac.Hmac.HmacSha1 | base/algorithm/HMAC_SHA1.cpp:12-65 | HMAC of section 2 of RFC 2104 for every key and every text of at most 4032 bytes |
| Hmac.HmacByBytes | base/algorithm/HMAC_SHA1.cpp:32-58 | that is the digest of the key combined with 0x5c in every byte and the digest of the key combined with 0x36 and the text, by exclusive or |
| Md5.LowAdd | base/algorithm/CMD5Ex.cpp:63-66 | the low half of a 64-bit sum is the 32-bit sum of the low halves |
| Md5.LowRotate | base/algorithm/CMD5Ex.cpp:61 | the unmasked rotation is right in its low half |
| Md5.LowF | base/algorithm/CMD5Ex.cpp:73-136 | the four forms of `F` are F, G, H and I of RFC 1321 in their low halves |
| Md5.MixedStep | base/algorithm/CMD5Ex.cpp:63-66 | so is a whole step: junk never reaches the low halves |
| Md5.P | base/algorithm/CMD5Ex.cpp:63-66 | the macro with the right constants is one step of section 3.4 of RFC 1321 |
| Md5.Round1 | base/algorithm/CMD5Ex.cpp:75-90 | the sixteen macro calls of round 1 |
| Md5.Round2 | base/algorithm/CMD5Ex.cpp:96-111 | round 2 |
| Md5.Round3 | base/algorithm/CMD5Ex.cpp:117-132 | round 3 |
| Md5.Round4 | base/algorithm/CMD5Ex.cpp:138-153 | round 4 |
| Md5.Context.Process | base/algorithm/CMD5Ex.cpp:40-161 | the low halves of the state become the standard's values after the block |
| Md5.Context.Starts | base/algorithm/CMD5Ex.cpp:30-38 | a new message |
| Md5.HighExactMore | base/algorithm/CMD5Ex.cpp:172-176 | when the second counter word stays right, both directions |
| Md5.Context.Update | base/algorithm/CMD5Ex.cpp:163-198 | the context holds the hash of everything taken in so far; the counter stays right under the exact condition |
| Md5.FieldExact | base/algorithm/CMD5Ex.cpp:213-214 | the length field is right exactly when the second counter word is |
| Md5.Context.Finish | base/algorithm/CMD5Ex.cpp:208-226 | the digest of the message closed with the counter, which is that of RFC 1321 if the counter is right |
| Md5.GenerateCMD5Ex | base/algorithm/CMD5Ex.cpp:228-234 | one buffer: the standard's digest below 2^29 bytes, and a wrong length field exactly from there on |
| Md5.HashPieces | base/algorithm/CMD5Ex.cpp:163-226 | any chunking with chunks below 2^29 bytes gives the digest of the whole |
| Md5Vector.DigestOfAbc | base/algorithm/CMD5Ex.cpp:228-234 | the digest of "abc" is the one in section A.5 of RFC 1321 |
| Frames.Resume | erender/econtroltrans.cpp:252-321 | decoding a stream may stop anywhere and go on later |
| Frames.MessagesOfFrames | erender/econtroltrans.cpp:271-292 | decoding the frames of some payloads gives each payload with a zero byte and leaves nothing |
| Frames.RemainTest | erender/econtroltrans.cpp:282-302 | the mixed signed and unsigned comparison is right for every 32-bit length |
| Frames.Receiver.ReadHead | erender/econtroltrans.cpp:253-281 | a header in one piece or two |
| Frames.Receiver.TakeBody | erender/econtroltrans.cpp:282-319 | as much of a body as there is, keeping package and remainder equal to the length |
| Frames.Receiver.RecvData | erender/econtroltrans.cpp:249-322 | what is routed and what stays pending after any chunk; the loop ends |
| Frames.ReceiveAll | erender/econtroltrans.cpp:249-322 | for every chunking that can be received the messages routed are those of the whole stream |
| Base64.AlphabetAt | base/algorithm/Base64.cpp:16 | the characters of the alphabet |
| Base64.Places | base/algorithm/Base64.cpp:26-51 | the four places of a full or partial group |
| Base64.Base64Encode | base/algorithm/Base64.cpp:14-58 | whole groups within the bound, a zero byte if there is room, nothing else written, and the length of the whole text |
| Base64.BuildTable | base/algorithm/Base64.cpp:94-100 | the table inverts the alphabet and holds 255 elsewhere |
| Base64.RecentMore | base/algorithm/Base64.cpp:110 | of the accumulator only the last two sextets are known |
| Base64.Base64Decode | base/algorithm/Base64.cpp:89-133 | what is written and returned, independent of what the accumulator held at first |
| Base64.LengthsAgree | base/algorithm/Base64.cpp:57-133 | the length formulas of encoding and decoding agree |
| Base64.DecodedEncoded | base/algorithm/Base64.cpp:14-133 | decoding undoes encoding on every byte string |
| Base64.EncodeAll | base/algorithm/Base64.cpp:60-73 | the two-pass wrapper gives the whole text |
| Base64.NegativeExactly | base/algorithm/Base64.cpp:120-133 | which texts have a negative decoded length |
| Base64.DecodeAll | base/algorithm/Base64.cpp:75-87 | the two-pass wrapper gives the whole bytes, unless the length is negative |
| Base64.ThereAndBack | base/algorithm/Base64.cpp:60-87 | a byte string goes through both wrappers unchanged |
| Uuid.Pack | base/uuid/pack.c:38-68 | the sixteen bytes of the fields |
| Uuid.Unpack | base/uuid/unpack.c:38-62 | the fields of sixteen bytes |
| Uuid.UnpackedPacked | base/uuid/pack.c:38-68 | fields to bytes and back |
| Uuid.PackedUnpacked | base/uuid/unpack.c:38-62 | bytes to fields and back |
| Uuid.CompareIsMemCmp | base/uuid/compare.c:42-54 | comparing fields is comparing the sixteen bytes |
| Uuid.CompareIsOrder | base/uuid/compare.c:42-54 | a strict order that tells all UUIDs apart |
| Uuid.RegisterAssembled | base/uuid/gen_uuid.c:464-469 | sixty bits of the timestamp survive in the fields |
| Uuid.AssembledApart | base/uuid/gen_uuid.c:464-469 | generated UUIDs are equal only if timestamp, clock sequence and node all are |
| Uuid.GeneratedKind | base/uuid/uuid_time.c:78-101 | a generated UUID has type 1 and the variant of the standard |
| Uuid.KindOfBytes | base/uuid/uuid_time.c:78-101 | the type is the upper half of byte 6, the variant the leading bits of byte 8 |
| Uuid.OffsetExact | base/uuid/gen_uuid.c:348 | the offset is the time from 15 October 1582 to 1 January 1970 in the Gregorian calendar |
| Uuid.YearLength | base/uuid/gen_uuid.c:348 | whose years have 366 days exactly in leap years |
| Uuid.TimeRecovered | base/uuid/uuid_time.c:56-76 | `uuid_time` recovers the time exactly when the adjustment is at most 9 |
| UuidClock.Clock.Start | base/uuid/gen_uuid.c:321-326 | the state before the first reading |
| UuidClock.Clock.GetClock | base/uuid/gen_uuid.c:328-374 | the timestamp, the clock sequence and the new state, with retries |
| UuidClock.GenerateTime | base/uuid/gen_uuid.c:444-471 | the UUID of a reading, and when its time is recovered |
| UuidClock.ReservedAfter | base/uuid/gen_uuid.c:346-356 | a bulk request reserves consecutive timestamps and remembers the last |
| UuidClock.TicksGrow | base/uuid/gen_uuid.c:329-348 | a timestamp never falls below the last one unless the clock goes back, and equals it only in a collision |
| UuidClock.EpochOrdered | base/uuid/gen_uuid.c:328-374 | over a run without the clock going back, timestamps are in order and only neighbours in a collision share one |
| UuidClock.SequenceCounts | base/uuid/gen_uuid.c:330-335 | the clock sequence counts the times the clock went back, modulo 2^14 |
| UuidClock.Unique | base/uuid/gen_uuid.c:328-374 | over any run, two calls issue one timestamp in one sequence only in a collision or after 2^14 steps back |
| UuidClock.UuidsApart | base/uuid/gen_uuid.c:444-471 | over any run, two calls make one UUID only in such a collision or after a multiple of 2^14 steps back |
| UuidClock.CollisionHappens | base/uuid/gen_uuid.c:336-344 | eleven calls in one microsecond and one in the next collide |
| UuidText.Parse | base/uuid/parse.c:42-79 | exactly the strings of 8, 4, 4, 4 and 12 hexadecimal digits are accepted, and the bytes are those of their fields |
| UuidText.Check | base/uuid/parse.c:49-64 | the character loop accepts exactly the well-formed strings |
| UuidText.DigitExactly | base/uuid/parse.c:62-63 | a character is a digit of some value exactly if it stands there in one of the two rows of sixteen |
| UuidText.HexValueFirst | base/uuid/parse.c:65-77 | the first of some digits weighs most |
| UuidText.ParsedUnparsed | base/uuid/unparse.c:51-76 | parsing undoes printing, in either case |
| UuidText.UnparsedParsed | base/uuid/unparse.c:51-76 | printing what was parsed gives the string in lower case |

## Left out

- Events: weak memory; atomics are sequentially consistent.
- Events: which lists let three or more calls lock one another up; `EventsDeadlock` says when one call or two can, and that all such knots stay.
- Events: the Windows half, `PulseEvent`, and `DestroyEvent` with waiters left.
- Events: what a timed-out wait has consumed; a wait-all that times out keeps it.
- Events: the condition wait of a single `WaitForEvent` is a later attempt on the event; its time limit is not modelled, nor are its looks at the event before it locks it, which only spare the lock.
- Task pump: bodies of tasks, which are inputs (what they submit, and whether they ask to stop) and entries of a log; callbacks that have expired.
- Task pump: the inside of `std::priority_queue`; its contract is enough.
- Task pump: overflow of ticks and of the 64-bit sequence number.
- TaskPump.Thread.RunImmediate: takes the arrivals during a pass as a finite list, which every loop that ends has seen (`TaskPumpEnds.EndedIsPassNow`).
- TaskPump.Thread.RunDelayed: takes the arrivals during a pass as a finite list, which every loop that ends has seen (`TaskPumpEnds.EveryEndIsPass`); asks that no task with a negative interval that repeats for ever is due, at the start or on arrival; with one the loop does not end (`TaskPumpEnds.EndsExactly`).
- Events: the steps of one call are steps of a machine over values and not statements of one method, because those of many threads interleave.
- Replace-all: what the `memcpy` of the tail does when its stretches overlap; it is modelled as `memmove`. `find` and `replace` are not the buffer itself.
- ReplaceAll.StringReplaceAll: the returned count is stated as it is, doubled when growing.
- DES: the initialisation vector is passed by value, and buffers are the same or do not overlap; lengths do not overflow `int`.
- DesCbc.CbcDecrypt: asks for a length that is a multiple of eight, as the code would otherwise write in front of the output.
- Sha1.Hash.Update: asks that the length plus 63 stays below 2^32, as the code's 32-bit sums do.
- SHA-1: file hashing and the printing of hashes; big-endian builds.
- Hmac.Hmac.HmacSha1: asks for texts of at most 4032 bytes, which the buffer has room for.
- HMAC: base/algorithm/hmac_sh1.cpp, whose 64-bit words are not kept to 32 bits before they are rotated.
- Md5.Context.Update: asks for chunks below 2^61 bytes, beyond which the length in bits overflows 64 bits.
- MD5: construction from text, `ToString` and the operators.
- Frames.Receiver.RecvData: asks that a chunk after a part of a header holds the rest of it, which the code reads without looking, and that chunks are below 2^31 bytes.
- Frames: what `RouteCmd` does with a message.
- Base64.DecodeAll: says nothing of what happens after a negative length has gone to `new` and `memcpy`.
- Base64: negative bounds for decoding, and overflow of `int`.
- UUID: the state file and its locks, the daemon, the address of the network card and randomness; readings of the clock are inputs.
- UUID: `memcmp` is modelled by its sign; `isxdigit` and `strtoul` in the C locale.
- Elsewhere: RSA signatures, the network, user interface, rendering, audio buffers, conversions between encodings and `StringTokenizeT`.
