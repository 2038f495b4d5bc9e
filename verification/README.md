# PicoRuby: verified models of its stateful algorithms

PicoRuby runs Ruby on microcontrollers. Most of it is glue around hardware; this project models the parts that
keep real state, and proves what they keep, over every input and every run.

Check it with `dafny verify dfyconfig.toml` (Dafny 4.11).

## What is modelled

**Task scheduler** (`Options`, `Ticks`, `TaskModel`, `TaskQueueInvariant`, `TaskEffects`, `TaskJoin`,
`TaskTiming`, `TaskFairness`, `TaskRoundRobin`, `TaskCalls`, `TaskScheduler`). `TaskModel` is a state machine:
the control blocks, the four queues, the 32-bit tick with its wrap-around, the cached wake-up gate, and one
step for each call, tick and turn of the run loop. The IRQ-bracketed queue edits are one step each; the resume
step includes lowering the gate, which the source does after interrupts are on again (task.c:569-575), so a
tick between the two is not modelled. `TaskScheduler` is the same thing as the original keeps it: linked lists
whose `next` fields are relinked in place, every method proved to take the step of the state machine. Over
every run: the queues stay disjoint and complete, each holds exactly the tasks whose status selects it, sorted
except for a RUNNING task after `Task.pass`; at most one task is RUNNING; the gate never skips a wake-up, so
it is invisible; a sleeper wakes at exactly its deadline's tick plus one; joins are released by the retirement
of their target and by nothing else; equal tasks rotate, however many ticks a turn takes; a call of sleep
lasts as long as it asks for, a call of join until its target is over, and what is suspended or terminated
does not run until it is resumed; the best priority runs first, three ticks at a time.

**YAML** (`Blanks`, `Hashes`, `Decimal`, `YamlText`, `YamlModel`, `YamlRoundTrip`, `YamlReader`,
`YamlDocument`, `YamlHandwritten`). The writer, and the reader with its two stacks and its aliased containers,
which are numbers into a store so that a change through the stack is a change seen from the parent. For every
document that fits the line format, reading what was written gives the document with empty and directly nested
arrays turned into empty hashes, and hence the document itself exactly when it has none. What a text is read
as is told from its characters alone, also for texts nobody wrote with the writer.

**Buffered IO** (`Lines`, `ByteStream`, `BufferedIo`, `StreamLaws`, `VfsFile`). A byte stream without a buffer
is the specification; its own laws, of positions and bytes, are in `StreamLaws`. The buffered object, with
read-ahead, push-back in 16-bit lengths, a reported position and write-after-read, answers interleaved
operations as that stream does and leaves the same file, however the operating system splits its reads, up to
the first push-back beyond limits a caller can check. The chunked line reader of the virtual file system
splits a file into lines that do not depend on the chunks.

**TLS byte accounting** (`TlsAccounting`). The receive window and the sent counter under callbacks in any
order, where the application may acknowledge, write, close or abort inside its own callbacks. mbedTLS, TCP and
the application are nondeterministic.

**Music** (`PowersOfTwo`, `MmlLoops`, `MusicTrack`, `MusicMerge`, `PrsFormat`, `PrsPlayer`, `PrsRoundTrip`,
`PrsRegisters`). The loop macro, the event queue of a track, the timed merge of up to three tracks, the binary
song file and its player. The player replaces a pending wait instead of adding to it; that it plays every
command at its tick rests on a property of the merge, and both are proved. Replayed into the registers of the
chip, a saved song leaves each of them as its tracks last asked for.

**JSON** (`JsonText`, `JsonParser`, `JsonRoundTrip`, `JsonGrammar`, `JsonDigger`, `JsonDigging`,
`JsonGrammarDigging`). The parser ends with a value or an error on every input. Parsing generated text gives
the value back exactly when no string in it contains a quote or a backslash (the generator writes a quote for
both); a document that is a boolean is generated as that boolean and not as text, and is no document here.
Every text of the JSON grammar is read as what it says. Digging along a path of keys in generated text equals
walking the parsed value; in other texts of the grammar it follows the first entry of a key, where the parser
keeps the last, and passes all forms but three that it takes for something else, each with a text that shows
it.

**Smaller machines.** `Crc32`: the bit step is linear and a bijection, checks can be continued, messages that
differ only within 32 consecutive bits have different checks, and a message with its check behind it has a
constant one. `RotaryEncoder`: the count is a winding number, whatever the contacts do. `EditorBuffer`: the
lines and cursor of the editors are one flat text with a position; each key inserts, deletes or moves as it
should, with one limit stated exactly.

Where the code and its documentation differ, the model follows the code: `mrb_terminate_task` leaves joiners
waiting, `sleep_ms` takes the head of the ready queue for its caller, the song compiler drops the legato
command that the file format and the other player know, a relative seek counts from the operating system's
offset, and a push-back after the end of the file was met stays hidden behind the end-of-file flag.

## Model

| member | source | states |
|---|---|---|
| `Ticks.SignedUnique` | mrbgems/picoruby-mruby/src/task.c:144-182 | The signed 32-bit difference is the one representative of the distance in range, whatever wraps |
| `Ticks.SignedAdvance` | mrbgems/picoruby-mruby/src/task.c:144-182 | A tick brings every deadline one closer, across the wrap-around, unless it is at the far end |
| `Ticks.SignedAhead` | mrbgems/picoruby-mruby/src/task.c:508-529 | A deadline set n ticks ahead lies n ticks ahead, for n within the signed range |
| `TaskModel.InsertionPoint` | mrbgems/picoruby-mruby/src/task.c:64-90 | A task is linked behind every task of at least its priority that it meets first, before the first weaker one |
| `TaskQueueInvariant.DequeueKeeps` | mrbgems/picoruby-mruby/src/task.c:98-123 | Unlinking removes that task alone and keeps the order of the others |
| `TaskQueueInvariant.EnqueueKeeps` | mrbgems/picoruby-mruby/src/task.c:64-90 | Linking in adds that task alone, without duplicates, and keeps the queue sorted |
| `TaskQueueInvariant.MoveKeeps` | mrbgems/picoruby-mruby/src/task.c:98-123 | Unlink, rewrite, relink keeps every task in exactly the queue of its status |
| `TaskQueueInvariant.TickKeeps` | mrbgems/picoruby-mruby/src/task.c:144-182 | A tick keeps the queues filed and sorted and at most one task RUNNING |
| `TaskQueueInvariant.SleepKeeps` | mrbgems/picoruby-mruby/src/task.c:508-529 | So does going to sleep |
| `TaskQueueInvariant.ResumeKeeps` | mrbgems/picoruby-mruby/src/task.c:553-576 | So does resuming, whichever of the three ways it goes |
| `TaskQueueInvariant.FinishKeeps` | mrbgems/picoruby-mruby/src/task.c:438-496 | So does the end of a turn, and no task is RUNNING afterwards |
| `TaskQueueInvariant.StepKeeps` | mrbgems/picoruby-mruby/src/task.c:407-589 | Every legal call, tick and turn keeps the whole queue invariant |
| `TaskQueueInvariant.RunKeeps` | mrbgems/picoruby-mruby/src/task.c:407-498 | Over every legal run the queues are disjoint, complete, sorted but for the RUNNING task, with at most one RUNNING, none at the loop head |
| `TaskQueueInvariant.QueueIsStatus` | mrbgems/picoruby-mruby/src/task.c:64-123 | A task is in a queue if and only if its status selects it, so unlinking always finds it |
| `TaskQueueInvariant.InitialInv` | mrbgems/picoruby-mruby/src/task.c:915-921 | The initial state meets the invariant |
| `TaskEffects.ScanWakes` | mrbgems/picoruby-mruby/src/task.c:162-180 | The scan wakes exactly the due sleepers it walks over and leaves every other control block alone |
| `TaskEffects.FinishReleases` | mrbgems/picoruby-mruby/src/task.c:438-475 | The turn that retires a task makes its waiting joiners READY, clears the reason of its suspended ones, and touches no other task |
| `TaskEffects.TickEffect` | mrbgems/picoruby-mruby/src/task.c:144-182 | A tick changes control blocks only by waking sleepers and counting time slices |
| `TaskJoin.StepJoinSafe` | mrbgems/picoruby-mruby/src/task.c:553-589 | A step keeps live joiners waiting or suspended on a live target if and only if it respects a guard a caller can check: it neither terminates a joined task nor revives one retired inside a join whose target is done |
| `TaskJoin.ReleasedOnlyByTarget` | mrbgems/picoruby-mruby/src/task.c:438-475 | A joiner loses its join reason in a step if and only if the step retires its target |
| `TaskJoin.RunJoinSafe` | mrbgems/picoruby-mruby/src/task.c:823-843 | Over every run within the guard, joiners wait on targets that are not done |
| `TaskJoin.ReadyOnlyAfterTarget` | mrbgems/picoruby-mruby/src/task.c:823-843 | Over any run, a joiner is READY or RUNNING again only after its target was retired |
| `TaskJoin.InitialJoin` | mrbgems/picoruby-mruby/src/task.c:915-921 | The initial state has no stranded joiner and no stale reason |
| `TaskJoin.StrandingReachable` | mrbgems/picoruby-mruby/src/task.c:578-589 | A run of five legal steps from the initial state reaches a stranded joiner |
| `TaskJoin.TerminateStrandsJoiner` | mrbgems/picoruby-mruby/src/task.c:578-589 | Terminating a joined task leaves its joiner waiting on a task that is done |
| `TaskTiming.ScanSettles` | mrbgems/picoruby-mruby/src/task.c:162-180 | After a scan the gate lies at or before every remaining deadline |
| `TaskTiming.DueExactly` | mrbgems/picoruby-mruby/src/task.c:163-177 | The scan finds exactly those sleepers due whose deadline is not ahead of the tick before |
| `TaskTiming.ScanIdle` | mrbgems/picoruby-mruby/src/task.c:162-180 | A scan that finds nobody due changes nothing but the gate |
| `TaskTiming.GateSkipsNothing` | mrbgems/picoruby-mruby/src/task.c:158-160 | While the gate has not passed, a scan would have woken nobody |
| `TaskTiming.TickIsExact` | mrbgems/picoruby-mruby/src/task.c:144-182 | The gated tick equals the always-scanning tick, the gate aside, and wakes a sleeper exactly when its deadline is before the new tick |
| `TaskTiming.InitialGate` | mrbgems/picoruby-mruby/src/task.c:915-921 | The initial gate lies at or before every sleeper's deadline |
| `TaskTiming.StepGate` | mrbgems/picoruby-mruby/src/task.c:508-576 | Every step with sleeps and overdue times under 2^30 ticks keeps the gate at or before every sleeper's deadline |
| `TaskTiming.RunGate` | mrbgems/picoruby-mruby/src/task.c:144-182 | So does every such run |
| `TaskTiming.GateIsInvisible` | mrbgems/picoruby-mruby/src/task.c:144-182 | Over every such run the gated scheduler and one that always scans pass through the same states, the gate aside |
| `TaskTiming.SleepsUntilDeadline` | mrbgems/picoruby-mruby/src/task.c:508-529 | An undisturbed sleeper keeps sleeping until its deadline, whatever else runs |
| `TaskTiming.WakesExactly` | mrbgems/picoruby-mruby/src/task.c:144-182 | It is READY exactly when the tick is its deadline plus one, across wrap-around |
| `TaskTiming.SleepLasts` | mrbgems/picoruby-mruby/src/task.c:508-529 | After a call of sleep the task sleeps, whatever else runs, while no more ticks go by than its milliseconds fill, and the tick after that many makes it READY |
| `TaskFairness.EnqueueIsFifo` | mrbgems/picoruby-mruby/src/task.c:64-90 | A task joins the end of its priority's line if and only if no equal stands behind the insertion point |
| `TaskFairness.NoEqualBehind` | mrbgems/picoruby-mruby/src/task.c:690-697 | Only a RUNNING task after `Task.pass` can stand there, at one priority level |
| `TaskRoundRobin.TickPeers` | mrbgems/picoruby-mruby/src/task.c:144-182 | A tick that wakes no task of the best priority or better leaves the best ready tasks as they stand |
| `TaskRoundRobin.TurnRotates` | mrbgems/picoruby-mruby/src/task.c:417-496 | A turn with any number of such ticks in it runs the head and moves it behind its peers |
| `TaskRoundRobin.RoundRobin` | mrbgems/picoruby-mruby/src/task.c:417-496 | k turns with any number of such ticks in each run each of the k best ready tasks exactly once and restore their order; if the ticks wake nobody, the whole ready queue is restored |
| `TaskFairness.SleepTakesHead` | mrbgems/picoruby-mruby/src/task.c:508-529 | The caller of sleep is the one put to sleep if and only if it heads the ready queue |
| `TaskFairness.SleepHitsNewcomer` | mrbgems/picoruby-mruby/src/task.c:508-529 | A caller that has just created a task of better priority puts that one to sleep instead, and stays RUNNING |
| `TaskCalls.StopsUntilResumed` | mrbgems/picoruby-mruby/src/task.c:537-589 | Over every run, a task that was suspended or terminated does not run, nor stand in the ready queue, before it is resumed |
| `TaskCalls.ResumeUndoesSuspend` | mrbgems/picoruby-mruby/src/task.c:537-576 | Resuming undoes suspending: READY without a reason to wait, and otherwise waiting on for the same deadline or target, in its queue |
| `TaskCalls.JoinLasts` | mrbgems/picoruby-mruby/src/task.c:823-843 | After a call of join the caller waits, and over every run is READY or RUNNING again only if the target was retired since |
| `TaskCalls.DispatchIsBest` | mrbgems/picoruby-mruby/src/task.c:417-434 | The processor goes to a task of the best priority among all READY ones |
| `TaskCalls.CreatedBeforeWorse` | mrbgems/picoruby-mruby/src/task.c:315-378 | Over every run in which a created task does not pass, no task of a worse priority than it was created with is dispatched while it is READY |
| `TaskCalls.PassYields` | mrbgems/picoruby-mruby/src/task.c:690-697 | After passing, the end of the turn puts a task behind every ready task of priority 0 or 1 and in front of all others |
| `TaskCalls.TickSwitches` | mrbgems/picoruby-mruby/src/task.c:144-182 | A tick asks for a switch if and only if the slice of the head ends or a task wakes while one is running |
| `TaskCalls.StepSwitches` | mrbgems/picoruby-mruby/src/task.c:315-589 | Any other step asks for one if and only if it takes the caller off the processor or makes a task ready while one is running; only the end of the turn withdraws it |
| `TaskCalls.SliceIsThreeTicks` | mrbgems/picoruby-mruby/src/task.c:417-434 | A dispatched task is asked to give way at its third tick and not before, unless a task wakes |
| `TaskScheduler.Scheduler.QInsert` | mrbgems/picoruby-mruby/src/task.c:64-90 | Relinking in place inserts at the specified point and keeps all four lists well linked |
| `TaskScheduler.Scheduler.QDelete` | mrbgems/picoruby-mruby/src/task.c:98-123 | Relinking in place removes the task; the search never runs off the list |
| `TaskScheduler.Scheduler.PreemptRunning` | mrbgems/picoruby-mruby/src/task.c:131-137 | Asks for a switch exactly when a task is RUNNING in the ready list |
| `TaskScheduler.Scheduler.Create` | mrbgems/picoruby-mruby/src/task.c:323-378 | Takes the creation step; the priority is cut to 8 bits |
| `TaskScheduler.Scheduler.SleepMs` | mrbgems/picoruby-mruby/src/task.c:508-529 | Takes the sleep step, whose length `TaskTiming.SleepLasts` states |
| `TaskScheduler.Scheduler.Suspend` | mrbgems/picoruby-mruby/src/task.c:537-550 | Takes the suspend step |
| `TaskScheduler.Scheduler.Resume` | mrbgems/picoruby-mruby/src/task.c:553-576 | Takes the resume step |
| `TaskScheduler.Scheduler.Terminate` | mrbgems/picoruby-mruby/src/task.c:578-589 | Takes the terminate step |
| `TaskScheduler.Scheduler.Pass` | mrbgems/picoruby-mruby/src/task.c:690-697 | Takes the pass step |
| `TaskScheduler.Scheduler.Join` | mrbgems/picoruby-mruby/src/task.c:823-843 | Takes the join step |
| `TaskScheduler.Scheduler.Tick` | mrbgems/picoruby-mruby/src/task.c:144-182 | Takes the tick step, walking the waiting list while it is relinked |
| `TaskScheduler.Scheduler.Dispatch` | mrbgems/picoruby-mruby/src/task.c:417-434 | Takes the dispatch step |
| `TaskScheduler.Scheduler.Finish` | mrbgems/picoruby-mruby/src/task.c:438-496 | Takes the finish step, releasing joiners from both lists |
| `Decimal.DigitsRead` | mrbgems/picoruby-json/mrblib/json.rb:509-521 | The digit loop reads back every printed natural number |
| `YamlText.IntRoundTrip` | mrbgems/picoruby-yaml/mrblib/yaml.rb:152-178 | A printed integer is recognised as one and read back |
| `YamlText.ScalarRoundTrip` | mrbgems/picoruby-yaml/mrblib/yaml.rb:89-101 | Every scalar that fits the format is read back from its text: any integer, boolean or null, a float in plain decimals, and any trimmed string that `YamlText.ReadAs` says stands for itself |
| `YamlText.ReadAs` | mrbgems/picoruby-yaml/mrblib/yaml.rb:89-101 | Which texts are integers, floats, booleans, null and strings, in terms of their characters alone, and the value of the integers |
| `YamlText.FloatIs` | mrbgems/picoruby-yaml/mrblib/yaml.rb:164-170 | A text is a float if and only if it is two integers with a dot between them, blanks around each, and any number of dots behind |
| `Blanks.BlankChars` | mrbgems/picoruby-yaml/mrblib/yaml.rb:138-150 | The characters that stripping removes |
| `YamlModel.Reader.Parse` | mrbgems/picoruby-yaml/mrblib/yaml.rb:27-87 | The loop over stacks and aliased containers computes the specified reading of all lines |
| `YamlReader.EntriesRead` | mrbgems/picoruby-yaml/mrblib/yaml.rb:27-87 | From any stack depth, the lines of a hash's entries extend that hash by them and leave the stacks ready for what follows |
| `YamlReader.ItemsRead` | mrbgems/picoruby-yaml/mrblib/yaml.rb:49-70 | Likewise the lines of an array's items |
| `YamlReader.ArrayItemRead` | mrbgems/picoruby-yaml/mrblib/yaml.rb:49-70 | An array directly inside an array loses its items |
| `YamlDocument.SerializeIsLines` | mrbgems/picoruby-yaml/mrblib/yaml.rb:103-136 | The writer's text is the specified lines, each ended by a newline |
| `YamlDocument.EntryLineReads` | mrbgems/picoruby-yaml/mrblib/yaml.rb:138-145 | A printed key line reads as its indentation, key and scalar |
| `YamlDocument.ItemLineReads` | mrbgems/picoruby-yaml/mrblib/yaml.rb:147-150 | A printed item line reads as its indentation and scalar |
| `YamlDocument.LoadOfDump` | mrbgems/picoruby-yaml/mrblib/yaml.rb:27-136 | Reading what was written always succeeds, and gives the hash with empty and directly nested arrays turned into empty hashes |
| `YamlRoundTrip.NormIsIdentity` | mrbgems/picoruby-yaml/mrblib/yaml.rb:54-63 | That change is none if and only if there is no such array |
| `YamlDocument.RoundTrip` | mrbgems/picoruby-yaml/mrblib/yaml.rb:27-136 | parse(serialize(h)) is h if and only if no array in h is empty or directly inside another |
| `YamlHandwritten.SkippedLine` | mrbgems/picoruby-yaml/mrblib/yaml.rb:34-36 | A line is passed over if and only if it is blank or its first other character is `#` |
| `YamlHandwritten.SkipsDoNotMatter` | mrbgems/picoruby-yaml/mrblib/yaml.rb:34-36 | Such lines, wherever they stand, make no difference |
| `YamlHandwritten.EntryAsWritten` | mrbgems/picoruby-yaml/mrblib/yaml.rb:138-145 | A key and value with any blanks around them are read as that key, at that indentation, with what the text is read as, or no value |
| `YamlHandwritten.ItemAsWritten` | mrbgems/picoruby-yaml/mrblib/yaml.rb:147-150 | Likewise a list item; a dash without a blank behind it has no value |
| `YamlHandwritten.KeyAmongItems` | mrbgems/picoruby-yaml/mrblib/yaml.rb:73-81 | A key among the items of a list is a type error |
| `YamlHandwritten.TopListIsLost` | mrbgems/picoruby-yaml/mrblib/yaml.rb:54-63 | A list at the top of a document, written by the writer, is read as an empty hash |
| `Hashes.PutOld` | mrbgems/picoruby-yaml/mrblib/yaml.rb:73-81 | Assigning to a key that is there keeps its place and gives it the new value |
| `Hashes.PutNew` | mrbgems/picoruby-yaml/mrblib/yaml.rb:73-81 | Assigning to a key that is not there appends it |
| `BufferedIo.Io.FillBuf` | mrbgems/picoruby-posix-io/src/io.c:925-940 | Filling appends what one read gives and changes nothing of the stream |
| `BufferedIo.Io.Take` | mrbgems/picoruby-posix-io/src/io.c:949-970 | Taking n buffered bytes advances the stream by them |
| `BufferedIo.Io.FindIndex` | mrbgems/picoruby-posix-io/src/io.c:122-137 | Finds the first place in the buffer where the separator, of any length, stands whole, or none |
| `BufferedIo.Io.ReadAll` | mrbgems/picoruby-posix-io/src/io.c:972-982 | Terminates with everything unread |
| `BufferedIo.Io.GetByte` | mrbgems/picoruby-posix-io/src/io.c:1233-1248 | Answers as the unbuffered stream |
| `BufferedIo.Io.GetChar` | mrbgems/picoruby-posix-io/src/io.c:1659-1686 | Answers as the unbuffered stream |
| `BufferedIo.Io.Read` | mrbgems/picoruby-posix-io/src/io.c:1259-1328 | Terminates and answers as the unbuffered stream, however reads are split |
| `BufferedIo.Io.Gets` | mrbgems/picoruby-posix-io/src/io.c:1772-1824 | Returns the line up to the first separator byte, independent of buffer boundaries |
| `BufferedIo.Io.Unget` | mrbgems/picoruby-posix-io/src/io.c:1452-1480 | The 16-bit length wraps if and only if it would be exceeded; otherwise the buffer begins with the bytes pushed back, and the result is that of the unbuffered stream whenever the unread bytes lie within the reallocated block, which the second result reports |
| `BufferedIo.PushBackBeyondBlock` | mrbgems/picoruby-posix-io/src/io.c:1471-1475 | Three operations on a new object leave the unread bytes beyond a block that shrinks, at a length well within 16 bits |
| `BufferedIo.Io.Pos` | mrbgems/picoruby-posix-io/src/io.c:1482-1498 | Reports the unbuffered position |
| `BufferedIo.Io.Eof` | mrbgems/picoruby-posix-io/src/io.c:1642-1657 | True exactly when nothing is left to read |
| `BufferedIo.Io.Seek` | mrbgems/picoruby-posix-io/src/io.c:1189-1231 | An absolute seek is that of the unbuffered stream, which `StreamLaws.SeekGoesThere` says goes where it is sent; a rejected one still drops the buffer |
| `BufferedIo.Io.SeekRelative` | mrbgems/picoruby-posix-io/src/io.c:1219-1231 | A relative seek moves from the reported position if and only if nothing is buffered; one to before the start is rejected after dropping the buffer |
| `BufferedIo.Io.Write` | mrbgems/picoruby-posix-io/src/io.c:1330-1365 | Writes at the reported position, undoing read-ahead and push-back |
| `BufferedIo.Io.Run` | mrbgems/picoruby-posix-io/src/io.c:1189-1686 | Any interleaving answers as the unbuffered stream and leaves the same file, up to a push-back beyond the stated limits |
| `StreamLaws.SeekGoesThere` | mrbgems/picoruby-posix-io/src/io.c:1189-1231 | After seek(p) the position is p, reading gives the file from p on, and the end is reached if and only if p is not inside the file |
| `StreamLaws.PositionMoves` | mrbgems/picoruby-posix-io/src/io.c:1482-1498 | The position grows by exactly the bytes read, falls by those pushed back, and the file stays |
| `StreamLaws.ReadsInOrder` | mrbgems/picoruby-posix-io/src/io.c:1259-1328 | Whatever way a part is read, what is left follows it without gap or overlap |
| `StreamLaws.ReadsEnough` | mrbgems/picoruby-posix-io/src/io.c:1233-1328 | One byte, one character, or as many bytes as asked for are read as far as there are any, and nil is answered exactly at the end |
| `StreamLaws.ReadsLine` | mrbgems/picoruby-posix-io/src/io.c:1772-1824 | A line ends with its first separator, or with the file |
| `StreamLaws.PushedBackIsRead` | mrbgems/picoruby-posix-io/src/io.c:1452-1480 | What is pushed back is read first, and then what would have been read |
| `StreamLaws.WrittenIsRead` | mrbgems/picoruby-posix-io/src/io.c:1330-1365 | What is written at p is read at p, no other byte changes, and a gap behind the old end is zeros |
| `StreamLaws.WritesAtPosition` | mrbgems/picoruby-posix-io/src/io.c:1330-1365 | A write goes to the reported position, after reading ahead and pushing back alike; before the start it is an error and writes nothing |
| `StreamLaws.Rewind` | mrbgems/picoruby-posix-io/src/io.c:1189-1231 | A buffered object that was used in any way, sent to p, reports p and reads its file from p on |
| `StreamLaws.WriteAndRead` | mrbgems/picoruby-posix-io/src/io.c:1330-1365 | What it writes at p is in its file at p, nothing else is changed, and reading at p gives it back |
| `Lines.FirstLine` | mrbgems/picoruby-vfs/mrblib/file.rb:128-181 | A line is the shortest prefix that ends with a separator, or all there is |
| `Lines.LinesPartition` | mrbgems/picoruby-vfs/mrblib/file.rb:122-126 | The lines concatenate to the file, and each but the last ends at its first separator |
| `VfsFile.SearchResumed` | mrbgems/picoruby-vfs/mrblib/file.rb:165-174 | A search resumed one byte less than a separator before a new chunk misses no separator |
| `VfsFile.File.Gets` | mrbgems/picoruby-vfs/mrblib/file.rb:128-181 | The chunked search returns the first line, for any separator, and leaves the position behind it |
| `VfsFile.File.EachLine` | mrbgems/picoruby-vfs/mrblib/file.rb:122-126 | Terminates and hands out exactly the lines of the file |
| `TlsAccounting.Conn.LowerRecved` | mrbgems/picoruby-net/src/altcp_tls_mbedtls.c:198-206 | The 16-bit portions sum to the argument, none empty |
| `TlsAccounting.Conn.BioRecv` | mrbgems/picoruby-net/src/altcp_tls_mbedtls.c:466-515 | mbedTLS gets as many bytes as it asks for or the whole first buffer, no other buffer is touched, and without bytes it is told to wait, or that the connection is over |
| `TlsAccounting.Conn.Pull` | mrbgems/picoruby-net/src/altcp_tls_mbedtls.c:466-515 | Asking for bytes as often as there are bytes and buffers gets everything that was received |
| `TlsAccounting.Conn.Recved` | mrbgems/picoruby-net/src/altcp_tls_mbedtls.c:1083-1107 | Acknowledged bytes move from the unacknowledged counter to the window, never more than there are |
| `TlsAccounting.Conn.PassRxData` | mrbgems/picoruby-net/src/altcp_tls_mbedtls.c:330-377 | Waiting bytes stay accounted for if and only if there is a receive callback and a refused buffer was not acknowledged beyond what was passed before; the end of the connection is passed on once nothing waits |
| `TlsAccounting.Conn.Decrypted` | mrbgems/picoruby-net/src/altcp_tls_mbedtls.c:415-445 | At the end of a record exactly its protocol bytes return to the window |
| `TlsAccounting.Conn.HandleRxAppldata` | mrbgems/picoruby-net/src/altcp_tls_mbedtls.c:380-461 | The loop terminates, as each further round decrypts some of the bytes received, and conserves both balances; it passes on what it reads, and stops only for want of a buffer or of bytes, or because the application does not take them |
| `TlsAccounting.Conn.LowerRecvProcess` | mrbgems/picoruby-net/src/altcp_tls_mbedtls.c:278-327 | The handshake is done if and only if it was or mbedTLS completes it; until then every byte pulled goes back to the window, and afterwards bytes are decrypted; a failed handshake and a refusing connected callback included |
| `TlsAccounting.Conn.LowerRecv` | mrbgems/picoruby-net/src/altcp_tls_mbedtls.c:212-276 | Every byte that arrives is accounted for, and both balances hold; the end of the connection is held back while received bytes wait |
| `TlsAccounting.Conn.LowerConnected` | mrbgems/picoruby-net/src/altcp_tls_mbedtls.c:175-195 | Zeroing the overhead counter keeps the sent balance as long as nothing has been pushed |
| `TlsAccounting.Conn.BioSend` | mrbgems/picoruby-net/src/altcp_tls_mbedtls.c:1266-1301 | Every byte the inner connection accepted is counted, also when it then fails, and it stops only at the first portion not accepted |
| `TlsAccounting.Conn.Write` | mrbgems/picoruby-net/src/altcp_tls_mbedtls.c:1216-1260 | Succeeds exactly on an open connection after the handshake when mbedTLS took the bytes and pushed at least as many; the counter stays equal to un-ACKed minus unreported bytes, and non-negative; with every portion accepted all of it is pushed |
| `TlsAccounting.Conn.LowerSent` | mrbgems/picoruby-net/src/altcp_tls_mbedtls.c:522-552 | Reports exactly what exceeds the overhead; nothing twice, and everything once all is acknowledged |
| `TlsAccounting.Conn.Run` | mrbgems/picoruby-net/src/altcp_tls_mbedtls.c:175-552 | Both balances hold after callbacks in any order, any number of times, until the connection is closed |
| `MmlLoops.Expand` | mrbgems/picoruby-psg/mrblib/mml.rb:294-325 | The recursive loop terminates and computes the specified meaning, or raises beyond depth 8 |
| `MmlLoops.ExpandPrinted` | mrbgems/picoruby-psg/mrblib/mml.rb:294-325 | Expansion of a printed score is the score played out if it is nested at most 8 deep, and raises otherwise |
| `MmlLoops.MeaningIsPlain` | mrbgems/picoruby-psg/mrblib/mml.rb:294-325 | For any text, balanced or not, no macro character is left |
| `MusicTrack.Parser.ReduceNext` | mrbgems/picoruby-psg/mrblib/mml.rb:103-237 | Successive calls hand out the events of the track, one by one, then nothing |
| `MusicTrack.EventsDuration` | mrbgems/picoruby-psg/mrblib/mml.rb:220-236 | Play and mute lengths together are the notated length, whatever the gate time |
| `MusicTrack.TrackDuration` | mrbgems/picoruby-psg/mrblib/mml.rb:103-237 | A track's events end with a mute of no length and last as long as its notes and rests |
| `MusicTrack.GateShares` | mrbgems/picoruby-psg/mrblib/mml.rb:220-236 | A note sounds for the eighths of its length that the gate time gives it, rounded down, and is then muted; a gate time that is no digit from 1 to 8 is 8 |
| `MusicTrack.RestIsSilent` | mrbgems/picoruby-psg/mrblib/mml.rb:220-236 | A rest is silence of its length, whatever the gate time |
| `MusicTrack.CommandsTakeNoTime` | mrbgems/picoruby-psg/mrblib/mml.rb:131-215 | A command reaches the events with its argument and takes no time; an envelope shape puts the volume under the envelope |
| `MusicMerge.MergeKeepsScores` | mrbgems/picoruby-psg/mrblib/mml.rb:31-64 | Each track's part of the merge is its own events in order, at its own ticks |
| `MusicMerge.ScoreTicks` | mrbgems/picoruby-psg/mrblib/mml.rb:52-59 | Its k-th event happens when all events before it are over |
| `MusicMerge.MergeIsInOrder` | mrbgems/picoruby-psg/mrblib/mml.rb:31-64 | Deltas are non-negative and events are in order of time, at equal times of track |
| `MusicMerge.MergeIsTheOnlyOne` | mrbgems/picoruby-psg/mrblib/mml.rb:31-64 | There is no other order with these properties |
| `MusicMerge.EndIsLongest` | mrbgems/picoruby-psg/mrblib/mml.rb:29-67 | The returned time is that of the longest track |
| `MusicMerge.DeltasAreBounded` | mrbgems/picoruby-psg/mrblib/mml.rb:46-48 | No delta exceeds the longest event |
| `MusicMerge.CompiledTracks` | mrbgems/picoruby-psg/mrblib/mml.rb:7-68 | All of this for any tracks, in terms of their notated notes and rests |
| `MusicMerge.CompileMulti` | mrbgems/picoruby-psg/mrblib/mml.rb:7-68 | The loop over the two tables is the specified merge; it raises for no track or more than three |
| `PrsFormat.HeaderReads` | mrbgems/picoruby-psg/mrblib/prs.rb:32-50 | Length and loop start are read back from the header |
| `PrsFormat.HeaderLayout` | mrbgems/picoruby-psg/mrblib/prs.rb:7-14 | The 32 bytes of the header: signature, version, tracks, length and loop start with the least byte first, the name filled up with zeros |
| `PrsFormat.Compiler.SaveTo` | mrbgems/picoruby-psg/mrblib/prs.rb:75-142 | The file is the header, patched with length and loop start, then the encoded song, whose commands `PrsRegisters` gives their meaning; it fails if and only if the tracks are rejected, a tone period is 0, or a modulation command occurs, of whose two arguments only one is passed on |
| `PrsPlayer.PlayPrs` | mrbgems/picoruby-psg/mrblib/driver.rb:92-139 | A file plays if and only if its header is valid, and otherwise only mutes the tracks |
| `PrsPlayer.PlaySong` | mrbgems/picoruby-psg/mrblib/driver.rb:96-133 | The player's loop makes the specified calls for any file, truncated commands and unknown operations included |
| `PrsRoundTrip.DecodeEncoded` | mrbgems/picoruby-psg/mrblib/driver.rb:96-133 | Playing an encoded song makes exactly its calls |
| `PrsRoundTrip.TimesAreKept` | mrbgems/picoruby-psg/mrblib/driver.rb:112-116 | Its calls come at the right times if and only if no wait follows another before a command and none needs more than 24 bits |
| `PrsRoundTrip.CodesSilent` | mrbgems/picoruby-psg/mrblib/prs.rb:90-131 | Segno and legato, and no other event, leave no command in the file |
| `PrsRoundTrip.MergeIsKept` | mrbgems/picoruby-psg/mrblib/mml.rb:52-59 | The merge never puts a wait behind another before a command |
| `PrsRoundTrip.SavedSongIsHeard` | mrbgems/picoruby-psg/mrblib/prs.rb:75-142 | Saved and played, every command of every track is heard at the tick it was compiled for |
| `PrsRoundTrip.LoopStartIsAfterSegno` | mrbgems/picoruby-psg/mrblib/prs.rb:91-92 | The saved loop start is the place of what follows the last segno, and 0 without one |
| `PrsRoundTrip.SavedSongLoops` | mrbgems/picoruby-psg/mrblib/driver.rb:98-110 | With the loop start read from the saved header, each further pass unmutes the tracks and plays what follows the segno at its own distances; without a segno the song ends |
| `PrsRoundTrip.SaveAndPlay` | mrbgems/picoruby-psg/mrblib/driver.rb:92-139 | Compiler, file, header and player together make exactly the song's calls, for any tracks that can be saved |
| `PrsRegisters.RegistersShow` | mrbgems/picoruby-psg/mrblib/prs.rb:90-131 | However the events of the tracks interleave, replaying their commands leaves every register of the chip as it was last asked for, tone, volume, muting, timbre and pan by its own track alone |
| `PrsRegisters.MixerRunShows` | mrbgems/picoruby-psg/mrblib/prs.rb:115-127 | The mixer bits of a track are those it chose last, whatever the others choose |
| `PrsRegisters.SavedSongPlays` | mrbgems/picoruby-psg/mrblib/prs.rb:75-142 | A saved song, played up to any of its events, has the chip show what its tracks have asked for by then |
| `PrsRegisters.SongEndsWith` | mrbgems/picoruby-psg/mrblib/prs.rb:75-142 | At its end, register 8 + t holds the last volume of track t, and registers 2t and 2t + 1 together its last tone, as the track's own events have them |
| `PrsRegisters.SavesUnlessStopped` | mrbgems/picoruby-psg/mrblib/prs.rb:90-131 | One to three tracks are saved if and only if none of their events is a note without a period or modulation |
| `PrsRegisters.MutesAll` | mrbgems/picoruby-psg/mrblib/driver.rb:97-108 | Going back to the loop start unmutes the three tracks and changes nothing else; a file that is no song mutes them |
| `JsonParser.Parser.Parse` | mrbgems/picoruby-json/mrblib/json.rb:341-360 | Terminates with a value or an error on every input, as specified |
| `JsonParser.Parser.ParseObject` | mrbgems/picoruby-json/mrblib/json.rb:364-386 | Reads the specified entries, a repeated key replacing its value |
| `JsonParser.Parser.ParseArray` | mrbgems/picoruby-json/mrblib/json.rb:388-406 | Reads the specified items |
| `JsonParser.Parser.ParseString` | mrbgems/picoruby-json/mrblib/json.rb:408-427 | Reads to the closing quote, or fails at the end of the text |
| `JsonParser.Parser.ReplaceEscapeSequence` | mrbgems/picoruby-json/mrblib/json.rb:429-470 | The loop computes the specified text, or fails on an unknown escape |
| `JsonParser.Parser.ParseNumber` | mrbgems/picoruby-json/mrblib/json.rb:472-507 | Reads the longest number, an integer if it has neither fraction nor exponent |
| `JsonRoundTrip.ValueStands` | mrbgems/picoruby-json/mrblib/json.rb:276-406 | Generated text is read back anywhere in a document, up to its end |
| `JsonRoundTrip.GeneratedNoBackslash` | mrbgems/picoruby-json/mrblib/json.rb:322-326 | The generator never writes a backslash |
| `JsonRoundTrip.ParsedIsClean` | mrbgems/picoruby-json/mrblib/json.rb:408-427 | Without a backslash in the text, no parsed string contains a quote or backslash |
| `JsonRoundTrip.RoundTrip` | mrbgems/picoruby-json/mrblib/json.rb:276-521 | For every document that is not a boolean, parse(generate(v)) is v if and only if no string or key in v contains a quote or a backslash |
| `JsonGrammar.TextIsRead` | mrbgems/picoruby-json/mrblib/json.rb:341-521 | Every text of the JSON grammar, with any white space around its tokens, any escapes but `\u`, numbers in all their forms and repeated keys, is read as what it says |
| `JsonGrammar.ReadText` | mrbgems/picoruby-json/mrblib/json.rb:341-521 | So does the parser's own recursion and loops, run on it |
| `JsonGrammar.OtherEscapes` | mrbgems/picoruby-json/mrblib/json.rb:429-470 | Any other letter behind a backslash is an error, but `u`, which is dropped with its backslash |
| `JsonGrammar.LeadingSpaceFails` | mrbgems/picoruby-json/mrblib/json.rb:341-360 | A document that starts with white space is an error |
| `JsonDigger.Digger.DigObject` | mrbgems/picoruby-json/mrblib/json.rb:175-211 | The scan finds the key or fails as specified, with its stack |
| `JsonDigger.Digger.DigValue` | mrbgems/picoruby-json/mrblib/json.rb:213-240 | The scan passes a value as specified |
| `JsonDigger.Digger.DigArray` | mrbgems/picoruby-json/mrblib/json.rb:242-273 | The scan passes an array as specified, leaving its mark on the stack |
| `JsonDigger.Digger.Dig` | mrbgems/picoruby-json/mrblib/json.rb:100-121 | Each key narrows the text as specified, or the error is raised |
| `JsonDigging.DiggerStopsWithParser` | mrbgems/picoruby-json/mrblib/json.rb:213-240 | On generated text the scan stops at the same index as the parser |
| `JsonDigging.EntriesAnswer` | mrbgems/picoruby-json/mrblib/json.rb:175-211 | A key is found where its value stands, and DiggerError raised if it is missing |
| `JsonDigging.DiggingIsWalking` | mrbgems/picoruby-json/mrblib/json.rb:100-125 | For every document that is not a boolean and every path of string keys, digging and then parsing equals walking the document, errors included |
| `JsonGrammarDigging.ScanStopsWithParser` | mrbgems/picoruby-json/mrblib/json.rb:213-273 | On every text of the grammar without a plus sign in an exponent, white space in an empty object, or white space behind the last item of an array, scan and parser stop at the same index |
| `JsonGrammarDigging.PlusIsNotPassed` | mrbgems/picoruby-json/mrblib/json.rb:165-173 | The scan stops in front of the plus sign of an exponent |
| `JsonGrammarDigging.BlankObjectFails` | mrbgems/picoruby-json/mrblib/json.rb:175-211 | It fails on an object that holds only white space |
| `JsonGrammarDigging.ArrayRunsOn` | mrbgems/picoruby-json/mrblib/json.rb:242-273 | It runs past the end of an array with white space in front of its bracket |
| `JsonGrammarDigging.DiggingFollows` | mrbgems/picoruby-json/mrblib/json.rb:100-125 | On such texts, digging gives the text of the value that following the keys as written, each time to the first entry, reaches, and parsing it what it says, errors included |
| `Crc32.Generate` | mrbgems/picoruby-crc/src/crc.c:4-19 | The two loops compute the specified check |
| `Crc32.CrcContinues` | mrbgems/picoruby-crc/src/crc.c:4-19 | crc(a + b, c) = crc(b, crc(a, c)) |
| `Crc32.BitStepLinear` | mrbgems/picoruby-crc/src/crc.c:10-16 | The bit step respects exclusive or |
| `Crc32.BitStepInvertible` | mrbgems/picoruby-crc/src/crc.c:10-16 | It is a bijection on 32-bit words |
| `Crc32.BurstIsDetected` | mrbgems/picoruby-crc/src/crc.c:4-19 | Messages of equal length that differ only within 32 consecutive bits have equal checks if and only if they are equal |
| `Crc32.FourBytesAreDetected` | mrbgems/picoruby-crc/src/crc.c:4-19 | In particular within four consecutive bytes |
| `Crc32.GeneratorIsLeft` | mrbgems/picoruby-crc/src/crc.c:4-19 | A single bit leaves the generator polynomial of the standard, and the check is its complement: known values |
| `Crc32.ResidueIsConstant` | mrbgems/picoruby-crc/src/crc.c:4-19 | A message with its check behind it, least byte first, has the same check whatever the message |
| `RotaryEncoder.Encoders.Callback` | mrbgems/picoruby-prk-rotary_encoder/src/prk-rotary_encoder.c:31-61 | Exactly the encoders that watch the pin are updated, from the levels of their pins |
| `RotaryEncoder.Encoders.Consume` | mrbgems/picoruby-prk-rotary_encoder/src/prk-rotary_encoder.c:63-77 | Hands out one turn towards zero |
| `RotaryEncoder.CountIsWindingNumber` | mrbgems/picoruby-prk-rotary_encoder/src/prk-rotary_encoder.c:14-77 | Over every sequence of single-pin changes, bounces and readings, the count is the net number of full turns not yet handed out, in 8 bits, exact at the start position and less than a turn off in between |
| `RotaryEncoder.TurnShaft` | mrbgems/picoruby-prk-rotary_encoder/src/prk-rotary_encoder.c:31-61 | An interrupt on either pin of an encoder wired to a shaft reads the pins of the shaft's position, and leaves encoders on other pins alone |
| `EditorBuffer.Insert` | mrbgems/picoruby-editor/mrblib/buffer.rb:3-20 | The hand-written insert is list insertion; it raises for a negative index |
| `EditorBuffer.InsertedPlaces` | mrbgems/picoruby-editor/mrblib/buffer.rb:3-20 | Where every element is after an insertion, with nil in a gap behind the old end |
| `EditorBuffer.Buffer.Left` | mrbgems/picoruby-editor/mrblib/buffer.rb:71-79 | One position back in the flat text, also from a cursor beyond its line |
| `EditorBuffer.Buffer.Right` | mrbgems/picoruby-editor/mrblib/buffer.rb:81-90 | One position on in the flat text |
| `EditorBuffer.Buffer.PutChar` | mrbgems/picoruby-editor/mrblib/buffer.rb:106-113 | One insertion at the clamped cursor if and only if the rest of the line fits into 65535 characters |
| `EditorBuffer.Buffer.PutEnter` | mrbgems/picoruby-editor/mrblib/buffer.rb:120-126 | A line end inserted, on the same condition |
| `EditorBuffer.Buffer.PutBackspace` | mrbgems/picoruby-editor/mrblib/buffer.rb:127-144 | One deletion before the cursor, joining lines if it is a line end |
| `EditorBuffer.Buffer.Put` | mrbgems/picoruby-editor/mrblib/buffer.rb:106-157 | Every key clamps the cursor first, keeps it in range and has its effect on the flat text, insertions on that condition; UP and DOWN keep the clamped column |
| `EditorBuffer.DeletedUndoes` | mrbgems/picoruby-editor/mrblib/buffer.rb:127-144 | Deleting after an insertion gives back the text and position |

## Left out

- Virtual machine, garbage collection, context stacks, mutex fields, `mrb_delete_task`, changing a priority, `Task.stat`, `Task.list` and `Task.get`: the virtual machine is an arbitrary sequence of calls and ticks that may end the task.
- Pointers of control blocks: tasks are names, and the control blocks and their links are tables indexed by them; what a dangling pointer would do is not captured.
- TaskTiming.RunGate: sleeps and overdue times are under 2^30 ticks; beyond that the signed comparison of the source is ambiguous.
- TaskModel.InsertionPoint: `Task.pass` is a legal step only for the RUNNING task, as the source demands of its callers.
- YamlText.ScalarRoundTrip: a float is kept as its text, since floating-point conversion is the platform's, and its printed form is in the domain only if it is plain decimals; leading and trailing blanks are those of ASCII.
- YAML indentations other than two per level, and lists under a key that is not the last one: they are read by the model as by the source, but nothing is claimed of them.
- BufferedIo.Io.Gets: separators are one byte, without a limit; a longer one is searched for in the current buffer only. `gets(nil)` and the paragraph mode are not modelled.
- BufferedIo.Io.Unget: nothing is claimed of the stream when the unread bytes lie beyond a block that shrinks, as the source then copies what it does not own, nor when the 16-bit length wraps.
- BufferedIo.Io.Run: ends at the first push-back after the end of the file, beyond the 16-bit length, or that would move the buffer out of a block that shrinks; `SeekRelative` is stated apart, as it does not answer as the stream.
- Failing and partial writes, failing reads, select, popen, pipe, sysread, pread, flags of file descriptors: operating system plumbing. Multi-byte characters in getc count as bytes.
- VfsFile.File.Gets: the driver returns full chunks until the end of the file; limits and the empty separator are not modelled.
- TlsAccounting.Conn.Run: the 16-bit total length of a buffer chain, certificates, sessions, retries of refused data, and the application's sent, poll and error callbacks are not modelled. Assumed are that mbedTLS yields no more bytes than it pulled, that a successful write of n bytes has pushed at least n bytes, that the send buffer holds fewer than 2^31 bytes, and that the inner connection is connected before it accepts bytes.
- TlsAccounting.Conn.LowerConnected: an inner connection that fails to connect, of which the application is only told, is not modelled.
- TlsAccounting.Conn.Pull: buffers are lengths; which bytes are copied is not modelled.
- TlsAccounting.Conn.PassRxData: that the application does not refuse a buffer it has acknowledged in part is part of the statement for one call, and assumed of the application in `Run`.
- MusicTrack.Parser.ReduceNext: letters come with their arguments read; pitch, tempo and length arithmetic in floating point, invalid letters and endless playing from a segno are not modelled.
- PrsFormat.Compiler.SaveTo: what is left in the file when an event raises is not stated.
- PrsPlayer.PlayPrs: a song that loops plays on until it is interrupted; the model stops it after any given number of passes. Waiting for the driver's queue to run empty and its shutdown are not modelled.
- JsonRoundTrip.RoundTrip: floats are outside, since their text is the platform's; so are symbols and other objects, which the generator turns into strings. A boolean as the whole document is left as it is and not turned into text, so it is excluded.
- JsonParser.Parser.ParseNumber: a float is kept as its text, since its value is the platform's.
- JsonGrammar.TextIsRead: surrogate pairs and the characters of `\u` escapes, which the source does not decode, are outside the grammar.
- JsonGrammarDigging.ScanStopsWithParser: one way only, since inside an array the three forms may still end at the right index by what follows them.
- JsonDigger.Digger.Dig: the path holds string keys only.
- JsonDigger.Digger.DigArray: digging by a position is not modelled; its type stack is not popped at a closing bracket, and a position out of range is not raised.
- Crc32.Generate: words are integers below 2^32 with exclusive or defined on them bit by bit.
- RotaryEncoder.CountIsWindingNumber: only one pin changes between two interrupts, as the Gray code demands.
- EditorBuffer.Buffer.Put: characters come one at a time; `delete`, `delete_line`, `insert_line` and `dump` are not modelled.
- Screen drawing, vim, shell, keyboard firmware, radio, sensors, pins and buses, databases, fonts, allocators, encodings, UART ring buffers and debouncers: hardware, foreign calls, or loops that would only add easy members.
