# ReWave channel: scheduler and double-buffered relay

A Dafny model of the playout channel in `channel/src/main.py`. The program plays a
playlist of media files out to a UDP multicast address with no gap between items. It
does this through two named FIFOs, `/tmp/pipe_a` and `/tmp/pipe_b`:

- **Scheduler** (`main`). For each file in list order it probes the duration and
  submits a transcoder job writing into the current FIFO; the job puts that FIFO on a
  shared work list (`DATA_PIPES`). The scheduler swaps the current and next FIFO. Then it sleeps until
  2 seconds before the item's expected end.
- **Relay** (`relay_pipe`). It pops FIFOs from the front of the work list. From each it
  reads chunks of up to 1316 bytes and sends every non-empty chunk as one datagram. It
  leaves a FIFO after its eleventh empty read, and stops altogether once the stop
  event is set.

The model has these modules:

| module | file | what it holds |
|---|---|---|
| `Wrappers` | `wrappers.dfy` | `Option` |
| `Slots` | `slots.dfy` | the two FIFOs as a two-valued `Slot`, and alternation |
| `WorkQueues` | `work_queue.dfy` | `DATA_PIPES` as a class over a `seq`, with ghost append and pop histories |
| `Drain` | `drain.dfy` | a pure description of a sequence of reads: empty-read count, forwarded datagrams, concatenated bytes |
| `Relay` | `relay.dfy` | the stop event, the inner drain loop, the outer relay loop, the relay thread |
| `Pacing` | `pacing.dfy` | the probe fallback, the pre-roll wait, submission times |
| `Scheduler` | `scheduler.dfy` | the scheduler loop as a class with `current`, `next`, a clock and the transcoder jobs submitted (`Launch` records) |
| `Channel` | `channel.dfy` | the scheduler and the relay composed over one queue |

How the program's inputs are represented:

- **FIFO reads.** A pipe is the sequence of results its successive reads return; an
  empty result means no data on that poll. Reads past the end of that sequence return
  nothing, as after the writer has gone. The k-th FIFO the relay drains reads
  `scripts[k]`.
- **Sent datagrams.** `sendto` appends its payload to the output sequence `sent`.
- **Stop event.** `threading.Event` is a counter of `is_set()` calls. The `set()` made
  by the other thread becomes visible at the relay's `setAt`-th call and stays visible
  from then on. `setAt` is a free parameter, so every result holds for any moment of
  the stop.
- **Probe.** The probe's output is given per file as `Option<real>`; `None` means it
  did not parse as a number.
- **Sleep.** The scheduler's sleep advances a `real` clock.

The idle counter `tries` is never reset by a successful read (main.py:59-69). A drain
therefore ends at the eleventh empty read on that FIFO in total, not after eleven
consecutive ones. The model keeps this behaviour.

The program also does none of the following, and neither does the model:

- no start-time sorting;
- no seek offset;
- no skipping of late items.

Items are submitted to the transcoder pool in argument order, each at once after the
previous item's pre-roll sleep. The stop event is set after the playlist loop and its
thread pool have finished. The relay then abandons whatever it is draining, even if
queued FIFOs remain.

## Model

| member | source | states |
|---|---|---|
| `WorkQueues.WorkQueue.constructor` | channel/src/main.py:37 | the work list starts empty, with empty append and pop histories, and is consistent |
| `WorkQueues.WorkQueue.Append` | channel/src/main.py:112 | the slot is added at the back, nothing else changes, and popped-then-waiting still equals everything appended |
| `WorkQueues.WorkQueue.PopFront` | channel/src/main.py:54 | returns the head and leaves exactly the tail; the popped slot is the next one in append order, so pops follow append order (FIFO) |
| `Slots.AlternateStep` | channel/src/main.py:129-131 | each item's slot is the other slot from the previous item's, so consecutive items never share a FIFO |
| `Slots.SlotPair` | channel/src/main.py:34-35 | two different slots are always the pair {A, B}, each the other of the other |
| `Drain.ForwardedShape` | channel/src/main.py:62-69 | every datagram forwarded is non-empty, and datagrams plus empty reads account for every read |
| `Drain.ForwardedFit` | channel/src/main.py:62-69 | when every read is at most PACKET_SIZE (1316) bytes, so is every datagram |
| `Drain.ForwardedBytes` | channel/src/main.py:61-69 | the forwarded datagrams, concatenated, are exactly the bytes read, in read order: nothing lost, reordered or duplicated |
| `Drain.FlattenAppend` | channel/src/main.py:61-69 | the bytes of two read runs in a row are the bytes of the first followed by those of the second |
| `Drain.EmptiesPastEnd` | channel/src/main.py:59-67 | every poll after a writer has gone counts as an empty read |
| `Drain.DrainLength` | channel/src/main.py:59-67 | a drain that stays within the empty-read budget makes at most (available reads + 11) polls |
| `Drain.EmptiesMonotone` | channel/src/main.py:59-65 | `tries` never decreases as reads go on |
| `Drain.TimeoutPointUnique` | channel/src/main.py:63-67 | the read at which a FIFO times out is fixed by its contents: only one poll count ends on an empty read with 11 empty reads in total |
| `Relay.StopEvent.constructor` | channel/src/main.py:118 | a fresh event with no checks made yet |
| `Relay.StopEvent.IsSet` | channel/src/main.py:61 | answers true exactly from the `setAt`-th check on, so once set it stays set |
| `Relay.DrainPipe` | channel/src/main.py:58-69 | the datagrams are the forwarded reads; at most 11 empty reads in total, and idle timeout exactly at the 11th, which is the last read; at most (available reads + 11) polls; every read follows a check that found the stop clear; ending by stop means the stop was seen |
| `Relay.DrainHead` | channel/src/main.py:54-69 | pops exactly the head of the work list and drains that FIFO, with all of the drain's guarantees: the datagrams, the empty-read budget, every read after a check that found the stop clear, and the exact number of checks made |
| `Relay.RecordStep` | channel/src/main.py:54-69 | after one more drain of the queue head, the run still drains queued slots in order, fits every record to its FIFO, and has sent the earlier datagrams followed by this drain's |
| `Relay.RelayPipe` | channel/src/main.py:44-71 | drains a prefix of the work list in FIFO order, leaving exactly the rest; each drain fits its FIFO; every drain but the last ended by idle timeout; `sent` is the drains' datagrams in order; an empty list is never popped. Every stop check is accounted for: one on entry, then each drain's own and one after it. While slots wait, and before a drain that the stop cut short, every check belongs to a drain, so the relay pops whenever a check finds the stop clear and a stopped drain read right up to the stop. The relay exits at the first check that can see the stop, one later when a drain saw it first, so nothing is read or popped after the stop is seen |
| `Relay.DrainAccount` | channel/src/main.py:50-61 | across one drain and the outer check after it, the check count grows by that drain's checks; the outer check sees the stop exactly when it is the first check at or after the stop (or the one after a drain that saw it), and otherwise the drain ended by idle timeout |
| `Relay.RelayThread` | channel/src/main.py:118-120 | with a fresh stop event set at check `setAt`: the FIFO and fit guarantees of the relay run; a waiting slot is left, or a drain cut short, only because the stop came; no check after the one that saw it; a stop visible from the start relays nothing |
| `Relay.RunFacts` | channel/src/main.py:50-69 | a run of drains states, drain by drain, its slot, its fit to its FIFO, and idle timeout for all but the last |
| `Relay.SentPackets` | channel/src/main.py:62-69 | every datagram on the network is non-empty, and at most PACKET_SIZE (1316) bytes when no read returns more than that |
| `Drain.PolledFit` | channel/src/main.py:62 | a pipe whose reads all fit PACKET_SIZE gives fitting reads however often it is polled |
| `Relay.SentBytes` | channel/src/main.py:50-69 | over a whole run, the bytes on the network are the bytes read, FIFO after FIFO, in drain order |
| `Pacing.Duration` | channel/src/main.py:103-107 | the parsed probe value when there is one, else 10.0 seconds |
| `Pacing.WaitTime` | channel/src/main.py:134 | the wait is never negative and never less than duration − 2; it is one of the two, i.e. `max(0, duration - 2)` |
| `Pacing.StartTimeMonotone` | channel/src/main.py:123-136 | later playlist items are never submitted earlier |
| `Pacing.PreRoll` | channel/src/main.py:133-136 | an item of at least 2 s has its successor submitted exactly 2 s before its expected end; a shorter one has its successor submitted at once |
| `Scheduler.Scheduler.constructor` | channel/src/main.py:34-35 | the current slot is A and the next is B; no launches yet, clock at 0 |
| `Scheduler.Scheduler.StreamFile` | channel/src/main.py:109-114 | one job submitted for the file into the slot at the current time, and that slot appended to the work list; nothing else changes |
| `Scheduler.Scheduler.Run` | channel/src/main.py:122-136 | one submission per item in list order, on slots alternating from the current one, at the paced start times; the same slots queued in the same order; the clock advanced by the sum of the waits; current and next still differ |
| `Scheduler.PlanStep` | channel/src/main.py:123-136 | one more item adds exactly that item's launch and slot at the end of the plan |
| `Scheduler.StartTimePrefix` | channel/src/main.py:133-136 | an item's launch time depends only on the durations of the items before it |
| `Channel.Schedule` | channel/src/main.py:122-136 | from a fresh queue: one submission per item in list order on slots A, B, A, B, … at the paced times, and exactly those slots queued |
| `Channel.Broadcast` | channel/src/main.py:117-141 | the submissions follow the playlist on slots A, B, A, B, …; the relay drains those slots in submission order and never more of them; every drain fits its FIFO; all but the last end by idle timeout; the network carries the bytes read, FIFO after FIFO, each datagram non-empty and within PACKET_SIZE when the reads are; a submitted slot is left undrained, or a drain cut short, only because the stop came, and nothing is read after the stop is seen; a stop seen from the start relays nothing |

## Left out

- Network I/O is not modelled. This covers socket creation, the multicast TTL option and the target address (`TARGET_MULTICAST`, `TARGET_PORT`, default 239.100.0.1:1234). `sendto` is an append to `sent`.
- FIFO I/O is not modelled. This covers `os.mkfifo`, the blocking `open` and the real `read(PACKET_SIZE)`. A read is an element of a given read sequence.
- Transcoding is not modelled. This covers `start_ffmpeg`, `subprocess.Popen` with its argument list, and `proc.wait()`; an external process has no logic to state here.
- Duration probing is left out: `ffprobe` and Python's `float()` parsing (including `nan`/`inf` spellings) are foreign calls. Only "parsed value, else 10.0" is kept.
- The threads are not modelled, because concurrency is outside the model. This covers the relay thread, `join(timeout=2)` and the unsynchronised sharing of `DATA_PIPES`.
- The two-worker thread pool is not modelled. Each worker holds its job until the transcoder exits, so item k+2's transcoder and its append wait for whichever of items k and k+1 finishes first. `Launch.at` is therefore the submission time, not the time the transcoder starts. If item k+1's transcoder exits first, item k+2's transcoder opens item k's FIFO while item k is still writing to it. One drain then carries bytes from two items. The model gives each drain one script, so it does not capture this mixing.
- `Channel.Broadcast` runs the scheduler to completion and then the relay. The interleavings where the relay drains item k while item k+1 is being scheduled are therefore not modelled.
- The model assumes that every foreign call succeeds. A failure changes the modelled logic in three ways:
  - If ffmpeg cannot be started (main.py:91), `stream_file` raises before its append (main.py:111-112). The discarded Future (main.py:129) swallows the error. That slot is never queued, and later drains no longer read their own item's slot. `Scheduler.Scheduler.StreamFile` and `Channel.Broadcast` state the outcome of successful launches only.
  - If ffprobe cannot run, `subprocess.run` raises outside the `try` (main.py:102-105). `main` then ends before `stop_event.set()` (main.py:139), and the relay never stops.
  - If a transcoder dies before opening its FIFO, the relay blocks in `open` (main.py:58) until another producer opens that FIFO, or forever. The model instead reads such a pipe as its script, and reads past the given scripts as empty.
- A stop that never arrives is not modelled: `setAt` is a natural number, so the relay always ends. In the program the stop is set only after the pool has waited for every transcoder to exit (main.py:122, 138-139); a transcoder that never exits leaves the relay polling forever.
- Appends are assumed to reach the list in submission order.
- All sleeps (0.5 s at relay start, 0.5 s idle poll, 10 ms after an empty read) are not modelled as time. The scheduler's pre-roll sleep advances a clock; the relay's sleeps do nothing.
- The time spent probing and launching is not counted on the clock.
- Command-line parsing and the log `print`s are not modelled; they are process setup and output.
- `WorkQueues.WorkQueue.PopFront`: requires a non-empty list. The program's `pop(0)` raises on an empty list, and its only caller pops only after checking that the list is not empty.
- `Drain.ForwardedFit`: the 1316-byte bound on datagrams holds on the condition that every read returns at most 1316 bytes, which `read(PACKET_SIZE)` guarantees. The read sequences themselves are not constrained.
