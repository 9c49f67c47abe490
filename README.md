# EclipseOS keyboard input pipeline and `echo`, in Dafny

This project models the keyboard input path of the EclipseOS kernel and the shell's
`echo` command, and proves properties of the model.

- **Relay queue** (`relay_queue.dfy`, module `RelayQueue`). This is the bounded FIFO of
  scancodes, capacity 100. It is modelled on values. `Offer` inserts one byte and
  rejects it when the queue is full. `Fill` is a burst of interrupts. `Replay` runs any
  interleaving of interrupts and consumer pops. The lemmas cover FIFO order, the
  capacity bound, rejection of the newest byte and the 101-byte flood.
- **Shared state and the stream** (`scancode_stream.dfy`, module `ScancodeStream`).
  Class `ScancodeRelay` holds the two statics of `src/task/keyboard.rs`:
  - the one-shot `SCANCODE_QUEUE` cell, as an `initialized` flag and a `queue`;
  - the `WAKER` slot, as `waker`.

  It also keeps a log of printed warnings, a log of the tasks woken, and the consumer's
  progress through `poll_next` (`phase`). The class implements `add_scancode` (the
  interrupt), `ScancodeStream::new` and the four steps of `poll_next`: fast-path pop,
  register, re-check and take. Any number of `AddScancode` calls may run between two
  steps; these stand in for interrupts. The class invariant `Valid()` says: between
  registering and re-checking, either the caller's waker is still registered or a byte
  is waiting. So a `Pending` result always leaves the waker registered and the queue
  empty, and the next successful push wakes that task. `PollNext` runs the whole
  protocol with a burst of interrupts at each interleaving point, and `WindowWakeups`
  lists the tasks those bursts wake. `RunEvents` drives
  `AddScancode` and `PollNext` through any sequence of interrupts and polls. Each poll
  carries the bursts that fire inside it, before registration, before the re-check and
  before the withdrawal. `Unfolded` turns this sequence into relay-queue events,
  following the fast-path outcome, and `RunEvents` is proved to agree with `Replay` of
  them. So the order and loss lemmas of the relay queue hold of the class itself,
  interrupts inside a poll included. Client methods prove the scenarios: singleton, early interrupt,
  early poll, flood, race window and no missed wake-up.
- **Dispatcher and consumer loop** (`key_dispatch.dfy`, module `KeyDispatch`).
  `Dispatch` is the `match` in `print_keypresses`, a total map from a decoded key to a
  terminal action. The contract states the decision table against independent sets of
  erase keys and silent keys. `PrintKeypresses` is the consumer loop. It threads the
  decoder state through the two decoder steps, which are passed in as function
  parameters, and it is proved equal to dispatching every key that `DecodeAll` yields.
- **`echo`** (`echo.dfy`, module `Shell`). `Echo` runs the source's loop: append each
  token and a space, then `trim_end`. It is proved to print exactly the tokens joined by
  single spaces. Beside it are a model of `split_whitespace` and `trim_end` with
  Rust's `char::is_whitespace` set. The lemmas cover the round trip
  split(join(tokens)) = tokens, the output length, that `trim_end` removes exactly the
  appended space, that the output is empty exactly when the text is blank, and that
  `a  b   c` prints `a b c`.

Among the Alt keys only `LAlt` and `RAltGr` are silent (src/task/keyboard.rs:111-112).
A decoded U+001B is printed like any other character. The empty `if` at
src/task/keyboard.rs:90-92 does nothing.

Panics (`expect`) are modelled as `Fault` values. Terminal output is modelled as logs of
abstract actions and warnings.

## Model

| member | source | states |
|---|---|---|
| RelayQueue.Offer | src/task/keyboard.rs:23-24 | the old queue is a prefix of the new one; the byte goes at the back exactly when there is room; a full queue is returned unchanged; the capacity bound is kept |
| RelayQueue.FillKeepsFirst | src/task/keyboard.rs:22-27 | a burst of interrupts leaves the first bytes that fit, in arrival order, and rejects exactly the rest |
| RelayQueue.FillFull | src/task/keyboard.rs:23-24 | a full queue rejects every byte of a burst and is unchanged |
| RelayQueue.FillConcat | src/task/keyboard.rs:21-31 | two bursts in a row leave the same queue as one burst |
| RelayQueue.FillEmpty | src/task/keyboard.rs:23-24 | a burst into the empty queue leaves it empty exactly when no byte arrived, and otherwise puts the first byte at the front |
| RelayQueue.Flood101 | src/task/keyboard.rs:40 | 101 pushes with no pop keep the first 100 in order and reject one |
| RelayQueue.ReplayFifo | src/task/keyboard.rs:23-60 | under any interleaving of pushes and pops, the bytes consumed followed by the bytes still queued equal the initial queue followed by the accepted bytes |
| RelayQueue.DropsConcat | src/task/keyboard.rs:23-24 | rejections over two bursts in a row add up |
| RelayQueue.ReplayBurst | src/task/keyboard.rs:21-31 | a burst inside any trace fills the queue as `Fill` does, rejects `Drops` bytes and hands the consumer nothing |
| RelayQueue.ReplayBounded | src/task/keyboard.rs:40 | the queue never holds more than 100 bytes under any interleaving |
| RelayQueue.ReplayPartition | src/task/keyboard.rs:23-24 | every delivered byte is either accepted or rejected; with no rejection the accepted bytes are exactly the delivered ones |
| RelayQueue.FifoWithoutOverflow | src/task/keyboard.rs:55-60 | without overflow, the consumer receives the bytes in exact arrival order |
| ScancodeStream.ScancodeRelay.constructor | src/task/keyboard.rs:15-16 | boot state: queue cell uninitialised, waker slot empty, nothing logged |
| ScancodeStream.ScancodeRelay.NewStream | src/task/keyboard.rs:38-43 | the first call creates an empty queue; a later call fails with the already-created fault and changes nothing |
| ScancodeStream.ScancodeRelay.Push | src/task/keyboard.rs:23 | reports success exactly when there was room; the queue becomes `Offer(old queue, b)` |
| ScancodeStream.ScancodeRelay.Pop | src/task/keyboard.rs:55 | returns and removes the front byte, or None on an empty queue |
| ScancodeStream.ScancodeRelay.Wake | src/task/keyboard.rs:26 | wakes the registered task, if any, and empties the slot |
| ScancodeStream.ScancodeRelay.AddScancode | src/task/keyboard.rs:21-31 | before creation: byte dropped, one uninitialised warning, nothing else changes; full: byte dropped, one overflow warning, waker untouched; otherwise: byte appended at the back, the waiting task woken and the slot emptied |
| ScancodeStream.ScancodeRelay.Deliver | src/task/keyboard.rs:21-31 | a burst of interrupts leaves the queue `Fill(old queue, bytes)` with one warning per dropped byte; the waiting task is woken once if any byte got in |
| ScancodeStream.ScancodeRelay.PollFastPath | src/task/keyboard.rs:50-57 | panics if the queue was never created; with a byte queued, returns Ready with the front byte and removes only it, without touching the waker; otherwise moves to registration |
| ScancodeStream.ScancodeRelay.PollRegister | src/task/keyboard.rs:59 | the caller's waker replaces whatever was registered |
| ScancodeStream.ScancodeRelay.PollRecheck | src/task/keyboard.rs:60-65 | pops again; when the queue is empty the result is Pending, with the caller's waker registered and the queue empty |
| ScancodeStream.ScancodeRelay.PollTake | src/task/keyboard.rs:61-63 | after a successful re-check, empties the waker slot and returns Ready with the popped byte |
| ScancodeStream.ScancodeRelay.RegisterAmid | src/task/keyboard.rs:59 | registration with bursts on either side: the empty queue takes both bursts in as one `Fill`, with one overflow warning per rejected byte; the first burst wakes whatever was registered, the second wakes the caller when it gets a byte in, and the slot is left empty exactly then, holding the caller otherwise |
| ScancodeStream.ScancodeRelay.PollSlowPath | src/task/keyboard.rs:59-66 | after a missed fast path: the first byte the bursts before the re-check got in is returned, the slot ends empty, the rest and the last burst stay queued, one overflow warning is printed per rejected byte, and the tasks woken are those of `WindowWakeups` (the old waker for the first burst, the caller once for whichever later burst first finds it registered); with no such byte the poll is Pending with the caller's waker registered and nothing changed |
| ScancodeStream.ScancodeRelay.RecheckAmid | src/task/keyboard.rs:60-66 | the re-check on an empty queue is Pending and changes nothing; on a non-empty one it returns the front byte, lets the burst before `WAKER.take()` in behind the rest with one warning per rejected byte, wakes the registered task when that burst is non-empty, and leaves the slot empty |
| ScancodeStream.ScancodeRelay.TakeAmid | src/task/keyboard.rs:61-63 | a burst just before `WAKER.take()` is let in behind the queue, with one overflow warning per rejected byte, and wakes the registered task when it brings a byte and the queue had room; the slot ends empty and the re-checked byte is returned |
| ScancodeStream.ScancodeRelay.PollNext | src/task/keyboard.rs:49-67 | never Ready(None); Pending only with the caller's waker registered and the queue empty; a byte arriving before the re-check is returned with the slot emptied, and the queue, the overflow warnings and the tasks woken (`WindowWakeups`) are stated; the fast path returns the front byte |
| ScancodeStream.ScancodeRelay.Perform | src/task/keyboard.rs:21-67 | one interrupt, or one poll with its inner bursts, moves the queue, the bytes handed over and the overflow warnings exactly as the trace extended by that activity's events moves `Replay` |
| ScancodeStream.ScancodeRelay.PerformPoll | src/task/keyboard.rs:49-67 | one poll with its inner bursts moves the queue, the bytes handed over and the overflow warnings exactly as the trace extended by the poll's unfolded events moves `Replay`, in each of the fast-path, Pending and re-check outcomes |
| ScancodeStream.ScancodeRelay.RunEvents | src/task/keyboard.rs:21-67 | under any sequence of interrupts and polls, with interrupts inside the polls, the bytes the polls return and the queue left behind are those of `Replay` on the unfolded trace; one overflow warning is printed per rejected byte; what was returned followed by what is still queued is the old queue followed by the accepted bytes, and with no rejection the arrival order |
| ScancodeStream.UnfoldWholePolls | src/task/keyboard.rs:54-56 | when no interrupt fires inside a poll, each poll is one pop and each interrupt one arrival of the trace |
| ScancodeStream.ReplayPollFast | src/task/keyboard.rs:55-56 | a poll that finds a byte waiting hands over the front byte and nothing arrives |
| ScancodeStream.ReplayPollPending | src/task/keyboard.rs:59-65 | a poll that finds no byte at either pop changes nothing in the trace |
| ScancodeStream.ReplayBurstPop | src/task/keyboard.rs:59-63 | bytes arriving at the empty queue and then the re-check's pop: the first byte is handed over, the rest that fitted stay queued, and rejections are counted |
| ScancodeStream.ReplayPollSlow | src/task/keyboard.rs:59-65 | a poll whose re-check finds a byte: the first byte of the bursts before the re-check is handed over, the last burst is let in after it, and rejections are counted |
| ScancodeStream.SingletonScenario | src/task/keyboard.rs:38-41 | the first `ScancodeStream::new` succeeds; a second one fails with the panic text "ScancodeStream::new should only be called once" |
| ScancodeStream.EarlyInterruptScenario | src/task/keyboard.rs:28-30 | an interrupt before the stream exists queues nothing and prints "WARNING: scancode queue uninitialized" once |
| ScancodeStream.EarlyPollScenario | src/task/keyboard.rs:50-52 | a poll on a relay whose queue was never created fails with the panic text "scancode queue not initialized"; this is the `expect` at keyboard.rs:50-52, which the source cannot reach, because only `ScancodeStream::new` creates a stream (its one field is private, keyboard.rs:33-35) and `new` creates the queue first (keyboard.rs:38-42) |
| ScancodeStream.FloodScenario | src/task/keyboard.rs:22-27 | 101 interrupts without consumption queue the first 100 in order and print "WARNING: scancode queue full; dropping keyboard input" once |
| ScancodeStream.RaceWindowScenario | src/task/keyboard.rs:54-63 | a byte that arrives between the fast path and the registration is returned by the same poll, and the slot ends empty |
| ScancodeStream.MissedWakeupScenario | src/task/keyboard.rs:59-65 | a poll of the empty queue is Pending; the next interrupt wakes exactly that task; its next poll returns the byte |
| KeyDispatch.Dispatch | src/task/keyboard.rs:81-125 | erase exactly for U+0008, U+007F, Backspace and Delete; no action exactly for the fifteen modifier and navigation keys; any other character printed as itself; Tab prints four spaces; any other key prints its name |
| KeyDispatch.AtMostOneKeyPerByte | src/task/keyboard.rs:79-80 | each scancode yields at most one key to the dispatcher |
| KeyDispatch.DecodeAllConcat | src/task/keyboard.rs:78-80 | decoding is incremental: decoding a + b is decoding a, then decoding b from the resulting state |
| KeyDispatch.PrintKeypresses | src/task/keyboard.rs:70-129 | the actions produced are the dispatch of every key that passes both decoder guards, in order; `DecodeByte` is the two-guard step of keyboard.rs:79-80 from which `DecodeAll` is built |
| Shell.TrimEnd | src/shell/commands.rs:27 | the result is a prefix of the input, does not end in whitespace, and everything cut off is whitespace |
| Shell.SplitWhitespace | src/shell/commands.rs:19 | every token the argument iterator yields is non-empty and free of whitespace |
| Shell.Echo | src/shell/commands.rs:19-28 | prints exactly the tokens of its argument text joined by single spaces, with no trailing whitespace |
| Shell.SpacedIsJoinedPlusSpace | src/shell/commands.rs:22-25 | the text built by the loop is the joined tokens plus one space |
| Shell.TrimEndRemovesLastSpace | src/shell/commands.rs:24-27 | `trim_end` removes exactly the one space appended after the last token |
| Shell.JoinedEndsInToken | src/shell/commands.rs:27 | the output's last character is the last token's last character |
| Shell.JoinLength | src/shell/commands.rs:22-27 | with at least one token, the output length is the sum of the token lengths plus one less than the number of tokens |
| Shell.SplitJoin | src/shell/commands.rs:22-27 | splitting the joined tokens gives back exactly the tokens, in order |
| Shell.SplitSkipsBlank | src/shell/commands.rs:19 | leading whitespace never starts a token |
| Shell.SplitRuns | src/shell/commands.rs:19 | three tokens separated by runs of whitespace split into exactly those three tokens |
| Shell.SplitToken | src/shell/commands.rs:19 | a token followed by whitespace or by nothing is split off whole |
| Shell.SplitEmptyIffBlank | src/shell/commands.rs:22 | there are no tokens exactly when the text is all whitespace |
| Shell.EchoEmptyIffBlank | src/shell/commands.rs:20-27 | `echo` prints the empty line exactly when its argument text is blank, including when there are no tokens |
| Shell.EchoCollapsesRuns | src/shell/commands.rs:19-28 | the argument text `a  b   c` prints `a b c` |

## Left out

- Scancode decoding: `Keyboard::add_byte` and `process_keyevent` belong to the foreign `pc_keyboard` crate (Scancode Set 1, US-104 layout), whose tables are not part of this model. They enter `PrintKeypresses` as function parameters. So nothing is proved end to end from a scancode to an action; `Dispatch` covers decoded keys only.
- The full `KeyCode` enumeration is not modelled. Keys the dispatcher does not name are `Other(name)`, and `name` is their `Debug` text, taken as given.
- Concurrency: the lock-free internals of `ArrayQueue`, `AtomicWaker` and `OnceCell` are not modelled. Each of their operations is atomic. Interrupts happen only at the explicit points between `poll_next` steps, and as `AddScancode` calls between polls.
- RunEvents: the trace theorem covers interrupts at the three points inside a poll, but not within one step of `poll_next`, such as inside a single pop. It does not state which tasks were woken; `AddScancode`, `Deliver`, the single-step poll methods and `RegisterAmid`, `TakeAmid`, `RecheckAmid`, `PollSlowPath` and `PollNext` state that one call at a time.
- Perform: the trace it is proved against does not track the waker slot or the wake-ups, so its contract says nothing about `waker` or `woken`.
- PerformPoll: the trace it is proved against does not track the waker slot or the wake-ups, so its contract says nothing about `waker` or `woken`.
- The async machinery (`Pin`, `Context`, `Waker`, the executor, `.await`) is not modelled. A task is a `TaskId`. A wake-up is an entry in `woken`. The endless `while let` loop of `print_keypresses` runs over a finite sequence of the bytes the stream yields.
- Terminal effects are not modelled: `println!`, `print!`, `vga_buffer::backspace` and the writer. They appear as abstract `Action`s and as `Warning`s, with the exact message texts in `Message` and `PanicMessage`. The scenarios state the printed lines through `Transcript`.
- Panics are returned as `Fault` values instead of halting.
- The other shell commands are not modelled. `help`, `clear`, `about`, `hello` and `version` print fixed text or set screen colours. `time` and `disk` live in modules that are not part of this model.
- Decoder determinism is not stated as a lemma: Dafny functions are deterministic by construction. `DecodeAllConcat` states the incremental form.
