/** The process-wide state behind the keyboard stream of `src/task/keyboard.rs`: the
    one-shot cell holding the relay queue, the single-slot waker, the interrupt-side
    producer `add_scancode`, the one-time creation in `ScancodeStream::new`, and the
    double-check protocol of `poll_next`, split into its steps so that an interrupt
    (a call of `AddScancode`) can be placed between any two of them. */
module ScancodeStream {
  import opened Wrappers
  import opened RelayQueue

  /** Identifies the task whose waker the executor handed to `poll_next`. */
  type TaskId = nat

  /** Diagnostics the interrupt path prints when it has to drop a byte. */
  datatype Warning = QueueFull | QueueUninitialized

  function Message(w: Warning): string
  {
    match w
    case QueueFull => "WARNING: scancode queue full; dropping keyboard input"
    case QueueUninitialized => "WARNING: scancode queue uninitialized"
  }

  /** The two `expect` panics of the stream: creating it twice, and polling it before
      the queue exists. */
  datatype Fault = StreamAlreadyCreated | QueueNotInitialized

  /** The lines a log of diagnostics prints, in order. */
  function Transcript(ws: seq<Warning>): (lines: seq<string>)
    ensures |lines| == |ws| && forall i :: 0 <= i < |ws| ==> lines[i] == Message(ws[i])
  {
    seq(|ws|, i requires 0 <= i < |ws| => Message(ws[i]))
  }

  function PanicMessage(f: Fault): string
  {
    match f
    case StreamAlreadyCreated => "ScancodeStream::new should only be called once"
    case QueueNotInitialized => "scancode queue not initialized"
  }

  /** The stream handle; it buffers nothing of its own. */
  datatype Stream = Stream

  /** `Poll<Option<u8>>`. */
  datatype Poll = Ready(item: Option<Scancode>) | Pending

  /** How far the consumer's current `poll_next` call has got. */
  datatype Phase =
    | Idle                                  // no poll in progress
    | FastPathMissed(cx: TaskId)            // the first pop found nothing
    | Registered(cx: TaskId)                // the waker of `cx` is registered
    | Rechecked(cx: TaskId, b: Scancode)    // the second pop returned `b`

  /** What one step of `poll_next` does: hand over to the next step, or finish. */
  datatype StepResult = Continue | Done(poll: Poll) | Panicked(fault: Fault)

  /** The tasks a wake-up of the slot `w` resumes. */
  function WakeList(w: Option<TaskId>): seq<TaskId>
  {
    if w.Some? then [w.value] else []
  }

  /** Whether the burst between the registration and the re-check wakes the poller:
      it does when it brings a byte and the queue still had room for one. */
  predicate RecheckBurstWakes(beforeRegister: seq<Scancode>, beforeRecheck: seq<Scancode>)
  {
    beforeRecheck != [] && |Fill([], beforeRegister)| < CAPACITY
  }

  /** The tasks the three bursts inside a poll by `cx` wake, the slot holding `w` when
      the fast path missed: the first burst wakes `w`, the second the freshly registered
      `cx`, and the third `cx` too when the second has not already emptied the slot. */
  function WindowWakeups(w: Option<TaskId>, cx: TaskId, beforeRegister: seq<Scancode>,
                         beforeRecheck: seq<Scancode>, beforeTake: seq<Scancode>): seq<TaskId>
  {
    (if beforeRegister != [] then WakeList(w) else [])
    + (if RecheckBurstWakes(beforeRegister, beforeRecheck) then [cx] else [])
    + (if beforeTake != [] && !RecheckBurstWakes(beforeRegister, beforeRecheck) then [cx] else [])
  }

  function Repeat<T>(x: T, n: nat): (r: seq<T>)
    ensures |r| == n && forall i :: 0 <= i < n ==> r[i] == x
  {
    seq(n, _ => x)
  }

  lemma RepeatConcat<T>(x: T, m: nat, n: nat)
    ensures Repeat(x, m) + Repeat(x, n) == Repeat(x, m + n)
  {
    assert forall i :: 0 <= i < m + n ==> (Repeat(x, m) + Repeat(x, n))[i] == x;
  }

  lemma RepeatSnoc<T>(x: T, n: nat)
    ensures Repeat(x, n) + [x] == Repeat(x, n + 1)
  {
    assert forall i :: 0 <= i < n + 1 ==> (Repeat(x, n) + [x])[i] == x;
  }

  /** `SCANCODE_QUEUE` (the cell `initialized` and its queue `queue`) and `WAKER`
      (the slot `waker`), with the diagnostics printed so far (`warnings`, whose
      lines are their `Transcript`), the wake-ups handed to the executor so far (`woken`) and the consumer's place in
      `poll_next` (`phase`). */
  class ScancodeRelay {
    var initialized: bool
    var queue: seq<Scancode>
    var waker: Option<TaskId>
    var warnings: seq<Warning>
    var woken: seq<TaskId>
    var phase: Phase

    /** The queue never exceeds its capacity and is empty until created; and while the
        consumer sits between registering and re-checking, either its waker is still
        registered or a byte is waiting for the re-check. */
    ghost predicate Valid()
      reads this
    {
      && |queue| <= CAPACITY
      && (!initialized ==> queue == [] && phase == Idle)
      && (phase.Registered? ==> waker == Some(phase.cx) || queue != [])
    }

    /** The state at boot: `OnceCell::uninit()` and `AtomicWaker::new()`. */
    constructor ()
      ensures Valid()
      ensures !initialized && queue == [] && waker == None && warnings == [] && woken == [] && phase == Idle
    {
      initialized, queue, waker := false, [], None;
      warnings, woken, phase := [], [], Idle;
    }

    /** `ScancodeStream::new`: creates the queue, empty, the first time; any later call
        fails (the `expect` panic) and changes nothing. */
    method NewStream() returns (r: Result<Stream, Fault>)
      requires Valid()
      modifies this
      ensures Valid()
      ensures !old(initialized) ==> r == Success(Stream) && initialized && queue == []
      ensures old(initialized) ==> r == Failure(StreamAlreadyCreated) && initialized && queue == old(queue)
      ensures waker == old(waker) && warnings == old(warnings) && woken == old(woken) && phase == old(phase)
    {
      if initialized {
        r := Failure(StreamAlreadyCreated);
      } else {
        initialized, queue := true, [];
        r := Success(Stream);
      }
    }

    /** `ArrayQueue::push`: appends `b` when there is room, reports whether it did. */
    method Push(b: Scancode) returns (pushed: bool)
      requires Valid() && initialized
      modifies this`queue
      ensures Valid()
      ensures pushed == (|old(queue)| < CAPACITY)
      ensures queue == Offer(old(queue), b)
    {
      pushed := |queue| < CAPACITY;
      queue := Offer(queue, b);
    }

    /** `ArrayQueue::pop`: removes and returns the front byte, if any. */
    method Pop() returns (item: Option<Scancode>)
      requires Valid() && initialized && !phase.Registered?
      modifies this`queue
      ensures Valid()
      ensures old(queue) == [] ==> item == None && queue == []
      ensures old(queue) != [] ==> item == Some(old(queue)[0]) && queue == old(queue)[1..]
    {
      if queue == [] {
        item := None;
      } else {
        item := Some(queue[0]);
        queue := queue[1..];
      }
    }

    /** `AtomicWaker::wake`: resumes the registered task, if any, and empties the slot.
        It is only called right after a successful push, so a byte is waiting. */
    method Wake()
      requires Valid() && queue != []
      modifies this`waker, this`woken
      ensures Valid()
      ensures waker == None && woken == old(woken) + WakeList(old(waker))
    {
      if waker.Some? {
        woken := woken + [waker.value];
      }
      waker := None;
    }

    /** `add_scancode`, the keyboard interrupt: before the queue exists the byte is
        dropped with one diagnostic; into a full queue it is dropped with another and
        nobody is woken; otherwise it is appended and the waiting task, if any, woken. */
    method AddScancode(b: Scancode)
      requires Valid()
      modifies this
      ensures Valid()
      ensures initialized == old(initialized) && phase == old(phase)
      ensures !initialized ==>
                queue == old(queue) && waker == old(waker) && woken == old(woken)
                && warnings == old(warnings) + [QueueUninitialized]
      ensures initialized && |old(queue)| >= CAPACITY ==>
                queue == old(queue) && waker == old(waker) && woken == old(woken)
                && warnings == old(warnings) + [QueueFull]
      ensures initialized && |old(queue)| < CAPACITY ==>
                queue == old(queue) + [b] && waker == None && woken == old(woken) + WakeList(old(waker))
                && warnings == old(warnings)
    {
      if initialized {
        var pushed := Push(b);
        if !pushed {
          warnings := warnings + [QueueFull];
        } else {
          Wake();
        }
      } else {
        warnings := warnings + [QueueUninitialized];
      }
    }

    /** A burst of interrupts, one `AddScancode` per byte, with the consumer not running. */
    method Deliver(bytes: seq<Scancode>)
      requires Valid()
      modifies this
      ensures Valid()
      ensures initialized == old(initialized) && phase == old(phase)
      ensures !initialized ==>
                queue == old(queue) && waker == old(waker) && woken == old(woken)
                && warnings == old(warnings) + Repeat(QueueUninitialized, |bytes|)
      ensures initialized ==>
                queue == Fill(old(queue), bytes)
                && warnings == old(warnings) + Repeat(QueueFull, Drops(old(queue), bytes))
      ensures initialized && |old(queue)| < CAPACITY && bytes != [] ==>
                waker == None && woken == old(woken) + WakeList(old(waker))
      ensures initialized && (|old(queue)| >= CAPACITY || bytes == []) ==>
                waker == old(waker) && woken == old(woken)
    {
      var i := 0;
      while i < |bytes|
        invariant 0 <= i <= |bytes|
        invariant Valid()
        invariant initialized == old(initialized) && phase == old(phase)
        invariant !initialized ==>
                    queue == old(queue) && waker == old(waker) && woken == old(woken)
                    && warnings == old(warnings) + Repeat(QueueUninitialized, i)
        invariant initialized ==>
                    queue == Fill(old(queue), bytes[..i])
                    && warnings == old(warnings) + Repeat(QueueFull, Drops(old(queue), bytes[..i]))
        invariant initialized && |old(queue)| < CAPACITY && i > 0 ==>
                    waker == None && woken == old(woken) + WakeList(old(waker))
        invariant initialized && (|old(queue)| >= CAPACITY || i == 0) ==>
                    waker == old(waker) && woken == old(woken)
      {
        assert bytes[..i + 1][..i] == bytes[..i];
        if !initialized {
          RepeatSnoc(QueueUninitialized, i);
        } else {
          ghost var d := Drops(old(queue), bytes[..i]);
          assert Fill(old(queue), bytes[..i + 1]) == Offer(queue, bytes[i]);
          assert Drops(old(queue), bytes[..i + 1]) == d + (if |queue| < CAPACITY then 0 else 1);
          RepeatSnoc(QueueFull, d);
          if |old(queue)| >= CAPACITY {
            FillFull(old(queue), bytes[..i]);
          }
        }
        AddScancode(bytes[i]);
        i := i + 1;
      }
      assert bytes[..i] == bytes;
    }

    /** Step 1 of `poll_next`: fetch the queue (panicking if it was never created) and
        try the fast path, which returns the front byte without touching the waker. */
    method PollFastPath(cx: TaskId) returns (s: StepResult)
      requires Valid() && phase == Idle
      modifies this
      ensures Valid()
      ensures initialized == old(initialized) && waker == old(waker)
      ensures warnings == old(warnings) && woken == old(woken)
      ensures !old(initialized) ==> s == Panicked(QueueNotInitialized) && queue == old(queue) && phase == Idle
      ensures old(initialized) && old(queue) != [] ==>
                s == Done(Ready(Some(old(queue)[0]))) && queue == old(queue)[1..] && phase == Idle
      ensures old(initialized) && old(queue) == [] ==>
                s == Continue && queue == [] && phase == FastPathMissed(cx)
    {
      if !initialized {
        return Panicked(QueueNotInitialized);
      }
      var item := Pop();
      if item.Some? {
        s := Done(Ready(item));
      } else {
        phase := FastPathMissed(cx);
        s := Continue;
      }
    }

    /** Step 2 of `poll_next`: `WAKER.register`, replacing whatever was registered. */
    method PollRegister()
      requires Valid() && phase.FastPathMissed?
      modifies this
      ensures Valid()
      ensures waker == Some(old(phase).cx) && phase == Registered(old(phase).cx)
      ensures initialized == old(initialized) && queue == old(queue)
      ensures warnings == old(warnings) && woken == old(woken)
    {
      waker := Some(phase.cx);
      phase := Registered(phase.cx);
    }

    /** Step 3 of `poll_next`: pop once more. If that finds nothing the poll is Pending,
        and then the caller's waker is still registered and the queue is empty, so the
        next successful `AddScancode` wakes it. */
    method PollRecheck() returns (s: StepResult)
      requires Valid() && phase.Registered?
      modifies this
      ensures Valid()
      ensures initialized == old(initialized) && waker == old(waker)
      ensures warnings == old(warnings) && woken == old(woken)
      ensures old(queue) != [] ==>
                s == Continue && queue == old(queue)[1..] && phase == Rechecked(old(phase).cx, old(queue)[0])
      ensures old(queue) == [] ==> s == Done(Pending) && queue == [] && phase == Idle
      ensures s == Done(Pending) ==> waker == Some(old(phase).cx) && queue == []
    {
      var cx := phase.cx;
      phase := Idle;
      var item := Pop();
      if item.Some? {
        phase := Rechecked(cx, item.value);
        s := Continue;
      } else {
        s := Done(Pending);
      }
    }

    /** Step 4 of `poll_next`, after a successful re-check: `WAKER.take` withdraws the
        registration without waking anyone, and the popped byte is returned. */
    method PollTake() returns (s: StepResult)
      requires Valid() && phase.Rechecked?
      modifies this
      ensures Valid()
      ensures s == Done(Ready(Some(old(phase).b))) && waker == None && phase == Idle
      ensures initialized == old(initialized) && queue == old(queue)
      ensures warnings == old(warnings) && woken == old(woken)
    {
      var b := phase.b;
      waker := None;
      phase := Idle;
      s := Done(Ready(Some(b)));
    }

    /** Step 2 of `poll_next` with the bursts of interrupts on either side of it: the
        queue, empty after the missed fast path, takes in both bursts as one, with one
        diagnostic per rejected byte. */
    method RegisterAmid(beforeRegister: seq<Scancode>, beforeRecheck: seq<Scancode>)
      requires Valid() && initialized && phase.FastPathMissed? && queue == []
      modifies this
      ensures Valid() && initialized && phase == Registered(old(phase).cx)
      ensures queue == Fill([], beforeRegister + beforeRecheck)
      ensures warnings == old(warnings) + Repeat(QueueFull, Drops([], beforeRegister + beforeRecheck))
      ensures beforeRegister + beforeRecheck == [] ==> woken == old(woken) && queue == []
      ensures beforeRegister + beforeRecheck != [] ==> queue != [] && queue[0] == (beforeRegister + beforeRecheck)[0]
      ensures waker == (if RecheckBurstWakes(beforeRegister, beforeRecheck) then None else Some(old(phase).cx))
      ensures woken == old(woken) + (if beforeRegister != [] then WakeList(old(waker)) else [])
                       + (if RecheckBurstWakes(beforeRegister, beforeRecheck) then [old(phase).cx] else [])
    {
      Deliver(beforeRegister);
      PollRegister();
      Deliver(beforeRecheck);
      FillConcat([], beforeRegister, beforeRecheck);
      DropsConcat([], beforeRegister, beforeRecheck);
      RepeatConcat(QueueFull, Drops([], beforeRegister), Drops(Fill([], beforeRegister), beforeRecheck));
      FillEmpty(beforeRegister + beforeRecheck);
    }

    /** Steps 2 to 4 of `poll_next` once the fast path has found the queue empty, with
        the bursts of interrupts that fire between them: the first byte the bursts
        before the re-check got in is returned, or, when they brought none, the poll is
        Pending with the caller's waker registered. */
    method PollSlowPath(beforeRegister: seq<Scancode>, beforeRecheck: seq<Scancode>, beforeTake: seq<Scancode>)
      returns (r: Poll)
      requires Valid() && initialized && phase.FastPathMissed? && queue == []
      modifies this
      ensures Valid() && phase == Idle && initialized
      ensures beforeRegister + beforeRecheck != [] ==>
                r == Ready(Some((beforeRegister + beforeRecheck)[0])) && waker == None
                && queue == Fill(Fill([], beforeRegister + beforeRecheck)[1..], beforeTake)
                && warnings == old(warnings) + Repeat(QueueFull,
                     Drops([], beforeRegister + beforeRecheck)
                     + Drops(Fill([], beforeRegister + beforeRecheck)[1..], beforeTake))
                && woken == old(woken) + WindowWakeups(old(waker), old(phase).cx, beforeRegister, beforeRecheck, beforeTake)
      ensures beforeRegister + beforeRecheck == [] ==>
                r == Pending && waker == Some(old(phase).cx) && queue == []
                && warnings == old(warnings) && woken == old(woken)
    {
      ghost var w0, k0, all := warnings, woken, beforeRegister + beforeRecheck;
      ghost var wakeups := WindowWakeups(waker, phase.cx, beforeRegister, beforeRecheck, beforeTake);
      RegisterAmid(beforeRegister, beforeRecheck);
      if all != [] {
        ghost var d1, d2 := Drops([], all), Drops(queue[1..], beforeTake);
        RepeatConcat(QueueFull, d1, d2);
        assert w0 + Repeat(QueueFull, d1 + d2) == warnings + Repeat(QueueFull, d2);
        assert k0 + wakeups == woken + (if beforeTake != [] then WakeList(waker) else []);
      }
      r := RecheckAmid(beforeTake);
    }

    /** Steps 3 and 4 of `poll_next`, with the burst of interrupts that fires between a
        successful re-check and the withdrawal of the registration. */
    method RecheckAmid(beforeTake: seq<Scancode>) returns (r: Poll)
      requires Valid() && initialized && phase.Registered?
      modifies this
      ensures Valid() && phase == Idle && initialized
      ensures old(queue) != [] ==>
                r == Ready(Some(old(queue)[0])) && waker == None
                && queue == Fill(old(queue)[1..], beforeTake)
                && warnings == old(warnings) + Repeat(QueueFull, Drops(old(queue)[1..], beforeTake))
                && woken == old(woken) + (if beforeTake != [] then WakeList(old(waker)) else [])
      ensures old(queue) == [] ==>
                r == Pending && waker == old(waker) && queue == []
                && warnings == old(warnings) && woken == old(woken)
    {
      var s := PollRecheck();
      if s.Done? {
        return s.poll;
      }
      r := TakeAmid(beforeTake);
    }

    /** Step 4 of `poll_next` with the burst of interrupts that fires just before it:
        the burst is let in after the re-checked byte left, and that byte is returned. */
    method TakeAmid(beforeTake: seq<Scancode>) returns (r: Poll)
      requires Valid() && initialized && phase.Rechecked?
      modifies this
      ensures Valid() && initialized && phase == Idle && waker == None
      ensures r == Ready(Some(old(phase).b))
      ensures queue == Fill(old(queue), beforeTake)
      ensures warnings == old(warnings) + Repeat(QueueFull, Drops(old(queue), beforeTake))
      ensures woken == old(woken) + (if |old(queue)| < CAPACITY && beforeTake != [] then WakeList(old(waker)) else [])
    {
      Deliver(beforeTake);
      var s := PollTake();
      r := s.poll;
    }

    /** One whole `poll_next` by task `cx`, with the interrupts that fire between its
        steps: `beforeRegister` between the fast path and the registration,
        `beforeRecheck` between the registration and the re-check, `beforeTake` between
        a successful re-check and the withdrawal. */
    method PollNext(cx: TaskId, beforeRegister: seq<Scancode>, beforeRecheck: seq<Scancode>, beforeTake: seq<Scancode>)
      returns (r: Result<Poll, Fault>)
      requires Valid() && phase == Idle
      modifies this
      ensures Valid() && phase == Idle && initialized == old(initialized)
      ensures !old(initialized) ==>
                r == Failure(QueueNotInitialized) && queue == old(queue) && waker == old(waker)
                && warnings == old(warnings) && woken == old(woken)
      ensures r.Success? && r.value.Ready? ==> r.value.item.Some?
      ensures r == Success(Pending) ==> waker == Some(cx) && queue == []
      ensures old(initialized) && old(queue) != [] ==>
                r == Success(Ready(Some(old(queue)[0]))) && queue == old(queue)[1..]
                && waker == old(waker) && warnings == old(warnings) && woken == old(woken)
      ensures old(initialized) && old(queue) == [] && beforeRegister + beforeRecheck != [] ==>
                r == Success(Ready(Some((beforeRegister + beforeRecheck)[0]))) && waker == None
                && queue == Fill(Fill([], beforeRegister + beforeRecheck)[1..], beforeTake)
                && warnings == old(warnings) + Repeat(QueueFull,
                     Drops([], beforeRegister + beforeRecheck)
                     + Drops(Fill([], beforeRegister + beforeRecheck)[1..], beforeTake))
                && woken == old(woken) + WindowWakeups(old(waker), cx, beforeRegister, beforeRecheck, beforeTake)
      ensures old(initialized) && old(queue) == [] && beforeRegister + beforeRecheck == [] ==>
                r == Success(Pending) && waker == Some(cx) && queue == []
                && warnings == old(warnings) && woken == old(woken)
    {
      var s := PollFastPath(cx);
      if s.Panicked? {
        return Failure(s.fault);
      }
      if s.Done? {
        return Success(s.poll);
      }
      var p := PollSlowPath(beforeRegister, beforeRecheck, beforeTake);
      r := Success(p);
    }

    /** An interleaving of interrupts and polls by task `cx`: each `Irq(b)` runs
        `AddScancode(b)`, each `PollWith` one `PollNext` with the bursts it carries
        inside the poll. The bytes the polls return and the queue left behind are
        exactly those of `Replay` on the unfolded trace, so the FIFO, capacity and loss
        lemmas about `Replay` hold of `add_scancode` and `poll_next` themselves,
        interrupts inside a poll included; one overflow warning is printed per rejected
        byte. */
    method RunEvents(cx: TaskId, acts: seq<Activity>) returns (got: seq<Scancode>)
      requires Valid() && initialized && phase == Idle
      modifies this
      ensures Valid() && initialized && phase == Idle
      ensures got == Replay(old(queue), Unfolded(old(queue), acts)).consumed
      ensures queue == Replay(old(queue), Unfolded(old(queue), acts)).queue
      ensures warnings == old(warnings) + Repeat(QueueFull, |Replay(old(queue), Unfolded(old(queue), acts)).dropped|)
      ensures |queue| <= CAPACITY
      ensures got + queue == old(queue) + Replay(old(queue), Unfolded(old(queue), acts)).accepted
      ensures Replay(old(queue), Unfolded(old(queue), acts)).dropped == [] ==>
                got + queue == old(queue) + Arrivals(Unfolded(old(queue), acts))
    {
      ghost var q0, w0 := queue, warnings;
      got := [];
      var i := 0;
      while i < |acts|
        invariant 0 <= i <= |acts|
        invariant Valid() && initialized && phase == Idle
        invariant got == Replay(q0, Unfolded(q0, acts[..i])).consumed
        invariant queue == Replay(q0, Unfolded(q0, acts[..i])).queue
        invariant warnings == w0 + Repeat(QueueFull, |Replay(q0, Unfolded(q0, acts[..i])).dropped|)
      {
        assert acts[..i + 1][..i] == acts[..i];
        var more := Perform(cx, acts[i], q0, Unfolded(q0, acts[..i]), w0);
        got := got + more;
        i := i + 1;
      }
      assert acts[..i] == acts;
      ReplayFifo(q0, Unfolded(q0, acts));
      ReplayPartition(q0, Unfolded(q0, acts));
    }

    /** One activity of `RunEvents`, carried out on the shared state that the trace
        `pre` from queue `q0` has left: the bytes it hands over, the queue and the
        warnings then agree with the trace extended by the activity's events. */
    method Perform(cx: TaskId, a: Activity, ghost q0: seq<Scancode>, ghost pre: seq<Event>, ghost w0: seq<Warning>)
      returns (got: seq<Scancode>)
      requires Valid() && initialized && phase == Idle
      requires queue == Replay(q0, pre).queue
      requires warnings == w0 + Repeat(QueueFull, |Replay(q0, pre).dropped|)
      modifies this
      ensures Valid() && initialized && phase == Idle
      ensures Replay(q0, pre).consumed + got == Replay(q0, pre + Unfold(old(queue), a)).consumed
      ensures queue == Replay(q0, pre + Unfold(old(queue), a)).queue
      ensures warnings == w0 + Repeat(QueueFull, |Replay(q0, pre + Unfold(old(queue), a)).dropped|)
    {
      ghost var run := Replay(q0, pre);
      match a {
        case Irq(b) =>
          AddScancode(b);
          ReplaySnoc(q0, pre, Interrupt(b));
          RepeatSnoc(QueueFull, |run.dropped|);
          got := [];
        case PollWith(r1, r2, r3) =>
          got := PerformPoll(cx, r1, r2, r3, q0, pre, w0);
      }
    }

    /** The poll case of `Perform`. */
    method PerformPoll(cx: TaskId, r1: seq<Scancode>, r2: seq<Scancode>, r3: seq<Scancode>,
                       ghost q0: seq<Scancode>, ghost pre: seq<Event>, ghost w0: seq<Warning>)
      returns (got: seq<Scancode>)
      requires Valid() && initialized && phase == Idle
      requires queue == Replay(q0, pre).queue
      requires warnings == w0 + Repeat(QueueFull, |Replay(q0, pre).dropped|)
      modifies this
      ensures Valid() && initialized && phase == Idle
      ensures Replay(q0, pre).consumed + got == Replay(q0, pre + Unfold(old(queue), PollWith(r1, r2, r3))).consumed
      ensures queue == Replay(q0, pre + Unfold(old(queue), PollWith(r1, r2, r3))).queue
      ensures warnings == w0 + Repeat(QueueFull, |Replay(q0, pre + Unfold(old(queue), PollWith(r1, r2, r3))).dropped|)
    {
      ghost var run := Replay(q0, pre);
      ghost var after := Replay(q0, pre + Unfold(queue, PollWith(r1, r2, r3)));
      if queue != [] {
        ReplayPollFast(q0, pre, r1, r2, r3);
        assert after.queue == queue[1..] && after.consumed == run.consumed + [queue[0]];
        assert after.dropped == run.dropped;
        var r := PollNext(cx, r1, r2, r3);
        got := [r.value.item.value];
      } else if r1 + r2 == [] {
        ReplayPollPending(q0, pre, r3);
        assert after == run;
        var r := PollNext(cx, r1, r2, r3);
        got := [];
      } else {
        ReplayPollSlow(q0, pre, r1, r2, r3);
        ghost var d := Drops([], r1 + r2) + Drops(Fill([], r1 + r2)[1..], r3);
        assert after.queue == Fill(Fill([], r1 + r2)[1..], r3);
        assert after.consumed == run.consumed + [(r1 + r2)[0]];
        assert |after.dropped| == |run.dropped| + d;
        RepeatConcat(QueueFull, |run.dropped|, d);
        ghost var w1 := warnings;
        var r := PollNext(cx, r1, r2, r3);
        assert r == Success(Ready(Some((r1 + r2)[0])));
        assert warnings == w1 + Repeat(QueueFull, d);
        assert queue == after.queue;
        got := [r.value.item.value];
      }
    }
  }

  /** What the consumer's task sees of the shared state: an interrupt, or one whole
      `poll_next` together with the bursts of interrupts that fire inside it, before
      the registration, before the re-check and before the withdrawal. */
  datatype Activity = Irq(b: Scancode) | PollWith(beforeRegister: seq<Scancode>, beforeRecheck: seq<Scancode>, beforeTake: seq<Scancode>)

  /** The queue events one activity amounts to, from queue `q`: a poll that finds a
      byte takes the fast path, one pop; otherwise its first two bursts arrive, the
      re-check pops, and only when that pop found a byte does the last burst arrive
      before the poll returns. */
  function Unfold(q: seq<Scancode>, a: Activity): seq<Event>
  {
    match a
    case Irq(b) => [Interrupt(b)]
    case PollWith(r1, r2, r3) =>
      if q != [] then [Consume]
      else Interrupts(r1 + r2) + [Consume] + (if r1 + r2 != [] then Interrupts(r3) else [])
  }

  /** The queue events of a whole sequence of activities starting from queue `q`. */
  function Unfolded(q: seq<Scancode>, acts: seq<Activity>): seq<Event>
    decreases |acts|
  {
    if acts == [] then []
    else
      var pre := Unfolded(q, acts[..|acts| - 1]);
      pre + Unfold(Replay(q, pre).queue, acts[|acts| - 1])
  }

  /** The trace of activities read one event each: an interrupt arrives, a poll pops. */
  function Atomic(acts: seq<Activity>): seq<Event>
    decreases |acts|
  {
    if acts == [] then []
    else Atomic(acts[..|acts| - 1]) + [if acts[|acts| - 1].Irq? then Interrupt(acts[|acts| - 1].b) else Consume]
  }

  /** When no interrupt fires inside a poll, the unfolded trace is one event per
      activity, so each poll is then a single pop of `Replay`. */
  lemma {:induction false} UnfoldWholePolls(q: seq<Scancode>, acts: seq<Activity>)
    requires forall i :: 0 <= i < |acts| && acts[i].PollWith? ==> acts[i] == PollWith([], [], [])
    ensures Unfolded(q, acts) == Atomic(acts)
    decreases |acts|
  {
    if acts != [] {
      var init, last := acts[..|acts| - 1], acts[|acts| - 1];
      assert forall i :: 0 <= i < |init| ==> init[i] == acts[i];
      UnfoldWholePolls(q, init);
      UnfoldWholePoll(Replay(q, Unfolded(q, init)).queue, last);
    }
  }

  /** A poll with no interrupt inside it is one pop, from any queue. */
  lemma UnfoldWholePoll(q: seq<Scancode>, a: Activity)
    requires a.PollWith? ==> a == PollWith([], [], [])
    ensures Unfold(q, a) == [if a.Irq? then Interrupt(a.b) else Consume]
  {
    assert Interrupts([]) == [];
  }

  /** A poll that finds a byte waiting is one pop of the trace: the front byte is
      handed over and nothing arrives. */
  lemma ReplayPollFast(q: seq<Scancode>, pre: seq<Event>, r1: seq<Scancode>, r2: seq<Scancode>, r3: seq<Scancode>)
    requires Replay(q, pre).queue != []
    ensures Replay(q, pre + Unfold(Replay(q, pre).queue, PollWith(r1, r2, r3))).queue == Replay(q, pre).queue[1..]
    ensures Replay(q, pre + Unfold(Replay(q, pre).queue, PollWith(r1, r2, r3))).consumed
         == Replay(q, pre).consumed + [Replay(q, pre).queue[0]]
    ensures Replay(q, pre + Unfold(Replay(q, pre).queue, PollWith(r1, r2, r3))).dropped == Replay(q, pre).dropped
  {
    ReplaySnoc(q, pre, Consume);
  }

  /** A poll that misses the fast path and finds no byte at the re-check changes
      nothing. */
  lemma ReplayPollPending(q: seq<Scancode>, pre: seq<Event>, r3: seq<Scancode>)
    requires Replay(q, pre).queue == []
    ensures Replay(q, pre + Unfold([], PollWith([], [], r3))) == Replay(q, pre)
  {
    assert Unfold([], PollWith([], [], r3)) == [Consume];
    ReplaySnoc(q, pre, Consume);
  }

  /** Bytes arriving at an empty queue and then one pop: the first byte is handed
      over, the rest of what fitted stays queued, and each rejected byte is counted. */
  lemma ReplayBurstPop(q: seq<Scancode>, pre: seq<Event>, bytes: seq<Scancode>)
    requires Replay(q, pre).queue == [] && bytes != []
    ensures Replay(q, pre + Interrupts(bytes) + [Consume]).queue == Fill([], bytes)[1..]
    ensures Replay(q, pre + Interrupts(bytes) + [Consume]).consumed == Replay(q, pre).consumed + [bytes[0]]
    ensures |Replay(q, pre + Interrupts(bytes) + [Consume]).dropped| == |Replay(q, pre).dropped| + Drops([], bytes)
  {
    ReplayBurst(q, pre, bytes);
    FillEmpty(bytes);
    ReplaySnoc(q, pre + Interrupts(bytes), Consume);
  }

  /** A poll that misses the fast path while bytes arrive: the bursts before the
      re-check are let in and the first of them handed over, then the last burst is let
      in; each rejected byte is counted. */
  lemma ReplayPollSlow(q: seq<Scancode>, pre: seq<Event>, r1: seq<Scancode>, r2: seq<Scancode>, r3: seq<Scancode>)
    requires Replay(q, pre).queue == [] && r1 + r2 != []
    ensures Replay(q, pre + Unfold([], PollWith(r1, r2, r3))).queue == Fill(Fill([], r1 + r2)[1..], r3)
    ensures Replay(q, pre + Unfold([], PollWith(r1, r2, r3))).consumed == Replay(q, pre).consumed + [(r1 + r2)[0]]
    ensures |Replay(q, pre + Unfold([], PollWith(r1, r2, r3))).dropped|
         == |Replay(q, pre).dropped| + (Drops([], r1 + r2) + Drops(Fill([], r1 + r2)[1..], r3))
  {
    var i12, i3 := Interrupts(r1 + r2), Interrupts(r3);
    var popped := pre + i12 + [Consume];
    assert Unfold([], PollWith(r1, r2, r3)) == i12 + [Consume] + i3;
    assert pre + (i12 + [Consume] + i3) == popped + i3;
    ReplayBurstPop(q, pre, r1 + r2);
    ReplayBurst(q, popped, r3);
  }

  /** A second `ScancodeStream::new` fails, with the panic text of its `expect`, instead
      of re-creating or sharing the queue. */
  method SingletonScenario() returns (first: Result<Stream, Fault>, second: Result<Stream, Fault>)
    ensures first == Success(Stream) && second == Failure(StreamAlreadyCreated)
    ensures second.Failure? && PanicMessage(second.error) == "ScancodeStream::new should only be called once"
  {
    var relay := new ScancodeRelay();
    first := relay.NewStream();
    second := relay.NewStream();
  }

  /** An interrupt before the stream exists drops its byte with the uninitialised
      diagnostic. */
  method EarlyInterruptScenario(b: Scancode) returns (queued: seq<Scancode>, printed: seq<string>)
    ensures queued == [] && printed == ["WARNING: scancode queue uninitialized"]
  {
    var relay := new ScancodeRelay();
    relay.AddScancode(b);
    queued, printed := relay.queue, Transcript(relay.warnings);
  }

  /** Polling a relay whose queue was never created panics with the text of the
      `expect` in `poll_next`. The source cannot get there: a `ScancodeStream` has
      only a private field, so `ScancodeStream::new` is the sole way to obtain one,
      and it creates the queue before returning. The scenario covers the guard as
      written, with the relay in the state it has before `new` runs. */
  method EarlyPollScenario(cx: TaskId) returns (result: Result<Poll, Fault>)
    ensures result == Failure(QueueNotInitialized)
    ensures result.Failure? && PanicMessage(result.error) == "scancode queue not initialized"
  {
    var relay := new ScancodeRelay();
    result := relay.PollNext(cx, [], [], []);
  }

  /** 101 scancodes with no consumption: the first 100 stay queued in order and the
      101st is dropped with exactly one overflow diagnostic. */
  method FloodScenario(bytes: seq<Scancode>) returns (queued: seq<Scancode>, printed: seq<string>)
    requires |bytes| == 101
    ensures queued == bytes[..100] && printed == ["WARNING: scancode queue full; dropping keyboard input"]
  {
    var relay := new ScancodeRelay();
    var _ := relay.NewStream();
    relay.Deliver(bytes);
    Flood101(bytes);
    queued, printed := relay.queue, Transcript(relay.warnings);
  }

  /** The race window: a byte that arrives between the fast path and the registration
      is returned by the same poll, and the registration is withdrawn. */
  method RaceWindowScenario(cx: TaskId, b: Scancode) returns (result: Result<Poll, Fault>, slot: Option<TaskId>)
    ensures result == Success(Ready(Some(b))) && slot == None
  {
    var relay := new ScancodeRelay();
    var _ := relay.NewStream();
    result := relay.PollNext(cx, [b], [], []);
    slot := relay.waker;
  }

  /** No missed wake-up: a poll of the empty queue is Pending, the next interrupt wakes
      exactly the polling task, and its next poll returns that byte. */
  method MissedWakeupScenario(cx: TaskId, b: Scancode)
    returns (first: Result<Poll, Fault>, resumed: seq<TaskId>, second: Result<Poll, Fault>)
    ensures first == Success(Pending) && resumed == [cx] && second == Success(Ready(Some(b)))
  {
    var relay := new ScancodeRelay();
    var _ := relay.NewStream();
    first := relay.PollNext(cx, [], [], []);
    relay.AddScancode(b);
    resumed := relay.woken;
    second := relay.PollNext(cx, [], [], []);
  }
}
