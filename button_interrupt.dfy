// The debounce bridge between a button's falling-edge interrupt and the
// asynchronous event loop: a press is accepted only when more than the
// debounce delay has passed since the last accepted press, and each accepted
// press schedules exactly one handler task.

module ButtonInterrupt {

  /** The debounce delay in milliseconds used for all four buttons. */
  const DebounceDelay: int := 200

  /**
   * A press at `now` is accepted iff strictly more than `delay` milliseconds
   * have passed since `last`. Tick values are plain integers here.
   */
  predicate Accepts(delay: int, last: int, now: int)
  {
    now - last > delay
  }

  /** The last-accepted time after a press at `now`. */
  function NextLast(delay: int, last: int, now: int): (r: int)
    ensures Accepts(delay, last, now) ==> r == now
    ensures !Accepts(delay, last, now) ==> r == last
  {
    if Accepts(delay, last, now) then now else last
  }

  /** The times of the presses, in order, that get through the debounce filter. */
  function Debounced(delay: int, last: int, presses: seq<int>): (r: seq<int>)
    ensures |r| <= |presses|
    ensures forall t :: t in r ==> t in presses
    decreases |presses|
  {
    if |presses| == 0 then []
    else
      var rest := Debounced(delay, NextLast(delay, last, presses[0]), presses[1..]);
      if Accepts(delay, last, presses[0]) then [presses[0]] + rest else rest
  }

  /** The last-accepted time after a run of presses. */
  function LastAfter(delay: int, last: int, presses: seq<int>): (r: int)
    ensures r == last || r in presses
    decreases |presses|
  {
    if |presses| == 0 then last else LastAfter(delay, NextLast(delay, last, presses[0]), presses[1..])
  }

  /**
   * One more press extends the run by exactly what one call of the interrupt
   * handler does: it adds an event iff it is accepted against the last
   * accepted time of the run so far, and moves that time accordingly.
   */
  lemma {:induction false} DebouncedSnoc(delay: int, last: int, presses: seq<int>, now: int)
    ensures Debounced(delay, last, presses + [now])
            == Debounced(delay, last, presses)
               + (if Accepts(delay, LastAfter(delay, last, presses), now) then [now] else [])
    ensures LastAfter(delay, last, presses + [now]) == NextLast(delay, LastAfter(delay, last, presses), now)
    decreases |presses|
  {
    if |presses| == 0 {
      assert presses + [now] == [now];
      assert [now][1..] == [];
    } else {
      assert (presses + [now])[0] == presses[0];
      assert (presses + [now])[1..] == presses[1..] + [now];
      DebouncedSnoc(delay, NextLast(delay, last, presses[0]), presses[1..], now);
    }
  }

  /** Presses that all fall within the window of an accepted press `t0` deliver nothing more. */
  lemma {:induction false} QuietAfter(delay: int, t0: int, presses: seq<int>)
    requires forall i :: 0 <= i < |presses| ==> presses[i] - t0 <= delay
    ensures Debounced(delay, t0, presses) == []
    decreases |presses|
  {
    if |presses| > 0 {
      assert !Accepts(delay, t0, presses[0]);
      var tail := presses[1..];
      assert forall i :: 0 <= i < |tail| ==> tail[i] - t0 <= delay by {
        forall i | 0 <= i < |tail| ensures tail[i] - t0 <= delay {
          assert tail[i] == presses[i + 1];
        }
      }
      QuietAfter(delay, t0, tail);
    }
  }

  /** A burst of bounces inside one debounce window produces exactly one event. */
  lemma BurstDeliversOnce(delay: int, last: int, presses: seq<int>)
    requires |presses| > 0 && Accepts(delay, last, presses[0])
    requires forall i :: 0 < i < |presses| ==> presses[i] - presses[0] <= delay
    ensures Debounced(delay, last, presses) == [presses[0]]
  {
    var tail := presses[1..];
    assert forall i :: 0 <= i < |tail| ==> tail[i] - presses[0] <= delay by {
      forall i | 0 <= i < |tail| ensures tail[i] - presses[0] <= delay {
        assert tail[i] == presses[i + 1];
      }
    }
    QuietAfter(delay, presses[0], tail);
  }

  /**
   * The accepted presses are spaced apart: the first is more than `delay`
   * after `last`, and each later one more than `delay` after the one before.
   */
  lemma {:induction false} AcceptedSpaced(delay: int, last: int, presses: seq<int>)
    ensures var r := Debounced(delay, last, presses);
      && (|r| > 0 ==> Accepts(delay, last, r[0]))
      && (forall i :: 0 <= i < |r| - 1 ==> Accepts(delay, r[i], r[i + 1]))
    decreases |presses|
  {
    if |presses| > 0 {
      var next := NextLast(delay, last, presses[0]);
      AcceptedSpaced(delay, next, presses[1..]);
      var rest := Debounced(delay, next, presses[1..]);
      if Accepts(delay, last, presses[0]) {
        var r := [presses[0]] + rest;
        assert forall i :: 1 <= i < |r| - 1 ==> r[i] == rest[i - 1] && r[i + 1] == rest[i];
      }
    }
  }

  /** The event loop's task queue; each entry is the pin of the button whose press it handles. */
  class EventLoop {
    var tasks: seq<int>

    constructor()
      ensures tasks == []
    {
      tasks := [];
    }

    /** `create_task`: one more task at the back of the queue. */
    method CreateTask(pin: int)
      modifies this`tasks
      ensures tasks == old(tasks) + [pin]
    {
      tasks := tasks + [pin];
    }
  }

  /** A push button on a GPIO pin, with its debounce state. */
  class AsyncButton {
    const pinId: int
    const debounceDelay: int
    var lastPress: int

    /** A new button has accepted no press yet: its last press is at tick 0. */
    constructor(pinId: int, debounceDelay: int)
      ensures this.pinId == pinId && this.debounceDelay == debounceDelay
      ensures lastPress == 0
    {
      this.pinId := pinId;
      this.debounceDelay := debounceDelay;
      lastPress := 0;
    }

    /**
     * `_irq_handler` at tick `now`. An accepted press records `now` and, when
     * the event loop can be reached (`loopReady`), schedules one task; when it
     * cannot, the failure is swallowed and the press is lost. A rejected
     * press changes nothing.
     */
    method IrqHandler(now: int, loop: EventLoop, loopReady: bool)
      modifies this`lastPress, loop`tasks
      ensures lastPress == NextLast(debounceDelay, old(lastPress), now)
      ensures loop.tasks == old(loop.tasks)
                            + (if Accepts(debounceDelay, old(lastPress), now) && loopReady then [pinId] else [])
    {
      if now - lastPress > debounceDelay {
        lastPress := now;
        if loopReady {
          loop.CreateTask(pinId);
        }
      }
    }
  }
}
