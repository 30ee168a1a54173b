/**
 The SPSC ring with its payload slots on store buffers. The machine of `SpscPark` runs as it is, with or
 without its fences. Beside it the sender's slot writes go into the same buffer as its stores of the tail and
 of the flags and reach memory in that order, while the receiver reads the slots in memory.
 */
module SpscBuffered {
  import opened Common
  import opened Arith
  import P = SpscPark

  /** One entry of the sender's buffer: a slot write, or a store of `SpscPark`. */
  datatype Entry = Payload(slot: nat, v: Ticket) | Control(w: P.Write)

  /** `buffer` is the sender's whole buffer; `ctl.tx.buf` is its control part. `log` has the payloads in the order
      in which their slots were written, `landed` counts the slot writes that have reached memory, and
      `received` has what the receiver's reads returned (`None` is memory that was never written). */
  datatype State = State(ctl: P.State, cells: seq<Option<Ticket>>, buffer: seq<Entry>,
                         log: seq<Ticket>, landed: nat, received: seq<Option<Ticket>>)

  datatype Move =
    | Step(m: P.Move)
    | FlushTx                   // the oldest entry of the sender's buffer reaches memory
    | WriteSlot(v: Ticket)      // the slot write that goes with the new private tail
    | ReadSlot                  // the slot read that goes with the new private head

  /** The move is one of the thread's own, in its program order. */
  predicate Acts(m: P.Move, x: P.Side) {
    (m.Step? && m.x == x) || (m.StartOp? && m.x == x) || (m.StartDrop? && m.x == x) || (m.StartDrain? && x.Rx?)
  }

  /** The sender waits here until its buffer is empty. */
  predicate Waits(s: P.State) {
    match s.tx.pc
    case Fence => s.cfg.fences
    case GoneFence => s.cfg.fences
    case PrepFence => s.cfg.fences
    case PrepLock => s.cfg.lockDrains
    case WakeLock(_, _) => s.cfg.lockDrains
    case _ => false
  }

  /** A thread that has moved its private counter on writes or reads the slot before it does anything else. */
  predicate Enabled(s: State, m: Move) {
    match m
    case Step(c) =>
      && P.Enabled(s.ctl, c) && c != P.Flush(P.Tx)
      && (Acts(c, P.Tx) ==> |s.log| == s.ctl.tx.ctr && (Waits(s.ctl) ==> s.buffer == []))
      && (Acts(c, P.Rx) ==> |s.received| == s.ctl.rx.ctr)
    case FlushTx => s.buffer != []
    case WriteSlot(_) => s.ctl.cfg.cap > 0 && |s.log| < s.ctl.tx.ctr
    case ReadSlot => s.ctl.cfg.cap == |s.cells| > 0 && |s.received| < s.ctl.rx.ctr
  }

  /** What the sender has stored in its step. */
  function Stored(before: seq<P.Write>, after: seq<P.Write>): seq<Entry> {
    if |after| > |before| then [Control(after[|after| - 1])] else []
  }

  function Flush(s: State): State
    requires s.buffer != []
  {
    match s.buffer[0]
    case Payload(i, v) =>
      s.(cells := if i < |s.cells| then s.cells[i := Some(v)] else s.cells, buffer := s.buffer[1..], landed := s.landed + 1)
    case Control(_) =>
      s.(ctl := if s.ctl.tx.buf == [] then s.ctl else P.FlushOne(s.ctl, P.Tx), buffer := s.buffer[1..])
  }

  function Apply(s: State, m: Move): State
    requires Enabled(s, m)
  {
    match m
    case Step(c) =>
      var ctl := P.Apply(s.ctl, c);
      s.(ctl := ctl, buffer := s.buffer + Stored(s.ctl.tx.buf, ctl.tx.buf))
    case FlushTx => Flush(s)
    case WriteSlot(v) => s.(buffer := s.buffer + [Payload(SlotOf(|s.log|, s.ctl.cfg.cap), v)], log := s.log + [v])
    case ReadSlot => s.(received := s.received + [s.cells[SlotOf(|s.received|, s.ctl.cfg.cap)]])
  }

  predicate Init(s: State) {
    && P.Init(s.ctl) && |s.cells| == s.ctl.cfg.cap
    && s.buffer == [] && s.log == [] && s.landed == 0 && s.received == []
  }

  ghost predicate Next(s: State, s': State) {
    exists m :: Enabled(s, m) && s' == Apply(s, m)
  }

  /** A finite run: consecutive states are one move apart. */
  ghost predicate IsRun(run: seq<State>) {
    |run| > 0 && forall i, j {:trigger Next(run[i], run[j])} :: 0 <= i && j == i + 1 && j < |run| ==> Next(run[i], run[j])
  }

  ghost predicate Reachable(s: State) {
    exists run :: IsRun(run) && Init(run[0]) && run[|run| - 1] == s
  }
}
