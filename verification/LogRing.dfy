// Log message buffers: rings that overwrite the oldest message if they are
// full, and tell the reader how many were lost.

module LogRing {
  import opened Wrappers

  const MSGL_STATUS: int := 4
  const MSGL_DEBUG: int := 6
  const MSGL_MAX: int := 8
  const BUFFER_MSGL_TERM: int := MSGL_MAX + 1
  const BUFFER_MSGL_LOGFILE: int := MSGL_MAX + 2

  datatype Message = Message(level: int, text: string)

  // What a reader gets: a message, or the notice that some were skipped.
  datatype Delivery = Single(message: Message) | Overflow(count: nat)

  datatype Log = Log(capacity: nat, level: int, ring: seq<Message>, dropped: nat, silent: bool)

  ghost predicate LogOk(log: Log) {
    0 < log.capacity && |log.ring| <= log.capacity
  }

  function BufferLevel(level: int, terminalLevel: int): int {
    var l := if level == BUFFER_MSGL_TERM then terminalLevel else level;
    if l != BUFFER_MSGL_LOGFILE then l
    else if terminalLevel > MSGL_DEBUG then terminalLevel
    else MSGL_DEBUG
  }

  predicate Accepts(level: int, lev: int, terminalLevel: int) {
    lev <= BufferLevel(level, terminalLevel) && lev != MSGL_STATUS
  }

  // Writers wait for the log file thread, unless it has ended.
  predicate Blocked(log: Log, dead: bool) {
    log.level == BUFFER_MSGL_LOGFILE && |log.ring| == log.capacity && !dead
  }

  function Push(log: Log, m: Message): Log {
    if |log.ring| == log.capacity && log.ring != []
    then log.(ring := log.ring[1..] + [m], dropped := log.dropped + 1)
    else log.(ring := log.ring + [m])
  }

  function Pull(log: Log): (Log, Option<Delivery>) {
    if log.silent || log.ring == [] then (log, None)
    else if log.dropped > 0 then (log.(dropped := 0), Some(Overflow(log.dropped)))
    else (log.(ring := log.ring[1..]), Some(Single(log.ring[0])))
  }

  // --- Runs ---

  datatype Op =
    | Write(message: Message, terminalLevel: int, dead: bool)
    | Read
    | SetSilent(silent: bool)

  // A buffer, with everything it took, and everything its reader got.
  datatype History = History(log: Log, accepted: seq<Message>, delivered: seq<Delivery>)

  function Step(h: History, op: Op): History {
    match op
    case Write(m, terminalLevel, dead) =>
      if !Accepts(h.log.level, m.level, terminalLevel) || Blocked(h.log, dead) then h
      else h.(log := Push(h.log, m), accepted := h.accepted + [m])
    case Read =>
      var (log, d) := Pull(h.log);
      h.(log := log, delivered := if d.Some? then h.delivered + [d.value] else h.delivered)
    case SetSilent(s) => h.(log := h.log.(silent := s))
  }

  function Run(h: History, ops: seq<Op>): History
    decreases |ops|
  {
    if ops == [] then h else Run(Step(h, ops[0]), ops[1..])
  }

  function NewHistory(capacity: nat, level: int): History {
    History(Log(capacity, level, [], 0, false), [], [])
  }

  // Messages that give the deliveries if, for each notice, exactly as many as
  // it says are skipped.
  ghost predicate Replays(delivered: seq<Delivery>, messages: seq<Message>)
    decreases |delivered|
  {
    if delivered == [] then messages == []
    else
      var n := |messages|;
      match delivered[|delivered| - 1]
      case Single(m) => n > 0 && messages[n - 1] == m && Replays(delivered[..|delivered| - 1], messages[..n - 1])
      case Overflow(k) => n >= k > 0 && Replays(delivered[..|delivered| - 1], messages[..n - k])
  }

  // What was taken is what was delivered or skipped, the messages to be
  // reported as skipped, and what is in the ring, in this order.
  ghost predicate Accounted(h: History) {
    var inRing := |h.accepted| - |h.log.ring|;
    && 0 <= inRing - h.log.dropped
    && h.accepted[inRing..] == h.log.ring
    && Replays(h.delivered, h.accepted[..inRing - h.log.dropped])
  }

  lemma WriteAccounted(h: History, op: Op)
    requires LogOk(h.log) && Accounted(h) && op.Write?
    ensures Accounted(Step(h, op))
  {
    var g := Step(h, op);
    if g != h {
      var n := |h.accepted| - |h.log.ring| - h.log.dropped;
      assert |g.accepted| - |g.log.ring| - g.log.dropped == n;
      assert g.accepted[..n] == h.accepted[..n];
      var inRing := |g.accepted| - |g.log.ring|;
      if |h.log.ring| == h.log.capacity {
        assert h.accepted[inRing..] == h.log.ring[1..];
      }
      assert g.accepted[inRing..] == h.accepted[inRing..] + [op.message];
    }
  }

  lemma ReadAccounted(h: History)
    requires LogOk(h.log) && Accounted(h)
    ensures Accounted(Step(h, Read))
  {
    hide Replays;
    var g := Step(h, Read);
    var inRing := |h.accepted| - |h.log.ring|;
    if g != h {
      var d := g.delivered[|g.delivered| - 1];
      assert g.delivered == h.delivered + [d];
      if h.log.dropped > 0 {
        assert h.accepted[..inRing][..inRing - h.log.dropped] == h.accepted[..inRing - h.log.dropped];
        DeliverReplays(h.delivered, d, h.accepted[..inRing]);
      } else {
        assert h.accepted[inRing] == h.log.ring[0];
        assert h.accepted[..inRing + 1][..inRing] == h.accepted[..inRing];
        DeliverReplays(h.delivered, d, h.accepted[..inRing + 1]);
        assert h.accepted[inRing + 1..] == h.log.ring[1..];
      }
    }
  }

  lemma DeliverReplays(delivered: seq<Delivery>, d: Delivery, messages: seq<Message>)
    requires match d
             case Single(m) => |messages| > 0 && messages[|messages| - 1] == m && Replays(delivered, messages[..|messages| - 1])
             case Overflow(k) => |messages| >= k > 0 && Replays(delivered, messages[..|messages| - k])
    ensures Replays(delivered + [d], messages)
  {
    assert (delivered + [d])[..|delivered|] == delivered;
  }

  lemma StepAccounted(h: History, op: Op)
    requires LogOk(h.log) && Accounted(h)
    ensures Accounted(Step(h, op)) && LogOk(Step(h, op).log)
  {
    match op
    case Write(_, _, _) => WriteAccounted(h, op);
    case Read => ReadAccounted(h);
    case SetSilent(_) =>
  }

  // For every run: no message is lost without a notice, reported twice, or out
  // of order.
  lemma {:induction false} RunAccounted(h: History, ops: seq<Op>)
    requires LogOk(h.log) && Accounted(h)
    ensures Accounted(Run(h, ops)) && LogOk(Run(h, ops).log)
    decreases |ops|
  {
    if ops != [] {
      StepAccounted(h, ops[0]);
      RunAccounted(Step(h, ops[0]), ops[1..]);
    }
  }

  lemma NewIsAccounted(capacity: nat, level: int)
    requires capacity > 0
    ensures LogOk(NewHistory(capacity, level).log) && Accounted(NewHistory(capacity, level))
  {
  }

  // --- What a buffer takes ---

  // A buffer at the level of the terminal gets what the terminal shows. The one of a
  // log file gets that, and everything up to debug messages. Status lines go to
  // neither.
  lemma AcceptsIff(level: int, lev: int, terminalLevel: int)
    ensures Accepts(level, lev, terminalLevel)
            <==> && lev != MSGL_STATUS
                 && if level == BUFFER_MSGL_TERM then lev <= terminalLevel
                    else if level == BUFFER_MSGL_LOGFILE then lev <= terminalLevel || lev <= MSGL_DEBUG
                    else lev <= level
  {
  }

  function MeantOf(op: Op, level: int): seq<Message> {
    if op.Write? && Accepts(level, op.message.level, op.terminalLevel) then [op.message] else []
  }

  // The messages of a run that are meant for a buffer at this level.
  function Meant(ops: seq<Op>, level: int): seq<Message> {
    if ops == [] then [] else MeantOf(ops[0], level) + Meant(ops[1..], level)
  }

  // Whatever the reader does, a buffer takes exactly the messages that are meant for
  // it. Only those of a log file whose thread is alive are put off if it is full.
  lemma {:induction false} RunTakes(h: History, ops: seq<Op>)
    requires h.log.level != BUFFER_MSGL_LOGFILE || forall i :: 0 <= i < |ops| ==> ops[i].Write? ==> ops[i].dead
    ensures Run(h, ops).accepted == h.accepted + Meant(ops, h.log.level) && Run(h, ops).log.level == h.log.level
    decreases |ops|
  {
    hide Step, MeantOf, Blocked;
    if ops != [] {
      var op := ops[0];
      TakesOne(h, op);
      RunTakes(Step(h, op), ops[1..]);
    }
  }

  lemma TakesOne(h: History, op: Op)
    requires h.log.level != BUFFER_MSGL_LOGFILE || (op.Write? ==> op.dead)
    ensures Step(h, op).accepted == h.accepted + MeantOf(op, h.log.level) && Step(h, op).log.level == h.log.level
  {
    hide Accepts;
  }

  // A log file loses nothing while its thread is alive.
  lemma {:induction false} RunLosesNothing(h: History, ops: seq<Op>)
    requires LogOk(h.log) && h.log.level == BUFFER_MSGL_LOGFILE && h.log.dropped == 0
    requires forall i :: 0 <= i < |h.delivered| ==> h.delivered[i].Single?
    requires forall i :: 0 <= i < |ops| ==> ops[i].Write? ==> !ops[i].dead
    ensures var g := Run(h, ops); g.log.dropped == 0 && forall i :: 0 <= i < |g.delivered| ==> g.delivered[i].Single?
    decreases |ops|
  {
    hide Accepts;
    if ops != [] {
      RunLosesNothing(Step(h, ops[0]), ops[1..]);
    }
  }

  // --- The log file ---

  // The buffer of the log file. A writer that finds it full waits, with the
  // global lock held, so there is at most one, and nobody gets past it.
  datatype LogFile = LogFile(log: Log, waiting: Option<Message>, offered: seq<Message>, delivered: seq<Delivery>)

  datatype FileOp =
    | Offer(message: Message, terminalLevel: int)   // a writer comes
    | TryWrite(dead: bool)                          // ... and looks if there is room
    | Take                                          // the file's thread reads
    | Mute(silent: bool)

  function FileStep(h: LogFile, op: FileOp): LogFile {
    match op
    case Offer(m, terminalLevel) =>
      if h.waiting.Some? || !Accepts(h.log.level, m.level, terminalLevel) then h
      else h.(waiting := Some(m), offered := h.offered + [m])
    case TryWrite(dead) =>
      if h.waiting.None? || Blocked(h.log, dead) then h
      else h.(log := Push(h.log, h.waiting.value), waiting := None)
    case Take =>
      var (log, d) := Pull(h.log);
      h.(log := log, delivered := if d.Some? then h.delivered + [d.value] else h.delivered)
    case Mute(s) => h.(log := h.log.(silent := s))
  }

  function FileRun(h: LogFile, ops: seq<FileOp>): LogFile
    decreases |ops|
  {
    if ops == [] then h else FileRun(FileStep(h, ops[0]), ops[1..])
  }

  function Messages(ds: seq<Delivery>): seq<Message> {
    if ds == [] then []
    else Messages(ds[..|ds| - 1]) + (if ds[|ds| - 1].Single? then [ds[|ds| - 1].message] else [])
  }

  // All that was offered has been delivered, is in the ring, or waits, in this
  // order; and nothing else was delivered.
  ghost predicate Complete(h: LogFile) {
    && LogOk(h.log) && h.log.dropped == 0
    && (forall i :: 0 <= i < |h.delivered| ==> h.delivered[i].Single?)
    && h.offered == Messages(h.delivered) + h.log.ring + (if h.waiting.Some? then [h.waiting.value] else [])
  }

  lemma StepComplete(h: LogFile, op: FileOp)
    requires Complete(h) && h.log.level == BUFFER_MSGL_LOGFILE && (op.TryWrite? ==> !op.dead)
    ensures Complete(FileStep(h, op)) && FileStep(h, op).log.level == h.log.level
  {
    hide Messages;
    var g := FileStep(h, op);
    if op.TryWrite? && g != h {
      assert Messages(h.delivered) + (h.log.ring + [h.waiting.value]) == Messages(h.delivered) + h.log.ring + [h.waiting.value];
    } else if op.Take? && g != h {
      DeliveredMore(h.delivered, h.log.ring[0]);
      assert h.log.ring == [h.log.ring[0]] + g.log.ring;
      assert Messages(h.delivered) + ([h.log.ring[0]] + g.log.ring) == Messages(g.delivered) + g.log.ring;
    }
  }

  lemma DeliveredMore(ds: seq<Delivery>, m: Message)
    ensures Messages(ds + [Single(m)]) == Messages(ds) + [m]
  {
    assert (ds + [Single(m)])[..|ds|] == ds;
  }

  // As long as its thread is alive, the log file gets every message, in order.
  lemma {:induction false} LogFileIsComplete(h: LogFile, ops: seq<FileOp>)
    requires Complete(h) && h.log.level == BUFFER_MSGL_LOGFILE
    requires forall i :: 0 <= i < |ops| ==> ops[i].TryWrite? ==> !ops[i].dead
    ensures Complete(FileRun(h, ops))
    decreases |ops|
  {
    hide Complete, FileStep;
    if ops != [] {
      StepComplete(h, ops[0]);
      LogFileIsComplete(FileStep(h, ops[0]), ops[1..]);
    }
  }

  // --- The buffer ---

  // Where the i-th message is.
  function Slot(entry0: nat, i: nat, capacity: nat): (r: nat)
    requires capacity > 0
    ensures r < capacity
  {
    (entry0 + i) % capacity
  }

  lemma SlotIs(entry0: nat, i: nat, capacity: nat)
    requires entry0 < capacity && i <= capacity
    ensures Slot(entry0, i, capacity) == if entry0 + i < capacity then entry0 + i else entry0 + i - capacity
  {
  }

  lemma SlotAfter(entry0: nat, i: nat, capacity: nat)
    requires entry0 < capacity && i < capacity
    ensures Slot(Slot(entry0, 1, capacity), i, capacity) == Slot(entry0, i + 1, capacity)
  {
    SlotIs(entry0, 1, capacity);
    SlotIs(Slot(entry0, 1, capacity), i, capacity);
    SlotIs(entry0, i + 1, capacity);
  }

  lemma SlotsDiffer(entry0: nat, i: nat, j: nat, capacity: nat)
    requires entry0 < capacity && i < j < capacity
    ensures Slot(entry0, i, capacity) != Slot(entry0, j, capacity)
  {
    SlotIs(entry0, i, capacity);
    SlotIs(entry0, j, capacity);
  }

  class LogBuffer {
    const level: int
    const entries: array<Message>
    var entry0: nat
    var numEntries: nat
    var dropped: nat
    var silent: bool

    ghost predicate Valid()
      reads this
    {
      entry0 < entries.Length && numEntries <= entries.Length
    }

    ghost function Ring(): (r: seq<Message>)
      requires Valid()
      reads this, entries
      ensures |r| == numEntries
    {
      seq(numEntries, i requires 0 <= i < numEntries && Valid() reads this, entries =>
        entries[Slot(entry0, i, entries.Length)])
    }

    ghost function View(): Log
      requires Valid()
      reads this, entries
    {
      Log(entries.Length, level, Ring(), dropped, silent)
    }

    constructor (capacity: nat, level: int)
      requires capacity > 0
      ensures Valid() && fresh(entries)
      ensures View() == NewHistory(capacity, level).log
    {
      this.level := level;
      entries := new Message[capacity](_ => Message(0, ""));
      entry0, numEntries, dropped, silent := 0, 0, 0, false;
    }

    // log_buffer_read()
    method TakeFirst() returns (res: Message)
      requires Valid() && numEntries > 0
      modifies this`entry0, this`numEntries
      ensures Valid()
      ensures res == old(Ring())[0] && Ring() == old(Ring())[1..]
    {
      hide Slot;
      SlotIs(entry0, 0, entries.Length);
      forall i | 0 <= i < numEntries - 1
        ensures Slot(Slot(entry0, 1, entries.Length), i, entries.Length) == Slot(entry0, i + 1, entries.Length)
      {
        SlotAfter(entry0, i, entries.Length);
      }
      res := entries[entry0];
      entry0 := Slot(entry0, 1, entries.Length);
      numEntries := numEntries - 1;
    }

    // One look of a writer, who has to come again if there is no room.
    method Write(m: Message, terminalLevel: int, dead: bool) returns (waits: bool)
      requires Valid()
      modifies this`entry0, this`numEntries, this`dropped, entries
      ensures Valid()
      ensures waits <==> Accepts(level, m.level, terminalLevel) && Blocked(old(View()), dead)
      ensures View() ==
              if Accepts(level, m.level, terminalLevel) && !Blocked(old(View()), dead)
              then Push(old(View()), m)
              else old(View())
    {
      waits := false;
      var bufferLevel := level;
      if bufferLevel == BUFFER_MSGL_TERM {
        bufferLevel := terminalLevel;
      }
      if bufferLevel == BUFFER_MSGL_LOGFILE {
        bufferLevel := if terminalLevel > MSGL_DEBUG then terminalLevel else MSGL_DEBUG;
      }
      if m.level <= bufferLevel && m.level != MSGL_STATUS {
        if level == BUFFER_MSGL_LOGFILE && numEntries == entries.Length && !dead {
          return true;
        }
        if numEntries == entries.Length {
          var skip := TakeFirst();
          dropped := dropped + 1;
        }
        Append(m);
      }
    }

    method Append(m: Message)
      requires Valid() && numEntries < entries.Length
      modifies this`numEntries, entries
      ensures Valid() && Ring() == old(Ring()) + [m]
    {
      hide Slot;
      forall i | 0 <= i < numEntries
        ensures Slot(entry0, i, entries.Length) != Slot(entry0, numEntries, entries.Length)
      {
        SlotsDiffer(entry0, i, numEntries, entries.Length);
      }
      var pos := Slot(entry0, numEntries, entries.Length);
      entries[pos] := m;
      numEntries := numEntries + 1;
    }

    // mp_msg_log_buffer_read()
    method Read() returns (res: Option<Delivery>)
      requires Valid()
      modifies this`entry0, this`numEntries, this`dropped
      ensures Valid()
      ensures (View(), res) == Pull(old(View()))
    {
      res := None;
      if !silent && numEntries > 0 {
        if dropped > 0 {
          res := Some(Overflow(dropped));
          dropped := 0;
          assert Ring() == old(Ring());
        } else {
          var m := TakeFirst();
          res := Some(Single(m));
        }
      }
    }

    method SetSilent(s: bool)
      requires Valid()
      modifies this`silent
      ensures Valid() && View() == old(View()).(silent := s)
    {
      silent := s;
    }
  }
}
