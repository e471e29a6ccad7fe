/** Whole runs of operations on the shared segment, by any processes in any
    order (src/shmem.cpp:150-205; src/bladepsgi.cpp:566-567, 577-583, 763-767,
    885-894; src/monitoring.cpp:90-95;
    src/perl_interpreter_sea_bridge.cpp:134-150). Each operation is one atomic
    access, so a concurrent execution is a sequence of them. */
module SegmentRuns {
  import opened Segment
  import opened Allocator
  import opened SharedMemory

  datatype Op =
    | RaiseExit
    | Count
    | SetSlot(w: nat, b: Byte)
    | AtomicAdd(k: nat, v: Int64)
    | AtomicSet(k: nat, v: Int64)
    | SemaphoreWrite(k: nat, bs: seq<Byte>)

  predicate Legal(a: Arena, op: Op) {
    match op
    case RaiseExit => true
    case Count => true
    case SetSlot(w, _) => w < STATUS_SLOTS
    case AtomicAdd(k, _) => k < |a.atomics|
    case AtomicSet(k, _) => k < |a.atomics|
    case SemaphoreWrite(k, bs) => k < |a.semaphores| && |bs| == SEM_SIZE
  }

  /** The operation on the record. */
  ghost function Apply(r: Record, op: Op): Record {
    match op
    case RaiseExit => SetExit(r)
    case Count => Increase(r)
    case SetSlot(w, b) => if w < |r.status| then SetStatus(r, w, b) else r
    case AtomicAdd(k, v) => if k < |r.atomics| then SetAtomic(r, k, Wrap(r.atomics[k] + v)) else r
    case AtomicSet(k, v) => if k < |r.atomics| then SetAtomic(r, k, v) else r
    case SemaphoreWrite(k, bs) =>
      if k < |r.semaphores| then r.(semaphores := r.semaphores[k := bs]) else r
  }

  /** The same operation on the bytes, at the addresses the source uses. */
  ghost function Perform(mem: seq<Byte>, a: Arena, op: Op): (m: seq<Byte>)
    requires InSegment(mem, a) && Legal(a, op)
    ensures |m| == |mem|
  {
    match op
    case RaiseExit => Store(mem, EXIT_FLAG_OFF, [1])
    case Count => Store(mem, COUNTER_OFF, Encode(Wrap(AtomicAt(mem, COUNTER_OFF) + 1)))
    case SetSlot(w, b) => Store(mem, STATUS_OFF + w, [b])
    case AtomicAdd(k, v) =>
      assert InUserArea(AtomicRegion(a.atomics[k]));
      var off := a.atomics[k].offset; Store(mem, off, Encode(Wrap(AtomicAt(mem, off) + v)))
    case AtomicSet(k, v) =>
      assert InUserArea(AtomicRegion(a.atomics[k]));
      Store(mem, a.atomics[k].offset, Encode(v))
    case SemaphoreWrite(k, bs) =>
      assert InUserArea(SemRegion(a.semaphores[k]));
      Store(mem, a.semaphores[k].offset, bs)
  }

  ghost function ApplyAll(r: Record, ops: seq<Op>): Record
    decreases |ops|
  {
    if ops == [] then r else ApplyAll(Apply(r, ops[0]), ops[1..])
  }

  ghost predicate AllLegal(a: Arena, ops: seq<Op>) {
    forall i :: 0 <= i < |ops| ==> Legal(a, ops[i])
  }

  ghost function PerformAll(mem: seq<Byte>, a: Arena, ops: seq<Op>): (m: seq<Byte>)
    requires InSegment(mem, a) && AllLegal(a, ops)
    ensures |m| == |mem|
    decreases |ops|
  {
    if ops == [] then mem else PerformAll(Perform(mem, a, ops[0]), a, ops[1..])
  }

  lemma OpRefines(mem: seq<Byte>, a: Arena, op: Op)
    requires InSegment(mem, a) && Legal(a, op)
    ensures View(Perform(mem, a, op), a) == Apply(View(mem, a), op)
  {
    hide Sound;
    match op
    case RaiseExit => StoreExit(mem, a, 1);
    case Count => StoreCounter(mem, a, Wrap(AtomicAt(mem, COUNTER_OFF) + 1));
    case SetSlot(w, b) => StoreStatus(mem, a, w, b);
    case AtomicAdd(k, v) => StoreAtomic(mem, a, k, Wrap(View(mem, a).atomics[k] + v));
    case AtomicSet(k, v) => StoreAtomic(mem, a, k, v);
    case SemaphoreWrite(k, bs) => StoreSemaphore(mem, a, k, bs);
  }

  /** Any run of operations on the bytes is the same run on the record. */
  lemma {:induction false} RunRefines(mem: seq<Byte>, a: Arena, ops: seq<Op>)
    requires InSegment(mem, a) && AllLegal(a, ops)
    ensures View(PerformAll(mem, a, ops), a) == ApplyAll(View(mem, a), ops)
    decreases |ops|
  {
    hide View, Perform, Apply, Sound;
    if ops != [] {
      OpRefines(mem, a, ops[0]);
      RunRefines(Perform(mem, a, ops[0]), a, ops[1..]);
    }
  }

  // ---------- no interference ----------

  /** A place that can be read on its own. */
  datatype Cell = ExitCell | CounterCell | SlotCell(w: nat) | AtomicCell(k: nat) | SemaphoreCell(k: nat)

  function Target(op: Op): Cell {
    match op
    case RaiseExit => ExitCell
    case Count => CounterCell
    case SetSlot(w, _) => SlotCell(w)
    case AtomicAdd(k, _) => AtomicCell(k)
    case AtomicSet(k, _) => AtomicCell(k)
    case SemaphoreWrite(k, _) => SemaphoreCell(k)
  }

  predicate CellExists(a: Arena, c: Cell) {
    match c
    case ExitCell => true
    case CounterCell => true
    case SlotCell(w) => w < STATUS_SLOTS
    case AtomicCell(k) => k < |a.atomics|
    case SemaphoreCell(k) => k < |a.semaphores|
  }

  /** The bytes a reader of the cell loads. */
  ghost function ReadCell(mem: seq<Byte>, a: Arena, c: Cell): seq<Byte>
    requires InSegment(mem, a) && CellExists(a, c)
  {
    match c
    case ExitCell => Load(mem, EXIT_FLAG_OFF, 1)
    case CounterCell => Load(mem, COUNTER_OFF, WORD)
    case SlotCell(w) => Load(mem, STATUS_OFF + w, 1)
    case AtomicCell(k) =>
      assert InUserArea(AtomicRegion(a.atomics[k])); Load(mem, a.atomics[k].offset, WORD)
    case SemaphoreCell(k) =>
      assert InUserArea(SemRegion(a.semaphores[k])); Load(mem, a.semaphores[k].offset, SEM_SIZE)
  }

  ghost function PlaceOf(a: Arena, c: Cell): Region
    requires CellExists(a, c)
  {
    match c
    case ExitCell => Region(EXIT_FLAG_OFF, 1)
    case CounterCell => Region(COUNTER_OFF, WORD)
    case SlotCell(w) => Region(STATUS_OFF + w, 1)
    case AtomicCell(k) => AtomicRegion(a.atomics[k])
    case SemaphoreCell(k) => SemRegion(a.semaphores[k])
  }

  lemma CellsApart(a: Arena, c: Cell, d: Cell)
    requires Sound(a) && CellExists(a, c) && CellExists(a, d) && c != d
    ensures Apart(PlaceOf(a, c), PlaceOf(a, d))
    ensures PlaceOf(a, c).offset + PlaceOf(a, c).size <= SEGMENT_SIZE
  {
    match c
    case AtomicCell(k) => assert InUserArea(AtomicRegion(a.atomics[k]));
    case SemaphoreCell(k) => assert InUserArea(SemRegion(a.semaphores[k]));
    case _ =>
    match d
    case AtomicCell(k) => assert InUserArea(AtomicRegion(a.atomics[k]));
    case SemaphoreCell(k) => assert InUserArea(SemRegion(a.semaphores[k]));
    case _ =>
  }

  lemma OpLeavesCell(mem: seq<Byte>, a: Arena, op: Op, c: Cell)
    requires InSegment(mem, a) && Legal(a, op) && CellExists(a, c) && Target(op) != c
    ensures ReadCell(Perform(mem, a, op), a, c) == ReadCell(mem, a, c)
  {
    hide Sound, PlaceOf, ReadCell, Perform, Store, Load;
    var d := Target(op);
    CellsApart(a, c, d);
    CellsApart(a, d, c);
    var at, place := PlaceOf(a, c), PlaceOf(a, d);
    var bs := StoresAtTarget(mem, a, op);
    LoadElsewhere(mem, place.offset, bs, at.offset, at.size);
    ReadsAtPlace(mem, a, c);
    ReadsAtPlace(Perform(mem, a, op), a, c);
  }

  /** An operation is one store at its target. */
  lemma StoresAtTarget(mem: seq<Byte>, a: Arena, op: Op) returns (bs: seq<Byte>)
    requires InSegment(mem, a) && Legal(a, op)
    ensures CellExists(a, Target(op))
    ensures var place := PlaceOf(a, Target(op));
      && |bs| == place.size && place.offset + place.size <= |mem|
      && Perform(mem, a, op) == Store(mem, place.offset, bs)
  {
    match op
    case RaiseExit => bs := [1];
    case Count => bs := Encode(Wrap(AtomicAt(mem, COUNTER_OFF) + 1));
    case SetSlot(_, b) => bs := [b];
    case AtomicAdd(k, v) =>
      assert InUserArea(AtomicRegion(a.atomics[k]));
      bs := Encode(Wrap(AtomicAt(mem, a.atomics[k].offset) + v));
    case AtomicSet(k, v) =>
      assert InUserArea(AtomicRegion(a.atomics[k]));
      bs := Encode(v);
    case SemaphoreWrite(k, image) =>
      assert InUserArea(SemRegion(a.semaphores[k]));
      bs := image;
  }

  lemma ReadsAtPlace(mem: seq<Byte>, a: Arena, c: Cell)
    requires InSegment(mem, a) && CellExists(a, c)
    ensures var at := PlaceOf(a, c);
      at.offset + at.size <= |mem| && ReadCell(mem, a, c) == Load(mem, at.offset, at.size)
  {
    match c
    case AtomicCell(k) => assert InUserArea(AtomicRegion(a.atomics[k]));
    case SemaphoreCell(k) => assert InUserArea(SemRegion(a.semaphores[k]));
    case _ =>
  }

  /** Over any run, a cell that no operation addresses reads as before. */
  lemma {:induction false} NoInterference(mem: seq<Byte>, a: Arena, ops: seq<Op>, c: Cell)
    requires InSegment(mem, a) && AllLegal(a, ops) && CellExists(a, c)
    requires forall i :: 0 <= i < |ops| ==> Target(ops[i]) != c
    ensures ReadCell(PerformAll(mem, a, ops), a, c) == ReadCell(mem, a, c)
    decreases |ops|
  {
    hide ReadCell, Perform, Sound;
    if ops != [] {
      OpLeavesCell(mem, a, ops[0], c);
      NoInterference(Perform(mem, a, ops[0]), a, ops[1..], c);
    }
  }

  // ---------- one announcer ----------

  /** How many SetShouldExitImmediately() calls in the run return true. */
  ghost function Announcements(r: Record, ops: seq<Op>): nat
    decreases |ops|
  {
    if ops == [] then 0
    else (if ops[0] == RaiseExit && r.exit == 0 then 1 else 0) + Announcements(Apply(r, ops[0]), ops[1..])
  }

  /** Of all the calls made by all processes exactly one is told to log its
      reason, if any call is made at all; and the flag never clears. */
  lemma {:induction false} OneAnnouncer(r: Record, ops: seq<Op>)
    ensures r.exit == 0 ==> Announcements(r, ops) == if RaiseExit in ops then 1 else 0
    ensures r.exit == 1 ==> Announcements(r, ops) == 0
    ensures ApplyAll(r, ops).exit == if RaiseExit in ops then 1 else r.exit
    decreases |ops|
  {
    if ops != [] {
      OneAnnouncer(Apply(r, ops[0]), ops[1..]);
    }
  }

  // ---------- the operations on the object ----------

  /** The operation as the program makes it, through the segment object; `told`
      is whether it raises the exit flag and is told to log its reason. */
  method Execute(shm: SharedSegment, op: Op) returns (told: bool)
    requires shm.Valid() && Legal(shm.Layout(), op)
    modifies shm.segment
    ensures shm.Valid() && shm.Contents() == Apply(old(shm.Contents()), op)
    ensures told <==> op == RaiseExit && old(shm.Contents()).exit == 0
  {
    told := false;
    match op
    case RaiseExit => told := shm.SetShouldExitImmediately();
    case Count => var _ := shm.IncreaseRequestCounter();
    case SetSlot(w, b) => var _ := shm.SetWorkerStatus(w, b);
    case AtomicAdd(k, v) => var _ := shm.AtomicFetchAdd(k, v);
    case AtomicSet(k, v) => shm.AtomicStore(k, v);
    case SemaphoreWrite(k, bs) =>
      StoreSemaphore(shm.segment[..], shm.Layout(), k, bs);
      shm.Write(shm.semaphores[k].offset, bs);
  }

  /** A run of operations on the object is that run on the record, and as many
      calls are told to log as OneAnnouncer counts. */
  method ExecuteAll(shm: SharedSegment, ops: seq<Op>) returns (told: nat)
    requires shm.Valid() && AllLegal(shm.Layout(), ops)
    modifies shm.segment
    ensures shm.Valid() && shm.Contents() == ApplyAll(old(shm.Contents()), ops)
    ensures told == Announcements(old(shm.Contents()), ops)
  {
    hide Apply, Legal, View;
    told := 0;
    for i := 0 to |ops|
      invariant shm.Valid()
      invariant ApplyAll(shm.Contents(), ops[i..]) == ApplyAll(old(shm.Contents()), ops)
      invariant told + Announcements(shm.Contents(), ops[i..]) == Announcements(old(shm.Contents()), ops)
    {
      assert ops[i..][1..] == ops[i + 1..];
      var first := Execute(shm, ops[i]);
      if first { told := told + 1; }
    }
  }

  // ---------- how many workers fit ----------

  function SlotAddress(w: nat): nat { STATUS_OFF + w }

  ghost predicate SlotsFit(n: nat) {
    forall w: nat :: w < n ==> SlotAddress(w) < SEGMENT_SIZE
  }

  predicate AcceptedWorkerCount(n: nat) { 1 <= n <= 65536 }

  /** All slots of `n` workers lie in the segment exactly when n <= 2048; the
      command line check (src/bladepsgi.cpp:862) accepts more than that. */
  lemma StatusArrayFitsIff(n: nat)
    ensures SlotsFit(n) <==> n <= 2048
    ensures AcceptedWorkerCount(2049) && !SlotsFit(2049)
    ensures AcceptedWorkerCount(65536) && !AcceptedWorkerCount(65537) && !AcceptedWorkerCount(0)
  {
    if n > 2048 { assert SlotAddress(n - 1) >= SEGMENT_SIZE; }
    assert SlotAddress(2048) >= SEGMENT_SIZE;
  }
}
