/** The bump allocator and the two name registries of the shared segment
    (src/shmem.cpp:82-136), as functions on a value. Class
    SharedMemory.SharedSegment is proved against these functions. Offsets are
    unbounded here; the size_t arithmetic of the source is compared with them
    at the end. */
module Allocator {
  import opened Segment

  datatype Handle = Handle(name: string, offset: nat)

  datatype Arena = Arena(locked: bool, next: nat, semaphores: seq<Handle>, atomics: seq<Handle>)

  datatype Outcome =
    | Ok(offset: nat)
    | Locked
    | OutOfRoom
    | NameTaken
    | BadValue
    | SyscallFailed

  const FRESH := Arena(false, FIRST_USER_OFF, [], [])

  predicate Named(hs: seq<Handle>, name: string) {
    exists i :: 0 <= i < |hs| && hs[i].name == name
  }

  datatype Step = Step(arena: Arena, outcome: Outcome)

  /** AllocateUserShmem. The offset moves even when the call fails. */
  function Allocate(a: Arena, size: nat): Step {
    if a.locked then Step(a, Locked)
    else
      var next := Align(a.next + size);
      Step(a.(next := next), if next >= STATUS_OFF then OutOfRoom else Ok(a.next))
  }

  /** NewSemaphore; `initialized` is whether sem_init() succeeds. */
  function NewSemaphore(a: Arena, name: string, value: Int64, initialized: bool): Step {
    if Named(a.semaphores, name) then Step(a, NameTaken)
    else if value <= 0 || value > 2147483647 then Step(a, BadValue)
    else
      var s := Allocate(a, SEM_SIZE);
      if !s.outcome.Ok? then s
      else if !initialized then Step(s.arena, SyscallFailed)
      else Step(s.arena.(semaphores := a.semaphores + [Handle(name, s.outcome.offset)]), s.outcome)
  }

  /** NewAtomicInt64. */
  function NewAtomic(a: Arena, name: string): Step {
    if Named(a.atomics, name) then Step(a, NameTaken)
    else
      var s := Allocate(a, WORD);
      if !s.outcome.Ok? then s
      else Step(s.arena.(atomics := a.atomics + [Handle(name, s.outcome.offset)]), s.outcome)
  }

  /** LockAllocations; a second lock throws and changes nothing. */
  function Lock(a: Arena): Step {
    if a.locked then Step(a, Locked) else Step(a.(locked := true), Ok(a.next))
  }

  /** Anything a program can ask of the allocator. */
  datatype Request =
    | Raw(size: nat)
    | Semaphore(name: string, value: Int64, initialized: bool)
    | Atomic(name: string)
    | LockAll

  function Serve(a: Arena, r: Request): Step {
    match r
    case Raw(size) => Allocate(a, size)
    case Semaphore(name, value, initialized) => NewSemaphore(a, name, value, initialized)
    case Atomic(name) => NewAtomic(a, name)
    case LockAll => Lock(a)
  }

  function ServeAll(a: Arena, rs: seq<Request>): Arena
    decreases |rs|
  {
    if rs == [] then a else ServeAll(Serve(a, rs[0]).arena, rs[1..])
  }

  // ---------- separation ----------

  datatype Region = Region(offset: nat, size: nat)

  function SizeOf(r: Request): nat {
    match r
    case Raw(size) => size
    case Semaphore(_, _, _) => SEM_SIZE
    case Atomic(_) => WORD
    case LockAll => 0
  }

  /** The region a request hands out, if it hands one out. */
  function Granted(a: Arena, r: Request): seq<Region> {
    var o := Serve(a, r).outcome;
    if o.Ok? && !r.LockAll? then [Region(o.offset, SizeOf(r))] else []
  }

  /** All regions handed out, in order. */
  function GrantedAll(a: Arena, rs: seq<Request>): seq<Region>
    decreases |rs|
  {
    if rs == [] then [] else Granted(a, rs[0]) + GrantedAll(Serve(a, rs[0]).arena, rs[1..])
  }

  ghost predicate Apart(x: Region, y: Region) {
    x.offset + x.size <= y.offset || y.offset + y.size <= x.offset
  }

  /** `r` is aligned and lies between the header words and the status array. */
  ghost predicate InUserArea(r: Region) {
    && r.offset % ALIGNMENT == 0
    && FIRST_USER_OFF <= r.offset
    && r.offset + r.size < STATUS_OFF
  }

  ghost predicate Separate(rs: seq<Region>) {
    && (forall i :: 0 <= i < |rs| ==> InUserArea(rs[i]))
    && (forall i, j :: 0 <= i < j < |rs| ==> rs[i].offset + rs[i].size <= rs[j].offset)
  }

  lemma ServeMovesUp(a: Arena, r: Request)
    requires a.next % ALIGNMENT == 0
    ensures Serve(a, r).arena.next % ALIGNMENT == 0 && a.next <= Serve(a, r).arena.next
    ensures Granted(a, r) == [] || Granted(a, r) == [Region(a.next, SizeOf(r))]
    ensures Granted(a, r) != [] ==> a.next + SizeOf(r) <= Serve(a, r).arena.next < STATUS_OFF
  {
    match r
    case Raw(size) =>
    case Semaphore(name, value, initialized) =>
    case Atomic(name) =>
    case LockAll =>
  }

  /** Over any sequence of requests, all regions handed out are aligned, lie in
      [16, 2048), and follow one another without overlap. */
  lemma {:induction false} AllocatorSeparates(a: Arena, rs: seq<Request>)
    requires a.next % ALIGNMENT == 0 && FIRST_USER_OFF <= a.next
    ensures Separate(GrantedAll(a, rs))
    ensures forall i :: 0 <= i < |GrantedAll(a, rs)| ==> a.next <= GrantedAll(a, rs)[i].offset
    decreases |rs|
  {
    if rs != [] {
      ServeMovesUp(a, rs[0]);
      AllocatorSeparates(Serve(a, rs[0]).arena, rs[1..]);
    }
  }

  // ---------- registries ----------

  ghost predicate Distinct(hs: seq<Handle>) {
    forall i, j :: 0 <= i < j < |hs| ==> hs[i].name != hs[j].name
  }

  /** The regions of everything registered. */
  ghost function SemRegion(h: Handle): Region { Region(h.offset, SEM_SIZE) }
  ghost function AtomicRegion(h: Handle): Region { Region(h.offset, WORD) }

  /** What every reachable arena satisfies. */
  ghost predicate Sound(a: Arena) {
    && a.next % ALIGNMENT == 0
    && FIRST_USER_OFF <= a.next
    && Distinct(a.semaphores) && Distinct(a.atomics)
    && (forall i :: 0 <= i < |a.semaphores| ==>
          InUserArea(SemRegion(a.semaphores[i])) && a.semaphores[i].offset + SEM_SIZE <= a.next)
    && (forall i :: 0 <= i < |a.atomics| ==>
          InUserArea(AtomicRegion(a.atomics[i])) && a.atomics[i].offset + WORD <= a.next)
    && (forall i, j :: 0 <= i < j < |a.semaphores| ==> Apart(SemRegion(a.semaphores[i]), SemRegion(a.semaphores[j])))
    && (forall i, j :: 0 <= i < j < |a.atomics| ==> Apart(AtomicRegion(a.atomics[i]), AtomicRegion(a.atomics[j])))
    && (forall i, j :: 0 <= i < |a.semaphores| && 0 <= j < |a.atomics| ==>
          Apart(SemRegion(a.semaphores[i]), AtomicRegion(a.atomics[j])))
  }

  lemma FreshIsSound()
    ensures Sound(FRESH)
  {
  }

  lemma ServeKeepsSound(a: Arena, r: Request)
    requires Sound(a)
    ensures Sound(Serve(a, r).arena)
  {
    ServeMovesUp(a, r);
    match r
    case Raw(size) =>
    case Semaphore(name, value, initialized) => SemaphoreKeepsSound(a, r);
    case Atomic(name) => AtomicKeepsSound(a, r);
    case LockAll =>
  }

  lemma SemaphoreKeepsSound(a: Arena, r: Request)
    requires Sound(a) && r.Semaphore?
    ensures Sound(Serve(a, r).arena)
  {
  }

  lemma AtomicKeepsSound(a: Arena, r: Request)
    requires Sound(a) && r.Atomic?
    ensures Sound(Serve(a, r).arena)
  {
  }

  /** Names stay unique per kind and regions apart in any creation sequence. */
  lemma {:induction false} AlwaysSound(a: Arena, rs: seq<Request>)
    requires Sound(a)
    ensures Sound(ServeAll(a, rs))
    decreases |rs|
  {
    if rs != [] {
      ServeKeepsSound(a, rs[0]);
      AlwaysSound(Serve(a, rs[0]).arena, rs[1..]);
    }
  }

  /** A registry changes only by gaining the new handle at its end, and only
      when the creation succeeds. */
  lemma FailureLeavesRegistries(a: Arena, r: Request)
    ensures var t := Serve(a, r);
      && (!t.outcome.Ok? ==> t.arena.semaphores == a.semaphores && t.arena.atomics == a.atomics)
      && (t.outcome.Ok? && r.Semaphore? ==>
            t.arena.semaphores == a.semaphores + [Handle(r.name, t.outcome.offset)] && t.arena.atomics == a.atomics)
      && (t.outcome.Ok? && r.Atomic? ==>
            t.arena.atomics == a.atomics + [Handle(r.name, t.outcome.offset)] && t.arena.semaphores == a.semaphores)
  {
  }

  /** After the lock no request changes anything: every process forked later
      keeps the registries and the offset it was forked with. */
  lemma {:induction false} FrozenOnceLocked(a: Arena, rs: seq<Request>)
    requires a.locked
    ensures ServeAll(a, rs) == a && GrantedAll(a, rs) == []
    decreases |rs|
  {
    if rs != [] { FrozenOnceLocked(a, rs[1..]); }
  }

  lemma {:induction false} ServeAllAppend(a: Arena, first: seq<Request>, second: seq<Request>)
    ensures ServeAll(a, first + second) == ServeAll(ServeAll(a, first), second)
    ensures GrantedAll(a, first + second) == GrantedAll(a, first) + GrantedAll(ServeAll(a, first), second)
    decreases |first|
  {
    hide Serve, Granted;
    if first == [] {
      assert first + second == second;
    } else {
      ServeAllAppend(Serve(a, first[0]).arena, first[1..], second);
      assert (first + second)[1..] == first[1..] + second && (first + second)[0] == first[0];
    }
  }

  /** A lock anywhere in a sequence of requests is final: what was handed out
      before it is all that is ever handed out, registries and offset stay as
      they were when the lock was taken, and every later request is refused. */
  lemma LockIsFinal(a: Arena, before: seq<Request>, after: seq<Request>, r: Request)
    ensures var rs := before + [LockAll] + after;
      && GrantedAll(a, rs) == GrantedAll(a, before)
      && ServeAll(a, rs) == ServeAll(a, before).(locked := true)
      && !Serve(ServeAll(a, rs), r).outcome.Ok?
      && Serve(ServeAll(a, rs), r).arena == ServeAll(a, rs)
  {
    var b := ServeAll(a, before);
    var l := b.(locked := true);
    assert Serve(b, LockAll).arena == l && Granted(b, LockAll) == [];
    assert [LockAll][1..] == [];
    assert ServeAll(b, [LockAll]) == l && GrantedAll(b, [LockAll]) == [];
    ServeAllAppend(a, before, [LockAll]);
    ServeAllAppend(a, before + [LockAll], after);
    FrozenOnceLocked(l, after);
  }

  /** A semaphore is created exactly when its name is new among the semaphores,
      its value is in 1..2147483647, the segment is open and has room for 32
      bytes, and sem_init() works; a bad name or value changes nothing. */
  lemma SemaphoreCreatedIff(a: Arena, name: string, value: Int64, initialized: bool)
    ensures var t := NewSemaphore(a, name, value, initialized);
      && (t.outcome.Ok? <==>
            && (forall i :: 0 <= i < |a.semaphores| ==> a.semaphores[i].name != name)
            && 1 <= value <= 2147483647 && !a.locked && Align(a.next + 32) < 2048 && initialized)
      && (value < 1 || value > 2147483647 || Named(a.semaphores, name) || a.locked ==> t.arena == a)
  {
  }

  /** The same for an atomic integer and 8 bytes. */
  lemma AtomicCreatedIff(a: Arena, name: string)
    ensures var t := NewAtomic(a, name);
      && (t.outcome.Ok? <==>
            && (forall i :: 0 <= i < |a.atomics| ==> a.atomics[i].name != name)
            && !a.locked && Align(a.next + 8) < 2048)
      && (Named(a.atomics, name) || a.locked ==> t.arena == a)
  {
  }

  /** A name, once registered, keeps its offset. */
  lemma {:induction false} RegisteredForGood(a: Arena, rs: seq<Request>)
    ensures a.semaphores <= ServeAll(a, rs).semaphores
    ensures a.atomics <= ServeAll(a, rs).atomics
    decreases |rs|
  {
    if rs != [] {
      FailureLeavesRegistries(a, rs[0]);
      RegisteredForGood(Serve(a, rs[0]).arena, rs[1..]);
    }
  }

  // ---------- capacity ----------

  function TotalAligned(sizes: seq<nat>): nat {
    if sizes == [] then 0 else Align(sizes[0]) + TotalAligned(sizes[1..])
  }

  function AllocateAll(a: Arena, sizes: seq<nat>): Arena
    decreases |sizes|
  {
    if sizes == [] then a else AllocateAll(Allocate(a, sizes[0]).arena, sizes[1..])
  }

  lemma {:induction false} OffsetIsTotal(a: Arena, sizes: seq<nat>)
    requires !a.locked && a.next % ALIGNMENT == 0
    ensures AllocateAll(a, sizes) == a.(next := a.next + TotalAligned(sizes))
    ensures (a.next + TotalAligned(sizes)) % ALIGNMENT == 0
    decreases |sizes|
  {
    if sizes != [] {
      AlignFromAligned(a.next, sizes[0]);
      OffsetIsTotal(Allocate(a, sizes[0]).arena, sizes[1..]);
    }
  }

  /** An allocation succeeds exactly when 16 plus the aligned sizes of
      everything asked for so far, itself included, stays below 2048. */
  lemma ExactCapacity(sizes: seq<nat>, size: nat)
    ensures Allocate(AllocateAll(FRESH, sizes), size).outcome.Ok?
            <==> 16 + TotalAligned(sizes) + Align(size) < 2048
  {
    OffsetIsTotal(FRESH, sizes);
    AlignFromAligned(FIRST_USER_OFF + TotalAligned(sizes), size);
  }

  /** Once the segment is exhausted it stays so: whatever is asked for later,
      nothing more is handed out. */
  lemma {:induction false} ExhaustionIsSticky(a: Arena, rs: seq<Request>)
    requires a.next >= STATUS_OFF
    ensures GrantedAll(a, rs) == [] && ServeAll(a, rs).next >= STATUS_OFF
    decreases |rs|
  {
    if rs != [] {
      ExhaustionIsSticky(Serve(a, rs[0]).arena, rs[1..]);
    }
  }

  /** Once one request fails for lack of room, every later one is refused. */
  lemma OneRefusalIsFinal(a: Arena, r: Request, rs: seq<Request>)
    requires Serve(a, r).outcome == OutOfRoom
    ensures GrantedAll(Serve(a, r).arena, rs) == []
  {
    ExhaustionIsSticky(Serve(a, r).arena, rs);
  }

  /** The names asked for are new, the values are allowed, sem_init() works. */
  ghost predicate WellAsked(a: Arena, rs: seq<Request>) {
    && (forall i :: 0 <= i < |rs| ==>
          match rs[i]
          case Semaphore(name, value, initialized) => 0 < value <= 2147483647 && initialized && !Named(a.semaphores, name)
          case Atomic(name) => !Named(a.atomics, name)
          case _ => false)
    && (forall i, j :: 0 <= i < j < |rs| && rs[i].Semaphore? && rs[j].Semaphore? ==> rs[i].name != rs[j].name)
    && (forall i, j :: 0 <= i < j < |rs| && rs[i].Atomic? && rs[j].Atomic? ==> rs[i].name != rs[j].name)
  }

  function Atomics(rs: seq<Request>): nat {
    if rs == [] then 0 else (if rs[0].Atomic? then 1 else 0) + Atomics(rs[1..])
  }

  function Semaphores(rs: seq<Request>): nat {
    if rs == [] then 0 else (if rs[0].Semaphore? then 1 else 0) + Semaphores(rs[1..])
  }

  lemma WellAskedRest(a: Arena, rs: seq<Request>)
    requires WellAsked(a, rs) && rs != []
    ensures WellAsked(Serve(a, rs[0]).arena, rs[1..])
  {
  }

  lemma {:induction false} CreationsFit(a: Arena, rs: seq<Request>)
    requires !a.locked && a.next % ALIGNMENT == 0 && a.next < STATUS_OFF && WellAsked(a, rs)
    ensures |GrantedAll(a, rs)| == |rs| <==> a.next + 16 * Atomics(rs) + 32 * Semaphores(rs) < STATUS_OFF
    ensures |GrantedAll(a, rs)| <= |rs|
    decreases |rs|
  {
    if rs != [] {
      WellAskedRest(a, rs);
      var b := Serve(a, rs[0]).arena;
      AlignFromAligned(a.next, SizeOf(rs[0]));
      if b.next < STATUS_OFF {
        CreationsFit(b, rs[1..]);
      } else {
        ExhaustionIsSticky(b, rs[1..]);
      }
    }
  }

  /** From a fresh segment, creating `a` atomics and `s` semaphores with new
      names and allowed values all succeed exactly when a + 2s <= 126. */
  lemma SegmentHolds126(rs: seq<Request>)
    requires WellAsked(FRESH, rs)
    ensures |GrantedAll(FRESH, rs)| == |rs| <==> Atomics(rs) + 2 * Semaphores(rs) <= 126
  {
    CreationsFit(FRESH, rs);
  }

  // ---------- size_t ----------

  /** SHMEMALIGN(next + size) as size_t arithmetic computes it. */
  function MachineNext(next: nat, size: nat): nat {
    Align((next + size) % TWO_TO_64) % TWO_TO_64
  }

  /** The machine's offset is the model's exactly when the model's fits. */
  lemma MachineAgreesIff(next: nat, size: nat)
    requires next < TWO_TO_64 && size < TWO_TO_64
    ensures MachineNext(next, size) == Align(next + size) <==> Align(next + size) < TWO_TO_64
  {
  }

  /** What the machine hands out for `sizes` asked for one after the other. */
  function MachineGrants(next: nat, sizes: seq<nat>): seq<Region>
    decreases |sizes|
  {
    if sizes == [] then []
    else
      var n := MachineNext(next, sizes[0]);
      (if n >= STATUS_OFF then [] else [Region(next, sizes[0])]) + MachineGrants(n, sizes[1..])
  }

  function Raws(sizes: seq<nat>): seq<Request> {
    seq(|sizes|, i requires 0 <= i < |sizes| => Raw(sizes[i]))
  }

  /** As long as everything asked for fits in 64 bits, the machine hands out
      exactly the model's regions, so they are separate too. */
  lemma {:induction false} MachineSeparates(next: nat, sizes: seq<nat>)
    requires next % ALIGNMENT == 0 && FIRST_USER_OFF <= next && next + TotalAligned(sizes) < TWO_TO_64
    ensures MachineGrants(next, sizes) == GrantedAll(Arena(false, next, [], []), Raws(sizes))
    ensures Separate(MachineGrants(next, sizes))
    decreases |sizes|
  {
    var a := Arena(false, next, [], []);
    AllocatorSeparates(a, Raws(sizes));
    if sizes != [] {
      AlignFromAligned(next, sizes[0]);
      MachineAgreesIff(next, sizes[0]);
      MachineSeparates(Align(next + sizes[0]), sizes[1..]);
      assert Raws(sizes)[1..] == Raws(sizes[1..]);
      assert Raws(sizes)[0] == Raw(sizes[0]);
    }
  }

  /** One request of 2^64 - 16 bytes from a fresh segment wraps the offset to
      zero, which the bound check lets through. */
  lemma WrapDefeatsTheBound()
    ensures MachineNext(FIRST_USER_OFF, TWO_TO_64 - 16) == 0 < STATUS_OFF
    ensures Allocate(FRESH, TWO_TO_64 - 16).outcome == OutOfRoom
  {
  }
}
