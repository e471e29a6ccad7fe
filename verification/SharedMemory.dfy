/** BPSGISharedMemory over a byte segment (src/shmem.cpp:82-205), with the
    accessors of src/bladepsgi.cpp:763-767 and the atomic operations of
    src/perl_interpreter_sea_bridge.cpp:134-150. Every operation is proved to
    be one operation on `Record`, in which the parts of the segment are
    separate fields. */
module SharedMemory {
  import opened Segment
  import opened Allocator

  /** What the segment holds, as the program's users see it. */
  datatype Record = Record(
    exit: Byte,
    counter: Int64,
    status: seq<Byte>,
    atomics: seq<Int64>,
    semaphores: seq<seq<Byte>>)

  ghost predicate InSegment(mem: seq<Byte>, a: Arena) {
    |mem| == SEGMENT_SIZE && Sound(a)
  }

  function AtomicAt(mem: seq<Byte>, off: nat): Int64
    requires off + WORD <= |mem|
  {
    Decode(Load(mem, off, WORD))
  }

  ghost function View(mem: seq<Byte>, a: Arena): Record
    requires InSegment(mem, a)
  {
    Record(
      mem[EXIT_FLAG_OFF],
      AtomicAt(mem, COUNTER_OFF),
      mem[STATUS_OFF..],
      seq(|a.atomics|, i requires 0 <= i < |a.atomics| =>
        assert InUserArea(AtomicRegion(a.atomics[i])); AtomicAt(mem, a.atomics[i].offset)),
      seq(|a.semaphores|, i requires 0 <= i < |a.semaphores| =>
        assert InUserArea(SemRegion(a.semaphores[i])); Load(mem, a.semaphores[i].offset, SEM_SIZE)))
  }

  // ---------- stores, one part at a time ----------

  /** `off` and `n` bytes from it lie outside every registered region. */
  ghost predicate Unclaimed(a: Arena, off: nat, n: nat) {
    && (forall i :: 0 <= i < |a.atomics| ==> Apart(AtomicRegion(a.atomics[i]), Region(off, n)))
    && (forall i :: 0 <= i < |a.semaphores| ==> Apart(SemRegion(a.semaphores[i]), Region(off, n)))
  }

  lemma UnclaimedStore(mem: seq<Byte>, a: Arena, off: nat, bs: seq<Byte>)
    requires InSegment(mem, a) && off + |bs| <= SEGMENT_SIZE && Unclaimed(a, off, |bs|)
    ensures View(Store(mem, off, bs), a).atomics == View(mem, a).atomics
    ensures View(Store(mem, off, bs), a).semaphores == View(mem, a).semaphores
  {
    forall i | 0 <= i < |a.atomics|
      ensures View(Store(mem, off, bs), a).atomics[i] == View(mem, a).atomics[i]
    {
      assert Apart(AtomicRegion(a.atomics[i]), Region(off, |bs|)) && InUserArea(AtomicRegion(a.atomics[i]));
      LoadElsewhere(mem, off, bs, a.atomics[i].offset, WORD);
    }
    forall i | 0 <= i < |a.semaphores|
      ensures View(Store(mem, off, bs), a).semaphores[i] == View(mem, a).semaphores[i]
    {
      assert Apart(SemRegion(a.semaphores[i]), Region(off, |bs|)) && InUserArea(SemRegion(a.semaphores[i]));
      LoadElsewhere(mem, off, bs, a.semaphores[i].offset, SEM_SIZE);
    }
  }

  /** A store into the user area leaves header and status array alone. */
  lemma UserStore(mem: seq<Byte>, a: Arena, off: nat, bs: seq<Byte>)
    requires InSegment(mem, a) && InUserArea(Region(off, |bs|))
    ensures var r, t := View(mem, a), View(Store(mem, off, bs), a);
      t.exit == r.exit && t.counter == r.counter && t.status == r.status
  {
    LoadElsewhere(mem, off, bs, EXIT_FLAG_OFF, 1);
    LoadElsewhere(mem, off, bs, COUNTER_OFF, WORD);
    LoadElsewhere(mem, off, bs, STATUS_OFF, STATUS_SLOTS);
    var m := Store(mem, off, bs);
    assert m[STATUS_OFF..] == Load(m, STATUS_OFF, STATUS_SLOTS);
    assert mem[STATUS_OFF..] == Load(mem, STATUS_OFF, STATUS_SLOTS);
    assert Load(m, EXIT_FLAG_OFF, 1)[0] == m[EXIT_FLAG_OFF] && Load(mem, EXIT_FLAG_OFF, 1)[0] == mem[EXIT_FLAG_OFF];
  }

  lemma StoreExit(mem: seq<Byte>, a: Arena, b: Byte)
    requires InSegment(mem, a)
    ensures View(Store(mem, EXIT_FLAG_OFF, [b]), a) == View(mem, a).(exit := b)
  {
    UnclaimedStore(mem, a, EXIT_FLAG_OFF, [b]);
    LoadElsewhere(mem, EXIT_FLAG_OFF, [b], COUNTER_OFF, WORD);
  }

  lemma StoreCounter(mem: seq<Byte>, a: Arena, v: Int64)
    requires InSegment(mem, a)
    ensures View(Store(mem, COUNTER_OFF, Encode(v)), a) == View(mem, a).(counter := v)
  {
    UnclaimedStore(mem, a, COUNTER_OFF, Encode(v));
    LoadStored(mem, COUNTER_OFF, Encode(v));
    DecodeEncode(v);
  }

  lemma StoreStatus(mem: seq<Byte>, a: Arena, w: nat, b: Byte)
    requires InSegment(mem, a) && w < STATUS_SLOTS
    ensures View(Store(mem, STATUS_OFF + w, [b]), a) == View(mem, a).(status := View(mem, a).status[w := b])
  {
    UnclaimedStore(mem, a, STATUS_OFF + w, [b]);
    LoadElsewhere(mem, STATUS_OFF + w, [b], COUNTER_OFF, WORD);
  }

  lemma StoreAtomic(mem: seq<Byte>, a: Arena, k: nat, v: Int64)
    requires InSegment(mem, a) && k < |a.atomics|
    ensures InUserArea(AtomicRegion(a.atomics[k]))
    ensures View(Store(mem, a.atomics[k].offset, Encode(v)), a)
            == View(mem, a).(atomics := View(mem, a).atomics[k := v])
  {
    var off, bs := a.atomics[k].offset, Encode(v);
    var m := Store(mem, off, bs);
    UserStore(mem, a, off, bs);
    forall i | 0 <= i < |a.atomics|
      ensures View(m, a).atomics[i] == View(mem, a).atomics[k := v][i]
    {
      if i == k {
        LoadStored(mem, off, bs);
        DecodeEncode(v);
      } else {
        assert Apart(AtomicRegion(a.atomics[i]), AtomicRegion(a.atomics[k]));
        LoadElsewhere(mem, off, bs, a.atomics[i].offset, WORD);
      }
    }
    forall i | 0 <= i < |a.semaphores|
      ensures View(m, a).semaphores[i] == View(mem, a).semaphores[i]
    {
      assert Apart(SemRegion(a.semaphores[i]), AtomicRegion(a.atomics[k]));
      LoadElsewhere(mem, off, bs, a.semaphores[i].offset, SEM_SIZE);
    }
    assert View(m, a).semaphores == View(mem, a).semaphores;
    assert View(m, a).atomics == View(mem, a).atomics[k := v];
  }

  /** Whatever libc writes into a semaphore stays in that semaphore. */
  lemma StoreSemaphore(mem: seq<Byte>, a: Arena, k: nat, bs: seq<Byte>)
    requires InSegment(mem, a) && k < |a.semaphores| && |bs| == SEM_SIZE
    ensures InUserArea(SemRegion(a.semaphores[k]))
    ensures View(Store(mem, a.semaphores[k].offset, bs), a)
            == View(mem, a).(semaphores := View(mem, a).semaphores[k := bs])
  {
    var off := a.semaphores[k].offset;
    var m := Store(mem, off, bs);
    UserStore(mem, a, off, bs);
    forall i | 0 <= i < |a.semaphores|
      ensures View(m, a).semaphores[i] == View(mem, a).semaphores[k := bs][i]
    {
      if i == k {
        LoadStored(mem, off, bs);
      } else {
        assert Apart(SemRegion(a.semaphores[i]), SemRegion(a.semaphores[k]));
        LoadElsewhere(mem, off, bs, a.semaphores[i].offset, SEM_SIZE);
      }
    }
    forall i | 0 <= i < |a.atomics|
      ensures View(m, a).atomics[i] == View(mem, a).atomics[i]
    {
      assert Apart(SemRegion(a.semaphores[k]), AtomicRegion(a.atomics[i]));
      LoadElsewhere(mem, off, bs, a.atomics[i].offset, WORD);
    }
    assert View(m, a).semaphores == View(mem, a).semaphores[k := bs];
    assert View(m, a).atomics == View(mem, a).atomics;
  }

  // ---------- creating handles ----------

  /** Registering an atomic integer at a free place and storing its value. */
  lemma RegisterAtomic(mem: seq<Byte>, a: Arena, b: Arena, h: Handle, v: Int64)
    requires InSegment(mem, a) && Sound(b)
    requires b == a.(next := b.next, atomics := a.atomics + [h])
    ensures InUserArea(AtomicRegion(h))
    ensures View(Store(mem, h.offset, Encode(v)), b) == View(mem, a).(atomics := View(mem, a).atomics + [v])
  {
    var n := |a.atomics|;
    assert b.atomics[n] == h;
    assert forall i :: 0 <= i < n ==> b.atomics[i] == a.atomics[i];
    var m := Store(mem, h.offset, Encode(v));
    assert View(mem, b).atomics[..n] == View(mem, a).atomics;
    StoreAtomic(mem, b, n, v);
    assert View(m, b).atomics == View(mem, a).atomics + [v];
  }

  lemma RegisterSemaphore(mem: seq<Byte>, a: Arena, b: Arena, h: Handle, bs: seq<Byte>)
    requires InSegment(mem, a) && Sound(b) && |bs| == SEM_SIZE
    requires b == a.(next := b.next, semaphores := a.semaphores + [h])
    ensures InUserArea(SemRegion(h))
    ensures View(Store(mem, h.offset, bs), b) == View(mem, a).(semaphores := View(mem, a).semaphores + [bs])
  {
    var n := |a.semaphores|;
    assert b.semaphores[n] == h;
    assert forall i :: 0 <= i < n ==> b.semaphores[i] == a.semaphores[i];
    var m := Store(mem, h.offset, bs);
    assert View(mem, b).semaphores[..n] == View(mem, a).semaphores;
    StoreSemaphore(mem, b, n, bs);
    assert View(m, b).semaphores == View(mem, a).semaphores + [bs];
  }

  /** A store into a region handed out but not registered is not seen. */
  lemma UnregisteredStore(mem: seq<Byte>, a: Arena, b: Arena, size: nat, bs: seq<Byte>)
    requires InSegment(mem, a) && Allocate(a, size) == Step(b, Ok(a.next)) && |bs| <= size
    ensures Sound(b) && a.next + |bs| <= SEGMENT_SIZE
    ensures View(Store(mem, a.next, bs), b) == View(mem, a)
  {
    assert Serve(a, Raw(size)) == Allocate(a, size);
    ServeKeepsSound(a, Raw(size));
    ServeMovesUp(a, Raw(size));
    forall i | 0 <= i < |a.atomics|
      ensures Apart(AtomicRegion(a.atomics[i]), Region(a.next, |bs|))
    {
    }
    UnclaimedStore(mem, a, a.next, bs);
    UserStore(mem, a, a.next, bs);
    assert View(Store(mem, a.next, bs), b) == View(Store(mem, a.next, bs), a);
  }

  // ---------- the operations, on the record ----------

  function SetExit(r: Record): Record { r.(exit := 1) }

  function Increase(r: Record): Record { r.(counter := Wrap(r.counter + 1)) }

  function SetStatus(r: Record, w: nat, b: Byte): Record
    requires w < |r.status|
  {
    r.(status := r.status[w := b])
  }

  function SetAtomic(r: Record, k: nat, v: Int64): Record
    requires k < |r.atomics|
  {
    r.(atomics := r.atomics[k := v])
  }

  lemma DecodeZeros(bs: seq<Byte>)
    requires |bs| == WORD && forall i :: 0 <= i < |bs| ==> bs[i] == 0
    ensures Decode(bs) == 0
  {
    ValueOfZeros(bs);
  }

  lemma {:induction false} ValueOfZeros(bs: seq<Byte>)
    requires forall i :: 0 <= i < |bs| ==> bs[i] == 0
    ensures Value(bs) == 0
  {
    if bs != [] { ValueOfZeros(bs[1..]); }
  }

  // ---------- the object ----------

  class SharedSegment {
    const segment: array<Byte>
    var locked: bool
    var next: nat
    var semaphores: seq<Handle>
    var atomics: seq<Handle>

    function Layout(): Arena
      reads this
    {
      Arena(locked, next, semaphores, atomics)
    }

    ghost predicate Valid()
      reads this, segment
    {
      segment.Length == SEGMENT_SIZE && Sound(Layout())
    }

    ghost function Contents(): Record
      requires Valid()
      reads this, segment
    {
      View(segment[..], Layout())
    }

    /** The constructor clears the whole segment. */
    constructor ()
      ensures Valid() && fresh(segment) && Layout() == FRESH && segment.Length == 4096 && next == 16
      ensures Contents() == Record(0, 0, seq(STATUS_SLOTS, _ => 0), [], [])
    {
      segment := new Byte[SEGMENT_SIZE](_ => 0);
      locked, next, semaphores, atomics := false, FIRST_USER_OFF, [], [];
      new;
      FreshIsSound();
      DecodeZeros(Load(segment[..], COUNTER_OFF, WORD));
      assert segment[..][STATUS_OFF..] == seq(STATUS_SLOTS, _ => 0);
    }

    /** One atomic store: the bytes change all at once. */
    method Write(off: nat, bs: seq<Byte>)
      requires off + |bs| <= segment.Length
      modifies segment
      ensures segment[..] == Store(old(segment[..]), off, bs)
    {
      forall i | 0 <= i < |bs| { segment[off + i] := bs[i]; }
    }

    method LockAllocations() returns (ok: bool)
      requires Valid()
      modifies this`locked
      ensures Valid() && locked && Layout() == old(Layout()).(locked := true) && ok == !old(locked)
      ensures Contents() == old(Contents())
    {
      ok := !locked;
      locked := true;
    }

    method AllocateUserShmem(size: nat) returns (o: Outcome)
      requires Valid()
      modifies this`next
      ensures Valid() && Step(Layout(), o) == Allocate(old(Layout()), size)
      ensures Contents() == old(Contents())
    {
      ServeKeepsSound(Layout(), Raw(size));
      if locked { return Locked; }
      var mem := next;
      next := Align(next + size);
      if next >= STATUS_OFF { return OutOfRoom; }
      return Ok(mem);
    }

    method IsNamed(hs: seq<Handle>, name: string) returns (found: bool)
      ensures found <==> Named(hs, name)
    {
      for i := 0 to |hs|
        invariant forall j :: 0 <= j < i ==> hs[j].name != name
      {
        if hs[i].name == name { return true; }
      }
      return false;
    }

    /** `image` is what sem_init() leaves in the region when it succeeds. */
    method NewSemaphore(name: string, value: Int64, initialized: bool, image: seq<Byte>) returns (o: Outcome)
      requires Valid() && |image| == SEM_SIZE
      modifies this`next, this`semaphores, segment
      ensures Valid() && Step(Layout(), o) == Allocator.NewSemaphore(old(Layout()), name, value, initialized)
      ensures Contents() ==
        if o.Ok? then old(Contents()).(semaphores := old(Contents()).semaphores + [image]) else old(Contents())
    {
      ServeKeepsSound(Layout(), Request.Semaphore(name, value, initialized));
      ghost var a, mem := Layout(), segment[..];
      var taken := IsNamed(semaphores, name);
      if taken { return NameTaken; }
      if value <= 0 || value > 2147483647 { return BadValue; }
      o := AllocateUserShmem(SEM_SIZE);
      if !o.Ok? { return; }
      UnregisteredStore(mem, a, Layout(), SEM_SIZE, seq(SEM_SIZE, _ => 0));
      Write(o.offset, seq(SEM_SIZE, _ => 0));
      if !initialized { return SyscallFailed; }
      ghost var zeroed, b := segment[..], Layout();
      Write(o.offset, image);
      semaphores := semaphores + [Handle(name, o.offset)];
      RegisterSemaphore(zeroed, b, Layout(), Handle(name, o.offset), image);
    }

    method NewAtomicInt64(name: string, value: Int64) returns (o: Outcome)
      requires Valid()
      modifies this`next, this`atomics, segment
      ensures o.Ok? ==> o.offset + 8 <= segment.Length && segment[o.offset..o.offset + 8] == Encode(value)
      ensures Valid() && Step(Layout(), o) == NewAtomic(old(Layout()), name)
      ensures Contents() ==
        if o.Ok? then old(Contents()).(atomics := old(Contents()).atomics + [value]) else old(Contents())
    {
      ServeKeepsSound(Layout(), Request.Atomic(name));
      ghost var mem := segment[..];
      var taken := IsNamed(atomics, name);
      if taken { return NameTaken; }
      o := AllocateUserShmem(WORD);
      if !o.Ok? { return; }
      ghost var b := Layout();
      atomics := atomics + [Handle(name, o.offset)];
      RegisterAtomic(mem, b, Layout(), Handle(name, o.offset), value);
      Write(o.offset, Encode(value));
    }

    method SetShouldExitImmediately() returns (first: bool)
      requires Valid()
      modifies segment
      ensures Valid() && Contents() == SetExit(old(Contents()))
      ensures first <==> old(Contents()).exit == 0
      ensures segment[0] == 1 && segment[1..] == old(segment[1..])
    {
      first := segment[EXIT_FLAG_OFF] == 0;
      StoreExit(segment[..], Layout(), 1);
      Write(EXIT_FLAG_OFF, [1]);
    }

    method ShouldExitImmediately() returns (b: bool)
      requires Valid()
      ensures b <==> Contents().exit == 1
      ensures b <==> segment[0] == 1
    {
      b := segment[EXIT_FLAG_OFF] == 1;
    }

    method IncreaseRequestCounter() returns (before: Int64)
      requires Valid()
      modifies segment
      ensures Valid() && Contents() == Increase(old(Contents()))
      ensures before == old(Contents()).counter
      ensures segment[8..16] == Encode(Wrap(before + 1))
    {
      before := AtomicAt(segment[..], COUNTER_OFF);
      StoreCounter(segment[..], Layout(), Wrap(before + 1));
      Write(COUNTER_OFF, Encode(Wrap(before + 1)));
    }

    method ReadRequestCounter() returns (v: Int64)
      requires Valid()
      ensures v == Contents().counter
      ensures v == Decode(segment[8..16])
    {
      v := AtomicAt(segment[..], COUNTER_OFF);
    }

    /** The worker number is not checked: from STATUS_SLOTS on the byte goes
        to whatever follows the segment. */
    method SetWorkerStatus(w: nat, b: Byte) returns (inside: bool)
      requires Valid()
      modifies segment
      ensures inside <==> w < 2048
      ensures inside ==> segment[2048 + w] == b && segment[..2048 + w] == old(segment[..2048 + w])
      ensures Valid() && Contents() == if inside then SetStatus(old(Contents()), w, b) else old(Contents())
    {
      inside := STATUS_OFF + w < SEGMENT_SIZE;
      if inside {
        StoreStatus(segment[..], Layout(), w, b);
        Write(STATUS_OFF + w, [b]);
      }
    }

    /** `beyond` is what memory holds after the segment. */
    method GetWorkerStatus(w: nat, beyond: seq<Byte>) returns (b: Byte)
      requires Valid() && w < STATUS_SLOTS + |beyond|
      ensures b == (Contents().status + beyond)[w]
      ensures w < 2048 ==> b == segment[2048 + w]
    {
      var off := STATUS_OFF + w;
      b := if off < SEGMENT_SIZE then segment[off] else beyond[off - SEGMENT_SIZE];
    }

    /** Copies the bytes one by one, past the end of the segment if there are
        more workers than slots. */
    method GetAllWorkerStatuses(nworkers: nat, beyond: seq<Byte>, out: array<Byte>)
      requires Valid() && nworkers <= STATUS_SLOTS + |beyond| && out.Length == nworkers && out != segment
      modifies out
      ensures Valid() && Contents() == old(Contents())
      ensures out[..] == (Contents().status + beyond)[..nworkers]
    {
      for i := 0 to nworkers
        invariant segment[..] == old(segment[..])
        invariant forall j :: 0 <= j < i ==> out[j] == (Contents().status + beyond)[j]
      {
        out[i] := GetWorkerStatus(i, beyond);
      }
    }

    method AtomicFetchAdd(k: nat, value: Int64) returns (before: Int64)
      requires Valid() && k < |atomics|
      modifies segment
      ensures Valid() && Contents() == SetAtomic(old(Contents()), k, Wrap(old(Contents()).atomics[k] + value))
      ensures before == old(Contents()).atomics[k]
    {
      assert InUserArea(AtomicRegion(atomics[k]));
      before := AtomicAt(segment[..], atomics[k].offset);
      StoreAtomic(segment[..], Layout(), k, Wrap(before + value));
      Write(atomics[k].offset, Encode(Wrap(before + value)));
    }

    method AtomicLoad(k: nat) returns (v: Int64)
      requires Valid() && k < |atomics|
      ensures v == Contents().atomics[k]
    {
      assert InUserArea(AtomicRegion(atomics[k]));
      v := AtomicAt(segment[..], atomics[k].offset);
    }

    method AtomicStore(k: nat, value: Int64)
      requires Valid() && k < |atomics|
      modifies segment
      ensures Valid() && Contents() == SetAtomic(old(Contents()), k, value)
    {
      StoreAtomic(segment[..], Layout(), k, value);
      Write(atomics[k].offset, Encode(value));
    }
  }
}
