/** The workers' main loops, the signals they get and the monitor's status
    scan, interleaved in every way (src/worker.cpp:9-78;
    src/monitoring.cpp:84-116; src/shmem.cpp:163-205). The shared state is the
    record that the byte segment refines (module SharedMemory). The callback is
    a step that returns or throws, and may set its own status and touch shared
    atomics before it does. */
module WorkerPool {
  import opened Segment
  import opened SharedMemory

  /** Where a worker is in MainLoopIteration. */
  datatype Pc =
    | CheckExit      // worker.cpp:45
    | CheckTerm      // worker.cpp:47
    | SetIdle        // worker.cpp:50
    | Calling        // worker.cpp:52
    | Counting       // worker.cpp:54
    | Gone

  /** terminated: _worker_terminated; returned: callbacks that returned
      normally; counted: increments made; `lost`: died between the two. */
  datatype Worker = Worker(pc: Pc, terminated: bool, returned: nat, counted: nat, lost: bool)

  datatype Pool = Pool(shm: Record, workers: seq<Worker>, scan: seq<Byte>)

  datatype Action =
    | Advance(i: nat)
    | Returns(i: nat)
    | Throws(i: nat)
    | OwnStatus(i: nat, b: Byte)
    | UserAtomic(i: nat, k: nat, v: Int64)
    | Term(i: nat)
    | Dies(i: nat)
    | RaiseExit
    | ScanStart
    | ScanRead

  const IDLE: Byte := 95   // '_'

  function Init(shm: Record, n: nat): Pool {
    Pool(shm, seq(n, _ => Worker(CheckExit, false, 0, 0, false)), [])
  }

  predicate Can(s: Pool, a: Action) {
    match a
    case Advance(i) =>
      && i < |s.workers| && !s.workers[i].pc.Calling? && !s.workers[i].pc.Gone?
      && (s.workers[i].pc.SetIdle? ==> i < |s.shm.status|)
    case Returns(i) => i < |s.workers| && s.workers[i].pc.Calling?
    case Throws(i) => i < |s.workers| && s.workers[i].pc.Calling?
    case OwnStatus(i, _) => i < |s.workers| && i < |s.shm.status| && s.workers[i].pc.Calling?
    case UserAtomic(i, k, _) => i < |s.workers| && s.workers[i].pc.Calling? && k < |s.shm.atomics|
    case Term(i) => i < |s.workers| && !s.workers[i].pc.Gone?
    case Dies(i) => i < |s.workers| && !s.workers[i].pc.Gone?
    case RaiseExit => true
    case ScanStart => true
    case ScanRead => |s.scan| < |s.workers| && |s.scan| < |s.shm.status|
  }

  function Put(s: Pool, i: nat, w: Worker): Pool
    requires i < |s.workers|
  {
    s.(workers := s.workers[i := w])
  }

  function Do(s: Pool, a: Action): Pool
    requires Can(s, a)
  {
    match a
    case Advance(i) =>
      var w := s.workers[i];
      (match w.pc
       case CheckExit => Put(s, i, w.(pc := if s.shm.exit == 1 then Gone else CheckTerm))
       case CheckTerm => Put(s, i, w.(pc := if w.terminated then Gone else SetIdle))
       case SetIdle => Put(s, i, w.(pc := Calling)).(shm := SetStatus(s.shm, i, IDLE))
       case Counting => Put(s, i, w.(pc := CheckExit, counted := w.counted + 1)).(shm := Increase(s.shm)))
    case Returns(i) => var w := s.workers[i]; Put(s, i, w.(pc := Counting, returned := w.returned + 1))
    case Throws(i) => Put(s, i, s.workers[i].(pc := Gone))
    case OwnStatus(i, b) => s.(shm := SetStatus(s.shm, i, b))
    case UserAtomic(i, k, v) => s.(shm := SetAtomic(s.shm, k, v))
    case Term(i) => Put(s, i, s.workers[i].(terminated := true))
    case Dies(i) => var w := s.workers[i]; Put(s, i, w.(pc := Gone, lost := w.pc.Counting?))
    case RaiseExit => s.(shm := SetExit(s.shm))
    case ScanStart => s.(scan := [])
    case ScanRead => s.(scan := s.scan + [s.shm.status[|s.scan|]])
  }

  predicate Runs(s: Pool, acts: seq<Action>)
    decreases |acts|
  {
    acts == [] || (Can(s, acts[0]) && Runs(Do(s, acts[0]), acts[1..]))
  }

  function After(s: Pool, acts: seq<Action>): Pool
    requires Runs(s, acts)
    decreases |acts|
  {
    if acts == [] then s else After(Do(s, acts[0]), acts[1..])
  }

  /** Nobody is held up: a worker that is there can take its next step, its
      callback can return, throw, set its status or store to an atomic, and it
      may get a SIGTERM or die anywhere; the exit flag can be raised and a scan
      begun at any time. */
  lemma NobodyIsHeldUp(s: Pool, i: nat, k: nat, b: Byte, v: Int64)
    requires i < |s.workers| <= |s.shm.status| && s.workers[i].pc != Gone
    ensures s.workers[i].pc != Calling ==> Can(s, Advance(i))
    ensures s.workers[i].pc == Calling ==>
      Can(s, Returns(i)) && Can(s, Throws(i)) && Can(s, OwnStatus(i, b)) && (k < |s.shm.atomics| ==> Can(s, UserAtomic(i, k, v)))
    ensures Can(s, Term(i)) && Do(s, Term(i)) == Put(s, i, s.workers[i].(terminated := true))
    ensures Can(s, Dies(i)) && Do(s, Dies(i)).workers[i].pc == Gone
    ensures Can(s, RaiseExit) && Do(s, RaiseExit).shm == s.shm.(exit := 1)
    ensures Can(s, ScanStart) && Do(s, ScanStart).scan == []
  {
  }

  // ---------- sums ----------

  function Sum(xs: seq<nat>): nat {
    if xs == [] then 0 else xs[0] + Sum(xs[1..])
  }

  lemma {:induction false} SumUpdate(xs: seq<nat>, i: nat, v: nat)
    requires i < |xs|
    ensures Sum(xs[i := v]) + xs[i] == Sum(xs) + v
  {
    if i > 0 {
      SumUpdate(xs[1..], i - 1, v);
      assert xs[i := v][1..] == xs[1..][i - 1 := v];
    } else {
      assert xs[i := v][1..] == xs[1..];
    }
  }

  function CountedOf(ws: seq<Worker>): seq<nat> { seq(|ws|, i requires 0 <= i < |ws| => ws[i].counted) }
  function ReturnedOf(ws: seq<Worker>): seq<nat> { seq(|ws|, i requires 0 <= i < |ws| => ws[i].returned) }

  /** A callback has returned and will not, or not yet, be counted. */
  predicate Uncounted(w: Worker) { w.pc.Counting? || w.lost }

  function GapsOf(ws: seq<Worker>): seq<nat> {
    seq(|ws|, i requires 0 <= i < |ws| => if Uncounted(ws[i]) then 1 else 0)
  }

  function Counted(s: Pool): nat { Sum(CountedOf(s.workers)) }
  function Returned(s: Pool): nat { Sum(ReturnedOf(s.workers)) }
  function Gaps(s: Pool): nat { Sum(GapsOf(s.workers)) }

  lemma PutSums(ws: seq<Worker>, i: nat, w: Worker)
    requires i < |ws|
    ensures Sum(CountedOf(ws[i := w])) + ws[i].counted == Sum(CountedOf(ws)) + w.counted
    ensures Sum(ReturnedOf(ws[i := w])) + ws[i].returned == Sum(ReturnedOf(ws)) + w.returned
    ensures Sum(GapsOf(ws[i := w])) + (if Uncounted(ws[i]) then 1 else 0)
            == Sum(GapsOf(ws)) + (if Uncounted(w) then 1 else 0)
  {
    SumUpdate(CountedOf(ws), i, w.counted);
    assert CountedOf(ws[i := w]) == CountedOf(ws)[i := w.counted];
    SumUpdate(ReturnedOf(ws), i, w.returned);
    assert ReturnedOf(ws[i := w]) == ReturnedOf(ws)[i := w.returned];
    var g := if Uncounted(w) then 1 else 0;
    SumUpdate(GapsOf(ws), i, g);
    assert GapsOf(ws[i := w]) == GapsOf(ws)[i := g];
  }

  lemma {:induction false} SumZeros(xs: seq<nat>)
    requires forall i :: 0 <= i < |xs| ==> xs[i] == 0
    ensures Sum(xs) == 0
  {
    if xs != [] { SumZeros(xs[1..]); }
  }

  lemma {:induction false} SumAtMost(xs: seq<nat>)
    requires forall i :: 0 <= i < |xs| ==> xs[i] <= 1
    ensures Sum(xs) <= |xs|
  {
    if xs != [] { SumAtMost(xs[1..]); }
  }

  // ---------- conservation ----------

  /** The counter is the number of increments, started from `base`; returned
      callbacks are those counted plus those caught in between. */
  ghost predicate Conserved(s: Pool, base: Int64) {
    && s.shm.counter == Wrap(base + Counted(s))
    && Returned(s) == Counted(s) + Gaps(s)
    && (forall i :: 0 <= i < |s.workers| ==> s.workers[i].lost ==> s.workers[i].pc.Gone?)
  }

  lemma WrapAdds(base: int, n: nat)
    ensures Wrap(Wrap(base + n) + 1) == Wrap(base + (n + 1))
  {
    var m := (base + n) % TWO_TO_64;
    assert (base + n + 1) % TWO_TO_64 == (m + 1) % TWO_TO_64;
    assert (m - TWO_TO_64 + 1) % TWO_TO_64 == (m + 1) % TWO_TO_64;
  }

  /** The worker an action belongs to and what it becomes. */
  predicate OfWorker(a: Action) {
    a.Advance? || a.Returns? || a.Throws? || a.Term? || a.Dies?
  }

  /** The counter moves with the increments, from any state. */
  lemma CounterStep(s: Pool, a: Action, base: int)
    requires Can(s, a) && s.shm.counter == Wrap(base + Counted(s))
    ensures Do(s, a).shm.counter == Wrap(base + Counted(Do(s, a))) && Counted(s) <= Counted(Do(s, a))
  {
    if OfWorker(a) {
      PutSums(s.workers, a.i, Do(s, a).workers[a.i]);
      assert Do(s, a).workers == s.workers[a.i := Do(s, a).workers[a.i]];
      WrapAdds(base, Counted(s));
    }
  }

  lemma {:induction false} CounterRun(s: Pool, acts: seq<Action>, base: int)
    requires Runs(s, acts) && s.shm.counter == Wrap(base + Counted(s))
    ensures After(s, acts).shm.counter == Wrap(base + Counted(After(s, acts)))
    ensures Counted(s) <= Counted(After(s, acts))
    decreases |acts|
  {
    hide Can, Do, Counted, Wrap;
    if acts != [] {
      CounterStep(s, acts[0], base);
      CounterRun(Do(s, acts[0]), acts[1..], base);
    }
  }

  lemma ConservedStep(s: Pool, a: Action, base: Int64)
    requires Can(s, a) && Conserved(s, base)
    ensures Conserved(Do(s, a), base) && |Do(s, a).workers| == |s.workers|
  {
    if OfWorker(a) {
      CounterStep(s, a, base);
      PutSums(s.workers, a.i, Do(s, a).workers[a.i]);
      assert Do(s, a).workers == s.workers[a.i := Do(s, a).workers[a.i]];
    }
  }

  lemma {:induction false} ConservedRun(s: Pool, acts: seq<Action>, base: Int64)
    requires Runs(s, acts) && Conserved(s, base)
    ensures Conserved(After(s, acts), base) && |After(s, acts).workers| == |s.workers|
    decreases |acts|
  {
    hide Can, Do, Conserved;
    if acts != [] {
      ConservedStep(s, acts[0], base);
      ConservedRun(Do(s, acts[0]), acts[1..], base);
    }
  }

  /** In every reachable state the counter is its starting value plus all the
      increments made by all workers (modulo 2^64), and the callbacks returned
      normally exceed the increments by exactly the workers now between return
      and increment or killed there, at most one each. */
  lemma CounterConservation(shm: Record, n: nat, acts: seq<Action>)
    requires Runs(Init(shm, n), acts)
    ensures var t := After(Init(shm, n), acts);
      && t.shm.counter == Wrap(shm.counter + Counted(t))
      && Returned(t) == Counted(t) + Gaps(t)
      && Gaps(t) <= n
  {
    var s := Init(shm, n);
    SumZeros(CountedOf(s.workers));
    SumZeros(ReturnedOf(s.workers));
    SumZeros(GapsOf(s.workers));
    assert Wrap(shm.counter) == shm.counter;
    ConservedRun(s, acts, shm.counter);
    SumAtMost(GapsOf(After(s, acts).workers));
  }

  // ---------- bounded work after the stop decision ----------

  /** Worker `i` has been told to stop: by the exit flag or by its own SIGTERM. */
  predicate ToldToStop(s: Pool, i: nat)
    requires i < |s.workers|
  {
    s.shm.exit == 1 || s.workers[i].terminated
  }

  /** Increments a worker told to stop may still make. */
  function OwedCount(w: Worker): nat {
    if w.pc.SetIdle? || w.pc.Calling? || w.pc.Counting? || (w.pc.CheckTerm? && !w.terminated) then 1 else 0
  }

  /** Callbacks a worker told to stop may still see return. */
  function OwedReturn(w: Worker): nat {
    if w.pc.SetIdle? || w.pc.Calling? || (w.pc.CheckTerm? && !w.terminated) then 1 else 0
  }

  lemma OwedStep(s: Pool, a: Action, i: nat)
    requires Can(s, a) && i < |s.workers| && ToldToStop(s, i)
    ensures var w, v := s.workers[i], Do(s, a).workers[i];
      && |Do(s, a).workers| == |s.workers|
      && ToldToStop(Do(s, a), i)
      && v.counted + OwedCount(v) <= w.counted + OwedCount(w)
      && v.returned + OwedReturn(v) <= w.returned + OwedReturn(w)
      && w.counted <= v.counted && w.returned <= v.returned
  {
  }

  /** From the moment a worker is told to stop, in every continuation, it
      finishes at most one more callback and makes at most one more increment,
      and neither if it is already at the checks that end it. */
  lemma {:induction false} AtMostOneMore(s: Pool, acts: seq<Action>, i: nat)
    requires Runs(s, acts) && i < |s.workers| && ToldToStop(s, i)
    ensures |After(s, acts).workers| == |s.workers|
    ensures var w, v := s.workers[i], After(s, acts).workers[i];
      && w.counted <= v.counted <= w.counted + OwedCount(w)
      && w.returned <= v.returned <= w.returned + OwedReturn(w)
    decreases |acts|
  {
    hide Can, Do, OwedCount, OwedReturn;
    if acts != [] {
      OwedStep(s, acts[0], i);
      AtMostOneMore(Do(s, acts[0]), acts[1..], i);
    }
  }

  function OwedOf(ws: seq<Worker>): seq<nat> {
    seq(|ws|, i requires 0 <= i < |ws| => OwedCount(ws[i]))
  }

  function Owed(s: Pool): nat { Sum(OwedOf(s.workers)) }

  lemma {:induction false} SumBound(xs: seq<nat>, ys: seq<nat>, zs: seq<nat>)
    requires |xs| == |ys| == |zs|
    requires forall i :: 0 <= i < |xs| ==> ys[i] <= xs[i] + zs[i]
    ensures Sum(ys) <= Sum(xs) + Sum(zs)
  {
    if xs != [] { SumBound(xs[1..], ys[1..], zs[1..]); }
  }

  lemma ExitKeepsLength(s: Pool, acts: seq<Action>)
    requires Runs(s, acts)
    ensures |After(s, acts).workers| == |s.workers|
    decreases |acts|
  {
    if acts != [] { ExitKeepsLength(Do(s, acts[0]), acts[1..]); }
  }

  /** After the shared exit flag is set all workers together make at most as
      many more increments as there are workers past their exit check, so the
      request counter grows by at most the number of workers. */
  lemma BoundedWorkAfterExit(s: Pool, acts: seq<Action>)
    requires Runs(s, acts) && s.shm.exit == 1
    ensures var grown := Counted(After(s, acts)) - Counted(s);
      0 <= grown <= Owed(s) <= |s.workers| && After(s, acts).shm.counter == Wrap(s.shm.counter + grown)
  {
    hide Counted, Owed, After, Runs;
    assert Wrap(s.shm.counter) == s.shm.counter;
    CounterRun(s, acts, s.shm.counter - Counted(s));
    IncrementsAfterExit(s, acts);
  }

  lemma IncrementsAfterExit(s: Pool, acts: seq<Action>)
    requires Runs(s, acts) && s.shm.exit == 1
    ensures Counted(After(s, acts)) <= Counted(s) + Owed(s)
    ensures Owed(s) <= |s.workers|
  {
    var t := After(s, acts);
    ExitKeepsLength(s, acts);
    forall i | 0 <= i < |s.workers|
      ensures CountedOf(t.workers)[i] <= CountedOf(s.workers)[i] + OwedOf(s.workers)[i]
    {
      AtMostOneMore(s, acts, i);
      assert CountedOf(t.workers)[i] == t.workers[i].counted && CountedOf(s.workers)[i] == s.workers[i].counted;
    }
    SumBound(CountedOf(s.workers), CountedOf(t.workers), OwedOf(s.workers));
    SumAtMost(OwedOf(s.workers));
  }

  // ---------- a worker told to stop ends ----------

  /** How many steps a worker told to stop has left. */
  function StepsLeft(w: Worker): nat {
    match w.pc
    case Gone => 0
    case CheckTerm => if w.terminated then 1 else 6
    case CheckExit => 2
    case Counting => 3
    case Calling => 4
    case SetIdle => 5
  }

  /** A step of worker `i` itself; what its callback does before it ends is
      part of the step that ends it. */
  predicate OwnStep(a: Action, i: nat) {
    (a.Advance? || a.Returns? || a.Throws? || a.Dies?) && a.i == i
  }

  lemma StepsRunOut(s: Pool, a: Action, i: nat)
    requires Can(s, a) && i < |s.workers| && ToldToStop(s, i)
    ensures |Do(s, a).workers| == |s.workers| && ToldToStop(Do(s, a), i)
    ensures StepsLeft(Do(s, a).workers[i]) <= StepsLeft(s.workers[i])
    ensures OwnStep(a, i) ==> StepsLeft(Do(s, a).workers[i]) < StepsLeft(s.workers[i])
  {
  }

  ghost predicate PoolStep(run: nat -> Pool, act: nat -> Action, k: nat) {
    Can(run(k), act(k)) && run(k + 1) == Do(run(k), act(k))
  }

  ghost predicate ActsAfter(act: nat -> Action, i: nat, k: nat) {
    exists j: nat :: j >= k && OwnStep(act(j), i)
  }

  predicate GoneAt(run: nat -> Pool, i: nat, k: nat) {
    i < |run(k).workers| && run(k).workers[i].pc == Gone
  }

  /** From step `t` on worker `i`, as long as it is there, takes another step:
      it is scheduled and its callback ends. */
  ghost predicate KeepsGoing(run: nat -> Pool, act: nat -> Action, i: nat, t: nat) {
    forall k: nat :: k >= t && !GoneAt(run, i, k) ==> ActsAfter(act, i, k)
  }

  lemma {:induction false} StepsOnlyRunOut(run: nat -> Pool, act: nat -> Action, i: nat, k: nat, j: nat)
    requires (forall m: nat :: PoolStep(run, act, m)) && k <= j
    requires i < |run(k).workers| && ToldToStop(run(k), i)
    ensures i < |run(j).workers| && ToldToStop(run(j), i)
    ensures StepsLeft(run(j).workers[i]) <= StepsLeft(run(k).workers[i])
    decreases j
  {
    hide Can, Do, StepsLeft;
    if j > k {
      StepsOnlyRunOut(run, act, i, k, j - 1);
      assert PoolStep(run, act, j - 1);
      StepsRunOut(run(j - 1), act(j - 1), i);
    }
  }

  /** In every run of the pool, a worker told to stop, by the exit flag or by
      SIGTERM, ends, whatever the others do, if it is scheduled and its callback
      ends. */
  lemma {:induction false} StoppedWorkerEnds(run: nat -> Pool, act: nat -> Action, i: nat, t: nat)
    requires forall m: nat :: PoolStep(run, act, m)
    requires i < |run(t).workers| && ToldToStop(run(t), i) && KeepsGoing(run, act, i, t)
    ensures exists n: nat :: n >= t && GoneAt(run, i, n)
    decreases StepsLeft(run(t).workers[i])
  {
    hide Can, Do, StepsLeft;
    if GoneAt(run, i, t) {
      assert t >= t;
    } else {
      assert ActsAfter(act, i, t);
      var j: nat :| j >= t && OwnStep(act(j), i);
      StepsOnlyRunOut(run, act, i, t, j);
      assert PoolStep(run, act, j);
      StepsRunOut(run(j), act(j), i);
      StoppedWorkerEnds(run, act, i, j + 1);
      var n: nat :| n >= j + 1 && GoneAt(run, i, n);
      assert n >= t && GoneAt(run, i, n);
    }
  }

  // ---------- the bound is attained ----------

  /** The steps in which worker `i` does what it still owes. */
  function Spend(w: Worker, i: nat): seq<Action> {
    match w.pc
    case CheckTerm => if w.terminated then [] else [Advance(i), Advance(i), Returns(i), Advance(i)]
    case SetIdle => [Advance(i), Returns(i), Advance(i)]
    case Calling => [Returns(i), Advance(i)]
    case Counting => [Advance(i)]
    case _ => []
  }

  lemma SpendWorks(s: Pool, i: nat)
    requires i < |s.workers| <= |s.shm.status|
    ensures Runs(s, Spend(s.workers[i], i))
    ensures var t := After(s, Spend(s.workers[i], i));
      && |t.workers| == |s.workers| && |t.shm.status| == |s.shm.status|
      && t.workers[i].counted == s.workers[i].counted + OwedCount(s.workers[i])
      && (forall j :: 0 <= j < |s.workers| && j != i ==> t.workers[j] == s.workers[j])
  {
    SpendFrom(s, i, Spend(s.workers[i], i));
  }

  lemma {:induction false} SpendFrom(s: Pool, i: nat, acts: seq<Action>)
    requires i < |s.workers| <= |s.shm.status| && acts == Spend(s.workers[i], i)
    ensures Runs(s, acts)
    ensures var t := After(s, acts);
      && |t.workers| == |s.workers| && |t.shm.status| == |s.shm.status|
      && t.workers[i].counted == s.workers[i].counted + OwedCount(s.workers[i])
      && (forall j :: 0 <= j < |s.workers| && j != i ==> t.workers[j] == s.workers[j])
    decreases |acts|
  {
    if |acts| > 1 {
      assert acts[1..] == Spend(Do(s, acts[0]).workers[i], i);
      SpendFrom(Do(s, acts[0]), i, acts[1..]);
    }
  }

  lemma {:induction false} Compose(s: Pool, first: seq<Action>, second: seq<Action>)
    requires Runs(s, first) && Runs(After(s, first), second)
    ensures Runs(s, first + second) && After(s, first + second) == After(After(s, first), second)
    decreases |first|
  {
    hide Can, Do;
    if first == [] {
      assert first + second == second;
    } else {
      Compose(Do(s, first[0]), first[1..], second);
      assert (first + second)[1..] == first[1..] + second;
    }
  }

  lemma {:induction false} SpendAll(s: Pool, k: nat) returns (acts: seq<Action>)
    requires k <= |s.workers| <= |s.shm.status|
    ensures Runs(s, acts)
    ensures var t := After(s, acts);
      && |t.workers| == |s.workers| && |t.shm.status| == |s.shm.status|
      && (forall j :: 0 <= j < k ==> t.workers[j].counted == s.workers[j].counted + OwedCount(s.workers[j]))
      && (forall j :: k <= j < |s.workers| ==> t.workers[j] == s.workers[j])
  {
    hide Can, Do, Spend, OwedCount;
    if k == 0 {
      acts := [];
    } else {
      var first := SpendAll(s, k - 1);
      var m := After(s, first);
      SpendWorks(m, k - 1);
      Compose(s, first, Spend(m.workers[k - 1], k - 1));
      acts := first + Spend(m.workers[k - 1], k - 1);
    }
  }

  lemma {:induction false} SumAdds(xs: seq<nat>, ys: seq<nat>, zs: seq<nat>)
    requires |xs| == |ys| == |zs|
    requires forall i :: 0 <= i < |xs| ==> ys[i] == xs[i] + zs[i]
    ensures Sum(ys) == Sum(xs) + Sum(zs)
  {
    if xs != [] { SumAdds(xs[1..], ys[1..], zs[1..]); }
  }

  /** The bound of BoundedWorkAfterExit cannot be lowered: from every state some
      run makes every increment that is owed. */
  lemma BoundIsAttained(s: Pool)
    requires |s.workers| <= |s.shm.status|
    ensures exists acts :: Runs(s, acts) && Counted(After(s, acts)) == Counted(s) + Owed(s)
  {
    var acts := SpendAll(s, |s.workers|);
    var t := After(s, acts);
    SumAdds(CountedOf(s.workers), CountedOf(t.workers), OwedOf(s.workers));
    assert Runs(s, acts) && Counted(After(s, acts)) == Counted(s) + Owed(s);
  }

  // ---------- the status scan ----------

  /** Only worker `i` writes slot `i`. */
  lemma OwnSlotOnly(s: Pool, a: Action, w: nat)
    requires Can(s, a) && w < |s.shm.status|
    ensures |Do(s, a).shm.status| == |s.shm.status|
    ensures Do(s, a).shm.status[w] != s.shm.status[w] ==> (a.Advance? || a.OwnStatus?) && a.i == w
  {
  }

  /** Slot `i` holds `b` at some moment of the run. */
  ghost predicate HeldDuring(s: Pool, acts: seq<Action>, i: nat, b: Byte)
    requires Runs(s, acts)
    decreases |acts|
  {
    || (i < |s.shm.status| && s.shm.status[i] == b)
    || (acts != [] && HeldDuring(Do(s, acts[0]), acts[1..], i, b))
  }

  /** A scan begun at `s` and read while the workers run: every byte it has
      read is a value that its slot held at some moment of the scan. */
  lemma {:induction false} RegularScan(s: Pool, acts: seq<Action>)
    requires Runs(s, acts) && ScanStart !in acts
    ensures var t := After(s, acts);
      && s.scan <= t.scan
      && (forall i :: |s.scan| <= i < |t.scan| ==> HeldDuring(s, acts, i, t.scan[i]))
    decreases |acts|
  {
    if acts != [] {
      var m := Do(s, acts[0]);
      RegularScan(m, acts[1..]);
      var t := After(s, acts);
      forall i | |s.scan| <= i < |t.scan|
        ensures HeldDuring(s, acts, i, t.scan[i])
      {
        if i < |m.scan| { assert s.shm.status[i] == m.scan[i]; }
      }
    }
  }

  /** A scan that can read no further has one byte for each worker. */
  lemma {:induction false} ScanLength(s: Pool, acts: seq<Action>)
    requires Runs(s, acts) && |s.scan| <= |s.workers| <= |s.shm.status|
    ensures var t := After(s, acts);
      && |t.scan| <= |t.workers| == |s.workers| <= |t.shm.status|
      && (!Can(t, ScanRead) <==> |t.scan| == |s.workers|)
    decreases |acts|
  {
    if acts != [] { ScanLength(Do(s, acts[0]), acts[1..]); }
  }
}
