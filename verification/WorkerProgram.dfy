/** BPSGIWorker's main loop body as code over the shared segment object
    (src/worker.cpp:7-16, 36-55), proved to be a run of the pool's steps. */
module WorkerProgram {
  import opened Segment
  import opened SharedMemory
  import opened WorkerPool

  /** What one iteration comes to. */
  datatype End = Continues | ExitOne | ExitZero | Thrown

  /** What the callback may do to the shared segment. */
  datatype Effect =
    | SetsStatus(b: Byte)
    | StoresAtomic(k: nat, v: Int64)
    | AddsAtomic(k: nat, v: Int64)

  predicate InReach(r: Record, es: seq<Effect>) {
    forall i :: 0 <= i < |es| && !es[i].SetsStatus? ==> es[i].k < |r.atomics|
  }

  /** The action of worker `i` that one effect on `r` is. */
  function ActionOf(r: Record, i: nat, e: Effect): Action
    requires InReach(r, [e])
  {
    assert !e.SetsStatus? ==> [e][0].k < |r.atomics|;
    match e
    case SetsStatus(b) => OwnStatus(i, b)
    case StoresAtomic(k, v) => UserAtomic(i, k, v)
    case AddsAtomic(k, v) => UserAtomic(i, k, Wrap(r.atomics[k] + v))
  }

  function Applied(r: Record, i: nat, e: Effect): (t: Record)
    requires i < |r.status| && InReach(r, [e])
    ensures |t.status| == |r.status| && |t.atomics| == |r.atomics|
  {
    assert !e.SetsStatus? ==> [e][0].k < |r.atomics|;
    match e
    case SetsStatus(b) => SetStatus(r, i, b)
    case StoresAtomic(k, v) => SetAtomic(r, k, v)
    case AddsAtomic(k, v) => SetAtomic(r, k, Wrap(r.atomics[k] + v))
  }

  function AppliedAll(r: Record, i: nat, es: seq<Effect>): (t: Record)
    requires i < |r.status| && InReach(r, es)
    ensures |t.status| == |r.status| && |t.atomics| == |r.atomics|
    decreases |es|
  {
    if es == [] then r
    else
      var n := |es| - 1;
      assert InReach(r, es[..n]);
      var m := AppliedAll(r, i, es[..n]);
      assert InReach(m, [es[n]]);
      Applied(m, i, es[n])
  }

  /** A callback touches its worker's slot, the atomics it names and nothing
      else. */
  lemma {:induction false} AppliedFrame(r: Record, i: nat, es: seq<Effect>)
    requires i < |r.status| && InReach(r, es)
    ensures var t := AppliedAll(r, i, es);
      && t == r.(status := t.status, atomics := t.atomics)
      && (forall j :: 0 <= j < |r.status| && j != i ==> t.status[j] == r.status[j])
      && (forall k :: 0 <= k < |r.atomics| && Untouched(es, k) ==> t.atomics[k] == r.atomics[k])
    decreases |es|
  {
    if es != [] {
      var n := |es| - 1;
      assert InReach(r, es[..n]);
      AppliedFrame(r, i, es[..n]);
      assert InReach(AppliedAll(r, i, es[..n]), [es[n]]);
      forall k | 0 <= k < |r.atomics| && Untouched(es, k)
        ensures AppliedAll(r, i, es).atomics[k] == r.atomics[k]
      {
        assert Untouched(es[..n], k) && !Touches(es[n], k);
      }
    }
  }

  predicate Touches(e: Effect, k: nat) {
    !e.SetsStatus? && e.k == k
  }

  predicate Untouched(es: seq<Effect>, k: nat) {
    forall i :: 0 <= i < |es| ==> !Touches(es[i], k)
  }

  /** The last status that is set, or `b` if none is. */
  function LastStatus(es: seq<Effect>, b: Byte): Byte {
    if es == [] then b else LastStatus(es[1..], if es[0].SetsStatus? then es[0].b else b)
  }

  /** What the stores and adds to atomic `k` make of `v`, in order. */
  function Folded(es: seq<Effect>, k: nat, v: Int64): Int64 {
    if es == [] then v
    else Folded(es[1..], k,
                if !Touches(es[0], k) then v else if es[0].StoresAtomic? then es[0].v else Wrap(v + es[0].v))
  }

  lemma {:induction false} FoldOneMore(es: seq<Effect>, e: Effect, k: nat, v: Int64, b: Byte)
    ensures LastStatus(es + [e], b) == if e.SetsStatus? then e.b else LastStatus(es, b)
    ensures Folded(es + [e], k, v) ==
      var u := Folded(es, k, v); if !Touches(e, k) then u else if e.StoresAtomic? then e.v else Wrap(u + e.v)
    decreases |es|
  {
    if es == [] {
      assert (es + [e])[1..] == [];
    } else {
      assert (es + [e])[1..] == es[1..] + [e];
      FoldOneMore(es[1..], e, k, if !Touches(es[0], k) then v else if es[0].StoresAtomic? then es[0].v else Wrap(v + es[0].v),
                  if es[0].SetsStatus? then es[0].b else b);
    }
  }

  /** After a callback its worker's slot holds the last status it set, and each
      atomic what its stores and adds come to, in order. */
  lemma {:induction false} CallbackResult(r: Record, i: nat, es: seq<Effect>)
    requires i < |r.status| && InReach(r, es)
    ensures AppliedAll(r, i, es).status[i] == LastStatus(es, r.status[i])
    ensures forall k :: 0 <= k < |r.atomics| ==> AppliedAll(r, i, es).atomics[k] == Folded(es, k, r.atomics[k])
    decreases |es|
  {
    hide Wrap;
    if es != [] {
      var n := |es| - 1;
      assert InReach(r, es[..n]);
      CallbackResult(r, i, es[..n]);
      assert es == es[..n] + [es[n]];
      assert InReach(AppliedAll(r, i, es[..n]), [es[n]]);
      FoldOneMore(es[..n], es[n], 0, 0, r.status[i]);
      forall k | 0 <= k < |r.atomics|
        ensures AppliedAll(r, i, es).atomics[k] == Folded(es, k, r.atomics[k])
      {
        FoldOneMore(es[..n], es[n], k, r.atomics[k], r.status[i]);
      }
    }
  }

  class WorkerProcess {
    const shm: SharedSegment
    const number: nat
    var terminated: bool   // _worker_terminated

    constructor (shm: SharedSegment, number: nat)
      ensures this.shm == shm && this.number == number && !terminated
    {
      this.shm, this.number := shm, number;
      terminated := false;
    }

    /** The worker and its segment are as pool `p` says. */
    ghost predicate Matches(p: Pool)
      reads this, shm, shm.segment
    {
      && shm.Valid()
      && number < |p.workers| <= STATUS_SLOTS
      && p.shm == shm.Contents()
      && p.workers[number].terminated == terminated
    }

    /** worker_sigterm_handler: the worker has been told to stop, whatever it
        is doing, and nothing else changes. */
    method HandleTerm(ghost p: Pool)
      requires Matches(p) && p.workers[number].pc != Gone
      modifies this
      ensures Can(p, Term(number)) && Matches(Do(p, Term(number)))
      ensures ToldToStop(Do(p, Term(number)), number)
      ensures Do(p, Term(number)).workers[number].pc == p.workers[number].pc
    {
      terminated := true;
    }

    /** The callback's own accesses to the segment, in order. */
    method RunCallback(effects: seq<Effect>, ghost p: Pool) returns (ghost acts: seq<Action>)
      requires Matches(p) && p.workers[number].pc == Calling && InReach(p.shm, effects)
      modifies shm.segment
      ensures Runs(p, acts) && Matches(After(p, acts))
      ensures After(p, acts) == p.(shm := AppliedAll(p.shm, number, effects))
    {
      hide Runs, After, Can, Do, Applied;
      acts := [];
      StandsStill(p);
      for j := 0 to |effects|
        invariant InReach(p.shm, effects[..j])
        invariant Matches(p.(shm := AppliedAll(p.shm, number, effects[..j])))
        invariant Runs(p, acts) && After(p, acts) == p.(shm := AppliedAll(p.shm, number, effects[..j]))
      {
        ghost var m := After(p, acts);
        assert effects[..j + 1][..j] == effects[..j];
        assert InReach(m.shm, [effects[j]]);
        EffectStep(m, number, effects[j]);
        Extend(p, acts, ActionOf(m.shm, number, effects[j]));
        acts := acts + [ActionOf(m.shm, number, effects[j])];
        Access(effects[j]);
      }
      assert effects[..|effects|] == effects;
    }

    method Access(e: Effect)
      requires shm.Valid() && number < STATUS_SLOTS && InReach(shm.Contents(), [e])
      modifies shm.segment
      ensures shm.Valid() && shm.Contents() == Applied(old(shm.Contents()), number, e)
    {
      assert !e.SetsStatus? ==> [e][0].k < |shm.atomics|;
      match e
      case SetsStatus(b) => var _ := shm.SetWorkerStatus(number, b);
      case StoresAtomic(k, v) => shm.AtomicStore(k, v);
      case AddsAtomic(k, v) => var _ := shm.AtomicFetchAdd(k, v);
    }

    /** `effects`: what the callback does to the segment; `finishes`: whether it
        returns rather than throws. */
    method MainLoopIteration(effects: seq<Effect>, finishes: bool, ghost p: Pool) returns (end: End, ghost acts: seq<Action>)
      requires Matches(p) && p.workers[number].pc == CheckExit && InReach(p.shm, effects)
      modifies shm.segment
      ensures Runs(p, acts) && Matches(After(p, acts))
      ensures After(p, acts).workers[number].pc == if end == Continues then CheckExit else Gone
      ensures end == if old(shm.Contents()).exit == 1 then ExitOne
                     else if terminated then ExitZero
                     else if finishes then Continues
                     else Thrown
      ensures shm.Contents() ==
        (match end
         case ExitOne => old(shm.Contents())
         case ExitZero => old(shm.Contents())
         case Continues => Increase(AppliedAll(SetStatus(old(shm.Contents()), number, IDLE), number, effects))
         case Thrown => AppliedAll(SetStatus(old(shm.Contents()), number, IDLE), number, effects))
      ensures end == Continues || end == Thrown ==>
        && shm.Contents().status[number] == LastStatus(effects, '_' as int)
        && (forall k :: 0 <= k < |old(shm.Contents()).atomics| ==>
              shm.Contents().atomics[k] == Folded(effects, k, old(shm.Contents()).atomics[k]))
    {
      hide Runs, After, Can, Do, AppliedAll;
      acts := ToCallback(p, number);
      var stop := shm.ShouldExitImmediately();
      if stop { return ExitOne, acts; }
      if terminated { return ExitZero, acts; }
      var _ := shm.SetWorkerStatus(number, IDLE);
      CallbackResult(shm.Contents(), number, effects);
      ghost var called := RunCallback(effects, After(p, acts));
      Compose(p, acts, called);
      acts := acts + called;
      ghost var last := FromCallback(After(p, acts), number, finishes);
      Compose(p, acts, last);
      acts := acts + last;
      if !finishes { return Thrown, acts; }
      var before := shm.IncreaseRequestCounter();
      end := Continues;
    }
  }

  lemma StandsStill(s: Pool)
    ensures Runs(s, []) && After(s, []) == s
  {
  }

  lemma RunsOne(s: Pool, a: Action, rest: seq<Action>)
    requires Can(s, a) && Runs(Do(s, a), rest)
    ensures Runs(s, [a] + rest) && After(s, [a] + rest) == After(Do(s, a), rest)
  {
    hide Can, Do;
    assert ([a] + rest)[1..] == rest;
  }

  lemma Extend(s: Pool, acts: seq<Action>, a: Action)
    requires Runs(s, acts) && Can(After(s, acts), a)
    ensures Runs(s, acts + [a]) && After(s, acts + [a]) == Do(After(s, acts), a)
  {
    hide Can, Do;
    RunsOne(After(s, acts), a, []);
    Compose(s, acts, [a]);
    assert [a] + [] == [a];
  }

  lemma EffectStep(p: Pool, i: nat, e: Effect)
    requires i < |p.workers| <= |p.shm.status| && p.workers[i].pc == Calling && InReach(p.shm, [e])
    ensures Can(p, ActionOf(p.shm, i, e)) && Do(p, ActionOf(p.shm, i, e)) == p.(shm := Applied(p.shm, i, e))
  {
    assert !e.SetsStatus? ==> [e][0].k < |p.shm.atomics|;
  }

  /** The steps of worker `i` up to its callback, or to its end. */
  lemma ToCallback(p: Pool, i: nat) returns (acts: seq<Action>)
    requires i < |p.workers| <= |p.shm.status| && p.workers[i].pc == CheckExit
    ensures Runs(p, acts)
    ensures var t, w := After(p, acts), p.workers[i];
      && |t.workers| == |p.workers| && t.workers[i].terminated == w.terminated
      && (p.shm.exit == 1 || w.terminated ==> t.workers[i].pc == Gone && t.shm == p.shm)
      && (p.shm.exit != 1 && !w.terminated ==> t.workers[i].pc == Calling && t.shm == SetStatus(p.shm, i, IDLE))
  {
    hide Runs, After;
    StandsStill(p);
    Extend(p, [], Advance(i));
    acts := [] + [Advance(i)];
    if p.shm.exit != 1 {
      Extend(p, acts, Advance(i));
      acts := acts + [Advance(i)];
      if !p.workers[i].terminated {
        Extend(p, acts, Advance(i));
        acts := acts + [Advance(i)];
      }
    }
  }

  /** The steps after the callback. */
  lemma FromCallback(p: Pool, i: nat, finishes: bool) returns (acts: seq<Action>)
    requires i < |p.workers| && p.workers[i].pc == Calling
    ensures Runs(p, acts)
    ensures var t := After(p, acts);
      && |t.workers| == |p.workers| && t.workers[i].terminated == p.workers[i].terminated
      && t.workers[i].pc == (if finishes then CheckExit else Gone)
      && t.shm == if finishes then Increase(p.shm) else p.shm
  {
    hide Runs, After;
    StandsStill(p);
    var first := if finishes then Returns(i) else Throws(i);
    Extend(p, [], first);
    acts := [] + [first];
    if finishes {
      Extend(p, acts, Advance(i));
      acts := acts + [Advance(i)];
    }
  }
}
