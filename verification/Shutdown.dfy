/** When a requested shutdown ends (src/bladepsgi.cpp:115-124, 588-637, 665-753;
    src/worker.cpp:7-28, 42-55; src/monitoring.cpp:19-25).

    A run is a function from step numbers to states. Nothing is asked of the
    overseer: with all children dead every one of its steps brings exit(0)
    nearer, so it reaches exit(0) exactly when its children end
    (ShutdownCompletesIff). Whether they do is up to the kernel and to them: a
    live child must finish its signal set-up and get its deliverable signals, a
    worker told to stop must finish its callback, and an auxiliary, which the
    overseer does not signal, must end by itself. */
module Shutdown {
  import opened PidTables
  import opened Supervisor
  import opened SupervisorInvariants
  import opened SupervisorTheorems

  predicate LiveAt(s: State, p: Pid) {
    p in s.children && s.children[p].live
  }

  ghost function LivePids(s: State): set<Pid> {
    set p | p in s.children && s.children[p].live
  }

  predicate InLoop(pc: Pc) {
    match pc
    case Sweep(r, _) => LoopReason(r)
    case Clear(r) => LoopReason(r)
    case Announce(_) => false
    case Exited(_) => false
    case Spawn => false
    case Install(_) => false
    case Unblock => false
    case _ => true
  }

  /** Shutdown has been requested and the overseer is in its main loop. */
  predicate Stopping(s: State) {
    s.shutdown && InLoop(s.pc) && SIGQUIT !in s.pending
  }

  ghost predicate Winding(s: State) {
    Inv(s) && (s.pc == Exited(Clean) || Stopping(s))
  }

  /** No further signal is sent to the overseer and no system call fails. */
  predicate Quiet(a: Action) {
    !(a.Outside? && a.event.Arrive?) && a != Relay(SyscallFails) && !a.HandleNoWrite?
  }

  // ---------- one step ----------

  ghost predicate Onward(s: State, t: State) {
    && (t.pc == Exited(Clean) || Stopping(t))
    && LivePids(t) <= LivePids(s)
    && t.conf == s.conf
    && (s.force ==> t.force)
    && (s.seen.quitSwept ==> t.seen.quitSwept)
  }

  lemma OutsideOnward(s: State, e: Event)
    requires CanOutside(s, e) && !e.Arrive? && Winding(s) && !s.pc.Exited?
    ensures Onward(s, DoOutside(s, e))
  {
    hide Inv;
    match e
    case ChildReady(p) =>
    case ChildSignal(p, sig) =>
    case ChildEnds(p) =>
    case RaiseExitFlag =>
  }

  lemma RelayOnward(s: State, r: RelayStep)
    requires CanRelay(s, r) && r != SyscallFails && Winding(s) && !s.pc.Exited?
    ensures Onward(s, DoRelay(s, r))
  {
    hide Inv;
    match r
    case Test =>
    case Kill =>
    case EndSweep =>
    case ClearFlag =>
    case RaiseForce =>
    case AnnounceExit =>
  }

  lemma WaitOnward(s: State, w: WaitStep)
    requires CanWait(s, w) && Winding(s) && !s.pc.Exited?
    ensures Onward(s, DoWait(s, w))
  {
    hide Controlled, Booked, Swept, Tallied, Judge;
    if w.JudgeDeath? { JudgeVerdict(s); }
  }

  lemma HandleOnward(s: State, sig: Signal)
    requires CanHandle(s, sig) && Winding(s)
    ensures Onward(s, Supervisor.Handled(s, sig))
  {
    hide Inv, PostAll;
  }

  lemma PollOnward(s: State, p: PollStep)
    requires CanPoll(s, p) && Winding(s)
    ensures Onward(s, DoPoll(s, p))
  {
    hide Inv;
  }

  lemma WindingStep(s: State, a: Action)
    requires Can(s, a) && Quiet(a) && Winding(s) && !s.pc.Exited?
    ensures Winding(Do(s, a)) && Onward(s, Do(s, a))
  {
    hide Inv, DoOutside, Handled, DoPoll, DoRelay, DoWait, CanOutside, CanHandle, CanPoll, CanRelay, CanWait;
    StepKeeps(s, a);
    match a
    case Outside(e) => OutsideOnward(s, e);
    case Handle(sig) => HandleOnward(s, sig);
    case Boot(b) =>
    case Poll(p) => PollOnward(s, p);
    case Relay(r) => RelayOnward(s, r);
    case Wait(w) => WaitOnward(s, w);
  }

  // ---------- with every child dead, each step brings the exit nearer ----------

  /** Signals still to be handled and interruptions still possible. */
  function Noise(s: State): nat {
    2 * |s.pending| + One(s.interrupted) + One(!s.exitFlag)
  }

  /** Children still to be reaped and erased. */
  function Backlog(s: State): nat {
    2 * |s.children| + One(s.pc.Judging? || s.pc.Erase?)
  }

  function Rank(pc: Pc): nat {
    match pc
    case Select => 9
    case Drain => 8
    case TestFast => 7
    case TestSmart => 6
    case TestForce => 5
    case Sweep(_, _) => 4
    case Clear(_) => 3
    case SetForce => 2
    case WaitPid => 1
    case Judging(_) => 1
    case _ => 0
  }

  function Inner(s: State): nat {
    match s.pc
    case Drain => s.pipe
    case Sweep(_, todo) => |todo|
    case _ => 0
  }

  /** Compared from left to right. */
  datatype Distance = Distance(noise: nat, backlog: nat, phase: nat, inner: nat)

  predicate Less(d: Distance, e: Distance) {
    || d.noise < e.noise
    || (d.noise == e.noise && d.backlog < e.backlog)
    || (d.noise == e.noise && d.backlog == e.backlog && d.phase < e.phase)
    || (d.noise == e.noise && d.backlog == e.backlog && d.phase == e.phase && d.inner < e.inner)
  }

  function ToExit(s: State): Distance {
    Distance(Noise(s), Backlog(s), Rank(s.pc), Inner(s))
  }

  predicate Nearer(t: State, s: State) {
    Less(ToExit(t), ToExit(s))
  }

  lemma HandleNearer(s: State, sig: Signal)
    requires CanHandle(s, sig)
    ensures Nearer(Supervisor.Handled(s, sig), s)
  {
    assert |s.pending - {sig}| == |s.pending| - 1;
  }

  lemma PollNearer(s: State, p: PollStep)
    requires CanPoll(s, p)
    ensures Nearer(DoPoll(s, p), s)
  {
  }

  lemma KillNearer(s: State)
    requires CanRelay(s, Kill)
    ensures Nearer(DoRelay(s, Kill), s)
  {
    var t := DoRelay(s, Kill);
    assert t.children.Keys == s.children.Keys;
    assert |t.children.Keys| == |t.children| && |s.children.Keys| == |s.children|;
  }

  lemma BeginMoves(s: State, r: Reason)
    requires MayBegin(s, r) && LoopReason(r)
    ensures var t := Begin(s, r); t == s.(pc := t.pc, seen := t.seen) && t.pc.Sweep? && Rank(t.pc) < Rank(s.pc)
  {
  }

  lemma TestMoves(s: State)
    requires CanRelay(s, Test)
    ensures var t := DoRelay(s, Test);
      t == s.(pc := t.pc, seen := t.seen) && Rank(t.pc) < Rank(s.pc) && !t.pc.Judging? && !t.pc.Erase?
  {
    hide Begin;
    match s.pc
    case TestFast => if s.fast { BeginMoves(s, Fast); }
    case TestSmart =>
    case TestForce => BeginMoves(s, if s.force then SecondSmart else Smart);
  }

  lemma TestNearer(s: State)
    requires CanRelay(s, Test)
    ensures Nearer(DoRelay(s, Test), s)
  {
    hide Noise, Backlog, Inner, DoRelay;
    TestMoves(s);
    SameMeasure(s, DoRelay(s, Test));
  }

  lemma RelayNearer(s: State, r: RelayStep)
    requires CanRelay(s, r) && r != SyscallFails && Winding(s)
    ensures Nearer(DoRelay(s, r), s)
  {
    hide Inv, Post, Noise, Backlog, Inner;
    if r.Kill? {
      KillNearer(s);
    } else if r.Test? {
      TestNearer(s);
    } else {
      SameMeasure(s, DoRelay(s, r));
    }
  }

  lemma SameMeasure(s: State, t: State)
    requires t.pending == s.pending && t.interrupted == s.interrupted && t.exitFlag == s.exitFlag
    requires t.children == s.children && !s.pc.Judging? && !s.pc.Erase? && !t.pc.Judging? && !t.pc.Erase?
    ensures Noise(t) == Noise(s) && Backlog(t) == Backlog(s)
  {
  }

  lemma AllAreDead(s: State)
    requires LivePids(s) == {}
    ensures forall p :: p in s.children ==> !s.children[p].live
    ensures s.children == map[] || SomeZombie(s.children)
  {
    forall p | p in s.children
      ensures !s.children[p].live
    {
      assert p !in LivePids(s);
    }
    if !SomeZombie(s.children) {
      assert forall p :: p !in s.children;
      assert s.children == map[];
    }
  }

  lemma ReapNearer(s: State, p: Pid)
    requires CanWait(s, Reap(p))
    ensures Nearer(DoWait(s, Reap(p)), s)
  {
    var t := DoWait(s, Reap(p));
    assert t.children.Keys == s.children.Keys - {p};
    assert |t.children.Keys| == |t.children| && |s.children.Keys| == |s.children|;
  }

  lemma JudgeNearer(s: State)
    requires CanWait(s, JudgeDeath) && Winding(s)
    ensures Nearer(DoWait(s, JudgeDeath), s)
  {
    hide Controlled, Booked, Swept, Tallied, DoWait;
    JudgeVerdict(s);
  }

  lemma WaitNearer(s: State, w: WaitStep)
    requires CanWait(s, w) && Winding(s) && LivePids(s) == {}
    ensures DoWait(s, w).pc == Exited(Clean) || Nearer(DoWait(s, w), s)
  {
    hide Inv, Judge, Forget, SomeZombie;
    AllAreDead(s);
    match w
    case Reap(p) => ReapNearer(s, p);
    case ReapNone =>
    case ReapInterrupted =>
    case NoChildren =>
    case JudgeDeath => JudgeNearer(s);
    case EraseChild =>
  }

  /** With no live child every possible quiet step either exits cleanly or
      lowers a well-founded measure: the loop cannot go round for ever. */
  lemma DeadChildrenStep(s: State, a: Action)
    requires Can(s, a) && Quiet(a) && Winding(s) && !s.pc.Exited? && LivePids(s) == {}
    ensures Do(s, a).pc == Exited(Clean) || Nearer(Do(s, a), s)
  {
    hide Inv, Handled, DoPoll, DoRelay, DoWait, CanHandle, CanPoll, CanRelay, CanWait;
    AllAreDead(s);
    match a
    case Outside(e) =>
    case Handle(sig) => HandleNearer(s, sig);
    case Boot(b) =>
    case Poll(p) => PollNearer(s, p);
    case Relay(r) => RelayNearer(s, r);
    case Wait(w) => WaitNearer(s, w);
  }

  // ---------- fair runs ----------

  /** Step `i` of a run; the overseer's exit ends it. */
  ghost predicate StepAt(run: nat -> State, act: nat -> Action, i: nat) {
    if run(i).pc.Exited? then run(i + 1) == run(i)
    else Can(run(i), act(i)) && run(i + 1) == Do(run(i), act(i))
  }

  /** Child `p` is not alive at some step from `i` on. */
  ghost predicate Ends(run: nat -> State, i: nat, p: Pid) {
    exists j: nat :: j >= i && !LiveAt(run(j), p)
  }

  /** From step `t` on, a quiet run with shutdown requested. */
  ghost predicate WindsDown(run: nat -> State, act: nat -> Action, t: nat) {
    && (forall i: nat :: StepAt(run, act, i))
    && (forall i: nat :: i >= t ==> Quiet(act(i)))
    && Winding(run(t))
  }

  lemma {:induction false} StaysWinding(run: nat -> State, act: nat -> Action, t: nat, i: nat, j: nat)
    requires WindsDown(run, act, t) && t <= i <= j
    ensures Winding(run(j)) && Onward(run(i), run(j))
    decreases j
  {
    hide Inv, LivePids, InLoop, Can, Do;
    if j > t {
      StaysWinding(run, act, t, if i < j then i else t, j - 1);
      assert StepAt(run, act, j - 1);
      assert Quiet(act(j - 1));
      if !run(j - 1).pc.Exited? { WindingStep(run(j - 1), act(j - 1)); }
    }
  }

  // ---------- exit(0) exactly when the children end ----------

  /** All children end if each does. */
  lemma {:induction false} AllChildrenEnd(run: nat -> State, act: nat -> Action, t: nat, i: nat) returns (n: nat)
    requires WindsDown(run, act, t) && t <= i
    requires forall p :: p in LivePids(run(i)) ==> Ends(run, i, p)
    ensures n >= i && LivePids(run(n)) == {}
    decreases |LivePids(run(i))|
  {
    hide WindsDown, Winding, Inv, InLoop;
    var live := LivePids(run(i));
    if p :| p in live {
      var j: nat :| j >= i && !LiveAt(run(j), p);
      StaysWinding(run, act, t, i, j);
      Fewer(LivePids(run(j)), live, p);
      forall q | q in LivePids(run(j))
        ensures Ends(run, j, q)
      {
        var k: nat :| k >= i && !LiveAt(run(k), q);
        if k < j { StaysWinding(run, act, t, k, j); }
        assert k >= j;
      }
      n := AllChildrenEnd(run, act, t, j);
    } else {
      assert forall p :: p !in live;
      n := i;
    }
  }

  lemma Fewer(a: set<Pid>, b: set<Pid>, p: Pid)
    requires a <= b && p in b && p !in a
    ensures |a| < |b|
  {
    assert b == (a + {p}) + (b - a - {p});
  }

  lemma {:induction false} Finish(run: nat -> State, act: nat -> Action, t: nat, i: nat) returns (n: nat)
    requires WindsDown(run, act, t) && t <= i && LivePids(run(i)) == {}
    ensures run(n).pc == Exited(Clean)
    decreases Noise(run(i)), Backlog(run(i)), Rank(run(i).pc), Inner(run(i))
  {
    hide Inv, Can, Do, Noise, Backlog, Rank, Inner, LivePids;
    StaysWinding(run, act, t, i, i);
    if run(i).pc.Exited? {
      n := i;
    } else {
      assert StepAt(run, act, i);
      assert Quiet(act(i));
      StaysWinding(run, act, t, i, i + 1);
      DeadChildrenStep(run(i), act(i));
      if run(i + 1).pc == Exited(Clean) {
        n := i + 1;
      } else {
        n := Finish(run, act, t, i + 1);
      }
    }
  }

  lemma {:induction false} AlwaysInv(conf: Config, names: seq<string>, run: nat -> State, act: nat -> Action, i: nat)
    requires ValidConfig(conf) && run(0) == Init(conf, names)
    requires forall k: nat :: StepAt(run, act, k)
    ensures Inv(run(i)) && run(i).conf == conf && |run(i).tables.processes| == |names|
  {
    hide Inv, Can, Do;
    if i == 0 {
      InitHolds(conf, names);
    } else {
      AlwaysInv(conf, names, run, act, i - 1);
      assert StepAt(run, act, i - 1);
      if !run(i - 1).pc.Exited? {
        StepKeeps(run(i - 1), act(i - 1));
        ConfigStays(run(i - 1), act(i - 1));
      }
    }
  }

  lemma ConfigStays(s: State, a: Action)
    requires Can(s, a) && Inv(s)
    ensures Do(s, a).conf == s.conf && |Do(s, a).tables.processes| == |s.tables.processes|
  {
    hide Can, Do, Controlled, Booked;
    StepAdvances(s, a);
  }

  lemma {:induction false} ExitIsFinal(run: nat -> State, act: nat -> Action, n: nat, m: nat)
    requires (forall k: nat :: StepAt(run, act, k)) && n <= m && run(n).pc.Exited?
    ensures run(m) == run(n)
    decreases m
  {
    hide Can, Do;
    if m > n {
      ExitIsFinal(run, act, n, m - 1);
      assert StepAt(run, act, m - 1);
    }
  }

  /** Every run of the program in which shutdown is requested, by whichever
      signal, and no further signal arrives from outside and no system call
      fails, ends with exit(0) if and only if every child that was alive then
      comes to an end. */
  lemma ShutdownCompletesIff(conf: Config, names: seq<string>, run: nat -> State, act: nat -> Action, t: nat)
    requires ValidConfig(conf) && run(0) == Init(conf, names)
    requires forall i: nat :: StepAt(run, act, i)
    requires forall i: nat :: i >= t ==> Quiet(act(i))
    requires Stopping(run(t))
    ensures (exists n: nat :: run(n).pc == Exited(Clean)) <==> (forall p :: LiveAt(run(t), p) ==> Ends(run, t, p))
  {
    hide Inv, StepAt, Ends, InLoop;
    AlwaysInv(conf, names, run, act, t);
    assert WindsDown(run, act, t);
    if forall p :: LiveAt(run(t), p) ==> Ends(run, t, p) {
      assert forall p :: p in LivePids(run(t)) ==> LiveAt(run(t), p);
      var i := AllChildrenEnd(run, act, t, t);
      var n := Finish(run, act, t, i);
      assert run(n).pc == Exited(Clean);
    }
    if n: nat :| run(n).pc == Exited(Clean) {
      var m := if n < t then t else n;
      ExitIsFinal(run, act, n, m);
      AlwaysInv(conf, names, run, act, m);
      NobodyLeft(run(m));
      forall p | LiveAt(run(t), p)
        ensures Ends(run, t, p)
      {
        NotAlive(run, t, m, p);
      }
    }
  }

  lemma NobodyLeft(s: State)
    requires Inv(s) && s.pc == Exited(Clean)
    ensures s.children == map[]
  {
  }

  lemma NotAlive(run: nat -> State, i: nat, j: nat, p: Pid)
    requires i <= j && !LiveAt(run(j), p)
    ensures Ends(run, i, p)
  {
  }

  // ---------- why the children end ----------

  ghost predicate EventuallyDoes(run: nat -> State, act: nat -> Action, i: nat, p: Pid, a: Action) {
    exists j: nat :: j >= i && (!LiveAt(run(j), p) || (!run(j).pc.Exited? && act(j) == a))
  }

  /** The kernel lets a live child finish its set-up and delivers a pending
      `sig` that its mask lets through, unless the overseer exits first. */
  ghost predicate FairTo(run: nat -> State, act: nat -> Action, sig: Signal, i: nat, p: Pid) {
    LiveAt(run(i), p) && !run(i).pc.Exited? ==>
      var c := run(i).children[p];
      && (c.booting ==> EventuallyDoes(run, act, i, p, Outside(ChildReady(p))))
      && (!c.booting && sig in c.pending && sig !in run(i).conf.inherited ==>
            EventuallyDoes(run, act, i, p, Outside(ChildSignal(p, sig))))
  }

  /** An auxiliary process ends by itself. */
  ghost predicate AuxiliaryEnds(run: nat -> State, i: nat, p: Pid) {
    LiveAt(run(i), p) && run(i).children[p].role == Auxiliary ==> Ends(run, i, p)
  }

  /** A worker whose flag is set finishes its callback and ends
      (WorkerPool.StoppedWorkerEnds: it does if its callback ends). */
  ghost predicate WorkerObeys(run: nat -> State, i: nat, p: Pid) {
    LiveAt(run(i), p) && run(i).children[p].role == Worker && run(i).children[p].stopAsked ==> Ends(run, i, p)
  }

  /** From step `t` on the kernel is fair to all children with respect to `sig`. */
  ghost predicate Fair(run: nat -> State, act: nat -> Action, sig: Signal, t: nat) {
    forall i: nat, p: Pid :: i >= t ==> FairTo(run, act, sig, i, p)
  }

  ghost predicate AuxiliariesEnd(run: nat -> State, t: nat) {
    forall i: nat, p: Pid :: i >= t ==> AuxiliaryEnds(run, i, p)
  }

  ghost predicate WorkersObey(run: nat -> State, t: nat) {
    forall i: nat, p: Pid :: i >= t ==> WorkerObeys(run, i, p)
  }

  lemma LiveMeansRunning(s: State, p: Pid)
    requires Winding(s) && LiveAt(s, p)
    ensures !s.pc.Exited?
  {
    hide Inv;
    if s.pc == Exited(Clean) { NobodyLeft(s); }
  }

  lemma BootingChildGetsReady(run: nat -> State, act: nat -> Action, sig: Signal, t: nat, i: nat, p: Pid) returns (j: nat)
    requires WindsDown(run, act, t) && Fair(run, act, sig, t) && t <= i && LiveAt(run(i), p)
    ensures j >= i && (!LiveAt(run(j), p) || !run(j).children[p].booting)
  {
    hide Winding;
    StaysWinding(run, act, t, i, i);
    LiveMeansRunning(run(i), p);
    assert FairTo(run, act, sig, i, p);
    if !run(i).children[p].booting {
      j := i;
    } else {
      var k: nat :| k >= i && (!LiveAt(run(k), p) || (!run(k).pc.Exited? && act(k) == Outside(ChildReady(p))));
      if !LiveAt(run(k), p) {
        j := k;
      } else {
        assert StepAt(run, act, k);
        j := k + 1;
      }
    }
  }

  predicate Obedient(c: Child) {
    c.role == Worker && c.stopAsked
  }

  /** SIGQUIT ends every child; SIGTERM ends it or sets a worker's flag. */
  lemma SignalTakesEffect(s: State, p: Pid, sig: Signal)
    requires Can(s, Outside(ChildSignal(p, sig))) && (sig == SIGQUIT || sig == SIGTERM)
    ensures var t := Do(s, Outside(ChildSignal(p, sig)));
      LiveAt(t, p) ==> sig == SIGTERM && Obedient(t.children[p])
  {
  }

  lemma PendingTakesEffect(run: nat -> State, act: nat -> Action, sig: Signal, t: nat, i: nat, p: Pid) returns (j: nat)
    requires WindsDown(run, act, t) && Fair(run, act, sig, t) && t <= i && (sig == SIGQUIT || sig == SIGTERM)
    requires LiveAt(run(i), p) && !run(i).children[p].booting
    requires sig in run(i).children[p].pending && sig !in run(i).conf.inherited
    ensures j >= i && (LiveAt(run(j), p) ==> sig == SIGTERM && Obedient(run(j).children[p]))
  {
    hide Winding, Can, Do;
    StaysWinding(run, act, t, i, i);
    LiveMeansRunning(run(i), p);
    assert FairTo(run, act, sig, i, p);
    var k: nat :| k >= i && (!LiveAt(run(k), p) || (!run(k).pc.Exited? && act(k) == Outside(ChildSignal(p, sig))));
    if !LiveAt(run(k), p) {
      j := k;
    } else {
      assert StepAt(run, act, k);
      SignalTakesEffect(run(k), p, sig);
      j := k + 1;
    }
  }

  /** After a SIGQUIT broadcast every child ends. */
  lemma EndsAfterQuit(run: nat -> State, act: nat -> Action, t: nat, i: nat, p: Pid)
    requires WindsDown(run, act, t) && Fair(run, act, SIGQUIT, t) && AuxiliariesEnd(run, t)
    requires t <= i && run(i).seen.quitSwept && SIGQUIT !in run(i).conf.inherited && LiveAt(run(i), p)
    ensures Ends(run, i, p)
  {
    hide Controlled, Accounted, Booked, Can, Do, LivePids, Fair, StepAt, InLoop;
    var k := BootingChildGetsReady(run, act, SIGQUIT, t, i, p);
    StaysWinding(run, act, t, i, k);
    if !LiveAt(run(k), p) {
      NotAlive(run, i, k, p);
    } else if run(k).children[p].role == Auxiliary {
      assert AuxiliaryEnds(run, k, p);
      EndsEarlier(run, i, k, p);
    } else {
      assert Doomed(run(k).children[p]);
      var j := PendingTakesEffect(run, act, SIGQUIT, t, k, p);
      NotAlive(run, i, j, p);
    }
  }

  /** After the SIGTERM broadcast every child ends. */
  lemma EndsAfterTerm(run: nat -> State, act: nat -> Action, t: nat, i: nat, p: Pid)
    requires WindsDown(run, act, t) && Fair(run, act, SIGTERM, t) && AuxiliariesEnd(run, t) && WorkersObey(run, t)
    requires t <= i && run(i).force && SIGTERM !in run(i).conf.inherited && LiveAt(run(i), p)
    ensures Ends(run, i, p)
  {
    hide Controlled, Accounted, Booked, Can, Do, LivePids, Fair, StepAt, InLoop, Ends;
    var k := BootingChildGetsReady(run, act, SIGTERM, t, i, p);
    StaysWinding(run, act, t, i, k);
    if !LiveAt(run(k), p) {
      NotAlive(run, i, k, p);
    } else if run(k).children[p].role == Auxiliary {
      assert AuxiliaryEnds(run, k, p);
      EndsEarlier(run, i, k, p);
    } else if Obedient(run(k).children[p]) {
      assert WorkerObeys(run, k, p);
      EndsEarlier(run, i, k, p);
    } else {
      assert Asked(run(k).children[p]);
      var j := PendingTakesEffect(run, act, SIGTERM, t, k, p);
      if LiveAt(run(j), p) {
        assert WorkerObeys(run, j, p);
        EndsEarlier(run, i, j, p);
      } else {
        NotAlive(run, i, j, p);
      }
    }
  }

  lemma EndsEarlier(run: nat -> State, i: nat, j: nat, p: Pid)
    requires i <= j && Ends(run, j, p)
    ensures Ends(run, i, p)
  {
    var k: nat :| k >= j && !LiveAt(run(k), p);
  }

  /** Fast shutdown: once a SIGQUIT broadcast has been completed, the overseer
      ends with exit(0) if SIGQUIT was not blocked when it was started, the
      kernel delivers it and auxiliaries end. */
  lemma FastShutdownCompletes(conf: Config, names: seq<string>, run: nat -> State, act: nat -> Action, t: nat)
    requires ValidConfig(conf) && run(0) == Init(conf, names) && SIGQUIT !in conf.inherited
    requires forall i: nat :: StepAt(run, act, i)
    requires forall i: nat :: i >= t ==> Quiet(act(i))
    requires Fair(run, act, SIGQUIT, t) && AuxiliariesEnd(run, t)
    requires Stopping(run(t)) && run(t).seen.quitSwept
    ensures exists n: nat :: run(n).pc == Exited(Clean)
  {
    hide Inv, StepAt, Ends, InLoop, Fair, AuxiliariesEnd;
    AlwaysInv(conf, names, run, act, t);
    forall p | LiveAt(run(t), p)
      ensures Ends(run, t, p)
    {
      EndsAfterQuit(run, act, t, t, p);
    }
    ShutdownCompletesIff(conf, names, run, act, t);
  }

  /** Smart shutdown: once the SIGTERM broadcast has been made, the overseer
      ends with exit(0) if SIGTERM was not blocked when it was started, the
      kernel delivers it, workers whose flag is set end and auxiliaries end. */
  lemma SmartShutdownCompletes(conf: Config, names: seq<string>, run: nat -> State, act: nat -> Action, t: nat)
    requires ValidConfig(conf) && run(0) == Init(conf, names) && SIGTERM !in conf.inherited
    requires forall i: nat :: StepAt(run, act, i)
    requires forall i: nat :: i >= t ==> Quiet(act(i))
    requires Fair(run, act, SIGTERM, t) && WorkersObey(run, t) && AuxiliariesEnd(run, t)
    requires Stopping(run(t)) && run(t).force
    ensures exists n: nat :: run(n).pc == Exited(Clean)
  {
    hide Inv, StepAt, Ends, InLoop, Fair, AuxiliariesEnd, WorkersObey;
    AlwaysInv(conf, names, run, act, t);
    forall p | LiveAt(run(t), p)
      ensures Ends(run, t, p)
    {
      EndsAfterTerm(run, act, t, t, p);
    }
    ShutdownCompletesIff(conf, names, run, act, t);
  }

  /** Without auxiliaries fast shutdown asks nothing of the children but what
      the kernel guarantees. */
  lemma ShutdownCompletesWithoutAuxiliaries(conf: Config, run: nat -> State, act: nat -> Action, t: nat)
    requires ValidConfig(conf) && run(0) == Init(conf, []) && SIGQUIT !in conf.inherited
    requires forall i: nat :: StepAt(run, act, i)
    requires forall i: nat :: i >= t ==> Quiet(act(i))
    requires Fair(run, act, SIGQUIT, t)
    requires Stopping(run(t)) && run(t).seen.quitSwept
    ensures exists n: nat :: run(n).pc == Exited(Clean)
  {
    hide Inv, StepAt, Ends, InLoop, Fair;
    AlwaysInv(conf, [], run, act, t);
    forall i: nat, p: Pid | i >= t
      ensures AuxiliaryEnds(run, i, p)
    {
      AlwaysInv(conf, [], run, act, i);
      StaysWinding(run, act, t, i, i);
      if LiveAt(run(i), p) {
        LiveMeansRunning(run(i), p);
        NoAuxiliaries(run(i), p);
      }
    }
    FastShutdownCompletes(conf, [], run, act, t);
  }

  lemma NoAuxiliaries(s: State, p: Pid)
    requires Inv(s) && !s.pc.Exited? && |s.tables.processes| == 0 && p in s.children
    ensures s.children[p].role != Auxiliary
  {
    assert RoleMatches(s.tables, p, s.children[p].role);
    assert !HasProcess(s.tables.processes, p);
  }
}
