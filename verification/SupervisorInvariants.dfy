/** What every step of the supervision protocol keeps, and what follows for
    every reachable state and every run. */
module SupervisorInvariants {
  import opened PidTables
  import opened Supervisor

  // ---------- the invariants ----------

  /** The pid that has been reaped but is still in its table. */
  ghost function Held(pc: Pc): set<Pid> {
    match pc
    case Judging(p) => {p}
    case Erase(p) => {p}
    case Announce(Died(p)) => {p}
    case Sweep(Died(p), _) => {p}
    case _ => {}
  }

  predicate FatalPath(pc: Pc) {
    (pc.Announce? || pc.Sweep?) && pc.reason.Fatal?
  }

  ghost predicate RoleMatches(t: Tables, p: Pid, role: Role) {
    match role
    case Worker => p in t.workers
    case Auxiliary => p in t.auxiliaries
    case Monitor => p == t.monitor
  }

  /** The tables hold exactly the unreaped children and the held pid, each in
      the table of its kind. */
  ghost predicate Tallied(t: Tables, children: map<Pid, Child>, held: set<Pid>) {
    && WellFormed(t)
    && Known(t) == children.Keys + held
    && children.Keys !! held
    && (forall p :: p in children ==> RoleMatches(t, p, children[p].role))
  }

  ghost predicate Accounted(s: State) {
    (s.pc.Exited? && s.pc.how != Clean) || Tallied(s.tables, s.children, Held(s.pc))
  }

  ghost predicate Complete(s: State) {
    && |s.tables.auxiliaries| == |s.tables.processes|
    && |s.tables.workers| == s.conf.nworkers
    && s.tables.monitor != NO_PID
  }

  /** Still starting up, or on the way out of a failed start. */
  predicate Unstarted(s: State) {
    s.pc == Spawn || (FatalPath(s.pc) && s.mask == ALL_SIGNALS)
  }

  ghost predicate Partial(t: Tables, nworkers: nat) {
    && |t.auxiliaries| <= |t.processes|
    && |t.workers| <= nworkers
    && (t.workers != [] ==> |t.auxiliaries| == |t.processes|)
    && (forall i :: 0 <= i < |t.auxiliaries| ==> t.processes[i].pid == t.auxiliaries[i])
    && t.monitor == NO_PID
  }

  /** How the tables grow during startup, and that they stay complete until
      shutdown is requested. */
  ghost predicate Shaped(s: State) {
    && (s.pc == Spawn ==> Partial(s.tables, s.conf.nworkers))
    && (s.pc.Spawn? || s.pc.Install? || s.pc.Unblock? ==>
          s.mask == ALL_SIGNALS && !s.shutdown && !s.fast && !s.smart && !s.force && !s.seen.quitSwept)
    && (s.pc.Install? ==> s.pc.n <= 3)
    && (s.mask == ALL_SIGNALS || s.mask == s.conf.inherited)
    && (s.pc.Erase? ==> s.shutdown)
    && (!s.pc.Exited? && !s.shutdown && !Unstarted(s) ==> Complete(s))
    && (s.pc == Exited(Clean) ==> s.shutdown && s.children == map[])
  }

  /** Every child ever forked is unreaped or was reaped exactly once. */
  ghost predicate Ledger(children: set<Pid>, forked: set<Pid>, reaped: seq<Pid>, held: set<Pid>) {
    && NoDup(reaped)
    && (forall p :: p in reaped ==> p !in children)
    && (forall p :: p in forked <==> p in children || p in reaped)
    && (forall p :: p in held ==> p in reaped)
  }

  /** fork and waitpid bookkeeping. */
  ghost predicate Booked(s: State) {
    && Ledger(s.children.Keys, s.seen.forked, s.seen.reaped, Held(s.pc))
    && (s.pc == Spawn ==> |s.seen.forked| == |s.tables.auxiliaries| + |s.tables.workers|)
    && ((!s.pc.Exited? && !Unstarted(s)) || s.pc == Exited(Clean) ==>
          |s.seen.forked| == |s.tables.processes| + s.conf.nworkers + 1)
    && (s.shutdown <==> s.seen.terms + s.seen.ints > 0)
    && (!s.shutdown && !s.pc.Exited? ==>
          if Held(s.pc) == {} then s.seen.reaped == [] else |s.seen.reaped| == 1)
  }

  /** Places in the loop where a set fast flag must have been set after the
      last drain. */
  predicate PastFast(pc: Pc) {
    match pc
    case Select => true
    case TestSmart => true
    case TestForce => true
    case Sweep(r, _) => r == SecondSmart || r == Smart
    case Clear(r) => r == SecondSmart || r == Smart
    case SetForce => true
    case WaitPid => true
    case Judging(_) => true
    case Erase(_) => true
    case _ => false
  }

  predicate PastSmart(pc: Pc) {
    pc.Select? || pc.SetForce? || pc.WaitPid? || pc.Judging? || pc.Erase?
  }

  /** Nothing that needs the loop's attention is left behind a drained pipe. */
  ghost predicate Awake(s: State) {
    && (PastFast(s.pc) && s.fast ==> s.pipe > 0)
    && (PastSmart(s.pc) && s.smart ==> s.pipe > 0 || s.seen.quitSwept)
    && (s.pc.Clear? && s.pc.reason == Fast ==> s.seen.quitSwept)
    && (s.pc.Spawn? || s.pc.Install? || s.pc.Unblock? ==>
          (SomeZombie(s.children) ==> SIGCHLD in s.pending))
    && (s.pc == Select && SomeZombie(s.children) ==> s.pipe > 0 || SIGCHLD in s.pending)
  }

  /** Dead already, or with a SIGQUIT pending. */
  predicate Doomed(c: Child) {
    !c.live || SIGQUIT in c.pending
  }

  /** Every worker and the monitor are doomed, but for those in `spared`. */
  ghost predicate AllDoomed(children: map<Pid, Child>, spared: seq<Pid>) {
    forall p :: p in children && children[p].role != Auxiliary && p !in spared ==> Doomed(children[p])
  }

  /** Dead, or with a SIGTERM pending, or (a worker) with its flag set. */
  predicate Asked(c: Child) {
    !c.live || SIGTERM in c.pending || (c.role == Worker && c.stopAsked)
  }

  ghost predicate AllAsked(children: map<Pid, Child>, spared: seq<Pid>) {
    forall p :: p in children && children[p].role != Auxiliary && p !in spared ==> Asked(children[p])
  }

  ghost predicate AuxiliariesUntouched(children: map<Pid, Child>) {
    forall p :: p in children && children[p].role == Auxiliary ==> children[p].pending == {}
  }

  /** Who a broadcast has reached and will reach. */
  ghost predicate Swept(s: State) {
    && AuxiliariesUntouched(s.children)
    && (s.pc.Sweep? ==> s.seen.struck + s.pc.todo == Targets(s.tables))
    && (s.pc.Sweep? && SignalOf(s.pc.reason) == SIGQUIT ==> AllDoomed(s.children, s.pc.todo))
    && (s.seen.quitSwept || s.pc == Exited(Quit) || s.pc == Exited(Crash) ==> AllDoomed(s.children, []))
    && (s.pc.Sweep? && s.pc.reason == Smart ==> AllAsked(s.children, s.pc.todo))
    && (s.force || s.pc == SetForce || s.pc == Clear(Smart) ==> AllAsked(s.children, []))
    && (s.pc.Sweep? && (s.pc.reason.Died? || s.pc.reason.Fatal?) ==> s.exitFlag)
    && (s.pc == Exited(Crash) ==> s.exitFlag)
    && (s.pc.Announce? ==> s.pc.reason.Died? || s.pc.reason.Fatal?)
    && (s.pc.Clear? ==> !s.pc.reason.Died? && !s.pc.reason.Fatal?)
  }

  predicate OnFast(pc: Pc) {
    (pc.Sweep? || pc.Clear?) && pc.reason == Fast
  }

  predicate OnSmart(pc: Pc) {
    (pc.Sweep? || pc.Clear?) && (pc.reason == Smart || pc.reason == SecondSmart)
  }

  /** Every broadcast begun is paid for by its own request. */
  ghost predicate Escalating(s: State) {
    && (OnFast(s.pc) ==> s.fast)
    && (OnSmart(s.pc) || s.pc == TestForce ==> s.smart)
    && s.seen.fasts <= s.seen.ints
    && s.seen.smarts + s.seen.seconds <= s.seen.terms
    && s.seen.smarts <= 1
    && (s.seen.seconds > 0 ==> s.seen.smarts == 1)
    && (!s.pc.Exited? ==>
          && s.seen.fasts + (if s.fast && !OnFast(s.pc) then 1 else 0) <= s.seen.ints
          && s.seen.smarts + s.seen.seconds + (if s.smart && !OnSmart(s.pc) then 1 else 0) <= s.seen.terms
          && (if s.force then s.seen.smarts == 1
              else if s.pc == SetForce || (OnSmart(s.pc) && s.pc.reason == Smart) then s.seen.smarts == 1 && s.seen.seconds == 0
              else s.seen.smarts == 0 && s.seen.seconds == 0)
          && (s.force && OnSmart(s.pc) ==> s.pc.reason == SecondSmart))
  }

  /** The part of the invariant that looks only at the main program. */
  ghost predicate Controlled(s: State) {
    && ValidConfig(s.conf)
    && Shaped(s) && Awake(s) && Escalating(s)
    && (s.pc.Exited? ==> s.pc.how != Unknown && s.pc.how != Abort)
  }

  ghost predicate Inv(s: State) {
    Controlled(s) && Accounted(s) && Booked(s) && Swept(s)
  }

  // ---------- kernel lemmas ----------

  lemma {:induction false} PostAllEffect(children: map<Pid, Child>, pids: seq<Pid>, sig: Signal)
    ensures PostAll(children, pids, sig).Keys == children.Keys
    ensures forall p :: p in children ==>
      var c, d := children[p], PostAll(children, pids, sig)[p];
      && d == c.(pending := d.pending) && c.pending <= d.pending
      && (p in pids && c.live ==> sig in d.pending)
      && (p !in pids ==> d == c)
  {
    if pids != [] {
      PostAllEffect(Post(children, pids[0], sig), pids[1..], sig);
    }
  }

  /** Among the unreaped children, a broadcast's targets are the workers and
      the monitor. */
  lemma TargetsAreNotAuxiliaries(s: State)
    requires Accounted(s) && !s.pc.Exited?
    ensures forall p :: p in s.children ==> (p in Targets(s.tables) <==> s.children[p].role != Auxiliary)
    ensures forall p :: p in Targets(s.tables) ==> p in s.children || p in Held(s.pc)
  {
    forall p | p in s.children
      ensures p in Targets(s.tables) <==> s.children[p].role != Auxiliary
    {
      assert RoleMatches(s.tables, p, s.children[p].role);
      assert p in Known(s.tables);
    }
    forall p | p in Targets(s.tables)
      ensures p in s.children || p in Held(s.pc)
    {
      assert p in Known(s.tables);
    }
  }

  // ---------- outside events ----------

  /** What an outside event may do to one child. */
  predicate AgedChild(c: Child, d: Child) {
    && d.role == c.role
    && (d.live ==> c.live)
    && d.pending <= c.pending
    && (Doomed(c) ==> Doomed(d))
    && (Asked(c) ==> Asked(d))
  }

  /** What an outside event may do to the system. */
  ghost predicate Aged(s: State, t: State) {
    && t == s.(children := t.children, pending := t.pending, exitFlag := t.exitFlag)
    && t.children.Keys == s.children.Keys
    && (forall p :: p in s.children ==> AgedChild(s.children[p], t.children[p]))
    && s.pending <= t.pending
    && (s.exitFlag ==> t.exitFlag)
    && (SomeZombie(t.children) ==> SomeZombie(s.children) || SIGCHLD in t.pending)
  }

  lemma NoNewZombie(before: map<Pid, Child>, after: map<Pid, Child>)
    requires after.Keys == before.Keys
    requires forall q :: q in after && !after[q].live ==> !before[q].live
    ensures SomeZombie(after) ==> SomeZombie(before)
  {
    if q :| q in after && !after[q].live { assert q in before && !before[q].live; }
  }

  lemma OutsideAges(s: State, e: Event)
    requires CanOutside(s, e)
    ensures Aged(s, DoOutside(s, e))
  {
    hide SomeZombie;
    match e
    case Arrive(sig) =>
    case ChildReady(p) => NoNewZombie(s.children, DoOutside(s, e).children);
    case ChildSignal(p, sig) =>
      var t := DoOutside(s, e);
      if t.children[p].live { NoNewZombie(s.children, t.children); }
    case ChildEnds(p) =>
    case RaiseExitFlag =>
  }

  lemma AgedKeeps(s: State, t: State)
    requires Aged(s, t) && Inv(s)
    ensures Inv(t)
  {
    AgedKeepsPids(s, t);
    AgedKeepsSwept(s, t);
  }

  lemma AgedKeepsPids(s: State, t: State)
    requires Aged(s, t) && Accounted(s) && Booked(s)
    ensures Accounted(t) && Booked(t)
  {
    assert forall p :: p in t.children ==> AgedChild(s.children[p], t.children[p]);
  }

  lemma AgedKeepsSwept(s: State, t: State)
    requires Aged(s, t) && Swept(s)
    ensures Swept(t)
  {
    assert forall p :: p in t.children ==> AgedChild(s.children[p], t.children[p]);
  }

  lemma OutsideKeeps(s: State, e: Event)
    requires CanOutside(s, e) && Inv(s)
    ensures Inv(DoOutside(s, e))
  {
    hide *;
    OutsideAges(s, e);
    AgedKeeps(s, DoOutside(s, e));
  }

  // ---------- signal handlers ----------

  lemma QuitKeepsSwept(s: State)
    requires CanHandle(s, SIGQUIT) && Accounted(s) && Swept(s)
    ensures Swept(Handled(s, SIGQUIT))
  {
    PostAllEffect(s.children, Targets(s.tables), SIGQUIT);
    TargetsAreNotAuxiliaries(s);
  }

  lemma QuitKeepsBooked(s: State)
    requires CanHandle(s, SIGQUIT) && Booked(s)
    ensures Booked(Handled(s, SIGQUIT))
  {
    PostAllEffect(s.children, Targets(s.tables), SIGQUIT);
    assert Handled(s, SIGQUIT).children.Keys == s.children.Keys;
  }

  lemma QuitKeeps(s: State)
    requires CanHandle(s, SIGQUIT) && Inv(s)
    ensures Inv(Handled(s, SIGQUIT))
  {
    hide Tallied, Ledger, AllDoomed, AllAsked, AuxiliariesUntouched;
    QuitKeepsSwept(s);
    QuitKeepsBooked(s);
  }

  lemma FlagKeeps(s: State, sig: Signal)
    requires CanHandle(s, sig) && sig != SIGQUIT && Inv(s)
    ensures Inv(Handled(s, sig))
  {
    hide Tallied, Ledger, AllDoomed, AllAsked, AuxiliariesUntouched;
    match sig
    case SIGTERM =>
    case SIGINT =>
    case SIGCHLD =>
  }

  lemma NoWriteKeeps(s: State, sig: Signal)
    requires CanHandle(s, sig) && sig != SIGQUIT && Inv(s)
    ensures Inv(HandledNoWrite(s, sig))
  {
    hide Tallied, AllDoomed, AllAsked, AuxiliariesUntouched, SomeZombie;
  }

  // ---------- startup ----------

  lemma ForkWellFormed(t: Tables, role: Role, p: Pid)
    requires WellFormed(t) && p > 0 && p !in Known(t)
    requires forall i :: 0 <= i < |t.auxiliaries| <= |t.processes| ==> t.processes[i].pid == t.auxiliaries[i]
    requires role == Auxiliary ==> |t.auxiliaries| < |t.processes|
    requires role == Monitor ==> t.monitor == NO_PID
    ensures WellFormed(Record(t, role, p))
    ensures Known(Record(t, role, p)) == Known(t) + {p}
  {
    var t' := Record(t, role, p);
    if role == Auxiliary {
      forall q | q in t'.auxiliaries
        ensures HasProcess(t'.processes, q)
      {
        var k :| 0 <= k < |t'.auxiliaries| && t'.auxiliaries[k] == q;
        assert t'.processes[k].pid == q;
      }
    }
    assert forall x :: x in Known(t') <==> x in Known(t) || x == p;
  }

  lemma ForkTallied(t: Tables, children: map<Pid, Child>, role: Role, p: Pid)
    requires Tallied(t, children, {}) && p > 0 && p !in children
    requires forall i :: 0 <= i < |t.auxiliaries| <= |t.processes| ==> t.processes[i].pid == t.auxiliaries[i]
    requires role == Auxiliary ==> |t.auxiliaries| < |t.processes|
    requires role == Monitor ==> t.monitor == NO_PID
    ensures Tallied(Record(t, role, p), children[p := Child(role, true, true, {}, false)], {})
  {
    hide WellFormed;
    ForkWellFormed(t, role, p);
  }

  lemma ForkKeepsAccounts(s: State, p: Pid)
    requires CanBoot(s, Fork(p)) && Accounted(s) && Shaped(s)
    ensures Accounted(DoBoot(s, Fork(p)))
  {
    hide Tallied;
    ForkTallied(s.tables, s.children, NextRole(s), p);
  }

  /** A new child is a new entry. */
  lemma ForkLedger(children: set<Pid>, forked: set<Pid>, reaped: seq<Pid>, p: Pid)
    requires Ledger(children, forked, reaped, {}) && p !in children && p !in reaped
    ensures Ledger(children + {p}, forked + {p}, reaped, {}) && |forked + {p}| == |forked| + 1
  {
  }

  lemma PartialSizes(t: Tables, nworkers: nat)
    requires Partial(t, nworkers)
    ensures |t.auxiliaries| <= |t.processes| && |t.workers| <= nworkers
    ensures t.workers != [] ==> |t.auxiliaries| == |t.processes|
  {
  }

  lemma ForkKeepsBooks(s: State, p: Pid)
    requires CanBoot(s, Fork(p)) && Booked(s) && Shaped(s)
    ensures Booked(DoBoot(s, Fork(p)))
  {
    hide Ledger, Partial;
    assert Held(s.pc) == {};
    assert DoBoot(s, Fork(p)).children.Keys == s.children.Keys + {p};
    ForkLedger(s.children.Keys, s.seen.forked, s.seen.reaped, p);
    PartialSizes(s.tables, s.conf.nworkers);
  }

  lemma ForkKeepsControl(s: State, p: Pid)
    requires CanBoot(s, Fork(p)) && Controlled(s)
    ensures Controlled(DoBoot(s, Fork(p)))
  {
    var t := DoBoot(s, Fork(p));
    if q :| q in t.children && !t.children[q].live { assert !s.children[q].live; }
  }

  lemma ForkKeeps(s: State, p: Pid)
    requires CanBoot(s, Fork(p)) && Inv(s)
    ensures Inv(DoBoot(s, Fork(p)))
  {
    hide Awake, Escalating, Booked, Accounted;
    ForkKeepsAccounts(s, p);
    ForkKeepsBooks(s, p);
    ForkKeepsControl(s, p);
  }

  lemma BootKeeps(s: State, b: BootStep)
    requires CanBoot(s, b) && Inv(s)
    ensures Inv(DoBoot(s, b))
  {
    hide Tallied, Ledger, AllDoomed, AllAsked, AuxiliariesUntouched, SomeZombie;
    match b
    case Fork(p) => ForkKeeps(s, p);
    case InstallHandler =>
    case UnblockSignals =>
  }

  // ---------- select and drain ----------

  lemma PollKeeps(s: State, p: PollStep)
    requires CanPoll(s, p) && Inv(s)
    ensures Inv(DoPoll(s, p))
  {
    hide Tallied, Ledger, AllDoomed, AllAsked, AuxiliariesUntouched, SomeZombie;
    match p
    case SelectTimeout =>
    case SelectInterrupted =>
    case SelectReadable =>
    case DrainRead(n) =>
    case DrainInterrupted =>
    case DrainEmpty =>
  }

  // ---------- broadcasts ----------

  /** kill() takes its target off the list of those still to be reached, and
      takes back nothing that was reached before. */
  lemma PostReaches(children: map<Pid, Child>, todo: seq<Pid>, sig: Signal)
    requires todo != []
    ensures AllDoomed(children, []) ==> AllDoomed(Post(children, todo[0], sig), [])
    ensures AllAsked(children, []) ==> AllAsked(Post(children, todo[0], sig), [])
    ensures sig == SIGQUIT && AllDoomed(children, todo) ==> AllDoomed(Post(children, todo[0], sig), todo[1..])
    ensures sig == SIGTERM && AllAsked(children, todo) ==> AllAsked(Post(children, todo[0], sig), todo[1..])
  {
  }

  lemma KillKeepsSwept(s: State)
    requires CanRelay(s, Kill) && Accounted(s) && Swept(s)
    ensures Swept(DoRelay(s, Kill))
  {
    hide AllDoomed, AllAsked, Tallied;
    TargetsAreNotAuxiliaries(s);
    PostReaches(s.children, s.pc.todo, SignalOf(s.pc.reason));
    var t := DoRelay(s, Kill);
    assert s.pc.todo[0] in s.seen.struck + s.pc.todo;
    assert t.seen.struck + t.pc.todo == s.seen.struck + s.pc.todo;
  }

  lemma KillKeepsPids(s: State)
    requires CanRelay(s, Kill) && Accounted(s) && Booked(s)
    ensures Accounted(DoRelay(s, Kill)) && Booked(DoRelay(s, Kill))
  {
    hide WellFormed, Ledger;
    assert DoRelay(s, Kill).children.Keys == s.children.Keys;
  }

  lemma KillKeeps(s: State)
    requires CanRelay(s, Kill) && Inv(s)
    ensures Inv(DoRelay(s, Kill))
  {
    hide Accounted, Booked, Swept;
    KillKeepsPids(s);
    KillKeepsSwept(s);
  }

  lemma BeginKeepsSwept(s: State, r: Reason)
    requires Accounted(s) && Swept(s) && !s.pc.Exited?
    requires r.Died? || r.Fatal? ==> s.exitFlag
    ensures Swept(Begin(s, r))
  {
    hide Tallied;
    TargetsAreNotAuxiliaries(s);
  }

  predicate MayBegin(s: State, r: Reason) {
    match r
    case Fast => s.pc == TestFast && s.fast
    case Smart => s.pc == TestForce && !s.force
    case SecondSmart => s.pc == TestForce && s.force
    case _ => s.pc == Announce(r) && s.exitFlag
  }

  lemma BeginKeeps(s: State, r: Reason)
    requires Inv(s) && MayBegin(s, r)
    ensures Inv(Begin(s, r))
  {
    hide Tallied, Ledger, Swept, SomeZombie;
    BeginKeepsSwept(s, r);
  }

  lemma PassKeeps(s: State, next: Pc)
    requires Inv(s)
    requires || (s.pc == TestFast && !s.fast && next == TestSmart)
             || (s.pc == TestSmart && next == if s.smart then TestForce else WaitPid)
    ensures Inv(s.(pc := next))
  {
    hide Tallied, Ledger, AllDoomed, AllAsked, AuxiliariesUntouched, SomeZombie;
  }

  lemma TestKeeps(s: State)
    requires CanRelay(s, Test) && Inv(s)
    ensures Inv(DoRelay(s, Test))
  {
    hide Controlled, Accounted, Booked, Swept, Begin;
    match s.pc
    case TestFast => if s.fast { BeginKeeps(s, Fast); } else { PassKeeps(s, TestSmart); }
    case TestSmart => PassKeeps(s, if s.smart then TestForce else WaitPid);
    case TestForce => BeginKeeps(s, if s.force then SecondSmart else Smart);
  }

  lemma AnnounceKeeps(s: State)
    requires CanRelay(s, AnnounceExit) && Inv(s)
    ensures Inv(DoRelay(s, AnnounceExit))
  {
    hide Tallied, Ledger, AllDoomed, AllAsked, AuxiliariesUntouched, SomeZombie, Begin;
    BeginKeeps(s.(exitFlag := true), s.pc.reason);
  }

  lemma EndSweepKeeps(s: State)
    requires CanRelay(s, EndSweep) && Inv(s)
    ensures Inv(DoRelay(s, EndSweep))
  {
    hide Tallied, AuxiliariesUntouched, SomeZombie;
  }

  lemma ClearFastKeeps(s: State)
    requires s.pc == Clear(Fast) && Inv(s)
    ensures Inv(s.(fast := false, pc := WaitPid))
  {
    hide Tallied, Ledger, AllDoomed, AllAsked, AuxiliariesUntouched, SomeZombie;
  }

  lemma ClearSmartKeeps(s: State)
    requires (s.pc == Clear(Smart) || s.pc == Clear(SecondSmart)) && Inv(s)
    ensures Inv(s.(smart := false, pc := if s.pc == Clear(Smart) then SetForce else WaitPid))
  {
    hide Tallied, Ledger, AllDoomed, AllAsked, AuxiliariesUntouched, SomeZombie;
  }

  lemma ClearKeeps(s: State)
    requires CanRelay(s, ClearFlag) && Inv(s)
    ensures Inv(DoRelay(s, ClearFlag))
  {
    hide Controlled, Accounted, Booked, AllDoomed, AllAsked, AuxiliariesUntouched;
    if s.pc == Clear(Fast) { ClearFastKeeps(s); } else { ClearSmartKeeps(s); }
  }

  lemma ForceKeeps(s: State)
    requires CanRelay(s, RaiseForce) && Inv(s)
    ensures Inv(DoRelay(s, RaiseForce))
  {
    hide Tallied, Ledger, AllDoomed, AllAsked, AuxiliariesUntouched, SomeZombie;
  }

  lemma FailKeeps(s: State)
    requires CanRelay(s, SyscallFails) && Inv(s)
    ensures Inv(DoRelay(s, SyscallFails))
  {
    hide Tallied, Ledger, AllDoomed, AllAsked, AuxiliariesUntouched, SomeZombie;
  }

  lemma RelayKeeps(s: State, r: RelayStep)
    requires CanRelay(s, r) && Inv(s)
    ensures Inv(DoRelay(s, r))
  {
    hide *;
    match r
    case Test => TestKeeps(s);
    case Kill => KillKeeps(s);
    case EndSweep => EndSweepKeeps(s);
    case ClearFlag => ClearKeeps(s);
    case RaiseForce => ForceKeeps(s);
    case AnnounceExit => AnnounceKeeps(s);
    case SyscallFails => FailKeeps(s);
  }

  // ---------- waitpid ----------

  lemma ReapKeepsPids(s: State, p: Pid)
    requires CanWait(s, Reap(p)) && Inv(s)
    ensures Accounted(DoWait(s, Reap(p))) && Booked(DoWait(s, Reap(p)))
  {
    hide WellFormed;
    assert DoWait(s, Reap(p)).children.Keys == s.children.Keys - {p};
  }

  lemma ReapKeeps(s: State, p: Pid)
    requires CanWait(s, Reap(p)) && Inv(s)
    ensures Inv(DoWait(s, Reap(p)))
  {
    hide Tallied, Ledger;
    ReapKeepsPids(s, p);
  }

  lemma JudgeVerdict(s: State)
    requires CanWait(s, JudgeDeath) && Accounted(s)
    ensures DoWait(s, JudgeDeath) == s.(pc := if s.shutdown then Erase(s.pc.pid) else Announce(Died(s.pc.pid)))
  {
    hide WellFormed, Judge;
    VerdictOfWellFormed(s.tables, s.pc.pid, s.shutdown);
  }

  lemma JudgeKeeps(s: State)
    requires CanWait(s, JudgeDeath) && Inv(s)
    ensures Inv(DoWait(s, JudgeDeath))
  {
    hide Tallied, Ledger, AllDoomed, AllAsked, AuxiliariesUntouched, SomeZombie, DoWait;
    JudgeVerdict(s);
  }

  lemma EraseKeepsTally(t: Tables, children: map<Pid, Child>, p: Pid)
    requires Tallied(t, children, {p})
    ensures Tallied(Forget(t, p), children, {})
  {
    hide Without;
    ForgetRemoves(t, p);
  }

  lemma EraseKeeps(s: State)
    requires CanWait(s, EraseChild) && Inv(s)
    ensures Inv(DoWait(s, EraseChild))
  {
    hide Tallied, AllDoomed, AllAsked, AuxiliariesUntouched, SomeZombie, Without;
    EraseKeepsTally(s.tables, s.children, s.pc.pid);
  }

  lemma NoChildrenNoTables(s: State)
    requires CanWait(s, NoChildren) && Accounted(s) && Shaped(s)
    ensures s.shutdown
  {
    assert s.tables.monitor in Known(s.tables) <==> s.tables.monitor != NO_PID;
  }

  lemma IdleWaitKeeps(s: State, w: WaitStep)
    requires (w.ReapNone? || w.ReapInterrupted? || w.NoChildren?) && CanWait(s, w) && Inv(s)
    ensures Inv(DoWait(s, w))
  {
    hide Tallied, Ledger, AllDoomed, AllAsked, AuxiliariesUntouched, SomeZombie;
    if w.NoChildren? { NoChildrenNoTables(s); }
  }

  lemma WaitKeeps(s: State, w: WaitStep)
    requires CanWait(s, w) && Inv(s)
    ensures Inv(DoWait(s, w))
  {
    hide *;
    match w
    case Reap(p) => ReapKeeps(s, p);
    case JudgeDeath => JudgeKeeps(s);
    case EraseChild => EraseKeeps(s);
    case _ => IdleWaitKeeps(s, w);
  }

  // ---------- every step, every run ----------

  lemma StepKeeps(s: State, a: Action)
    requires Can(s, a) && Inv(s)
    ensures Inv(Do(s, a))
  {
    hide Inv;
    match a
    case Outside(e) => OutsideKeeps(s, e);
    case Handle(sig) => if sig == SIGQUIT { QuitKeeps(s); } else { FlagKeeps(s, sig); }
    case HandleNoWrite(sig) => NoWriteKeeps(s, sig);
    case Boot(b) => BootKeeps(s, b);
    case Poll(p) => PollKeeps(s, p);
    case Relay(r) => RelayKeeps(s, r);
    case Wait(w) => WaitKeeps(s, w);
  }

  lemma InitHolds(conf: Config, names: seq<string>)
    requires ValidConfig(conf)
    ensures Inv(Init(conf, names))
  {
  }

  lemma {:induction false} RunKeeps(s: State, acts: seq<Action>)
    requires Inv(s) && Runs(s, acts)
    ensures Inv(After(s, acts))
    decreases |acts|
  {
    hide Inv, Can, Do;
    if acts != [] {
      StepKeeps(s, acts[0]);
      RunKeeps(Do(s, acts[0]), acts[1..]);
    }
  }
}
