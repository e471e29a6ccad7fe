/** What the invariants of the supervision protocol say about every run from
    the start of the program. */
module SupervisorTheorems {
  import opened PidTables
  import opened Supervisor
  import opened SupervisorInvariants

  // ---------- runs and their prefixes ----------

  /** What is left after a prefix is a run from where the prefix ends. */
  lemma {:induction false} Suffix(s: State, acts: seq<Action>, k: nat)
    requires Runs(s, acts) && k <= |acts|
    ensures Runs(s, acts[..k])
    ensures Runs(After(s, acts[..k]), acts[k..]) && After(After(s, acts[..k]), acts[k..]) == After(s, acts)
    decreases k
  {
    hide Can, Do;
    if k > 0 {
      Suffix(Do(s, acts[0]), acts[1..], k - 1);
      assert acts[..k][1..] == acts[1..][..k - 1];
      assert acts[1..][k - 1..] == acts[k..];
    } else {
      assert acts[..0] == [] && acts[0..] == acts;
    }
  }

  lemma RunsOne(s: State, a: Action, rest: seq<Action>)
    requires Can(s, a) && Runs(Do(s, a), rest)
    ensures Runs(s, [a] + rest) && After(s, [a] + rest) == After(Do(s, a), rest)
  {
    hide Can, Do;
    assert ([a] + rest)[1..] == rest;
  }

  lemma {:induction false} Compose(s: State, first: seq<Action>, second: seq<Action>)
    requires Runs(s, first) && Runs(After(s, first), second)
    ensures Runs(s, first + second) && After(s, first + second) == After(After(s, first), second)
    decreases |first|
  {
    hide Can, Do;
    if first == [] {
      assert first + second == second;
    } else {
      Compose(Do(s, first[0]), first[1..], second);
      assert (first + second)[1..] == first[1..] + second;
    }
  }

  lemma Extend(s: State, acts: seq<Action>, a: Action)
    requires Runs(s, acts) && Can(After(s, acts), a)
    ensures Runs(s, acts + [a]) && After(s, acts + [a]) == Do(After(s, acts), a)
  {
    hide Can, Do;
    RunsOne(After(s, acts), a, []);
    Compose(s, acts, [a]);
    assert [a] + [] == [a];
  }

  // ---------- the history variables mean what they say ----------

  /** One if step `a`, leading to `t`, begins a broadcast for `r`. */
  function Opens(a: Action, t: State, r: Reason): nat {
    if a == Relay(Test) && t.pc.Sweep? && t.pc.reason == r then 1 else 0
  }

  function One(b: bool): nat { if b then 1 else 0 }

  predicate Handles(a: Action, sig: Signal) {
    a == Handle(sig) || a == HandleNoWrite(sig)
  }

  function ReapedBy(a: Action): seq<Pid> {
    if a.Wait? && a.wait.Reap? then [a.wait.pid] else []
  }

  /** How one step changes the history and what it leaves alone. */
  ghost predicate Advances(s: State, a: Action, t: State) {
    && t.conf == s.conf
    && t.mask == (if a == Boot(UnblockSignals) then s.conf.inherited else s.mask)
    && |t.tables.processes| == |s.tables.processes|
    && t.shutdown == (s.shutdown || Handles(a, SIGTERM) || Handles(a, SIGINT))
    && t.seen.terms == s.seen.terms + One(Handles(a, SIGTERM))
    && t.seen.ints == s.seen.ints + One(Handles(a, SIGINT))
    && t.seen.fasts == s.seen.fasts + Opens(a, t, Fast)
    && t.seen.smarts == s.seen.smarts + Opens(a, t, Smart)
    && t.seen.seconds == s.seen.seconds + Opens(a, t, SecondSmart)
    && t.seen.reaped == s.seen.reaped + ReapedBy(a)
  }

  lemma TestAdvances(s: State)
    requires CanRelay(s, Test)
    ensures Advances(s, Relay(Test), DoRelay(s, Test))
  {
    hide Targets;
    match s.pc
    case TestFast =>
    case TestSmart =>
    case TestForce =>
  }

  /** A step that begins, handles and reaps nothing leaves the history alone. */
  lemma StillAdvances(s: State, a: Action, t: State)
    requires (a.Relay? && a.relay != Test) || a.Poll? || (a.Wait? && !a.wait.Reap?)
    requires t.conf == s.conf && t.mask == s.mask && t.tables == s.tables && t.shutdown == s.shutdown
    requires t.seen == s.seen.(struck := t.seen.struck, quitSwept := t.seen.quitSwept)
    ensures Advances(s, a, t)
  {
    assert s.seen.reaped + [] == s.seen.reaped;
  }

  lemma RelayAdvances(s: State, r: RelayStep)
    requires CanRelay(s, r) && r != Test && (s.pc.Announce? ==> s.pc.reason.Died? || s.pc.reason.Fatal?)
    ensures Advances(s, Relay(r), DoRelay(s, r))
  {
    hide Post, Advances, Targets;
    var t := DoRelay(s, r);
    match r
    case Kill => StillAdvances(s, Relay(r), t);
    case EndSweep => StillAdvances(s, Relay(r), t);
    case ClearFlag => StillAdvances(s, Relay(r), t);
    case RaiseForce => StillAdvances(s, Relay(r), t);
    case AnnounceExit => StillAdvances(s, Relay(r), t);
    case SyscallFails => StillAdvances(s, Relay(r), t);
  }

  lemma JudgeAdvances(s: State)
    requires CanWait(s, JudgeDeath) && Accounted(s)
    ensures Advances(s, Wait(JudgeDeath), DoWait(s, JudgeDeath))
  {
    hide DoWait, Tallied;
    JudgeVerdict(s);
  }

  lemma WaitAdvances(s: State, w: WaitStep)
    requires CanWait(s, w) && Accounted(s)
    ensures Advances(s, Wait(w), DoWait(s, w))
  {
    hide Judge, Without, Tallied;
    match w
    case Reap(p) =>
    case ReapNone =>
    case ReapInterrupted =>
    case NoChildren =>
    case JudgeDeath => JudgeAdvances(s);
    case EraseChild =>
  }

  lemma HandleAdvances(s: State, sig: Signal)
    requires CanHandle(s, sig)
    ensures Advances(s, Handle(sig), Supervisor.Handled(s, sig))
  {
    hide PostAll;
  }

  lemma NoWriteAdvances(s: State, sig: Signal)
    requires CanHandle(s, sig) && sig != SIGQUIT
    ensures Advances(s, HandleNoWrite(sig), HandledNoWrite(s, sig))
  {
  }

  lemma OutsideAdvances(s: State, e: Event)
    requires CanOutside(s, e)
    ensures Advances(s, Outside(e), DoOutside(s, e))
  {
    OutsideAges(s, e);
  }

  lemma BootAdvances(s: State, b: BootStep)
    requires CanBoot(s, b)
    ensures Advances(s, Boot(b), DoBoot(s, b))
  {
  }

  lemma PollAdvances(s: State, p: PollStep)
    requires CanPoll(s, p)
    ensures Advances(s, Poll(p), DoPoll(s, p))
  {
  }

  lemma StepAdvances(s: State, a: Action)
    requires Can(s, a) && Swept(s) && Accounted(s)
    ensures Advances(s, a, Do(s, a))
  {
    hide DoOutside, Supervisor.Handled, DoBoot, DoPoll, DoRelay, DoWait, Advances, AllDoomed, AllAsked, AuxiliariesUntouched,
         Accounted, CanOutside, CanBoot, CanPoll, CanRelay, CanWait;
    match a
    case Outside(e) => OutsideAdvances(s, e);
    case Handle(sig) => HandleAdvances(s, sig);
    case HandleNoWrite(sig) => NoWriteAdvances(s, sig);
    case Boot(b) => BootAdvances(s, b);
    case Poll(p) => PollAdvances(s, p);
    case Relay(r) => if r == Test { TestAdvances(s); } else { RelayAdvances(s, r); }
    case Wait(w) => WaitAdvances(s, w);
  }

  function TimesHandled(acts: seq<Action>, sig: Signal): nat {
    if acts == [] then 0 else One(Handles(acts[0], sig)) + TimesHandled(acts[1..], sig)
  }

  /** How many broadcasts for `r` the loop begins in the run `acts` from `s`. */
  function Broadcasts(s: State, acts: seq<Action>, r: Reason): nat
    requires Runs(s, acts)
    decreases |acts|
  {
    if acts == [] then 0
    else var t := Do(s, acts[0]); Opens(acts[0], t, r) + Broadcasts(t, acts[1..], r)
  }

  function ReapedIn(acts: seq<Action>): seq<Pid> {
    if acts == [] then [] else ReapedBy(acts[0]) + ReapedIn(acts[1..])
  }

  lemma {:induction false} TraceOf(s: State, acts: seq<Action>)
    requires Inv(s) && Runs(s, acts)
    ensures var t := After(s, acts);
      && t.conf == s.conf
      && |t.tables.processes| == |s.tables.processes|
      && t.shutdown == (s.shutdown || TimesHandled(acts, SIGTERM) + TimesHandled(acts, SIGINT) > 0)
      && t.seen.terms == s.seen.terms + TimesHandled(acts, SIGTERM)
      && t.seen.ints == s.seen.ints + TimesHandled(acts, SIGINT)
      && t.seen.fasts == s.seen.fasts + Broadcasts(s, acts, Fast)
      && t.seen.smarts == s.seen.smarts + Broadcasts(s, acts, Smart)
      && t.seen.seconds == s.seen.seconds + Broadcasts(s, acts, SecondSmart)
      && t.seen.reaped == s.seen.reaped + ReapedIn(acts)
    decreases |acts|
  {
    hide Can, Do, Controlled, Accounted, Booked, Swept, Opens;
    if acts != [] {
      StepAdvances(s, acts[0]);
      StepKeeps(s, acts[0]);
      TraceOf(Do(s, acts[0]), acts[1..]);
    }
  }

  ghost predicate Reached(conf: Config, names: seq<string>, acts: seq<Action>) {
    ValidConfig(conf) && Runs(Init(conf, names), acts)
  }

  lemma ReachedInv(conf: Config, names: seq<string>, acts: seq<Action>)
    requires Reached(conf, names, acts)
    ensures Inv(After(Init(conf, names), acts))
  {
    InitHolds(conf, names);
    RunKeeps(Init(conf, names), acts);
  }

  // ---------- no lost wake-up ----------

  /** Whenever the overseer is about to block in select(): a set fast flag
      means the pipe is readable; an unreaped dead child means the pipe is
      readable or a SIGCHLD is pending; and a smart flag left behind an empty
      pipe means every worker and the monitor already have a SIGQUIT. */
  lemma NoLostWakeup(conf: Config, names: seq<string>, acts: seq<Action>)
    requires Reached(conf, names, acts)
    requires After(Init(conf, names), acts).pc == Select
    ensures var s := After(Init(conf, names), acts);
      && (s.fast ==> s.pipe > 0)
      && (SomeZombie(s.children) ==> s.pipe > 0 || SIGCHLD in s.pending)
      && (s.smart && s.pipe == 0 ==> s.seen.quitSwept && AllDoomed(s.children, []))
  {
    hide Runs, After;
    ReachedInv(conf, names, acts);
  }

  // ---------- handlers run between any two steps ----------

  /** Signals are blocked until the run has unblocked them, and from then on the
      mask is the one the overseer was started with. */
  lemma {:induction false} MaskOf(s: State, acts: seq<Action>)
    requires Inv(s) && Runs(s, acts)
    ensures After(s, acts).mask == if Boot(UnblockSignals) in acts then s.conf.inherited else s.mask
    decreases |acts|
  {
    hide Can, Do, Controlled, Accounted, Booked, Swept;
    if acts != [] {
      StepAdvances(s, acts[0]);
      StepKeeps(s, acts[0]);
      MaskOf(Do(s, acts[0]), acts[1..]);
    }
  }

  /** When a handler can run: in every reachable state of a running overseer,
      wherever its main program is, a signal that arrives can be handled at once
      if and only if UnblockSignals() is behind it and the overseer was not
      started with that signal blocked. */
  lemma HandlerRunsIff(conf: Config, names: seq<string>, acts: seq<Action>, sig: Signal)
    requires Reached(conf, names, acts) && !After(Init(conf, names), acts).pc.Exited?
    ensures var s := After(Init(conf, names), acts);
      && Can(s, Outside(Arrive(sig)))
      && (Can(Do(s, Outside(Arrive(sig))), Handle(sig)) <==> Boot(UnblockSignals) in acts && sig !in conf.inherited)
      && (Can(Do(s, Outside(Arrive(sig))), HandleNoWrite(sig)) <==>
            Boot(UnblockSignals) in acts && sig !in conf.inherited && sig != SIGQUIT)
  {
    hide Runs, After;
    InitHolds(conf, names);
    MaskOf(Init(conf, names), acts);
    TraceOf(Init(conf, names), acts);
  }

  /** What handling a signal leaves, wherever the main program is: the request is
      noted, a byte is in the pipe unless it is full, and the main program is
      where it was; or, for SIGQUIT, all live targets have a SIGQUIT and the
      overseer is gone. */
  lemma HandlerEffect(conf: Config, names: seq<string>, acts: seq<Action>, sig: Signal)
    requires Reached(conf, names, acts) && !After(Init(conf, names), acts).pc.Exited?
    requires Boot(UnblockSignals) in acts && sig !in conf.inherited
    ensures Runs(After(Init(conf, names), acts), [Outside(Arrive(sig)), Handle(sig)])
    ensures var s := After(Init(conf, names), acts);
      var t := After(s, [Outside(Arrive(sig)), Handle(sig)]);
      && t.pc == (if sig == SIGQUIT then Exited(Quit) else s.pc)
      && t.shutdown == (s.shutdown || sig == SIGTERM || sig == SIGINT)
      && t.smart == (s.smart || sig == SIGTERM) && t.fast == (s.fast || sig == SIGINT)
      && t.pipe == (if sig == SIGQUIT || s.pipe >= conf.capacity then s.pipe else s.pipe + 1)
      && t.force == s.force && t.exitFlag == s.exitFlag && t.mask == s.mask && t.tables == s.tables
      && t.pending == s.pending - {sig}
      && t.children.Keys == s.children.Keys
      && (forall p :: p in s.children ==>
            if sig == SIGQUIT && s.children[p].role != Auxiliary
            then s.children[p].live ==> SIGQUIT in t.children[p].pending
            else t.children[p] == s.children[p])
  {
    hide Runs, After, Supervisor.Handled, Inv;
    var s := After(Init(conf, names), acts);
    var m := Do(s, Outside(Arrive(sig)));
    HandlerRunsIff(conf, names, acts, sig);
    RunsTwo(s, Outside(Arrive(sig)), Handle(sig));
    ReachedInv(conf, names, acts);
    InitHolds(conf, names);
    TraceOf(Init(conf, names), acts);
    StepKeeps(s, Outside(Arrive(sig)));
    HandledEffect(m, sig);
    assert (s.pending + {sig}) - {sig} == s.pending - {sig};
  }

  lemma RunsTwo(s: State, a: Action, b: Action)
    requires Can(s, a) && Can(Do(s, a), b)
    ensures Runs(s, [a, b]) && After(s, [a, b]) == Do(Do(s, a), b)
  {
    hide Can, Do;
    RunsOne(Do(s, a), b, []);
    RunsOne(s, a, [b] + []);
    assert [a, b] == [a] + ([b] + []);
  }

  lemma HandledEffect(s: State, sig: Signal)
    requires Inv(s) && !s.pc.Exited?
    ensures var t := Supervisor.Handled(s, sig);
      && t.pc == (if sig == SIGQUIT then Exited(Quit) else s.pc)
      && t.shutdown == (s.shutdown || sig == SIGTERM || sig == SIGINT)
      && t.smart == (s.smart || sig == SIGTERM) && t.fast == (s.fast || sig == SIGINT)
      && t.pipe == (if sig == SIGQUIT || s.pipe >= s.conf.capacity then s.pipe else s.pipe + 1)
      && t.force == s.force && t.exitFlag == s.exitFlag && t.mask == s.mask && t.tables == s.tables
      && t.pending == s.pending - {sig}
      && t.children.Keys == s.children.Keys
      && (forall p :: p in s.children ==>
            if sig == SIGQUIT && s.children[p].role != Auxiliary
            then s.children[p].live ==> SIGQUIT in t.children[p].pending
            else t.children[p] == s.children[p])
  {
    hide Controlled, Booked, Swept, PostAll, Targets, Tallied;
    TargetsAreNotAuxiliaries(s);
    PostAllEffect(s.children, Targets(s.tables), SIGQUIT);
  }

  /** What the kernel may answer, exactly: select() times out on an empty pipe
      and is readable on another; read() takes from one to ten bytes, as many as
      there are at most; waitpid() gives any dead child, nothing while others
      live, and ECHILD without children; EINTR needs a handler run since the
      last one; fork() gives any pid not in use. */
  lemma KernelAnswers(s: State, n: nat, p: Pid)
    ensures s.pc == Select ==>
      && (Can(s, Poll(SelectTimeout)) <==> s.pipe == 0) && (Can(s, Poll(SelectReadable)) <==> s.pipe > 0)
      && (Can(s, Poll(SelectInterrupted)) <==> s.interrupted) && Can(s, Relay(SyscallFails))
    ensures s.pc == Drain ==>
      && (Can(s, Poll(DrainRead(n))) <==> 1 <= n <= 10 && n <= s.pipe) && (Can(s, Poll(DrainEmpty)) <==> s.pipe == 0)
      && (Can(s, Poll(DrainInterrupted)) <==> s.interrupted) && Can(s, Relay(SyscallFails))
    ensures s.pc == WaitPid ==>
      && (Can(s, Wait(Reap(p))) <==> p in s.children && !s.children[p].live)
      && (Can(s, Wait(ReapNone)) <==> s.children != map[] && forall q :: q in s.children ==> s.children[q].live)
      && (Can(s, Wait(NoChildren)) <==> s.children == map[])
      && (Can(s, Wait(ReapInterrupted)) <==> s.interrupted) && Can(s, Relay(SyscallFails))
    ensures s.pc == Spawn ==> (Can(s, Boot(Fork(p))) <==> p > 0 && p !in s.children) && Can(s, Relay(SyscallFails))
  {
  }

  /** Children are free: whatever the overseer is doing, a live child, and no
      other, may end at any moment, finish its set-up, or get a pending signal
      that its mask lets through; a death leaves a zombie and a SIGCHLD, and no
      other child is touched. */
  lemma ChildrenAreFree(s: State, p: Pid, sig: Signal)
    ensures Can(s, Outside(ChildEnds(p))) <==> p in s.children && s.children[p].live
    ensures Can(s, Outside(ChildReady(p))) <==> p in s.children && s.children[p].live && s.children[p].booting
    ensures Can(s, Outside(ChildSignal(p, sig))) <==>
      && p in s.children && s.children[p].live && !s.children[p].booting
      && sig in s.children[p].pending && sig !in s.conf.inherited
    ensures Can(s, Outside(RaiseExitFlag)) <==> !s.exitFlag
    ensures p in s.children && s.children[p].live ==>
      Do(s, Outside(ChildEnds(p)))
      == s.(children := s.children[p := s.children[p].(live := false)], pending := s.pending + {SIGCHLD})
    ensures Can(s, Outside(ChildReady(p))) ==>
      Do(s, Outside(ChildReady(p))) == s.(children := s.children[p := s.children[p].(booting := false)])
    ensures Can(s, Outside(ChildSignal(p, sig))) ==>
      var c, t := s.children[p], Do(s, Outside(ChildSignal(p, sig)));
      && t.children.Keys == s.children.Keys && (forall q :: q in s.children && q != p ==> t.children[q] == s.children[q])
      && (t.children[p].live <==> if c.role == Worker then sig != SIGQUIT else sig == SIGCHLD)
      && (!t.children[p].live ==> SIGCHLD in t.pending)
      && t.children[p].pending == c.pending - {sig}
      && (t.children[p].stopAsked <==> c.stopAsked || (c.role == Worker && sig == SIGTERM))
  {
  }

  // ---------- accounting ----------

  /** When no reaped pid is being handled, the tables hold exactly the unreaped
      children, each once; and the unknown-child and abort() exits are never
      taken. */
  lemma ExactAccounting(conf: Config, names: seq<string>, acts: seq<Action>)
    requires Reached(conf, names, acts)
    ensures var s := After(Init(conf, names), acts);
      && (!s.pc.Exited? ==> WellFormed(s.tables) && Known(s.tables) == s.children.Keys + Held(s.pc))
      && (s.pc.Exited? ==> s.pc.how != Unknown && s.pc.how != Abort)
  {
    hide Runs, After, WellFormed;
    ReachedInv(conf, names, acts);
  }

  /** Until a SIGTERM or SIGINT is handled every table is complete whenever a
      handler can run, so no handler sees a half-built table. */
  lemma HandlersSeeCompleteTables(conf: Config, names: seq<string>, acts: seq<Action>, sig: Signal)
    requires Reached(conf, names, acts)
    requires Can(After(Init(conf, names), acts), Handle(sig))
    ensures var s := After(Init(conf, names), acts);
      !s.shutdown ==> Complete(s) && |s.seen.forked| == |names| + conf.nworkers + 1
  {
    hide Runs, After;
    ReachedInv(conf, names, acts);
    InitHolds(conf, names);
    TraceOf(Init(conf, names), acts);
  }

  /** Until a SIGTERM or SIGINT is handled, the started overseer has all its
      workers, auxiliaries and the monitor in its tables. */
  lemma CompleteUntilStopped(conf: Config, names: seq<string>, acts: seq<Action>)
    requires Reached(conf, names, acts)
    requires TimesHandled(acts, SIGTERM) + TimesHandled(acts, SIGINT) == 0
    requires var s := After(Init(conf, names), acts); !s.pc.Exited? && s.pc != Spawn && !FatalPath(s.pc)
    ensures var t := After(Init(conf, names), acts).tables;
      |t.workers| == conf.nworkers && |t.auxiliaries| == |names| && t.monitor != NO_PID
  {
    hide Runs, After, TimesHandled, Broadcasts, ReapedIn;
    ReachedInv(conf, names, acts);
    InitHolds(conf, names);
    TraceOf(Init(conf, names), acts);
  }

  // ---------- escalation ----------

  /** In every run: at most one SIGTERM broadcast; each fast broadcast has its
      own handled SIGINT and each smart or second-smart one its own handled
      SIGTERM; and no second-smart broadcast comes before the smart one. Every
      prefix of a run is a run, so the requests come first. */
  lemma Escalation(conf: Config, names: seq<string>, acts: seq<Action>)
    requires Reached(conf, names, acts)
    ensures var s := Init(conf, names);
      && Broadcasts(s, acts, Smart) <= 1
      && Broadcasts(s, acts, Fast) <= TimesHandled(acts, SIGINT)
      && Broadcasts(s, acts, Smart) + Broadcasts(s, acts, SecondSmart) <= TimesHandled(acts, SIGTERM)
      && (Broadcasts(s, acts, SecondSmart) > 0 ==> Broadcasts(s, acts, Smart) == 1)
  {
    hide Runs, After, Broadcasts, TimesHandled;
    ReachedInv(conf, names, acts);
    InitHolds(conf, names);
    TraceOf(Init(conf, names), acts);
  }

  /** One if a handled request is waiting for its broadcast to begin. */
  function Waiting(s: State, sig: Signal): nat {
    match sig
    case SIGTERM => One(s.smart && !OnSmart(s.pc))
    case SIGINT => One(s.fast && !OnFast(s.pc))
    case _ => 0
  }

  /** One if step `a` from `s` handles a request whose flag is not yet set. */
  function Takes(s: State, a: Action, sig: Signal): nat {
    match sig
    case SIGTERM => One(a == Handle(SIGTERM) && !s.smart)
    case SIGINT => One(a == Handle(SIGINT) && !s.fast)
    case _ => 0
  }

  function OpensFor(a: Action, t: State, sig: Signal): nat {
    match sig
    case SIGTERM => Opens(a, t, Smart) + Opens(a, t, SecondSmart)
    case SIGINT => Opens(a, t, Fast)
    case _ => 0
  }

  ghost predicate Balanced(s: State, a: Action, t: State, sig: Signal) {
    OpensFor(a, t, sig) + Waiting(t, sig) == Waiting(s, sig) + Takes(s, a, sig)
  }

  predicate LoopReason(r: Reason) {
    r.Fast? || r.Smart? || r.SecondSmart?
  }

  lemma BeginBalanced(s: State, r: Reason, sig: Signal)
    requires MayBegin(s, r) && LoopReason(r) && Escalating(s)
    ensures Balanced(s, Relay(Test), Begin(s, r), sig)
  {
  }

  lemma TestBalanced(s: State, sig: Signal)
    requires CanRelay(s, Test) && Escalating(s)
    ensures Balanced(s, Relay(Test), DoRelay(s, Test), sig)
  {
    hide Begin;
    match s.pc
    case TestFast => if s.fast { BeginBalanced(s, Fast, sig); }
    case TestSmart =>
    case TestForce => BeginBalanced(s, if s.force then SecondSmart else Smart, sig);
  }

  /** A step that leaves both flags as they were, and what is being done about
      them, takes and opens nothing. */
  lemma FlagsAsBefore(s: State, a: Action, t: State, sig: Signal)
    requires !a.Handle? && a != Relay(Test)
    requires t.smart == s.smart && t.fast == s.fast
    requires OnSmart(t.pc) == OnSmart(s.pc) && OnFast(t.pc) == OnFast(s.pc)
    ensures Balanced(s, a, t, sig)
  {
  }

  lemma ClearBalanced(s: State, sig: Signal)
    requires CanRelay(s, ClearFlag) && Escalating(s) && !s.pc.reason.Died? && !s.pc.reason.Fatal?
    ensures Balanced(s, Relay(ClearFlag), DoRelay(s, ClearFlag), sig)
  {
  }

  lemma RelayBalanced(s: State, r: RelayStep, sig: Signal)
    requires CanRelay(s, r) && r != Test && Escalating(s) && Swept(s) && !DoRelay(s, r).pc.Exited?
    ensures Balanced(s, Relay(r), DoRelay(s, r), sig)
  {
    hide AllDoomed, AllAsked, AuxiliariesUntouched, Post, Balanced;
    if r.ClearFlag? {
      ClearBalanced(s, sig);
    } else {
      FlagsAsBefore(s, Relay(r), DoRelay(s, r), sig);
    }
  }

  lemma JudgeBalanced(s: State, sig: Signal)
    requires CanWait(s, JudgeDeath) && Accounted(s)
    ensures Balanced(s, Wait(JudgeDeath), DoWait(s, JudgeDeath), sig)
  {
    hide DoWait, Tallied, Balanced;
    JudgeVerdict(s);
    FlagsAsBefore(s, Wait(JudgeDeath), DoWait(s, JudgeDeath), sig);
  }

  lemma WaitBalanced(s: State, w: WaitStep, sig: Signal)
    requires CanWait(s, w) && Accounted(s) && !DoWait(s, w).pc.Exited?
    ensures Balanced(s, Wait(w), DoWait(s, w), sig)
  {
    hide Judge, Forget, Accounted, Balanced;
    if w.JudgeDeath? {
      JudgeBalanced(s, sig);
    } else {
      FlagsAsBefore(s, Wait(w), DoWait(s, w), sig);
    }
  }

  lemma HandleBalanced(s: State, sent: Signal, sig: Signal)
    requires CanHandle(s, sent) && Escalating(s) && sent != SIGQUIT
    ensures Balanced(s, Handle(sent), Supervisor.Handled(s, sent), sig)
  {
  }

  lemma OutsideBalanced(s: State, e: Event, sig: Signal)
    requires CanOutside(s, e)
    ensures Balanced(s, Outside(e), DoOutside(s, e), sig)
  {
    hide DoOutside;
    OutsideAges(s, e);
  }

  lemma BootBalanced(s: State, b: BootStep, sig: Signal)
    requires CanBoot(s, b)
    ensures Balanced(s, Boot(b), DoBoot(s, b), sig)
  {
    hide Record;
  }

  lemma PollBalanced(s: State, p: PollStep, sig: Signal)
    requires CanPoll(s, p)
    ensures Balanced(s, Poll(p), DoPoll(s, p), sig)
  {
  }

  lemma StepBalanced(s: State, a: Action, sig: Signal)
    requires Can(s, a) && Inv(s) && !Do(s, a).pc.Exited?
    ensures Balanced(s, a, Do(s, a), sig)
  {
    hide DoOutside, DoBoot, DoPoll, DoRelay, DoWait, Balanced, Accounted, Booked, Swept, Escalating,
         CanOutside, CanBoot, CanPoll, CanRelay, CanWait;
    match a
    case Handle(sent) => HandleBalanced(s, sent, sig);
    case HandleNoWrite(_) =>
    case Outside(e) => OutsideBalanced(s, e, sig);
    case Boot(b) => BootBalanced(s, b, sig);
    case Poll(p) => PollBalanced(s, p, sig);
    case Relay(r) => if r == Test { TestBalanced(s, sig); } else { RelayBalanced(s, r, sig); }
    case Wait(w) => WaitBalanced(s, w, sig);
  }

  function Taken(s: State, acts: seq<Action>, sig: Signal): nat
    requires Runs(s, acts)
    decreases |acts|
  {
    if acts == [] then 0 else Takes(s, acts[0], sig) + Taken(Do(s, acts[0]), acts[1..], sig)
  }

  lemma {:induction false} RunBalanced(s: State, acts: seq<Action>)
    requires Inv(s) && Runs(s, acts) && !After(s, acts).pc.Exited?
    ensures var t := After(s, acts);
      && Broadcasts(s, acts, Smart) + Broadcasts(s, acts, SecondSmart) + Waiting(t, SIGTERM)
         == Waiting(s, SIGTERM) + Taken(s, acts, SIGTERM)
      && Broadcasts(s, acts, Fast) + Waiting(t, SIGINT) == Waiting(s, SIGINT) + Taken(s, acts, SIGINT)
    decreases |acts|
  {
    hide Can, Do, Controlled, Accounted, Booked, Swept, Opens, Waiting, Takes;
    if acts != [] {
      StepKeeps(s, acts[0]);
      StaysExited(Do(s, acts[0]), acts[1..]);
      StepBalanced(s, acts[0], SIGTERM);
      StepBalanced(s, acts[0], SIGINT);
      RunBalanced(Do(s, acts[0]), acts[1..]);
    }
  }

  lemma {:induction false} StaysExited(s: State, acts: seq<Action>)
    requires Runs(s, acts)
    ensures s.pc.Exited? ==> After(s, acts).pc == s.pc
    decreases |acts|
  {
    if acts != [] && s.pc.Exited? { StaysExited(Do(s, acts[0]), acts[1..]); }
  }

  /** Requests and broadcasts balance exactly while the overseer runs: each
      SIGTERM handled with the smart flag clear, and each SIGINT handled with
      the fast flag clear, begins exactly one broadcast of its own, or is the
      one still waiting for it. A request handled with its flag already set is
      merged into the earlier one. */
  lemma ExactEscalation(conf: Config, names: seq<string>, acts: seq<Action>)
    requires Reached(conf, names, acts) && !After(Init(conf, names), acts).pc.Exited?
    ensures var s, t := Init(conf, names), After(Init(conf, names), acts);
      && Broadcasts(s, acts, Smart) + Broadcasts(s, acts, SecondSmart) + Waiting(t, SIGTERM) == Taken(s, acts, SIGTERM)
      && Broadcasts(s, acts, Fast) + Waiting(t, SIGINT) == Taken(s, acts, SIGINT)
  {
    hide Runs, After, Broadcasts, Taken;
    InitHolds(conf, names);
    RunBalanced(Init(conf, names), acts);
  }

  /** "Two smart shutdowns means fast shutdown", exactly: the second-smart
      broadcast has begun, or its request waits behind the smart one, if and
      only if two SIGTERMs were handled with the smart flag clear. */
  lemma TwoSmartMeansFastIff(conf: Config, names: seq<string>, acts: seq<Action>)
    requires Reached(conf, names, acts) && !After(Init(conf, names), acts).pc.Exited?
    ensures var s, t := Init(conf, names), After(Init(conf, names), acts);
      || Broadcasts(s, acts, SecondSmart) > 0
      || (Broadcasts(s, acts, Smart) == 1 && Waiting(t, SIGTERM) == 1)
      <==> Taken(s, acts, SIGTERM) >= 2
  {
    hide Runs, After, Broadcasts, Taken;
    Escalation(conf, names, acts);
    ExactEscalation(conf, names, acts);
  }

  /** Once the SIGTERM broadcast is over, every unreaped worker and the monitor
      are dead, have the SIGTERM pending, or (workers) have set their flag. */
  lemma SmartShutdownAsksEveryone(conf: Config, names: seq<string>, acts: seq<Action>)
    requires Reached(conf, names, acts) && After(Init(conf, names), acts).force
    ensures AllAsked(After(Init(conf, names), acts).children, [])
  {
    hide Runs, After, Accounted, Booked, Controlled;
    ReachedInv(conf, names, acts);
  }

  // ---------- broadcasts ----------

  /** What a broadcast reaches. A loop broadcast signals only unreaped workers
      and the monitor; one made because a child died may add that child's own,
      just reaped, pid and nothing else. When the sweep ends its targets have
      each been signalled once, in order, and none was left out. */
  lemma BroadcastTargets(conf: Config, names: seq<string>, acts: seq<Action>)
    requires Reached(conf, names, acts)
    requires After(Init(conf, names), acts).pc.Sweep?
    ensures var s := After(Init(conf, names), acts);
      && s.seen.struck + s.pc.todo == Targets(s.tables)
      && NoDup(Targets(s.tables))
      && (forall p :: p in s.children ==> (p in Targets(s.tables) <==> s.children[p].role != Auxiliary))
      && (forall p :: p in Targets(s.tables) ==> p in s.children || s.pc.reason == Died(p))
  {
    hide Runs, After, Booked, Controlled;
    ReachedInv(conf, names, acts);
    var s := After(Init(conf, names), acts);
    TargetsAreNotAuxiliaries(s);
  }

  /** However the overseer ends, but for a broken self-pipe, no worker and no
      monitor is left without a SIGQUIT; a clean end leaves no child at all,
      and an end after an unexpected death or a failed system call leaves the
      exit flag set. */
  lemma ExitLeavesNobodyRunning(conf: Config, names: seq<string>, acts: seq<Action>)
    requires Reached(conf, names, acts)
    requires After(Init(conf, names), acts).pc.Exited?
    ensures var s := After(Init(conf, names), acts);
      && (s.pc.how != PipeFailed || s.seen.quitSwept ==> AllDoomed(s.children, []))
      && (s.pc.how == Clean ==> s.children == map[])
      && (s.pc.how == Crash ==> s.exitFlag)
  {
    hide Runs, After, Accounted, Booked;
    ReachedInv(conf, names, acts);
  }

  /** The overseer never signals an auxiliary, and does not exit cleanly while
      one is unreaped. */
  lemma AuxiliariesHoldTheExit(conf: Config, names: seq<string>, acts: seq<Action>, p: Pid)
    requires Reached(conf, names, acts)
    requires p in After(Init(conf, names), acts).children
    requires After(Init(conf, names), acts).children[p].role == Auxiliary
    ensures var s := After(Init(conf, names), acts);
      s.children[p].pending == {} && s.pc != Exited(Clean)
  {
    hide Runs, After, Accounted, Booked;
    ReachedInv(conf, names, acts);
  }

  // ---------- clean exit ----------

  predicate Request(a: Action) {
    Handles(a, SIGTERM) || Handles(a, SIGINT)
  }

  /** Step `k` handles the first SIGTERM or SIGINT of the run. */
  ghost predicate FirstRequest(acts: seq<Action>, k: nat) {
    && k < |acts| && Request(acts[k])
    && TimesHandled(acts[..k], SIGTERM) + TimesHandled(acts[..k], SIGINT) == 0
  }

  /** The first request handled in a run that handles one; nothing has been
      erased from a table before it. */
  lemma {:induction false} FirstStop(s: State, acts: seq<Action>) returns (k: nat)
    requires Inv(s) && Runs(s, acts) && !s.shutdown && After(s, acts).shutdown
    ensures FirstRequest(acts, k) && NothingErased(acts[..k])
    decreases |acts|
  {
    hide Do, Accounted, Booked, Awake, Escalating;
    assert acts != [];
    StepAdvances(s, acts[0]);
    StepKeeps(s, acts[0]);
    if Request(acts[0]) {
      k := 0;
    } else {
      var j := FirstStop(Do(s, acts[0]), acts[1..]);
      k := j + 1;
      assert acts[..k][1..] == acts[1..][..j];
      assert acts[..k] == [acts[0]] + acts[1..][..j];
    }
  }

  ghost predicate NothingErased(acts: seq<Action>) {
    forall i :: 0 <= i < |acts| ==> acts[i] != Wait(EraseChild)
  }

  /** On the way to an exit other than exit(0), with no way back. */
  predicate Lost(pc: Pc) {
    match pc
    case Announce(r) => !LoopReason(r)
    case Sweep(r, _) => !LoopReason(r)
    case Exited(how) => how != Clean
    case _ => false
  }

  lemma LostRelay(s: State, r: RelayStep)
    requires CanRelay(s, r) && Lost(s.pc)
    ensures Lost(DoRelay(s, r).pc)
  {
    hide Post, Targets;
    match r
    case AnnounceExit =>
    case Kill =>
    case EndSweep =>
    case _ =>
  }

  lemma LostStep(s: State, a: Action)
    requires Can(s, a) && Lost(s.pc)
    ensures Lost(Do(s, a).pc)
  {
    hide DoOutside, DoBoot, DoPoll, DoRelay, DoWait, PostAll, CanOutside;
    match a
    case Outside(e) => OutsideAges(s, e);
    case Relay(r) => LostRelay(s, r);
    case _ =>
  }

  lemma {:induction false} LostForGood(s: State, acts: seq<Action>)
    requires Runs(s, acts) && Lost(s.pc)
    ensures Lost(After(s, acts).pc)
    decreases |acts|
  {
    hide Can, Do, Lost;
    if acts != [] {
      LostStep(s, acts[0]);
      LostForGood(Do(s, acts[0]), acts[1..]);
    }
  }

  /** exit(0) is reached only when a SIGTERM or SIGINT was handled before any
      child was erased from its table, and every child ever forked has been
      reaped exactly once. */
  lemma CleanExit(conf: Config, names: seq<string>, acts: seq<Action>)
    requires Reached(conf, names, acts)
    requires After(Init(conf, names), acts).pc == Exited(Clean)
    ensures exists k: nat :: FirstRequest(acts, k) && NothingErased(acts[..k])
    ensures NoDup(ReapedIn(acts)) && |ReapedIn(acts)| == |names| + conf.nworkers + 1
    ensures After(Init(conf, names), acts).children == map[]
    ensures Known(After(Init(conf, names), acts).tables) == {}
  {
    hide Runs, After, Awake, Escalating, Swept, TimesHandled, ReapedIn, Broadcasts;
    ReachedInv(conf, names, acts);
    InitHolds(conf, names);
    TraceOf(Init(conf, names), acts);
    var s := After(Init(conf, names), acts);
    assert s.seen.reaped == ReapedIn(acts);
    assert s.children.Keys == {};
    assert forall p :: p in s.seen.forked <==> p in s.seen.reaped;
    assert s.seen.forked == set p | p in s.seen.reaped;
    SizeOfNoDup(s.seen.reaped);
    var k := FirstStop(Init(conf, names), acts);
    assert FirstRequest(acts, k);
  }

  /** When the request came. In every run that ends with exit(0), the first
      request was handled before any child was reaped exactly when it was not
      handled between waitpid() and the test of the shutdown flag; and at most
      one child was reaped before it, the one whose table was being looked at. */
  lemma RequestBeforeReapIff(conf: Config, names: seq<string>, acts: seq<Action>, k: nat)
    requires Reached(conf, names, acts) && After(Init(conf, names), acts).pc == Exited(Clean)
    requires FirstRequest(acts, k)
    ensures Runs(Init(conf, names), acts[..k])
    ensures var s := After(Init(conf, names), acts[..k]);
      && (ReapedIn(acts[..k]) == [] <==> !s.pc.Judging?)
      && (s.pc.Judging? ==> ReapedIn(acts[..k]) == [s.pc.pid])
  {
    hide Runs, After, TimesHandled, ReapedIn, Broadcasts, Lost, Swept, Awake, Escalating, Ledger;
    var s0 := Init(conf, names);
    Suffix(s0, acts, k);
    ReachedInv(conf, names, acts[..k]);
    InitHolds(conf, names);
    TraceOf(s0, acts[..k]);
    var s := After(s0, acts[..k]);
    LostLeadsElsewhere(s, acts[k..]);
    NotShutdown(s);
    assert s.seen.reaped == ReapedIn(acts[..k]);
  }

  lemma LostLeadsElsewhere(s: State, acts: seq<Action>)
    requires Runs(s, acts) && After(s, acts).pc == Exited(Clean)
    ensures !Lost(s.pc)
    ensures acts != [] ==> Can(s, acts[0])
  {
    hide After, Can;
    if Lost(s.pc) { LostForGood(s, acts); }
  }

  /** Before any request, at most the pid being judged has been reaped. */
  lemma NotShutdown(s: State)
    requires Inv(s) && !s.shutdown && !Lost(s.pc) && !s.pc.Exited?
    ensures s.seen.reaped == if s.pc.Judging? then [s.pc.pid] else []
  {
    hide Accounted, AllDoomed, AllAsked, AuxiliariesUntouched, Awake, Escalating;
  }

  lemma {:induction false} SizeOfNoDup(s: seq<Pid>)
    requires NoDup(s)
    ensures |set p | p in s| == |s|
  {
    if s != [] {
      SizeOfNoDup(s[1..]);
      assert (set p | p in s) == {s[0]} + set p | p in s[1..];
      assert s[0] !in s[1..];
    }
  }

  /** A reaped child's death is treated as unexpected exactly when no SIGTERM
      and no SIGINT has been handled by the time its table is looked at. */
  lemma UnexpectedIff(conf: Config, names: seq<string>, acts: seq<Action>)
    requires Reached(conf, names, acts)
    requires After(Init(conf, names), acts).pc.Judging?
    ensures var s := After(Init(conf, names), acts);
      && (Do(s, Wait(JudgeDeath)).pc == Announce(Died(s.pc.pid))
          <==> TimesHandled(acts, SIGTERM) + TimesHandled(acts, SIGINT) == 0)
      && (Do(s, Wait(JudgeDeath)).pc == Erase(s.pc.pid)
          <==> TimesHandled(acts, SIGTERM) + TimesHandled(acts, SIGINT) > 0)
  {
    hide Runs, After, Controlled, Booked, Swept, TimesHandled, ReapedIn, Broadcasts, Tallied, DoWait;
    ReachedInv(conf, names, acts);
    InitHolds(conf, names);
    TraceOf(Init(conf, names), acts);
    JudgeVerdict(After(Init(conf, names), acts));
  }

  // ---------- no deadlock ----------

  /** Until it exits, the main program can always take a step. */
  lemma NoDeadlock(conf: Config, names: seq<string>, acts: seq<Action>) returns (a: Action)
    requires Reached(conf, names, acts)
    requires !After(Init(conf, names), acts).pc.Exited?
    ensures Can(After(Init(conf, names), acts), a)
    ensures a.Boot? || a.Poll? || a.Relay? || a.Wait?
  {
    hide Runs, After;
    a := MainStep(After(Init(conf, names), acts));
  }

  lemma MainStep(s: State) returns (a: Action)
    requires !s.pc.Exited?
    ensures Can(s, a)
    ensures a.Boot? || a.Poll? || a.Relay? || a.Wait?
  {
    match s.pc
    case Spawn =>
      var p := FreshPid(s.children.Keys);
      a := Boot(Fork(p));
    case Install(_) => a := Boot(InstallHandler);
    case Unblock => a := Boot(UnblockSignals);
    case Select => a := if s.pipe == 0 then Poll(SelectTimeout) else Poll(SelectReadable);
    case Drain => a := if s.pipe == 0 then Poll(DrainEmpty) else Poll(DrainRead(1));
    case TestFast => a := Relay(Test);
    case TestSmart => a := Relay(Test);
    case TestForce => a := Relay(Test);
    case Sweep(_, todo) => a := if todo == [] then Relay(EndSweep) else Relay(Kill);
    case Clear(_) => a := Relay(ClearFlag);
    case SetForce => a := Relay(RaiseForce);
    case WaitPid =>
      if s.children == map[] {
        a := Wait(NoChildren);
      } else if p :| p in s.children && !s.children[p].live {
        a := Wait(Reap(p));
      } else {
        a := Wait(ReapNone);
      }
    case Judging(_) => a := Wait(JudgeDeath);
    case Erase(_) => a := Wait(EraseChild);
    case Announce(_) => a := Relay(AnnounceExit);
  }

  lemma {:induction false} FreshPid(used: set<Pid>) returns (p: Pid)
    ensures p > 0
    ensures forall q :: q in used ==> q < p
  {
    if q :| q in used {
      var r := FreshPid(used - {q});
      assert forall x :: x in used ==> x == q || x in used - {q};
      p := if q < r then r else q + 1;
    } else {
      p := 1;
    }
  }
}
