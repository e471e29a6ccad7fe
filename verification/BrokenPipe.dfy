/** What a broken self-pipe costs (src/bladepsgi.cpp:74-84): the handler's
    _exit(3) skips the broadcast that every other exit makes, so whom it leaves
    without a SIGQUIT depends on the broadcasts made before it. */
module BrokenPipe {
  import opened PidTables
  import opened Supervisor
  import opened SupervisorInvariants
  import opened SupervisorTheorems

  predicate QuitUnderWay(pc: Pc) {
    pc.Sweep? && SignalOf(pc.reason) == SIGQUIT
  }

  /** Child `p` was reached by a SIGQUIT broadcast that is still going on. */
  predicate StruckNow(s: State, p: Pid) {
    QuitUnderWay(s.pc) && p in s.seen.struck
  }

  predicate Quitting(c: Child) {
    c.live && SIGQUIT in c.pending
  }

  /** Where a pending SIGQUIT comes from: from no one but the overseer, by a
      broadcast completed or under way. */
  ghost predicate Sourced(s: State) {
    || s.pc.Exited?
    || s.seen.quitSwept
    || (forall p :: p in s.children && Quitting(s.children[p]) ==> StruckNow(s, p))
  }

  // ---------- every step keeps the source ----------

  /** Without a SIGQUIT broadcast under way, before or after, a step that makes
      no one quit keeps the source. */
  lemma CalmSourced(s: State, t: State)
    requires Sourced(s) && !s.pc.Exited? && !QuitUnderWay(s.pc)
    requires s.seen.quitSwept ==> t.seen.quitSwept
    requires forall p :: p in t.children && Quitting(t.children[p]) ==> p in s.children && Quitting(s.children[p])
    ensures Sourced(t)
  {
  }

  lemma SameChildrenSourced(s: State, t: State)
    requires Sourced(s) && !s.pc.Exited? && !QuitUnderWay(s.pc)
    requires t.children == s.children && t.seen.quitSwept == s.seen.quitSwept
    ensures Sourced(t)
  {
    hide Sourced;
    CalmSourced(s, t);
  }

  lemma OutsideSourced(s: State, e: Event)
    requires CanOutside(s, e) && Sourced(s)
    ensures Sourced(DoOutside(s, e))
  {
    hide DoOutside, CanOutside, SomeZombie;
    OutsideAges(s, e);
    var t := DoOutside(s, e);
    forall p | p in t.children && Quitting(t.children[p])
      ensures p in s.children && Quitting(s.children[p])
    {
      assert AgedChild(s.children[p], t.children[p]);
    }
  }

  lemma HandleSourced(s: State, sig: Signal)
    requires CanHandle(s, sig) && Sourced(s)
    ensures Sourced(Supervisor.Handled(s, sig))
  {
    hide PostAll;
  }

  lemma BootSourced(s: State, b: BootStep)
    requires CanBoot(s, b) && Sourced(s)
    ensures Sourced(DoBoot(s, b))
  {
    hide Sourced, Record;
    match b
    case Fork(p) => CalmSourced(s, DoBoot(s, b));
    case InstallHandler => SameChildrenSourced(s, DoBoot(s, b));
    case UnblockSignals => SameChildrenSourced(s, DoBoot(s, b));
  }

  lemma PollSourced(s: State, p: PollStep)
    requires CanPoll(s, p) && Sourced(s)
    ensures Sourced(DoPoll(s, p))
  {
    hide Sourced;
    var t := DoPoll(s, p);
    match p
    case SelectTimeout => SameChildrenSourced(s, t);
    case SelectInterrupted => SameChildrenSourced(s, t);
    case SelectReadable => SameChildrenSourced(s, t);
    case DrainRead(_) => SameChildrenSourced(s, t);
    case DrainInterrupted => SameChildrenSourced(s, t);
    case DrainEmpty => SameChildrenSourced(s, t);
  }

  lemma KillSourced(s: State)
    requires CanRelay(s, Kill) && Sourced(s)
    ensures Sourced(DoRelay(s, Kill))
  {
  }

  lemma EndSweepSourced(s: State)
    requires CanRelay(s, EndSweep) && Sourced(s)
    ensures Sourced(DoRelay(s, EndSweep))
  {
  }

  lemma TestSourced(s: State)
    requires CanRelay(s, Test) && Sourced(s)
    ensures Sourced(DoRelay(s, Test))
  {
    hide Sourced, Targets;
    var t := DoRelay(s, Test);
    match s.pc
    case TestFast => SameChildrenSourced(s, t);
    case TestSmart => SameChildrenSourced(s, t);
    case TestForce => SameChildrenSourced(s, t);
  }

  lemma FlagSourced(s: State, r: RelayStep)
    requires CanRelay(s, r) && !r.Kill? && !r.EndSweep? && !r.Test? && Sourced(s)
    ensures Sourced(DoRelay(s, r))
  {
    hide Sourced, Targets;
    var t := DoRelay(s, r);
    match r
    case ClearFlag => SameChildrenSourced(s, t);
    case RaiseForce => SameChildrenSourced(s, t);
    case AnnounceExit => SameChildrenSourced(s, t);
    case SyscallFails => SameChildrenSourced(s, t);
  }

  lemma RelaySourced(s: State, r: RelayStep)
    requires CanRelay(s, r) && Sourced(s)
    ensures Sourced(DoRelay(s, r))
  {
    hide *;
    match r
    case Kill => KillSourced(s);
    case EndSweep => EndSweepSourced(s);
    case Test => TestSourced(s);
    case _ => FlagSourced(s, r);
  }

  lemma JudgeSourced(s: State)
    requires CanWait(s, JudgeDeath) && Accounted(s) && Sourced(s)
    ensures Sourced(DoWait(s, JudgeDeath))
  {
    hide Sourced, Tallied, DoWait;
    JudgeVerdict(s);
    SameChildrenSourced(s, DoWait(s, JudgeDeath));
  }

  lemma WaitSourced(s: State, w: WaitStep)
    requires CanWait(s, w) && Accounted(s) && Sourced(s)
    ensures Sourced(DoWait(s, w))
  {
    hide Sourced, Accounted, Judge, Forget, SomeZombie;
    match w
    case Reap(_) => CalmSourced(s, DoWait(s, w));
    case JudgeDeath => JudgeSourced(s);
    case _ => SameChildrenSourced(s, DoWait(s, w));
  }

  lemma StepSourced(s: State, a: Action)
    requires Can(s, a) && Accounted(s) && Sourced(s)
    ensures Sourced(Do(s, a))
  {
    hide Sourced, Accounted, DoOutside, DoBoot, DoPoll, DoRelay, DoWait, CanOutside, CanBoot, CanPoll, CanRelay, CanWait;
    match a
    case Outside(e) => OutsideSourced(s, e);
    case Handle(sig) => HandleSourced(s, sig);
    case HandleNoWrite(sig) => NoWriteSourced(s, sig);
    case Boot(b) => BootSourced(s, b);
    case Poll(p) => PollSourced(s, p);
    case Relay(r) => RelaySourced(s, r);
    case Wait(w) => WaitSourced(s, w);
  }

  lemma NoWriteSourced(s: State, sig: Signal)
    ensures Sourced(HandledNoWrite(s, sig))
  {
  }

  lemma {:induction false} RunSourced(s: State, acts: seq<Action>)
    requires Inv(s) && Sourced(s) && Runs(s, acts)
    ensures Sourced(After(s, acts))
    decreases |acts|
  {
    hide Can, Do, Controlled, Accounted, Booked, Swept, Sourced;
    if acts != [] {
      StepKeeps(s, acts[0]);
      StepSourced(s, acts[0]);
      RunSourced(Do(s, acts[0]), acts[1..]);
    }
  }

  // ---------- the exact rule ----------

  /** Those already struck are not on the list of those to come. */
  lemma StruckIsDoomed(s: State, p: Pid)
    requires Inv(s) && !s.pc.Exited? && p in s.children && s.children[p].role != Auxiliary && StruckNow(s, p)
    ensures Doomed(s.children[p])
  {
    hide Controlled, Booked;
    TargetsOnce(s.tables);
    NotInBoth(s.seen.struck, s.pc.todo, p);
  }

  lemma NotInBoth(a: seq<Pid>, b: seq<Pid>, p: Pid)
    requires NoDup(a + b) && p in a
    ensures p !in b
  {
    var i :| 0 <= i < |a| && a[i] == p;
    forall j | 0 <= j < |b|
      ensures b[j] != p
    {
      assert (a + b)[i] == a[i] && (a + b)[|a| + j] == b[j];
    }
  }

  lemma TargetsOnce(t: Tables)
    requires WellFormed(t)
    ensures NoDup(Targets(t))
  {
    var ts := Targets(t);
    forall i, j | 0 <= i < j < |ts|
      ensures ts[i] != ts[j]
    {
      assert ts[i] == t.workers[i] && ts[i] in t.workers;
    }
  }

  /** What _exit(3) leaves behind. Whenever a handler runs, in any reachable
      state: if its write() fails, the overseer leaves no worker and no monitor
      alive without a SIGQUIT of its own if and only if it had completed a
      SIGQUIT broadcast, or a SIGQUIT broadcast under way had already struck
      every worker and monitor that is alive. */
  lemma BrokenPipeSparesNobodyIff(conf: Config, names: seq<string>, acts: seq<Action>, sig: Signal)
    requires Reached(conf, names, acts) && Can(After(Init(conf, names), acts), HandleNoWrite(sig))
    ensures var s := After(Init(conf, names), acts);
      AllDoomed(Do(s, HandleNoWrite(sig)).children, []) <==>
        || s.seen.quitSwept
        || (forall p :: p in s.children && s.children[p].live && s.children[p].role != Auxiliary ==> StruckNow(s, p))
  {
    hide Runs, After, Controlled, Accounted, Booked, StruckNow;
    var s := After(Init(conf, names), acts);
    InitHolds(conf, names);
    ReachedInv(conf, names, acts);
    assert Sourced(Init(conf, names));
    RunSourced(Init(conf, names), acts);
    assert Do(s, HandleNoWrite(sig)).children == s.children;
    if !s.seen.quitSwept {
      if AllDoomed(s.children, []) {
        forall p | p in s.children && s.children[p].live && s.children[p].role != Auxiliary
          ensures StruckNow(s, p)
        {
          assert Doomed(s.children[p]);
        }
      }
      if forall p :: p in s.children && s.children[p].live && s.children[p].role != Auxiliary ==> StruckNow(s, p) {
        forall p | p in s.children && s.children[p].role != Auxiliary
          ensures Doomed(s.children[p])
        {
          if s.children[p].live { StruckIsDoomed(s, p); }
        }
      }
    }
  }
}
