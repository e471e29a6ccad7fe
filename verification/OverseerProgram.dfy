/** The overseer's code as it is written, statement by statement
    (src/bladepsgi.cpp:42-86, 343-365, 434-555, 574-586, 639-752), proved to be
    runs of the step system: each method, when no handler interrupts it, takes
    any state it matches to one that a run of Supervisor's steps reaches. How
    the same steps interleave with handlers and children is the step system's
    business. */
module OverseerProgram {
  import opened PidTables
  import opened Supervisor
  import opened SupervisorInvariants
  import opened SupervisorTheorems
  import Startup

  /** n kills of a broadcast. */
  function Kills(n: nat): seq<Action> {
    seq(n, _ => Relay(Kill))
  }

  lemma KillStep(s: State)
    requires s.pc.Sweep? && s.pc.todo != []
    ensures Can(s, Relay(Kill))
    ensures Do(s, Relay(Kill)) == s.(children := Post(s.children, s.pc.todo[0], SignalOf(s.pc.reason)),
                                     pc := Sweep(s.pc.reason, s.pc.todo[1..]),
                                     seen := s.seen.(struck := s.seen.struck + [s.pc.todo[0]]))
  {
  }

  lemma PostAllFirst(children: map<Pid, Child>, pids: seq<Pid>, sig: Signal)
    ensures PostAll(children, pids, sig) ==
            if pids == [] then children else PostAll(Post(children, pids[0], sig), pids[1..], sig)
  {
  }

  lemma StandsStill(s: State)
    ensures Runs(s, []) && After(s, []) == s
  {
  }

  /** A broadcast that nothing interrupts signals all its targets. */
  lemma {:induction false} SweepRun(s: State)
    requires s.pc.Sweep?
    ensures Runs(s, Kills(|s.pc.todo|))
    ensures After(s, Kills(|s.pc.todo|)) ==
      s.(pc := Sweep(s.pc.reason, []),
         children := PostAll(s.children, s.pc.todo, SignalOf(s.pc.reason)),
         seen := s.seen.(struck := s.seen.struck + s.pc.todo))
    decreases |s.pc.todo|
  {
    hide Can, Do, Post, PostAll, Runs, After;
    var n := |s.pc.todo|;
    PostAllFirst(s.children, s.pc.todo, SignalOf(s.pc.reason));
    if n > 0 {
      KillStep(s);
      var t := Do(s, Relay(Kill));
      SweepRun(t);
      assert Kills(n) == [Relay(Kill)] + Kills(n - 1);
      RunsOne(s, Relay(Kill), Kills(n - 1));
      assert t.seen.struck + t.pc.todo == s.seen.struck + s.pc.todo;
    } else {
      StandsStill(s);
      assert Kills(0) == [];
      assert s.seen.struck + s.pc.todo == s.seen.struck;
    }
  }

  /** The whole of a loop broadcast: begin, signal everyone, clear the flag. */
  lemma BroadcastRun(s: State, r: Reason) returns (acts: seq<Action>)
    requires s.pc.Sweep? && s.pc.reason == r && LoopReason(r)
    ensures Runs(s, acts)
    ensures var t := After(s, acts);
      && t.pc == WaitPid
      && t.shutdown == s.shutdown && t.pipe == s.pipe && t.conf == s.conf && t.tables == s.tables && t.exitFlag == s.exitFlag
      && t.interrupted == s.interrupted
      && t.fast == (s.fast && r != Fast)
      && t.smart == (s.smart && r == Fast)
      && t.force == (s.force || r == Smart)
      && t.children == PostAll(s.children, s.pc.todo, SignalOf(r))
  {
    hide PostAll, Kills, Runs, After, Can, Do;
    SweepRun(s);
    var rest := AfterSweep(After(s, Kills(|s.pc.todo|)), r);
    Compose(s, Kills(|s.pc.todo|), rest);
    acts := Kills(|s.pc.todo|) + rest;
  }

  /** From the end of a loop broadcast to waitpid(). */
  lemma AfterSweep(s: State, r: Reason) returns (acts: seq<Action>)
    requires s.pc == Sweep(r, []) && LoopReason(r)
    ensures Runs(s, acts)
    ensures var t := After(s, acts);
      t == s.(pc := WaitPid, fast := s.fast && r != Fast, smart := s.smart && r == Fast, force := s.force || r == Smart,
              seen := t.seen)
  {
    hide Runs, After;
    StandsStill(s);
    Extend(s, [], Relay(EndSweep));
    acts := [] + [Relay(EndSweep)];
    Extend(s, acts, Relay(ClearFlag));
    acts := acts + [Relay(ClearFlag)];
    if r == Smart {
      Extend(s, acts, Relay(RaiseForce));
      acts := acts + [Relay(RaiseForce)];
    }
  }

  lemma DrainStep(s: State, n: nat)
    requires s.pc == Drain && 1 <= n <= 10 && n <= s.pipe
    ensures Can(s, Poll(DrainRead(n))) && Do(s, Poll(DrainRead(n))) == s.(pipe := s.pipe - n)
  {
  }

  /** Reaping one dead child during shutdown. */
  lemma ReapOne(s: State, p: Pid) returns (acts: seq<Action>)
    requires Inv(s) && s.pc == WaitPid && s.shutdown && p in s.children && !s.children[p].live
    ensures Runs(s, acts)
    ensures After(s, acts) == s.(children := s.children - {p}, tables := Forget(s.tables, p),
                                 seen := s.seen.(reaped := s.seen.reaped + [p]))
    ensures Inv(After(s, acts))
  {
    hide Controlled, Booked, Swept, Tallied, Forget, Runs, After;
    var t := s.(children := s.children - {p}, pc := Judging(p), seen := s.seen.(reaped := s.seen.reaped + [p]));
    assert Can(s, Wait(Reap(p))) && Do(s, Wait(Reap(p))) == t;
    StepKeeps(s, Wait(Reap(p)));
    JudgeVerdict(t);
    StandsStill(s);
    Extend(s, [], Wait(Reap(p)));
    acts := [] + [Wait(Reap(p))];
    Extend(s, acts, Wait(JudgeDeath));
    acts := acts + [Wait(JudgeDeath)];
    Extend(s, acts, Wait(EraseChild));
    acts := acts + [Wait(EraseChild)];
    RunKeeps(s, acts);
  }

  /** From the decision to give up to _exit(1): announce, signal everyone. */
  lemma CrashRun(s: State) returns (acts: seq<Action>)
    requires s.pc.Announce? && (s.pc.reason.Died? || s.pc.reason.Fatal?)
    ensures Runs(s, acts)
    ensures var t := After(s, acts);
      t == s.(exitFlag := true, pc := Exited(Crash), seen := t.seen,
              children := PostAll(s.children, Targets(s.tables), SIGQUIT))
  {
    hide PostAll, Kills, Runs, After, Targets;
    StandsStill(s);
    Extend(s, [], Relay(AnnounceExit));
    acts := [] + [Relay(AnnounceExit)];
    var m := After(s, acts);
    SweepRun(m);
    Compose(s, acts, Kills(|m.pc.todo|));
    acts := acts + Kills(|m.pc.todo|);
    Extend(s, acts, Relay(EndSweep));
    acts := acts + [Relay(EndSweep)];
  }

  /** A death nobody asked for, from waitpid() to the decision to give up. */
  lemma UnexpectedRun(s: State, p: Pid) returns (acts: seq<Action>)
    requires Inv(s) && s.pc == WaitPid && !s.shutdown && p in s.children && !s.children[p].live
    ensures Runs(s, acts)
    ensures After(s, acts) == s.(children := s.children - {p}, pc := Announce(Died(p)),
                                 seen := s.seen.(reaped := s.seen.reaped + [p]))
  {
    hide Controlled, Booked, Swept, Tallied, Runs, After;
    var t := s.(children := s.children - {p}, pc := Judging(p), seen := s.seen.(reaped := s.seen.reaped + [p]));
    assert Can(s, Wait(Reap(p))) && Do(s, Wait(Reap(p))) == t;
    StepKeeps(s, Wait(Reap(p)));
    JudgeVerdict(t);
    StandsStill(s);
    Extend(s, [], Wait(Reap(p)));
    acts := [] + [Wait(Reap(p))];
    Extend(s, acts, Wait(JudgeDeath));
    acts := acts + [Wait(JudgeDeath)];
  }

  ghost function Members<T>(pids: seq<T>): set<T> {
    set p | p in pids
  }

  function ForgetAll(t: Tables, pids: seq<Pid>): Tables
    decreases |pids|
  {
    if pids == [] then t else Forget(ForgetAll(t, pids[..|pids| - 1]), pids[|pids| - 1])
  }

  /** Erasing several pids removes exactly those. */
  lemma {:induction false} ForgetAllRemoves(t: Tables, pids: seq<Pid>)
    requires WellFormed(t) && NO_PID !in pids
    ensures WellFormed(ForgetAll(t, pids))
    ensures Known(ForgetAll(t, pids)) == Known(t) - Members(pids)
    decreases |pids|
  {
    hide WellFormed, Known, Forget;
    if pids != [] {
      var n := |pids| - 1;
      ForgetAllRemoves(t, pids[..n]);
      ForgetRemoves(ForgetAll(t, pids[..n]), pids[n]);
      assert pids == pids[..n] + [pids[n]];
      assert Members(pids) == Members(pids[..n]) + {pids[n]};
    }
  }

  /** How a system call ends: with a result, with EINTR, or with an error that
      is thrown as an exception and caught in main(). */
  datatype Call = Works | Interrupted | Fails

  // ---------- start-up ----------

  /** What fork() may return in turn, in the parent: a pid of its own, or a
      negative number when it fails. */
  ghost predicate Forks(forks: seq<Pid>) {
    && (forall i :: 0 <= i < |forks| ==> forks[i] != 0)
    && (forall i, j :: 0 <= i < j < |forks| && forks[i] > 0 ==> forks[i] != forks[j])
  }

  ghost predicate AllForked(forks: seq<Pid>) {
    forall i :: 0 <= i < |forks| ==> forks[i] > 0
  }

  /** As fork() leaves a child: alive, every signal blocked, none pending. */
  predicate Newborn(c: Child) {
    c.live && c.booting && c.pending == {} && !c.stopAsked
  }

  /** The tables once `pids` have been forked: auxiliaries first, then workers,
      then the monitor. */
  function Recorded(names: seq<string>, nworkers: nat, pids: seq<Pid>): Tables
    requires |pids| <= |names| + nworkers + 1
  {
    var a, n := |names|, |pids|;
    Tables(if n <= a then [] else if n <= a + nworkers then pids[a..] else pids[a..a + nworkers],
           if n <= a then pids else pids[..a],
           if n <= a + nworkers then NO_PID else pids[a + nworkers],
           seq(a, i requires 0 <= i < a => AuxiliaryProcess(names[i], if i < n then pids[i] else NO_PID)))
  }

  /** One more fork is one more record, in the table whose turn it is. */
  lemma RecordNext(names: seq<string>, nworkers: nat, pids: seq<Pid>, p: Pid)
    requires |pids| < |names| + nworkers + 1
    ensures var t := Recorded(names, nworkers, pids);
      Recorded(names, nworkers, pids + [p]) ==
        if |pids| < |names| then
          t.(auxiliaries := t.auxiliaries + [p], processes := t.processes[|pids| := AuxiliaryProcess(names[|pids|], p)])
        else if |pids| < |names| + nworkers then t.(workers := t.workers + [p])
        else t.(monitor := p)
  {
  }

  lemma RecordedSizes(names: seq<string>, nworkers: nat, pids: seq<Pid>)
    requires |pids| <= |names| + nworkers + 1
    ensures var t := Recorded(names, nworkers, pids);
      && |t.processes| == |names|
      && |t.auxiliaries| == (if |pids| <= |names| then |pids| else |names|)
      && |t.workers| == (if |pids| <= |names| then 0 else if |pids| <= |names| + nworkers then |pids| - |names| else nworkers)
      && (|pids| < |names| ==> t.processes[|pids|] == AuxiliaryProcess(names[|pids|], NO_PID))
  {
  }

  lemma AllRecorded(names: seq<string>, nworkers: nat, pids: seq<Pid>)
    requires |pids| == |names| + nworkers + 1
    ensures var t := Recorded(names, nworkers, pids);
      && t.auxiliaries == pids[..|names|] && t.workers == pids[|names|..|names| + nworkers]
      && t.monitor == pids[|names| + nworkers] && |t.processes| == |names|
      && forall i :: 0 <= i < |names| ==> t.processes[i] == AuxiliaryProcess(names[i], pids[i])
  {
  }

  lemma ForkStep(s: State, names: seq<string>, pids: seq<Pid>, p: Pid)
    requires |pids| < |names| + s.conf.nworkers + 1 && s.tables == Recorded(names, s.conf.nworkers, pids)
    requires s.pc == Spawn && p > 0 && p !in s.children
    ensures Can(s, Boot(Fork(p)))
    ensures var t := Do(s, Boot(Fork(p)));
      && t == s.(tables := Recorded(names, s.conf.nworkers, pids + [p]), children := t.children, pc := t.pc, seen := t.seen)
      && t.children.Keys == s.children.Keys + {p}
      && (forall q :: q in s.children ==> t.children[q] == s.children[q])
      && Newborn(t.children[p])
      && t.pc == if |pids| < |names| + s.conf.nworkers then Spawn else Install(0)
  {
    hide Recorded;
    RecordNext(names, s.conf.nworkers, pids, p);
    RecordedSizes(names, s.conf.nworkers, pids);
  }

  function ForkActs(pids: seq<Pid>): seq<Action> {
    seq(|pids|, i requires 0 <= i < |pids| => Boot(Fork(pids[i])))
  }

  /** Forking `pids` one after the other is a run from the start of the program;
      when they are enough, every table is complete. */
  lemma {:induction false} SpawnRun(conf: Config, names: seq<string>, pids: seq<Pid>)
    requires ValidConfig(conf) && Forks(pids) && AllForked(pids) && |pids| <= |names| + conf.nworkers + 1
    ensures Runs(Init(conf, names), ForkActs(pids))
    ensures var s, t := Init(conf, names), After(Init(conf, names), ForkActs(pids));
      && t == s.(tables := Recorded(names, conf.nworkers, pids), children := t.children, pc := t.pc, seen := t.seen)
      && t.children.Keys == Members(pids)
      && (forall p :: p in t.children ==> Newborn(t.children[p]))
      && t.pc == if |pids| <= |names| + conf.nworkers then Spawn else Install(0)
    decreases |pids|
  {
    hide Runs, After, Can, Do, Recorded;
    var n := |pids|;
    if n == 0 {
      NothingRecorded(conf, names);
      StandsStill(Init(conf, names));
      assert ForkActs(pids) == [];
    } else {
      var p := pids[n - 1];
      SpawnRun(conf, names, pids[..n - 1]);
      assert pids == pids[..n - 1] + [p];
      assert ForkActs(pids) == ForkActs(pids[..n - 1]) + [Boot(Fork(p))];
      ForkStep(After(Init(conf, names), ForkActs(pids[..n - 1])), names, pids[..n - 1], p);
      Extend(Init(conf, names), ForkActs(pids[..n - 1]), Boot(Fork(p)));
      assert Members(pids) == Members(pids[..n - 1]) + {p};
    }
  }

  lemma NothingRecorded(conf: Config, names: seq<string>)
    ensures Init(conf, names).tables == Recorded(names, conf.nworkers, [])
  {
  }

  /** Four handlers, then the old mask. */
  lemma InstallRun(s: State) returns (acts: seq<Action>)
    requires s.pc == Install(0)
    ensures Runs(s, acts) && After(s, acts) == s.(pc := Select, mask := s.conf.inherited)
  {
    hide Runs, After;
    StandsStill(s);
    acts := [];
    for i := 0 to 4
      invariant Runs(s, acts) && After(s, acts) == s.(pc := if i < 4 then Install(i) else Unblock)
    {
      Extend(s, acts, Boot(InstallHandler));
      acts := acts + [Boot(InstallHandler)];
    }
    Extend(s, acts, Boot(UnblockSignals));
    acts := acts + [Boot(UnblockSignals)];
  }

  lemma HandledFields(s: State, sig: Signal)
    ensures var t := Handled(s, sig);
      && t.conf == s.conf && t.tables == s.tables && t.exitFlag == s.exitFlag && t.force == s.force
      && t.shutdown == (s.shutdown || sig == SIGTERM || sig == SIGINT)
      && t.smart == (s.smart || sig == SIGTERM)
      && t.fast == (s.fast || sig == SIGINT)
      && t.pipe == s.pipe + One(sig != SIGQUIT && s.pipe < s.conf.capacity)
      && t.pc == if sig == SIGQUIT then Exited(Quit) else s.pc
  {
    hide PostAll, Targets;
    match sig
    case SIGTERM =>
    case SIGINT =>
    case SIGQUIT =>
    case SIGCHLD =>
  }

  class Overseer {
    var shutdown: bool
    var fast: bool
    var smart: bool
    var force: bool
    var pipe: nat
    /** The flag in the shared segment. */
    var exitFlag: bool
    const capacity: nat
    const table: ProcessTable

    constructor (capacity: nat)
      ensures !shutdown && !fast && !smart && !force && !exitFlag && pipe == 0 && this.capacity == capacity
      ensures fresh(table) && table.Contents() == Tables([], [], NO_PID, []) && table.sent == []
    {
      this.capacity := capacity;
      shutdown, fast, smart, force, exitFlag, pipe := false, false, false, false, false, 0;
      table := new ProcessTable();
    }

    /** The object holds what state `s` says. */
    ghost predicate Matches(s: State)
      reads this, table
    {
      && s.shutdown == shutdown && s.fast == fast && s.smart == smart && s.force == force
      && s.pipe == pipe && s.conf.capacity == capacity && s.exitFlag == exitFlag
      && s.tables == table.Contents()
    }

    /** RequestAuxiliaryProcess for each name, then the spawn loops; `forks` is
        what fork() returns in turn. Stops at the first failure. */
    method SpawnProcesses(names: seq<string>, nworkers: nat, forks: seq<Pid>) returns (n: nat)
      requires table.Contents() == Tables([], [], NO_PID, [])
      requires Forks(forks) && |forks| == |names| + nworkers + 1
      modifies table`workers, table`auxiliaries, table`monitor, table`processes
      ensures n <= |forks| && AllForked(forks[..n]) && (n < |forks| ==> forks[n] < 0)
      ensures table.Contents() == Recorded(names, nworkers, forks[..n])
      ensures n == |forks| ==>
        && table.auxiliaries == forks[..|names|] && table.workers == forks[|names|..|names| + nworkers]
        && table.monitor == forks[|names| + nworkers] && |table.processes| == |names|
        && forall i :: 0 <= i < |names| ==> table.processes[i] == AuxiliaryProcess(names[i], forks[i])
    {
      hide Recorded;
      RequestProcesses(names, nworkers);
      n := 0;
      assert forks[..0] == [];
      while n < |names|
        invariant n <= |names| && AllForked(forks[..n])
        invariant table.Contents() == Recorded(names, nworkers, forks[..n])
      {
        if forks[n] < 0 { return; }
        RecordNext(names, nworkers, forks[..n], forks[n]);
        RecordedSizes(names, nworkers, forks[..n]);
        assert forks[..n + 1] == forks[..n] + [forks[n]];
        var ok := table.RecordAuxiliary(n, forks[n]);
        n := n + 1;
      }
      while n < |names| + nworkers
        invariant |names| <= n <= |names| + nworkers && AllForked(forks[..n])
        invariant table.Contents() == Recorded(names, nworkers, forks[..n])
      {
        if forks[n] < 0 { return; }
        RecordNext(names, nworkers, forks[..n], forks[n]);
        assert forks[..n + 1] == forks[..n] + [forks[n]];
        table.RecordWorker(forks[n]);
        n := n + 1;
      }
      if forks[n] < 0 { return; }
      RecordNext(names, nworkers, forks[..n], forks[n]);
      assert forks[..n + 1] == forks[..n] + [forks[n]];
      table.RecordMonitor(forks[n]);
      n := n + 1;
      assert forks[..n] == forks;
      AllRecorded(names, nworkers, forks);
    }

    method RequestProcesses(names: seq<string>, nworkers: nat)
      requires table.Contents() == Tables([], [], NO_PID, [])
      modifies table`processes
      ensures table.Contents() == Recorded(names, nworkers, [])
    {
      for i := 0 to |names|
        invariant table.Contents() == Tables([], [], NO_PID, table.processes) && |table.processes| == i
        invariant forall j :: 0 <= j < i ==> table.processes[j] == AuxiliaryProcess(names[j], NO_PID)
      {
        table.RequestAuxiliaryProcess(names[i]);
      }
    }

    /** Run() up to its main loop: block all signals, spawn, install the four
        handlers, unblock. It is a run of the step system; if every fork
        succeeds that run ends at select() with complete tables and the mask
        the program was started with, and if one fails it ends on the way to
        giving up with every signal still blocked. */
    method StartUp(names: seq<string>, forks: seq<Pid>, mask: Startup.SignalMask, ghost conf: Config, nworkers: nat)
      returns (ok: bool, handlers: map<Signal, Startup.Disposition>, ghost acts: seq<Action>)
      requires ValidConfig(conf) && nworkers == conf.nworkers && Matches(Init(conf, []))
      requires mask.Contents() == Startup.Masks(conf.inherited, [])
      requires Forks(forks) && |forks| == |names| + nworkers + 1
      modifies table`workers, table`auxiliaries, table`monitor, table`processes, mask
      ensures ok <==> AllForked(forks)
      ensures Runs(Init(conf, names), acts) && Matches(After(Init(conf, names), acts))
      ensures var s := After(Init(conf, names), acts);
        && s.mask == mask.current
        && (!ok ==> s.pc == Announce(Fatal) && mask.current == ALL_SIGNALS)
        && (ok ==> s.pc == Select && Complete(s) && s.children.Keys == Members(forks)
                   && s.tables == Recorded(names, nworkers, forks)
                   && Startup.Undisturbed(conf.inherited, mask.Contents(), handlers))
    {
      hide Runs, After;
      mask.BlockSignals();
      var n := SpawnProcesses(names, nworkers, forks);
      SpawnRun(conf, names, forks[..n]);
      acts := ForkActs(forks[..n]);
      if n < |forks| {
        Extend(Init(conf, names), acts, Relay(SyscallFails));
        return false, map[], acts + [Relay(SyscallFails)];
      }
      assert forks[..n] == forks;
      handlers := map[SIGCHLD := Startup.WakeOverseer];
      handlers := handlers[SIGINT := Startup.WakeOverseer];
      handlers := handlers[SIGTERM := Startup.WakeOverseer];
      handlers := handlers[SIGQUIT := Startup.WakeOverseer];
      ghost var more := InstallRun(After(Init(conf, names), acts));
      Compose(Init(conf, names), acts, more);
      acts := acts + more;
      ok := mask.UnblockSignals();
      Startup.QuietStart(conf.inherited);
    }

    /** The signal handler; `broken` says that write() would fail for another
        reason than a full pipe. It tells how the process ends, if it does. */
    method HandleParentSignal(sig: Signal, broken: bool, ghost s: State) returns (end: Option<Exit>)
      requires Matches(s) && CanHandle(s, sig)
      modifies this`shutdown, this`fast, this`smart, this`pipe, table`sent
      ensures end == if sig == SIGQUIT then Some(Quit) else if broken then Some(PipeFailed) else None
      ensures Matches(if end == Some(PipeFailed) then HandledNoWrite(s, sig) else Handled(s, sig))
      ensures if end == Some(Quit) then Broadcast(old(table.sent), table.sent, s.tables, SIGQUIT) else table.sent == old(table.sent)
    {
      hide Handled, Broadcast;
      HandledFields(s, sig);
      if sig == SIGQUIT {
        table.KillProcessGroup(SIGQUIT);
        return Some(Quit);
      }
      NoteRequest(sig);
      var ok := WakeUp(broken);
      end := if ok then None else Some(PipeFailed);
    }

    method NoteRequest(sig: Signal)
      modifies this`shutdown, this`fast, this`smart
      ensures smart == (old(smart) || sig == SIGTERM) && fast == (old(fast) || sig == SIGINT)
      ensures shutdown == (old(shutdown) || sig == SIGTERM || sig == SIGINT)
    {
      if sig == SIGTERM {
        smart := true;
        shutdown := true;
      } else if sig == SIGINT {
        fast := true;
        shutdown := true;
      }
    }

    /** One byte into the self-pipe; a full pipe is no failure. */
    method WakeUp(broken: bool) returns (ok: bool)
      modifies this`pipe
      ensures ok == !broken
      ensures pipe == old(pipe) + One(ok && old(pipe) < capacity)
    {
      if broken { return false; }
      if pipe < capacity { pipe := pipe + 1; }
      ok := true;
    }

    /** Reads of up to ten bytes until the pipe is empty; `first` is how the
        first read() ends. EINTR means another read, an error gives up. */
    method DrainSelfPipe(first: Call, ghost s: State) returns (ok: bool, ghost acts: seq<Action>)
      requires Matches(s) && s.pc == Drain && (first.Interrupted? ==> s.interrupted)
      modifies this`pipe
      ensures ok == !first.Fails?
      ensures Runs(s, acts)
      ensures !ok ==> pipe == old(pipe) && After(s, acts) == s.(pc := Announce(Fatal))
      ensures ok ==>
        && pipe == 0
        && After(s, acts) == s.(pc := TestFast, pipe := 0, interrupted := s.interrupted && !first.Interrupted?)
    {
      hide Can, Do, Runs, After;
      StandsStill(s);
      acts := [];
      ghost var m := s.(interrupted := s.interrupted && !first.Interrupted?);
      if first.Fails? {
        CallFails(s);
        Extend(s, acts, Relay(SyscallFails));
        return false, acts + [Relay(SyscallFails)];
      } else if first.Interrupted? {
        DrainAgain(s);
        Extend(s, acts, Poll(DrainInterrupted));
        acts := acts + [Poll(DrainInterrupted)];
      }
      while pipe > 0
        invariant Runs(s, acts) && After(s, acts) == m.(pipe := pipe)
      {
        var n := if pipe < 10 then pipe else 10;
        DrainStep(m.(pipe := pipe), n);
        Extend(s, acts, Poll(DrainRead(n)));
        acts := acts + [Poll(DrainRead(n))];
        pipe := pipe - n;
      }
      DrainEnd(m.(pipe := 0));
      Extend(s, acts, Poll(DrainEmpty));
      acts := acts + [Poll(DrainEmpty)];
      ok := true;
    }

    /** From the test of the fast flag to the waitpid() loop. */
    method RelayFlags(ghost s: State) returns (ghost acts: seq<Action>)
      requires Matches(s) && s.pc == TestFast
      modifies this`fast, this`smart, this`force, table`sent
      ensures Runs(s, acts) && Matches(After(s, acts)) && After(s, acts).pc == WaitPid
      ensures After(s, acts).interrupted == s.interrupted
      ensures !fast && smart == (old(smart) && old(fast)) && force == (old(force) || (!old(fast) && old(smart)))
      ensures !old(fast) && !old(smart) ==> table.sent == old(table.sent)
      ensures old(fast) || old(smart) ==>
        Broadcast(old(table.sent), table.sent, s.tables, if old(fast) || old(force) then SIGQUIT else SIGTERM)
      ensures After(s, acts).children ==
        if !old(fast) && !old(smart) then s.children
        else PostAll(s.children, Targets(s.tables), if old(fast) || old(force) then SIGQUIT else SIGTERM)
    {
      acts := RelayRun(s);
      if fast {
        table.KillProcessGroup(SIGQUIT);
        fast := false;
      } else if smart {
        if force {
          table.KillProcessGroup(SIGQUIT);
          smart := false;
        } else {
          table.KillProcessGroup(SIGTERM);
          smart := false;
          force := true;
        }
      }
    }

    /** HandleUnexpectedChildProcessDeath, and the end of main() after a failed
        system call: raise the exit flag, signal everyone, _exit(1). */
    method GiveUp(ghost s: State) returns (ghost acts: seq<Action>)
      requires Matches(s) && s.pc.Announce? && (s.pc.reason.Died? || s.pc.reason.Fatal?)
      modifies this`exitFlag, table`sent
      ensures Runs(s, acts) && Matches(After(s, acts)) && After(s, acts).pc == Exited(Crash)
      ensures exitFlag && table.Contents() == s.tables && Broadcast(old(table.sent), table.sent, s.tables, SIGQUIT)
      ensures After(s, acts).children == PostAll(s.children, Targets(s.tables), SIGQUIT)
    {
      hide PostAll, Runs, After, Targets;
      acts := CrashRun(s);
      exitFlag := true;
      table.KillProcessGroup(SIGQUIT);
    }

    /** One pid from waitpid(): HandleChildProcessDeath, and giving up if the
        death was not asked for. */
    method HandleDeath(pid: Pid, ghost s: State) returns (crashed: bool, ghost acts: seq<Action>)
      requires Matches(s) && Inv(s) && s.pc == WaitPid && pid in s.children && !s.children[pid].live
      modifies this`exitFlag, table`workers, table`auxiliaries, table`monitor, table`sent
      ensures crashed == !s.shutdown
      ensures Runs(s, acts) && Matches(After(s, acts))
      ensures crashed ==>
        && After(s, acts).pc == Exited(Crash) && exitFlag && table.Contents() == s.tables
        && Broadcast(old(table.sent), table.sent, s.tables, SIGQUIT)
      ensures !crashed ==>
        && After(s, acts).pc == WaitPid && Inv(After(s, acts)) && After(s, acts).shutdown
        && After(s, acts).children == s.children - {pid}
        && table.Contents() == Forget(s.tables, pid) && table.sent == old(table.sent) && exitFlag == old(exitFlag)
    {
      hide Inv, Runs, After, Forget, Judge, Targets, PostAll, Broadcast, Can, Do;
      ReapedVerdict(s, pid);
      var v := table.HandleChildProcessDeath(pid, shutdown);
      crashed := v != Expected;
      if crashed {
        acts := UnexpectedRun(s, pid);
        ghost var more := GiveUp(After(s, acts));
        Compose(s, acts, more);
        acts := acts + more;
      } else {
        acts := ReapOne(s, pid);
      }
    }

    /** The waitpid() loop as long as calls work; `dead` is what waitpid()
        returns in turn, and `childless` whether it then fails with ECHILD.
        Either the first death was not asked for and the overseer gives up, or
        all of `dead` is erased and the loop goes back to select() or on to
        exit(0). */
    method ReapDead(dead: seq<Pid>, childless: bool, ghost s: State) returns (end: Option<Exit>, ghost acts: seq<Action>)
      requires Matches(s) && Inv(s) && s.pc == WaitPid
      requires NoDup(dead) && forall p :: p in dead <==> p in s.children && !s.children[p].live
      requires childless <==> forall p :: p in s.children ==> !s.children[p].live
      modifies this`exitFlag, table`workers, table`auxiliaries, table`monitor, table`sent
      ensures Runs(s, acts) && Matches(After(s, acts))
      ensures end == if !s.shutdown && dead != [] then Some(Crash) else if childless then Some(Clean) else None
      ensures After(s, acts).pc == if end.Some? then Exited(end.value) else Select
      ensures end != Some(Crash) ==>
        && exitFlag == old(exitFlag) && table.Contents() == ForgetAll(s.tables, dead) && table.sent == old(table.sent)
        && After(s, acts).children == s.children - Members(dead)
      ensures end == Some(Crash) ==>
        && exitFlag && table.Contents() == old(table.Contents())
        && Broadcast(old(table.sent), table.sent, s.tables, SIGQUIT)
    {
      hide Inv, Runs, After, Forget, Judge, Targets, PostAll, Broadcast, Can, Do;
      acts := [];
      StandsStill(s);
      assert s.children - Members(dead[..0]) == s.children;
      for i := 0 to |dead|
        invariant Runs(s, acts) && Inv(After(s, acts))
        invariant Matches(After(s, acts)) && shutdown == s.shutdown && (i > 0 ==> shutdown)
        invariant table.Contents() == ForgetAll(s.tables, dead[..i]) && table.sent == old(table.sent) && exitFlag == old(exitFlag)
        invariant After(s, acts).pc == WaitPid
        invariant After(s, acts).children == s.children - Members(dead[..i])
      {
        ghost var m := After(s, acts);
        assert dead[i] !in dead[..i];
        var crashed;
        ghost var more;
        crashed, more := HandleDeath(dead[i], m);
        Compose(s, acts, more);
        acts := acts + more;
        if crashed { return Some(Crash), acts; }
        assert dead[..i + 1][..i] == dead[..i];
        assert Members(dead[..i + 1]) == Members(dead[..i]) + {dead[i]};
      }
      assert dead[..|dead|] == dead;
      OnlyTheLiving(s.children, dead, childless);
      ghost var last := LastWait(After(s, acts), childless);
      Extend(s, acts, last);
      acts := acts + [last];
      end := if childless then Some(Clean) else None;
    }

    /** The whole waitpid() loop; `first` is how the first call ends. */
    method ReapChildren(first: Call, dead: seq<Pid>, childless: bool, ghost s: State)
      returns (end: Option<Exit>, ghost acts: seq<Action>)
      requires Matches(s) && Inv(s) && s.pc == WaitPid && (first.Interrupted? ==> s.interrupted)
      requires NoDup(dead) && forall p :: p in dead <==> p in s.children && !s.children[p].live
      requires childless <==> forall p :: p in s.children ==> !s.children[p].live
      modifies this`exitFlag, table`workers, table`auxiliaries, table`monitor, table`sent
      ensures Runs(s, acts) && Matches(After(s, acts))
      ensures end == if first.Fails? || (!s.shutdown && dead != []) then Some(Crash)
                     else if childless then Some(Clean) else None
      ensures After(s, acts).pc == if end.Some? then Exited(end.value) else Select
      ensures end != Some(Crash) ==>
        && exitFlag == old(exitFlag) && table.Contents() == ForgetAll(s.tables, dead) && table.sent == old(table.sent)
        && After(s, acts).children == s.children - Members(dead)
      ensures end == Some(Crash) ==>
        && exitFlag && table.Contents() == old(table.Contents())
        && Broadcast(old(table.sent), table.sent, s.tables, SIGQUIT)
    {
      hide Inv, Runs, After, Broadcast, ForgetAll, Can, Do, PostAll, Targets;
      StandsStill(s);
      acts := [];
      ghost var more;
      if first.Fails? {
        CallFails(s);
        Extend(s, acts, Relay(SyscallFails));
        acts := acts + [Relay(SyscallFails)];
        more := GiveUp(After(s, acts));
        end := Some(Crash);
      } else {
        if first.Interrupted? {
          WaitAgain(s);
          Extend(s, acts, Wait(ReapInterrupted));
          acts := acts + [Wait(ReapInterrupted)];
          RunKeeps(s, acts);
        }
        end, more := ReapDead(dead, childless, After(s, acts));
      }
      Compose(s, acts, more);
      acts := acts + more;
    }

    /** select(), and the drain if the pipe is readable. A call that fails ends
        the loop; an interrupted select() goes on to the flags. */
    method SelectOnPipe(select: Call, read: Call, ghost s: State) returns (ok: bool, ghost acts: seq<Action>)
      requires Matches(s) && s.pc == Select && (select.Interrupted? || read.Interrupted? ==> s.interrupted)
      modifies this`pipe
      ensures ok == !(select.Fails? || (select.Works? && old(pipe) > 0 && read.Fails?))
      ensures pipe == if ok && select.Works? then 0 else old(pipe)
      ensures Runs(s, acts)
      ensures After(s, acts) == s.(pc := if ok then TestFast else Announce(Fatal), pipe := pipe,
                                   interrupted := After(s, acts).interrupted)
      ensures select.Works? && read.Works? ==> After(s, acts).interrupted == s.interrupted
      ensures Matches(After(s, acts))
    {
      hide Runs, After, Can, Do;
      StandsStill(s);
      acts := [];
      SelectStep(s);
      if select.Fails? {
        CallFails(s);
        Extend(s, acts, Relay(SyscallFails));
        return false, acts + [Relay(SyscallFails)];
      } else if select.Interrupted? {
        Extend(s, acts, Poll(SelectInterrupted));
        acts := acts + [Poll(SelectInterrupted)];
        ok := true;
      } else if pipe > 0 {
        Extend(s, acts, Poll(SelectReadable));
        acts := acts + [Poll(SelectReadable)];
        ghost var drained;
        ok, drained := DrainSelfPipe(read, After(s, acts));
        Compose(s, acts, drained);
        acts := acts + drained;
      } else {
        Extend(s, acts, Poll(SelectTimeout));
        acts := acts + [Poll(SelectTimeout)];
        ok := true;
      }
    }

    /** The flags after select(): nobody dies of it. */
    method RelayAlive(ghost s: State) returns (ghost acts: seq<Action>)
      requires Matches(s) && Inv(s) && s.pc == TestFast
      modifies this`fast, this`smart, this`force, table`sent
      ensures Runs(s, acts) && Matches(After(s, acts)) && Inv(After(s, acts)) && After(s, acts).pc == WaitPid
      ensures After(s, acts).interrupted == s.interrupted
      ensures !fast && smart == (old(smart) && old(fast)) && force == (old(force) || (!old(fast) && old(smart)))
      ensures !old(fast) && !old(smart) ==> table.sent == old(table.sent)
      ensures old(fast) || old(smart) ==>
        Broadcast(old(table.sent), table.sent, s.tables, if old(fast) || old(force) then SIGQUIT else SIGTERM)
      ensures forall p :: p in After(s, acts).children <==> p in s.children
      ensures forall p :: p in s.children ==> After(s, acts).children[p].live == s.children[p].live
    {
      hide Inv, Runs, After, Can, Do, Broadcast, PostAll, Targets;
      acts := RelayFlags(s);
      SameFates(s.children, Targets(s.tables), if s.fast || s.force then SIGQUIT else SIGTERM, After(s, acts).children);
      RunKeeps(s, acts);
    }

    /** From `before` to `after`: the broadcast that the flags ask for, if any. */
    ghost predicate Relayed(before: seq<(Pid, Signal)>, after: seq<(Pid, Signal)>, s: State) {
      if !s.fast && !s.smart then after == before
      else Broadcast(before, after, s.tables, if s.fast || s.force then SIGQUIT else SIGTERM)
    }

    /** The loop body after select(): act on the flags, reap. */
    method RelayAndReap(wait: Call, dead: seq<Pid>, childless: bool, ghost s: State)
      returns (end: Option<Exit>, ghost acts: seq<Action>, ghost relayed: seq<(Pid, Signal)>)
      requires Matches(s) && Inv(s) && s.pc == TestFast && (wait.Interrupted? ==> s.interrupted)
      requires NoDup(dead) && forall p :: p in dead <==> p in s.children && !s.children[p].live
      requires childless <==> forall p :: p in s.children ==> !s.children[p].live
      modifies this`fast, this`smart, this`force, this`exitFlag, table
      ensures Runs(s, acts) && Matches(After(s, acts))
      ensures After(s, acts).pc == if end.Some? then Exited(end.value) else Select
      ensures end == if wait.Fails? || (!s.shutdown && dead != []) then Some(Crash) else if childless then Some(Clean) else None
      ensures Relayed(old(table.sent), relayed, s)
      ensures !fast && smart == (old(smart) && old(fast)) && force == (old(force) || (!old(fast) && old(smart)))
      ensures end == Some(Crash) ==>
        exitFlag && table.Contents() == s.tables && Broadcast(relayed, table.sent, s.tables, SIGQUIT)
      ensures end != Some(Crash) ==>
        exitFlag == old(exitFlag) && table.Contents() == ForgetAll(s.tables, dead) && table.sent == relayed
    {
      hide Inv, Runs, After, Can, Do, Broadcast, ForgetAll;
      acts := RelayAlive(s);
      relayed := table.sent;
      ghost var more;
      end, more := ReapChildren(wait, dead, childless, After(s, acts));
      Compose(s, acts, more);
      acts := acts + more;
    }

    /** One pass of the main loop that no handler interrupts, from select() back
        to select() or to an exit: drain the pipe if it is readable, act on the
        flags, reap. `select`, `read` and `wait` say how the first calls end. */
    method MainLoopPass(select: Call, read: Call, wait: Call, dead: seq<Pid>, childless: bool, ghost s: State)
      returns (end: Option<Exit>, ghost acts: seq<Action>, ghost relayed: seq<(Pid, Signal)>)
      requires Matches(s) && Inv(s) && s.pc == Select
      requires select.Interrupted? || read.Interrupted? ==> s.interrupted
      requires wait.Interrupted? ==> s.interrupted && select.Works? && read.Works?
      requires NoDup(dead) && forall p :: p in dead <==> p in s.children && !s.children[p].live
      requires childless <==> forall p :: p in s.children ==> !s.children[p].live
      modifies this, table
      ensures Runs(s, acts) && Matches(After(s, acts))
      ensures After(s, acts).pc == if end.Some? then Exited(end.value) else Select
      ensures select.Fails? || (select.Works? && old(pipe) > 0 && read.Fails?) ==>
        && end == Some(Crash) && relayed == old(table.sent)
        && pipe == old(pipe) && fast == old(fast) && smart == old(smart) && force == old(force)
      ensures !(select.Fails? || (select.Works? && old(pipe) > 0 && read.Fails?)) ==>
        && end == (if wait.Fails? || (!s.shutdown && dead != []) then Some(Crash) else if childless then Some(Clean) else None)
        && Relayed(old(table.sent), relayed, s)
        && pipe == (if select.Interrupted? then old(pipe) else 0)
        && !fast && smart == (old(smart) && old(fast)) && force == (old(force) || (!old(fast) && old(smart)))
      ensures end == Some(Crash) ==>
        exitFlag && table.Contents() == s.tables && Broadcast(relayed, table.sent, s.tables, SIGQUIT)
      ensures end != Some(Crash) ==>
        exitFlag == old(exitFlag) && table.Contents() == ForgetAll(s.tables, dead) && table.sent == relayed
      ensures !s.shutdown ==> relayed == old(table.sent)
    {
      hide Inv, Runs, After, Can, Do, Broadcast, ForgetAll, PostAll, Matches, Targets;
      FlagsNeedRequests(s);
      var ok;
      ok, acts := SelectOnPipe(select, read, s);
      ghost var more;
      if ok {
        RunKeeps(s, acts);
        end, more, relayed := RelayAndReap(wait, dead, childless, After(s, acts));
      } else {
        relayed := table.sent;
        more := GiveUp(After(s, acts));
        end := Some(Crash);
      }
      Compose(s, acts, more);
      acts := acts + more;
    }
  }

  lemma CallFails(s: State)
    requires s.pc == Select || s.pc == Drain || s.pc == WaitPid
    ensures Can(s, Relay(SyscallFails)) && Do(s, Relay(SyscallFails)) == s.(pc := Announce(Fatal))
  {
  }

  lemma DrainAgain(s: State)
    requires s.pc == Drain && s.interrupted
    ensures Can(s, Poll(DrainInterrupted)) && Do(s, Poll(DrainInterrupted)) == s.(interrupted := false)
  {
  }

  lemma WaitAgain(s: State)
    requires s.pc == WaitPid && s.interrupted
    ensures Can(s, Wait(ReapInterrupted)) && Do(s, Wait(ReapInterrupted)) == s.(interrupted := false)
  {
  }

  /** At select() a flag is set only if a request has been handled. */
  lemma FlagsNeedRequests(s: State)
    requires Inv(s) && s.pc == Select
    ensures s.fast || s.smart ==> s.shutdown
  {
    hide Accounted, Swept, Shaped, Awake, Ledger;
  }

  /** A broadcast leaves the living alive. */
  lemma SameFates(children: map<Pid, Child>, pids: seq<Pid>, sig: Signal, after: map<Pid, Child>)
    requires after == children || after == PostAll(children, pids, sig)
    ensures forall p :: p in after <==> p in children
    ensures forall p :: p in children ==> after[p].live == children[p].live
  {
    PostAllEffect(children, pids, sig);
  }

  lemma SelectStep(s: State)
    requires s.pc == Select
    ensures s.pipe > 0 ==> Can(s, Poll(SelectReadable)) && Do(s, Poll(SelectReadable)) == s.(pc := Drain)
    ensures s.pipe == 0 ==> Can(s, Poll(SelectTimeout)) && Do(s, Poll(SelectTimeout)) == s.(pc := TestFast)
    ensures s.interrupted ==>
      Can(s, Poll(SelectInterrupted)) && Do(s, Poll(SelectInterrupted)) == s.(pc := TestFast, interrupted := false)
  {
  }

  lemma OnlyTheLiving(children: map<Pid, Child>, dead: seq<Pid>, childless: bool)
    requires forall p :: p in dead <==> p in children && !children[p].live
    requires childless <==> forall p :: p in children ==> !children[p].live
    ensures forall p :: p in children - Members(dead) ==> children[p].live
    ensures childless <==> children - Members(dead) == map[]
  {
    var left := children - Members(dead);
    if childless {
      assert forall p :: p !in left;
      assert left == map[];
    } else {
      var p :| p in children && children[p].live;
      assert p in left;
    }
  }

  /** waitpid() when no dead child is left. */
  lemma LastWait(s: State, childless: bool) returns (a: Action)
    requires s.pc == WaitPid && (forall p :: p in s.children ==> s.children[p].live)
    requires childless <==> s.children == map[]
    ensures Can(s, a) && Do(s, a) == s.(pc := if childless then Exited(Clean) else Select)
  {
    a := if childless then Wait(NoChildren) else Wait(ReapNone);
  }

  lemma ReapedVerdict(s: State, p: Pid)
    requires Inv(s) && s.pc == WaitPid && p in s.children
    ensures Judge(s.tables, p, s.shutdown) == Expected <==> s.shutdown
  {
    hide Controlled, Booked, Swept, WellFormed, Judge;
    VerdictOfWellFormed(s.tables, p, s.shutdown);
  }

  lemma DrainEnd(s: State)
    requires s.pc == Drain && s.pipe == 0
    ensures Can(s, Poll(DrainEmpty)) && Do(s, Poll(DrainEmpty)) == s.(pc := TestFast)
  {
  }

  /** Testing the flags with nothing to do. */
  lemma NothingToRelay(s: State) returns (acts: seq<Action>)
    requires s.pc == TestFast && !s.fast && !s.smart
    ensures Runs(s, acts) && After(s, acts) == s.(pc := WaitPid)
  {
    hide Begin;
    acts := [Relay(Test)] + [Relay(Test)];
    var m := s.(pc := TestSmart);
    RunsOne(m, Relay(Test), []);
    assert [Relay(Test)] + [] == [Relay(Test)];
    RunsOne(s, Relay(Test), [Relay(Test)]);
  }

  /** Testing the flags up to the start of a broadcast. */
  lemma ToSweep(s: State) returns (acts: seq<Action>, r: Reason)
    requires s.pc == TestFast && (s.fast || s.smart)
    ensures r == if s.fast then Fast else if s.force then SecondSmart else Smart
    ensures Runs(s, acts)
    ensures var t := After(s, acts); t == s.(pc := Sweep(r, Targets(s.tables)), seen := t.seen)
  {
    r := if s.fast then Fast else if s.force then SecondSmart else Smart;
    if s.fast {
      acts := [Relay(Test)];
      RunsOne(s, Relay(Test), []);
      assert [Relay(Test)] + [] == acts;
    } else {
      var m, n := s.(pc := TestSmart), s.(pc := TestForce);
      RunsOne(n, Relay(Test), []);
      assert [Relay(Test)] + [] == [Relay(Test)];
      RunsOne(m, Relay(Test), [Relay(Test)]);
      RunsOne(s, Relay(Test), [Relay(Test)] + [Relay(Test)]);
      acts := [Relay(Test)] + ([Relay(Test)] + [Relay(Test)]);
    }
  }

  /** The flags after one uninterrupted look at them. */
  lemma RelayRun(s: State) returns (acts: seq<Action>)
    requires s.pc == TestFast
    ensures Runs(s, acts)
    ensures var t := After(s, acts);
      && t.pc == WaitPid
      && t.shutdown == s.shutdown && t.pipe == s.pipe && t.conf == s.conf && t.tables == s.tables && t.exitFlag == s.exitFlag
      && t.interrupted == s.interrupted
      && !t.fast
      && t.smart == (s.smart && s.fast)
      && t.force == (s.force || (!s.fast && s.smart))
      && t.children == if !s.fast && !s.smart then s.children
                       else PostAll(s.children, Targets(s.tables), if s.fast || s.force then SIGQUIT else SIGTERM)
  {
    hide PostAll, Runs, After, Targets;
    if s.fast || s.smart {
      var first, r := ToSweep(s);
      var rest := BroadcastRun(After(s, first), r);
      Compose(s, first, rest);
      acts := first + rest;
    } else {
      acts := NothingToRelay(s);
    }
  }
}
