/** The supervision protocol as a step system (src/bladepsgi.cpp:42-124,
    343-365, 434-555, 574-755; child signal set-up in src/worker.cpp:64-68,
    src/monitoring.cpp:72-75 and src/auxiliary.cpp:35-39).

    One `Action` is one step of the overseer's main program, one run of its
    signal handler, one event in a child process, or one signal sent from
    outside. Handlers run whole, but may run between any two steps of the main
    program once their signal is unblocked. `Can` says when an action is
    possible and `Do` what it does; every source of choice (which pid fork
    returns, which zombie waitpid returns, how select ends) is an argument of
    the action, so a run is just a sequence of actions. */
module Supervisor {
  import opened PidTables

  datatype Role = Worker | Auxiliary | Monitor

  /** A child that has not been reaped. `booting` children still run with every
      signal blocked; `stopAsked` is a worker's _worker_terminated flag. */
  datatype Child = Child(role: Role, live: bool, booting: bool, pending: set<Signal>, stopAsked: bool)

  /** Why a broadcast is made. */
  datatype Reason =
    | Fast                     // bladepsgi.cpp:705
    | SecondSmart              // bladepsgi.cpp:713
    | Smart                    // bladepsgi.cpp:719
    | Died(pid: Pid)           // bladepsgi.cpp:584
    | Fatal                    // bladepsgi.cpp:896

  function SignalOf(r: Reason): Signal {
    if r.Smart? then SIGTERM else SIGQUIT
  }

  datatype Exit =
    | Clean                    // exit(0), bladepsgi.cpp:737
    | Quit                     // _exit(1) in the SIGQUIT handler, :51
    | Crash                    // _exit(1) after a broadcast, :585 and :897
    | Unknown                  // _exit(1) for an unknown child, :636
    | Abort                    // abort(), :618
    | PipeFailed               // _exit(3) in a handler whose write() fails, :81

  datatype Pc =
    | Spawn                    // forking auxiliaries, workers, monitor
    | Install(n: nat)          // :655-658, n handlers installed
    | Unblock                  // :659
    | Select                   // :681
    | Drain                    // :350
    | TestFast                 // :702
    | TestSmart                // :708
    | TestForce                // :710
    | Sweep(reason: Reason, todo: seq<Pid>)  // inside KillProcessGroup
    | Clear(reason: Reason)    // :706, :714, :720
    | SetForce                 // :722
    | WaitPid                  // :728
    | Judging(pid: Pid)        // :591-633, about to read _mainapp_shutdown
    | Erase(pid: Pid)          // :596, :622, :630
    | Announce(reason: Reason) // :577, :887, :892
    | Exited(how: Exit)

  /** nworkers: the NUM_WORKERS argument; capacity: bytes the pipe can hold;
      inherited: the signal mask the overseer was started with. */
  datatype Config = Config(nworkers: nat, capacity: nat, inherited: set<Signal>)

  ghost predicate ValidConfig(c: Config) {
    1 <= c.nworkers <= 65536 && c.capacity >= 1
  }

  /** What has happened so far; no step depends on it. */
  datatype History = History(
    terms: nat,                // SIGTERMs handled
    ints: nat,                 // SIGINTs handled
    fasts: nat,                // broadcasts begun, by reason
    seconds: nat,
    smarts: nat,
    quitSwept: bool,           // a SIGQUIT broadcast has been completed
    struck: seq<Pid>,          // pids signalled by the current broadcast
    forked: set<Pid>,
    reaped: seq<Pid>)          // results of waitpid, in order

  datatype State = State(
    conf: Config,
    pc: Pc,
    shutdown: bool,            // _mainapp_shutdown
    fast: bool,                // _mainapp_fast_shutdown
    smart: bool,               // _mainapp_smart_shutdown
    force: bool,               // _mainapp_force_fast_shutdown
    pipe: nat,                 // bytes in the self-pipe
    mask: set<Signal>,
    pending: set<Signal>,
    interrupted: bool,         // a handler ran since the last EINTR
    tables: Tables,
    children: map<Pid, Child>,
    exitFlag: bool,            // the shared exit flag
    seen: History)

  /** Events outside the overseer. */
  datatype Event =
    | Arrive(sig: Signal)                // a signal is sent to the overseer
    | ChildReady(pid: Pid)               // a child has installed its handlers and unblocks
    | ChildSignal(pid: Pid, sig: Signal) // a pending signal is delivered to a child
    | ChildEnds(pid: Pid)                // a child exits or crashes
    | RaiseExitFlag                      // another process sets the shared exit flag

  /** Startup. */
  datatype BootStep =
    | Fork(pid: Pid)
    | InstallHandler
    | UnblockSignals

  /** select() and the drain loop. */
  datatype PollStep =
    | SelectTimeout
    | SelectInterrupted
    | SelectReadable
    | DrainRead(n: nat)
    | DrainInterrupted
    | DrainEmpty

  /** Testing flags and broadcasting. */
  datatype RelayStep =
    | Test
    | Kill
    | EndSweep
    | ClearFlag
    | RaiseForce
    | AnnounceExit
    | SyscallFails

  /** waitpid() and what follows it. */
  datatype WaitStep =
    | Reap(pid: Pid)
    | ReapNone
    | ReapInterrupted
    | NoChildren
    | JudgeDeath
    | EraseChild

  datatype Action =
    | Outside(event: Event)
    | Handle(sig: Signal)
    | HandleNoWrite(sig: Signal)         // write() fails, and not because the pipe is full
    | Boot(boot: BootStep)
    | Poll(poll: PollStep)
    | Relay(relay: RelayStep)
    | Wait(wait: WaitStep)

  function Init(conf: Config, names: seq<string>): State {
    State(conf, Spawn, false, false, false, false, 0, ALL_SIGNALS, {}, false,
          Tables([], [], NO_PID, seq(|names|, i requires 0 <= i < |names| => AuxiliaryProcess(names[i], NO_PID))),
          map[], false,
          History(0, 0, 0, 0, 0, false, [], {}, []))
  }

  // ---------- kernel ----------

  /** kill(pid, sig): a live child gets the signal pending; a zombie or a pid
      that is no longer a child is not affected. */
  function Post(children: map<Pid, Child>, pid: Pid, sig: Signal): map<Pid, Child> {
    if pid in children && children[pid].live then
      children[pid := children[pid].(pending := children[pid].pending + {sig})]
    else children
  }

  function PostAll(children: map<Pid, Child>, pids: seq<Pid>, sig: Signal): map<Pid, Child> {
    if pids == [] then children
    else PostAll(Post(children, pids[0], sig), pids[1..], sig)
  }

  /** The dispositions the children install before they unblock signals. */
  predicate Deadly(role: Role, sig: Signal) {
    match role
    case Worker => sig == SIGQUIT
    case Auxiliary => sig != SIGCHLD
    case Monitor => sig != SIGCHLD
  }

  function Deliver(c: Child, sig: Signal): Child {
    c.(pending := c.pending - {sig},
       live := c.live && !Deadly(c.role, sig),
       stopAsked := c.stopAsked || (c.role == Worker && sig == SIGTERM))
  }

  predicate SomeZombie(children: map<Pid, Child>) {
    exists p :: p in children && !children[p].live
  }

  // ---------- the overseer ----------

  function NextRole(s: State): Role {
    if |s.tables.auxiliaries| < |s.tables.processes| then Auxiliary
    else if |s.tables.workers| < s.conf.nworkers then Worker
    else Monitor
  }

  function Record(t: Tables, role: Role, pid: Pid): Tables
    requires role == Auxiliary ==> |t.auxiliaries| < |t.processes|
  {
    match role
    case Auxiliary =>
      var k := |t.auxiliaries|;
      t.(auxiliaries := t.auxiliaries + [pid], processes := t.processes[k := t.processes[k].(pid := pid)])
    case Worker => t.(workers := t.workers + [pid])
    case Monitor => t.(monitor := pid)
  }

  /** HandleParentSignal. A full pipe makes the write fail with EAGAIN, which
      is ignored. */
  function Handled(s: State, sig: Signal): State {
    if sig == SIGQUIT then
      s.(pending := s.pending - {sig}, interrupted := true,
         children := PostAll(s.children, Targets(s.tables), SIGQUIT), pc := Exited(Quit))
    else
      s.(pending := s.pending - {sig}, interrupted := true,
         smart := s.smart || sig == SIGTERM,
         fast := s.fast || sig == SIGINT,
         shutdown := s.shutdown || sig == SIGTERM || sig == SIGINT,
         pipe := if s.pipe < s.conf.capacity then s.pipe + 1 else s.pipe,
         seen := s.seen.(terms := s.seen.terms + (if sig == SIGTERM then 1 else 0),
                         ints := s.seen.ints + (if sig == SIGINT then 1 else 0)))
  }

  /** HandleParentSignal when write() fails with anything but EAGAIN: the flags
      are set, nothing is in the pipe and the process ends. */
  function HandledNoWrite(s: State, sig: Signal): State {
    Handled(s, sig).(pipe := s.pipe, pc := Exited(PipeFailed))
  }

  function Begin(s: State, r: Reason): State {
    s.(pc := Sweep(r, Targets(s.tables)),
       seen := s.seen.(struck := [],
                       fasts := s.seen.fasts + (if r.Fast? then 1 else 0),
                       seconds := s.seen.seconds + (if r.SecondSmart? then 1 else 0),
                       smarts := s.seen.smarts + (if r.Smart? then 1 else 0)))
  }

  // ---------- steps ----------

  predicate CanOutside(s: State, e: Event) {
    match e
    case Arrive(_) => !s.pc.Exited?
    case ChildReady(p) => p in s.children && s.children[p].live && s.children[p].booting
    case ChildSignal(p, sig) =>
      p in s.children && s.children[p].live && !s.children[p].booting && sig in s.children[p].pending
      && sig !in s.conf.inherited  // the mask UnblockSignals() gave the child
    case ChildEnds(p) => p in s.children && s.children[p].live
    case RaiseExitFlag => !s.exitFlag
  }

  function DoOutside(s: State, e: Event): State
    requires CanOutside(s, e)
  {
    match e
    case Arrive(sig) => s.(pending := s.pending + {sig})
    case ChildReady(p) => s.(children := s.children[p := s.children[p].(booting := false)])
    case ChildSignal(p, sig) =>
      var c := Deliver(s.children[p], sig);
      s.(children := s.children[p := c], pending := if c.live then s.pending else s.pending + {SIGCHLD})
    case ChildEnds(p) =>
      s.(children := s.children[p := s.children[p].(live := false)], pending := s.pending + {SIGCHLD})
    case RaiseExitFlag => s.(exitFlag := true)
  }

  predicate CanHandle(s: State, sig: Signal) {
    !s.pc.Exited? && sig in s.pending && sig !in s.mask
  }

  predicate CanBoot(s: State, b: BootStep) {
    match b
    case Fork(p) => s.pc == Spawn && p > 0 && p !in s.children
    case InstallHandler => s.pc.Install?
    case UnblockSignals => s.pc == Unblock
  }

  function DoBoot(s: State, b: BootStep): State
    requires CanBoot(s, b)
  {
    match b
    case Fork(p) =>
      var role := NextRole(s);
      s.(tables := Record(s.tables, role, p),
         children := s.children[p := Child(role, true, true, {}, false)],
         pc := if role == Monitor then Install(0) else Spawn,
         seen := s.seen.(forked := s.seen.forked + {p}))
    case InstallHandler => s.(pc := if s.pc.n < 3 then Install(s.pc.n + 1) else Unblock)
    case UnblockSignals => s.(mask := s.conf.inherited, pc := Select)
  }

  predicate CanPoll(s: State, p: PollStep) {
    match p
    case SelectTimeout => s.pc == Select && s.pipe == 0
    case SelectInterrupted => s.pc == Select && s.interrupted
    case SelectReadable => s.pc == Select && s.pipe > 0
    case DrainRead(n) => s.pc == Drain && 1 <= n <= 10 && n <= s.pipe
    case DrainInterrupted => s.pc == Drain && s.interrupted
    case DrainEmpty => s.pc == Drain && s.pipe == 0
  }

  function DoPoll(s: State, p: PollStep): State
    requires CanPoll(s, p)
  {
    match p
    case SelectTimeout => s.(pc := TestFast)
    case SelectInterrupted => s.(pc := TestFast, interrupted := false)
    case SelectReadable => s.(pc := Drain)
    case DrainRead(n) => s.(pipe := s.pipe - n)
    case DrainInterrupted => s.(interrupted := false)
    case DrainEmpty => s.(pc := TestFast)
  }

  predicate CanRelay(s: State, r: RelayStep) {
    match r
    case Test => s.pc.TestFast? || s.pc.TestSmart? || s.pc.TestForce?
    case Kill => s.pc.Sweep? && s.pc.todo != []
    case EndSweep => s.pc.Sweep? && s.pc.todo == []
    case ClearFlag => s.pc.Clear?
    case RaiseForce => s.pc == SetForce
    case AnnounceExit => s.pc.Announce?
    case SyscallFails => s.pc == Spawn || s.pc == Select || s.pc == Drain || s.pc == WaitPid
  }

  function DoRelay(s: State, r: RelayStep): State
    requires CanRelay(s, r)
  {
    match r
    case Test =>
      if s.pc.TestFast? then if s.fast then Begin(s, Fast) else s.(pc := TestSmart)
      else if s.pc.TestSmart? then s.(pc := if s.smart then TestForce else WaitPid)
      else Begin(s, if s.force then SecondSmart else Smart)
    case Kill =>
      s.(children := Post(s.children, s.pc.todo[0], SignalOf(s.pc.reason)),
         pc := Sweep(s.pc.reason, s.pc.todo[1..]),
         seen := s.seen.(struck := s.seen.struck + [s.pc.todo[0]]))
    case EndSweep =>
      var why := s.pc.reason;
      s.(pc := if why.Died? || why.Fatal? then Exited(Crash) else Clear(why),
         seen := s.seen.(quitSwept := s.seen.quitSwept || SignalOf(why) == SIGQUIT))
    case ClearFlag =>
      if s.pc.reason.Fast? then s.(fast := false, pc := WaitPid)
      else s.(smart := false, pc := if s.pc.reason.Smart? then SetForce else WaitPid)
    case RaiseForce => s.(force := true, pc := WaitPid)
    case AnnounceExit => Begin(s.(exitFlag := true), s.pc.reason)
    case SyscallFails => s.(pc := Announce(Fatal))
  }

  predicate CanWait(s: State, w: WaitStep) {
    match w
    case Reap(p) => s.pc == WaitPid && p in s.children && !s.children[p].live
    case ReapNone => s.pc == WaitPid && s.children != map[] && !SomeZombie(s.children)
    case ReapInterrupted => s.pc == WaitPid && s.interrupted
    case NoChildren => s.pc == WaitPid && s.children == map[]
    case JudgeDeath => s.pc.Judging?
    case EraseChild => s.pc.Erase?
  }

  function DoWait(s: State, w: WaitStep): State
    requires CanWait(s, w)
  {
    match w
    case Reap(p) =>
      s.(children := s.children - {p}, pc := Judging(p), seen := s.seen.(reaped := s.seen.reaped + [p]))
    case ReapNone => s.(pc := Select)
    case ReapInterrupted => s.(interrupted := false)
    case NoChildren => s.(pc := Exited(Clean))
    case JudgeDeath =>
      (match Judge(s.tables, s.pc.pid, s.shutdown)
       case Expected => s.(pc := Erase(s.pc.pid))
       case Unexpected(_) => s.(pc := Announce(Died(s.pc.pid)))
       case UnknownChild => s.(exitFlag := true, pc := Exited(Unknown))
       case Aborted => s.(pc := Exited(Abort)))
    case EraseChild => s.(tables := Forget(s.tables, s.pc.pid), pc := WaitPid)
  }

  predicate Can(s: State, a: Action) {
    match a
    case Outside(e) => CanOutside(s, e)
    case Handle(sig) => CanHandle(s, sig)
    case HandleNoWrite(sig) => CanHandle(s, sig) && sig != SIGQUIT
    case Boot(b) => CanBoot(s, b)
    case Poll(p) => CanPoll(s, p)
    case Relay(r) => CanRelay(s, r)
    case Wait(w) => CanWait(s, w)
  }

  function Do(s: State, a: Action): State
    requires Can(s, a)
  {
    match a
    case Outside(e) => DoOutside(s, e)
    case Handle(sig) => Handled(s, sig)
    case HandleNoWrite(sig) => HandledNoWrite(s, sig)
    case Boot(b) => DoBoot(s, b)
    case Poll(p) => DoPoll(s, p)
    case Relay(r) => DoRelay(s, r)
    case Wait(w) => DoWait(s, w)
  }

  // ---------- runs ----------

  /** `acts` can be performed one after the other from `s`. */
  predicate Runs(s: State, acts: seq<Action>)
    decreases |acts|
  {
    acts == [] || (Can(s, acts[0]) && Runs(Do(s, acts[0]), acts[1..]))
  }

  function After(s: State, acts: seq<Action>): State
    requires Runs(s, acts)
    decreases |acts|
  {
    if acts == [] then s else After(Do(s, acts[0]), acts[1..])
  }
}
