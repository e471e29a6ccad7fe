/** Signal masks and handlers while a process starts (src/bladepsgi.cpp:249-280,
    642-659; src/worker.cpp:63-68; src/monitoring.cpp:71-75;
    src/auxiliary.cpp:34-39). */
module Startup {
  import opened PidTables
  import Supervisor

  // ---------- BlockSignals and UnblockSignals ----------

  datatype Masks = Masks(current: set<Signal>, saved: seq<set<Signal>>)

  function Blocked(m: Masks): Masks {
    Masks(ALL_SIGNALS, m.saved + [m.current])
  }

  /** The oldest saved mask comes back, not the newest. */
  function Unblocked(m: Masks): Masks
    requires m.saved != []
  {
    Masks(m.saved[0], m.saved[1..])
  }

  /** The object's view of the two calls. */
  class SignalMask {
    var current: set<Signal>
    var saved: seq<set<Signal>>

    function Contents(): Masks
      reads this
    {
      Masks(current, saved)
    }

    constructor (inherited: set<Signal>)
      ensures Contents() == Masks(inherited, [])
    {
      current, saved := inherited, [];
    }

    method BlockSignals()
      modifies this
      ensures Contents() == Blocked(old(Contents()))
    {
      var old_mask := current;
      current := ALL_SIGNALS;
      saved := saved + [old_mask];
    }

    /** Throws, changing nothing, when no mask is saved. */
    method UnblockSignals() returns (ok: bool)
      modifies this
      ensures ok <==> old(saved) != []
      ensures Contents() == if ok then Unblocked(old(Contents())) else old(Contents())
    {
      if saved == [] { return false; }
      var mask := saved[0];
      saved := saved[1..];
      current := mask;
      ok := true;
    }
  }

  /** Unblocking undoes blocking exactly when every mask saved before equals
      the current one; in particular whenever none is saved. */
  lemma UnblockUndoesBlockIff(m: Masks)
    ensures Unblocked(Blocked(m)) == m <==> forall i :: 0 <= i < |m.saved| ==> m.saved[i] == m.current
  {
    var s := m.saved + [m.current];
    if forall i :: 0 <= i < |m.saved| ==> m.saved[i] == m.current {
      assert s[1..] == m.saved;
    }
    if Unblocked(Blocked(m)) == m {
      assert s[1..] == m.saved;
      AllEqualFirst(m.saved, m.current);
    }
  }

  lemma {:induction false} AllEqualFirst(xs: seq<set<Signal>>, x: set<Signal>)
    requires (xs + [x])[1..] == xs && (xs + [x])[0] == x
    ensures forall i :: 0 <= i < |xs| ==> xs[i] == x
  {
    if xs != [] {
      var i := 0;
      while i < |xs|
        invariant 0 <= i <= |xs|
        invariant forall j :: 0 <= j < i ==> xs[j] == x
      {
        assert i > 0 ==> (xs + [x])[1..][i - 1] == xs[i - 1];
        i := i + 1;
      }
    }
  }

  /** At depth two it does not: blocking twice and unblocking once lets the
      signals of the outer mask through. */
  lemma NestedUnblockOpensTheOuterMask(inherited: set<Signal>)
    requires inherited != ALL_SIGNALS
    ensures Unblocked(Blocked(Blocked(Masks(inherited, [])))).current == inherited != ALL_SIGNALS
  {
  }

  // ---------- a process from fork to its main loop ----------

  datatype Disposition = Default | Ignore | SetFlag | ExitTwo | WakeOverseer

  datatype Instr = Install(sig: Signal, what: Disposition) | Unblock

  function WorkerProgram(): seq<Instr> {
    [Install(SIGCHLD, Default), Install(SIGINT, Ignore), Install(SIGTERM, SetFlag), Install(SIGQUIT, ExitTwo), Unblock]
  }

  function MonitorProgram(): seq<Instr> {
    [Install(SIGINT, Default), Install(SIGTERM, Default), Install(SIGQUIT, ExitTwo), Unblock]
  }

  function AuxiliaryProgram(): seq<Instr> {
    [Install(SIGCHLD, Default), Install(SIGINT, Default), Install(SIGTERM, Default), Install(SIGQUIT, ExitTwo), Unblock]
  }

  function OverseerProgram(): seq<Instr> {
    [Install(SIGCHLD, WakeOverseer), Install(SIGINT, WakeOverseer), Install(SIGTERM, WakeOverseer),
     Install(SIGQUIT, WakeOverseer), Unblock]
  }

  datatype Fate = Running | ExitedTwo | KilledBy(sig: Signal)

  /** `ip`: instructions done; `flag`: _worker_terminated; `sent`: signals sent
      to the process so far; `handled`: those the overseer's handler got. */
  datatype Process = Process(
    masks: Masks,
    disp: map<Signal, Disposition>,
    pending: set<Signal>,
    ip: nat,
    fate: Fate,
    flag: bool,
    sent: set<Signal>,
    handled: set<Signal>)

  datatype Event = Send(sig: Signal) | Next | Deliver(sig: Signal)

  predicate Ignored(sig: Signal, d: Disposition) {
    d == Ignore || (d == Default && sig == SIGCHLD)
  }

  function DispositionOf(p: Process, sig: Signal): Disposition {
    if sig in p.disp then p.disp[sig] else Default
  }

  predicate Can(prog: seq<Instr>, p: Process, e: Event) {
    && p.fate == Running
    && match e
       case Send(_) => true
       case Next => p.ip < |prog| && (prog[p.ip].Unblock? ==> p.masks.saved != [])
       case Deliver(sig) => sig in p.pending && sig !in p.masks.current
  }

  /** A blocked signal stays pending even if it would be ignored; setting a
      disposition that ignores a signal discards it if pending. */
  function Do(prog: seq<Instr>, p: Process, e: Event): Process
    requires Can(prog, p, e)
  {
    match e
    case Send(sig) =>
      var q := p.(sent := p.sent + {sig});
      if sig !in p.masks.current && Ignored(sig, DispositionOf(p, sig)) then q
      else q.(pending := p.pending + {sig})
    case Next =>
      var q := p.(ip := p.ip + 1);
      (match prog[p.ip]
       case Unblock => q.(masks := Unblocked(p.masks))
       case Install(sig, d) =>
         q.(disp := p.disp[sig := d], pending := if Ignored(sig, d) then p.pending - {sig} else p.pending))
    case Deliver(sig) =>
      var q := p.(pending := p.pending - {sig});
      (match DispositionOf(p, sig)
       case Default => if sig == SIGCHLD then q else q.(fate := KilledBy(sig))
       case Ignore => q
       case SetFlag => q.(flag := true)
       case ExitTwo => q.(fate := ExitedTwo)
       case WakeOverseer => q.(handled := p.handled + {sig}))
  }

  predicate Runs(prog: seq<Instr>, p: Process, es: seq<Event>)
    decreases |es|
  {
    es == [] || (Can(prog, p, es[0]) && Runs(prog, Do(prog, p, es[0]), es[1..]))
  }

  function After(prog: seq<Instr>, p: Process, es: seq<Event>): Process
    requires Runs(prog, p, es)
    decreases |es|
  {
    if es == [] then p else After(prog, Do(prog, p, es[0]), es[1..])
  }

  /** A process as fork() leaves it, and the overseer after BlockSignals(): every
      signal blocked, the one mask saved by the overseer, nothing pending. */
  function Forked(inherited: set<Signal>, disp: map<Signal, Disposition>): Process {
    Process(Masks(ALL_SIGNALS, [inherited]), disp, {}, 0, Running, false, {}, {})
  }

  /** The program installs handlers and unblocks once, at its end. */
  ghost predicate UnblocksLast(prog: seq<Instr>) {
    && prog != []
    && (forall i :: 0 <= i < |prog| ==> (prog[i].Unblock? <==> i == |prog| - 1))
    && (forall i, j :: 0 <= i < j < |prog| && prog[i].Install? && prog[j].Install? ==> prog[i].sig != prog[j].sig)
  }

  lemma ProgramsUnblockLast()
    ensures UnblocksLast(WorkerProgram()) && UnblocksLast(MonitorProgram())
    ensures UnblocksLast(AuxiliaryProgram()) && UnblocksLast(OverseerProgram())
  {
  }

  /** While the program runs: until the last instruction everything is blocked
      and the one saved mask is untouched; after it the inherited mask is back,
      nothing is saved, and every handler is in place. */
  ghost predicate Guarded(prog: seq<Instr>, p: Process, inherited: set<Signal>) {
    && p.ip <= |prog|
    && (p.ip < |prog| ==> p.masks == Masks(ALL_SIGNALS, [inherited]) && p.fate == Running && !p.flag)
    && (p.ip == |prog| ==> p.masks == Masks(inherited, []))
    && (forall i :: 0 <= i < p.ip && prog[i].Install? ==> DispositionOf(p, prog[i].sig) == prog[i].what)
  }

  lemma GuardedStep(prog: seq<Instr>, p: Process, e: Event, inherited: set<Signal>)
    requires UnblocksLast(prog) && Guarded(prog, p, inherited) && Can(prog, p, e)
    ensures Guarded(prog, Do(prog, p, e), inherited)
  {
    var q := Do(prog, p, e);
    match e
    case Send(sig) =>
    case Next =>
      assert forall i :: 0 <= i < q.ip && prog[i].Install? ==> DispositionOf(q, prog[i].sig) == prog[i].what;
      if q.ip == |prog| { assert prog[p.ip].Unblock?; }
    case Deliver(sig) =>
      EverySignal(sig);
  }

  lemma EverySignal(sig: Signal)
    ensures sig in ALL_SIGNALS
  {
  }

  lemma {:induction false} GuardedRun(prog: seq<Instr>, p: Process, es: seq<Event>, inherited: set<Signal>)
    requires UnblocksLast(prog) && Guarded(prog, p, inherited) && Runs(prog, p, es)
    ensures Guarded(prog, After(prog, p, es), inherited)
    decreases |es|
  {
    hide Guarded, Do, UnblocksLast;
    if es != [] {
      GuardedStep(prog, p, es[0], inherited);
      GuardedRun(prog, Do(prog, p, es[0]), es[1..], inherited);
    }
  }

  /** In every process and under every arrival of signals: nothing is delivered
      before all of its handlers are installed, and the inherited mask is
      popped exactly once, by the last instruction. */
  lemma SafeStartup(prog: seq<Instr>, inherited: set<Signal>, disp: map<Signal, Disposition>, es: seq<Event>)
    requires UnblocksLast(prog) && Runs(prog, Forked(inherited, disp), es)
    ensures Guarded(prog, After(prog, Forked(inherited, disp), es), inherited)
  {
    GuardedRun(prog, Forked(inherited, disp), es, inherited);
  }

  // ---------- a worker and SIGTERM ----------

  /** SIGTERM sent to a worker is pending until its flag is set, and can only
      set the flag; of all signals only SIGQUIT ends it. */
  ghost predicate TermSafe(p: Process) {
    && (SIGTERM in p.sent ==> p.flag || SIGTERM in p.pending)
    && (p.fate == Running || p.fate == ExitedTwo)
  }

  lemma TermSafeStep(p: Process, e: Event, inherited: set<Signal>)
    requires Guarded(WorkerProgram(), p, inherited) && TermSafe(p) && Can(WorkerProgram(), p, e)
    ensures TermSafe(Do(WorkerProgram(), p, e))
  {
    var prog := WorkerProgram();
    match e
    case Send(sig) =>
      if p.ip == |prog| { assert prog[2].Install? && DispositionOf(p, SIGTERM) == SetFlag; }
    case Next =>
    case Deliver(sig) =>
      EverySignal(sig);
      assert p.ip == |prog|;
      assert prog[0].Install? && prog[1].Install? && prog[2].Install? && prog[3].Install?;
      assert DispositionOf(p, SIGCHLD) == Default && DispositionOf(p, SIGINT) == Ignore;
      assert DispositionOf(p, SIGTERM) == SetFlag && DispositionOf(p, SIGQUIT) == ExitTwo;
  }

  lemma {:induction false} TermSafeRun(p: Process, es: seq<Event>, inherited: set<Signal>)
    requires Guarded(WorkerProgram(), p, inherited) && TermSafe(p) && Runs(WorkerProgram(), p, es)
    ensures TermSafe(After(WorkerProgram(), p, es))
    decreases |es|
  {
    hide Guarded, TermSafe, Do;
    if es != [] {
      ProgramsUnblockLast();
      TermSafeStep(p, es[0], inherited);
      GuardedStep(WorkerProgram(), p, es[0], inherited);
      TermSafeRun(Do(WorkerProgram(), p, es[0]), es[1..], inherited);
    }
  }

  /** A SIGTERM sent to a worker at any moment after fork() is never lost and
      never kills it by default action: it stays pending until the worker's
      flag is set. */
  lemma WorkerSurvivesTerm(inherited: set<Signal>, disp: map<Signal, Disposition>, es: seq<Event>)
    requires Runs(WorkerProgram(), Forked(inherited, disp), es)
    ensures var p := After(WorkerProgram(), Forked(inherited, disp), es);
      && (SIGTERM in p.sent ==> p.flag || SIGTERM in p.pending)
      && (p.fate == Running || p.fate == ExitedTwo)
  {
    TermSafeRun(Forked(inherited, disp), es, inherited);
  }

  // ---------- the overseer and all four signals ----------

  /** Every signal sent is pending or has been given to the handler, and none
      ends the process. */
  ghost predicate NothingLost(p: Process) {
    p.fate == Running && forall sig :: sig in p.sent ==> sig in p.pending || sig in p.handled
  }

  lemma HandlersInstalled(p: Process, inherited: set<Signal>)
    requires Guarded(OverseerProgram(), p, inherited) && p.ip == |OverseerProgram()|
    ensures forall sig :: DispositionOf(p, sig) == WakeOverseer
  {
    var prog := OverseerProgram();
    assert prog[0].Install? && prog[1].Install? && prog[2].Install? && prog[3].Install?;
    assert DispositionOf(p, SIGCHLD) == WakeOverseer && DispositionOf(p, SIGINT) == WakeOverseer;
    assert DispositionOf(p, SIGTERM) == WakeOverseer && DispositionOf(p, SIGQUIT) == WakeOverseer;
    forall sig
      ensures DispositionOf(p, sig) == WakeOverseer
    {
      EverySignal(sig);
    }
  }

  lemma NothingLostStep(p: Process, e: Event, inherited: set<Signal>)
    requires Guarded(OverseerProgram(), p, inherited) && NothingLost(p) && Can(OverseerProgram(), p, e)
    ensures NothingLost(Do(OverseerProgram(), p, e))
  {
    if p.ip == |OverseerProgram()| { HandlersInstalled(p, inherited); }
    match e
    case Send(sig) => EverySignal(sig);
    case Next =>
    case Deliver(sig) => EverySignal(sig);
  }

  lemma {:induction false} NothingLostRun(p: Process, es: seq<Event>, inherited: set<Signal>)
    requires Guarded(OverseerProgram(), p, inherited) && NothingLost(p) && Runs(OverseerProgram(), p, es)
    ensures NothingLost(After(OverseerProgram(), p, es))
    decreases |es|
  {
    hide Guarded, NothingLost, Do;
    if es != [] {
      ProgramsUnblockLast();
      NothingLostStep(p, es[0], inherited);
      GuardedStep(OverseerProgram(), p, es[0], inherited);
      NothingLostRun(Do(OverseerProgram(), p, es[0]), es[1..], inherited);
    }
  }

  /** Whatever signal is sent to the overseer after BlockSignals(), at any moment
      of its start-up or later: it stays pending until the overseer's own handler
      gets it; it is never dropped, never ends the process by default, and is not
      handled before all four handlers are in place. */
  lemma OverseerLosesNoSignal(inherited: set<Signal>, disp: map<Signal, Disposition>, es: seq<Event>)
    requires Runs(OverseerProgram(), Forked(inherited, disp), es)
    ensures var p := After(OverseerProgram(), Forked(inherited, disp), es);
      && p.fate == Running
      && (forall sig :: sig in p.sent ==> sig in p.pending || sig in p.handled)
      && (p.ip == 5 ==> forall sig :: DispositionOf(p, sig) == WakeOverseer)
      && (p.ip < 5 ==> p.handled == {})
  {
    hide Runs, After;
    var p := After(OverseerProgram(), Forked(inherited, disp), es);
    ProgramsUnblockLast();
    GuardedRun(OverseerProgram(), Forked(inherited, disp), es, inherited);
    NothingLostRun(Forked(inherited, disp), es, inherited);
    if p.ip == 5 { HandlersInstalled(p, inherited); }
    NotBeforeTheEnd(Forked(inherited, disp), es, inherited);
  }

  lemma {:induction false} NotBeforeTheEnd(p: Process, es: seq<Event>, inherited: set<Signal>)
    requires Guarded(OverseerProgram(), p, inherited) && Runs(OverseerProgram(), p, es)
    requires p.ip < 5 ==> p.handled == {}
    ensures After(OverseerProgram(), p, es).ip < 5 ==> After(OverseerProgram(), p, es).handled == {}
    decreases |es|
  {
    if es != [] {
      ProgramsUnblockLast();
      GuardedStep(OverseerProgram(), p, es[0], inherited);
      if es[0].Deliver? { EverySignal(es[0].sig); }
      NotBeforeTheEnd(Do(OverseerProgram(), p, es[0]), es[1..], inherited);
    }
  }

  /** Masks and handlers are those that the start-up program leaves when no
      signal disturbs it. */
  ghost predicate Undisturbed(inherited: set<Signal>, masks: Masks, handlers: map<Signal, Disposition>) {
    var es := [Next, Next, Next, Next, Next];
    && Runs(OverseerProgram(), Forked(inherited, map[]), es)
    && var p := After(OverseerProgram(), Forked(inherited, map[]), es);
       p.ip == |OverseerProgram()| && masks == p.masks && handlers == p.disp
  }

  /** They are the inherited mask and the overseer's handler for each signal. */
  lemma QuietStart(inherited: set<Signal>)
    ensures Undisturbed(inherited, Masks(inherited, []),
                        map[SIGCHLD := WakeOverseer, SIGINT := WakeOverseer, SIGTERM := WakeOverseer, SIGQUIT := WakeOverseer])
  {
  }

  // ---------- what the supervision protocol assumes of its children ----------

  function ProgramOf(role: Supervisor.Role): seq<Instr> {
    match role
    case Worker => WorkerProgram()
    case Monitor => MonitorProgram()
    case Auxiliary => AuxiliaryProgram()
  }

  /** Across exec() a disposition is the default or to ignore; no handler is
      installed before the children are forked. */
  ghost predicate AfterExec(disp: map<Signal, Disposition>) {
    forall sig :: sig in disp ==> disp[sig] == Default || disp[sig] == Ignore
  }

  /** A signal that the program does not mention keeps its disposition. */
  lemma {:induction false} UnmentionedStays(prog: seq<Instr>, p: Process, es: seq<Event>, sig: Signal)
    requires Runs(prog, p, es) && forall i :: 0 <= i < |prog| && prog[i].Install? ==> prog[i].sig != sig
    ensures DispositionOf(After(prog, p, es), sig) == DispositionOf(p, sig)
    decreases |es|
  {
    if es != [] { UnmentionedStays(prog, Do(prog, p, es[0]), es[1..], sig); }
  }

  /** Once a child has finished its program, a delivered signal ends it exactly
      when Supervisor.Deadly says so; before that none is delivered. The
      monitor alone leaves SIGCHLD as it was at fork. */
  lemma DeadlyIsInstalled(role: Supervisor.Role, inherited: set<Signal>, disp: map<Signal, Disposition>, es: seq<Event>,
                          sig: Signal)
    requires AfterExec(disp) && Runs(ProgramOf(role), Forked(inherited, disp), es)
    requires Can(ProgramOf(role), After(ProgramOf(role), Forked(inherited, disp), es), Deliver(sig))
    ensures var p := After(ProgramOf(role), Forked(inherited, disp), es);
      && p.ip == |ProgramOf(role)|
      && (Do(ProgramOf(role), p, Deliver(sig)).fate != Running <==> Supervisor.Deadly(role, sig))
  {
    hide Runs, After;
    var prog := ProgramOf(role);
    var p := After(prog, Forked(inherited, disp), es);
    ProgramsUnblockLast();
    GuardedRun(prog, Forked(inherited, disp), es, inherited);
    EverySignal(sig);
    if role == Supervisor.Monitor && sig == SIGCHLD {
      UnmentionedStays(prog, Forked(inherited, disp), es, SIGCHLD);
    } else {
      InstalledFate(role, p, sig, inherited);
    }
  }

  lemma InstalledFate(role: Supervisor.Role, p: Process, sig: Signal, inherited: set<Signal>)
    requires Guarded(ProgramOf(role), p, inherited) && Can(ProgramOf(role), p, Deliver(sig))
    requires role == Supervisor.Monitor ==> sig != SIGCHLD
    ensures Do(ProgramOf(role), p, Deliver(sig)).fate != Running <==> Supervisor.Deadly(role, sig)
  {
    var prog := ProgramOf(role);
    EverySignal(sig);
    assert prog[0].Install? && prog[1].Install? && prog[2].Install?;
    assert role != Supervisor.Monitor ==> prog[3].Install?;
    assert exists i :: 0 <= i < |prog| && prog[i].Install? && prog[i].sig == sig;
  }
}
