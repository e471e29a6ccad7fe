/** Concrete runs of one worker and one monitor. Three refute a tempting claim
    about the overseer; a fourth shows a handler inside the drain loop; and the
    first, continued for ever, shows that what Requests.RequestLeadsToExit asks
    for can be had.

    1. A worker crashes and is reaped before anyone asked for a shutdown, and
       the overseer still ends with exit(0): the SIGTERM is handled between
       waitpid() at src/bladepsgi.cpp:728 and the test of _mainapp_shutdown at
       :594. SupervisorTheorems.RequestBeforeReapIff says exactly when the
       request precedes the first reaped child.
    2. Two SIGTERMs are handled and only one broadcast is made: the second is
       handled between the broadcast at :719 and the assignment at :720, which
       clears its flag. SupervisorTheorems.TwoSmartMeansFastIff says exactly
       when two smart shutdowns mean a fast one (comment at :721).
    3. The self-pipe breaks: the handler ends the overseer at :81 and the
       overseer has signalled nobody. SupervisorTheorems.ExitLeavesNobodyRunning
       covers every other exit, and BrokenPipe.BrokenPipeSparesNobodyIff says
       exactly when this one leaves nobody unsignalled. */
module Scenarios {
  import opened PidTables
  import opened Supervisor
  import opened SupervisorInvariants
  import opened SupervisorTheorems
  import Shutdown
  import Requests

  // ---------- the common start ----------

  const CONF := Config(1, 65536, {})

  function BootActs(): seq<Action> {
    [Boot(Fork(101)), Boot(Fork(102)), Boot(InstallHandler), Boot(InstallHandler), Boot(InstallHandler),
     Boot(InstallHandler), Boot(UnblockSignals)]
  }

  const WORKER := Child(Worker, true, true, {}, false)
  const MONITOR := Child(Monitor, true, true, {}, false)

  function Booted(): State {
    State(CONF, Select, false, false, false, false, 0, {}, {}, false,
          Tables([101], [], 102, []), map[101 := WORKER, 102 := MONITOR], false,
          History(0, 0, 0, 0, 0, false, [], {101, 102}, []))
  }

  lemma Boots()
    ensures Runs(Init(CONF, []), BootActs()) && After(Init(CONF, []), BootActs()) == Booted()
  {
    var s0 := Init(CONF, []);
    assert s0.tables == Tables([], [], NO_PID, []);
    var s1 := Do(s0, Boot(Fork(101)));
    var s2 := Do(s1, Boot(Fork(102)));
    assert s2.tables == Tables([101], [], 102, []);
    var s3 := Do(s2, Boot(InstallHandler));
    var s4 := Do(s3, Boot(InstallHandler));
    var s5 := Do(s4, Boot(InstallHandler));
    var s6 := Do(s5, Boot(InstallHandler));
    assert s6.pc == Unblock;
    var s7 := Do(s6, Boot(UnblockSignals));
    assert s7 == Booted();
    RunsOne(s6, Boot(UnblockSignals), []);
    RunsOne(s5, Boot(InstallHandler), BootActs()[6..]);
    RunsOne(s4, Boot(InstallHandler), BootActs()[5..]);
    RunsOne(s3, Boot(InstallHandler), BootActs()[4..]);
    RunsOne(s2, Boot(InstallHandler), BootActs()[3..]);
    RunsOne(s1, Boot(Fork(102)), BootActs()[2..]);
    RunsOne(s0, Boot(Fork(101)), BootActs()[1..]);
  }

  // ---------- a late request ----------

  function CrashActs(): seq<Action> {
    [Outside(ChildEnds(101)), Poll(SelectTimeout)]
  }

  function LookActs(): seq<Action> {
    [Relay(Test), Relay(Test), Wait(Reap(101))]
  }

  function StopActs(): seq<Action> {
    [Outside(Arrive(SIGTERM)), Handle(SIGTERM), Wait(JudgeDeath), Wait(EraseChild), Outside(ChildEnds(102))]
  }

  function EndActs(): seq<Action> {
    [Wait(Reap(102)), Wait(JudgeDeath), Wait(EraseChild), Wait(NoChildren)]
  }

  function Crashed(): State {
    Booted().(pc := TestFast, pending := {SIGCHLD},
              children := map[101 := WORKER.(live := false), 102 := MONITOR])
  }

  function Looked(): State {
    State(CONF, Judging(101), false, false, false, false, 0, {}, {SIGCHLD}, false,
          Tables([101], [], 102, []), map[102 := MONITOR], false,
          History(0, 0, 0, 0, 0, false, [], {101, 102}, [101]))
  }

  function Stopped(): State {
    State(CONF, WaitPid, true, false, true, false, 1, {}, {SIGCHLD}, true,
          Tables([], [], 102, []), map[102 := MONITOR.(live := false)], false,
          History(1, 0, 0, 0, 0, false, [], {101, 102}, [101]))
  }

  lemma Crashes()
    ensures Runs(Booted(), CrashActs()) && After(Booted(), CrashActs()) == Crashed()
  {
  }

  lemma Looks()
    ensures Runs(Crashed(), LookActs()) && After(Crashed(), LookActs()) == Looked()
  {
  }

  lemma Stops()
    ensures Runs(Looked(), StopActs()) && After(Looked(), StopActs()) == Stopped()
  {
    var s0 := Looked();
    var s1 := Do(s0, Outside(Arrive(SIGTERM)));
    var s2 := Do(s1, Handle(SIGTERM));
    assert s2.pending == {SIGCHLD};
    var s3 := Do(s2, Wait(JudgeDeath));
    var s4 := Do(s3, Wait(EraseChild));
    assert s4.tables == Tables([], [], 102, []) && s4.pc == WaitPid;
    var s5 := Do(s4, Outside(ChildEnds(102)));
    assert s5 == Stopped();
    RunsOne(s4, Outside(ChildEnds(102)), []);
    RunsOne(s3, Wait(EraseChild), StopActs()[4..]);
    RunsOne(s2, Wait(JudgeDeath), StopActs()[3..]);
    RunsOne(s1, Handle(SIGTERM), StopActs()[2..]);
    RunsOne(s0, Outside(Arrive(SIGTERM)), StopActs()[1..]);
  }

  lemma Ends()
    ensures Runs(Stopped(), EndActs()) && After(Stopped(), EndActs()).pc == Exited(Clean)
  {
  }

  function LateRun(): seq<Action> {
    BootActs() + CrashActs() + LookActs() + StopActs() + EndActs()
  }

  /** The worker 101 is reaped at step 11, before any request is handled, and
      the run ends with exit(0). */
  lemma CleanExitAfterUnaskedDeath()
    ensures Reached(CONF, [], LateRun())
    ensures After(Init(CONF, []), LateRun()).pc == Exited(Clean)
    ensures LateRun()[11] == Wait(Reap(101))
    ensures TimesHandled(LateRun()[..11], SIGTERM) + TimesHandled(LateRun()[..11], SIGINT) == 0
  {
    hide Can, Do, Booted, Crashed, Looked, Stopped, Runs, After, Init, TimesHandled;
    var s := Init(CONF, []);
    Boots();
    Crashes();
    Compose(s, BootActs(), CrashActs());
    Looks();
    Compose(s, BootActs() + CrashActs(), LookActs());
    Stops();
    Compose(s, BootActs() + CrashActs() + LookActs(), StopActs());
    Ends();
    Compose(s, BootActs() + CrashActs() + LookActs() + StopActs(), EndActs());
    NothingHandled(LateRun()[..11]);
  }

  lemma {:induction false} NothingHandled(acts: seq<Action>)
    requires forall i :: 0 <= i < |acts| ==> !acts[i].Handle? && !acts[i].HandleNoWrite?
    ensures TimesHandled(acts, SIGTERM) == 0 && TimesHandled(acts, SIGINT) == 0
  {
    if acts != [] { NothingHandled(acts[1..]); }
  }

  // ---------- a merged request ----------

  function FirstActs(): seq<Action> {
    [Outside(Arrive(SIGTERM)), Handle(SIGTERM), Poll(SelectReadable), Poll(DrainRead(1)), Poll(DrainEmpty)]
  }

  function TestActs(): seq<Action> {
    [Relay(Test), Relay(Test), Relay(Test)]
  }

  function SweepActs(): seq<Action> {
    [Relay(Kill), Relay(Kill), Relay(EndSweep)]
  }

  function SecondActs(): seq<Action> {
    [Outside(Arrive(SIGTERM)), Handle(SIGTERM), Relay(ClearFlag), Relay(RaiseForce)]
  }

  function DrainActs(): seq<Action> {
    [Poll(SelectReadable), Poll(DrainRead(1)), Poll(DrainEmpty)]
  }

  function LoopActs(): seq<Action> {
    [Wait(ReapNone)]
  }

  function IdleActs(): seq<Action> {
    [Relay(Test), Relay(Test), Wait(ReapNone)]
  }

  const ASKED_WORKER := WORKER.(pending := {SIGTERM})
  const ASKED_MONITOR := MONITOR.(pending := {SIGTERM})

  function Noticed(): State {
    Booted().(pc := TestFast, shutdown := true, smart := true, interrupted := true,
              seen := Booted().seen.(terms := 1))
  }

  function Sweeping(): State {
    Noticed().(pc := Sweep(Smart, [101, 102]), seen := Noticed().seen.(smarts := 1))
  }

  function SweptAll(): State {
    Sweeping().(pc := Clear(Smart), children := map[101 := ASKED_WORKER, 102 := ASKED_MONITOR],
                seen := Sweeping().seen.(struck := [101, 102]))
  }

  function Merged(): State {
    SweptAll().(pc := WaitPid, smart := false, force := true, pipe := 1, seen := SweptAll().seen.(terms := 2))
  }

  function Looped(): State {
    Merged().(pc := Select)
  }

  function Drained(): State {
    Merged().(pc := TestFast, pipe := 0)
  }

  function Idle(): State {
    Merged().(pc := Select, pipe := 0)
  }

  lemma Notices()
    ensures Runs(Booted(), FirstActs()) && After(Booted(), FirstActs()) == Noticed()
  {
    var s0 := Booted();
    var s1 := Do(s0, Outside(Arrive(SIGTERM)));
    var s2 := Do(s1, Handle(SIGTERM));
    assert s2.pending == {} && s2.pipe == 1;
    var s3 := Do(s2, Poll(SelectReadable));
    var s4 := Do(s3, Poll(DrainRead(1)));
    var s5 := Do(s4, Poll(DrainEmpty));
    assert s5 == Noticed();
    RunsOne(s4, Poll(DrainEmpty), []);
    RunsOne(s3, Poll(DrainRead(1)), FirstActs()[4..]);
    RunsOne(s2, Poll(SelectReadable), FirstActs()[3..]);
    RunsOne(s1, Handle(SIGTERM), FirstActs()[2..]);
    RunsOne(s0, Outside(Arrive(SIGTERM)), FirstActs()[1..]);
  }

  lemma Tests()
    ensures Runs(Noticed(), TestActs()) && After(Noticed(), TestActs()) == Sweeping()
  {
    var s0 := Noticed();
    var s1 := Do(s0, Relay(Test));
    var s2 := Do(s1, Relay(Test));
    var s3 := Do(s2, Relay(Test));
    assert s3.pc == Sweep(Smart, [101, 102]);
    assert s3 == Sweeping();
    RunsOne(s2, Relay(Test), []);
    RunsOne(s1, Relay(Test), TestActs()[2..]);
    RunsOne(s0, Relay(Test), TestActs()[1..]);
  }

  lemma Sweeps()
    ensures Runs(Sweeping(), SweepActs()) && After(Sweeping(), SweepActs()) == SweptAll()
  {
    var s0 := Sweeping();
    assert {} + {SIGTERM} == {SIGTERM};
    var s1 := Do(s0, Relay(Kill));
    assert s1.children == map[101 := ASKED_WORKER, 102 := MONITOR] && s1.pc.todo == [102];
    var s2 := Do(s1, Relay(Kill));
    assert s2.children == map[101 := ASKED_WORKER, 102 := ASKED_MONITOR] && s2.pc == Sweep(Smart, []);
    var s3 := Do(s2, Relay(EndSweep));
    assert s3 == SweptAll();
    RunsOne(s2, Relay(EndSweep), []);
    RunsOne(s1, Relay(Kill), SweepActs()[2..]);
    RunsOne(s0, Relay(Kill), SweepActs()[1..]);
  }

  lemma Merges()
    ensures Runs(SweptAll(), SecondActs()) && After(SweptAll(), SecondActs()) == Merged()
  {
    var s0 := SweptAll();
    var s1 := Do(s0, Outside(Arrive(SIGTERM)));
    var s2 := Do(s1, Handle(SIGTERM));
    assert s2.pending == {} && s2.pipe == 1;
    var s3 := Do(s2, Relay(ClearFlag));
    var s4 := Do(s3, Relay(RaiseForce));
    assert s4 == Merged();
    RunsOne(s3, Relay(RaiseForce), []);
    RunsOne(s2, Relay(ClearFlag), SecondActs()[3..]);
    RunsOne(s1, Handle(SIGTERM), SecondActs()[2..]);
    RunsOne(s0, Outside(Arrive(SIGTERM)), SecondActs()[1..]);
  }

  lemma Loops()
    ensures Runs(Merged(), LoopActs()) && After(Merged(), LoopActs()) == Looped()
  {
    var s0 := Merged();
    assert 101 in s0.children && forall p :: p in s0.children ==> s0.children[p].live;
    RunsOne(s0, Wait(ReapNone), []);
  }

  lemma Drains()
    ensures Runs(Looped(), DrainActs()) && After(Looped(), DrainActs()) == Drained()
  {
  }

  lemma Idles()
    ensures Runs(Drained(), IdleActs()) && After(Drained(), IdleActs()) == Idle()
  {
    var s0 := Drained();
    var s1 := Do(s0, Relay(Test));
    var s2 := Do(s1, Relay(Test));
    assert 101 in s2.children && forall p :: p in s2.children ==> s2.children[p].live;
    var s3 := Do(s2, Wait(ReapNone));
    assert s3 == Idle();
    RunsOne(s2, Wait(ReapNone), []);
    RunsOne(s1, Relay(Test), IdleActs()[2..]);
    RunsOne(s0, Relay(Test), IdleActs()[1..]);
  }

  function MergedRun(): seq<Action> {
    BootActs() + FirstActs() + TestActs() + SweepActs() + SecondActs() + LoopActs() + DrainActs() + IdleActs()
  }

  lemma MergedRunEnds()
    ensures Reached(CONF, [], MergedRun()) && After(Init(CONF, []), MergedRun()) == Idle()
  {
    hide Can, Do, Booted, Noticed, Sweeping, SweptAll, Merged, Looped, Drained, Idle, Runs, After, Init,
         BootActs, FirstActs, TestActs, SweepActs, SecondActs, LoopActs, DrainActs, IdleActs;
    var s := Init(CONF, []);
    Boots();
    Notices();
    Compose(s, BootActs(), FirstActs());
    Tests();
    Compose(s, BootActs() + FirstActs(), TestActs());
    Sweeps();
    Compose(s, BootActs() + FirstActs() + TestActs(), SweepActs());
    Merges();
    Compose(s, BootActs() + FirstActs() + TestActs() + SweepActs(), SecondActs());
    Loops();
    Compose(s, BootActs() + FirstActs() + TestActs() + SweepActs() + SecondActs(), LoopActs());
    Drains();
    Compose(s, BootActs() + FirstActs() + TestActs() + SweepActs() + SecondActs() + LoopActs(), DrainActs());
    Idles();
    Compose(s, BootActs() + FirstActs() + TestActs() + SweepActs() + SecondActs() + LoopActs() + DrainActs(), IdleActs());
  }

  /** Two SIGTERMs handled, one SIGTERM broadcast, no SIGQUIT broadcast, and
      the overseer back in select() with an empty pipe and no flag set. */
  lemma SecondTermCanBeLost()
    ensures Reached(CONF, [], MergedRun())
    ensures var t := After(Init(CONF, []), MergedRun());
      t.pc == Select && t.pipe == 0 && t.pending == {} && !t.smart && !t.fast
    ensures TimesHandled(MergedRun(), SIGTERM) == 2
    ensures Broadcasts(Init(CONF, []), MergedRun(), Smart) == 1
    ensures Broadcasts(Init(CONF, []), MergedRun(), SecondSmart) == 0
    ensures Broadcasts(Init(CONF, []), MergedRun(), Fast) == 0
  {
    hide Runs, After, MergedRun, TimesHandled, Broadcasts;
    MergedRunEnds();
    InitHolds(CONF, []);
    TraceOf(Init(CONF, []), MergedRun());
  }

  // ---------- a handler inside the drain loop ----------

  function EarlyActs(): seq<Action> {
    [Outside(Arrive(SIGTERM)), Handle(SIGTERM), Poll(SelectReadable), Poll(DrainRead(1))]
  }

  function MidDrainActs(): seq<Action> {
    [Outside(Arrive(SIGINT)), Handle(SIGINT), Poll(DrainInterrupted), Poll(DrainRead(1)), Poll(DrainEmpty)]
  }

  function Drying(): State {
    Booted().(pc := Drain, shutdown := true, smart := true, interrupted := true, seen := Booted().seen.(terms := 1))
  }

  function BothNoted(): State {
    Drying().(pc := TestFast, fast := true, interrupted := false, seen := Drying().seen.(ints := 1))
  }

  lemma Dries()
    ensures Runs(Booted(), EarlyActs()) && After(Booted(), EarlyActs()) == Drying()
  {
    var s0 := Booted();
    var s1 := Do(s0, Outside(Arrive(SIGTERM)));
    var s2 := Do(s1, Handle(SIGTERM));
    assert s2.pending == {} && s2.pipe == 1;
    var s3 := Do(s2, Poll(SelectReadable));
    var s4 := Do(s3, Poll(DrainRead(1)));
    assert s4 == Drying();
    RunsOne(s3, Poll(DrainRead(1)), []);
    RunsOne(s2, Poll(SelectReadable), EarlyActs()[3..]);
    RunsOne(s1, Handle(SIGTERM), EarlyActs()[2..]);
    RunsOne(s0, Outside(Arrive(SIGTERM)), EarlyActs()[1..]);
  }

  lemma NotesBoth()
    ensures Runs(Drying(), MidDrainActs()) && After(Drying(), MidDrainActs()) == BothNoted()
  {
    var s0 := Drying();
    var s1 := Do(s0, Outside(Arrive(SIGINT)));
    var s2 := Do(s1, Handle(SIGINT));
    assert s2.pending == {} && s2.pipe == 1;
    var s3 := Do(s2, Poll(DrainInterrupted));
    var s4 := Do(s3, Poll(DrainRead(1)));
    var s5 := Do(s4, Poll(DrainEmpty));
    assert s5 == BothNoted();
    RunsOne(s4, Poll(DrainEmpty), []);
    RunsOne(s3, Poll(DrainRead(1)), MidDrainActs()[4..]);
    RunsOne(s2, Poll(DrainInterrupted), MidDrainActs()[3..]);
    RunsOne(s1, Handle(SIGINT), MidDrainActs()[2..]);
    RunsOne(s0, Outside(Arrive(SIGINT)), MidDrainActs()[1..]);
  }

  function MidDrainRun(): seq<Action> {
    BootActs() + EarlyActs() + MidDrainActs()
  }

  /** A SIGINT is handled after a read() that emptied the pipe and before the
      one that finds it empty; it is noted, its byte is read in the same drain,
      and the loop goes on to the fast test. */
  lemma HandlerInsideTheDrain()
    ensures Reached(CONF, [], MidDrainRun())
    ensures MidDrainRun()[10] == Poll(DrainRead(1)) && MidDrainRun()[12] == Handle(SIGINT)
    ensures MidDrainRun()[15] == Poll(DrainEmpty) && |MidDrainRun()| == 16
    ensures var t := After(Init(CONF, []), MidDrainRun()); t.pc == TestFast && t.fast && t.smart && t.pipe == 0
  {
    hide Can, Do, Runs, After, Init;
    var s := Init(CONF, []);
    Boots();
    Dries();
    Compose(s, BootActs(), EarlyActs());
    NotesBoth();
    Compose(s, BootActs() + EarlyActs(), MidDrainActs());
  }

  // ---------- a broken pipe ----------

  function BrokenRun(): seq<Action> {
    BootActs() + [Outside(Arrive(SIGTERM)), HandleNoWrite(SIGTERM)]
  }

  lemma Breaks()
    ensures Runs(Booted(), [Outside(Arrive(SIGTERM)), HandleNoWrite(SIGTERM)])
    ensures var s := After(Booted(), [Outside(Arrive(SIGTERM)), HandleNoWrite(SIGTERM)]);
      s.pc == Exited(PipeFailed) && s.children == Booted().children && s.exitFlag == Booted().exitFlag
  {
    var s0 := Booted();
    var s1 := Do(s0, Outside(Arrive(SIGTERM)));
    RunsOne(s1, HandleNoWrite(SIGTERM), []);
    RunsOne(s0, Outside(Arrive(SIGTERM)), [HandleNoWrite(SIGTERM)]);
  }

  /** The overseer is gone, and the worker and the monitor run on with nothing
      pending: both are still setting up. (A worker or auxiliary that got as far
      as :234 has asked the kernel for a SIGQUIT of its own when the overseer
      dies; only the overseer's own kill() calls are meant here.) */
  lemma BrokenPipeAbandonsChildren()
    ensures Reached(CONF, [], BrokenRun())
    ensures var s := After(Init(CONF, []), BrokenRun());
      && s.pc == Exited(PipeFailed) && !s.exitFlag
      && s.children == map[101 := WORKER, 102 := MONITOR]
      && !AllDoomed(s.children, [])
  {
    hide Can, Do, Runs, After, Init;
    Boots();
    Breaks();
    Compose(Init(CONF, []), BootActs(), [Outside(Arrive(SIGTERM)), HandleNoWrite(SIGTERM)]);
    var s := After(Init(CONF, []), BrokenRun());
    assert s.children[101] == WORKER && 101 !in [] && !Doomed(WORKER);
  }

  // ---------- the late request as an infinite run ----------

  function LateState(i: nat): State {
    var s, acts := Init(CONF, []), LateRun();
    var k := if i < |acts| then i else |acts|;
    if Runs(s, acts[..k]) then After(s, acts[..k]) else s
  }

  function LateAction(i: nat): Action {
    if i < |LateRun()| then LateRun()[i] else Wait(NoChildren)
  }

  lemma LateEnd(i: nat)
    requires i >= 21
    ensures |LateRun()| == 21 && LateRun()[20] == Wait(NoChildren)
    ensures LateState(i) == LateState(21) && LateState(i).pc == Exited(Clean) && LateState(i).children == map[]
  {
    hide Can, Do, Runs, After, Init;
    CleanExitAfterUnaskedDeath();
    assert LateRun()[..21] == LateRun();
    CleanExit(CONF, [], LateRun());
  }

  lemma LateStep(i: nat)
    requires i < 21
    ensures Can(LateState(i), LateAction(i)) && LateState(i + 1) == Do(LateState(i), LateAction(i))
  {
    hide Can, Do, Init;
    LateEnd(21);
    CleanExitAfterUnaskedDeath();
    var s, acts := Init(CONF, []), LateRun();
    Suffix(s, acts, i);
    Suffix(s, acts, i + 1);
    assert acts[i..][0] == acts[i];
    Extend(s, acts[..i], acts[i]);
    assert acts[..i] + [acts[i]] == acts[..i + 1];
  }

  lemma {:induction false} LateRunning(i: nat)
    requires i < 21
    ensures !LateState(i).pc.Exited?
    decreases 21 - i
  {
    hide LateState, LateAction;
    LateStep(i);
    if i < 20 {
      LateRunning(i + 1);
      if LateState(i).pc.Exited? { StillGone(LateState(i), LateAction(i)); }
    } else {
      LastAction();
    }
  }

  lemma LastAction()
    ensures LateAction(20) == Wait(NoChildren)
  {
    LateEnd(21);
  }

  lemma StillGone(s: State, a: Action)
    requires Can(s, a) && s.pc.Exited?
    ensures Do(s, a).pc.Exited?
  {
    hide Can, Do;
    RunsOne(s, a, []);
    StaysExited(s, [a] + []);
  }

  /** At step 14 the request has been handled and the worker's table is about to
      be looked at. */
  lemma LateRequest()
    ensures Shutdown.Stopping(LateState(14))
  {
    hide Can, Init, Looked, Runs, After;
    var s := Init(CONF, []);
    Boots();
    Crashes();
    Compose(s, BootActs(), CrashActs());
    Looks();
    var acts := BootActs() + CrashActs() + LookActs();
    Compose(s, BootActs() + CrashActs(), LookActs());
    Requested();
    Compose(s, acts, [Outside(Arrive(SIGTERM)), Handle(SIGTERM)]);
    assert LateRun()[..14] == acts + [Outside(Arrive(SIGTERM)), Handle(SIGTERM)];
  }

  lemma Requested()
    ensures Runs(Looked(), [Outside(Arrive(SIGTERM)), Handle(SIGTERM)])
    ensures Shutdown.Stopping(After(Looked(), [Outside(Arrive(SIGTERM)), Handle(SIGTERM)]))
  {
    hide Runs, After;
    RunsTwo(Looked(), Outside(Arrive(SIGTERM)), Handle(SIGTERM));
  }

  lemma LateQuiet(i: nat)
    requires i >= 14
    ensures Shutdown.Quiet(LateAction(i))
  {
  }

  /** No child is alive at some later step. */
  lemma LateDead(i: nat, p: Pid) returns (j: nat)
    ensures j >= i && j >= 21 && LateState(j).pc.Exited? && !Shutdown.LiveAt(LateState(j), p)
  {
    hide LateState;
    j := if i < 21 then 21 else i;
    LateEnd(j);
  }

  lemma LateEnds(run: nat -> State, act: nat -> Action, i: nat, p: Pid, a: Action)
    requires forall k: nat :: run(k) == LateState(k)
    ensures Shutdown.Ends(run, i, p) && Shutdown.EventuallyDoes(run, act, i, p, a) && Requests.MovesAfter(run, act, i)
  {
    hide LateState;
    var j := LateDead(i, p);
    assert j >= i && !Shutdown.LiveAt(run(j), p);
    assert Requests.MovesAt(run, act, j);
  }

  /** Everything that Requests.RequestLeadsToExit asks of a run holds of this
      one, so the theorem is about runs that exist. */
  lemma RequestHypothesesCanBeMet() returns (run: nat -> State, act: nat -> Action, t: nat)
    ensures run(0) == Init(CONF, []) && ValidConfig(CONF)
    ensures SIGTERM !in CONF.inherited && SIGQUIT !in CONF.inherited
    ensures forall i: nat :: Shutdown.StepAt(run, act, i)
    ensures forall i: nat :: i >= t ==> Shutdown.Quiet(act(i))
    ensures Requests.OverseerRuns(run, act, t) && Requests.ChildrenAnswer(run, act, t)
    ensures Shutdown.Stopping(run(t))
  {
    hide LateState, LateAction, Can, Do, Init, Shutdown.Stopping, Requests.ChildrenAnswer, Requests.MovesAfter;
    run, act, t := (i: nat) => LateState(i), (i: nat) => LateAction(i), 14;
    LateStart();
    LateRequest();
    forall i: nat
      ensures Shutdown.StepAt(run, act, i)
    {
      if i < 21 {
        LateStep(i);
        LateRunning(i);
      } else {
        LateEnd(i);
        LateEnd(i + 1);
      }
    }
    forall i: nat | i >= t
      ensures Shutdown.Quiet(act(i))
    {
      LateQuiet(i);
    }
    forall i: nat | i >= t
      ensures Requests.MovesAfter(run, act, i)
    {
      LateEnds(run, act, i, 0, Wait(NoChildren));
    }
    LateAnswers(run, act, t);
  }

  lemma LateAnswers(run: nat -> State, act: nat -> Action, t: nat)
    requires forall k: nat :: run(k) == LateState(k)
    ensures Requests.ChildrenAnswer(run, act, t)
  {
    forall i: nat, p: Pid
      ensures Shutdown.FairTo(run, act, SIGQUIT, i, p) && Shutdown.FairTo(run, act, SIGTERM, i, p)
      ensures Shutdown.WorkerObeys(run, i, p) && Shutdown.AuxiliaryEnds(run, i, p)
    {
      hide LateState, Shutdown.Ends, Shutdown.EventuallyDoes;
      LateEnds(run, act, i, p, Outside(ChildReady(p)));
      LateEnds(run, act, i, p, Outside(ChildSignal(p, SIGQUIT)));
      LateEnds(run, act, i, p, Outside(ChildSignal(p, SIGTERM)));
    }
  }

  lemma LateStart()
    ensures LateState(0) == Init(CONF, [])
  {
  }
}
