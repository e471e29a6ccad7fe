/** Every SIGTERM or SIGINT that the overseer handles is answered: a broadcast
    follows, and with children that answer it the overseer ends with exit(0)
    (src/bladepsgi.cpp:53-62, 665-753).

    The overseer is only asked to keep running: whatever its children do
    meanwhile, each of its steps brings the broadcast nearer. */
module Requests {
  import opened PidTables
  import opened Supervisor
  import opened SupervisorInvariants
  import opened SupervisorTheorems
  import opened Shutdown

  // ---------- no request is forgotten ----------

  /** A broadcast that answers the request has been completed. */
  predicate Answered(s: State) {
    s.force || s.seen.quitSwept
  }

  /** A handled request is still noted in a flag, is being answered or has been
      answered; and a second smart broadcast comes after the first. */
  predicate Noted(s: State) {
    !s.pc.Exited? ==>
      && (s.shutdown ==> s.smart || s.fast || s.pc == SetForce || Answered(s))
      && ((s.pc.Sweep? || s.pc.Clear?) && s.pc.reason == SecondSmart ==> s.force)
  }

  lemma OutsideNotes(s: State, e: Event)
    requires CanOutside(s, e) && Noted(s)
    ensures Noted(DoOutside(s, e))
  {
    hide DoOutside, CanOutside;
    OutsideAges(s, e);
  }

  lemma HandleNotes(s: State, sig: Signal)
    requires CanHandle(s, sig) && Noted(s)
    ensures Noted(Supervisor.Handled(s, sig))
  {
    hide PostAll;
  }

  lemma NoWriteNotes(s: State, sig: Signal)
    ensures Noted(HandledNoWrite(s, sig))
  {
  }

  lemma BootNotes(s: State, b: BootStep)
    requires CanBoot(s, b) && Noted(s)
    ensures Noted(DoBoot(s, b))
  {
    hide Record;
  }

  lemma PollNotes(s: State, p: PollStep)
    requires CanPoll(s, p) && Noted(s)
    ensures Noted(DoPoll(s, p))
  {
  }

  lemma RelayNotes(s: State, r: RelayStep)
    requires CanRelay(s, r) && Noted(s) && Awake(s) && Swept(s)
    ensures Noted(DoRelay(s, r))
  {
    hide Post, SomeZombie, AllDoomed, AllAsked, AuxiliariesUntouched, Targets;
  }

  lemma WaitNotes(s: State, w: WaitStep)
    requires CanWait(s, w) && Noted(s) && Accounted(s)
    ensures Noted(DoWait(s, w))
  {
    hide Judge, Without, Tallied, SomeZombie;
    if w.JudgeDeath? { JudgeVerdict(s); }
  }

  lemma StepNotes(s: State, a: Action)
    requires Can(s, a) && Inv(s) && Noted(s)
    ensures Noted(Do(s, a))
  {
    hide DoOutside, DoBoot, DoPoll, DoRelay, DoWait, Handled, Accounted, Booked, Swept, Awake, Escalating, Shaped,
         CanOutside, CanBoot, CanPoll, CanRelay, CanWait, Noted;
    match a
    case Outside(e) => OutsideNotes(s, e);
    case Handle(sig) => HandleNotes(s, sig);
    case HandleNoWrite(sig) => NoWriteNotes(s, sig);
    case Boot(b) => BootNotes(s, b);
    case Poll(p) => PollNotes(s, p);
    case Relay(r) => RelayNotes(s, r);
    case Wait(w) => WaitNotes(s, w);
  }

  lemma {:induction false} AlwaysNoted(conf: Config, names: seq<string>, run: nat -> State, act: nat -> Action, i: nat)
    requires ValidConfig(conf) && run(0) == Init(conf, names)
    requires forall k: nat :: StepAt(run, act, k)
    ensures Noted(run(i))
  {
    hide Can, Do, Inv;
    if i > 0 {
      AlwaysNoted(conf, names, run, act, i - 1);
      AlwaysInv(conf, names, run, act, i - 1);
      assert StepAt(run, act, i - 1);
      if !run(i - 1).pc.Exited? { StepNotes(run(i - 1), act(i - 1)); }
    }
  }

  // ---------- each step of the overseer brings the broadcast nearer ----------

  /** Handler runs and interruptions still to come. */
  ghost function Turmoil(s: State): nat {
    2 * (|s.pending| + |LivePids(s)|) + One(s.interrupted)
  }

  /** How far round the loop the next broadcast is. Past the fast test, with
      only the fast flag set, it is a whole round away. */
  function Phase(s: State): nat {
    match s.pc
    case TestSmart => if s.smart then 7 else 14
    case Judging(_) => 13
    case Erase(_) => 12
    case WaitPid => 11
    case Select => 10
    case Drain => 9
    case TestFast => 8
    case TestForce => 6
    case Sweep(_, _) => 5
    case Clear(_) => 4
    case _ => 3
  }

  ghost function ToAnswer(s: State): Distance {
    Distance(Turmoil(s), |s.children|, Phase(s), Inner(s))
  }

  /** Shutdown is requested and not yet answered. */
  ghost predicate Unanswered(s: State) {
    Inv(s) && Noted(s) && Stopping(s) && !Answered(s)
  }

  ghost predicate Advanced(t: State, s: State) {
    Answered(t) || t.pc.Exited? || Less(ToAnswer(t), ToAnswer(s))
  }

  lemma SameLive(s: State, t: State)
    requires t.children.Keys == s.children.Keys
    requires forall p :: p in s.children ==> t.children[p].live == s.children[p].live
    ensures LivePids(t) == LivePids(s) && |t.children| == |s.children|
  {
    assert forall p :: p in t.children <==> p in s.children;
    assert forall p :: p in LivePids(t) <==> p in LivePids(s);
    assert |t.children.Keys| == |t.children| && |s.children.Keys| == |s.children|;
  }

  lemma HandleAdvanced(s: State, sig: Signal)
    requires CanHandle(s, sig) && Unanswered(s)
    ensures Advanced(Supervisor.Handled(s, sig), s)
  {
    hide Inv, InLoop, LivePids, PostAll;
    assert sig != SIGQUIT;
    var t := Supervisor.Handled(s, sig);
    SameLive(s, t);
    assert |s.pending - {sig}| == |s.pending| - 1;
    assert Turmoil(t) < Turmoil(s);
  }

  lemma PollAdvanced(s: State, p: PollStep)
    requires CanPoll(s, p) && Unanswered(s)
    ensures Advanced(DoPoll(s, p), s)
  {
    hide Inv, InLoop, LivePids;
    SameLive(s, DoPoll(s, p));
  }

  lemma TestAdvanced(s: State)
    requires CanRelay(s, Test) && Unanswered(s)
    ensures Advanced(DoRelay(s, Test), s)
  {
    hide Inv, SomeZombie, LivePids, Targets, Turmoil;
    SameTurmoil(s, DoRelay(s, Test));
  }

  lemma KillAdvanced(s: State)
    requires CanRelay(s, Kill)
    ensures Advanced(DoRelay(s, Kill), s)
  {
    hide LivePids;
    SameLive(s, DoRelay(s, Kill));
  }

  /** The steps after a sweep, with the flag they clear or raise. */
  lemma FlagAdvanced(s: State, r: RelayStep)
    requires CanRelay(s, r) && r != SyscallFails && r != Test && r != Kill && Unanswered(s)
    ensures Advanced(DoRelay(s, r), s)
  {
    hide Accounted, Booked, Swept, Shaped, Escalating, SomeZombie, LivePids, Targets, Turmoil;
    if !r.AnnounceExit? { SameTurmoil(s, DoRelay(s, r)); }
  }

  lemma SameTurmoil(s: State, t: State)
    requires t.children == s.children && t.pending == s.pending && t.interrupted == s.interrupted
    ensures Turmoil(t) == Turmoil(s)
  {
    assert LivePids(t) == LivePids(s);
  }

  lemma RelayAdvanced(s: State, r: RelayStep)
    requires CanRelay(s, r) && r != SyscallFails && Unanswered(s)
    ensures Advanced(DoRelay(s, r), s)
  {
    hide Accounted, Booked, Swept, Shaped, SomeZombie, LivePids, Targets, Begin, Post, Unanswered;
    match r
    case Test => TestAdvanced(s);
    case Kill => KillAdvanced(s);
    case _ => FlagAdvanced(s, r);
  }

  lemma ReapAdvanced(s: State, p: Pid)
    requires CanWait(s, Reap(p))
    ensures Advanced(DoWait(s, Reap(p)), s)
  {
    var t := DoWait(s, Reap(p));
    assert t.children.Keys == s.children.Keys - {p};
    assert |t.children.Keys| == |t.children| && |s.children.Keys| == |s.children|;
    assert LivePids(t) == LivePids(s);
  }

  lemma WaitAdvanced(s: State, w: WaitStep)
    requires CanWait(s, w) && Unanswered(s)
    ensures Advanced(DoWait(s, w), s)
  {
    hide Controlled, Booked, Swept, Tallied, Judge, Without, SomeZombie, LivePids;
    match w
    case Reap(p) => ReapAdvanced(s, p);
    case JudgeDeath =>
      JudgeVerdict(s);
      SameLive(s, DoWait(s, w));
    case _ => SameLive(s, DoWait(s, w));
  }

  predicate OfOverseer(a: Action) {
    a.Boot? || a.Poll? || a.Relay? || a.Wait?
  }

  /** A step of the main program or of a handler answers the request or brings
      the answer nearer. */
  lemma OverseerAdvances(s: State, a: Action)
    requires Can(s, a) && Quiet(a) && !a.Outside? && Unanswered(s)
    ensures Advanced(Do(s, a), s)
  {
    hide Inv, Noted, Advanced, Handled, DoPoll, DoRelay, DoWait, CanHandle, CanPoll, CanRelay, CanWait;
    match a
    case Handle(sig) => HandleAdvanced(s, sig);
    case Poll(p) => PollAdvanced(s, p);
    case Relay(r) => RelayAdvanced(s, r);
    case Wait(w) => WaitAdvanced(s, w);
    case Boot(_) =>
  }

  /** What the children do never takes it farther away. */
  lemma OutsideHolds(s: State, e: Event)
    requires CanOutside(s, e) && !e.Arrive?
    ensures var t := DoOutside(s, e); ToAnswer(t) == ToAnswer(s) || Less(ToAnswer(t), ToAnswer(s))
  {
    hide LivePids, Turmoil, ToAnswer, Less;
    var t := DoOutside(s, e);
    match e
    case ChildReady(p) => SameFates(s, t);
    case ChildSignal(p, sig) =>
      if t.children[p].live { SameFates(s, t); } else { OneFewer(s, t, p); }
    case ChildEnds(p) => OneFewer(s, t, p);
    case RaiseExitFlag => SameFates(s, t);
  }

  lemma SameFates(s: State, t: State)
    requires t == s.(children := t.children, exitFlag := t.exitFlag)
    requires t.children.Keys == s.children.Keys
    requires forall p :: p in s.children ==> t.children[p].live == s.children[p].live
    ensures ToAnswer(t) == ToAnswer(s)
  {
    hide LivePids;
    SameLive(s, t);
  }

  lemma OneFewer(s: State, t: State, p: Pid)
    requires LiveAt(s, p) && !LiveAt(t, p) && p in t.children
    requires t == s.(children := t.children, pending := s.pending + {SIGCHLD})
    requires t.children == s.children[p := t.children[p]]
    ensures ToAnswer(t) == ToAnswer(s) || Less(ToAnswer(t), ToAnswer(s))
  {
    hide Phase, Inner;
    SamePhase(s, t);
    assert LivePids(t) == LivePids(s) - {p};
    assert t.children.Keys == s.children.Keys;
    assert |t.children.Keys| == |t.children| && |s.children.Keys| == |s.children|;
    assert SIGCHLD in s.pending ==> t.pending == s.pending;
    assert |t.pending| <= |s.pending| + 1;
  }

  lemma SamePhase(s: State, t: State)
    requires t.pc == s.pc && t.smart == s.smart && t.pipe == s.pipe
    ensures Phase(t) == Phase(s) && Inner(t) == Inner(s)
  {
  }

  // ---------- runs ----------

  ghost predicate MovesAt(run: nat -> State, act: nat -> Action, j: nat) {
    run(j).pc.Exited? || OfOverseer(act(j))
  }

  ghost predicate MovesAfter(run: nat -> State, act: nat -> Action, i: nat) {
    exists j: nat :: j >= i && MovesAt(run, act, j)
  }

  /** The main program is scheduled again and again. */
  ghost predicate OverseerRuns(run: nat -> State, act: nat -> Action, t: nat) {
    forall i: nat :: i >= t ==> MovesAfter(run, act, i)
  }

  ghost predicate AllNoted(run: nat -> State) {
    forall i: nat :: Noted(run(i))
  }

  predicate AtMost(d: Distance, e: Distance) {
    d == e || Less(d, e)
  }

  lemma StepAtMost(run: nat -> State, act: nat -> Action, t: nat, i: nat)
    requires WindsDown(run, act, t) && AllNoted(run) && t <= i
    requires !run(i + 1).pc.Exited? && !Answered(run(i + 1))
    ensures AtMost(ToAnswer(run(i + 1)), ToAnswer(run(i)))
    ensures OfOverseer(act(i)) ==> Less(ToAnswer(run(i + 1)), ToAnswer(run(i)))
  {
    hide Inv, Can, Do, InLoop, ToAnswer, Less, LivePids, Noted;
    assert StepAt(run, act, i) && Quiet(act(i));
    StaysWinding(run, act, t, i, i + 1);
    StaysWinding(run, act, t, i, i);
    assert Unanswered(run(i)) by { assert Noted(run(i)); }
    if act(i).Outside? {
      OutsideStep(run(i), act(i).event);
    } else {
      OverseerAdvances(run(i), act(i));
    }
  }

  lemma OutsideStep(s: State, e: Event)
    requires Can(s, Outside(e)) && !e.Arrive?
    ensures AtMost(ToAnswer(Do(s, Outside(e))), ToAnswer(s))
  {
    hide ToAnswer, Less, DoOutside, CanOutside;
    OutsideHolds(s, e);
  }

  lemma {:induction false} DriftAtMost(run: nat -> State, act: nat -> Action, t: nat, i: nat, j: nat)
    requires WindsDown(run, act, t) && AllNoted(run) && t <= i <= j
    requires !run(j).pc.Exited? && !Answered(run(j))
    ensures AtMost(ToAnswer(run(j)), ToAnswer(run(i)))
    decreases j
  {
    hide WindsDown, AllNoted, ToAnswer, LivePids, InLoop, Inv;
    if j > i {
      StaysWinding(run, act, t, j - 1, j);
      StillRuns(run, act, t, j);
      StepAtMost(run, act, t, j - 1);
      DriftAtMost(run, act, t, i, j - 1);
    }
  }

  lemma StillRuns(run: nat -> State, act: nat -> Action, t: nat, j: nat)
    requires WindsDown(run, act, t) && j > 0 && !run(j).pc.Exited?
    ensures !run(j - 1).pc.Exited?
  {
    hide Winding, Can, Do;
    assert StepAt(run, act, j - 1);
  }

  /** A handled request is answered, or the overseer is already out. */
  lemma {:induction false} Heeds(run: nat -> State, act: nat -> Action, t: nat, i: nat) returns (n: nat)
    requires WindsDown(run, act, t) && AllNoted(run) && OverseerRuns(run, act, t) && t <= i
    ensures n >= t && (run(n).pc.Exited? || Answered(run(n)))
    decreases Turmoil(run(i)), |run(i).children|, Phase(run(i)), Inner(run(i))
  {
    hide WindsDown, AllNoted, Answered, Turmoil, Phase, Inner;
    assert MovesAfter(run, act, i);
    var j: nat :| j >= i && MovesAt(run, act, j);
    if run(j).pc.Exited? || Answered(run(j)) {
      n := j;
    } else if run(j + 1).pc.Exited? || Answered(run(j + 1)) {
      n := j + 1;
    } else {
      DriftAtMost(run, act, t, i, j);
      StepAtMost(run, act, t, j);
      n := Heeds(run, act, t, j + 1);
    }
  }

  /** What the children are relied on for: signals that reach them, workers
      that obey, auxiliaries that end. */
  ghost predicate ChildrenAnswer(run: nat -> State, act: nat -> Action, t: nat) {
    && Fair(run, act, SIGQUIT, t) && Fair(run, act, SIGTERM, t)
    && WorkersObey(run, t) && AuxiliariesEnd(run, t)
  }

  /** From a handled request to exit(0). In every run of the program in which a
      SIGTERM or SIGINT has been handled by step `t` and the overseer is in its
      main loop: if from then on no signal arrives from outside and no system
      call fails, the overseer keeps running, neither SIGTERM nor SIGQUIT was
      blocked when it was started, and its children answer, then it ends with
      exit(0). */
  lemma RequestLeadsToExit(conf: Config, names: seq<string>, run: nat -> State, act: nat -> Action, t: nat)
    requires ValidConfig(conf) && run(0) == Init(conf, names)
    requires SIGTERM !in conf.inherited && SIGQUIT !in conf.inherited
    requires forall i: nat :: StepAt(run, act, i)
    requires forall i: nat :: i >= t ==> Quiet(act(i))
    requires OverseerRuns(run, act, t) && ChildrenAnswer(run, act, t)
    requires Stopping(run(t))
    ensures exists n: nat :: run(n).pc == Exited(Clean)
  {
    hide Inv, StepAt, Fair, AuxiliariesEnd, WorkersObey, OverseerRuns, LivePids, Noted;
    AlwaysInv(conf, names, run, act, t);
    forall i: nat
      ensures Noted(run(i))
    {
      AlwaysNoted(conf, names, run, act, i);
    }
    var n := Heeds(run, act, t, t);
    StaysWinding(run, act, t, t, n);
    if run(n).pc.Exited? {
      assert run(n).pc == Exited(Clean);
    } else {
      LaterToo(run, act, t, n);
      if run(n).force {
        SmartShutdownCompletes(conf, names, run, act, n);
      } else {
        FastShutdownCompletes(conf, names, run, act, n);
      }
    }
  }

  lemma LaterToo(run: nat -> State, act: nat -> Action, t: nat, n: nat)
    requires t <= n && ChildrenAnswer(run, act, t)
    ensures ChildrenAnswer(run, act, n)
  {
  }
}
