/** The overseer's three pid tables and the operations on them
    (src/bladepsgi.cpp:115-124, 434-453, 511-555, 588-637; src/auxiliary.cpp:21-29).

    `Tables` is the value of the tables; the functions on it are the
    specification of class `ProcessTable`, and the step system in module
    Supervisor uses the same functions. */
module PidTables {

  type Pid = int

  datatype Signal = SIGTERM | SIGINT | SIGQUIT | SIGCHLD

  const ALL_SIGNALS: set<Signal> := {SIGTERM, SIGINT, SIGQUIT, SIGCHLD}

  datatype Option<T> = None | Some(value: T)

  const NO_PID: Pid := -1

  datatype AuxiliaryProcess = AuxiliaryProcess(name: string, pid: Pid)

  datatype Tables = Tables(
    workers: seq<Pid>,
    auxiliaries: seq<Pid>,
    monitor: Pid,
    processes: seq<AuxiliaryProcess>)

  /** The pids a broadcast signals, in order. Auxiliaries are not among them. */
  function Targets(t: Tables): seq<Pid> {
    t.workers + if t.monitor == NO_PID then [] else [t.monitor]
  }

  /** Every pid held by some table. */
  ghost function Known(t: Tables): set<Pid> {
    (set p | p in t.workers) + (set p | p in t.auxiliaries)
    + if t.monitor == NO_PID then {} else {t.monitor}
  }

  ghost predicate NoDup<T>(s: seq<T>) {
    forall i, j :: 0 <= i < j < |s| ==> s[i] != s[j]
  }

  ghost predicate HasProcess(ps: seq<AuxiliaryProcess>, pid: Pid) {
    exists k :: 0 <= k < |ps| && ps[k].pid == pid
  }

  ghost predicate FirstWith(ps: seq<AuxiliaryProcess>, pid: Pid, k: nat)
    requires k < |ps|
  {
    ps[k].pid == pid && forall j :: 0 <= j < k ==> ps[j].pid != pid
  }

  /** No pid is recorded twice, in one table or in two, and every auxiliary
      pid belongs to a requested auxiliary process. */
  ghost predicate WellFormed(t: Tables) {
    && NoDup(t.workers)
    && NoDup(t.auxiliaries)
    && (forall p :: p in t.workers ==> p > 0 && p !in t.auxiliaries && p != t.monitor)
    && (forall p :: p in t.auxiliaries ==> p > 0 && p != t.monitor && HasProcess(t.processes, p))
    && (t.monitor == NO_PID || t.monitor > 0)
  }

  /** `s` without the first occurrence of `p`. */
  function Without(s: seq<Pid>, p: Pid): seq<Pid> {
    if s == [] then []
    else if s[0] == p then s[1..]
    else [s[0]] + Without(s[1..], p)
  }

  function NameOf(ps: seq<AuxiliaryProcess>, pid: Pid): Option<string> {
    if ps == [] then None
    else if ps[0].pid == pid then Some(ps[0].name)
    else NameOf(ps[1..], pid)
  }

  /** What HandleChildProcessDeath decides about a reaped pid. */
  datatype Verdict =
    | Expected
    | Unexpected(process: string)
    | UnknownChild
    | Aborted

  function Judge(t: Tables, pid: Pid, shutdown: bool): Verdict {
    if pid in t.workers then
      if shutdown then Expected else Unexpected("worker process")
    else if pid in t.auxiliaries then
      if shutdown then Expected
      else
        match NameOf(t.processes, pid)
        case None => Aborted
        case Some(name) => Unexpected("auxiliary process " + name)
    else if pid == t.monitor then
      if shutdown then Expected else Unexpected("monitoring process")
    else UnknownChild
  }

  /** The tables once a reaped pid has been erased from the one that holds it. */
  function Forget(t: Tables, pid: Pid): Tables {
    if pid in t.workers then t.(workers := Without(t.workers, pid))
    else if pid in t.auxiliaries then t.(auxiliaries := Without(t.auxiliaries, pid))
    else if pid == t.monitor then t.(monitor := NO_PID)
    else t
  }

  // ---------- laws ----------

  lemma {:induction false} WithoutMembers(s: seq<Pid>, p: Pid)
    requires NoDup(s)
    ensures NoDup(Without(s, p))
    ensures forall x :: x in Without(s, p) <==> x in s && x != p
    ensures |Without(s, p)| == if p in s then |s| - 1 else |s|
  {
    if s != [] {
      assert s == [s[0]] + s[1..];
      WithoutMembers(s[1..], p);
      assert s[0] !in Without(s[1..], p);
    }
  }

  lemma {:induction false} NameFound(ps: seq<AuxiliaryProcess>, pid: Pid)
    ensures NameOf(ps, pid).Some? <==> HasProcess(ps, pid)
    ensures NameOf(ps, pid).Some? ==>
      exists k :: 0 <= k < |ps| && ps[k] == AuxiliaryProcess(NameOf(ps, pid).value, pid) && FirstWith(ps, pid, k)
  {
    if ps != [] {
      NameFound(ps[1..], pid);
      if HasProcess(ps, pid) && ps[0].pid != pid {
        var k :| 0 <= k < |ps| && ps[k].pid == pid;
        assert ps[1..][k - 1].pid == pid;
      }
      if ps[0].pid == pid {
        assert ps[0] == AuxiliaryProcess(NameOf(ps, pid).value, pid) && FirstWith(ps, pid, 0);
      } else if NameOf(ps[1..], pid).Some? {
        var k :| 0 <= k < |ps[1..]| && ps[1..][k] == AuxiliaryProcess(NameOf(ps, pid).value, pid) && FirstWith(ps[1..], pid, k);
        assert forall j :: 0 < j < k + 1 ==> ps[j] == ps[1..][j - 1];
        assert ps[k + 1] == AuxiliaryProcess(NameOf(ps, pid).value, pid) && FirstWith(ps, pid, k + 1);
      }
      if HasProcess(ps[1..], pid) {
        var k :| 0 <= k < |ps[1..]| && ps[1..][k].pid == pid;
        assert ps[k + 1].pid == pid;
      }
    }
  }

  /** With accurate tables the unknown-child branch and the abort() are dead:
      a recorded pid is expected exactly when shutdown has been requested, and
      an unrecorded one is the only way to the unknown-child branch. */
  lemma VerdictOfWellFormed(t: Tables, pid: Pid, shutdown: bool)
    requires WellFormed(t)
    ensures Judge(t, pid, shutdown) != Aborted
    ensures pid != NO_PID ==> (Judge(t, pid, shutdown) == UnknownChild <==> pid !in Known(t))
    ensures pid in Known(t) ==>
      Judge(t, pid, shutdown) != UnknownChild && (Judge(t, pid, shutdown) == Expected <==> shutdown)
    ensures pid in t.workers && !shutdown ==> Judge(t, pid, shutdown) == Unexpected("worker process")
    ensures pid in t.auxiliaries && !shutdown ==>
      exists k :: 0 <= k < |t.processes| && FirstWith(t.processes, pid, k)
                  && Judge(t, pid, shutdown) == Unexpected("auxiliary process " + t.processes[k].name)
    ensures pid == t.monitor != NO_PID && !shutdown ==> Judge(t, pid, shutdown) == Unexpected("monitoring process")
  {
    NameFound(t.processes, pid);
  }

  /** Erasing removes exactly the given pid and keeps the tables well formed. */
  lemma ForgetRemoves(t: Tables, pid: Pid)
    requires WellFormed(t)
    ensures WellFormed(Forget(t, pid))
    ensures pid != NO_PID ==> Known(Forget(t, pid)) == Known(t) - {pid}
    ensures forall p :: p in Forget(t, pid).workers ==> p in t.workers
    ensures forall p :: p in Forget(t, pid).auxiliaries ==> p in t.auxiliaries
  {
    WithoutMembers(t.workers, pid);
    WithoutMembers(t.auxiliaries, pid);
    if pid != NO_PID {
      var u := Forget(t, pid);
      assert forall x :: x in Known(u) <==> x in Known(t) && x != pid;
    }
  }

  // ---------- the object ----------

  /** From `before` to `after`, exactly the targets in `t` have been sent `sig`,
      each once and in order. */
  ghost predicate Broadcast(before: seq<(Pid, Signal)>, after: seq<(Pid, Signal)>, t: Tables, sig: Signal) {
    && |after| == |before| + |Targets(t)|
    && after[..|before|] == before
    && forall i :: 0 <= i < |Targets(t)| ==> after[|before| + i] == (Targets(t)[i], sig)
  }

  class ProcessTable {
    var workers: seq<Pid>
    var auxiliaries: seq<Pid>
    var monitor: Pid
    var processes: seq<AuxiliaryProcess>
    /** The kill() calls made so far. */
    var sent: seq<(Pid, Signal)>

    function Contents(): Tables
      reads this
    {
      Tables(workers, auxiliaries, monitor, processes)
    }

    constructor ()
      ensures Contents() == Tables([], [], NO_PID, []) && sent == []
    {
      workers, auxiliaries, monitor, processes, sent := [], [], NO_PID, [], [];
    }

    /** RequestAuxiliaryProcess. */
    method RequestAuxiliaryProcess(name: string)
      modifies this`processes
      ensures processes == old(processes) + [AuxiliaryProcess(name, NO_PID)]
    {
      processes := processes + [AuxiliaryProcess(name, NO_PID)];
    }

    /** The parent's side of SpawnAuxiliaryProcess: SetPID may be done once,
        and a second attempt throws before the pid is pushed. */
    method RecordAuxiliary(k: nat, pid: Pid) returns (ok: bool)
      requires k < |processes| && pid > 0
      modifies this`processes, this`auxiliaries
      ensures ok <==> old(processes)[k].pid == NO_PID
      ensures processes == if ok then old(processes)[k := AuxiliaryProcess(old(processes)[k].name, pid)] else old(processes)
      ensures auxiliaries == if ok then old(auxiliaries) + [pid] else old(auxiliaries)
    {
      if processes[k].pid != NO_PID { return false; }
      processes := processes[k := processes[k].(pid := pid)];
      auxiliaries := auxiliaries + [pid];
      ok := true;
    }

    /** One pass of the worker loop in SpawnWorkersAndAuxiliaryProcesses. */
    method RecordWorker(pid: Pid)
      requires pid > 0
      modifies this`workers
      ensures workers == old(workers) + [pid]
    {
      workers := workers + [pid];
    }

    method RecordMonitor(pid: Pid)
      requires pid > 0
      modifies this`monitor
      ensures monitor == pid
    {
      monitor := pid;
    }

    /** KillProcessGroup signals `Targets`, each once and in order. */
    method KillProcessGroup(sig: Signal)
      requires sig == SIGQUIT || sig == SIGTERM
      modifies this`sent
      ensures Broadcast(old(sent), sent, Contents(), sig)
      ensures |sent| == |old(sent)| + |workers| + if monitor == NO_PID then 0 else 1
      ensures forall i :: 0 <= i < |workers| ==> sent[|old(sent)| + i] == (workers[i], sig)
      ensures monitor != NO_PID ==> sent[|sent| - 1] == (monitor, sig)
    {
      ghost var before := sent;
      for i := 0 to |workers|
        invariant |sent| == |before| + i
        invariant sent[..|before|] == before
        invariant forall j :: 0 <= j < i ==> sent[|before| + j] == (workers[j], sig)
      {
        sent := sent + [(workers[i], sig)];
      }
      if monitor != NO_PID {
        sent := sent + [(monitor, sig)];
      }
    }

    method IndexOf(s: seq<Pid>, pid: Pid) returns (k: nat)
      ensures k <= |s|
      ensures k < |s| ==> s[k] == pid
      ensures pid !in s[..k]
    {
      k := 0;
      while k < |s| && s[k] != pid
        invariant k <= |s|
        invariant pid !in s[..k]
      {
        k := k + 1;
      }
    }

    /** HandleChildProcessDeath up to its verdict: search the tables in the
        source's order and erase in place. */
    method HandleChildProcessDeath(pid: Pid, shutdown: bool) returns (v: Verdict)
      modifies this`workers, this`auxiliaries, this`monitor
      ensures v == Judge(old(Contents()), pid, shutdown)
      ensures Contents() == if v == Expected then Forget(old(Contents()), pid) else old(Contents())
    {
      var w := IndexOf(workers, pid);
      assert pid in workers <==> w < |workers|;
      if w < |workers| {
        if !shutdown { return Unexpected("worker process"); }
        EraseAt(workers, w, pid);
        workers := workers[..w] + workers[w + 1..];
        return Expected;
      }
      var a := IndexOf(auxiliaries, pid);
      assert pid in auxiliaries <==> a < |auxiliaries|;
      if a < |auxiliaries| {
        if !shutdown {
          var k := 0;
          while k < |processes| && processes[k].pid != pid
            invariant k <= |processes|
            invariant NameOf(processes, pid) == NameOf(processes[k..], pid)
          {
            k := k + 1;
          }
          if k == |processes| { return Aborted; }
          return Unexpected("auxiliary process " + processes[k].name);
        }
        EraseAt(auxiliaries, a, pid);
        auxiliaries := auxiliaries[..a] + auxiliaries[a + 1..];
        return Expected;
      }
      if pid == monitor {
        if !shutdown { return Unexpected("monitoring process"); }
        monitor := NO_PID;
        return Expected;
      }
      return UnknownChild;
    }
  }

  lemma {:induction false} EraseAt(s: seq<Pid>, k: nat, p: Pid)
    requires k < |s| && s[k] == p && p !in s[..k]
    ensures Without(s, p) == s[..k] + s[k + 1..]
  {
    if k > 0 {
      assert s[0] == s[..k][0];
      assert s[1..][..k - 1] == s[..k][1..];
      EraseAt(s[1..], k - 1, p);
      assert s[..k] + s[k + 1..] == [s[0]] + (s[1..][..k - 1] + s[1..][k..]);
    }
  }
}
