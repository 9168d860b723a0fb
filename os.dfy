/** The operating system as the dashboard reaches it through psutil: which
    processes exist, which of them this user is not allowed to signal, and
    the log of every signal the dashboard has sent.  Whether an actuator call
    fails is decided by this state: psutil.Process(pid) raises NoSuchProcess
    when the pid does not exist, and suspend, resume and terminate raise
    AccessDenied for a process the user may not signal. */
module Os {

  type Pid = int

  datatype Option<T> = None | Some(value: T)

  /** The two psutil exceptions the actuators raise. */
  datatype Fault = NoSuchProcess | AccessDenied

  datatype RunState = Running | Stopped

  datatype Proc = Proc(name: string, state: RunState)

  /** psutil's suspend, resume and terminate send SIGSTOP, SIGCONT and SIGTERM. */
  datatype Signal = Stop | Cont | Term

  datatype Call = Call(signal: Signal, pid: Pid)

  /** What delivering a signal does to the receiving process.  SIGTERM asks
      the process to exit; whether and when it does is the process's own
      business, so it shows up later as an `Exit` of the environment. */
  function Deliver(sig: Signal, p: Proc): Proc
  {
    match sig
    case Stop => p.(state := Stopped)
    case Cont => p.(state := Running)
    case Term => p
  }

  /** The number of `sig` signals sent to `pid` in a call log. */
  function SentCount(calls: seq<Call>, sig: Signal, pid: Pid): (n: nat)
    ensures n <= |calls|
    ensures n == 0 <==> Call(sig, pid) !in calls
  {
    if calls == [] then 0
    else SentCount(calls[..|calls| - 1], sig, pid) + (if calls[|calls| - 1] == Call(sig, pid) then 1 else 0)
  }

  lemma {:induction false} SentCountAppend(calls: seq<Call>, more: seq<Call>, sig: Signal, pid: Pid)
    ensures SentCount(calls + more, sig, pid) == SentCount(calls, sig, pid) + SentCount(more, sig, pid)
  {
    if more != [] {
      var all := calls + more;
      assert all[..|all| - 1] == calls + more[..|more| - 1];
      SentCountAppend(calls, more[..|more| - 1], sig, pid);
    } else {
      assert calls + more == calls;
    }
  }

  class Host {
    var procs: map<Pid, Proc>
    var denied: set<Pid>
    var calls: seq<Call>

    constructor (procs0: map<Pid, Proc>, denied0: set<Pid>)
      ensures procs == procs0 && denied == denied0 && calls == []
    {
      procs, denied, calls := procs0, denied0, [];
    }

    /** Sends `sig` to `pid` as psutil does, and logs the call whatever its outcome. */
    method Send(sig: Signal, pid: Pid) returns (fault: Option<Fault>)
      modifies this
      ensures calls == old(calls) + [Call(sig, pid)]
      ensures denied == old(denied)
      ensures fault == if pid !in old(procs) then Some(NoSuchProcess)
                       else if pid in denied then Some(AccessDenied)
                       else None
      ensures procs == if fault.None? then old(procs)[pid := Deliver(sig, old(procs)[pid])] else old(procs)
    {
      calls := calls + [Call(sig, pid)];
      if pid !in procs {
        fault := Some(NoSuchProcess);
      } else if pid in denied {
        fault := Some(AccessDenied);
      } else {
        fault := None;
        procs := procs[pid := Deliver(sig, procs[pid])];
      }
    }

    /** The environment: the process ends (on its own, or after a SIGTERM). */
    method Exit(pid: Pid)
      modifies this
      ensures procs == old(procs) - {pid} && denied == old(denied) && calls == old(calls)
    {
      procs := procs - {pid};
    }

    /** The environment: a new process starts, possibly reusing a freed pid. */
    method Spawn(pid: Pid, p: Proc, foreign: bool)
      requires pid !in procs
      modifies this
      ensures procs == old(procs)[pid := p] && calls == old(calls)
      ensures denied == if foreign then old(denied) + {pid} else old(denied) - {pid}
    {
      procs := procs[pid := p];
      denied := if foreign then denied + {pid} else denied - {pid};
    }
  }
}
