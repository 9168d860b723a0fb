/** The process-blocking registry of network_dashboard.py: the dictionaries
    `blocked_processes` (pid to name and block time) and `timeout_threads`
    (pid to timer thread), the operations that change them, and the timer
    threads themselves.  A block suspends the process and starts a thread
    that sleeps for five seconds and then runs the auto-unblock callback.
    Unblock and kill only forget the thread's dictionary entry; the thread
    keeps sleeping and still runs its callback, so the threads are part of
    the state (`sleepers`). */
module Registry {
  import opened Os

  /** How long a block lasts before its timer fires, in milliseconds. */
  const BlockMillis: int := 5000

  /** An entry of `blocked_processes`. */
  datatype BlockRecord = BlockRecord(name: string, blockedAt: int)

  /** A timer thread that has been started and has not yet run its callback. */
  datatype Sleeper = Sleeper(pid: Pid, wakeAt: int)

  datatype Message =
    | Suspended
    | AlreadyBlocked
    | SuspendFailed(fault: Fault)
    | Resumed
    | NotBlocked
    | ResumeFailed(fault: Fault)
    | Terminated
    | TerminateFailed(fault: Fault)
    | InvalidAction

  /** The `(success, message)` pair every control operation returns. */
  datatype Reply = Reply(success: bool, message: Message)

  function FaultText(f: Fault): string
  {
    match f
    case NoSuchProcess => "process no longer exists"
    case AccessDenied => "access denied"
  }

  /** The message strings of the source. */
  function Text(m: Message): string
  {
    match m
    case Suspended => "Process suspended (will auto-resume in 5 seconds)"
    case AlreadyBlocked => "Already blocked"
    case SuspendFailed(f) => "Failed to suspend process: " + FaultText(f)
    case Resumed => "Process resumed"
    case NotBlocked => "Not blocked"
    case ResumeFailed(f) => "Failed to resume process: " + FaultText(f)
    case Terminated => "Process terminated"
    case TerminateFailed(f) => "Failed to terminate: " + FaultText(f)
    case InvalidAction => "Invalid action"
  }

  class BlockRegistry {
    /** `blocked_processes` */
    var blocked: map<Pid, BlockRecord>
    /** the keys of `timeout_threads` */
    var timers: set<Pid>
    /** every timer thread started and still asleep, in start order */
    var sleepers: seq<Sleeper>

    /** Every record has a timer entry and vice versa, and the thread started
        by the block that made a record is still asleep: no block is left
        without a pending auto-unblock. */
    ghost predicate Valid()
      reads this
    {
      && timers == blocked.Keys
      && forall p :: p in blocked ==> Sleeper(p, blocked[p].blockedAt + BlockMillis) in sleepers
    }

    constructor ()
      ensures Valid()
      ensures blocked == map[] && timers == {} && sleepers == []
    {
      blocked, timers, sleepers := map[], {}, [];
    }

    twostate predicate RegistryUnchanged()
      reads this
    {
      blocked == old(blocked) && timers == old(timers) && sleepers == old(sleepers)
    }

    twostate predicate HostUnchanged(host: Host)
      reads host
    {
      host.procs == old(host.procs) && host.denied == old(host.denied) && host.calls == old(host.calls)
    }

    /** What `block_process(pid)` does: look the process up, refuse a pid
        that is already blocked, suspend it, and only then record the block
        and start its timer. */
    twostate predicate BlockEffect(host: Host, pid: Pid, now: int, r: Reply)
      reads this, host
    {
      && host.denied == old(host.denied)
      && if pid !in old(host.procs) then
           r == Reply(false, SuspendFailed(NoSuchProcess)) && RegistryUnchanged() && HostUnchanged(host)
         else if pid in old(blocked) then
           r == Reply(false, AlreadyBlocked) && RegistryUnchanged() && HostUnchanged(host)
         else
           && host.calls == old(host.calls) + [Call(Stop, pid)]
           && if pid in host.denied then
                r == Reply(false, SuspendFailed(AccessDenied)) && RegistryUnchanged()
                && host.procs == old(host.procs)
              else
                && r == Reply(true, Suspended)
                && host.procs == old(host.procs)[pid := old(host.procs)[pid].(state := Stopped)]
                && blocked == old(blocked)[pid := BlockRecord(old(host.procs)[pid].name, now)]
                && timers == old(timers) + {pid}
                && sleepers == old(sleepers) + [Sleeper(pid, now + BlockMillis)]
    }

    /** What `unblock_process(pid)` does: look the process up, refuse a pid
        that is not blocked, resume it, and only when the resume succeeded
        drop the record and the timer entry (the sleeping thread stays). */
    twostate predicate UnblockEffect(host: Host, pid: Pid, r: Reply)
      reads this, host
    {
      && host.denied == old(host.denied)
      && if pid !in old(host.procs) then
           r == Reply(false, ResumeFailed(NoSuchProcess)) && RegistryUnchanged() && HostUnchanged(host)
         else if pid !in old(blocked) then
           r == Reply(false, NotBlocked) && RegistryUnchanged() && HostUnchanged(host)
         else
           && host.calls == old(host.calls) + [Call(Cont, pid)]
           && sleepers == old(sleepers)
           && if pid in host.denied then
                r == Reply(false, ResumeFailed(AccessDenied)) && RegistryUnchanged()
                && host.procs == old(host.procs)
              else
                && r == Reply(true, Resumed)
                && host.procs == old(host.procs)[pid := old(host.procs)[pid].(state := Running)]
                && blocked == old(blocked) - {pid}
                && timers == old(timers) - {pid}
    }

    /** What `kill_process(pid)` does: look the process up, drop any record
        and timer entry, then terminate; a failed terminate does not bring
        the record back. */
    twostate predicate KillEffect(host: Host, pid: Pid, r: Reply)
      reads this, host
    {
      && host.denied == old(host.denied)
      && if pid !in old(host.procs) then
           r == Reply(false, TerminateFailed(NoSuchProcess)) && RegistryUnchanged() && HostUnchanged(host)
         else
           && blocked == old(blocked) - {pid}
           && timers == old(timers) - {pid}
           && sleepers == old(sleepers)
           && host.calls == old(host.calls) + [Call(Term, pid)]
           && host.procs == old(host.procs)
           && r == if pid in host.denied then Reply(false, TerminateFailed(AccessDenied)) else Reply(true, Terminated)
    }

    /** What `auto_unblock_process(pid)` does once its sleep is over: when
        the pid still has a record, try a resume (errors swallowed) and drop
        the record; in every case drop the timer entry.  Nothing is reported. */
    twostate predicate AutoUnblockEffect(host: Host, pid: Pid)
      reads this, host
    {
      && blocked == old(blocked) - {pid}
      && timers == old(timers) - {pid}
      && host.denied == old(host.denied)
      && if pid in old(blocked) && pid in old(host.procs) then
           && host.calls == old(host.calls) + [Call(Cont, pid)]
           && host.procs == if pid in host.denied then old(host.procs)
                            else old(host.procs)[pid := old(host.procs)[pid].(state := Running)]
         else
           HostUnchanged(host)
    }

    /** `block_process` */
    method Block(host: Host, pid: Pid, now: int) returns (r: Reply)
      requires Valid()
      modifies this, host
      ensures Valid()
      ensures BlockEffect(host, pid, now, r)
    {
      if pid !in host.procs {
        return Reply(false, SuspendFailed(NoSuchProcess));
      }
      if pid in blocked {
        return Reply(false, AlreadyBlocked);
      }
      var fault := host.Send(Stop, pid);
      if fault.Some? {
        return Reply(false, SuspendFailed(fault.value));
      }
      blocked := blocked[pid := BlockRecord(host.procs[pid].name, now)];
      timers := timers + {pid};
      sleepers := sleepers + [Sleeper(pid, now + BlockMillis)];
      r := Reply(true, Suspended);
    }

    /** `unblock_process` */
    method Unblock(host: Host, pid: Pid) returns (r: Reply)
      requires Valid()
      modifies this, host
      ensures Valid()
      ensures UnblockEffect(host, pid, r)
    {
      if pid !in host.procs {
        return Reply(false, ResumeFailed(NoSuchProcess));
      }
      if pid !in blocked {
        return Reply(false, NotBlocked);
      }
      var fault := host.Send(Cont, pid);
      if fault.Some? {
        return Reply(false, ResumeFailed(fault.value));
      }
      blocked := blocked - {pid};
      if pid in timers {
        timers := timers - {pid};
      }
      r := Reply(true, Resumed);
    }

    /** `kill_process` */
    method Kill(host: Host, pid: Pid) returns (r: Reply)
      requires Valid()
      modifies this, host
      ensures Valid()
      ensures KillEffect(host, pid, r)
    {
      if pid !in host.procs {
        return Reply(false, TerminateFailed(NoSuchProcess));
      }
      if pid in blocked {
        blocked := blocked - {pid};
      }
      if pid in timers {
        timers := timers - {pid};
      }
      var fault := host.Send(Term, pid);
      r := if fault.None? then Reply(true, Terminated) else Reply(false, TerminateFailed(fault.value));
    }

    /** `auto_unblock_process` after its sleep */
    method AutoUnblock(host: Host, pid: Pid)
      requires Valid()
      modifies this, host
      ensures Valid()
      ensures sleepers == old(sleepers)
      ensures AutoUnblockEffect(host, pid)
    {
      if pid in blocked {
        if pid in host.procs {
          var _ := host.Send(Cont, pid);
        }
        blocked := blocked - {pid};
      }
      if pid in timers {
        timers := timers - {pid};
      }
    }

    /** The timer thread `sleepers[i]` wakes up (no earlier than its five
        seconds are over), runs its callback for its pid and ends.  It does
        not check that the record it finds is the one its own block made. */
    method Wake(host: Host, i: nat, now: int)
      requires Valid()
      requires i < |sleepers| && sleepers[i].wakeAt <= now
      modifies this, host
      ensures Valid()
      ensures sleepers == old(sleepers[..i] + sleepers[i + 1..])
      ensures AutoUnblockEffect(host, old(sleepers[i].pid))
    {
      var s := sleepers[i];
      AutoUnblock(host, s.pid);
      sleepers := sleepers[..i] + sleepers[i + 1..];
      forall p | p in blocked
        ensures Sleeper(p, blocked[p].blockedAt + BlockMillis) in sleepers
      {
        var own := Sleeper(p, blocked[p].blockedAt + BlockMillis);
        var k :| 0 <= k < |old(sleepers)| && old(sleepers)[k] == own;
        assert k != i;
        if k < i {
          assert sleepers[k] == own;
        } else {
          assert sleepers[k - 1] == own;
        }
      }
    }

    /** The action dispatch of the `/api/control/<pid>` route. */
    method Control(host: Host, pid: Pid, action: string, now: int) returns (r: Reply)
      requires Valid()
      modifies this, host
      ensures Valid()
      ensures action == "block" ==> BlockEffect(host, pid, now, r)
      ensures action == "unblock" ==> UnblockEffect(host, pid, r)
      ensures action == "kill" ==> KillEffect(host, pid, r)
      ensures action != "block" && action != "unblock" && action != "kill" ==>
                r == Reply(false, InvalidAction) && RegistryUnchanged() && HostUnchanged(host)
      ensures action != "block" && action != "unblock" && action != "kill" ==>
                Text(r.message) == "Invalid action"
    {
      if action == "block" {
        r := Block(host, pid, now);
      } else if action == "unblock" {
        r := Unblock(host, pid);
      } else if action == "kill" {
        r := Kill(host, pid);
      } else {
        r := Reply(false, InvalidAction);
      }
    }
  }
}
