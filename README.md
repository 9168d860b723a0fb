# Network dashboard: the process-blocking registry

This project models the core of `network_dashboard.py`, a small Flask
dashboard. The dashboard lists the processes that hold connections to
non-local addresses. It lets an operator block a process for five seconds,
unblock it or kill it. Blocking suspends the process (SIGSTOP). A timer
thread resumes it after five seconds. The model covers four things:

- the two module dictionaries `blocked_processes` and `timeout_threads`;
- the four operations that change them (`block_process`, `unblock_process`,
  `kill_process` and the timer callback `auto_unblock_process`);
- the action dispatch of the control route;
- the read side: `is_local_ip`, `get_process_details` and `get_network_apps`.

Files:

- `os.dfy` (module `Os`): the operating system as psutil shows it. The
  `Host` class holds the process table, the set of processes the user may
  not signal, and a log of every signal sent. `psutil.Process(pid)` fails
  with NoSuchProcess when the pid is absent. `suspend`, `resume` and
  `terminate` send SIGSTOP, SIGCONT and SIGTERM, and fail with
  AccessDenied for a process the user may not signal. `Exit` and `Spawn`
  are environment steps: a process ends, or a new one takes a pid,
  possibly a reused one.
- `registry.dfy` (module `Registry`): the class `BlockRegistry`. It holds
  `blocked` (`blocked_processes`), `timers` (the keys of `timeout_threads`)
  and `sleepers`. `sleepers` lists the timer threads that were started and
  have not yet run their callback. The threads are part of the state
  because unblock and kill only delete the dictionary entry. The thread
  itself keeps sleeping and still runs `auto_unblock_process` for its pid.
  `Wake` is one such thread waking up. The effect of each operation is a
  two-state predicate (`BlockEffect`, `UnblockEffect`, `KillEffect`,
  `AutoUnblockEffect`), shared by the operation and by `Control`.
- `inspector.dfy` (module `Inspector`): the process details and the
  listing. `Aggregate` is the listing as a fold over the connection table.
  The lemmas about it give what the listing promises. `GetNetworkApps` is
  the source's loop over a name-keyed dictionary, proved equal to the fold.
- `interleavings.dfy` (module `Interleavings`): whole sequences of requests
  and timer wake-ups on one pid. Each one fixes an order between manual
  actions and a timer thread waking up, and states the resulting signals
  and registry.

Time is an integer number of milliseconds. The caller passes it in. The
block length is `BlockMillis` = 5000. The object invariant
`BlockRegistry.Valid` has two parts. First, the pids in `timers` are
exactly the pids in `blocked`. Second, for every record, the thread started
by the block that made it is still asleep. Every operation keeps `Valid`.

Three behaviours of the code that a reader might not expect. The model
follows the code in each:

- One might expect unblock to drop the record whatever the resume does.
  The code resumes first and deletes the record only when the resume
  succeeded (`network_dashboard.py:100-102`). So a failed resume keeps the
  record.
- The comment `# Cancel timeout thread` (`network_dashboard.py:103`)
  suggests the timer is cancelled. The code only deletes its dictionary
  entry, and the thread still runs its callback. So an old timer can end a
  later block of the same pid early (`Interleavings.StaleTimerEndsReblock`).
- Each operation first looks the process up (`psutil.Process(pid)`). Only
  then does it check the registry. So a blocked pid whose process is gone
  gets "Failed to suspend process", not "Already blocked". And unblocking
  it fails without removing its record.

## Model

| member | source | states |
|---|---|---|
| Registry.BlockRegistry.constructor | network_dashboard.py:17-19 | The registry starts with no records, no timer entries and no sleeping timer threads, and satisfies the invariant. |
| Registry.BlockRegistry.Block | network_dashboard.py:71-92 | Lookup failure: NoSuchProcess failure, nothing changes and no signal is sent. Pid already blocked: "Already blocked", nothing changes and no SIGSTOP. Otherwise exactly one SIGSTOP is sent. If it is refused, the reply is a failure and the registry is unchanged. If it succeeds, exactly one record {name, blocked_at = now} is added for this pid, plus its timer entry and one thread waking at now + 5 s. Every other pid keeps its record. |
| Registry.BlockRegistry.Unblock | network_dashboard.py:94-109 | Lookup failure, or pid not blocked ("Not blocked"): failure, nothing changes. Otherwise one SIGCONT is sent. If it is refused, the reply is a failure and the record and timer entry stay. If it succeeds, only this pid's record and timer entry are removed. The sleeping thread is not touched. |
| Registry.BlockRegistry.Kill | network_dashboard.py:111-124 | Lookup failure: failure, nothing changes. Otherwise the pid's record and timer entry are removed, then one SIGTERM is sent. A refused SIGTERM gives a failure reply and does not restore the record. |
| Registry.BlockRegistry.AutoUnblock | network_dashboard.py:48-69 | The record and the timer entry are gone afterwards in every case. A SIGCONT is sent only when the pid still had a record and the process still exists. A refused resume is swallowed. Nothing is returned to a caller. An absent record means no signal and no other change. |
| Registry.BlockRegistry.Wake | network_dashboard.py:48-52 | A timer thread wakes no earlier than its deadline, runs the callback for its pid, and ends. It removes whatever record the pid has now, without checking that its own block made it. The invariant is kept: every remaining record still has its own sleeping thread. |
| Registry.BlockRegistry.Control | network_dashboard.py:164-177 | "block", "unblock" and "kill" have exactly the effect of the matching operation. Any other action gives (False, "Invalid action") and changes neither the registry nor the processes. |
| Inspector.ProcessDetails | network_dashboard.py:29-46 | is_blocked holds exactly when the lookup succeeds and the pid has a record. A failed lookup gives the defaults. timeout_remaining is never negative. It is positive exactly when the pid is blocked and its five seconds are not over, and then it equals deadline minus now. It is at most 5 s unless the clock is before blocked_at. |
| Inspector.LocalAddressSkipped | network_dashboard.py:21-27 | `is_local_ip`: a remote address that ipaddress cannot parse, or that it reports private, loopback or link-local, is local. A connection to such an address, inserted anywhere in the connection table, leaves the listing unchanged. |
| Inspector.RemainingIsOwnTimer | network_dashboard.py:33-36 | A positive timeout_remaining is exactly the time until a timer thread for that pid wakes up. |
| Inspector.GetNetworkApps | network_dashboard.py:126-154 | If enumerating connections raises, the result is the "Permission denied" error. Otherwise the dictionary loop returns, in insertion order, exactly the entries of the fold `Aggregate`. |
| Inspector.AggregateNamesUnique | network_dashboard.py:139-145 | The listing has at most one entry per process name. |
| Inspector.AggregateTallies | network_dashboard.py:131-147 | Each entry's count is the number of qualifying connections whose process has that name and could be looked up. Every such name has an entry. |
| Inspector.AggregateFirstPid | network_dashboard.py:139-145 | Each entry's pid is the pid of the first counted connection with that name, and its details are that pid's details. |
| Inspector.AggregateTotal | network_dashboard.py:131-147 | The counts add up to the number of counted connections: qualifying connections whose name lookup succeeded. |
| Inspector.AggregateIgnoresLocal | network_dashboard.py:132-133 | Connections are skipped if they have no pid or pid 0, no remote address, or a local remote address. A remote address is local when ipaddress cannot parse it or reports it private, loopback or link-local. Dropping such connections does not change the listing. |
| Interleavings.BlockUnblockExpire | network_dashboard.py:94-109 | Block, manual unblock, then the block's timer fires: exactly one SIGSTOP and one SIGCONT, the timer does nothing, and the registry ends as it started. |
| Interleavings.BlockTwice | network_dashboard.py:75-90 | A second block is refused with "Already blocked". The pid has one record, from the first block, and got exactly one SIGSTOP. |
| Interleavings.BlockExpire | network_dashboard.py:48-63 | A block left alone: its own timer removes the record and the timer entry, sends exactly one SIGCONT, and the process is running again. |
| Interleavings.BlockKillExpire | network_dashboard.py:114-121 | Block, kill, then the timer fires: exactly one SIGTERM, and not a single SIGCONT to the pid. Kill removed the record first (lines 115-118), so the process stays stopped. |
| Interleavings.StaleTimerEndsReblock | network_dashboard.py:102-105 | Block at t0, unblock, block again at t2 with t0 < t2 < t0 + 5 s. The first block's timer wakes at some tw no earlier than t0 + 5 s and before t2 + 5 s. It removes the second block's record, which it returns: {name, blocked_at = t2}. That block was held for tw minus its blocked_at: more than 0 and less than 5 s. The second block's own timer is still asleep. |
| Interleavings.StaleTimerAfterPidReuse | network_dashboard.py:52-57 | A blocked process exits and a new process gets its pid. The old timer then sends SIGCONT to the new process. |
| Os.Host.Send | network_dashboard.py:77 | The psutil actuator behind suspend (line 77), resume (lines 57 and 100) and terminate (line 121). Every call is logged. It fails with NoSuchProcess for an absent pid and with AccessDenied for a pid the user may not signal. Otherwise it stops or continues the process; SIGTERM leaves the process table as it is. |

## Left out

- The Flask routes, `render_template`, `jsonify` and the request body (`network_dashboard.py:156-162`, `188-194`). The action is a string. A missing body or a non-string action is not modelled; a missing action behaves like an unknown one.
- Inspector.ProcessDetails: `cpu_percent` and `memory_mb` (float resource readings) are not modelled. `timeout_remaining` is in whole milliseconds, not rounded to one decimal of a second.
- The wall clock `time.time()` and `time.sleep(5)`. Time is an integer passed in. A wake-up may happen at any time at or after its deadline. The registry keeps no clock of its own, so it does not require successive calls to pass non-decreasing times; the interleavings state their order of times in their preconditions.
- `threading.Thread` is not modelled. Each Python function runs as one atomic step, and concurrency is modelled only as the order of `Wake` steps between whole operations. So races inside one operation are out: a timer firing between kill's cleanup and its terminate, or between the callback's membership test and its delete. The exception handler of `auto_unblock_process` (`network_dashboard.py:64-69`) only runs in such a race, so it is not modelled either.
- A process that exits between two psutil calls of the same operation, such as `process.name()` failing right after a successful suspend, is not modelled. The lookup at the start of an operation decides whether the process exists.
- The classification inside Python's `ipaddress` module is an input (`Remote.parsed`). Only the rule "an address that does not parse is local" is modelled.
- psutil's exception texts. `FaultText` stands in for the text appended to "Failed to ...".
- The process status strings: psutil's finer states such as "sleeping" appear as "running".
- What a process does on SIGTERM. The send is logged. An exit shows up only as a later `Host.Exit`.
- Console output (`print`) in the timer callback.
- `cleanup_iptables` (`network_dashboard.py:179-186`), which nothing calls.
- `test_network_process.py`, a traffic generator for manual testing.
