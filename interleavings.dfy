/** Sequences of control requests and timer wake-ups on one pid.  The timer
    thread runs concurrently with the request handlers; here each wake-up is
    an explicit `Wake` placed between two requests, so every race between a
    manual action and the timer is one of these orders. */
module Interleavings {
  import opened Os
  import opened Registry

  lemma AddThenRemove<K, V>(m: map<K, V>, k: K, v: V)
    requires k !in m
    ensures m[k := v] - {k} == m
    ensures m - {k} == m
  {
  }

  lemma PushThenDrop<T>(s: seq<T>, x: T)
    ensures (s + [x])[..|s|] + (s + [x])[|s| + 1..] == s
  {
  }

  /** Block, then unblock by hand, then the block's timer fires: the timer
      finds no record and does nothing, and the registry is as it was. */
  method BlockUnblockExpire(d: BlockRegistry, host: Host, pid: Pid, t0: int) returns (r1: Reply, r2: Reply)
    requires d.Valid()
    requires pid in host.procs && pid !in host.denied && pid !in d.blocked
    modifies d, host
    ensures d.Valid()
    ensures r1 == Reply(true, Suspended) && r2 == Reply(true, Resumed)
    ensures d.blocked == old(d.blocked) && d.timers == old(d.timers) && d.sleepers == old(d.sleepers)
    ensures host.calls == old(host.calls) + [Call(Stop, pid), Call(Cont, pid)]
    ensures host.procs == old(host.procs)[pid := old(host.procs)[pid].(state := Running)]
  {
    var k := |d.sleepers|;
    var own := Sleeper(pid, t0 + BlockMillis);
    r1 := d.Block(host, pid, t0);
    assert host.calls == old(host.calls) + [Call(Stop, pid)];
    assert d.sleepers == old(d.sleepers) + [own];
    r2 := d.Unblock(host, pid);
    assert pid !in d.blocked;
    assert host.calls == old(host.calls) + [Call(Stop, pid)] + [Call(Cont, pid)];
    d.Wake(host, k, t0 + BlockMillis);
    AddThenRemove(old(d.blocked), pid, BlockRecord(old(host.procs)[pid].name, t0));
    PushThenDrop(old(d.sleepers), own);
  }

  /** A second block of a blocked pid is refused and sends no second SIGSTOP. */
  method BlockTwice(d: BlockRegistry, host: Host, pid: Pid, t0: int, t1: int) returns (r1: Reply, r2: Reply)
    requires d.Valid()
    requires pid in host.procs && pid !in host.denied && pid !in d.blocked
    modifies d, host
    ensures d.Valid()
    ensures r1 == Reply(true, Suspended) && r2 == Reply(false, AlreadyBlocked)
    ensures d.blocked == old(d.blocked)[pid := BlockRecord(old(host.procs)[pid].name, t0)]
    ensures SentCount(host.calls, Stop, pid) == SentCount(old(host.calls), Stop, pid) + 1
  {
    r1 := d.Block(host, pid, t0);
    assert host.calls == old(host.calls) + [Call(Stop, pid)];
    r2 := d.Block(host, pid, t1);
    SentCountAppend(old(host.calls), [Call(Stop, pid)], Stop, pid);
  }

  /** A block left alone: its own timer fires when the five seconds are
      over, sends exactly one SIGCONT and removes the record. */
  method BlockExpire(d: BlockRegistry, host: Host, pid: Pid, t0: int) returns (r: Reply)
    requires d.Valid()
    requires pid in host.procs && pid !in host.denied && pid !in d.blocked
    modifies d, host
    ensures d.Valid()
    ensures r == Reply(true, Suspended)
    ensures pid !in d.blocked && pid !in d.timers
    ensures d.blocked == old(d.blocked) && d.sleepers == old(d.sleepers)
    ensures SentCount(host.calls, Cont, pid) == SentCount(old(host.calls), Cont, pid) + 1
    ensures host.procs == old(host.procs)[pid := old(host.procs)[pid].(state := Running)]
  {
    var k := |d.sleepers|;
    var own := Sleeper(pid, t0 + BlockMillis);
    r := d.Block(host, pid, t0);
    assert host.calls == old(host.calls) + [Call(Stop, pid)];
    assert d.sleepers == old(d.sleepers) + [own];
    d.Wake(host, k, t0 + BlockMillis);
    AddThenRemove(old(d.blocked), pid, BlockRecord(old(host.procs)[pid].name, t0));
    PushThenDrop(old(d.sleepers), own);
    assert host.calls == old(host.calls) + [Call(Stop, pid), Call(Cont, pid)];
    SentCountAppend(old(host.calls), [Call(Stop, pid), Call(Cont, pid)], Cont, pid);
  }

  /** Block, then kill before the timer fires, then the timer fires: the
      process gets one SIGTERM and no SIGCONT at all, because kill removed
      the record before terminating; so it stays suspended. */
  method BlockKillExpire(d: BlockRegistry, host: Host, pid: Pid, t0: int) returns (r1: Reply, r2: Reply)
    requires d.Valid()
    requires pid in host.procs && pid !in host.denied && pid !in d.blocked
    modifies d, host
    ensures d.Valid()
    ensures r1 == Reply(true, Suspended) && r2 == Reply(true, Terminated)
    ensures d.blocked == old(d.blocked) && d.sleepers == old(d.sleepers)
    ensures host.calls == old(host.calls) + [Call(Stop, pid), Call(Term, pid)]
    ensures SentCount(host.calls, Cont, pid) == SentCount(old(host.calls), Cont, pid)
    ensures SentCount(host.calls, Term, pid) == SentCount(old(host.calls), Term, pid) + 1
    ensures host.procs == old(host.procs)[pid := old(host.procs)[pid].(state := Stopped)]
  {
    var k := |d.sleepers|;
    var own := Sleeper(pid, t0 + BlockMillis);
    r1 := d.Block(host, pid, t0);
    assert host.calls == old(host.calls) + [Call(Stop, pid)];
    assert d.sleepers == old(d.sleepers) + [own];
    r2 := d.Kill(host, pid);
    assert pid !in d.blocked;
    d.Wake(host, k, t0 + BlockMillis);
    AddThenRemove(old(d.blocked), pid, BlockRecord(old(host.procs)[pid].name, t0));
    PushThenDrop(old(d.sleepers), own);
    assert host.calls == old(host.calls) + [Call(Stop, pid)] + [Call(Term, pid)];
    SentCountAppend(old(host.calls), [Call(Stop, pid), Call(Term, pid)], Cont, pid);
    SentCountAppend(old(host.calls), [Call(Stop, pid), Call(Term, pid)], Term, pid);
  }

  /** Unblocking only forgets the timer's dictionary entry; the thread still
      runs its callback.  So after block (t0), unblock and a new block (t2)
      made while the first block's timer still sleeps, that timer wakes at
      some `tw` and ends the second block after `tw - t2`, less than its
      five seconds, while the second block's own timer is still asleep. */
  method StaleTimerEndsReblock(d: BlockRegistry, host: Host, pid: Pid, t0: int, t2: int, tw: int)
    returns (ended: BlockRecord, heldFor: int)
    requires d.Valid()
    requires pid in host.procs && pid !in host.denied && pid !in d.blocked
    requires t0 < t2 < tw
    requires t0 + BlockMillis <= tw < t2 + BlockMillis
    modifies d, host
    ensures d.Valid()
    ensures pid !in d.blocked && pid !in d.timers
    ensures ended == BlockRecord(old(host.procs)[pid].name, t2)
    ensures heldFor == tw - ended.blockedAt && 0 < heldFor < BlockMillis
    ensures Sleeper(pid, t2 + BlockMillis) in d.sleepers
    ensures host.calls == old(host.calls) + [Call(Stop, pid), Call(Cont, pid), Call(Stop, pid), Call(Cont, pid)]
  {
    var k := |d.sleepers|;
    var r := d.Block(host, pid, t0);
    assert host.calls == old(host.calls) + [Call(Stop, pid)];
    assert d.sleepers[k] == Sleeper(pid, t0 + BlockMillis);
    r := d.Unblock(host, pid);
    assert host.calls == old(host.calls) + [Call(Stop, pid), Call(Cont, pid)];
    r := d.Block(host, pid, t2);
    assert host.calls == old(host.calls) + [Call(Stop, pid), Call(Cont, pid), Call(Stop, pid)];
    assert d.sleepers[k] == Sleeper(pid, t0 + BlockMillis);
    assert d.sleepers[k + 1] == Sleeper(pid, t2 + BlockMillis);
    ended := d.blocked[pid];
    d.Wake(host, k, tw);
    assert d.sleepers[k] == Sleeper(pid, t2 + BlockMillis);
    heldFor := tw - ended.blockedAt;
  }

  /** The pid of a blocked process is reused after the process exits: the
      old block's timer sends SIGCONT to the new, unrelated process. */
  method StaleTimerAfterPidReuse(d: BlockRegistry, host: Host, pid: Pid, t0: int, newcomer: Proc)
    requires d.Valid()
    requires pid in host.procs && pid !in host.denied && pid !in d.blocked
    modifies d, host
    ensures d.Valid()
    ensures pid !in d.blocked
    ensures host.calls == old(host.calls) + [Call(Stop, pid), Call(Cont, pid)]
    ensures host.procs == old(host.procs)[pid := newcomer.(state := Running)]
  {
    var k := |d.sleepers|;
    var r := d.Block(host, pid, t0);
    assert host.calls == old(host.calls) + [Call(Stop, pid)];
    assert d.sleepers[k] == Sleeper(pid, t0 + BlockMillis);
    host.Exit(pid);
    host.Spawn(pid, newcomer, false);
    assert pid in d.blocked && pid in host.procs && pid !in host.denied;
    d.Wake(host, k, t0 + BlockMillis);
  }
}
