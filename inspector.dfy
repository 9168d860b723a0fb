/** The read side of network_dashboard.py: `is_local_ip`,
    `get_process_details` and `get_network_apps`.  The listing reads one
    snapshot of the registry and of the processes, and psutil's connection
    table is an input: either the list of connections or the exception
    raised when the user may not enumerate them. */
module Inspector {
  import opened Os
  import opened Registry

  /** What `ipaddress.ip_address` reports of an address that parses. */
  datatype IpFlags = IpFlags(isPrivate: bool, isLoopback: bool, isLinkLocal: bool)

  /** A remote endpoint: its address text and what `ipaddress.ip_address`
      makes of it (`None` when it raises). */
  datatype Remote = Remote(ip: string, parsed: Option<IpFlags>)

  /** A row of `psutil.net_connections`: the owning pid when known and the
      remote address when there is one. */
  datatype Conn = Conn(pid: Option<Pid>, raddr: Option<Remote>)

  datatype Enumeration = Connections(conns: seq<Conn>) | EnumerationDenied

  /** The registry and the process table, read at one instant. */
  datatype Snapshot = Snapshot(blocked: map<Pid, BlockRecord>, procs: map<Pid, Proc>, now: int)

  datatype Details = Details(status: string, isBlocked: bool, timeoutRemaining: int)

  datatype App = App(name: string, pid: Pid, connections: nat, details: Details)

  datatype Listing = Apps(apps: seq<App>) | PermissionDenied

  /** `is_local_ip`: an address that does not parse counts as local. */
  predicate IsLocalIp(r: Remote)
  {
    match r.parsed
    case None => true
    case Some(f) => f.isPrivate || f.isLoopback || f.isLinkLocal
  }

  /** The filter of `get_network_apps`: a pid that is set and not zero, and
      a remote address that is not local. */
  predicate IsExternal(c: Conn)
  {
    c.pid.Some? && c.pid.value != 0 && c.raddr.Some? && !IsLocalIp(c.raddr.value)
  }

  /** An external connection whose process could be looked up by name. */
  predicate Counted(c: Conn, s: Snapshot)
  {
    IsExternal(c) && c.pid.value in s.procs
  }

  /** A counted connection of the process named `name`. */
  predicate CountedAs(c: Conn, s: Snapshot, name: string)
  {
    Counted(c, s) && s.procs[c.pid.value].name == name
  }

  function StatusText(st: RunState): string
  {
    match st
    case Running => "running"
    case Stopped => "stopped"
  }

  function Max(a: int, b: int): int { if a < b then b else a }

  /** `get_process_details` without the CPU and memory readings. */
  function ProcessDetails(s: Snapshot, pid: Pid): (d: Details)
    ensures d.isBlocked <==> pid in s.procs && pid in s.blocked
    ensures pid !in s.procs ==> d == Details("unknown", false, 0)
    ensures 0 <= d.timeoutRemaining
    ensures d.timeoutRemaining > 0 <==> d.isBlocked && s.now < s.blocked[pid].blockedAt + BlockMillis
    ensures d.timeoutRemaining > 0 ==> d.timeoutRemaining == s.blocked[pid].blockedAt + BlockMillis - s.now
    ensures d.isBlocked && s.blocked[pid].blockedAt <= s.now ==> d.timeoutRemaining <= BlockMillis
  {
    if pid !in s.procs then
      Details("unknown", false, 0)
    else
      var remaining := if pid in s.blocked then Max(0, BlockMillis - (s.now - s.blocked[pid].blockedAt)) else 0;
      Details(StatusText(s.procs[pid].state), pid in s.blocked, remaining)
  }

  /** The time left that the listing shows for a blocked process is the
      time until the timer thread started by its block wakes up. */
  lemma RemainingIsOwnTimer(d: BlockRegistry, host: Host, pid: Pid, now: int)
    requires d.Valid()
    ensures var left := ProcessDetails(Snapshot(d.blocked, host.procs, now), pid).timeoutRemaining;
            left > 0 ==> Sleeper(pid, now + left) in d.sleepers
  {
  }

  /** The position of the entry named `name`, or -1. */
  function IndexOfName(apps: seq<App>, name: string): (k: int)
    ensures -1 <= k < |apps|
    ensures k >= 0 ==> apps[k].name == name
    ensures k < 0 ==> forall j :: 0 <= j < |apps| ==> apps[j].name != name
  {
    if apps == [] then -1
    else if apps[|apps| - 1].name == name then |apps| - 1
    else IndexOfName(apps[..|apps| - 1], name)
  }

  /** One iteration of the loop of `get_network_apps`. */
  function AddConn(apps: seq<App>, c: Conn, s: Snapshot): seq<App>
  {
    if !Counted(c, s) then apps
    else
      var name := s.procs[c.pid.value].name;
      var k := IndexOfName(apps, name);
      if k < 0 then apps + [App(name, c.pid.value, 1, ProcessDetails(s, c.pid.value))]
      else apps[k := apps[k].(connections := apps[k].connections + 1)]
  }

  /** The entries `get_network_apps` lists for `conns`, in first-seen order. */
  function Aggregate(conns: seq<Conn>, s: Snapshot): seq<App>
  {
    if conns == [] then []
    else AddConn(Aggregate(conns[..|conns| - 1], s), conns[|conns| - 1], s)
  }

  function Externals(conns: seq<Conn>): (r: seq<Conn>)
    ensures forall c :: c in r <==> c in conns && IsExternal(c)
  {
    if conns == [] then []
    else Externals(conns[..|conns| - 1]) + (if IsExternal(conns[|conns| - 1]) then [conns[|conns| - 1]] else [])
  }

  /** Number of counted connections of the process named `name`. */
  function Tally(conns: seq<Conn>, s: Snapshot, name: string): nat
  {
    if conns == [] then 0
    else Tally(conns[..|conns| - 1], s, name) + (if CountedAs(conns[|conns| - 1], s, name) then 1 else 0)
  }

  /** Number of counted connections. */
  function CountedTotal(conns: seq<Conn>, s: Snapshot): nat
  {
    if conns == [] then 0
    else CountedTotal(conns[..|conns| - 1], s) + (if Counted(conns[|conns| - 1], s) then 1 else 0)
  }

  function SumConnections(apps: seq<App>): nat
  {
    if apps == [] then 0 else SumConnections(apps[..|apps| - 1]) + apps[|apps| - 1].connections
  }

  ghost predicate NamesUnique(apps: seq<App>)
  {
    forall i, j :: 0 <= i < j < |apps| ==> apps[i].name != apps[j].name
  }

  /** The listing has one entry per process name. */
  lemma {:induction false} AggregateNamesUnique(conns: seq<Conn>, s: Snapshot)
    ensures NamesUnique(Aggregate(conns, s))
  {
    if conns != [] {
      AggregateNamesUnique(conns[..|conns| - 1], s);
    }
  }

  /** Each entry counts exactly the counted connections with its name, and
      every name that has a counted connection has an entry. */
  lemma {:induction false} AggregateTallies(conns: seq<Conn>, s: Snapshot)
    ensures forall i :: 0 <= i < |Aggregate(conns, s)| ==>
              Aggregate(conns, s)[i].connections == Tally(conns, s, Aggregate(conns, s)[i].name)
    ensures forall name :: Tally(conns, s, name) > 0 ==> IndexOfName(Aggregate(conns, s), name) >= 0
  {
    if conns != [] {
      var init, c := conns[..|conns| - 1], conns[|conns| - 1];
      assert conns[..|conns| - 1] == init;
      AggregateTallies(init, s);
      AggregateNamesUnique(init, s);
      var prev := Aggregate(init, s);
      var next := Aggregate(conns, s);
      assert next == AddConn(prev, c, s);
      forall name | Tally(conns, s, name) > 0
        ensures IndexOfName(next, name) >= 0
      {
        if CountedAs(c, s, name) {
          var k := IndexOfName(prev, name);
          if k < 0 {
            assert next[|prev|].name == name;
          } else {
            assert next[k].name == name;
          }
        } else {
          assert Tally(init, s, name) > 0;
          var k := IndexOfName(prev, name);
          assert next[k].name == name;
        }
      }
    }
  }

  /** Each entry's pid is the pid of the first counted connection with its
      name, and its details are those of that pid. */
  lemma {:induction false} AggregateFirstPid(conns: seq<Conn>, s: Snapshot, i: nat)
    requires i < |Aggregate(conns, s)|
    ensures exists k :: 0 <= k < |conns| && CountedAs(conns[k], s, Aggregate(conns, s)[i].name)
              && conns[k].pid.value == Aggregate(conns, s)[i].pid
              && Tally(conns[..k], s, Aggregate(conns, s)[i].name) == 0
    ensures Aggregate(conns, s)[i].details == ProcessDetails(s, Aggregate(conns, s)[i].pid)
  {
    var init, c := conns[..|conns| - 1], conns[|conns| - 1];
    var prev := Aggregate(init, s);
    var e := Aggregate(conns, s)[i];
    if i < |prev| {
      AggregateFirstPid(init, s, i);
      var k :| 0 <= k < |init| && CountedAs(init[k], s, prev[i].name) && init[k].pid.value == prev[i].pid
               && Tally(init[..k], s, prev[i].name) == 0;
      assert init[..k] == conns[..k];
      assert e.name == prev[i].name && e.pid == prev[i].pid && e.details == prev[i].details;
      assert conns[k] == init[k];
    } else {
      AggregateTallies(init, s);
      var k := |conns| - 1;
      assert conns[..k] == init;
      assert e.name == s.procs[c.pid.value].name;
      assert Tally(init, s, e.name) == 0;
    }
  }

  /** The connection counts add up to the number of counted connections. */
  lemma {:induction false} AggregateTotal(conns: seq<Conn>, s: Snapshot)
    ensures SumConnections(Aggregate(conns, s)) == CountedTotal(conns, s)
  {
    if conns != [] {
      var init, c := conns[..|conns| - 1], conns[|conns| - 1];
      AggregateTotal(init, s);
      var prev := Aggregate(init, s);
      assert Aggregate(conns, s) == AddConn(prev, c, s);
      if Counted(c, s) {
        var name := s.procs[c.pid.value].name;
        var k := IndexOfName(prev, name);
        if k >= 0 {
          SumIncrement(prev, k);
        } else {
          var next := prev + [App(name, c.pid.value, 1, ProcessDetails(s, c.pid.value))];
          assert next[..|prev|] == prev;
        }
      }
    }
  }

  lemma {:induction false} SumIncrement(apps: seq<App>, k: nat)
    requires k < |apps|
    ensures SumConnections(apps[k := apps[k].(connections := apps[k].connections + 1)]) == SumConnections(apps) + 1
  {
    var next := apps[k := apps[k].(connections := apps[k].connections + 1)];
    var n := |apps| - 1;
    if k < n {
      assert next[..n] == apps[..n][k := apps[k].(connections := apps[k].connections + 1)];
      SumIncrement(apps[..n], k);
    } else {
      assert next[..n] == apps[..n];
    }
  }

  /** Connections that are not external leave no trace in the listing. */
  lemma {:induction false} AggregateIgnoresLocal(conns: seq<Conn>, s: Snapshot)
    ensures Aggregate(conns, s) == Aggregate(Externals(conns), s)
  {
    if conns != [] {
      var init, c := conns[..|conns| - 1], conns[|conns| - 1];
      AggregateIgnoresLocal(init, s);
      var ext := Externals(init);
      if IsExternal(c) {
        assert Externals(conns) == ext + [c];
        assert (ext + [c])[..|ext|] == ext;
      } else {
        assert Externals(conns) == ext;
      }
    }
  }

  lemma {:induction false} ExternalsAppend(xs: seq<Conn>, ys: seq<Conn>)
    ensures Externals(xs + ys) == Externals(xs) + Externals(ys)
  {
    if ys != [] {
      var all := xs + ys;
      assert all[..|all| - 1] == xs + ys[..|ys| - 1];
      ExternalsAppend(xs, ys[..|ys| - 1]);
    } else {
      assert xs + ys == xs;
    }
  }

  /** The rule of `is_local_ip`, seen from the listing: a connection whose
      remote address does not parse, or parses as private, loopback or
      link-local, changes nothing wherever it sits in the connection table. */
  lemma LocalAddressSkipped(pre: seq<Conn>, c: Conn, post: seq<Conn>, s: Snapshot)
    requires c.raddr.Some?
    requires c.raddr.value.parsed.None?
             || c.raddr.value.parsed.value.isPrivate
             || c.raddr.value.parsed.value.isLoopback
             || c.raddr.value.parsed.value.isLinkLocal
    ensures Aggregate(pre + [c] + post, s) == Aggregate(pre + post, s)
  {
    AggregateIgnoresLocal(pre + [c] + post, s);
    AggregateIgnoresLocal(pre + post, s);
    ExternalsAppend(pre + [c], post);
    ExternalsAppend(pre, [c]);
    ExternalsAppend(pre, post);
    assert Externals([c]) == [] by {
      assert [c][..0] == [];
    }
    assert Externals(pre) + [] == Externals(pre);
  }

  /** The values of a dictionary in insertion order. */
  function InOrder(order: seq<string>, apps: map<string, App>): (r: seq<App>)
    requires forall j :: 0 <= j < |order| ==> order[j] in apps
    ensures |r| == |order|
    ensures forall j :: 0 <= j < |order| ==> r[j] == apps[order[j]]
  {
    seq(|order|, j requires 0 <= j < |order| => apps[order[j]])
  }

  /** `order` lists the keys of the dictionary `apps` once each, in
      insertion order, and every entry is stored under its own name. */
  ghost predicate Keyed(order: seq<string>, apps: map<string, App>)
  {
    && (forall j :: 0 <= j < |order| ==> order[j] in apps && apps[order[j]].name == order[j])
    && (forall n :: n in apps ==> n in order)
    && (forall j, k :: 0 <= j < k < |order| ==> order[j] != order[k])
  }

  /** Inserting a new key appends its value to the dictionary's values. */
  lemma InOrderInsert(order: seq<string>, apps: map<string, App>, a: App)
    requires Keyed(order, apps) && a.name !in apps
    ensures Keyed(order + [a.name], apps[a.name := a])
    ensures InOrder(order + [a.name], apps[a.name := a]) == InOrder(order, apps) + [a]
    ensures IndexOfName(InOrder(order, apps), a.name) < 0
  {
  }

  /** Overwriting the value of an existing key changes that position only. */
  lemma InOrderOverwrite(order: seq<string>, apps: map<string, App>, k: nat, a: App)
    requires Keyed(order, apps) && k < |order| && a.name == order[k]
    ensures Keyed(order, apps[a.name := a])
    ensures InOrder(order, apps[a.name := a]) == InOrder(order, apps)[k := a]
    ensures IndexOfName(InOrder(order, apps), a.name) == k
  {
    var r := InOrder(order, apps);
    var i := IndexOfName(r, a.name);
    assert i >= 0 by {
      assert r[k].name == a.name;
    }
  }

  /** A counted connection whose name already has an entry: the entry's
      count goes up by one, which is the fold's step. */
  lemma CountedStepKnown(order: seq<string>, apps0: map<string, App>, c: Conn, s: Snapshot)
    requires Keyed(order, apps0) && Counted(c, s) && s.procs[c.pid.value].name in apps0
    ensures var name := s.procs[c.pid.value].name;
            var apps := apps0[name := apps0[name].(connections := apps0[name].connections + 1)];
            && Keyed(order, apps)
            && InOrder(order, apps) == AddConn(InOrder(order, apps0), c, s)
  {
    var name := s.procs[c.pid.value].name;
    var k :| 0 <= k < |order| && order[k] == name;
    var before := InOrder(order, apps0);
    var a := apps0[name].(connections := apps0[name].connections + 1);
    InOrderOverwrite(order, apps0, k, a);
    assert before[k] == apps0[name];
    assert AddConn(before, c, s) == before[k := a];
  }

  /** A counted connection with a new name: its entry, with count 1, goes
      at the end of the dictionary, which is the fold's step. */
  lemma CountedStepNew(order0: seq<string>, apps0: map<string, App>, c: Conn, s: Snapshot)
    requires Keyed(order0, apps0) && Counted(c, s) && s.procs[c.pid.value].name !in apps0
    ensures var name := s.procs[c.pid.value].name;
            var apps := apps0[name := App(name, c.pid.value, 1, ProcessDetails(s, c.pid.value))];
            && Keyed(order0 + [name], apps)
            && InOrder(order0 + [name], apps) == AddConn(InOrder(order0, apps0), c, s)
  {
    var name := s.procs[c.pid.value].name;
    InOrderInsert(order0, apps0, App(name, c.pid.value, 1, ProcessDetails(s, c.pid.value)));
  }

  lemma AggregateSnoc(conns: seq<Conn>, i: nat, s: Snapshot)
    requires i < |conns|
    ensures Aggregate(conns[..i + 1], s) == AddConn(Aggregate(conns[..i], s), conns[i], s)
  {
    assert conns[..i + 1][..i] == conns[..i];
  }

  /** The body of the loop of `get_network_apps` for one connection. */
  method AddConnection(order0: seq<string>, apps0: map<string, App>, c: Conn, s: Snapshot)
    returns (order: seq<string>, apps: map<string, App>)
    requires Keyed(order0, apps0)
    ensures Keyed(order, apps)
    ensures InOrder(order, apps) == AddConn(InOrder(order0, apps0), c, s)
  {
    order, apps := order0, apps0;
    if !IsExternal(c) {
      return;
    }
    if c.pid.value !in s.procs {
      return;
    }
    var name := s.procs[c.pid.value].name;
    if name !in apps {
      apps := apps[name := App(name, c.pid.value, 0, ProcessDetails(s, c.pid.value))];
      order := order + [name];
    }
    apps := apps[name := apps[name].(connections := apps[name].connections + 1)];
    if name in apps0 {
      assert apps == apps0[name := apps0[name].(connections := apps0[name].connections + 1)];
      CountedStepKnown(order0, apps0, c, s);
    } else {
      assert apps == apps0[name := App(name, c.pid.value, 1, ProcessDetails(s, c.pid.value))];
      CountedStepNew(order0, apps0, c, s);
    }
  }

  /** `get_network_apps`: the loop builds a dictionary keyed by process name
      and the result is its values in insertion order. */
  method GetNetworkApps(e: Enumeration, s: Snapshot) returns (l: Listing)
    ensures e.EnumerationDenied? ==> l == PermissionDenied
    ensures e.Connections? ==> l == Apps(Aggregate(e.conns, s))
  {
    if e.EnumerationDenied? {
      return PermissionDenied;
    }
    var conns := e.conns;
    var order: seq<string> := [];
    var apps: map<string, App> := map[];
    var i := 0;
    while i < |conns|
      invariant 0 <= i <= |conns|
      invariant Keyed(order, apps)
      invariant InOrder(order, apps) == Aggregate(conns[..i], s)
    {
      AggregateSnoc(conns, i, s);
      order, apps := AddConnection(order, apps, conns[i], s);
      i := i + 1;
    }
    assert conns[..i] == conns;
    l := Apps(InOrder(order, apps));
  }
}
