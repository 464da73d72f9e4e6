/**
 * The per-host process table (`ProcessManager`, which the Deputy inherits).
 *
 * The operating system is replaced by oracle values: what `poll()` reports for
 * an existing handle, whether spawning succeeds (with a pid) or raises (with a
 * message), how the SIGTERM / wait / SIGKILL sequence ends, and whether
 * sampling still finds the pid. The clock is the `now` of a start oracle.
 *
 * Each operation is first specified by a function over a `Table` (the two
 * dictionaries), and the `ProcessManager` class updates its fields in place
 * and is proved to agree with those functions.
 */
module Supervisor {
  import opened Wrappers
  import opened Dicts
  import opened Records

  // ---------------------------------------------------------------------------
  // argv: `command.split()`

  /** Python's `str.isspace()` on one character. */
  predicate IsSpace(c: char) {
    var n := c as int;
    || n == 0x20 || 0x09 <= n <= 0x0D || 0x1C <= n <= 0x1F || n == 0x85 || n == 0xA0
    || n == 0x1680 || 0x2000 <= n <= 0x200A || n == 0x2028 || n == 0x2029
    || n == 0x202F || n == 0x205F || n == 0x3000
  }

  predicate NoSpace(t: string) {
    forall i :: 0 <= i < |t| ==> !IsSpace(t[i])
  }

  /** The length of the run of non-space characters at the start of `s`. */
  function TokenLength(s: string): (n: nat)
    ensures n <= |s|
    ensures forall i :: 0 <= i < n ==> !IsSpace(s[i])
    ensures n == |s| || IsSpace(s[n])
  {
    if s == [] || IsSpace(s[0]) then 0 else 1 + TokenLength(s[1..])
  }

  /** `s.split()`: the maximal runs of non-space characters, left to right. */
  function Split(s: string): (argv: seq<string>)
    ensures forall t :: t in argv ==> t != "" && NoSpace(t)
    decreases |s|
  {
    if s == [] then []
    else if IsSpace(s[0]) then Split(s[1..])
    else
      var n := TokenLength(s);
      [s[..n]] + Split(s[n..])
  }

  /** `s` with every whitespace character dropped. */
  function NonSpace(s: string): string {
    if s == [] then "" else (if IsSpace(s[0]) then "" else [s[0]]) + NonSpace(s[1..])
  }

  function Concat(ts: seq<string>): string {
    if ts == [] then "" else ts[0] + Concat(ts[1..])
  }

  /** `" ".join(ts)` */
  function Join(ts: seq<string>): string {
    if ts == [] then "" else if |ts| == 1 then ts[0] else ts[0] + " " + Join(ts[1..])
  }

  lemma {:induction false} NonSpaceAppend(a: string, b: string)
    ensures NonSpace(a + b) == NonSpace(a) + NonSpace(b)
    decreases |a|
  {
    if a != [] {
      assert (a + b)[1..] == a[1..] + b;
      NonSpaceAppend(a[1..], b);
    } else {
      assert a + b == b;
    }
  }

  lemma {:induction false} NonSpaceOfWord(t: string)
    requires NoSpace(t)
    ensures NonSpace(t) == t
    decreases |t|
  {
    if t != [] {
      NonSpaceOfWord(t[1..]);
      assert t == [t[0]] + t[1..];
    }
  }

  /** The tokens, laid end to end, are exactly the non-space characters of the command, in order. */
  lemma {:induction false} SplitKeepsOrder(s: string)
    ensures Concat(Split(s)) == NonSpace(s)
    decreases |s|
  {
    if s != [] {
      if IsSpace(s[0]) {
        SplitKeepsOrder(s[1..]);
      } else {
        var n := TokenLength(s);
        SplitKeepsOrder(s[n..]);
        assert s == s[..n] + s[n..];
        NonSpaceAppend(s[..n], s[n..]);
        NonSpaceOfWord(s[..n]);
        assert Split(s) == [s[..n]] + Split(s[n..]);
        assert ([s[..n]] + Split(s[n..]))[1..] == Split(s[n..]);
      }
    }
  }

  /** A whitespace-free word splits into itself alone. */
  lemma SplitWord(t: string)
    requires t != "" && NoSpace(t)
    ensures Split(t) == [t]
  {
    SplitJoin([t]);
  }

  /** The token at the start of `a + rest` ends where it ends in `a`, when `a`'s token stops inside `a` or `rest` starts with whitespace. */
  lemma {:induction false} TokenLengthPrefix(a: string, rest: string)
    requires TokenLength(a) < |a| || rest == "" || IsSpace(rest[0])
    ensures TokenLength(a + rest) == TokenLength(a)
    decreases |a|
  {
    if a == [] {
      assert a + rest == rest;
    } else if !IsSpace(a[0]) {
      assert (a + rest)[1..] == a[1..] + rest;
      TokenLengthPrefix(a[1..], rest);
    }
  }

  lemma SlicesAround(a: string, c: char, b: string, n: int)
    requires 0 <= n <= |a|
    ensures a + [c] + b == a + ([c] + b)
    ensures (a + [c] + b)[..n] == a[..n] && (a + [c] + b)[n..] == a[n..] + [c] + b
  {
  }

  /** Whitespace separates: splitting around a whitespace character splits each side on its own. */
  lemma {:induction false} SplitAtSpace(a: string, c: char, b: string)
    requires IsSpace(c)
    ensures Split(a + [c] + b) == Split(a) + Split(b)
    decreases |a|
  {
    var s := a + [c] + b;
    if a == [] {
      assert s[1..] == b;
    } else if IsSpace(a[0]) {
      SlicesAround(a, c, b, 1);
      SplitAtSpace(a[1..], c, b);
    } else {
      var n := TokenLength(a);
      TokenLengthPrefix(a, [c] + b);
      SlicesAround(a, c, b, n);
      SplitAtSpace(a[n..], c, b);
    }
  }

  lemma {:induction false} TokenLengthOfWord(t: string, rest: string)
    requires NoSpace(t)
    requires rest == "" || IsSpace(rest[0])
    ensures TokenLength(t + rest) == |t|
    decreases |t|
  {
    if t == [] {
      assert t + rest == rest;
    } else {
      assert (t + rest)[1..] == t[1..] + rest;
      TokenLengthOfWord(t[1..], rest);
    }
  }

  /** Splitting words joined by single spaces gives the words back. */
  lemma {:induction false} SplitJoin(ts: seq<string>)
    requires forall t :: t in ts ==> t != "" && NoSpace(t)
    ensures Split(Join(ts)) == ts
    decreases |ts|
  {
    if |ts| == 1 {
      TokenLengthOfWord(ts[0], "");
      assert ts[0] + "" == ts[0];
      assert ts[0][..|ts[0]|] == ts[0];
      assert ts[0][|ts[0]|..] == "";
    } else if |ts| > 1 {
      var s := Join(ts);
      var rest := " " + Join(ts[1..]);
      assert s == ts[0] + rest;
      TokenLengthOfWord(ts[0], rest);
      assert s[..|ts[0]|] == ts[0];
      assert s[|ts[0]|..] == rest;
      assert rest[1..] == Join(ts[1..]);
      assert forall t :: t in ts[1..] ==> t in ts;
      SplitJoin(ts[1..]);
      assert ts == [ts[0]] + ts[1..];
    }
  }

  // ---------------------------------------------------------------------------
  // The oracles that stand for the operating system

  /** What `subprocess.Popen` does: returns a child with a pid, or raises. */
  datatype Spawn = Spawned(pid: int) | SpawnFailed(message: string)

  /** What one `start_process` call learns from the system. */
  datatype StartOracle = StartOracle(
    running: bool,      // `poll()` on the existing handle, if any, returns None
    spawn: Spawn,
    now: real)          // `time.time()`

  /** How SIGTERM to the process group and the 5-second wait end. */
  datatype Termination =
    | ExitedInGrace     // the process group exits within the grace period
    | GraceExpired      // the wait times out, and SIGKILL is sent to the group
    | SignalFailed      // `getpgid`/`killpg` raise (e.g. the group is already gone)

  /** What one `stop_process` call learns from the system. */
  datatype StopOracle = StopOracle(running: bool, termination: Termination)

  /** What `psutil.Process(pid)` sampling finds. */
  datatype Sample = Sampled(cpu: real, memory: real) | NoSuchProcess

  /** The part of a `Popen` object the table keeps: the child's pid, argv and working directory. */
  datatype Handle = Handle(pid: int, argv: seq<string>, cwd: string)

  // ---------------------------------------------------------------------------
  // The table and its invariants

  /** `self.processes` (name -> record) and `self._process_handles` (name -> handle). */
  datatype Table = Table(processes: Dict<string, ProcessInfo>, handles: Dict<string, Handle>)
  {
    /** Every record is stored under its own name, and every handle belongs to a stored record. */
    ghost predicate Valid() {
      && processes.Valid() && handles.Valid()
      && (forall n :: n in processes.m ==> processes.m[n].name == n)
      && handles.m.Keys <= processes.m.Keys
    }
  }

  /** A record marked running carries a pid. */
  predicate RunningHasPid(p: ProcessInfo) {
    p.status == "running" ==> p.pid.Some?
  }

  ghost predicate Consistent(t: Table) {
    forall n :: n in t.processes.m ==> RunningHasPid(t.processes.m[n])
  }

  // Record updates written by the table's operations

  function Launched(p: ProcessInfo, pid: int, now: real): ProcessInfo {
    p.(pid := Some(pid), status := "running", start_time := Some(now))
  }

  function SpawnError(p: ProcessInfo, message: string): ProcessInfo {
    p.(status := "error: " + message)
  }

  function Halted(p: ProcessInfo): ProcessInfo {
    p.(status := "stopped", pid := None, start_time := None)
  }

  function Died(p: ProcessInfo): ProcessInfo {
    p.(status := "died", pid := None, cpu_percent := 0.0, memory_percent := 0.0)
  }

  // ---------------------------------------------------------------------------
  // Operations, as functions of the table

  datatype StartResult = StartResult(ok: bool, info: ProcessInfo, table: Table)

  datatype Step = Step(ok: bool, table: Table)

  /** A start is rejected while the name has a handle whose `poll()` says it is still running. */
  predicate StartRejected(t: Table, name: string, o: StartOracle) {
    name in t.handles.m && o.running
  }

  /**
   * `start_process(info)`. `info` is the caller's record object: the call
   * writes pid, status and start time into it, which the result's `info` gives.
   */
  function Start(t: Table, info: ProcessInfo, o: StartOracle): (r: StartResult)
    requires t.Valid()
    ensures r.table.Valid()
    ensures r.info.name == info.name
    ensures StartRejected(t, info.name, o) ==> r == StartResult(false, info, t)
    ensures r.ok <==> !StartRejected(t, info.name, o) && o.spawn.Spawned?
    ensures r.ok ==>
      && r.info.pid == Some(o.spawn.pid) && r.info.status == "running" && r.info.start_time == Some(o.now)
      && r.info == Launched(info, o.spawn.pid, o.now)
      && r.table.processes == t.processes.Put(info.name, r.info)
      && r.table.handles == t.handles.Put(info.name, Handle(o.spawn.pid, Split(info.command), info.working_dir))
    ensures !r.ok ==> r.table == t
    ensures !StartRejected(t, info.name, o) && o.spawn.SpawnFailed? ==>
      r.info == info.(status := "error: " + o.spawn.message)
    ensures Consistent(t) ==> Consistent(r.table)
  {
    if StartRejected(t, info.name, o) then StartResult(false, info, t)
    else match o.spawn
      case Spawned(pid) =>
        var p := Launched(info, pid, o.now);
        StartResult(true, p, Table(t.processes.Put(info.name, p),
                                   t.handles.Put(info.name, Handle(pid, Split(info.command), info.working_dir))))
      case SpawnFailed(message) =>
        StartResult(false, SpawnError(info, message), t)
  }

  /** A stop gets as far as signalling, and the signalling does not raise. */
  predicate Stoppable(t: Table, name: string, o: StopOracle) {
    name in t.handles.m && o.running && o.termination != SignalFailed
  }

  /**
   * `stop_process(name)`: fails with no change when there is no handle, when
   * the handle has already exited, or when signalling raises; otherwise clears
   * pid and start time, marks the record stopped and keeps the handle entry.
   */
  function Stop(t: Table, name: string, o: StopOracle): (r: Step)
    requires t.Valid()
    ensures r.table.Valid()
    ensures r.ok <==> Stoppable(t, name, o)
    ensures !r.ok ==> r.table == t
    ensures r.ok ==>
      && r.table.handles == t.handles
      && r.table.processes == t.processes.Put(name, Halted(t.processes.m[name]))
      && var p := r.table.processes.m[name];
         p.status == "stopped" && p.pid == None && p.start_time == None
    ensures Consistent(t) ==> Consistent(r.table)
  {
    if name !in t.handles.m || !o.running then Step(false, t)
    else if o.termination == SignalFailed then Step(false, t)
    else Step(true, Table(t.processes.Put(name, Halted(t.processes.m[name])), t.handles))
  }

  /** Storing a record under its own name, beside handles of stored names, keeps the table valid and touches no other record. */
  lemma PutRecord(t: Table, handles: Dict<string, Handle>, name: string, p: ProcessInfo)
    requires t.Valid() && handles.Valid() && p.name == name
    requires handles.m.Keys <= t.processes.m.Keys + {name}
    ensures Table(t.processes.Put(name, p), handles).Valid()
    ensures forall n :: n in t.processes.m && n != name ==> t.processes.Put(name, p).m[n] == t.processes.m[n]
    ensures Consistent(t) && RunningHasPid(p) ==> Consistent(Table(t.processes.Put(name, p), handles))
  {
  }

  lemma ErrorIsNotRunning(message: string)
    ensures "error: " + message != "running"
  {
    assert ("error: " + message)[0] == 'e';
  }

  /**
   * `start_process(self.processes[name])`: the stored record object itself is
   * passed, so whatever the call writes into it, an error status included,
   * lands in the table.
   */
  function StartStored(t: Table, name: string, o: StartOracle): (r: Step)
    requires t.Valid() && name in t.processes.m
    ensures r.table.Valid()
    ensures r.ok == Start(t, t.processes.m[name], o).ok
    ensures r.table.processes.keys == t.processes.keys
    ensures name in r.table.processes.m && r.table.processes.m[name] == Start(t, t.processes.m[name], o).info
    ensures forall n :: n in t.processes.m && n != name ==> r.table.processes.m[n] == t.processes.m[n]
    ensures r.table.handles == Start(t, t.processes.m[name], o).table.handles
    ensures Consistent(t) ==> Consistent(r.table)
  {
    var s := Start(t, t.processes.m[name], o);
    ErrorIsNotRunning(if o.spawn.SpawnFailed? then o.spawn.message else "");
    assert Consistent(t) ==> RunningHasPid(s.info);
    PutRecord(s.table, s.table.handles, name, s.info);
    Step(s.ok, Table(s.table.processes.Put(name, s.info), s.table.handles))
  }

  /**
   * `restart_process(name)`: fails for an unknown name; otherwise attempts a
   * stop, ignores its result, and returns what starting the stored record returns.
   */
  function Restart(t: Table, name: string, stop: StopOracle, start: StartOracle): (r: Step)
    requires t.Valid()
    ensures r.table.Valid()
    ensures name !in t.processes.m ==> r == Step(false, t)
    ensures forall n :: n in t.processes.m && n != name ==> n in r.table.processes.m && r.table.processes.m[n] == t.processes.m[n]
    ensures Consistent(t) ==> Consistent(r.table)
  {
    if name !in t.processes.m then Step(false, t)
    else StartStored(Stop(t, name, stop).table, name, start)
  }

  /**
   * What a restart of a known name returns and leaves in the table: the stop's
   * result does not matter; a start that spawns leaves the record running with
   * the new pid, and a start whose spawn raises leaves the error status in the
   * stored record.
   */
  lemma RestartOutcome(t: Table, name: string, stop: StopOracle, start: StartOracle)
    requires t.Valid() && name in t.processes.m
    ensures var r := Restart(t, name, stop, start);
      && (r.ok <==> !StartRejected(t, name, start) && start.spawn.Spawned?)
      && (r.ok ==> r.table.processes.m[name] == Launched(t.processes.m[name], start.spawn.pid, start.now))
      && (!StartRejected(t, name, start) && start.spawn.SpawnFailed? ==>
            r.table.processes.m[name].status == "error: " + start.spawn.message)
  {
    var halted := Stop(t, name, stop).table;
    assert halted.handles == t.handles;
    var s := Start(halted, halted.processes.m[name], start);
    assert halted.processes.m[name].name == name;
    assert StartRejected(halted, name, start) == StartRejected(t, name, start);
    if s.ok {
      assert s.info == Launched(halted.processes.m[name], start.spawn.pid, start.now);
    }
  }

  /** `not pid` is false: a pid is set and is not 0. */
  predicate HasPid(p: ProcessInfo) {
    p.pid.Some? && p.pid.value != 0
  }

  /**
   * `update_process_stats(name)`: no change for an unknown name or a falsy pid;
   * fresh percentages when the pid is found; otherwise the record is marked died.
   */
  function UpdateStats(t: Table, name: string, s: Sample): (r: Table)
    requires t.Valid()
    ensures r.Valid()
    ensures r.handles == t.handles && r.processes.keys == t.processes.keys
    ensures name !in t.processes.m || !HasPid(t.processes.m[name]) ==> r == t
    ensures forall n :: n in t.processes.m && n != name ==> r.processes.m[n] == t.processes.m[n]
    ensures name in t.processes.m && HasPid(t.processes.m[name]) && s.NoSuchProcess? ==>
      var p, q := t.processes.m[name], r.processes.m[name];
      && q.status == "died" && q.pid == None && q.cpu_percent == 0.0 && q.memory_percent == 0.0
      && q == Died(p) && q.start_time == p.start_time
    ensures name in t.processes.m && HasPid(t.processes.m[name]) && s.Sampled? ==>
      r.processes.m[name] == t.processes.m[name].(cpu_percent := s.cpu, memory_percent := s.memory)
    ensures Consistent(t) ==> Consistent(r)
  {
    if name !in t.processes.m || !HasPid(t.processes.m[name]) then t
    else
      var p := t.processes.m[name];
      match s
        case Sampled(cpu, memory) =>
          Table(t.processes.Put(name, p.(cpu_percent := cpu, memory_percent := memory)), t.handles)
        case NoSuchProcess =>
          Table(t.processes.Put(name, Died(p)), t.handles)
  }

  /**
   * One entry of the `load_config` loop: the decoded record is stored under its
   * name, then, when it is marked autostart, the stored object itself is started.
   */
  function Admit(t: Table, p: ProcessInfo, o: StartOracle): (r: Table)
    requires t.Valid()
    ensures r.Valid()
    ensures p.name in r.processes.m
    ensures !p.autostart ==> r.handles == t.handles
    ensures forall n :: n != p.name ==> (n in r.handles.m <==> n in t.handles.m)
    ensures forall n :: n != p.name && n in t.handles.m ==> r.handles.m[n] == t.handles.m[n]
    ensures Consistent(t) && RunningHasPid(p) ==> Consistent(r)
  {
    var stored := Table(t.processes.Put(p.name, p), t.handles);
    if p.autostart then StartStored(stored, p.name, o).table else stored
  }

  /** `q` is `p` up to the fields a start writes: pid, status and start time. */
  predicate SameConfiguration(q: ProcessInfo, p: ProcessInfo) {
    q.(pid := p.pid, status := p.status, start_time := p.start_time) == p
  }

  /**
   * What one loop entry leaves in `processes`: the decoded record itself when
   * it is not autostart, otherwise that record as the start of the stored
   * object left it; every other name keeps its record, or its absence.
   */
  lemma AdmitStores(t: Table, p: ProcessInfo, o: StartOracle)
    requires t.Valid()
    ensures var r := Admit(t, p, o);
      && (!p.autostart ==> r.processes == t.processes.Put(p.name, p))
      && (p.autostart ==> r.processes.m[p.name] == Start(Table(t.processes.Put(p.name, p), t.handles), p, o).info)
      && SameConfiguration(r.processes.m[p.name], p)
      && (forall n :: n != p.name ==> (n in r.processes.m <==> n in t.processes.m))
      && (forall n :: n != p.name && n in t.processes.m ==> r.processes.m[n] == t.processes.m[n])
  {
    var stored := Table(t.processes.Put(p.name, p), t.handles);
    assert stored.processes.m[p.name] == p;
  }

  datatype Loaded = Loaded(table: Table, error: Option<DecodeError>)

  /**
   * The loop of `load_config` over the already parsed `processes` entries,
   * admitting each decoded entry in turn. A decoding error ends the load there.
   */
  function Load(t: Table, configs: seq<Json>, oracles: seq<StartOracle>): (r: Loaded)
    requires t.Valid() && |oracles| == |configs|
    ensures r.table.Valid()
    decreases |configs|
  {
    if configs == [] then Loaded(t, None)
    else match FromDict(configs[0])
      case Err(e) => Loaded(t, Some(e))
      case Ok(p) => Load(Admit(t, p, oracles[0]), configs[1..], oracles[1..])
  }

  /** The load at entry `i`, unfolded by one step. */
  lemma LoadStep(t: Table, configs: seq<Json>, oracles: seq<StartOracle>, i: int)
    requires t.Valid() && |oracles| == |configs| && 0 <= i < |configs|
    ensures FromDict(configs[i]).Err? ==> Load(t, configs[i..], oracles[i..]) == Loaded(t, Some(FromDict(configs[i]).error))
    ensures FromDict(configs[i]).Ok? ==>
      Load(t, configs[i..], oracles[i..]) == Load(Admit(t, FromDict(configs[i]).value, oracles[i]), configs[i + 1..], oracles[i + 1..])
  {
    assert configs[i..][0] == configs[i] && configs[i..][1..] == configs[i + 1..];
    assert oracles[i..][0] == oracles[i] && oracles[i..][1..] == oracles[i + 1..];
  }

  /** A load reports an error exactly when some entry fails to decode. */
  lemma {:induction false} LoadError(t: Table, configs: seq<Json>, oracles: seq<StartOracle>)
    requires t.Valid() && |oracles| == |configs|
    ensures Load(t, configs, oracles).error.None? <==> forall i :: 0 <= i < |configs| ==> FromDict(configs[i]).Ok?
    decreases |configs|
  {
    if configs != [] && FromDict(configs[0]).Ok? {
      LoadError(Admit(t, FromDict(configs[0]).value, oracles[0]), configs[1..], oracles[1..]);
      assert forall i :: 1 <= i < |configs| ==> configs[1..][i - 1] == configs[i];
    }
  }

  /** The error a load reports is the decoding error of one of its entries. */
  lemma {:induction false} LoadErrorWitness(t: Table, configs: seq<Json>, oracles: seq<StartOracle>)
    requires t.Valid() && |oracles| == |configs|
    requires Load(t, configs, oracles).error.Some?
    ensures exists i :: 0 <= i < |configs| && FromDict(configs[i]) == Err(Load(t, configs, oracles).error.value)
    decreases |configs|
  {
    if FromDict(configs[0]).Ok? {
      var next := Admit(t, FromDict(configs[0]).value, oracles[0]);
      LoadErrorWitness(next, configs[1..], oracles[1..]);
      var i :| 0 <= i < |configs[1..]| && FromDict(configs[1..][i]) == Err(Load(next, configs[1..], oracles[1..]).error.value);
      assert configs[1..][i] == configs[i + 1];
    }
  }

  /**
   * Loading keeps every running record paired with a pid, provided the
   * configuration itself never lists a running record without one.
   */
  lemma {:induction false} LoadConsistent(t: Table, configs: seq<Json>, oracles: seq<StartOracle>)
    requires t.Valid() && |oracles| == |configs|
    requires Consistent(t)
    requires forall i :: 0 <= i < |configs| && FromDict(configs[i]).Ok? ==> RunningHasPid(FromDict(configs[i]).value)
    ensures Consistent(Load(t, configs, oracles).table)
    decreases |configs|
  {
    if configs != [] && FromDict(configs[0]).Ok? {
      assert forall i :: 1 <= i < |configs| ==> configs[1..][i - 1] == configs[i];
      LoadConsistent(Admit(t, FromDict(configs[0]).value, oracles[0]), configs[1..], oracles[1..]);
    }
  }

  /** Loading only ever creates or replaces the handle of an entry that decodes and is marked autostart. */
  lemma {:induction false} LoadStartsOnlyAutostart(t: Table, configs: seq<Json>, oracles: seq<StartOracle>, n: string)
    requires t.Valid() && |oracles| == |configs|
    requires forall i :: 0 <= i < |configs| && FromDict(configs[i]).Ok? && FromDict(configs[i]).value.name == n
               ==> !FromDict(configs[i]).value.autostart
    ensures n in Load(t, configs, oracles).table.handles.m <==> n in t.handles.m
    ensures n in t.handles.m ==> Load(t, configs, oracles).table.handles.m[n] == t.handles.m[n]
    decreases |configs|
  {
    if configs != [] && FromDict(configs[0]).Ok? {
      assert forall i :: 1 <= i < |configs| ==> configs[1..][i - 1] == configs[i];
      LoadStartsOnlyAutostart(Admit(t, FromDict(configs[0]).value, oracles[0]), configs[1..], oracles[1..], n);
    }
  }

  /** A name that no decoded entry carries keeps its record, or its absence, through a load. */
  lemma {:induction false} LoadUntouched(t: Table, configs: seq<Json>, oracles: seq<StartOracle>, n: string)
    requires t.Valid() && |oracles| == |configs|
    requires forall i :: 0 <= i < |configs| && FromDict(configs[i]).Ok? ==> FromDict(configs[i]).value.name != n
    ensures n in Load(t, configs, oracles).table.processes.m <==> n in t.processes.m
    ensures n in t.processes.m ==> Load(t, configs, oracles).table.processes.m[n] == t.processes.m[n]
    decreases |configs|
  {
    if configs != [] && FromDict(configs[0]).Ok? {
      var p := FromDict(configs[0]).value;
      AdmitStores(t, p, oracles[0]);
      assert forall i :: 1 <= i < |configs| ==> configs[1..][i - 1] == configs[i];
      LoadUntouched(Admit(t, p, oracles[0]), configs[1..], oracles[1..], n);
    }
  }

  /** A load never drops a stored name. */
  lemma {:induction false} LoadKeeps(t: Table, configs: seq<Json>, oracles: seq<StartOracle>, n: string)
    requires t.Valid() && |oracles| == |configs| && n in t.processes.m
    ensures n in Load(t, configs, oracles).table.processes.m
    decreases |configs|
  {
    if configs != [] && FromDict(configs[0]).Ok? {
      AdmitStores(t, FromDict(configs[0]).value, oracles[0]);
      LoadKeeps(Admit(t, FromDict(configs[0]).value, oracles[0]), configs[1..], oracles[1..], n);
    }
  }

  /** Every entry the load reaches and decodes has its name stored afterwards. */
  lemma {:induction false} LoadNames(t: Table, configs: seq<Json>, oracles: seq<StartOracle>, i: int)
    requires t.Valid() && |oracles| == |configs| && 0 <= i < |configs|
    requires forall j :: 0 <= j <= i ==> FromDict(configs[j]).Ok?
    ensures FromDict(configs[i]).value.name in Load(t, configs, oracles).table.processes.m
    decreases |configs|
  {
    var p := FromDict(configs[0]).value;
    var next := Admit(t, p, oracles[0]);
    if i > 0 {
      assert forall j :: 1 <= j < |configs| ==> configs[1..][j - 1] == configs[j];
      LoadNames(next, configs[1..], oracles[1..], i - 1);
    } else {
      LoadKeeps(next, configs[1..], oracles[1..], p.name);
    }
  }

  /**
   * After a load that reaches entry `i`, the name of the last decoded entry
   * carrying it holds that entry's configuration: the record itself when it is
   * not autostart, and the record with only pid, status and start time
   * written by its start otherwise.
   */
  lemma {:induction false} LoadLastWins(t: Table, configs: seq<Json>, oracles: seq<StartOracle>, i: int)
    requires t.Valid() && |oracles| == |configs| && 0 <= i < |configs|
    requires forall j :: 0 <= j <= i ==> FromDict(configs[j]).Ok?
    requires forall j :: i < j < |configs| && FromDict(configs[j]).Ok? ==>
               FromDict(configs[j]).value.name != FromDict(configs[i]).value.name
    ensures var p, r := FromDict(configs[i]).value, Load(t, configs, oracles).table;
      && p.name in r.processes.m
      && SameConfiguration(r.processes.m[p.name], p)
      && (!p.autostart ==> r.processes.m[p.name] == p)
    decreases |configs|
  {
    var p := FromDict(configs[0]).value;
    var next := Admit(t, p, oracles[0]);
    assert forall j :: 1 <= j < |configs| ==> configs[1..][j - 1] == configs[j];
    if i > 0 {
      LoadLastWins(next, configs[1..], oracles[1..], i - 1);
    } else {
      AdmitStores(t, p, oracles[0]);
      LoadUntouched(next, configs[1..], oracles[1..], p.name);
    }
  }

  /** `stop_process` on each name in turn, whatever each call returns. */
  function StopAll(t: Table, names: seq<string>, oracle: string -> StopOracle): (r: Table)
    requires t.Valid()
    ensures r.Valid()
    ensures r.handles == t.handles && r.processes.keys == t.processes.keys
    ensures Consistent(t) ==> Consistent(r)
    decreases |names|
  {
    if names == [] then t else StopAll(Stop(t, names[0], oracle(names[0])).table, names[1..], oracle)
  }

  /** Stopping the names from `i` on, unfolded by one step. */
  lemma StopAllStep(t: Table, names: seq<string>, oracle: string -> StopOracle, i: int)
    requires t.Valid() && 0 <= i < |names|
    ensures StopAll(t, names[i..], oracle) == StopAll(Stop(t, names[i], oracle(names[i])).table, names[i + 1..], oracle)
  {
    assert names[i..][0] == names[i] && names[i..][1..] == names[i + 1..];
  }

  /**
   * After stopping a list of names, a record is halted exactly when its name
   * is listed and its own stop succeeds; stopping twice is stopping once.
   */
  lemma {:induction false} StopAllEffect(t: Table, names: seq<string>, oracle: string -> StopOracle, n: string)
    requires t.Valid() && n in t.processes.m
    ensures n in StopAll(t, names, oracle).processes.m
    ensures StopAll(t, names, oracle).processes.m[n] ==
      if n in names && Stoppable(t, n, oracle(n)) then Halted(t.processes.m[n]) else t.processes.m[n]
    decreases |names|
  {
    if names != [] {
      var next := Stop(t, names[0], oracle(names[0])).table;
      StopAllEffect(next, names[1..], oracle, n);
      assert Stoppable(next, n, oracle(n)) == Stoppable(t, n, oracle(n));
      assert n in names <==> n == names[0] || n in names[1..];
      if n == names[0] && Stoppable(t, n, oracle(n)) {
        assert next.processes.m[n] == Halted(t.processes.m[n]);
        assert Halted(Halted(t.processes.m[n])) == Halted(t.processes.m[n]);
      } else {
        assert next.processes.m[n] == t.processes.m[n];
      }
    }
  }

  /** `cleanup()` halts exactly the records whose stop succeeds and leaves every other record as it was. */
  lemma CleanupEffect(t: Table, oracle: string -> StopOracle, n: string)
    requires t.Valid() && n in t.processes.m
    ensures StopAll(t, t.handles.keys, oracle).processes.m[n] ==
      if Stoppable(t, n, oracle(n)) then Halted(t.processes.m[n]) else t.processes.m[n]
  {
    StopAllEffect(t, t.handles.keys, oracle, n);
  }

  // ---------------------------------------------------------------------------
  // The table as an object updated in place

  class ProcessManager {
    var processes: Dict<string, ProcessInfo>
    var handles: Dict<string, Handle>

    ghost function State(): Table
      reads this
    {
      Table(processes, handles)
    }

    ghost predicate Valid()
      reads this
    {
      State().Valid()
    }

    constructor ()
      ensures Valid() && processes == Empty() && handles == Empty()
    {
      processes := Empty();
      handles := Empty();
    }

    /** `start_process(info)`; `updated` is `info` as the call leaves it. */
    method StartProcess(info: ProcessInfo, o: StartOracle) returns (ok: bool, updated: ProcessInfo)
      requires Valid()
      modifies this
      ensures Valid()
      ensures StartResult(ok, updated, State()) == Start(old(State()), info, o)
    {
      if info.name in handles.m && o.running {
        return false, info;
      }
      match o.spawn {
        case Spawned(pid) =>
          updated := Launched(info, pid, o.now);
          handles := handles.Put(info.name, Handle(pid, Split(info.command), info.working_dir));
          processes := processes.Put(info.name, updated);
          ok := true;
        case SpawnFailed(message) =>
          updated := SpawnError(info, message);
          ok := false;
      }
    }

    /** `stop_process(name)` */
    method StopProcess(name: string, o: StopOracle) returns (ok: bool)
      requires Valid()
      modifies this
      ensures Valid()
      ensures Step(ok, State()) == Stop(old(State()), name, o)
    {
      if name !in handles.m {
        return false;
      }
      if !o.running {
        return false;
      }
      if o.termination == SignalFailed {
        return false;
      }
      processes := processes.Put(name, Halted(processes.m[name]));
      return true;
    }

    /** `restart_process(name)` */
    method RestartProcess(name: string, stop: StopOracle, start: StartOracle) returns (ok: bool)
      requires Valid()
      modifies this
      ensures Valid()
      ensures Step(ok, State()) == Restart(old(State()), name, stop, start)
    {
      if name !in processes.m {
        return false;
      }
      ghost var before := State();
      var stopped := StopProcess(name, stop);
      ghost var halted := State();
      assert halted == Stop(before, name, stop).table;
      var updated;
      ok, updated := StartProcess(processes.m[name], start);
      ghost var s := Start(halted, halted.processes.m[name], start);
      assert ok == s.ok && updated == s.info && State() == s.table;
      processes := processes.Put(name, updated);
      assert Step(ok, State()) == StartStored(halted, name, start);
    }

    /** `update_process_stats(name)` */
    method UpdateProcessStats(name: string, s: Sample)
      requires Valid()
      modifies this
      ensures Valid()
      ensures State() == UpdateStats(old(State()), name, s)
    {
      if name !in processes.m || !HasPid(processes.m[name]) {
        return;
      }
      match s {
        case Sampled(cpu, memory) =>
          processes := processes.Put(name, processes.m[name].(cpu_percent := cpu, memory_percent := memory));
        case NoSuchProcess =>
          processes := processes.Put(name, Died(processes.m[name]));
      }
    }

    /** `get_process_info(name)` */
    function GetProcessInfo(name: string): (r: Option<ProcessInfo>)
      reads this
      requires Valid()
      ensures r.Some? <==> name in processes.m
      ensures r.Some? ==> r.value.name == name && r.value == processes.m[name]
    {
      processes.Get(name)
    }

    /** `get_all_processes()`: the stored records in insertion order, no name twice. */
    function GetAllProcesses(): (r: seq<ProcessInfo>)
      reads this
      requires Valid()
      ensures |r| == |processes.keys|
      ensures forall i :: 0 <= i < |r| ==> r[i] == processes.m[processes.keys[i]] && r[i].name == processes.keys[i]
      ensures forall i, j :: 0 <= i < j < |r| ==> r[i].name != r[j].name
    {
      processes.Values()
    }

    /** One iteration of the `load_config` loop: store the record, and start the stored object if autostart. */
    method AdmitEntry(p: ProcessInfo, o: StartOracle)
      requires Valid()
      modifies this
      ensures Valid()
      ensures State() == Admit(old(State()), p, o)
    {
      processes := processes.Put(p.name, p);
      if p.autostart {
        ghost var stored := State();
        var started, updated := StartProcess(p, o);
        processes := processes.Put(p.name, updated);
        assert Step(started, State()) == StartStored(stored, p.name, o);
      }
    }

    /** The loop of `load_config` over the parsed `processes` entries. */
    method LoadConfig(configs: seq<Json>, oracles: seq<StartOracle>) returns (error: Option<DecodeError>)
      requires Valid() && |oracles| == |configs|
      modifies this
      ensures Valid()
      ensures Loaded(State(), error) == Load(old(State()), configs, oracles)
    {
      var i := 0;
      while i < |configs|
        invariant 0 <= i <= |configs|
        invariant Valid()
        invariant Load(old(State()), configs, oracles) == Load(State(), configs[i..], oracles[i..])
      {
        LoadStep(State(), configs, oracles, i);
        match FromDict(configs[i]) {
          case Err(e) =>
            return Some(e);
          case Ok(p) =>
            AdmitEntry(p, oracles[i]);
        }
        i := i + 1;
      }
      return None;
    }

    /** `cleanup()`: `stop_process` on every name that has a handle, in handle order. */
    method Cleanup(oracle: string -> StopOracle)
      requires Valid()
      modifies this
      ensures Valid()
      ensures State() == StopAll(old(State()), old(handles.keys), oracle)
    {
      var names := handles.keys;
      var i := 0;
      while i < |names|
        invariant 0 <= i <= |names|
        invariant Valid()
        invariant StopAll(old(State()), names, oracle) == StopAll(State(), names[i..], oracle)
      {
        StopAllStep(State(), names, oracle, i);
        var stopped := StopProcess(names[i], oracle(names[i]));
        i := i + 1;
      }
    }
  }
}
