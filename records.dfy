/**
 * The process record (`ProcessInfo`) and its dictionary form.
 *
 * The dictionary form is what travels over HTTP as JSON and what the
 * configuration files hold. Floating-point fields are carried as `real`:
 * the record only stores them, it never computes with them, except for the
 * derived `uptime` entry, which needs the current time and therefore takes it
 * as a parameter.
 */
module Records {
  import opened Wrappers

  /** A value that can stand in a decoded JSON object. */
  datatype Value = Null | Bool(b: bool) | Int(i: int) | Real(r: real) | Str(s: string)

  /** A decoded JSON object, as Python's `Dict[str, Any]`. */
  type Json = map<string, Value>

  datatype ProcessInfo = ProcessInfo(
    name: string,
    command: string,
    working_dir: string,
    autostart: bool,
    pid: Option<int>,
    cpu_percent: real,
    memory_percent: real,
    status: string,
    start_time: Option<real>,
    host: string)

  /** The keys `from_dict` cannot do without. */
  const RequiredKeys: set<string> := {"name", "command", "working_dir"}

  /** The ten stored fields, which `to_dict` writes and `from_dict` reads. */
  const FieldKeys: set<string> :=
    RequiredKeys + {"autostart", "pid", "cpu_percent", "memory_percent", "status", "start_time", "host"}

  /**
   * The dataclass constructor with only the three required fields and,
   * optionally, the host: every other field takes its declared default.
   */
  function NewProcessInfo(name: string, command: string, working_dir: string, host: string := "localhost"): (p: ProcessInfo)
  {
    ProcessInfo(name, command, working_dir, false, None, 0.0, 0.0, "stopped", None, host)
  }

  /** The default-valued fields of a freshly built record. */
  lemma NewProcessInfoDefaults(name: string, command: string, working_dir: string)
    ensures var p := NewProcessInfo(name, command, working_dir);
      && p.name == name && p.command == command && p.working_dir == working_dir
      && !p.autostart && p.pid == None && p.cpu_percent == 0.0 && p.memory_percent == 0.0
      && p.status == "stopped" && p.start_time == None && p.host == "localhost"
  {
  }

  function IntOrNull(o: Option<int>): Value {
    if o.Some? then Int(o.value) else Null
  }

  function RealOrNull(o: Option<real>): Value {
    if o.Some? then Real(o.value) else Null
  }

  /**
   * The derived `uptime` entry: seconds since `start_time`, or the integer 0
   * when `start_time` is falsy (absent, or exactly 0.0).
   */
  function Uptime(start_time: Option<real>, now: real): Value {
    if start_time.Some? && start_time.value != 0.0 then Real(now - start_time.value) else Int(0)
  }

  /** `to_dict()`, read at time `now`. */
  function ToDict(p: ProcessInfo, now: real): (d: Json)
  {
    map[
      "name" := Str(p.name),
      "command" := Str(p.command),
      "working_dir" := Str(p.working_dir),
      "autostart" := Bool(p.autostart),
      "pid" := IntOrNull(p.pid),
      "cpu_percent" := Real(p.cpu_percent),
      "memory_percent" := Real(p.memory_percent),
      "status" := Str(p.status),
      "start_time" := RealOrNull(p.start_time),
      "host" := Str(p.host),
      "uptime" := Uptime(p.start_time, now)
    ]
  }

  /** The dictionary holds exactly the ten fields and `uptime`, which is the integer 0 without a start time. */
  lemma ToDictKeys(p: ProcessInfo, now: real)
    ensures ToDict(p, now).Keys == FieldKeys + {"uptime"}
    ensures p.start_time == None ==> ToDict(p, now)["uptime"] == Int(0)
  {
  }

  /** Why `from_dict` rejects a dictionary. */
  datatype DecodeError =
    | MissingKey(key: string)   // `data[key]` raises KeyError
    | IllTyped(key: string)     // the value has the wrong kind for the field

  /** `data[k]` for a string field. */
  function RequiredStr(d: Json, k: string): (r: Result<string, DecodeError>)
    ensures r.Ok? ==> k in d && d[k] == Str(r.value)
    ensures r.Err? ==> r.error == (if k in d then IllTyped(k) else MissingKey(k))
  {
    if k !in d then Err(MissingKey(k))
    else if d[k].Str? then Ok(d[k].s)
    else Err(IllTyped(k))
  }

  /** `data.get(k, default)` for a string field. */
  function StrOr(d: Json, k: string, default: string): (r: Result<string, DecodeError>)
  {
    if k !in d then Ok(default)
    else if d[k].Str? then Ok(d[k].s)
    else Err(IllTyped(k))
  }

  /** `data.get(k, default)` for a boolean field. */
  function BoolOr(d: Json, k: string, default: bool): (r: Result<bool, DecodeError>)
  {
    if k !in d then Ok(default)
    else if d[k].Bool? then Ok(d[k].b)
    else Err(IllTyped(k))
  }

  /** `data.get(k, default)` for a float field; an integer is accepted as a number. */
  function RealOr(d: Json, k: string, default: real): (r: Result<real, DecodeError>)
  {
    if k !in d then Ok(default)
    else match d[k]
      case Real(x) => Ok(x)
      case Int(i) => Ok(i as real)
      case _ => Err(IllTyped(k))
  }

  /** `data.get(k)` for an `Optional[int]` field: absent and null both give None. */
  function IntOrNone(d: Json, k: string): (r: Result<Option<int>, DecodeError>)
  {
    if k !in d then Ok(None)
    else match d[k]
      case Null => Ok(None)
      case Int(i) => Ok(Some(i))
      case _ => Err(IllTyped(k))
  }

  /** `data.get(k)` for an `Optional[float]` field: absent and null both give None. */
  function RealOrNone(d: Json, k: string): (r: Result<Option<real>, DecodeError>)
  {
    if k !in d then Ok(None)
    else match d[k]
      case Null => Ok(None)
      case Real(x) => Ok(Some(x))
      case Int(i) => Ok(Some(i as real))
      case _ => Err(IllTyped(k))
  }

  /**
   * `from_dict(data)`: the three required keys are read with `data[...]`, the
   * other seven with `.get` and the dataclass defaults. Keyword arguments are
   * evaluated in order, so the first failing key, in field order, is reported.
   */
  function FromDict(d: Json): (r: Result<ProcessInfo, DecodeError>)
    ensures "name" !in d ==> r == Err(MissingKey("name"))
    ensures r.Ok? ==> RequiredKeys <= d.Keys
    ensures r.Ok? ==> d["name"] == Str(r.value.name) && d["command"] == Str(r.value.command)
                      && d["working_dir"] == Str(r.value.working_dir)
  {
    var name :- RequiredStr(d, "name");
    var command :- RequiredStr(d, "command");
    var working_dir :- RequiredStr(d, "working_dir");
    var autostart :- BoolOr(d, "autostart", false);
    var pid :- IntOrNone(d, "pid");
    var cpu_percent :- RealOr(d, "cpu_percent", 0.0);
    var memory_percent :- RealOr(d, "memory_percent", 0.0);
    var status :- StrOr(d, "status", "stopped");
    var start_time :- RealOrNone(d, "start_time");
    var host :- StrOr(d, "host", "localhost");
    Ok(ProcessInfo(name, command, working_dir, autostart, pid, cpu_percent, memory_percent, status, start_time, host))
  }

  /** Decoding fails only on a missing required key or an ill-typed field that is present. */
  lemma FromDictErrors(d: Json)
    ensures var r := FromDict(d);
      && (r.Err? && r.error.MissingKey? ==> r.error.key in RequiredKeys && r.error.key !in d)
      && (r.Err? && r.error.IllTyped? ==> r.error.key in FieldKeys && r.error.key in d)
  {
  }

  /** Every absent optional key takes the dataclass default, and every present one is carried over (an integer in a float field as its `float` value). */
  lemma FromDictDefaults(d: Json)
    requires FromDict(d).Ok?
    ensures var p := FromDict(d).value;
      && ("autostart" !in d ==> !p.autostart)
      && ("pid" !in d ==> p.pid == None)
      && ("cpu_percent" !in d ==> p.cpu_percent == 0.0)
      && ("memory_percent" !in d ==> p.memory_percent == 0.0)
      && ("status" !in d ==> p.status == "stopped")
      && ("start_time" !in d ==> p.start_time == None)
      && ("host" !in d ==> p.host == "localhost")
      && ("autostart" in d ==> d["autostart"] == Bool(p.autostart))
      && ("status" in d ==> d["status"] == Str(p.status))
      && ("host" in d ==> d["host"] == Str(p.host))
      && ("pid" in d ==> d["pid"] == IntOrNull(p.pid))
      && ("cpu_percent" in d ==>
            d["cpu_percent"] == Real(p.cpu_percent) || (d["cpu_percent"].Int? && d["cpu_percent"].i as real == p.cpu_percent))
      && ("memory_percent" in d ==>
            d["memory_percent"] == Real(p.memory_percent) || (d["memory_percent"].Int? && d["memory_percent"].i as real == p.memory_percent))
      && ("start_time" in d ==>
            d["start_time"] == RealOrNull(p.start_time) || (d["start_time"].Int? && p.start_time == Some(d["start_time"].i as real)))
  {
  }

  /** Decoding an encoded record gives the record back; the derived `uptime` entry is ignored. */
  lemma RoundTrip(p: ProcessInfo, now: real)
    ensures FromDict(ToDict(p, now)) == Ok(p)
  {
    var d := ToDict(p, now);
    assert RequiredStr(d, "name") == Ok(p.name);
    assert RequiredStr(d, "command") == Ok(p.command);
    assert RequiredStr(d, "working_dir") == Ok(p.working_dir);
    assert BoolOr(d, "autostart", false) == Ok(p.autostart);
    assert IntOrNone(d, "pid") == Ok(p.pid);
    assert RealOr(d, "cpu_percent", 0.0) == Ok(p.cpu_percent);
    assert RealOr(d, "memory_percent", 0.0) == Ok(p.memory_percent);
    assert StrOr(d, "status", "stopped") == Ok(p.status);
    assert RealOrNone(d, "start_time") == Ok(p.start_time);
    assert StrOr(d, "host", "localhost") == Ok(p.host);
  }

  /** `d` and `e` hold the same entry, or both lack one, for key `k`. */
  ghost predicate AgreeOn(d: Json, e: Json, k: string) {
    (k in d <==> k in e) && (k in d ==> d[k] == e[k])
  }

  /** Two dictionaries that agree on the ten field keys decode alike: no other key is read. */
  lemma FromDictReadsOnlyFields(d: Json, e: Json)
    requires forall k :: k in FieldKeys ==> AgreeOn(d, e, k)
    ensures FromDict(d) == FromDict(e)
  {
    assert AgreeOn(d, e, "name") && AgreeOn(d, e, "command") && AgreeOn(d, e, "working_dir");
    assert AgreeOn(d, e, "autostart") && AgreeOn(d, e, "pid") && AgreeOn(d, e, "cpu_percent");
    assert AgreeOn(d, e, "memory_percent") && AgreeOn(d, e, "status") && AgreeOn(d, e, "start_time");
    assert AgreeOn(d, e, "host");
    assert RequiredStr(d, "name") == RequiredStr(e, "name");
    assert RequiredStr(d, "command") == RequiredStr(e, "command");
    assert RequiredStr(d, "working_dir") == RequiredStr(e, "working_dir");
    assert BoolOr(d, "autostart", false) == BoolOr(e, "autostart", false);
    assert IntOrNone(d, "pid") == IntOrNone(e, "pid");
    assert RealOr(d, "cpu_percent", 0.0) == RealOr(e, "cpu_percent", 0.0);
    assert RealOr(d, "memory_percent", 0.0) == RealOr(e, "memory_percent", 0.0);
    assert StrOr(d, "status", "stopped") == StrOr(e, "status", "stopped");
    assert RealOrNone(d, "start_time") == RealOrNone(e, "start_time");
    assert StrOr(d, "host", "localhost") == StrOr(e, "host", "localhost");
  }

  /** Adding or changing a key outside the ten fields never changes what `from_dict` returns. */
  lemma FromDictIgnoresExtraKey(d: Json, k: string, v: Value)
    requires k !in FieldKeys
    ensures FromDict(d[k := v]) == FromDict(d)
  {
    FromDictReadsOnlyFields(d[k := v], d);
  }

  /** A dictionary holding only the three required strings decodes to a freshly built record. */
  lemma FromDictMinimal(name: string, command: string, working_dir: string)
    ensures FromDict(map["name" := Str(name), "command" := Str(command), "working_dir" := Str(working_dir)])
         == Ok(NewProcessInfo(name, command, working_dir))
  {
  }
}
