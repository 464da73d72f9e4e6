/**
 * The coordinator (`Sheriff`): a registry hostname -> base URL of the
 * deputies, and a mirror name -> record of the fleet's processes.
 *
 * Every HTTP exchange is an input value: a status code with the decoded JSON
 * body, or a connection error. Each operation also returns the request(s) it
 * sends, so that "no request is sent" and "the request goes to the owning
 * deputy" can be stated. Registry order is Python's dict insertion order.
 */
module Coordinator {
  import opened Wrappers
  import opened Dicts
  import opened Records

  /** The reply to one HTTP request: a status code and decoded body, or a `requests.RequestException`. */
  datatype Reply<T> = Response(code: int, body: T) | ConnectionError(message: string)

  /**
   * A request the Sheriff sends to a deputy: a GET, a POST without a body, or
   * a POST whose JSON body is the dictionary form of `record` read at time `at`.
   */
  datatype Request = Get(url: string) | Post(url: string) | PostRecord(url: string, record: ProcessInfo, at: real)

  /** The JSON body a request carries. */
  function Body(q: Request): Option<Json> {
    if q.PostRecord? then Some(ToDict(q.record, q.at)) else None
  }

  /** The deputy decodes a start request's body back to the record that was posted. */
  lemma BodyDecodes(q: Request)
    requires q.PostRecord?
    ensures Body(q).Some? && FromDict(Body(q).value) == Ok(q.record)
  {
    RoundTrip(q.record, q.at);
  }

  /** How a call ends: it returns a value, or an exception escapes it (a `KeyError` from decoding). */
  datatype Outcome<T> = Returned(value: T) | Raised(error: DecodeError)

  predicate IsOk<T>(reply: Reply<T>) {
    reply.Response? && reply.code == 200
  }

  // ---------------------------------------------------------------------------
  // The registry

  /** `url if url.startswith('http') else f'http://{url}'` */
  function NormalizeUrl(url: string): (r: string)
    ensures "http" <= r
    ensures "http" <= url ==> r == url
    ensures !("http" <= url) ==> r == "http://" + url
  {
    if "http" <= url then url else "http://" + url
  }

  /** Normalising twice is normalising once. */
  lemma NormalizeIdempotent(url: string)
    ensures NormalizeUrl(NormalizeUrl(url)) == NormalizeUrl(url)
  {
  }

  datatype Registered = Registered(result: Outcome<bool>, deputies: Dict<string, string>, request: Request)

  /**
   * `add_deputy(url)`: probe `<url>/health`; on a 200 reply register the
   * hostname the deputy reports (overwriting an earlier entry). A 200 reply
   * without a hostname raises `KeyError`, which escapes the call.
   */
  function Register(deputies: Dict<string, string>, url: string, reply: Reply<Json>): (r: Registered)
    requires deputies.Valid()
    ensures r.deputies.Valid()
    ensures r.request == Get(NormalizeUrl(url) + "/health")
    ensures r.result == Returned(true) <==> IsOk(reply) && "hostname" in reply.body && reply.body["hostname"].Str?
    ensures r.result == Returned(true) ==> r.deputies == deputies.Put(reply.body["hostname"].s, NormalizeUrl(url))
    ensures r.result != Returned(true) ==> r.deputies == deputies
    ensures !IsOk(reply) ==> r.result == Returned(false)
    ensures IsOk(reply) && "hostname" !in reply.body ==> r.result == Raised(MissingKey("hostname"))
    ensures r.result.Raised? <==> Raises(reply)
  {
    var u := NormalizeUrl(url);
    var request := Get(u + "/health");
    if !IsOk(reply) then Registered(Returned(false), deputies, request)
    else if "hostname" !in reply.body then Registered(Raised(MissingKey("hostname")), deputies, request)
    else match reply.body["hostname"]
      case Str(h) => Registered(Returned(true), deputies.Put(h, u), request)
      case _ => Registered(Raised(IllTyped("hostname")), deputies, request)
  }

  /** `add_deputy` raises on this reply: a 200 whose body has no string `hostname`. */
  predicate Raises(reply: Reply<Json>) {
    IsOk(reply) && !("hostname" in reply.body && reply.body["hostname"].Str?)
  }

  // ---------------------------------------------------------------------------
  // The mirror

  /** The mirror holds every record under its own name. */
  ghost predicate MirrorValid(mirror: Dict<string, ProcessInfo>) {
    mirror.Valid() && forall n :: n in mirror.m ==> mirror.m[n].name == n
  }

  /** The mirror comprehension of `remove_deputy`: keep the records whose host differs. */
  function DropHost(mirror: Dict<string, ProcessInfo>, hostname: string): (r: Dict<string, ProcessInfo>)
    requires MirrorValid(mirror)
    ensures MirrorValid(r)
    ensures forall n :: n in r.m <==> n in mirror.m && mirror.m[n].host != hostname
    ensures forall n :: n in r.m ==> r.m[n] == mirror.m[n]
    ensures forall n :: n in r.m ==> r.m[n].host != hostname
  {
    mirror.Where((p: ProcessInfo) => p.host != hostname)
  }

  /** A command can be routed: the name is mirrored and its host is registered. */
  predicate Routable(deputies: Dict<string, string>, mirror: Dict<string, ProcessInfo>, name: string) {
    name in mirror.m && mirror.m[name].host in deputies.m
  }

  /** The base URL of the deputy that owns `name`. */
  function Route(deputies: Dict<string, string>, mirror: Dict<string, ProcessInfo>, name: string): string
    requires Routable(deputies, mirror, name)
  {
    deputies.m[mirror.m[name].host]
  }

  datatype Dispatch = Dispatch(ok: bool, mirror: Dict<string, ProcessInfo>, request: Option<Request>)

  /**
   * `start_process(info)`: nothing is sent when the host is not registered;
   * otherwise the record is posted to its deputy, and stored in the mirror only
   * on a 200 reply.
   */
  function Launch(deputies: Dict<string, string>, mirror: Dict<string, ProcessInfo>, info: ProcessInfo,
                  reply: Reply<()>, now: real): (r: Dispatch)
    requires MirrorValid(mirror)
    ensures MirrorValid(r.mirror)
    ensures info.host !in deputies.m ==> r == Dispatch(false, mirror, None)
    ensures info.host in deputies.m ==>
      r.request == Some(PostRecord(deputies.m[info.host] + "/process/start", info, now))
    ensures r.ok <==> info.host in deputies.m && IsOk(reply)
    ensures r.ok ==> r.mirror == mirror.Put(info.name, info)
    ensures !r.ok ==> r.mirror == mirror
  {
    if info.host !in deputies.m then Dispatch(false, mirror, None)
    else
      var request := PostRecord(deputies.m[info.host] + "/process/start", info, now);
      if IsOk(reply) then Dispatch(true, mirror.Put(info.name, info), Some(request))
      else Dispatch(false, mirror, Some(request))
  }

  // ---------------------------------------------------------------------------
  // Fan-out: `get_all_processes`

  /** `[ProcessInfo.from_dict(x) for x in body]`: the first entry that fails to decode raises. */
  function DecodeAll(body: seq<Json>): Result<seq<ProcessInfo>, DecodeError>
    decreases |body|
  {
    if body == [] then Ok([])
    else
      var p :- FromDict(body[0]);
      var rest :- DecodeAll(body[1..]);
      Ok([p] + rest)
  }

  /** The list decodes exactly when every entry does, entry by entry; otherwise the error is the first failing entry's. */
  lemma {:induction false} DecodeAllMeaning(body: seq<Json>)
    ensures DecodeAll(body).Ok? <==> forall i :: 0 <= i < |body| ==> FromDict(body[i]).Ok?
    ensures DecodeAll(body).Ok? ==>
      |DecodeAll(body).value| == |body| && forall i :: 0 <= i < |body| ==> FromDict(body[i]) == Ok(DecodeAll(body).value[i])
    ensures DecodeAll(body).Err? ==>
      exists i :: 0 <= i < |body| && FromDict(body[i]) == Err(DecodeAll(body).error) && FirstFailure(body, i)
    decreases |body|
  {
    if body != [] {
      DecodeAllMeaning(body[1..]);
      var r := DecodeAll(body);
      if FromDict(body[0]).Err? {
        assert FirstFailure(body, 0);
      } else {
        var p := FromDict(body[0]).value;
        var rest := DecodeAll(body[1..]);
        if rest.Ok? {
          forall i | 0 <= i < |body|
            ensures FromDict(body[i]) == Ok(r.value[i])
          {
            if i > 0 {
              assert body[1..][i - 1] == body[i];
            }
          }
        } else {
          var i :| 0 <= i < |body[1..]| && FromDict(body[1..][i]) == Err(rest.error) && FirstFailure(body[1..], i);
          forall k | 0 <= k < i + 1
            ensures FromDict(body[k]).Ok?
          {
            if k > 0 {
              assert body[1..][k - 1] == body[k];
            }
          }
          assert FromDict(body[i + 1]) == Err(r.error);
        }
      }
    }
  }

  /** Every entry before `i` decodes. */
  ghost predicate FirstFailure(body: seq<Json>, i: int)
    requires 0 <= i <= |body|
  {
    forall k :: 0 <= k < i ==> FromDict(body[k]).Ok?
  }

  /** What one deputy adds to the fan-out: its decoded list on a 200 reply, nothing on any other outcome. */
  function Contribution(reply: Reply<seq<Json>>): Result<seq<ProcessInfo>, DecodeError> {
    if IsOk(reply) then DecodeAll(reply.body) else Ok([])
  }

  /** `acc` followed by what `o` returns. */
  function Prepend(acc: seq<ProcessInfo>, o: Outcome<seq<ProcessInfo>>): Outcome<seq<ProcessInfo>> {
    match o
    case Returned(ps) => Returned(acc + ps)
    case Raised(e) => Raised(e)
  }

  /** The fan-out over the registry, one reply per deputy in registry order. */
  function Gather(replies: seq<Reply<seq<Json>>>): Outcome<seq<ProcessInfo>>
    decreases |replies|
  {
    if replies == [] then Returned([])
    else match Contribution(replies[0])
      case Err(e) => Raised(e)
      case Ok(ps) => Prepend(ps, Gather(replies[1..]))
  }

  /** The requests of a full fan-out: one `GET <url>/processes` per registered deputy, in registry order. */
  function ListRequests(deputies: Dict<string, string>): (r: seq<Request>)
    requires deputies.Valid()
    ensures |r| == |deputies.keys|
    ensures forall k :: 0 <= k < |r| ==> deputies.keys[k] in deputies.m && r[k] == Get(deputies.m[deputies.keys[k]] + "/processes")
  {
    seq(|deputies.keys|, k requires 0 <= k < |deputies.keys| && deputies.keys[k] in deputies.m =>
      Get(deputies.m[deputies.keys[k]] + "/processes"))
  }

  /** One deputy's step of the fan-out, after the records `acc` of the deputies before it. */
  lemma GatherStep(replies: seq<Reply<seq<Json>>>, i: int, acc: seq<ProcessInfo>)
    requires 0 <= i < |replies|
    ensures Contribution(replies[i]).Err? ==>
      Prepend(acc, Gather(replies[i..])) == Raised(Contribution(replies[i]).error)
    ensures Contribution(replies[i]).Ok? ==>
      Prepend(acc, Gather(replies[i..])) == Prepend(acc + Contribution(replies[i]).value, Gather(replies[i + 1..]))
  {
    assert replies[i..][0] == replies[i] && replies[i..][1..] == replies[i + 1..];
    match Contribution(replies[i]) {
      case Err(e) =>
      case Ok(ps) =>
        match Gather(replies[i + 1..]) {
          case Returned(qs) => assert acc + (ps + qs) == (acc + ps) + qs;
          case Raised(e) =>
        }
    }
  }

  /** `acc` followed by a decoding result. */
  function Extend(acc: seq<ProcessInfo>, r: Result<seq<ProcessInfo>, DecodeError>): Result<seq<ProcessInfo>, DecodeError> {
    match r
    case Ok(ps) => Ok(acc + ps)
    case Err(e) => Err(e)
  }

  /** Decoding a list from entry `j` on, after the records `acc`, unfolded by one step. */
  lemma DecodeAllStep(body: seq<Json>, j: int, acc: seq<ProcessInfo>)
    requires 0 <= j < |body|
    ensures FromDict(body[j]).Err? ==> Extend(acc, DecodeAll(body[j..])) == Err(FromDict(body[j]).error)
    ensures FromDict(body[j]).Ok? ==>
      Extend(acc, DecodeAll(body[j..])) == Extend(acc + [FromDict(body[j]).value], DecodeAll(body[j + 1..]))
  {
    assert body[j..][0] == body[j] && body[j..][1..] == body[j + 1..];
    if FromDict(body[j]).Ok? {
      var p := FromDict(body[j]).value;
      match DecodeAll(body[j + 1..]) {
        case Ok(ps) => assert acc + ([p] + ps) == (acc + [p]) + ps;
        case Err(e) =>
      }
    }
  }

  /** Decoding a list before its first entry and after its last. */
  lemma DecodeAllEnds(body: seq<Json>, acc: seq<ProcessInfo>)
    ensures Extend([], DecodeAll(body)) == DecodeAll(body)
    ensures Extend(acc, DecodeAll(body[|body|..])) == Ok(acc)
  {
    match DecodeAll(body) {
      case Ok(ps) => assert [] + ps == ps;
      case Err(e) =>
    }
    assert body[|body|..] == [];
    assert acc + [] == acc;
  }

  /** The fan-out before its first deputy and after its last. */
  lemma GatherEnds(replies: seq<Reply<seq<Json>>>, acc: seq<ProcessInfo>)
    ensures Prepend([], Gather(replies)) == Gather(replies)
    ensures Prepend(acc, Gather(replies[|replies|..])) == Returned(acc)
  {
    match Gather(replies) {
      case Returned(ps) => assert [] + ps == ps;
      case Raised(e) =>
    }
    assert replies[|replies|..] == [];
    assert acc + [] == acc;
  }

  /** The outcome of two fan-outs run one after the other. */
  function Then(a: Outcome<seq<ProcessInfo>>, b: Outcome<seq<ProcessInfo>>): Outcome<seq<ProcessInfo>> {
    match a
    case Raised(e) => Raised(e)
    case Returned(ps) => Prepend(ps, b)
  }

  /** Fan-out is concatenation: the records of a longer registry are those of its parts, in order. */
  lemma {:induction false} GatherAppend(a: seq<Reply<seq<Json>>>, b: seq<Reply<seq<Json>>>)
    ensures Gather(a + b) == Then(Gather(a), Gather(b))
    decreases |a|
  {
    if a == [] {
      assert a + b == b;
      match Gather(b) {
        case Returned(ps) => assert [] + ps == ps;
        case Raised(e) =>
      }
    } else {
      assert (a + b)[0] == a[0] && (a + b)[1..] == a[1..] + b;
      GatherAppend(a[1..], b);
      match Contribution(a[0]) {
        case Err(e) =>
        case Ok(ps) =>
          match Gather(a[1..]) {
            case Raised(e) =>
            case Returned(qs) =>
              match Gather(b) {
                case Raised(e) =>
                case Returned(rs) => assert ps + (qs + rs) == (ps + qs) + rs;
              }
          }
      }
    }
  }

  /** Every record the fan-out returns was decoded from the body of a deputy that replied 200. */
  lemma {:induction false} GatherSources(replies: seq<Reply<seq<Json>>>, p: ProcessInfo)
    requires Gather(replies).Returned? && p in Gather(replies).value
    ensures exists i, j :: 0 <= i < |replies| && IsOk(replies[i]) && 0 <= j < |replies[i].body|
                           && FromDict(replies[i].body[j]) == Ok(p)
    decreases |replies|
  {
    var ps := Contribution(replies[0]).value;
    var rest := Gather(replies[1..]).value;
    assert Gather(replies).value == ps + rest;
    if p in ps {
      assert IsOk(replies[0]);
      DecodeAllMeaning(replies[0].body);
      var j :| 0 <= j < |ps| && ps[j] == p;
      assert FromDict(replies[0].body[j]) == Ok(p);
    } else {
      GatherSources(replies[1..], p);
      var i, j :| 0 <= i < |replies[1..]| && IsOk(replies[1..][i]) && 0 <= j < |replies[1..][i].body|
                  && FromDict(replies[1..][i].body[j]) == Ok(p);
      assert replies[1..][i] == replies[i + 1];
    }
  }

  // ---------------------------------------------------------------------------
  // Health classification

  function DigitChar(d: nat): char
    requires d < 10
  {
    "0123456789"[d]
  }

  /** The decimal digits of `n`, as `str(n)` writes them. */
  function NatToString(n: nat): (s: string)
    ensures |s| >= 1
    ensures forall i :: 0 <= i < |s| ==> '0' <= s[i] <= '9'
    ensures n > 0 ==> s[0] != '0'
    decreases n
  {
    if n < 10 then [DigitChar(n)] else NatToString(n / 10) + [DigitChar(n % 10)]
  }

  /** `str(i)` */
  function IntToString(i: int): string {
    if i < 0 then "-" + NatToString(-i) else NatToString(i)
  }

  /** The number a string of decimal digits denotes. */
  function DigitsValue(s: string): nat
    requires forall i :: 0 <= i < |s| ==> '0' <= s[i] <= '9'
    decreases |s|
  {
    if s == [] then 0 else DigitsValue(s[..|s| - 1]) * 10 + (s[|s| - 1] as int - '0' as int)
  }

  /** Reading the digits back gives the number. */
  lemma {:induction false} DigitsRoundTrip(n: nat)
    ensures DigitsValue(NatToString(n)) == n
    decreases n
  {
    var s := NatToString(n);
    if n < 10 {
      assert s[..|s| - 1] == [];
    } else {
      DigitsRoundTrip(n / 10);
      assert s[..|s| - 1] == NatToString(n / 10);
    }
  }

  /** The status of one deputy in `get_deputy_status`. */
  function Classify(reply: Reply<Json>): (s: string)
    ensures s == "healthy" <==> IsOk(reply)
    ensures reply.Response? && reply.code != 200 ==> s == "unhealthy (status: " + IntToString(reply.code) + ")"
    ensures reply.ConnectionError? ==> s == "unreachable (" + reply.message + ")"
  {
    match reply
    case Response(code, _) =>
      if code == 200 then "healthy"
      else
        var s := "unhealthy (status: " + IntToString(code) + ")";
        assert s[0] == 'u';
        s
    case ConnectionError(message) =>
      var s := "unreachable (" + message + ")";
      assert s[0] == 'u';
      s
  }

  /** The status of a deputy that answers with any code other than 200 names that code. */
  lemma UnhealthyNamesCode(reply: Reply<Json>)
    requires reply.Response? && reply.code != 200 && reply.code >= 0
    ensures var s := Classify(reply);
      exists digits :: s == "unhealthy (status: " + digits + ")"
        && (forall i :: 0 <= i < |digits| ==> '0' <= digits[i] <= '9') && DigitsValue(digits) == reply.code
  {
    DigitsRoundTrip(reply.code);
    var digits := NatToString(reply.code);
    assert Classify(reply) == "unhealthy (status: " + digits + ")";
  }

  datatype DeputyStatus = DeputyStatus(hostname: string, url: string, status: string)

  // ---------------------------------------------------------------------------
  // The poll tick: last writer wins

  /** `for p in fetched: self.processes[p.name] = p` */
  function Merge(mirror: Dict<string, ProcessInfo>, fetched: seq<ProcessInfo>): (r: Dict<string, ProcessInfo>)
    requires MirrorValid(mirror)
    ensures MirrorValid(r)
    decreases |fetched|
  {
    if fetched == [] then mirror else Merge(mirror.Put(fetched[0].name, fetched[0]), fetched[1..])
  }

  /** `fetched[i]` is the last fetched record with its name. */
  ghost predicate LastWithName(fetched: seq<ProcessInfo>, i: int) {
    0 <= i < |fetched| && forall j :: i < j < |fetched| ==> fetched[j].name != fetched[i].name
  }

  /** A poll tick keeps every mirrored name and adds exactly the reported ones. */
  lemma {:induction false} MergeNames(mirror: Dict<string, ProcessInfo>, fetched: seq<ProcessInfo>, n: string)
    requires MirrorValid(mirror)
    ensures n in Merge(mirror, fetched).m <==> n in mirror.m || exists i :: 0 <= i < |fetched| && fetched[i].name == n
    decreases |fetched|
  {
    if fetched != [] {
      MergeNames(mirror.Put(fetched[0].name, fetched[0]), fetched[1..], n);
      if exists i :: 0 <= i < |fetched[1..]| && fetched[1..][i].name == n {
        var i :| 0 <= i < |fetched[1..]| && fetched[1..][i].name == n;
        assert fetched[i + 1].name == n;
      }
      if exists i :: 0 <= i < |fetched| && fetched[i].name == n {
        var i :| 0 <= i < |fetched| && fetched[i].name == n;
        if i > 0 {
          assert fetched[1..][i - 1].name == n;
        }
      }
    }
  }

  /** A name no deputy reports keeps its record through a poll tick. */
  lemma {:induction false} MergeUntouched(mirror: Dict<string, ProcessInfo>, fetched: seq<ProcessInfo>, n: string)
    requires MirrorValid(mirror) && n in mirror.m
    requires forall i :: 0 <= i < |fetched| ==> fetched[i].name != n
    ensures n in Merge(mirror, fetched).m && Merge(mirror, fetched).m[n] == mirror.m[n]
    decreases |fetched|
  {
    if fetched != [] {
      assert fetched[0].name != n;
      assert forall i :: 0 <= i < |fetched[1..]| ==> fetched[1..][i] == fetched[i + 1];
      MergeUntouched(mirror.Put(fetched[0].name, fetched[0]), fetched[1..], n);
    }
  }

  /** After a poll tick a reported name holds the last record reported under it: last writer wins. */
  lemma {:induction false} LastWriterWins(mirror: Dict<string, ProcessInfo>, fetched: seq<ProcessInfo>, i: int)
    requires MirrorValid(mirror) && LastWithName(fetched, i)
    ensures fetched[i].name in Merge(mirror, fetched).m && Merge(mirror, fetched).m[fetched[i].name] == fetched[i]
    decreases |fetched|
  {
    var next := mirror.Put(fetched[0].name, fetched[0]);
    assert forall k :: 0 <= k < |fetched[1..]| ==> fetched[1..][k] == fetched[k + 1];
    if i > 0 {
      assert LastWithName(fetched[1..], i - 1);
      LastWriterWins(next, fetched[1..], i - 1);
    } else {
      MergeUntouched(next, fetched[1..], fetched[0].name);
    }
  }

  /** Writing a record under its own name keeps the mirror well formed. */
  lemma MirrorPut(mirror: Dict<string, ProcessInfo>, p: ProcessInfo)
    requires MirrorValid(mirror)
    ensures MirrorValid(mirror.Put(p.name, p))
  {
  }

  /** The poll tick's writes from record `i` on, unfolded by one step. */
  lemma MergeStep(mirror: Dict<string, ProcessInfo>, fetched: seq<ProcessInfo>, i: int)
    requires MirrorValid(mirror) && 0 <= i < |fetched|
    ensures Merge(mirror, fetched[i..]) == Merge(mirror.Put(fetched[i].name, fetched[i]), fetched[i + 1..])
  {
    assert fetched[i..][0] == fetched[i] && fetched[i..][1..] == fetched[i + 1..];
  }

  // ---------------------------------------------------------------------------
  // `load_config`, over the already parsed lists

  datatype Enrolled = Enrolled(deputies: Dict<string, string>, requests: seq<Request>, error: Option<DecodeError>)

  /** The `deputies` loop: `add_deputy` on each URL; an escaping exception ends the whole load. */
  function RegisterAll(deputies: Dict<string, string>, urls: seq<string>, replies: seq<Reply<Json>>): (r: Enrolled)
    requires deputies.Valid() && |replies| == |urls|
    ensures r.deputies.Valid()
    ensures |r.requests| <= |urls|
    decreases |urls|
  {
    if urls == [] then Enrolled(deputies, [], None)
    else
      var g := Register(deputies, urls[0], replies[0]);
      if g.result.Raised? then Enrolled(deputies, [g.request], Some(g.result.error))
      else
        var rest := RegisterAll(g.deputies, urls[1..], replies[1..]);
        Enrolled(rest.deputies, [g.request] + rest.requests, rest.error)
  }

  /** `acc` followed by what a deputies loop sends. */
  function AfterProbes(acc: seq<Request>, e: Enrolled): Enrolled {
    Enrolled(e.deputies, acc + e.requests, e.error)
  }

  /** The deputies loop at URL `i`, after the requests `acc`, unfolded by one step. */
  lemma RegisterAllStep(deputies: Dict<string, string>, urls: seq<string>, replies: seq<Reply<Json>>, i: int, acc: seq<Request>)
    requires deputies.Valid() && |replies| == |urls| && 0 <= i < |urls|
    ensures var g := Register(deputies, urls[i], replies[i]);
      && (g.result.Raised? ==>
            AfterProbes(acc, RegisterAll(deputies, urls[i..], replies[i..])) == Enrolled(deputies, acc + [g.request], Some(g.result.error)))
      && (!g.result.Raised? ==>
            AfterProbes(acc, RegisterAll(deputies, urls[i..], replies[i..]))
              == AfterProbes(acc + [g.request], RegisterAll(g.deputies, urls[i + 1..], replies[i + 1..])))
  {
    assert urls[i..][0] == urls[i] && urls[i..][1..] == urls[i + 1..];
    assert replies[i..][0] == replies[i] && replies[i..][1..] == replies[i + 1..];
    var g := Register(deputies, urls[i], replies[i]);
    if !g.result.Raised? {
      var rest := RegisterAll(g.deputies, urls[i + 1..], replies[i + 1..]);
      assert acc + ([g.request] + rest.requests) == (acc + [g.request]) + rest.requests;
    }
  }

  /** The deputies loop before its first URL and after its last. */
  lemma RegisterAllEnds(deputies: Dict<string, string>, urls: seq<string>, replies: seq<Reply<Json>>, acc: seq<Request>)
    requires deputies.Valid() && |replies| == |urls|
    ensures AfterProbes([], RegisterAll(deputies, urls, replies)) == RegisterAll(deputies, urls, replies)
    ensures AfterProbes(acc, RegisterAll(deputies, urls[|urls|..], replies[|urls|..])) == Enrolled(deputies, acc, None)
  {
    assert [] + RegisterAll(deputies, urls, replies).requests == RegisterAll(deputies, urls, replies).requests;
    assert urls[|urls|..] == [];
    assert acc + [] == acc;
  }

  /** The health probe `add_deputy` sends for each URL, in URL order. */
  function Probes(urls: seq<string>): seq<Request> {
    seq(|urls|, i requires 0 <= i < |urls| => Get(NormalizeUrl(urls[i]) + "/health"))
  }

  lemma ProbesCons(urls: seq<string>)
    requires urls != []
    ensures Probes(urls) == [Get(NormalizeUrl(urls[0]) + "/health")] + Probes(urls[1..])
  {
  }

  lemma PrefixCons<T>(x: T, s: seq<T>, k: int)
    requires 0 <= k <= |s|
    ensures [x] + s[..k] == ([x] + s)[..k + 1]
  {
  }

  /**
   * The registrations made by the deputies loop, as hostname and normalised
   * URL: one per 200 reply that names a hostname, up to the first reply that raises.
   */
  function Enrollments(urls: seq<string>, replies: seq<Reply<Json>>): seq<(string, string)>
    requires |replies| == |urls|
    decreases |urls|
  {
    if urls == [] || Raises(replies[0]) then []
    else
      (if IsOk(replies[0]) then [(replies[0].body["hostname"].s, NormalizeUrl(urls[0]))] else [])
      + Enrollments(urls[1..], replies[1..])
  }

  /** The deputies loop probes the URLs in order, one probe each, as far as it gets; it gets through all of them when no probe raises. */
  lemma {:induction false} RegisterAllProbes(deputies: Dict<string, string>, urls: seq<string>, replies: seq<Reply<Json>>)
    requires deputies.Valid() && |replies| == |urls|
    ensures var r := RegisterAll(deputies, urls, replies);
      && |r.requests| <= |urls| && r.requests == Probes(urls)[..|r.requests|]
      && (r.error.None? ==> |r.requests| == |urls|)
    decreases |urls|
  {
    if urls != [] {
      var g := Register(deputies, urls[0], replies[0]);
      assert Probes(urls)[0] == g.request;
      if !g.result.Raised? {
        RegisterAllProbes(g.deputies, urls[1..], replies[1..]);
        var rest := RegisterAll(g.deputies, urls[1..], replies[1..]);
        ProbesCons(urls);
        PrefixCons(g.request, Probes(urls[1..]), |rest.requests|);
      }
    }
  }

  /** The deputies loop stops right after the first probe whose reply raises, and ends without an error exactly when none raises. */
  lemma {:induction false} RegisterAllStops(deputies: Dict<string, string>, urls: seq<string>, replies: seq<Reply<Json>>)
    requires deputies.Valid() && |replies| == |urls|
    ensures var r := RegisterAll(deputies, urls, replies);
      && (r.error.None? <==> forall i :: 0 <= i < |urls| ==> !Raises(replies[i]))
      && (r.error.Some? ==> 1 <= |r.requests| <= |urls| && Raises(replies[|r.requests| - 1])
                            && forall i :: 0 <= i < |r.requests| - 1 ==> !Raises(replies[i]))
    decreases |urls|
  {
    if urls != [] {
      var g := Register(deputies, urls[0], replies[0]);
      if !g.result.Raised? {
        RegisterAllStops(g.deputies, urls[1..], replies[1..]);
        assert forall k :: 0 <= k < |urls| - 1 ==> replies[1..][k] == replies[k + 1];
      }
    }
  }

  /** The deputies loop leaves the registry that writing its enrollments in order gives: the last 200 reply naming a hostname wins. */
  lemma {:induction false} RegisterAllRegistry(deputies: Dict<string, string>, urls: seq<string>, replies: seq<Reply<Json>>)
    requires deputies.Valid() && |replies| == |urls|
    ensures RegisterAll(deputies, urls, replies).deputies == PutAll(deputies, Enrollments(urls, replies))
    decreases |urls|
  {
    if urls != [] && !Raises(replies[0]) {
      var g := Register(deputies, urls[0], replies[0]);
      RegisterAllRegistry(g.deputies, urls[1..], replies[1..]);
      var later := Enrollments(urls[1..], replies[1..]);
      if IsOk(replies[0]) {
        var e := (replies[0].body["hostname"].s, NormalizeUrl(urls[0]));
        assert ([e] + later)[0] == e && ([e] + later)[1..] == later;
      } else {
        assert [] + later == later;
      }
    }
  }

  /** A configured process is started only when its host is registered and it is marked autostart. */
  predicate Gated(deputies: Dict<string, string>, p: ProcessInfo) {
    p.host in deputies.m && p.autostart
  }

  datatype Dispatched = Dispatched(mirror: Dict<string, ProcessInfo>, requests: seq<Request>, error: Option<DecodeError>)

  /** The `processes` loop: decode each entry, start the gated ones, skip the rest. */
  function LaunchAll(deputies: Dict<string, string>, mirror: Dict<string, ProcessInfo>, configs: seq<Json>,
                     replies: seq<Reply<()>>, now: real): (r: Dispatched)
    requires MirrorValid(mirror) && |replies| == |configs|
    ensures MirrorValid(r.mirror)
    decreases |configs|
  {
    if configs == [] then Dispatched(mirror, [], None)
    else match FromDict(configs[0])
      case Err(e) => Dispatched(mirror, [], Some(e))
      case Ok(p) =>
        if Gated(deputies, p) then
          var d := Launch(deputies, mirror, p, replies[0], now);
          var rest := LaunchAll(deputies, d.mirror, configs[1..], replies[1..], now);
          Dispatched(rest.mirror, [d.request.value] + rest.requests, rest.error)
        else LaunchAll(deputies, mirror, configs[1..], replies[1..], now)
  }

  /** `acc` followed by what a processes loop sends. */
  function AfterStarts(acc: seq<Request>, l: Dispatched): Dispatched {
    Dispatched(l.mirror, acc + l.requests, l.error)
  }

  /** The processes loop at entry `j`, after the requests `acc`, unfolded by one step. */
  lemma LaunchAllStep(deputies: Dict<string, string>, mirror: Dict<string, ProcessInfo>, configs: seq<Json>,
                      replies: seq<Reply<()>>, now: real, j: int, acc: seq<Request>)
    requires MirrorValid(mirror) && |replies| == |configs| && 0 <= j < |configs|
    ensures FromDict(configs[j]).Err? ==>
      AfterStarts(acc, LaunchAll(deputies, mirror, configs[j..], replies[j..], now))
        == Dispatched(mirror, acc, Some(FromDict(configs[j]).error))
    ensures FromDict(configs[j]).Ok? && !Gated(deputies, FromDict(configs[j]).value) ==>
      AfterStarts(acc, LaunchAll(deputies, mirror, configs[j..], replies[j..], now))
        == AfterStarts(acc, LaunchAll(deputies, mirror, configs[j + 1..], replies[j + 1..], now))
    ensures FromDict(configs[j]).Ok? && Gated(deputies, FromDict(configs[j]).value) ==>
      var d := Launch(deputies, mirror, FromDict(configs[j]).value, replies[j], now);
      AfterStarts(acc, LaunchAll(deputies, mirror, configs[j..], replies[j..], now))
        == AfterStarts(acc + [d.request.value], LaunchAll(deputies, d.mirror, configs[j + 1..], replies[j + 1..], now))
  {
    assert configs[j..][0] == configs[j] && configs[j..][1..] == configs[j + 1..];
    assert replies[j..][0] == replies[j] && replies[j..][1..] == replies[j + 1..];
    if FromDict(configs[j]).Ok? && Gated(deputies, FromDict(configs[j]).value) {
      var d := Launch(deputies, mirror, FromDict(configs[j]).value, replies[j], now);
      var rest := LaunchAll(deputies, d.mirror, configs[j + 1..], replies[j + 1..], now);
      assert acc + ([d.request.value] + rest.requests) == (acc + [d.request.value]) + rest.requests;
    }
    if FromDict(configs[j]).Err? {
      assert acc + [] == acc;
    }
  }

  /** The processes loop before its first entry and after its last. */
  lemma LaunchAllEnds(deputies: Dict<string, string>, mirror: Dict<string, ProcessInfo>, configs: seq<Json>,
                      replies: seq<Reply<()>>, now: real, acc: seq<Request>)
    requires MirrorValid(mirror) && |replies| == |configs|
    ensures AfterStarts([], LaunchAll(deputies, mirror, configs, replies, now)) == LaunchAll(deputies, mirror, configs, replies, now)
    ensures AfterStarts(acc, LaunchAll(deputies, mirror, configs[|configs|..], replies[|configs|..], now)) == Dispatched(mirror, acc, None)
  {
    assert [] + LaunchAll(deputies, mirror, configs, replies, now).requests == LaunchAll(deputies, mirror, configs, replies, now).requests;
    assert configs[|configs|..] == [];
    assert acc + [] == acc;
  }

  /** `configs[i]` decodes to a gated record. */
  ghost predicate GatedEntry(deputies: Dict<string, string>, configs: seq<Json>, i: int) {
    0 <= i < |configs| && FromDict(configs[i]).Ok? && Gated(deputies, FromDict(configs[i]).value)
  }

  /** `q` is the start request for the gated record `configs[i]`, posted to the deputy of its host. */
  ghost predicate StartsEntry(deputies: Dict<string, string>, configs: seq<Json>, i: int, now: real, q: Request) {
    GatedEntry(deputies, configs, i) &&
    var p := FromDict(configs[i]).value;
    q == PostRecord(deputies.m[p.host] + "/process/start", p, now)
  }

  /**
   * Every request the processes loop sends posts a gated record to its own
   * deputy, and a name that no gated entry carries keeps its mirror entry (or
   * its absence).
   */
  lemma {:induction false} LaunchAllOnlyGated(deputies: Dict<string, string>, mirror: Dict<string, ProcessInfo>,
                                              configs: seq<Json>, replies: seq<Reply<()>>, now: real, n: string)
    requires MirrorValid(mirror) && |replies| == |configs|
    ensures var r := LaunchAll(deputies, mirror, configs, replies, now);
      forall q :: q in r.requests ==> exists i :: StartsEntry(deputies, configs, i, now, q)
    ensures var r := LaunchAll(deputies, mirror, configs, replies, now);
      (forall i :: GatedEntry(deputies, configs, i) ==> FromDict(configs[i]).value.name != n) ==>
        (n in r.mirror.m <==> n in mirror.m) && (n in mirror.m ==> r.mirror.m[n] == mirror.m[n])
    decreases |configs|
  {
    if configs != [] && FromDict(configs[0]).Ok? {
      var p := FromDict(configs[0]).value;
      forall i | 1 <= i < |configs| ensures configs[1..][i - 1] == configs[i] { }
      var next := if Gated(deputies, p) then Launch(deputies, mirror, p, replies[0], now).mirror else mirror;
      LaunchAllOnlyGated(deputies, next, configs[1..], replies[1..], now, n);
      var r := LaunchAll(deputies, mirror, configs, replies, now);
      var rest := LaunchAll(deputies, next, configs[1..], replies[1..], now);
      assert r.mirror == rest.mirror;
      forall q | q in r.requests
        ensures exists i :: StartsEntry(deputies, configs, i, now, q)
      {
        if Gated(deputies, p) && q == r.requests[0] {
          assert StartsEntry(deputies, configs, 0, now, q);
        } else {
          assert q in rest.requests;
          var i :| StartsEntry(deputies, configs[1..], i, now, q);
          assert StartsEntry(deputies, configs, i + 1, now, q);
        }
      }
      if forall i :: GatedEntry(deputies, configs, i) ==> FromDict(configs[i]).value.name != n {
        forall i | GatedEntry(deputies, configs[1..], i) ensures FromDict(configs[1..][i]).value.name != n {
          assert GatedEntry(deputies, configs, i + 1);
        }
        if Gated(deputies, p) {
          assert GatedEntry(deputies, configs, 0);
        }
      }
    }
  }

  /** The start request of each gated entry, in configuration order, up to the first entry that fails to decode. */
  function StartRequests(deputies: Dict<string, string>, configs: seq<Json>, now: real): seq<Request>
    decreases |configs|
  {
    if configs == [] then []
    else match FromDict(configs[0])
      case Err(_) => []
      case Ok(p) =>
        (if Gated(deputies, p) then [PostRecord(deputies.m[p.host] + "/process/start", p, now)] else [])
        + StartRequests(deputies, configs[1..], now)
  }

  /** The records of the gated entries whose start reply is 200, in configuration order, up to the first entry that fails to decode. */
  function Accepted(deputies: Dict<string, string>, configs: seq<Json>, replies: seq<Reply<()>>): seq<ProcessInfo>
    requires |replies| == |configs|
    decreases |configs|
  {
    if configs == [] then []
    else match FromDict(configs[0])
      case Err(_) => []
      case Ok(p) =>
        (if Gated(deputies, p) && IsOk(replies[0]) then [p] else [])
        + Accepted(deputies, configs[1..], replies[1..])
  }

  /** The processes loop sends exactly one start request per gated entry, in order, and nothing else. */
  lemma {:induction false} LaunchAllRequests(deputies: Dict<string, string>, mirror: Dict<string, ProcessInfo>,
                                             configs: seq<Json>, replies: seq<Reply<()>>, now: real)
    requires MirrorValid(mirror) && |replies| == |configs|
    ensures LaunchAll(deputies, mirror, configs, replies, now).requests == StartRequests(deputies, configs, now)
    decreases |configs|
  {
    if configs != [] && FromDict(configs[0]).Ok? {
      var p := FromDict(configs[0]).value;
      var next := if Gated(deputies, p) then Launch(deputies, mirror, p, replies[0], now).mirror else mirror;
      LaunchAllRequests(deputies, next, configs[1..], replies[1..], now);
      if !Gated(deputies, p) {
        assert [] + StartRequests(deputies, configs[1..], now) == StartRequests(deputies, configs[1..], now);
      }
    }
  }

  /**
   * The processes loop writes the accepted records into the mirror in order,
   * as a poll tick does, so `MergeUntouched` and `LastWriterWins` describe it:
   * a name holds the last accepted record carrying it.
   */
  lemma {:induction false} LaunchAllMirror(deputies: Dict<string, string>, mirror: Dict<string, ProcessInfo>,
                                           configs: seq<Json>, replies: seq<Reply<()>>, now: real)
    requires MirrorValid(mirror) && |replies| == |configs|
    ensures LaunchAll(deputies, mirror, configs, replies, now).mirror == Merge(mirror, Accepted(deputies, configs, replies))
    decreases |configs|
  {
    if configs != [] && FromDict(configs[0]).Ok? {
      var p := FromDict(configs[0]).value;
      var later := Accepted(deputies, configs[1..], replies[1..]);
      if Gated(deputies, p) {
        var d := Launch(deputies, mirror, p, replies[0], now);
        LaunchAllMirror(deputies, d.mirror, configs[1..], replies[1..], now);
        if IsOk(replies[0]) {
          assert ([p] + later)[0] == p && ([p] + later)[1..] == later;
        } else {
          assert [] + later == later;
        }
      } else {
        LaunchAllMirror(deputies, mirror, configs[1..], replies[1..], now);
        assert [] + later == later;
      }
    }
  }

  // ---------------------------------------------------------------------------
  // The coordinator as an object updated in place

  class Sheriff {
    var deputies: Dict<string, string>
    var processes: Dict<string, ProcessInfo>

    ghost predicate Valid()
      reads this
    {
      deputies.Valid() && MirrorValid(processes)
    }

    constructor ()
      ensures Valid() && deputies == Empty() && processes == Empty()
    {
      deputies := Empty();
      processes := Empty();
    }

    /** `add_deputy(url)` */
    method AddDeputy(url: string, reply: Reply<Json>) returns (result: Outcome<bool>, request: Request)
      requires Valid()
      modifies this
      ensures Valid()
      ensures Registered(result, deputies, request) == Register(old(deputies), url, reply)
      ensures processes == old(processes)
    {
      var u := url;
      if !("http" <= u) {
        u := "http://" + u;
      }
      request := Get(u + "/health");
      if !IsOk(reply) {
        return Returned(false), request;
      }
      if "hostname" !in reply.body {
        return Raised(MissingKey("hostname")), request;
      }
      match reply.body["hostname"] {
        case Str(hostname) =>
          deputies := deputies.Put(hostname, u);
          result := Returned(true);
        case _ =>
          result := Raised(IllTyped("hostname"));
      }
    }

    /** `remove_deputy(hostname)`: the deputy's processes are dropped from the mirror, not stopped. */
    method RemoveDeputy(hostname: string) returns (ok: bool)
      requires Valid()
      modifies this
      ensures Valid()
      ensures ok <==> hostname in old(deputies.m)
      ensures ok ==> deputies == old(deputies).Remove(hostname) && processes == DropHost(old(processes), hostname)
      ensures !ok ==> deputies == old(deputies) && processes == old(processes)
    {
      if hostname in deputies.m {
        deputies := deputies.Remove(hostname);
        processes := DropHost(processes, hostname);
        return true;
      }
      return false;
    }

    /** `start_process(info)` */
    method StartProcess(info: ProcessInfo, reply: Reply<()>, now: real) returns (ok: bool, request: Option<Request>)
      requires Valid()
      modifies this
      ensures Valid()
      ensures Dispatch(ok, processes, request) == Launch(deputies, old(processes), info, reply, now)
      ensures deputies == old(deputies)
    {
      if info.host !in deputies.m {
        return false, None;
      }
      var url := deputies.m[info.host];
      request := Some(PostRecord(url + "/process/start", info, now));
      if IsOk(reply) {
        processes := processes.Put(info.name, info);
        return true, request;
      }
      return false, request;
    }

    /** `stop_process(name)`: reads the registry and the mirror, changes neither. */
    method StopProcess(name: string, reply: Reply<()>) returns (ok: bool, request: Option<Request>)
      requires Valid()
      ensures !Routable(deputies, processes, name) ==> !ok && request == None
      ensures Routable(deputies, processes, name) ==>
        && request == Some(Post(Route(deputies, processes, name) + "/process/stop/" + name))
        && (ok <==> IsOk(reply))
    {
      if name !in processes.m {
        return false, None;
      }
      var process := processes.m[name];
      if process.host !in deputies.m {
        return false, None;
      }
      request := Some(Post(deputies.m[process.host] + "/process/stop/" + name));
      ok := IsOk(reply);
    }

    /** `restart_process(name)`: reads the registry and the mirror, changes neither. */
    method RestartProcess(name: string, reply: Reply<()>) returns (ok: bool, request: Option<Request>)
      requires Valid()
      ensures !Routable(deputies, processes, name) ==> !ok && request == None
      ensures Routable(deputies, processes, name) ==>
        && request == Some(Post(Route(deputies, processes, name) + "/process/restart/" + name))
        && (ok <==> IsOk(reply))
    {
      if name !in processes.m {
        return false, None;
      }
      var process := processes.m[name];
      if process.host !in deputies.m {
        return false, None;
      }
      request := Some(Post(deputies.m[process.host] + "/process/restart/" + name));
      ok := IsOk(reply);
    }

    /**
     * `get_process_info(name)`: a fresh snapshot from the owning deputy; None
     * when the name or its deputy is unknown or the reply is not 200.
     */
    method GetProcessInfo(name: string, reply: Reply<Json>) returns (r: Outcome<Option<ProcessInfo>>, request: Option<Request>)
      requires Valid()
      ensures !Routable(deputies, processes, name) ==> r == Returned(None) && request == None
      ensures Routable(deputies, processes, name) ==>
        request == Some(Get(Route(deputies, processes, name) + "/process/" + name))
      ensures Routable(deputies, processes, name) && !IsOk(reply) ==> r == Returned(None)
      ensures Routable(deputies, processes, name) && IsOk(reply) ==>
        r == match FromDict(reply.body) case Ok(p) => Returned(Some(p)) case Err(e) => Raised(e)
    {
      if name !in processes.m {
        return Returned(None), None;
      }
      var process := processes.m[name];
      if process.host !in deputies.m {
        return Returned(None), None;
      }
      request := Some(Get(deputies.m[process.host] + "/process/" + name));
      if !IsOk(reply) {
        return Returned(None), request;
      }
      match FromDict(reply.body) {
        case Ok(p) => r := Returned(Some(p));
        case Err(e) => r := Raised(e);
      }
    }

    /** The inner loop of `get_all_processes` over one deputy's list. */
    static method DecodeBody(body: seq<Json>) returns (r: Result<seq<ProcessInfo>, DecodeError>)
      ensures r == DecodeAll(body)
    {
      var decoded: seq<ProcessInfo> := [];
      DecodeAllEnds(body, decoded);
      var j := 0;
      while j < |body|
        invariant 0 <= j <= |body|
        invariant DecodeAll(body) == Extend(decoded, DecodeAll(body[j..]))
      {
        DecodeAllStep(body, j, decoded);
        var entry := FromDict(body[j]);
        if entry.Err? {
          return Err(entry.error);
        }
        decoded := decoded + [entry.value];
        j := j + 1;
      }
      DecodeAllEnds(body, decoded);
      return Ok(decoded);
    }

    /** `get_all_processes()`, one reply per registered deputy in registry order. */
    method GetAllProcesses(replies: seq<Reply<seq<Json>>>) returns (r: Outcome<seq<ProcessInfo>>, requests: seq<Request>)
      requires Valid() && |replies| == |deputies.keys|
      ensures r == Gather(replies)
      ensures |requests| <= |replies|
      ensures r.Returned? ==> |requests| == |replies|
      ensures requests == ListRequests(deputies)[..|requests|]
    {
      var collected: seq<ProcessInfo> := [];
      GatherEnds(replies, collected);
      requests := [];
      var i := 0;
      while i < |replies|
        invariant 0 <= i <= |replies|
        invariant |requests| == i
        invariant requests == ListRequests(deputies)[..i]
        invariant Gather(replies) == Prepend(collected, Gather(replies[i..]))
      {
        assert ListRequests(deputies)[..i + 1] == ListRequests(deputies)[..i] + [ListRequests(deputies)[i]];
        requests := requests + [ListRequests(deputies)[i]];
        GatherStep(replies, i, collected);
        var contribution: Result<seq<ProcessInfo>, DecodeError> := Ok([]);
        if IsOk(replies[i]) {
          contribution := DecodeBody(replies[i].body);
        }
        if contribution.Err? {
          return Raised(contribution.error), requests;
        }
        collected := collected + contribution.value;
        i := i + 1;
      }
      GatherEnds(replies, collected);
      r := Returned(collected);
    }

    /** The status string `get_deputy_status` writes for one health reply. */
    static method HealthStatus(reply: Reply<Json>) returns (status: string)
      ensures status == Classify(reply)
    {
      match reply {
        case Response(code, _) =>
          if code == 200 {
            status := "healthy";
          } else {
            status := "unhealthy (status: " + IntToString(code) + ")";
          }
        case ConnectionError(message) =>
          status := "unreachable (" + message + ")";
      }
    }

    /** `get_deputy_status()`, one health reply per registered deputy in registry order. */
    method GetDeputyStatus(replies: seq<Reply<Json>>) returns (statuses: seq<DeputyStatus>, requests: seq<Request>)
      requires Valid() && |replies| == |deputies.keys|
      ensures |statuses| == |deputies.keys| && |requests| == |deputies.keys|
      ensures forall i :: 0 <= i < |statuses| ==>
        statuses[i] == DeputyStatus(deputies.keys[i], deputies.m[deputies.keys[i]], Classify(replies[i]))
      ensures forall i :: 0 <= i < |requests| ==> requests[i] == Get(deputies.m[deputies.keys[i]] + "/health")
    {
      statuses, requests := ProbeHealth(deputies.Items(), replies);
    }

    /** The loop of `get_deputy_status` over `(hostname, url)` entries: one `GET <url>/health` and one status each. */
    static method ProbeHealth(items: seq<(string, string)>, replies: seq<Reply<Json>>)
      returns (statuses: seq<DeputyStatus>, requests: seq<Request>)
      requires |replies| == |items|
      ensures |statuses| == |items| && |requests| == |items|
      ensures forall i :: 0 <= i < |items| ==> statuses[i] == DeputyStatus(items[i].0, items[i].1, Classify(replies[i]))
      ensures forall i :: 0 <= i < |items| ==> requests[i] == Get(items[i].1 + "/health")
    {
      statuses := [];
      requests := [];
      var i := 0;
      while i < |items|
        invariant 0 <= i <= |items|
        invariant |statuses| == i && |requests| == i
        invariant forall k :: 0 <= k < i ==> statuses[k] == DeputyStatus(items[k].0, items[k].1, Classify(replies[k]))
        invariant forall k :: 0 <= k < i ==> requests[k] == Get(items[k].1 + "/health")
      {
        var (hostname, url) := items[i];
        requests := requests + [Get(url + "/health")];
        var status := HealthStatus(replies[i]);
        statuses := statuses + [DeputyStatus(hostname, url, status)];
        i := i + 1;
      }
    }

    /** One iteration of the update loop: fetch everything, then write each record under its name. */
    method PollTick(replies: seq<Reply<seq<Json>>>) returns (error: Option<DecodeError>, requests: seq<Request>)
      requires Valid() && |replies| == |deputies.keys|
      modifies this
      ensures Valid()
      ensures deputies == old(deputies)
      ensures Gather(replies).Raised? ==> error == Some(Gather(replies).error) && processes == old(processes)
      ensures Gather(replies).Returned? ==> error == None && processes == Merge(old(processes), Gather(replies).value)
    {
      var fetched;
      fetched, requests := GetAllProcesses(replies);
      if fetched.Raised? {
        return Some(fetched.error), requests;
      }
      MergeFetched(fetched.value);
      error := None;
    }

    /** The write-back loop of the update thread: each fetched record goes under its own name. */
    method MergeFetched(ps: seq<ProcessInfo>)
      requires Valid()
      modifies this
      ensures Valid()
      ensures deputies == old(deputies) && processes == Merge(old(processes), ps)
    {
      var start, mirror := processes, processes;
      var i := 0;
      while i < |ps|
        invariant 0 <= i <= |ps|
        invariant MirrorValid(start) && MirrorValid(mirror)
        invariant Merge(start, ps) == Merge(mirror, ps[i..])
        modifies {}
      {
        MergeStep(mirror, ps, i);
        MirrorPut(mirror, ps[i]);
        mirror := mirror.Put(ps[i].name, ps[i]);
        i := i + 1;
      }
      assert ps[i..] == [];
      processes := mirror;
    }

    /** The `deputies` loop of `load_config`: `add_deputy` on each URL until one raises. */
    method RegisterDeputies(urls: seq<string>, healthReplies: seq<Reply<Json>>)
      returns (error: Option<DecodeError>, requests: seq<Request>)
      requires Valid() && |healthReplies| == |urls|
      modifies this
      ensures Valid() && processes == old(processes)
      ensures Enrolled(deputies, requests, error) == RegisterAll(old(deputies), urls, healthReplies)
    {
      requests := [];
      RegisterAllEnds(deputies, urls, healthReplies, requests);
      var i := 0;
      while i < |urls|
        invariant 0 <= i <= |urls|
        invariant Valid() && processes == old(processes)
        invariant RegisterAll(old(deputies), urls, healthReplies) == AfterProbes(requests, RegisterAll(deputies, urls[i..], healthReplies[i..]))
      {
        RegisterAllStep(deputies, urls, healthReplies, i, requests);
        var result, request := AddDeputy(urls[i], healthReplies[i]);
        requests := requests + [request];
        if result.Raised? {
          return Some(result.error), requests;
        }
        i := i + 1;
      }
      RegisterAllEnds(deputies, urls, healthReplies, requests);
      error := None;
    }

    /** The `processes` loop of `load_config`: decode each entry and start the gated ones, until one fails to decode. */
    method StartConfigured(configs: seq<Json>, startReplies: seq<Reply<()>>, now: real)
      returns (error: Option<DecodeError>, requests: seq<Request>)
      requires Valid() && |startReplies| == |configs|
      modifies this
      ensures Valid() && deputies == old(deputies)
      ensures Dispatched(processes, requests, error) == LaunchAll(deputies, old(processes), configs, startReplies, now)
    {
      requests := [];
      LaunchAllEnds(deputies, processes, configs, startReplies, now, requests);
      var j := 0;
      while j < |configs|
        invariant 0 <= j <= |configs|
        invariant Valid() && deputies == old(deputies)
        invariant LaunchAll(deputies, old(processes), configs, startReplies, now)
          == AfterStarts(requests, LaunchAll(deputies, processes, configs[j..], startReplies[j..], now))
      {
        LaunchAllStep(deputies, processes, configs, startReplies, now, j, requests);
        match FromDict(configs[j]) {
          case Err(e) =>
            return Some(e), requests;
          case Ok(p) =>
            if p.host in deputies.m && p.autostart {
              var started, request := StartProcess(p, startReplies[j], now);
              requests := requests + [request.value];
            }
        }
        j := j + 1;
      }
      LaunchAllEnds(deputies, processes, configs, startReplies, now, requests);
      error := None;
    }

    /**
     * `load_config`, over the already parsed lists: every deputy URL first,
     * then every configured process; an exception that escapes a step ends the
     * load there and is reported in `error`.
     */
    method LoadConfig(urls: seq<string>, healthReplies: seq<Reply<Json>>,
                      configs: seq<Json>, startReplies: seq<Reply<()>>, now: real)
      returns (error: Option<DecodeError>, requests: seq<Request>)
      requires Valid() && |healthReplies| == |urls| && |startReplies| == |configs|
      modifies this
      ensures Valid()
      ensures var e := RegisterAll(old(deputies), urls, healthReplies);
        && deputies == e.deputies
        && (e.error.Some? ==> error == e.error && requests == e.requests && processes == old(processes))
        && (e.error.None? ==>
              var l := LaunchAll(e.deputies, old(processes), configs, startReplies, now);
              error == l.error && requests == e.requests + l.requests && processes == l.mirror)
    {
      error, requests := RegisterDeputies(urls, healthReplies);
      if error.Some? {
        return;
      }
      var started;
      error, started := StartConfigured(configs, startReplies, now);
      requests := requests + started;
    }
  }
}
