/** One `get` of the read-only API client: rate-limit retries nested inside switching of
    the authentication mode, against any server. */
module ApiClient {
  import opened Wrappers

  const MAX_429_RETRIES := 3
  const BASE_BACKOFF := 0.5
  const MAX_BACKOFF := 5.0
  const LOGIN_PATH := "/api/v4/Account/ApiKeyLogin"

  const READ_PREFIXES: seq<string> := [
    "/api/v4/Scans", "/api/v4/Apps", "/api/v4/AssetGroups", "/api/v4/Issues",
    "/api/v4/Reports", "/api/v4/Account", "/api/v4/User", "/api/v4/Roles"]

  /** A response, or a transport failure; `retryAfter` is the parsed header, if it is a number. */
  datatype Reply = Response(status: int, isJson: bool, retryAfter: Option<real>) | Lost

  /** A login either yields a token with its expiry, or fails in one of the source's ways. */
  datatype LoginReply = Token(expiresAt: Option<int>) | LoginFails

  datatype Verb = GET | POST

  datatype Event = Request(verb: Verb, path: string, bearer: bool) | Sleep(seconds: real)

  datatype Error = ReadOnlyViolation | TransportError | AuthorizationError | HttpStatusError | FormatError

  /** The outcome of `get`: the index of the data reply handed back, or an error. */
  datatype Outcome = Served(index: nat) | Failed(error: Error)

  /** Everything outside the client: the reply to the i-th data request and the i-th login. */
  datatype Server = Server(data: nat -> Reply, login: nat -> LoginReply)

  predicate IsListed(path: string)
  {
    exists i :: 0 <= i < |READ_PREFIXES| && READ_PREFIXES[i] <= path
  }

  /** The paths that may be read: those that begin with one of these eight. */
  lemma ListedExactly(path: string)
    ensures IsListed(path) <==>
              || "/api/v4/Scans" <= path || "/api/v4/Apps" <= path || "/api/v4/AssetGroups" <= path
              || "/api/v4/Issues" <= path || "/api/v4/Reports" <= path || "/api/v4/Account" <= path
              || "/api/v4/User" <= path || "/api/v4/Roles" <= path
  {
    assert READ_PREFIXES[0] == "/api/v4/Scans" && READ_PREFIXES[1] == "/api/v4/Apps";
    assert READ_PREFIXES[2] == "/api/v4/AssetGroups" && READ_PREFIXES[3] == "/api/v4/Issues";
    assert READ_PREFIXES[4] == "/api/v4/Reports" && READ_PREFIXES[5] == "/api/v4/Account";
    assert READ_PREFIXES[6] == "/api/v4/User" && READ_PREFIXES[7] == "/api/v4/Roles";
  }

  /** What read-only mode lets through. */
  predicate Permitted(verb: Verb, path: string)
  {
    (verb == POST && path == LOGIN_PATH) || (verb == GET && IsListed(path))
  }

  function ParsedRetryAfter(header: Option<real>): Option<real>
  {
    if header.None? || header.value <= 0.0 then None
    else Some(if header.value < MAX_BACKOFF then header.value else MAX_BACKOFF)
  }

  /** How long to wait before retry number `index`. */
  function Delay(header: Option<real>, index: nat): (r: real)
    ensures 0.0 < r <= MAX_BACKOFF
  {
    var asked := ParsedRetryAfter(header);
    if asked.Some? then asked.value
    else
      var backoff := BASE_BACKOFF * Pow2(index) as real;
      if backoff < MAX_BACKOFF then backoff else MAX_BACKOFF
  }

  /** A wait the server asks for is honoured up to the cap; otherwise waits start at half a
      second and double with each retry, up to the cap. */
  lemma DelaysDouble(header: Option<real>, index: nat)
    ensures header.Some? && header.value > 0.0 ==>
              Delay(header, index) <= header.value
                  && (Delay(header, index) < header.value ==> Delay(header, index) == 5.0)
    ensures Delay(None, 0) == 0.5
    ensures Delay(None, index + 1) == if 2.0 * Delay(None, index) < 5.0 then 2.0 * Delay(None, index) else 5.0
    ensures header.Some? && header.value <= 0.0 ==> Delay(header, index) == Delay(None, index)
  {
    assert Pow2(index + 1) == 2 * Pow2(index);
  }

  // ---------------------------------------------------------------- measures of a trace

  function DataRequests(trace: seq<Event>): nat
  {
    if trace == [] then 0
    else DataRequests(trace[..|trace| - 1]) + if trace[|trace| - 1].Request? && trace[|trace| - 1].verb == GET then 1
        else 0
  }

  function Logins(trace: seq<Event>): nat
  {
    if trace == [] then 0
    else Logins(trace[..|trace| - 1]) + if trace[|trace| - 1].Request? && trace[|trace| - 1].verb == POST then 1 else 0
  }

  function Slept(trace: seq<Event>): real
  {
    if trace == [] then 0.0
    else Slept(trace[..|trace| - 1]) + if trace[|trace| - 1].Sleep? then trace[|trace| - 1].seconds else 0.0
  }

  predicate OnlyPermitted(trace: seq<Event>)
  {
    forall e :: e in trace && e.Request? ==> Permitted(e.verb, e.path)
  }

  lemma Append(trace: seq<Event>, e: Event)
    ensures DataRequests(trace + [e]) == DataRequests(trace) + if e.Request? && e.verb == GET then 1 else 0
    ensures Logins(trace + [e]) == Logins(trace) + if e.Request? && e.verb == POST then 1 else 0
    ensures Slept(trace + [e]) == Slept(trace) + if e.Sleep? then e.seconds else 0.0
    ensures OnlyPermitted(trace + [e]) <==> OnlyPermitted(trace) && (e.Request? ==> Permitted(e.verb, e.path))
  {
    assert (trace + [e])[..|trace + [e]| - 1] == trace;
    assert e in trace + [e];
    assert forall x :: x in trace ==> x in trace + [e];
  }

  // ---------------------------------------------------------------- independent description

  predicate RateLimited(r: Reply)
  {
    r.Response? && r.status == 429
  }

  predicate Unauthorized(r: Reply)
  {
    r.Response? && (r.status == 401 || r.status == 403)
  }

  /** The last data request of a batch that starts with request `first`: the first one not
      rate-limited, but at most three later. */
  function BatchEnd(data: nat -> Reply, first: nat, retries: nat): (r: nat)
    ensures first <= r <= first + retries
    decreases retries
  {
    if retries == 0 || !RateLimited(data(first)) then first else BatchEnd(data, first + 1, retries - 1)
  }

  /** The waiting between the requests of a batch, from retry number `index` on. */
  function BatchSleep(data: nat -> Reply, first: nat, index: nat): real
    requires index <= MAX_429_RETRIES
    decreases MAX_429_RETRIES - index
  {
    if index == MAX_429_RETRIES || !RateLimited(data(first)) then 0.0
    else Delay(data(first).retryAfter, index) + BatchSleep(data, first + 1, index + 1)
  }

  lemma BatchSleepBound(data: nat -> Reply, first: nat)
    ensures 0.0 <= BatchSleep(data, first, 0) <= 15.0
  {
    assert BatchSleep(data, first + 3, 3) == 0.0;
    assert 0.0 <= BatchSleep(data, first + 2, 2) <= 5.0;
    assert 0.0 <= BatchSleep(data, first + 1, 1) <= 10.0;
  }

  lemma SleepsOn(data: nat -> Reply, first: nat, index: nat)
    requires index < MAX_429_RETRIES && RateLimited(data(first))
    ensures BatchSleep(data, first, index)
              == Delay(data(first).retryAfter, index) + BatchSleep(data, first + 1, index + 1)
  {
  }

  /** The trace grew by requests of one kind, and waits. */
  predicate Grew(trace: seq<Event>, trace': seq<Event>, path: string, bearer: bool)
  {
    trace <= trace' && forall e :: e in trace'[|trace|..] ==> e.Sleep? || e == Request(GET, path, bearer)
  }

  lemma GrowsOn(trace: seq<Event>, middle: seq<Event>, e: Event, path: string, bearer: bool)
    requires Grew(trace, middle, path, bearer) && (e.Sleep? || e == Request(GET, path, bearer))
    ensures Grew(trace, middle + [e], path, bearer)
  {
    assert (middle + [e])[|trace|..] == middle[|trace|..] + [e];
  }

  /** A batch in progress, after `i` retries. */
  ghost predicate MidBatch(data: nat -> Reply, i: nat, reply: Reply, before: seq<Event>, trace: seq<Event>)
  {
    var first := DataRequests(before);
    && i <= MAX_429_RETRIES && reply == data(first + i)
    && BatchEnd(data, first, MAX_429_RETRIES) == BatchEnd(data, first + i, MAX_429_RETRIES - i)
    && DataRequests(trace) == first + i + 1 && Logins(trace) == Logins(before)
    && Slept(trace) + BatchSleep(data, first + i, i) == Slept(before) + BatchSleep(data, first, 0)
  }

  lemma MidBatchStep(data: nat -> Reply, i: nat, reply: Reply, before: seq<Event>, trace: seq<Event>,
                     trace': seq<Event>)
    requires MidBatch(data, i, reply, before, trace) && i < MAX_429_RETRIES && RateLimited(reply)
    requires DataRequests(trace') == DataRequests(trace) + 1 && Logins(trace') == Logins(trace)
    requires Slept(trace') == Slept(trace) + Delay(reply.retryAfter, i)
    ensures MidBatch(data, i + 1, data(DataRequests(trace)), before, trace')
  {
    SleepsOn(data, DataRequests(before) + i, i);
  }

  lemma MidBatchEnds(data: nat -> Reply, i: nat, reply: Reply, before: seq<Event>, trace: seq<Event>)
    requires MidBatch(data, i, reply, before, trace) && (i == MAX_429_RETRIES || !RateLimited(reply))
    ensures var first := DataRequests(before);
            var end := BatchEnd(data, first, MAX_429_RETRIES);
            && reply == data(end) && DataRequests(trace) == end + 1 && Logins(trace) == Logins(before)
            && Slept(trace) == Slept(before) + BatchSleep(data, first, 0) && Slept(trace) <= Slept(before) + 15.0
  {
    BatchSleepBound(data, DataRequests(before));
  }

  /** A batch goes past rate-limited replies only, and stops short only of another one. */
  lemma {:induction false} BatchEndIsFirstOther(data: nat -> Reply, first: nat, retries: nat)
    ensures forall i :: first <= i < BatchEnd(data, first, retries) ==> RateLimited(data(i))
    ensures BatchEnd(data, first, retries) < first + retries ==> !RateLimited(data(BatchEnd(data, first, retries)))
    decreases retries
  {
    if retries > 0 && RateLimited(data(first)) {
      BatchEndIsFirstOther(data, first + 1, retries - 1);
    }
  }

  /** Token state: whether a token is held and when it expires. */
  datatype Session = Session(held: bool, expiresAt: Option<int>)

  predicate Fresh(s: Session, now: int)
  {
    s.held && s.expiresAt.Some? && s.expiresAt.value > now
  }

  class Client {
    const readOnly: bool
    var session: Session

    constructor (readOnly: bool)
      ensures this.readOnly == readOnly && session == Session(false, None)
    {
      this.readOnly := readOnly;
      session := Session(false, None);
    }

    /** Bearer header from a live token or a login; the key pair when the login fails. */
    method AuthHeader(server: Server, now: int, trace: seq<Event>) returns (bearer: bool, trace': seq<Event>)
      modifies this
      ensures Fresh(old(session), now) <==>
                old(session.held) && old(session.expiresAt).Some? && old(session.expiresAt).value > now
      ensures Fresh(old(session), now) ==> bearer && trace' == trace && session == old(session)
      ensures !Fresh(old(session), now) ==>
                && trace' == trace + [Request(POST, LOGIN_PATH, false)]
                && (bearer <==> server.login(Logins(trace)).Token?)
                && session == if bearer then Session(true, server.login(Logins(trace)).expiresAt) else old(session)
    {
      trace' := trace;
      if session.held && session.expiresAt.Some? && session.expiresAt.value > now {
        return true, trace;
      }
      trace' := trace + [Request(POST, LOGIN_PATH, false)];
      match server.login(Logins(trace)) {
        case Token(expiresAt) =>
          session := Session(true, expiresAt);
          bearer := true;
        case LoginFails =>
          bearer := false;
      }
    }

    /** One retry: the back-off, then the request again. */
    method Again(server: Server, path: string, bearer: bool, reply: Reply, index: nat, ghost start: seq<Event>,
                 trace: seq<Event>) returns (reply': Reply, trace': seq<Event>)
      requires !readOnly || IsListed(path)
      requires RateLimited(reply) && Grew(start, trace, path, bearer)
      ensures reply' == server.data(DataRequests(trace))
      ensures DataRequests(trace') == DataRequests(trace) + 1 && Logins(trace') == Logins(trace)
      ensures Slept(trace') == Slept(trace) + Delay(reply.retryAfter, index)
      ensures Grew(start, trace', path, bearer)
      ensures readOnly && OnlyPermitted(trace) ==> OnlyPermitted(trace')
    {
      var pause := Sleep(Delay(reply.retryAfter, index));
      Append(trace, pause);
      GrowsOn(start, trace, pause, path, bearer);
      trace' := trace + [pause];
      reply' := server.data(DataRequests(trace'));
      Append(trace', Request(GET, path, bearer));
      GrowsOn(start, trace', Request(GET, path, bearer), path, bearer);
      trace' := trace' + [Request(GET, path, bearer)];
    }

    /** A data request with up to three retries while the server says 429. */
    method Batch(server: Server, path: string, bearer: bool, trace: seq<Event>)
      returns (reply: Reply, trace': seq<Event>)
      requires !readOnly || IsListed(path)
      ensures var first := DataRequests(trace);
              var end := BatchEnd(server.data, first, MAX_429_RETRIES);
              && reply == server.data(end)
              && DataRequests(trace') == end + 1
              && Slept(trace') == Slept(trace) + BatchSleep(server.data, first, 0)
      ensures Slept(trace') <= Slept(trace) + 15.0
      ensures Logins(trace') == Logins(trace) && Grew(trace, trace', path, bearer)
      ensures readOnly && OnlyPermitted(trace) ==> OnlyPermitted(trace')
    {
      reply := server.data(DataRequests(trace));
      trace' := trace + [Request(GET, path, bearer)];
      Append(trace, Request(GET, path, bearer));
      GrowsOn(trace, trace, Request(GET, path, bearer), path, bearer);
      var retryIndex := 0;
      while RateLimited(reply) && retryIndex < MAX_429_RETRIES
        invariant 0 <= retryIndex <= MAX_429_RETRIES
        invariant MidBatch(server.data, retryIndex, reply, trace, trace')
        invariant Grew(trace, trace', path, bearer)
        invariant readOnly && OnlyPermitted(trace) ==> OnlyPermitted(trace')
      {
        ghost var was, sofar := reply, trace';
        reply, trace' := Again(server, path, bearer, reply, retryIndex, trace, trace');
        MidBatchStep(server.data, retryIndex, was, trace, sofar, trace');
        retryIndex := retryIndex + 1;
      }
      MidBatchEnds(server.data, retryIndex, reply, trace, trace');
    }

    /** Header, then batch: the first try and the try with a refreshed token. */
    method Try(server: Server, path: string, now: int, trace: seq<Event>)
      returns (reply: Reply, bearer: bool, trace': seq<Event>)
      requires !readOnly || IsListed(path)
      modifies this
      ensures var end := BatchEnd(server.data, DataRequests(trace), MAX_429_RETRIES);
              && reply == server.data(end)
              && DataRequests(trace') == end + 1
              && Slept(trace') <= Slept(trace) + 15.0
      ensures bearer == (Fresh(old(session), now) || server.login(Logins(trace)).Token?)
      ensures Logins(trace') == Logins(trace) + if Fresh(old(session), now) then 0 else 1
      ensures Fresh(old(session), now) ==> session == old(session)
      ensures readOnly && OnlyPermitted(trace) ==> OnlyPermitted(trace')
    {
      bearer, trace' := AuthHeader(server, now, trace);
      Append(trace, Request(POST, LOGIN_PATH, false));
      reply, trace' := Batch(server, path, bearer, trace');
    }

    /** The switch of the authentication mode: one more batch with the key pair. */
    method FallBack(server: Server, path: string, bearer: bool, last: Reply, trace: seq<Event>)
      returns (reply: Reply, trace': seq<Event>)
      requires !readOnly || IsListed(path)
      requires DataRequests(trace) > 0 && last == server.data(DataRequests(trace) - 1)
      ensures DataRequests(trace') == LastBatch(server, DataRequests(trace) - 1, bearer)
      ensures reply == server.data(DataRequests(trace') - 1)
      ensures Logins(trace') == Logins(trace) && Slept(trace') <= Slept(trace) + 15.0
      ensures readOnly && OnlyPermitted(trace) ==> OnlyPermitted(trace')
    {
      reply, trace' := last, trace;
      if last.Response? && (Unauthorized(last) || !last.isJson) && bearer {
        reply, trace' := Batch(server, path, false, trace);
      }
    }

    /** All requests of a call, in order; the last data reply is the one judged. */
    method Converse(server: Server, path: string, now: int) returns (reply: Reply, trace: seq<Event>)
      requires !readOnly || IsListed(path)
      modifies this
      ensures DataRequests(trace) == Plan(server, Fresh(old(session), now))
      ensures reply == server.data(DataRequests(trace) - 1)
      ensures Logins(trace) <= 2 && Slept(trace) <= 45.0
      ensures readOnly ==> OnlyPermitted(trace)
      ensures Fresh(old(session), now) ==> Logins(trace) == 0 && session == old(session)
    {
      var bearer;
      reply, bearer, trace := Try(server, path, now, []);
      if Unauthorized(reply) && !bearer {
        session := Session(false, None);
        reply, bearer, trace := Try(server, path, now, trace);
      }
      reply, trace := FallBack(server, path, bearer, reply, trace);
    }

    /** Whatever the server does, the call ends after at most 12 data requests, 2 logins and
        45 seconds of waiting; in read-only mode every request is permitted; and it hands
        back a reply if and only if that is the last one and a successful JSON response. Every
        other last reply gives one error: lost, rejected, unsuccessful, or no JSON. */
    method Get(server: Server, path: string, now: int) returns (outcome: Outcome, trace: seq<Event>)
      modifies this
      ensures DataRequests(trace) <= 12 && Logins(trace) <= 2 && Slept(trace) <= 45.0
      ensures readOnly ==> OnlyPermitted(trace)
      ensures readOnly && !IsListed(path) ==>
                outcome == Failed(ReadOnlyViolation) && trace == [] && session == old(session)
      ensures !readOnly || IsListed(path) ==> DataRequests(trace) == Plan(server, Fresh(old(session), now))
      ensures outcome.Served? <==>
                && (readOnly ==> IsListed(path))
                && var last := server.data(DataRequests(trace) - 1);
                   last.Response? && 200 <= last.status < 300 && last.isJson
      ensures outcome.Served? ==> outcome.index == DataRequests(trace) - 1
      ensures !readOnly || IsListed(path) ==>
                var last := server.data(DataRequests(trace) - 1);
                && (outcome == Failed(TransportError) <==> last.Lost?)
                && (outcome == Failed(AuthorizationError) <==> last.Response? && last.status in {401, 403})
                && (outcome == Failed(HttpStatusError) <==>
                    last.Response? && last.status !in {401, 403} && !(200 <= last.status < 300))
                && (outcome == Failed(FormatError) <==> last.Response? && 200 <= last.status < 300 && !last.isJson)
      ensures Fresh(old(session), now) ==> Logins(trace) == 0 && session == old(session)
      ensures Fresh(old(session), now) <==>
                old(session.held) && old(session.expiresAt).Some? && old(session.expiresAt).value > now
    {
      if readOnly && !IsListed(path) {
        return Failed(ReadOnlyViolation), [];
      }
      var reply;
      reply, trace := Converse(server, path, now);
      if reply.Lost? {
        outcome := Failed(TransportError);
      } else if Unauthorized(reply) {
        outcome := Failed(AuthorizationError);
      } else if !(200 <= reply.status < 300) {
        outcome := Failed(HttpStatusError);
      } else if !reply.isJson {
        outcome := Failed(FormatError);
      } else {
        outcome := Served(DataRequests(trace) - 1);
      }
    }
  }

  /** How many data requests the call makes, told by the server's answers alone: one batch;
      a second with a new login if the key pair was rejected; and one last batch with the
      key pair if the bearer token was rejected or the content is not JSON. */
  function Plan(server: Server, live: bool): (r: nat)
    ensures 1 <= r <= 12
  {
    var end1 := BatchEnd(server.data, 0, MAX_429_RETRIES);
    var bearer1 := live || server.login(0).Token?;
    if Unauthorized(server.data(end1)) && !bearer1 then
      var end2 := BatchEnd(server.data, end1 + 1, MAX_429_RETRIES);
      LastBatch(server, end2, server.login(1).Token?)
    else LastBatch(server, end1, bearer1)
  }

  function LastBatch(server: Server, end: nat, bearer: bool): (r: nat)
    ensures end + 1 <= r <= end + 5
  {
    var reply := server.data(end);
    if reply.Response? && (Unauthorized(reply) || !reply.isJson) && bearer
    then BatchEnd(server.data, end + 1, MAX_429_RETRIES) + 1
    else end + 1
  }

  /** Request `i` ends the first batch: all before it are rate-limited, and it is not or there
      have been three retries. */
  predicate EndsFirstBatch(data: nat -> Reply, i: nat)
  {
    && i <= 3
    && (forall j :: 0 <= j < i ==> data(j).Response? && data(j).status == 429)
    && (i < 3 ==> data(i).Lost? || data(i).status != 429)
  }

  lemma FirstBatchEnd(data: nat -> Reply, i: nat)
    requires EndsFirstBatch(data, i)
    ensures BatchEnd(data, 0, MAX_429_RETRIES) == i
  {
    BatchEndIsFirstOther(data, 0, MAX_429_RETRIES);
  }

  /** A read-only trace holds logins and reads of listed paths, and no other request. */
  lemma ReadsOnly(trace: seq<Event>)
    ensures OnlyPermitted(trace) <==>
              forall e :: e in trace && e.Request? ==>
                || (e.verb == POST && e.path == "/api/v4/Account/ApiKeyLogin")
                || (e.verb == GET && exists p :: p in READ_PREFIXES && p <= e.path)
  {
    forall e: Event | e.Request?
      ensures IsListed(e.path) <==> exists p :: p in READ_PREFIXES && p <= e.path
    {
      if IsListed(e.path) {
        var i :| 0 <= i < |READ_PREFIXES| && READ_PREFIXES[i] <= e.path;
        assert READ_PREFIXES[i] in READ_PREFIXES;
      }
    }
  }

  /** How a conversation goes on after its first batch. It is over when the reply is lost, or
      neither rejected nor other than JSON. A rejected token, or content other than JSON under a
      token, costs one more batch; without a token other content ends the call, and a rejection
      always leads to another request. */
  lemma ConversationGoesOn(server: Server, live: bool, i: nat)
    requires EndsFirstBatch(server.data, i)
    ensures var last, token := server.data(i), live || server.login(0).Token?;
            && (last.Lost? ==> Plan(server, live) == i + 1)
            && (last.Response? && last.status !in {401, 403} && last.isJson ==> Plan(server, live) == i + 1)
            && (last.Response? && last.status !in {401, 403} && !last.isJson && !token ==> Plan(server, live) == i + 1)
            && (last.Response? && (last.status in {401, 403} || !last.isJson) && token ==>
                i + 2 <= Plan(server, live) <= i + 5)
            && (last.Response? && last.status in {401, 403} && !token ==> i + 2 <= Plan(server, live) <= i + 9)
  {
    FirstBatchEnd(server.data, i);
  }

  /** A server for which the bound on data requests is met: always rate-limited, except
      that each of the first two batches ends in a rejection. */
  lemma TwelveIsReached()
    ensures var busy := Response(429, true, Some(9.0));
            var server := Server(i => if i == 3 || i == 7 then Response(401, true, None) else busy,
                                 k => if k == 0 then LoginFails else Token(None));
            Plan(server, false) == 12
  {
    var server := Server(i => if i == 3 || i == 7 then Response(401, true, None) else Response(429, true, Some(9.0)),
                         k => if k == 0 then LoginFails else Token(None));
    BatchEndIsFirstOther(server.data, 0, MAX_429_RETRIES);
    BatchEndIsFirstOther(server.data, 4, MAX_429_RETRIES);
    BatchEndIsFirstOther(server.data, 8, MAX_429_RETRIES);
    assert BatchEnd(server.data, 0, 3) == 3 && BatchEnd(server.data, 4, 3) == 7 && BatchEnd(server.data, 8, 3) == 11;
  }
}
