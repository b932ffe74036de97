/**
 * The integration's entry module: fetching and checking the status document of a
 * serial-teleinfo server, polling a reader until it is ready, and the per-entry
 * registry that setup fills and unload empties.
 */
module Teleinfo {
  import opened Wrappers
  import opened Data
  import opened Exceptions
  import opened Const

  /** One meter reading, `SerialHttpValue(value, unit)`. */
  datatype Reading = Reading(value: Json, unit: Json)

  /** A snapshot of readings: code -> reading, in the order the source reported them. */
  type Values = seq<(string, Reading)>

  /** An accepted status document, with its values converted to readings. */
  datatype Status = Status(connected: Json, values: Values, ready: Json)

  /** What a GET of a URL gives back: a decoded JSON body, or the error the HTTP client raised. */
  datatype Response = Body(json: Json) | Failed(error: Exception)

  /** The HTTP side of the world: the response a request to each URL would get. */
  type Server = string -> Response

  const STATUS_FILE := "status.json"

  predicate EndsWith(s: string, suffix: string) {
    |suffix| <= |s| && s[|s| - |suffix|..] == suffix
  }

  /** The address of the status document under a server's base URL. */
  function StatusUrl(url: string): (r: string)
    ensures EndsWith(r, "/status.json")
    ensures |url| <= |r| && r[..|url|] == url
    ensures |r| == |url| + (if EndsWith(url, "/") then |STATUS_FILE| else |STATUS_FILE| + 1)
  {
    if EndsWith(url, "/") then url + STATUS_FILE else url + "/" + STATUS_FILE
  }

  /** Giving the base URL with or without its trailing slash makes no difference. */
  lemma TrailingSlashIrrelevant(url: string)
    requires !EndsWith(url, "/")
    ensures StatusUrl(url + "/") == StatusUrl(url)
  {
    var u := url + "/";
    assert u[|u| - 1..] == "/";
    assert u + STATUS_FILE == url + "/" + STATUS_FILE;
  }

  /** `SerialHttpValue(*v)`: unpack a value of the `values` dict into exactly two fields. */
  function ToReading(v: Json): (r: Result<Reading, Exception>)
    ensures r.Err? ==> r.error == TypeError
    ensures r.Ok? <==>
      (v.Array? && |v.items| == 2) || (v.Str? && |v.s| == 2) || (v.Object? && |v.members| == 2)
    ensures v.Array? && |v.items| == 2 ==> r == Ok(Reading(v.items[0], v.items[1]))
    ensures v.Str? && |v.s| == 2 ==> r == Ok(Reading(Str([v.s[0]]), Str([v.s[1]])))
    ensures v.Object? && |v.members| == 2 ==> r == Ok(Reading(Str(v.members[0].0), Str(v.members[1].0)))
  {
    match v
    case Array(items) =>
      if |items| == 2 then Ok(Reading(items[0], items[1])) else Err(TypeError)
    case Str(s) =>
      // iterating a string yields its characters
      if |s| == 2 then Ok(Reading(Str([s[0]]), Str([s[1]]))) else Err(TypeError)
    case Object(members) =>
      // iterating a dict yields its keys
      if |members| == 2 then Ok(Reading(Str(members[0].0), Str(members[1].0))) else Err(TypeError)
    case _ => Err(TypeError)
  }

  /** The dict comprehension over `values.items()`: same codes, same order, each value unpacked. */
  function ConvertValues(raw: seq<(string, Json)>): (r: Result<Values, Exception>)
    ensures r.Ok? <==> forall i :: 0 <= i < |raw| ==> ToReading(raw[i].1).Ok?
    ensures r.Err? ==> r.error == TypeError
    ensures r.Ok? ==> |r.value| == |raw|
    ensures r.Ok? ==>
      forall i :: 0 <= i < |raw| ==> r.value[i].0 == raw[i].0 && ToReading(raw[i].1) == Ok(r.value[i].1)
  {
    if raw == [] then Ok([])
    else match ToReading(raw[0].1)
      case Err(e) => Err(e)
      case Ok(reading) =>
        match ConvertValues(raw[1..])
        case Err(e) => Err(e)
        case Ok(rest) => Ok([(raw[0].0, reading)] + rest)
  }

  /** A dict whose key set is exactly EXPECTED_HTTP_KEYS. */
  predicate IsStatusDocument(body: Json)
    ensures IsStatusDocument(body) <==> (body.Object? &&
      forall k :: k in Keys(body.members) <==> k == "connected" || k == "values" || k == "ready")
  {
    ExpectedHttpKeysExact();
    body.Object? && Keys(body.members) == EXPECTED_HTTP_KEYS
  }

  /** Check the shape of a decoded status body and convert its values. */
  function Decode(body: Json): (r: Result<Status, Exception>)
    ensures !IsStatusDocument(body) ==> r == Err(TeleinfoException("Not a serial-teleinfo server"))
    ensures IsStatusDocument(body) && !Get(body.members, "values").value.Object? ==> r == Err(AttributeError)
    ensures IsStatusDocument(body) && Get(body.members, "values").value.Object? ==>
      (r.Ok? <==> ConvertValues(Get(body.members, "values").value.members).Ok?)
    ensures (IsStatusDocument(body) && Get(body.members, "values").value.Object? &&
      ConvertValues(Get(body.members, "values").value.members).Err?) ==> r == Err(TypeError)
    ensures r.Ok? ==>
      && IsStatusDocument(body)
      && Some(r.value.connected) == Get(body.members, "connected")
      && Some(r.value.ready) == Get(body.members, "ready")
      && Get(body.members, "values").value.Object?
      && ConvertValues(Get(body.members, "values").value.members) == Ok(r.value.values)
  {
    if !IsStatusDocument(body) then Err(TeleinfoException("Not a serial-teleinfo server"))
    else
      var raw := Get(body.members, "values").value;
      if !raw.Object? then Err(AttributeError)
      else match ConvertValues(raw.members)
        case Err(e) => Err(e)
        case Ok(values) =>
          Ok(Status(Get(body.members, "connected").value, values, Get(body.members, "ready").value))
  }

  /** A payload with a required key missing or an unexpected key added is refused. */
  lemma DecodeRefusesOtherKeySets(members: seq<(string, Json)>, k: string)
    requires (k in EXPECTED_HTTP_KEYS && k !in Keys(members)) || (k !in EXPECTED_HTTP_KEYS && k in Keys(members))
    ensures Decode(Object(members)) == Err(TeleinfoException("Not a serial-teleinfo server"))
  {
  }

  /** The status document a serial-teleinfo server writes for a status (values as [value, unit] pairs). */
  function Encode(s: Status): (j: Json)
    ensures IsStatusDocument(j)
  {
    var doc := Object([("connected", s.connected), ("values", Object(EncodeValues(s.values))), ("ready", s.ready)]);
    assert Keys(doc.members) == EXPECTED_HTTP_KEYS by {
      assert doc.members[0].0 == "connected" && doc.members[1].0 == "values" && doc.members[2].0 == "ready";
    }
    doc
  }

  function EncodeValues(vs: Values): (raw: seq<(string, Json)>)
    ensures |raw| == |vs|
  {
    if vs == [] then [] else [(vs[0].0, Array([vs[0].1.value, vs[0].1.unit]))] + EncodeValues(vs[1..])
  }

  lemma {:induction false} ConvertEncodedValues(vs: Values)
    ensures ConvertValues(EncodeValues(vs)) == Ok(vs)
  {
    if vs != [] {
      var raw := EncodeValues(vs);
      ConvertEncodedValues(vs[1..]);
      assert raw[1..] == EncodeValues(vs[1..]);
      assert ToReading(raw[0].1) == Ok(vs[0].1);
      assert [(vs[0].0, vs[0].1)] + vs[1..] == vs;
    }
  }

  /**
   * A document with exactly the three keys, in whatever order, whose `values` are the
   * [value, unit] pairs of a status, is accepted and read back as that status.
   */
  lemma DecodeEncodedMembers(members: seq<(string, Json)>, s: Status)
    requires Keys(members) == EXPECTED_HTTP_KEYS
    requires Get(members, "connected") == Some(s.connected)
    requires Get(members, "values") == Some(Object(EncodeValues(s.values)))
    requires Get(members, "ready") == Some(s.ready)
    ensures Decode(Object(members)) == Ok(s)
  {
    ConvertEncodedValues(s.values);
  }

  /** The document Encode writes is accepted and read back unchanged. */
  lemma DecodeEncode(s: Status)
    ensures Decode(Encode(s)) == Ok(s)
  {
    var members := Encode(s).members;
    assert Get(members, "connected") == Some(s.connected);
    assert Get(members, "values") == Some(Object(EncodeValues(s.values)));
    assert Get(members, "ready") == Some(s.ready);
    DecodeEncodedMembers(members, s);
  }

  /** `async_request_serial_teleinfo(url)`: fetch the status document under `url` and check it. */
  function Request(url: string, server: Server): (r: Result<Status, Exception>)
    ensures server(StatusUrl(url)).Failed? ==> r == Err(server(StatusUrl(url)).error)
    ensures server(StatusUrl(url)).Body? ==> r == Decode(server(StatusUrl(url)).json)
  {
    match server(StatusUrl(url))
    case Failed(e) => Err(e)
    case Body(j) => Decode(j)
  }

  // ---------------------------------------------------------------------------------
  // Polling. The deadline is modelled as a budget: the i-th observation or request
  // is the i-th one made before the deadline fires; running out raises TimeoutError.

  /** What the background serial reader exposes when it is looked at. */
  datatype WorkerState = WorkerState(ready: bool, values: Values)

  /** The local poll, from observation `i` on: the values of the first ready observation. */
  function LocalOutcome(observed: seq<WorkerState>, i: nat): Result<Values, Exception>
    requires i <= |observed|
    decreases |observed| - i
  {
    if i == |observed| then Err(TimeoutError)
    else if observed[i].ready then Ok(observed[i].values)
    else LocalOutcome(observed, i + 1)
  }

  lemma {:induction false} LocalOutcomeIsFirstReady(observed: seq<WorkerState>, i: nat)
    requires i <= |observed|
    ensures LocalOutcome(observed, i).Ok? <==> exists k :: i <= k < |observed| && observed[k].ready
    ensures LocalOutcome(observed, i).Err? ==> LocalOutcome(observed, i).error == TimeoutError
    ensures forall k :: i <= k < |observed| && observed[k].ready && (forall j :: i <= j < k ==> !observed[j].ready) ==>
      LocalOutcome(observed, i) == Ok(observed[k].values)
    decreases |observed| - i
  {
    if i < |observed| {
      LocalOutcomeIsFirstReady(observed, i + 1);
    }
  }

  /** The local `async_update`: wait until the reader is ready, then hand over its values. */
  method PollLocal(observed: seq<WorkerState>) returns (r: Result<Values, Exception>)
    ensures r == LocalOutcome(observed, 0)
  {
    var i := 0;
    while i < |observed| && !observed[i].ready
      invariant i <= |observed|
      invariant LocalOutcome(observed, i) == LocalOutcome(observed, 0)
    {
      i := i + 1;
    }
    if i == |observed| {
      r := Err(TimeoutError);
    } else {
      r := Ok(observed[i].values);
    }
  }

  /** A request's outcome that makes the poll wait and refetch: a document whose `ready` is false. */
  predicate NotReady(answer: Result<Status, Exception>) {
    answer.Ok? && !Truthy(answer.value.ready)
  }

  /**
   * The refetch loop, from answer `i` on, given what each successive request gets:
   * the first error is raised, the first ready document gives its values.
   */
  function Retry(answers: seq<Result<Status, Exception>>, i: nat): Result<Values, Exception>
    requires i <= |answers|
    decreases |answers| - i
  {
    if i == |answers| then Err(TimeoutError)
    else match answers[i]
      case Err(e) => Err(e)
      case Ok(status) => if Truthy(status.ready) then Ok(status.values) else Retry(answers, i + 1)
  }

  /** What the poll's successive requests get: the k-th goes to `servers[k]`, for the configured URL. */
  function Answers(url: string, servers: seq<Server>): (rs: seq<Result<Status, Exception>>)
    ensures |rs| == |servers|
    ensures forall k :: 0 <= k < |servers| ==> rs[k] == Request(url, servers[k])
  {
    seq(|servers|, k requires 0 <= k < |servers| => Request(url, servers[k]))
  }

  /** The HTTP poll from request `i` on; `servers[k]` answers the k-th request. */
  function HttpOutcome(url: string, servers: seq<Server>, i: nat): Result<Values, Exception>
    requires i <= |servers|
  {
    Retry(Answers(url, servers), i)
  }

  /** No request is answered with a ready document before the deadline: the poll times out. */
  lemma {:induction false} RetryTimesOut(answers: seq<Result<Status, Exception>>, i: nat)
    requires i <= |answers|
    requires forall k :: i <= k < |answers| ==> NotReady(answers[k])
    ensures Retry(answers, i) == Err(TimeoutError)
    decreases |answers| - i
  {
    if i < |answers| {
      assert NotReady(answers[i]);
      RetryTimesOut(answers, i + 1);
    }
  }

  /** The first request that fails or is answered ready decides the poll. */
  lemma {:induction false} RetryAtFirstAnswer(answers: seq<Result<Status, Exception>>, i: nat, k: nat)
    requires i <= k < |answers|
    requires forall j :: i <= j < k ==> NotReady(answers[j])
    requires !NotReady(answers[k])
    ensures Retry(answers, i) ==
      match answers[k]
      case Err(e) => Err(e)
      case Ok(s) => Ok(s.values)
    decreases k - i
  {
    if i < k {
      assert NotReady(answers[i]);
      RetryAtFirstAnswer(answers, i + 1, k);
    }
  }

  /** Values are only ever returned from a document whose `ready` is true. */
  lemma {:induction false} RetryOkIsReady(answers: seq<Result<Status, Exception>>, i: nat)
    requires i <= |answers|
    ensures Retry(answers, i).Ok? ==>
      exists k :: i <= k < |answers| && answers[k].Ok? && Truthy(answers[k].value.ready)
        && Retry(answers, i).value == answers[k].value.values
    decreases |answers| - i
  {
    if i < |answers| {
      RetryOkIsReady(answers, i + 1);
    }
  }

  /** A request only looks at what the server answers for the status URL. */
  lemma RequestReadsStatusUrl(url: string, a: Server, b: Server)
    requires a(StatusUrl(url)) == b(StatusUrl(url))
    ensures Request(url, a) == Request(url, b)
  {
  }

  /** Every request of a poll goes to the configured URL: nothing else the servers answer matters. */
  lemma HttpOutcomeAsksOnlyStatusUrl(url: string, s1: seq<Server>, s2: seq<Server>)
    requires |s1| == |s2|
    requires forall k :: 0 <= k < |s1| ==> s1[k](StatusUrl(url)) == s2[k](StatusUrl(url))
    ensures HttpOutcome(url, s1, 0) == HttpOutcome(url, s2, 0)
  {
    forall k | 0 <= k < |s1|
      ensures Answers(url, s1)[k] == Answers(url, s2)[k]
    {
      RequestReadsStatusUrl(url, s1[k], s2[k]);
    }
    assert Answers(url, s1) == Answers(url, s2);
  }

  /**
   * The refetch loop as written: the retry calls the request without its URL, and that
   * call raises TypeError (a missing positional argument) before any request is made.
   */
  function RetryAsWritten(answers: seq<Result<Status, Exception>>): (r: Result<Values, Exception>)
    ensures |answers| > 0 && !NotReady(answers[0]) ==> r == Retry(answers, 0)
    ensures |answers| < 2 ==> r == Retry(answers, 0)
    ensures |answers| >= 2 && NotReady(answers[0]) ==> r == Err(TypeError)
  {
    if |answers| == 0 then Err(TimeoutError)
    else match answers[0]
      case Err(e) => Err(e)
      case Ok(status) =>
        if Truthy(status.ready) then Ok(status.values)
        else if |answers| == 1 then Err(TimeoutError)
        else Err(TypeError)
  }

  /**
   * A server that is not ready on the first request but ready on the second: as written
   * the poll fails with TypeError, while refetching the configured URL returns the values.
   */
  lemma RetryWithoutUrlFails(answers: seq<Result<Status, Exception>>)
    requires |answers| == 2 && NotReady(answers[0])
    requires answers[1].Ok? && Truthy(answers[1].value.ready)
    ensures RetryAsWritten(answers) == Err(TypeError)
    ensures Retry(answers, 0) == Ok(answers[1].value.values)
  {
    RetryAtFirstAnswer(answers, 0, 1);
  }

  /** The HTTP `async_update`: fetch, and refetch the same URL until the document is ready. */
  method PollHttp(url: string, servers: seq<Server>) returns (r: Result<Values, Exception>)
    ensures r == HttpOutcome(url, servers, 0)
  {
    if |servers| == 0 {
      return Err(TimeoutError);
    }
    ghost var answers := Answers(url, servers);
    var data := Request(url, servers[0]);
    var i := 1;
    while data.Ok? && !Truthy(data.value.ready)
      invariant 1 <= i <= |servers|
      invariant data == answers[i - 1]
      invariant Retry(answers, 0) == Retry(answers, i - 1)
      decreases |servers| - i
    {
      if i == |servers| {
        return Err(TimeoutError);
      }
      data := Request(url, servers[i]);
      i := i + 1;
    }
    match data
    case Err(e) => r := Err(e);
    case Ok(s) => r := Ok(s.values);
  }

  // ---------------------------------------------------------------------------------
  // Setup and teardown of a configured entry.

  /** The background serial reader (`ValueUpdater`), seen only through its lifecycle. */
  class ValueUpdater {
    const port: string
    var running: bool
    var stopCount: nat

    constructor (port: string)
      ensures this.port == port && !running && stopCount == 0
    {
      this.port := port;
      running := false;
      stopCount := 0;
    }

    method Start()
      modifies this
      ensures running && stopCount == old(stopCount)
    {
      running := true;
    }

    method Stop()
      modifies this
      ensures !running && stopCount == old(stopCount) + 1
    {
      running := false;
      stopCount := stopCount + 1;
    }
  }

  /** The connection an entry's data asks for. */
  datatype Connection = LocalConnection(serialPort: string) | HttpConnection(url: string)

  /** The branch of `async_setup_entry` on the entry's connection type, with its dict lookups. */
  function ParseEntry(data: map<string, string>): (r: Result<Connection, Exception>)
    ensures CONF_CONNECTION_TYPE !in data ==> r == Err(KeyError(CONF_CONNECTION_TYPE))
    ensures r.Ok? ==> CONF_CONNECTION_TYPE in data
    ensures r.Ok? && r.value.LocalConnection? <==>
      CONF_CONNECTION_TYPE in data && data[CONF_CONNECTION_TYPE] == CONF_CONNECTION_TYPE_LOCAL
        && CONF_LOCAL_SERIAL_PORT in data
    ensures r.Ok? && r.value.HttpConnection? <==>
      CONF_CONNECTION_TYPE in data && data[CONF_CONNECTION_TYPE] == CONF_CONNECTION_TYPE_HTTP
        && CONF_HTTP_URL in data
    ensures r.Ok? && r.value.LocalConnection? ==> r.value.serialPort == data[CONF_LOCAL_SERIAL_PORT]
    ensures r.Ok? && r.value.HttpConnection? ==> r.value.url == data[CONF_HTTP_URL]
    ensures (CONF_CONNECTION_TYPE in data && data[CONF_CONNECTION_TYPE] == CONF_CONNECTION_TYPE_LOCAL
      && CONF_LOCAL_SERIAL_PORT !in data) ==> r == Err(KeyError(CONF_LOCAL_SERIAL_PORT))
    ensures (CONF_CONNECTION_TYPE in data && data[CONF_CONNECTION_TYPE] == CONF_CONNECTION_TYPE_HTTP
      && CONF_HTTP_URL !in data) ==> r == Err(KeyError(CONF_HTTP_URL))
    ensures (CONF_CONNECTION_TYPE in data
      && data[CONF_CONNECTION_TYPE] !in {CONF_CONNECTION_TYPE_LOCAL, CONF_CONNECTION_TYPE_HTTP}) ==>
      r == Err(GenericException("Invalid connection type"))
  {
    if CONF_CONNECTION_TYPE !in data then Err(KeyError(CONF_CONNECTION_TYPE))
    else if data[CONF_CONNECTION_TYPE] == CONF_CONNECTION_TYPE_LOCAL then
      if CONF_LOCAL_SERIAL_PORT in data then Ok(LocalConnection(data[CONF_LOCAL_SERIAL_PORT]))
      else Err(KeyError(CONF_LOCAL_SERIAL_PORT))
    else if data[CONF_CONNECTION_TYPE] == CONF_CONNECTION_TYPE_HTTP then
      if CONF_HTTP_URL in data then Ok(HttpConnection(data[CONF_HTTP_URL]))
      else Err(KeyError(CONF_HTTP_URL))
    else Err(GenericException("Invalid connection type"))
  }

  /** What a coordinator's update method polls. */
  datatype UpdateMethod = LocalUpdate(worker: ValueUpdater) | HttpUpdate(url: string)

  /** A `DataUpdateCoordinator`: its name, its update method and its interval in seconds. */
  datatype Coordinator = Coordinator(name: Option<string>, update: UpdateMethod, interval: nat)

  /** The registry value of one entry: `{update_thread: ..., coordinator: ...}`. */
  datatype RegistryEntry = RegistryEntry(updateThread: Option<ValueUpdater>, coordinator: Coordinator)

  /** The registry entry matches its connection: a local entry owns a worker, which its coordinator polls. */
  predicate WellFormedEntry(e: RegistryEntry) {
    match e.coordinator.update
    case LocalUpdate(w) => e.updateThread == Some(w)
    case HttpUpdate(_) => e.updateThread.None?
  }

  /** `hass.data[DOMAIN]`: entry id -> registry entry. */
  class Registry {
    var entries: map<string, RegistryEntry>

    /** The workers of the registered entries. */
    function Workers(): set<ValueUpdater>
      reads this
    {
      set id | id in entries && entries[id].updateThread.Some? :: entries[id].updateThread.value
    }

    /** Every registered entry is well formed, its worker running and owned by it alone. */
    ghost predicate Valid()
      reads this, Workers()
    {
      forall id :: id in entries ==>
        && WellFormedEntry(entries[id])
        && (entries[id].updateThread.Some? ==>
              && entries[id].updateThread.value.running
              && entries[id].updateThread.value.stopCount == 0
              && forall other :: other in entries && other != id ==>
                   entries[other].updateThread != entries[id].updateThread)
    }

    /** `async_setup`: the domain's registry starts empty. */
    constructor ()
      ensures Valid() && entries == map[]
    {
      entries := map[];
    }

    /** The registry part of `async_setup_entry`. */
    method SetupEntry(entryId: string, data: map<string, string>) returns (r: Result<bool, Exception>)
      requires Valid()
      modifies this
      ensures Valid()
      ensures ParseEntry(data).Err? ==> r == Err(ParseEntry(data).error) && entries == old(entries)
      ensures ParseEntry(data).Ok? ==>
        r == Ok(true) && entryId in entries && entries == old(entries)[entryId := entries[entryId]]
      ensures ParseEntry(data).Ok? ==>
        var e := entries[entryId];
        && e.coordinator.name == (if CONF_NAME in data then Some(data[CONF_NAME]) else None)
        && e.coordinator.interval == SCAN_INTERVAL
        && match ParseEntry(data).value
           case LocalConnection(port) =>
             e.updateThread.Some? && fresh(e.updateThread.value) && e.updateThread.value.port == port
             && e.coordinator.update == LocalUpdate(e.updateThread.value)
           case HttpConnection(url) =>
             e.updateThread == None && e.coordinator.update == HttpUpdate(url)
    {
      var conn := ParseEntry(data);
      if conn.Err? {
        return Err(conn.error);
      }
      var name := if CONF_NAME in data then Some(data[CONF_NAME]) else None;
      var entry;
      match conn.value {
        case LocalConnection(port) =>
          var worker := new ValueUpdater(port);
          worker.Start();
          entry := RegistryEntry(Some(worker), Coordinator(name, LocalUpdate(worker), SCAN_INTERVAL));
        case HttpConnection(url) =>
          entry := RegistryEntry(None, Coordinator(name, HttpUpdate(url), SCAN_INTERVAL));
      }
      entries := entries[entryId := entry];
      r := Ok(true);
    }

    /** The registry part of `async_unload_entry`: stop the entry's worker, if any, and drop the entry. */
    method UnloadEntry(entryId: string) returns (r: Result<bool, Exception>)
      requires Valid()
      modifies this, if entryId in entries && entries[entryId].updateThread.Some?
                     then {entries[entryId].updateThread.value} else {}
      ensures Valid()
      ensures entryId !in old(entries) ==> r == Err(KeyError(entryId)) && entries == old(entries)
      ensures entryId in old(entries) ==> r == Ok(true) && entries == old(entries) - {entryId}
      ensures entryId in old(entries) && old(entries)[entryId].updateThread.Some? ==>
        var w := old(entries)[entryId].updateThread.value;
        !w.running && w.stopCount == 1
    {
      if entryId !in entries {
        return Err(KeyError(entryId));
      }
      var thread := entries[entryId].updateThread;
      if thread.Some? {
        thread.value.Stop();
      }
      entries := entries - {entryId};
      r := Ok(true);
    }
  }
}
