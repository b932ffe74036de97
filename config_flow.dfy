/**
 * The configuration flow: a user step choosing the connection type, then a step
 * that probes the serial port or the HTTP server before creating the entry.
 */
module Flow {
  import opened Wrappers
  import opened Exceptions
  import opened Const
  import opened Teleinfo

  /** The validated input of each step. */
  datatype UserInput = UserInput(name: string, connectionType: string)
  datatype LocalInput = LocalInput(serialPort: string)
  datatype HttpInput = HttpInput(url: string)

  function UserFields(info: UserInput): map<string, string> {
    map[CONF_NAME := info.name, CONF_CONNECTION_TYPE := info.connectionType]
  }

  function LocalFields(info: LocalInput): map<string, string> {
    map[CONF_LOCAL_SERIAL_PORT := info.serialPort]
  }

  function HttpFields(info: HttpInput): map<string, string> {
    map[CONF_HTTP_URL := info.url]
  }

  /** What a step hands back to the host's flow engine. */
  datatype FlowResult =
    | ShowForm(stepId: string, errors: Option<map<string, string>>, lastStep: bool)
    | CreateEntry(title: string, data: map<string, string>)

  /** The `except` clauses of the serial step, in source order (a bare `except:` follows). */
  const LOCAL_CLAUSES := [SerialExceptionClass, TeleinfoExceptionClass]

  /** The `except` clauses of the HTTP step, in source order (a bare `except:` follows). */
  const HTTP_CLAUSES := [ClientPayloadErrorClass, TeleinfoExceptionClass, ClientConnectionErrorClass,
                         ClientResponseErrorClass, ClientErrorClass, TimeoutErrorClass]

  /** The error code the serial step shows for a failed probe. */
  function ClassifyLocal(e: Exception): (code: string)
    ensures code == ERROR_SERIAL <==> IsInstance(e, SerialExceptionClass)
    ensures code == ERROR_DECODE <==> IsInstance(e, TeleinfoExceptionClass)
    ensures code == ERROR_UNKNOWN <==> forall c :: c in LOCAL_CLAUSES ==> !IsInstance(e, c)
  {
    if IsInstance(e, SerialExceptionClass) then ERROR_SERIAL
    else if IsInstance(e, TeleinfoExceptionClass) then ERROR_DECODE
    else ERROR_UNKNOWN
  }

  /** The error code the HTTP step shows for a failed probe. */
  function ClassifyHttp(e: Exception): (code: string)
    ensures code == ERROR_HTTP_DECODE <==>
      IsInstance(e, ClientPayloadErrorClass) || IsInstance(e, TeleinfoExceptionClass)
    ensures code == ERROR_HTTP_UNAUTHORIZED <==> e == ClientResponseError(401)
    ensures code == ERROR_UNKNOWN <==> forall c :: c in HTTP_CLAUSES ==> !IsInstance(e, c)
    ensures code in {ERROR_HTTP_DECODE, ERROR_HTTP_UNAUTHORIZED, ERROR_HTTP_FAILURE, ERROR_UNKNOWN}
  {
    if IsInstance(e, ClientPayloadErrorClass) then ERROR_HTTP_DECODE
    else if IsInstance(e, TeleinfoExceptionClass) then ERROR_HTTP_DECODE
    else if IsInstance(e, ClientConnectionErrorClass) then ERROR_HTTP_FAILURE
    else if IsInstance(e, ClientResponseErrorClass) then
      (if e.status == 401 then ERROR_HTTP_UNAUTHORIZED else ERROR_HTTP_FAILURE)
    else if IsInstance(e, ClientErrorClass) then ERROR_HTTP_FAILURE
    else if IsInstance(e, TimeoutErrorClass) then ERROR_HTTP_FAILURE
    else ERROR_UNKNOWN
  }

  /** The code each HTTP handler assigns: by clause index, |HTTP_CLAUSES| being the bare `except:`. */
  function HttpHandlerCode(clause: nat, e: Exception): (code: string)
    ensures code == ERROR_HTTP_DECODE <==> clause < 2
    ensures code == ERROR_HTTP_UNAUTHORIZED <==> clause == 3 && e == ClientResponseError(401)
    ensures code == ERROR_UNKNOWN <==> clause >= |HTTP_CLAUSES|
    ensures code in {ERROR_HTTP_DECODE, ERROR_HTTP_UNAUTHORIZED, ERROR_HTTP_FAILURE, ERROR_UNKNOWN}
  {
    if clause < 2 then ERROR_HTTP_DECODE
    else if clause == 3 then (if e.ClientResponseError? && e.status == 401 then ERROR_HTTP_UNAUTHORIZED else ERROR_HTTP_FAILURE)
    else if clause < |HTTP_CLAUSES| then ERROR_HTTP_FAILURE
    else ERROR_UNKNOWN
  }

  /** The code shown is that of the first clause that catches the exception. */
  lemma ClassifyHttpIsFirstMatch(e: Exception)
    ensures ClassifyHttp(e) == HttpHandlerCode(FirstCaught(HTTP_CLAUSES, e), e)
  {
    var cs := HTTP_CLAUSES;
    assert cs[1..][1..][1..][1..][1..][1..] == [];
    match e {
      case ClientPayloadError =>
      case TeleinfoException(_) =>
      case ClientConnectionError(_) =>
      case ClientResponseError(_) =>
      case OtherClientError =>
      case TimeoutError =>
      case _ =>
    }
  }

  lemma ClassifyLocalIsFirstMatch(e: Exception)
    ensures ClassifyLocal(e) == [ERROR_SERIAL, ERROR_DECODE, ERROR_UNKNOWN][FirstCaught(LOCAL_CLAUSES, e)]
  {
  }

  /** A server timeout is a connection error first: it is reported as a failure, not through the timeout clause. */
  lemma ConnectionTimeoutIsFailure()
    ensures IsInstance(ClientConnectionError(true), TimeoutErrorClass)
    ensures FirstCaught(HTTP_CLAUSES, ClientConnectionError(true)) == 2
    ensures ClassifyHttp(ClientConnectionError(true)) == ERROR_HTTP_FAILURE
  {
  }

  /** A probe of the status document whose server answers 401 asks for credentials; any other status is a failure. */
  lemma HttpStatusProbe(url: string, server: Server, status: int)
    requires server(StatusUrl(url)) == Failed(ClientResponseError(status))
    ensures Request(url, server).Err?
    ensures ClassifyHttp(Request(url, server).error) ==
      (if status == 401 then ERROR_HTTP_UNAUTHORIZED else ERROR_HTTP_FAILURE)
  {
  }

  /** Entry data the flow creates is accepted by the entry setup. */
  lemma CreatedEntryIsSetUp(config: map<string, string>, user: UserInput)
    requires user.connectionType in {CONF_CONNECTION_TYPE_LOCAL, CONF_CONNECTION_TYPE_HTTP}
    ensures user.connectionType == CONF_CONNECTION_TYPE_LOCAL ==> forall port ::
      ParseEntry(config + UserFields(user) + LocalFields(LocalInput(port))) == Ok(LocalConnection(port))
    ensures user.connectionType == CONF_CONNECTION_TYPE_HTTP ==> forall url ::
      ParseEntry(config + UserFields(user) + HttpFields(HttpInput(url))) == Ok(HttpConnection(url))
  {
  }

  class ConfigFlow {
    var config: map<string, string>

    /** The user step has run: the entry's name and connection type are known. */
    predicate Started()
      reads this
    {
      CONF_NAME in config && CONF_CONNECTION_TYPE in config
    }

    constructor ()
      ensures config == map[]
    {
      config := map[];
    }

    method StepUser(info: Option<UserInput>) returns (r: Result<FlowResult, Exception>)
      modifies this
      ensures info.None? ==> r == Ok(ShowForm("user", None, false)) && config == old(config)
      ensures info.Some? && info.value.connectionType == CONF_CONNECTION_TYPE_LOCAL ==>
        r == Ok(ShowForm("mode_local", Some(map[]), true)) && config == old(config) + UserFields(info.value)
      ensures info.Some? && info.value.connectionType == CONF_CONNECTION_TYPE_HTTP ==>
        r == Ok(ShowForm("mode_http", Some(map[]), true)) && config == old(config) + UserFields(info.value)
      ensures info.Some? && info.value.connectionType !in {CONF_CONNECTION_TYPE_LOCAL, CONF_CONNECTION_TYPE_HTTP} ==>
        r == Err(GenericException("Invalid mode")) && config == old(config)
      ensures r.Ok? && info.Some? ==> Started()
    {
      if info.None? {
        return Ok(ShowForm("user", None, false));
      }
      var input := info.value;
      if input.connectionType == CONF_CONNECTION_TYPE_LOCAL {
        config := config + UserFields(input);
        var form := StepModeLocal(None, _ => None);
        r := Ok(form);
      } else if input.connectionType == CONF_CONNECTION_TYPE_HTTP {
        config := config + UserFields(input);
        var form := StepModeHttp(None, _ => Failed(TimeoutError));
        r := Ok(form);
      } else {
        r := Err(GenericException("Invalid mode"));
      }
    }

    /**
     * The serial step; `attempt` is the probe of a port (open it, read one value),
     * giving the exception it raised, if any.
     */
    method StepModeLocal(info: Option<LocalInput>, attempt: string -> Option<Exception>) returns (r: FlowResult)
      modifies this
      ensures info.None? ==> r == ShowForm("mode_local", Some(map[]), true) && config == old(config)
      ensures info.Some? && attempt(info.value.serialPort).Some? ==>
        r == ShowForm("mode_local", Some(map[CONF_LOCAL_SERIAL_PORT := ClassifyLocal(attempt(info.value.serialPort).value)]), true)
        && config == old(config)
      ensures info.Some? && attempt(info.value.serialPort).None? ==> config == old(config) + LocalFields(info.value)
      ensures info.Some? && attempt(info.value.serialPort).None? && CONF_NAME in config ==>
        r == CreateEntry(config[CONF_NAME], config)
      // the title lookup fails inside the `try`, so the bare `except:` reports it
      ensures info.Some? && attempt(info.value.serialPort).None? && CONF_NAME !in config ==>
        r == ShowForm("mode_local", Some(map[CONF_LOCAL_SERIAL_PORT := ERROR_UNKNOWN]), true)
      ensures old(Started()) ==> Started()
    {
      var errors := map[];
      if info.Some? {
        var failure := attempt(info.value.serialPort);
        if failure.None? {
          config := config + LocalFields(info.value);
          if CONF_NAME in config {
            return CreateEntry(config[CONF_NAME], config);
          }
          errors := errors[CONF_LOCAL_SERIAL_PORT := ERROR_UNKNOWN];
        } else {
          errors := errors[CONF_LOCAL_SERIAL_PORT := ClassifyLocal(failure.value)];
        }
      }
      r := ShowForm("mode_local", Some(errors), true);
    }

    /** The HTTP step; `server` answers the probe request for the status document. */
    method StepModeHttp(info: Option<HttpInput>, server: Server) returns (r: FlowResult)
      modifies this
      ensures info.None? ==> r == ShowForm("mode_http", Some(map[]), true) && config == old(config)
      ensures info.Some? && Request(info.value.url, server).Err? ==>
        r == ShowForm("mode_http", Some(map[CONF_HTTP_URL := ClassifyHttp(Request(info.value.url, server).error)]), true)
        && config == old(config)
      ensures info.Some? && Request(info.value.url, server).Ok? ==> config == old(config) + HttpFields(info.value)
      ensures info.Some? && Request(info.value.url, server).Ok? && CONF_NAME in config ==>
        r == CreateEntry(config[CONF_NAME], config)
      ensures info.Some? && Request(info.value.url, server).Ok? && CONF_NAME !in config ==>
        r == ShowForm("mode_http", Some(map[CONF_HTTP_URL := ERROR_UNKNOWN]), true)
      ensures old(Started()) ==> Started()
    {
      var errors := map[];
      if info.Some? {
        var probe := Request(info.value.url, server);
        if probe.Ok? {
          config := config + HttpFields(info.value);
          if CONF_NAME in config {
            return CreateEntry(config[CONF_NAME], config);
          }
          errors := errors[CONF_HTTP_URL := ERROR_UNKNOWN];
        } else {
          errors := errors[CONF_HTTP_URL := ClassifyHttp(probe.error)];
        }
      }
      r := ShowForm("mode_http", Some(errors), true);
    }
  }
}
