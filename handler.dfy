/**
 * `lambda_handler` and `handle_slash_command`: the Discord interaction is
 * classified by its `type`, an application command is answered through the
 * command table and always wrapped in a type-4 reply, and every exception
 * raised on the way becomes a 500 response.
 */
module Handler {
  import opened Wrappers
  import opened PyText
  import opened PyJson
  import opened Counter
  import opened Commands

  /** The JSON body of a response, one constructor per shape the handler emits. */
  datatype Body =
    | Pong                            // {"type": 1}
    | Acknowledged                    // {"message": "OK"}
    | ChannelMessage(content: string) // {"type": 4, "data": {"content": ...}}
    | ErrorReport(error: string)      // {"error": str(e)}

  datatype Response = Response(statusCode: int, body: Body)

  /** What `json.loads` gives for a text: a value, or JSONDecodeError with its text. */
  datatype Decoded = Decoded(value: Json) | Invalid(message: string)

  /** Where `lambda_handler` sends an event. */
  datatype Route = Handshake | ApplicationCommand(data: Json) | Unhandled | Raised(e: PyException)

  const Fallback: string := "Comando no reconocido"

  function ErrorResponse(e: PyException): (r: Response)
    ensures r.statusCode == 500 && r.body == ErrorReport(e.message)
  {
    Response(500, ErrorReport(e.message))
  }

  /** The body `json.loads` receives: the event's `body`, or '' when it has none. */
  function BodyOf(fields: map<string, Json>): (body: Json)
    ensures "body" in fields ==> body == fields["body"]
    ensures "body" !in fields ==> body == JStr("")
  {
    FieldOr(fields, "body", JStr(""))
  }

  /**
   * Lines 18-44 of `lambda_handler` up to the dispatch: read the body, decode
   * it, compare `type` with 1 and 2. An event that is not a dict, a body that
   * is not a string or does not decode, and a payload that is not a dict all
   * raise.
   */
  function Classify(event: Json, loads: string -> Decoded): (route: Route)
    ensures !event.JObj? ==> route.Raised?
    ensures route.Handshake? || route.ApplicationCommand? || route.Unhandled? ==>
      && event.JObj? && BodyOf(event.fields).JStr?
      && loads(BodyOf(event.fields).s).Decoded?
      && loads(BodyOf(event.fields).s).value.JObj?
    ensures route.ApplicationCommand? ==> route.data == loads(BodyOf(event.fields).s).value
  {
    match Get(event, "headers", EmptyDict)
    case Failure(e) => Raised(e)
    case Success(_) =>
      var body := BodyOf(event.fields);
      if !body.JStr? then
        Raised(PyException(TypeError, "the JSON object must be str, bytes or bytearray, not " + TypeName(body)))
      else
        match loads(body.s)
        case Invalid(message) => Raised(PyException(JSONDecodeError, message))
        case Decoded(data) =>
          match Get(data, "type", JNull)
          case Failure(e) => Raised(e)
          case Success(kind) =>
            if PyEquals(kind, 1) then Handshake
            else if PyEquals(kind, 2) then ApplicationCommand(data)
            else Unhandled
  }

  /** The arguments `handle_slash_command` passes to `process_command`. */
  datatype SlashCall = SlashCall(command: string, username: Json)

  /**
   * Lines 58-63: `data.data.name` (default '') behind a "/", and
   * `data.member.user.username` (default 'Usuario'); a `data`, `member` or
   * `user` that is present but not a dict raises AttributeError.
   */
  function SlashArguments(data: Json): (r: Result<SlashCall, PyException>)
    ensures r.Failure? ==> r.error.kind == AttributeError
    ensures r.Success? ==> |r.value.command| > 0 && r.value.command[0] == '/'
    ensures r.Success? <==>
      && data.JObj?
      && FieldOr(data.fields, "data", EmptyDict).JObj?
      && FieldOr(data.fields, "member", EmptyDict).JObj?
      && FieldOr(FieldOr(data.fields, "member", EmptyDict).fields, "user", EmptyDict).JObj?
    ensures r.Success? ==>
      var name := FieldOr(FieldOr(data.fields, "data", EmptyDict).fields, "name", JStr(""));
      var user := FieldOr(FieldOr(data.fields, "member", EmptyDict).fields, "user", EmptyDict);
      r.value == SlashCall("/" + PyStr(name), FieldOr(user.fields, "username", JStr("Usuario")))
  {
    match Get(data, "data", EmptyDict)
    case Failure(e) => Failure(e)
    case Success(commandData) =>
      match Get(commandData, "name", JStr(""))
      case Failure(e) => Failure(e)
      case Success(commandName) =>
        match Get(data, "member", EmptyDict)
        case Failure(e) => Failure(e)
        case Success(member) =>
          match Get(member, "user", EmptyDict)
          case Failure(e) => Failure(e)
          case Success(user) =>
            match Get(user, "username", JStr("Usuario"))
            case Failure(e) => Failure(e)
            case Success(username) => Success(SlashCall("/" + PyStr(commandName), username))
  }

  /** Lines 65-84: a non-empty answer is sent as it is, anything else as the fallback text. */
  function SlashReply(content: Option<string>): (r: Response)
    ensures r.statusCode == 200 && r.body.ChannelMessage? && |r.body.content| > 0
    ensures content.Some? && content.value != "" ==> r.body.content == content.value
    ensures content.None? ==> r.body.content == Fallback
  {
    if content.Some? && content.value != "" then Response(200, ChannelMessage(content.value))
    else Response(200, ChannelMessage(Fallback))
  }

  datatype SlashOutcome = SlashOutcome(result: Result<Response, PyException>, rows: map<string, int>)

  /** `handle_slash_command(data)`: the response, or the exception it lets escape, and the table afterwards. */
  function SlashCommandOutcome(data: Json, env: Env, rows: map<string, int>): (o: SlashOutcome)
    ensures o.result.Success? ==> o.result.value.statusCode == 200 && o.result.value.body.ChannelMessage?
    ensures o.result.Failure? ==> o.rows == rows && SlashArguments(data).Failure?
    ensures o.rows == rows || o.rows == StatsCommand(rows, env.fault).rows
  {
    match SlashArguments(data)
    case Failure(e) => SlashOutcome(Failure(e), rows)
    case Success(call) =>
      SlashLookup(call.command[1..]);
      assert call.command == "/" + call.command[1..];
      var p := ProcessCommandOutcome(call.command, call.username, env, rows);
      SlashOutcome(Success(SlashReply(p.result.value)), p.rows)
  }

  /** `handle_slash_command` on the bot's table. */
  method HandleSlashCommand(table: CounterTable, data: Json, env: Env) returns (r: Result<Response, PyException>)
    modifies table
    ensures SlashOutcome(r, table.rows) == SlashCommandOutcome(data, env, old(table.rows))
  {
    var call := SlashArguments(data);
    if call.Failure? {
      return Failure(call.error);
    }
    SlashLookup(call.value.command[1..]);
    assert call.value.command == "/" + call.value.command[1..];
    var content := ProcessCommand(table, call.value.command, call.value.username, env);
    r := Success(SlashReply(content.value));
  }

  /** A response and the table after it. */
  datatype Step = Step(response: Response, rows: map<string, int>)

  /** `lambda_handler(event, context)`: every event gets a response, and only a `/stats` command changes the table. */
  function HandlerOutcome(event: Json, loads: string -> Decoded, env: Env, rows: map<string, int>): (s: Step)
    ensures s.response.statusCode == 200 || s.response.statusCode == 500
    ensures s.response.statusCode == 500 <==> s.response.body.ErrorReport?
    ensures s.response.statusCode == 500 ==> s.rows == rows
    ensures s.response.body.ChannelMessage? ==> |s.response.body.content| > 0
    ensures s.rows == rows || s.rows == StatsCommand(rows, env.fault).rows
  {
    match Classify(event, loads)
    case Handshake => Step(Response(200, Pong), rows)
    case Unhandled => Step(Response(200, Acknowledged), rows)
    case Raised(e) => Step(ErrorResponse(e), rows)
    case ApplicationCommand(data) =>
      var o := SlashCommandOutcome(data, env, rows);
      match o.result
      case Success(response) => Step(response, o.rows)
      case Failure(e) => Step(ErrorResponse(e), o.rows)
  }

  /** `lambda_handler` on the bot's table; no exception escapes it. */
  method LambdaHandler(table: CounterTable, event: Json, loads: string -> Decoded, env: Env) returns (r: Response)
    modifies table
    ensures Step(r, table.rows) == HandlerOutcome(event, loads, env, old(table.rows))
  {
    var route := Classify(event, loads);
    match route
    case Handshake => r := Response(200, Pong);
    case Unhandled => r := Response(200, Acknowledged);
    case Raised(e) => r := ErrorResponse(e);
    case ApplicationCommand(data) =>
      var handled := HandleSlashCommand(table, data, env);
      r := if handled.Success? then handled.value else ErrorResponse(handled.error);
  }

  /** The event carries `data` as its decoded body. */
  predicate Carries(event: Json, loads: string -> Decoded, data: Json) {
    event.JObj? && BodyOf(event.fields).JStr? && loads(BodyOf(event.fields).s) == Decoded(data)
  }

  /** A payload whose `type` is 1 gets PONG and leaves the table alone. */
  lemma HandshakeGetsPong(event: Json, loads: string -> Decoded, env: Env, rows: map<string, int>, data: Json)
    requires Carries(event, loads, data)
    requires data.JObj? && "type" in data.fields && PyEquals(data.fields["type"], 1)
    ensures HandlerOutcome(event, loads, env, rows) == Step(Response(200, Pong), rows)
  {
  }

  /** A payload whose `type` is missing or is neither 1 nor 2 is acknowledged and changes nothing. */
  lemma OtherTypesAcknowledged(event: Json, loads: string -> Decoded, env: Env, rows: map<string, int>, data: Json)
    requires Carries(event, loads, data) && data.JObj?
    requires "type" in data.fields ==> !PyEquals(data.fields["type"], 1) && !PyEquals(data.fields["type"], 2)
    ensures HandlerOutcome(event, loads, env, rows) == Step(Response(200, Acknowledged), rows)
  {
  }

  /**
   * An application command whose fields have the shapes Discord sends is
   * always answered with a non-empty type-4 message: the fallback text
   * exactly when its name's first word is no command, the command's answer
   * otherwise.
   */
  lemma CommandAlwaysAnswered(event: Json, loads: string -> Decoded, env: Env, rows: map<string, int>,
                              data: Json, name: string)
    requires Carries(event, loads, data) && data.JObj?
    requires "type" in data.fields && PyEquals(data.fields["type"], 2)
    requires SlashArguments(data).Success? && SlashArguments(data).value.command == "/" + name
    ensures var s := HandlerOutcome(event, loads, env, rows);
      && s.response.statusCode == 200 && s.response.body.ChannelMessage?
      && |s.response.body.content| > 0
      && (Lookup("/" + name) == Success(Unrecognized) ==> s.response.body.content == Fallback)
      && (Lookup("/" + name) != Success(Unrecognized) ==>
            Some(s.response.body.content) == ProcessCommandOutcome("/" + name, SlashArguments(data).value.username, env, rows).result.value)
  {
    SlashLookup(name);
  }

  /**
   * The payload shape Discord sends for a guild command: `data.name` a
   * string and `member.user` a dict, whatever else `member` holds.
   */
  lemma DiscordShapeAccepted(data: Json, name: string, user: map<string, Json>)
    requires data.JObj? && "data" in data.fields && data.fields["data"].JObj?
    requires "name" in data.fields["data"].fields && data.fields["data"].fields["name"] == JStr(name)
    requires "member" in data.fields && data.fields["member"].JObj?
    requires "user" in data.fields["member"].fields && data.fields["member"].fields["user"] == JObj(user)
    ensures SlashArguments(data).Success? && SlashArguments(data).value.command == "/" + name
    ensures SlashArguments(data).value.username == if "username" in user then user["username"] else JStr("Usuario")
  {
  }

  /**
   * A direct-message command carries no `member`: it is still accepted, and
   * the user name falls back to 'Usuario'.
   */
  lemma DirectMessageAccepted(data: Json, name: string)
    requires data.JObj? && "data" in data.fields && data.fields["data"].JObj?
    requires "name" in data.fields["data"].fields && data.fields["data"].fields["name"] == JStr(name)
    requires "member" !in data.fields
    ensures SlashArguments(data) == Success(SlashCall("/" + name, JStr("Usuario")))
  {
  }

  /** An exception anywhere in classification becomes a 500 whose body carries its text; the table is untouched. */
  lemma RaisedIs500(event: Json, loads: string -> Decoded, env: Env, rows: map<string, int>)
    requires Classify(event, loads).Raised?
    ensures HandlerOutcome(event, loads, env, rows) == Step(ErrorResponse(Classify(event, loads).e), rows)
  {
  }

  /**
   * A type-2 payload whose `data`, `member` or `member.user` is present but
   * not a dict raises AttributeError inside `handle_slash_command`; the
   * handler's `except` turns it into a 500 carrying its text, and the table
   * is untouched.
   */
  lemma SlashFailureIs500(event: Json, loads: string -> Decoded, env: Env, rows: map<string, int>, data: Json)
    requires Carries(event, loads, data) && data.JObj?
    requires "type" in data.fields && PyEquals(data.fields["type"], 2)
    requires SlashArguments(data).Failure?
    ensures HandlerOutcome(event, loads, env, rows) == Step(ErrorResponse(SlashArguments(data).error), rows)
  {
    ClassifiedAsCommand(event, loads, data);
  }

  /** `member.user` set to `null` makes `.get('username', ...)` raise on None: status 500 with CPython's text. */
  lemma NullUserIs500(event: Json, loads: string -> Decoded, env: Env, rows: map<string, int>,
                      data: Json, member: map<string, Json>)
    requires Carries(event, loads, data) && data.JObj?
    requires "type" in data.fields && PyEquals(data.fields["type"], 2)
    requires FieldOr(data.fields, "data", EmptyDict).JObj?
    requires "member" in data.fields && data.fields["member"] == JObj(member)
    requires "user" in member && member["user"] == JNull
    ensures HandlerOutcome(event, loads, env, rows)
      == Step(Response(500, ErrorReport("'NoneType' object has no attribute 'get'")), rows)
  {
    NullUserRaises(data, member);
    SlashFailureIs500(event, loads, env, rows, data);
  }

  /** The AttributeError behind `NullUserIs500`. */
  lemma NullUserRaises(data: Json, member: map<string, Json>)
    requires data.JObj? && FieldOr(data.fields, "data", EmptyDict).JObj?
    requires "member" in data.fields && data.fields["member"] == JObj(member)
    requires "user" in member && member["user"] == JNull
    ensures SlashArguments(data) == Failure(PyException(AttributeError, "'NoneType' object has no attribute 'get'"))
  {
    var commandData := FieldOr(data.fields, "data", EmptyDict);
    assert Get(data, "data", EmptyDict) == Success(commandData);
    assert Get(commandData, "name", JStr("")).Success?;
    assert Get(data, "member", EmptyDict) == Success(JObj(member));
    assert Get(JObj(member), "user", EmptyDict) == Success(JNull);
    assert "'" + "NoneType" == "'NoneType";
    assert "'NoneType" + "' object has no attribute 'get'" == "'NoneType' object has no attribute 'get'";
  }

  /** An event without a body decodes '' and so answers 500, not 400. */
  lemma EmptyBodyIs500(fields: map<string, Json>, loads: string -> Decoded, env: Env, rows: map<string, int>)
    requires "body" !in fields || fields["body"] == JStr("")
    requires loads("").Invalid?
    ensures HandlerOutcome(JObj(fields), loads, env, rows)
      == Step(Response(500, ErrorReport(loads("").message)), rows)
  {
  }

  /** A `null` body reaches `json.loads` as None, which raises TypeError: 500 again. */
  lemma NullBodyIs500(fields: map<string, Json>, loads: string -> Decoded, env: Env, rows: map<string, int>)
    requires "body" in fields && fields["body"] == JNull
    ensures HandlerOutcome(JObj(fields), loads, env, rows)
      == Step(Response(500, ErrorReport("the JSON object must be str, bytes or bytearray, not NoneType")), rows)
  {
  }

  /** A type-2 payload is dispatched to the slash-command path. */
  lemma ClassifiedAsCommand(event: Json, loads: string -> Decoded, data: Json)
    requires Carries(event, loads, data) && data.JObj?
    requires "type" in data.fields && PyEquals(data.fields["type"], 2)
    ensures Classify(event, loads) == ApplicationCommand(data)
  {
  }

  /** A name whose first word is "stats", in any letter case, selects `/stats`. */
  lemma StatsSelected(name: string)
    requires Word(Lower(name)) == "stats"
    ensures Lookup("/" + name) == Success(Stats)
  {
    SlashSelects(name, Stats);
  }

  /**
   * `/stats` with a working store raises the stored count by one and reports
   * the new count; with a failing store it reports the placeholder, still as
   * a 200 type-4 message, and leaves the table as it was. Any name whose
   * first word is "stats" in any letter case qualifies.
   */
  lemma StatsCommandEffect(event: Json, loads: string -> Decoded, env: Env, rows: map<string, int>,
                           data: Json, name: string, username: Json)
    requires Carries(event, loads, data) && data.JObj?
    requires "type" in data.fields && PyEquals(data.fields["type"], 2)
    requires SlashArguments(data) == Success(SlashCall("/" + name, username))
    requires Word(Lower(name)) == "stats"
    ensures var s := HandlerOutcome(event, loads, env, rows);
      && s.response.statusCode == 200 && s.response.body.ChannelMessage?
      && (env.fault == NoFault ==>
            && s.rows == rows[StatsKey := CountIn(rows) + 1]
            && ReportedCount(s.response.body.content) == Some(CountIn(rows) + 1))
      && (env.fault != NoFault ==> s.rows == rows && s.response.body.content == StatsUnavailable)
  {
    StatsSelected(name);
    ClassifiedAsCommand(event, loads, data);
    var stats := StatsCommand(rows, env.fault);
    assert ProcessCommandOutcome("/" + name, username, env, rows)
      == CommandOutcome(Success(Some(stats.text)), stats.rows);
    assert HandlerOutcome(event, loads, env, rows) == Step(Response(200, ChannelMessage(stats.text)), stats.rows);
  }

  /** Only `/stats` reaches the table: every other event leaves it as it was. */
  lemma OnlyStatsWrites(event: Json, loads: string -> Decoded, env: Env, rows: map<string, int>)
    ensures var route := Classify(event, loads);
      HandlerOutcome(event, loads, env, rows).rows != rows ==>
        && route.ApplicationCommand?
        && SlashArguments(route.data).Success?
        && Lookup(SlashArguments(route.data).value.command) == Success(Stats)
        && env.fault == NoFault
  {
  }
}
