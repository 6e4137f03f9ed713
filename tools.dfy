/** The tool-call router of the receiver loop: what the relay writes back to Voice
    Live when the model asks for one of its three functions. The functions
    themselves (database and e-mail work) are parameters. */
module Tools {
  import opened Wrappers
  import opened Json
  import opened Messages

  /** The three functions the router can call, each as the result it gives (or the
      exception it raises) for the arguments it is called with. */
  datatype Collaborators = Collaborators(
    getClientProducts: Json -> Outcome<Json>,
    createSupportCase: (Json, Json) -> Outcome<Json>,
    sendConversationSummary: (Json, Json) -> Outcome<Json>)

  /** A function name the router has a branch for. Names are compared with `==`,
      so only a JSON string can match. */
  predicate Routed(name: Json) {
    name == Str(GetClientProducts) || name == Str(CreateSupportCase) || name == Str(SendConversationSummary)
  }

  /** `json.loads(arguments) if isinstance(arguments, str) else arguments`. */
  function ParseArguments(arguments: Json, loads: string -> Outcome<Json>): (r: Outcome<Json>)
    ensures r.Raise? ==> arguments.Str?
    ensures !arguments.Str? ==> r == Ok(arguments)
  {
    if arguments.Str? then loads(arguments.s) else Ok(arguments)
  }

  /** The body of the `try` of one branch: parse the arguments, read the
      parameters with `dict.get`, call the function. */
  function Invoke(name: string, arguments: Json, loads: string -> Outcome<Json>, tools: Collaborators): (r: Outcome<Json>)
    ensures ParseArguments(arguments, loads).Raise? ==> r == ParseArguments(arguments, loads)
    ensures r.Ok? ==> ParseArguments(arguments, loads).Ok? && ParseArguments(arguments, loads).value.Obj?
  {
    match ParseArguments(arguments, loads)
    case Raise(e) => Raise(e)
    case Ok(args) =>
      match Get(args, "client_id", Null)
      case Raise(e) => Raise(e)
      case Ok(clientId) =>
        if name == GetClientProducts then tools.getClientProducts(clientId)
        else if name == CreateSupportCase then
          match Get(args, "description", Null)
          case Raise(e) => Raise(e)
          case Ok(description) => tools.createSupportCase(clientId, description)
        else
          match Get(args, "conversation_summary", Null)
          case Raise(e) => Raise(e)
          case Ok(summary) => tools.sendConversationSummary(clientId, summary)
  }

  /** What the `except` branch reports: `{"error": str(e)}`. */
  function ErrorResult(e: string): Json {
    Obj([Member("error", Str(e))])
  }

  /** The "output" text: `json.dumps` of the result, or of the error report. */
  function OutputText(result: Outcome<Json>): (t: string)
    ensures PrintableAscii(t)
    ensures result.Raise? ==> t == "{\"error\": " + Quote(result.error) + "}"
  {
    match result
    case Ok(v) => DumpsPrintable(v); Dumps(v)
    case Raise(e) => DumpsPrintable(ErrorResult(e)); ErrorText(e); Dumps(ErrorResult(e))
  }

  /** The messages the receiver loop writes for a `response.function_call_arguments.done`
      event, in order, when every write succeeds: nothing for a name without a
      branch, otherwise the function's output under the event's call id and then a
      request for a new response. */
  function ToolReply(name: Json, arguments: Json, callId: Json, loads: string -> Outcome<Json>, tools: Collaborators)
    : (r: seq<Upstream>)
    ensures r == [] <==> !Routed(name)
    ensures Routed(name) ==> |r| == 2 && r[0].FunctionCallOutput? && r[0].callId == callId && r[1] == ResponseCreate
  {
    if Routed(name) then
      [FunctionCallOutput(callId, OutputText(Invoke(name.s, arguments, loads, tools))), ResponseCreate]
    else []
  }

  // ---------------------------------------------------------------------------
  // Properties

  /** Every tool the session declares has a branch in the router, and every branch
      is a declared tool. */
  lemma DeclaredToolsAreRouted(name: Json)
    ensures Routed(name) <==> name.Str? && name.s in ToolNames(SessionTools())
  {
  }

  /** Arguments sent as a JSON string and the same arguments already parsed give
      the same reply. */
  lemma ArgumentsParsedOrNot(name: Json, text: string, parsed: Json, callId: Json,
                             loads: string -> Outcome<Json>, tools: Collaborators)
    requires loads(text) == Ok(parsed) && !parsed.Str?
    ensures ToolReply(name, Str(text), callId, loads, tools) == ToolReply(name, parsed, callId, loads, tools)
  {
  }

  /** Each branch calls its function with the "client_id" member and, for the two
      that take one, the "description" or "conversation_summary" member (None when
      missing), and returns what the function returns or raises. */
  lemma InvokeCallsCollaborator(name: string, members: seq<Member>, loads: string -> Outcome<Json>, tools: Collaborators)
    requires Routed(Str(name))
    ensures var clientId := Lookup(members, "client_id").GetOr(Null);
            Invoke(name, Obj(members), loads, tools)
            == if name == GetClientProducts then tools.getClientProducts(clientId)
               else if name == CreateSupportCase
               then tools.createSupportCase(clientId, Lookup(members, "description").GetOr(Null))
               else tools.sendConversationSummary(clientId, Lookup(members, "conversation_summary").GetOr(Null))
  {
  }

  /** Arguments that are not a dict, given directly or as the JSON text of one, make
      `args_dict.get` raise; the reply reports that error. */
  lemma ArgumentsNotADict(name: string, arguments: Json, loads: string -> Outcome<Json>, tools: Collaborators)
    requires Routed(Str(name))
    requires ParseArguments(arguments, loads).Ok? && !ParseArguments(arguments, loads).value.Obj?
    ensures Invoke(name, arguments, loads, tools)
         == Raise("'" + TypeName(ParseArguments(arguments, loads).value) + "' object has no attribute 'get'")
  {
  }

  lemma ErrorMember(k: string, q: string)
    requires k == "error"
    ensures "{" + MemberText(k, q) + "}" == "{\"error\": " + q + "}"
  {
  }

  lemma ErrorTextOver(k: string, e: string)
    requires k == "error"
    ensures Dumps(Obj([Member(k, Str(e))])) == "{\"error\": " + Quote(e) + "}"
  {
    DumpsSingleton(k, Str(e));
    ErrorMember(k, Quote(e));
  }

  /** The text of an error report: `{"error": "<str(e)>"}`. */
  lemma ErrorText(e: string)
    ensures Dumps(ErrorResult(e)) == "{\"error\": " + Quote(e) + "}"
  {
    ErrorTextOver("error", e);
  }

  /** A call that returns has its result written, as `json.dumps` text, under the
      event's call id, and then response.create. */
  lemma ResultIsForwarded(name: Json, arguments: Json, callId: Json, loads: string -> Outcome<Json>, tools: Collaborators)
    requires Routed(name) && Invoke(name.s, arguments, loads, tools).Ok?
    ensures ToolReply(name, arguments, callId, loads, tools)
         == [FunctionCallOutput(callId, Dumps(Invoke(name.s, arguments, loads, tools).value)), ResponseCreate]
  {
  }

  /** A failed call is not dropped: the model still gets a function_call_output
      for the call id, carrying the error text, and then response.create. */
  lemma FailureIsReported(name: Json, arguments: Json, callId: Json, loads: string -> Outcome<Json>, tools: Collaborators)
    requires Routed(name) && Invoke(name.s, arguments, loads, tools).Raise?
    ensures var e := Invoke(name.s, arguments, loads, tools).error;
            ToolReply(name, arguments, callId, loads, tools)
            == [FunctionCallOutput(callId, "{\"error\": " + Quote(e) + "}"), ResponseCreate]
  {
    ErrorText(Invoke(name.s, arguments, loads, tools).error);
  }
}
