/**
 * The tool registry and dispatcher of tools.py, and the tools themselves at the level of their
 * own logic. Side effects (HTTP, files, the clock, the environment) come from a `World` of
 * oracles; Python's keyword binding and the exceptions the tools raise or catch are explicit.
 */
module Tools {
  import opened Wrappers
  import opened Text
  import opened JsonValues

  /** `ToolResult`: `data` is None (JNull) on failure, `error` is None on success. */
  datatype ToolResult = ToolResult(success: bool, data: Json, error: Option<string>)

  function Succeeded(data: Json): ToolResult {
    ToolResult(true, data, None)
  }

  function Failed(message: string): ToolResult {
    ToolResult(false, JNull, Some(message))
  }

  /** Exactly one of `data` and `error` carries meaning, as `success` says. */
  predicate WellFormed(r: ToolResult) {
    (r.success <==> r.error.None?) && (!r.success ==> r.data == JNull)
  }

  /** The exception classes whose difference matters: `validate_json` catches only the first. */
  datatype ErrorKind = JsonDecodeError | TypeError | AttributeError

  /** A Python call either returns a value or raises an exception with a message (`str(e)`). */
  datatype Raising<T> = Returned(value: T) | Raised(kind: ErrorKind, message: string)

  // ---------------------------------------------------------------------------------------
  // The outside world

  /** The request `requests` is asked to send; fields the source does not pass are None. */
  datatype HttpRequest = HttpRequest(verb: string, url: Json, headers: Json, body: Json, params: Json, timeout: nat)

  /** What the HTTP library gives back: an exception (connection, invalid URL, timeout, ...) or a
      response, with the error `raise_for_status` raises for its status, if any. */
  datatype HttpReply =
    | Unreachable(message: string)
    | Response(status: int, text: string, statusError: Option<string>)

  /** The environment, the network, the file system and the clock. */
  datatype World = World(
    env: map<string, string>,
    http: HttpRequest -> HttpReply,
    readFile: Json -> Result<string>,
    writeFile: (Json, Json) -> Option<string>,
    now: string)

  const RequestTimeout: nat := 10

  // ---------------------------------------------------------------------------------------
  // APITool.call_api

  predicate SupportedMethod(httpMethod: Json) {
    httpMethod == JStr("GET") || httpMethod == JStr("POST") || httpMethod == JStr("PUT") || httpMethod == JStr("DELETE")
  }

  /** The request each supported method sends: GET sends params, POST and PUT a JSON body and
      params, DELETE only the headers. */
  function ApiRequest(verb: string, url: Json, headers: Json, data: Json, params: Json): (q: HttpRequest)
    ensures q.verb == verb && q.url == url && q.headers == headers && q.timeout == RequestTimeout
    ensures q.body == (if verb == "POST" || verb == "PUT" then data else JNull)
    ensures q.params == (if verb == "DELETE" then JNull else params)
  {
    HttpRequest(verb, url, headers,
      if verb == "POST" || verb == "PUT" then data else JNull,
      if verb == "DELETE" then JNull else params,
      RequestTimeout)
  }

  /** The result shaping of a reply: an exception or a status error is a failure with its message;
      otherwise the data is the decoded body when the body is not empty, else the status code. */
  function ShapeReply(reply: HttpReply, codec: Codec): (r: ToolResult)
    ensures WellFormed(r)
    ensures r.success <==>
      reply.Response? && reply.statusError.None? && (reply.text == "" || codec.decode(reply.text).Ok?)
  {
    match reply
    case Unreachable(m) => Failed(m)
    case Response(status, text, statusError) =>
      if statusError.Some? then Failed(statusError.value)
      else if text != "" then
        (match codec.decode(text)
         case Ok(v) => Succeeded(v)
         case Err(m) => Failed(m))
      else Succeeded(JInt(status))
  }

  /** `raise_for_status` as `requests` defines it: a response raises exactly when its status is a
      client error (4xx) or a server error (5xx). */
  predicate RaisesForStatus(reply: HttpReply) {
    reply.Response? ==> (reply.statusError.Some? <==> 400 <= reply.status < 600)
  }

  /** Under that rule an error status is a failure with the status error's message, and any other
      status with an empty body is a success carrying the status code. */
  lemma ShapeReplyByStatus(reply: HttpReply, codec: Codec)
    requires reply.Response? && RaisesForStatus(reply)
    ensures 400 <= reply.status < 600 ==>
      && !ShapeReply(reply, codec).success
      && ShapeReply(reply, codec) == Failed(reply.statusError.value)
    ensures !(400 <= reply.status < 600) && reply.text == "" ==>
      ShapeReply(reply, codec) == Succeeded(JInt(reply.status))
  {
  }

  function CallApi(url: Json, httpMethod: Json, headers: Json, data: Json, params: Json,
                   codec: Codec, world: World): (r: ToolResult)
    ensures WellFormed(r)
    ensures r.success ==> SupportedMethod(httpMethod)
  {
    if !SupportedMethod(httpMethod) then Failed("Método " + PyStr(httpMethod) + " não suportado")
    else ShapeReply(world.http(ApiRequest(httpMethod.s, url, headers, data, params)), codec)
  }

  /** A method other than exactly GET, POST, PUT or DELETE fails with the fixed message and sends
      nothing: the result is the same whatever the network would have done. */
  lemma CallApiRejectsMethod(url: Json, httpMethod: Json, headers: Json, data: Json, params: Json,
                             codec: Codec, w1: World, w2: World)
    requires !SupportedMethod(httpMethod)
    ensures CallApi(url, httpMethod, headers, data, params, codec, w1) == Failed("Método " + PyStr(httpMethod) + " não suportado")
    ensures CallApi(url, httpMethod, headers, data, params, codec, w1) == CallApi(url, httpMethod, headers, data, params, codec, w2)
  {
  }

  /** A supported method sends exactly one request built from the arguments and shapes its reply:
      a non-empty body is decoded, an empty one gives the status code, a status error fails. */
  lemma CallApiShapesReply(url: Json, httpMethod: Json, headers: Json, data: Json, params: Json,
                           codec: Codec, world: World)
    requires SupportedMethod(httpMethod)
    ensures var reply := world.http(ApiRequest(httpMethod.s, url, headers, data, params));
      var r := CallApi(url, httpMethod, headers, data, params, codec, world);
      && (reply.Unreachable? ==> r == Failed(reply.message))
      && (reply.Response? && reply.statusError.Some? ==> r == Failed(reply.statusError.value))
      && (reply.Response? && reply.statusError.None? && reply.text == "" ==> r == Succeeded(JInt(reply.status)))
      && (reply.Response? && reply.statusError.None? && reply.text != "" ==>
            r == (if codec.decode(reply.text).Ok? then Succeeded(codec.decode(reply.text).value)
                  else Failed(codec.decode(reply.text).message)))
  {
  }

  /** The same for a whole call: when the network's reply follows `raise_for_status`, a 4xx or
      5xx status makes `call_api` fail with that error. */
  lemma CallApiErrorStatus(url: Json, httpMethod: Json, headers: Json, data: Json, params: Json,
                           codec: Codec, world: World)
    requires SupportedMethod(httpMethod)
    requires var reply := world.http(ApiRequest(httpMethod.s, url, headers, data, params));
      reply.Response? && RaisesForStatus(reply) && 400 <= reply.status < 600
    ensures var reply := world.http(ApiRequest(httpMethod.s, url, headers, data, params));
      var r := CallApi(url, httpMethod, headers, data, params, codec, world);
      && !r.success
      && r.error == Some(reply.statusError.value)
  {
    ShapeReplyByStatus(world.http(ApiRequest(httpMethod.s, url, headers, data, params)), codec);
  }

  // ---------------------------------------------------------------------------------------
  // FileTool, JsonTool, SystemTool

  function ReadFile(filepath: Json, world: World): (r: ToolResult)
    ensures WellFormed(r)
    ensures r.success <==> world.readFile(filepath).Ok?
    ensures r.success ==> r.data == JStr(world.readFile(filepath).value)
  {
    match world.readFile(filepath)
    case Ok(content) => Succeeded(JStr(content))
    case Err(m) => Failed(m)
  }

  /** A file name with no directory part: `os.path.dirname` gives "" for it. */
  predicate BareFileName(filepath: Json) {
    filepath.JStr? && '/' !in filepath.s
  }

  /** What `os.makedirs("")` raises (FileNotFoundError). */
  const MakedirsEmptyError := "[Errno 2] No such file or directory: ''"

  /** The TypeError `os.fspath` raises (inside `os.path.dirname`) for a path that is not text. */
  function FspathTypeError(filepath: Json): string {
    "expected str, bytes or os.PathLike object, not " + TypeName(filepath)
  }

  /** `write_file` first takes the directory name of the path, which raises for a path that is not
      text, then creates the directory, which fails for a bare file name: such writes always fail
      and write nothing. Otherwise the write oracle decides. */
  function WriteFile(filepath: Json, content: Json, world: World): (r: ToolResult)
    ensures WellFormed(r)
    ensures r.success <==>
      filepath.JStr? && !BareFileName(filepath) && world.writeFile(filepath, content).None?
    ensures r.success ==> r.data == JStr("Arquivo salvo: " + PyStr(filepath))
    ensures !filepath.JStr? ==> r == Failed(FspathTypeError(filepath))
    ensures BareFileName(filepath) ==> r == Failed(MakedirsEmptyError)
  {
    if !filepath.JStr? then Failed(FspathTypeError(filepath))
    else if BareFileName(filepath) then Failed(MakedirsEmptyError)
    else match world.writeFile(filepath, content)
      case None => Succeeded(JStr("Arquivo salvo: " + PyStr(filepath)))
      case Some(m) => Failed(m)
  }

  /** A bare file name fails whatever the file system would do. */
  lemma WriteFileBareName(filepath: Json, content: Json, w1: World, w2: World)
    requires BareFileName(filepath)
    ensures WriteFile(filepath, content, w1) == WriteFile(filepath, content, w2) == Failed(MakedirsEmptyError)
  {
  }

  /** So does a path that is not text, with the TypeError of `os.fspath`. */
  lemma WriteFileNonTextPath(filepath: Json, content: Json, w1: World, w2: World)
    requires !filepath.JStr?
    ensures WriteFile(filepath, content, w1) == WriteFile(filepath, content, w2) == Failed(FspathTypeError(filepath))
  {
  }

  /** The TypeError `json.loads` raises for a value that is not text. */
  function LoadsTypeError(content: Json): string {
    "the JSON object must be str, bytes or bytearray, not " + TypeName(content)
  }

  /** `parse_json` catches every exception. */
  function ParseJson(content: Json, codec: Codec): (r: ToolResult)
    ensures WellFormed(r)
    ensures r.success <==> content.JStr? && codec.decode(content.s).Ok?
    ensures r.success ==> r.data == codec.decode(content.s).value
    ensures content.JStr? && codec.decode(content.s).Err? ==> r == Failed(codec.decode(content.s).message)
    ensures !content.JStr? ==> r == Failed(LoadsTypeError(content))
  {
    match content
    case JStr(s) =>
      (match codec.decode(s)
       case Ok(v) => Succeeded(v)
       case Err(m) => Failed(m))
    case _ => Failed(LoadsTypeError(content))
  }

  const ValidData: Json := JObj([("valid", JBool(true))])

  /** `validate_json` catches only JSONDecodeError; the TypeError for a non-text value escapes. */
  function ValidateJson(content: Json, codec: Codec): (r: Raising<ToolResult>)
    ensures content.JStr? ==> r.Returned?
    ensures content.JStr? ==> (r.value == Succeeded(ValidData) <==> codec.decode(content.s).Ok?)
    ensures content.JStr? && codec.decode(content.s).Err? ==>
              r.value == Failed("JSON inválido: " + codec.decode(content.s).message)
    ensures !content.JStr? ==> r == Raised(TypeError, LoadsTypeError(content))
  {
    match content
    case JStr(s) =>
      (match codec.decode(s)
       case Ok(_) => Returned(Succeeded(ValidData))
       case Err(m) => Returned(Failed("JSON inválido: " + m)))
    case _ => Raised(TypeError, LoadsTypeError(content))
  }

  /** `validate_json` accepts exactly the texts `parse_json` decodes, and on the others reports
      the decoder's message behind its own prefix. */
  lemma ValidateAgreesWithParse(content: string, codec: Codec)
    ensures ValidateJson(JStr(content), codec).Returned?
    ensures ValidateJson(JStr(content), codec).value.success <==> ParseJson(JStr(content), codec).success
    ensures !ParseJson(JStr(content), codec).success ==>
      ValidateJson(JStr(content), codec).value.error == Some("JSON inválido: " + ParseJson(JStr(content), codec).error.value)
  {
  }

  function GetTimestamp(world: World): (r: ToolResult)
    ensures WellFormed(r) && r.success && r.data == JStr(world.now)
  {
    Succeeded(JStr(world.now))
  }

  /** `get_env_var`: `if value:` accepts only a set, non-empty variable. */
  function GetEnvVar(varName: Json, env: map<string, string>): (r: Raising<ToolResult>)
    ensures varName.JStr? ==> r.Returned?
    ensures varName.JStr? ==>
      (r.value.success <==> varName.s in env && env[varName.s] != "")
    ensures varName.JStr? && r.value.success ==> r.value == Succeeded(JStr(env[varName.s]))
    ensures varName.JStr? && !r.value.success ==> r.value == Failed("Variável " + varName.s + " não encontrada")
    ensures !varName.JStr? ==> r.Raised? && r.kind == TypeError
  {
    match varName
    case JStr(name) =>
      if name in env && env[name] != "" then Returned(Succeeded(JStr(env[name])))
      else Returned(Failed("Variável " + name + " não encontrada"))
    case _ => Raised(TypeError, "str expected, not " + TypeName(varName))
  }

  // ---------------------------------------------------------------------------------------
  // DebugTool.analyze_error

  /** The suggestion table, in the insertion order the loop visits it. */
  const Suggestions: seq<(string, string)> := [
    ("timeout", "Aumentar o tempo de espera ou verificar conectividade"),
    ("404", "Recurso não encontrado, verificar URL"),
    ("401", "Autenticação necessária, verificar credenciais"),
    ("500", "Erro no servidor, tentar novamente mais tarde"),
    ("connection", "Problema de conexão, verificar internet"),
    ("json", "Problema ao processar JSON, verificar formato")
  ]

  const DefaultSuggestion: string := "Erro desconhecido, tente fornecer mais contexto"

  /** The suggestion of the first entry whose lowercased key occurs in `lowered`. */
  function FirstSuggestion(table: seq<(string, string)>, lowered: string): Option<string> {
    if table == [] then None
    else if Contains(lowered, Lower(table[0].0)) then Some(table[0].1)
    else FirstSuggestion(table[1..], lowered)
  }

  /** The scan finds nothing exactly when no key occurs. */
  lemma {:induction false} FirstSuggestionNone(table: seq<(string, string)>, lowered: string)
    ensures FirstSuggestion(table, lowered).None? <==>
      forall i :: 0 <= i < |table| ==> !Contains(lowered, Lower(table[i].0))
  {
    if table != [] {
      FirstSuggestionNone(table[1..], lowered);
      assert forall i :: 1 <= i < |table| ==> table[i] == table[1..][i - 1];
    }
  }

  /** `matching_suggestion or default`. */
  function SuggestionFor(errorMessage: string): string {
    match FirstSuggestion(Suggestions, Lower(errorMessage))
    case Some(s) => if s != "" then s else DefaultSuggestion
    case None => DefaultSuggestion
  }

  function AnalysisData(errorMessage: string, suggestion: string): Json {
    JObj([("error", JStr(errorMessage)), ("suggestion", JStr(suggestion))])
  }

  /** What `analyze_error` returns for a text message: always a success echoing the message. */
  function Analysis(errorMessage: string): ToolResult {
    Succeeded(AnalysisData(errorMessage, SuggestionFor(errorMessage)))
  }

  /** Every suggestion text in the table is non-empty, so `or default` only applies on no match. */
  predicate SuggestionsFilled(table: seq<(string, string)>) {
    forall i :: 0 <= i < |table| ==> table[i].1 != ""
  }

  lemma SuggestionsAreFilled()
    ensures SuggestionsFilled(Suggestions)
  {
  }

  /** When no key of the table occurs in the lowercased message, the default text is given. */
  lemma SuggestionWhenNoKey(errorMessage: string)
    requires forall i :: 0 <= i < |Suggestions| ==> !Contains(Lower(errorMessage), Lower(Suggestions[i].0))
    ensures SuggestionFor(errorMessage) == DefaultSuggestion
  {
    FirstSuggestionNone(Suggestions, Lower(errorMessage));
  }

  /** The suggestion comes from the first key, in table order, whose lowercase form occurs in the
      lowercased message. */
  lemma SuggestionIsFirstMatch(errorMessage: string, i: nat)
    requires i < |Suggestions| && Contains(Lower(errorMessage), Lower(Suggestions[i].0))
    requires forall j :: 0 <= j < i ==> !Contains(Lower(errorMessage), Lower(Suggestions[j].0))
    ensures SuggestionFor(errorMessage) == Suggestions[i].1
  {
    FirstSuggestionIsAt(Suggestions, Lower(errorMessage), i);
    SuggestionsAreFilled();
  }

  /** The entry at `i` is the first match when its key occurs and no earlier key does. */
  lemma {:induction false} FirstSuggestionIsAt(table: seq<(string, string)>, lowered: string, i: nat)
    requires i < |table| && Contains(lowered, Lower(table[i].0))
    requires forall j :: 0 <= j < i ==> !Contains(lowered, Lower(table[j].0))
    ensures FirstSuggestion(table, lowered) == Some(table[i].1)
  {
    if i > 0 {
      FirstSuggestionIsAt(table[1..], lowered, i - 1);
    }
  }

  /** One step of the table scan: the first match in `table[i..]` is the entry at `i` when its
      key occurs, and the first match in `table[i + 1..]` otherwise. */
  lemma FirstSuggestionStep(table: seq<(string, string)>, lowered: string, i: nat)
    requires i < |table|
    ensures FirstSuggestion(table[i..], lowered) ==
      if Contains(lowered, Lower(table[i].0)) then Some(table[i].1) else FirstSuggestion(table[i + 1..], lowered)
  {
    assert table[i..][0] == table[i];
    assert table[i..][1..] == table[i + 1..];
  }

  /** The loop of `analyze_error`: visit the table in order and stop at the first key found. */
  method ScanSuggestions(table: seq<(string, string)>, lowered: string) returns (matching: Option<string>)
    ensures matching == FirstSuggestion(table, lowered)
  {
    matching := None;
    var i := 0;
    while i < |table|
      invariant 0 <= i <= |table|
      invariant FirstSuggestion(table, lowered) == FirstSuggestion(table[i..], lowered)
    {
      FirstSuggestionStep(table, lowered, i);
      var (key, suggestion) := table[i];
      if Contains(lowered, Lower(key)) {
        matching := Some(suggestion);
        return;
      }
      i := i + 1;
    }
  }

  /** `analyze_error` on a text message: scan the table, then fall back to the default text. */
  method AnalyzeError(errorMessage: string) returns (r: ToolResult)
    ensures r == Analysis(errorMessage)
  {
    var matching := ScanSuggestions(Suggestions, Lower(errorMessage));
    var chosen := if matching.Some? && matching.value != "" then matching.value else DefaultSuggestion;
    r := Succeeded(AnalysisData(errorMessage, chosen));
  }

  /** `analyze_error` as the dispatcher calls it: `.lower()` on a non-text value raises. */
  function AnalyzeErrorAction(errorMessage: Json): Raising<ToolResult> {
    match errorMessage
    case JStr(s) => Returned(Analysis(s))
    case _ => Raised(AttributeError, "'" + TypeName(errorMessage) + "' object has no attribute 'lower'")
  }

  // ---------------------------------------------------------------------------------------
  // The registry

  datatype Tool = ApiTool | FileTool | JsonTool | DebugTool | SystemTool

  /** `TOOLS`: the registry keys. */
  function LookupTool(name: string): (r: Option<Tool>)
    ensures r.Some? <==> name in {"api", "file", "json", "debug", "system"}
  {
    if name == "api" then Some(ApiTool)
    else if name == "file" then Some(FileTool)
    else if name == "json" then Some(JsonTool)
    else if name == "debug" then Some(DebugTool)
    else if name == "system" then Some(SystemTool)
    else None
  }

  function ClassName(t: Tool): string {
    match t
    case ApiTool => "APITool"
    case FileTool => "FileTool"
    case JsonTool => "JsonTool"
    case DebugTool => "DebugTool"
    case SystemTool => "SystemTool"
  }

  /** The static methods of the tool classes. */
  datatype Action = ApiCall | FileRead | FileWrite | JsonParse | JsonValidate | ErrorAnalysis | Timestamp | EnvVar

  function ActionName(a: Action): string {
    match a
    case ApiCall => "call_api"
    case FileRead => "read_file"
    case FileWrite => "write_file"
    case JsonParse => "parse_json"
    case JsonValidate => "validate_json"
    case ErrorAnalysis => "analyze_error"
    case Timestamp => "get_timestamp"
    case EnvVar => "get_env_var"
  }

  function Owner(a: Action): Tool {
    match a
    case ApiCall => ApiTool
    case FileRead => FileTool
    case FileWrite => FileTool
    case JsonParse => JsonTool
    case JsonValidate => JsonTool
    case ErrorAnalysis => DebugTool
    case Timestamp => SystemTool
    case EnvVar => SystemTool
  }

  /** `getattr(tool_class, action, None)` restricted to the class's own methods. */
  function LookupAction(t: Tool, name: string): (r: Option<Action>)
    ensures r.Some? ==> Owner(r.value) == t && ActionName(r.value) == name
    ensures r.None? ==> forall a: Action :: Owner(a) == t ==> ActionName(a) != name
  {
    match t
    case ApiTool => if name == "call_api" then Some(ApiCall) else None
    case FileTool =>
      if name == "read_file" then Some(FileRead) else if name == "write_file" then Some(FileWrite) else None
    case JsonTool =>
      if name == "parse_json" then Some(JsonParse) else if name == "validate_json" then Some(JsonValidate) else None
    case DebugTool => if name == "analyze_error" then Some(ErrorAnalysis) else None
    case SystemTool =>
      if name == "get_timestamp" then Some(Timestamp) else if name == "get_env_var" then Some(EnvVar) else None
  }

  /** Parameter names in declaration order; the first `RequiredCount` have no default. */
  function Parameters(a: Action): seq<string> {
    match a
    case ApiCall => ["url", "method", "headers", "data", "params"]
    case FileRead => ["filepath"]
    case FileWrite => ["filepath", "content"]
    case JsonParse => ["content"]
    case JsonValidate => ["content"]
    case ErrorAnalysis => ["error_message"]
    case Timestamp => []
    case EnvVar => ["var_name"]
  }

  function RequiredCount(a: Action): (n: nat)
    ensures n <= |Parameters(a)|
  {
    match a
    case ApiCall => 1
    case FileWrite => 2
    case Timestamp => 0
    case _ => 1
  }

  function Required(a: Action): seq<string> {
    Parameters(a)[..RequiredCount(a)]
  }

  /** The defaults of `call_api`'s optional parameters. */
  function DefaultValue(name: string): Json {
    if name == "method" then JStr("GET") else JNull
  }

  // ---------------------------------------------------------------------------------------
  // Calling a static method with `**kwargs`

  function Names(kwargs: seq<(string, Json)>): (r: seq<string>)
    ensures |r| == |kwargs| && forall i :: 0 <= i < |kwargs| ==> r[i] == kwargs[i].0
  {
    seq(|kwargs|, i requires 0 <= i < |kwargs| => kwargs[i].0)
  }

  /** The first keyword, in call order, that names no parameter. */
  function UnexpectedKeyword(params: seq<string>, kwargs: seq<(string, Json)>): (r: Option<string>)
    ensures r.None? <==> forall i :: 0 <= i < |kwargs| ==> kwargs[i].0 in params
    ensures r.Some? ==>
      exists i :: 0 <= i < |kwargs| && kwargs[i].0 == r.value && r.value !in params
        && forall j :: 0 <= j < i ==> kwargs[j].0 in params
  {
    if kwargs == [] then None
    else if kwargs[0].0 !in params then Some(kwargs[0].0)
    else
      var r := UnexpectedKeyword(params, kwargs[1..]);
      assert forall i :: 1 <= i < |kwargs| ==> kwargs[i] == kwargs[1..][i - 1];
      r
  }

  /** The required parameters no keyword supplies, in declaration order. */
  function MissingArguments(required: seq<string>, given: seq<string>): (r: seq<string>)
    ensures forall x :: x in r <==> x in required && x !in given
    ensures |r| <= |required|
  {
    if required == [] then []
    else (if required[0] in given then [] else [required[0]]) + MissingArguments(required[1..], given)
  }

  /** `'a'`, `'a' and 'b'`, `'a', 'b', and 'c'`. */
  function QuotedNames(names: seq<string>): string {
    if |names| == 0 then ""
    else if |names| == 1 then "'" + names[0] + "'"
    else if |names| == 2 then "'" + names[0] + "' and '" + names[1] + "'"
    else QuotedList(names)
  }

  /** Three or more names: `'a', 'b', and 'c'`. */
  function QuotedList(names: seq<string>): string
    requires |names| >= 2
  {
    if |names| == 2 then "'" + names[0] + "', and '" + names[1] + "'"
    else "'" + names[0] + "', " + QuotedList(names[1..])
  }

  function QualName(a: Action): string {
    ClassName(Owner(a)) + "." + ActionName(a)
  }

  function UnexpectedMessage(a: Action, keyword: string): string {
    QualName(a) + "() got an unexpected keyword argument '" + keyword + "'"
  }

  function MissingMessage(a: Action, missing: seq<string>): string {
    QualName(a) + "() missing " + NatToString(|missing|) + " required positional argument"
      + (if |missing| == 1 then "" else "s") + ": " + QuotedNames(missing)
  }

  /** The value a parameter is bound to: the keyword's value, or the default. */
  function ArgumentValue(kwargs: seq<(string, Json)>, name: string): Json {
    if name in Names(kwargs) then Get(kwargs, name) else DefaultValue(name)
  }

  /** Python's binding of keyword arguments to parameters: an unknown keyword is reported first,
      then every missing required parameter; otherwise each parameter gets its keyword's value or
      its default. */
  function Bind(a: Action, kwargs: seq<(string, Json)>): (r: Result<map<string, Json>>)
    ensures r.Ok? <==>
      (forall i :: 0 <= i < |kwargs| ==> kwargs[i].0 in Parameters(a))
      && forall p :: p in Required(a) ==> p in Names(kwargs)
    ensures r.Ok? ==> forall p :: p in r.value <==> p in Parameters(a)
    ensures r.Ok? ==> forall p :: p in Parameters(a) ==> r.value[p] == ArgumentValue(kwargs, p)
    ensures UnexpectedKeyword(Parameters(a), kwargs).Some? ==>
      r == Err(UnexpectedMessage(a, UnexpectedKeyword(Parameters(a), kwargs).value))
  {
    var params := Parameters(a);
    match UnexpectedKeyword(params, kwargs)
    case Some(k) => Err(UnexpectedMessage(a, k))
    case None =>
      var missing := MissingArguments(Required(a), Names(kwargs));
      if missing != [] then
        assert missing[0] in Required(a) && missing[0] !in Names(kwargs);
        Err(MissingMessage(a, missing))
      else
        assert forall p :: p !in missing;
        Ok(map p | p in params :: ArgumentValue(kwargs, p))
  }

  /** Run a bound action. */
  function RunAction(a: Action, args: map<string, Json>, codec: Codec, world: World): Raising<ToolResult>
    requires forall p :: p in Parameters(a) ==> p in args
  {
    match a
    case ApiCall =>
      Returned(CallApi(args["url"], args["method"], args["headers"], args["data"], args["params"], codec, world))
    case FileRead => Returned(ReadFile(args["filepath"], world))
    case FileWrite => Returned(WriteFile(args["filepath"], args["content"], world))
    case JsonParse => Returned(ParseJson(args["content"], codec))
    case JsonValidate => ValidateJson(args["content"], codec)
    case ErrorAnalysis => AnalyzeErrorAction(args["error_message"])
    case Timestamp => Returned(GetTimestamp(world))
    case EnvVar => GetEnvVar(args["var_name"], world.env)
  }

  // ---------------------------------------------------------------------------------------
  // execute_tool

  /** `execute_tool(tool_name, action, **kwargs)`. The membership test on the registry raises for
      an unhashable name, `getattr` raises for a name that is not text; everything the action
      itself raises, including a binding error, becomes a failed result. */
  function ExecuteTool(toolName: Json, action: Json, kwargs: seq<(string, Json)>, codec: Codec, world: World)
    : (r: Raising<ToolResult>)
    ensures (toolName.JArr? || toolName.JObj?) ==> r.Raised? && r.kind == TypeError
    ensures r.Raised? ==> r.kind == TypeError
  {
    if toolName.JArr? || toolName.JObj? then Raised(TypeError, "unhashable type: '" + TypeName(toolName) + "'")
    else if !toolName.JStr? || LookupTool(toolName.s).None? then
      Returned(Failed("Tool " + PyStr(toolName) + " não encontrada"))
    else if !action.JStr? then Raised(TypeError, "attribute name must be string, not '" + TypeName(action) + "'")
    else
      match LookupAction(LookupTool(toolName.s).value, action.s)
      case None => Returned(Failed("Action " + action.s + " não existe em " + toolName.s))
      case Some(a) =>
        match Bind(a, kwargs)
        case Err(m) => Returned(Failed(m))
        case Ok(args) =>
          match RunAction(a, args, codec, world)
          case Returned(result) => Returned(result)
          case Raised(_, m) => Returned(Failed(m))
  }

  /** With a text tool name and a text action the dispatcher never raises: every problem is a
      failed result. */
  lemma ExecuteToolNeverRaises(toolName: string, action: string, kwargs: seq<(string, Json)>, codec: Codec, world: World)
    ensures ExecuteTool(JStr(toolName), JStr(action), kwargs, codec, world).Returned?
  {
  }

  /** Every result the dispatcher returns has data only on success and an error only on failure. */
  lemma ExecuteToolWellFormed(toolName: Json, action: Json, kwargs: seq<(string, Json)>, codec: Codec, world: World)
    ensures var r := ExecuteTool(toolName, action, kwargs, codec, world);
      r.Returned? ==> WellFormed(r.value)
  {
    if toolName.JStr? && LookupTool(toolName.s).Some? && action.JStr? {
      var t := LookupTool(toolName.s).value;
      if LookupAction(t, action.s).Some? {
        var a := LookupAction(t, action.s).value;
        if Bind(a, kwargs).Ok? {
          RunActionWellFormed(a, Bind(a, kwargs).value, codec, world);
        }
      }
    }
  }

  /** Every tool builds its results through `Succeeded` or `Failed`. */
  lemma RunActionWellFormed(a: Action, args: map<string, Json>, codec: Codec, world: World)
    requires forall p :: p in Parameters(a) ==> p in args
    ensures var run := RunAction(a, args, codec, world);
      run.Returned? ==> WellFormed(run.value)
  {
    match a
    case ApiCall =>
      var m := args["method"];
      if SupportedMethod(m) {
        var reply := world.http(ApiRequest(m.s, args["url"], args["headers"], args["data"], args["params"]));
        assert WellFormed(ShapeReply(reply, codec));
      }
    case _ =>
  }

  /** An unknown tool, or an unknown action of a known tool, fails with the fixed message before
      anything is run: the result does not depend on the world. */
  lemma ExecuteToolUnknownNames(toolName: string, action: string, kwargs: seq<(string, Json)>,
                               codec: Codec, w1: World, w2: World)
    requires LookupTool(toolName).None? || LookupAction(LookupTool(toolName).value, action).None?
    ensures ExecuteTool(JStr(toolName), JStr(action), kwargs, codec, w1) ==
      if LookupTool(toolName).None? then Returned(Failed("Tool " + toolName + " não encontrada"))
      else Returned(Failed("Action " + action + " não existe em " + toolName))
    ensures ExecuteTool(JStr(toolName), JStr(action), kwargs, codec, w1) ==
      ExecuteTool(JStr(toolName), JStr(action), kwargs, codec, w2)
  {
  }

  /** A known action runs with its bound arguments; an exception it raises becomes a failure with
      the exception's message. */
  lemma ExecuteToolRunsAction(t: Tool, a: Action, kwargs: seq<(string, Json)>, codec: Codec, world: World)
    requires Owner(a) == t && Bind(a, kwargs).Ok?
    ensures var args := Bind(a, kwargs).value;
      var run := RunAction(a, args, codec, world);
      ExecuteTool(JStr(ActionToolName(t)), JStr(ActionName(a)), kwargs, codec, world) ==
        Returned(if run.Returned? then run.value else Failed(run.message))
  {
    assert LookupTool(ActionToolName(t)) == Some(t);
    assert LookupAction(t, ActionName(a)) == Some(a);
  }

  /** A binding error is a failed result naming the qualified function. */
  lemma ExecuteToolBindError(t: Tool, a: Action, kwargs: seq<(string, Json)>, codec: Codec, world: World)
    requires Owner(a) == t && Bind(a, kwargs).Err?
    ensures ExecuteTool(JStr(ActionToolName(t)), JStr(ActionName(a)), kwargs, codec, world) ==
      Returned(Failed(Bind(a, kwargs).message))
  {
    assert LookupTool(ActionToolName(t)) == Some(t);
    assert LookupAction(t, ActionName(a)) == Some(a);
  }

  /** The registry key of a tool. */
  function ActionToolName(t: Tool): (name: string)
    ensures LookupTool(name) == Some(t)
  {
    match t
    case ApiTool => "api"
    case FileTool => "file"
    case JsonTool => "json"
    case DebugTool => "debug"
    case SystemTool => "system"
  }
}
