/**
 * The `Agent` of agent.py: the bounded chat loop that asks the language model, runs the tool
 * call found in its reply and feeds the result back, together with the prompt it sends and the
 * conversation history it keeps. The language model is a function of the call number and the
 * prompt; the tools, the JSON codec and the outside world are those of the other modules.
 */
module AgentLoop {
  import opened Wrappers
  import opened Text
  import opened JsonValues
  import opened Envelope
  import opened Tools
  import opened Rag

  datatype Role = User | Assistant

  /** An entry of `conversation_history`: `{"role": ..., "content": ...}`. */
  datatype Message = Message(role: Role, content: string)

  /** `item['role'].upper()`. */
  function RoleLabel(r: Role): string {
    match r
    case User => "USER"
    case Assistant => "ASSISTANT"
  }

  // ---------------------------------------------------------------------------------------
  // The conversation history text

  const HistoryWindow: nat := 4
  const ContentPreview: nat := 200
  const NoHistory: string := "(Sem histórico)"

  function HistoryLine(m: Message): string {
    RoleLabel(m.role) + ": " + Take(m.content, ContentPreview) + "..."
  }

  /** `conversation_history[-4:]`. */
  function Recent(history: seq<Message>): (r: seq<Message>)
    ensures |r| == if |history| < HistoryWindow then |history| else HistoryWindow
    ensures r == history[|history| - |r|..]
  {
    if |history| < HistoryWindow then history else history[|history| - HistoryWindow..]
  }

  function HistoryLines(ms: seq<Message>): (r: seq<string>)
    ensures |r| == |ms| && forall i :: 0 <= i < |ms| ==> r[i] == HistoryLine(ms[i])
  {
    seq(|ms|, i requires 0 <= i < |ms| => HistoryLine(ms[i]))
  }

  /** What `_format_conversation_history` returns. */
  function HistoryText(history: seq<Message>): string {
    if history == [] then NoHistory else Join(HistoryLines(Recent(history)), "\n")
  }

  /** Only the last four messages are shown: older ones do not change the text. */
  lemma HistoryTextWindow(older: seq<Message>, history: seq<Message>)
    requires |history| >= HistoryWindow
    ensures HistoryText(older + history) == HistoryText(history)
  {
    assert (older + history)[|older + history| - HistoryWindow..] == history[|history| - HistoryWindow..];
  }

  /** Each of the last min(4, n) messages appears as its own line, role label first and content
      cut to 200 characters. */
  lemma HistoryTextShowsRecent(history: seq<Message>, i: nat)
    requires |history| - HistoryWindow <= i < |history|
    ensures Contains(HistoryText(history), RoleLabel(history[i].role) + ": " + Take(history[i].content, ContentPreview) + "...")
  {
    var r := Recent(history);
    var k := i - (|history| - |r|);
    assert r[k] == history[i];
    JoinContains(HistoryLines(r), "\n", k);
  }

  // ---------------------------------------------------------------------------------------
  // The prompt

  /** `_format_tools_description()`. */
  const ToolsDescription: string :=
    "\n## Tools Disponíveis:\n\n### API Calls\n"
    + "- **api.call_api(url, method, headers, data, params)**: Chamar endpoints HTTP\n"
    + "  Exemplo: {\"tool\": \"api\", \"action\": \"call_api\", \"url\": \"https://...\", \"method\": \"GET\"}\n\n"
    + "### File Operations\n- **file.read_file(filepath)**: Ler arquivo\n"
    + "- **file.write_file(filepath, content)**: Escrever arquivo\n\n"
    + "### JSON Processing\n- **json.parse_json(content)**: Parse JSON\n"
    + "- **json.validate_json(content)**: Validar JSON\n\n"
    + "### Debug & Analysis\n- **debug.analyze_error(error_message)**: Analisar erro e sugerir solução\n\n"
    + "### System Info\n- **system.get_timestamp()**: Timestamp atual\n"
    + "- **system.get_env_var(var_name)**: Ler variável de ambiente\n\n"
    + "Use este formato para chamar tools: <tool>{\"tool\": \"name\", \"action\": \"method\", ...params}</tool>\n"

  const PromptIntro: string :=
    "Você é um assistente inteligente e útil com capacidade de:\n"
    + "1. Responder perguntas usando documentos fornecidos\n2. Chamar APIs e endpoints\n"
    + "3. Manipular arquivos\n4. Analisar e debugar erros\n5. Executar ações para resolver problemas\n\n"

  const PromptInstructions: string :=
    "\n\nInstruções:\n- Se precisar chamar uma tool, use o formato <tool>{...}</tool>\n"
    + "- Forneça respostas claras e acionáveis\n"
    + "- Se encontrar um erro, use debug.analyze_error para sugerir soluções\n"
    + "- Sempre explique o que você está fazendo\n- Máximo de 2 chamadas de tool por resposta\n\n"
    + "Sua resposta:\n"

  /** The pieces of the prompt `_build_prompt` assembles around the query, the retrieved context
      and the history. */
  function PromptPieces(query: string, ragContext: string, history: string): seq<string> {
    [PromptIntro + ToolsDescription + "\n\n---\n\n", ragContext, "\n\n---\n\nHistórico da conversa:\n",
     history, "\n\n---\n\nPergunta do usuário: ", query, PromptInstructions]
  }

  function PromptText(query: string, ragContext: string, history: string): string {
    Join(PromptPieces(query, ragContext, history), "")
  }

  /** The prompt carries the query, the retrieved context and the history verbatim. */
  lemma PromptCarriesParts(query: string, ragContext: string, history: string)
    ensures Contains(PromptText(query, ragContext, history), query)
    ensures Contains(PromptText(query, ragContext, history), ragContext)
    ensures Contains(PromptText(query, ragContext, history), history)
  {
    var pieces := PromptPieces(query, ragContext, history);
    JoinContains(pieces, "", 1);
    JoinContains(pieces, "", 3);
    JoinContains(pieces, "", 5);
  }

  // ---------------------------------------------------------------------------------------
  // Running a tool call

  /** The keyword arguments: every member of the call except `tool` and `action`, in order. */
  function Kwargs(call: seq<(string, Json)>): (r: seq<(string, Json)>)
    ensures forall p :: p in r <==> p in call && p.0 != "tool" && p.0 != "action"
    ensures |r| <= |call|
  {
    if call == [] then []
    else (if call[0].0 == "tool" || call[0].0 == "action" then [] else [call[0]]) + Kwargs(call[1..])
  }

  /** Dropping members keeps the order of the rest: the keyword arguments of two runs of members
      are those of the first followed by those of the second. */
  lemma {:induction false} KwargsAppend(front: seq<(string, Json)>, back: seq<(string, Json)>)
    ensures Kwargs(front + back) == Kwargs(front) + Kwargs(back)
    decreases |front|
  {
    if front == [] {
      assert front + back == back;
    } else {
      assert (front + back)[1..] == front[1..] + back;
      KwargsAppend(front[1..], back);
    }
  }

  /** Python's complaint when a keyword argument repeats the first parameter of `execute_tool`. */
  const ClashMessage: string := "execute_tool() got multiple values for argument 'tool_name'"

  /** The call has a member named `key`. */
  predicate HasMember(call: seq<(string, Json)>, key: string) {
    exists i :: 0 <= i < |call| && call[i].0 == key
  }

  /** `_execute_tool_from_call`: the keyword arguments are bound to `execute_tool(tool_name,
      action, **kwargs)` before it runs, so a member named `tool_name` raises `TypeError` there;
      `action` is never among them. Otherwise the dispatcher runs. */
  function ExecuteFromCall(call: seq<(string, Json)>, codec: Codec, world: World): (r: Raising<ToolResult>)
    ensures HasMember(call, "tool_name") ==> r == Raised(TypeError, ClashMessage)
    ensures !HasMember(call, "tool_name") ==>
      r == ExecuteTool(Get(call, "tool"), Get(call, "action"), Kwargs(call), codec, world)
  {
    KeywordNames(call, "tool_name");
    if "tool_name" in Names(Kwargs(call)) then Raised(TypeError, ClashMessage)
    else ExecuteTool(Get(call, "tool"), Get(call, "action"), Kwargs(call), codec, world)
  }

  /** A name other than `tool` and `action` is a keyword argument exactly when the call has it. */
  lemma KeywordNames(call: seq<(string, Json)>, key: string)
    requires key != "tool" && key != "action"
    ensures key in Names(Kwargs(call)) <==> HasMember(call, key)
  {
    if key in Names(Kwargs(call)) {
      var j :| 0 <= j < |Kwargs(call)| && Names(Kwargs(call))[j] == key;
      assert Kwargs(call)[j] in Kwargs(call);
      var i :| 0 <= i < |call| && call[i] == Kwargs(call)[j];
    }
    if HasMember(call, key) {
      var i :| 0 <= i < |call| && call[i].0 == key;
      assert call[i] in Kwargs(call);
      var j :| 0 <= j < |Kwargs(call)| && Kwargs(call)[j] == call[i];
      assert Names(Kwargs(call))[j] == key;
    }
  }

  /** `{tool_call.get('tool')}.{tool_call.get('action')}`. */
  function ToolLabel(call: seq<(string, Json)>): string {
    PyStr(Get(call, "tool")) + "." + PyStr(Get(call, "action"))
  }

  const DataPreview: nat := 500

  /** The error text of a failed result, as the f-string renders `result.error`. */
  function ErrorText(result: ToolResult): string {
    if result.error.Some? then result.error.value else "None"
  }

  /** The pieces of the query after a tool run. They come from the call, the result and the
      original question only; the previous query plays no part. */
  function NextQueryPieces(call: seq<(string, Json)>, result: ToolResult, userQuery: string, codec: Codec): seq<string> {
    if result.success then
      ["Resultado da execução anterior:\nTool: ", ToolLabel(call), "\nSucesso: Sim\nDados: ",
       Take(codec.dump(result.data), DataPreview), "\n\nPergunta original: ", userQuery,
       "\nPor favor, use esse resultado para responder a pergunta original ou execute a próxima ação necessária."]
    else
      ["Erro na execução anterior:\nTool: ", ToolLabel(call), "\nErro: ", ErrorText(result),
       "\n\nPergunta original: ", userQuery, "\nPor favor, suira outro approach ou analise o erro."]
  }

  function NextQuery(call: seq<(string, Json)>, result: ToolResult, userQuery: string, codec: Codec): string {
    Join(NextQueryPieces(call, result, userQuery, codec), "")
  }

  /** The next query names the tool and action that ran and repeats the original question; on
      success it carries the first 500 characters of the dumped data, on failure the error. */
  lemma NextQueryCarries(call: seq<(string, Json)>, result: ToolResult, userQuery: string, codec: Codec)
    ensures var q := NextQuery(call, result, userQuery, codec);
      Contains(q, ToolLabel(call)) && Contains(q, userQuery)
    ensures result.success ==> Contains(NextQuery(call, result, userQuery, codec), Take(codec.dump(result.data), DataPreview))
    ensures !result.success ==> Contains(NextQuery(call, result, userQuery, codec), ErrorText(result))
  {
    if result.success {
      JoinedPiecesContain(NextQueryPieces(call, result, userQuery, codec),
                          ToolLabel(call), Take(codec.dump(result.data), DataPreview), userQuery);
    } else {
      JoinedPiecesContain(NextQueryPieces(call, result, userQuery, codec), ToolLabel(call), ErrorText(result), userQuery);
    }
  }

  /** Seven pieces joined without a separator contain the second, fourth and sixth. */
  lemma JoinedPiecesContain(pieces: seq<string>, a: string, b: string, c: string)
    requires |pieces| == 7 && pieces[1] == a && pieces[3] == b && pieces[5] == c
    ensures Contains(Join(pieces, ""), a) && Contains(Join(pieces, ""), b) && Contains(Join(pieces, ""), c)
  {
    JoinContains(pieces, "", 1);
    JoinContains(pieces, "", 3);
    JoinContains(pieces, "", 5);
  }

  // ---------------------------------------------------------------------------------------
  // The chat loop as a function

  const MaxIterations: nat := 10
  const ContextSize: int := 3

  /** The collaborators of a chat: the language model (the call number within the chat and the
      prompt give the reply), the JSON codec, the outside world and the retrieval libraries. */
  datatype Context = Context(llm: (nat, string) -> string, codec: Codec, world: World, lib: Library,
                             docsPath: string, modelName: string)

  /** One model call: what was sent and what came back. */
  datatype Turn = Turn(prompt: string, reply: string)

  /** How a chat ends: a reply without a tool call, an exception escaping the loop, or the ceiling. */
  datatype Ending = Answered(reply: string) | Crashed(kind: ErrorKind, message: string) | Exhausted

  /** The turns of a chat, its ending and the retrieval state it leaves. */
  datatype Chat = Chat(turns: seq<Turn>, ending: Ending, store: Option<VectorStore>, documents: seq<Document>)

  /** What a pass ends with: the answer, an exception, or the query of the next pass. */
  datatype PassOutcome = Answer(reply: string) | Raise(kind: ErrorKind, message: string) | Next(query: string)

  /** One pass: the turn, the retrieval state after it, and how it ends. */
  datatype Pass = Pass(turn: Turn, store: Option<VectorStore>, documents: seq<Document>, outcome: PassOutcome)

  /** How the loop treats a reply: no call or a falsy one is the answer, a call that is not an
      object fails at `.get`, a call whose run raises lets the exception escape. */
  function ReplyOutcome(ctx: Context, reply: string, userQuery: string): (r: PassOutcome)
    ensures r.Answer? <==> ParseToolCall(reply, ctx.codec).None? || !Truthy(ParseToolCall(reply, ctx.codec).value)
    ensures r.Answer? ==> r.reply == reply
    ensures r.Raise? ==> r.kind == TypeError || r.kind == AttributeError
  {
    var call := ParseToolCall(reply, ctx.codec);
    if call.None? || !Truthy(call.value) then Answer(reply)
    else if !call.value.JObj? then Raise(AttributeError, "'" + TypeName(call.value) + "' object has no attribute 'get'")
    else
      match ExecuteFromCall(call.value.fields, ctx.codec, ctx.world)
      case Raised(kind, m) => Raise(kind, m)
      case Returned(result) => Next(NextQuery(call.value.fields, result, userQuery, ctx.codec))
  }

  /** A reply that keeps the loop going: it holds a non-empty object call whose run returns. */
  predicate Continues(ctx: Context, reply: string) {
    var call := ParseToolCall(reply, ctx.codec);
    call.Some? && Truthy(call.value) && call.value.JObj?
      && ExecuteFromCall(call.value.fields, ctx.codec, ctx.world).Returned?
  }

  /** The loop answers with `answer` on `reply`: it is the reply itself, which holds no call or
      a falsy one such as `{}`. */
  predicate Answers(ctx: Context, reply: string, answer: string) {
    answer == reply
      && (ParseToolCall(reply, ctx.codec).None? || !Truthy(ParseToolCall(reply, ctx.codec).value))
  }

  /** The loop goes on exactly on the replies that keep it going, then with a query that names the
      tool that ran and repeats the question; it answers only with the reply itself. */
  lemma ReplyOutcomeFacts(ctx: Context, reply: string, userQuery: string)
    ensures var o := ReplyOutcome(ctx, reply, userQuery);
      && (o.Next? <==> Continues(ctx, reply))
      && (o.Answer? ==> Answers(ctx, reply, o.reply))
      && (o.Next? ==> Contains(o.query, userQuery))
  {
    ReplyEndings(ctx, reply, userQuery);
    if Continues(ctx, reply) {
      NextCarriesQuestion(ctx, reply, userQuery);
      var fields := ParseToolCall(reply, ctx.codec).value.fields;
      NextQueryCarries(fields, ExecuteFromCall(fields, ctx.codec, ctx.world).value, userQuery, ctx.codec);
    }
  }

  /** The reply holds an object call with a member named `tool_name`. */
  predicate ClashingCall(codec: Codec, reply: string) {
    ParseToolCall(reply, codec).Some? && ParseToolCall(reply, codec).value.JObj?
      && HasMember(ParseToolCall(reply, codec).value.fields, "tool_name")
  }

  /** A reply whose call has a member named `tool_name` raises `TypeError` when the call is
      run, so it does not keep the loop going. */
  lemma ToolNameMemberRaises(ctx: Context, reply: string, userQuery: string)
    requires ClashingCall(ctx.codec, reply)
    ensures ReplyOutcome(ctx, reply, userQuery) == Raise(TypeError, ClashMessage)
    ensures !Continues(ctx, reply)
  {
    assert ParseToolCall(reply, ctx.codec).value.fields != [];
  }

  /** Which replies end the loop, and with what answer. */
  lemma ReplyEndings(ctx: Context, reply: string, userQuery: string)
    ensures var o := ReplyOutcome(ctx, reply, userQuery);
      && (o.Next? <==> Continues(ctx, reply))
      && (o.Answer? ==> Answers(ctx, reply, o.reply))
  {
  }

  /** The query after a tool run repeats the question. */
  lemma NextCarriesQuestion(ctx: Context, reply: string, userQuery: string)
    requires Continues(ctx, reply)
    ensures var o := ReplyOutcome(ctx, reply, userQuery);
      o.Next? && o.query == NextQuery(ParseToolCall(reply, ctx.codec).value.fields,
        ExecuteFromCall(ParseToolCall(reply, ctx.codec).value.fields, ctx.codec, ctx.world).value, userQuery, ctx.codec)
  {
  }

  /** Pass number `iteration + 1`: retrieve for the current query, prompt, ask the model. */
  function RunPass(ctx: Context, history: seq<Message>, userQuery: string, currentQuery: string, iteration: nat,
                   store: Option<VectorStore>, documents: seq<Document>): Pass
  {
    var store' := StoreForSearch(store, documents, ctx.docsPath, ctx.modelName, ctx.lib);
    var documents' := if store.Some? then documents else DocumentsForChunking(documents, ctx.docsPath, ctx.lib);
    var prompt := PromptText(currentQuery, ContextText(SearchResults(store', currentQuery, ContextSize, ctx.lib)),
                             HistoryText(history));
    var reply := ctx.llm(iteration + 1, prompt);
    Pass(Turn(prompt, reply), store', documents', ReplyOutcome(ctx, reply, userQuery))
  }

  /** A pass as a function of the query, the pass index (from 0) and the retrieval state. */
  type PassFunction = (string, nat, Option<VectorStore>, seq<Document>) -> Pass

  /** The bounded loop for any pass function: from pass `iteration + 1` up to pass `max`, each
      pass either ends the loop or hands the next pass its query. */
  function Loop(pass: PassFunction, query: string, iteration: nat, max: nat,
                store: Option<VectorStore>, documents: seq<Document>): Chat
    decreases max - iteration
  {
    if iteration >= max then Chat([], Exhausted, store, documents)
    else
      var p := pass(query, iteration, store, documents);
      match p.outcome
      case Answer(reply) => Chat([p.turn], Answered(reply), p.store, p.documents)
      case Raise(kind, m) => Chat([p.turn], Crashed(kind, m), p.store, p.documents)
      case Next(next) =>
        var rest := Loop(pass, next, iteration + 1, max, p.store, p.documents);
        rest.(turns := [p.turn] + rest.turns)
  }

  /** The `k`-th turn (from 0) of a chat started at pass `iteration + 1` was call number
      `iteration + k + 1` to `llm`. */
  predicate NumberedCalls(c: Chat, llm: (nat, string) -> string, iteration: nat) {
    forall k :: 0 <= k < |c.turns| ==> c.turns[k].reply == llm(iteration + k + 1, c.turns[k].prompt)
  }

  /** Every prompt of a chat mentions `text`. */
  predicate PromptsMention(c: Chat, text: string) {
    forall k :: 0 <= k < |c.turns| ==> Contains(c.turns[k].prompt, text)
  }

  /** Every reply of a chat but the last kept the loop going, and so did the last one when the
      chat ran out; otherwise the last one did not, and an answer is that reply, which holds no
      call or a falsy one. */
  predicate EndsAsReplied(ctx: Context, c: Chat) {
    EndsBy(r => Continues(ctx, r), (r, a) => Answers(ctx, r, a), c)
  }

  /** As `EndsAsReplied`, for any test `goesOn` of a reply and any relation `answers` between the
      last reply and the answer. */
  predicate EndsBy(goesOn: string -> bool, answers: (string, string) -> bool, c: Chat) {
    && (forall k :: 0 <= k < |c.turns| - 1 ==> goesOn(c.turns[k].reply))
    && (c.ending.Exhausted? ==> forall k :: 0 <= k < |c.turns| ==> goesOn(c.turns[k].reply))
    && (!c.ending.Exhausted? ==> c.turns != [] && !goesOn(c.turns[|c.turns| - 1].reply))
    && (c.ending.Answered? ==> answers(c.turns[|c.turns| - 1].reply, c.ending.reply))
  }

  /** The pass with index `i` asks `llm` as call number `i + 1`. */
  predicate AsksWithNumber(pass: PassFunction, llm: (nat, string) -> string, q: string, i: nat,
                           s: Option<VectorStore>, d: seq<Document>) {
    pass(q, i, s, d).turn.reply == llm(i + 1, pass(q, i, s, d).turn.prompt)
  }

  /** A pass on a query mentioning `text` sends a prompt that mentions it and hands on a query
      that mentions it. */
  predicate KeepsMention(pass: PassFunction, text: string, q: string, i: nat,
                         s: Option<VectorStore>, d: seq<Document>) {
    Contains(q, text) ==>
      Contains(pass(q, i, s, d).turn.prompt, text)
      && (pass(q, i, s, d).outcome.Next? ==> Contains(pass(q, i, s, d).outcome.query, text))
  }

  /** A pass goes on exactly when its reply keeps the loop going, and answers with its reply. */
  predicate FollowsReply(pass: PassFunction, goesOn: string -> bool, answers: (string, string) -> bool,
                         q: string, i: nat, s: Option<VectorStore>, d: seq<Document>) {
    var p := pass(q, i, s, d);
    (p.outcome.Next? <==> goesOn(p.turn.reply))
      && (p.outcome.Answer? ==> answers(p.turn.reply, p.outcome.reply))
  }

  /** The loop makes at most `max - iteration` passes, exactly that many when it runs out. */
  lemma {:induction false} LoopBound(pass: PassFunction, query: string, iteration: nat, max: nat,
                                     store: Option<VectorStore>, documents: seq<Document>)
    requires iteration <= max
    ensures var c := Loop(pass, query, iteration, max, store, documents);
      |c.turns| <= max - iteration && (c.ending.Exhausted? ==> |c.turns| == max - iteration)
    decreases max - iteration
  {
    if iteration < max {
      var p := pass(query, iteration, store, documents);
      var c := Loop(pass, query, iteration, max, store, documents);
      if p.outcome.Next? {
        LoopBound(pass, p.outcome.query, iteration + 1, max, p.store, p.documents);
        var rest := Loop(pass, p.outcome.query, iteration + 1, max, p.store, p.documents);
        assert c.turns == [p.turn] + rest.turns && c.ending == rest.ending;
      } else {
        assert c.turns == [p.turn] && !c.ending.Exhausted?;
      }
    }
  }

  /** The `k`-th turn of the loop comes from pass number `iteration + k + 1`: when every pass asks
      `llm` with its pass number, so does every turn. */
  lemma {:induction false} LoopCounter(pass: PassFunction, llm: (nat, string) -> string, query: string,
                                       iteration: nat, max: nat, store: Option<VectorStore>, documents: seq<Document>)
    requires forall q, i: nat, s, d :: AsksWithNumber(pass, llm, q, i, s, d)
    ensures NumberedCalls(Loop(pass, query, iteration, max, store, documents), llm, iteration)
    decreases max - iteration
  {
    if iteration < max {
      var p := pass(query, iteration, store, documents);
      var c := Loop(pass, query, iteration, max, store, documents);
      assert AsksWithNumber(pass, llm, query, iteration, store, documents);
      if p.outcome.Next? {
        LoopCounter(pass, llm, p.outcome.query, iteration + 1, max, p.store, p.documents);
        var rest := Loop(pass, p.outcome.query, iteration + 1, max, p.store, p.documents);
        assert c.turns == [p.turn] + rest.turns;
        forall k | 1 <= k < |c.turns|
          ensures c.turns[k].reply == llm(iteration + k + 1, c.turns[k].prompt)
        {
          assert c.turns[k] == rest.turns[k - 1];
          assert rest.turns[k - 1].reply == llm(iteration + 1 + (k - 1) + 1, rest.turns[k - 1].prompt);
          assert iteration + 1 + (k - 1) + 1 == iteration + k + 1;
        }
      } else {
        assert c.turns == [p.turn];
      }
    }
  }

  /** When every pass whose query mentions `text` sends a prompt mentioning it and hands on a
      query mentioning it, every prompt of a loop started on such a query mentions it. */
  lemma {:induction false} LoopMentions(pass: PassFunction, text: string, query: string, iteration: nat, max: nat,
                                        store: Option<VectorStore>, documents: seq<Document>)
    requires Contains(query, text)
    requires forall q, i: nat, s, d :: KeepsMention(pass, text, q, i, s, d)
    ensures PromptsMention(Loop(pass, query, iteration, max, store, documents), text)
    decreases max - iteration
  {
    if iteration < max {
      var p := pass(query, iteration, store, documents);
      var c := Loop(pass, query, iteration, max, store, documents);
      assert KeepsMention(pass, text, query, iteration, store, documents);
      if p.outcome.Next? {
        LoopMentions(pass, text, p.outcome.query, iteration + 1, max, p.store, p.documents);
        var rest := Loop(pass, p.outcome.query, iteration + 1, max, p.store, p.documents);
        assert c.turns == [p.turn] + rest.turns;
        forall k | 1 <= k < |c.turns|
          ensures Contains(c.turns[k].prompt, text)
        {
          assert c.turns[k] == rest.turns[k - 1];
          assert 0 <= k - 1 < |rest.turns|;
          assert Contains(rest.turns[k - 1].prompt, text);
        }
      } else {
        assert c.turns == [p.turn];
      }
    }
  }

  /** When exactly the passes whose reply keeps the loop going hand on a query, and a pass that
      answers answers with its reply, which holds no call: all turns but the last kept the loop
      going, all of them did when it ran out, and otherwise the last one did not and an answer is its reply. */
  lemma {:induction false} LoopEndings(pass: PassFunction, goesOn: string -> bool, answers: (string, string) -> bool,
                                       query: string, iteration: nat, max: nat,
                                       store: Option<VectorStore>, documents: seq<Document>)
    requires forall q, i: nat, s, d :: FollowsReply(pass, goesOn, answers, q, i, s, d)
    ensures EndsBy(goesOn, answers, Loop(pass, query, iteration, max, store, documents))
    decreases max - iteration
  {
    if iteration < max {
      var p := pass(query, iteration, store, documents);
      var c := Loop(pass, query, iteration, max, store, documents);
      assert FollowsReply(pass, goesOn, answers, query, iteration, store, documents);
      if p.outcome.Next? {
        LoopEndings(pass, goesOn, answers, p.outcome.query, iteration + 1, max, p.store, p.documents);
        var rest := Loop(pass, p.outcome.query, iteration + 1, max, p.store, p.documents);
        assert c.turns == [p.turn] + rest.turns && c.ending == rest.ending;
        forall k | 1 <= k < |c.turns|
          ensures c.turns[k] == rest.turns[k - 1]
        {
        }
      } else {
        assert c.turns == [p.turn] && !c.ending.Exhausted?;
        assert c.ending.Answered? ==> c.ending.reply == p.outcome.reply;
      }
    }
  }

  /** The passes of `chat`. */
  function ChatPass(ctx: Context, history: seq<Message>, userQuery: string): PassFunction {
    (q: string, i: nat, s: Option<VectorStore>, d: seq<Document>) => RunPass(ctx, history, userQuery, q, i, s, d)
  }

  /** The loop of `chat` from pass `iteration + 1` on, with `currentQuery` the query of that pass. */
  function Run(ctx: Context, history: seq<Message>, userQuery: string, currentQuery: string, iteration: nat,
               max: nat, store: Option<VectorStore>, documents: seq<Document>): Chat
  {
    Loop(ChatPass(ctx, history, userQuery), currentQuery, iteration, max, store, documents)
  }

  /** A chat preceded by the turns `turns` already made. */
  function AfterTurns(turns: seq<Turn>, c: Chat): Chat {
    c.(turns := turns + c.turns)
  }

  lemma AfterTurnsAppend(first: seq<Turn>, second: seq<Turn>, c: Chat)
    ensures AfterTurns(first, AfterTurns(second, c)) == AfterTurns(first + second, c)
  {
    assert first + (second + c.turns) == (first + second) + c.turns;
  }

  /** One step of `Run`: the first pass either ends the loop or hands its query to the rest. */
  lemma RunStep(ctx: Context, history: seq<Message>, userQuery: string, currentQuery: string,
                iteration: nat, max: nat, store: Option<VectorStore>, documents: seq<Document>)
    requires iteration < max
    ensures var p := RunPass(ctx, history, userQuery, currentQuery, iteration, store, documents);
      Run(ctx, history, userQuery, currentQuery, iteration, max, store, documents) ==
        match p.outcome
        case Answer(reply) => Chat([p.turn], Answered(reply), p.store, p.documents)
        case Raise(kind, m) => Chat([p.turn], Crashed(kind, m), p.store, p.documents)
        case Next(next) => AfterTurns([p.turn], Run(ctx, history, userQuery, next, iteration + 1, max, p.store, p.documents))
  {
    assert ChatPass(ctx, history, userQuery)(currentQuery, iteration, store, documents)
      == RunPass(ctx, history, userQuery, currentQuery, iteration, store, documents);
  }

  /** A chat seen after the turns `done`: its next pass either ends it, with that pass's turn as
      the last, or leaves the rest to the next query. */
  lemma RunAfterPass(done: seq<Turn>, ctx: Context, history: seq<Message>, userQuery: string, currentQuery: string,
                     iteration: nat, max: nat, store: Option<VectorStore>, documents: seq<Document>)
    requires iteration < max
    ensures var p := RunPass(ctx, history, userQuery, currentQuery, iteration, store, documents);
      var c := AfterTurns(done, Run(ctx, history, userQuery, currentQuery, iteration, max, store, documents));
      match p.outcome
      case Answer(reply) => c == Chat(done + [p.turn], Answered(reply), p.store, p.documents)
      case Raise(kind, m) => c == Chat(done + [p.turn], Crashed(kind, m), p.store, p.documents)
      case Next(next) =>
        c == AfterTurns(done + [p.turn], Run(ctx, history, userQuery, next, iteration + 1, max, p.store, p.documents))
  {
    RunStep(ctx, history, userQuery, currentQuery, iteration, max, store, documents);
    var p := RunPass(ctx, history, userQuery, currentQuery, iteration, store, documents);
    if p.outcome.Next? {
      AfterTurnsAppend(done, [p.turn], Run(ctx, history, userQuery, p.outcome.query, iteration + 1, max, p.store, p.documents));
    }
  }

  /** `chat` calls the model at most `max - iteration` times, exactly that often when it runs out,
      and its `k`-th call (from 0) is call number `iteration + k + 1`: the counter rises by one per
      pass. */
  lemma RunCalls(ctx: Context, history: seq<Message>, userQuery: string, currentQuery: string,
                 iteration: nat, max: nat, store: Option<VectorStore>, documents: seq<Document>)
    requires iteration <= max
    ensures var c := Run(ctx, history, userQuery, currentQuery, iteration, max, store, documents);
      |c.turns| <= max - iteration && (c.ending.Exhausted? ==> |c.turns| == max - iteration)
    ensures NumberedCalls(Run(ctx, history, userQuery, currentQuery, iteration, max, store, documents), ctx.llm, iteration)
  {
    var pass := ChatPass(ctx, history, userQuery);
    LoopBound(pass, currentQuery, iteration, max, store, documents);
    forall q, i: nat, s, d
      ensures AsksWithNumber(pass, ctx.llm, q, i, s, d)
    {
    }
    LoopCounter(pass, ctx.llm, currentQuery, iteration, max, store, documents);
  }

  /** Every reply of `chat` but the last kept the loop going; it answers with the last reply when
      that holds no call, stops on the last reply when its call cannot run, and runs out only
      when every reply kept it going. */
  lemma RunEndings(ctx: Context, history: seq<Message>, userQuery: string, currentQuery: string,
                   iteration: nat, max: nat, store: Option<VectorStore>, documents: seq<Document>)
    ensures EndsAsReplied(ctx, Run(ctx, history, userQuery, currentQuery, iteration, max, store, documents))
  {
    var pass := ChatPass(ctx, history, userQuery);
    var goesOn := r => Continues(ctx, r);
    var answers := (r, a) => Answers(ctx, r, a);
    forall q, i: nat, s, d
      ensures FollowsReply(pass, goesOn, answers, q, i, s, d)
    {
      ReplyOutcomeFacts(ctx, pass(q, i, s, d).turn.reply, userQuery);
    }
    LoopEndings(pass, goesOn, answers, currentQuery, iteration, max, store, documents);
  }

  /** A pass whose reply holds a call with a member named `tool_name` ends the chat after that
      turn with the `TypeError` of the binding. */
  lemma RunCrashesOnToolName(ctx: Context, history: seq<Message>, userQuery: string, currentQuery: string,
                             iteration: nat, max: nat, store: Option<VectorStore>, documents: seq<Document>)
    requires iteration < max
    requires ClashingCall(ctx.codec, RunPass(ctx, history, userQuery, currentQuery, iteration, store, documents).turn.reply)
    ensures var c := Run(ctx, history, userQuery, currentQuery, iteration, max, store, documents);
      c.ending == Crashed(TypeError, ClashMessage) && |c.turns| == 1
  {
    var p := RunPass(ctx, history, userQuery, currentQuery, iteration, store, documents);
    ToolNameMemberRaises(ctx, p.turn.reply, userQuery);
    RunStep(ctx, history, userQuery, currentQuery, iteration, max, store, documents);
  }

  /** A model that always answers with a call that runs drives `chat` to the ceiling. */
  lemma RunReachesCeiling(ctx: Context, history: seq<Message>, userQuery: string, currentQuery: string,
                          iteration: nat, max: nat, store: Option<VectorStore>, documents: seq<Document>)
    requires iteration <= max
    requires forall n: nat, p: string :: Continues(ctx, ctx.llm(n, p))
    ensures var c := Run(ctx, history, userQuery, currentQuery, iteration, max, store, documents);
      c.ending.Exhausted? && |c.turns| == max - iteration
  {
    RunCalls(ctx, history, userQuery, currentQuery, iteration, max, store, documents);
    RunEndings(ctx, history, userQuery, currentQuery, iteration, max, store, documents);
  }

  /** Every prompt of `chat` repeats the user's question: the first asks it, and each later one
      is built from a query that repeats it. */
  lemma RunPromptsCarryQuestion(ctx: Context, history: seq<Message>, userQuery: string,
                                currentQuery: string, iteration: nat, max: nat,
                                store: Option<VectorStore>, documents: seq<Document>)
    requires Contains(currentQuery, userQuery)
    ensures PromptsMention(Run(ctx, history, userQuery, currentQuery, iteration, max, store, documents), userQuery)
  {
    var pass := ChatPass(ctx, history, userQuery);
    forall q, i: nat, s, d
      ensures KeepsMention(pass, userQuery, q, i, s, d)
    {
      if Contains(q, userQuery) {
        PassMentions(ctx, history, userQuery, q, i, s, d);
      }
    }
    LoopMentions(pass, userQuery, currentQuery, iteration, max, store, documents);
  }

  /** A pass on a query that repeats the question prompts with the question and hands on a query
      that repeats it. */
  lemma PassMentions(ctx: Context, history: seq<Message>, userQuery: string, q: string, i: nat,
                     s: Option<VectorStore>, d: seq<Document>)
    requires Contains(q, userQuery)
    ensures var p := RunPass(ctx, history, userQuery, q, i, s, d);
      Contains(p.turn.prompt, userQuery) && (p.outcome.Next? ==> Contains(p.outcome.query, userQuery))
  {
    var p := RunPass(ctx, history, userQuery, q, i, s, d);
    var store' := StoreForSearch(s, d, ctx.docsPath, ctx.modelName, ctx.lib);
    PromptCarriesParts(q, ContextText(SearchResults(store', q, ContextSize, ctx.lib)), HistoryText(history));
    ContainsTransitive(p.turn.prompt, q, userQuery);
    ReplyOutcomeFacts(ctx, p.turn.reply, userQuery);
  }

  /** The reply `chat` gives back for an ending that is not an exception. */
  function ExhaustedMessage(max: nat): string {
    "\U{26A0}\U{FE0F}  Máximo de iterações (" + NatToString(max) + ") atingido"
  }

  // ---------------------------------------------------------------------------------------
  // The agent

  class Agent {
    const modelName: string
    const docProcessor: DocumentProcessor
    const maxIterations: nat
    var conversationHistory: seq<Message>

    /** The processor indexes `docsPath` with the default embedding model. */
    constructor (modelName: string, docsPath: string)
      ensures this.modelName == modelName && maxIterations == MaxIterations
      ensures fresh(docProcessor) && docProcessor.docsPath == docsPath && docProcessor.modelName == "nomic-embed-text"
      ensures docProcessor.vectorStore == None && docProcessor.documents == [] && docProcessor.saves == []
      ensures conversationHistory == []
    {
      this.modelName := modelName;
      docProcessor := new DocumentProcessor(docsPath, "nomic-embed-text");
      conversationHistory := [];
      maxIterations := MaxIterations;
    }

    /** `_format_conversation_history`: one line per recent message, joined by newlines. */
    method FormatConversationHistory() returns (text: string)
      ensures text == HistoryText(conversationHistory)
    {
      if conversationHistory == [] {
        return NoHistory;
      }
      var recent := Recent(conversationHistory);
      var formatted: seq<string> := [];
      var i := 0;
      while i < |recent|
        invariant 0 <= i <= |recent|
        invariant formatted == HistoryLines(recent[..i])
      {
        var item := recent[i];
        formatted := formatted + [RoleLabel(item.role) + ": " + Take(item.content, ContentPreview) + "..."];
        i := i + 1;
      }
      assert recent[..i] == recent;
      text := Join(formatted, "\n");
    }

    /** `_build_prompt`: retrieve context for the query, then fill the template. */
    method BuildPrompt(query: string, lib: Library) returns (prompt: string)
      modifies docProcessor
      ensures var store := StoreForSearch(old(docProcessor.vectorStore), old(docProcessor.documents),
                                          docProcessor.docsPath, docProcessor.modelName, lib);
        && docProcessor.vectorStore == store
        && docProcessor.documents ==
             (if old(docProcessor.vectorStore).Some? then old(docProcessor.documents)
              else DocumentsForChunking(old(docProcessor.documents), docProcessor.docsPath, lib))
        && prompt == PromptText(query, ContextText(SearchResults(store, query, ContextSize, lib)),
                                HistoryText(conversationHistory))
      ensures docProcessor.saves == old(docProcessor.saves)
    {
      var ragContext := docProcessor.BuildContext(query, ContextSize, lib);
      var history := FormatConversationHistory();
      prompt := PromptText(query, ragContext, history);
    }

    /** `initialize_docs`: load, chunk, index and save; False when nothing was loaded. */
    method InitializeDocs(lib: Library) returns (ok: bool)
      modifies docProcessor
      ensures ok <==> lib.load(docProcessor.docsPath).Some? && lib.load(docProcessor.docsPath).value != []
      ensures ok ==> docProcessor.documents == lib.load(docProcessor.docsPath).value
      ensures !ok ==> docProcessor.vectorStore == old(docProcessor.vectorStore)
      ensures !ok ==>
        docProcessor.documents == (if lib.load(docProcessor.docsPath).Some? then [] else old(docProcessor.documents))
      ensures var chunks := lib.split(docProcessor.documents, DefaultChunkSize, DefaultChunkOverlap);
        && (ok && chunks != [] ==> docProcessor.vectorStore == Some(lib.index(chunks, docProcessor.modelName)))
        && (ok && chunks == [] ==> docProcessor.vectorStore == old(docProcessor.vectorStore))
        && (ok && chunks != [] ==>
              docProcessor.saves == old(docProcessor.saves) + [(DefaultStorePath, lib.index(chunks, docProcessor.modelName))])
        && (ok && chunks == [] ==>
              docProcessor.saves == old(docProcessor.saves) +
                (if old(docProcessor.vectorStore).Some? then [(DefaultStorePath, old(docProcessor.vectorStore).value)] else []))
      ensures !ok ==> docProcessor.saves == old(docProcessor.saves)
    {
      var docs := docProcessor.LoadDocuments(lib);
      if docs == [] {
        return false;
      }
      var chunks := docProcessor.ChunkDocuments(DefaultChunkSize, DefaultChunkOverlap, lib);
      var store := docProcessor.CreateVectorStore(Some(chunks), lib);
      docProcessor.SaveVectorStore(DefaultStorePath);
      ok := true;
    }

    /** One pass of the `chat` loop, pass number `iteration + 1`: prompt with the retrieved
        context, ask the model, then answer, let an exception escape, or run the tool and build
        the next query. */
    method Step(userQuery: string, currentQuery: string, iteration: nat, ctx: Context)
      returns (turn: Turn, outcome: PassOutcome)
      requires ctx.docsPath == docProcessor.docsPath && ctx.modelName == docProcessor.modelName
      modifies docProcessor
      ensures var p := RunPass(ctx, conversationHistory, userQuery, currentQuery, iteration,
                               old(docProcessor.vectorStore), old(docProcessor.documents));
        && turn == p.turn && outcome == p.outcome
        && docProcessor.vectorStore == p.store && docProcessor.documents == p.documents
      ensures docProcessor.saves == old(docProcessor.saves)
    {
      var prompt := BuildPrompt(currentQuery, ctx.lib);
      var reply := ctx.llm(iteration + 1, prompt);
      turn := Turn(prompt, reply);
      var call := ParseToolCall(reply, ctx.codec);
      if call.None? || !Truthy(call.value) {
        return turn, Answer(reply);
      }
      if !call.value.JObj? {
        return turn, Raise(AttributeError, "'" + TypeName(call.value) + "' object has no attribute 'get'");
      }
      var result := ExecuteFromCall(call.value.fields, ctx.codec, ctx.world);
      if result.Raised? {
        return turn, Raise(result.kind, result.message);
      }
      outcome := Next(NextQuery(call.value.fields, result.value, userQuery, ctx.codec));
    }

    /** `chat`: at most `maxIterations` passes of prompt, reply and tool run. The history grows by
        the question and the answer only when the loop ends with an answer. */
    method Chat(userQuery: string, ctx: Context) returns (outcome: Raising<string>, turns: seq<Turn>)
      requires ctx.docsPath == docProcessor.docsPath && ctx.modelName == docProcessor.modelName
      modifies this, docProcessor
      ensures var c := Run(ctx, old(conversationHistory), userQuery, userQuery, 0, maxIterations,
                           old(docProcessor.vectorStore), old(docProcessor.documents));
        && turns == c.turns
        && docProcessor.vectorStore == c.store && docProcessor.documents == c.documents
        && outcome == (match c.ending
                       case Answered(reply) => Returned(reply)
                       case Crashed(kind, m) => Raised(kind, m)
                       case Exhausted => Returned(ExhaustedMessage(maxIterations)))
        && conversationHistory ==
             (if c.ending.Answered? then old(conversationHistory) + [Message(User, userQuery), Message(Assistant, c.ending.reply)]
              else old(conversationHistory))
      ensures docProcessor.saves == old(docProcessor.saves)
    {
      var iteration: nat := 0;
      var currentQuery := userQuery;
      turns := [];
      ghost var whole := Run(ctx, conversationHistory, userQuery, userQuery, 0, maxIterations,
                             docProcessor.vectorStore, docProcessor.documents);
      while iteration < maxIterations
        invariant iteration <= maxIterations
        invariant conversationHistory == old(conversationHistory)
        invariant docProcessor.saves == old(docProcessor.saves)
        invariant whole == AfterTurns(turns, Run(ctx, conversationHistory, userQuery, currentQuery, iteration,
                                                 maxIterations, docProcessor.vectorStore, docProcessor.documents))
        decreases maxIterations - iteration
      {
        RunAfterPass(turns, ctx, conversationHistory, userQuery, currentQuery, iteration, maxIterations,
                     docProcessor.vectorStore, docProcessor.documents);
        var turn, step := Step(userQuery, currentQuery, iteration, ctx);
        iteration := iteration + 1;
        turns := turns + [turn];
        match step
        case Answer(reply) =>
          conversationHistory := conversationHistory + [Message(User, userQuery), Message(Assistant, reply)];
          return Returned(reply), turns;
        case Raise(kind, m) =>
          return Raised(kind, m), turns;
        case Next(query) =>
          currentQuery := query;
      }
      outcome := Returned(ExhaustedMessage(maxIterations));
    }
  }
}
