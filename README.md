# A verified model of the tale agent core

The repository is a small "agentic" assistant. It has four parts, and each is modelled here:

- **The agent loop** (`Agent` in agent.py). The agent asks a language model a question, together
  with context retrieved from local documents and the recent conversation. If the reply contains
  `<tool>{...}</tool>`, it runs that tool and asks again. It stops when a reply holds no call, when
  one of the exceptions listed below escapes, or after ten passes.
- **The tool registry and dispatcher** (tools.py). HTTP calls, files, JSON parsing and validation,
  error analysis, the clock and environment variables.
- **The retrieval layer** (`DocumentProcessor` in rag.py). It loads, splits and indexes documents.
  It also formats the search results into the context text.
- **Two parsing experiments** in test_parser.py and test_improvements.py. One is a lenient
  tool-call parser that falls back to a lazy brace span. The other is a three-strategy JSON
  decoder with two regular-expression rewrites, plus a transaction-id extractor.

The Dafny modules follow that structure:

| module | file | models |
|---|---|---|
| `Wrappers` | wrappers.dfy | `Option`, `Result` |
| `Text` | text.dfy | substring search (what `re.search` does with a literal pattern), `in`, `str.strip`, `str.lower`, slicing, `str(n)`, `str.join` |
| `JsonValues` | json.dfy | the values `json.loads` returns, Python truthiness, `dict.get`, `str()`/`repr()`; `json.loads`/`json.dumps` are a `Codec` of two functions |
| `Envelope` | envelope.dfy | `Agent._parse_tool_call` and test_parser.py `parse_tool_call` |
| `Repair` | repair.dfy | test_improvements.py `try_parse_json` and `extract_transaction_id` |
| `Tools` | tools.dfy | `ToolResult`, every tool, Python keyword binding, `execute_tool` |
| `Rag` | rag.dfy | `DocumentProcessor` as a class whose methods update `vectorStore` and `documents` |
| `AgentLoop` | agent.dfy | history formatting, the prompt, running a call, the chat loop as a function `Run`, and the class `Agent` whose `Chat` method is the `while` loop |

How the outside world comes in:

- **Language model.** A function `llm(n, prompt)` gives the reply to call number `n` of a chat. The
  lemma `RunCalls` proves that the `k`-th turn is call number `k + 1`.
- **JSON.** `json.loads` and `json.dumps` are passed in as a `Codec`. No JSON parser is written.
  A decoded object is an association list in insertion order. This ordering matters for which
  unexpected keyword Python reports first. Text that decodes to JSON `null` gives `Some(JNull)`
  where `_parse_tool_call` and `try_parse_json` return Python's `None`. The two are the same to
  the agent, because `JNull` is falsy and a falsy call is an answer, as a missing one is.
- **I/O.** HTTP, files, the clock and the environment are a `World` value. A lemma whose result is
  the same for any two worlds states that nothing was sent or read.
- **Retrieval libraries.** Loading, splitting, FAISS indexing, similarity search and index loading
  are a `Library` of functions.
- **Exceptions.** A Python call that can raise returns `Raising<T>`: `Returned(v)` or
  `Raised(kind, message)`.

What the agent does not do:

- agent.py has no stall or oscillation detector.
- It has no consecutive-success counter and no stop on "conclusive" phrases.
- It mints no transaction id.
- It repairs no JSON.
- Its `_parse_tool_call` has no brace fallback. The fallback exists only in test_parser.py, and
  there it is lazy, not greedy.

Two things are modelled as the code does them:

- The chat can crash. A decoded call that is not an object fails at `.get`. A call with a member
  named `tool_name` fails when `execute_tool(tool_name, action, **kwargs)` binds its arguments,
  because that keyword repeats the first parameter. An unhashable tool name fails the registry
  test. A non-text action fails `getattr`. Each of these is the ending `Crashed`.
- `validate_json` lets the `TypeError` for a non-text argument escape. The dispatcher turns that
  into a failed result.

## Model

| member | source | states |
|---|---|---|
| Text.Contains | tools.py:107 | `sub in s` holds exactly when `sub` occurs at some index of `s` |
| Text.Strip | test_parser.py:17 | the result is an infix of the input; everything cut before and after it is whitespace; the result neither starts nor ends with whitespace |
| Text.Lower | test_improvements.py:49 | same length; every character is lowercased, A–Z only |
| JsonValues.Get | agent.py:69-70 | `dict.get` is the value at the first occurrence of the key, and None when the key is absent |
| Envelope.TagSpan | agent.py:57-58 | the group of `<tool>(.*?)</tool>`: it starts right after the first `<tool>` and ends at the first `</tool>` after it; no span exactly when no `<tool>` is followed by a `</tool>` |
| Envelope.ParseToolCall | agent.py:55-65 | no tag pair gives None; otherwise the result is Some exactly when the tagged text decodes, and then it is that decoding; there is no other way to find a call |
| Envelope.TagSpanAmidProse | agent.py:57-58 | for prose + `<tool>` + body + `</tool>` + anything, with no `<` in the prose or the body, the region is exactly the body |
| Envelope.ParseToolCallAmidProse | agent.py:55-65 | the agent's parser on such a reply decodes exactly the body |
| Envelope.NoTagSpan | test_parser.py:13-16 | a text without `<` has no tag pair |
| Envelope.BraceMatch | test_parser.py:27-28 | the lazy brace match is the first `{`, the first `"tool"` after it, the first `"action"` after that and the first `}` after that; with no such chain there is no match from any brace |
| Envelope.ParseToolCallLenient | test_parser.py:10-36 | with a tag pair only the stripped region is decoded; otherwise the brace span is decoded; otherwise None |
| Envelope.LenientAmidProse | test_parser.py:13-23 | with a tag pair the stripped body is decoded, and when that fails the result is None even if a brace span exists elsewhere |
| Envelope.LenientBraceSpan | test_parser.py:27-34 | without tags, after prose with no braces and no `<`: `head + "}"` (no `}` in `head`, keys in order) is what gets decoded, whatever `tail` follows; whole for an object like sample 3, cut short when that `}` closes a nested object |
| Envelope.BraceSpanOf | test_parser.py:27-28 | in such a text the brace match starts at the object's `{` and ends at the first `}` |
| Repair.QuoteFixAt | test_improvements.py:21 | the quote rewrite keeps the length; a character changes exactly when it is a `'` other than a final unpaired one, and then it becomes `"` |
| Repair.QuoteFixNoQuotes | test_improvements.py:21 | a text without `'` is not changed |
| Repair.QuoteFixIdempotent | test_improvements.py:21 | rewriting twice gives the same text as rewriting once |
| Repair.QuoteFix | test_improvements.py:21 | the rewrite keeps the length of the text |
| Repair.DropCommasFromIsKept | test_improvements.py:29 | the `re.sub` scan from any index deletes exactly the commas whose next non-whitespace character is `}` or `]`, and keeps every other character in order |
| Repair.DropTrailingCommasIsKept | test_improvements.py:29 | the same, for the whole text |
| Repair.DropTrailingCommasNone | test_improvements.py:29 | a text without trailing commas is not changed |
| Repair.DropTrailingCommasSinglePass | test_improvements.py:29 | the rewrite is one pass: `,,}` becomes `,}` |
| Repair.DropTrailingCommas | test_improvements.py:29 | the rewrite never makes the text longer |
| Repair.TryParseJsonOrder | test_improvements.py:10-37 | the strategies run in the order: as is, then the quote rewrite, then the comma rewrite followed by the quote rewrite; the first decoding wins; None exactly when all three fail |
| Repair.TryParseJsonOnCleanText | test_improvements.py:12-34 | on a text with no `'` and no trailing comma, the lenient decoder is the plain one |
| Repair.TryParseJson | test_improvements.py:10-37 | text that already decodes gives its decoding unchanged; None only when the text itself does not decode |
| Repair.IdRun | test_improvements.py:44 | the greedy `[a-f0-9\-]+` run: every character in it is an id character, and the next one is not |
| Repair.MatchAtShape | test_improvements.py:42-47 | a captured group is made of id characters; every pattern except the open-ended hex one captures exactly 36 |
| Repair.Search | test_improvements.py:51 | `re.search` finds the leftmost start at which the pattern matches, and finds nothing when no start matches |
| Repair.SearchIs | test_improvements.py:51 | a match at `m` with no match before it is what the search finds |
| Repair.FirstPatternMatch | test_improvements.py:50-55 | the patterns are tried in order; the first one that matches anywhere gives the id; None when none matches |
| Repair.ExtractedIdShape | test_improvements.py:39-55 | an extracted id is non-empty, lowercase and made of `[a-f0-9-]`; it is 36 characters long unless the UUID pattern failed and the open-ended hex pattern matched |
| Repair.SearchedShape | test_improvements.py:51-53 | what one pattern's search returns has that pattern's shape |
| Repair.ExtractTransactionId | test_improvements.py:39-55 | None exactly when no pattern matches anywhere in the lowercased text; a match of the UUID pattern after `transaction id` wins over every other pattern |
| Repair.LabelledUuid | test_improvements.py:71 | a text whose lowercase form is prose + `transaction id:` + 36 id characters + anything, with no earlier `transaction`, gives those 36 characters (the shape of the first id sample) |
| Repair.LabelledTxnUuid | test_improvements.py:72 | a text with no `transaction` whose lowercase form is prose + `txn:` + 36 id characters + anything, with no earlier `txn`, gives those characters (the shape of the second sample) |
| Repair.NoIdFound | test_improvements.py:73 | a text with no `transaction` label and no run of 36 id characters gives None (the shape of the third sample) |
| Tools.ApiRequest | tools.py:28-35 | the request carries the verb, URL, headers and a timeout of 10; only POST and PUT send the JSON body; DELETE sends no params |
| Tools.CallApiRejectsMethod | tools.py:28-37 | a method other than exactly GET, POST, PUT or DELETE fails with `Método {m} não suportado`, and the result does not depend on the network |
| Tools.CallApiShapesReply | tools.py:39-42 | a transport exception or a status error is a failure with its message; an empty body gives the status code; a non-empty body gives its decoding, or a failure when it does not decode |
| Tools.ShapeReply | tools.py:39-42 | the result is well formed; it succeeds exactly when a response came back with no status error and its body is empty or decodes |
| Tools.ShapeReplyByStatus | tools.py:39-40 | when the response follows `raise_for_status` (an error exactly for 400 ≤ status < 600), a 4xx or 5xx status is a failure with that error, and any other status with an empty body is a success with the status code |
| Tools.CallApiErrorStatus | tools.py:27-40 | a supported method whose response has a 4xx or 5xx status fails with the status error |
| Tools.CallApi | tools.py:19-42 | the result is well formed, and it succeeds only for one of the four supported methods |
| Tools.ReadFile | tools.py:48-55 | it succeeds exactly when the file reads, and then its data is the file's text; the result is well formed |
| Tools.WriteFile | tools.py:57-66 | it succeeds exactly when the path is text with a directory part and the write goes through, and then its data is `Arquivo salvo: {filepath}`; a path that is not text fails with the `TypeError` of `os.fspath` (`expected str, bytes or os.PathLike object, not {type}`); a bare file name fails with the error of `os.makedirs("")`; the result is well formed |
| Tools.WriteFileBareName | tools.py:61 | a bare file name fails the same way whatever the file system holds, so nothing is written |
| Tools.WriteFileNonTextPath | tools.py:61 | a path that is not text fails with the `os.fspath` `TypeError` whatever the file system holds, so nothing is written |
| Tools.ParseJson | tools.py:72-78 | it succeeds exactly when the argument is text that decodes, with the decoding as data; a decoding error fails with the decoder's message, and a non-text argument fails with `json.loads`'s `TypeError` message, because every exception is caught |
| Tools.ValidateAgreesWithParse | tools.py:72-87 | on text, `validate_json` never raises, succeeds exactly when `parse_json` does, and fails with `JSON inválido: ` followed by `parse_json`'s error |
| Tools.ValidateJson | tools.py:80-87 | on text it succeeds with `{"valid": True}` exactly when the text decodes, and otherwise fails with `JSON inválido: ` + the decoder's message; a non-text argument raises `TypeError` |
| Tools.GetEnvVar | tools.py:127-133 | it succeeds with the value exactly when the variable is set and non-empty, and otherwise fails with `Variável {v} não encontrada` |
| Tools.GetTimestamp | tools.py:123-125 | it always succeeds, with the clock's ISO text as data |
| Tools.FirstSuggestionNone | tools.py:105-109 | the scan finds nothing exactly when no lowercased key occurs in the lowercased message |
| Tools.FirstSuggestionIsAt | tools.py:105-109 | when the key at `i` occurs and no earlier key does, the scan finds the suggestion at `i` |
| Tools.FirstSuggestionStep | tools.py:106-109 | one step of the scan: stop at a key that occurs, move on past one that does not |
| Tools.SuggestionsAreFilled | tools.py:96-103 | every suggestion text is non-empty, so `or` falls back to the default only when nothing matched |
| Tools.SuggestionIsFirstMatch | tools.py:96-109 | the suggestion is the one for the first key, in the order timeout, 404, 401, 500, connection, json, that occurs case-insensitively in the message |
| Tools.SuggestionWhenNoKey | tools.py:115 | when no key occurs, the suggestion is the default text |
| Tools.ScanSuggestions | tools.py:105-109 | the `for`/`break` loop returns the first match in table order, as `FirstSuggestion` defines it |
| Tools.AnalyzeError | tools.py:93-117 | `analyze_error` on a text always succeeds, echoes the message and carries the suggestion |
| Tools.LookupTool | tools.py:137-143 | a tool is found exactly for the five registry keys |
| Tools.LookupAction | tools.py:150-153 | an action found belongs to that tool and has that name; when none is found, no action of the tool has that name |
| Tools.UnexpectedKeyword | tools.py:157 | the first keyword in call order that names no parameter; none exactly when every keyword names one |
| Tools.MissingArguments | tools.py:157 | exactly the required parameters that no keyword supplies |
| Tools.Bind | tools.py:157 | the binding succeeds exactly when every keyword names a parameter and every required parameter is given; each parameter is bound to its keyword's value, or to its default; an unknown keyword is reported first |
| Tools.ExecuteTool | tools.py:145-160 | an unhashable tool name raises `TypeError` at the registry test |
| Tools.ExecuteToolNeverRaises | tools.py:145-160 | with a text tool name and a text action, `execute_tool` never raises |
| Tools.ExecuteToolUnknownNames | tools.py:147-154 | an unknown tool fails with `Tool {t} não encontrada`, and an unknown action of a known tool fails with `Action {a} não existe em {t}`; in both cases nothing runs, so the result does not depend on the world |
| Tools.ExecuteToolRunsAction | tools.py:156-160 | a known action runs with its bound arguments; an exception it raises becomes a failure with the exception's message |
| Tools.ExecuteToolBindError | tools.py:156-160 | bad arguments become a failure with Python's binding message |
| Tools.ExecuteToolWellFormed | tools.py:9-13 | every returned result has data only on success and an error only on failure |
| Tools.RunActionWellFormed | tools.py:9-13 | every tool builds its results that way |
| Tools.ActionToolName | tools.py:137-143 | the registry key of each tool finds that tool |
| Rag.StoreForSearchIdempotent | rag.py:107-108 | once a store exists, later searches reuse it |
| Rag.SearchWithoutDocuments | rag.py:105-111 | with no store and no chunks, no store is created, the search finds nothing, and the similarity search is not asked |
| Rag.EntriesAppend | rag.py:124-125 | the blocks of two consecutive result lists follow each other, and the numbering continues |
| Rag.EntriesPrefix | rag.py:124-125 | each loop step appends exactly the block of the next result |
| Rag.EntriesSplit | rag.py:124-125 | the blocks split at any result, numbered from that point |
| Rag.ContextLayout | rag.py:123-127 | for non-empty results, the context is the header, then every block in search order; the `i`-th result is block `i + 1` |
| Rag.DocumentProcessor.constructor | rag.py:16-21 | a new processor has no store and no documents |
| Rag.DocumentProcessor.LoadDocuments | rag.py:23-57 | a missing or empty folder gives no documents and keeps the old ones; otherwise the loaded documents replace them |
| Rag.DocumentProcessor.ChunkDocuments | rag.py:59-72 | it loads first only when nothing is loaded, then splits the documents |
| Rag.DocumentProcessor.CreateVectorStore | rag.py:74-85 | without chunks given, it chunks the documents; with no chunks at all it returns None and leaves the store unset; otherwise it indexes the chunks and stores the index |
| Rag.DocumentProcessor.SaveVectorStore | rag.py:87-93 | it appends the pair of the path and the current store to the log of what `save_local` wrote when a store exists, and writes nothing otherwise; the store and the documents are unchanged |
| Rag.DocumentProcessor.LoadVectorStore | rag.py:95-103 | a failed load returns None and keeps the current store |
| Rag.DocumentProcessor.Search | rag.py:105-114 | it creates the store on first use; with no store it returns nothing; otherwise it returns the similarity search with `k` unchanged |
| Rag.DocumentProcessor.BuildContext | rag.py:116-127 | the loop builds exactly `ContextText` of the results: the fixed message for no results, otherwise the header and the blocks numbered from 1 |
| AgentLoop.Recent | agent.py:123 | `history[-4:]`: the last min(4, n) messages |
| AgentLoop.HistoryLines | agent.py:122-124 | one line per message, in order: `ROLE: ` + the first 200 characters + `...` |
| AgentLoop.HistoryTextWindow | agent.py:123 | messages older than the last four never change the history text |
| AgentLoop.HistoryTextShowsRecent | agent.py:122-126 | each of the last four messages appears in the history text as its own line |
| AgentLoop.PromptCarriesParts | agent.py:84-115 | the prompt contains the query, the retrieved context and the history verbatim |
| AgentLoop.Kwargs | agent.py:73 | the keyword arguments are exactly the members of the call other than `tool` and `action` |
| AgentLoop.KwargsAppend | agent.py:73 | the filter keeps the order: filtering two runs of members gives the first run's result followed by the second's |
| AgentLoop.ExecuteFromCall | agent.py:67-75 | a call with a member named `tool_name` raises `TypeError: execute_tool() got multiple values for argument 'tool_name'` before the dispatcher runs; any other call runs the dispatcher on its `tool`, its `action` and the other members |
| AgentLoop.KeywordNames | agent.py:73 | a name other than `tool` and `action` is among the keyword arguments exactly when the call has a member with that name |
| AgentLoop.NextQueryCarries | agent.py:167-181 | the next query contains `tool.action` and the original question; on success it also contains the first 500 characters of the dumped data, and on failure the error |
| AgentLoop.ReplyOutcomeFacts | agent.py:146-162 | a pass goes on exactly when the reply holds a non-empty object call whose run returns, which excludes a call with a `tool_name` member; it answers only with the reply itself; the query it hands on repeats the original question |
| AgentLoop.ReplyOutcome | agent.py:146-162 | a pass answers exactly when the reply holds no call, or a falsy one, and then answers with the reply; only `TypeError` and `AttributeError` escape it, never a decoding error |
| AgentLoop.ToolNameMemberRaises | agent.py:73-75 | a reply whose call has a member named `tool_name` makes the pass raise that `TypeError`, so it does not keep the loop going |
| AgentLoop.ReplyEndings | agent.py:146-158 | a reply with no call, or a falsy one such as `{}`, is the answer |
| AgentLoop.NextCarriesQuestion | agent.py:162-181 | after a tool run, the next query depends only on the call, the result and the original question, not on the previous query |
| AgentLoop.LoopBound | agent.py:135-136 | the loop makes at most `max - iteration` passes, and exactly that many when it runs out |
| AgentLoop.LoopCounter | agent.py:135-140 | when each pass asks with its own number, the `k`-th turn is call `iteration + k + 1` |
| AgentLoop.LoopMentions | agent.py:135-181 | when passes keep a text in their prompts and queries, every prompt of the loop mentions it |
| AgentLoop.LoopEndings | agent.py:135-183 | every turn but the last went on; all of them did when the loop ran out; otherwise the last did not, and an answer is its reply |
| AgentLoop.RunStep | agent.py:135-181 | the first pass of `Run` either ends the chat or hands its query to the rest |
| AgentLoop.RunCrashesOnToolName | agent.py:128-183 | a pass whose reply names `tool_name` in its call ends the chat after that one turn, crashed with the binding's `TypeError` |
| AgentLoop.RunCalls | agent.py:132-140 | `chat` calls the model at most `max_iterations` times, and the counter rises by one per pass |
| AgentLoop.RunEndings | agent.py:146-183 | every reply but the last kept the loop going; the chat answers with the last reply when it holds no call; it runs out only when every reply kept it going |
| AgentLoop.RunReachesCeiling | agent.py:135-183 | a model whose every reply is a call that runs drives the chat to exactly `max` passes and the ceiling |
| AgentLoop.RunPromptsCarryQuestion | agent.py:133-181 | every prompt of the chat contains the original question |
| AgentLoop.PassMentions | agent.py:139-181 | a pass on a query that repeats the question sends a prompt with the question, and hands on a query with it |
| AgentLoop.Agent.constructor | agent.py:12-26 | a new agent has an empty history, 10 iterations, and an empty processor for the documents folder |
| AgentLoop.Agent.FormatConversationHistory | agent.py:117-126 | the loop builds exactly `HistoryText`: `(Sem histórico)` for no history, otherwise the lines of the last four messages joined by newlines |
| AgentLoop.Agent.BuildPrompt | agent.py:77-115 | the prompt is the template filled with the query, the context retrieved for it with k = 3, and the history |
| AgentLoop.Agent.InitializeDocs | agent.py:185-200 | it returns False exactly when nothing was loaded, and then the store is unchanged and the documents are the empty list loaded, or the old ones when the folder was missing or empty; otherwise the loaded documents are kept, chunks, if any, are indexed, and with no chunks the store is unchanged; the index of the chunks is what gets saved to `./vector_store`, only the store already there is saved when there are no chunks, and nothing is saved when it returns False |
| AgentLoop.Agent.Step | agent.py:136-181 | one pass of the loop body is the pass `RunPass` describes: its turn, its outcome (including the `TypeError` of a call with a `tool_name` member) and the retrieval state after it; nothing is saved |
| AgentLoop.Agent.Chat | agent.py:128-183 | the `while` loop produces the turns, the retrieval state and the reply of `Run`; the history grows by `{user: question}` then `{assistant: reply}` only when the chat ends with an answer; when the loop runs out it returns `⚠️  Máximo de iterações ({max}) atingido` and leaves the history unchanged; nothing is saved |

## Left out

- Printing: every `print`, and the test drivers in test_parser.py and test_improvements.py.
- The sample texts in test_parser.py and test_improvements.py are not evaluated literally; Dafny does not evaluate functions on texts that long. `LabelledUuid`, `LabelledTxnUuid`, `NoIdFound`, `LenientAmidProse` and `LenientBraceSpan` state the shape of each sample instead.
- main.py (the command-line interface and its rendering) and update_rag.py (a script that calls the library in sequence) are not part of this model.
- The language model: `ChatOllama.invoke` is the function `llm` of the call number and the prompt. Its content is not modelled. It is taken never to raise; in the source a refused connection to the model server escapes `chat`.
- The embedding and FAISS calls under `build_context` (indexing and similarity search) are taken never to raise, and so is the `Library`'s load: `os.makedirs` and `os.listdir` in `load_documents` (rag.py:25-27) can raise too. In the source all of these escape `chat` through `search`, `create_vector_store` and `chunk_documents`.
- Loading, splitting, indexing, similarity search and saving the index belong to the retrieval libraries. They are the functions of a `Library`. What `save_local` writes is recorded in the processor's `saves` log, not on disk.
- HTTP transport, file reading and writing, `datetime.now()` and `os.getenv` are values of a `World`. Paths are POSIX paths. Creating the directory before a write is part of the file oracle, except for a bare file name, whose empty directory name always fails.
- The internals of `json.loads` and `json.dumps`: they are the `Codec`. The decoder is taken to return objects with distinct keys, as a `dict` has.
- `getattr` reflection: each tool has a closed set of actions. `getattr` would also find other attributes of a class (for example `__init__`).
- Tools.CallApiShapesReply: `raise_for_status` is the response's `statusError`, which the network oracle supplies freely. `RaisesForStatus` states the rule of `requests` (an error exactly for a 4xx or 5xx status); `ShapeReplyByStatus` and `CallApiErrorStatus` assume it, and `CallApiShapesReply` holds for any reply. The text of the error is the oracle's.
- Text.Lower: lowercases only A–Z, not every Unicode letter as `str.lower` does.
- Repair.MatchAt: compares characters exactly. The `re.IGNORECASE` flag of `extract_transaction_id` is not modelled; on the lowercased text it differs only for the few non-ASCII characters Python's case folding matches with ASCII ones (`ſ` matches `s`, `ı` matches `i`).
- JsonValues.PyRepr: quotes strings with `'` and does not escape them, and a float is kept as the text of its `repr`. The model has no floating point.
- The text of Python's own exception messages (keyword binding, `TypeError`s) follows CPython 3 in shape. The transport's and decoder's messages are whatever the oracles return.
- AgentLoop.Agent.Chat: requires the context's folder and embedding model to be those of the agent's processor. That tie lets the loop be stated against `Run`.
- Concurrency: the source is single-threaded.

