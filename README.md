# PRD evidence validator, template MCP server and logging hook

This project models three programs from the `especialistas` repository.

- **The PRD-ATT evidence validator** (`PRD-ATT-validator.js`). For each requirement it runs up to four checks against a web page: element existence, a functional flow, a load-time limit and medical-compliance locators. It combines their outcomes into one status (`validated`, `partial`, `failed`, `blocked`), sorts the evidence record into one of four buckets, and builds the report's result sections and its "next steps" list. Module `PrdValidator`: datatypes for configurations and records, functions for the single checks, methods with loops for the four steps of `runValidationTests`, and a class `Validator` whose four bucket fields are updated in place.
- **The template MCP server** (`servidor-mcp-basico.py`). It reads one JSON message per line from standard input and answers each one with one JSON line. The answers cover the `initialize` handshake with its fixed catalog, the `tools/call` dispatch to its two tools, the error for any other message type, and `JSON inválido` for a line that does not decode. An exception other than a decode error ends the server. Module `McpServer`.
- **The logging hook** (`gancho-basico.py`). It reads its context from standard input, builds one event record, appends it as one JSON line to the day's file under `.claude/logs`, and exits. Module `LoggingHook`: a class `Gancho` whose `logs` field is the text of each file in the log directory.
  - `Gancho` is built on the corrected loading `CarregarContexto`, which reads any non-object input as `{}`; on that context the hook always exits with status 0.
  - The exit status of the hook as written is `ExitCodeAsWritten`: 1 when standard input decodes to a value that is not an object (see "## Findings").

Shared modules:
- `Json`: JSON values, Python dictionary lookup, `json.dumps` with and without `ensure_ascii`, and Python's `str()` inside an f-string.
- `Strings`: join, single-character replace and decimal rendering.
- `Wrappers`: `Option`.

The two Python programs see JSON only after `json.loads`. The parser is a given function from a line to `Some(value)` or `None`, where `None` stands for `JSONDecodeError`. The file system (for `listar_arquivos`) is a given map from the path strings to entries. The browser (for the validator) is a `Page` value that records three things: the locators that match something, the error each flow step raises, and the measured load time. Clock values are parameters.

The hook writes its log to `eventos_<date>.jsonl` (gancho-basico.py:39).

## Model

| member | source | states |
|---|---|---|
| PrdValidator.ElementResult | claude-code/commands-blog-medico/PRD-ATT-validator.js:115-125 | the element record carries the selector, the description and the criticality; it passes exactly when the selector matches something on the page |
| PrdValidator.ExecuteFlowStep | claude-code/commands-blog-medico/PRD-ATT-validator.js:182-202 | the four known actions fail exactly when the browser raises, with its message; any other action fails with `Unknown flow action: <action>` |
| PrdValidator.ValidatePerformance | claude-code/commands-blog-medico/PRD-ATT-validator.js:204-221 | the limit is the configured one, or 2000 when it is absent or 0; `passed` and `result` hold exactly when the load time is within the limit |
| PrdValidator.LgpdResult | claude-code/commands-blog-medico/PRD-ATT-validator.js:227-238 | the LGPD record is critical, its two flags say whether the privacy policy and the cookie consent are on the page, and it passes exactly when both are |
| PrdValidator.AnvisaResult | claude-code/commands-blog-medico/PRD-ATT-validator.js:241-252 | the ANVISA record is critical, its two flags say whether the medical disclaimer and the professional credentials are on the page, and it passes exactly when both are |
| PrdValidator.CfmResult | claude-code/commands-blog-medico/PRD-ATT-validator.js:255-264 | the CFM record is critical, its flag says whether the ethical guidelines are on the page, and it passes exactly when they are |
| PrdValidator.ValidateCompliance | claude-code/commands-blog-medico/PRD-ATT-validator.js:223-267 | one record per enabled rule, each one that rule's record for the page; some critical record fails exactly when some enabled rule's locators are missing |
| PrdValidator.ValidateComplianceShape | claude-code/commands-blog-medico/PRD-ATT-validator.js:223-267 | the compliance records are all critical and ordered lgpd, anvisa, cfm; each is present exactly when its flag is set |
| PrdValidator.ElementTest | claude-code/commands-blog-medico/PRD-ATT-validator.js:114-130 | the loop pushes one record per element in order; the status is `failed` exactly when some critical element is missing |
| PrdValidator.FlowTest | claude-code/commands-blog-medico/PRD-ATT-validator.js:132-151 | the loop stops at the first step that raises; it records a pass with the step count, or a fail with the first error, and a fail sets `failed` |
| PrdValidator.PerformanceTest | claude-code/commands-blog-medico/PRD-ATT-validator.js:153-161 | a missed limit turns `validated` into `partial` and any other status into `failed`; a met limit leaves the status unchanged |
| PrdValidator.ComplianceTest | claude-code/commands-blog-medico/PRD-ATT-validator.js:163-172 | the compliance records are appended; a critical failure sets `failed` |
| PrdValidator.RunValidationTests | claude-code/commands-blog-medico/PRD-ATT-validator.js:110-180 | the status is the declarative one (failed > partial > validated); the records are the four parts in order, with exactly the expected count; notes default to `[]` and impact to `low` |
| PrdValidator.PartialMeansOnlyPerformanceMissed | claude-code/commands-blog-medico/PRD-ATT-validator.js:126-170 | `partial` holds exactly when no hard check failed and the load time was missed; a run is never `blocked` |
| PrdValidator.NoChecksValidates | claude-code/commands-blog-medico/PRD-ATT-validator.js:110-180 | a configuration with no checks validates with no records |
| PrdValidator.FlowAllStepsPass | claude-code/commands-blog-medico/PRD-ATT-validator.js:133-143 | when every step completes there is exactly one flow record, a pass with the flow's length, just after the element records |
| PrdValidator.FlowErrorFails | claude-code/commands-blog-medico/PRD-ATT-validator.js:144-150 | any failing step makes the run `failed` with a fail flow record; the first failing step's message is the one recorded |
| PrdValidator.UnknownActionFails | claude-code/commands-blog-medico/PRD-ATT-validator.js:196-198 | an unknown action fails the run whatever the page shows |
| PrdValidator.NonCriticalElementIrrelevant | claude-code/commands-blog-medico/PRD-ATT-validator.js:126-128 | removing a non-critical element from the configuration never changes the status |
| PrdValidator.FormatItemShape | claude-code/commands-blog-medico/PRD-ATT-validator.js:330-337 | a block starts with `#### <id>: <description>`; then come, each starting where the one before ends and in the template's order, the status line, the evidence files joined by `, `, the stakeholder impact (`undefined` when absent), the test count (only with test results), a newline, the error (only when non-empty) and a final newline; nothing else is in the block |
| PrdValidator.FormatResultsSection | claude-code/commands-blog-medico/PRD-ATT-validator.js:325-339 | the placeholder line appears exactly when the bucket is empty |
| PrdValidator.FormatResultsSectionBlocks | claude-code/commands-blog-medico/PRD-ATT-validator.js:330-338 | every record's block occurs in the section at its offset, in record order; each block starts one character after the previous one ends |
| PrdValidator.FormatResultsSectionNewlines | claude-code/commands-blog-medico/PRD-ATT-validator.js:330-338 | the character after every block but the last is a newline, and the section ends where the last block ends |
| PrdValidator.FormatResultsSectionEnds | claude-code/commands-blog-medico/PRD-ATT-validator.js:330-338 | a non-empty section starts with the first record's block and ends with the last record's block |
| PrdValidator.NextSteps | claude-code/commands-blog-medico/PRD-ATT-validator.js:341-357 | the critical, urgent and plan lines each appear exactly when their bucket is non-empty, in that order; the continuous line always comes last |
| PrdValidator.NextStepsText | claude-code/commands-blog-medico/PRD-ATT-validator.js:356-358 | the joined text always ends with the continuous line |
| PrdValidator.NextStepsTextAllClear | claude-code/commands-blog-medico/PRD-ATT-validator.js:344-358 | when no bucket needs attention, the joined text is exactly the continuous line |
| PrdValidator.Validator.constructor | claude-code/commands-blog-medico/PRD-ATT-validator.js:14-23 | four empty buckets and the given timestamp |
| PrdValidator.Validator.CategorizeResult | claude-code/commands-blog-medico/PRD-ATT-validator.js:269-283 | the record is appended to the bucket of its status, or to `blocked` for any other status, and to no other bucket; every bucket keeps only its own status |
| PrdValidator.Validator.ValidateRequirement | claude-code/commands-blog-medico/PRD-ATT-validator.js:43-108 | without a browser exception, the record carries the run's status and records, `.png` evidence, compliance notes (`[]` when absent) and impact, and is categorised; with one, a `blocked` record goes to `blocked` carrying the message and `-error.png` evidence with no test results, notes or impact, and the other buckets are unchanged |
| PrdValidator.Validator.GenerateNextSteps | claude-code/commands-blog-medico/PRD-ATT-validator.js:341-359 | the text is the next-steps list (above) for the current buckets, joined by a newline and `- ` |
| McpServer.CatalogShape | claude-code/avansado/templates-pt-br/servidor-mcp-basico.py:22-52 | the catalog has two tools, `listar_arquivos`, which requires `caminho`, and `criar_automacao`, which requires `padrao` and `tipo` |
| McpServer.ListarArquivos | claude-code/avansado/templates-pt-br/servidor-mcp-basico.py:83-92 | a missing path gives exactly the `erro` answer naming it; a directory gives its entries in order with a matching `total`; a regular file raises |
| McpServer.Index | claude-code/avansado/templates-pt-br/servidor-mcp-basico.py:86-97 | `params[key]` returns exactly when the parameters are an object holding the key; otherwise it raises |
| McpServer.HookStart | claude-code/avansado/templates-pt-br/servidor-mcp-basico.py:113-114 | the generated hook's first three characters are a newline, `#` and a space |
| McpServer.ScriptStart | claude-code/avansado/templates-pt-br/servidor-mcp-basico.py:128-129 | the generated script's first three characters are a newline, `#` and `!` |
| McpServer.GanchoTemplate | claude-code/avansado/templates-pt-br/servidor-mcp-basico.py:112-125 | the hook starts with its header naming the pattern and contains the definition `def processar_<pattern>():` |
| McpServer.ScriptTemplate | claude-code/avansado/templates-pt-br/servidor-mcp-basico.py:127-133 | the bash script starts with its header naming the pattern and contains its `echo` line |
| McpServer.GerarAutomacao | claude-code/avansado/templates-pt-br/servidor-mcp-basico.py:109-135 | the kind selects the hook, the script, or the one-line placeholder for any other kind |
| McpServer.GeneratedKindIsVisible | claude-code/avansado/templates-pt-br/servidor-mcp-basico.py:109-135 | the kind can be read back from the output: only the placeholder starts with `#`, and only the script has `!` third |
| McpServer.GeneratedHookNameHasNoSpace | claude-code/avansado/templates-pt-br/servidor-mcp-basico.py:118 | the generated function name has no space; it keeps the length and every non-space character of the pattern |
| McpServer.CriarAutomacao | claude-code/avansado/templates-pt-br/servidor-mcp-basico.py:94-105 | it raises exactly for a hook from a pattern that is not text; otherwise it gives `sucesso` true, the message naming kind and pattern, and the generated content, in that key order |
| McpServer.ToolCallRaises | claude-code/avansado/templates-pt-br/servidor-mcp-basico.py:80-107 | for each tool, exactly which parameters make the call raise; an unknown name never raises and gets the not-found error |
| McpServer.ToolCallResults | claude-code/avansado/templates-pt-br/servidor-mcp-basico.py:83-105 | given its parameters, a call answers with the listing of that path or the creation report for that pattern and kind |
| McpServer.CatalogMatchesDispatch | claude-code/avansado/templates-pt-br/servidor-mcp-basico.py:80-107 | a call gets "not found" exactly when its name is not a catalog tool's `nome` |
| McpServer.CatalogParamsSuffice | claude-code/avansado/templates-pt-br/servidor-mcp-basico.py:24-105 | supplying, as text, every parameter the catalog marks obligatory avoids every exception except listing a regular file |
| McpServer.MessageAnswers | claude-code/avansado/templates-pt-br/servidor-mcp-basico.py:137-168 | a message raises exactly when it is not an object or its tool call raises; `initialize` gets the catalog envelope, `tools/call` the tool's result, and any other type the error naming it |
| McpServer.ResponseTypeFollowsRequestType | claude-code/avansado/templates-pt-br/servidor-mcp-basico.py:142-168 | the response `type` is `initialized`, `tools/result` or `error` exactly according to the request type |
| McpServer.InvalidJsonOnlyForDecodeErrors | claude-code/avansado/templates-pt-br/servidor-mcp-basico.py:181-193 | the `JSON inválido` answer is given exactly for a line that does not decode |
| McpServer.ResponseIsOneLine | claude-code/avansado/templates-pt-br/servidor-mcp-basico.py:186 | every response is ASCII text without a newline, then a newline |
| McpServer.LinesBeforeEof | claude-code/avansado/templates-pt-br/servidor-mcp-basico.py:175-179 | the number of lines read is the index of the first empty read, or all of them |
| McpServer.ServeLines | claude-code/avansado/templates-pt-br/servidor-mcp-basico.py:174-193 | the loop writes one answer line per input line, in order, stopping at end of input or at the first line that raises |
| McpServer.Executar | claude-code/avansado/templates-pt-br/servidor-mcp-basico.py:170-196 | each input line before end of input gets its own answer as one line, in order; the server stops at end of input or at the first line whose handling raises, with that exception |
| Json.GetFinds | claude-code/avansado/templates-pt-br/gancho-basico.py:34 | `dict.get` finds nothing exactly when no entry has the key; what it does find is an entry of the object |
| Json.EscapeChar | claude-code/avansado/templates-pt-br/servidor-mcp-basico.py:186 | a character stays literal exactly when it is not a quote, a backslash or a control character and, under `ensure_ascii`, is below U+007F; escapes never hold a newline and are ASCII under `ensure_ascii` |
| Json.SerializeIsOneLine | claude-code/avansado/templates-pt-br/gancho-basico.py:42 | `json.dumps` output never contains a newline, and is ASCII under `ensure_ascii` |
| Json.PyStrOpt | claude-code/avansado/templates-pt-br/servidor-mcp-basico.py:107 | a missing value prints as `None`, a present one as its `str()` |
| LoggingHook.CarregarContextoAsWritten | claude-code/avansado/templates-pt-br/gancho-basico.py:21-27 | empty input and a decode error give `{}`; any other input gives the decoded value, whether or not it is an object |
| LoggingHook.ExitCodeAsWritten | claude-code/avansado/templates-pt-br/gancho-basico.py:46-62 | the hook as written exits 0 exactly when the loaded context is an object, and 1 otherwise |
| LoggingHook.ArrayInputFailsAsWritten | claude-code/avansado/templates-pt-br/gancho-basico.py:25 | input that decodes to `[]` makes the hook as written exit with 1 |
| LoggingHook.CarregarContexto | claude-code/avansado/templates-pt-br/gancho-basico.py:21-27 | the context is always a set of fields: the decoded object's fields, and none for empty, undecodable or non-object input |
| LoggingHook.CarregarContextoAgrees | claude-code/avansado/templates-pt-br/gancho-basico.py:21-27 | the corrected loading agrees with the written one on every object input |
| LoggingHook.Evento | claude-code/avansado/templates-pt-br/gancho-basico.py:31-36 | keys `timestamp, tipo, ferramenta, dados` in that order; `ferramenta` is the context's `tool`, or `desconhecida` when it has none |
| LoggingHook.DadosExecucao | claude-code/avansado/templates-pt-br/gancho-basico.py:51-54 | `entrada` is the context's `input`, or `{}`; `proposito` is its `purpose`, or `não especificado` |
| LoggingHook.ArquivoLog | claude-code/avansado/templates-pt-br/gancho-basico.py:39 | the log file lies in the log directory and ends in `.jsonl` |
| LoggingHook.ArquivoLogPerDay | claude-code/avansado/templates-pt-br/gancho-basico.py:38-39 | the file name is `eventos_`, then the date, then `.jsonl`, so the date can be read back; different dates never share a file |
| LoggingHook.AppendLine | claude-code/avansado/templates-pt-br/gancho-basico.py:41-42 | appending one newline-free line and a newline keeps the old text as a prefix and adds exactly one line |
| LoggingHook.Gancho.constructor | claude-code/avansado/templates-pt-br/gancho-basico.py:16-19 | the context is loaded from the input through the corrected `CarregarContexto` (a non-object reads as `{}`), and the log directory is `.claude/logs` |
| LoggingHook.Gancho.RegistrarEvento | claude-code/avansado/templates-pt-br/gancho-basico.py:29-44 | the record is returned and appended as one serialized line to the day's file; the old text stays a prefix, the line count grows by one, and no other file changes |
| LoggingHook.Gancho.Executar | claude-code/avansado/templates-pt-br/gancho-basico.py:46-62 | on the corrected context, it records an `execucao_ferramenta` event with the context's input and purpose, and exits with 0; the hook as written exits with `ExitCodeAsWritten` instead |

## Left out

- The browser (Playwright), the page, its locators and screenshots: replaced by the `Page` value, which says what each query and step would observe. Screenshots and the evidence directory are not written.
- `initialize`, `cleanup`, `generateReport`, `main` and the configuration table of the validator script: these are I/O around the modelled core. Only the two text builders of the report are modelled.
- The step `value`, `url` and `timeout` arguments and the 500 ms wait of `executeFlowStep`: only the action and the browser's outcome decide the result.
- Clock readings: `new Date().toISOString()`, `Date.now()` and `datetime.now()` become parameters. The `replace(/[:.]/g, '-')` applied to the validator's timestamp is taken as already done.
- Validator.ValidateRequirement: models one exception raised inside the `try` as the `thrown` parameter. It does not model `page.close()` failing after `categorizeResult`, which would also push a `blocked` record.
- Absent fields of an evidence record are `None`. In a report block only the stakeholder impact prints JavaScript's `undefined`, since the other absent fields are tested before they are printed.
- The JSON text parser: a given function. Floating-point numbers are not modelled (numbers are integers), and neither are duplicate keys (lookup takes the first).
- Python's `repr()` of a string nested in a list or dict: always single-quoted, without escaping.
- Path handling in `listar_arquivos`: the path string is used as given, without `Path`'s normalisation. The order of `iterdir` is the order stored in the `Directory` entry.
- Console and standard error output: the validator's `console.log` and `console.error` messages (PRD-ATT-validator.js:48, 83, 101), the server's start and stop banners, and the hook's debug print when `.claude/debug` exists. They do not change what the programs answer or write.
- The server's `KeyboardInterrupt` handler, and `asyncio.run`: there is no concurrency to model.
- The log directory's `mkdir` and write failures, and the file's encoding: the directory's files are a map from path to text.

## Findings

| source | as written | input that shows it | evidently intended | confidence | as-written member | corrected member |
|---|---|---|---|---|---|---|
| claude-code/avansado/templates-pt-br/gancho-basico.py:25 | `json.loads(entrada)` is kept even when it is not a dictionary; the `.get` calls then raise `AttributeError`, so the hook exits 1 | standard input `[]` | a context that is always a dictionary, so that the hook always exits 0 as its comment at line 61 promises | not executed | LoggingHook.ArrayInputFailsAsWritten | LoggingHook.CarregarContexto |
