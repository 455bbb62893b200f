# Argus remediation core, modelled in Dafny

Argus scans Python sources for vulnerabilities. It asks a generation backend
for a patch and a reproduction test, asks the user to approve the patch, and
verifies the patch with pytest. It retries with the failing test's output,
and when the retries run out it rewrites its own repair instructions (the
"skill" document). This project models the core of that pipeline.

- **The remediation controller**, `ManagerAgent.handle_vulnerability`, is a
  class (`Manager.Manager`) whose methods update the dashboard rows, the
  thought history, the file store, the run report and the trace log. It is
  proved against `Remediation.Remediate`, a pure function. That function
  says what one vulnerability's handling does, given what each collaborator
  answers.
- **The dashboard bookkeeping** (`Dashboard`) covers `update_vuln_status`
  (an upsert keyed by file and type), `log_thought` (a history of at most
  eight thoughts) and `_extract_vuln_type`.
- **The agents**:
  - the patcher's repair and exploit prompts, its trace action and its
    retry policy (`Patcher`, `Generation`);
  - the improver's rewrite of the skill document (`Improver`);
  - the scanner's prompt, its fallback result and its retry policy
    (`Scanner`);
  - the verifier's verdict (`Verifier`);
  - the shared best-effort trace log (`Trace`).
- **The report summary**: `Report` holds the numbers and cards of the HTML
  report.

The collaborators are inputs. Each attempt gets three of them in an
`AttemptInput`:

- the patch generator's reply;
- the text typed at the approval prompt;
- how the pytest process ended.

The improver's reply, the attack graph, the exploit reply and whether the
trace file can be written are parameters. The file system is a map from
path to content (`Files.FileStore`). `Config.MAX_PATCH_RETRIES` (default 2,
config.py:39) is the manager's `maxRetries`.

Where the code and the design of the system disagree, the model follows the
code, with two exceptions: the two defects listed under "## Findings". For
each of them, one member models the code as written and exhibits the defect.
The manager's loop and the improver follow the evidently intended behaviour:
the loop retries with feedback, and a failed skill rewrite leaves the
document as it was. The design describes two things the code does not have:

- a scan cache;
- an ordered list of fallback backends (`Config.MODEL_FALLBACKS` is never
  read).

The retry policies are the `tenacity` decorators the code has: three
attempts on `ClientError` only for the patcher, and five attempts on any
error for the scanner.

## Model

| member | source | states |
|---|---|---|
| Text.Lower | agents/manager.py:298 | `str.lower()` keeps the length and lower-cases each character |
| Text.LowerIdempotent | report_generator.py:170 | lower-casing twice is lower-casing once, so a card's severity is lower-case |
| Text.LowerIsN | agents/manager.py:393 | exactly "n" and "N" lower-case to "n", so only those two answers reject a patch |
| Text.ContainsIff | agents/manager.py:298 | the `in` substring test holds exactly when the needle occurs at some position |
| Text.Decimal | agents/manager.py:352 | `str(n)`: at least one character, all of them digits, two or more exactly when n >= 10 |
| Files.FileStore.Write | agents/manager.py:406-410 | a write replaces the content of one path and leaves every other path as it was |
| Files.Basename | agents/scanner.py:58 | `os.path.basename` never contains a separator |
| Files.BasenameAfterSeparator | agents/scanner.py:58 | after a directory part ending in '/', the basename is the name that follows |
| Files.BasenameOfJoin | agents/improver.py:80 | the basename of `os.path.join(dir, name)` is `name` |
| Files.SiblingPathsDistinct | agents/manager.py:341-404 | the target and its `.bak`, `test_` and `exploit_` siblings are four different paths |
| Generation.GenerateFrom | agents/patcher.py:38-49 | the retry decorator makes at most `maxAttempts` requests; it replies exactly when the last request replied; every earlier request failed with a retryable error; it stops early only on a reply or a non-retryable error |
| Generation.Generate | agents/patcher.py:38-49 | the whole decorated call: between 1 and `maxAttempts` requests, a reply exactly when the last one replied, and every earlier request retryable |
| Generation.PatcherStopsOnOtherErrors | agents/patcher.py:38-42 | the patcher makes at most three requests and retries only `ClientError`; any other error ends the call after one request |
| Generation.ScannerFailsOnlyAfterFiveErrors | agents/scanner.py:37-44 | the scanner's call fails exactly when all five requests failed |
| Trace.Preview | agents/patcher.py:29-30 | `s[:n] + "..."`: a prefix of `s` of at most n characters followed by "...", and all of `s` when it is short |
| Trace.MakeRecord | agents/patcher.py:25-31 | the record holds the agent, the model and the action, with the summary cut to 200 and the response to 500 characters plus "..." |
| Trace.LogTrace | agents/patcher.py:14-36 | no trace file: nothing happens; otherwise exactly one record is appended to the loaded list (an empty list for a missing file); an unreadable file or a failed write leaves the file unchanged and raises nothing |
| Verifier.TimeoutMessageQuotesLimit | agents/verifier.py:17-23 | the timeout message quotes the 30-second limit |
| Verifier.RunTest | agents/verifier.py:5-25 | passed exactly when pytest exited with code 0; the output is stdout + "\n" + stderr, the timeout message, or "Error running test: " and the error; nothing is raised |
| Verifier.OutputNeverEmpty | agents/verifier.py:19-25 | every verdict carries non-empty output, so a failed verification always yields feedback |
| Verifier.OutputKeepsStreams | agents/verifier.py:19 | the output starts with stdout and contains stderr |
| Patcher.PatchAction | agents/patcher.py:107 | the action is "create_patch_retry" exactly when the feedback is truthy, and "create_patch" otherwise |
| Patcher.PatchPrompt | agents/patcher.py:83-103 | the repair prompt starts with the skill document, with or without the correction block |
| Patcher.ExploitPrompt | agents/patcher.py:57-68 | the exploit prompt starts with the exploit skill document |
| Patcher.ExploitPromptLayout | agents/patcher.py:57-68 | after the skill text come the vulnerability JSON, the file name and the target code, in that order and at those positions, and the prompt ends with the closing fence |
| Patcher.PatchPromptLayout | agents/patcher.py:83-94 | the repair prompt starts with the skill text, then has the vulnerability JSON, the file name and the original code, in that order and at those positions |
| Patcher.CorrectionBlockIff | agents/patcher.py:95-103 | the prompt extends the base prompt; the correction block is appended exactly when the feedback is truthy; it quotes the first 1000 characters of the feedback and nothing beyond them |
| Patcher.PatcherAgent.constructor | agents/patcher.py:9-12 | the agent keeps its model name and trace file |
| Patcher.PatcherAgent.CreatePatch | agents/patcher.py:77-112 | sends the repair prompt under the patcher's policy; a failed call returns `None` and writes no trace record; a reply is returned and traced once under `PatchAction(feedback)` |
| Patcher.PatcherAgent.CreateExploit | agents/patcher.py:51-75 | the same shape for the exploit prompt, traced as "create_exploit" |
| Improver.ImprovePrompt | agents/improver.py:40-66 | the prompt quotes the failure and then the current skill document, both verbatim |
| Improver.RewriteSkill | agents/improver.py:34-85 | succeeds exactly when the skill file exists and the reply has text; the file then holds exactly the reply text, and after any failure it keeps its content (a missing file is never created) |
| Improver.RewriteSkillAsWritten | agents/improver.py:74-78 | as written, a reply without text truncates the file; every other case agrees with `RewriteSkill` |
| Improver.AsWrittenErasesSkill | agents/improver.py:76-78 | as written, a reply without text leaves an empty skill document where the intended rewrite keeps it |
| Improver.ImproverAgent.constructor | agents/improver.py:7-10 | the agent keeps its model name and trace file |
| Improver.ImproverAgent.ImproveSkill | agents/improver.py:31-85 | a missing file: returns false and touches nothing; otherwise sends `ImprovePrompt`, and the result and the file are those of `RewriteSkill`; one "improve_skill" record naming the file's basename is appended on success only |
| Scanner.ScanPrompt | agents/scanner.py:54 | the skill text, then the code after "\n\nCode to Analyze:\n```python\n", then a closing fence |
| Scanner.ScanResult | agents/scanner.py:56-62 | a failed call yields `{"vulnerabilities": []}`, never `None`; a reply is returned as parsed |
| Scanner.ScannerAgent.constructor | agents/scanner.py:8-11 | the agent keeps its model name and trace file |
| Scanner.ScannerAgent.ScanFile | agents/scanner.py:46-62 | sends `ScanPrompt` under the scanner's five-attempt policy; returns `ScanResult`; traces a reply once as "scan_file" with the file's basename |
| Dashboard.FindEntry | agents/manager.py:181-186 | the first row whose file and type match, or none exactly when no row matches |
| Dashboard.FindEntrySameKeys | agents/manager.py:181-186 | the search depends only on the rows' keys |
| Dashboard.FindEntryAppend | agents/manager.py:181-189 | appending a row can only make a key found at the new position when it was missing before |
| Dashboard.Upsert | agents/manager.py:180-189 | `update_vuln_status` adds at most one row, and leaves as it was every row whose file or type differs from the key |
| Dashboard.UpsertSetsStatus | agents/manager.py:180-189 | after `update_vuln_status` the key shows the new status |
| Dashboard.UpsertKeepsOthers | agents/manager.py:180-189 | every other key shows what it showed before |
| Dashboard.UpsertShape | agents/manager.py:180-189 | a row is added exactly when the key had none, and distinct keys stay distinct |
| Dashboard.UpsertTwice | agents/manager.py:180-189 | two updates of a key leave what the second alone leaves |
| Dashboard.UpsertAt | agents/manager.py:180-189 | updating a key rewrites its first row in place |
| Dashboard.UpsertFinds | agents/manager.py:180-189 | after an update the key's first row holds exactly the given status and color |
| Dashboard.UpsertThenRewrite | agents/manager.py:180-189 | rewriting the row an update created is the same as updating the key again |
| Dashboard.PushThought | agents/manager.py:171-175 | the message becomes the last entry; a history of at most eight stays at most eight; the result is the newest suffix of history + [message] |
| Dashboard.PushAll | agents/manager.py:171-175 | logging several messages keeps the bound of eight and ends with the last message |
| Dashboard.PushThoughtRecent | agents/manager.py:171-175 | logging one message keeps the most recent eight of the whole log |
| Dashboard.RecentAppend | agents/manager.py:171-175 | trimming to the most recent eight before appending gives the same trimmed log |
| Dashboard.PushAllKeepsRecent | agents/manager.py:171-175 | from at most eight entries, logging any messages leaves the most recent eight of the old history followed by the messages |
| Dashboard.PushAllRecent | agents/manager.py:171-175 | the history after a batch is the most recent eight of the whole log |
| Dashboard.PushAllAppend | agents/manager.py:171-175 | logging a batch is logging its parts one after the other |
| Dashboard.FirstMention | agents/manager.py:297-299 | the first category, in list order, mentioned case-insensitively by the type or the description, or none exactly when none is mentioned |
| Dashboard.Classify | agents/manager.py:296-301 | the category shown never exceeds 25 characters |
| Dashboard.ExtractVulnType | agents/manager.py:296-301 | `_extract_vuln_type` never returns more than 25 characters |
| Dashboard.PrefixMentioned | agents/manager.py:298-301 | a prefix of the type is mentioned by the type |
| Dashboard.ClassifySpec | agents/manager.py:296-301 | the result is a known category exactly when one is mentioned; it is then the first mentioned in list order; otherwise it is the type (default "Unknown") cut to 25 characters |
| Remediation.ReportStatus | agents/manager.py:423-453 | a "Fixed" result entry exactly for a fixed patch; a "Failed" entry exactly after escalation, whatever the rewrite did; no entry for Patch Gen Failed, Invalid Patch or Skipped |
| Remediation.Remediate | agents/manager.py:347-455 | the handling from the first attempt, which gets no feedback: at least one and at most maxRetries + 1 calls to `create_patch` |
| Remediation.RemediateFrom | agents/manager.py:350-453 | from attempt k, at least one and at most maxRetries + 1 - k calls to `create_patch`, and no more tests written than calls |
| Remediation.RemediateStep | agents/manager.py:427-432 | a failed verification with retries left restores the target and hands its output to the next attempt |
| Remediation.FeedbackChain | agents/manager.py:347-356 | `create_patch` is called at most maxRetries + 1 times; the first call gets no feedback; each later call gets the output of the failed verification just before it; an attempt is followed by another only after it was approved and failed |
| Remediation.LastAttemptDecides | agents/manager.py:359-453 | each outcome has exactly one cause at the last attempt made: no usable reply, a missing field, a rejection, a passing verification, or a failing one on the last allowed attempt; only the last escalates, with that verification's output, and it reports Skill Upgraded exactly when the rewrite succeeded |
| Remediation.WritesPerAttempt | agents/manager.py:370-410 | a reproduction test is written for every attempt with a well-formed reply; the backup and the fixed code are written once per approved attempt, which is every such attempt except a final rejected one |
| Remediation.TestsInOrder | agents/manager.py:370-373 | the tests written are those of the attempts' replies, in order, and each of those replies was well-formed |
| Remediation.UnapprovedWritesNothing | agents/manager.py:393-453 | without an approved attempt nothing is fixed and nothing escalates |
| Remediation.ExhaustsRetries | agents/manager.py:350-453 | when every attempt is approved and fails, there are exactly maxRetries + 1 calls, and the handling escalates with the last output |
| Remediation.RejectionStops | agents/manager.py:393-399 | a rejection after failed attempts ends as Skipped at once, with the approved count unchanged |
| Remediation.RemediateAsWritten | agents/manager.py:350-352 | as written, the handling completes exactly when the intended one calls `create_patch` only once, and then it agrees with it; reaching a second call raises `NameError` instead |
| Remediation.AsWrittenNeverRetries | agents/manager.py:350-352 | as written, the first failed verification with retries left ends in `NameError`, where the intended loop retries with the output as feedback |
| Manager.RunReport.constructor | agents/manager.py:197-201 | the report starts with three empty lists |
| Manager.HandledFiles | agents/manager.py:341-453 | the handling removes no file, and the only files it creates are the test, the backup and the exploit next to the target |
| Manager.HandledPaths | agents/manager.py:341-453 | what the handling leaves at each path: the target holds the fixed code only for an approved fix and the original otherwise; the backup holds the original once an attempt was approved; the test file holds the last test; the exploit holds the exploit code; every other path except the skill document is untouched |
| Manager.HandledTarget | agents/manager.py:405-428 | the target ends holding the last attempt's fixed code exactly when the outcome is Fixed, and its original content otherwise |
| Manager.HandledTest | agents/manager.py:370-373 | once a reply is well-formed, the test file holds the reproduction test of the last attempt |
| Manager.HandledBackup | agents/manager.py:401-406 | after a fix or an escalation the backup holds the original content |
| Manager.StepOutcome | agents/manager.py:359-453 | an attempt continues the loop exactly when it was approved, failed verification and had retries left |
| Manager.FinishStep | agents/manager.py:427-432 | a failed attempt with retries left writes what the rest of the handling would otherwise have written first |
| Manager.FinishLast | agents/manager.py:359-453 | the attempt that ends the loop decides the outcome, and its writes are all that the rest of the handling writes |
| Manager.LoopAdvances | agents/manager.py:427-432 | after a failed attempt the loop still tracks the handling from the next attempt, and the skill document is untouched |
| Manager.LoopEnds | agents/manager.py:359-453 | the attempt that ends the loop completes the handling's narration, files and outcome |
| Manager.StartTracks | agents/manager.py:328-350 | after the opening steps the loop tracks the whole handling, and writing the exploit leaves the skill document unchanged |
| Manager.FinalAttemptTells | agents/manager.py:393-453 | the attempt that ends the loop logs, as its last thought, the one that tells its outcome |
| Manager.ThoughtsFromTell | agents/manager.py:350-453 | from any attempt on, the last thought logged tells how the handling ended |
| Manager.NarrationTellsOutcome | agents/manager.py:317-453 | the narration opens with the analyzing, visualizing and exploit thoughts, and it ends with "Patch verified…" after a fix, "Patch rejected…" after a rejection, "Neural pathways updated…" after a successful rewrite and "Evolution failed…" after a failed one |
| Manager.NarrationLogged | agents/manager.py:171-175 | logging a narration message by message leaves its last message current and the most recent eight in the history |
| Manager.SkillRewrittenSummaryNamesFile | agents/manager.py:441-442 | the improver's trace summary names "repair_code.md" |
| Manager.Manager.constructor | agents/manager.py:74-98 | an empty dashboard; the initial thought as current thought and as the only history entry; a removed trace file; every agent on its default model and sharing the trace |
| Manager.Manager.LogThought | agents/manager.py:171-178 | the message becomes the current thought; the history is `PushThought` of the old one; the dashboard rows are unchanged |
| Manager.Manager.UpdateVulnStatus | agents/manager.py:180-189 | the loop leaves the rows as `Upsert` describes, and the thoughts are unchanged |
| Manager.Manager.AnnounceRetry | agents/manager.py:351-354 | after the first attempt, the retry thought and the status "Retry k" in magenta |
| Manager.Manager.Propose | agents/manager.py:356-399 | the reply's code is applied exactly when it is well-formed and not rejected; the thoughts, the status at the user's answer, and the test write all follow the reply |
| Manager.Manager.ApplyPatch | agents/manager.py:401-415 | the backup receives the original and then the target receives the fixed code; the status ends as Verifying Patch |
| Manager.Manager.Escalate | agents/manager.py:433-453 | the skill rewrite, Skill Upgraded or ✗ Failed according to its success, one "Failed" result, and the improver's record only on success |
| Manager.Manager.Evolve | agents/manager.py:434-438 | the max-retries thought and the Evolving... status |
| Manager.Manager.Evolved | agents/manager.py:444-451 | the thought and final status that report the rewrite's success or failure |
| Manager.Manager.Conclude | agents/manager.py:401-453 | an approved attempt: continues exactly when `StepOutcome` says so, with the verification output; its thoughts, status, files, result entry and trace are those of the step |
| Manager.Manager.Settle | agents/manager.py:413-453 | a pass keeps the fix and reports it; a failure restores the original, then retries or escalates on the last attempt |
| Manager.Manager.Attempt | agents/manager.py:351-453 | one attempt: its feedback for the next attempt, thoughts, final row, files, report entry and trace, as `StepOutcome` decides them |
| Manager.Manager.Open | agents/manager.py:317-344 | the opening thoughts and statuses, the attack graph stored in the vulnerability's record when non-empty, the original content read, and the exploit written when the reply has one |
| Manager.Manager.Round | agents/manager.py:350-453 | one pass of the loop body either completes the handling or hands the verification output on, with nothing reported yet |
| Manager.Manager.PatchLoop | agents/manager.py:347-453 | the loop completes the handling it was started on: its thoughts, its files, one final status, the episode's report entry and the improver's record after an escalation |
| Manager.Manager.Begin | agents/manager.py:317-318 | the analyzing thought and status, and the row that carries the vulnerability from then on |
| Manager.Manager.Remedy | agents/manager.py:347-455 | everything after the opening, stated over the state before the opening |
| Manager.Manager.HandleVulnerability | agents/manager.py:316-455 | the handling does what `Remediate` describes: exactly its narration logged, one final status on the vulnerability's row, the files of `HandledFiles`, at most one result entry (by `ReportStatus`), the improver's trace record only after an escalation, and the attack graph stored |
| Report.CountStatus | report_generator.py:164-165 | a status count never exceeds the number of results |
| Report.CountAppend | report_generator.py:164-165 | counting distributes over appended results |
| Report.CountZero | report_generator.py:164-165 | a count is zero exactly when no result has the status |
| Report.FixedAndFailedBounded | report_generator.py:164-165 | fixed_count + failed_count <= len(results) |
| Report.Summarize | report_generator.py:160-165 | missing keys count as empty lists, and the two counts together never exceed the results |
| Report.EmptyReport | report_generator.py:160-165 | a report without keys shows zeros |
| Report.IsFixed | report_generator.py:178 | a card is shown fixed only when some result has status "Fixed" and a `file` containing the card's file name |
| Report.IsFixedIff | report_generator.py:178 | a card is fixed exactly when some result has status "Fixed" and a `file` containing the card's file name |
| Report.CardOf | report_generator.py:169-185 | every vulnerability yields a vulnerability card |
| Report.CardDefaults | report_generator.py:170-175 | a record without keys shows "Unknown", "medium", "unknown", "?", "No description provided." and no graph |
| Report.CardShows | report_generator.py:170-185 | the type falls back from "type" to "vulnerability" to "Unknown"; the severity is lower-case; a graph appears exactly for a non-empty attack graph; the badge says fixed exactly when a result marks the file fixed |
| Report.BuildCards | report_generator.py:187-201 | the accumulation loop builds one card per vulnerability, in order; the placeholder appears exactly when there are none |
| Report.GenerateReport | report_generator.py:160-201 | the totals, the two counts with their bound, and the cards |
| Report.HandledEntryCounted | report_generator.py:164-178 | the entry the manager appends adds one to the fixed count exactly for a fix and one to the failed count exactly after an escalation, and a fix shows the file's card as fixed |

## Left out

- The terminal dashboard (`generate_dashboard`, `Live`, the banner and the `live.update` refreshes) is not modelled. Nor is how `console.input` reads the answer: the answer is a string input.
- Speech and sound effects (`VibeEngine`: threads, queues, audio) and the `CostTracker`'s floating-point cost arithmetic are not modelled; the usage half of every `(result, usage)` pair is dropped.
- `run`, `scan_project`, `_save_reports` and the asyncio scheduling are outside the core; `run` only supplies `report_data`.
- The generation backend, the `tenacity` back-off timing, `json.loads` and `subprocess.run` are not modelled. The backend's outcome is a `Generation.Call` input and how pytest ended is a `Verifier.ProcessEnd` input. `json.dumps` of a vulnerability is a string parameter.
- The collaborators the manager calls do not match the agents shown. It awaits `generate_attack_graph`, which no agent has, and it unpacks `(result, usage)` pairs from synchronous methods that return one value. It awaits `improve_skill`, which returns a bool, and it passes `persona=` to a constructor that does not accept it. The manager is modelled against the shapes it uses, with the attack graph, the exploit reply, the per-attempt inputs and the improver's reply as parameters.
- Manager.Manager.HandleVulnerability: the contract states the trace as if `create_patch` and `create_exploit` did not log. The patch generator and the exploit generator are abstract there, so the contract speaks only of the improver's record.
- Manager.Manager.HandleVulnerability: follows the corrected behaviour of both "## Findings" rows: the loop retries with the verification output as feedback, and a failed skill rewrite keeps the document. The as-written halves are `Remediation.RemediateAsWritten` and `Improver.RewriteSkillAsWritten`.
- Manager.Manager.AnnounceRetry: follows the corrected behaviour of the first "## Findings" row: the retry thought quotes `Config.MAX_PATCH_RETRIES`. As written, that line raises `NameError`, which `Remediation.RemediateAsWritten` models.
- Improver.ImproverAgent.ImproveSkill: follows the corrected behaviour of the second "## Findings" row: a reply without text leaves the skill document unchanged. As written, the file is truncated first, which `Improver.RewriteSkillAsWritten` models.
- Remediation.AttemptInput: the patch reply is `None` or an object whose values are strings. A truthy reply that is not an object (a JSON list, string or number) raises `AttributeError` at `patch_result.get` (agents/manager.py:363). A `reproduction_test_code` or `fixed_code` that is not a string raises `TypeError` from `f.write` (agents/manager.py:373 and 410). At line 410 this happens after line 409's `open(file_path, 'w')` emptied the target, so the target stays empty and is never restored. These inputs cannot be expressed, so these paths are not modelled.
- Manager.Manager.HandleVulnerability: for the same reason, the exploit code is a string. An `exploit_code` that is truthy but not a string raises `TypeError` after line 342 created an empty exploit file (agents/manager.py:339-343); this is not modelled.
- Manager.Manager.HandleVulnerability: requires that the skill document is none of the target, its `.bak`, its `test_` and its `exploit_` files. The code relies on this without checking it (the skills directory is not the scanned tree).
- Manager.Manager.HandleVulnerability: requires that the target file exists and that there are enough attempt inputs. A missing target raises `FileNotFoundError`, which is not modelled.
- The vulnerability dictionary the manager mutates (`vuln["attack_graph"] = ...`) is the same object as entry `vi` of `vulnerabilities_found`. The model writes that entry.
- Patcher.PatcherAgent.CreatePatch and Patcher.PatcherAgent.CreateExploit: require the skill document, whose absence raises `FileNotFoundError` in the code.
- Scanner.ScannerAgent.ScanFile: requires the scanned file and the audit skill, whose absence raises `FileNotFoundError`.
- Trace.LogTrace: a failed write leaves the file unchanged. A `json.dump` that fails after `open(..., 'w')` truncated the file is not modelled.
- The trace's `response_preview` is `str(response)` of a parsed JSON value. The model takes that rendering as the reply's `shown` string, because Python's `repr` of a dictionary is not modelled.
- Text.Lower: lower-cases ASCII letters only, not the whole of Unicode.
- The reproduction run before the patch (`passed_initial`, agents/manager.py:380) does not affect control flow and is not modelled.
- In the report, vulnerability records are maps from string to string, so a numeric `line` is not modelled. The HTML text, the upper-cased severity badge, the timestamp and the file write are not modelled either: a card is the values its template is filled with.
- Scan caching, content hashing, batching, secret redaction and the fallback list `Config.MODEL_FALLBACKS` are absent from the code and not modelled. Nor is any guarantee that a rewritten skill keeps its earlier rules, which the improver only asks for.

## Findings

| source | as written | input that shows it | evidently intended | confidence | as-written member | corrected member |
|---|---|---|---|---|---|---|
| agents/manager.py:352 | the retry thought formats `MAX_PATCH_RETRIES`, a name the module never defines (only `Config.MAX_PATCH_RETRIES` exists), so attempt 1 raises `NameError` out of `handle_vulnerability` | maxRetries = 2; attempt 0's patch is well-formed, approved and fails its test | retry with the test output as feedback, up to `Config.MAX_PATCH_RETRIES` retries | high (not executed) | Remediation.AsWrittenNeverRetries | Remediation.FeedbackChain |
| agents/improver.py:76-78 | `open(path, 'w')` truncates the skill file before `f.write(response.text)` raises on a `None` text; `improve_skill` returns False with the document erased | an existing non-empty skill file and a reply whose `.text` is `None` (no text part) | a failed rewrite leaves the skill document unchanged (the code comment says "Atomic overwrite") | high (not executed) | Improver.AsWrittenErasesSkill | Improver.RewriteSkill |
