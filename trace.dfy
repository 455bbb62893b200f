/** The shared agent trace log (`agent_trace.json`): a JSON list of records that
    every agent extends, best effort, after a successful generation. */
module Trace {

  import opened Text

  /** One entry of the trace file. */
  datatype Record = Record(
    agent: string,
    model: string,
    action: string,
    promptSummary: string,
    responsePreview: string)

  /** Lengths at which the summaries are cut before "..." is appended. */
  const SummaryLength := 200
  const PreviewLength := 500

  /** `s[:n] + "..."`. */
  function Preview(s: string, n: nat): (r: string)
    ensures 3 <= |r| <= n + 3
    ensures r[..|r| - 3] <= s && r[|r| - 3..] == "..."
    ensures |s| <= n ==> r == s + "..."
  {
    Take(s, n) + "..."
  }

  /** The record an agent appends: its name, its model, the action, and the
      prompt summary and response text cut to 200 and 500 characters. */
  function MakeRecord(agent: string, model: string, action: string, summary: string, response: string): (r: Record)
    ensures r.agent == agent && r.model == model && r.action == action
    ensures r.promptSummary == Preview(summary, SummaryLength)
    ensures r.responsePreview == Preview(response, PreviewLength)
  {
    Record(agent, model, action, Preview(summary, SummaryLength), Preview(response, PreviewLength))
  }

  /** The trace file: absent, a readable list of records, or content that
      `json.load` rejects. */
  datatype TraceFile = Missing | Stored(records: seq<Record>) | Unreadable

  /** The list an append starts from: the stored records, or `[]` when the file
      does not exist. */
  function Loaded(f: TraceFile): seq<Record>
    requires !f.Unreadable?
  {
    if f.Stored? then f.records else []
  }

  /** The trace file at the path every agent was given. */
  class TraceLog {
    var file: TraceFile

    constructor (initial: TraceFile)
      ensures file == initial
    {
      file := initial;
    }
  }

  /** `_log_trace`: a no-op without a trace file; otherwise load the list (an empty
      one if the file is missing), append exactly one record and write the list
      back. Every error is swallowed: an unreadable file, or a write that fails
      (`writeOk` false), leaves the file as it was and nothing is raised. */
  method LogTrace(log: TraceLog?, agent: string, model: string, action: string,
                  summary: string, response: string, writeOk: bool)
    modifies log
    ensures log != null ==>
              log.file == if old(log.file).Unreadable? || !writeOk then old(log.file)
                          else Stored(Loaded(old(log.file)) + [MakeRecord(agent, model, action, summary, response)])
  {
    if log == null {
      return;
    }
    if log.file.Unreadable? || !writeOk {
      return;
    }
    log.file := Stored(Loaded(log.file) + [MakeRecord(agent, model, action, summary, response)]);
  }
}
