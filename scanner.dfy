/** `ScannerAgent.scan_file`: asks the backend to audit one file and never
    lets a failed request escape. */
module Scanner {

  import opened Optional
  import opened Text
  import opened Files
  import opened Generation
  import Trace

  const AgentName := "ScannerAgent"
  const ScanAction := "scan_file"
  const ScanningSummary := "Scanning "
  const DefaultModel := "gemini-2.5-flash"
  const AuditSkillPath := "skills/audit_code.md"

  const CodeHeader := "\n\nCode to Analyze:\n```python\n"

  /** The audit prompt: the skill document, then the code in a Python fence. */
  function ScanPrompt(skill: string, code: string): (p: string)
    ensures skill <= p
    ensures OccursAt(p, code, |skill| + |CodeHeader|)
    ensures |p| == |skill| + |CodeHeader| + |code| + 4 && p[|p| - 4..] == "\n```"
  {
    var head := skill + CodeHeader;
    var p := head + code + "\n```";
    assert p[|head|..|head| + |code|] == code;
    p
  }

  /** The result used when every attempt failed: `{"vulnerabilities": []}`. */
  const NoVulnerabilities := Obj(map["vulnerabilities" := Arr([])])

  /** What `scan_file` returns once the decorated request has ended: the parsed
      reply, or the empty result; a failure never yields `None`. */
  function ScanResult(g: Generated): (r: Json)
    ensures g.reply.None? ==> r == NoVulnerabilities
    ensures g.reply.Some? ==> r == g.reply.value.0
  {
    match g.reply
    case Some(reply) => reply.0
    case None => NoVulnerabilities
  }

  class ScannerAgent {
    const modelName: string
    const trace: Trace.TraceLog?

    constructor (modelName: string, trace: Trace.TraceLog?)
      ensures this.modelName == modelName && this.trace == trace
    {
      this.modelName := modelName;
      this.trace := trace;
    }

    /** `scan_file`: reads the file and the audit skill, sends `ScanPrompt`
        under the scanner's retry policy and returns `ScanResult`; a reply is
        traced under the file's base name. */
    method ScanFile(filePath: string, fs: FileStore, calls: seq<Call>, traceWriteOk: bool)
      returns (result: Json, prompt: string)
      requires filePath in fs.files && AuditSkillPath in fs.files
      requires ScannerRetry.maxAttempts <= |calls|
      modifies trace
      ensures prompt == ScanPrompt(fs.files[AuditSkillPath], fs.files[filePath])
      ensures var g := Generate(ScannerRetry, calls);
        result == ScanResult(g)
        && (trace != null ==>
              trace.file == if g.reply.None? || old(trace.file).Unreadable? || !traceWriteOk then old(trace.file)
                            else Trace.Stored(Trace.Loaded(old(trace.file)) + [Trace.MakeRecord(
                                   AgentName, modelName, ScanAction, ScanningSummary + Basename(filePath), g.reply.value.1)]))
    {
      prompt := ScanPrompt(fs.files[AuditSkillPath], fs.files[filePath]);
      var g := Generate(ScannerRetry, calls);
      if g.reply.Some? {
        Trace.LogTrace(trace, AgentName, modelName, ScanAction, ScanningSummary + Basename(filePath), g.reply.value.1, traceWriteOk);
      }
      result := ScanResult(g);
    }
  }
}
