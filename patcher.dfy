/** `PatcherAgent`: builds the repair and exploit prompts, asks the backend for
    a structured reply and records it in the trace log. */
module Patcher {

  import opened Optional
  import opened Text
  import opened Files
  import opened Generation
  import Trace

  const AgentName := "PatcherAgent"
  const FirstAction := "create_patch"
  const RetryAction := "create_patch_retry"
  const ExploitAction := "create_exploit"
  const PatchingSummary := "Patching "
  const ExploitingSummary := "Exploiting "
  const DefaultModel := "gemini-flash-latest"

  /** The skill documents the two prompts start from (`skills/` beside `agents/`). */
  const RepairSkillPath := "skills/repair_code.md"
  const ExploitSkillPath := "skills/generate_exploit.md"

  /** How many characters of the previous failure are quoted back. */
  const FeedbackLimit := 1000

  const DetailsHeader := "\n\nVulnerability Details:\n"
  const FileNameHeader := "\n\nFile Name: "
  const OriginalCodeHeader := "\n\nOriginal Code:\n```python\n"
  const TargetCodeHeader := "\n\nTarget Code:\n```python\n"
  const CodeFooter := "\n```\n"
  const CorrectionHead := "\n\nIMPORTANT: Your previous patch attempt FAILED with this error:\n```\n"
  const CorrectionTail := "\n```\nPlease analyze the error and generate a CORRECTED patch.\n"

  /** Python truthiness of the optional feedback: `None` and `""` are false. */
  predicate IsTruthy(feedback: Option<string>)
  {
    feedback.Some? && feedback.value != ""
  }

  /** The repair prompt without a correction block: the skill document, the
      vulnerability as JSON (`details`), the file name and the original code. */
  function PatchPromptBase(skill: string, details: string, fileName: string, content: string): string
  {
    skill + DetailsHeader + details + FileNameHeader + fileName + OriginalCodeHeader + content + CodeFooter
  }

  /** The block that quotes back the previous failure, cut to 1000 characters. */
  function CorrectionBlock(feedback: string): string
  {
    CorrectionHead + Take(feedback, FeedbackLimit) + CorrectionTail
  }

  /** The prompt `create_patch` sends. */
  function PatchPrompt(skill: string, details: string, fileName: string, content: string,
                       feedback: Option<string>): (p: string)
    ensures skill <= p
  {
    PatchPromptBase(skill, details, fileName, content)
      + (if IsTruthy(feedback) then CorrectionBlock(feedback.value) else "")
  }

  /** The trace action of `create_patch`: a retry is tagged as one exactly when
      there is feedback. */
  function PatchAction(feedback: Option<string>): (a: string)
    ensures a == RetryAction <==> IsTruthy(feedback)
    ensures a == FirstAction <==> !IsTruthy(feedback)
  {
    if IsTruthy(feedback) then RetryAction else FirstAction
  }

  /** The prompt `create_exploit` sends. */
  function ExploitPrompt(skill: string, details: string, fileName: string, content: string): (p: string)
    ensures skill <= p
  {
    skill + DetailsHeader + details + FileNameHeader + fileName + TargetCodeHeader + content + CodeFooter
  }

  /** The repair prompt starts with the skill document, followed in this order
      by the vulnerability JSON, the file name and the original code. */
  lemma PatchPromptLayout(skill: string, details: string, fileName: string, content: string,
                          feedback: Option<string>)
    ensures var p := PatchPrompt(skill, details, fileName, content, feedback);
      var d := |skill| + |DetailsHeader|;
      var f := d + |details| + |FileNameHeader|;
      var c := f + |fileName| + |OriginalCodeHeader|;
      skill <= p && OccursAt(p, details, d) && OccursAt(p, fileName, f) && OccursAt(p, content, c)
  {
    var p := PatchPrompt(skill, details, fileName, content, feedback);
    var d := |skill| + |DetailsHeader|;
    var f := d + |details| + |FileNameHeader|;
    var c := f + |fileName| + |OriginalCodeHeader|;
    var base := PatchPromptBase(skill, details, fileName, content);
    var tail := if IsTruthy(feedback) then CorrectionBlock(feedback.value) else "";
    assert p == base + tail;
    assert base[d..d + |details|] == details;
    assert base[f..f + |fileName|] == fileName;
    assert base[c..c + |content|] == content;
    assert p[..|base|] == base;
  }

  /** The exploit prompt starts with the exploit skill document, followed in
      this order by the vulnerability JSON, the file name and the target code,
      and ends with the closing fence. */
  lemma ExploitPromptLayout(skill: string, details: string, fileName: string, content: string)
    ensures var p := ExploitPrompt(skill, details, fileName, content);
      var d := |skill| + |DetailsHeader|;
      var f := d + |details| + |FileNameHeader|;
      var c := f + |fileName| + |TargetCodeHeader|;
      OccursAt(p, details, d) && OccursAt(p, fileName, f) && OccursAt(p, content, c)
      && |p| == c + |content| + |CodeFooter| && p[c + |content|..] == CodeFooter
  {
    var p := ExploitPrompt(skill, details, fileName, content);
    var d := |skill| + |DetailsHeader|;
    var f := d + |details| + |FileNameHeader|;
    var c := f + |fileName| + |TargetCodeHeader|;
    assert p[d..d + |details|] == details;
    assert p[f..f + |fileName|] == fileName;
    assert p[c..c + |content|] == content;
    assert p[c + |content|..] == CodeFooter;
  }

  /** The correction block is appended exactly when the feedback is truthy; it
      quotes the first 1000 characters of the feedback and never more. */
  lemma CorrectionBlockIff(skill: string, details: string, fileName: string, content: string,
                           feedback: Option<string>)
    ensures var base := PatchPromptBase(skill, details, fileName, content);
      var p := PatchPrompt(skill, details, fileName, content, feedback);
      base <= p
      && (p == base <==> !IsTruthy(feedback))
      && (IsTruthy(feedback) ==>
            OccursAt(p, Take(feedback.value, FeedbackLimit), |base| + |CorrectionHead|)
            && |p| <= |base| + |CorrectionHead| + FeedbackLimit + |CorrectionTail|)
  {
    var base := PatchPromptBase(skill, details, fileName, content);
    var p := PatchPrompt(skill, details, fileName, content, feedback);
    if IsTruthy(feedback) {
      var q := Take(feedback.value, FeedbackLimit);
      assert p == base + CorrectionHead + q + CorrectionTail;
      assert p[|base| + |CorrectionHead|..|base| + |CorrectionHead| + |q|] == q;
      assert |p| > |base|;
    } else {
      assert p == base + "";
    }
  }

  class PatcherAgent {
    const modelName: string
    const trace: Trace.TraceLog?

    constructor (modelName: string, trace: Trace.TraceLog?)
      ensures this.modelName == modelName && this.trace == trace
    {
      this.modelName := modelName;
      this.trace := trace;
    }

    /** `create_patch`: reads the repair skill, sends the repair prompt under the
        patcher's retry policy (`calls` says how each request would end) and
        returns the parsed reply, or `None` (here `Null`) if the decorated call
        raised. Only a reply is traced, under `PatchAction(feedback)`. */
    method CreatePatch(details: string, content: string, fileName: string, feedback: Option<string>,
                       skills: FileStore, calls: seq<Call>, traceWriteOk: bool)
      returns (result: Json, prompt: string)
      requires RepairSkillPath in skills.files
      requires PatcherRetry.maxAttempts <= |calls|
      modifies trace
      ensures prompt == PatchPrompt(skills.files[RepairSkillPath], details, fileName, content, feedback)
      ensures var g := Generate(PatcherRetry, calls);
        match g.reply
        case None =>
          result == Null && (trace != null ==> trace.file == old(trace.file))
        case Some(reply) =>
          result == reply.0
          && (trace != null ==>
                trace.file == if old(trace.file).Unreadable? || !traceWriteOk then old(trace.file)
                              else Trace.Stored(Trace.Loaded(old(trace.file)) + [Trace.MakeRecord(
                                     AgentName, modelName, PatchAction(feedback), PatchingSummary + fileName, reply.1)]))
    {
      prompt := PatchPrompt(skills.files[RepairSkillPath], details, fileName, content, feedback);
      var g := Generate(PatcherRetry, calls);
      match g.reply
      case None =>
        result := Null;
      case Some(reply) =>
        Trace.LogTrace(trace, AgentName, modelName, PatchAction(feedback), PatchingSummary + fileName, reply.1, traceWriteOk);
        result := reply.0;
    }

    /** `create_exploit`: the same shape with the exploit skill and prompt. */
    method CreateExploit(details: string, content: string, fileName: string,
                         skills: FileStore, calls: seq<Call>, traceWriteOk: bool)
      returns (result: Json, prompt: string)
      requires ExploitSkillPath in skills.files
      requires PatcherRetry.maxAttempts <= |calls|
      modifies trace
      ensures prompt == ExploitPrompt(skills.files[ExploitSkillPath], details, fileName, content)
      ensures var g := Generate(PatcherRetry, calls);
        match g.reply
        case None =>
          result == Null && (trace != null ==> trace.file == old(trace.file))
        case Some(reply) =>
          result == reply.0
          && (trace != null ==>
                trace.file == if old(trace.file).Unreadable? || !traceWriteOk then old(trace.file)
                              else Trace.Stored(Trace.Loaded(old(trace.file)) + [Trace.MakeRecord(
                                     AgentName, modelName, ExploitAction, ExploitingSummary + fileName, reply.1)]))
    {
      prompt := ExploitPrompt(skills.files[ExploitSkillPath], details, fileName, content);
      var g := Generate(PatcherRetry, calls);
      match g.reply
      case None =>
        result := Null;
      case Some(reply) =>
        Trace.LogTrace(trace, AgentName, modelName, ExploitAction, ExploitingSummary + fileName, reply.1, traceWriteOk);
        result := reply.0;
    }
  }
}
