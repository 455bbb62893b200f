/** `ImproverAgent`: after the remediation loop gives up, asks the backend to
    rewrite the repair skill document and stores the rewrite in place. */
module Improver {

  import opened Optional
  import opened Text
  import opened Files
  import Trace

  const AgentName := "ImproverAgent"
  const DefaultModel := "gemini-1.5-flash"
  const ImproveAction := "improve_skill"

  const PromptIntro :=
    "You are a Metaprogramming AI. Your goal is to improve the instructions given to other AI agents.\n\n"
    + "## Context\nAn AI Agent was using the instructions in `SKILL_FILE` to fix a vulnerability, but it failed repeatedly.\n\n"
    + "## The Failure\nThe agent produced code that failed with this error:\n```text\n"
  const PromptMiddle := "\n\n```\n\n## The Current Instructions (SKILL_FILE)\n\n```markdown\n"
  const PromptMission :=
    "\n\n```\n\n## Your Mission\n\n"
    + "Rewrite the `SKILL_FILE` content to explicitly prevent this specific error in the future.\n\n"
    + "* Add a new \"Rule\" or \"Constraint\" addressing the error.\n"
    + "* Keep the format STRICTLY the same.\n"
    + "* Return ONLY the new content of the markdown file.\n"

  /** The rewrite request: the failure and the current skill document, both
      quoted verbatim, the failure first. */
  function ImprovePrompt(errorFeedback: string, skill: string): (p: string)
    ensures PromptIntro <= p
    ensures OccursAt(p, errorFeedback, |PromptIntro|)
    ensures OccursAt(p, skill, |PromptIntro| + |errorFeedback| + |PromptMiddle|)
  {
    PartsOfFive(PromptIntro, errorFeedback, PromptMiddle, skill, PromptMission);
    PromptIntro + errorFeedback + PromptMiddle + skill + PromptMission
  }

  /** How the rewrite request ends: a reply with text; a reply whose `.text` is
      `None` (no text part, for instance a blocked answer); or an exception. */
  datatype TextReply = Answered(text: string) | NoText | Raised

  /** Whether `improve_skill` reports success, and what the skill file holds
      afterwards (`None`: the file does not exist). */
  datatype Rewrite = Rewrite(ok: bool, content: Option<string>)

  /** The intended effect: the file is overwritten with the reply text, and on
      any failure it keeps its content; a missing file is never created. */
  function RewriteSkill(current: Option<string>, reply: TextReply): (r: Rewrite)
    ensures r.ok <==> current.Some? && reply.Answered?
    ensures r.ok ==> r.content == Some(reply.text)
    ensures !r.ok ==> r.content == current
  {
    if current.None? then Rewrite(false, None)
    else if reply.Answered? then Rewrite(true, Some(reply.text))
    else Rewrite(false, current)
  }

  /** The effect as agents/improver.py:74-78 is written: `open(path, 'w')`
      truncates the file before `f.write(None)` raises, so a reply without text
      leaves an empty skill document behind. */
  function RewriteSkillAsWritten(current: Option<string>, reply: TextReply): (r: Rewrite)
    ensures reply != NoText ==> r == RewriteSkill(current, reply)
  {
    if current.Some? && reply.NoText? then Rewrite(false, Some(""))
    else RewriteSkill(current, reply)
  }

  /** A failed rewrite as written can erase the skill document, which the
      intended effect never does. */
  lemma AsWrittenErasesSkill(skill: string)
    requires skill != ""
    ensures RewriteSkillAsWritten(Some(skill), NoText) == Rewrite(false, Some(""))
    ensures RewriteSkill(Some(skill), NoText) == Rewrite(false, Some(skill))
  {
  }

  class ImproverAgent {
    const modelName: string
    const trace: Trace.TraceLog?

    constructor (modelName: string, trace: Trace.TraceLog?)
      ensures this.modelName == modelName && this.trace == trace
    {
      this.modelName := modelName;
      this.trace := trace;
    }

    /** `improve_skill`: returns false and touches nothing when the skill file
        does not exist; otherwise sends `ImprovePrompt`, and on a reply with
        text overwrites the skill file with exactly that text, traces it and
        returns true; on any failure returns false with the file unchanged. */
    method ImproveSkill(errorFeedback: string, skillPath: string, fs: FileStore,
                        reply: TextReply, traceWriteOk: bool)
      returns (ok: bool, prompt: Option<string>)
      modifies fs, trace
      ensures skillPath !in old(fs.files) ==> prompt == None
      ensures skillPath in old(fs.files) ==>
                prompt == Some(ImprovePrompt(errorFeedback, old(fs.files[skillPath])))
      ensures var r := RewriteSkill(if skillPath in old(fs.files) then Some(old(fs.files[skillPath])) else None, reply);
        ok == r.ok
        && fs.files == (if r.content.Some? then old(fs.files)[skillPath := r.content.value] else old(fs.files))
      ensures trace != null ==>
                trace.file == if !ok || old(trace.file).Unreadable? || !traceWriteOk then old(trace.file)
                              else Trace.Stored(Trace.Loaded(old(trace.file)) + [Trace.MakeRecord(
                                     AgentName, modelName, ImproveAction, "Rewrote " + Basename(skillPath), reply.text)])
    {
      if skillPath !in fs.files {
        return false, None;
      }
      var current := fs.files[skillPath];
      prompt := Some(ImprovePrompt(errorFeedback, current));
      match reply
      case Answered(newContent) =>
        fs.Write(skillPath, newContent);
        Trace.LogTrace(trace, AgentName, modelName, ImproveAction, "Rewrote " + Basename(skillPath), newContent, traceWriteOk);
        ok := true;
      case _ =>
        ok := false;
    }
  }
}
