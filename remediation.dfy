/** The decisions of `ManagerAgent.handle_vulnerability` (agents/manager.py),
    as a function of what its collaborators answer: the patch generator's
    reply, the user's answer at the approval prompt and how the verification
    run ended, for each attempt, and whether the skill rewrite succeeds.

    The collaborators are abstract here. The manager awaits and unpacks
    `(result, usage)` pairs from `create_patch`, `create_exploit` and a
    `generate_attack_graph` that the shown `PatcherAgent` does not have (and
    whose methods are synchronous and return one value); `improve_skill` is
    awaited although it returns a bool. The model takes the shapes the manager
    uses and drops the usage half, which only feeds the cost display. */
module Remediation {

  import opened Optional
  import opened Text
  import opened Records
  import opened Verifier

  /** What the collaborators answer during one attempt: `create_patch`'s
      result (`None`, or a JSON object with string values), the text typed at
      the approval prompt, and how the pytest run on the patched file ended. */
  datatype AttemptInput = AttemptInput(reply: Option<Record>, approval: string, run: ProcessEnd)

  /** `if not patch_result`: `None` and the empty object are both rejected. */
  predicate Generated(a: AttemptInput)
  {
    a.reply.Some? && a.reply.value != map[]
  }

  /** A field of the reply, `""` when missing (both count as false). */
  function Field(a: AttemptInput, key: string): string
  {
    if a.reply.Some? then Get(a.reply.value, key, "") else ""
  }

  const ReproKey := "reproduction_test_code"
  const FixedKey := "fixed_code"

  function ReproCode(a: AttemptInput): string { Field(a, ReproKey) }
  function FixedCode(a: AttemptInput): string { Field(a, FixedKey) }

  /** A generated reply with both a reproduction test and fixed code. */
  predicate WellFormed(a: AttemptInput)
  {
    Generated(a) && ReproCode(a) != "" && FixedCode(a) != ""
  }

  /** `confirm.lower() == 'n'`: the only answer that rejects a patch. */
  predicate Rejects(answer: string)
  {
    Lower(answer) == "n"
  }

  predicate Passes(a: AttemptInput)
  {
    RunTest(a.run).passed
  }

  /** An attempt that reached verification and failed it. */
  predicate FailedVerification(a: AttemptInput)
  {
    WellFormed(a) && !Rejects(a.approval) && !Passes(a)
  }

  /** How the handling of one vulnerability ends. */
  datatype Outcome = PatchGenFailed | InvalidPatch | Skipped | Fixed | SkillUpgraded | Failed

  /** The dashboard colors. */
  const Red := "red"
  const Yellow := "yellow"
  const BrightYellow := "bright_yellow"
  const Magenta := "magenta"
  const BrightMagenta := "bright_magenta"
  const Cyan := "cyan"
  const Green := "green"
  const White := "white"

  /** The final dashboard statuses. */
  const PatchGenFailedStatus := "Patch Gen Failed"
  const InvalidPatchStatus := "Invalid Patch"
  const SkippedStatus := "Skipped"
  const FixedStatus := "✓ Fixed"
  const SkillUpgradedStatus := "Skill Upgraded"
  const FailedStatus := "✗ Failed"

  /** The dashboard status and color the outcome leaves. */
  function StatusText(o: Outcome): string
  {
    match o
    case PatchGenFailed => PatchGenFailedStatus
    case InvalidPatch => InvalidPatchStatus
    case Skipped => SkippedStatus
    case Fixed => FixedStatus
    case SkillUpgraded => SkillUpgradedStatus
    case Failed => FailedStatus
  }

  function StatusColor(o: Outcome): string
  {
    match o
    case PatchGenFailed => Red
    case InvalidPatch => Red
    case Skipped => White
    case Fixed => Green
    case SkillUpgraded => BrightMagenta
    case Failed => Red
  }

  /** The `status` values of `verification_results` entries. */
  const FixedResult := "Fixed"
  const FailedResult := "Failed"

  /** The `status` of the `verification_results` entry the outcome appends, if any. */
  function ReportStatus(o: Outcome): (r: Option<string>)
    ensures r == Some(FixedResult) <==> o == Fixed
    ensures r == Some(FailedResult) <==> o == SkillUpgraded || o == Failed
    ensures r.None? <==> o == PatchGenFailed || o == InvalidPatch || o == Skipped
  {
    match o
    case Fixed => Some(FixedResult)
    case SkillUpgraded => Some(FailedResult)
    case Failed => Some(FailedResult)
    case _ => None
  }

  /** What one run of the loop did: the outcome; the feedback passed to each
      `create_patch` call, in order; the reproduction tests written, in order;
      how many attempts were approved (each writes the backup and the fixed
      code); the fixed code left in place when the outcome is `Fixed`; and the
      feedback handed to the skill improver when the retries ran out. */
  datatype Episode = Episode(
    outcome: Outcome,
    feedbacks: seq<Option<string>>,
    tests: seq<string>,
    approved: nat,
    kept: string,
    escalation: Option<string>)

  /** The loop from attempt `k`, which receives `feedback` (`None` on attempt 0,
      the previous verification output afterwards). */
  function RemediateFrom(inputs: seq<AttemptInput>, maxRetries: nat, improveOk: bool,
                         k: nat, feedback: Option<string>): (r: Episode)
    requires k <= maxRetries < |inputs|
    ensures 1 <= |r.feedbacks| <= maxRetries + 1 - k
    ensures |r.tests| <= |r.feedbacks|
    decreases maxRetries - k
  {
    var a := inputs[k];
    if !Generated(a) then
      Episode(PatchGenFailed, [feedback], [], 0, "", None)
    else if !WellFormed(a) then
      Episode(InvalidPatch, [feedback], [], 0, "", None)
    else if Rejects(a.approval) then
      Episode(Skipped, [feedback], [ReproCode(a)], 0, "", None)
    else if Passes(a) then
      Episode(Fixed, [feedback], [ReproCode(a)], 1, FixedCode(a), None)
    else if k < maxRetries then
      var rest := RemediateFrom(inputs, maxRetries, improveOk, k + 1, Some(RunTest(a.run).output));
      rest.(feedbacks := [feedback] + rest.feedbacks, tests := [ReproCode(a)] + rest.tests,
            approved := rest.approved + 1)
    else
      Episode(if improveOk then SkillUpgraded else Failed, [feedback], [ReproCode(a)], 1, "",
              Some(RunTest(a.run).output))
  }

  /** The whole loop, `for attempt in range(MAX_PATCH_RETRIES + 1)`. */
  function Remediate(inputs: seq<AttemptInput>, maxRetries: nat, improveOk: bool): (e: Episode)
    requires maxRetries < |inputs|
    ensures 1 <= |e.feedbacks| <= maxRetries + 1
  {
    RemediateFrom(inputs, maxRetries, improveOk, 0, None)
  }

  /** An episode preceded by attempts that each produced a feedback and a test
      and were approved. */
  function Prepend(feedbacks: seq<Option<string>>, tests: seq<string>, e: Episode): Episode
  {
    e.(feedbacks := feedbacks + e.feedbacks, tests := tests + e.tests, approved := |tests| + e.approved)
  }

  /** An attempt that fails verification with retries left hands its output to
      the next attempt. */
  lemma RemediateStep(inputs: seq<AttemptInput>, maxRetries: nat, improveOk: bool, k: nat, feedback: Option<string>)
    requires k < maxRetries < |inputs|
    requires FailedVerification(inputs[k])
    ensures RemediateFrom(inputs, maxRetries, improveOk, k, feedback)
         == Prepend([feedback], [ReproCode(inputs[k])],
                    RemediateFrom(inputs, maxRetries, improveOk, k + 1, Some(RunTest(inputs[k].run).output)))
  {
  }

  /** `create_patch` is called at most once per remaining attempt; the first call
      gets the given feedback, every later one the output of the verification
      that failed just before it; and an attempt is followed by another only
      after it was approved and failed verification. */
  lemma {:induction false} FeedbackChain(inputs: seq<AttemptInput>, maxRetries: nat, improveOk: bool,
                                         k: nat, feedback: Option<string>)
    requires k <= maxRetries < |inputs|
    ensures var e := RemediateFrom(inputs, maxRetries, improveOk, k, feedback);
      1 <= |e.feedbacks| <= maxRetries + 1 - k
      && e.feedbacks[0] == feedback
      && (forall i :: k <= i < k + |e.feedbacks| - 1 ==>
            FailedVerification(inputs[i]) && e.feedbacks[i - k + 1] == Some(RunTest(inputs[i].run).output))
    decreases maxRetries - k
  {
    var a := inputs[k];
    if FailedVerification(a) && k < maxRetries {
      var out := Some(RunTest(a.run).output);
      FeedbackChain(inputs, maxRetries, improveOk, k + 1, out);
      RemediateStep(inputs, maxRetries, improveOk, k, feedback);
      var rest := RemediateFrom(inputs, maxRetries, improveOk, k + 1, out);
      var e := RemediateFrom(inputs, maxRetries, improveOk, k, feedback);
      assert e.feedbacks == [feedback] + rest.feedbacks;
      forall i | k < i < k + |e.feedbacks| - 1
        ensures e.feedbacks[i - k + 1] == Some(RunTest(inputs[i].run).output)
      {
        assert e.feedbacks[i - k + 1] == rest.feedbacks[i - (k + 1) + 1];
      }
    }
  }

  /** The outcome is decided by the last attempt made, and each outcome has
      exactly one cause: no usable reply, a reply missing a field, a rejection,
      a passing verification, or a failing one on the last allowed attempt,
      which escalates to the skill improver with that verification's output. */
  lemma {:induction false} LastAttemptDecides(inputs: seq<AttemptInput>, maxRetries: nat, improveOk: bool,
                                              k: nat, feedback: Option<string>)
    requires k <= maxRetries < |inputs|
    ensures var e := RemediateFrom(inputs, maxRetries, improveOk, k, feedback);
      var n := k + |e.feedbacks| - 1;
      n <= maxRetries
      && (e.outcome == PatchGenFailed <==> !Generated(inputs[n]))
      && (e.outcome == InvalidPatch <==> Generated(inputs[n]) && !WellFormed(inputs[n]))
      && (e.outcome == Skipped <==> WellFormed(inputs[n]) && Rejects(inputs[n].approval))
      && (e.outcome == Fixed <==> WellFormed(inputs[n]) && !Rejects(inputs[n].approval) && Passes(inputs[n]))
      && ((e.outcome == SkillUpgraded || e.outcome == Failed) <==> FailedVerification(inputs[n]))
      && (e.outcome == Fixed ==> e.kept == FixedCode(inputs[n]))
      && (FailedVerification(inputs[n]) ==>
            n == maxRetries && e.escalation == Some(RunTest(inputs[n].run).output)
            && (e.outcome == SkillUpgraded <==> improveOk))
      && (e.escalation.Some? <==> e.outcome == SkillUpgraded || e.outcome == Failed)
    decreases maxRetries - k
  {
    var a := inputs[k];
    if FailedVerification(a) && k < maxRetries {
      var out := Some(RunTest(a.run).output);
      LastAttemptDecides(inputs, maxRetries, improveOk, k + 1, out);
      RemediateStep(inputs, maxRetries, improveOk, k, feedback);
    }
  }

  /** How many files an episode writes: a reproduction test for every
      attempt with a well-formed reply, and the backup and fixed code once per
      approved attempt, which is every attempt that wrote a test except a
      final rejected one. */
  lemma {:induction false} WritesPerAttempt(inputs: seq<AttemptInput>, maxRetries: nat, improveOk: bool,
                                            k: nat, feedback: Option<string>)
    requires k <= maxRetries < |inputs|
    ensures var e := RemediateFrom(inputs, maxRetries, improveOk, k, feedback);
      && |e.tests| == |e.feedbacks| - (if e.outcome == PatchGenFailed || e.outcome == InvalidPatch then 1 else 0)
      && e.approved == |e.tests| - (if e.outcome == Skipped then 1 else 0)
    decreases maxRetries - k
  {
    var a := inputs[k];
    if FailedVerification(a) && k < maxRetries {
      var out := Some(RunTest(a.run).output);
      WritesPerAttempt(inputs, maxRetries, improveOk, k + 1, out);
      RemediateStep(inputs, maxRetries, improveOk, k, feedback);
    }
  }

  /** The reproduction tests an episode writes are those of its attempts'
      replies, in order, and every one of those replies was well-formed. */
  lemma {:induction false} TestsInOrder(inputs: seq<AttemptInput>, maxRetries: nat, improveOk: bool,
                                        k: nat, feedback: Option<string>)
    requires k <= maxRetries < |inputs|
    ensures var e := RemediateFrom(inputs, maxRetries, improveOk, k, feedback);
      forall i :: k <= i < k + |e.tests| ==> WellFormed(inputs[i]) && e.tests[i - k] == ReproCode(inputs[i])
    decreases maxRetries - k
  {
    var a := inputs[k];
    if FailedVerification(a) && k < maxRetries {
      var out := Some(RunTest(a.run).output);
      TestsInOrder(inputs, maxRetries, improveOk, k + 1, out);
      RemediateStep(inputs, maxRetries, improveOk, k, feedback);
      var rest := RemediateFrom(inputs, maxRetries, improveOk, k + 1, out);
      var e := RemediateFrom(inputs, maxRetries, improveOk, k, feedback);
      assert e.tests == [ReproCode(a)] + rest.tests;
      forall i | k < i < k + |e.tests|
        ensures e.tests[i - k] == ReproCode(inputs[i])
      {
        assert e.tests[i - k] == rest.tests[i - (k + 1)];
      }
    }
  }

  /** An episode with no approved attempt neither fixes nor escalates, and one
      that wrote no reproduction test approved nothing. */
  lemma {:induction false} UnapprovedWritesNothing(inputs: seq<AttemptInput>, maxRetries: nat, improveOk: bool,
                                                   k: nat, feedback: Option<string>)
    requires k <= maxRetries < |inputs|
    ensures var e := RemediateFrom(inputs, maxRetries, improveOk, k, feedback);
      && (e.tests == [] ==> e.approved == 0)
      && (e.approved == 0 ==> e.outcome != Fixed && e.escalation.None?)
    decreases maxRetries - k
  {
    var a := inputs[k];
    if FailedVerification(a) && k < maxRetries {
      UnapprovedWritesNothing(inputs, maxRetries, improveOk, k + 1, Some(RunTest(a.run).output));
    }
  }

  /** When every attempt is approved and fails verification, `create_patch` is
      called exactly `maxRetries + 1` times and the vulnerability escalates with
      the last verification output. */
  lemma ExhaustsRetries(inputs: seq<AttemptInput>, maxRetries: nat, improveOk: bool)
    requires maxRetries < |inputs|
    requires forall j :: 0 <= j <= maxRetries ==> FailedVerification(inputs[j])
    ensures var e := Remediate(inputs, maxRetries, improveOk);
      |e.feedbacks| == maxRetries + 1
      && (e.outcome == (if improveOk then SkillUpgraded else Failed))
      && e.escalation == Some(RunTest(inputs[maxRetries].run).output)
  {
    FeedbackChain(inputs, maxRetries, improveOk, 0, None);
    LastAttemptDecides(inputs, maxRetries, improveOk, 0, None);
  }

  /** A rejection at the approval prompt on attempt `k` ends the loop there as
      `Skipped`, with no further `create_patch` call, provided every attempt
      before it was approved and failed. */
  lemma RejectionStops(inputs: seq<AttemptInput>, maxRetries: nat, improveOk: bool, k: nat)
    requires k <= maxRetries < |inputs|
    requires forall j :: 0 <= j < k ==> FailedVerification(inputs[j])
    requires WellFormed(inputs[k]) && Rejects(inputs[k].approval)
    ensures var e := Remediate(inputs, maxRetries, improveOk);
      e.outcome == Skipped && |e.feedbacks| == k + 1 && e.approved == k
  {
    FeedbackChain(inputs, maxRetries, improveOk, 0, None);
    LastAttemptDecides(inputs, maxRetries, improveOk, 0, None);
    WritesPerAttempt(inputs, maxRetries, improveOk, 0, None);
  }

  /** The loop as agents/manager.py:350-352 is written. Attempt 0 runs as
      above; the log line at the top of any later attempt formats the name
      `MAX_PATCH_RETRIES`, which the module never defines (only
      `Config.MAX_PATCH_RETRIES` exists), so reaching attempt 1 raises
      `NameError` out of the loop. */
  datatype AsWritten = Completed(episode: Episode) | NameErrorAtRetry

  function RemediateAsWritten(inputs: seq<AttemptInput>, maxRetries: nat, improveOk: bool): (r: AsWritten)
    requires maxRetries < |inputs|
    ensures r.Completed? ==> r.episode == Remediate(inputs, maxRetries, improveOk) && |r.episode.feedbacks| == 1
    ensures r.NameErrorAtRetry? <==> |Remediate(inputs, maxRetries, improveOk).feedbacks| >= 2
  {
    var e := Remediate(inputs, maxRetries, improveOk);
    if |e.feedbacks| > 1 then NameErrorAtRetry else Completed(e)
  }

  /** As written, no vulnerability ever gets a second patch: the first failed
      verification with retries left ends in `NameError`, with no terminal
      status and no report entry, where the intended loop retries with the
      verification output as feedback. */
  lemma AsWrittenNeverRetries(inputs: seq<AttemptInput>, maxRetries: nat, improveOk: bool)
    requires 0 < maxRetries < |inputs|
    requires FailedVerification(inputs[0])
    ensures RemediateAsWritten(inputs, maxRetries, improveOk) == NameErrorAtRetry
    ensures var e := Remediate(inputs, maxRetries, improveOk);
      |e.feedbacks| >= 2 && e.feedbacks[1] == Some(RunTest(inputs[0].run).output)
  {
    FeedbackChain(inputs, maxRetries, improveOk, 0, None);
  }
}
