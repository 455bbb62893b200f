/** `ManagerAgent` (agents/manager.py): the dashboard state it keeps and the
    remediation of one vulnerability, `handle_vulnerability`, proved against
    the episode `Remediation.Remediate` describes. */
module Manager {

  import opened Optional
  import opened Text
  import opened Records
  import opened Files
  import opened Dashboard
  import opened Remediation
  import opened Verifier
  import Trace
  import Scanner
  import Patcher
  import Improver

  /** The thoughts the manager logs. */
  const InitialThought := "Initializing Argus Systems..."
  const VisualizingThought := "Visualizing attack vector..."
  const ExploitThought := "Generating Proof-of-Concept Exploit..."
  const ExploitSavedThought := "Exploit script saved to exploit_"
  const RetryAttemptPrefix := "Retry attempt "
  const AnalyzingPrefix := "Analyzing "
  const AnalyzingInfix := " in "
  const Ellipsis := "..."
  const ReproductionThought := "Verifying vulnerability reproduction..."
  const ProposalThought := "Proposal ready. Waiting for user approval..."
  const RejectedThought := "Patch rejected by user."
  const ApplyingThought := "Applying secure patch logic..."
  const VerifyingThought := "Verifying security patch..."
  const VerifiedThought := "Patch verified. Threat neutralized."
  const RetryingThought := "Patch verification failed. Retrying..."
  const MaxRetriesThought := "Max retries reached. Initiating Self-Evolution Protocol..."
  const RewrittenThought := "Neural pathways updated. Instructions rewritten."
  const HaltThought := "Evolution failed. System halt."

  /** The dashboard statuses of a vulnerability still being handled. */
  const AnalyzingStatus := "Analyzing"
  const ExploitStatus := "Generating Exploit"
  const VerifyingExploitStatus := "Verifying Exploit"
  const WaitingStatus := "Waiting Approval"
  const PatchingStatus := "Patching"
  const VerifyingPatchStatus := "Verifying Patch"
  const EvolvingStatus := "Evolving..."
  const RetryStatusPrefix := "Retry "

  const ExploitKey := "exploit_code"
  const AttackGraphKey := "attack_graph"
  const FileField := "file"
  const StatusField := "status"

  /** `report_data`: what `run` collects and saves at the end. */
  class RunReport {
    var vulnerabilitiesFound: seq<Record>
    var patchesAttempted: seq<Record>
    var verificationResults: seq<Record>

    constructor ()
      ensures vulnerabilitiesFound == [] && patchesAttempted == [] && verificationResults == []
    {
      vulnerabilitiesFound, patchesAttempted, verificationResults := [], [], [];
    }
  }

  /** `exploit_data.get(ExploitKey)` for a truthy reply, `""` otherwise. */
  function ExploitCode(reply: Option<Record>): string
  {
    if reply.Some? then Get(reply.value, ExploitKey, "") else ""
  }

  /** The repair skill document, if it exists. */
  function SkillIn(files: map<string, string>): Option<string>
  {
    if Patcher.RepairSkillPath in files then Some(files[Patcher.RepairSkillPath]) else None
  }

  /** Whether `improve_skill` succeeds when it is called. */
  function ImproveOk(files: map<string, string>, reply: Improver.TextReply): bool
  {
    Improver.RewriteSkill(SkillIn(files), reply).ok
  }

  function Last(s: seq<string>): string
    requires s != []
  {
    s[|s| - 1]
  }

  function RetryThought(attempt: nat, maxRetries: nat): string
  {
    RetryAttemptPrefix + Decimal(attempt) + "/" + Decimal(maxRetries) + Ellipsis
  }

  function AnalyzingThought(vulnType: string, fileName: string): string
  {
    AnalyzingPrefix + vulnType + AnalyzingInfix + fileName + Ellipsis
  }

  /** The thoughts logged before the patching loop. */
  function OpeningThoughts(vulnType: string, fileName: string, exploitCode: string): seq<string>
  {
    [AnalyzingThought(vulnType, fileName), VisualizingThought, ExploitThought]
    + (if exploitCode != "" then [ExploitSavedThought + fileName] else [])
  }

  lemma AppendThree(x: seq<string>, a: string, b: string, c: string, rest: seq<string>)
    ensures x + [a] + [b] + [c] + rest == x + ([a, b, c] + rest)
  {
  }

  const ProposalThoughts := [ReproductionThought, ProposalThought]
  const PatchThoughts := [ApplyingThought, VerifyingThought]

  /** The retry notice that opens every attempt after the first. */
  function RetryThoughts(k: nat, maxRetries: nat): seq<string>
  {
    if k > 0 then [RetryThought(k, maxRetries)] else []
  }

  /** The thoughts an attempt logs from the patch reply up to the user's answer. */
  function ProposeThoughts(a: AttemptInput): seq<string>
  {
    if !WellFormed(a) then []
    else ProposalThoughts + (if Rejects(a.approval) then [RejectedThought] else [])
  }

  /** The thoughts of the escalation to the skill improver. */
  function EscalationThoughts(improveOk: bool): seq<string>
  {
    [MaxRetriesThought,
     if improveOk then RewrittenThought else HaltThought]
  }

  /** The thought that reports the verification of an applied patch. */
  function VerdictThoughts(a: AttemptInput, k: nat, maxRetries: nat, improveOk: bool): seq<string>
  {
    if Passes(a) then [VerifiedThought]
    else if k < maxRetries then [RetryingThought]
    else EscalationThoughts(improveOk)
  }

  /** Where each thought of `ProposeThoughts` sits. */
  lemma ProposeThoughtsAt(a: AttemptInput)
    ensures var msgs := ProposeThoughts(a);
      && |msgs| == (if !WellFormed(a) then 0 else if Rejects(a.approval) then 3 else 2)
      && (WellFormed(a) ==> msgs[0] == ProposalThoughts[0] && msgs[1] == ProposalThoughts[1])
      && (WellFormed(a) && Rejects(a.approval) ==> msgs[2] == RejectedThought)
  {
  }

  /** The thoughts an approved attempt logs from the patch on. */
  function ConcludeThoughts(a: AttemptInput, k: nat, maxRetries: nat, improveOk: bool): seq<string>
  {
    PatchThoughts + VerdictThoughts(a, k, maxRetries, improveOk)
  }

  /** The thoughts logged during attempt `k`. */
  function AttemptThoughts(a: AttemptInput, k: nat, maxRetries: nat, improveOk: bool): seq<string>
  {
    if WellFormed(a) && !Rejects(a.approval)
    then RetryThoughts(k, maxRetries) + ProposeThoughts(a) + ConcludeThoughts(a, k, maxRetries, improveOk)
    else RetryThoughts(k, maxRetries) + ProposeThoughts(a)
  }

  lemma AppendAssoc(x: seq<string>, a: seq<string>, b: seq<string>)
    ensures (x + a) + b == x + (a + b)
  {
  }

  lemma AppendPair(x: seq<string>, a: string, b: string)
    ensures x + [a] + [b] == x + [a, b]
  {
  }

  /** The thoughts logged from attempt `k` on. */
  function ThoughtsFrom(inputs: seq<AttemptInput>, maxRetries: nat, improveOk: bool, k: nat): seq<string>
    requires k <= maxRetries < |inputs|
    decreases maxRetries - k
  {
    AttemptThoughts(inputs[k], k, maxRetries, improveOk)
    + if FailedVerification(inputs[k]) && k < maxRetries then ThoughtsFrom(inputs, maxRetries, improveOk, k + 1)
      else []
  }

  /** Every thought `handle_vulnerability` logs, in order. */
  function Narration(vulnType: string, fileName: string, exploitCode: string,
                     inputs: seq<AttemptInput>, maxRetries: nat, improveOk: bool): seq<string>
    requires maxRetries < |inputs|
  {
    OpeningThoughts(vulnType, fileName, exploitCode) + ThoughtsFrom(inputs, maxRetries, improveOk, 0)
  }

  /** The thought that closes a handling with the given outcome, if any. */
  function ClosingThought(o: Outcome): Option<string>
  {
    match o
    case Fixed => Some(VerifiedThought)
    case Skipped => Some(RejectedThought)
    case SkillUpgraded => Some(RewrittenThought)
    case Failed => Some(HaltThought)
    case _ => None
  }

  /** The closing thought of an attempt after which no other one follows. */
  lemma FinalAttemptTells(inputs: seq<AttemptInput>, maxRetries: nat, improveOk: bool,
                          k: nat, feedback: Option<string>)
    requires k <= maxRetries < |inputs|
    requires !(FailedVerification(inputs[k]) && k < maxRetries)
    ensures var c, t := ClosingThought(RemediateFrom(inputs, maxRetries, improveOk, k, feedback).outcome),
                        ThoughtsFrom(inputs, maxRetries, improveOk, k);
      c.Some? ==> t != [] && Last(t) == c.value
  {
    var a := inputs[k];
    var at := AttemptThoughts(a, k, maxRetries, improveOk);
    var o := RemediateFrom(inputs, maxRetries, improveOk, k, feedback).outcome;
    assert ThoughtsFrom(inputs, maxRetries, improveOk, k) == at + [];
    if !WellFormed(a) {
      assert o == PatchGenFailed || o == InvalidPatch;
    } else if Rejects(a.approval) {
      assert o == Skipped;
      assert at == RetryThoughts(k, maxRetries) + ProposalThoughts + [RejectedThought];
    } else {
      var v := VerdictThoughts(a, k, maxRetries, improveOk);
      assert at == (RetryThoughts(k, maxRetries) + ProposeThoughts(a) + PatchThoughts) + v;
      assert Last(at) == Last(v);
      if Passes(a) {
        assert o == Fixed && Last(v) == VerifiedThought;
      } else {
        assert o == (if improveOk then SkillUpgraded else Failed);
      }
    }
  }

  /** The last thought logged from attempt `k` on says how the handling ended. */
  lemma {:induction false} ThoughtsFromTell(inputs: seq<AttemptInput>, maxRetries: nat, improveOk: bool,
                                            k: nat, feedback: Option<string>)
    requires k <= maxRetries < |inputs|
    ensures var c, t := ClosingThought(RemediateFrom(inputs, maxRetries, improveOk, k, feedback).outcome),
                        ThoughtsFrom(inputs, maxRetries, improveOk, k);
      c.Some? ==> t != [] && Last(t) == c.value
    decreases maxRetries - k
  {
    var a := inputs[k];
    if FailedVerification(a) && k < maxRetries {
      ThoughtsFromTell(inputs, maxRetries, improveOk, k + 1, Some(RunTest(a.run).output));
      RemediateStep(inputs, maxRetries, improveOk, k, feedback);
      var rest := ThoughtsFrom(inputs, maxRetries, improveOk, k + 1);
      assert ThoughtsFrom(inputs, maxRetries, improveOk, k) == AttemptThoughts(a, k, maxRetries, improveOk) + rest;
    } else {
      FinalAttemptTells(inputs, maxRetries, improveOk, k, feedback);
    }
  }

  /** A handling's narration opens with the analysing, visualising and exploit
      thoughts, and its last thought says how it ended: the verified patch,
      the rejection, or the success or failure of the skill rewrite. */
  lemma NarrationTellsOutcome(vulnType: string, fileName: string, exploitCode: string,
                              inputs: seq<AttemptInput>, maxRetries: nat, improveOk: bool)
    requires maxRetries < |inputs|
    ensures var e, n := Remediate(inputs, maxRetries, improveOk), Narration(vulnType, fileName, exploitCode, inputs, maxRetries, improveOk);
      && |n| >= 3 && n[0] == AnalyzingThought(vulnType, fileName) && n[1] == VisualizingThought && n[2] == ExploitThought
      && (e.outcome == Fixed ==> Last(n) == VerifiedThought)
      && (e.outcome == Skipped ==> Last(n) == RejectedThought)
      && (e.outcome == SkillUpgraded ==> Last(n) == RewrittenThought)
      && (e.outcome == Failed ==> Last(n) == HaltThought)
  {
    ThoughtsFromTell(inputs, maxRetries, improveOk, 0, None);
  }

  /** The `verification_results` entries an outcome appends. */
  function ResultEntries(filePath: string, o: Outcome): seq<Record>
  {
    match ReportStatus(o)
    case None => []
    case Some(status) => [map[FileField := filePath, StatusField := status]]
  }

  /** What an episode of the patching loop leaves in the file system, from the
      files as they are when the loop starts: the last reproduction test, the
      backup once an attempt was approved, the target holding the fixed code
      only when it was kept, and the skill document as the improver leaves it
      after an escalation. */
  function Finish(files: map<string, string>, dir: string, name: string, original: string,
                  e: Episode, rewrite: Improver.Rewrite): map<string, string>
  {
    var withTest := if e.tests == [] then files else files[TestPath(dir, name) := e.tests[|e.tests| - 1]];
    var patched := if e.approved == 0 then withTest
                   else withTest[BackupPath(dir, name) := original][Join(dir, name) := if e.outcome == Fixed then e.kept else original];
    if e.escalation.Some? && rewrite.content.Some? then patched[Patcher.RepairSkillPath := rewrite.content.value]
    else patched
  }

  /** The file system after one vulnerability: the exploit script if the reply
      had code, then what the patching loop leaves. */
  function HandledFiles(files: map<string, string>, dir: string, name: string, exploitCode: string,
                        e: Episode, improveReply: Improver.TextReply): (r: map<string, string>)
    requires Join(dir, name) in files
    ensures forall p :: p in files ==> p in r
    ensures forall p :: p in r && p !in files ==> p in {TestPath(dir, name), BackupPath(dir, name), ExploitPath(dir, name)}
  {
    var withExploit := if exploitCode != "" then files[ExploitPath(dir, name) := exploitCode] else files;
    Finish(withExploit, dir, name, files[Join(dir, name)], e, Improver.RewriteSkill(SkillIn(files), improveReply))
  }

  /** The skill document is none of the files written next to the target. */
  predicate SkillApart(dir: string, name: string)
  {
    Patcher.RepairSkillPath !in {Join(dir, name), BackupPath(dir, name), TestPath(dir, name), ExploitPath(dir, name)}
  }

  /** What `HandledFiles` leaves at each path it may write. */
  lemma HandledPaths(files: map<string, string>, dir: string, name: string, exploitCode: string,
                     e: Episode, improveReply: Improver.TextReply)
    requires Join(dir, name) in files && SkillApart(dir, name)
    ensures var after := HandledFiles(files, dir, name, exploitCode, e, improveReply);
      var target := Join(dir, name);
      && after[target] == (if e.approved > 0 && e.outcome == Fixed then e.kept else files[target])
      && (e.approved > 0 ==> after[BackupPath(dir, name)] == files[target])
      && (e.approved == 0 ==> (BackupPath(dir, name) in after <==> BackupPath(dir, name) in files))
      && (e.tests != [] ==> after[TestPath(dir, name)] == e.tests[|e.tests| - 1])
      && (exploitCode != "" ==> after[ExploitPath(dir, name)] == exploitCode)
      && (forall p :: p !in {target, BackupPath(dir, name), TestPath(dir, name), ExploitPath(dir, name),
                            Patcher.RepairSkillPath} ==>
            (p in after <==> p in files) && (p in files ==> after[p] == files[p]))
  {
    SiblingPathsDistinct(dir, name);
  }

  /** The target ends up holding the last attempt's fixed code exactly when the
      outcome is `Fixed`, and its original content otherwise. */
  lemma HandledTarget(files: map<string, string>, dir: string, name: string, exploitCode: string,
                      inputs: seq<AttemptInput>, maxRetries: nat, improveReply: Improver.TextReply)
    requires Join(dir, name) in files && SkillApart(dir, name) && maxRetries < |inputs|
    ensures var e := Remediate(inputs, maxRetries, ImproveOk(files, improveReply));
      var after := HandledFiles(files, dir, name, exploitCode, e, improveReply);
      after[Join(dir, name)] == (if e.outcome == Fixed then FixedCode(inputs[|e.feedbacks| - 1]) else files[Join(dir, name)])
  {
    var ok := ImproveOk(files, improveReply);
    var e := Remediate(inputs, maxRetries, ok);
    LastAttemptDecides(inputs, maxRetries, ok, 0, None);
    UnapprovedWritesNothing(inputs, maxRetries, ok, 0, None);
    HandledPaths(files, dir, name, exploitCode, e, improveReply);
  }

  /** Once a reply is well-formed, the test file holds the last reproduction
      test written. */
  lemma HandledTest(files: map<string, string>, dir: string, name: string, exploitCode: string,
                    inputs: seq<AttemptInput>, maxRetries: nat, improveReply: Improver.TextReply)
    requires Join(dir, name) in files && SkillApart(dir, name) && maxRetries < |inputs|
    ensures var e := Remediate(inputs, maxRetries, ImproveOk(files, improveReply));
      var after := HandledFiles(files, dir, name, exploitCode, e, improveReply);
      e.outcome != PatchGenFailed && e.outcome != InvalidPatch ==>
        after[TestPath(dir, name)] == ReproCode(inputs[|e.feedbacks| - 1])
  {
    var ok := ImproveOk(files, improveReply);
    var e := Remediate(inputs, maxRetries, ok);
    if e.outcome != PatchGenFailed && e.outcome != InvalidPatch {
      WritesPerAttempt(inputs, maxRetries, ok, 0, None);
      TestsInOrder(inputs, maxRetries, ok, 0, None);
      var n := |e.feedbacks| - 1;
      assert |e.tests| == n + 1;
      assert e.tests[n] == ReproCode(inputs[n]);
      HandledPaths(files, dir, name, exploitCode, e, improveReply);
    }
  }

  /** Once an attempt is approved, the backup holds the original content. */
  lemma HandledBackup(files: map<string, string>, dir: string, name: string, exploitCode: string,
                      inputs: seq<AttemptInput>, maxRetries: nat, improveReply: Improver.TextReply)
    requires Join(dir, name) in files && SkillApart(dir, name) && maxRetries < |inputs|
    ensures var e := Remediate(inputs, maxRetries, ImproveOk(files, improveReply));
      var after := HandledFiles(files, dir, name, exploitCode, e, improveReply);
      e.outcome == Fixed || e.escalation.Some? ==> after[BackupPath(dir, name)] == files[Join(dir, name)]
  {
    var ok := ImproveOk(files, improveReply);
    var e := Remediate(inputs, maxRetries, ok);
    UnapprovedWritesNothing(inputs, maxRetries, ok, 0, None);
    HandledPaths(files, dir, name, exploitCode, e, improveReply);
  }

  /** How attempt `k` ends the loop, or `None` when it fails verification
      with retries left. */
  function StepOutcome(a: AttemptInput, k: nat, maxRetries: nat, improveOk: bool): (o: Option<Outcome>)
    ensures o.None? <==> FailedVerification(a) && k < maxRetries
  {
    if !Generated(a) then Some(PatchGenFailed)
    else if !WellFormed(a) then Some(InvalidPatch)
    else if Rejects(a.approval) then Some(Skipped)
    else if Passes(a) then Some(Fixed)
    else if k < maxRetries then None
    else Some(if improveOk then SkillUpgraded else Failed)
  }

  predicate Escalates(o: Option<Outcome>)
  {
    o == Some(SkillUpgraded) || o == Some(Failed)
  }

  /** The dashboard status and color an attempt leaves. */
  function StepStatus(o: Option<Outcome>): (string, string)
  {
    if o.Some? then (StatusText(o.value), StatusColor(o.value)) else (VerifyingPatchStatus, Cyan)
  }

  function StepResults(filePath: string, o: Option<Outcome>): seq<Record>
  {
    if o.Some? then ResultEntries(filePath, o.value) else []
  }

  /** An attempt writes the reproduction test of a well-formed reply. */
  function ProposeFiles(files: map<string, string>, dir: string, name: string, a: AttemptInput): map<string, string>
  {
    if WellFormed(a) then files[TestPath(dir, name) := ReproCode(a)] else files
  }

  /** An approved attempt writes the backup and the fixed code, keeps the fixed
      code only if it passed, and on escalation stores the skill rewrite. */
  function ConcludeFiles(files: map<string, string>, dir: string, name: string, original: string,
                         a: AttemptInput, k: nat, maxRetries: nat, rewrite: Improver.Rewrite): map<string, string>
  {
    var patched := files[BackupPath(dir, name) := original][Join(dir, name) := if Passes(a) then FixedCode(a) else original];
    if Passes(a) || k < maxRetries || rewrite.content.None? then patched
    else patched[Patcher.RepairSkillPath := rewrite.content.value]
  }

  /** The files one attempt leaves. */
  function StepFiles(files: map<string, string>, dir: string, name: string, original: string,
                     a: AttemptInput, k: nat, maxRetries: nat, rewrite: Improver.Rewrite): map<string, string>
  {
    var proposed := ProposeFiles(files, dir, name, a);
    if WellFormed(a) && !Rejects(a.approval) then ConcludeFiles(proposed, dir, name, original, a, k, maxRetries, rewrite)
    else proposed
  }

  /** The dashboard status and color an attempt leaves at the user's answer. */
  function ProposeStatus(a: AttemptInput): (string, string)
  {
    if !Generated(a) then (StatusText(PatchGenFailed), StatusColor(PatchGenFailed))
    else if !WellFormed(a) then (StatusText(InvalidPatch), StatusColor(InvalidPatch))
    else if Rejects(a.approval) then (StatusText(Skipped), StatusColor(Skipped))
    else (WaitingStatus, BrightYellow)
  }

  /** An attempt that fails verification with retries left writes what the
      rest of the episode would otherwise have written first. */
  lemma FinishStep(inputs: seq<AttemptInput>, maxRetries: nat, k: nat, feedback: Option<string>,
                   files: map<string, string>, dir: string, name: string, original: string, rewrite: Improver.Rewrite)
    requires k < maxRetries < |inputs| && FailedVerification(inputs[k])
    ensures var out := Some(RunTest(inputs[k].run).output);
      Finish(files, dir, name, original, RemediateFrom(inputs, maxRetries, rewrite.ok, k, feedback), rewrite)
      == Finish(StepFiles(files, dir, name, original, inputs[k], k, maxRetries, rewrite), dir, name, original,
                RemediateFrom(inputs, maxRetries, rewrite.ok, k + 1, out), rewrite)
  {
    var out := Some(RunTest(inputs[k].run).output);
    var a := inputs[k];
    RemediateStep(inputs, maxRetries, rewrite.ok, k, feedback);
    UnapprovedWritesNothing(inputs, maxRetries, rewrite.ok, k + 1, out);
    FinishPrepend(files, dir, name, original, feedback, ReproCode(a),
                  RemediateFrom(inputs, maxRetries, rewrite.ok, k + 1, out), rewrite);
  }

  /** An approved attempt that wrote `test` and restored the original, put in
      front of the rest of an episode, leaves what the rest leaves after it. */
  lemma FinishPrepend(files: map<string, string>, dir: string, name: string, original: string,
                      feedback: Option<string>, test: string, rest: Episode, rewrite: Improver.Rewrite)
    requires rest.tests == [] ==> rest.approved == 0
    requires rest.approved == 0 ==> rest.outcome != Fixed && rest.escalation.None?
    ensures Finish(files, dir, name, original, Prepend([feedback], [test], rest), rewrite)
         == Finish(files[TestPath(dir, name) := test][BackupPath(dir, name) := original][Join(dir, name) := original],
                   dir, name, original, rest, rewrite)
  {
    SiblingPathsDistinct(dir, name);
    var t, b, x := TestPath(dir, name), BackupPath(dir, name), Join(dir, name);
    if rest.tests != [] {
      var l := rest.tests[|rest.tests| - 1];
      OverwriteFirst(files, t, b, x, test, l, original, if rest.outcome == Fixed then rest.kept else original);
    }
  }

  /** Writing the first of three distinct paths twice keeps only the second write. */
  lemma OverwriteFirst<K, V>(m: map<K, V>, t: K, b: K, x: K, first: V, second: V, u: V, v: V)
    requires t != b && t != x
    ensures m[t := first][b := u][x := u][t := second][b := u][x := v] == m[t := second][b := u][x := v]
    ensures m[t := first][b := u][x := u][t := second] == m[t := second][b := u][x := u]
  {
  }

  /** An attempt that ends the loop decides the outcome, and its files are
      all the rest of the episode writes. */
  lemma FinishLast(inputs: seq<AttemptInput>, maxRetries: nat, k: nat, feedback: Option<string>,
                   files: map<string, string>, dir: string, name: string, original: string, rewrite: Improver.Rewrite)
    requires k <= maxRetries < |inputs|
    requires StepOutcome(inputs[k], k, maxRetries, rewrite.ok).Some?
    ensures var e, o := RemediateFrom(inputs, maxRetries, rewrite.ok, k, feedback), StepOutcome(inputs[k], k, maxRetries, rewrite.ok);
      && e.outcome == o.value
      && (e.escalation.Some? <==> Escalates(o))
      && Finish(files, dir, name, original, e, rewrite) == StepFiles(files, dir, name, original, inputs[k], k, maxRetries, rewrite)
  {
  }

  /** What the patching loop knows after attempt `k` of an episode that, as a
      whole, logs `goal` and leaves `handled`: attempt `k` started from the
      thoughts `toldK` and the files `filesK` with feedback `feedback`, and the
      episode from `k` on ends as `e` does. */
  ghost predicate LoopTracks(inputs: seq<AttemptInput>, maxRetries: nat, rewrite: Improver.Rewrite, e: Episode,
                             goal: seq<string>, handled: map<string, string>, dir: string, name: string, original: string,
                             k: nat, feedback: Option<string>, toldK: seq<string>, filesK: map<string, string>)
    requires k <= maxRetries < |inputs|
  {
    var r := RemediateFrom(inputs, maxRetries, rewrite.ok, k, feedback);
    && goal == toldK + ThoughtsFrom(inputs, maxRetries, rewrite.ok, k)
    && handled == Finish(filesK, dir, name, original, r, rewrite)
    && r.outcome == e.outcome && (r.escalation.Some? <==> e.escalation.Some?)
  }

  /** An attempt that hands on its verification output leaves the loop
      tracking the episode from the next attempt, with the same skill document. */
  lemma LoopAdvances(inputs: seq<AttemptInput>, maxRetries: nat, rewrite: Improver.Rewrite, e: Episode,
                     goal: seq<string>, handled: map<string, string>, dir: string, name: string, original: string,
                     k: nat, feedback: Option<string>, toldK: seq<string>, filesK: map<string, string>,
                     feedback1: Option<string>, told1: seq<string>, files1: map<string, string>)
    requires k <= maxRetries < |inputs| && SkillApart(dir, name)
    requires LoopTracks(inputs, maxRetries, rewrite, e, goal, handled, dir, name, original, k, feedback, toldK, filesK)
    requires StepOutcome(inputs[k], k, maxRetries, rewrite.ok).None?
    requires feedback1 == Some(RunTest(inputs[k].run).output)
    requires told1 == toldK + AttemptThoughts(inputs[k], k, maxRetries, rewrite.ok)
    requires files1 == StepFiles(filesK, dir, name, original, inputs[k], k, maxRetries, rewrite)
    ensures k + 1 <= maxRetries && SkillIn(files1) == SkillIn(filesK)
    ensures LoopTracks(inputs, maxRetries, rewrite, e, goal, handled, dir, name, original, k + 1, feedback1, told1, files1)
  {
    var out := Some(RunTest(inputs[k].run).output);
    FinishStep(inputs, maxRetries, k, feedback, filesK, dir, name, original, rewrite);
    RemediateStep(inputs, maxRetries, rewrite.ok, k, feedback);
    AppendAssoc(toldK, AttemptThoughts(inputs[k], k, maxRetries, rewrite.ok), ThoughtsFrom(inputs, maxRetries, rewrite.ok, k + 1));
    SiblingPathsDistinct(dir, name);
  }

  /** The attempt that ends the loop completes the episode: all of its
      thoughts are logged, its files written, and its outcome decided. */
  lemma LoopEnds(inputs: seq<AttemptInput>, maxRetries: nat, rewrite: Improver.Rewrite, e: Episode,
                 goal: seq<string>, handled: map<string, string>, dir: string, name: string, original: string,
                 k: nat, feedback: Option<string>, toldK: seq<string>, filesK: map<string, string>)
    requires k <= maxRetries < |inputs|
    requires LoopTracks(inputs, maxRetries, rewrite, e, goal, handled, dir, name, original, k, feedback, toldK, filesK)
    requires StepOutcome(inputs[k], k, maxRetries, rewrite.ok).Some?
    ensures var o := StepOutcome(inputs[k], k, maxRetries, rewrite.ok);
      && goal == toldK + AttemptThoughts(inputs[k], k, maxRetries, rewrite.ok)
      && handled == StepFiles(filesK, dir, name, original, inputs[k], k, maxRetries, rewrite)
      && o.value == e.outcome && (Escalates(o) <==> e.escalation.Some?)
  {
    FinishLast(inputs, maxRetries, k, feedback, filesK, dir, name, original, rewrite);
    assert ThoughtsFrom(inputs, maxRetries, rewrite.ok, k) == AttemptThoughts(inputs[k], k, maxRetries, rewrite.ok) + [];
  }

  /** After the opening steps the patching loop starts tracking the whole
      episode: the narration still to come is the loop's, the files it will
      leave are those of `HandledFiles`, and the skill document is untouched. */
  lemma StartTracks(inputs: seq<AttemptInput>, maxRetries: nat, improveReply: Improver.TextReply,
                    files0: map<string, string>, files1: map<string, string>, dir: string, name: string,
                    vulnType: string, exploitCode: string, told0: seq<string>, told1: seq<string>)
    requires maxRetries < |inputs| && Join(dir, name) in files0 && SkillApart(dir, name)
    requires files1 == if exploitCode != "" then files0[ExploitPath(dir, name) := exploitCode] else files0
    requires told1 == told0 + OpeningThoughts(vulnType, name, exploitCode)
    ensures Improver.RewriteSkill(SkillIn(files1), improveReply) == Improver.RewriteSkill(SkillIn(files0), improveReply)
    ensures var rw := Improver.RewriteSkill(SkillIn(files0), improveReply);
      var e := Remediate(inputs, maxRetries, rw.ok);
      LoopTracks(inputs, maxRetries, rw, e, told0 + Narration(vulnType, name, exploitCode, inputs, maxRetries, rw.ok),
                 HandledFiles(files0, dir, name, exploitCode, e, improveReply), dir, name, files0[Join(dir, name)],
                 0, None, told1, files1)
  {
    SiblingPathsDistinct(dir, name);
    assert SkillIn(files1) == SkillIn(files0);
    var rw := Improver.RewriteSkill(SkillIn(files0), improveReply);
    AppendAssoc(told0, OpeningThoughts(vulnType, name, exploitCode), ThoughtsFrom(inputs, maxRetries, rw.ok, 0));
  }

  /** Logging a whole narration leaves its last message as the current
      thought and the history as `log_thought` builds it message by message. */
  lemma NarrationLogged(told0: seq<string>, narration: seq<string>, told1: seq<string>)
    requires told0 != [] && narration != [] && told1 == told0 + narration
    ensures Last(told1) == narration[|narration| - 1]
    ensures Recent(told1) == PushAll(Recent(told0), narration)
  {
    PushAllRecent(told0, narration);
  }

  /** The summary of the improver's trace record for the repair skill. */
  const SkillRewrittenSummary := "Rewrote repair_code.md"

  lemma SkillRewrittenSummaryNamesFile()
    ensures "Rewrote " + Basename(Patcher.RepairSkillPath) == SkillRewrittenSummary
  {
    BasenameAfterSeparator("skills/", "repair_code.md");
    assert Patcher.RepairSkillPath == "skills/" + "repair_code.md";
  }

  /** The trace file after an escalation: the improver's record is appended
      when the rewrite succeeded and the trace could be read and written. */
  function EscalatedTrace(t: Trace.TraceFile, modelName: string, improveOk: bool, reply: Improver.TextReply,
                          writeOk: bool): Trace.TraceFile
  {
    if improveOk && reply.Answered? && !t.Unreadable? && writeOk
    then Trace.Stored(Trace.Loaded(t) + [Trace.MakeRecord(Improver.AgentName, modelName, Improver.ImproveAction,
                                                           SkillRewrittenSummary, reply.text)])
    else t
  }

  /** `ManagerAgent`'s state: the dashboard rows, the current thought and the
      recent-thought history, and the agents sharing one trace file. `told` is
      every thought logged so far, of which the history keeps the last eight. */
  class Manager {
    var vulnStates: seq<VulnState>
    var currentThought: string
    var thoughtHistory: seq<string>
    ghost var told: seq<string>
    const maxRetries: nat
    const trace: Trace.TraceLog?
    const scanner: Scanner.ScannerAgent
    const patcher: Patcher.PatcherAgent
    const improver: Improver.ImproverAgent

    ghost predicate Valid()
      reads this
    {
      && told != []
      && thoughtHistory == Recent(told)
      && currentThought == Last(told)
      && scanner.trace == trace && patcher.trace == trace && improver.trace == trace
    }

    /** `__init__`: an empty dashboard, the initial thought, a fresh trace (a
        previous trace file is removed), and every agent on its default model
        writing to that trace. `maxRetries` is `Config.MAX_PATCH_RETRIES`. */
    constructor (maxRetries: nat, trace: Trace.TraceLog?)
      modifies trace
      ensures this.maxRetries == maxRetries && this.trace == trace
      ensures vulnStates == [] && currentThought == InitialThought && thoughtHistory == [InitialThought]
      ensures scanner.modelName == Scanner.DefaultModel && patcher.modelName == Patcher.DefaultModel
      ensures improver.modelName == Improver.DefaultModel
      ensures trace != null ==> trace.file == Trace.Missing
      ensures Valid() && told == [InitialThought]
    {
      this.maxRetries := maxRetries;
      this.trace := trace;
      scanner := new Scanner.ScannerAgent(Scanner.DefaultModel, trace);
      patcher := new Patcher.PatcherAgent(Patcher.DefaultModel, trace);
      improver := new Improver.ImproverAgent(Improver.DefaultModel, trace);
      vulnStates := [];
      currentThought := InitialThought;
      thoughtHistory := [InitialThought];
      told := [InitialThought];
      new;
      if trace != null {
        trace.file := Trace.Missing;
      }
    }

    /** `log_thought`: the message becomes the current thought and joins the
        history, which keeps only the most recent eight. */
    method LogThought(message: string)
      requires Valid()
      modifies this
      ensures Valid() && told == old(told) + [message]
      ensures currentThought == message
      ensures thoughtHistory == PushThought(old(thoughtHistory), message)
      ensures vulnStates == old(vulnStates)
    {
      PushThoughtRecent(told, message);
      told := told + [message];
      currentThought := message;
      thoughtHistory := thoughtHistory + [message];
      if |thoughtHistory| > HistoryLimit {
        thoughtHistory := thoughtHistory[1..];
      }
    }

    /** `update_vuln_status`: set status and color on the first row for the
        key, or append a row when there is none. */
    method UpdateVulnStatus(file: string, vulnType: string, status: string, color: string)
      requires Valid()
      modifies this
      ensures Valid() && told == old(told)
      ensures vulnStates == Upsert(old(vulnStates), file, vulnType, status, color)
      ensures currentThought == old(currentThought) && thoughtHistory == old(thoughtHistory)
    {
      var i := 0;
      while i < |vulnStates|
        invariant i <= |vulnStates|
        invariant forall j :: 0 <= j < i ==> !Matches(vulnStates[j], file, vulnType)
      {
        if vulnStates[i].file == file && vulnStates[i].vulnType == vulnType {
          assert FindEntry(vulnStates, file, vulnType) == Some(i);
          vulnStates := vulnStates[i := vulnStates[i].(status := status, color := color)];
          return;
        }
        i := i + 1;
      }
      vulnStates := vulnStates + [VulnState(file, vulnType, status, color)];
    }

    /** `log_thought` for the next of the thoughts `msgs` lists. */
    method Think(ghost told0: seq<string>, ghost msgs: seq<string>, ghost n: nat, message: string)
      requires Valid() && n < |msgs| && msgs[n] == message && told == told0 + msgs[..n]
      modifies this
      ensures Valid() && told == told0 + msgs[..n + 1] && vulnStates == old(vulnStates)
    {
      LogThought(message);
      assert told0 + msgs[..n + 1] == (told0 + msgs[..n]) + [message];
    }

    /** `update_vuln_status` on the vulnerability's own row, `row` of `rows0`. */
    method Restatus(ghost rows0: seq<VulnState>, ghost row: nat, ghost status0: string, ghost color0: string,
                    file: string, vulnType: string, status: string, color: string)
      requires Valid() && FindEntry(rows0, file, vulnType) == Some(row)
      requires vulnStates == rows0[row := VulnState(file, vulnType, status0, color0)]
      modifies this
      ensures Valid() && vulnStates == rows0[row := VulnState(file, vulnType, status, color)] && told == old(told)
    {
      UpsertAt(rows0, row, file, vulnType, status0, color0, status, color);
      UpdateVulnStatus(file, vulnType, status, color);
    }

    /** The top of every attempt after the first: the retry notice and status. */
    method AnnounceRetry(ghost rows0: seq<VulnState>, ghost row: nat, ghost status0: string, ghost color0: string,
                         fileName: string, vulnType: string, attempt: nat)
      returns (ghost status: string, ghost color: string)
      requires Valid() && FindEntry(rows0, fileName, vulnType) == Some(row)
      requires vulnStates == rows0[row := VulnState(fileName, vulnType, status0, color0)]
      modifies this
      ensures Valid() && told == old(told) + RetryThoughts(attempt, maxRetries)
      ensures vulnStates == rows0[row := VulnState(fileName, vulnType, status, color)]
      ensures attempt > 0 ==> status == RetryStatusPrefix + Decimal(attempt) && color == Magenta
    {
      status, color := status0, color0;
      if attempt > 0 {
        LogThought(RetryThought(attempt, maxRetries));
        Restatus(rows0, row, status0, color0, fileName, vulnType, RetryStatusPrefix + Decimal(attempt), Magenta);
        status, color := RetryStatusPrefix + Decimal(attempt), Magenta;
      } else {
        assert told == old(told) + [];
      }
    }

    /** The patch reply, the reproduction test and the approval prompt. `fixed`
        is the code to apply, or `None` when the loop ends here. */
    method Propose(ghost rows0: seq<VulnState>, ghost row: nat, ghost status0: string, ghost color0: string,
                   dir: string, fileName: string, a: AttemptInput, vulnType: string, fs: FileStore)
      returns (fixed: Option<string>)
      requires Valid() && FindEntry(rows0, fileName, vulnType) == Some(row)
      requires vulnStates == rows0[row := VulnState(fileName, vulnType, status0, color0)]
      modifies this, fs
      ensures Valid()
      ensures fixed.Some? <==> WellFormed(a) && !Rejects(a.approval)
      ensures fixed.Some? ==> fixed.value == FixedCode(a)
      ensures told == old(told) + ProposeThoughts(a)
      ensures vulnStates == rows0[row := VulnState(fileName, vulnType, ProposeStatus(a).0, ProposeStatus(a).1)]
      ensures fs.files == ProposeFiles(old(fs.files), dir, fileName, a)
    {
      ghost var told0, msgs := told, ProposeThoughts(a);
      ProposeThoughtsAt(a);
      assert told0 + msgs[..0] == told0;
      if !Generated(a) {
        Restatus(rows0, row, status0, color0, fileName, vulnType, StatusText(PatchGenFailed), StatusColor(PatchGenFailed));
        return None;
      }
      var repro := Get(a.reply.value, ReproKey, "");
      var code := Get(a.reply.value, FixedKey, "");
      if repro == "" || code == "" {
        Restatus(rows0, row, status0, color0, fileName, vulnType, StatusText(InvalidPatch), StatusColor(InvalidPatch));
        return None;
      }
      fs.Write(TestPath(dir, fileName), repro);
      Think(told0, msgs, 0, ProposalThoughts[0]);
      Restatus(rows0, row, status0, color0, fileName, vulnType, VerifyingExploitStatus, Yellow);
      Think(told0, msgs, 1, ProposalThoughts[1]);
      Restatus(rows0, row, VerifyingExploitStatus, Yellow, fileName, vulnType, WaitingStatus, BrightYellow);
      if Lower(a.approval) == "n" {
        Think(told0, msgs, 2, RejectedThought);
        Restatus(rows0, row, WaitingStatus, BrightYellow, fileName, vulnType, StatusText(Skipped), StatusColor(Skipped));
        assert msgs[..3] == msgs;
        return None;
      }
      assert msgs[..2] == msgs;
      fixed := Some(code);
    }

    /** Back up the target, write the fixed code over it, and announce the
        verification. */
    method ApplyPatch(ghost rows0: seq<VulnState>, ghost row: nat, dir: string, fileName: string, vulnType: string,
                      original: string, fixed: string, fs: FileStore)
      requires Valid() && FindEntry(rows0, fileName, vulnType) == Some(row)
      requires vulnStates == rows0[row := VulnState(fileName, vulnType, WaitingStatus, BrightYellow)]
      modifies this, fs
      ensures Valid() && told == old(told) + PatchThoughts
      ensures vulnStates == rows0[row := VulnState(fileName, vulnType, VerifyingPatchStatus, Cyan)]
      ensures fs.files == old(fs.files)[BackupPath(dir, fileName) := original][Join(dir, fileName) := fixed]
    {
      LogThought(PatchThoughts[0]);
      Restatus(rows0, row, WaitingStatus, BrightYellow, fileName, vulnType, PatchingStatus, Magenta);
      fs.Write(BackupPath(dir, fileName), original);
      fs.Write(Join(dir, fileName), fixed);
      LogThought(PatchThoughts[1]);
      Restatus(rows0, row, PatchingStatus, Magenta, fileName, vulnType, VerifyingPatchStatus, Cyan);
      AppendPair(old(told), ApplyingThought, VerifyingThought);
    }

    /** The last allowed attempt failed: rewrite the repair skill from the
        verification output and report the vulnerability as failed. */
    method Escalate(ghost rows0: seq<VulnState>, ghost row: nat, report: RunReport, filePath: string,
                    fileName: string, vulnType: string, output: string, improveReply: Improver.TextReply,
                    fs: FileStore, traceWriteOk: bool)
      requires Valid() && FindEntry(rows0, fileName, vulnType) == Some(row)
      requires vulnStates == rows0[row := VulnState(fileName, vulnType, VerifyingPatchStatus, Cyan)]
      modifies this, report, fs, trace
      ensures Valid()
      ensures var rewrite := Improver.RewriteSkill(SkillIn(old(fs.files)), improveReply);
        var o := if rewrite.ok then SkillUpgraded else Failed;
        && told == old(told) + EscalationThoughts(rewrite.ok)
        && vulnStates == rows0[row := VulnState(fileName, vulnType, StatusText(o), StatusColor(o))]
        && fs.files == (if rewrite.content.Some? then old(fs.files)[Patcher.RepairSkillPath := rewrite.content.value]
                        else old(fs.files))
        && (trace != null ==>
              trace.file == EscalatedTrace(old(trace.file), improver.modelName, rewrite.ok, improveReply, traceWriteOk))
      ensures report.verificationResults == old(report.verificationResults) + [map[FileField := filePath, StatusField := FailedResult]]
      ensures report.vulnerabilitiesFound == old(report.vulnerabilitiesFound)
      ensures report.patchesAttempted == old(report.patchesAttempted)
    {
      Evolve(rows0, row, fileName, vulnType);
      var success, _ := improver.ImproveSkill(output, Patcher.RepairSkillPath, fs, improveReply, traceWriteOk);
      SkillRewrittenSummaryNamesFile();
      Evolved(rows0, row, fileName, vulnType, success);
      report.verificationResults := report.verificationResults + [map[FileField := filePath, StatusField := FailedResult]];
      AppendPair(old(told), MaxRetriesThought, if success then RewrittenThought else HaltThought);
    }

    /** The escalation notice and status. */
    method Evolve(ghost rows0: seq<VulnState>, ghost row: nat, fileName: string, vulnType: string)
      requires Valid() && FindEntry(rows0, fileName, vulnType) == Some(row)
      requires vulnStates == rows0[row := VulnState(fileName, vulnType, VerifyingPatchStatus, Cyan)]
      modifies this
      ensures Valid() && told == old(told) + [MaxRetriesThought]
      ensures vulnStates == rows0[row := VulnState(fileName, vulnType, EvolvingStatus, Magenta)]
    {
      LogThought(MaxRetriesThought);
      Restatus(rows0, row, VerifyingPatchStatus, Cyan, fileName, vulnType, EvolvingStatus, Magenta);
    }

    /** The thought and status that report how the skill rewrite went. */
    method Evolved(ghost rows0: seq<VulnState>, ghost row: nat, fileName: string, vulnType: string, success: bool)
      requires Valid() && FindEntry(rows0, fileName, vulnType) == Some(row)
      requires vulnStates == rows0[row := VulnState(fileName, vulnType, EvolvingStatus, Magenta)]
      modifies this
      ensures var o := if success then SkillUpgraded else Failed;
        && Valid() && told == old(told) + [if success then RewrittenThought else HaltThought]
        && vulnStates == rows0[row := VulnState(fileName, vulnType, StatusText(o), StatusColor(o))]
    {
      if success {
        LogThought(RewrittenThought);
        Restatus(rows0, row, EvolvingStatus, Magenta, fileName, vulnType, StatusText(SkillUpgraded), StatusColor(SkillUpgraded));
      } else {
        LogThought(HaltThought);
        Restatus(rows0, row, EvolvingStatus, Magenta, fileName, vulnType, StatusText(Failed), StatusColor(Failed));
      }
    }

    /** An approved attempt: apply the patch, verify it, and either report the
        fix, restore the original and retry with the verification output
        (`next`), or on the last allowed attempt restore it and escalate. */
    method Conclude(ghost rows0: seq<VulnState>, ghost row: nat, report: RunReport, dir: string, fileName: string,
                    vulnType: string, original: string, a: AttemptInput, fixed: string, attempt: nat,
                    improveReply: Improver.TextReply, fs: FileStore, traceWriteOk: bool)
      returns (next: Option<string>)
      requires Valid() && FindEntry(rows0, fileName, vulnType) == Some(row)
      requires vulnStates == rows0[row := VulnState(fileName, vulnType, WaitingStatus, BrightYellow)]
      requires WellFormed(a) && !Rejects(a.approval) && fixed == FixedCode(a)
      requires attempt <= maxRetries && SkillApart(dir, fileName)
      modifies this, report, fs, trace
      ensures Valid()
      ensures var rewrite := Improver.RewriteSkill(SkillIn(old(fs.files)), improveReply);
        var o := StepOutcome(a, attempt, maxRetries, rewrite.ok);
        && (next.Some? <==> o.None?)
        && (next.Some? ==> next.value == RunTest(a.run).output)
        && told == old(told) + ConcludeThoughts(a, attempt, maxRetries, rewrite.ok)
        && vulnStates == rows0[row := VulnState(fileName, vulnType, StepStatus(o).0, StepStatus(o).1)]
        && fs.files == ConcludeFiles(old(fs.files), dir, fileName, original, a, attempt, maxRetries, rewrite)
        && report.verificationResults == old(report.verificationResults) + StepResults(Join(dir, fileName), o)
        && (trace != null ==>
              trace.file == if Escalates(o)
                            then EscalatedTrace(old(trace.file), improver.modelName, rewrite.ok, improveReply, traceWriteOk)
                            else old(trace.file))
      ensures report.vulnerabilitiesFound == old(report.vulnerabilitiesFound)
      ensures report.patchesAttempted == old(report.patchesAttempted)
    {
      ghost var files0 := fs.files;
      AppendAssoc(old(told), PatchThoughts, VerdictThoughts(a, attempt, maxRetries, ImproveOk(fs.files, improveReply)));
      ApplyPatch(rows0, row, dir, fileName, vulnType, original, fixed, fs);
      SiblingPathsDistinct(dir, fileName);
      assert SkillIn(fs.files) == SkillIn(files0);
      assert ImproveOk(fs.files, improveReply) == ImproveOk(files0, improveReply);
      assert trace != null ==> trace.file == old(trace.file);
      ghost var backedUp := files0[BackupPath(dir, fileName) := original];
      assert fs.files == backedUp[Join(dir, fileName) := fixed];
      next := Settle(rows0, row, report, dir, fileName, vulnType, original, a, attempt, improveReply, fs, traceWriteOk);
      assert backedUp[Join(dir, fileName) := fixed][Join(dir, fileName) := original] == backedUp[Join(dir, fileName) := original];
    }

    /** The verification of an applied patch: report the fix, or restore the
        original and retry with the verification output (`next`), or on the
        last allowed attempt restore it and escalate. */
    method Settle(ghost rows0: seq<VulnState>, ghost row: nat, report: RunReport, dir: string, fileName: string,
                  vulnType: string, original: string, a: AttemptInput, attempt: nat,
                  improveReply: Improver.TextReply, fs: FileStore, traceWriteOk: bool)
      returns (next: Option<string>)
      requires Valid() && FindEntry(rows0, fileName, vulnType) == Some(row)
      requires vulnStates == rows0[row := VulnState(fileName, vulnType, VerifyingPatchStatus, Cyan)]
      requires WellFormed(a) && !Rejects(a.approval)
      requires attempt <= maxRetries && Patcher.RepairSkillPath != Join(dir, fileName)
      modifies this, report, fs, trace
      ensures Valid()
      ensures var rewrite := Improver.RewriteSkill(SkillIn(old(fs.files)), improveReply);
        var o := StepOutcome(a, attempt, maxRetries, rewrite.ok);
        var kept := if Passes(a) then old(fs.files) else old(fs.files)[Join(dir, fileName) := original];
        && (next.Some? <==> o.None?)
        && (next.Some? ==> next.value == RunTest(a.run).output)
        && told == old(told) + VerdictThoughts(a, attempt, maxRetries, rewrite.ok)
        && vulnStates == rows0[row := VulnState(fileName, vulnType, StepStatus(o).0, StepStatus(o).1)]
        && fs.files == (if Passes(a) || attempt < maxRetries || rewrite.content.None? then kept
                        else kept[Patcher.RepairSkillPath := rewrite.content.value])
        && report.verificationResults == old(report.verificationResults) + StepResults(Join(dir, fileName), o)
        && (trace != null ==>
              trace.file == if Escalates(o)
                            then EscalatedTrace(old(trace.file), improver.modelName, rewrite.ok, improveReply, traceWriteOk)
                            else old(trace.file))
      ensures report.vulnerabilitiesFound == old(report.vulnerabilitiesFound)
      ensures report.patchesAttempted == old(report.patchesAttempted)
    {
      var target := Join(dir, fileName);
      var verdict := RunTest(a.run);
      if verdict.passed {
        LogThought(VerifiedThought);
        Restatus(rows0, row, VerifyingPatchStatus, Cyan, fileName, vulnType, StatusText(Fixed), StatusColor(Fixed));
        report.verificationResults := report.verificationResults + [map[FileField := target, StatusField := FixedResult]];
        return None;
      }
      fs.Write(target, original);
      assert SkillIn(fs.files) == SkillIn(old(fs.files));
      if attempt < maxRetries {
        LogThought(RetryingThought);
        return Some(verdict.output);
      }
      Escalate(rows0, row, report, target, fileName, vulnType, verdict.output, improveReply, fs, traceWriteOk);
      next := None;
    }

    /** One pass of the patching loop, attempt number `attempt`. `next` is the
        feedback for the next attempt, or `None` when the loop ends here. */
    method Attempt(ghost rows0: seq<VulnState>, ghost row: nat, ghost status0: string, ghost color0: string,
                   report: RunReport, dir: string, fileName: string, vulnType: string, original: string,
                   a: AttemptInput, attempt: nat, improveReply: Improver.TextReply, fs: FileStore, traceWriteOk: bool)
      returns (next: Option<string>)
      requires Valid() && FindEntry(rows0, fileName, vulnType) == Some(row)
      requires vulnStates == rows0[row := VulnState(fileName, vulnType, status0, color0)]
      requires attempt <= maxRetries && SkillApart(dir, fileName)
      modifies this, report, fs, trace
      ensures Valid()
      ensures var rewrite := Improver.RewriteSkill(SkillIn(old(fs.files)), improveReply);
        var o := StepOutcome(a, attempt, maxRetries, rewrite.ok);
        && (next.Some? <==> o.None?)
        && (next.Some? ==> next.value == RunTest(a.run).output)
        && told == old(told) + AttemptThoughts(a, attempt, maxRetries, rewrite.ok)
        && vulnStates == rows0[row := VulnState(fileName, vulnType, StepStatus(o).0, StepStatus(o).1)]
        && fs.files == StepFiles(old(fs.files), dir, fileName, original, a, attempt, maxRetries, rewrite)
        && report.verificationResults == old(report.verificationResults) + StepResults(Join(dir, fileName), o)
        && (trace != null ==>
              trace.file == if Escalates(o)
                            then EscalatedTrace(old(trace.file), improver.modelName, rewrite.ok, improveReply, traceWriteOk)
                            else old(trace.file))
      ensures report.vulnerabilitiesFound == old(report.vulnerabilitiesFound)
      ensures report.patchesAttempted == old(report.patchesAttempted)
    {
      ghost var ok := ImproveOk(fs.files, improveReply);
      AppendAssoc(old(told), RetryThoughts(attempt, maxRetries), ProposeThoughts(a));
      AppendAssoc(old(told), RetryThoughts(attempt, maxRetries) + ProposeThoughts(a), ConcludeThoughts(a, attempt, maxRetries, ok));
      ghost var status, color := AnnounceRetry(rows0, row, status0, color0, fileName, vulnType, attempt);
      var fixed := Propose(rows0, row, status, color, dir, fileName, a, vulnType, fs);
      if fixed.None? {
        return None;
      }
      SiblingPathsDistinct(dir, fileName);
      assert SkillIn(fs.files) == SkillIn(old(fs.files));
      next := Conclude(rows0, row, report, dir, fileName, vulnType, original, a, fixed.value, attempt,
                       improveReply, fs, traceWriteOk);
    }
  
    /** The start of `handle_vulnerability`: the opening thoughts and statuses,
        the attack graph stored in the vulnerability's record (entry `vi` of
        `vulnerabilities_found`), the target's content read, and the exploit
        script written when the reply has one. `rows0` and `row` locate the
        vulnerability's dashboard row for the rest of the handling. */
    method Open(report: RunReport, vi: nat, dir: string, fileName: string, vulnType: string,
                graphCode: string, exploitReply: Option<Record>, fs: FileStore)
      returns (ghost rows0: seq<VulnState>, ghost row: nat, original: string)
      requires Valid() && vi < |report.vulnerabilitiesFound| && Join(dir, fileName) in fs.files
      modifies this, report, fs
      ensures Valid() && told == old(told) + OpeningThoughts(vulnType, fileName, ExploitCode(exploitReply))
      ensures rows0 == Upsert(old(vulnStates), fileName, vulnType, AnalyzingStatus, Yellow)
      ensures FindEntry(rows0, fileName, vulnType) == Some(row)
      ensures vulnStates == rows0[row := VulnState(fileName, vulnType, ExploitStatus, Red)]
      ensures original == old(fs.files)[Join(dir, fileName)]
      ensures fs.files == if ExploitCode(exploitReply) != "" then old(fs.files)[ExploitPath(dir, fileName) := ExploitCode(exploitReply)]
                          else old(fs.files)
      ensures report.vulnerabilitiesFound
              == if graphCode != "" then old(report.vulnerabilitiesFound)[vi := old(report.vulnerabilitiesFound)[vi][AttackGraphKey := graphCode]]
                 else old(report.vulnerabilitiesFound)
      ensures report.verificationResults == old(report.verificationResults)
      ensures report.patchesAttempted == old(report.patchesAttempted)
    {
      ghost var told0 := told;
      rows0, row := Begin(fileName, vulnType);
      LogThought(VisualizingThought);
      if graphCode != "" {
        report.vulnerabilitiesFound := report.vulnerabilitiesFound[vi := report.vulnerabilitiesFound[vi][AttackGraphKey := graphCode]];
      }
      original := fs.files[Join(dir, fileName)];
      LogThought(ExploitThought);
      Restatus(rows0, row, AnalyzingStatus, Yellow, fileName, vulnType, ExploitStatus, Red);
      var exploitCode := ExploitCode(exploitReply);
      if exploitCode != "" {
        fs.Write(ExploitPath(dir, fileName), exploitCode);
        LogThought(ExploitSavedThought + fileName);
      }
      AppendThree(told0, AnalyzingThought(vulnType, fileName), VisualizingThought, ExploitThought,
                  if exploitCode != "" then [ExploitSavedThought + fileName] else []);
    }

    /** Where the patching loop stands before attempt `attempt`: the
        dashboard row of the vulnerability shows `status`/`color`, and the
        loop tracks the episode that logs `goal` and leaves `handled`. */
    ghost predicate Pending(rows0: seq<VulnState>, row: nat, status: string, color: string, dir: string,
                            fileName: string, vulnType: string, original: string, inputs: seq<AttemptInput>,
                            attempt: nat, feedback: Option<string>, rw: Improver.Rewrite, e: Episode,
                            goal: seq<string>, handled: map<string, string>, fs: FileStore)
      reads this, fs
    {
      && attempt <= maxRetries < |inputs|
      && FindEntry(rows0, fileName, vulnType) == Some(row)
      && vulnStates == rows0[row := VulnState(fileName, vulnType, status, color)]
      && LoopTracks(inputs, maxRetries, rw, e, goal, handled, dir, fileName, original, attempt, feedback, told, fs.files)
    }

    /** One pass of the patching loop's body: attempt `attempt` either ends
        the handling, completing the episode, or hands its verification output
        on to the next attempt. */
    method Round(ghost rows0: seq<VulnState>, ghost row: nat, ghost status0: string, ghost color0: string,
                 report: RunReport, dir: string, fileName: string, vulnType: string, original: string,
                 inputs: seq<AttemptInput>, attempt: nat, ghost errorFeedback: Option<string>,
                 improveReply: Improver.TextReply, fs: FileStore, traceWriteOk: bool,
                 ghost rw: Improver.Rewrite, ghost e: Episode, ghost goal: seq<string>, ghost handled: map<string, string>)
      returns (next: Option<string>)
      requires Valid() && SkillApart(dir, fileName)
      requires rw == Improver.RewriteSkill(SkillIn(fs.files), improveReply)
      requires Pending(rows0, row, status0, color0, dir, fileName, vulnType, original, inputs, attempt, errorFeedback,
                       rw, e, goal, handled, fs)
      modifies this, report, fs, trace
      ensures Valid()
      ensures report.vulnerabilitiesFound == old(report.vulnerabilitiesFound)
      ensures report.patchesAttempted == old(report.patchesAttempted)
      ensures next.None? ==>
        && told == goal && fs.files == handled
        && vulnStates == rows0[row := VulnState(fileName, vulnType, StatusText(e.outcome), StatusColor(e.outcome))]
        && report.verificationResults == old(report.verificationResults) + ResultEntries(Join(dir, fileName), e.outcome)
        && (trace != null ==>
              trace.file == if e.escalation.Some?
                            then EscalatedTrace(old(trace.file), improver.modelName, rw.ok, improveReply, traceWriteOk)
                            else old(trace.file))
      ensures next.Some? ==>
        && SkillIn(fs.files) == SkillIn(old(fs.files))
        && Pending(rows0, row, VerifyingPatchStatus, Cyan, dir, fileName, vulnType, original, inputs, attempt + 1, next,
                   rw, e, goal, handled, fs)
        && report.verificationResults == old(report.verificationResults)
        && (trace != null ==> trace.file == old(trace.file))
    {
      next := Attempt(rows0, row, status0, color0, report, dir, fileName, vulnType, original,
                      inputs[attempt], attempt, improveReply, fs, traceWriteOk);
      if next.None? {
        LoopEnds(inputs, maxRetries, rw, e, goal, handled, dir, fileName, original, attempt, errorFeedback,
                 old(told), old(fs.files));
      } else {
        LoopAdvances(inputs, maxRetries, rw, e, goal, handled, dir, fileName, original,
                     attempt, errorFeedback, old(told), old(fs.files), next, told, fs.files);
      }
    }

    /** The patching loop, `for attempt in range(MAX_PATCH_RETRIES + 1)`:
        attempts run until one ends the handling, each later one with the
        previous verification output as feedback. It completes the episode the
        caller set out from, which logs `goal` and leaves the files `handled`. */
    method PatchLoop(ghost rows0: seq<VulnState>, ghost row: nat, report: RunReport, dir: string, fileName: string,
                     vulnType: string, original: string, inputs: seq<AttemptInput>, improveReply: Improver.TextReply,
                     fs: FileStore, traceWriteOk: bool, ghost rw: Improver.Rewrite, ghost e: Episode,
                     ghost goal: seq<string>, ghost handled: map<string, string>)
      requires Valid() && maxRetries < |inputs| && SkillApart(dir, fileName)
      requires FindEntry(rows0, fileName, vulnType) == Some(row)
      requires vulnStates == rows0[row := VulnState(fileName, vulnType, ExploitStatus, Red)]
      requires rw == Improver.RewriteSkill(SkillIn(fs.files), improveReply) && e == Remediate(inputs, maxRetries, rw.ok)
      requires LoopTracks(inputs, maxRetries, rw, e, goal, handled, dir, fileName, original, 0, None, told, fs.files)
      modifies this, report, fs, trace
      ensures Valid()
      ensures told == goal && fs.files == handled
      ensures vulnStates == rows0[row := VulnState(fileName, vulnType, StatusText(e.outcome), StatusColor(e.outcome))]
      ensures report.verificationResults == old(report.verificationResults) + ResultEntries(Join(dir, fileName), e.outcome)
      ensures trace != null ==>
        trace.file == if e.escalation.Some?
                      then EscalatedTrace(old(trace.file), improver.modelName, rw.ok, improveReply, traceWriteOk)
                      else old(trace.file)
      ensures report.vulnerabilitiesFound == old(report.vulnerabilitiesFound)
      ensures report.patchesAttempted == old(report.patchesAttempted)
    {
      ghost var skill := SkillIn(fs.files);
      var attempt := 0;
      var errorFeedback: Option<string> := None;
      ghost var status0, color0 := ExploitStatus, Red;
      while true
        invariant Valid() && SkillIn(fs.files) == skill
        invariant Pending(rows0, row, status0, color0, dir, fileName, vulnType, original, inputs, attempt, errorFeedback,
                          rw, e, goal, handled, fs)
        invariant report.verificationResults == old(report.verificationResults)
        invariant report.vulnerabilitiesFound == old(report.vulnerabilitiesFound)
        invariant report.patchesAttempted == old(report.patchesAttempted)
        invariant trace != null ==> trace.file == old(trace.file)
        decreases maxRetries - attempt
      {
        var next := Round(rows0, row, status0, color0, report, dir, fileName, vulnType, original, inputs, attempt,
                          errorFeedback, improveReply, fs, traceWriteOk, rw, e, goal, handled);
        if next.None? {
          return;
        }
        errorFeedback := next;
        attempt := attempt + 1;
        status0, color0 := VerifyingPatchStatus, Cyan;
      }
    }

    /** The first thought and status of a vulnerability's handling; `row` is
        where its dashboard row sits from then on. */
    method Begin(fileName: string, vulnType: string) returns (ghost rows0: seq<VulnState>, ghost row: nat)
      requires Valid()
      modifies this
      ensures Valid() && told == old(told) + [AnalyzingThought(vulnType, fileName)]
      ensures rows0 == Upsert(old(vulnStates), fileName, vulnType, AnalyzingStatus, Yellow)
      ensures FindEntry(rows0, fileName, vulnType) == Some(row)
      ensures vulnStates == rows0[row := VulnState(fileName, vulnType, AnalyzingStatus, Yellow)]
    {
      LogThought(AnalyzingThought(vulnType, fileName));
      UpdateVulnStatus(fileName, vulnType, AnalyzingStatus, Yellow);
      rows0 := vulnStates;
      UpsertFinds(old(vulnStates), fileName, vulnType, AnalyzingStatus, Yellow);
      row := FindEntry(rows0, fileName, vulnType).value;
      assert rows0[row := VulnState(fileName, vulnType, AnalyzingStatus, Yellow)] == rows0;
    }

    /** Everything `handle_vulnerability` does after the opening: the patching
        loop, then the final status on the vulnerability's row. It is stated
        over the state before the opening: the thoughts `told0`, the rows
        `states0` and the files `files0`. */
    method Remedy(ghost told0: seq<string>, ghost states0: seq<VulnState>, ghost files0: map<string, string>,
                  ghost exploitCode: string, ghost rows0: seq<VulnState>, ghost row: nat,
                  report: RunReport, dir: string, fileName: string, vulnType: string, original: string,
                  inputs: seq<AttemptInput>, improveReply: Improver.TextReply, fs: FileStore, traceWriteOk: bool,
                  ghost rw: Improver.Rewrite, ghost e: Episode, ghost narration: seq<string>)
      requires Valid() && maxRetries < |inputs| && Join(dir, fileName) in files0 && SkillApart(dir, fileName)
      requires rw == Improver.RewriteSkill(SkillIn(files0), improveReply) && e == Remediate(inputs, maxRetries, rw.ok)
      requires narration == Narration(vulnType, fileName, exploitCode, inputs, maxRetries, rw.ok)
      requires told0 != [] && told == told0 + OpeningThoughts(vulnType, fileName, exploitCode)
      requires rows0 == Upsert(states0, fileName, vulnType, AnalyzingStatus, Yellow)
      requires FindEntry(rows0, fileName, vulnType) == Some(row)
      requires vulnStates == rows0[row := VulnState(fileName, vulnType, ExploitStatus, Red)]
      requires original == files0[Join(dir, fileName)]
      requires fs.files == if exploitCode != "" then files0[ExploitPath(dir, fileName) := exploitCode] else files0
      modifies this, report, fs, trace
      ensures Valid()
      ensures told == told0 + narration
      ensures thoughtHistory == PushAll(Recent(told0), narration) && currentThought == narration[|narration| - 1]
      ensures vulnStates == Upsert(states0, fileName, vulnType, StatusText(e.outcome), StatusColor(e.outcome))
      ensures fs.files == HandledFiles(files0, dir, fileName, exploitCode, e, improveReply)
      ensures report.verificationResults == old(report.verificationResults) + ResultEntries(Join(dir, fileName), e.outcome)
      ensures trace != null ==>
        trace.file == if e.escalation.Some?
                      then EscalatedTrace(old(trace.file), improver.modelName, rw.ok, improveReply, traceWriteOk)
                      else old(trace.file)
      ensures report.vulnerabilitiesFound == old(report.vulnerabilitiesFound)
      ensures report.patchesAttempted == old(report.patchesAttempted)
    {
      StartTracks(inputs, maxRetries, improveReply, files0, fs.files, dir, fileName, vulnType, exploitCode, told0, told);
      PatchLoop(rows0, row, report, dir, fileName, vulnType, original, inputs, improveReply, fs, traceWriteOk,
                rw, e, told0 + narration, HandledFiles(files0, dir, fileName, exploitCode, e, improveReply));
      UpsertThenRewrite(states0, fileName, vulnType, AnalyzingStatus, Yellow, StatusText(e.outcome), StatusColor(e.outcome));
      NarrationLogged(told0, narration, told);
    }

    /** `handle_vulnerability` for the vulnerability at entry `vi` of the
        report, found in file `fileName` of directory `dir`. The collaborators'
        answers are parameters: the attack graph, the exploit reply, what each
        attempt gets from the patch generator, the user and the test run
        (`inputs`), the skill improver's reply, and whether the trace file can
        be written. Everything the handling leaves is what the episode
        `Remediate` describes: its narration, one final status on the
        vulnerability's row, its files, at most one report entry, and the
        improver's trace record after an escalation. */
    method HandleVulnerability(report: RunReport, vi: nat, dir: string, fileName: string, vulnType: string,
                               graphCode: string, exploitReply: Option<Record>, inputs: seq<AttemptInput>,
                               improveReply: Improver.TextReply, fs: FileStore, traceWriteOk: bool)
      requires Valid() && maxRetries < |inputs|
      requires vi < |report.vulnerabilitiesFound| && Join(dir, fileName) in fs.files && SkillApart(dir, fileName)
      modifies this, report, fs, trace
      ensures Valid()
      ensures var ok := Improver.RewriteSkill(SkillIn(old(fs.files)), improveReply).ok;
        var e := Remediate(inputs, maxRetries, ok);
        var narration := Narration(vulnType, fileName, ExploitCode(exploitReply), inputs, maxRetries, ok);
        && told == old(told) + narration
        && thoughtHistory == PushAll(old(thoughtHistory), narration)
        && currentThought == narration[|narration| - 1]
        && vulnStates == Upsert(old(vulnStates), fileName, vulnType, StatusText(e.outcome), StatusColor(e.outcome))
        && fs.files == HandledFiles(old(fs.files), dir, fileName, ExploitCode(exploitReply), e, improveReply)
        && report.verificationResults == old(report.verificationResults) + ResultEntries(Join(dir, fileName), e.outcome)
        && (trace != null ==>
              trace.file == if e.escalation.Some?
                            then EscalatedTrace(old(trace.file), improver.modelName, ok, improveReply, traceWriteOk)
                            else old(trace.file))
      ensures report.vulnerabilitiesFound
              == if graphCode != "" then old(report.vulnerabilitiesFound)[vi := old(report.vulnerabilitiesFound)[vi][AttackGraphKey := graphCode]]
                 else old(report.vulnerabilitiesFound)
      ensures report.patchesAttempted == old(report.patchesAttempted)
    {
      ghost var files0 := fs.files;
      var rows0, row, original := Open(report, vi, dir, fileName, vulnType, graphCode, exploitReply, fs);
      assert trace != null ==> trace.file == old(trace.file);
      ghost var rw := Improver.RewriteSkill(SkillIn(files0), improveReply);
      Remedy(old(told), old(vulnStates), files0, ExploitCode(exploitReply), rows0, row, report, dir, fileName, vulnType,
             original, inputs, improveReply, fs, traceWriteOk, rw, Remediate(inputs, maxRetries, rw.ok),
             Narration(vulnType, fileName, ExploitCode(exploitReply), inputs, maxRetries, rw.ok));
    }
  }
}
