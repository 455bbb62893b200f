/** `VerifierAgent.run_test`: runs the generated reproduction test under pytest
    and turns how the process ended into a verdict. The process itself is not
    modelled; how it ended is the input. */
module Verifier {

  import opened Text

  /** The timeout `subprocess.run` is given, in seconds. */
  const TimeoutSeconds := 30

  /** How the pytest subprocess ended: it exited with a return code and the
      captured streams; it ran past the timeout; or starting it raised. */
  datatype ProcessEnd =
    | Exited(returnCode: int, stdout: string, stderr: string)
    | TimedOut
    | Raised(error: string)

  /** `(passed, output)`. */
  datatype Verdict = Verdict(passed: bool, output: string)

  const TimeoutMessage := "Test timed out after 30 seconds."
  const ErrorPrefix := "Error running test: "

  /** The timeout message quotes the timeout. */
  lemma TimeoutMessageQuotesLimit()
    ensures TimeoutMessage == "Test timed out after " + Decimal(TimeoutSeconds) + " seconds."
  {
  }

  /** The test passes exactly when pytest exited with return code 0; the output
      is both captured streams, or a message saying why there is none. No
      outcome of the process escapes as an exception. */
  function RunTest(run: ProcessEnd): (v: Verdict)
    ensures v.passed <==> run.Exited? && run.returnCode == 0
    ensures run.Exited? ==> v.output == run.stdout + "\n" + run.stderr
    ensures run.TimedOut? ==> v.output == TimeoutMessage
    ensures run.Raised? ==> v.output == ErrorPrefix + run.error
  {
    match run
    case Exited(code, out, err) => Verdict(code == 0, out + "\n" + err)
    case TimedOut => Verdict(false, TimeoutMessage)
    case Raised(e) => Verdict(false, ErrorPrefix + e)
  }

  /** Every verdict carries some output, so a failed verification always hands
      the patcher non-empty feedback. */
  lemma OutputNeverEmpty(run: ProcessEnd)
    ensures RunTest(run).output != ""
  {
  }

  /** Both captured streams reach the feedback, in order, separated by a newline. */
  lemma OutputKeepsStreams(code: int, out: string, err: string)
    ensures var v := RunTest(Exited(code, out, err));
      out <= v.output && Contains(v.output, err)
  {
    ContainsMiddle(out + "\n", err, "");
    assert out + "\n" + err + "" == out + "\n" + err;
  }
}
