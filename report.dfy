/** `generate_html_report` (report_generator.py): the numbers and the
    per-vulnerability cards the HTML summary shows, computed from the saved
    `report_data`. The HTML text itself is left out; a card is the values its
    template is filled with. */
module Report {

  import opened Optional
  import opened Text
  import opened Records
  import opened Files
  import Remediation
  import Manager

  /** The saved report as the generator reads it; `None` is a missing key. */
  datatype ReportData = ReportData(vulnerabilitiesFound: Option<seq<Record>>,
                                   verificationResults: Option<seq<Record>>)

  /** `report_data.get("vulnerabilities_found", [])`. */
  function Vulns(d: ReportData): seq<Record>
  {
    if d.vulnerabilitiesFound.Some? then d.vulnerabilitiesFound.value else []
  }

  /** `report_data.get("verification_results", [])`. */
  function Results(d: ReportData): seq<Record>
  {
    if d.verificationResults.Some? then d.verificationResults.value else []
  }

  const FixedStatus := "Fixed"
  const FailedStatus := "Failed"

  /** `r.get("status") == status`: a missing key never matches. */
  predicate HasStatus(r: Record, status: string)
  {
    "status" in r && r["status"] == status
  }

  /** `sum(1 for r in results if r.get("status") == status)`. */
  function CountStatus(results: seq<Record>, status: string): (n: nat)
    ensures n <= |results|
  {
    if results == [] then 0
    else CountStatus(results[..|results| - 1], status) + (if HasStatus(results[|results| - 1], status) then 1 else 0)
  }

  /** Counting distributes over appended results. */
  lemma {:induction false} CountAppend(a: seq<Record>, b: seq<Record>, status: string)
    ensures CountStatus(a + b, status) == CountStatus(a, status) + CountStatus(b, status)
    decreases |b|
  {
    if b == [] {
      assert a + b == a;
    } else {
      var init := b[..|b| - 1];
      assert (a + b)[..|a + b| - 1] == a + init;
      CountAppend(a, init, status);
    }
  }

  /** The count is zero exactly when no result has the status. */
  lemma {:induction false} CountZero(results: seq<Record>, status: string)
    ensures CountStatus(results, status) == 0 <==> forall i :: 0 <= i < |results| ==> !HasStatus(results[i], status)
  {
    if results != [] {
      var init := results[..|results| - 1];
      CountZero(init, status);
      assert forall i :: 0 <= i < |init| ==> init[i] == results[i];
    }
  }

  /** No result is counted both fixed and failed, so the two counts never
      exceed the number of results. */
  lemma {:induction false} FixedAndFailedBounded(results: seq<Record>)
    ensures CountStatus(results, FixedStatus) + CountStatus(results, FailedStatus) <= |results|
  {
    if results != [] {
      FixedAndFailedBounded(results[..|results| - 1]);
      assert FixedStatus[1] != FailedStatus[1];
    }
  }

  /** The three numbers at the top of the report. */
  datatype Summary = Summary(totalVulns: nat, fixedCount: nat, failedCount: nat)

  function Summarize(d: ReportData): (s: Summary)
    ensures s.fixedCount + s.failedCount <= |Results(d)|
  {
    FixedAndFailedBounded(Results(d));
    Summary(|Vulns(d)|, CountStatus(Results(d), FixedStatus), CountStatus(Results(d), FailedStatus))
  }

  /** A result marks the file fixed: its `file` (default "") contains the
      name and its status is "Fixed". */
  predicate MarksFixed(r: Record, fileName: string)
  {
    Contains(Get(r, "file", ""), fileName) && HasStatus(r, FixedStatus)
  }

  /** `any(r.get("status") == "Fixed" for r in results if file_name in r.get("file", ""))`. */
  function IsFixed(results: seq<Record>, fileName: string): (r: bool)
    ensures r ==> exists i :: 0 <= i < |results| && MarksFixed(results[i], fileName)
  {
    results != [] && (MarksFixed(results[0], fileName) || IsFixed(results[1..], fileName))
  }

  /** A vulnerability is shown fixed exactly when some result marks its file fixed. */
  lemma {:induction false} IsFixedIff(results: seq<Record>, fileName: string)
    ensures IsFixed(results, fileName) <==> exists i :: 0 <= i < |results| && MarksFixed(results[i], fileName)
  {
    if results != [] {
      IsFixedIff(results[1..], fileName);
      if exists i :: 0 <= i < |results| && MarksFixed(results[i], fileName) {
        var i :| 0 <= i < |results| && MarksFixed(results[i], fileName);
        if i > 0 {
          assert results[1..][i - 1] == results[i];
        }
      }
      if exists i :: 0 <= i < |results[1..]| && MarksFixed(results[1..][i], fileName) {
        var i :| 0 <= i < |results[1..]| && MarksFixed(results[1..][i], fileName);
        assert results[i + 1] == results[1..][i];
      }
    }
  }

  /** The values one vulnerability's card shows, or the single placeholder
      card of a report without vulnerabilities. */
  datatype Card =
    | VulnCard(vulnType: string, severity: string, file: string, line: string, description: string,
               graph: Option<string>, fixed: bool)
    | Placeholder

  const DefaultSeverity := "Medium"
  const UnknownFile := "unknown"
  const UnknownLine := "?"
  const NoDescription := "No description provided."

  /** The card of vulnerability `v`: each field read with its default, the
      severity lower-cased, the attack graph shown only when non-empty, and
      the fixed badge when some result marks the file fixed. */
  function CardOf(v: Record, results: seq<Record>): (c: Card)
    ensures c.VulnCard?
  {
    var fileName := Get(v, "file", UnknownFile);
    var graphCode := Get(v, "attack_graph", "");
    VulnCard(TypeField(v), Lower(Get(v, "severity", DefaultSeverity)), fileName, Get(v, "line", UnknownLine),
             Get(v, "description", NoDescription), if graphCode != "" then Some(graphCode) else None,
             IsFixed(results, fileName))
  }

  /** A record with none of the keys gets every default. */
  lemma CardDefaults(results: seq<Record>)
    ensures CardOf(map[], results)
         == VulnCard("Unknown", "medium", "unknown", "?", "No description provided.", None, IsFixed(results, "unknown"))
  {
    assert Lower(DefaultSeverity) == "medium" by {
      assert DefaultSeverity == ['M'] + "edium";
      assert Lower("edium") == "edium" by {
        assert "edium" == ['e'] + "dium";
        assert "dium" == ['d'] + "ium";
        assert "ium" == ['i'] + "um";
        assert "um" == ['u'] + "m";
        assert "m" == ['m'] + [];
      }
    }
  }

  /** What a card shows, in terms of the record: the type falls back from
      `type` to `vulnerability` to "Unknown", the severity is lower-case, a
      graph block appears exactly for a non-empty `attack_graph`, and the
      badge says fixed exactly when a result marks the card's file fixed. */
  lemma CardShows(v: Record, results: seq<Record>)
    ensures var c := CardOf(v, results);
      && ("type" in v ==> c.vulnType == v["type"])
      && ("type" !in v && "vulnerability" in v ==> c.vulnType == v["vulnerability"])
      && ("type" !in v && "vulnerability" !in v ==> c.vulnType == "Unknown")
      && Lower(c.severity) == c.severity
      && (c.graph.Some? <==> "attack_graph" in v && v["attack_graph"] != "")
      && (c.graph.Some? ==> c.graph.value == v["attack_graph"])
      && (c.fixed <==> exists i :: 0 <= i < |results| && MarksFixed(results[i], c.file))
  {
    var c := CardOf(v, results);
    LowerIdempotent(Get(v, "severity", DefaultSeverity));
    IsFixedIff(results, c.file);
  }

  /** The loop over `vulns` that accumulates `vuln_cards`, then the
      placeholder when nothing was accumulated. */
  method BuildCards(vulns: seq<Record>, results: seq<Record>) returns (cards: seq<Card>)
    ensures vulns == [] ==> cards == [Placeholder]
    ensures vulns != [] ==> |cards| == |vulns| && forall i :: 0 <= i < |vulns| ==> cards[i] == CardOf(vulns[i], results)
    ensures Placeholder in cards <==> vulns == []
  {
    cards := [];
    for i := 0 to |vulns|
      invariant |cards| == i
      invariant forall j :: 0 <= j < i ==> cards[j] == CardOf(vulns[j], results)
    {
      cards := cards + [CardOf(vulns[i], results)];
    }
    if cards == [] {
      cards := [Placeholder];
    }
  }

  /** `generate_html_report` without the HTML text, the timestamp and the
      file write: the summary numbers and the cards. */
  method GenerateReport(d: ReportData) returns (s: Summary, cards: seq<Card>)
    ensures s.totalVulns == |Vulns(d)|
    ensures s.fixedCount == CountStatus(Results(d), FixedStatus) && s.failedCount == CountStatus(Results(d), FailedStatus)
    ensures s.fixedCount + s.failedCount <= |Results(d)|
    ensures Vulns(d) == [] ==> cards == [Placeholder]
    ensures Vulns(d) != [] ==> |cards| == |Vulns(d)|
                               && forall i :: 0 <= i < |cards| ==> cards[i] == CardOf(Vulns(d)[i], Results(d))
  {
    var vulns := Vulns(d);
    var results := Results(d);
    s := Summarize(d);
    cards := BuildCards(vulns, results);
  }

  /** A report whose keys are missing shows zeros and only the placeholder. */
  lemma EmptyReport()
    ensures Summarize(ReportData(None, None)) == Summary(0, 0, 0)
  {
  }

  /** The entry `handle_vulnerability` appends for a target is counted as the
      report expects: fixed exactly for a fixed outcome, failed exactly after
      the retries ran out, and a fixed outcome shows the file's card as fixed. */
  lemma HandledEntryCounted(results: seq<Record>, dir: string, name: string, o: Remediation.Outcome)
    ensures var after := results + Manager.ResultEntries(Join(dir, name), o);
      && CountStatus(after, FixedStatus) == CountStatus(results, FixedStatus) + (if o == Remediation.Fixed then 1 else 0)
      && CountStatus(after, FailedStatus)
         == CountStatus(results, FailedStatus) + (if o == Remediation.SkillUpgraded || o == Remediation.Failed then 1 else 0)
      && (o == Remediation.Fixed ==> IsFixed(after, name))
  {
    var entries := Manager.ResultEntries(Join(dir, name), o);
    CountAppend(results, entries, FixedStatus);
    CountAppend(results, entries, FailedStatus);
    assert FixedStatus[1] != FailedStatus[1];
    if o == Remediation.Fixed {
      var r := entries[0];
      assert Get(r, "file", "") == Join(dir, name);
      if dir == [] || dir[|dir| - 1] == '/' {
        ContainsMiddle(dir, name, "");
        assert dir + name + "" == Join(dir, name);
      } else {
        ContainsMiddle(dir + "/", name, "");
        assert dir + "/" + name + "" == Join(dir, name);
      }
      assert MarksFixed((results + entries)[|results|], name);
      IsFixedIff(results + entries, name);
    }
  }
}
