/** The manager's dashboard bookkeeping: the list of per-vulnerability status
    rows, the short history of "thoughts", and the classification of a
    vulnerability record into a display category. */
module Dashboard {

  import opened Optional
  import opened Text
  import opened Records

  /** One row of `vuln_states`: `{"file", "vuln_type", "status", "color"}`. */
  datatype VulnState = VulnState(file: string, vulnType: string, status: string, color: string)

  predicate Matches(s: VulnState, file: string, vulnType: string)
  {
    s.file == file && s.vulnType == vulnType
  }

  /** The index of the first row for `(file, vulnType)`, if there is one. */
  function FindEntry(states: seq<VulnState>, file: string, vulnType: string): (r: Option<nat>)
    ensures r.Some? ==> r.value < |states| && Matches(states[r.value], file, vulnType)
    ensures r.Some? ==> forall j :: 0 <= j < r.value ==> !Matches(states[j], file, vulnType)
    ensures r.None? <==> forall j :: 0 <= j < |states| ==> !Matches(states[j], file, vulnType)
  {
    if states == [] then None
    else if Matches(states[0], file, vulnType) then Some(0)
    else match FindEntry(states[1..], file, vulnType)
      case None => None
      case Some(i) => Some(i + 1)
  }

  /** `update_vuln_status` as a value: the first row for the key gets the new
      status and color, or a new row is appended when there is none. */
  function Upsert(states: seq<VulnState>, file: string, vulnType: string, status: string, color: string)
    : (r: seq<VulnState>)
    ensures |states| <= |r| <= |states| + 1
    ensures forall j :: 0 <= j < |states| && !Matches(states[j], file, vulnType) ==> r[j] == states[j]
  {
    match FindEntry(states, file, vulnType)
    case Some(i) => states[i := states[i].(status := status, color := color)]
    case None => states + [VulnState(file, vulnType, status, color)]
  }

  /** The status the dashboard shows for a key: that of its first row. */
  function StatusOf(states: seq<VulnState>, file: string, vulnType: string): Option<string>
  {
    match FindEntry(states, file, vulnType)
    case Some(i) => Some(states[i].status)
    case None => None
  }

  /** No two rows share a `(file, vulnType)` key. */
  predicate KeysUnique(states: seq<VulnState>)
  {
    forall i, j :: 0 <= i < j < |states| ==>
      !Matches(states[j], states[i].file, states[i].vulnType)
  }

  /** Two row lists with the same keys in the same order. */
  predicate SameKeys(a: seq<VulnState>, b: seq<VulnState>)
  {
    |a| == |b| && forall j :: 0 <= j < |a| ==> a[j].file == b[j].file && a[j].vulnType == b[j].vulnType
  }

  lemma {:induction false} FindEntrySameKeys(a: seq<VulnState>, b: seq<VulnState>, file: string, vulnType: string)
    requires SameKeys(a, b)
    ensures FindEntry(a, file, vulnType) == FindEntry(b, file, vulnType)
  {
    if a != [] {
      FindEntrySameKeys(a[1..], b[1..], file, vulnType);
    }
  }

  lemma {:induction false} FindEntryAppend(states: seq<VulnState>, row: VulnState, file: string, vulnType: string)
    ensures FindEntry(states + [row], file, vulnType) ==
      if FindEntry(states, file, vulnType).Some? then FindEntry(states, file, vulnType)
      else if Matches(row, file, vulnType) then Some(|states|)
      else None
  {
    if states != [] {
      assert (states + [row])[1..] == states[1..] + [row];
      FindEntryAppend(states[1..], row, file, vulnType);
    }
  }

  /** After an upsert the key shows the new status. */
  lemma UpsertSetsStatus(states: seq<VulnState>, file: string, vulnType: string, status: string, color: string)
    ensures StatusOf(Upsert(states, file, vulnType, status, color), file, vulnType) == Some(status)
  {
    var after := Upsert(states, file, vulnType, status, color);
    var k := FindEntry(states, file, vulnType);
    if k.None? {
      FindEntryAppend(states, VulnState(file, vulnType, status, color), file, vulnType);
    } else {
      assert SameKeys(after, states);
      FindEntrySameKeys(after, states, file, vulnType);
    }
  }

  /** An upsert leaves what every other key shows unchanged. */
  lemma UpsertKeepsOthers(states: seq<VulnState>, file: string, vulnType: string, status: string, color: string,
                          f: string, t: string)
    requires (f, t) != (file, vulnType)
    ensures StatusOf(Upsert(states, file, vulnType, status, color), f, t) == StatusOf(states, f, t)
  {
    var after := Upsert(states, file, vulnType, status, color);
    var k := FindEntry(states, file, vulnType);
    if k.None? {
      FindEntryAppend(states, VulnState(file, vulnType, status, color), f, t);
    } else {
      assert SameKeys(after, states);
      FindEntrySameKeys(after, states, f, t);
      var m := FindEntry(states, f, t);
      if m.Some? {
        assert m.value != k.value;
      }
    }
  }

  /** An upsert adds a row exactly when the key had none, and keeps distinct
      keys distinct. */
  lemma UpsertShape(states: seq<VulnState>, file: string, vulnType: string, status: string, color: string)
    ensures var after := Upsert(states, file, vulnType, status, color);
      |after| == |states| + (if FindEntry(states, file, vulnType).None? then 1 else 0)
      && (KeysUnique(states) ==> KeysUnique(after))
  {
    var after := Upsert(states, file, vulnType, status, color);
    if FindEntry(states, file, vulnType).Some? {
      assert SameKeys(after, states);
    }
  }

  /** Setting a key's status twice leaves what setting it once to the second
      value leaves: only the last of the manager's status updates shows. */
  lemma UpsertTwice(states: seq<VulnState>, file: string, vulnType: string,
                    status1: string, color1: string, status2: string, color2: string)
    ensures Upsert(Upsert(states, file, vulnType, status1, color1), file, vulnType, status2, color2)
         == Upsert(states, file, vulnType, status2, color2)
  {
    var mid := Upsert(states, file, vulnType, status1, color1);
    if FindEntry(states, file, vulnType).Some? {
      assert SameKeys(mid, states);
      FindEntrySameKeys(mid, states, file, vulnType);
    } else {
      FindEntryAppend(states, VulnState(file, vulnType, status1, color1), file, vulnType);
    }
  }

  /** Once a key's first row is `row`, rewriting that row's status is what
      an upsert of the key does. */
  lemma UpsertAt(rows: seq<VulnState>, row: nat, file: string, vulnType: string,
                 status0: string, color0: string, status: string, color: string)
    requires FindEntry(rows, file, vulnType) == Some(row)
    ensures Upsert(rows[row := VulnState(file, vulnType, status0, color0)], file, vulnType, status, color)
         == rows[row := VulnState(file, vulnType, status, color)]
  {
    var mid := rows[row := VulnState(file, vulnType, status0, color0)];
    assert SameKeys(mid, rows);
    FindEntrySameKeys(mid, rows, file, vulnType);
    assert mid[row := mid[row].(status := status, color := color)] == rows[row := VulnState(file, vulnType, status, color)];
  }

  /** After an upsert the key has a first row, and it holds exactly the key,
      status and color given. */
  lemma UpsertFinds(states: seq<VulnState>, file: string, vulnType: string, status: string, color: string)
    ensures var after := Upsert(states, file, vulnType, status, color);
      var k := FindEntry(after, file, vulnType);
      k.Some? && after[k.value] == VulnState(file, vulnType, status, color)
  {
    var after := Upsert(states, file, vulnType, status, color);
    if FindEntry(states, file, vulnType).None? {
      FindEntryAppend(states, VulnState(file, vulnType, status, color), file, vulnType);
    } else {
      assert SameKeys(after, states);
      FindEntrySameKeys(after, states, file, vulnType);
    }
  }

  /** The row an upsert leaves for a key can be rewritten in place: doing so
      is what upserting the key with the new status and color does. */
  lemma UpsertThenRewrite(states: seq<VulnState>, file: string, vulnType: string,
                          status0: string, color0: string, status: string, color: string)
    ensures var rows := Upsert(states, file, vulnType, status0, color0);
      var k := FindEntry(rows, file, vulnType);
      k.Some? && rows[k.value := VulnState(file, vulnType, status, color)] == Upsert(states, file, vulnType, status, color)
  {
    var rows := Upsert(states, file, vulnType, status0, color0);
    UpsertFinds(states, file, vulnType, status0, color0);
    var k := FindEntry(rows, file, vulnType).value;
    assert rows[k := VulnState(file, vulnType, status0, color0)] == rows;
    UpsertAt(rows, k, file, vulnType, status0, color0, status, color);
    UpsertTwice(states, file, vulnType, status0, color0, status, color);
  }

  /** How many thoughts the history keeps. */
  const HistoryLimit := 8

  /** `log_thought`'s history update: append, then drop the oldest entry once
      there are more than eight. */
  function PushThought(history: seq<string>, message: string): (r: seq<string>)
    ensures r != [] && r[|r| - 1] == message
    ensures |history| <= HistoryLimit ==> |r| <= HistoryLimit
    ensures |history| < HistoryLimit ==> r == history + [message]
    ensures |r| <= |history| + 1 && r == (history + [message])[|history| + 1 - |r|..]
  {
    var h := history + [message];
    if |h| > HistoryLimit then h[1..] else h
  }

  /** The history after logging `messages` one after the other. */
  function PushAll(history: seq<string>, messages: seq<string>): (r: seq<string>)
    ensures |history| <= HistoryLimit ==> |r| <= HistoryLimit
    ensures messages != [] ==> r != [] && r[|r| - 1] == messages[|messages| - 1]
    decreases |messages|
  {
    if messages == [] then history
    else PushThought(PushAll(history, messages[..|messages| - 1]), messages[|messages| - 1])
  }

  /** The last eight entries of `xs`, or all of them when there are fewer. */
  function Recent(xs: seq<string>): seq<string>
  {
    if |xs| <= HistoryLimit then xs else xs[|xs| - HistoryLimit..]
  }

  lemma PushThoughtRecent(xs: seq<string>, m: string)
    ensures PushThought(Recent(xs), m) == Recent(xs + [m])
  {
    if |xs| >= HistoryLimit {
      assert (Recent(xs) + [m])[1..] == (xs + [m])[|xs + [m]| - HistoryLimit..];
    }
  }

  /** Keeping the recent part of a log and then appending is keeping the
      recent part of the whole log. */
  lemma RecentAppend(xs: seq<string>, ys: seq<string>)
    ensures Recent(Recent(xs) + ys) == Recent(xs + ys)
  {
    if |xs| > HistoryLimit {
      var r := Recent(xs) + ys;
      assert r == (xs + ys)[|xs| - HistoryLimit..];
      assert Recent(r) == (xs + ys)[|xs + ys| - |Recent(r)|..];
    }
  }

  /** From a history of at most eight thoughts, logging any number of messages
      leaves the most recent eight of the old history followed by the
      messages, in order. */
  lemma {:induction false} PushAllKeepsRecent(history: seq<string>, messages: seq<string>)
    requires |history| <= HistoryLimit
    ensures PushAll(history, messages) == Recent(history + messages)
    decreases |messages|
  {
    if messages == [] {
      assert history + messages == history;
    } else {
      var init, m := messages[..|messages| - 1], messages[|messages| - 1];
      PushAllKeepsRecent(history, init);
      assert history + messages == (history + init) + [m];
      PushThoughtRecent(history + init, m);
    }
  }

  /** The history kept for a log, after a batch of messages, is the history
      kept for the longer log. */
  lemma PushAllRecent(xs: seq<string>, messages: seq<string>)
    ensures PushAll(Recent(xs), messages) == Recent(xs + messages)
  {
    PushAllKeepsRecent(Recent(xs), messages);
    RecentAppend(xs, messages);
  }

  /** Logging a batch of messages is logging its parts one after the other. */
  lemma {:induction false} PushAllAppend(history: seq<string>, a: seq<string>, b: seq<string>)
    ensures PushAll(history, a + b) == PushAll(PushAll(history, a), b)
    decreases |b|
  {
    if b == [] {
      assert a + b == a;
    } else {
      assert (a + b)[..|a + b| - 1] == a + b[..|b| - 1];
      PushAllAppend(history, a, b[..|b| - 1]);
    }
  }

  /** The categories `_extract_vuln_type` recognises, in the order it tries them. */
  const KnownTypes := ["SQL Injection", "Command Injection", "Path Traversal", "SSRF", "Hardcoded"]

  /** Longest category shown for an unrecognised type. */
  const TypeDisplayLength := 25

  /** Case-insensitive mention of a category in the type or the description. */
  predicate Mentions(vulnType: string, description: string, known: string)
  {
    Contains(Lower(vulnType), Lower(known)) || Contains(Lower(description), Lower(known))
  }

  /** The index of the first category mentioned, in list order. */
  function FirstMention(known: seq<string>, vulnType: string, description: string): (r: Option<nat>)
    ensures r.Some? ==> r.value < |known| && Mentions(vulnType, description, known[r.value])
    ensures r.Some? ==> forall j :: 0 <= j < r.value ==> !Mentions(vulnType, description, known[j])
    ensures r.None? <==> forall j :: 0 <= j < |known| ==> !Mentions(vulnType, description, known[j])
  {
    if known == [] then None
    else if Mentions(vulnType, description, known[0]) then Some(0)
    else match FirstMention(known[1..], vulnType, description)
      case None => None
      case Some(i) => Some(i + 1)
  }

  /** Every known category fits the display length. */
  predicate FitsDisplay(known: seq<string>)
  {
    forall i :: 0 <= i < |known| ==> |known[i]| <= TypeDisplayLength
  }

  /** The classification `_extract_vuln_type` performs against a list of known
      categories. */
  function Classify(known: seq<string>, v: Record): (r: string)
    requires FitsDisplay(known)
    ensures |r| <= TypeDisplayLength
  {
    var vt := TypeField(v);
    match FirstMention(known, vt, Get(v, "description", ""))
    case Some(i) => known[i]
    case None => Take(vt, TypeDisplayLength)
  }

  /** `_extract_vuln_type`: the first known category (in list order) mentioned
      case-insensitively by the type or the description; otherwise the type
      (default "Unknown") cut to 25 characters. */
  function ExtractVulnType(v: Record): (r: string)
    ensures |r| <= TypeDisplayLength
  {
    assert FitsDisplay(KnownTypes);
    Classify(KnownTypes, v)
  }

  /** A prefix of a string is mentioned by it. */
  lemma PrefixMentioned(s: string, p: string)
    requires p <= s
    ensures Contains(Lower(s), Lower(p))
  {
    assert Lower(s)[..|p|] == Lower(p);
    assert Lower(p) <= Lower(s);
  }

  /** The category is a known one exactly when the record mentions one; then it
      is the first mentioned in list order, and otherwise it is the type cut to
      25 characters (which can never be mistaken for a known category). */
  lemma ClassifySpec(known: seq<string>, v: Record)
    requires FitsDisplay(known)
    ensures var r, vt, desc := Classify(known, v), TypeField(v), Get(v, "description", "");
      (r in known <==> exists j :: 0 <= j < |known| && Mentions(vt, desc, known[j]))
      && (r in known ==> exists i :: 0 <= i < |known| && r == known[i] && Mentions(vt, desc, known[i])
                                    && forall j :: 0 <= j < i ==> !Mentions(vt, desc, known[j]))
      && (r !in known ==> r == Take(vt, TypeDisplayLength) && r <= vt)
  {
    var r, vt, desc := Classify(known, v), TypeField(v), Get(v, "description", "");
    match FirstMention(known, vt, desc)
    case Some(k) =>
      assert r == known[k];
    case None =>
      assert r == Take(vt, TypeDisplayLength);
      PrefixMentioned(vt, r);
      assert Mentions(vt, desc, r);
  }
}
