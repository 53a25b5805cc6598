/** The condition message is a faithful record: it can be read back. */
module ConditionMessage {
  import opened Api
  import opened Verdicts

  /** The CRD pattern for result names: an upper-case letter, then letters and digits. */
  predicate IsLetterOrDigit(c: char) {
    'A' <= c <= 'Z' || 'a' <= c <= 'z' || '0' <= c <= '9'
  }

  predicate ValidName(name: string) {
    |name| > 0 && 'A' <= name[0] <= 'Z' && forall i :: 0 <= i < |name| ==> IsLetterOrDigit(name[i])
  }

  ghost predicate ValidNames(results: seq<CheckResult>) {
    forall i :: 0 <= i < |results| ==> ValidName(results[i].name)
  }

  function Find(s: string, c: char): (i: nat)
    requires c in s
    ensures i < |s| && s[i] == c && c !in s[..i]
  {
    if s[0] == c then 0 else 1 + Find(s[1..], c)
  }

  lemma {:induction false} FindIs(s: string, c: char, k: nat)
    requires k < |s| && s[k] == c && c !in s[..k]
    ensures Find(s, c) == k
  {
    if k > 0 {
      assert s[..k][0] == s[0];
      assert s[1..][..k - 1] == s[..k][1..];
      FindIs(s[1..], c, k - 1);
    }
  }

  function Split(s: string): seq<string>
    decreases |s|
  {
    if '\n' in s then
      var i := Find(s, '\n');
      [s[..i]] + Split(s[i + 1..])
    else [s]
  }

  lemma {:induction false} SplitJoin(lines: seq<string>)
    requires |lines| > 0
    requires forall i :: 0 <= i < |lines| ==> '\n' !in lines[i]
    ensures Split(Join(lines)) == lines
  {
    if |lines| > 1 {
      var s := Join(lines);
      var rest := Join(lines[1..]);
      assert s == lines[0] + ("\n" + rest);
      var i := |lines[0]|;
      assert s[..i] == lines[0] && s[i] == '\n';
      FindIs(s, '\n', i);
      assert s[..i] == lines[0] && s[i + 1..] == rest;
      SplitJoin(lines[1..]);
    }
  }

  /** One line of a message, as a reader of the Node object understands it. */
  datatype Entry = Reported(name: string, status: CheckStatus) | NotReported(name: string) | Unreadable

  function ReadSuffix(name: string, rest: string): Entry {
    if rest == ": Healthy" then Reported(name, Healthy)
    else if rest == ": Unhealthy" then Reported(name, Unhealthy)
    else if rest == ": Unknown" then Reported(name, Unknown)
    else if rest == ": Missing" then NotReported(name)
    else Unreadable
  }

  function ReadLine(line: string): Entry {
    if ':' !in line then Unreadable
    else
      var i := Find(line, ':');
      ReadSuffix(line[..i], line[i..])
  }

  function ReadMessage(message: string): seq<Entry> {
    var lines := Split(message);
    seq(|lines|, i requires 0 <= i < |lines| => ReadLine(lines[i]))
  }

  /** What the message is meant to say. */
  function ReportedEntries(results: seq<CheckResult>): seq<Entry> {
    seq(|results|, i requires 0 <= i < |results| => Reported(results[i].name, results[i].status))
  }

  function MissingEntries(names: seq<string>): seq<Entry> {
    seq(|names|, i requires 0 <= i < |names| => NotReported(names[i]))
  }

  lemma FindAfterName(name: string, rest: string)
    requires ValidName(name) && |rest| > 0 && rest[0] == ':'
    ensures ':' in name + rest
    ensures Find(name + rest, ':') == |name|
  {
    var line := name + rest;
    assert line[..|name|] == name && line[|name|] == ':';
    FindIs(line, ':', |name|);
  }

  lemma ReadStatusSuffix(name: string, status: CheckStatus)
    ensures ReadSuffix(name, ": " + StatusText(status)) == Reported(name, status)
    ensures '\n' !in ": " + StatusText(status)
  {
    match status
    case Healthy =>
      assert ": " + StatusText(status) == ": Healthy";
    case Unhealthy =>
      assert ": " + StatusText(status) == ": Unhealthy";
    case Unknown =>
      assert ": " + StatusText(status) == ": Unknown";
      assert ": Unknown"[2] != ": Healthy"[2];
  }

  lemma ReadResultLine(r: CheckResult)
    requires ValidName(r.name)
    ensures ReadLine(ResultLine(r)) == Reported(r.name, r.status)
    ensures '\n' !in ResultLine(r)
  {
    var rest := ": " + StatusText(r.status);
    assert ResultLine(r) == r.name + rest;
    FindAfterName(r.name, rest);
    ReadStatusSuffix(r.name, r.status);
    assert (r.name + rest)[..|r.name|] == r.name && (r.name + rest)[|r.name|..] == rest;
  }

  lemma ReadMissingLine(name: string)
    requires ValidName(name)
    ensures ReadLine(MissingLine(name)) == NotReported(name)
    ensures '\n' !in MissingLine(name)
  {
    var rest := ": Missing";
    FindAfterName(name, rest);
    assert (name + rest)[..|name|] == name && (name + rest)[|name|..] == rest;
    assert '\n' !in rest;
  }

  lemma MissingNamesValid(results: seq<CheckResult>)
    ensures forall name :: name in Missing(results) ==> ValidName(name)
    ensures results == [] ==> Missing(results) == REQUIRED_RESULTS
  {
    forall name | name in Missing(results) ensures ValidName(name) {
      MissingFromMembers(REQUIRED_RESULTS, results, name);
    }
    if results == [] {
      assert REQUIRED_RESULTS[1..] == [POD_NETWORK];
      assert REQUIRED_RESULTS[1..][1..] == [];
      assert !HasResult(results, POD_STARTUP) && !HasResult(results, POD_NETWORK);
      assert MissingFrom(REQUIRED_RESULTS[1..], results) == [POD_NETWORK];
    }
  }

  /** Splitting the message on newlines gives back every result in order, then exactly the
      required names that no result carries. */
  lemma MessageReadsBack(results: seq<CheckResult>)
    requires ValidNames(results)
    ensures ReadMessage(Message(results)) == ReportedEntries(results) + MissingEntries(Missing(results))
  {
    var missing := Missing(results);
    var lines := ResultLines(results) + MissingLines(missing);
    LinesReadBack(results, missing);
    SplitJoin(lines);
    assert ReadMessage(Join(lines)) == ReportedEntries(results) + MissingEntries(missing);
  }

  lemma LinesReadBack(results: seq<CheckResult>, missing: seq<string>)
    requires ValidNames(results) && missing == Missing(results)
    ensures var lines := ResultLines(results) + MissingLines(missing);
            var entries := ReportedEntries(results) + MissingEntries(missing);
            && |lines| == |entries| > 0
            && forall i :: 0 <= i < |lines| ==> '\n' !in lines[i] && ReadLine(lines[i]) == entries[i]
  {
    MissingNamesValid(results);
    forall i | 0 <= i < |results|
      ensures '\n' !in ResultLines(results)[i] && ReadLine(ResultLines(results)[i]) == ReportedEntries(results)[i]
    {
      ReadResultLine(results[i]);
    }
    forall i | 0 <= i < |missing|
      ensures '\n' !in MissingLines(missing)[i] && ReadLine(MissingLines(missing)[i]) == MissingEntries(missing)[i]
    {
      assert missing[i] in missing;
      ReadMissingLine(missing[i]);
    }
  }

  lemma MissingDependsOnNames(required: seq<string>, a: seq<CheckResult>, b: seq<CheckResult>)
    requires Names(a) == Names(b)
    ensures MissingFrom(required, a) == MissingFrom(required, b)
  {
    if required != [] {
      assert |a| == |Names(a)| == |b|;
      assert forall i :: 0 <= i < |a| ==> a[i].name == Names(a)[i] == Names(b)[i] == b[i].name;
      assert HasResult(a, required[0]) <==> HasResult(b, required[0]);
      MissingDependsOnNames(required[1..], a, b);
    }
  }

  lemma EntriesDetermine(a: seq<CheckResult>, b: seq<CheckResult>)
    requires ReportedEntries(a) == ReportedEntries(b)
    ensures Message(a) == Message(b) && Verdict(a) == Verdict(b)
  {
    assert |a| == |ReportedEntries(a)| == |b|;
    forall i | 0 <= i < |a| ensures a[i].name == b[i].name && a[i].status == b[i].status {
      assert ReportedEntries(a)[i] == ReportedEntries(b)[i];
    }
    assert Names(a) == Names(b);
    MissingDependsOnNames(REQUIRED_RESULTS, a, b);
    assert ResultLines(a) == ResultLines(b);
    SameVerdictPart(a, b);
    SameVerdictPart(b, a);
  }

  lemma SameVerdictPart(a: seq<CheckResult>, b: seq<CheckResult>)
    requires |a| == |b|
    requires forall i :: 0 <= i < |a| ==> a[i].name == b[i].name && a[i].status == b[i].status
    ensures forall status :: AnyWith(a, status) ==> AnyWith(b, status)
    ensures forall name :: HasResult(a, name) ==> HasResult(b, name)
    ensures AllHealthy(a) ==> AllHealthy(b)
  {
    forall r | r in a ensures exists q :: q in b && q.name == r.name && q.status == r.status {
      var i :| 0 <= i < |a| && a[i] == r;
      assert b[i] in b;
    }
  }

  /** Two result lists give the same message exactly when they agree on names and statuses, in
      order; in particular the message also determines the verdict. */
  lemma MessageInjective(a: seq<CheckResult>, b: seq<CheckResult>)
    requires ValidNames(a) && ValidNames(b)
    ensures Message(a) == Message(b) <==> ReportedEntries(a) == ReportedEntries(b)
    ensures Message(a) == Message(b) ==> Verdict(a) == Verdict(b)
  {
    if Message(a) == Message(b) {
      MessageReadsBack(a);
      MessageReadsBack(b);
      SplitEntries(ReportedEntries(a), MissingEntries(Missing(a)), ReportedEntries(b), MissingEntries(Missing(b)));
    }
    if ReportedEntries(a) == ReportedEntries(b) {
      EntriesDetermine(a, b);
    }
  }

  lemma SplitEntries(x1: seq<Entry>, y1: seq<Entry>, x2: seq<Entry>, y2: seq<Entry>)
    requires forall e :: e in x1 || e in x2 ==> e.Reported?
    requires forall e :: e in y1 || e in y2 ==> e.NotReported?
    requires x1 + y1 == x2 + y2
    ensures x1 == x2
  {
    Boundary(x1, y1);
    Boundary(x2, y2);
    var z := x1 + y1;
    var m := if |x1| < |x2| then |x1| else |x2|;
    if m < |z| {
      assert z[m].Reported? <==> m < |x1|;
      assert z[m].Reported? <==> m < |x2|;
    }
    assert z[..|x1|] == x1 && z[..|x2|] == x2;
  }

  lemma Boundary(x: seq<Entry>, y: seq<Entry>)
    requires forall e :: e in x ==> e.Reported?
    requires forall e :: e in y ==> e.NotReported?
    ensures forall i :: 0 <= i < |x + y| ==> ((x + y)[i].Reported? <==> i < |x|)
  {
    forall i | 0 <= i < |x + y| ensures (x + y)[i].Reported? <==> i < |x| {
      assert (x + y)[i] in (if i < |x| then x else y);
    }
  }
}
