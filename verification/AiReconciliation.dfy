/** The auditor of usage records. It reads untyped rows, so every field may also be malformed. */
module AiReconciliation {
  import opened Common
  import opened AiRecords

  const MAX_RECORDS := 1000
  const MAX_REPORTED_ISSUES := 100

  datatype Cost = NoCost | Amount(value: real) | NotFinite
  datatype ErrorCode = Absent | Text(value: string) | NotText

  /** `None` is a value of the wrong type: not a string, not an integer, not a known status. */
  datatype Row =
    | NotARecord
    | Row(requestId: Option<string>, userId: Option<string>, feature: Option<string>, providerId: Option<string>,
          modelId: Option<string>, attempts: Option<int>, status: Option<Status>, input: Option<int>,
          output: Option<int>, total: Option<int>, cost: Cost, dated: bool, errorCode: ErrorCode)

  datatype IssueCode =
    | PolicyInvalid | RecordLimitExceeded | RecordInvalid | DuplicateRequestId | AttemptsInvalid | TokenCountInvalid
    | TokenTotalMismatch | NonSuccessUsage | CostInvalid | NonSuccessCost | OccurredAtInvalid | ErrorCodeMissing
    | ErrorCodeOnSuccess

  datatype Issue = Issue(index: Option<nat>, code: IssueCode)
  datatype Report = Report(pass: bool, checked: nat, issues: seq<Issue>, truncated: bool)

  function MakeReport(checked: nat, issues: seq<Issue>, truncated: bool): Report {
    Report(issues == [] && !truncated, checked, issues, truncated)
  }

  predicate Present(s: Option<string>) {
    s.Some? && !Blank(s.value)
  }

  predicate Count(n: Option<int>) {
    n.Some? && 0 <= n.value <= MAX_SAFE_INTEGER
  }

  predicate Unsuccessful(r: Row)
    requires r.Row?
  {
    r.status == Some(Failed) || r.status == Some(Rejected)
  }

  predicate Identified(r: Row)
    requires r.Row?
  {
    Present(r.userId) && Present(r.feature) && Present(r.providerId) && Present(r.modelId) && r.status.Some?
  }

  predicate AttemptsValid(r: Row)
    requires r.Row?
  {
    Count(r.attempts) && if r.status == Some(Rejected) then r.attempts == Some(0) else r.attempts.value >= 1
  }

  predicate CostValid(c: Cost) {
    c.NoCost? || (c.Amount? && 0.0 <= c.value <= MAX_SAFE_INTEGER as real)
  }

  function Note(issues: seq<Issue>, found: bool, index: nat, code: IssueCode): seq<Issue> {
    if found then issues + [Issue(Some(index), code)] else issues
  }

  predicate TokensCounted(r: Row)
    requires r.Row?
  {
    Count(r.input) && Count(r.output) && Count(r.total)
  }

  function IdentityIssues(issues: seq<Issue>, seen: set<string>, r: Row, i: nat): seq<Issue>
    requires r.Row?
  {
    var a := Note(issues, !Present(r.requestId), i, RecordInvalid);
    var b := Note(a, Present(r.requestId) && r.requestId.value in seen, i, DuplicateRequestId);
    var c := Note(b, !Identified(r), i, RecordInvalid);
    Note(c, !AttemptsValid(r), i, AttemptsInvalid)
  }

  function TokenIssues(issues: seq<Issue>, r: Row, i: nat): seq<Issue>
    requires r.Row?
  {
    var a := Note(issues, !TokensCounted(r), i, TokenCountInvalid);
    var b := Note(a, TokensCounted(r) && r.total.value != r.input.value + r.output.value, i, TokenTotalMismatch);
    Note(b, Unsuccessful(r) && !(r.input == r.output == r.total == Some(0)), i, NonSuccessUsage)
  }

  function OutcomeIssues(issues: seq<Issue>, r: Row, i: nat): seq<Issue>
    requires r.Row?
  {
    var a := Note(issues, !CostValid(r.cost), i, CostInvalid);
    var b := Note(a, Unsuccessful(r) && r.cost != NoCost, i, NonSuccessCost);
    var c := Note(b, !r.dated, i, OccurredAtInvalid);
    var d := Note(c, r.status == Some(Succeeded) && r.errorCode != Absent, i, ErrorCodeOnSuccess);
    Note(d, Unsuccessful(r) && (!r.errorCode.Text? || Blank(r.errorCode.value)), i, ErrorCodeMissing)
  }

  /** The issues so far, followed by those of row `i`, in the order the auditor looks for them. */
  function RowIssues(issues: seq<Issue>, seen: set<string>, r: Row, i: nat): seq<Issue> {
    if r.NotARecord? then Note(issues, true, i, RecordInvalid)
    else OutcomeIssues(TokenIssues(IdentityIssues(issues, seen, r, i), r, i), r, i)
  }

  function Seen(seen: set<string>, r: Row): set<string> {
    if r.Row? && Present(r.requestId) then seen + {r.requestId.value} else seen
  }

  function IdsOf(rows: seq<Row>): set<string> {
    if rows == [] then {} else Seen(IdsOf(rows[..|rows| - 1]), rows[|rows| - 1])
  }

  /** Every issue in the batch, before the report is cut to its first hundred. */
  function AllIssues(rows: seq<Row>): seq<Issue> {
    if rows == [] then []
    else
      var before := rows[..|rows| - 1];
      RowIssues(AllIssues(before), IdsOf(before), rows[|rows| - 1], |before|)
  }

  predicate LimitValid(maxRecords: int) {
    1 <= maxRecords <= MAX_RECORDS
  }

  class Collector {
    var issues: seq<Issue>
    var truncated: bool
    ghost var all: seq<Issue>

    constructor ()
      ensures Valid() && all == []
    {
      issues, truncated, all := [], false, [];
    }

    ghost predicate Valid()
      reads this
    {
      issues == (if |all| > MAX_REPORTED_ISSUES then all[..MAX_REPORTED_ISSUES] else all)
      && truncated == (|all| > MAX_REPORTED_ISSUES)
    }

    method AddIssue(index: nat, code: IssueCode)
      requires Valid()
      modifies this
      ensures Valid() && all == Note(old(all), true, index, code)
    {
      all := all + [Issue(Some(index), code)];
      if |issues| < MAX_REPORTED_ISSUES {
        issues := issues + [Issue(Some(index), code)];
      } else {
        truncated := true;
      }
    }

    method InspectIdentity(r: Row, i: nat, seen: set<string>) returns (ids: set<string>)
      requires Valid() && r.Row?
      modifies this
      ensures Valid() && all == IdentityIssues(old(all), seen, r, i) && ids == Seen(seen, r)
    {
      ids := seen;
      if !Present(r.requestId) {
        AddIssue(i, RecordInvalid);
      } else if r.requestId.value in ids {
        AddIssue(i, DuplicateRequestId);
      } else {
        ids := ids + {r.requestId.value};
      }
      if !Identified(r) { AddIssue(i, RecordInvalid); }
      if !AttemptsValid(r) { AddIssue(i, AttemptsInvalid); }
    }

    method InspectTokens(r: Row, i: nat)
      requires Valid() && r.Row?
      modifies this
      ensures Valid() && all == TokenIssues(old(all), r, i)
    {
      if !TokensCounted(r) {
        AddIssue(i, TokenCountInvalid);
      } else if r.total.value != r.input.value + r.output.value {
        AddIssue(i, TokenTotalMismatch);
      }
      if Unsuccessful(r) && (r.input != Some(0) || r.output != Some(0) || r.total != Some(0)) {
        AddIssue(i, NonSuccessUsage);
      }
    }

    method InspectOutcome(r: Row, i: nat)
      requires Valid() && r.Row?
      modifies this
      ensures Valid() && all == OutcomeIssues(old(all), r, i)
    {
      if !CostValid(r.cost) { AddIssue(i, CostInvalid); }
      if Unsuccessful(r) && r.cost != NoCost { AddIssue(i, NonSuccessCost); }
      if !r.dated { AddIssue(i, OccurredAtInvalid); }
      if r.status == Some(Succeeded) && r.errorCode != Absent { AddIssue(i, ErrorCodeOnSuccess); }
      if Unsuccessful(r) && (!r.errorCode.Text? || Blank(r.errorCode.value)) { AddIssue(i, ErrorCodeMissing); }
    }

    method Inspect(r: Row, i: nat, seen: set<string>) returns (ids: set<string>)
      requires Valid()
      modifies this
      ensures Valid() && all == RowIssues(old(all), seen, r, i) && ids == Seen(seen, r)
    {
      if r.NotARecord? {
        AddIssue(i, RecordInvalid);
        return seen;
      }
      ids := InspectIdentity(r, i, seen);
      InspectTokens(r, i);
      InspectOutcome(r, i);
    }
  }

  // ---------------------------------------------------------------- what a clean batch is

  /** A row the auditor can have nothing to say about, whatever stands around it. */
  predicate Clean(r: Row) {
    r.Row? && Present(r.requestId) && Identified(r) && AttemptsValid(r) && Count(r.input) && Count(r.output)
    && r.total == Some(r.input.value + r.output.value) && Count(r.total) && CostValid(r.cost) && r.dated
    && (r.status == Some(Succeeded) ==> r.errorCode == Absent)
    && (Unsuccessful(r) ==>
          r.total == Some(0) && r.cost == NoCost && r.errorCode.Text? && !Blank(r.errorCode.value))
  }

  predicate DistinctIds(rows: seq<Row>) {
    forall i, j :: 0 <= i < j < |rows| && rows[i].Row? && rows[j].Row? && Present(rows[i].requestId)
                   ==> rows[i].requestId != rows[j].requestId
  }

  predicate Passes(rows: seq<Row>, maxRecords: int) {
    LimitValid(maxRecords) && |rows| <= maxRecords && (forall r :: r in rows ==> Clean(r)) && DistinctIds(rows)
  }

  lemma RowIssuesGrow(issues: seq<Issue>, seen: set<string>, r: Row, i: nat)
    ensures |RowIssues(issues, seen, r, i)| >= |issues|
    ensures |RowIssues(issues, seen, r, i)| == |issues| <==> Clean(r) && r.requestId.value !in seen
  {}

  lemma {:induction false} IdsOfExactly(rows: seq<Row>)
    ensures forall s :: s in IdsOf(rows) <==>
                        exists r :: r in rows && r.Row? && Present(r.requestId) && r.requestId.value == s
  {
    if rows != [] {
      var before, last := rows[..|rows| - 1], rows[|rows| - 1];
      IdsOfExactly(before);
      assert rows == before + [last];
      forall r ensures r in rows <==> r in before || r == last {}
    }
  }

  /** No issue at all exactly when every row is clean and no request id repeats. */
  lemma {:induction false} NoIssuesExactlyWhenClean(rows: seq<Row>)
    ensures AllIssues(rows) == [] <==> (forall r :: r in rows ==> Clean(r)) && DistinctIds(rows)
  {
    if rows != [] {
      var before, last := rows[..|rows| - 1], rows[|rows| - 1];
      NoIssuesExactlyWhenClean(before);
      RowIssuesGrow(AllIssues(before), IdsOf(before), last, |before|);
      IdsOfExactly(before);
      assert rows == before + [last];
      if AllIssues(rows) == [] {
        forall i, j | 0 <= i < j < |rows| && rows[i].Row? && rows[j].Row? && Present(rows[i].requestId)
          ensures rows[i].requestId != rows[j].requestId
        {
          if j < |before| { assert before[i] == rows[i] && before[j] == rows[j]; } else { assert rows[i] in before; }
        }
        forall r | r in rows ensures Clean(r) { assert r in before || r == last; }
      }
      if (forall r :: r in rows ==> Clean(r)) && DistinctIds(rows) {
        forall r | r in before ensures Clean(r) { assert r in rows; }
        assert DistinctIds(before) by {
          forall i, j | 0 <= i < j < |before| && before[i].Row? && before[j].Row? && Present(before[i].requestId)
            ensures before[i].requestId != before[j].requestId
          { assert rows[i] == before[i] && rows[j] == before[j]; }
        }
        assert last in rows;
      }
    }
  }

  /** The audit reports the first hundred issues, and passes exactly the clean batches within the limit. */
  method Reconcile(rows: seq<Row>, maxRecords: int) returns (report: Report)
    ensures report.pass <==> Passes(rows, maxRecords)
    ensures !LimitValid(maxRecords) ==> report == Report(false, 0, [Issue(None, PolicyInvalid)], false)
    ensures LimitValid(maxRecords) && |rows| > maxRecords ==>
              report == Report(false, 0, [Issue(None, RecordLimitExceeded)], false)
    ensures LimitValid(maxRecords) && |rows| <= maxRecords ==>
              report.checked == |rows| && report.issues <= AllIssues(rows)
              && |report.issues| == (if report.truncated then MAX_REPORTED_ISSUES else |AllIssues(rows)|)
              && (report.truncated <==> |AllIssues(rows)| > MAX_REPORTED_ISSUES)
  {
    if !LimitValid(maxRecords) {
      return MakeReport(0, [Issue(None, PolicyInvalid)], false);
    }
    if |rows| > maxRecords {
      return MakeReport(0, [Issue(None, RecordLimitExceeded)], false);
    }
    var collector := new Collector();
    var requestIds := {};
    for i := 0 to |rows|
      invariant collector.Valid() && fresh(collector)
      invariant collector.all == AllIssues(rows[..i]) && requestIds == IdsOf(rows[..i])
    {
      assert rows[..i + 1][..i] == rows[..i];
      requestIds := collector.Inspect(rows[i], i, requestIds);
    }
    assert rows[..|rows|] == rows;
    NoIssuesExactlyWhenClean(rows);
    report := MakeReport(|rows|, collector.issues, collector.truncated);
  }
}
