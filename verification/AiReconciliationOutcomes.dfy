/** What the auditor reports, issue by issue: each one exactly when the fields of its row say so, in row order. */
module AiReconciliationOutcomes {
  import opened Common
  import opened AiRecords
  import opened AiReconciliation

  predicate HasText(s: string) {
    exists i :: 0 <= i < |s| && !White(s[i])
  }

  predicate Given(s: Option<string>) {
    s != None && HasText(s.value)
  }

  /** A count that JavaScript represents exactly. */
  predicate Counts(n: Option<int>) {
    n != None && 0 <= n.value && n.value <= 9007199254740991
  }

  /** What is wrong with one row. */
  predicate Wrong(r: Row, repeated: bool, code: IssueCode) {
    if r.NotARecord? then code == RecordInvalid
    else
      var ended := r.status == Some(Failed) || r.status == Some(Rejected);
      var counted := Counts(r.input) && Counts(r.output) && Counts(r.total);
      match code
      case RecordInvalid =>
        !Given(r.requestId) || !Given(r.userId) || !Given(r.feature) || !Given(r.providerId) || !Given(r.modelId)
        || r.status == None
      case DuplicateRequestId => Given(r.requestId) && repeated
      case AttemptsInvalid => !Counts(r.attempts) || (r.attempts == Some(0)) != (r.status == Some(Rejected))
      case TokenCountInvalid => !counted
      case TokenTotalMismatch => counted && r.total.value != r.input.value + r.output.value
      case NonSuccessUsage => ended && (r.input != Some(0) || r.output != Some(0) || r.total != Some(0))
      case CostInvalid =>
        r.cost == NotFinite || (r.cost.Amount? && (r.cost.value < 0.0 || r.cost.value > 9007199254740991.0))
      case NonSuccessCost => ended && r.cost != NoCost
      case OccurredAtInvalid => !r.dated
      case ErrorCodeOnSuccess => r.status == Some(Succeeded) && r.errorCode != Absent
      case ErrorCodeMissing => ended && !(r.errorCode.Text? && HasText(r.errorCode.value))
      case PolicyInvalid => false
      case RecordLimitExceeded => false
  }

  /** An earlier row has the same request id. */
  predicate Repeats(rows: seq<Row>, i: nat)
    requires i < |rows|
  {
    rows[i].Row? && exists j :: 0 <= j < i && rows[j].Row? && rows[j].requestId == rows[i].requestId
  }

  lemma TextIsNotBlank(s: string)
    ensures HasText(s) <==> !Blank(s)
  {
    if !Blank(s) {
      var c :| c in s && !White(c);
      var i :| 0 <= i < |s| && s[i] == c;
    }
  }

  lemma GivenIsPresent(s: Option<string>)
    ensures Given(s) <==> Present(s)
  {
    if s.Some? { TextIsNotBlank(s.value); }
  }

  lemma TextsOf(r: Row)
    requires r.Row?
    ensures Given(r.requestId) <==> Present(r.requestId)
    ensures Identified(r) <==>
            Given(r.userId) && Given(r.feature) && Given(r.providerId) && Given(r.modelId) && r.status != None
  {
    GivenIsPresent(r.requestId);
    GivenIsPresent(r.userId);
    GivenIsPresent(r.feature);
    GivenIsPresent(r.providerId);
    GivenIsPresent(r.modelId);
  }

  predicate Identity(code: IssueCode) {
    code == RecordInvalid || code == DuplicateRequestId || code == AttemptsInvalid
  }

  predicate Tokens(code: IssueCode) {
    code == TokenCountInvalid || code == TokenTotalMismatch || code == NonSuccessUsage
  }

  lemma IdentityAdds(issues: seq<Issue>, seen: set<string>, r: Row, i: nat, x: Issue)
    requires r.Row?
    ensures x in IdentityIssues(issues, seen, r, i) <==>
            x in issues
            || (x.index == Some(i) && Identity(x.code)
                && Wrong(r, r.requestId.Some? && r.requestId.value in seen, x.code))
  {
    TextsOf(r);
  }

  lemma TokensAdd(issues: seq<Issue>, r: Row, i: nat, repeated: bool, x: Issue)
    requires r.Row?
    ensures x in TokenIssues(issues, r, i) <==>
            x in issues || (x.index == Some(i) && Tokens(x.code) && Wrong(r, repeated, x.code))
  {}

  lemma OutcomeAdds(issues: seq<Issue>, r: Row, i: nat, repeated: bool, x: Issue)
    requires r.Row?
    ensures x in OutcomeIssues(issues, r, i) <==>
            x in issues || (x.index == Some(i) && !Identity(x.code) && !Tokens(x.code) && Wrong(r, repeated, x.code))
  {
    if r.errorCode.Text? { TextIsNotBlank(r.errorCode.value); }
  }

  lemma RowAdds(issues: seq<Issue>, seen: set<string>, r: Row, i: nat, x: Issue)
    ensures x in RowIssues(issues, seen, r, i) <==>
            x in issues
            || (x.index == Some(i)
                && Wrong(r, r.Row? && r.requestId.Some? && r.requestId.value in seen, x.code))
  {
    if r.Row? {
      var repeated := r.requestId.Some? && r.requestId.value in seen;
      var a := IdentityIssues(issues, seen, r, i);
      IdentityAdds(issues, seen, r, i, x);
      TokensAdd(a, r, i, repeated, x);
      OutcomeAdds(TokenIssues(a, r, i), r, i, repeated, x);
    }
  }

  /** Among texts, an identifier was seen exactly when an earlier row has it. */
  lemma SeenIsRepeated(rows: seq<Row>, i: nat)
    requires i < |rows| && rows[i].Row? && Given(rows[i].requestId)
    ensures rows[i].requestId.value in IdsOf(rows[..i]) <==> Repeats(rows, i)
  {
    var before, id := rows[..i], rows[i].requestId;
    IdsOfExactly(before);
    GivenIsPresent(id);
    if Repeats(rows, i) {
      var j :| 0 <= j < i && rows[j].Row? && rows[j].requestId == id;
      assert before[j] == rows[j] && before[j] in before;
    }
    if id.value in IdsOf(before) {
      var r :| r in before && r.Row? && Present(r.requestId) && r.requestId.value == id.value;
      var j :| 0 <= j < |before| && before[j] == r;
      assert rows[j] == r;
    }
  }

  lemma LastRowAdds(rows: seq<Row>, n: nat, x: Issue)
    requires n == |rows| - 1
    ensures x in AllIssues(rows) <==>
            x in AllIssues(rows[..n]) || (x.index == Some(n) && Wrong(rows[n], Repeats(rows, n), x.code))
  {
    RowAdds(AllIssues(rows[..n]), IdsOf(rows[..n]), rows[n], n, x);
    if rows[n].Row? && Given(rows[n].requestId) { SeenIsRepeated(rows, n); }
  }

  /** An issue is raised exactly for a row of the batch that has this wrong with it. */
  lemma {:induction false} IssuesExactly(rows: seq<Row>, x: Issue)
    ensures x in AllIssues(rows) <==>
            x.index.Some? && x.index.value < |rows|
            && Wrong(rows[x.index.value], Repeats(rows, x.index.value), x.code)
  {
    if rows != [] {
      var n := |rows| - 1;
      IssuesExactly(rows[..n], x);
      LastRowAdds(rows, n, x);
      if x.index.Some? && x.index.value < n { RepeatsAlready(rows, n, x.index.value); }
    }
  }

  lemma RepeatsAlready(rows: seq<Row>, n: nat, i: nat)
    requires i < n <= |rows|
    ensures Repeats(rows[..n], i) <==> Repeats(rows, i)
  {
    if Repeats(rows, i) {
      var j :| 0 <= j < i && rows[j].Row? && rows[j].requestId == rows[i].requestId;
      assert rows[..n][j] == rows[j];
    }
  }

  /** Issues are raised row by row. */
  predicate InRowOrder(issues: seq<Issue>) {
    forall i, j :: 0 <= i < j < |issues| && issues[i].index.Some? && issues[j].index.Some? ==>
      issues[i].index.value <= issues[j].index.value
  }

  predicate Extends(a: seq<Issue>, b: seq<Issue>, n: nat) {
    a <= b && forall k :: |a| <= k < |b| ==> b[k].index == Some(n)
  }

  lemma IdentityExtends(issues: seq<Issue>, seen: set<string>, r: Row, n: nat)
    requires r.Row?
    ensures Extends(issues, IdentityIssues(issues, seen, r, n), n)
  {}

  lemma TokensExtend(issues: seq<Issue>, r: Row, n: nat)
    requires r.Row?
    ensures Extends(issues, TokenIssues(issues, r, n), n)
  {}

  lemma OutcomeExtends(issues: seq<Issue>, r: Row, n: nat)
    requires r.Row?
    ensures Extends(issues, OutcomeIssues(issues, r, n), n)
  {}

  lemma ExtendsThrough(a: seq<Issue>, b: seq<Issue>, c: seq<Issue>, n: nat)
    requires Extends(a, b, n) && Extends(b, c, n)
    ensures Extends(a, c, n)
  {
    forall k | |a| <= k < |c| ensures c[k].index == Some(n) { if k < |b| { assert c[k] == b[k]; } }
  }

  lemma RowExtends(issues: seq<Issue>, seen: set<string>, r: Row, n: nat)
    ensures Extends(issues, RowIssues(issues, seen, r, n), n)
  {
    if r.Row? {
      var a := IdentityIssues(issues, seen, r, n);
      var b := TokenIssues(a, r, n);
      IdentityExtends(issues, seen, r, n);
      TokensExtend(a, r, n);
      OutcomeExtends(b, r, n);
      ExtendsThrough(issues, a, b, n);
      ExtendsThrough(issues, b, OutcomeIssues(b, r, n), n);
    }
  }

  lemma {:induction false} IssuesInOrder(rows: seq<Row>)
    ensures InRowOrder(AllIssues(rows))
  {
    if rows != [] {
      var before, n := rows[..|rows| - 1], |rows| - 1;
      IssuesInOrder(before);
      RowExtends(AllIssues(before), IdsOf(before), rows[n], n);
      forall k | 0 <= k < |AllIssues(before)| && AllIssues(before)[k].index.Some?
        ensures AllIssues(before)[k].index.value < n
      {
        IssuesExactly(before, AllIssues(before)[k]);
      }
    }
  }

  /** A batch passes exactly when there is nothing wrong with any of its rows. */
  lemma PassesExactly(rows: seq<Row>, maxRecords: int)
    ensures Passes(rows, maxRecords) <==>
            1 <= maxRecords <= 1000 && |rows| <= maxRecords
            && forall i, code :: 0 <= i < |rows| ==> !Wrong(rows[i], Repeats(rows, i), code)
  {
    NoIssuesExactlyWhenClean(rows);
    if AllIssues(rows) == [] {
      forall i, code | 0 <= i < |rows| ensures !Wrong(rows[i], Repeats(rows, i), code) {
        IssuesExactly(rows, Issue(Some(i), code));
      }
    } else {
      IssuesExactly(rows, AllIssues(rows)[0]);
      assert AllIssues(rows)[0] in AllIssues(rows);
    }
  }
}
