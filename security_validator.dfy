/** The data checks run before a dataset is stored: unexpected fields, nulls, out-of-range numbers, and
    values that mention a password. */
module SecurityValidator {
  import opened Wrappers
  import opened Json
  import Numeric
  import Text
  import AuditLog
  import Seqs

  /** A dataset row: its fields in insertion order. */
  type Row = seq<(string, Json)>

  /** ValidationIssue. */
  datatype Issue = Issue(message: string, severity: string)

  const Limit: real := 1000000.0

  /** The keys of a row. */
  function Keys(row: Row): (ks: set<string>)
    ensures forall j :: 0 <= j < |row| ==> row[j].0 in ks
    ensures forall k :: k in ks ==> exists j :: 0 <= j < |row| && row[j].0 == k
  {
    set j | 0 <= j < |row| :: row[j].0
  }

  /** `if self.allowed_fields`: a non-empty allow-list. */
  predicate Restricted(allowed: Option<seq<string>>) {
    allowed.Some? && allowed.value != []
  }

  /** The fields outside the allow-list. */
  function Extra(row: Row, allowed: seq<string>): (e: set<string>)
    ensures forall k :: k in e <==> k in Keys(row) && k !in allowed
  {
    Keys(row) - set a | a in allowed
  }

  /** `isinstance(value, (int, float)) and abs(value) > 1e6`; a bool's magnitude is at most 1. */
  predicate OutOfRange(v: Json) {
    (v.JInt? && Numeric.Abs(v.i as real) > Limit) || (v.JNum? && Numeric.Abs(v.r) > Limit)
  }

  /** The issues one field raises: a warning for None, an error for a number out of range. */
  function FieldIssues(idx: nat, key: string, v: Json): (r: seq<Issue>)
    ensures |r| <= 1
  {
    var row := "Row " + Text.IntToString(idx) + ", field " + key;
    (if v.JNull? then [Issue(row + ": null value", "warning")] else [])
      + (if OutOfRange(v) then [Issue(row + ": value out of range", "error")] else [])
  }

  /** The issues of a row's fields, in field order. */
  function FieldsIssues(idx: nat, fields: Row): seq<Issue>
    decreases |fields|
  {
    if fields == [] then []
    else
      var n := |fields| - 1;
      FieldsIssues(idx, fields[..n]) + FieldIssues(idx, fields[n].0, fields[n].1)
  }

  /** The one error for a row with fields outside a non-empty allow-list; `setRepr` is Python's repr of
      the set of those fields. */
  function ExtraIssues(idx: nat, row: Row, allowed: Option<seq<string>>, setRepr: set<string> -> string): (r: seq<Issue>)
    ensures |r| <= 1
    ensures r != [] <==> Restricted(allowed) && Extra(row, allowed.value) != {}
    ensures r != [] ==> r[0].severity == "error"
  {
    if Restricted(allowed) && Extra(row, allowed.value) != {} then
      [Issue("Row " + Text.IntToString(idx) + ": unexpected fields " + setRepr(Extra(row, allowed.value)), "error")]
    else []
  }

  function RowIssues(idx: nat, row: Row, allowed: Option<seq<string>>, setRepr: set<string> -> string): seq<Issue> {
    ExtraIssues(idx, row, allowed, setRepr) + FieldsIssues(idx, row)
  }

  /** validate_dataset as a specification: the rows' issues in row order. */
  function DatasetIssues(dataset: seq<Row>, allowed: Option<seq<string>>, setRepr: set<string> -> string): seq<Issue>
    decreases |dataset|
  {
    if dataset == [] then []
    else
      var n := |dataset| - 1;
      DatasetIssues(dataset[..n], allowed, setRepr) + RowIssues(n, dataset[n], allowed, setRepr)
  }

  /** The number of issues of a severity. */
  function Count(issues: seq<Issue>, severity: string): (n: nat)
    ensures n <= |issues|
    decreases |issues|
  {
    if issues == [] then 0
    else Count(issues[..|issues| - 1], severity) + (if issues[|issues| - 1].severity == severity then 1 else 0)
  }

  lemma {:induction false} CountAppend(a: seq<Issue>, b: seq<Issue>, severity: string)
    ensures Count(a + b, severity) == Count(a, severity) + Count(b, severity)
    decreases |b|
  {
    if b != [] {
      var n := |b| - 1;
      assert (a + b)[..|a + b| - 1] == a + b[..n];
      assert (a + b)[|a + b| - 1] == b[n];
      CountAppend(a, b[..n], severity);
    } else {
      assert a + b == a;
    }
  }

  /** The fields of a row holding None. */
  function Nulls(fields: Row): nat
    decreases |fields|
  {
    if fields == [] then 0 else Nulls(fields[..|fields| - 1]) + (if fields[|fields| - 1].1.JNull? then 1 else 0)
  }

  /** The fields of a row holding a number out of range. */
  function Large(fields: Row): nat
    decreases |fields|
  {
    if fields == [] then 0 else Large(fields[..|fields| - 1]) + (if OutOfRange(fields[|fields| - 1].1) then 1 else 0)
  }

  /** Each None gives one warning and each number out of range one error, and nothing else. */
  lemma {:induction false} FieldsIssuesCount(idx: nat, fields: Row)
    ensures Count(FieldsIssues(idx, fields), "warning") == Nulls(fields)
    ensures Count(FieldsIssues(idx, fields), "error") == Large(fields)
    ensures |FieldsIssues(idx, fields)| == Nulls(fields) + Large(fields)
    decreases |fields|
  {
    if fields != [] {
      var n := |fields| - 1;
      FieldsIssuesCount(idx, fields[..n]);
      var f := FieldIssues(idx, fields[n].0, fields[n].1);
      CountAppend(FieldsIssues(idx, fields[..n]), f, "warning");
      CountAppend(FieldsIssues(idx, fields[..n]), f, "error");
      var row := "Row " + Text.IntToString(idx) + ", field " + fields[n].0;
      var w := if fields[n].1.JNull? then [Issue(row + ": null value", "warning")] else [];
      var e := if OutOfRange(fields[n].1) then [Issue(row + ": value out of range", "error")] else [];
      CountAppend(w, e, "warning");
      CountAppend(w, e, "error");
      assert f == w + e;
      assert Count(w, "warning") == |w| && Count(e, "error") == |e|;
      assert Count(w, "error") == 0 && Count(e, "warning") == 0;
    }
  }

  /** Per row: one error for unexpected fields (only with a non-empty allow-list), one warning per None,
      one error per number out of range. */
  lemma RowIssuesCount(idx: nat, row: Row, allowed: Option<seq<string>>, setRepr: set<string> -> string)
    ensures Count(RowIssues(idx, row, allowed, setRepr), "warning") == Nulls(row)
    ensures Count(RowIssues(idx, row, allowed, setRepr), "error")
      == (if Restricted(allowed) && Extra(row, allowed.value) != {} then 1 else 0) + Large(row)
  {
    var x := ExtraIssues(idx, row, allowed, setRepr);
    FieldsIssuesCount(idx, row);
    CountAppend(x, FieldsIssues(idx, row), "warning");
    CountAppend(x, FieldsIssues(idx, row), "error");
    if x != [] {
      CountOne(x[0], "warning");
      CountOne(x[0], "error");
      assert x == [x[0]];
    }
  }

  lemma CountOne(i: Issue, severity: string)
    ensures Count([i], severity) == if i.severity == severity then 1 else 0
  {
    assert [i][..0] == [];
  }

  /** The rows' expected warnings and errors, summed. */
  function Expected(dataset: seq<Row>, allowed: Option<seq<string>>): (r: (nat, nat))
    decreases |dataset|
  {
    if dataset == [] then (0, 0)
    else
      var n := |dataset| - 1;
      var row := dataset[n];
      var p := Expected(dataset[..n], allowed);
      (p.0 + Nulls(row), p.1 + (if Restricted(allowed) && Extra(row, allowed.value) != {} then 1 else 0) + Large(row))
  }

  /** Over a dataset: as many warnings as None values, as many errors as rows with unexpected fields plus
      numbers out of range. */
  lemma {:induction false} DatasetIssuesCount(dataset: seq<Row>, allowed: Option<seq<string>>, setRepr: set<string> -> string)
    ensures Count(DatasetIssues(dataset, allowed, setRepr), "warning") == Expected(dataset, allowed).0
    ensures Count(DatasetIssues(dataset, allowed, setRepr), "error") == Expected(dataset, allowed).1
    decreases |dataset|
  {
    if dataset != [] {
      var n := |dataset| - 1;
      DatasetIssuesCount(dataset[..n], allowed, setRepr);
      RowIssuesCount(n, dataset[n], allowed, setRepr);
      CountAppend(DatasetIssues(dataset[..n], allowed, setRepr), RowIssues(n, dataset[n], allowed, setRepr), "warning");
      CountAppend(DatasetIssues(dataset[..n], allowed, setRepr), RowIssues(n, dataset[n], allowed, setRepr), "error");
    }
  }

  /** Without a non-empty allow-list no row is reported for its field names. */
  lemma {:induction false} UnrestrictedNoFieldErrors(dataset: seq<Row>, allowed: Option<seq<string>>)
    requires !Restricted(allowed)
    ensures Expected(dataset, allowed).1 == Expected(dataset, None).1
    decreases |dataset|
  {
    if dataset != [] {
      UnrestrictedNoFieldErrors(dataset[..|dataset| - 1], allowed);
    }
  }

  /** validate_dataset: each row's issues in row order, the fields in their order. */
  method ValidateDataset(allowed: Option<seq<string>>, dataset: seq<Row>, setRepr: set<string> -> string)
    returns (issues: seq<Issue>)
    ensures issues == DatasetIssues(dataset, allowed, setRepr)
  {
    issues := [];
    for idx := 0 to |dataset|
      invariant issues == DatasetIssues(dataset[..idx], allowed, setRepr)
    {
      var row := dataset[idx];
      var extra: seq<Issue> := [];
      if Restricted(allowed) {
        var fields := Extra(row, allowed.value);
        if fields != {} {
          extra := [Issue("Row " + Text.IntToString(idx) + ": unexpected fields " + setRepr(fields), "error")];
        }
      }
      var found := CheckFields(idx, row);
      DatasetIssuesStep(dataset, idx, allowed, setRepr);
      issues := issues + extra + found;
    }
    assert dataset[..|dataset|] == dataset;
  }

  lemma DatasetIssuesStep(dataset: seq<Row>, idx: nat, allowed: Option<seq<string>>, setRepr: set<string> -> string)
    requires idx < |dataset|
    ensures DatasetIssues(dataset[..idx + 1], allowed, setRepr)
      == DatasetIssues(dataset[..idx], allowed, setRepr) + ExtraIssues(idx, dataset[idx], allowed, setRepr)
         + FieldsIssues(idx, dataset[idx])
  {
    var pre := dataset[..idx + 1];
    assert pre[..idx] == dataset[..idx];
    Seqs.AppendAssoc(DatasetIssues(dataset[..idx], allowed, setRepr), ExtraIssues(idx, dataset[idx], allowed, setRepr),
                     FieldsIssues(idx, dataset[idx]));
  }

  /** The inner loop of validate_dataset over one row's fields. */
  method CheckFields(idx: nat, row: Row) returns (issues: seq<Issue>)
    ensures issues == FieldsIssues(idx, row)
  {
    issues := [];
    for j := 0 to |row|
      invariant issues == FieldsIssues(idx, row[..j])
    {
      var (key, value) := row[j];
      assert row[..j + 1][..j] == row[..j];
      if value.JNull? {
        issues := issues + [Issue("Row " + Text.IntToString(idx) + ", field " + key + ": null value", "warning")];
      }
      if OutOfRange(value) {
        issues := issues + [Issue("Row " + Text.IntToString(idx) + ", field " + key + ": value out of range", "error")];
      }
    }
    assert row[..|row|] == row;
  }

  /** ASCII lower-casing; for the word "password" it agrees with str.lower. */
  function Lower(s: string): (r: string)
    ensures |r| == |s|
    ensures forall i :: 0 <= i < |s| ==> r[i] == if 'A' <= s[i] <= 'Z' then (s[i] as int + 32) as char else s[i]
  {
    if s == [] then [] else [if 'A' <= s[0] <= 'Z' then (s[0] as int + 32) as char else s[0]] + Lower(s[1..])
  }

  /** t occurs in s at position i. */
  predicate At(s: string, t: string, i: nat) {
    i + |t| <= |s| && s[i..i + |t|] == t
  }

  /** `t in s` for strings. */
  function Contains(s: string, t: string): (b: bool)
    ensures b <==> exists i: nat :: At(s, t, i)
    decreases |s|
  {
    if |s| < |t| then false
    else if s[..|t|] == t then
      assert At(s, t, 0);
      true
    else
      var rest := Contains(s[1..], t);
      assert !At(s, t, 0);
      assert forall i: nat :: At(s, t, i + 1) <==> At(s[1..], t, i) by {
        forall i: nat
          ensures At(s, t, i + 1) <==> At(s[1..], t, i)
        {
          if i + 1 + |t| <= |s| {
            var u, w := s[i + 1..i + 1 + |t|], s[1..][i..i + |t|];
            assert |u| == |w| && forall k :: 0 <= k < |u| ==> u[k] == w[k];
          }
        }
      }
      assert forall i: nat :: At(s, t, i) ==> i == 0 || At(s[1..], t, i - 1);
      rest
  }

  /** A value check_compliance objects to. */
  predicate Flagged(v: Json) {
    v.JStr? && Contains(Lower(v.s), "password")
  }

  /** check_compliance: False as soon as a row has a flagged value. */
  function Compliant(dataset: seq<Row>): (b: bool)
    ensures b <==> forall i, j :: 0 <= i < |dataset| && 0 <= j < |dataset[i]| ==> !Flagged(dataset[i][j].1)
  {
    if dataset == [] then true
    else
      var rest := Compliant(dataset[1..]);
      assert forall i :: 1 <= i < |dataset| ==> dataset[1..][i - 1] == dataset[i];
      (forall j :: 0 <= j < |dataset[0]| ==> !Flagged(dataset[0][j].1)) && rest
  }

  /** The check ignores case: a value and its lower-cased form are flagged alike. */
  lemma FlaggedIgnoresCase(s: string)
    ensures Flagged(JStr(s)) <==> Flagged(JStr(Lower(s)))
  {
    var l := Lower(s);
    forall i | 0 <= i < |l|
      ensures Lower(l)[i] == l[i]
    {
      assert !('A' <= l[i] <= 'Z');
    }
    assert Lower(l) == l;
  }

  /** The payload of one issue in the report. */
  function IssueJson(i: Issue): Json {
    JObj(map["message" := JStr(i.message), "severity" := JStr(i.severity)])
  }

  /** The dict audit_report returns. */
  function ReportJson(issues: seq<Issue>, compliant: bool): (r: map<string, Json>)
    ensures r.Keys == {"issues", "compliant"} && r["compliant"] == JBool(compliant)
    ensures r["issues"].JArr? && |r["issues"].a| == |issues|
    ensures forall i :: 0 <= i < |issues| ==> r["issues"].a[i] == IssueJson(issues[i])
  {
    map["issues" := JArr(seq(|issues|, i requires 0 <= i < |issues| => IssueJson(issues[i]))),
        "compliant" := JBool(compliant)]
  }

  function AuditEntry(report: map<string, Json>, sessionId: Option<string>): AuditLog.Entry {
    map["module" := JStr("qai.security"), "event" := JStr("validation_complete"),
        "session_id" := (if sessionId.Some? then JStr(sessionId.value) else JNull), "report" := JObj(report)]
  }

  /** audit_report: the issues and the compliance verdict, logged only when an audit log is given. */
  method AuditReport(allowed: Option<seq<string>>, dataset: seq<Row>, setRepr: set<string> -> string,
                     audit: AuditLog.AuditFile?, sessionId: Option<string>, hmacKey: Option<string>, env: AuditLog.Env)
    returns (report: map<string, Json>)
    modifies audit
    ensures report == ReportJson(DatasetIssues(dataset, allowed, setRepr), Compliant(dataset))
    ensures audit != null ==>
      audit.lines == old(audit.lines) + AuditLog.Written(AuditEntry(report, sessionId), sessionId, hmacKey, env)
  {
    var issues := ValidateDataset(allowed, dataset, setRepr);
    var compliant := Compliant(dataset);
    report := ReportJson(issues, compliant);
    if audit != null {
      var _, _ := audit.AppendSigned(AuditEntry(report, sessionId), sessionId, hmacKey, env);
    }
  }
}
