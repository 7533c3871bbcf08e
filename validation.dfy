/** The row-validation report: every row is fixed up and validated in turn;
    a row that validates contributes its object and notes, a row that is
    rejected contributes one issue per validation error. The validation
    errors of the `StructuredAction` model are the parameter `errors`: a
    dict is valid when it has none. */
module Validation {
  import opened Wrappers
  import opened Text
  import opened Values
  import Autofix

  /** One entry of `ValidationError.errors()`: the location parts as `str()`
      renders them (none when the entry has no location) and the message, if
      any. */
  datatype ErrorDetail = ErrorDetail(loc: seq<string>, msg: Option<string>)

  /** `ValidationIssue`. */
  datatype Issue = Issue(rowIndex: int, field: string, message: string, severity: string)

  /** `ValidationOutput`. */
  datatype Report = Report(objects: seq<Obj>, notesPerRow: seq<seq<Autofix.FixNote>>, issues: seq<Issue>)

  /** The issue field: the location joined with ".", or "unknown" where that
      is empty. */
  function IssueField(loc: seq<string>): (r: string)
    ensures r != []
    ensures r == "unknown" || r == Join(loc, ".")
    ensures Join(loc, ".") != [] ==> r == Join(loc, ".")
    ensures loc == [] ==> r == "unknown"
  {
    var joined := Join(loc, ".");
    if joined == [] then "unknown" else joined
  }

  /** The issue one validation error of row `i` becomes. */
  function IssueOf(i: int, e: ErrorDetail): Issue {
    Issue(i, IssueField(e.loc), e.msg.GetOr("Validation error"), "error")
  }

  /** The issues of a rejected row, one per error, in order. */
  function IssuesOf(i: int, errs: seq<ErrorDetail>): (r: seq<Issue>)
    ensures |r| == |errs|
    ensures forall j :: 0 <= j < |r| ==> r[j].rowIndex == i && r[j].severity == "error"
  {
    seq(|errs|, j requires 0 <= j < |errs| => IssueOf(i, errs[j]))
  }

  /** A validated row. */
  predicate Valid(errors: Obj -> seq<ErrorDetail>, f: Autofix.Fixing) {
    errors(f.data) == []
  }

  /** `validate_actions_report(items, ctx, strict)` with the fix-up as
      `prepare`; None where the fix-up of some row raises an error other than
      a validation error. */
  function ReportOf(items: seq<Obj>, prepare: Obj -> Option<Autofix.Fixing>, errors: Obj -> seq<ErrorDetail>)
    : (r: Option<Report>)
    ensures r.None? <==> exists i :: 0 <= i < |items| && prepare(items[i]).None?
    ensures r.Some? ==> |r.value.objects| == |r.value.notesPerRow| <= |items|
    ensures r.Some? ==> forall j :: 0 <= j < |r.value.issues| ==>
      0 <= r.value.issues[j].rowIndex < |items| && r.value.issues[j].severity == "error"
    ensures r.Some? ==> forall j, k :: 0 <= j < k < |r.value.issues| ==>
      r.value.issues[j].rowIndex <= r.value.issues[k].rowIndex
  {
    if items == [] then Some(Report([], [], []))
    else
      var init := items[..|items| - 1];
      assert forall i :: 0 <= i < |init| ==> init[i] == items[i];
      match ReportOf(init, prepare, errors)
      case None => None
      case Some(rep) =>
        match prepare(items[|items| - 1])
        case None => None
        case Some(f) =>
          if Valid(errors, f) then Some(Report(rep.objects + [f.data], rep.notesPerRow + [f.notes], rep.issues))
          else Some(Report(rep.objects, rep.notesPerRow, rep.issues + IssuesOf(|items| - 1, errors(f.data))))
  }

  /** Row `i` has an issue exactly when its fixed-up dict fails validation. */
  lemma {:induction false} IssueRows(items: seq<Obj>, prepare: Obj -> Option<Autofix.Fixing>,
                                     errors: Obj -> seq<ErrorDetail>, rep: Report, i: int)
    requires ReportOf(items, prepare, errors) == Some(rep)
    requires 0 <= i < |items|
    ensures prepare(items[i]).Some?
    ensures (exists j :: 0 <= j < |rep.issues| && rep.issues[j].rowIndex == i) <==> !Valid(errors, prepare(items[i]).value)
  {
    var init := items[..|items| - 1];
    ReportSnoc(items, prepare, errors, |items| - 1);
    assert items[..|items|] == items;
    var rep0 := ReportOf(init, prepare, errors).value;
    var f := prepare(items[|items| - 1]).value;
    var added := RowIssues(errors, f, |items| - 1);
    assert rep.issues == rep0.issues + added;
    HasRowAppend(rep0.issues, added, i);
    if i < |items| - 1 {
      IssueRows(init, prepare, errors, rep0, i);
      assert init[i] == items[i];
      assert !HasRow(added, i) by {
        assert forall j :: 0 <= j < |added| ==> added[j].rowIndex != i;
      }
    } else {
      assert !HasRow(rep0.issues, i) by {
        assert forall j :: 0 <= j < |rep0.issues| ==> rep0.issues[j].rowIndex < i;
      }
      if !Valid(errors, f) {
        assert added[0].rowIndex == i;
      }
    }
  }

  /** The issues a fixed-up row adds to the report: none when it validates. */
  function RowIssues(errors: Obj -> seq<ErrorDetail>, f: Autofix.Fixing, i: int): (r: seq<Issue>)
    ensures Valid(errors, f) <==> r == []
    ensures forall j :: 0 <= j < |r| ==> r[j].rowIndex == i
  {
    if Valid(errors, f) then [] else IssuesOf(i, errors(f.data))
  }

  /** Some issue is about row `i`. */
  predicate HasRow(issues: seq<Issue>, i: int) {
    exists j :: 0 <= j < |issues| && issues[j].rowIndex == i
  }

  lemma HasRowAppend(a: seq<Issue>, b: seq<Issue>, i: int)
    ensures HasRow(a + b, i) <==> HasRow(a, i) || HasRow(b, i)
  {
    if HasRow(a + b, i) {
      var j :| 0 <= j < |a + b| && (a + b)[j].rowIndex == i;
      if j >= |a| {
        assert b[j - |a|].rowIndex == i;
      }
    }
    if HasRow(a, i) {
      var j :| 0 <= j < |a| && a[j].rowIndex == i;
      assert (a + b)[j] == a[j];
    }
    if HasRow(b, i) {
      var j :| 0 <= j < |b| && b[j].rowIndex == i;
      assert (a + b)[|a| + j] == b[j];
    }
  }

  /** The per-row fix-up followed by validation: `validate_and_autofix_action`
      with `errors` deciding validity. */
  function Fix(prepare: Obj -> Option<Autofix.Fixing>, errors: Obj -> seq<ErrorDetail>): Obj -> Option<Autofix.Fixing> {
    x => match prepare(x)
      case None => None
      case Some(f) => if Valid(errors, f) then Some(f) else None
  }

  /** A report without issues is exactly what the batch fix-up returns, and
      the batch fails where the report has an issue. */
  lemma {:induction false} ReportMatchesBatch(items: seq<Obj>, prepare: Obj -> Option<Autofix.Fixing>,
                                              errors: Obj -> seq<ErrorDetail>, rep: Report)
    requires ReportOf(items, prepare, errors) == Some(rep)
    ensures rep.issues == [] <==> Autofix.AutofixAll(items, Fix(prepare, errors)) == Some((rep.objects, rep.notesPerRow))
    ensures rep.issues != [] <==> Autofix.AutofixAll(items, Fix(prepare, errors)).None?
  {
    if items != [] {
      var init := items[..|items| - 1];
      assert forall k :: 0 <= k < |init| ==> init[k] == items[k];
      var rep0 := ReportOf(init, prepare, errors).value;
      ReportMatchesBatch(init, prepare, errors, rep0);
      var f := prepare(items[|items| - 1]).value;
      if !Valid(errors, f) {
        assert |IssuesOf(|items| - 1, errors(f.data))| > 0;
        assert Fix(prepare, errors)(items[|items| - 1]).None?;
      } else {
        assert Fix(prepare, errors)(items[|items| - 1]) == Some(f);
      }
    }
  }

  /** `validate_actions_report(items, ctx, strict)` */
  method ValidateActionsReport(items: seq<Obj>, ctx: Option<Autofix.Context>, strict: bool,
                               errors: Obj -> seq<ErrorDetail>)
    returns (r: Option<Report>)
    ensures r == ReportOf(items, x => Autofix.Prepare(x, ctx, strict), errors)
  {
    ghost var prepare := x => Autofix.Prepare(x, ctx, strict);
    var objs: seq<Obj> := [];
    var notes: seq<seq<Autofix.FixNote>> := [];
    var issues: seq<Issue> := [];
    var i := 0;
    while i < |items|
      invariant 0 <= i <= |items|
      invariant ReportOf(items[..i], prepare, errors) == Some(Report(objs, notes, issues))
    {
      var f := Autofix.FixUp(items[i], ctx, strict);
      assert f == prepare(items[i]);
      ReportSnoc(items, prepare, errors, i);
      if f.None? {
        NoneStays(items, prepare, errors, i + 1);
        return None;
      }
      var errs := errors(f.value.data);
      if errs == [] {
        objs := objs + [f.value.data];
        notes := notes + [f.value.notes];
      } else {
        issues := AppendIssues(issues, i, errs);
      }
      i := i + 1;
    }
    assert items[..i] == items;
    return Some(Report(objs, notes, issues));
  }

  /** The report of one more row, in terms of the report of the rows before it. */
  lemma ReportSnoc(items: seq<Obj>, prepare: Obj -> Option<Autofix.Fixing>, errors: Obj -> seq<ErrorDetail>, i: int)
    requires 0 <= i < |items|
    ensures ReportOf(items[..i + 1], prepare, errors) ==
      match ReportOf(items[..i], prepare, errors)
      case None => None
      case Some(rep) =>
        match prepare(items[i])
        case None => None
        case Some(f) =>
          if Valid(errors, f) then Some(Report(rep.objects + [f.data], rep.notesPerRow + [f.notes], rep.issues))
          else Some(Report(rep.objects, rep.notesPerRow, rep.issues + IssuesOf(i, errors(f.data))))
  {
    assert items[..i + 1][..i] == items[..i];
  }

  /** The issue loop of one rejected row. */
  method AppendIssues(issues: seq<Issue>, i: int, errs: seq<ErrorDetail>) returns (r: seq<Issue>)
    ensures r == issues + IssuesOf(i, errs)
  {
    r := issues;
    var j := 0;
    while j < |errs|
      invariant 0 <= j <= |errs|
      invariant r == issues + IssuesOf(i, errs[..j])
    {
      assert IssuesOf(i, errs[..j + 1]) == IssuesOf(i, errs[..j]) + [IssueOf(i, errs[j])];
      r := r + [IssueOf(i, errs[j])];
      j := j + 1;
    }
    assert errs[..j] == errs;
  }

  /** Once a prefix of the rows raises, the whole report raises. */
  lemma {:induction false} NoneStays(items: seq<Obj>, prepare: Obj -> Option<Autofix.Fixing>,
                                     errors: Obj -> seq<ErrorDetail>, n: nat)
    requires 0 < n <= |items| && prepare(items[n - 1]).None?
    ensures ReportOf(items, prepare, errors).None?
  {
  }
}
