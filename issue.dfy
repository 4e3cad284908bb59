/**
 * The `Issue` business object: its default field values, the guarded `setSpentEfforts`, and its
 * two `validate` variants. The trunk variant repeats the project's id and name checks inline and
 * leaves the identifier out; the variant of the main source line delegates to `Project.validate`.
 */
module Issues {
  import opened Wrappers
  import opened JavaLang
  import opened Errors
  import opened Utilities
  import Bdo

  /** A `java.util.Date`, as an instant in milliseconds; only its rendering is ever used. */
  datatype Date = Date(millis: int)

  class Issue {
    var id: Option<int>
    var parent: Issue?
    var subject: Option<string>
    var description: Option<string>
    var startDate: Option<Date>
    var dueDate: Option<Date>
    var assignedTo: Bdo.User?
    var author: Bdo.User?
    /** `Float` fields, by their value. */
    var estimatedEfforts: Option<real>
    var spentEfforts: Option<real>
    var percentageDone: Option<int>
    var createdOn: Option<Date>
    var updatedOn: Option<Date>
    var project: Bdo.Project?
    var tracker: Bdo.Tracker?
    var status: Bdo.Status?
    var priority: Bdo.Priority?

    static const PROJECT_NULL := "Issue's Project is null."
    static const SUBJECT_UNSET := "Issue's Subject is null or empty String"
    static const PRIORITY_NULL := "Issue's Priority is null."
    static const SPENT_UNSUPPORTED :=
      "Spent Efforts is not processed properly by Redmine API, so currently there is no use to set it"

    /** A new issue: efforts and percentage at zero, every other field null. */
    constructor ()
      ensures estimatedEfforts == Some(0.0) && spentEfforts == Some(0.0) && percentageDone == Some(0)
      ensures id.None? && parent == null && subject.None? && description.None?
      ensures startDate.None? && dueDate.None? && createdOn.None? && updatedOn.None?
      ensures assignedTo == null && author == null
      ensures project == null && tracker == null && status == null && priority == null
    {
      id, parent, subject, description := None, null, None, None;
      startDate, dueDate, createdOn, updatedOn := None, None, None, None;
      assignedTo, author := null, null;
      estimatedEfforts, spentEfforts, percentageDone := Some(0.0), Some(0.0), Some(0);
      project, tracker, status, priority := null, null, null, null;
    }

    /** `setSpentEfforts`: only zero may be stored. A null argument fails on `floatValue()`,
        a non-zero one is refused; both leave the issue unchanged. No other field is touched. */
    method SetSpentEfforts(spent: Option<real>) returns (r: Outcome<Exception>)
      modifies this`spentEfforts
      ensures r == if spent.None? then Fail(NullPointer)
                   else if spent.value != 0.0 then Fail(UnsupportedOperation(SPENT_UNSUPPORTED))
                   else Pass
      ensures r.Pass? ==> spentEfforts == spent == Some(0.0)
      ensures r.Fail? ==> spentEfforts == old(spentEfforts)
      ensures estimatedEfforts == old(estimatedEfforts) && percentageDone == old(percentageDone)
      ensures subject == old(subject) && project == old(project) && priority == old(priority)
    {
      if spent.None? {
        return Fail(NullPointer);
      }
      if spent.value != 0.0 {
        return Fail(UnsupportedOperation(SPENT_UNSUPPORTED));
      }
      spentEfforts := spent;
      r := Pass;
    }

    /** The objects a validation reads. */
    function Parts(): set<object>
      reads this
    {
      (if project != null then {project} else {})
      + (if priority != null then {priority} else {})
      + (if author != null then {author} else {})
      + (if assignedTo != null then {assignedTo} else {})
      + (if tracker != null then {tracker} else {})
    }

    /** The project messages of the trunk variant: id and name only. */
    function InlineProjectErrors(): seq<string>
      reads this, Parts()
    {
      if project == null then [PROJECT_NULL]
      else
        (if project.id.None? then [Bdo.Project.ID_NULL] else [])
        + (if !IsQualifiedString(project.name) then [Bdo.Project.NAME_NULL] else [])
    }

    /** The project messages of the delegating variant: all of `Project.validate`. */
    function DelegatedProjectErrors(): seq<string>
      reads this, Parts()
    {
      if project == null then [PROJECT_NULL] else project.Errors()
    }

    /** The messages after the project part, common to both variants: subject, priority, then
        author, assignee and tracker when present. */
    function OtherErrors(): seq<string>
      reads this, Parts()
    {
      (if !IsQualifiedString(subject) then [SUBJECT_UNSET] else [])
      + (if priority == null then [PRIORITY_NULL] else priority.Errors())
      + (if author != null then author.Errors() else [])
      + (if assignedTo != null then assignedTo.Errors() else [])
      + (if tracker != null then tracker.Errors() else [])
    }

    /** The messages of the trunk `validate`. */
    function Errors(): seq<string>
      reads this, Parts()
    {
      InlineProjectErrors() + OtherErrors()
    }

    /** The messages of the delegating `validate`. */
    function DelegatingErrors(): seq<string>
      reads this, Parts()
    {
      DelegatedProjectErrors() + OtherErrors()
    }

    /** The trunk `validate(List<String>)`. */
    method Validate(errors: Bdo.ErrorList?) returns (r: Bdo.ErrorList)
      modifies errors
      ensures errors != null ==> r == errors
      ensures errors == null ==> fresh(r)
      ensures r.items == (if errors == null then [] else old(errors.items)) + old(Errors())
    {
      if errors == null {
        r := new Bdo.ErrorList();
      } else {
        r := errors;
      }
      ghost var start := r.items;
      ghost var projectPart := InlineProjectErrors();
      ghost var otherPart := OtherErrors();
      ValidateProjectInline(r);
      assert r.items == start + projectPart;
      ValidateOthers(r);
      assert r.items == start + projectPart + otherPart;
      AppendAssoc(start, projectPart, otherPart);
      assert errors == null ==> start == [];
    }

    /** The project checks the trunk `validate` makes itself, appended to `errors`. */
    method ValidateProjectInline(errors: Bdo.ErrorList)
      modifies errors
      ensures errors.items == old(errors.items) + old(InlineProjectErrors())
    {
      ghost var start := errors.items;
      ghost var projectPart := InlineProjectErrors();
      if project == null {
        errors.Add(PROJECT_NULL);
      } else {
        ghost var idPart := if project.id.None? then [Bdo.Project.ID_NULL] else [];
        ghost var namePart := if !IsQualifiedString(project.name) then [Bdo.Project.NAME_NULL] else [];
        assert projectPart == idPart + namePart;
        if project.id.None? {
          errors.Add(Bdo.Project.ID_NULL);
        }
        assert errors.items == start + idPart;
        if !IsQualifiedString(project.name) {
          errors.Add(Bdo.Project.NAME_NULL);
        }
        assert errors.items == start + idPart + namePart;
      }
    }

    /** The delegating `validate(List<String>)`. */
    method ValidateDelegating(errors: Bdo.ErrorList?) returns (r: Bdo.ErrorList)
      modifies errors
      ensures errors != null ==> r == errors
      ensures errors == null ==> fresh(r)
      ensures r.items == (if errors == null then [] else old(errors.items)) + old(DelegatingErrors())
    {
      if errors == null {
        r := new Bdo.ErrorList();
      } else {
        r := errors;
      }
      ghost var start := r.items;
      ghost var projectPart := DelegatedProjectErrors();
      ghost var otherPart := OtherErrors();
      if project == null {
        r.Add(PROJECT_NULL);
      } else {
        var _ := project.Validate(r);
      }
      assert r.items == start + projectPart;
      ValidateOthers(r);
      assert r.items == start + projectPart + otherPart;
      AppendAssoc(start, projectPart, otherPart);
      assert errors == null ==> start == [];
    }

    /** The checks both variants share, appended to `errors`. */
    method ValidateOthers(errors: Bdo.ErrorList)
      modifies errors
      ensures errors.items == old(errors.items) + old(OtherErrors())
    {
      ghost var start := errors.items;
      ghost var subjectPart := if !IsQualifiedString(subject) then [SUBJECT_UNSET] else [];
      ghost var priorityPart := if priority == null then [PRIORITY_NULL] else priority.Errors();
      ghost var authorPart := if author != null then author.Errors() else [];
      ghost var assigneePart := if assignedTo != null then assignedTo.Errors() else [];
      ghost var trackerPart := if tracker != null then tracker.Errors() else [];
      assert OtherErrors() == subjectPart + priorityPart + authorPart + assigneePart + trackerPart;
      if !IsQualifiedString(subject) {
        errors.Add(SUBJECT_UNSET);
      }
      assert errors.items == start + subjectPart;
      if priority == null {
        errors.Add(PRIORITY_NULL);
      } else {
        var _ := priority.Validate(errors);
      }
      assert errors.items == start + subjectPart + priorityPart;
      if author != null {
        var _ := author.Validate(errors);
      }
      assert errors.items == start + subjectPart + priorityPart + authorPart;
      if assignedTo != null {
        var _ := assignedTo.Validate(errors);
      }
      assert errors.items == start + subjectPart + priorityPart + authorPart + assigneePart;
      if tracker != null {
        var _ := tracker.Validate(errors);
      }
      assert errors.items == start + subjectPart + priorityPart + authorPart + assigneePart + trackerPart;
      AppendAssoc5(start, subjectPart, priorityPart, authorPart, assigneePart, trackerPart);
    }
  }

  /** The project part of the trunk variant: a null project, or exactly the failed id and name
      checks; the identifier is never reported. */
  lemma InlineProjectErrorsMeaning(issue: Issue)
    ensures issue.project == null ==> issue.InlineProjectErrors() == [Issue.PROJECT_NULL]
    ensures issue.project != null ==>
      (Bdo.Project.ID_NULL in issue.InlineProjectErrors() <==> issue.project.id.None?) &&
      (Bdo.Project.NAME_NULL in issue.InlineProjectErrors() <==> !IsQualifiedString(issue.project.name)) &&
      Bdo.Project.IDENTIFIER_NULL !in issue.InlineProjectErrors()
  {
  }

  /** An issue validates (either variant) only with a qualified subject and a priority that has
      an id. */
  lemma ValidIssueHasSubjectAndPriority(issue: Issue)
    requires issue.Errors() == [] || issue.DelegatingErrors() == []
    ensures IsQualifiedString(issue.subject)
    ensures issue.priority != null && issue.priority.id.Some?
    ensures issue.project != null && issue.project.id.Some? && IsQualifiedString(issue.project.name)
  {
    assert issue.OtherErrors() == [];
    if issue.priority != null {
      assert issue.priority.Errors() == [];
    }
    if issue.project != null && issue.Errors() == [] {
      assert issue.InlineProjectErrors() == [];
    }
    if issue.project != null && issue.DelegatingErrors() == [] {
      assert issue.project.Errors() == [];
    }
  }

  /** The two variants agree unless the issue has a project whose identifier is unqualified; then
      the delegating variant reports exactly one message more, the identifier message, right after
      the project's id and name messages. */
  lemma {:induction false} VariantsDiffer(issue: Issue)
    ensures issue.project == null || IsQualifiedString(issue.project.identifier) ==>
      issue.DelegatingErrors() == issue.Errors()
    ensures issue.project != null && !IsQualifiedString(issue.project.identifier) ==>
      issue.DelegatingErrors() == issue.InlineProjectErrors() + [Bdo.Project.IDENTIFIER_NULL] + issue.OtherErrors()
  {
    if issue.project != null {
      var p := issue.project;
      var identifierPart := if !IsQualifiedString(p.identifier) then [Bdo.Project.IDENTIFIER_NULL] else [];
      var idPart := if p.id.None? then [Bdo.Project.ID_NULL] else [];
      var namePart := if !IsQualifiedString(p.name) then [Bdo.Project.NAME_NULL] else [];
      assert p.Errors() == idPart + namePart + identifierPart;
      assert issue.InlineProjectErrors() == idPart + namePart;
      assert issue.DelegatingErrors() == (idPart + namePart + identifierPart) + issue.OtherErrors();
      if IsQualifiedString(p.identifier) {
        assert idPart + namePart + identifierPart == idPart + namePart;
      }
    }
  }
}
