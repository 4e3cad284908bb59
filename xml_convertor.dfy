/**
 * The hand-written parts of the JiBX-based XML convertor: the XML an issue is created from, and
 * the null-safe wrappers the binding uses to (de)serialize float and date values. The rendering
 * of a float (`Float.toString`) and of a date (`SimpleDateFormat.format`) is opaque here: both are
 * parameters, as are the parsers the wrappers delegate to.
 */
module XmlConvertor {
  import opened Wrappers
  import opened JavaLang
  import opened Errors
  import opened Utilities
  import opened Issues

  const ISSUE_OPEN := "<issue>"
  const ISSUE_CLOSE := "</issue>"
  const INVALID_ISSUE := "Specified Issue does not have all required properties set. Error Details: "

  /** The elements of the issue-create XML. */
  datatype Tag =
    | ProjectId | ParentIssueId | SubjectTag | TrackerId | PriorityId | StartDate | DueDate
    | AssignedToId | EstimatedHours | SpentHours | DoneRatio | DescriptionTag

  const TAG_COUNT: nat := 12

  /** The position of each element in the order the convertor emits them. */
  function Rank(t: Tag): (k: nat)
    ensures k < TAG_COUNT
  {
    match t
    case ProjectId => 0
    case ParentIssueId => 1
    case SubjectTag => 2
    case TrackerId => 3
    case PriorityId => 4
    case StartDate => 5
    case DueDate => 6
    case AssignedToId => 7
    case EstimatedHours => 8
    case SpentHours => 9
    case DoneRatio => 10
    case DescriptionTag => 11
  }

  /** The opening tag the convertor appends before an element's text. */
  function OpenTag(t: Tag): string
  {
    match t
    case ProjectId => "<project_id>"
    case ParentIssueId => "<parent_issue_id>"
    case SubjectTag => "<subject>"
    case TrackerId => "<tracker_id>"
    case PriorityId => "<priority_id>"
    case StartDate => "<start_date>"
    case DueDate => "<due_date>"
    case AssignedToId => "<assigned_to_id>"
    case EstimatedHours => "<estimated_hours>"
    case SpentHours => "<spent_hours>"
    case DoneRatio => "<done_ratio>"
    case DescriptionTag => "<description>"
  }

  /** The closing tag the convertor appends after an element's text. */
  function CloseTag(t: Tag): string
  {
    match t
    case ProjectId => "</project_id>"
    case ParentIssueId => "</parent_issue_id>"
    case SubjectTag => "</subject>"
    case TrackerId => "</tracker_id>"
    case PriorityId => "</priority_id>"
    case StartDate => "</start_date>"
    case DueDate => "</due_date>"
    case AssignedToId => "</assigned_to_id>"
    case EstimatedHours => "</estimated_hours>"
    case SpentHours => "</spent_hours>"
    case DoneRatio => "</done_ratio>"
    case DescriptionTag => "</description>"
  }

  /** One element, its text inserted as is: nothing is escaped. */
  datatype XmlElement = Element(tag: Tag, text: string)

  /** The three appends of one element: opening tag, text, closing tag. */
  function Render(e: XmlElement): string
  {
    OpenTag(e.tag) + e.text + CloseTag(e.tag)
  }

  /** The renderings of `es`, one after the other. The rendering is a parameter so that the
      lemmas about appending never look inside an element. */
  function RenderAll<T>(es: seq<T>, render: T -> string): string
  {
    if es == [] then "" else RenderAll(es[..|es| - 1], render) + render(es[|es| - 1])
  }

  /** The values of the filled slots, in slot order. */
  function Present<T>(slots: seq<Option<T>>): seq<T>
  {
    if slots == [] then []
    else Present(slots[..|slots| - 1]) + (if slots[|slots| - 1].Some? then [slots[|slots| - 1].value] else [])
  }

  /** The text of the last element with tag `t`, if there is one. */
  function Lookup(es: seq<XmlElement>, t: Tag): (r: Option<string>)
    ensures r.Some? ==> exists i :: 0 <= i < |es| && es[i] == Element(t, r.value)
    ensures r.None? ==> forall i :: 0 <= i < |es| ==> es[i].tag != t
  {
    if es == [] then None
    else if es[|es| - 1].tag == t then Some(es[|es| - 1].text)
    else
      var r := Lookup(es[..|es| - 1], t);
      assert forall i :: 0 <= i < |es| - 1 ==> es[..|es| - 1][i] == es[i];
      r
  }

  /** Slot `k`, when filled, holds the element of rank `k`. */
  predicate Ranked(slots: seq<Option<XmlElement>>)
  {
    forall k :: 0 <= k < |slots| && slots[k].Some? ==> Rank(slots[k].value.tag) == k
  }

  /** What `issueXMLToCreateIssue` reads through the issue's getters. For a related object
      (parent, tracker, priority, assignee) the outer option says whether it is set and the inner
      one is its id. */
  datatype IssueView = IssueView(
    projectId: Option<int>,
    parentId: Option<Option<int>>,
    subject: Option<string>,
    trackerId: Option<Option<int>>,
    priorityId: Option<Option<int>>,
    startDate: Option<Date>,
    dueDate: Option<Date>,
    assigneeId: Option<Option<int>>,
    estimatedEfforts: Option<real>,
    spentEfforts: Option<real>,
    percentageDone: Option<int>,
    description: Option<string>)

  function View(issue: Issue): IssueView
    requires issue.project != null
    reads issue, issue.Parts(), if issue.parent != null then {issue.parent} else {}
  {
    IssueView(
      issue.project.id,
      if issue.parent != null then Some(issue.parent.id) else None,
      issue.subject,
      if issue.tracker != null then Some(issue.tracker.id) else None,
      if issue.priority != null then Some(issue.priority.id) else None,
      issue.startDate,
      issue.dueDate,
      if issue.assignedTo != null then Some(issue.assignedTo.id) else None,
      issue.estimatedEfforts,
      issue.spentEfforts,
      issue.percentageDone,
      issue.description)
  }

  /** The element `tag` holds when `value` is set (the `if (value != null)` around an element),
      its text rendered by `text`. */
  function Slot<T>(tag: Tag, value: Option<T>, text: T -> string): (r: Option<XmlElement>)
    ensures r.Some? ==> r.value.tag == tag
  {
    if value.Some? then Some(Element(tag, text(value.value))) else None
  }

  /** A spent-hours value that is set and not zero. */
  function NonZero(hours: Option<real>): (r: Option<real>)
  {
    if hours.Some? && hours.value != 0.0 then hours else None
  }

  /** A description that is qualified: set, and not blank after trimming. */
  function Qualified(text: Option<string>): (r: Option<string>)
  {
    if IsQualifiedString(text) then text else None
  }

  function Verbatim(text: string): string
  {
    text
  }

  /** What each `if` of `issueXMLToCreateIssue` appends, in order. Ids, the subject and the
      percentage go through `StringBuffer.append(Object)`, so a null one reads `null`. */
  function Slots(v: IssueView, renderFloat: real -> string, formatDate: Date -> string)
    : (r: seq<Option<XmlElement>>)
    ensures |r| == TAG_COUNT
  {
    HeadSlots(v, formatDate)
    + [Slot(DueDate, v.dueDate, formatDate)]
    + [Slot(AssignedToId, v.assigneeId, LongText)]
    + [Slot(EstimatedHours, v.estimatedEfforts, renderFloat)]
    + [Slot(SpentHours, NonZero(v.spentEfforts), renderFloat)]
    + [Slot(DoneRatio, v.percentageDone, IntToString)]
    + [Slot(DescriptionTag, Qualified(v.description), Verbatim)]
  }

  /** The first six slots: project, parent, subject, tracker, priority, start date. */
  function HeadSlots(v: IssueView, formatDate: Date -> string): (r: seq<Option<XmlElement>>)
    ensures |r| == 6
  {
    [Some(Element(ProjectId, LongText(v.projectId)))]
    + [Slot(ParentIssueId, v.parentId, LongText)]
    + [Some(Element(SubjectTag, StringText(v.subject)))]
    + [Slot(TrackerId, v.trackerId, LongText)]
    + [Slot(PriorityId, v.priorityId, LongText)]
    + [Slot(StartDate, v.startDate, formatDate)]
  }

  /** The elements of the document, in order. */
  function Elements(v: IssueView, renderFloat: real -> string, formatDate: Date -> string): seq<XmlElement>
  {
    Present(Slots(v, renderFloat, formatDate))
  }

  /** `<issue>`, the elements, `</issue>`. */
  function Document(v: IssueView, renderFloat: real -> string, formatDate: Date -> string): string
  {
    ISSUE_OPEN + RenderAll(Elements(v, renderFloat, formatDate), Render) + ISSUE_CLOSE
  }

  function IssueObject(issue: Issue?): JavaObject
  {
    if issue == null then NullObject else OtherObject
  }

  /** The outcome of `issueXMLToCreateIssue`: the argument check, then the delegating
      `Issue.validate`, then the document. */
  function CreateIssueXml(issue: Issue?, renderFloat: real -> string, formatDate: Date -> string)
    : (r: Result<string, Exception>)
    reads issue, if issue != null then issue.Parts() else {}
    reads if issue != null && issue.parent != null then {issue.parent} else {}
  {
    if issue == null then Failure(AssertNotNullArgument(IssueObject(issue)).error)
    else if issue.DelegatingErrors() != [] then
      Failure(IllegalArgument(INVALID_ISSUE + ListText(issue.DelegatingErrors())))
    else
      ValidIssueHasSubjectAndPriority(issue);
      Success(Document(View(issue), renderFloat, formatDate))
  }

  /** `issueXMLToCreateIssue`: validates into a fresh list, then appends element after element. */
  method IssueXMLToCreateIssue(issue: Issue?, renderFloat: real -> string, formatDate: Date -> string)
    returns (r: Result<string, Exception>)
    ensures r == CreateIssueXml(issue, renderFloat, formatDate)
  {
    var check := AssertNotNullArgument(IssueObject(issue));
    if check.Fail? {
      return Failure(check.error);
    }
    ghost var expected := issue.DelegatingErrors();
    var errors := issue.ValidateDelegating(null);
    assert errors.items == expected == issue.DelegatingErrors();
    if errors.items != [] {
      return Failure(IllegalArgument(INVALID_ISSUE + ListText(errors.items)));
    }
    ValidIssueHasSubjectAndPriority(issue);
    var xml := AppendElements(View(issue), renderFloat, formatDate);
    xml := xml + ISSUE_CLOSE;
    r := Success(xml);
  }

  /** The appends of `issueXMLToCreateIssue` from `<issue>` to the last element, over the values
      its getters return. */
  method AppendElements(v: IssueView, renderFloat: real -> string, formatDate: Date -> string)
    returns (xml: string)
    ensures xml == ISSUE_OPEN + RenderAll(Elements(v, renderFloat, formatDate), Render)
  {
    xml := AppendHead(v, formatDate);
    ghost var slots := HeadSlots(v, formatDate);
    xml := AppendSlot(xml, slots, Slot(DueDate, v.dueDate, formatDate));
    slots := slots + [Slot(DueDate, v.dueDate, formatDate)];
    xml := AppendSlot(xml, slots, Slot(AssignedToId, v.assigneeId, LongText));
    slots := slots + [Slot(AssignedToId, v.assigneeId, LongText)];
    xml := AppendSlot(xml, slots, Slot(EstimatedHours, v.estimatedEfforts, renderFloat));
    slots := slots + [Slot(EstimatedHours, v.estimatedEfforts, renderFloat)];
    xml := AppendSlot(xml, slots, Slot(SpentHours, NonZero(v.spentEfforts), renderFloat));
    slots := slots + [Slot(SpentHours, NonZero(v.spentEfforts), renderFloat)];
    xml := AppendSlot(xml, slots, Slot(DoneRatio, v.percentageDone, IntToString));
    slots := slots + [Slot(DoneRatio, v.percentageDone, IntToString)];
    xml := AppendSlot(xml, slots, Slot(DescriptionTag, Qualified(v.description), Verbatim));
    slots := slots + [Slot(DescriptionTag, Qualified(v.description), Verbatim)];
    assert slots == Slots(v, renderFloat, formatDate);
  }

  /** `<issue>` and the appends of the first six slots. */
  method AppendHead(v: IssueView, formatDate: Date -> string) returns (xml: string)
    ensures xml == ISSUE_OPEN + RenderAll(Present(HeadSlots(v, formatDate)), Render)
  {
    xml := ISSUE_OPEN;
    xml := AppendSlot(xml, [], Some(Element(ProjectId, LongText(v.projectId))));
    ghost var slots := [Some(Element(ProjectId, LongText(v.projectId)))];
    assert [] + slots == slots;
    xml := AppendSlot(xml, slots, Slot(ParentIssueId, v.parentId, LongText));
    slots := slots + [Slot(ParentIssueId, v.parentId, LongText)];
    xml := AppendSlot(xml, slots, Some(Element(SubjectTag, StringText(v.subject))));
    slots := slots + [Some(Element(SubjectTag, StringText(v.subject)))];
    xml := AppendSlot(xml, slots, Slot(TrackerId, v.trackerId, LongText));
    slots := slots + [Slot(TrackerId, v.trackerId, LongText)];
    xml := AppendSlot(xml, slots, Slot(PriorityId, v.priorityId, LongText));
    slots := slots + [Slot(PriorityId, v.priorityId, LongText)];
    xml := AppendSlot(xml, slots, Slot(StartDate, v.startDate, formatDate));
    slots := slots + [Slot(StartDate, v.startDate, formatDate)];
    assert slots == HeadSlots(v, formatDate);
  }

  /** Appends the element of one slot when it is filled: the `if (value != null)` around each
      element of the convertor. */
  method AppendSlot(xml: string, ghost slots: seq<Option<XmlElement>>, slot: Option<XmlElement>)
    returns (r: string)
    requires xml == ISSUE_OPEN + RenderAll(Present(slots), Render)
    ensures r == ISSUE_OPEN + RenderAll(Present(slots + [slot]), Render)
  {
    Extend(ISSUE_OPEN, slots, slot, Render);
    if slot.Some? {
      r := xml + Render(slot.value);
    } else {
      r := xml;
    }
  }

  /** What appending one slot adds: its rendering when filled, nothing otherwise. */
  function Piece<T>(slot: Option<T>, render: T -> string): string
  {
    if slot.Some? then render(slot.value) else ""
  }

  lemma RenderAllSnoc<T>(es: seq<T>, e: T, render: T -> string)
    ensures RenderAll(es + [e], render) == RenderAll(es, render) + render(e)
  {
    assert (es + [e])[..|es|] == es;
  }

  /** One `if` of the convertor: appending a slot's piece to the document so far renders the
      filled slots one slot further. */
  lemma Extend<T>(prefix: string, slots: seq<Option<T>>, slot: Option<T>, render: T -> string)
    ensures prefix + RenderAll(Present(slots + [slot]), render)
            == prefix + RenderAll(Present(slots), render) + Piece(slot, render)
  {
    assert (slots + [slot])[..|slots|] == slots;
    if slot.Some? {
      assert Present(slots + [slot]) == Present(slots) + [slot.value];
      RenderAllSnoc(Present(slots), slot.value, render);
    } else {
      assert Present(slots + [slot]) == Present(slots);
    }
    AppendAssoc(prefix, RenderAll(Present(slots), render), Piece(slot, render));
  }

  lemma RankInjective(a: Tag, b: Tag)
    requires Rank(a) == Rank(b)
    ensures a == b
  {
  }

  /** Looking up a tag after appending an element finds that element when it carries the tag. */
  lemma LookupSnoc(es: seq<XmlElement>, e: XmlElement, t: Tag)
    ensures Lookup(es + [e], t) == if e.tag == t then Some(e.text) else Lookup(es, t)
  {
    assert (es + [e])[..|es|] == es;
  }

  /** Among ranked slots, the lookup of a tag finds the slot of its rank, or nothing when that
      slot is empty. */
  lemma LookupPresent(slots: seq<Option<XmlElement>>, t: Tag)
    requires Ranked(slots)
    ensures Lookup(Present(slots), t)
            == if Rank(t) < |slots| && slots[Rank(t)].Some? then Some(slots[Rank(t)].value.text) else None
  {
    forall a | Rank(a) == Rank(t)
      ensures a == t
    {
      RankInjective(a, t);
    }
    LookupRanked(slots, t, Rank, Rank(t));
  }

  /** `LookupPresent` for any ranking of the tags under which the slots are ranked and `t` alone
      has rank `k`. */
  lemma {:induction false} LookupRanked(slots: seq<Option<XmlElement>>, t: Tag, rank: Tag -> nat, k: nat)
    requires forall i :: 0 <= i < |slots| && slots[i].Some? ==> rank(slots[i].value.tag) == i
    requires rank(t) == k
    requires forall a :: rank(a) == k ==> a == t
    ensures Lookup(Present(slots), t) == if k < |slots| && slots[k].Some? then Some(slots[k].value.text) else None
  {
    if slots != [] {
      var init := slots[..|slots| - 1];
      var last := slots[|slots| - 1];
      assert forall i :: 0 <= i < |init| ==> init[i] == slots[i];
      LookupRanked(init, t, rank, k);
      if last.Some? {
        var es := Present(init);
        assert Present(slots) == es + [last.value];
        LookupSnoc(es, last.value, t);
        assert rank(last.value.tag) == |init|;
      } else {
        assert Present(slots) == Present(init);
      }
    }
  }

  /** Dropping the last slot keeps the slots ranked. */
  lemma RankedInit(slots: seq<Option<XmlElement>>)
    requires Ranked(slots) && slots != []
    ensures Ranked(slots[..|slots| - 1])
  {
    var init := slots[..|slots| - 1];
    forall k | 0 <= k < |init| && init[k].Some?
      ensures Rank(init[k].value.tag) == k
    {
      assert init[k] == slots[k];
    }
  }

  /** The elements of filled slots come out in increasing rank. */
  lemma {:induction false} PresentOrdered(slots: seq<Option<XmlElement>>)
    requires Ranked(slots)
    ensures forall e :: e in Present(slots) ==> Rank(e.tag) < |slots|
    ensures forall i, j :: 0 <= i < j < |Present(slots)| ==> Rank(Present(slots)[i].tag) < Rank(Present(slots)[j].tag)
  {
    if slots != [] {
      var init := slots[..|slots| - 1];
      var last := slots[|slots| - 1];
      RankedInit(slots);
      PresentOrdered(init);
      if last.Some? {
        assert Present(slots) == Present(init) + [last.value];
      } else {
        assert Present(slots) == Present(init);
      }
    }
  }

  lemma SlotsRanked(v: IssueView, renderFloat: real -> string, formatDate: Date -> string)
    ensures Ranked(Slots(v, renderFloat, formatDate))
  {
    var slots := [Some(Element(ProjectId, LongText(v.projectId)))];
    RankedSnoc(slots, Slot(ParentIssueId, v.parentId, LongText));
    slots := slots + [Slot(ParentIssueId, v.parentId, LongText)];
    RankedSnoc(slots, Some(Element(SubjectTag, StringText(v.subject))));
    slots := slots + [Some(Element(SubjectTag, StringText(v.subject)))];
    RankedSnoc(slots, Slot(TrackerId, v.trackerId, LongText));
    slots := slots + [Slot(TrackerId, v.trackerId, LongText)];
    RankedSnoc(slots, Slot(PriorityId, v.priorityId, LongText));
    slots := slots + [Slot(PriorityId, v.priorityId, LongText)];
    RankedSnoc(slots, Slot(StartDate, v.startDate, formatDate));
    slots := slots + [Slot(StartDate, v.startDate, formatDate)];
    RankedSnoc(slots, Slot(DueDate, v.dueDate, formatDate));
    slots := slots + [Slot(DueDate, v.dueDate, formatDate)];
    RankedSnoc(slots, Slot(AssignedToId, v.assigneeId, LongText));
    slots := slots + [Slot(AssignedToId, v.assigneeId, LongText)];
    RankedSnoc(slots, Slot(EstimatedHours, v.estimatedEfforts, renderFloat));
    slots := slots + [Slot(EstimatedHours, v.estimatedEfforts, renderFloat)];
    RankedSnoc(slots, Slot(SpentHours, NonZero(v.spentEfforts), renderFloat));
    slots := slots + [Slot(SpentHours, NonZero(v.spentEfforts), renderFloat)];
    RankedSnoc(slots, Slot(DoneRatio, v.percentageDone, IntToString));
    slots := slots + [Slot(DoneRatio, v.percentageDone, IntToString)];
    RankedSnoc(slots, Slot(DescriptionTag, Qualified(v.description), Verbatim));
    slots := slots + [Slot(DescriptionTag, Qualified(v.description), Verbatim)];
  }

  lemma RankedSnoc(slots: seq<Option<XmlElement>>, slot: Option<XmlElement>)
    requires Ranked(slots)
    requires slot.Some? ==> Rank(slot.value.tag) == |slots|
    ensures Ranked(slots + [slot])
  {
    forall k | 0 <= k < |slots + [slot]| && (slots + [slot])[k].Some?
      ensures Rank((slots + [slot])[k].value.tag) == k
    {
      if k < |slots| {
        assert (slots + [slot])[k] == slots[k];
      }
    }
  }

  /** The project id, the parent and the subject: the project id and the subject are always
      there (a null one reads `null`), the parent exactly when it is set. */
  lemma ElementsOfHeader(v: IssueView, renderFloat: real -> string, formatDate: Date -> string)
    ensures Lookup(Elements(v, renderFloat, formatDate), ProjectId)
            == Some(LongText(v.projectId))
    ensures Lookup(Elements(v, renderFloat, formatDate), ParentIssueId)
            == if v.parentId.Some? then Some(LongText(v.parentId.value)) else None
    ensures Lookup(Elements(v, renderFloat, formatDate), SubjectTag)
            == Some(StringText(v.subject))
  {
    var slots := Slots(v, renderFloat, formatDate);
    SlotsRanked(v, renderFloat, formatDate);
    assert slots[0] == Some(Element(ProjectId, LongText(v.projectId)));
    LookupPresent(slots, ProjectId);
    assert slots[1] == Slot(ParentIssueId, v.parentId, LongText);
    LookupPresent(slots, ParentIssueId);
    assert slots[2] == Some(Element(SubjectTag, StringText(v.subject)));
    LookupPresent(slots, SubjectTag);
  }

  /** The tracker, the priority and the assignee: each exactly when it is set, as its id. */
  lemma ElementsOfClassifiers(v: IssueView, renderFloat: real -> string, formatDate: Date -> string)
    ensures Lookup(Elements(v, renderFloat, formatDate), TrackerId)
            == if v.trackerId.Some? then Some(LongText(v.trackerId.value)) else None
    ensures Lookup(Elements(v, renderFloat, formatDate), PriorityId)
            == if v.priorityId.Some? then Some(LongText(v.priorityId.value)) else None
    ensures Lookup(Elements(v, renderFloat, formatDate), AssignedToId)
            == if v.assigneeId.Some? then Some(LongText(v.assigneeId.value)) else None
  {
    var slots := Slots(v, renderFloat, formatDate);
    SlotsRanked(v, renderFloat, formatDate);
    assert slots[3] == Slot(TrackerId, v.trackerId, LongText);
    LookupPresent(slots, TrackerId);
    assert slots[4] == Slot(PriorityId, v.priorityId, LongText);
    LookupPresent(slots, PriorityId);
    assert slots[7] == Slot(AssignedToId, v.assigneeId, LongText);
    LookupPresent(slots, AssignedToId);
  }

  /** The start and due dates, as the date format renders them, each exactly when it is set. */
  lemma ElementsOfSchedule(v: IssueView, renderFloat: real -> string, formatDate: Date -> string)
    ensures Lookup(Elements(v, renderFloat, formatDate), StartDate)
            == if v.startDate.Some? then Some(formatDate(v.startDate.value)) else None
    ensures Lookup(Elements(v, renderFloat, formatDate), DueDate)
            == if v.dueDate.Some? then Some(formatDate(v.dueDate.value)) else None
  {
    var slots := Slots(v, renderFloat, formatDate);
    SlotsRanked(v, renderFloat, formatDate);
    assert slots[5] == Slot(StartDate, v.startDate, formatDate);
    LookupPresent(slots, StartDate);
    assert slots[6] == Slot(DueDate, v.dueDate, formatDate);
    LookupPresent(slots, DueDate);
  }

  /** The estimated and spent hours, the percentage done and the description: the spent hours only
      when set and not zero, the description only when qualified, and then verbatim. */
  lemma ElementsOfEfforts(v: IssueView, renderFloat: real -> string, formatDate: Date -> string)
    ensures Lookup(Elements(v, renderFloat, formatDate), EstimatedHours)
            == if v.estimatedEfforts.Some? then Some(renderFloat(v.estimatedEfforts.value)) else None
    ensures Lookup(Elements(v, renderFloat, formatDate), SpentHours)
            == if v.spentEfforts.Some? && v.spentEfforts.value != 0.0 then Some(renderFloat(v.spentEfforts.value))
            else None
    ensures Lookup(Elements(v, renderFloat, formatDate), DoneRatio)
            == if v.percentageDone.Some? then Some(IntToString(v.percentageDone.value)) else None
    ensures Lookup(Elements(v, renderFloat, formatDate), DescriptionTag)
            == if IsQualifiedString(v.description) then Some(v.description.value) else None
  {
    var slots := Slots(v, renderFloat, formatDate);
    SlotsRanked(v, renderFloat, formatDate);
    assert slots[8] == Slot(EstimatedHours, v.estimatedEfforts, renderFloat);
    LookupPresent(slots, EstimatedHours);
    assert slots[9] == Slot(SpentHours, NonZero(v.spentEfforts), renderFloat);
    LookupPresent(slots, SpentHours);
    assert slots[10] == Slot(DoneRatio, v.percentageDone, IntToString);
    LookupPresent(slots, DoneRatio);
    assert slots[11] == Slot(DescriptionTag, Qualified(v.description), Verbatim);
    LookupPresent(slots, DescriptionTag);
  }

  /** The elements appear in the convertor's fixed order, each at most once. */
  lemma ElementsInOrder(v: IssueView, renderFloat: real -> string, formatDate: Date -> string)
    ensures forall i, j :: 0 <= i < j < |Elements(v, renderFloat, formatDate)| ==>
      Rank(Elements(v, renderFloat, formatDate)[i].tag) < Rank(Elements(v, renderFloat, formatDate)[j].tag)
  {
    SlotsRanked(v, renderFloat, formatDate);
    PresentOrdered(Slots(v, renderFloat, formatDate));
  }

  /** A qualified description is the last element of the document. */
  lemma DescriptionIsLast(v: IssueView, renderFloat: real -> string, formatDate: Date -> string)
    requires IsQualifiedString(v.description)
    ensures var es := Elements(v, renderFloat, formatDate);
      |es| > 0 && es[|es| - 1] == Element(DescriptionTag, v.description.value)
  {
    var es := Elements(v, renderFloat, formatDate);
    ElementsOfEfforts(v, renderFloat, formatDate);
    ElementsInOrder(v, renderFloat, formatDate);
    var i :| 0 <= i < |es| && es[i] == Element(DescriptionTag, v.description.value);
    if i < |es| - 1 {
      assert false;
    }
  }

  lemma {:induction false} PresentAppend<T>(a: seq<Option<T>>, b: seq<Option<T>>)
    ensures Present(a + b) == Present(a) + Present(b)
  {
    if b == [] {
      assert a + b == a;
    } else {
      var init := b[..|b| - 1];
      assert (a + b)[..|a + b| - 1] == a + init;
      PresentAppend(a, init);
    }
  }

  lemma {:induction false} RenderAllAppend<T>(a: seq<T>, b: seq<T>, render: T -> string)
    ensures RenderAll(a + b, render) == RenderAll(a, render) + RenderAll(b, render)
  {
    if b == [] {
      assert a + b == a;
    } else {
      var init := b[..|b| - 1];
      assert (a + b)[..|a + b| - 1] == a + init;
      RenderAllAppend(a, init, render);
    }
  }

  lemma PresentSingle<T>(x: T)
    ensures Present([Some(x)]) == [x]
  {
    assert [Some(x)][..0] == [];
  }

  lemma RenderAllSingle<T>(x: T, render: T -> string)
    ensures RenderAll([x], render) == render(x)
  {
    assert [x][..0] == [];
  }

  /** The rendering of filled slots starts with the first slot's, when it is filled. */
  lemma RenderFirst<T>(slots: seq<Option<T>>, first: T, render: T -> string)
    requires |slots| > 0 && slots[0] == Some(first)
    ensures RenderAll(Present(slots), render) == render(first) + RenderAll(Present(slots[1..]), render)
  {
    var rest := slots[1..];
    assert slots == [Some(first)] + rest;
    PresentAppend([Some(first)], rest);
    PresentSingle(first);
    assert Present(slots) == [first] + Present(rest);
    RenderAllAppend([first], Present(rest), render);
    RenderAllSingle(first, render);
  }

  /** A document whose first slot is filled opens with its opening text and that slot's
      rendering, and ends with its closing text. */
  lemma FrameOf<T>(open: string, close: string, slots: seq<Option<T>>, first: T, render: T -> string)
    requires |slots| > 0 && slots[0] == Some(first)
    ensures open + render(first) <= open + RenderAll(Present(slots), render) + close
    ensures EndsWith(open + RenderAll(Present(slots), render) + close, close)
  {
    RenderFirst(slots, first, render);
    var rest := RenderAll(Present(slots[1..]), render);
    AppendAssoc(open, render(first), rest);
    ConcatFrame(open + render(first), rest, close);
  }

  /** The document opens with `<issue>` and the project id, and closes with `</issue>`. */
  lemma DocumentFrame(v: IssueView, renderFloat: real -> string, formatDate: Date -> string)
    ensures ISSUE_OPEN + "<project_id>" + LongText(v.projectId) + "</project_id>"
            <= Document(v, renderFloat, formatDate)
    ensures EndsWith(Document(v, renderFloat, formatDate), ISSUE_CLOSE)
  {
    var first := Element(ProjectId, LongText(v.projectId));
    assert Slots(v, renderFloat, formatDate)[0] == Some(first);
    FrameOf(ISSUE_OPEN, ISSUE_CLOSE, Slots(v, renderFloat, formatDate), first, Render);
    assert Render(first) == "<project_id>" + LongText(v.projectId) + "</project_id>";
    AppendAssoc(ISSUE_OPEN, "<project_id>" + LongText(v.projectId), "</project_id>");
    AppendAssoc(ISSUE_OPEN, "<project_id>", LongText(v.projectId));
  }

  /** The convertor refuses exactly a null issue and an issue that fails validation, each with an
      `IllegalArgumentException`; the invalid one's message lists the validation errors. */
  lemma CreateIssueXmlRefuses(issue: Issue?, renderFloat: real -> string, formatDate: Date -> string)
    ensures CreateIssueXml(issue, renderFloat, formatDate).Failure?
            <==> issue == null || issue.DelegatingErrors() != []
    ensures CreateIssueXml(issue, renderFloat, formatDate).Failure? ==>
              CreateIssueXml(issue, renderFloat, formatDate).error.IllegalArgument?
    ensures issue != null && issue.DelegatingErrors() != [] ==>
              CreateIssueXml(issue, renderFloat, formatDate).error.message
              == INVALID_ISSUE + ListText(issue.DelegatingErrors())
  {
  }

  /** The XML of a valid issue: it opens with `<issue>` and the project's (non-null) id, closes
      with `</issue>`, always names the priority by its (non-null) id, and carries the subject
      verbatim. */
  lemma ValidIssueXml(issue: Issue, renderFloat: real -> string, formatDate: Date -> string)
    requires issue.DelegatingErrors() == []
    ensures issue.project != null && issue.project.id.Some?
    ensures issue.priority != null && issue.priority.id.Some? && issue.subject.Some?
    ensures var r := CreateIssueXml(issue, renderFloat, formatDate);
      && r.Success?
      && ISSUE_OPEN + "<project_id>" + IntToString(issue.project.id.value) + "</project_id>" <= r.value
      && EndsWith(r.value, ISSUE_CLOSE)
    ensures var es := Elements(View(issue), renderFloat, formatDate);
      && Lookup(es, PriorityId) == Some(IntToString(issue.priority.id.value))
      && Lookup(es, SubjectTag) == Some(issue.subject.value)
  {
    ValidIssueHasSubjectAndPriority(issue);
    var v := View(issue);
    DocumentFrame(v, renderFloat, formatDate);
    ElementsOfHeader(v, renderFloat, formatDate);
    ElementsOfClassifiers(v, renderFloat, formatDate);
  }

  /** `serializeFloat`: null becomes the empty text, any other value goes to the binding
      library's float rendering. */
  function SerializeFloat(value: Option<real>, serialize: real -> string): string
  {
    if value.None? then "" else serialize(value.value)
  }

  /** `deserializeFloat`: unqualified text is null; any other text goes to the binding library's
      parser, whose failure propagates. */
  function DeserializeFloat(text: Option<string>, parse: string -> Result<real, Exception>)
    : Result<Option<real>, Exception>
  {
    if !IsQualifiedString(text) then Success(None)
    else
      var x :- parse(text.value);
      Success(Some(x))
  }

  /** `serializeDate`: null becomes the empty text, any other date goes to the binding library's
      date rendering. */
  function SerializeDate(value: Option<Date>, serialize: Date -> string): string
  {
    if value.None? then "" else serialize(value.value)
  }

  /** `deserializeDate`: unqualified text is null; otherwise the `yyyy-MM-dd` format, then the
      format of Redmine's timestamps, then the binding library's own parser, whose failure
      propagates. The two formats' parsers give no date where Java throws `ParseException`. */
  function DeserializeDate(text: Option<string>, parseSimple: string -> Option<Date>,
                           parseRedmine: string -> Option<Date>, parseBinding: string -> Result<Date, Exception>)
    : Result<Option<Date>, Exception>
  {
    if !IsQualifiedString(text) then Success(None)
    else if parseSimple(text.value).Some? then Success(parseSimple(text.value))
    else if parseRedmine(text.value).Some? then Success(parseRedmine(text.value))
    else
      var d :- parseBinding(text.value);
      Success(Some(d))
  }

  /** Null survives serializing and deserializing, for floats and dates alike. */
  lemma NullRoundTrip(serializeFloat: real -> string, parseFloat: string -> Result<real, Exception>,
                      serializeDate: Date -> string, parseSimple: string -> Option<Date>,
                      parseRedmine: string -> Option<Date>, parseBinding: string -> Result<Date, Exception>)
    ensures DeserializeFloat(Some(SerializeFloat(None, serializeFloat)), parseFloat) == Success(None)
    ensures DeserializeDate(Some(SerializeDate(None, serializeDate)), parseSimple, parseRedmine, parseBinding)
            == Success(None)
  {
  }

  /** Text made of nothing but characters `trim` removes (blank, or control characters) reads
      back as null without reaching any parser. */
  lemma BlankTextIsNull(text: string, parseFloat: string -> Result<real, Exception>,
                        parseSimple: string -> Option<Date>, parseRedmine: string -> Option<Date>,
                        parseBinding: string -> Result<Date, Exception>)
    requires forall k :: 0 <= k < |text| ==> text[k] <= ' '
    ensures DeserializeFloat(Some(text), parseFloat) == Success(None)
    ensures DeserializeDate(Some(text), parseSimple, parseRedmine, parseBinding) == Success(None)
  {
    QualifiedIffVisibleChar(text);
  }

  /** A float whose rendering the library parses back, and which renders to qualified text,
      survives the wrappers unchanged. */
  lemma FloatRoundTrip(x: real, serialize: real -> string, parse: string -> Result<real, Exception>)
    requires IsQualifiedString(Some(serialize(x)))
    requires parse(serialize(x)) == Success(x)
    ensures DeserializeFloat(Some(SerializeFloat(Some(x), serialize)), parse) == Success(Some(x))
  {
  }

  /** A date that the `yyyy-MM-dd` format reads back from its rendering survives the wrappers
      unchanged, whatever the later formats would do. */
  lemma DateRoundTrip(d: Date, serialize: Date -> string, parseSimple: string -> Option<Date>,
                      parseRedmine: string -> Option<Date>, parseBinding: string -> Result<Date, Exception>)
    requires IsQualifiedString(Some(serialize(d)))
    requires parseSimple(serialize(d)) == Some(d)
    ensures DeserializeDate(Some(SerializeDate(Some(d), serialize)), parseSimple, parseRedmine, parseBinding)
            == Success(Some(d))
  {
  }

  /** Deserializing fails only when every format has rejected the text and so has the binding
      library, with the library's error. */
  lemma DeserializeDateFails(text: Option<string>, parseSimple: string -> Option<Date>,
                             parseRedmine: string -> Option<Date>, parseBinding: string -> Result<Date, Exception>)
    ensures DeserializeDate(text, parseSimple, parseRedmine, parseBinding).Failure?
            <==> IsQualifiedString(text) && parseSimple(text.value).None? && parseRedmine(text.value).None?
                 && parseBinding(text.value).Failure?
  {
  }
}
