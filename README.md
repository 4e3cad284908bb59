# Redmine JConnector, modelled in Dafny

Redmine JConnector is a Java client for the REST interface of the Redmine project tracker. This
project models its core:

- the business objects (`Project`, `User`, `UserRole`, `UserGroup`, `ProjectMembership`,
  `Status`, `Tracker`, `Priority`, `Issue`) and their `validate(List<String>)` methods, which append
  messages to the caller's list in place;
- the `Utilities` helpers: qualified strings, argument assertions, the tokenizer and the
  request-URL if-chain;
- `RCException`, with its lazily parsed and cached error list and its composed message;
- `DefaultDataPaginator`, which walks a server-side list page by page with 64-bit index
  bookkeeping;
- the issue-create XML that `JIBXXMLJavaConvertor` writes by hand, and the convertor's null-tolerant
  float and date serializers;
- `ConfigurationManager`, which loads a comma-separated list of property files into one store;
- the parts of `RedmineConnector` that validate its arguments, build paginators, wrap exceptions,
  and create, update or delete objects.

Each object whose fields the Java code updates is a Dafny `class`. Its methods are proved against
a function of the old state. For example, every `Validate` appends exactly what its class's
`Errors()` function lists, and `NextPageRecords` follows the cursor function `NextPage`. What the
code promises is then proved about those functions as lemmas.

The model follows the code as written where the code is surprising:

- `UserRole` and `UserGroup` report "Name is not set" when the name IS qualified.
- `getUsersIterator` pages with the projects container.
- `prepareRedmineRequestURL` returns null for every type it recognises.
- `getAllRecords` ignores its own paginator and drains the issues paginator that the shared connector's `getIssues()` returns.
- `hasMoreRecords` takes `total - index` in 64-bit arithmetic and reads a result of
  `Long.MIN_VALUE` as the unknown-total sentinel.
- `RCRuntimeException` is not an `RCException`, so `handleException` wraps it as `ILLEGAL_STATE`.

The line numbers in the table refer to several copies of the code:

- the connector, paginator, `Issue`, `Project`, `User`, `UserGroup` and `ProjectMembership` come
  from `trunk`;
- `RCException`, the two-argument assertions, `Tracker` and `Priority` come from `branches/1-0`;
- `ConfigurationManager` comes from `branches/1-1`;
- the convertor, `Status` and the delegating `Issue.validate` come from the main `src` line; the
  `Project.validate` and `User.validate` that this `Issue.validate` reaches are modelled by the
  `trunk` classes (`Bdo.Project`, `Bdo.User`);
- `UserRole` comes from `tags/v1-1`;
- the id-only `User` (module `LegacyBdo`) comes from `tags/redminejconnector-0-7`.

The Java `Long`, `Integer` and `Float` values are modelled as follows:

- `Long` is an unbounded integer. It is wrapped explicitly to 64 bits where the paginator's
  arithmetic can overflow.
- `Integer` is an integer.
- `Float` is a `real`. Its rendering and parsing are parameters.

## Model

| member | source | states |
|---|---|---|
| Errors.ErrorCodesDistinct | trunk/src/com/vedantatree/redmineconnector/RCRuntimeException.java:6-12 | The seven error codes shared by both exception classes are pairwise distinct. |
| Utilities.QualifiedIffVisibleChar | trunk/src/com/vedantatree/redmineconnector/utils/Utilities.java:43-46 | A non-null string is qualified exactly when it holds a character above the space, the characters `trim` keeps. |
| Utilities.NullNotQualified | trunk/src/com/vedantatree/redmineconnector/utils/Utilities.java:43-46 | Null is never a qualified string. |
| Utilities.AssertQualifiedString | trunk/src/com/vedantatree/redmineconnector/utils/Utilities.java:29-35 | Passes exactly for a qualified string; otherwise an `IllegalArgumentException`. |
| Utilities.AssertNotNullArgument | trunk/src/com/vedantatree/redmineconnector/utils/Utilities.java:17-27 | A null object is refused, a string must be qualified, and any other object passes. |
| Utilities.AssertQualifiedStringNamed | branches/1-0/src/com/vedantatree/redmineconnector/utils/Utilities.java:38-45 | Passes exactly for a qualified string; a failure is an `IllegalArgumentException` whose message names the argument. |
| Utilities.AssertNotNullArgumentNamed | branches/1-0/src/com/vedantatree/redmineconnector/utils/Utilities.java:26-36 | Fails exactly for null and for an unqualified string, with an `IllegalArgumentException`. |
| Utilities.SkipFrom | trunk/src/com/vedantatree/redmineconnector/utils/Utilities.java:48-61 | The scanner's skip over delimiters stops at the first non-delimiter, or at the end. |
| Utilities.ScanFrom | trunk/src/com/vedantatree/redmineconnector/utils/Utilities.java:48-61 | The scanner's token read stops at the first delimiter, or at the end, and every character it passed is a non-delimiter. |
| Utilities.GetTokenizedString | trunk/src/com/vedantatree/redmineconnector/utils/Utilities.java:48-61 | The loop over the tokenizer returns null when there are no tokens, and otherwise exactly the token list `Tokens` defines. |
| Utilities.TokensFromWellFormed | trunk/src/com/vedantatree/redmineconnector/utils/Utilities.java:48-61 | Every token from a position on is non-empty and free of delimiters. |
| Utilities.TokensWellFormed | trunk/src/com/vedantatree/redmineconnector/utils/Utilities.java:48-61 | Every token is non-empty and holds no delimiter. |
| Utilities.TokensEmptyIff | trunk/src/com/vedantatree/redmineconnector/utils/Utilities.java:48-61 | A string has no tokens exactly when it consists of delimiters only, so the result is null exactly then. |
| Utilities.KeptSkips | trunk/src/com/vedantatree/redmineconnector/utils/Utilities.java:48-61 | Delimiters contribute nothing to the kept characters. |
| Utilities.KeptTakes | trunk/src/com/vedantatree/redmineconnector/utils/Utilities.java:48-61 | A run of non-delimiters is kept as it stands. |
| Utilities.TokensFromKept | trunk/src/com/vedantatree/redmineconnector/utils/Utilities.java:48-61 | The tokens from a position on, concatenated, are the non-delimiter characters from there, in order. |
| Utilities.TokensContent | trunk/src/com/vedantatree/redmineconnector/utils/Utilities.java:48-61 | Concatenating the tokens gives the string with its delimiters removed: nothing is lost, reordered or added. |
| Utilities.RunStartsSkip | trunk/src/com/vedantatree/redmineconnector/utils/Utilities.java:48-61 | Skipping delimiters passes no start of a run. |
| Utilities.RunStartsInside | trunk/src/com/vedantatree/redmineconnector/utils/Utilities.java:48-61 | Reading inside a run passes no start of another run. |
| Utilities.TokensFromCount | trunk/src/com/vedantatree/redmineconnector/utils/Utilities.java:48-61 | From a token boundary, there are as many tokens as maximal runs of non-delimiters begin from there. |
| Utilities.TokenCount | trunk/src/com/vedantatree/redmineconnector/utils/Utilities.java:48-61 | There is one token per maximal run of non-delimiters. |
| Utilities.PrepareRedmineRequestURL | branches/1-0/src/com/vedantatree/redmineconnector/utils/Utilities.java:74-117 | Throws an `ILLEGAL_STATE` `RCRuntimeException` exactly for an unrecognised type, and otherwise returns null. |
| Utilities.SegmentTable | branches/1-0/src/com/vedantatree/redmineconnector/utils/Utilities.java:79-102 | Each of the six recognised types selects its own path segment, and no two types share one. |
| JavaLang.TrimLeadingEmpty | trunk/src/com/vedantatree/redmineconnector/utils/Utilities.java:43-46 | Trimming the front leaves nothing exactly when no character is above the space. |
| JavaLang.TrimTrailingKeepsHead | trunk/src/com/vedantatree/redmineconnector/utils/Utilities.java:43-46 | A string that starts with a visible character keeps it when trimmed at the back. |
| JavaLang.WrapLong | trunk/src/com/vedantatree/redmineconnector/DefaultDataPaginator.java:203-209 | Java's 64-bit `long` arithmetic leaves every value in range unchanged. |
| Bdo.Project.Validate | trunk/src/com/vedantatree/redmineconnector/bdo/Project.java:113-137 | Appends the project's messages to the caller's list, or to a fresh list for null, and returns that list. |
| Bdo.ProjectErrorsMeaning | trunk/src/com/vedantatree/redmineconnector/bdo/Project.java:119-130 | Each of the id, name and identifier messages appears exactly when its check fails; the project validates exactly when all three hold. |
| Bdo.ProjectErrorsIgnoreDescription | trunk/src/com/vedantatree/redmineconnector/bdo/Project.java:113-137 | The description and home page (whose check is commented out) have no effect on the messages. |
| Bdo.User.WithId | trunk/src/com/vedantatree/redmineconnector/bdo/User.java:69-76 | The id constructor sets the id and leaves every other field null. |
| Bdo.FullNameIgnoresName | trunk/src/com/vedantatree/redmineconnector/bdo/User.java:178-185 | With a qualified first name the full name is never null, starts with the first name and a space, and does not depend on the user name. |
| Bdo.FullNameNullLastName | trunk/src/com/vedantatree/redmineconnector/bdo/User.java:178-185 | With a qualified first name and no last name, the full name ends in the text `null`. |
| Bdo.FullNameNullIff | trunk/src/com/vedantatree/redmineconnector/bdo/User.java:178-185 | The full name is null exactly when the first name is not qualified and the user has no name. |
| Bdo.FullNameFallsBack | trunk/src/com/vedantatree/redmineconnector/bdo/User.java:178-185 | Without a qualified first name the last name plays no part: users differing only in last name have the same full name. |
| Bdo.User.Validate | trunk/src/com/vedantatree/redmineconnector/bdo/User.java:187-211 | Appends the user's messages in place, or to a fresh list for null, and returns that list. |
| Bdo.UserErrorsMeaning | trunk/src/com/vedantatree/redmineconnector/bdo/User.java:187-211 | Each message appears exactly when its check fails; a user validates exactly with an id and a qualified first name, last name and email; a missing id is reported first. |
| Bdo.UserRole.SetId | tags/v1-1/src/com/vedantatree/redmineconnector/bdo/UserRole.java:21-24 | Sets the id and leaves the name alone. |
| Bdo.UserRole.SetName | tags/v1-1/src/com/vedantatree/redmineconnector/bdo/UserRole.java:31-34 | Sets the name and leaves the id alone. |
| Bdo.UserRole.Validate | tags/v1-1/src/com/vedantatree/redmineconnector/bdo/UserRole.java:36-51 | Appends the role's messages in place, or to a fresh list for null, and returns that list. |
| Bdo.UserRoleErrorsMeaning | tags/v1-1/src/com/vedantatree/redmineconnector/bdo/UserRole.java:36-51 | A missing id is reported, and a qualified name is reported as unset, as written; a role validates exactly with an id and an unqualified name. |
| Bdo.UserGroup.SetId | trunk/src/com/vedantatree/redmineconnector/bdo/UserGroup.java:22-25 | Sets the id and leaves the name alone. |
| Bdo.UserGroup.SetName | trunk/src/com/vedantatree/redmineconnector/bdo/UserGroup.java:32-35 | Sets the name and leaves the id alone. |
| Bdo.UserGroup.Validate | trunk/src/com/vedantatree/redmineconnector/bdo/UserGroup.java:37-52 | Appends the group's messages in place, or to a fresh list for null, and returns that list. |
| Bdo.UserGroupErrorsMeaning | trunk/src/com/vedantatree/redmineconnector/bdo/UserGroup.java:37-52 | A missing id is reported, and a qualified name is reported as unset, as written; a group validates exactly with an id and an unqualified name. |
| Bdo.UserGroupNameCheckInverted | src/com/vedantatree/redmineconnector/bdo/UserGroup.java:24-39 | With an id, a group named `developers` gets `Name is not set` and a group with no name validates: the name check is inverted in both versions. |
| Bdo.RoleErrorsEmptyIff | trunk/src/com/vedantatree/redmineconnector/bdo/ProjectMembership.java:53-60 | The roles add no message exactly when every role validates on its own. |
| Bdo.RoleErrorsSnoc | trunk/src/com/vedantatree/redmineconnector/bdo/ProjectMembership.java:53-60 | Validating one more role appends exactly that role's messages. |
| Bdo.ValidateRoles | trunk/src/com/vedantatree/redmineconnector/bdo/ProjectMembership.java:53-60 | The loop validates every role into the same list, in list order. |
| Bdo.ProjectMembership.Errors | trunk/src/com/vedantatree/redmineconnector/bdo/ProjectMembership.java:39-62 | A null project is always reported, and so is a missing or empty role list. |
| Bdo.ProjectMembership.Validate | trunk/src/com/vedantatree/redmineconnector/bdo/ProjectMembership.java:39-62 | Appends the membership's messages in place, or to a fresh list for null, and returns that list. |
| Bdo.MembershipErrorsEmptyIff | trunk/src/com/vedantatree/redmineconnector/bdo/ProjectMembership.java:39-62 | A membership validates exactly when it has a project and a non-empty role list whose every role validates. |
| Bdo.MembershipValidRolesAreNameless | trunk/src/com/vedantatree/redmineconnector/bdo/ProjectMembership.java:39-62 | Because of the inverted role-name check, every role of a valid membership has an id and no qualified name. |
| Bdo.Status.WithId | src/com/vedantatree/redmineconnector/bdo/Status.java:30-38 | The id constructor sets the id and leaves the name null. |
| Bdo.Status.SetId | src/com/vedantatree/redmineconnector/bdo/Status.java:45-58 | Sets the id and leaves the name alone. |
| Bdo.Status.SetName | src/com/vedantatree/redmineconnector/bdo/Status.java:45-58 | Sets the name and leaves the id alone. |
| Bdo.Status.Errors | src/com/vedantatree/redmineconnector/bdo/Status.java:60-71 | No message exactly when the id is set; otherwise only the id message. |
| Bdo.Status.Validate | src/com/vedantatree/redmineconnector/bdo/Status.java:60-71 | Appends the status's messages in place, or to a fresh list for null, and returns that list. |
| Bdo.Tracker.WithId | branches/1-0/src/com/vedantatree/redmineconnector/bdo/Tracker.java:23-30 | The id constructor sets the id and leaves the name null. |
| Bdo.Tracker.SetId | branches/1-0/src/com/vedantatree/redmineconnector/bdo/Tracker.java:40-53 | Sets the id and leaves the name alone. |
| Bdo.Tracker.SetName | branches/1-0/src/com/vedantatree/redmineconnector/bdo/Tracker.java:40-53 | Sets the name and leaves the id alone. |
| Bdo.Tracker.Errors | branches/1-0/src/com/vedantatree/redmineconnector/bdo/Tracker.java:55-66 | No message exactly when the id is set; otherwise only the id message. |
| Bdo.Tracker.Validate | branches/1-0/src/com/vedantatree/redmineconnector/bdo/Tracker.java:55-66 | Appends the tracker's messages in place, or to a fresh list for null, and returns that list. |
| Bdo.Priority.WithId | branches/1-0/src/com/vedantatree/redmineconnector/bdo/Priority.java:24-31 | The id constructor sets the id and leaves the name null. |
| Bdo.Priority.SetId | branches/1-0/src/com/vedantatree/redmineconnector/bdo/Priority.java:38-51 | Sets the id and leaves the name alone. |
| Bdo.Priority.SetName | branches/1-0/src/com/vedantatree/redmineconnector/bdo/Priority.java:38-51 | Sets the name and leaves the id alone. |
| Bdo.Priority.Errors | branches/1-0/src/com/vedantatree/redmineconnector/bdo/Priority.java:53-64 | No message exactly when the id is set; otherwise only the id message. |
| Bdo.Priority.Validate | branches/1-0/src/com/vedantatree/redmineconnector/bdo/Priority.java:53-64 | Appends the priority's messages in place, or to a fresh list for null, and returns that list. |
| Bdo.WellKnownIds | branches/1-0/src/com/vedantatree/redmineconnector/bdo/Priority.java:15-19 | The well-known priorities are ids 3 to 7, the trackers 1 to 3 and the statuses 1 to 7, each distinct within its class. |
| LegacyBdo.User.WithId | tags/redminejconnector-0-7/src/com/vedantatree/redmineconnector/bdo/User.java:24-31 | The id constructor sets the id and leaves the name null. |
| LegacyBdo.User.SetId | tags/redminejconnector-0-7/src/com/vedantatree/redmineconnector/bdo/User.java:38-41 | Sets the id and leaves the name alone. |
| LegacyBdo.User.SetName | tags/redminejconnector-0-7/src/com/vedantatree/redmineconnector/bdo/User.java:48-51 | Sets the name and leaves the id alone. |
| LegacyBdo.User.Errors | tags/redminejconnector-0-7/src/com/vedantatree/redmineconnector/bdo/User.java:53-64 | No message exactly when the id is set; the name is never checked. |
| LegacyBdo.User.Validate | tags/redminejconnector-0-7/src/com/vedantatree/redmineconnector/bdo/User.java:53-64 | Appends the user's messages in place, or to a fresh list for null, and returns that list. |
| LegacyBdo.RedmineAdmin | tags/redminejconnector-0-7/src/com/vedantatree/redmineconnector/bdo/User.java:19 | The administrator is a user with id 1 and no name, and it validates. |
| Issues.Issue.constructor | trunk/src/com/vedantatree/redmineconnector/bdo/Issue.java:39-41 | A new issue has 0 estimated and spent hours, 0 percent done, and every other field null. |
| Issues.Issue.SetSpentEfforts | trunk/src/com/vedantatree/redmineconnector/bdo/Issue.java:162-170 | A null value is a `NullPointerException` and any non-zero value an `UnsupportedOperationException`, both leaving the issue unchanged; only zero is stored; no other field is ever touched. |
| Issues.Issue.Validate | trunk/src/com/vedantatree/redmineconnector/bdo/Issue.java:227-279 | Appends the trunk variant's messages in place, or to a fresh list for null, and returns that list. |
| Issues.Issue.ValidateProjectInline | trunk/src/com/vedantatree/redmineconnector/bdo/Issue.java:233-252 | Appends the trunk variant's inline project messages. |
| Issues.Issue.ValidateDelegating | src/com/vedantatree/redmineconnector/bdo/Issue.java:219-259 | Appends the delegating variant's messages in place, or to a fresh list for null, and returns that list. |
| Issues.Issue.ValidateOthers | trunk/src/com/vedantatree/redmineconnector/bdo/Issue.java:253-276 | Appends the subject, priority, author, assignee and tracker messages, in that order. |
| Issues.InlineProjectErrorsMeaning | trunk/src/com/vedantatree/redmineconnector/bdo/Issue.java:233-252 | A null project gives only the project message; otherwise the id and name messages appear exactly when their checks fail, and the identifier is never reported. |
| Issues.ValidIssueHasSubjectAndPriority | trunk/src/com/vedantatree/redmineconnector/bdo/Issue.java:253-264 | An issue that validates, in either variant, has a qualified subject, a priority with an id, and a project with an id and a qualified name. |
| Issues.VariantsDiffer | src/com/vedantatree/redmineconnector/bdo/Issue.java:225-232 | The two variants report the same messages, except for a project with an unqualified identifier, where the delegating one adds exactly the identifier message. |
| RCExceptions.RCException.WithMessage | branches/1-0/src/com/vedantatree/redmineconnector/RCException.java:38-42 | Keeps the code and message; no response XML, cause or cached errors. |
| RCExceptions.RCException.WithResponse | branches/1-0/src/com/vedantatree/redmineconnector/RCException.java:44-49 | Keeps the code, message and response XML; no cause or cached errors. |
| RCExceptions.RCException.WithCause | branches/1-0/src/com/vedantatree/redmineconnector/RCException.java:51-55 | Keeps the code and cause; the message is the cause's text, or null without a cause. |
| RCExceptions.RCException.WithMessageAndCause | branches/1-0/src/com/vedantatree/redmineconnector/RCException.java:57-61 | Keeps the code, message and cause; no response XML or cached errors. |
| RCExceptions.RCException.GetErrors | branches/1-0/src/com/vedantatree/redmineconnector/RCException.java:73-90 | Returns the cached list when there is one, or else the parsed list (empty without qualified XML), and caches every successful result. |
| RCExceptions.FetchErrorsMemoized | branches/1-0/src/com/vedantatree/redmineconnector/RCException.java:73-90 | After one successful call, every later call returns the same list, whatever the parser would now say. |
| RCExceptions.FetchErrorsWithoutXml | branches/1-0/src/com/vedantatree/redmineconnector/RCException.java:73-90 | Without a qualified response XML the list is empty and nothing is parsed. |
| RCExceptions.FetchErrorsFails | branches/1-0/src/com/vedantatree/redmineconnector/RCException.java:73-90 | A call fails exactly when nothing is cached, the XML is qualified and the parser fails. |
| RCExceptions.RCException.GetMessage | branches/1-0/src/com/vedantatree/redmineconnector/RCException.java:92-116 | Returns the message `MessageOf` defines from the fields, and changes nothing. |
| RCExceptions.RCException.AppendDescriptions | branches/1-0/src/com/vedantatree/redmineconnector/RCException.java:100-106 | The loop appends every description, each followed by ` :: `, in list order. |
| RCExceptions.DescriptionsAppend | branches/1-0/src/com/vedantatree/redmineconnector/RCException.java:100-106 | The descriptions of two lists in a row are the descriptions of the joined list. |
| RCExceptions.DescriptionsSingle | branches/1-0/src/com/vedantatree/redmineconnector/RCException.java:100-106 | One error contributes its description (or `null`) and the separator. |
| RCExceptions.MessageFrame | branches/1-0/src/com/vedantatree/redmineconnector/RCException.java:92-116 | The message fails exactly for a null base message; otherwise it starts with the base message and the error code and ends with `]`. |
| RCExceptions.DetailsBranches | branches/1-0/src/com/vedantatree/redmineconnector/RCException.java:97-113 | Cached errors are listed when there are any; otherwise qualified response XML is shown in brackets; otherwise nothing. |
| Configuration.ConfigurationManager.Empty | branches/1-1/src/com/vedantatree/redmineconnector/utils/ConfigurationManager.java:33-39 | A new manager has an empty store and is not initialized. |
| Configuration.ConfigurationManager.Create | branches/1-1/src/com/vedantatree/redmineconnector/utils/ConfigurationManager.java:41-52 | Succeeds exactly when the default file loads, with the loaded store; otherwise an `IllegalStateException` that wraps the loading exception. |
| Configuration.ConfigurationManager.EnsurePropertiesLoaded | branches/1-1/src/com/vedantatree/redmineconnector/utils/ConfigurationManager.java:59-102 | The new store and the outcome are those `EnsureLoaded` defines from the old store, the file system and the file list. |
| Configuration.LoadAllMeaning | branches/1-1/src/com/vedantatree/redmineconnector/utils/ConfigurationManager.java:76-92 | Loading succeeds exactly when every named file opens and reads; the store then gains the merged pairs, and it is initialized once any file has loaded. |
| Configuration.MapUnionAssoc | branches/1-1/src/com/vedantatree/redmineconnector/utils/ConfigurationManager.java:76-92 | Merging one file after another is associative. |
| Configuration.LastFileWins | branches/1-1/src/com/vedantatree/redmineconnector/utils/ConfigurationManager.java:76-92 | A key gets its value from the last file that holds it. |
| Configuration.MergedKeys | branches/1-1/src/com/vedantatree/redmineconnector/utils/ConfigurationManager.java:76-92 | A key no file holds is not in the store afterwards. |
| Configuration.LoadAllStops | branches/1-1/src/com/vedantatree/redmineconnector/utils/ConfigurationManager.java:76-92 | After a failure no later file is loaded. |
| Configuration.Step | branches/1-1/src/com/vedantatree/redmineconnector/utils/ConfigurationManager.java:76-92 | One turn of the loop loads the next file into the store built so far. |
| Configuration.StopsAt | branches/1-1/src/com/vedantatree/redmineconnector/utils/ConfigurationManager.java:76-92 | Failing at one file is the outcome of the whole list. |
| Configuration.MissingFileStops | branches/1-1/src/com/vedantatree/redmineconnector/utils/ConfigurationManager.java:104-136 | A missing file is `RESOURCE_NOT_FOUND` naming that file, whatever follows it. |
| Configuration.UnreadableFileStops | branches/1-1/src/com/vedantatree/redmineconnector/utils/ConfigurationManager.java:76-99 | A file whose reading fails is `IO_ERROR` wrapping the `IOException`; the store keeps the earlier files' pairs and the pairs read before the failure, and no later file is loaded. |
| Configuration.CommasOnlyRejected | branches/1-1/src/com/vedantatree/redmineconnector/utils/ConfigurationManager.java:65-71 | A file list of commas only, the empty list included, is `ILLEGAL_ARGUMENT`, and the store is left unchanged. |
| Configuration.GetPropertyValueMeaning | branches/1-1/src/com/vedantatree/redmineconnector/utils/ConfigurationManager.java:155-174 | Without initialization an `IllegalStateException`; then a null name is a `NullPointerException`; then a missing key an `IllegalStateException`; otherwise the stored value, never null. |
| Configuration.ContainsPropertyIff | branches/1-1/src/com/vedantatree/redmineconnector/utils/ConfigurationManager.java:144-147 | Throws exactly for a null name (a `NullPointerException`), loaded or not; otherwise holds exactly when a value is stored, and agrees with `getPropertyValue` once initialized. |
| Paginator.LastFailingCheckWins | trunk/src/com/vedantatree/redmineconnector/DefaultDataPaginator.java:93-121 | Construction fails exactly when one of the four checks fails, always with `ILLEGAL_ARGUMENT`, and the message is that of the last failing check. |
| Paginator.HasMore | trunk/src/com/vedantatree/redmineconnector/DefaultDataPaginator.java:158-169 | Always true before the first page; with a known non-negative total and index, true exactly when the index is below the total. |
| Paginator.WrapLongAdd | trunk/src/com/vedantatree/redmineconnector/DefaultDataPaginator.java:203-209 | Advancing the index twice in 64-bit arithmetic is one 64-bit addition of the sum. |
| Paginator.ModShift | trunk/src/com/vedantatree/redmineconnector/DefaultDataPaginator.java:203-209 | Adding a whole number of 2^64 steps does not change the 64-bit value. |
| Paginator.DefaultDataPaginator.Init | trunk/src/com/vedantatree/redmineconnector/DefaultDataPaginator.java:81-91 | Stores the four arguments; the retrieval index is the start index and the total is unknown. |
| Paginator.DefaultDataPaginator.Create | trunk/src/com/vedantatree/redmineconnector/DefaultDataPaginator.java:81-91 | Fails exactly when validation fails, with its exception; otherwise a fresh paginator holding the arguments, at its start, with nothing returned. |
| Paginator.DefaultDataPaginator.CreateDefault | trunk/src/com/vedantatree/redmineconnector/DefaultDataPaginator.java:71-74 | Start 0 and page size 0, then as the four-argument constructor. |
| Paginator.DefaultDataPaginator.CreateWithPageSize | trunk/src/com/vedantatree/redmineconnector/DefaultDataPaginator.java:76-79 | Start 0 and the given page size, then as the four-argument constructor. |
| Paginator.DefaultDataPaginator.NextPageRecords | trunk/src/com/vedantatree/redmineconnector/DefaultDataPaginator.java:172-210 | The new cursor and the result are those `NextPage` defines, and the records returned so far grow by exactly the page handed over. |
| Paginator.DefaultDataPaginator.Advance | trunk/src/com/vedantatree/redmineconnector/DefaultDataPaginator.java:203-209 | The index moves on by the page length in 64-bit arithmetic, the total becomes the server's, and the page joins the returned records. |
| Paginator.DefaultDataPaginator.GetAllRecords | trunk/src/com/vedantatree/redmineconnector/DefaultDataPaginator.java:213-225 | Given a new issues paginator other than this one (record 0, 25 per page, nothing returned), the result is the one `AllRecords` defines from its start; this paginator is left unchanged; a successful result is every record the issues paginator handed over. |
| Paginator.NextPageExhausted | trunk/src/com/vedantatree/redmineconnector/DefaultDataPaginator.java:176-182 | Once the known total is reached, the call throws `ILLEGAL_STATE`, fetches nothing and changes nothing. |
| Paginator.NextPageRequest | trunk/src/com/vedantatree/redmineconnector/DefaultDataPaginator.java:184-185 | Otherwise the only request is for the page at offset equal to the index with the page size as limit. |
| Paginator.NextPageOutcomes | trunk/src/com/vedantatree/redmineconnector/DefaultDataPaginator.java:191-209 | A null list sets the total to 0 and returns null; a list longer than the page size is `ILLEGAL_STATE`; any other list is returned and advances the index. |
| Paginator.NextPageIndex | trunk/src/com/vedantatree/redmineconnector/DefaultDataPaginator.java:203-209 | Away from overflow the index grows by exactly the records handed over, and a failed call changes nothing. |
| Paginator.TotalRecordsCountMeaning | trunk/src/com/vedantatree/redmineconnector/DefaultDataPaginator.java:146-155 | The total is `ILLEGAL_STATE` until a page has stored one, and then it is that total. |
| Paginator.AllRecordsStep | trunk/src/com/vedantatree/redmineconnector/DefaultDataPaginator.java:213-225 | A turn that receives a page appends it and goes on from the new cursor. |
| Paginator.AllRecordsStops | trunk/src/com/vedantatree/redmineconnector/DefaultDataPaginator.java:213-225 | Without fuel the result is none; an exception of `nextPageRecords` is the result; a null page is the `NullPointerException` of `addAll`. |
| Paginator.AllRecordsExtends | trunk/src/com/vedantatree/redmineconnector/DefaultDataPaginator.java:213-225 | The records gathered so far head the final list. |
| Paginator.AllRecordsFuel | trunk/src/com/vedantatree/redmineconnector/DefaultDataPaginator.java:213-225 | A bound on the turns that suffices gives the same result as any larger bound. |
| XmlConvertor.Rank | src/com/vedantatree/redmineconnector/JIBXXMLJavaConvertor.java:192-242 | Each element has a position below the element count in the convertor's fixed order. |
| XmlConvertor.RankInjective | src/com/vedantatree/redmineconnector/JIBXXMLJavaConvertor.java:192-242 | No two elements share a position. |
| XmlConvertor.Lookup | src/com/vedantatree/redmineconnector/JIBXXMLJavaConvertor.java:192-242 | A found text belongs to an element with that tag; nothing found means no element has that tag. |
| XmlConvertor.Slot | src/com/vedantatree/redmineconnector/JIBXXMLJavaConvertor.java:192-242 | An element appended under an `if (value != null)` carries its own tag. |
| XmlConvertor.HeadSlots | src/com/vedantatree/redmineconnector/JIBXXMLJavaConvertor.java:192-219 | The project, parent, subject, tracker, priority and start date parts. |
| XmlConvertor.Slots | src/com/vedantatree/redmineconnector/JIBXXMLJavaConvertor.java:192-242 | One part per element of the document, twelve in all. |
| XmlConvertor.IssueXMLToCreateIssue | src/com/vedantatree/redmineconnector/JIBXXMLJavaConvertor.java:178-249 | Returns the outcome `CreateIssueXml` defines from the issue. |
| XmlConvertor.AppendElements | src/com/vedantatree/redmineconnector/JIBXXMLJavaConvertor.java:192-242 | The appends from `<issue>` to the description give `<issue>` followed by the rendered elements, in order. |
| XmlConvertor.AppendHead | src/com/vedantatree/redmineconnector/JIBXXMLJavaConvertor.java:192-219 | `<issue>` and the rendered elements of the first six parts. |
| XmlConvertor.AppendSlot | src/com/vedantatree/redmineconnector/JIBXXMLJavaConvertor.java:192-242 | One `if` appends its element exactly when it is set. |
| XmlConvertor.RenderAllSnoc | src/com/vedantatree/redmineconnector/JIBXXMLJavaConvertor.java:192-242 | Rendering one more element appends its rendering. |
| XmlConvertor.Extend | src/com/vedantatree/redmineconnector/JIBXXMLJavaConvertor.java:192-242 | Appending a part to the text so far renders the longer part list. |
| XmlConvertor.LookupSnoc | src/com/vedantatree/redmineconnector/JIBXXMLJavaConvertor.java:192-242 | Looking up a tag after one more element finds that element when it has the tag. |
| XmlConvertor.LookupPresent | src/com/vedantatree/redmineconnector/JIBXXMLJavaConvertor.java:192-242 | In the document, a tag's text is that of its part when the part is set, and nothing otherwise. |
| XmlConvertor.LookupRanked | src/com/vedantatree/redmineconnector/JIBXXMLJavaConvertor.java:192-242 | The same under any ranking in which the tag looked up holds a position of its own. |
| XmlConvertor.RankedInit | src/com/vedantatree/redmineconnector/JIBXXMLJavaConvertor.java:192-242 | Dropping the last part keeps every part at its position. |
| XmlConvertor.PresentOrdered | src/com/vedantatree/redmineconnector/JIBXXMLJavaConvertor.java:192-242 | The elements of the set parts come out in increasing position. |
| XmlConvertor.SlotsRanked | src/com/vedantatree/redmineconnector/JIBXXMLJavaConvertor.java:192-242 | Every set part of the document holds the element of its position. |
| XmlConvertor.RankedSnoc | src/com/vedantatree/redmineconnector/JIBXXMLJavaConvertor.java:192-242 | Appending a part of the next position keeps the parts ranked. |
| XmlConvertor.ElementsOfHeader | src/com/vedantatree/redmineconnector/JIBXXMLJavaConvertor.java:192-199 | The project id and subject are always present; the parent id exactly when a parent is set. |
| XmlConvertor.ElementsOfClassifiers | src/com/vedantatree/redmineconnector/JIBXXMLJavaConvertor.java:200-225 | The tracker, priority and assignee ids each appear exactly when the object is set. |
| XmlConvertor.ElementsOfSchedule | src/com/vedantatree/redmineconnector/JIBXXMLJavaConvertor.java:210-219 | The start and due dates appear, as the date format renders them, exactly when they are set. |
| XmlConvertor.ElementsOfEfforts | src/com/vedantatree/redmineconnector/JIBXXMLJavaConvertor.java:226-242 | Estimated hours and percent done appear when set, spent hours only when set and non-zero, the description only when qualified. |
| XmlConvertor.ElementsInOrder | src/com/vedantatree/redmineconnector/JIBXXMLJavaConvertor.java:192-242 | The elements appear in the convertor's fixed order, each at most once. |
| XmlConvertor.DescriptionIsLast | src/com/vedantatree/redmineconnector/JIBXXMLJavaConvertor.java:239-242 | A qualified description is the last element. |
| XmlConvertor.PresentAppend | src/com/vedantatree/redmineconnector/JIBXXMLJavaConvertor.java:192-242 | The set parts of two part lists in a row are those of the joined list. |
| XmlConvertor.RenderAllAppend | src/com/vedantatree/redmineconnector/JIBXXMLJavaConvertor.java:192-242 | Rendering two element lists in a row renders the joined list. |
| XmlConvertor.PresentSingle | src/com/vedantatree/redmineconnector/JIBXXMLJavaConvertor.java:192-242 | A single set part gives its element. |
| XmlConvertor.RenderAllSingle | src/com/vedantatree/redmineconnector/JIBXXMLJavaConvertor.java:192-242 | A single element renders as itself. |
| XmlConvertor.RenderFirst | src/com/vedantatree/redmineconnector/JIBXXMLJavaConvertor.java:192-193 | The rendering starts with the first part's element when the first part is set. |
| XmlConvertor.FrameOf | src/com/vedantatree/redmineconnector/JIBXXMLJavaConvertor.java:192-243 | The text opens with its opening tag and the first element, and ends with its closing tag. |
| XmlConvertor.DocumentFrame | src/com/vedantatree/redmineconnector/JIBXXMLJavaConvertor.java:192-243 | The document opens with `<issue>` and the project id, and closes with `</issue>`. |
| XmlConvertor.CreateIssueXmlRefuses | src/com/vedantatree/redmineconnector/JIBXXMLJavaConvertor.java:182-190 | The convertor refuses exactly a null issue and an issue that fails validation, each with an `IllegalArgumentException`; an invalid issue's message lists its validation errors. |
| XmlConvertor.ValidIssueXml | src/com/vedantatree/redmineconnector/JIBXXMLJavaConvertor.java:178-249 | A valid issue gives a document framed by `<issue>`, with its project id first and its subject and priority id present. |
| XmlConvertor.NullRoundTrip | src/com/vedantatree/redmineconnector/JIBXXMLJavaConvertor.java:259-341 | Null floats and null dates survive serializing and deserializing. |
| XmlConvertor.BlankTextIsNull | src/com/vedantatree/redmineconnector/JIBXXMLJavaConvertor.java:276-341 | Text that trims to nothing deserializes to null, for floats and dates alike. |
| XmlConvertor.FloatRoundTrip | src/com/vedantatree/redmineconnector/JIBXXMLJavaConvertor.java:259-283 | A float that renders to qualified text which the binding library parses back survives the round trip. |
| XmlConvertor.DateRoundTrip | src/com/vedantatree/redmineconnector/JIBXXMLJavaConvertor.java:293-341 | A date that the `yyyy-MM-dd` format reads back from its rendering survives the round trip. |
| XmlConvertor.DeserializeDateFails | src/com/vedantatree/redmineconnector/JIBXXMLJavaConvertor.java:310-341 | Deserializing a date fails only when both date formats and the binding library reject the text. |
| Connector.NewConnector | trunk/src/com/vedantatree/redmineconnector/RedmineConnector.java:87-93 | Succeeds exactly when host and key are both qualified, with those values; otherwise an `IllegalArgumentException`, the host checked first. |
| Connector.HandleException | trunk/src/com/vedantatree/redmineconnector/RedmineConnector.java:629-637 | Always an `RCException`: an `RCException` passes unchanged, anything else is wrapped with code `ILLEGAL_STATE`. |
| Connector.Iterator | trunk/src/com/vedantatree/redmineconnector/RedmineConnector.java:256-277 | Fails exactly as `IteratorFailure` says; otherwise a fresh paginator for the container type and list URL, at its start. |
| Connector.GetProjectsIterator | trunk/src/com/vedantatree/redmineconnector/RedmineConnector.java:256-277 | A projects paginator over the project list URL, or the factory's failure. |
| Connector.GetIssuesIterator | trunk/src/com/vedantatree/redmineconnector/RedmineConnector.java:431-452 | An issues paginator over the issue list URL, or the factory's failure. |
| Connector.GetUsersIterator | trunk/src/com/vedantatree/redmineconnector/RedmineConnector.java:559-580 | A paginator over the user list URL that decodes a projects container, as written, or the factory's failure. |
| Connector.GetProjects | trunk/src/com/vedantatree/redmineconnector/RedmineConnector.java:243-247 | The projects iterator from record 0 with 25 records per page and no includes or filters. |
| Connector.GetIssues | trunk/src/com/vedantatree/redmineconnector/RedmineConnector.java:402-405 | The issues iterator from record 0 with 25 records per page and no includes or filters. |
| Connector.PageSizeCapped | trunk/src/com/vedantatree/redmineconnector/RedmineConnector.java:263-268 | A page size above 100 is `ILLEGAL_ARGUMENT` whatever else is wrong; at or below, the factory succeeds exactly when the URL is built and qualified and start and page size are non-negative. |
| Connector.ConstructionFailureIsIllegalState | trunk/src/com/vedantatree/redmineconnector/RedmineConnector.java:270-276 | A paginator that refuses its arguments reaches the caller as an `ILLEGAL_STATE` `RCException` wrapping the refusal. |
| Connector.CreateOrUpdateRedmineObject | trunk/src/com/vedantatree/redmineconnector/RedmineConnector.java:582-606 | An issue is serialized by the issue convertor, any other object by the general one; then a POST for a create, whose reply is decoded, or a PUT for an update. |
| Connector.ExchangeDispatch | trunk/src/com/vedantatree/redmineconnector/RedmineConnector.java:598-603 | A create sends only the POST and an update only the PUT; a create decodes the reply into the object's class. |
| Connector.ExchangeNeedsBody | trunk/src/com/vedantatree/redmineconnector/RedmineConnector.java:582-606 | A body that cannot be produced is the result, and no request is sent. |
| Connector.DeleteRedmineObject | trunk/src/com/vedantatree/redmineconnector/RedmineConnector.java:608-616 | True exactly when the DELETE request does not throw; its exception otherwise. |

## Left out

- Network I/O: the `RestletClient` requests are the `Gateway` parameter of the connector, and the GET of `getRedmineObject` is the paginator's `Fetch` parameter. A fetch is a function, so the same URL always yields the same answer; the retries, time-outs and HTTP status handling of the client are not part of this model.
- The JiBX binding: `xmlToJava`, `javaToXML` and the binding library's own float and date conversions are parameters (`Codec`, `renderFloat`, `parse`, `parseBinding`); `SimpleDateFormat` is the `formatDate`/`parseSimple`/`parseRedmine` parameters.
- `URLBuilder` is not part of this model: the list URL it builds is the `ListURL` parameter.
- Paginator.DefaultDataPaginator.GetAllRecords: the loop is bounded by a `fuel` argument; when the bound runs out before the loop ends the result is `None`, and a server that never reports an end is not modelled beyond that bound.
- Paginator.DefaultDataPaginator.GetAllRecords: the issues paginator that `getAllRecords` obtains from `RedmineConnector.getSharedInstance().getIssues()` is passed in as an argument; its preconditions state what `Connector.GetIssues` ensures of it (a new issues paginator, record 0, 25 per page), but not that its URL is the issue list URL of the shared connector.
- Paginator.DefaultDataPaginator.NextPageRecords: a `ClassCastException` of the fetched object is folded into a failure of `Fetch`, and a null container is the `NullPointerException` of dereferencing it.
- Paginator.HasMore: its contract covers the sentinel and non-negative totals; for other totals only its body states the 64-bit difference the Java code takes.
- The getters `getPageSize`, `getStartRecordIndex` and `getRecordIndexToStartRetrieval` are the paginator's fields themselves; `pageSize` and `startRecordIndex` are `const`, so they never change.
- `RedmineConnector.SHARED_INSTANCE`, `getSharedInstance`, the private no-argument constructor (which reads the configuration), `main` and all logging are left out; `initialize` sets the fields once, so a connector is a value (`RedmineConnector(serverHost, apiAccessKey)`).
- The public `createIssue`/`updateIssue`/`deleteIssue`/`get*` wrappers and `getRedmineObject` are not part of this model; the private operations they call are.
- `bdo/Error.java` is not part of this model: a `RedmineError` holds only the description that `getMessage` reads.
- `ConfigurationManager`'s file and class-path access is the `FileSystem` value: the files `FileInputStream` opens, what `Properties.load` makes of each, and the class loader's root path; its shared singleton and logger are left out.
- The trunk `RedmineConnector` constructor calls the two-argument assertions, which exist in `branches/1-0` `Utilities`; the model uses those.
- The `trunk` business objects (`User` among them) declare no id field: `getId` and `setId` are abstract in `RedmineBDO.java`, so `super.setId( id )` in the `User` id constructor has no implementation to call. The model gives every business object a plain `Option` id field that these accessors read and write.
- `toString` methods, `equals`/`hashCode`, and the getters and setters of fields no modelled check reads are left out.
- Utilities.GetTokenizedString: the string and the delimiters are never null here; `new StringTokenizer(null, …)` throws a `NullPointerException` that is not modelled.
- Bdo.ValidateRoles: a role list holds no null elements (`seq<UserRole>`), so the `NullPointerException` of `role.validate` on a null element is not modelled; the same holds for `RoleErrors` and `ProjectMembership.Validate`.
- RCExceptions.RCException.GetErrors: the parser's result is the container's error list, so a null `ErrorsContainer` (which `getErrors` would dereference) is not modelled.
- RCExceptions.RCException.GetMessage: the cached list holds no null `Error` elements, so the `NullPointerException` of `type.getDescription()` on one is not modelled.
- Issues.Issue.SetSpentEfforts: `Float` is a `real`, so NaN and −0.0 are not values of the model. In Java a NaN argument is refused like any non-zero value and −0.0 is stored like zero; in the issue XML a NaN spent-hours value would be written, and `-0.0` estimated hours render differently from `0.0`. None of this is captured.
- The test classes and all concurrency (the shared singletons are not thread-safe) are not part of this model.
