/**
 * `RedmineConnector` (trunk): the client-side entry point. It checks its constructor arguments,
 * guards the page size of its iterator factories, maps every exception of an operation to an
 * `RCException`, and dispatches create, update and delete requests. The REST client, the XML
 * binding and the URL builder are parameters.
 */
module Connector {
  import opened Wrappers
  import opened JavaLang
  import opened Errors
  import opened Utilities
  import opened Paginator
  import Issues
  import XmlConvertor

  /** `RedmineDataPaginator.REDMINE_MAX_PAGE_SIZE`. */
  const REDMINE_MAX_PAGE_SIZE: int := 100

  const PAGE_SIZE_TOO_BIG := "Specified Page size is greater than the supported maximum page size by Redmine. supported-Size["
  const SERVER_HOST_ARGUMENT := "Redmine Server Host"
  const ACCESS_KEY_ARGUMENT := "API Access Key"

  /** The message of the page-size guard. */
  function PageSizeMessage(): string
  {
    PAGE_SIZE_TOO_BIG + IntToString(REDMINE_MAX_PAGE_SIZE) + CLOSE
  }

  /** What `initialize` hands to the `URLBuilder`: the server address and the API key. */
  datatype RedmineConnector = RedmineConnector(serverHost: string, apiAccessKey: string)

  /** `URLBuilder.buildURLToGetObjectsList(objectType, includes, filterCriteria)` of a connector
      with the given host and key: a URL (possibly null) or an exception. */
  type ListURL = (string, string, JavaClass, Option<seq<string>>, Option<map<string, string>>)
                 -> Result<Option<string>, Exception>

  /** The `RestletClient` requests the connector sends: each yields the response text or throws. */
  datatype Gateway = Gateway(
    post: (string, string) -> Result<string, Exception>,
    put: (string, string) -> Result<string, Exception>,
    delete: string -> Result<string, Exception>)

  /** The `JIBXXMLJavaConvertor` operations the connector calls besides `issueXMLToCreateIssue`,
      and the float and date renderings that one needs. `D` is what a response decodes to. */
  datatype Codec<!O, D> = Codec(
    javaToXML: O -> Result<string, Exception>,
    xmlToJava: (string, JavaClass) -> Result<D, Exception>,
    renderFloat: real -> string,
    formatDate: Issues.Date -> string)

  /** The object handed to `createOrUpdateRedmineObject`: an `Issue`, or any other business
      object with its class. */
  datatype RedmineObject<O> = IssueObject(issue: Issues.Issue) | OtherObject(objectClass: JavaClass, value: O)

  /** `RedmineConnector(host, key)`: both must be qualified strings, the host checked first. */
  function NewConnector(redmineServerHost: Option<string>, apiAccessKey: Option<string>): (r: Result<RedmineConnector, Exception>)
    ensures r.Success? <==> IsQualifiedString(redmineServerHost) && IsQualifiedString(apiAccessKey)
    ensures r.Success? ==> r.value == RedmineConnector(redmineServerHost.value, apiAccessKey.value)
    ensures r.Failure? ==> r.error.IllegalArgument?
    ensures !IsQualifiedString(redmineServerHost) ==>
              r == Failure(AssertQualifiedStringNamed(redmineServerHost, Some(SERVER_HOST_ARGUMENT)).error)
  {
    var hostCheck := AssertQualifiedStringNamed(redmineServerHost, Some(SERVER_HOST_ARGUMENT));
    if hostCheck.Fail? then Failure(hostCheck.error)
    else
      var keyCheck := AssertQualifiedStringNamed(apiAccessKey, Some(ACCESS_KEY_ARGUMENT));
      if keyCheck.Fail? then Failure(keyCheck.error)
      else Success(RedmineConnector(redmineServerHost.value, apiAccessKey.value))
  }

  /** `handleException`: an `RCException` passes unchanged; anything else is wrapped as the
      cause of an `ILLEGAL_STATE` one built by the cause-only constructor. */
  function HandleException(ex: Exception): (r: Exception)
    ensures r.RC?
    ensures ex.RC? ==> r == ex
    ensures !ex.RC? ==> r.code == ILLEGAL_STATE && r.cause == Some(ex) && r.rcMessage.None?
  {
    if IsRCException(ex) then ex else RC(ILLEGAL_STATE, None, Some(ex))
  }

  /** Why an iterator factory fails, if it does: the page-size guard, then the URL builder, then
      the paginator's constructor, each exception passed through `handleException`. */
  function IteratorFailure(containerType: ContainerType, url: Result<Option<string>, Exception>,
                           startRecordIndex: Int64, pageSize: Int32): Option<Exception>
  {
    if pageSize > REDMINE_MAX_PAGE_SIZE then Some(RC(ILLEGAL_ARGUMENT, Some(PageSizeMessage()), None))
    else if url.Failure? then Some(HandleException(url.error))
    else
      var v := Validate(Some(containerType), url.value, startRecordIndex, pageSize);
      if v.Fail? then Some(HandleException(v.error)) else None
  }

  /** The body shared by the three `get*Iterator` factories. */
  method Iterator<T>(containerType: ContainerType, url: Result<Option<string>, Exception>,
                     startRecordIndex: Int64, pageSize: Int32)
    returns (r: Result<DefaultDataPaginator<T>, Exception>)
    ensures r.Failure? <==> IteratorFailure(containerType, url, startRecordIndex, pageSize).Some?
    ensures r.Failure? ==> r.error == IteratorFailure(containerType, url, startRecordIndex, pageSize).value
    ensures r.Success? ==> fresh(r.value) && r.value.Valid() && r.value.returned == []
    ensures r.Success? ==> r.value.Config() == Settings(containerType, url.value.value, pageSize)
    ensures r.Success? ==> r.value.startRecordIndex == startRecordIndex
    ensures r.Success? ==> r.value.State() == Cursor(startRecordIndex, UNKNOWN_TOTAL)
  {
    if pageSize > REDMINE_MAX_PAGE_SIZE {
      return Failure(HandleException(RC(ILLEGAL_ARGUMENT, Some(PageSizeMessage()), None)));
    }
    if url.Failure? {
      return Failure(HandleException(url.error));
    }
    var paginator := DefaultDataPaginator<T>.Create(Some(containerType), url.value, startRecordIndex, pageSize);
    if paginator.Failure? {
      return Failure(HandleException(paginator.error));
    }
    r := paginator;
  }

  /** `getProjectsIterator`: a `ProjectsContainer` paginator over the project list URL. */
  method GetProjectsIterator<T>(c: RedmineConnector, listURL: ListURL, startRecordIndex: Int64, pageSize: Int32,
                                includes: Option<seq<string>>, filterCriteria: Option<map<string, string>>)
    returns (r: Result<DefaultDataPaginator<T>, Exception>)
    ensures var url := listURL(c.serverHost, c.apiAccessKey, ProjectClass, includes, filterCriteria);
      && (r.Failure? <==> IteratorFailure(ProjectsContainer, url, startRecordIndex, pageSize).Some?)
      && (r.Failure? ==> r.error == IteratorFailure(ProjectsContainer, url, startRecordIndex, pageSize).value)
      && (r.Success? ==> fresh(r.value) && r.value.Valid() && r.value.returned == [] &&
                         r.value.Config() == Settings(ProjectsContainer, url.value.value, pageSize) &&
                         r.value.startRecordIndex == startRecordIndex &&
                         r.value.State() == Cursor(startRecordIndex, UNKNOWN_TOTAL))
  {
    r := Iterator(ProjectsContainer, listURL(c.serverHost, c.apiAccessKey, ProjectClass, includes, filterCriteria),
                  startRecordIndex, pageSize);
  }

  /** `getIssuesIterator`: an `IssuesContainer` paginator over the issue list URL. */
  method GetIssuesIterator<T>(c: RedmineConnector, listURL: ListURL, startRecordIndex: Int64, pageSize: Int32,
                              includes: Option<seq<string>>, filterCriteria: Option<map<string, string>>)
    returns (r: Result<DefaultDataPaginator<T>, Exception>)
    ensures var url := listURL(c.serverHost, c.apiAccessKey, IssueClass, includes, filterCriteria);
      && (r.Failure? <==> IteratorFailure(IssuesContainer, url, startRecordIndex, pageSize).Some?)
      && (r.Failure? ==> r.error == IteratorFailure(IssuesContainer, url, startRecordIndex, pageSize).value)
      && (r.Success? ==> fresh(r.value) && r.value.Valid() && r.value.returned == [] &&
                         r.value.Config() == Settings(IssuesContainer, url.value.value, pageSize) &&
                         r.value.startRecordIndex == startRecordIndex &&
                         r.value.State() == Cursor(startRecordIndex, UNKNOWN_TOTAL))
  {
    r := Iterator(IssuesContainer, listURL(c.serverHost, c.apiAccessKey, IssueClass, includes, filterCriteria),
                  startRecordIndex, pageSize);
  }

  /** `getUsersIterator`: the user list URL, but a `ProjectsContainer` paginator, as written. */
  method GetUsersIterator<T>(c: RedmineConnector, listURL: ListURL, startRecordIndex: Int64, pageSize: Int32,
                             includes: Option<seq<string>>, filterCriteria: Option<map<string, string>>)
    returns (r: Result<DefaultDataPaginator<T>, Exception>)
    ensures var url := listURL(c.serverHost, c.apiAccessKey, UserClass, includes, filterCriteria);
      && (r.Failure? <==> IteratorFailure(ProjectsContainer, url, startRecordIndex, pageSize).Some?)
      && (r.Failure? ==> r.error == IteratorFailure(ProjectsContainer, url, startRecordIndex, pageSize).value)
      && (r.Success? ==> fresh(r.value) && r.value.Valid() && r.value.returned == [] &&
                         r.value.Config() == Settings(ProjectsContainer, url.value.value, pageSize) &&
                         r.value.startRecordIndex == startRecordIndex &&
                         r.value.State() == Cursor(startRecordIndex, UNKNOWN_TOTAL))
  {
    r := Iterator(ProjectsContainer, listURL(c.serverHost, c.apiAccessKey, UserClass, includes, filterCriteria),
                  startRecordIndex, pageSize);
  }

  /** The deprecated `getProjects()`: `getProjectsIterator(0, 25, null, null)`. */
  method GetProjects<T>(c: RedmineConnector, listURL: ListURL) returns (r: Result<DefaultDataPaginator<T>, Exception>)
    ensures var url := listURL(c.serverHost, c.apiAccessKey, ProjectClass, None, None);
      && (r.Failure? <==> IteratorFailure(ProjectsContainer, url, 0, 25).Some?)
      && (r.Failure? ==> r.error == IteratorFailure(ProjectsContainer, url, 0, 25).value)
      && (r.Success? ==> fresh(r.value) && r.value.Valid() && r.value.returned == [] &&
                         r.value.Config() == Settings(ProjectsContainer, url.value.value, 25) &&
                         r.value.startRecordIndex == 0 && r.value.State() == Cursor(0, UNKNOWN_TOTAL))
  {
    r := GetProjectsIterator(c, listURL, 0, 25, None, None);
  }

  /** The deprecated `getIssues()`: `getIssuesIterator(0, 25, null, null)`. */
  method GetIssues<T>(c: RedmineConnector, listURL: ListURL) returns (r: Result<DefaultDataPaginator<T>, Exception>)
    ensures var url := listURL(c.serverHost, c.apiAccessKey, IssueClass, None, None);
      && (r.Failure? <==> IteratorFailure(IssuesContainer, url, 0, 25).Some?)
      && (r.Failure? ==> r.error == IteratorFailure(IssuesContainer, url, 0, 25).value)
      && (r.Success? ==> fresh(r.value) && r.value.Valid() && r.value.returned == [] &&
                         r.value.Config() == Settings(IssuesContainer, url.value.value, 25) &&
                         r.value.startRecordIndex == 0 && r.value.State() == Cursor(0, UNKNOWN_TOTAL))
  {
    r := GetIssuesIterator(c, listURL, 0, 25, None, None);
  }

  /** Every factory refuses a page size above 100 with `ILLEGAL_ARGUMENT`, whatever else is wrong;
      100 itself passes the guard. */
  lemma PageSizeCapped(containerType: ContainerType, url: Result<Option<string>, Exception>,
                       startRecordIndex: Int64, pageSize: Int32)
    ensures pageSize > REDMINE_MAX_PAGE_SIZE ==>
              IteratorFailure(containerType, url, startRecordIndex, pageSize)
              == Some(RC(ILLEGAL_ARGUMENT, Some(PageSizeMessage()), None))
    ensures pageSize <= REDMINE_MAX_PAGE_SIZE ==>
              (IteratorFailure(containerType, url, startRecordIndex, pageSize).None? <==>
               url.Success? && IsQualifiedString(url.value) && startRecordIndex >= 0 && pageSize >= 0)
  {
    if pageSize <= REDMINE_MAX_PAGE_SIZE && url.Success? {
      LastFailingCheckWins(Some(containerType), url.value, startRecordIndex, pageSize);
    }
  }

  /** A paginator that refuses its arguments (a negative start, say) reaches the caller as an
      `ILLEGAL_STATE` `RCException` wrapping the paginator's `ILLEGAL_ARGUMENT` one. */
  lemma ConstructionFailureIsIllegalState(containerType: ContainerType, url: Result<Option<string>, Exception>,
                                          startRecordIndex: Int64, pageSize: Int32)
    requires pageSize <= REDMINE_MAX_PAGE_SIZE && url.Success?
    requires Validate(Some(containerType), url.value, startRecordIndex, pageSize).Fail?
    ensures IteratorFailure(containerType, url, startRecordIndex, pageSize)
            == Some(RC(ILLEGAL_STATE, None, Some(Validate(Some(containerType), url.value, startRecordIndex, pageSize).error)))
    ensures startRecordIndex < 0 && pageSize >= 0 ==>
              IteratorFailure(containerType, url, startRecordIndex, pageSize)
              == Some(RC(ILLEGAL_STATE, None, Some(RCRuntime(ILLEGAL_ARGUMENT, Some(START_NEGATIVE), None))))
  {
    LastFailingCheckWins(Some(containerType), url.value, startRecordIndex, pageSize);
  }

  /** The exchange of `createOrUpdateRedmineObject` once the request body is known: POST for a
      create, PUT for an update; only a create decodes the response, an update yields null. */
  function Exchange<D>(requestURL: string, contents: Result<string, Exception>, create: bool,
                       objectClass: JavaClass, gateway: Gateway, xmlToJava: (string, JavaClass) -> Result<D, Exception>)
    : Result<Option<D>, Exception>
  {
    var body :- contents;
    var response :- if create then gateway.post(requestURL, body) else gateway.put(requestURL, body);
    if create then
      var decoded :- xmlToJava(response, objectClass);
      Success(Some(decoded))
    else Success(None)
  }

  /** `createOrUpdateRedmineObject`: an `Issue` is serialized by `issueXMLToCreateIssue`, any
      other object by `javaToXML`. */
  method CreateOrUpdateRedmineObject<O, D>(requestURL: string, redmineObject: RedmineObject<O>, create: bool,
                                           gateway: Gateway, codec: Codec<O, D>)
    returns (r: Result<Option<D>, Exception>)
    ensures redmineObject.IssueObject? ==>
              r == Exchange(requestURL,
                            XmlConvertor.CreateIssueXml(redmineObject.issue, codec.renderFloat, codec.formatDate),
                            create, IssueClass, gateway, codec.xmlToJava)
    ensures redmineObject.OtherObject? ==>
              r == Exchange(requestURL, codec.javaToXML(redmineObject.value), create, redmineObject.objectClass,
                            gateway, codec.xmlToJava)
  {
    var contents: Result<string, Exception>;
    var objectClass: JavaClass;
    if redmineObject.IssueObject? {
      contents := XmlConvertor.IssueXMLToCreateIssue(redmineObject.issue, codec.renderFloat, codec.formatDate);
      objectClass := IssueClass;
    } else {
      contents := codec.javaToXML(redmineObject.value);
      objectClass := redmineObject.objectClass;
    }
    if contents.Failure? {
      return Failure(contents.error);
    }
    var redmineResponse := if create then gateway.post(requestURL, contents.value)
                           else gateway.put(requestURL, contents.value);
    if redmineResponse.Failure? {
      return Failure(redmineResponse.error);
    }
    if create {
      var newRedmineObject := codec.xmlToJava(redmineResponse.value, objectClass);
      if newRedmineObject.Failure? {
        return Failure(newRedmineObject.error);
      }
      r := Success(Some(newRedmineObject.value));
    } else {
      r := Success(None);
    }
  }

  /** A create sends a POST and nothing else (any gateway with the same POST gives the same
      result) and returns the decoded response; an update sends a PUT and returns null. */
  lemma ExchangeDispatch<D>(requestURL: string, contents: Result<string, Exception>, objectClass: JavaClass,
                            gateway: Gateway, other: Gateway, xmlToJava: (string, JavaClass) -> Result<D, Exception>)
    requires contents.Success?
    ensures other.post == gateway.post ==>
              Exchange(requestURL, contents, true, objectClass, other, xmlToJava)
              == Exchange(requestURL, contents, true, objectClass, gateway, xmlToJava)
    ensures other.put == gateway.put ==>
              Exchange(requestURL, contents, false, objectClass, other, xmlToJava)
              == Exchange(requestURL, contents, false, objectClass, gateway, xmlToJava)
    ensures gateway.post(requestURL, contents.value).Success? ==>
              Exchange(requestURL, contents, true, objectClass, gateway, xmlToJava)
              == (match xmlToJava(gateway.post(requestURL, contents.value).value, objectClass)
                  case Success(d) => Success(Some(d))
                  case Failure(e) => Failure(e))
    ensures gateway.put(requestURL, contents.value).Success? ==>
              Exchange(requestURL, contents, false, objectClass, gateway, xmlToJava) == Success(None)
  {
  }

  /** A body that cannot be produced (an invalid issue, say) is the result, and no request is
      sent: the gateway does not matter. */
  lemma ExchangeNeedsBody<D>(requestURL: string, contents: Result<string, Exception>, create: bool,
                             objectClass: JavaClass, gateway: Gateway, other: Gateway,
                             xmlToJava: (string, JavaClass) -> Result<D, Exception>)
    requires contents.Failure?
    ensures Exchange(requestURL, contents, create, objectClass, gateway, xmlToJava) == Failure(contents.error)
    ensures Exchange(requestURL, contents, create, objectClass, other, xmlToJava)
            == Exchange(requestURL, contents, create, objectClass, gateway, xmlToJava)
  {
  }

  /** `deleteRedmineObject`: true whenever the DELETE request does not throw; the response is
      not looked at. */
  function DeleteRedmineObject(requestURL: string, gateway: Gateway): (r: Result<bool, Exception>)
    ensures r.Success? <==> gateway.delete(requestURL).Success?
    ensures r.Success? ==> r.value
    ensures r.Failure? ==> r.error == gateway.delete(requestURL).error
  {
    var redmineResponse :- gateway.delete(requestURL);
    Success(true)
  }
}
