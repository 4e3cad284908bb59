/**
 * `RCException`, the connector's checked exception, as the object its catcher holds: an error
 * code, the message given to the constructor, the response XML of the failed request, and the
 * list of Redmine errors parsed from that XML on first demand and kept from then on.
 */
module RCExceptions {
  import opened Wrappers
  import opened JavaLang
  import opened Errors
  import opened Utilities

  const ERROR_CODE_OPEN := "--errorCode["
  const ERRORS_OPEN := "] errors["
  const SEPARATOR := " :: "
  const XML_OPEN := "] "

  /** One `<error>` of Redmine's error response; only its description is ever read. */
  datatype RedmineError = RedmineError(description: Option<string>)

  /** What `getErrors` computes from the cached list and the response XML: the cached list when
      there is one, otherwise the parsed list (an empty one when the XML is unqualified or holds
      no list). A parsing failure propagates and caches nothing. */
  function FetchErrors(cached: Option<seq<RedmineError>>, responseXML: Option<string>,
                       parse: string -> Result<Option<seq<RedmineError>>, Exception>)
    : Result<seq<RedmineError>, Exception>
  {
    if cached.Some? then Success(cached.value)
    else if !IsQualifiedString(responseXML) then Success([])
    else
      var parsed :- parse(responseXML.value);
      Success(if parsed.Some? then parsed.value else [])
  }

  /** Each description followed by ` :: `, in list order; a null description reads `null`. */
  function Descriptions(errors: seq<RedmineError>): (r: string)
  {
    if errors == [] then ""
    else Descriptions(errors[..|errors| - 1]) + StringText(errors[|errors| - 1].description) + SEPARATOR
  }

  /** What sits between the error code and the closing `]` of the message. */
  function Details(errors: Option<seq<RedmineError>>, responseXML: Option<string>): string
  {
    if errors.Some? && |errors.value| > 0 then ERRORS_OPEN + Descriptions(errors.value)
    else if IsQualifiedString(responseXML) then XML_OPEN + responseXML.value + CLOSE
    else ""
  }

  /** What `getMessage` returns. A null base message makes `new StringBuffer(null)` throw. */
  function MessageOf(baseMessage: Option<string>, errorCode: int, errors: Option<seq<RedmineError>>,
                     responseXML: Option<string>): Result<string, Exception>
  {
    if baseMessage.None? then Failure(NullPointer)
    else Success(baseMessage.value + ERROR_CODE_OPEN + IntToString(errorCode) + Details(errors, responseXML) + CLOSE)
  }

  class RCException {
    const errorCode: int
    /** `Throwable.getMessage()`: the constructor's message, or the cause's text for the
        constructor that takes only a cause. */
    const baseMessage: Option<string>
    const responseXML: Option<string>
    const cause: Option<Exception>
    /** The memoized `getErrors` list; `None` until a call succeeds. */
    var errors: Option<seq<RedmineError>>

    /** `RCException(int, String)`. */
    constructor WithMessage(errorCode: int, message: Option<string>)
      ensures this.errorCode == errorCode && baseMessage == message
      ensures responseXML.None? && cause.None? && errors.None?
    {
      this.errorCode := errorCode;
      baseMessage := message;
      responseXML := None;
      cause := None;
      errors := None;
    }

    /** `RCException(int, String, String)`: the only constructor that keeps the response XML. */
    constructor WithResponse(errorCode: int, message: Option<string>, responseXML: Option<string>)
      ensures this.errorCode == errorCode && baseMessage == message && this.responseXML == responseXML
      ensures cause.None? && errors.None?
    {
      this.errorCode := errorCode;
      baseMessage := message;
      this.responseXML := responseXML;
      cause := None;
      errors := None;
    }

    /** `RCException(int, Throwable)`: the message is the cause's `toString`, rendered by
        `describe`, or null without a cause. */
    constructor WithCause(errorCode: int, cause: Option<Exception>, describe: Exception -> string)
      ensures this.errorCode == errorCode && this.cause == cause
      ensures baseMessage == (if cause.Some? then Some(describe(cause.value)) else None)
      ensures responseXML.None? && errors.None?
    {
      this.errorCode := errorCode;
      baseMessage := if cause.Some? then Some(describe(cause.value)) else None;
      responseXML := None;
      this.cause := cause;
      errors := None;
    }

    /** `RCException(int, String, Throwable)`. */
    constructor WithMessageAndCause(errorCode: int, message: Option<string>, cause: Option<Exception>)
      ensures this.errorCode == errorCode && baseMessage == message && this.cause == cause
      ensures responseXML.None? && errors.None?
    {
      this.errorCode := errorCode;
      baseMessage := message;
      responseXML := None;
      this.cause := cause;
      errors := None;
    }

    /** `getErrors`: parses the response XML on the first successful call only. */
    method GetErrors(parse: string -> Result<Option<seq<RedmineError>>, Exception>)
      returns (r: Result<seq<RedmineError>, Exception>)
      modifies this
      ensures r == FetchErrors(old(errors), responseXML, parse)
      ensures errors == (if r.Success? then Some(r.value) else old(errors))
    {
      if errors.None? {
        if IsQualifiedString(responseXML) {
          var parsed := parse(responseXML.value);
          if parsed.Failure? {
            return Failure(parsed.error);
          }
          errors := parsed.value;
        }
        if errors.None? {
          errors := Some([]);
        }
      }
      r := Success(errors.value);
    }

    /** `getMessage`: reads the cached list and never parses. */
    method GetMessage() returns (r: Result<string, Exception>)
      ensures r == MessageOf(baseMessage, errorCode, errors, responseXML)
    {
      if baseMessage.None? {
        return Failure(NullPointer);
      }
      var sb := baseMessage.value + ERROR_CODE_OPEN + IntToString(errorCode);
      ghost var head := sb;
      if errors.Some? && |errors.value| > 0 {
        sb := sb + ERRORS_OPEN;
        sb := AppendDescriptions(sb, errors.value);
        AppendAssoc(head, ERRORS_OPEN, Descriptions(errors.value));
      } else if IsQualifiedString(responseXML) {
        sb := sb + XML_OPEN;
        sb := sb + responseXML.value;
        sb := sb + CLOSE;
        AppendAssoc(head, XML_OPEN, responseXML.value);
        AppendAssoc(head, XML_OPEN + responseXML.value, CLOSE);
      }
      assert sb == head + Details(errors, responseXML);
      sb := sb + CLOSE;
      r := Success(sb);
    }

    /** The loop of `getMessage` that appends each error's description and separator. */
    static method AppendDescriptions(prefix: string, list: seq<RedmineError>) returns (sb: string)
      ensures sb == prefix + Descriptions(list)
    {
      sb := prefix;
      var i := 0;
      while i < |list|
        invariant 0 <= i <= |list|
        invariant sb == prefix + Descriptions(list[..i])
      {
        assert list[..i + 1][..i] == list[..i];
        AppendAssoc(prefix, Descriptions(list[..i]), StringText(list[i].description) + SEPARATOR);
        sb := sb + (StringText(list[i].description) + SEPARATOR);
        i := i + 1;
      }
      assert list[..i] == list;
    }
  }

  /** Once `getErrors` has succeeded, every later call returns the same list, whatever the
      parser would now say. */
  lemma FetchErrorsMemoized(cached: Option<seq<RedmineError>>, responseXML: Option<string>,
                            parse: string -> Result<Option<seq<RedmineError>>, Exception>,
                            later: string -> Result<Option<seq<RedmineError>>, Exception>)
    requires FetchErrors(cached, responseXML, parse).Success?
    ensures FetchErrors(Some(FetchErrors(cached, responseXML, parse).value), responseXML, later)
            == FetchErrors(cached, responseXML, parse)
  {
  }

  /** Without a qualified response XML, `getErrors` yields the empty list and never parses. */
  lemma FetchErrorsWithoutXml(responseXML: Option<string>,
                              parse: string -> Result<Option<seq<RedmineError>>, Exception>)
    requires !IsQualifiedString(responseXML)
    ensures FetchErrors(None, responseXML, parse) == Success([])
  {
  }

  /** `getErrors` fails only on the first call, and only when the parser fails on a qualified
      response XML. */
  lemma FetchErrorsFails(cached: Option<seq<RedmineError>>, responseXML: Option<string>,
                         parse: string -> Result<Option<seq<RedmineError>>, Exception>)
    ensures FetchErrors(cached, responseXML, parse).Failure?
            <==> cached.None? && IsQualifiedString(responseXML) && parse(responseXML.value).Failure?
  {
  }

  /** The descriptions of two lists in a row are the descriptions of their concatenation. */
  lemma {:induction false} DescriptionsAppend(a: seq<RedmineError>, b: seq<RedmineError>)
    ensures Descriptions(a + b) == Descriptions(a) + Descriptions(b)
  {
    if b == [] {
      assert a + b == a;
    } else {
      var init := b[..|b| - 1];
      assert (a + b)[..|a + b| - 1] == a + init;
      DescriptionsAppend(a, init);
      AppendAssoc(Descriptions(a), Descriptions(init), StringText(b[|b| - 1].description) + SEPARATOR);
      AppendAssoc(Descriptions(a) + Descriptions(init), StringText(b[|b| - 1].description), SEPARATOR);
      AppendAssoc(Descriptions(init), StringText(b[|b| - 1].description), SEPARATOR);
    }
  }

  lemma DescriptionsSingle(e: RedmineError)
    ensures Descriptions([e]) == StringText(e.description) + SEPARATOR
  {
    assert [e][..0] == [];
  }

  /** A message always opens with the base message and the error code, and always closes with
      `]`; a null base message is a `NullPointerException`. */
  lemma MessageFrame(baseMessage: Option<string>, errorCode: int, errors: Option<seq<RedmineError>>,
                     responseXML: Option<string>)
    ensures MessageOf(baseMessage, errorCode, errors, responseXML).Failure? <==> baseMessage.None?
    ensures baseMessage.None? ==> MessageOf(baseMessage, errorCode, errors, responseXML).error == NullPointer
    ensures baseMessage.Some? ==>
      var m := MessageOf(baseMessage, errorCode, errors, responseXML).value;
      baseMessage.value + ERROR_CODE_OPEN + IntToString(errorCode) <= m && EndsWith(m, CLOSE)
  {
    if baseMessage.Some? {
      ConcatFrame(baseMessage.value + ERROR_CODE_OPEN + IntToString(errorCode), Details(errors, responseXML), CLOSE);
    }
  }

  /** Messages list the cached errors when there are any; otherwise a qualified response XML is
      shown in brackets. Before the first `getErrors` nothing is cached, so the XML is shown. */
  lemma DetailsBranches(errors: Option<seq<RedmineError>>, responseXML: Option<string>)
    ensures errors.Some? && errors.value != [] ==> Details(errors, responseXML) == ERRORS_OPEN + Descriptions(errors.value)
    ensures (errors.None? || errors.value == []) && IsQualifiedString(responseXML) ==>
              Details(errors, responseXML) == XML_OPEN + responseXML.value + CLOSE
    ensures (errors.None? || errors.value == []) && !IsQualifiedString(responseXML) ==>
              Details(errors, responseXML) == ""
  {
  }
}
