/**
 * The connector's `Utilities` class: argument assertions, the qualified-string test,
 * `StringTokenizer`-based splitting, and the object-type to URL-segment table.
 */
module Utilities {
  import opened Wrappers
  import opened JavaLang
  import opened Errors

  /** A Java argument of static type `Object`, as far as the assertions can tell it apart. */
  datatype JavaObject = NullObject | StringObject(s: string) | OtherObject

  /** `isQualifiedString`: non-null, and not empty once trimmed. */
  predicate IsQualifiedString(str: Option<string>)
  {
    str.Some? && |Trim(str.value)| > 0
  }

  /** A string is qualified exactly when it holds some character above U+0020. */
  lemma QualifiedIffVisibleChar(s: string)
    ensures IsQualifiedString(Some(s)) <==> HasVisibleChar(s)
  {
    TrimLeadingEmpty(s);
    if TrimLeading(s) != [] {
      TrimTrailingKeepsHead(TrimLeading(s));
    }
  }

  /** Null is never qualified. */
  lemma NullNotQualified()
    ensures !IsQualifiedString(None)
  {
  }

  /** `assertQualifiedString(str)` (one-argument form). */
  function AssertQualifiedString(str: Option<string>): (r: Outcome<Exception>)
    ensures r.Pass? <==> IsQualifiedString(str)
    ensures r.Fail? ==> r.error.IllegalArgument?
  {
    if !IsQualifiedString(str) then
      Fail(IllegalArgument("Null or zero length string found. str[" + StringText(str) + "]"))
    else Pass
  }

  /** `assertNotNullArgument(obj)` (one-argument form). */
  function AssertNotNullArgument(obj: JavaObject): (r: Outcome<Exception>)
    ensures obj.NullObject? ==> r.Fail? && r.error.IllegalArgument?
    ensures obj.StringObject? ==> r == AssertQualifiedString(Some(obj.s))
    ensures obj.OtherObject? ==> r.Pass?
  {
    match obj
    case NullObject => Fail(IllegalArgument("Null Object specified as argument"))
    case StringObject(s) => AssertQualifiedString(Some(s))
    case OtherObject => Pass
  }

  /** `assertQualifiedString(str, argName)`: the message names the argument. */
  function AssertQualifiedStringNamed(str: Option<string>, argName: Option<string>): (r: Outcome<Exception>)
    ensures r.Pass? <==> IsQualifiedString(str)
    ensures r.Fail? ==> r.error.IllegalArgument?
    ensures r.Fail? ==>
      exists k :: 0 <= k <= |r.error.message| && r.error.message[k..] == "] argumentName[" + StringText(argName) + "]"
  {
    if !IsQualifiedString(str) then
      var msg := "Null or zero length string found. str[" + StringText(str) + "] argumentName[" + StringText(argName) + "]";
      assert msg[|msg| - |"] argumentName[" + StringText(argName) + "]"|..] == "] argumentName[" + StringText(argName) + "]";
      Fail(IllegalArgument(msg))
    else Pass
  }

  /** `assertNotNullArgument(obj, argName)`: rejects null and unqualified strings. */
  function AssertNotNullArgumentNamed(obj: JavaObject, argName: Option<string>): (r: Outcome<Exception>)
    ensures r.Fail? <==> obj.NullObject? || (obj.StringObject? && !IsQualifiedString(Some(obj.s)))
    ensures r.Fail? ==> r.error.IllegalArgument?
  {
    match obj
    case NullObject =>
      Fail(IllegalArgument("Null Object specified as argument. argumentName[" + StringText(argName) + "]"))
    case StringObject(s) => AssertQualifiedStringNamed(Some(s), argName)
    case OtherObject => Pass
  }

  // ---------------------------------------------------------------------------------------------
  // StringTokenizer semantics: the delimiter string is a SET of characters; tokens are the maximal
  // runs of non-delimiter characters, left to right.

  /** The first position at or after `i` that is not a delimiter (`skipDelimiters`). */
  function SkipFrom(s: string, delims: string, i: nat): (j: nat)
    requires i <= |s|
    ensures i <= j <= |s|
    ensures j < |s| ==> s[j] !in delims
    ensures forall k :: i <= k < j ==> s[k] in delims
    decreases |s| - i
  {
    if i < |s| && s[i] in delims then SkipFrom(s, delims, i + 1) else i
  }

  /** The first delimiter position at or after `i`, or the end (`scanToken`). */
  function ScanFrom(s: string, delims: string, i: nat): (j: nat)
    requires i <= |s|
    ensures i <= j <= |s|
    ensures j < |s| ==> s[j] in delims
    ensures forall k :: i <= k < j ==> s[k] !in delims
    decreases |s| - i
  {
    if i < |s| && s[i] !in delims then ScanFrom(s, delims, i + 1) else i
  }

  /** The tokens of `s[i..]`. */
  function TokensFrom(s: string, delims: string, i: nat): seq<string>
    requires i <= |s|
    decreases |s| - i
  {
    var a := SkipFrom(s, delims, i);
    if a == |s| then []
    else
      var b := ScanFrom(s, delims, a);
      [s[a..b]] + TokensFrom(s, delims, b)
  }

  function Tokens(s: string, delims: string): seq<string>
  {
    TokensFrom(s, delims, 0)
  }

  /** `getTokenizedString`: the tokens left to right, or null when there are none. */
  method GetTokenizedString(strToTokenize: string, delimiter: string) returns (r: Option<seq<string>>)
    ensures r == if Tokens(strToTokenize, delimiter) == [] then None else Some(Tokens(strToTokenize, delimiter))
  {
    var tokens: seq<string> := [];
    var pos := 0;
    while pos < |strToTokenize|
      invariant pos <= |strToTokenize|
      invariant tokens + TokensFrom(strToTokenize, delimiter, pos) == Tokens(strToTokenize, delimiter)
      decreases |strToTokenize| - pos
    {
      ghost var before := pos;
      while pos < |strToTokenize| && strToTokenize[pos] in delimiter
        invariant before <= pos <= |strToTokenize|
        invariant SkipFrom(strToTokenize, delimiter, pos) == SkipFrom(strToTokenize, delimiter, before)
        decreases |strToTokenize| - pos
      {
        pos := pos + 1;
      }
      if pos < |strToTokenize| {
        var start := pos;
        while pos < |strToTokenize| && strToTokenize[pos] !in delimiter
          invariant start <= pos <= |strToTokenize|
          invariant ScanFrom(strToTokenize, delimiter, pos) == ScanFrom(strToTokenize, delimiter, start)
          decreases |strToTokenize| - pos
        {
          pos := pos + 1;
        }
        tokens := tokens + [strToTokenize[start..pos]];
      }
    }
    assert SkipFrom(strToTokenize, delimiter, pos) == pos;
    assert tokens == Tokens(strToTokenize, delimiter);
    if |tokens| == 0 {
      r := None;
    } else {
      r := Some(tokens);
    }
  }

  /** Every token is non-empty and holds no delimiter character. */
  lemma {:induction false} TokensFromWellFormed(s: string, delims: string, i: nat)
    requires i <= |s|
    ensures forall t :: t in TokensFrom(s, delims, i) ==> |t| > 0 && forall c :: c in t ==> c !in delims
    decreases |s| - i
  {
    var a := SkipFrom(s, delims, i);
    if a < |s| {
      var b := ScanFrom(s, delims, a);
      TokensFromWellFormed(s, delims, b);
    }
  }

  lemma TokensWellFormed(s: string, delims: string)
    ensures forall t :: t in Tokens(s, delims) ==> |t| > 0 && forall c :: c in t ==> c !in delims
  {
    TokensFromWellFormed(s, delims, 0);
  }

  /** There are no tokens exactly when every character is a delimiter (the empty string included). */
  lemma TokensEmptyIff(s: string, delims: string)
    ensures Tokens(s, delims) == [] <==> forall k :: 0 <= k < |s| ==> s[k] in delims
  {
    var a := SkipFrom(s, delims, 0);
    if a < |s| {
      assert s[a] !in delims;
    }
  }

  /** The characters of `s[i..]` that are not delimiters, in order. */
  function Kept(s: string, delims: string, i: nat): string
    requires i <= |s|
    decreases |s| - i
  {
    if i == |s| then [] else (if s[i] in delims then [] else [s[i]]) + Kept(s, delims, i + 1)
  }

  function Flatten(ts: seq<string>): string
  {
    if ts == [] then [] else ts[0] + Flatten(ts[1..])
  }

  lemma {:induction false} KeptSkips(s: string, delims: string, i: nat, j: nat)
    requires i <= j <= |s|
    requires forall k :: i <= k < j ==> s[k] in delims
    ensures Kept(s, delims, i) == Kept(s, delims, j)
    decreases j - i
  {
    if i < j {
      KeptSkips(s, delims, i + 1, j);
    }
  }

  lemma {:induction false} KeptTakes(s: string, delims: string, i: nat, j: nat)
    requires i <= j <= |s|
    requires forall k :: i <= k < j ==> s[k] !in delims
    ensures Kept(s, delims, i) == s[i..j] + Kept(s, delims, j)
    decreases j - i
  {
    if i < j {
      assert s[i] !in delims;
      assert Kept(s, delims, i) == [s[i]] + Kept(s, delims, i + 1);
      KeptTakes(s, delims, i + 1, j);
      assert s[i..j] == [s[i]] + s[i + 1..j];
      AppendAssoc([s[i]], s[i + 1..j], Kept(s, delims, j));
    }
  }

  lemma {:induction false} TokensFromKept(s: string, delims: string, i: nat)
    requires i <= |s|
    ensures Flatten(TokensFrom(s, delims, i)) == Kept(s, delims, i)
    decreases |s| - i
  {
    var a := SkipFrom(s, delims, i);
    KeptSkips(s, delims, i, a);
    if a < |s| {
      var b := ScanFrom(s, delims, a);
      KeptTakes(s, delims, a, b);
      TokensFromKept(s, delims, b);
      assert TokensFrom(s, delims, i)[1..] == TokensFrom(s, delims, b);
    }
  }

  /** Concatenating the tokens gives back the input with every delimiter character removed. */
  lemma TokensContent(s: string, delims: string)
    ensures Flatten(Tokens(s, delims)) == Kept(s, delims, 0)
  {
    TokensFromKept(s, delims, 0);
  }

  /** Position `j` starts a maximal run of non-delimiter characters. */
  predicate RunStart(s: string, delims: string, j: nat)
    requires j < |s|
  {
    s[j] !in delims && (j == 0 || s[j - 1] in delims)
  }

  /** The number of runs that start in `s[i..]`. */
  function RunStartsFrom(s: string, delims: string, i: nat): nat
    requires i <= |s|
    decreases |s| - i
  {
    if i == |s| then 0 else (if RunStart(s, delims, i) then 1 else 0) + RunStartsFrom(s, delims, i + 1)
  }

  lemma {:induction false} RunStartsSkip(s: string, delims: string, i: nat, j: nat)
    requires i <= j <= |s|
    requires forall k :: i <= k < j ==> s[k] in delims
    ensures RunStartsFrom(s, delims, i) == RunStartsFrom(s, delims, j)
    decreases j - i
  {
    if i < j {
      RunStartsSkip(s, delims, i + 1, j);
    }
  }

  lemma {:induction false} RunStartsInside(s: string, delims: string, i: nat, j: nat)
    requires 0 < i <= j <= |s|
    requires forall k :: i - 1 <= k < j ==> s[k] !in delims
    ensures RunStartsFrom(s, delims, i) == RunStartsFrom(s, delims, j)
    decreases j - i
  {
    if i < j {
      RunStartsInside(s, delims, i + 1, j);
    }
  }

  lemma {:induction false} TokensFromCount(s: string, delims: string, i: nat)
    requires i <= |s|
    requires i == 0 || i == |s| || s[i - 1] in delims || s[i] in delims
    ensures |TokensFrom(s, delims, i)| == RunStartsFrom(s, delims, i)
    decreases |s| - i
  {
    var a := SkipFrom(s, delims, i);
    RunStartsSkip(s, delims, i, a);
    if a < |s| {
      var b := ScanFrom(s, delims, a);
      assert RunStart(s, delims, a);
      RunStartsInside(s, delims, a + 1, b);
      TokensFromCount(s, delims, b);
    }
  }

  /** The token count equals the number of maximal runs of non-delimiter characters. */
  lemma TokenCount(s: string, delims: string)
    ensures |Tokens(s, delims)| == RunStartsFrom(s, delims, 0)
  {
    TokensFromCount(s, delims, 0);
  }

  // ---------------------------------------------------------------------------------------------
  // prepareRedmineRequestURL

  /** The `Class` argument of `prepareRedmineRequestURL`; `OtherClass(None)` is a null class. */
  datatype JavaClass = ProjectClass | IssueClass | PriorityClass | StatusClass | TrackerClass | UserClass
                     | OtherClass(name: Option<string>)

  /** `"" + objectType` for a class outside the table: `class <name>`, or `null`. */
  function ClassText(objectType: JavaClass): string
  {
    match objectType
    case OtherClass(Some(n)) => "class " + n
    case OtherClass(None) => "null"
    case _ => "class"
  }

  /** The URL path segment the if-chain selects, or none for an unrecognised type. */
  function ObjectURLSegment(objectType: JavaClass): Option<string>
  {
    match objectType
    case ProjectClass => Some("projects")
    case IssueClass => Some("issues")
    case PriorityClass => Some("priorities")
    case StatusClass => Some("statuses")
    case TrackerClass => Some("trackers")
    case UserClass => Some("users")
    case OtherClass(_) => None
  }

  /** `prepareRedmineRequestURL`: throws for an unrecognised type, and returns null otherwise
      (the computed segment is not used). The operation type, id and parameters are ignored. */
  function PrepareRedmineRequestURL(objectType: JavaClass, operationType: bv8, id: Option<string>,
                                    parameters: Option<map<string, string>>): (r: Result<Option<string>, Exception>)
    ensures r.Failure? <==> objectType.OtherClass?
    ensures r.Failure? ==> r.error.RCRuntime? && r.error.code == ILLEGAL_STATE
    ensures r.Success? ==> r.value.None?
  {
    match ObjectURLSegment(objectType)
    case None =>
      Failure(RCRuntime(ILLEGAL_STATE, Some("Prepare-request-url does not recognized specified object type. type["
                                            + ClassText(objectType) + "]"), None))
    case Some(_) => Success(None)
  }

  /** The segment table: six distinct segments for the six recognised types. */
  lemma SegmentTable()
    ensures ObjectURLSegment(ProjectClass) == Some("projects") && ObjectURLSegment(IssueClass) == Some("issues")
    ensures ObjectURLSegment(PriorityClass) == Some("priorities") && ObjectURLSegment(StatusClass) == Some("statuses")
    ensures ObjectURLSegment(TrackerClass) == Some("trackers") && ObjectURLSegment(UserClass) == Some("users")
    ensures forall c, d :: ObjectURLSegment(c).Some? && ObjectURLSegment(c) == ObjectURLSegment(d) ==> c == d
  {
  }
}
