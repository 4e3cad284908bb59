/**
 * The few pieces of the Java platform the connector's core relies on: fixed-width integers,
 * `String.trim`, and the decimal rendering that string concatenation applies to numbers and nulls.
 */
module JavaLang {
  import opened Wrappers

  /** The closing bracket most of the library's messages end with. */
  const CLOSE := "]"

  const LONG_MIN: int := -0x8000_0000_0000_0000
  const LONG_MAX: int := 0x7FFF_FFFF_FFFF_FFFF
  const INT_MIN: int := -0x8000_0000
  const INT_MAX: int := 0x7FFF_FFFF

  /** Java `long`. */
  type Int64 = x: int | LONG_MIN <= x <= LONG_MAX
  /** Java `int`. */
  type Int32 = x: int | INT_MIN <= x <= INT_MAX

  /** Two's-complement wrap-around of Java `long` arithmetic. */
  function WrapLong(x: int): (r: Int64)
    ensures LONG_MIN <= x <= LONG_MAX ==> r == x
  {
    (x - LONG_MIN) % 0x1_0000_0000_0000_0000 + LONG_MIN
  }

  /** `String.trim`: drops every leading and trailing character at or below U+0020. */
  function TrimLeading(s: string): string
  {
    if s != [] && s[0] <= ' ' then TrimLeading(s[1..]) else s
  }

  function TrimTrailing(s: string): string
  {
    if s != [] && s[|s| - 1] <= ' ' then TrimTrailing(s[..|s| - 1]) else s
  }

  function Trim(s: string): string
  {
    TrimTrailing(TrimLeading(s))
  }

  /** True when some character of `s` survives `trim`. */
  ghost predicate HasVisibleChar(s: string)
  {
    exists i :: 0 <= i < |s| && s[i] > ' '
  }

  lemma {:induction false} TrimLeadingEmpty(s: string)
    ensures TrimLeading(s) == [] <==> !HasVisibleChar(s)
    ensures TrimLeading(s) != [] ==> TrimLeading(s)[0] > ' '
  {
    if s != [] && s[0] <= ' ' {
      TrimLeadingEmpty(s[1..]);
      if HasVisibleChar(s) {
        var i :| 0 <= i < |s| && s[i] > ' ';
        assert s[1..][i - 1] > ' ';
      }
      if HasVisibleChar(s[1..]) {
        var i :| 0 <= i < |s[1..]| && s[1..][i] > ' ';
        assert s[i + 1] > ' ';
      }
    } else if s != [] {
      assert s[0] > ' ';
    }
  }

  lemma {:induction false} TrimTrailingKeepsHead(s: string)
    requires s != [] && s[0] > ' '
    ensures TrimTrailing(s) != []
  {
    if s[|s| - 1] <= ' ' {
      TrimTrailingKeepsHead(s[..|s| - 1]);
    }
  }

  /** Decimal rendering of a Java integer, as `"" + n` and `StringBuffer.append(n)` produce it. */
  function NatToString(n: nat): (r: string)
    ensures |r| > 0
    ensures forall k :: 0 <= k < |r| ==> '0' <= r[k] <= '9'
    decreases n
  {
    if n < 10 then [Digit(n)] else NatToString(n / 10) + [Digit(n % 10)]
  }

  /** The character of a decimal digit, `'0'` to `'9'`. */
  function Digit(d: nat): (c: char)
    requires d < 10
    ensures '0' <= c <= '9'
  {
    (48 + d) as char
  }

  function IntToString(i: int): (r: string)
    ensures |r| > 0
  {
    if i < 0 then ['-'] + NatToString(-i) else NatToString(i)
  }

  /** `String.valueOf` of a possibly-null `Long`: `"null"` for null. */
  function LongText(x: Option<int>): string
  {
    match x
    case None => "null"
    case Some(v) => IntToString(v)
  }

  /** `String.valueOf` of a possibly-null `String`. */
  function StringText(s: Option<string>): string
  {
    match s
    case None => "null"
    case Some(v) => v
  }

  /** `AbstractCollection.toString` of a list of strings: `[a, b, c]`. */
  function ListText(items: seq<string>): string
  {
    "[" + JoinWithComma(items) + "]"
  }

  function JoinWithComma(items: seq<string>): string
  {
    if items == [] then "" else if |items| == 1 then items[0] else items[0] + ", " + JoinWithComma(items[1..])
  }

  /** Regrouping a concatenation; stated once so that proofs about appended messages need not
      look inside the pieces. */
  lemma AppendAssoc<T>(a: seq<T>, b: seq<T>, c: seq<T>)
    ensures a + b + c == a + (b + c)
  {
  }

  lemma AppendAssoc5<T>(s: seq<T>, a: seq<T>, b: seq<T>, c: seq<T>, d: seq<T>, e: seq<T>)
    ensures s + a + b + c + d + e == s + (a + b + c + d + e)
  {
  }

  /** `String.endsWith`; `String.startsWith` is Dafny's prefix relation `<=`. */
  predicate EndsWith(s: string, suffix: string)
  {
    |suffix| <= |s| && s[|s| - |suffix|..] == suffix
  }

  /** A concatenation starts with its first piece and ends with its last. */
  lemma ConcatFrame(prefix: string, middle: string, suffix: string)
    ensures prefix <= prefix + middle + suffix
    ensures EndsWith(prefix + middle + suffix, suffix)
  {
    assert (prefix + middle + suffix)[..|prefix|] == prefix;
    assert (prefix + middle + suffix)[|prefix + middle|..] == suffix;
  }
}
