/**
 * Values shared by every module of the authentication core: Java's nullable
 * references (`Option`), the exceptions the core throws or catches (`Fault`),
 * a call that either returns or throws (`Outcome`), and the few
 * `java.lang.String` / Spring `StringUtils` predicates the core relies on.
 */
module Common {

  /** A Java reference that may be null. */
  datatype Option<T> = None | Some(value: T)

  /** The exceptions raised inside the core, by class; messages are kept where the core sets them. */
  datatype Fault =
    | Authenticate(code: int, msg: string)   // AuthenticateException (a CommonException with a status code)
    | BadCredentials(msg: string)            // Spring Security's BadCredentialsException
    | UnsupportedOperation(msg: string)
    | IllegalArgument(msg: string)
    | IllegalState(msg: string)
    | InnerCommon(msg: string)               // InnerCommonException
    | IOFailure(msg: string)                 // java.io.IOException
    | NullPointer                            // dereferencing a null claim or parameter
    | ClassCast                              // a cast of a claim or detail to the wrong class
    | TooManyResults                         // MyBatis-Plus getOne when more than one row matches
    | ProviderNotFound                       // Spring's ProviderManager when no provider returns a result

  /** A Java call that either returns a value or throws. */
  datatype Outcome<T> = Ok(value: T) | Thrown(fault: Fault)

  /** `s.startsWith(prefix)` */
  predicate StartsWith(s: string, prefix: string)
  {
    |prefix| <= |s| && s[..|prefix|] == prefix
  }

  predicate IsDigit(c: char)
  {
    '0' <= c <= '9'
  }

  predicate AllDigits(s: string)
  {
    forall i :: 0 <= i < |s| ==> IsDigit(s[i])
  }

  /**
   * `Character.isWhitespace(c)`: the Unicode space, line and paragraph
   * separators other than the three no-break spaces, plus the ASCII controls
   * TAB, LF, VT, FF, CR and the four information separators.
   */
  predicate IsJavaWhitespace(c: char)
  {
    || c == ' ' || c == '\t' || c == '\n' || c == '\U{000B}' || c == '\U{000C}' || c == '\r'
    || ('\U{001C}' <= c <= '\U{001F}')
    || c == '\U{1680}' || ('\U{2000}' <= c <= '\U{2006}') || ('\U{2008}' <= c <= '\U{200A}')
    || c == '\U{2028}' || c == '\U{2029}' || c == '\U{205F}' || c == '\U{3000}'
  }

  /** `s.isBlank()`: empty or made only of whitespace. */
  predicate IsBlank(s: string)
  {
    forall i :: 0 <= i < |s| ==> IsJavaWhitespace(s[i])
  }

  /** Spring's `StringUtils.hasText(s)`: non-null and holding a character that is not whitespace. */
  predicate HasText(s: Option<string>)
  {
    s.Some? && !IsBlank(s.value)
  }

  /** The characters `String.trim()` removes: every code point up to U+0020. */
  predicate IsTrimmable(c: char)
  {
    c <= ' '
  }

  /** Number of trimmable characters at the front of `s`. */
  function LeadingTrimmable(s: string): (n: nat)
    ensures n <= |s|
    ensures forall i :: 0 <= i < n ==> IsTrimmable(s[i])
    ensures n < |s| ==> !IsTrimmable(s[n])
  {
    if s == [] || !IsTrimmable(s[0]) then 0 else 1 + LeadingTrimmable(s[1..])
  }

  /** Number of trimmable characters at the back of `s`. */
  function TrailingTrimmable(s: string): (n: nat)
    ensures n <= |s|
    ensures forall i :: |s| - n <= i < |s| ==> IsTrimmable(s[i])
    ensures n < |s| ==> !IsTrimmable(s[|s| - 1 - n])
  {
    if s == [] || !IsTrimmable(s[|s| - 1]) then 0 else 1 + TrailingTrimmable(s[..|s| - 1])
  }

  /**
   * `s.trim()`: the longest infix of `s` that neither starts nor ends with a
   * character up to U+0020, obtained by dropping only such characters.
   */
  function Trim(s: string): (r: string)
    ensures exists i, j :: 0 <= i <= j <= |s| && r == s[i..j]
                           && (forall k :: 0 <= k < i ==> IsTrimmable(s[k]))
                           && (forall k :: j <= k < |s| ==> IsTrimmable(s[k]))
    ensures r != [] ==> !IsTrimmable(r[0]) && !IsTrimmable(r[|r| - 1])
    ensures (forall k :: 0 <= k < |s| ==> !IsTrimmable(s[k])) ==> r == s
  {
    var front := LeadingTrimmable(s);
    if front == |s| then
      assert s[|s|..|s|] == [];
      []
    else
      var rest := s[front..];
      var back := TrailingTrimmable(rest);
      assert back < |rest| by {
        assert !IsTrimmable(rest[0]);
      }
      assert s[front..front + |rest| - back] == rest[..|rest| - back];
      rest[..|rest| - back]
  }
}
