/**
 * Shared vocabulary of the backend model: identifiers, optional values, the
 * outcomes a request handler can end in, exact money arithmetic, and the few
 * JavaScript value conventions (`x || d`, string prefixes) that the handlers
 * rely on.
 */
module Base {

  /** Document identifiers (Mongo ObjectIds) and clock readings are opaque. */
  type Id = nat
  type Time = int

  datatype Option<T> = None | Some(value: T)

  /**
   * How a handler fails. `BadRequest`, `Forbidden` and `NotFound` are the
   * explicit 400, 403 and 404 answers; `Invalid` is a schema validation error
   * raised by a save or an update; `ServerError` is any other exception the
   * handler lets escape (a TypeError on a missing document, an explicit throw).
   */
  datatype Failure = BadRequest | Forbidden | NotFound | Invalid | ServerError

  datatype Result<T> = Ok(value: T) | Fail(failure: Failure)

  datatype Outcome = Done | Failed(failure: Failure)

  /** JavaScript `x || d` on an optional number: absent and 0 both fall back to `d`. */
  function NumOr(x: Option<int>, d: int): int {
    if x.Some? && x.value != 0 then x.value else d
  }

  /** JavaScript `x || d` on an optional string: absent and "" both fall back to `d`. */
  function StrOr(x: Option<string>, d: string): string {
    if x.Some? && x.value != "" then x.value else d
  }

  /** An optional value or a default: a field a request body may or may not carry. */
  function Or<T>(x: Option<T>, d: T): T {
    if x.Some? then x.value else d
  }

  /** JavaScript truthiness of an optional string. */
  predicate Truthy(x: Option<string>) {
    x.Some? && x.value != ""
  }

  /** Template-literal rendering of an optional string: an absent value prints as "undefined". */
  function Render(x: Option<string>): string {
    if x.Some? then x.value else "undefined"
  }

  /** The ceiling of a / n for a positive divisor, on exact integers. */
  function CeilDiv(a: int, n: int): (r: int)
    requires n > 0
    ensures n * (r - 1) < a <= n * r
  {
    var q := (a + n - 1) / n;
    assert a + n - 1 == n * q + (a + n - 1) % n;
    q
  }

  /** `Math.ceil(a / b)` for a non-zero divisor of either sign. */
  function CeilRatio(a: int, b: int): (r: int)
    requires b != 0
    ensures b > 0 ==> b * (r - 1) < a <= b * r
    ensures b < 0 ==> b * (r - 1) > a >= b * r
  {
    if b > 0 then CeilDiv(a, b) else CeilDiv(-a, -b)
  }

  /** `Math.ceil(x / 5) * 5`: the least multiple of five that is not below x. */
  function RoundUpToFive(x: int): (r: int)
    ensures r % 5 == 0
    ensures x <= r < x + 5
  {
    CeilDiv(x, 5) * 5
  }

  /** `Math.round(x)`: the nearest integer, halves rounded up. */
  function Round(x: real): (r: int)
    ensures x - 0.5 < r as real <= x + 0.5
  {
    (x + 0.5).Floor
  }

  predicate StartsWith(s: string, prefix: string) {
    |prefix| <= |s| && s[..|prefix|] == prefix
  }

  /** The regular expression /^https?:\/\// of the URL validators. */
  predicate IsHttpUrl(s: string) {
    StartsWith(s, "http://") || StartsWith(s, "https://")
  }

  /** A string that does not start with 'h' is not an http(s) URL. */
  lemma NotHttpUrl(s: string)
    requires |s| > 0 && s[0] != 'h'
    ensures !IsHttpUrl(s)
  {
    assert "http://"[0] == 'h' && "https://"[0] == 'h';
    if |s| >= 7 {
      assert s[..7][0] == s[0];
    }
    if |s| >= 8 {
      assert s[..8][0] == s[0];
    }
  }

  predicate IsDigit(c: char) {
    '0' <= c <= '9'
  }

  /** One or more decimal digits and nothing else. */
  predicate IsDigits(s: string) {
    |s| > 0 && forall i :: 0 <= i < |s| ==> IsDigit(s[i])
  }

  /** The regular expression /^\+?\d+$/ of the phone validators. */
  predicate IsPhoneNumber(s: string) {
    IsDigits(s) || (|s| > 0 && s[0] == '+' && IsDigits(s[1..]))
  }

  function UpperChar(c: char): char {
    if 'a' <= c <= 'z' then (c as int - 32) as char else c
  }

  /**
   * `toUpperCase()` restricted to ASCII letters: each lower-case ASCII
   * letter becomes its capital, 32 code points below it, every other
   * character is kept, and no lower-case ASCII letter is left.
   */
  function Upper(s: string): (r: string)
    ensures |r| == |s|
    ensures forall i :: 0 <= i < |s| && 'a' <= s[i] <= 'z' ==> r[i] as int == s[i] as int - 32
    ensures forall i :: 0 <= i < |s| && !('a' <= s[i] <= 'z') ==> r[i] == s[i]
    ensures forall i :: 0 <= i < |r| ==> !('a' <= r[i] <= 'z')
  {
    seq(|s|, i requires 0 <= i < |s| => UpperChar(s[i]))
  }

  /** Upper-casing twice is upper-casing once. */
  lemma UpperIdempotent(s: string)
    ensures Upper(Upper(s)) == Upper(s)
  {
  }

  function LowerChar(c: char): char {
    if 'A' <= c <= 'Z' then (c as int + 32) as char else c
  }

  /**
   * `toLowerCase()` restricted to ASCII letters (the schema's
   * `lowercase: true`): each capital ASCII letter becomes its lower-case
   * letter, 32 code points above it, every other character is kept, and
   * no capital ASCII letter is left.
   */
  function Lower(s: string): (r: string)
    ensures |r| == |s|
    ensures forall i :: 0 <= i < |s| && 'A' <= s[i] <= 'Z' ==> r[i] as int == s[i] as int + 32
    ensures forall i :: 0 <= i < |s| && !('A' <= s[i] <= 'Z') ==> r[i] == s[i]
    ensures forall i :: 0 <= i < |r| ==> !('A' <= r[i] <= 'Z')
  {
    seq(|s|, i requires 0 <= i < |s| => LowerChar(s[i]))
  }

  /** Lower-casing twice is lower-casing once. */
  lemma LowerIdempotent(s: string)
    ensures Lower(Lower(s)) == Lower(s)
  {
  }

  /** `xs.join(sep)`. */
  function Join(xs: seq<string>, sep: string): string {
    if |xs| == 0 then ""
    else if |xs| == 1 then xs[0]
    else xs[0] + sep + Join(xs[1..], sep)
  }

  predicate IsSpace(c: char) {
    c == ' ' || c == '\t' || c == '\n' || c == '\r' || c == '\U{0B}' || c == '\U{0C}'
  }

  /** `s.replace(/\s+/g, rep)` with ASCII white space: each run of spaces becomes one `rep`. */
  function CollapseSpaces(s: string, rep: string): (r: string)
    ensures forall i :: 0 <= i < |r| ==> (r[i] in s && !IsSpace(r[i])) || r[i] in rep
    decreases |s|
  {
    if |s| == 0 then ""
    else if IsSpace(s[0]) then rep + CollapseSpaces(DropSpaces(s[1..]), rep)
    else [s[0]] + CollapseSpaces(s[1..], rep)
  }

  function DropSpaces(s: string): (r: string)
    ensures |r| <= |s|
    ensures r == [] || !IsSpace(r[0])
    ensures forall c :: c in r ==> c in s
  {
    if |s| > 0 && IsSpace(s[0]) then DropSpaces(s[1..]) else s
  }
}
