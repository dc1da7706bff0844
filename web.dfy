/** What the page's event handlers rely on from JavaScript and the browser:
    `null`/`undefined` fields, truthiness of strings, `String.prototype.trim`,
    thrown values, the shape of one fetch round trip, and the requests the
    page sends to its four endpoints. */
module Web {

  /** A JSON field or a piece of component state that may be `null` or `undefined`. */
  datatype Option<T> = None | Some(value: T)

  /** The set of a possibly-absent value: empty or a singleton. */
  function Members<T>(o: Option<T>): set<T> {
    match o
    case None => {}
    case Some(v) => {v}
  }

  /** JavaScript truthiness of a string-valued field: present and not "". */
  predicate Truthy(o: Option<string>) {
    o.Some? && o.value != ""
  }

  /** `o || fallback` for a string-valued field. */
  function OrElse(o: Option<string>, fallback: string): string {
    if Truthy(o) then o.value else fallback
  }

  // ---------------------------------------------------------------------------
  // String.prototype.trim

  /** ECMAScript WhiteSpace and LineTerminator code points: the characters
      `trim` removes from both ends. */
  predicate IsWhiteSpace(c: char) {
    c == '\t' || c == '\n' || c == '\U{000B}' || c == '\U{000C}' || c == '\r'
    || c == ' ' || c == '\U{00A0}' || c == '\U{1680}'
    || ('\U{2000}' <= c <= '\U{200A}')
    || c == '\U{2028}' || c == '\U{2029}' || c == '\U{202F}' || c == '\U{205F}'
    || c == '\U{3000}' || c == '\U{FEFF}'
  }

  /** `s` with its leading white space removed. */
  function TrimStart(s: string): (r: string)
    ensures |r| <= |s| && r == s[|s| - |r|..]
    ensures r == "" || !IsWhiteSpace(r[0])
    ensures forall i :: 0 <= i < |s| - |r| ==> IsWhiteSpace(s[i])
  {
    if s != "" && IsWhiteSpace(s[0]) then TrimStart(s[1..]) else s
  }

  /** `s` with its trailing white space removed. */
  function TrimEnd(s: string): (r: string)
    ensures |r| <= |s| && r == s[..|r|]
    ensures r == "" || !IsWhiteSpace(r[|r| - 1])
    ensures forall i :: |r| <= i < |s| ==> IsWhiteSpace(s[i])
  {
    if s != "" && IsWhiteSpace(s[|s| - 1]) then TrimEnd(s[..|s| - 1]) else s
  }

  /** `s.trim()`. */
  function Trim(s: string): string {
    TrimEnd(TrimStart(s))
  }

  /** `!s.trim()`: every character of the string is white space, so that
      nothing is left once it is trimmed (TrimmedEmptyIffBlank). */
  predicate IsBlank(s: string) {
    forall i :: 0 <= i < |s| ==> IsWhiteSpace(s[i])
  }

  /** Trimming leaves the empty string exactly when the string is blank. */
  lemma TrimmedEmptyIffBlank(s: string)
    ensures Trim(s) == "" <==> IsBlank(s)
  {
  }

  // ---------------------------------------------------------------------------
  // Exceptions and fetch round trips

  /** A value caught by a `catch (error)` clause. */
  datatype Thrown =
    | ErrorObject(message: string)  // an `Error` (or subclass) instance
    | OtherValue                    // any thrown value that is not an `Error`

  /** `error instanceof Error ? error.message : fallback`. */
  function Message(e: Thrown, fallback: string): string {
    match e
    case ErrorObject(m) => m
    case OtherValue => fallback
  }

  /** One `fetch` followed by `response.json()`, as the handler sees it:
      either something was thrown (fetch rejected, or the body was not JSON),
      or a response arrived with its `ok` flag and its decoded body. */
  datatype Exchange<D> =
    | Rejected(thrown: Thrown)
    | Answered(ok: bool, data: D)

  // ---------------------------------------------------------------------------
  // Requests the page sends

  /** An outgoing HTTP request: a POST whose JSON body is the single-field
      object `{ key: value }`, or a GET of a URL. */
  datatype Request =
    | Post(path: string, key: string, value: string)
    | Get(url: string)

  const ANALYZE_PATH := "/api/analyze"
  const GENERATE_PATH := "/api/generate"
  const GENERATE_VIDEO_PATH := "/api/generate-video"
  const VIDEO_STATUS_PATH := "/api/generate-video/status?taskId="

  /** The status URL for a task: the identifier is appended without escaping. */
  function StatusUrl(taskId: string): string {
    VIDEO_STATUS_PATH + taskId
  }

  /** `n` copies of the same request. */
  function Repeat(r: Request, n: nat): (rs: seq<Request>)
    ensures |rs| == n && forall i :: 0 <= i < n ==> rs[i] == r
  {
    if n == 0 then [] else Repeat(r, n - 1) + [r]
  }
}
