/**
 * `Response`: a read-only view of the status line that the transport layer
 * stores, as three reserved pseudo-headers, in the header store `Response`
 * inherits from `Stream`, and the classification of its status code.
 */
module HttpResponse {
  import opened Wrappers
  import opened PhpCast
  import HttpStatus

  /** The `type` tag of a stream object: a request or a response. */
  datatype StreamType = TypeRequest | TypeResponse

  /** The reserved pseudo-headers that carry the status line. */
  const STATUS: string := "_status"
  const STATUS_CODE: string := "_status_code"
  const STATUS_TEXT: string := "_status_text"

  /** A response: its type tag and the header store it inherits. */
  datatype Response = Response(kind: StreamType, headers: map<string, Scalar>)

  /** `getHeader`: the stored value, or nothing (PHP `null`) when the header is absent. */
  function GetHeader(r: Response, name: string): Option<Scalar> {
    if name in r.headers then Some(r.headers[name]) else None
  }

  // ---------------------------------------------------------------------
  // Accessors
  // ---------------------------------------------------------------------

  /** `getStatus`: `(string)` of the `_status` pseudo-header. */
  function GetStatus(r: Response): (s: string)
    ensures STATUS !in r.headers ==> s == ""
  {
    ToStr(GetHeader(r, STATUS))
  }

  /** `getStatusCode`: `(int)` of the `_status_code` pseudo-header; absent or non-numeric reads as 0. */
  function GetStatusCode(r: Response): (c: int)
    ensures STATUS_CODE !in r.headers ==> c == 0
    ensures STATUS_CODE in r.headers && r.headers[STATUS_CODE].Str? && NoNumber(r.headers[STATUS_CODE].s) ==> c == 0
  {
    ToInt(GetHeader(r, STATUS_CODE))
  }

  /** `getStatusText`: `(string)` of the `_status_text` pseudo-header. */
  function GetStatusText(r: Response): (s: string)
    ensures STATUS_TEXT !in r.headers ==> s == ""
  {
    ToStr(GetHeader(r, STATUS_TEXT))
  }

  // ---------------------------------------------------------------------
  // Classification
  // ---------------------------------------------------------------------

  /** `isSuccess`: the status code lies in 200..299. */
  function IsSuccess(r: Response): (b: bool)
    ensures b <==> 200 <= GetStatusCode(r) <= 299
  {
    HttpStatus.IsSuccessCode(GetStatusCode(r))
  }

  /** `isFailure`: the status code is 400 or more, with no upper bound. */
  function IsFailure(r: Response): (b: bool)
    ensures b <==> GetStatusCode(r) >= 400
  {
    HttpStatus.IsFailureCode(GetStatusCode(r))
  }

  /** `isRedirect`: the status code lies in 300..399. */
  function IsRedirect(r: Response): (b: bool)
    ensures b <==> 300 <= GetStatusCode(r) <= 399
  {
    HttpStatus.IsRedirectCode(GetStatusCode(r))
  }

  // ---------------------------------------------------------------------
  // Construction and the transport layer's writes
  // ---------------------------------------------------------------------

  /**
   * `new Response()`: tagged as a response; before the transport layer has
   * written anything it has no status, so every accessor gives its default
   * and no check holds.
   */
  function New(): (r: Response)
    ensures r.kind == TypeResponse
    ensures GetStatus(r) == "" && GetStatusCode(r) == 0 && GetStatusText(r) == ""
    ensures !IsSuccess(r) && !IsRedirect(r) && !IsFailure(r)
  {
    Response(TypeResponse, map[])
  }

  /**
   * The transport layer writing one header into the store. The setter it uses
   * belongs to `Stream`; here a write replaces that one entry, keeps every
   * other entry and never touches the type tag.
   */
  function WithHeader(r: Response, name: string, v: Scalar): (r': Response)
    ensures r'.kind == r.kind
    ensures GetHeader(r', name) == Some(v)
    ensures forall n :: n != name ==> GetHeader(r', n) == GetHeader(r, n)
  {
    r.(headers := r.headers[name := v])
  }

  /** The response after the transport layer's header writes `ws`, applied in order. */
  function Writes(r: Response, ws: seq<(string, Scalar)>): Response
    decreases |ws|
  {
    if ws == [] then r else Writes(WithHeader(r, ws[0].0, ws[0].1), ws[1..])
  }

  /** Once construction has set the type tag, no sequence of header writes changes it. */
  lemma {:induction false} TagKept(r: Response, ws: seq<(string, Scalar)>)
    ensures Writes(r, ws).kind == r.kind
    decreases |ws|
  {
    if ws != [] {
      TagKept(WithHeader(r, ws[0].0, ws[0].1), ws[1..]);
    }
  }

  /** Every response built by `new Response()` and then filled by the transport layer is tagged as a response. */
  lemma NewThenWritesIsResponse(ws: seq<(string, Scalar)>)
    ensures Writes(New(), ws).kind == TypeResponse
  {
    TagKept(New(), ws);
  }

  /**
   * The transport layer storing a parsed status line: the whole line, the
   * code as the decimal text it was read from, and the reason phrase. The
   * accessors give back exactly what was stored, the code included.
   */
  function WithStatusLine(r: Response, line: string, code: int, text: string): (r': Response)
    ensures r'.kind == r.kind
    ensures GetStatus(r') == line && GetStatusCode(r') == code && GetStatusText(r') == text
    ensures forall n :: n != STATUS && n != STATUS_CODE && n != STATUS_TEXT ==> GetHeader(r', n) == GetHeader(r, n)
  {
    IntStringRoundTrip(code);
    WithHeader(WithHeader(WithHeader(r, STATUS, Str(line)), STATUS_CODE, Str(IntToString(code))), STATUS_TEXT, Str(text))
  }

  // ---------------------------------------------------------------------
  // Properties
  // ---------------------------------------------------------------------

  /**
   * `getStatusCode` returns exactly the code the transport layer stored,
   * whether it stored it as a PHP int or as its decimal text.
   */
  lemma StatusCodeReadBack(r: Response, code: int)
    requires STATUS_CODE in r.headers
    requires r.headers[STATUS_CODE] == Int(code) || r.headers[STATUS_CODE] == Str(IntToString(code))
    ensures GetStatusCode(r) == code
  {
    IntStringRoundTrip(code);
  }

  /**
   * With no status pseudo-headers, the accessors give "", 0 and "", and none
   * of the three checks holds.
   */
  lemma MissingStatusDefaults(r: Response)
    requires STATUS !in r.headers && STATUS_CODE !in r.headers && STATUS_TEXT !in r.headers
    ensures GetStatus(r) == "" && GetStatusCode(r) == 0 && GetStatusText(r) == ""
    ensures !IsSuccess(r) && !IsRedirect(r) && !IsFailure(r)
  {
  }

  /** The three checks see nothing but `getStatusCode()`. */
  lemma ChecksDependOnlyOnCode(r1: Response, r2: Response)
    requires GetStatusCode(r1) == GetStatusCode(r2)
    ensures IsSuccess(r1) == IsSuccess(r2)
    ensures IsRedirect(r1) == IsRedirect(r2)
    ensures IsFailure(r1) == IsFailure(r2)
  {
  }

  /**
   * At most one check holds for any response; below 200 none does, and
   * from 200 on exactly one does.
   */
  lemma ChecksExclusive(r: Response)
    ensures !(IsSuccess(r) && IsRedirect(r))
    ensures !(IsSuccess(r) && IsFailure(r))
    ensures !(IsRedirect(r) && IsFailure(r))
    ensures GetStatusCode(r) < 200 ==> !IsSuccess(r) && !IsRedirect(r) && !IsFailure(r)
    ensures GetStatusCode(r) >= 200 ==> IsSuccess(r) || IsRedirect(r) || IsFailure(r)
  {
    HttpStatus.ChecksDisjoint(GetStatusCode(r));
    HttpStatus.ChecksPartitionFrom200(GetStatusCode(r));
  }

  /** Typical status lines, as the transport layer would store them, and how they classify. */
  lemma StatusLineExamples()
    ensures var ok := WithStatusLine(New(), "HTTP/1.1 200 OK", 200, "OK");
      GetStatusCode(ok) == 200 && IsSuccess(ok) && !IsRedirect(ok) && !IsFailure(ok)
    ensures var moved := WithStatusLine(New(), "HTTP/1.1 301 Moved Permanently", 301, "Moved Permanently");
      IsRedirect(moved) && !IsSuccess(moved) && !IsFailure(moved)
    ensures var notFound := WithStatusLine(New(), "HTTP/1.1 404 Not Found", 404, "Not Found");
      IsFailure(notFound) && !IsSuccess(notFound) && !IsRedirect(notFound)
    ensures var odd := WithStatusLine(New(), "HTTP/1.1 999 Odd", 999, "Odd");
      IsFailure(odd) && HttpStatus.ClassOf(GetStatusCode(odd)) == None
  {
  }
}
