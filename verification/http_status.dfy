/**
 * The status-code table of `Response` and the range checks that classify a
 * status code.
 *
 * The table declares its named codes in five blocks that follow the classes
 * of section 6 of RFC 7231 (1xx informational, 2xx successful, 3xx
 * redirection, 4xx client error, 5xx server error). The classification
 * checks do not consult the table: they compare the code against fixed
 * bounds, and the lemmas below prove the two consistent.
 */
module HttpStatus {
  import opened Wrappers

  /** The five classes of section 6 of RFC 7231. */
  datatype StatusClass = Informational | Successful | Redirection | ClientError | ServerError

  /** The first digit shared by the codes of a class. */
  function Digit(g: StatusClass): (d: int)
    ensures 1 <= d <= 5
  {
    match g
    case Informational => 1
    case Successful => 2
    case Redirection => 3
    case ClientError => 4
    case ServerError => 5
  }

  /**
   * The class of a code, by its first digit: a three-digit code from 100 to
   * 599 has one, anything else has none.
   */
  function ClassOf(code: int): (c: Option<StatusClass>)
    ensures c.Some? <==> 100 <= code <= 599
    ensures c.Some? ==> Digit(c.value) == code / 100
  {
    if 100 <= code <= 599 then
      var first := code / 100;
      Some(if first == 1 then Informational
           else if first == 2 then Successful
           else if first == 3 then Redirection
           else if first == 4 then ClientError
           else ServerError)
    else None
  }

  /** The codes of class `g` are exactly the hundred starting at `100 * Digit(g)`. */
  lemma ClassRange(code: int, g: StatusClass)
    ensures ClassOf(code) == Some(g) <==> 100 * Digit(g) <= code <= 100 * Digit(g) + 99
  {
  }

  // ---------------------------------------------------------------------
  // The table
  // ---------------------------------------------------------------------

  /** One named code and the block it is declared in. */
  datatype Entry = Entry(name: string, code: int, group: StatusClass)

  // Informational constants.
  const CONTINUE: int := 100
  const SWITCHING_PROTOCOLS: int := 101
  const PROCESSING: int := 102

  const INFORMATIONAL_BLOCK: seq<Entry> := [
    Entry("CONTINUE", CONTINUE, Informational),
    Entry("SWITCHING_PROTOCOLS", SWITCHING_PROTOCOLS, Informational),
    Entry("PROCESSING", PROCESSING, Informational)
  ]

  // Success constants.
  const OK: int := 200
  const CREATED: int := 201
  const ACCEPTED: int := 202
  const NON_AUTHORITATIVE_INFORMATION: int := 203
  const NO_CONTENT: int := 204
  const RESET_CONTENT: int := 205
  const PARTIAL_CONTENT: int := 206
  const MULTI_STATUS: int := 207
  const ALREADY_REPORTED: int := 208
  const IM_USED: int := 226

  const SUCCESS_BLOCK: seq<Entry> := [
    Entry("OK", OK, Successful),
    Entry("CREATED", CREATED, Successful),
    Entry("ACCEPTED", ACCEPTED, Successful),
    Entry("NON_AUTHORITATIVE_INFORMATION", NON_AUTHORITATIVE_INFORMATION, Successful),
    Entry("NO_CONTENT", NO_CONTENT, Successful),
    Entry("RESET_CONTENT", RESET_CONTENT, Successful),
    Entry("PARTIAL_CONTENT", PARTIAL_CONTENT, Successful),
    Entry("MULTI_STATUS", MULTI_STATUS, Successful),
    Entry("ALREADY_REPORTED", ALREADY_REPORTED, Successful),
    Entry("IM_USED", IM_USED, Successful)
  ]

  // Redirection constants.
  const MULTIPLE_CHOICES: int := 300
  const MOVED_PERMANENTLY: int := 301
  const FOUND: int := 302
  const SEE_OTHER: int := 303
  const NOT_MODIFIED: int := 304
  const USE_PROXY: int := 305
  const TEMPORARY_REDIRECT: int := 307
  const PERMANENT_REDIRECT: int := 308

  const REDIRECTION_BLOCK: seq<Entry> := [
    Entry("MULTIPLE_CHOICES", MULTIPLE_CHOICES, Redirection),
    Entry("MOVED_PERMANENTLY", MOVED_PERMANENTLY, Redirection),
    Entry("FOUND", FOUND, Redirection),
    Entry("SEE_OTHER", SEE_OTHER, Redirection),
    Entry("NOT_MODIFIED", NOT_MODIFIED, Redirection),
    Entry("USE_PROXY", USE_PROXY, Redirection),
    Entry("TEMPORARY_REDIRECT", TEMPORARY_REDIRECT, Redirection),
    Entry("PERMANENT_REDIRECT", PERMANENT_REDIRECT, Redirection)
  ]

  // Client error constants.
  const BAD_REQUEST: int := 400
  const UNAUTHORIZED: int := 401
  const PAYMENT_REQUIRED: int := 402
  const FORBIDDEN: int := 403
  const NOT_FOUND: int := 404
  const METHOD_NOT_ALLOWED: int := 405
  const NOT_ACCEPTABLE: int := 406
  const PROXY_AUTHENTICATION_REQUIRED: int := 407
  const REQUEST_TIMEOUT: int := 408
  const CONFLICT: int := 409
  const GONE: int := 410
  const LENGTH_REQUIRED: int := 411
  const PRECONDITION_FAILED: int := 412
  const REQUEST_ENTITY_TOO_LARGE: int := 413
  const REQUEST_URI_TOO_LONG: int := 414
  const UNSUPPORTED_MEDIA_TYPE: int := 415
  const REQUESTED_RANGE_NOT_SATISFIABLE: int := 416
  const EXPECTATION_FAILED: int := 417
  const I_M_A_TEAPOT: int := 418

  const CLIENT_ERROR_BLOCK: seq<Entry> := [
    Entry("BAD_REQUEST", BAD_REQUEST, ClientError),
    Entry("UNAUTHORIZED", UNAUTHORIZED, ClientError),
    Entry("PAYMENT_REQUIRED", PAYMENT_REQUIRED, ClientError),
    Entry("FORBIDDEN", FORBIDDEN, ClientError),
    Entry("NOT_FOUND", NOT_FOUND, ClientError),
    Entry("METHOD_NOT_ALLOWED", METHOD_NOT_ALLOWED, ClientError),
    Entry("NOT_ACCEPTABLE", NOT_ACCEPTABLE, ClientError),
    Entry("PROXY_AUTHENTICATION_REQUIRED", PROXY_AUTHENTICATION_REQUIRED, ClientError),
    Entry("REQUEST_TIMEOUT", REQUEST_TIMEOUT, ClientError),
    Entry("CONFLICT", CONFLICT, ClientError),
    Entry("GONE", GONE, ClientError),
    Entry("LENGTH_REQUIRED", LENGTH_REQUIRED, ClientError),
    Entry("PRECONDITION_FAILED", PRECONDITION_FAILED, ClientError),
    Entry("REQUEST_ENTITY_TOO_LARGE", REQUEST_ENTITY_TOO_LARGE, ClientError),
    Entry("REQUEST_URI_TOO_LONG", REQUEST_URI_TOO_LONG, ClientError),
    Entry("UNSUPPORTED_MEDIA_TYPE", UNSUPPORTED_MEDIA_TYPE, ClientError),
    Entry("REQUESTED_RANGE_NOT_SATISFIABLE", REQUESTED_RANGE_NOT_SATISFIABLE, ClientError),
    Entry("EXPECTATION_FAILED", EXPECTATION_FAILED, ClientError),
    Entry("I_M_A_TEAPOT", I_M_A_TEAPOT, ClientError)
  ]

  // Server error constants.
  const INTERNAL_SERVER_ERROR: int := 500
  const NOT_IMPLEMENTED: int := 501
  const BAD_GATEWAY: int := 502
  const SERVICE_UNAVAILABLE: int := 503
  const GATEWAY_TIMEOUT: int := 504
  const HTTP_VERSION_NOT_SUPPORTED: int := 505
  const BANDWIDTH_LIMIT_EXCEEDED: int := 509

  const SERVER_ERROR_BLOCK: seq<Entry> := [
    Entry("INTERNAL_SERVER_ERROR", INTERNAL_SERVER_ERROR, ServerError),
    Entry("NOT_IMPLEMENTED", NOT_IMPLEMENTED, ServerError),
    Entry("BAD_GATEWAY", BAD_GATEWAY, ServerError),
    Entry("SERVICE_UNAVAILABLE", SERVICE_UNAVAILABLE, ServerError),
    Entry("GATEWAY_TIMEOUT", GATEWAY_TIMEOUT, ServerError),
    Entry("HTTP_VERSION_NOT_SUPPORTED", HTTP_VERSION_NOT_SUPPORTED, ServerError),
    Entry("BANDWIDTH_LIMIT_EXCEEDED", BANDWIDTH_LIMIT_EXCEEDED, ServerError)
  ]

  /** The whole table, block by block, in declaration order. */
  const REGISTRY: seq<Entry> :=
    INFORMATIONAL_BLOCK + SUCCESS_BLOCK + REDIRECTION_BLOCK + CLIENT_ERROR_BLOCK + SERVER_ERROR_BLOCK

  // ---------------------------------------------------------------------
  // The three checks of `Response`, on a bare status code
  // ---------------------------------------------------------------------

  /** `isSuccess`: the code lies in 200..299, which is the 2xx class. */
  function IsSuccessCode(code: int): (b: bool)
    ensures b <==> ClassOf(code) == Some(Successful)
  {
    code >= 200 && code <= 299
  }

  /** `isRedirect`: the code lies in 300..399, which is the 3xx class. */
  function IsRedirectCode(code: int): (b: bool)
    ensures b <==> ClassOf(code) == Some(Redirection)
  {
    code >= 300 && code <= 399
  }

  /**
   * `isFailure`: the code is at least 400. That is every 4xx and 5xx code and,
   * since there is no upper bound, every code past 599 as well.
   */
  function IsFailureCode(code: int): (b: bool)
    ensures b <==> ClassOf(code) == Some(ClientError) || ClassOf(code) == Some(ServerError) || code >= 600
  {
    code >= 400
  }

  /** No code passes two of the checks. */
  lemma ChecksDisjoint(code: int)
    ensures !(IsSuccessCode(code) && IsRedirectCode(code))
    ensures !(IsSuccessCode(code) && IsFailureCode(code))
    ensures !(IsRedirectCode(code) && IsFailureCode(code))
  {
  }

  /** Below 200 (the 1xx codes, 0, negatives) no check holds; from 200 on at least one does (exactly one, with `ChecksDisjoint`). */
  lemma ChecksPartitionFrom200(code: int)
    ensures code < 200 ==> !IsSuccessCode(code) && !IsRedirectCode(code) && !IsFailureCode(code)
    ensures code >= 200 ==> IsSuccessCode(code) || IsRedirectCode(code) || IsFailureCode(code)
  {
  }

  /** `isFailure` has no upper bound: a code past 599 has no class yet counts as a failure. */
  lemma FailureUnbounded(code: int)
    requires code >= 400
    ensures IsFailureCode(code)
    ensures code >= 600 ==> ClassOf(code) == None
  {
  }

  // ---------------------------------------------------------------------
  // The table against the classes and the checks
  // ---------------------------------------------------------------------

  /** Every entry of `s` is declared in block `g` and its code lies in `g`'s hundred. */
  ghost predicate WithinClass(s: seq<Entry>, g: StatusClass) {
    forall i :: 0 <= i < |s| ==> s[i].group == g && 100 * Digit(g) <= s[i].code <= 100 * Digit(g) + 99
  }

  /** Every entry of `s` has the class of the block it is declared in. */
  ghost predicate Classified(s: seq<Entry>) {
    forall i :: 0 <= i < |s| ==> ClassOf(s[i].code) == Some(s[i].group)
  }

  /** The codes of `s` strictly increase, so no code is named twice. */
  ghost predicate Ascending(s: seq<Entry>) {
    forall i, j :: 0 <= i < j < |s| ==> s[i].code < s[j].code
  }

  /** Every code of `s` is below `bound`. */
  ghost predicate Below(s: seq<Entry>, bound: int) {
    forall i :: 0 <= i < |s| ==> s[i].code < bound
  }

  // Each block, taken alone, lies in its class and is in increasing order.

  lemma InformationalBlockInOrder()
    ensures WithinClass(INFORMATIONAL_BLOCK, Informational) && Ascending(INFORMATIONAL_BLOCK)
  {
  }

  lemma SuccessfulBlockInOrder()
    ensures WithinClass(SUCCESS_BLOCK, Successful) && Ascending(SUCCESS_BLOCK)
  {
  }

  lemma RedirectionBlockInOrder()
    ensures WithinClass(REDIRECTION_BLOCK, Redirection) && Ascending(REDIRECTION_BLOCK)
  {
  }

  lemma ClientErrorBlockInOrder()
    ensures WithinClass(CLIENT_ERROR_BLOCK, ClientError) && Ascending(CLIENT_ERROR_BLOCK)
  {
  }

  lemma ServerErrorBlockInOrder()
    ensures WithinClass(SERVER_ERROR_BLOCK, ServerError) && Ascending(SERVER_ERROR_BLOCK)
  {
  }

  lemma WithinClassClassified(s: seq<Entry>, g: StatusClass)
    requires WithinClass(s, g)
    ensures Classified(s)
  {
    forall i | 0 <= i < |s|
      ensures ClassOf(s[i].code) == Some(s[i].group)
    {
      ClassRange(s[i].code, g);
    }
  }

  lemma ClassifiedConcat(a: seq<Entry>, b: seq<Entry>)
    requires Classified(a) && Classified(b)
    ensures Classified(a + b)
  {
    forall i | 0 <= i < |a + b|
      ensures ClassOf((a + b)[i].code) == Some((a + b)[i].group)
    {
      if i >= |a| {
        assert (a + b)[i] == b[i - |a|];
      }
    }
  }

  lemma AscendingConcat(a: seq<Entry>, b: seq<Entry>, g: StatusClass)
    requires Ascending(a) && Below(a, 100 * Digit(g))
    requires Ascending(b) && WithinClass(b, g)
    ensures Ascending(a + b) && Below(a + b, 100 * Digit(g) + 100)
  {
    forall i, j | 0 <= i < j < |a + b|
      ensures (a + b)[i].code < (a + b)[j].code
    {
      if j < |a| {
      } else if i < |a| {
        assert (a + b)[j] == b[j - |a|];
      } else {
        assert (a + b)[i] == b[i - |a|] && (a + b)[j] == b[j - |a|];
      }
    }
    forall i | 0 <= i < |a + b|
      ensures (a + b)[i].code < 100 * Digit(g) + 100
    {
      if i >= |a| {
        assert (a + b)[i] == b[i - |a|];
      }
    }
  }

  /** Every named code lies in the class of the block that declares it. */
  lemma RegistryClassesMatch()
    ensures forall i :: 0 <= i < |REGISTRY| ==> ClassOf(REGISTRY[i].code) == Some(REGISTRY[i].group)
  {
    InformationalBlockInOrder();
    SuccessfulBlockInOrder();
    RedirectionBlockInOrder();
    ClientErrorBlockInOrder();
    ServerErrorBlockInOrder();
    WithinClassClassified(INFORMATIONAL_BLOCK, Informational);
    WithinClassClassified(SUCCESS_BLOCK, Successful);
    WithinClassClassified(REDIRECTION_BLOCK, Redirection);
    WithinClassClassified(CLIENT_ERROR_BLOCK, ClientError);
    WithinClassClassified(SERVER_ERROR_BLOCK, ServerError);
    var s2 := INFORMATIONAL_BLOCK + SUCCESS_BLOCK;
    var s3 := s2 + REDIRECTION_BLOCK;
    var s4 := s3 + CLIENT_ERROR_BLOCK;
    ClassifiedConcat(INFORMATIONAL_BLOCK, SUCCESS_BLOCK);
    ClassifiedConcat(s2, REDIRECTION_BLOCK);
    ClassifiedConcat(s3, CLIENT_ERROR_BLOCK);
    ClassifiedConcat(s4, SERVER_ERROR_BLOCK);
    assert REGISTRY == s4 + SERVER_ERROR_BLOCK;
  }

  /** The table is declared in strictly increasing code order, so no two constants share a code. */
  lemma RegistryAscending()
    ensures forall i, j :: 0 <= i < j < |REGISTRY| ==> REGISTRY[i].code < REGISTRY[j].code
  {
    InformationalBlockInOrder();
    SuccessfulBlockInOrder();
    RedirectionBlockInOrder();
    ClientErrorBlockInOrder();
    ServerErrorBlockInOrder();
    var s2 := INFORMATIONAL_BLOCK + SUCCESS_BLOCK;
    var s3 := s2 + REDIRECTION_BLOCK;
    var s4 := s3 + CLIENT_ERROR_BLOCK;
    AscendingConcat(INFORMATIONAL_BLOCK, SUCCESS_BLOCK, Successful);
    AscendingConcat(s2, REDIRECTION_BLOCK, Redirection);
    AscendingConcat(s3, CLIENT_ERROR_BLOCK, ClientError);
    AscendingConcat(s4, SERVER_ERROR_BLOCK, ServerError);
    assert REGISTRY == s4 + SERVER_ERROR_BLOCK;
  }

  /**
   * The table and the checks agree on every named code: success constants
   * pass `isSuccess`, redirection constants `isRedirect`, client- and
   * server-error constants `isFailure`, informational constants none, and
   * no constant passes the check of another block.
   */
  lemma RegistryAgreesWithChecks()
    ensures forall i :: 0 <= i < |REGISTRY| ==>
      && (IsSuccessCode(REGISTRY[i].code) <==> REGISTRY[i].group == Successful)
      && (IsRedirectCode(REGISTRY[i].code) <==> REGISTRY[i].group == Redirection)
      && (IsFailureCode(REGISTRY[i].code) <==> REGISTRY[i].group in {ClientError, ServerError})
  {
    RegistryClassesMatch();
  }
}
