# ACurl `Response`: status accessors and status classification

This project models the HTTP response object of ACurl, a PHP cURL client
(`ACurl/Http/Response.php`). A `Response` is a read-only view over the header
store it inherits from `Stream`. The transport layer writes the parsed status
line into that store as three reserved pseudo-headers: `_status` (the whole
line), `_status_code` and `_status_text`. `Response` offers:

- `getStatus`, `getStatusCode` and `getStatusText`, which read those entries
  and coerce them with PHP's `(string)` or `(int)` cast, so an absent entry
  reads as `""` or `0`;
- `isSuccess`, `isRedirect` and `isFailure`, which are range checks on the
  status code (200..299, 300..399, and 400 or more with no upper bound);
- a table of 47 named status-code constants in five blocks. The blocks follow
  the classes of section 6 of RFC 7231: informational, success, redirection,
  client error and server error.

The model is pure: every member is a function or a lemma, in four modules.

- `Wrappers` holds `Option`. An absent header (PHP `null`) is `None`.
- `PhpCast` holds the `(int)` and `(string)` casts of a stored scalar (a PHP
  int or string). It proves that an int and its decimal spelling convert into
  each other in both directions.
- `HttpStatus` holds the constant table, the RFC 7231 classes (`ClassOf`, by
  first digit) and the three range checks on a bare code. It proves the table
  and the checks consistent: every constant sits in its class, passes the
  check of its block and no other, and the table is in strictly increasing
  code order, so no code is named twice.
- `HttpResponse` holds the `Response` value (type tag plus header map), its
  accessors and checks, the constructor, and a stand-in for the transport
  layer's header writes. That stand-in is needed to state that a stored status
  line reads back unchanged and that the tag is never altered.

Two facts about the source worth stating plainly:

- The reserved keys are `_status`, `_status_code` and `_status_text`.
- The three checks are pairwise disjoint for every integer code
  (`HttpStatus.ChecksDisjoint`).

## Model

| member | source | states |
|---|---|---|
| `HttpResponse.New` | ACurl/Http/Response.php:107-110 | a new response carries the response type tag; before any status is stored, the accessors give `""`, `0` and `""` and none of the three checks holds |
| `HttpResponse.GetStatus` | ACurl/Http/Response.php:116-119 | an absent `_status` entry reads as the empty string |
| `HttpResponse.GetStatusCode` | ACurl/Http/Response.php:125-128 | an absent `_status_code` entry, or a stored string with no number to read, reads as 0 |
| `HttpResponse.TagKept` | ACurl/Http/Response.php:107-110 | no sequence of header writes after construction changes the type tag |
| `HttpResponse.NewThenWritesIsResponse` | ACurl/Http/Response.php:107-110 | a constructed response stays tagged as a response whatever headers are written into it |
| `HttpResponse.GetStatusText` | ACurl/Http/Response.php:134-137 | an absent `_status_text` entry reads as the empty string |
| `HttpResponse.IsSuccess` | ACurl/Http/Response.php:143-148 | holds exactly when 200 <= getStatusCode() <= 299 |
| `HttpResponse.IsFailure` | ACurl/Http/Response.php:154-159 | holds exactly when getStatusCode() >= 400, with no upper bound |
| `HttpResponse.IsRedirect` | ACurl/Http/Response.php:165-170 | holds exactly when 300 <= getStatusCode() <= 399 |
| `HttpResponse.WithStatusLine` | ACurl/Http/Response.php:116-137 | after the transport layer stores a status line, getStatus, getStatusCode and getStatusText give back exactly the line, the code and the reason phrase; the tag and all other headers are unchanged |
| `HttpResponse.StatusCodeReadBack` | ACurl/Http/Response.php:125-128 | getStatusCode returns exactly the stored code, whether it was stored as an int or as its decimal text |
| `HttpResponse.MissingStatusDefaults` | ACurl/Http/Response.php:116-170 | for any response without the three pseudo-headers: `""`, `0`, `""`, and no check holds |
| `HttpResponse.ChecksDependOnlyOnCode` | ACurl/Http/Response.php:143-170 | two responses with the same status code classify the same way |
| `HttpResponse.ChecksExclusive` | ACurl/Http/Response.php:143-170 | at most one check holds for any response; none below 200, exactly one from 200 on |
| `HttpResponse.StatusLineExamples` | ACurl/Http/Response.php:143-170 | 200 OK is a success only, 301 a redirect only, 404 a failure only, and 999 (which has no class) a failure |
| `PhpCast.ToInt` | ACurl/Http/Response.php:127 | `(int)` of an absent value is 0, and so is `(int)` of a string with no number after its whitespace and optional sign (such as `""`, `"abc"` or `"-"`) |
| `PhpCast.ToStr` | ACurl/Http/Response.php:118 | `(string)` of an absent value is the empty string; of an int it is never empty |
| `PhpCast.LeadingDigits` | ACurl/Http/Response.php:127 | the digits `(int)` reads are the longest digit prefix of the string |
| `PhpCast.NatToDecimal` | ACurl/Http/Response.php:118 | the spelling `(string)` gives a natural number is non-empty, all digits, with no leading zero |
| `PhpCast.IntStringRoundTrip` | ACurl/Http/Response.php:127 | `(int)` of the `(string)` of any int is that int |
| `PhpCast.StringIntRoundTrip` | ACurl/Http/Response.php:127 | `(string)` of the `(int)` of a canonical decimal string is that string |
| `PhpCast.IntToStringCanonical` | ACurl/Http/Response.php:118 | `(string)` of an int is always a canonical decimal string |
| `PhpCast.ToIntThroughString` | ACurl/Http/Response.php:118-127 | casting a stored value to string before casting to int never changes the int |
| `HttpStatus.ClassOf` | ACurl/Http/Response.php:36-102 | a code has an RFC 7231 class exactly when it lies in 100..599, and the class's digit is the code's first digit |
| `HttpStatus.ClassRange` | ACurl/Http/Response.php:36-102 | class g holds exactly the codes from 100 times its digit to 100 times its digit plus 99 |
| `HttpStatus.IsSuccessCode` | ACurl/Http/Response.php:147 | the success range check holds exactly for the codes of the 2xx class |
| `HttpStatus.IsRedirectCode` | ACurl/Http/Response.php:169 | the redirect range check holds exactly for the codes of the 3xx class |
| `HttpStatus.IsFailureCode` | ACurl/Http/Response.php:158 | the failure check holds exactly for the 4xx and 5xx classes and every code from 600 up |
| `HttpStatus.ChecksDisjoint` | ACurl/Http/Response.php:143-170 | no integer passes two of the three checks |
| `HttpStatus.ChecksPartitionFrom200` | ACurl/Http/Response.php:143-170 | below 200 (1xx, 0, negatives) no check holds; from 200 on at least one does |
| `HttpStatus.FailureUnbounded` | ACurl/Http/Response.php:154-159 | every code from 400 up is a failure, including codes from 600 up that have no class |
| `HttpStatus.InformationalBlockInOrder` | ACurl/Http/Response.php:36-38 | the informational constants lie in 100..199, in increasing order |
| `HttpStatus.SuccessfulBlockInOrder` | ACurl/Http/Response.php:44-53 | the success constants lie in 200..299, in increasing order |
| `HttpStatus.RedirectionBlockInOrder` | ACurl/Http/Response.php:59-66 | the redirection constants lie in 300..399, in increasing order |
| `HttpStatus.ClientErrorBlockInOrder` | ACurl/Http/Response.php:72-90 | the client-error constants lie in 400..499, in increasing order |
| `HttpStatus.ServerErrorBlockInOrder` | ACurl/Http/Response.php:96-102 | the server-error constants lie in 500..599, in increasing order |
| `HttpStatus.RegistryClassesMatch` | ACurl/Http/Response.php:36-102 | every constant's code has the RFC 7231 class of the block that declares it |
| `HttpStatus.RegistryAscending` | ACurl/Http/Response.php:36-102 | the table is in strictly increasing code order, so no two constants share a code |
| `HttpStatus.RegistryAgreesWithChecks` | ACurl/Http/Response.php:36-170 | success constants pass `isSuccess`, redirection constants `isRedirect`, client- and server-error constants `isFailure`; informational constants pass none, and no constant passes the check of another block |

## Left out

- The `Stream` base class is not part of this model. Its header store is a plain map from name to value, with case-sensitive names and no order. Its lookup (`getHeader`) and its setter are modelled only as map lookup and map update (`WithHeader`). The store of a freshly constructed response is taken to be empty.
- Stored header values are PHP ints or strings only. PHP arrays (repeated headers), floats, booleans and `null` stored explicitly are not modelled.
- PhpCast.ToInt: reads leading whitespace, an optional sign and the longest digit prefix. It does not model exponent forms (from PHP 7.1, `(int)"1e3"` is 1000; here it is 1), nor saturation and overflow at the 64-bit integer limits. A fraction without an exponent already reads as PHP reads it (`"1.9"` gives 1). Integers are unbounded here.
- The transport layer (cURL calls, socket and TLS I/O, raw status-line parsing, redirect following) is not part of this model. `WithStatusLine` only stands for its final write of the three pseudo-headers.
- The accessors and checks are functions of an immutable value. That the PHP methods do not write to the object is therefore a property of the model's form, not a proved statement about a mutable store.
- Concurrency: the component has none, and none is modelled.
