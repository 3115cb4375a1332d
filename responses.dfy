/** backend/utils/response.js: the response builders every Lambda handler uses,
    the required-field check and the wrapper that turns a thrown error into an
    error response. All of it is pure. */
module Responses {
  import opened Common

  /** A value of a parsed JSON request body. */
  datatype JsValue = Undefined | Null | Bool(b: bool) | Num(n: real) | Str(s: string) | Object | Array

  /** JavaScript truthiness: `undefined`, `null`, `false`, `0` and `""` are falsy. */
  predicate Truthy(v: JsValue) {
    match v
    case Undefined => false
    case Null => false
    case Bool(b) => b
    case Num(n) => n != 0.0
    case Str(s) => s != ""
    case Object => true
    case Array => true
  }

  /** `data[field]`: an absent key reads as `undefined`. */
  function Field(data: map<string, JsValue>, field: string): JsValue {
    if field in data then data[field] else Undefined
  }

  /** `requiredFields.filter(field => !data[field])`. */
  function MissingFields(data: map<string, JsValue>, fields: seq<string>): (missing: seq<string>)
    ensures |missing| <= |fields|
    ensures forall f :: f in missing <==> f in fields && !Truthy(Field(data, f))
  {
    if fields == [] then []
    else if Truthy(Field(data, fields[0])) then MissingFields(data, fields[1..])
    else [fields[0]] + MissingFields(data, fields[1..])
  }

  /** The missing fields of a list are those of its parts, in the same order. */
  lemma {:induction false} MissingFieldsConcat(data: map<string, JsValue>, a: seq<string>, b: seq<string>)
    ensures MissingFields(data, a + b) == MissingFields(data, a) + MissingFields(data, b)
  {
    if a != [] {
      assert (a + b)[1..] == a[1..] + b;
      MissingFieldsConcat(data, a[1..], b);
    } else {
      assert a + b == b;
    }
  }

  /** What can reach `errorResponse`: a message string, an `Error` instance (its
      `name`, `message`, Mongo `code`, the messages of a validation error's
      `errors` and the first key of a duplicate-key error's `keyValue`), or any
      other object. */
  datatype ErrorValue =
    | Text(text: string)
    | Failure(name: string, message: string, code: Option<int>, fieldErrors: seq<string>, duplicateKey: string)
    | PlainObject

  /** `new Error(message)`. */
  function PlainError(message: string): ErrorValue {
    Failure("Error", message, None, [], "")
  }

  /** `validateRequiredFields`: `Some(e)` is the error it throws. */
  function ValidateRequiredFields(data: map<string, JsValue>, fields: seq<string>): (r: Option<ErrorValue>)
    ensures r.None? <==> forall f :: f in fields ==> Truthy(Field(data, f))
    ensures r.Some? ==>
      r.value == PlainError("Missing required fields: " + Join(MissingFields(data, fields), ", "))
  {
    var missing := MissingFields(data, fields);
    if |missing| > 0 then
      assert missing[0] in missing;
      Some(PlainError("Missing required fields: " + Join(missing, ", ")))
    else
      None
  }

  /** A numeric field holding 0 is reported missing, exactly like an absent one. */
  lemma ZeroIsMissing(data: map<string, JsValue>, fields: seq<string>, f: string)
    requires f in fields && Field(data, f) == Num(0.0)
    ensures ValidateRequiredFields(data, fields).Some?
    ensures f in MissingFields(data, fields)
  {
  }

  datatype Details = NoDetails | Messages(list: seq<string>) | Note(text: string)

  /** The JSON body of a response (`success`, `message`, `details`; `data` and
      `timestamp` are not modelled) or the empty body of a CORS preflight. */
  datatype Body = Empty | Json(success: bool, message: string, details: Details)

  datatype HttpResponse = HttpResponse(statusCode: int, body: Body)

  const InternalError: string := "Internal server error"
  const DuplicateKeyCode: int := 11000

  /** `successResponse(data, message, statusCode = 200)`. */
  function SuccessResponse(message: string, statusCode: int := 200): (r: HttpResponse)
    ensures r.statusCode == statusCode && r.body.Json? && r.body.success
  {
    HttpResponse(statusCode, Json(true, message, NoDetails))
  }

  /** The status, message and details `errorResponse` settles on before the
      production filter. */
  function Classify(error: ErrorValue, statusCode: int): (int, string, Details) {
    match error
    case Text(text) => (statusCode, text, NoDetails)
    case PlainObject => (statusCode, InternalError, NoDetails)
    case Failure(name, message, code, fieldErrors, key) =>
      if name == "ValidationError" then (400, message, Messages(fieldErrors))
      else if name == "CastError" then (400, "Invalid ID format", NoDetails)
      else if code == Some(DuplicateKeyCode) then (400, "Duplicate field value", Note(key + " already exists"))
      else if Contains(message, "Authentication failed") then (401, message, NoDetails)
      else if Contains(message, "Admin access required") then (403, message, NoDetails)
      else (statusCode, message, NoDetails)
  }

  /** `errorResponse(error, statusCode = 500)`, with `production` standing for
      `NODE_ENV === 'production'`. */
  function ErrorResponse(error: ErrorValue, statusCode: int := 500, production: bool := false): (r: HttpResponse)
    ensures r.body.Json? && !r.body.success
    // a string error keeps the status it was given
    ensures error.Text? ==> r.statusCode == statusCode
    // Mongoose validation, cast and duplicate-key errors are client errors
    ensures (error.Failure? && (error.name == "ValidationError" || error.name == "CastError"
                                || error.code == Some(DuplicateKeyCode))) ==> r.statusCode == 400
    ensures error.Failure? && error.name == "ValidationError" ==> r.body.details == Messages(error.fieldErrors)
    ensures (error.Failure? && error.name != "ValidationError" && error.name != "CastError"
             && error.code != Some(DuplicateKeyCode)) ==>
      r.statusCode == (if Contains(error.message, "Authentication failed") then 401
                       else if Contains(error.message, "Admin access required") then 403
                       else statusCode)
    // every status is the given one or one of the three the mapping produces
    ensures r.statusCode in {statusCode, 400, 401, 403}
    // in production a 500 carries no internal message and no details
    ensures production && r.statusCode == 500 ==> r.body.message == InternalError && r.body.details == NoDetails
    ensures !production || r.statusCode != 500 ==> r.body.message == Classify(error, statusCode).1
  {
    var (status, message, details) := Classify(error, statusCode);
    if production && status == 500 then HttpResponse(status, Json(false, InternalError, NoDetails))
    else HttpResponse(status, Json(false, message, details))
  }

  /** `validationErrorResponse(errors)` hands a plain object to `errorResponse`,
      so its "Validation failed" message never reaches the client. */
  function ValidationErrorResponse(errors: seq<string>, production: bool := false): (r: HttpResponse)
    ensures r.statusCode == 400
    ensures r.body.Json? && r.body.message == InternalError && r.body.details == NoDetails
  {
    ErrorResponse(PlainObject, 400, production)
  }

  /** `notFoundResponse(resource = 'Resource')`. */
  function NotFoundResponse(resource: string := "Resource", production: bool := false): (r: HttpResponse)
    ensures r.statusCode == 404
    ensures r.body.Json? && r.body.message == resource + " not found"
  {
    ErrorResponse(Text(resource + " not found"), 404, production)
  }

  datatype Pagination = Pagination(page: int, limit: int, totalPages: int, totalItems: int)

  datatype PageInfo = PageInfo(currentPage: int, totalPages: int, totalItems: int, itemsPerPage: int,
                               hasNextPage: bool, hasPrevPage: bool)

  /** The `pagination` object of `paginatedResponse`. */
  function PaginatedResponse(p: Pagination): (r: PageInfo)
    ensures r.currentPage == p.page && r.totalPages == p.totalPages
    ensures r.totalItems == p.totalItems && r.itemsPerPage == p.limit
    ensures r.hasNextPage <==> p.page < p.totalPages
    ensures r.hasPrevPage <==> p.page > 1
  {
    PageInfo(p.page, p.totalPages, p.totalItems, p.limit, p.page < p.totalPages, p.page > 1)
  }

  /** `Math.ceil(totalItems / limit)` for a positive limit: the fewest pages of
      `limit` items that hold every item. */
  function TotalPages(totalItems: nat, limit: nat): (r: nat)
    requires limit >= 1
    ensures totalItems <= r * limit
    ensures r > 0 ==> (r - 1) * limit < totalItems
  {
    (totalItems + limit - 1) / limit
  }

  /** The items of page `page` (numbered from 1) when pages hold `limit` items:
      `skip((page - 1) * limit).limit(limit)` of a query, or
      `slice(skip, skip + limit)` of an array. */
  function PageOf<T>(s: seq<T>, page: nat, limit: nat): (r: seq<T>)
    requires page >= 1 && limit >= 1
    ensures |r| <= limit
    ensures forall i :: 0 <= i < |r| ==> (page - 1) * limit + i < |s| && r[i] == s[(page - 1) * limit + i]
    ensures |r| == if (page - 1) * limit >= |s| then 0
                   else if (page - 1) * limit + limit <= |s| then limit
                   else |s| - (page - 1) * limit
  {
    var skip := (page - 1) * limit;
    if skip >= |s| then []
    else if skip + limit <= |s| then s[skip..skip + limit]
    else s[skip..]
  }

  /** A page lists only items of the sequence it was cut from. */
  lemma PageMembers<T>(s: seq<T>, page: nat, limit: nat)
    requires page >= 1 && limit >= 1
    ensures forall x :: x in PageOf(s, page, limit) ==> x in s
  {
    var r := PageOf(s, page, limit);
    forall x | x in r ensures x in s {
      var i :| 0 <= i < |r| && r[i] == x;
      assert s[(page - 1) * limit + i] == x;
    }
  }

  lemma {:induction false} MulMonotone(a: nat, b: nat, c: nat)
    requires a <= b
    ensures a * c <= b * c
    decreases b - a
  {
    if a < b {
      MulMonotone(a + 1, b, c);
    }
  }

  /** A page holds items exactly when its number is at most the page count that
      `paginatedResponse` reports, and every page before the last is full. */
  lemma PageNonEmptyIff<T>(s: seq<T>, page: nat, limit: nat)
    requires page >= 1 && limit >= 1
    ensures PageOf(s, page, limit) != [] <==> page <= TotalPages(|s|, limit)
    ensures page < TotalPages(|s|, limit) ==> |PageOf(s, page, limit)| == limit
  {
    var t := TotalPages(|s|, limit);
    if page <= t {
      MulMonotone(page - 1, t - 1, limit);
    } else {
      MulMonotone(t, page - 1, limit);
    }
    if page < t {
      MulMonotone(page, t - 1, limit);
    }
  }

  /** A listing: the page of items and the figures `paginatedResponse` turns into
      its `pagination` object. */
  datatype Listed<T> = Listed(items: seq<T>, pagination: Pagination)

  /** What the wrapped handler did: returned a response or threw. */
  datatype HandlerOutcome = Responded(response: HttpResponse) | Raised(error: ErrorValue)

  /** `lambdaWrapper(handler)` applied to one event. A preflight answer does not
      depend on the handler at all; anything thrown becomes `errorResponse(error)`. */
  function LambdaWrapper(httpMethod: string, outcome: HandlerOutcome, production: bool := false): (r: HttpResponse)
    ensures httpMethod == "OPTIONS" ==> r == HttpResponse(200, Empty)
    ensures httpMethod != "OPTIONS" && outcome.Responded? ==> r == outcome.response
    ensures httpMethod != "OPTIONS" && outcome.Raised? ==> r == ErrorResponse(outcome.error, 500, production)
  {
    if httpMethod == "OPTIONS" then HttpResponse(200, Empty)
    else match outcome
      case Responded(response) => response
      case Raised(error) => ErrorResponse(error, 500, production)
  }

  /** What a handler does with one request: answers through `successResponse`,
      answers through `errorResponse(message, status)`, or throws, leaving the
      answer to the wrapper. */
  datatype Reply =
    | Ok(status: int, message: string)
    | Refused(status: int, message: string)
    | Threw(error: ErrorValue)

  /** The HTTP response a reply becomes once it has passed the wrapper. */
  function Answer(reply: Reply, production: bool := false): (r: HttpResponse)
    ensures reply.Ok? ==> r.statusCode == reply.status && r.body.Json? && r.body.success
    ensures reply.Refused? ==> r.statusCode == reply.status && r.body.Json? && !r.body.success
    ensures reply.Threw? ==> r == LambdaWrapper("POST", Raised(reply.error), production)
  {
    match reply
    case Ok(status, message) => SuccessResponse(message, status)
    case Refused(status, message) => ErrorResponse(Text(message), status, production)
    case Threw(error) => ErrorResponse(error, 500, production)
  }
}
