/**
 * The global error handler's classification: from a thrown error to the status code, the
 * message and the optional details of the JSON response.
 */
module ErrorMiddleware {
  import opened Wrappers
  import opened Errors

  datatype FieldIssue = FieldIssue(field: string, message: string)

  datatype Details =
    | FieldIssues(issues: seq<FieldIssue>)
    | UniqueDetails(field: Option<seq<string>>, message: string)

  datatype ErrorResponse = ErrorResponse(statusCode: int, message: string, details: Option<Details>)

  /** The decimal digit for 0..9. */
  function Digit(d: nat): (c: char)
    requires d < 10
    ensures '0' <= c <= '9'
    ensures d > 0 ==> c != '0'
  {
    "0123456789"[d]
  }

  predicate AllDigits(s: string) {
    forall i :: 0 <= i < |s| ==> '0' <= s[i] <= '9'
  }

  /**
   * How a JavaScript array index prints: its decimal digits, most significant first, with no
   * leading zero except for 0 itself.
   */
  function Decimal(n: nat): (s: string)
    ensures |s| >= 1 && AllDigits(s)
    ensures n > 0 ==> s[0] != '0'
    ensures n == 0 ==> s == "0"
  {
    if n < 10 then [Digit(n)] else Decimal(n / 10) + [Digit(n % 10)]
  }

  /** The value of a string of decimal digits. */
  function DecimalValue(s: string): nat
    requires AllDigits(s)
  {
    if s == [] then 0 else 10 * DecimalValue(s[..|s| - 1]) + (s[|s| - 1] as int - '0' as int)
  }

  /** Printing an index and reading it back gives the index. */
  lemma {:induction false} DecimalRoundTrip(n: nat)
    ensures DecimalValue(Decimal(n)) == n
  {
    var s := Decimal(n);
    if n < 10 {
      assert s[..0] == [];
    } else {
      DecimalRoundTrip(n / 10);
      assert s[..|s| - 1] == Decimal(n / 10);
    }
  }

  /** How one path segment prints inside a joined path. */
  function SegmentText(p: PathSegment): string {
    match p
    case Key(name) => name
    case Index(position) => Decimal(position)
  }

  /** The summed lengths of some strings. */
  function TotalLength(parts: seq<string>): nat {
    if parts == [] then 0 else |parts[0]| + TotalLength(parts[1..])
  }

  /**
   * Array.prototype.join('.'): the strings with a dot between neighbours. The result starts
   * with the first piece, a dot follows it, and the rest is the join of the remaining pieces,
   * so the length is the pieces' total plus one per separator; `SplitJoin` shows the pieces
   * come back out when none holds a dot.
   */
  function Join(parts: seq<string>): (r: string)
    ensures parts == [] ==> r == ""
    ensures parts != [] ==> |r| == TotalLength(parts) + |parts| - 1
    ensures parts != [] ==> parts[0] <= r
    ensures |parts| >= 2 ==> r[|parts[0]|] == '.' && r[|parts[0]| + 1..] == Join(parts[1..])
  {
    if parts == [] then ""
    else if |parts| == 1 then parts[0]
    else parts[0] + "." + Join(parts[1..])
  }

  /** The printed text of each segment of a path, in order. */
  function SegmentTexts(path: seq<PathSegment>): (parts: seq<string>)
    ensures |parts| == |path|
    ensures forall i :: 0 <= i < |path| ==> parts[i] == SegmentText(path[i])
  {
    seq(|path|, i requires 0 <= i < |path| => SegmentText(path[i]))
  }

  /**
   * The path of a validation issue, as the `field` of its details entry: the segments' texts
   * joined with dots: the first segment's text, then, when more segments follow, a dot and the
   * field of the rest of the path.
   */
  function PathText(path: seq<PathSegment>): (field: string)
    ensures path == [] ==> field == ""
    ensures |path| == 1 ==> field == SegmentText(path[0])
    ensures |path| >= 2 ==> field == SegmentText(path[0]) + "." + PathText(path[1..])
  {
    var parts := SegmentTexts(path);
    assert |path| >= 2 ==> parts[1..] == SegmentTexts(path[1..]);
    Join(parts)
  }

  /** String.prototype.split('.'): the pieces between dots. */
  function Split(s: string): (r: seq<string>)
    ensures |r| >= 1
  {
    if s == [] then [""]
    else
      var rest := Split(s[1..]);
      if s[0] == '.' then [""] + rest else [[s[0]] + rest[0]] + rest[1..]
  }

  lemma {:induction false} SplitWithoutDot(p: string, t: string)
    requires '.' !in p
    ensures Split(p + t) == [p + Split(t)[0]] + Split(t)[1..]
  {
    var st := Split(t);
    if p != [] {
      assert (p + t)[1..] == p[1..] + t;
      assert (p + t)[0] == p[0] && p[0] != '.';
      SplitWithoutDot(p[1..], t);
      var rest := Split(p[1..] + t);
      assert rest[0] == p[1..] + st[0] && rest[1..] == st[1..];
      assert Split(p + t) == [[p[0]] + rest[0]] + rest[1..];
      assert [p[0]] + (p[1..] + st[0]) == p + st[0];
    } else {
      assert p + t == t;
      assert p + st[0] == st[0];
      assert [p + Split(t)[0]] + Split(t)[1..] == Split(t);
    }
  }

  /** Joining pieces that hold no dot and splitting at the dots gives the pieces back. */
  lemma {:induction false} SplitJoin(parts: seq<string>)
    requires |parts| >= 1
    requires forall i :: 0 <= i < |parts| ==> '.' !in parts[i]
    ensures Split(Join(parts)) == parts
  {
    if |parts| == 1 {
      SplitWithoutDot(parts[0], "");
      assert parts[0] + "" == parts[0];
    } else {
      var rest := Join(parts[1..]);
      SplitJoin(parts[1..]);
      assert Split("." + rest) == [""] + parts[1..] by {
        assert ("." + rest)[1..] == rest;
      }
      SplitWithoutDot(parts[0], "." + rest);
      assert Join(parts) == parts[0] + ("." + rest);
      assert parts[0] + "" == parts[0];
      assert [parts[0]] + parts[1..] == parts;
    }
  }

  /**
   * Joining the segment texts of a path whose keys hold no dot is undone by splitting at the
   * dots: the `field` of a validation detail determines the path's printed segments.
   */
  lemma PathTextSplits(path: seq<PathSegment>)
    requires |path| >= 1
    requires forall i :: 0 <= i < |path| && path[i].Key? ==> '.' !in path[i].name
    ensures |Split(PathText(path))| == |path|
    ensures forall i :: 0 <= i < |path| ==> Split(PathText(path))[i] == SegmentText(path[i])
  {
    var parts := SegmentTexts(path);
    forall i | 0 <= i < |parts| ensures '.' !in parts[i] {
      if path[i].Index? {
        var d := Decimal(path[i].position);
        assert forall k :: 0 <= k < |d| ==> d[k] != '.';
      }
    }
    SplitJoin(parts);
  }

  /** The details entries of a validation failure, one per issue, in order. */
  function IssueDetails(issues: seq<ZodIssue>): (r: seq<FieldIssue>)
    ensures |r| == |issues|
    ensures forall i :: 0 <= i < |issues| ==> r[i] == FieldIssue(PathText(issues[i].path), issues[i].message)
  {
    seq(|issues|, i requires 0 <= i < |issues| => FieldIssue(PathText(issues[i].path), issues[i].message))
  }

  /**
   * errorHandler: an HttpException keeps its own status and message; a validation failure is
   * 400 with one detail per issue; a database known-request error is 400 (404 for a missing
   * record) by its code; the three JWT error names are 401; anything else is 500. Details are
   * present exactly for validation failures and unique-constraint violations.
   */
  function ErrorHandler(e: AppError): (r: ErrorResponse)
    ensures e.HttpException? ==> r == ErrorResponse(e.status, e.message, None)
    ensures e.ZodError? ==>
      r == ErrorResponse(BadRequest, "Validation Error", Some(FieldIssues(IssueDetails(e.issues))))
    ensures e.PrismaKnownRequestError? ==>
      && r.statusCode == (if e.code == "P2025" then NotFound else BadRequest)
      && r.message == (if e.code == "P2002" then "Unique constraint violation"
                       else if e.code == "P2025" then "Record not found"
                       else if e.code == "P2003" then "Foreign key constraint violation"
                       else if e.code == "P2014" then "Invalid ID provided"
                       else "Database error occurred")
      && r.details == (if e.code == "P2002" then Some(UniqueDetails(e.target, "This value already exists")) else None)
    ensures e.OtherError? ==>
      r == (if e.name == "JsonWebTokenError" then ErrorResponse(Unauthorized, "Invalid token", None)
            else if e.name == "TokenExpiredError" then ErrorResponse(Unauthorized, "Token expired", None)
            else if e.name == "NotBeforeError" then ErrorResponse(Unauthorized, "Token not active", None)
            else ErrorResponse(InternalServerError, "Internal Server Error", None))
    ensures r.details.Some? <==> e.ZodError? || (e.PrismaKnownRequestError? && e.code == "P2002")
    ensures !e.HttpException? ==> r.statusCode in {BadRequest, Unauthorized, NotFound, InternalServerError}
  {
    match e
    case HttpException(status, message) => ErrorResponse(status, message, None)
    case ZodError(issues) =>
      ErrorResponse(BadRequest, "Validation Error", Some(FieldIssues(IssueDetails(issues))))
    case PrismaKnownRequestError(code, target) =>
      if code == "P2002" then
        ErrorResponse(BadRequest, "Unique constraint violation", Some(UniqueDetails(target, "This value already exists")))
      else if code == "P2025" then ErrorResponse(NotFound, "Record not found", None)
      else if code == "P2003" then ErrorResponse(BadRequest, "Foreign key constraint violation", None)
      else if code == "P2014" then ErrorResponse(BadRequest, "Invalid ID provided", None)
      else ErrorResponse(BadRequest, "Database error occurred", None)
    case OtherError(name) =>
      if name == "JsonWebTokenError" then ErrorResponse(Unauthorized, "Invalid token", None)
      else if name == "TokenExpiredError" then ErrorResponse(Unauthorized, "Token expired", None)
      else if name == "NotBeforeError" then ErrorResponse(Unauthorized, "Token not active", None)
      else ErrorResponse(InternalServerError, "Internal Server Error", None)
  }
}
