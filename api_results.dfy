// BaseApiController: how every controller turns a service Result into an
// HTTP response. A failure is reported as 404 when one of its messages
// mentions "bulunamadı" ("not found") in any letter case, and as 400
// otherwise.

module ApiResults {
  import opened Wrappers
  import opened Text

  /** The `IActionResult`s the three helpers produce. */
  datatype ActionResult<T> =
    | Ok(value: T)                          // 200 with the value
    | NoContent                             // 204
    | NotFoundEmpty                         // 404 without a body
    | NotFound(errors: seq<string>)         // 404 with `{ Errors }`
    | BadRequest(errors: seq<string>)       // 400 with `{ Errors }`
    | Created(action: string, value: T)     // 201 pointing at `action`

  function StatusCode<T>(a: ActionResult<T>): int
  {
    match a
    case Ok(_) => 200
    case NoContent => 204
    case NotFoundEmpty => 404
    case NotFound(_) => 404
    case BadRequest(_) => 400
    case Created(_, _) => 201
  }

  /** The word the controllers look for to recognise a not-found failure. */
  const NotFoundMarker: string := "bulunamadı"

  /** `Errors.Any(e => e.Contains("bulunamadı", StringComparison.OrdinalIgnoreCase))`. */
  predicate MentionsNotFound(errors: seq<string>)
  {
    exists i :: 0 <= i < |errors| && ContainsIgnoreCase(errors[i], NotFoundMarker)
  }

  /** `HandleResult<T>(Result<T>)`. */
  function HandleResult<T>(r: Result<T>): (a: ActionResult<T>)
    ensures StatusCode(a) == 200 <==> r.isSuccess && r.value.Some?
    ensures a.Ok? ==> a.value == r.value.value
    ensures a == NotFoundEmpty <==> r.isSuccess && r.value.None?
    ensures a.NotFound? <==> !r.isSuccess && MentionsNotFound(r.errors)
    ensures a.BadRequest? <==> !r.isSuccess && !MentionsNotFound(r.errors)
    ensures (a.NotFound? || a.BadRequest?) ==> a.errors == r.errors
    ensures StatusCode(a) in {200, 400, 404}
  {
    if r.isSuccess && r.value.Some? then Ok(r.value.value)
    else if r.isSuccess then NotFoundEmpty
    else if MentionsNotFound(r.errors) then NotFound(r.errors)
    else BadRequest(r.errors)
  }

  /** `HandleResult(Result)`: the value-less variant, where success is 204. */
  function HandleUnitResult(r: UnitResult): (a: ActionResult<()>)
    ensures a == NoContent <==> r.isSuccess
    ensures a.NotFound? <==> !r.isSuccess && MentionsNotFound(r.errors)
    ensures a.BadRequest? <==> !r.isSuccess && !MentionsNotFound(r.errors)
    ensures (a.NotFound? || a.BadRequest?) ==> a.errors == r.errors
    ensures StatusCode(a) in {204, 400, 404}
  {
    if r.isSuccess then NoContent
    else if MentionsNotFound(r.errors) then NotFound(r.errors)
    else BadRequest(r.errors)
  }

  /** `HandleCreatedResult(result, actionName)`: 201 for a success with a value, 400 for everything else. */
  function HandleCreatedResult<T>(r: Result<T>, action: string): (a: ActionResult<T>)
    ensures a.Created? <==> r.isSuccess && r.value.Some?
    ensures a.Created? ==> a.action == action && a.value == r.value.value
    ensures !a.Created? ==> a == BadRequest(r.errors)
  {
    if r.isSuccess && r.value.Some? then Created(action, r.value.value) else BadRequest(r.errors)
  }

  /** A value returned by `Result<T>.Success` always answers 200, and an unfound entity 404 with its message. */
  lemma SuccessIsOk<T>(v: T)
    ensures HandleResult(Success(v)) == Ok(v) && StatusCode(HandleResult(Success(v))) == 200
    ensures HandleCreatedResult(Success(v), "Get") == Created("Get", v)
  {
  }

  /**
   * A failure message that embeds the marker anywhere, in any surrounding
   * text, makes both handlers answer 404 with the whole error list; the
   * created-handler still answers 400.
   */
  lemma MarkerMeansNotFound<T>(before: string, after: string, others: seq<string>)
    ensures HandleResult(FailureOf<T>(before + NotFoundMarker + after)) == NotFound([before + NotFoundMarker + after])
    ensures HandleUnitResult(UnitFailure(others + [before + NotFoundMarker + after])).NotFound?
    ensures HandleCreatedResult(FailureOf<T>(before + NotFoundMarker + after), "Get").BadRequest?
  {
    var m := before + NotFoundMarker + after;
    ContainsIgnoreCaseConcat(before, NotFoundMarker, after);
    assert (others + [m])[|others|] == m;
  }

  /** The match ignores letter case: the marker written in capitals, with its dotless ı, also means 404. */
  lemma CapitalMarkerMeansNotFound<T>(before: string, after: string)
    ensures HandleResult(FailureOf<T>(before + "BULUNAMADı" + after)).NotFound?
  {
    var m := before + "BULUNAMADı" + after;
    ContainsIgnoreCaseConcat(before, "BULUNAMADı", after);
    assert ToUpper("BULUNAMADı") == ToUpper(NotFoundMarker);
    assert ContainsIgnoreCase(m, NotFoundMarker);
    assert [m][0] == m;
  }

  /**
   * Case folding does not turn the dotless ı into an ASCII I: the marker
   * spelt with a plain i or I is not recognised, and the failure is 400.
   */
  lemma AsciiMarkerIsBadRequest<T>()
    ensures HandleResult(FailureOf<T>("BULUNAMADI")).BadRequest?
    ensures HandleResult(FailureOf<T>("bulunamadi")).BadRequest?
  {
    var m := ToUpper(NotFoundMarker);
    assert ToUpper("bulunamadi") == ToUpper("BULUNAMADI") == "BULUNAMADI";
    var u := ToUpper("BULUNAMADI");
    assert |u| == |m| == 10 && u[9] != m[9];
    forall k | 0 <= k <= |u| ensures !OccursAt(u, m, k) {
      if k == 0 {
        assert u[0..|m|][9] != m[9];
      }
    }
    assert !ContainsIgnoreCase("BULUNAMADI", NotFoundMarker);
    assert !ContainsIgnoreCase("bulunamadi", NotFoundMarker);
  }

  /** The debt service's not-found message is answered with 404. */
  lemma DebtNotFoundIs404<T>()
    ensures HandleResult(FailureOf<T>("Borç bulunamadı.")).NotFound?
  {
    assert "Borç bulunamadı." == "Borç " + NotFoundMarker + ".";
    MarkerMeansNotFound<T>("Borç ", ".", []);
  }
}
