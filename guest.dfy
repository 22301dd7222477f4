/**
 * The `x-guest-id` header check every `/api` endpoint of backend/app.py depends on
 * (`require_guest_id`), and the HTTP errors the endpoints raise.
 */
module Guest {
  import opened Wrappers

  /** An HTTPException: status code and detail text. */
  datatype HttpError = HttpError(status: int, detail: string)

  /** FastAPI's own answer when a required header is absent (`Header(...)`). */
  const MissingHeader: HttpError := HttpError(422, "Field required")

  const InvalidHeader: HttpError := HttpError(400, "x-guest-id header invalid")

  /**
   * require_guest_id: an absent header is refused by FastAPI before the
   * check runs, an empty one with 400; any other value is the caller's guest
   * id, returned unchanged.
   */
  function RequireGuestId(header: Option<string>): (r: Result<string, HttpError>)
    ensures r.Ok? <==> header.Some? && header.value != ""
    ensures r.Ok? ==> r.value == header.value
    ensures header == Some("") ==> r == Err(InvalidHeader)
    ensures header.None? ==> r == Err(MissingHeader)
  {
    match header
    case None => Err(MissingHeader)
    case Some(value) => if value == "" then Err(InvalidHeader) else Ok(value)
  }
}
