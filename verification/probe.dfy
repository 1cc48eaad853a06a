/**
 * The existence probe: how the outcome of a `head_bucket` call is classified.
 */
module Probe {
  import opened Wrappers

  /** What a head-bucket call can do: succeed, raise a client error carrying an
      (optional) error code, or raise any other exception. */
  datatype HeadOutcome =
    | HeadOk
    | HeadClientError(code: Option<string>)
    | HeadFailure(detail: string)

  datatype Status = Found | NotFound | Error

  /** The codes the remote service uses for "forbidden" and "no such bucket". */
  const Forbidden: string := "403"
  const Missing: string := "404"

  /** The classifier. It is total: every outcome, including an exception,
      yields exactly one status, and a forbidden answer proves existence. */
  function CheckBucketExistence(h: HeadOutcome): (s: Status)
    ensures s == Found <==> h.HeadOk? || h == HeadClientError(Some(Forbidden))
    ensures s == NotFound <==> h == HeadClientError(Some(Missing))
    ensures s == Error <==>
              h.HeadFailure?
              || (h.HeadClientError? && h.code != Some(Forbidden) && h.code != Some(Missing))
  {
    match h
    case HeadOk => Found
    case HeadClientError(code) =>
      if code == Some(Forbidden) then Found
      else if code == Some(Missing) then NotFound
      else Error
    case HeadFailure(_) => Error
  }
}
