/**
 * The response builders of pkg/admission/util.go, and the four kinds of
 * answer the admission handlers give: allowed, allowed with a JSON patch,
 * denied with a reason, or an error with an HTTP status code.
 */
module Admission {
  import opened Wrappers

  /** metav1.StatusFailure. */
  const StatusFailure: string := "Failure"

  /** The fields of metav1.Status that the builders set. */
  datatype Status = Status(status: string, message: string)

  /** The part of admissionv1.AdmissionResponse that the builders set. */
  datatype AdmissionResponse = AdmissionResponse(allowed: bool, result: Option<Status>)

  /** `Response`: only the allowed flag, no status. */
  function Response(allowed: bool): (r: AdmissionResponse)
    ensures r.allowed == allowed && r.result == None
  {
    AdmissionResponse(allowed, None)
  }

  /** `ResponseStatus`: the allowed flag, with a status and message kept verbatim. */
  function ResponseStatus(allowed: bool, status: string, msg: string): (r: AdmissionResponse)
    ensures r.allowed == allowed
    ensures r.result == Some(Status(status, msg))
  {
    Response(allowed).(result := Some(Status(status, msg)))
  }

  /** `ResponseFailure`: a "Failure" status; the caller's allowed flag passes through. */
  function ResponseFailure(allowed: bool, msg: string): (r: AdmissionResponse)
    ensures r == ResponseStatus(allowed, StatusFailure, msg)
    ensures r.allowed == allowed
  {
    ResponseStatus(allowed, StatusFailure, msg)
  }

  /** A status response differs from the plain one only in its status. */
  lemma ResponseStatusExtendsResponse(allowed: bool, status: string, msg: string)
    ensures ResponseStatus(allowed, status, msg).allowed == Response(allowed).allowed
    ensures ResponseStatus(allowed, status, msg) != Response(allowed)
  {
  }

  /** A JSON-patch operation, opaque here: the diff library computes them. */
  datatype PatchOp = PatchOp(op: string, path: string, value: string)

  /** What an admission handler answers (controller-runtime's Allowed, PatchResponseFromRaw, Denied and Errored). */
  datatype Outcome =
    | Allowed(message: string)
    | Patched(patches: seq<PatchOp>)
    | Denied(reason: string)
    | Errored(code: int, message: string)
  {
    /** Allowed and patch responses both let the request through; an empty patch means "unchanged". */
    predicate IsAllowed()
    {
      Allowed? || Patched?
    }
  }

  const StatusBadRequest: int := 400
  const StatusInternalServerError: int := 500
}
