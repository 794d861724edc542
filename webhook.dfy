/**
 * The admission handlers of pkg/webhook: `decodeObj`, which fills the new and
 * old object slots of a request according to its operation, the mutating
 * handler (pkg/webhook/mutating.go) and the validating handler
 * (pkg/webhook/validateing.go).
 *
 * The decoder, the policy interrupter, the override and validate managers,
 * `json.Marshal` and the JSON-patch diff are collaborators whose insides are
 * not part of this model; they are fields of the handler value, so every
 * property below holds whatever they do. A collaborator that writes into the
 * deep copy of the decoded object is modelled as returning the new copy.
 */
module Webhook {
  import opened Wrappers
  import opened Admission

  type Bytes = seq<bv8>

  /** admissionv1.Operation. */
  datatype Operation = Create | Update | Delete | Connect

  /** runtime.RawExtension: the raw JSON of an object in the request. */
  datatype RawExtension = RawExtension(raw: Bytes)

  /** The fields of admission.Request the handlers read (`newObject` is the request's Object). */
  datatype Request = Request(operation: Operation, newObject: RawExtension, oldObject: RawExtension)

  /** unstructured.Unstructured, with its JSON content left abstract. */
  datatype Unstructured = Unstructured(content: map<string, string>)

  /** The error `decodeObj` returns for an operation other than create, update and delete. */
  const UnsupportedOperation: Error := "unsupported operation"

  /** `decoder.DecodeRaw` (and `decoder.Decode`, which decodes the request's Object). */
  type Decoder = RawExtension -> Result<Unstructured, Error>

  /** The three results of `decodeObj`: obj, oldObj and err, each possibly nil. */
  datatype Decoded = Decoded(obj: Option<Unstructured>, oldObj: Option<Unstructured>, err: Option<Error>)

  /** The raw object that fills the `obj` slot: the deleted object lives in OldObject. */
  function ObjectSource(req: Request): RawExtension
  {
    if req.operation == Delete then req.oldObject else req.newObject
  }

  /** `decodeObj`. */
  function DecodeObj(decodeRaw: Decoder, req: Request): (d: Decoded)
    // a successful decode fills obj, and oldObj exactly for an update
    ensures d.err.None? ==> d.obj.Some? && (d.oldObj.Some? <==> req.operation == Update)
    // obj is the decoded Object, or the decoded OldObject for a delete
    ensures d.obj.Some? ==> decodeRaw(ObjectSource(req)) == Success(d.obj.value)
    ensures d.oldObj.Some? ==> decodeRaw(req.oldObject) == Success(d.oldObj.value)
    // the one partial success: an update whose old object does not decode
    ensures d.err.Some? && d.obj.Some? ==>
      req.operation == Update && d.oldObj.None? && decodeRaw(req.oldObject) == Failure(d.err.value)
    ensures d.err.Some? ==> d.oldObj.None?
    ensures req.operation == Connect ==> d == Decoded(None, None, Some(UnsupportedOperation))
    ensures d.err.None? <==>
      && req.operation != Connect
      && decodeRaw(ObjectSource(req)).Success?
      && (req.operation == Update ==> decodeRaw(req.oldObject).Success?)
  {
    match req.operation
    case Create =>
      (match decodeRaw(req.newObject)
       case Failure(e) => Decoded(None, None, Some(e))
       case Success(obj) => Decoded(Some(obj), None, None))
    case Update =>
      (match decodeRaw(req.newObject)
       case Failure(e) => Decoded(None, None, Some(e))
       case Success(obj) =>
         match decodeRaw(req.oldObject)
         case Failure(e) => Decoded(Some(obj), None, Some(e))
         case Success(oldObj) => Decoded(Some(obj), Some(oldObj), None))
    case Delete =>
      (match decodeRaw(req.oldObject)
       case Failure(e) => Decoded(None, None, Some(e))
       case Success(obj) => Decoded(Some(obj), None, None))
    case Connect => Decoded(None, None, Some(UnsupportedOperation))
  }

  /** An unsupported operation is refused before any decoding: the decoder plays no part. */
  lemma UnsupportedOperationDecodesNothing(d1: Decoder, d2: Decoder, req: Request)
    requires req.operation == Connect
    ensures DecodeObj(d1, req) == DecodeObj(d2, req)
  {
  }

  // ------------------------------------------------------------------
  // Mutating handler
  // ------------------------------------------------------------------

  /** What the policy interrupter returns: its patches, and the copy as it left it. */
  datatype Mutation = Mutation(patches: seq<PatchOp>, newObj: Unstructured)

  type Interrupter = (Unstructured, Option<Unstructured>, Operation) -> Result<Mutation, Error>
  type OverrideManager = (Unstructured, Option<Unstructured>, Operation) -> Result<Unstructured, Error>

  /** MutatingAdmission with its collaborators. */
  datatype MutatingAdmission = MutatingAdmission(
    decodeRaw: Decoder,
    onMutating: Interrupter,
    applyOverridePolicies: OverrideManager,
    marshal: Unstructured -> Result<Bytes, Error>,
    createPatch: (Bytes, Bytes) -> Result<seq<PatchOp>, Error>)

  /** admission.PatchResponseFromRaw: the diff of the two documents, or 500 if it cannot be computed. */
  function PatchResponseFromRaw(createPatch: (Bytes, Bytes) -> Result<seq<PatchOp>, Error>,
                                original: Bytes, current: Bytes): (resp: Outcome)
    ensures resp.Patched? || (resp.Errored? && resp.code == StatusInternalServerError)
    ensures resp.Patched? <==> createPatch(original, current).Success?
    ensures createPatch(original, current).Success? ==> resp == Patched(createPatch(original, current).value)
  {
    match createPatch(original, current)
    case Failure(e) => Errored(StatusInternalServerError, e)
    case Success(patches) => Patched(patches)
  }

  /** Serialise the copy and diff the original request bytes against it. */
  function PatchAgainst(a: MutatingAdmission, original: Bytes, newObj: Unstructured): (resp: Outcome)
    ensures resp.Patched? || (resp.Errored? && resp.code == StatusInternalServerError)
    ensures a.marshal(newObj).Failure? ==> resp == Errored(StatusInternalServerError, a.marshal(newObj).error)
    // otherwise: the diff of the original bytes against the serialised copy
    ensures a.marshal(newObj).Success? ==> resp == PatchResponseFromRaw(a.createPatch, original, a.marshal(newObj).value)
  {
    match a.marshal(newObj)
    case Failure(e) => Errored(StatusInternalServerError, e)
    case Success(patchedObj) => PatchResponseFromRaw(a.createPatch, original, patchedObj)
  }

  /** `MutatingAdmission.Handle`. */
  function HandleMutating(a: MutatingAdmission, req: Request): (resp: Outcome)
    // 400 exactly when decoding fails; every other error is a 500
    ensures (resp.Errored? && resp.code == StatusBadRequest) <==> DecodeObj(a.decodeRaw, req).err.Some?
    ensures resp.Errored? ==> resp.code == StatusBadRequest || resp.code == StatusInternalServerError
    // the mutating handler never denies
    ensures !resp.Denied?
    // a plain Allowed only ever answers a delete, with no message
    ensures resp.Allowed? ==> req.operation == Delete && resp.message == ""
    // a delete is patched only through the interrupter branch, which has no delete check
    ensures req.operation == Delete && resp.Patched? ==>
      var d := DecodeObj(a.decodeRaw, req);
      d.obj.Some? && a.onMutating(d.obj.value, d.oldObj, Delete).Success?
      && |a.onMutating(d.obj.value, d.oldObj, Delete).value.patches| != 0
  {
    var d := DecodeObj(a.decodeRaw, req);
    if d.err.Some? then Errored(StatusBadRequest, d.err.value)
    else
      var newObj := d.obj.value;  // obj.DeepCopy()
      match a.onMutating(newObj, d.oldObj, req.operation)
      case Failure(e) => Errored(StatusInternalServerError, e)
      case Success(m) =>
        if |m.patches| != 0 then PatchAgainst(a, req.newObject.raw, m.newObj)
        else
          match a.applyOverridePolicies(m.newObj, d.oldObj, req.operation)
          case Failure(e) => Errored(StatusInternalServerError, e)
          case Success(overridden) =>
            if req.operation == Delete then Allowed("")
            else PatchAgainst(a, req.newObject.raw, overridden)
  }

  /** A decode error answers 400 and no other collaborator is consulted. */
  lemma MutatingDecodeErrorSkipsPolicies(a: MutatingAdmission, req: Request, onMutating: Interrupter,
                                        applyOverridePolicies: OverrideManager,
                                        marshal: Unstructured -> Result<Bytes, Error>,
                                        createPatch: (Bytes, Bytes) -> Result<seq<PatchOp>, Error>)
    requires DecodeObj(a.decodeRaw, req).err.Some?
    ensures HandleMutating(a, req) == Errored(StatusBadRequest, DecodeObj(a.decodeRaw, req).err.value)
    ensures HandleMutating(a, req)
         == HandleMutating(a.(onMutating := onMutating, applyOverridePolicies := applyOverridePolicies,
                              marshal := marshal, createPatch := createPatch), req)
  {
  }

  /** The interrupter sees the decoded object and old object, and is the first policy step: its error is a 500 carrying that error. */
  lemma MutatingInterrupterError(a: MutatingAdmission, req: Request, applyOverridePolicies: OverrideManager)
    requires DecodeObj(a.decodeRaw, req).err.None?
    requires a.onMutating(DecodeObj(a.decodeRaw, req).obj.value, DecodeObj(a.decodeRaw, req).oldObj, req.operation).Failure?
    ensures var d := DecodeObj(a.decodeRaw, req);
      HandleMutating(a, req) == Errored(StatusInternalServerError, a.onMutating(d.obj.value, d.oldObj, req.operation).error)
    ensures HandleMutating(a, req) == HandleMutating(a.(applyOverridePolicies := applyOverridePolicies), req)
  {
  }

  /** Interrupter patches short-circuit: the override manager is never consulted, for any operation. */
  lemma MutatingInterrupterPatchesSkipOverride(a: MutatingAdmission, req: Request, applyOverridePolicies: OverrideManager)
    requires DecodeObj(a.decodeRaw, req).err.None?
    requires var d := DecodeObj(a.decodeRaw, req);
      a.onMutating(d.obj.value, d.oldObj, req.operation).Success? &&
      |a.onMutating(d.obj.value, d.oldObj, req.operation).value.patches| != 0
    ensures var d := DecodeObj(a.decodeRaw, req);
      HandleMutating(a, req)
      == PatchAgainst(a, req.newObject.raw, a.onMutating(d.obj.value, d.oldObj, req.operation).value.newObj)
    ensures HandleMutating(a, req) == HandleMutating(a.(applyOverridePolicies := applyOverridePolicies), req)
  {
  }

  /** The override manager runs for every operation, delete included: its failure is a 500 carrying its error. */
  lemma MutatingOverrideError(a: MutatingAdmission, req: Request)
    requires DecodeObj(a.decodeRaw, req).err.None?
    requires var d := DecodeObj(a.decodeRaw, req);
      a.onMutating(d.obj.value, d.oldObj, req.operation).Success? &&
      |a.onMutating(d.obj.value, d.oldObj, req.operation).value.patches| == 0 &&
      a.applyOverridePolicies(a.onMutating(d.obj.value, d.oldObj, req.operation).value.newObj, d.oldObj, req.operation).Failure?
    ensures var d := DecodeObj(a.decodeRaw, req);
      var copy := a.onMutating(d.obj.value, d.oldObj, req.operation).value.newObj;
      HandleMutating(a, req) == Errored(StatusInternalServerError, a.applyOverridePolicies(copy, d.oldObj, req.operation).error)
  {
  }

  /** Otherwise a delete is allowed with no patch, whatever serialisation and diffing would do. */
  lemma MutatingDeleteAllowed(a: MutatingAdmission, req: Request,
                              marshal: Unstructured -> Result<Bytes, Error>,
                              createPatch: (Bytes, Bytes) -> Result<seq<PatchOp>, Error>)
    requires req.operation == Delete
    requires DecodeObj(a.decodeRaw, req).err.None?
    requires var d := DecodeObj(a.decodeRaw, req);
      a.onMutating(d.obj.value, d.oldObj, Delete).Success? &&
      |a.onMutating(d.obj.value, d.oldObj, Delete).value.patches| == 0 &&
      a.applyOverridePolicies(a.onMutating(d.obj.value, d.oldObj, Delete).value.newObj, d.oldObj, Delete).Success?
    ensures HandleMutating(a, req) == Allowed("")
    ensures HandleMutating(a.(marshal := marshal, createPatch := createPatch), req) == Allowed("")
  {
  }

  /** For create and update, the answer is the diff of the request's own bytes against the serialised, overridden copy. */
  lemma MutatingPatchesRequestBytes(a: MutatingAdmission, req: Request)
    requires req.operation != Delete
    requires DecodeObj(a.decodeRaw, req).err.None?
    requires var d := DecodeObj(a.decodeRaw, req);
      a.onMutating(d.obj.value, d.oldObj, req.operation).Success? &&
      |a.onMutating(d.obj.value, d.oldObj, req.operation).value.patches| == 0 &&
      a.applyOverridePolicies(a.onMutating(d.obj.value, d.oldObj, req.operation).value.newObj, d.oldObj, req.operation).Success?
    ensures var d := DecodeObj(a.decodeRaw, req);
      var copy := a.onMutating(d.obj.value, d.oldObj, req.operation).value.newObj;
      var overridden := a.applyOverridePolicies(copy, d.oldObj, req.operation).value;
      HandleMutating(a, req) == PatchAgainst(a, req.newObject.raw, overridden)
  {
  }

  /** An empty diff is an allowed, unchanged answer, not an error. */
  lemma EmptyPatchIsAllowed(a: MutatingAdmission, original: Bytes, newObj: Unstructured)
    requires a.marshal(newObj).Success?
    requires a.createPatch(original, a.marshal(newObj).value) == Success([])
    ensures PatchAgainst(a, original, newObj) == Patched([])
    ensures PatchAgainst(a, original, newObj).IsAllowed() && !PatchAgainst(a, original, newObj).Errored?
  {
  }

  // ------------------------------------------------------------------
  // Validating handler
  // ------------------------------------------------------------------

  /** The verdict of the validate manager; the reason matters only when not valid. */
  datatype ValidateResult = ValidateResult(valid: bool, reason: string)

  type ValidateManager = (Unstructured, Option<Unstructured>, Operation) -> Result<ValidateResult, Error>

  /** ValidatingAdmission with its collaborators. */
  datatype ValidatingAdmission = ValidatingAdmission(decodeRaw: Decoder, applyValidatePolicies: ValidateManager)

  /** `ValidatingAdmission.Handle`: the manager is always asked about a Delete. */
  function HandleValidating(v: ValidatingAdmission, req: Request): (resp: Outcome)
    ensures (resp.Errored? && resp.code == StatusBadRequest) <==> DecodeObj(v.decodeRaw, req).err.Some?
    ensures resp.Errored? ==> resp.code == StatusBadRequest || resp.code == StatusInternalServerError
    ensures !resp.Patched?
    ensures resp.Denied? ==>
      var d := DecodeObj(v.decodeRaw, req);
      d.err.None? && v.applyValidatePolicies(d.obj.value, d.oldObj, Delete) == Success(ValidateResult(false, resp.reason))
    ensures resp.Allowed? ==>
      var d := DecodeObj(v.decodeRaw, req);
      && resp.message == ""
      && d.err.None?
      && v.applyValidatePolicies(d.obj.value, d.oldObj, Delete).Success?
      && v.applyValidatePolicies(d.obj.value, d.oldObj, Delete).value.valid
  {
    var d := DecodeObj(v.decodeRaw, req);
    if d.err.Some? then Errored(StatusBadRequest, d.err.value)
    else
      match v.applyValidatePolicies(d.obj.value, d.oldObj, Delete)
      case Failure(e) => Errored(StatusInternalServerError, e)
      case Success(result) =>
        if !result.valid then Denied(result.reason)
        else Allowed("")
  }

  /** A decode error, unsupported operations included, answers 400 without asking the validate manager. */
  lemma ValidatingDecodeErrorSkipsManager(v: ValidatingAdmission, req: Request, m: ValidateManager)
    requires DecodeObj(v.decodeRaw, req).err.Some?
    ensures HandleValidating(v, req) == Errored(StatusBadRequest, DecodeObj(v.decodeRaw, req).err.value)
    ensures HandleValidating(v, req) == HandleValidating(v.(applyValidatePolicies := m), req)
  {
  }

  /** Only the manager's answer for the Delete operation matters, whatever the request's operation. */
  lemma ValidateManagerSeesOnlyDelete(v: ValidatingAdmission, req: Request, m: ValidateManager)
    requires forall obj, oldObj :: m(obj, oldObj, Delete) == v.applyValidatePolicies(obj, oldObj, Delete)
    ensures HandleValidating(v.(applyValidatePolicies := m), req) == HandleValidating(v, req)
  {
  }

  /** A manager error is a 500; a negative verdict is a denial with its reason verbatim, never an error. */
  lemma ValidatingVerdicts(v: ValidatingAdmission, req: Request)
    requires DecodeObj(v.decodeRaw, req).err.None?
    ensures var d := DecodeObj(v.decodeRaw, req);
      match v.applyValidatePolicies(d.obj.value, d.oldObj, Delete)
      case Failure(e) => HandleValidating(v, req) == Errored(StatusInternalServerError, e)
      case Success(r) =>
        HandleValidating(v, req) == (if r.valid then Allowed("") else Denied(r.reason))
  {
  }
}
