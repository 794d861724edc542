# kinitiras admission webhook — a Dafny model of its core

kinitiras is a Kubernetes admission webhook. A mutating handler applies
override policies to admitted objects and answers with a JSON patch. A
validating handler applies validate policies and answers allowed or denied.
Both handlers first decode the request's object slots. At startup the server
waits for the policy caches to sync, builds the policy managers and
interrupters, and sets up a certificate rotator. It registers its admission
routes only after the rotator signals that the certificates are ready.

This project models that core in Dafny, one module per part of the core:

- `text.dfy` (`Text`): Go's `strings.Split` for a one-character separator, and the join that a `strings.Builder` loop performs.
- `options.dfy` (`Options`): the `--pre-cache-resources` flag value `ResourceSlice` (cmd/app/options/options.go). It is a class whose `value` and `changed` fields `Set`, `Append` and `Replace` update.
- `admission.dfy` (`Admission`): the response builders of pkg/admission/util.go, and the four kinds of answer a handler gives.
- `webhook.dfy` (`Webhook`): `decodeObj`, the mutating handler (pkg/webhook/mutating.go) and the validating handler (pkg/webhook/validateing.go). These are pure functions of the request and of the handler's collaborators.
- `cert.dfy` (`Cert`): the certificate-rotator options of pkg/controller/cert/rotator.go. `Options.Default` is a method that updates the class's fields and webhook array in place. The module also holds the webhook-type conversion and the rotator configuration.
- `app.dfy` (`App`): cmd/app/webhook.go. It covers the positional-argument check, validate-then-run, the `setupManager` class, the errgroup join of the three cache-sync tasks, the fail-fast order of `Run`'s steps, and route registration after the readiness signal.
- `wrappers.dfy` (`Wrappers`): `Option` and `Result`.

Collaborators whose code is not part of this model appear as inputs:
- the decoder, the policy interrupter, the override and validate managers, `json.Marshal` and the JSON-patch diff are fields of the handler values;
- the outcome of each startup step is a field of `App.Environment`.

Every property therefore holds whatever those collaborators do. Where a
collaborator writes into the deep copy of the decoded object, the model has
it return the new copy.

Behaviours of the code that the model keeps:

- The mutating handler runs the interrupter and the override manager for a delete too, and answers `Allowed("")` only after both succeed (pkg/webhook/mutating.go:39, 76, 100-102). If the interrupter returns patches, a delete gets a patch response (mutating.go:44-63). See `Webhook.HandleMutating`, `Webhook.MutatingOverrideError` and `Webhook.MutatingDeleteAllowed`.
- The validating handler calls only the validate manager, and always passes it the operation `Delete`, whatever the request's operation (pkg/webhook/validateing.go:28). See `Webhook.ValidateManagerSeesOnlyDelete`.
- `waitForCacheSync` discards the errgroup's context, and its tasks never read it (cmd/app/webhook.go:205). All three tasks run to completion, and `Wait` returns the first error in completion order. See `App.FirstError`.
- `ResourceSlice.Set` clears the stored list before it parses whenever `changed` is false (cmd/app/options/options.go:118-120). So a first `Set` whose argument fails to parse still wipes the defaults. See `Options.ResourceSlice.Set`.

## Model

| member | source | states |
|---|---|---|
| Text.Split | cmd/app/options/options.go:176 | `strings.Split` yields at least one piece. No piece holds the separator. There is exactly one piece iff the separator does not occur. |
| Text.JoinSnoc | cmd/app/options/options.go:104-109 | Writing one more entry after a separator extends the joined text by the separator and the entry. |
| Text.SplitWordThenSep | cmd/app/options/options.go:123 | A separator-free word followed by a separator is split off as the first piece. |
| Text.SplitWord | cmd/app/options/options.go:123 | A separator-free string splits into itself alone. |
| Text.SplitJoin | cmd/app/options/options.go:123 | Splitting the join of a non-empty list of separator-free pieces returns the pieces. |
| Text.JoinSplit | cmd/app/options/options.go:176 | Joining the pieces of a split gives back the original string. |
| Options.ReadResource | cmd/app/options/options.go:174-190 | An entry is rejected iff it has no '/'. The error is `invalid gvk(<val>)`. Parsed fields never contain '/'. |
| Options.ReadResourceRejectsEmpty | cmd/app/options/options.go:176-179 | The empty string is an invalid gvk. |
| Options.ReadResourceTwoParts | cmd/app/options/options.go:181-182 | `K/v` is kind K at version v in the core (empty) group. |
| Options.ReadResourceThreeParts | cmd/app/options/options.go:184-187 | `K/g/v` is kind K in group g at version v. |
| Options.ReadResourceExtraParts | cmd/app/options/options.go:181-189 | With four or more parts only the first two are read, and the group stays empty. |
| Options.ReadResourceOfRender | cmd/app/options/options.go:168 | The rendered form `Kind/group/version` (or `Kind/version`) of a slash-free GVK reads back as that GVK. |
| Options.RenderOfReadResource | cmd/app/options/options.go:174-190 | A string with two parts, or three parts and a non-empty group, is accepted and renders back unchanged. |
| Options.ParseUntilError | cmd/app/options/options.go:124-131 | The loop's effect: entries are parsed up to the first bad one, and the result carries that entry's error. There is no error iff every entry parses. |
| Options.ParseUntilErrorAt | cmd/app/options/options.go:124-131 | k good entries followed by a bad entry or by the end determine the loop's result. |
| Options.ParseAll | cmd/app/options/options.go:150-163 | All-or-nothing parse: it succeeds iff every entry parses, with one GVK per entry in order. |
| Options.ParseAllOfRenderAll | cmd/app/options/options.go:165-172 | Parsing the rendered list of slash-free GVKs gives back the list. |
| Options.RenderAllOfParseAll | cmd/app/options/options.go:150-172 | Rendering the parse of well-formed strings gives back the strings. |
| Options.ParseOfStringBody | cmd/app/options/options.go:96-134 | Passing the bracketed text of `String` back to `Set` reproduces a non-empty list of slash- and comma-free GVKs. |
| Options.ResourceSlice.Zero | cmd/app/options/options.go:84-87 | The zero value has a nil target and is unchanged. |
| Options.ResourceSlice.NewPreCacheResources | cmd/app/options/options.go:89-94 | The new list is the parse of every entry if all are valid. Otherwise it is empty (the `Replace` error is dropped). `changed` is false. |
| Options.ResourceSlice.Set | cmd/app/options/options.go:114-134 | A nil target is an error and changes nothing. Otherwise: the defaults are dropped unless changed; the entries parsed before the first bad one are appended; the error is that entry's. `changed` is set iff something was appended. Every stored entry stays slash-free. |
| Options.ResourceSlice.AppendEach | cmd/app/options/options.go:124-131 | The loop of `Set`: the entries parsed before the first bad one are appended to the stored list, the error is that entry's, and `changed` is set iff something was appended. |
| Options.ResourceSlice.Append | cmd/app/options/options.go:140-148 | A valid entry is appended. An invalid one is reported and changes nothing. `changed` is untouched. Every stored entry stays slash-free. |
| Options.ResourceSlice.Replace | cmd/app/options/options.go:150-163 | The list is replaced only if every entry is valid. Otherwise the first error is returned and the list is kept. Every stored entry stays slash-free. |
| Options.ResourceSlice.GetSlice | cmd/app/options/options.go:165-172 | The entries rendered in order, one per stored GVK, each a valid `readResource` input. |
| Options.ResourceSlice.Type | cmd/app/options/options.go:136-138 | The value type's name is `resourceSlice`. |
| Options.PreCacheResourcesToGVKList | cmd/app/options/options.go:192-194 | The stored list itself. For a valid slice (every entry came from `readResource`), parsing its rendering gives the list back. |
| Options.ResourceSlice.String | cmd/app/options/options.go:96-112 | `[]` for a nil target. Otherwise the rendered entries, comma-separated, inside brackets. |
| Admission.Response | pkg/admission/util.go:9-15 | Only the allowed flag is set, with no status. |
| Admission.ResponseStatus | pkg/admission/util.go:17-24 | The allowed flag, plus a status whose status string and message are kept verbatim; the status code stays unset. |
| Admission.ResponseFailure | pkg/admission/util.go:26-28 | A status response with status "Failure". The caller's allowed flag passes through. |
| Admission.ResponseStatusExtendsResponse | pkg/admission/util.go:17-24 | A status response keeps the plain response's allowed flag and differs from it. |
| Webhook.DecodeObj | pkg/webhook/mutating.go:126-160 | Create fills obj from Object. Update fills obj from Object and oldObj from OldObject. Delete fills obj from OldObject. Any other operation fails with "unsupported operation" and decodes nothing. The only partial result is an update whose old object fails to decode. |
| Webhook.UnsupportedOperationDecodesNothing | pkg/webhook/mutating.go:155-157 | For an unsupported operation the decoder is never consulted. |
| Webhook.PatchResponseFromRaw | pkg/webhook/mutating.go:62 | The answer is a patch iff the diff can be computed, and then it carries exactly that diff. Otherwise it is a 500. |
| Webhook.PatchAgainst | pkg/webhook/mutating.go:104-109 | A marshal failure is a 500 with its error. Otherwise the answer is `PatchResponseFromRaw` of the original bytes against the serialised copy. |
| Webhook.HandleMutating | pkg/webhook/mutating.go:31-110 | A 400 comes exactly from a decode error, and every other error is a 500. The handler never denies. A plain Allowed answers only a delete, with no message. A delete is patched only when the interrupter returns patches. |
| Webhook.MutatingDecodeErrorSkipsPolicies | pkg/webhook/mutating.go:32-35 | A decode error is a 400, and the answer is the same whatever the interrupter, override manager, marshaller and differ are. |
| Webhook.MutatingInterrupterError | pkg/webhook/mutating.go:37-42 | An interrupter error is a 500 whose message is the interrupter's error, and the override manager is not consulted. |
| Webhook.MutatingInterrupterPatchesSkipOverride | pkg/webhook/mutating.go:44-63 | Non-empty interrupter patches answer with the diff of the interrupter's copy, for any override manager. |
| Webhook.MutatingOverrideError | pkg/webhook/mutating.go:76-79 | For every operation, delete included, the override manager runs after an interrupter without patches, and its error is the answer: a 500 carrying that error. |
| Webhook.MutatingDeleteAllowed | pkg/webhook/mutating.go:100-102 | Otherwise a delete is Allowed with no message, whatever the marshaller and the differ do. |
| Webhook.MutatingPatchesRequestBytes | pkg/webhook/mutating.go:100-109 | For create and update, the answer is the diff of the request's own bytes against the overridden copy. |
| Webhook.EmptyPatchIsAllowed | pkg/webhook/mutating.go:104-109 | An empty diff is an allowed, non-error patch answer. |
| Webhook.HandleValidating | pkg/webhook/validateing.go:22-38 | A 400 comes exactly from a decode error, and every other error is a 500. The handler never patches. Denied carries the manager's reason for a negative verdict. Allowed means a positive verdict with no message. |
| Webhook.ValidatingDecodeErrorSkipsManager | pkg/webhook/validateing.go:23-26 | A decode error is a 400, whatever the validate manager is. |
| Webhook.ValidateManagerSeesOnlyDelete | pkg/webhook/validateing.go:28 | Only the manager's answer for the operation Delete matters, whatever the request's operation. |
| Webhook.ValidatingVerdicts | pkg/webhook/validateing.go:28-37 | A manager error is a 500. A valid verdict is Allowed(""). An invalid verdict is Denied with its reason verbatim. |
| Cert.ConvertWebhookType | pkg/controller/cert/rotator.go:121-134 | Each declared webhook type maps to the rotator kind whose declared value is that type. |
| Cert.WebhookTypeOf | pkg/controller/cert/rotator.go:121-134 | Every rotator webhook kind comes from one of the four declared webhook types. |
| Cert.ConvertWebhookTypeBijective | pkg/controller/cert/rotator.go:121-134 | `convertWebhookType` is a bijection between the declared types and the rotator's kinds. |
| Cert.DefaultedFillsEveryField | pkg/controller/cert/rotator.go:31-61 | After defaulting every option is non-empty and every webhook is named. |
| Cert.DefaultedKeepsSetValues | pkg/controller/cert/rotator.go:31-61 | Set options, named webhooks, webhook types and the list length are kept. An unnamed webhook takes the packaged service name. |
| Cert.DefaultedIdempotent | pkg/controller/cert/rotator.go:31-61 | Defaulting twice is defaulting once. |
| Cert.Options.constructor | pkg/controller/cert/rotator.go:21-29 | The struct holds the given options in a fresh webhook array. |
| Cert.Options.Default | pkg/controller/cert/rotator.go:31-61 | The fields and the webhook array are updated in place to the defaulted options. |
| Cert.ConvertWebhooks | pkg/controller/cert/rotator.go:108-119 | The result has the same length and order as the input. Each entry keeps its name, and its kind maps back to its declared type. |
| Cert.RotatorConfig | pkg/controller/cert/rotator.go:82-99 | The DNS name is `<service>.<namespace>.svc` and the secret key is the secret name in the namespace, both from the defaulted options. There is one rotator webhook per webhook. |
| Cert.DefaultDNSName | pkg/controller/cert/rotator.go:96 | With nothing set, the DNS name is `kinitiras-webhook.kinitiras-system.svc`. |
| Cert.SetupCertRotator | pkg/controller/cert/rotator.go:82-106 | It succeeds iff the rotator can be added to the defaulted configuration. On success it returns that configuration; otherwise it returns the rotator's error. |
| App.CheckArgs | cmd/app/webhook.go:63-70 | The command is refused iff some positional argument is non-empty. |
| App.OverrideSync | cmd/app/webhook.go:313-315 | The override-policy check passes iff both override-policy resources are reported synced. A resource missing from the result counts as unsynced. The error is "failed to sync override policy". |
| App.ValidateSync | cmd/app/webhook.go:341-343 | The validate-policy check passes iff the validate-policy resource is reported synced, and a missing resource counts as unsynced. The error is "failed to sync validate policy". |
| App.FirstError | cmd/app/webhook.go:204-233 | The join reports an error that one of the tasks returned, or nil iff every finished task succeeded. |
| App.FirstErrorAllSucceed | cmd/app/webhook.go:204-233 | When every task finishes, the join succeeds iff all three tasks succeed. |
| App.SetupManager.constructor | cmd/app/webhook.go:110-112 | A new setup manager has no listers, managers or interrupters. |
| App.SetupManager.Init | cmd/app/webhook.go:187-202 | The dynamic lister's error is the result, and the lister is ready iff there is none. |
| App.SetupManager.SetupOverridePolicyManager | cmd/app/webhook.go:280-321 | Nothing is assigned unless both override-policy resources are synced. A resource missing from the result counts as unsynced. Then both listers and the override manager built from them are assigned. |
| App.SetupManager.SetupValidatePolicyManager | cmd/app/webhook.go:323-348 | Nothing is assigned unless the validate-policy resource is synced. Then the lister and the manager built from it are assigned. |
| App.SetupManager.WaitForCacheSync | cmd/app/webhook.go:204-233 | The error is the join of the three tasks. It is nil iff all three succeed. When a manager's sync check passes, its exact listers and the manager built from them are assigned. Otherwise they are left as they were. |
| App.SetupManager.SetupInterrupter | cmd/app/webhook.go:235-278 | A template error aborts before any interrupter is registered. Otherwise the three policy kinds are registered with the listers assigned so far, and the start-up error is returned. |
| App.CertOptions | cmd/app/webhook.go:128-145 | The certificate directory comes from the options. There are exactly two webhooks, mutating then validating, and the rotator supports both types. |
| App.CertOptionsUnsetEnvironment | cmd/app/webhook.go:128-145 | With none of the variables set, the rotator gets the packaged DNS name, secret and namespace, the default directory when none is given, and both webhooks named `kinitiras-webhook`. |
| App.FirstFailure | cmd/app/webhook.go:81-169 | Every step before the returned index succeeded, and the step at that index failed. |
| App.FailFast | cmd/app/webhook.go:81-169 | No step after the first failing one is attempted. |
| App.SetUp | cmd/app/webhook.go:113-126 | `init`, `waitForCacheSync` and `setupInterrupter` in order, stopping at the first error. Each manager is assigned exactly when `init` and its own sync check passed, and otherwise left unchanged. Interrupters are registered only when both templates build. On success the three policy kinds are registered with the assigned listers. |
| App.Run | cmd/app/webhook.go:81-169 | Steps run in source order up to the first failure, whose error is returned. Every registered interrupter has its lister. Reaching the certificate step implies both managers were built from their listers and the three interrupters were registered. |
| App.RunE | cmd/app/webhook.go:51-62 | Invalid options return their errors and `Run` never starts. Otherwise `Run`'s steps and error are returned. |
| App.Next | cmd/app/webhook.go:151-159 | The signal stays fired, and registered routes are never replaced. Before the signal the registrar stays blocked. Its first turn after the signal adds the three admission routes. |
| App.Replay | cmd/app/webhook.go:151-159 | Over any sequence of events the signal stays fired and registered routes stay as they were. Without the signal nothing is ever registered. |
| App.ReplayKeepsRoutesAfterSignal | cmd/app/webhook.go:151-159 | In any interleaving, routes exist only after the readiness signal, and then they are exactly the three admission routes. |
| App.NoSignalNoRoutes | cmd/app/webhook.go:151-159 | Without the readiness signal the registrar never registers anything. |
| App.FromStartRoutesFollowSignal | cmd/app/webhook.go:147-159 | From the freshly started server, every interleaving keeps routes behind the signal, and with no signal the server stays as started. |
| App.SignalThenRegistrar | cmd/app/webhook.go:151-159 | After the signal, the registrar's next turn registers `/mutate`, `/validate` and `/readyz`, and they stay registered. |

## Left out

- Logging, klog verbosity branches, metrics counters and the informers' event handlers are left out because they do not affect any answer.
- Webhook.HandleMutating: the `MarshalJSON` errors at pkg/webhook/mutating.go:81-94 are left out. They occur only when log verbosity is 4 or more, and the log level is not part of the model.
- Webhook.HandleValidating: follows pkg/webhook/validateing.go, whose handler has no interrupter. cmd/app/webhook.go:157 passes an interrupter to `NewValidatingAdmissionHandler`, which takes only the validate manager in that file. How the two versions combine is not part of this model.
- App.CheckArgs: the error text leaves out the command path and the quoted argument list that the source formats into it.
- App.RunE: `PrintFlags` is left out (logging only). The validation errors are kept as a list, not formatted into an aggregate.
- App.Run: `GetConfig` panics on a missing cluster configuration. QPS and burst, the manager's server options and the health-check handler are left out. Each step's outcome is an input, and `Start` is modelled by its returned error only.
- App.Run: the goroutine that registers routes is modelled as a separate state machine (`ServerState`, `Next`, `Replay`) over any interleaving of the readiness signal and the registrar's turns.
- App.SetupManager.WaitForCacheSync: the three tasks run one after another in the model. Both manager tasks start and wait on the same shared informer manager (cmd/app/webhook.go:291-292, 312-313, 329, 340-341), so in the source each sync result can depend on which informers the other task has registered. The model takes the two sync maps as independent inputs. The errgroup's choice of error is fixed by a completion-order input.
- App.SetUp and App.SetupManager.SetupInterrupter: the template managers, the CUE manager, the token manager and the clients are left out. Only their errors and the listers each interrupter is built with are modelled.
- `policyv1alpha1.SchemeGroupVersion` is not part of this model. Its group and version are parameters.
- `Options.Validate` (called at cmd/app/webhook.go:55) is defined outside the modelled files. `AddFlags`, `PrintFlags`, the remaining flags and `NewOptions` in cmd/app/options/options.go are outside this core.
- Options.ResourceSlice.Append, Options.ResourceSlice.Replace and Options.ResourceSlice.GetSlice: the source dereferences the target pointer without a check and panics on nil. The model requires a target on exactly those paths.
- Cert.ConvertWebhookType: the source panics on an undeclared webhook type. The model requires one of the four declared values.
- In-place writes to the decoded object's deep copy by the interrupter and the override manager are modelled as those collaborators returning the new copy. Aliasing between the copy and the decoded object is not modelled. `Cert.SetupCertRotator` defaults a value copy of the options, while in Go the struct copy shares the caller's `Webhooks` backing array (pkg/controller/cert/rotator.go:82-83, 56-58), so `Default` names the caller's unnamed webhooks in place too; the model does not capture that sharing, which the only caller never observes.
- Informers, listers, the dynamic client, the certificate rotator library and the HTTPS server are left out. They are external libraries; only their results are inputs.
