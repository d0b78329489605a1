# APM-agent mutating admission webhook: the admission decision

This project models the decision a mutating admission webhook makes for each
admission review it receives. The webhook injects an observability agent
into Pods that opt in through the `elastic-apm-agent` annotation. The server
holds a read-only agent table (agent name -> image and environment). For each
review, `mutate` either

- returns without error and without touching the response when the review
  has no request;
- returns an error when the Pod's raw bytes do not decode;
- stores an allowed, unmodified response with one of three messages
  (`no annotations present`, ``missing annotation `elastic-apm-agent` ``,
  ``no config for agent `<name>` ``);
- or stores an allowed response with a JSON Patch built from the matched agent
  configuration, status `Success`. It returns an error instead when the patch
  cannot be marshalled.

Files:

- `wrappers.dfy`: `Option` (Go's nil pointers and nil maps) and `Result` (a
  value or a Go error's text).
- `webhook.dfy`: the data model (`AgentConfig`, `AgentTable`, `Pod`,
  `AdmissionRequest`, `AdmissionResponse`, `Status`), the two-step agent lookup
  `Resolve`, the messages `StatusMessage`, the pure decision `Decide`, and the
  classes `AdmissionReview` and `Server`. `Server.Mutate` builds the response
  field by field, as the Go code does, and writes it into the review object.
  Its postcondition ties the new state of the review to `Decide`.

`mutate` calls three pieces of code whose bodies are outside this model: the
JSON decoder of the Pod, the patch builder `createPatch` and the JSON encoder
of the patch. They are parameters: each is a function-valued field of `Externals`,
and the decoder and the encoder can fail with an error text. The Pod spec
and the patch are opaque types, because only `createPatch` looks inside them.
A nil annotation map is `None`; an empty map is `Some(map[])`, which resolves
to the missing-annotation case, as in the code.

Details of the code that the model keeps:

- With no request, `mutate` leaves `Response` as it was (main.go:108-110). It
  is empty afterwards only if the incoming review carried none.
- On the success path, the status is `Success` with an empty message. On the
  three unmodified paths, the status is empty and only the message is set.
- A decode failure is returned as the text `unable unmarshal pod json object `
  followed by the decoder's own error.

## Model

| member | source | states |
|---|---|---|
| Webhook.Resolve | main.go:122-144 | nil annotations give NoAnnotations; a present map without the `elastic-apm-agent` key gives MissingAgentAnnotation; a value that is not in the table gives UnknownAgent with that value; otherwise Resolved with that name and its table entry. Each case holds if and only if its condition does |
| Webhook.StatusMessage | main.go:124-140 | the message of each unmodified outcome is non-empty, and for an unknown agent it contains the agent name verbatim |
| Webhook.MessageShape | main.go:124-140 | the three messages differ in their first or fourth letter, and the unknown-agent message carries the name between the 21-character prefix and the closing backquote |
| Webhook.MessageIdentifiesResolution | main.go:124-140 | equal messages come from the same outcome, and for an unknown agent from the same agent name: the message tells which condition applied |
| Webhook.Decide | main.go:113-161 | a failed decode gives the wrapped decode error. Every response is allowed and carries the request's UID. A patch type is set exactly when a patch is present, and the status is `Success` exactly then. Unresolved Pods get the unmodified response with their message. Resolved Pods get the marshalled `createPatch(config, spec)` bytes, or the marshaller's error |
| Webhook.ResolveIgnoresOtherAnnotations | main.go:130-138 | two annotation maps that agree on the `elastic-apm-agent` key resolve alike; no other annotation matters |
| Webhook.EmptyAnnotationsAreMissingSelector | main.go:123-136 | an empty but non-nil annotation map is reported as a missing annotation, not as no annotations |
| Webhook.UnmodifiedResponseRevealsResolution | main.go:117-144 | two decoded requests that got unmodified responses with the same status were resolved alike |
| Webhook.Server.Mutate | main.go:102-163 | the agent table is a constant field and the request stays unchanged. Without a request, no error and the response is untouched. Otherwise a failing decision returns its error and leaves the response untouched, even after the patch type was set locally. A response decision is stored in the review with no error |

## Left out

- `main`, flag parsing, `parseConfig` (reading the YAML configuration file) and the TLS listener (main.go:18-52): process start-up and file and network I/O. The model starts from a `Server` holding an already-built agent table.
- `ServeHTTP` and `sendError` (main.go:70-100): reading the HTTP body, decoding and re-encoding the whole review, and writing the reply. Their only decision is that any error, including one `mutate` returns, becomes a status 500 reply carrying the error text.
- The logger field of `server` (main.go:55): logging has no effect on the decision.
- `createPatch` and the JSON encoder and decoder: their code is not part of this model. They are uninterpreted function values, so nothing is proved about the content or validity of the patch.
- The other fields of the Kubernetes admission and status types (kind, operation, status code, reason, and so on): `mutate` does not read or set them.
- A decoder that succeeds but yields a nil Pod (JSON `null`): in Go this would dereference a nil pointer at main.go:122. The model's decoder yields either an error or a Pod, so this path is not represented.
- Concurrent dispatch of requests by the HTTP server: the table is never written after start-up, and `Server.agents` is a constant field, so the model has nothing to synchronise.
