# RESTCONF client and access-control core, modelled in Dafny

This project models three parts of the freeconf RESTCONF middleware:

- **The protocol driver `clientNode`** (`client_node.dfy`, module `Driver`). It turns tree
  operations into RESTCONF HTTP calls:
  - BeginEdit pre-fetches a snapshot and overlays a fresh change buffer on it.
  - Child, Next and Field are answered by the edit handle, by a lazily fetched read handle, or
    by an OPTIONS navigation probe that runs once.
  - Delete sends a DELETE.
  - EndEdit sends the chosen PUT or POST with the change buffer.
  - Action posts its input in the RPC envelope of section 3.6.1 of RFC 8040 and unwraps the
    output (section 3.6.2).
  - Notify opens one subscription.

  The driver is a class. Its fields `read`, `edit`, `found`, `changes` and the verb (the
  source's `method`) are updated step by step. The transport (`clientSupport`) is reduced to
  two things:
  - a `reply` parameter: what the transport answers to the handler's request;
  - a ghost log: each request the driver sends, with its reply.

  The class invariant states three things:
  - the edit handle and the change buffer exist together;
  - the verb is "", PUT or POST, and not "" once editing;
  - at most one OPTIONS probe ever succeeds, and `found` records exactly that.
- **The wire mapping of `client/client.go`**, in four modules:
  - `ClientAddress`: address derivation.
  - `ClientWire`: how `clientDo` builds the request and handles the response:
    - request URL;
    - switch to the operations resource for root-level rpcs (section 3.3.2 of RFC 8040);
    - query string;
    - headers chosen by compliance mode;
    - status and empty-body handling.
  - `ClientStream`: the subscription request, and decoding of each server-sent chunk. The
    decoder expects an `ietf-restconf:notification` object holding `eventTime` and the event
    under the literal key `event`.
  - `ClientModules`: the module cache, a class whose `modules` map grows in place.
- **The access-control decision table** (`secure.dfy`, module `Secure`):
  - A role maps paths to the levels None (written `NoAccess`), Read or Full.
  - The permission at a path is the one of its deepest ancestor (or itself) that holds an
    entry, None when there is none.
  - Reads are allowed or silently hidden.
  - Writes, actions and subscriptions are allowed or refused as Unauthorized.
  - Every row of the authorization test is reproduced by a lemma.

Compliance is one immutable `ComplianceOptions` value, passed to each component. The Go code
is inconsistent here:
- `client_node.go` reads a package-global `Compliance`.
- `client/client.go` passes a `compliance` field that `clientNode` does not declare.

The value has the three switches the core consults. `Simplified` is the preset with all three
set, and `Strict` has none set.

Functions the model does not define are passed in as function-typed parameters:
- `url.Parse` (the host);
- `restconf.FindDeviceIdInUrl`;
- `json.Unmarshal`;
- `time.Parse`;
- the JSON writer;
- `nodeutil.ReadJSONIO`.

The clock (`time.Now`) is not a function here: the time it would give is passed in as a value
(the receipt time of a chunk, or the time a connection failed).

Points the model takes from the code:
- As written, only status 200 succeeds. RESTCONF servers also answer 201 and 204 (sections
  4.4.1, 4.5 and 4.7 of RFC 8040); see Findings.
- A role with only Read on the module is refused subscriptions, actions and writes
  (secure/authorize_test.go:97-102).
- In edit mode, a child that is not new is answered from the snapshot and a new child from
  the change buffer (client_node.go:159-164).
- The read-mode GET carries the driver's `params` field (client_node.go:142), which is empty
  in every caller shown.

The methods `Driver.ReplayRead`, `Driver.ReplayList`, `Driver.ReplayNavigationAndDelete`,
`Driver.ReplayNotifyAndAction` and `Driver.ReplayEdit` derive the request sequences the
driver's unit test logs (client_test.go:37-83) from the handlers' contracts alone. The test's
fake transport answers every call with an empty body (client_test.go:127). Each method instead
chooses the replies it feeds in, and states the answers the handlers give for those replies.

## Model

| member | source | states |
|---|---|---|
| `ClientAddress.BaseUrl` | client/client.go:53-56 | the base URL ends in '/', extends the given URL by at most one character, and equals it when it already ended in '/' |
| `ClientAddress.NewAddress` | client/client.go:52-72 | fails exactly when the URL does not parse; otherwise every endpoint is derived from the base, origin is "http://" + host, Stream and Host stay empty |
| `ClientAddress.BaseUrlIdempotent` | client/client.go:54-56 | normalising the base URL twice changes nothing |
| `ClientAddress.NewAddressFromBase` | client/client.go:52-72 | an address rebuilt from its own base is the same address |
| `ClientAddress.EndpointsDistinct` | client/client.go:63-68 | all endpoints have the base as prefix and the data, operations, schema and UI resources never extend one another |
| `ClientWire.RequestUrl` | client/client.go:277-288 | the URL starts with endpoint + "module:path" and has nothing more exactly when the parameters are empty |
| `ClientWire.RequestEndpoint` | client/client.go:277-285 | for an address derived from its base, the URL lies under the operations resource iff the target is a root-level rpc and rpcs under data are not allowed, under the data resource otherwise |
| `ClientWire.QueryRoundTrip` | client/client.go:286-288 | when endpoint and target hold no '?', splitting the URL at its first '?' returns the endpoint + target and exactly the parameters passed ("" when none) |
| `ClientWire.RequestHeaders` | client/client.go:292-298 | Content-Type equals Accept; both are plain JSON iff the options equal the simplified preset, yang-data JSON otherwise |
| `ClientWire.NewRequest` | client/client.go:274-298 | the request carries the verb and payload given; its URL lies under the operations resource exactly for root-level rpcs (rpcs under data not allowed) and under the data resource otherwise, and its query is exactly the parameters; Content-Type equals Accept, plain JSON iff the options are the simplified preset |
| `ClientWire.ResponseOutcomeAsWritten` | client/client.go:304-311 | as written: an error "(code) body" iff the status is not exactly 200; no content iff 200 with no body or ContentLength 0; otherwise the body |
| `ClientWire.NoContentRejectedAsWritten` | client/client.go:304-307 | as written, 204 and 201 responses are failures |
| `ClientWire.NotFoundNeverReportedAsWritten` | client/client.go:304-307 | as written, no response yields an error that `errors.Is` the not-found sentinel, and a 404 is a failure |
| `ClientWire.ResponseOutcome` | client/client.go:304-311 | corrected: an error iff the status is not 2xx, and that error is "not found" iff the status is 404; no content for 204, no body or ContentLength 0 |
| `ClientWire.ResponseOutcomeAgreesOn200` | client/client.go:304-311 | the corrected handling agrees with the written one on status 200 |
| `ClientWire.StatusMessageRoundTrip` | client/client.go:306 | the "(code) body" message can be read back into the same code and body |
| `ClientStream.StreamRequestFor` | client/client.go:165-177 | the stream URL is the data resource + `<module>:<path>`, the same URL a GET of that path without parameters uses whenever that GET is not sent to the operations resource; the simplified marker query is present iff the options are the simplified preset; Accept is text/event-stream |
| `ClientStream.StreamNeverUsesOperations` | client/client.go:166-167 | a stream URL never lies under the operations resource |
| `ClientStream.DecodeChunk` | client/client.go:194-237 | a parse failure gives an error event at receipt time; without the wrapper the whole object is the event; with it the event is data iff the chunk is a complete envelope with a parsable eventTime, and then it is the `event` object stamped with the parsed eventTime; an eventTime that does not parse gives "eventTime in wrong format '<text>'"; error events carry the receipt time |
| `ClientStream.EnvelopeRoundTrip` | client/client.go:198-219 | a chunk holding a well-formed envelope decodes to its event body stamped with the envelope's eventTime |
| `ClientStream.DecodeErrorOrder` | client/client.go:198-210 | the rejection reason is the first failed check: missing wrapper, then missing event, then missing eventTime |
| `ClientStream.StandardNotificationRejected` | client/client.go:203-205 | a notification whose event sits under a module-qualified name instead of `event` (section 6.4 of RFC 8040) is rejected with "SSE message missing event payload" |
| `ClientStream.UnexpectedShapeRejected` | client/client.go:199-201 | a chunk `{"unexpected":"shape"}` yields exactly one "missing ietf-restconf:notification wrapper" error event |
| `ClientStream.DeliverEvents` | client/client.go:180-241 | a failed HTTP exchange yields a single error event; otherwise one event per chunk, in order, none dropped |
| `ClientModules.Client.constructor` | client/client.go:106 | the registry starts with the modules loaded at connection time |
| `ClientModules.Client.Module` | client/client.go:147-158 | a cached module is returned without loading; a miss loads once and adds exactly that entry on success, leaves the map unchanged on failure; no entry is ever removed or replaced |
| `ClientModules.ModuleTwice` | client/client.go:147-158 | asking twice after a successful load returns the same module and loads at most once |
| `Driver.ReplyForAsWritten` | client/client.go:304-311 | as written, the driver sees a failure iff the status is not 200, carrying the status and the body text; no content iff 200 with an empty body; otherwise the decoded body |
| `Driver.ReplyFor` | client/client.go:304-311 | corrected, the driver sees a failure iff the status is not 2xx, carrying the status and the body text, "not found" iff 404; no content for 204 or an empty body; otherwise the decoded body |
| `Driver.NoContentEndsEdit` | client_node.go:135 | a 204 answer to the final PUT is a failure as written and no content once corrected |
| `Driver.LookupAnswer` | client_node.go:73 | a handle answers a child with the member of that name of its document, or no node |
| `Driver.GetResultAsWritten` | client_node.go:183-190 | as written, `get` panics exactly when the reply has no content |
| `Driver.GetPanicsOnNoContentAsWritten` | client_node.go:188 | as written, a GET answered with no content panics |
| `Driver.GetResult` | client_node.go:183-190 | corrected `get`: fails iff the reply failed; otherwise the document, an empty one for no content |
| `Driver.GetAgreesWhereNoPanic` | client_node.go:183-190 | the corrected `get` agrees with the written one wherever that one does not panic |
| `Driver.ProbeVerdictAsWritten` | client_node.go:169-177 | as written: valid iff the probe did not fail; invalid without error iff it failed with the not-found sentinel; otherwise that error |
| `Driver.MissingPathIsErrorAsWritten` | client_node.go:169-177 | as written, a 404 to the navigation probe is the error "(404) body", never "path invalid" |
| `Driver.ProbeVerdict` | client_node.go:169-181 | valid iff the probe did not fail; invalid without error iff it failed with "not found"; otherwise that error |
| `Driver.MissingPathIsInvalid` | client_node.go:172-174 | corrected, a 404 to the navigation probe means "path invalid", without error |
| `Driver.ActionPayload` | client_node.go:207-223 | no input gives an empty payload; without the wrapper the payload is the encoded input; with it the payload is braced and, for a writer that writes one-member objects as `{"key":value}`, equals the encoding of `{"<module>:input": input}` |
| `Driver.InputEnvelopeShape` | client_node.go:214-221 | the envelope `{"<module>:input": input}` holds the input under `<module>:input` and nothing else |
| `Driver.ActionResult` | client_node.go:224-248 | errors propagate; no content gives no node; without the wrapper the body is the result; with it the result is a success iff the body holds an object under `<module>:output`, and then exactly that object; a missing key is the protocol error "'<key>' missing in output wrapper"; a body that is not an object fails |
| `Driver.ActionOutputRoundTrip` | client_node.go:238-244 | a response wrapping an output object yields that object |
| `Driver.ActionOutputMissing` | client_node.go:240-243 | a response without the output key fails naming "'<module>:output'" |
| `Driver.ProbesAppend` | client_node.go:169-181 | appending an exchange adds one successful probe exactly when it is an OPTIONS call that did not fail |
| `Driver.ClientNode.constructor` | client_node.go:19-28 | a new driver has no read or edit handle, no change buffer, no probe, an empty verb and an empty log |
| `Driver.ClientNode.Get` | client_node.go:183-190 | one GET with the given parameters and no payload, and the corrected `get` result |
| `Driver.ClientNode.Request` | client_node.go:192-205 | one call with empty parameters and the given payload; failure, no node for no content, or the body |
| `Driver.ClientNode.ValidNavigation` | client_node.go:169-181 | until a probe succeeded, one OPTIONS at the target and the verdict of `ProbeVerdict`, `found` set iff valid; afterwards nothing sent and valid |
| `Driver.ClientNode.EnsureRead` | client_node.go:68-72 | without a read handle, one GET with the driver's params; a failure leaves no handle and returns the error; with one, nothing is sent |
| `Driver.ClientNode.BeginEdit` | client_node.go:42-52 | below the edit root nothing changes and nothing is sent; at the root the verb is POST for new nodes and PUT otherwise, and edit mode is entered |
| `Driver.ClientNode.StartEditMode` | client_node.go:146-167 | exactly one GET with "depth=1&content=config&with-defaults=trim"; on failure the error is returned and edit handle and change buffer stay as they were; on success the snapshot is kept and the change buffer is empty |
| `Driver.ClientNode.Child` | client_node.go:53-74 | navigation probes once and answers with the node itself; delete sends one DELETE at the child's path and returns no node; in edit mode nothing is sent, a child that is not new comes from the snapshot and a new one is created in the change buffer; otherwise the read handle (fetched once) answers |
| `Driver.ClientNode.Next` | client_node.go:75-91 | navigation probes once and returns the request's key; in edit mode the change buffer answers with nothing sent; otherwise the read handle (fetched once) answers |
| `Driver.ClientNode.Field` | client_node.go:92-104 | navigation sends nothing and changes nothing; in edit mode a write stores the value in the change buffer and a read looks it up there, nothing sent; otherwise the read handle (fetched once) answers |
| `Driver.ClientNode.Notify` | client_node.go:105-123 | exactly one subscription at the selection's path with empty parameters; its error is returned |
| `Driver.ClientNode.Action` | client_node.go:124-126 | exactly one POST carrying `ActionPayload`, and the result of `ActionResult` |
| `Driver.ClientNode.EndEdit` | client_node.go:127-137 | below the edit root or when deleting nothing is sent; otherwise one request with the chosen verb carrying the encoded change buffer, whose failure is returned |
| `Secure.MatchDepth` | secure/authorize_test.go:119-137 | the depth found is that of a prefix holding an entry, and no deeper prefix holds one |
| `Secure.Resolve` | secure/authorize_test.go:119-137 | the permission is NoAccess when no prefix holds an entry, and otherwise that of the deepest prefix holding one |
| `Secure.EntryAtPathDecides` | secure/authorize_test.go:126-129 | an entry at the path itself decides, whatever its ancestors grant |
| `Secure.InheritsFromParent` | secure/authorize_test.go:104-118 | a path without an entry of its own has its parent's permission |
| `Secure.ReadField` | secure/authorize_test.go:150 | a read never yields an error; a value only with Read or Full, and then the data's value |
| `Secure.Find` | secure/authorize_test.go:153-154 | a selection exists iff the path is readable and has data |
| `Secure.CheckChange` | secure/authorize_test.go:156-170 | a write or an action fails iff the permission is not Full, and then with Unauthorized |
| `Secure.Subscribe` | secure/authorize_test.go:173-179 | the subscription call succeeds and delivers one notice, an Unauthorized error node iff the permission is not Full |
| `Secure.ValToAuth` | secure/authorize_test.go:183-191 | hidden iff there is no value; unauthorized iff there is a value and the Unauthorized error |
| `Secure.SelToAuth` | secure/authorize_test.go:193-198 | allowed iff there is a selection, hidden otherwise, never unauthorized |
| `Secure.ErrToAuth` | secure/authorize_test.go:200-207 | an outcome exists (no panic) iff there is no error or it is Unauthorized; allowed iff there is no error; never hidden |
| `Secure.LastError` | secure/authorize_test.go:173-178 | no error iff no notice is an error node; otherwise the error of an error node after which no error node follows |
| `Secure.Observe` | secure/authorize_test.go:139-180 | every role gives a row: read and read-path allowed iff readable, hidden otherwise; write-path hidden with its container, otherwise allowed iff Full; write, action and notify allowed iff Full, unauthorized otherwise |
| `Secure.DenialsAreClassified` | secure/authorize_test.go:183-207 | a denied read is hidden, never unauthorized; writes, actions and subscriptions are allowed or unauthorized, never another error |
| `Secure.DefaultRow` | secure/authorize_test.go:78-88 | empty role: read and read-path hidden, write unauthorized, write-path hidden, action and notify unauthorized |
| `Secure.ReadRow` | secure/authorize_test.go:89-103 | Read on the module: reads allowed; write, write-path, action and notify unauthorized |
| `Secure.FullRow` | secure/authorize_test.go:104-118 | Full on the module: everything allowed |
| `Secure.MixedRow` | secure/authorize_test.go:119-137 | Full on the module with NoAccess on birding/owner: owner hidden for read-path and write-path, the rest allowed |
| `Secure.ReadYieldsValue` | secure/authorize_test.go:47-50 | under Read on the module, reading count yields 10 |
| `Driver.ReplayRead` | client_test.go:37-39 | a read sends exactly one GET at the selection's path and answers the container y from the fetched document; reading the leaf z afterwards sends nothing and answers "hi" |
| `Driver.ReplayList` | client_test.go:41-43 | a read of the list x sends exactly one GET at its path, and the list under the requested name answers with the request's key |
| `Driver.ReplayNavigationAndDelete` | client_test.go:45-59 | navigation sends one OPTIONS at x/y and none the second time, answering with the node itself; a delete sends one DELETE at x/y and answers no node |
| `Driver.ReplayNotifyAndAction` | client_test.go:61-68 | notify on the notification x opens exactly one subscription at its path; an action sends one POST whose payload is `{"m:input":` + the encoded input + `}` |
| `Driver.ReplayEdit` | client_test.go:70-83 | an edit sends the pre-fetch GET with the depth/content/with-defaults parameters, nothing for the new child and the field, then one PUT whose payload encodes `{"y":{},"z":"hi"}` |

## Left out

- Real HTTP: the `http.Client`, request construction, TLS with `InsecureSkipVerify`, and `httpStream` (schema download and `ResolveModuleHnd`). Handlers receive the transport's reply as a parameter instead.
- The goroutines, channels and cancellation of `clientStream` and `OnNotify`. Only the decoding of each chunk, the delivery order, and the single subscription call are modelled.
- JSON encoding and decoding, and the node library (`ReadJSONIO`, `ReadJSONValues`, `NewJSONWtr`, `InsertInto`, `ReflectChild`). They are passed in as functions, or replaced by member lookup in a JSON value. JSON numbers are integers. The error text of a body that is not a JSON object is not Go's.
- `Driver.ClientNode.Next`: picking or creating the list row for a key is the node library's job. The model only says which handle answers and what list it holds.
- `Driver.ClientNode.Field`: in read mode a write request is answered by the read-only JSON reader. The model gives the same answer as for a read.
- A failure to serialise the input selection (`InsertInto(...).LastErr`) is not modelled. The JSON writer is total here.
- The snapshot check `existing != nil` in `startEditMode`: `get` never returns a nil node without an error, so that branch is always taken. The model keeps the snapshot as a plain document.
- Schema parsing, module discovery and `NewDevice` wiring are not modelled. Neither are `Browser`, `Modules`, `SchemaSource`, `UiSource`, `Close` and debug logging.
- `url.Parse`, `FindDeviceIdInUrl` and `time.Parse` are parameters, and the time `time.Now` gives is a value passed in. URL grammar and clock readings are not modelled.
- Permission level Write: the authorization test never grants it, so it is not modelled. The authorizer's own implementation is not part of this model. The model only does path lookup plus the decision table that the test fixes.
- `restconf.ComplianceOptions` keeps only the three switches this core reads. The `Simplified` preset is taken to have all three set.
- Path rendering (`Path.String`, list keys in segments) is not modelled. A path is its module, its rendered segments, and its target's kind and defining module.
- `ClientAddress.NewAddress` and `ClientAddress.BaseUrl` require a non-empty URL. On an empty one the Go code indexes `urlAddr[-1]` and panics, and the model does not represent that panic.
- `Driver.ClientNode.Request` requires a verb other than OPTIONS. In the source the OPTIONS probe goes through `request` too. Here it is modelled by `Driver.ClientNode.ValidNavigation`, which keeps the `found` flag in step with the probes in the log.
- `ClientStream.DecodeChunk`: the decoder reads the event from the literal key `event` (client/client.go:203), whereas section 6.4 of RFC 8040 keys it by the notification's module-qualified name. A notification in that standard shape is rejected with "SSE message missing event payload" (`ClientStream.StandardNotificationRejected`). The model keeps the key the code uses.
- Status codes are natural numbers. `net/http` only produces three-digit codes.

## Findings

| source | as written | input that shows it | evidently intended | confidence | as-written member | corrected member |
|---|---|---|---|---|---|---|
| client/client.go:304-307 | every status other than exactly 200 is an error | a DELETE answered 204 No Content, or a POST answered 201 Created (sections 4.4.1 and 4.7 of RFC 8040), gives the error "(204) " | every 2xx status succeeds, and 204 is no content | not executed; high | `ClientWire.NoContentRejectedAsWritten` | `ClientWire.ResponseOutcome` |
| client/client.go:306 with client_node.go:172 | the status error is built with `fmt.Errorf` without wrapping `fc.NotFoundError`, so `validNavigation`'s not-found branch is unreachable through this transport | an OPTIONS probe answered 404 returns the error "(404) body" instead of "path invalid" | a 404 is recognised as not found | not executed; medium | `Driver.MissingPathIsErrorAsWritten` | `Driver.MissingPathIsInvalid` |
| client_node.go:184-188 with client/client.go:308-310 | `clientDo` returns a nil reader for an empty 200 response and `get` runs `defer resp.Close()` on it | a read or edit pre-fetch GET answered 200 with Content-Length 0 panics | no content is read as an empty document | not executed; medium | `Driver.GetPanicsOnNoContentAsWritten` | `Driver.GetResult` |
