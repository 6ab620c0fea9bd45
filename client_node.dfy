/** The RESTCONF protocol driver (client_node.go, `clientNode`). One driver instance serves one
    sequence of tree operations; it turns them into HTTP calls on its transport
    (`clientSupport`) and keeps the read handle, the edit handle, the change buffer, the
    navigation-probe flag and the edit verb between calls.

    The transport is reduced to what the driver observes: every handler that may call it takes
    the reply the transport gives (`reply`), and a ghost log records each call with that reply. */
module Driver {
  import opened Wrappers
  import opened Json
  import opened Restconf
  import ClientWire

  /** Query parameters of the edit pre-fetch: first level only, configuration only, defaults
      trimmed (sections 4.8.2, 4.8.1 and 4.8.9 of RFC 8040). */
  const EditParams := "depth=1&content=config&with-defaults=trim"

  /** One `clientDo(method, params, path, payload)` call. */
  datatype WireRequest = WireRequest(verb: string, params: string, path: Path, payload: string)

  /** What `clientDo` gives back: a decoded body, no content (`nil, nil`) or an error. */
  datatype Reply = Body(doc: Value) | NoContent | Failed(error: Error)

  /** One use of the transport: a request with its reply, or the opening of a subscription. */
  datatype Exchange = Call(request: WireRequest, reply: Reply) | Subscribe(params: string, path: Path)

  /** A `node.NodeRequest` for BeginEdit and EndEdit. */
  datatype NodeRequest = NodeRequest(path: Path, editRoot: bool, isNew: bool, delete: bool)

  /** A `node.ChildRequest`; `target` is set for navigation (`r.IsNavigation()`). */
  datatype ChildRequest = ChildRequest(path: Path, ident: string, kind: MetaKind, origin: string,
                                       target: Option<Path>, isNew: bool, delete: bool)
  {
    /** `&node.Path{Parent: r.Selection.Path, Meta: r.Meta}`. */
    function ChildPath(): Path
    {
      path.Child(ident, kind, origin)
    }
  }

  /** A `node.ListRequest`: the list's name, the navigation target if any and the row key. */
  datatype ListRequest = ListRequest(path: Path, ident: string, target: Option<Path>, key: seq<Value>)

  /** A `node.FieldRequest` with its value handle. */
  datatype FieldRequest = FieldRequest(path: Path, ident: string, target: Option<Path>, write: bool, value: Value)

  /** What a Child or Next handler returns: no node, the driver's own node (navigation), or a
      node over a document. */
  datatype Answer = Absent | Itself | Found(doc: Value)

  datatype Row = Row(node: Answer, key: seq<Value>)

  /** The child `ident` of a document, as a node over that member. */
  function LookupAnswer(doc: Value, ident: string): (a: Answer)
    ensures a != Itself
    ensures a.Found? <==> Member(doc, ident).Some?
    ensures a.Found? ==> a.doc == Member(doc, ident).value
  {
    match Member(doc, ident)
    case Some(v) => Found(v)
    case None => Absent
  }

  /** How an HTTP response reaches the driver through `clientDo`, with `decode` standing for
      `nodeutil.ReadJSONIO`: as written, and corrected. */
  function ReplyForAsWritten(resp: ClientWire.HttpResponse, decode: string -> Value): (r: Reply)
    ensures r.Failed? <==> resp.status != 200
    ensures r.NoContent? <==> resp.status == 200 && (resp.body.None? || resp.contentLength == 0)
    ensures r.Failed? ==> r.error == Status(resp.status, ClientWire.BodyText(resp))
    ensures r.Body? ==> resp.body.Some? && r.doc == decode(resp.body.value)
  {
    match ClientWire.ResponseOutcomeAsWritten(resp)
    case Failure(e) => Failed(e)
    case Success(body) => if body.None? then NoContent else Body(decode(body.value))
  }

  function ReplyFor(resp: ClientWire.HttpResponse, decode: string -> Value): (r: Reply)
    ensures r.Failed? <==> !ClientWire.IsSuccessStatus(resp.status)
    ensures r.Failed? ==> (r.error.IsNotFound() <==> resp.status == 404)
    ensures r.NoContent? <==> ClientWire.IsSuccessStatus(resp.status)
                              && (resp.status == 204 || resp.body.None? || resp.contentLength == 0)
    ensures r.Failed? ==> r.error == Status(resp.status, ClientWire.BodyText(resp))
    ensures r.Body? ==> resp.body.Some? && r.doc == decode(resp.body.value)
  {
    match ClientWire.ResponseOutcome(resp)
    case Failure(e) => Failed(e)
    case Success(body) => if body.None? then NoContent else Body(decode(body.value))
  }

  /** Ending an edit against a server that answers 204 No Content: as written the driver
      reports a failure, corrected it does not. */
  lemma NoContentEndsEdit(decode: string -> Value)
    ensures ReplyForAsWritten(ClientWire.HttpResponse(204, Some(""), 0), decode).Failed?
    ensures ReplyFor(ClientWire.HttpResponse(204, Some(""), 0), decode) == NoContent
  {
  }

  // ---- get ----

  datatype Fetched = Fetched(doc: Value) | FetchFailed(error: Error) | Panicked

  /** `get` as written: on no content `clientDo` returns a nil reader and `defer resp.Close()`
      evaluates a method of a nil interface, which panics. */
  function GetResultAsWritten(reply: Reply): (f: Fetched)
    ensures f.Panicked? <==> reply.NoContent?
    ensures reply.Failed? ==> f == FetchFailed(reply.error)
    ensures reply.Body? ==> f == Fetched(reply.doc)
  {
    match reply
    case Body(doc) => Fetched(doc)
    case NoContent => Panicked
    case Failed(e) => FetchFailed(e)
  }

  lemma GetPanicsOnNoContentAsWritten()
    ensures GetResultAsWritten(NoContent) == Panicked
  {
  }

  /** The empty document. */
  const EmptyDocument := Object(map[])

  /** `get` as the rest of the model uses it: a reply without content is an empty document,
      so every reply either fails or yields a document. */
  function GetResult(reply: Reply): (r: Result<Value, Error>)
    ensures r.Failure? <==> reply.Failed?
    ensures r.Failure? ==> r.error == reply.error
    ensures r.Success? && reply.Body? ==> r.value == reply.doc
    ensures r.Success? && reply.NoContent? ==> r.value == EmptyDocument
  {
    match reply
    case Body(doc) => Success(doc)
    case NoContent => Success(EmptyDocument)
    case Failed(e) => Failure(e)
  }

  /** The corrected `get` never panics and agrees with the written one wherever that one does
      not panic. */
  lemma GetAgreesWhereNoPanic(reply: Reply)
    ensures GetResultAsWritten(reply).Fetched? ==> GetResult(reply) == Success(GetResultAsWritten(reply).doc)
    ensures GetResultAsWritten(reply).FetchFailed? ==> GetResult(reply) == Failure(GetResultAsWritten(reply).error)
    ensures GetResultAsWritten(reply).Panicked? ==> GetResult(reply) == Success(EmptyDocument)
  {
  }

  // ---- navigation probe ----

  /** `validNavigation`'s verdict on the reply to its OPTIONS request, with `errors.Is` as
      written: only the `fc.NotFoundError` sentinel counts as "not found". */
  function ProbeVerdictAsWritten(reply: Reply): (v: Result<bool, Error>)
    ensures v == Success(true) <==> !reply.Failed?
    ensures v == Success(false) <==> reply.Failed? && reply.error.NotFound?
    ensures v.Failure? <==> reply.Failed? && !reply.error.NotFound?
    ensures v.Failure? ==> v.error == reply.error
  {
    if reply.Failed? && ClientWire.IsNotFoundAsWritten(reply.error) then Success(false)
    else if reply.Failed? then Failure(reply.error)
    else Success(true)
  }

  /** With the transport as written, a 404 to the probe is a hard error, never "path invalid". */
  lemma MissingPathIsErrorAsWritten(resp: ClientWire.HttpResponse, decode: string -> Value)
    requires resp.status == 404
    ensures ProbeVerdictAsWritten(ReplyForAsWritten(resp, decode))
            == Failure(Status(404, ClientWire.BodyText(resp)))
  {
  }

  /** The verdict the driver uses: "not found" (the sentinel, or a 404 status that wraps it)
      means the path does not resolve, any other failure propagates, anything else is valid. */
  function ProbeVerdict(reply: Reply): (v: Result<bool, Error>)
    ensures v == Success(true) <==> !reply.Failed?
    ensures v == Success(false) <==> reply.Failed? && reply.error.IsNotFound()
    ensures v.Failure? <==> reply.Failed? && !reply.error.IsNotFound()
    ensures v.Failure? ==> v.error == reply.error
  {
    if reply.Failed? && reply.error.IsNotFound() then Success(false)
    else if reply.Failed? then Failure(reply.error)
    else Success(true)
  }

  /** With the corrected transport a 404 to the probe means "path invalid", without error. */
  lemma MissingPathIsInvalid(resp: ClientWire.HttpResponse, decode: string -> Value)
    requires resp.status == 404
    ensures ProbeVerdict(ReplyFor(resp, decode)) == Success(false)
  {
  }

  // ---- actions ----

  /** The request body of an action: empty without input; otherwise the encoded input, inside
      `{"<module>:input": ...}` (section 3.6.1 of RFC 8040) unless the wrapper is disabled. */
  function ActionPayload(c: ComplianceOptions, origin: string, input: Option<Value>,
                         encode: Value -> string): (s: string)
    ensures input.None? ==> s == ""
    ensures input.Some? && c.disableActionWrapper ==> s == encode(input.value)
    ensures input.Some? && !c.disableActionWrapper ==> |s| >= 2 && s[0] == '{' && s[|s| - 1] == '}'
    ensures input.Some? && !c.disableActionWrapper && WritesMembers(encode) ==>
              s == encode(InputEnvelope(origin, input.value))
  {
    if input.None? then ""
    else if c.disableActionWrapper then encode(input.value)
    else "{\"" + origin + ":input\":" + encode(input.value) + "}"
  }

  /** The input envelope as a JSON value. */
  function InputEnvelope(origin: string, input: Value): Value
  {
    Object(map[origin + ":input" := input])
  }

  /** The JSON writer writes every one-member object as `{"key":value}`. */
  ghost predicate WritesMembers(encode: Value -> string)
  {
    forall k: string, v: Value ::
      encode(Object(map[k := v])) == "{\"" + k + "\":" + encode(v) + "}"
  }

  /** The input envelope holds the input under `<module>:input` and nothing else. */
  lemma InputEnvelopeShape(origin: string, input: Value)
    ensures InputEnvelope(origin, input).fields.Keys == {origin + ":input"}
    ensures InputEnvelope(origin, input).fields[origin + ":input"] == input
  {
  }

  function OutputKey(origin: string): string
  {
    origin + ":output"
  }

  function MissingOutputMessage(key: string): string
  {
    "'" + key + "' missing in output wrapper"
  }

  /** The result of an action from its reply: the error, nothing for no content, and otherwise
      the body, or with the wrapper enabled the object under `<module>:output` (section 3.6.2
      of RFC 8040); a body that is not a JSON object (or null) does not decode. */
  function ActionResult(c: ComplianceOptions, origin: string, reply: Reply): (r: Result<Option<Value>, Error>)
    ensures reply.Failed? ==> r == Failure(reply.error)
    ensures reply.NoContent? ==> r == Success(None)
    ensures reply.Body? && c.disableActionWrapper ==> r == Success(Some(reply.doc))
    ensures reply.Body? && !c.disableActionWrapper && r.Success? ==>
              r.value.Some? && reply.doc.Object? && HasObject(reply.doc.fields, OutputKey(origin))
              && r.value.value == reply.doc.fields[OutputKey(origin)]
    ensures reply.Body? && !c.disableActionWrapper && (reply.doc.Object? || reply.doc.Null?) && r.Failure? ==>
              r.error == Protocol(MissingOutputMessage(OutputKey(origin)))
    ensures reply.Body? && !c.disableActionWrapper && reply.doc.Object? && HasObject(reply.doc.fields, OutputKey(origin)) ==>
              r == Success(Some(reply.doc.fields[OutputKey(origin)]))
    ensures reply.Body? && !c.disableActionWrapper && !(reply.doc.Object? || reply.doc.Null?) ==> r.Failure?
  {
    match reply
    case Failed(e) => Failure(e)
    case NoContent => Success(None)
    case Body(doc) =>
      if c.disableActionWrapper then Success(Some(doc))
      else if !(doc.Object? || doc.Null?) then Failure(Malformed("cannot unmarshal into a map"))
      else
        var vals := if doc.Object? then doc.fields else map[];
        var key := OutputKey(origin);
        if HasObject(vals, key) then Success(Some(vals[key]))
        else Failure(Protocol(MissingOutputMessage(key)))
  }

  /** Round trip with a server: a response wrapping an output object yields that object. */
  lemma ActionOutputRoundTrip(c: ComplianceOptions, origin: string, output: map<string, Value>)
    requires !c.disableActionWrapper
    ensures ActionResult(c, origin, Body(Object(map[OutputKey(origin) := Object(output)])))
            == Success(Some(Object(output)))
  {
  }

  /** A response without the output wrapper is a protocol error naming the missing key. */
  lemma ActionOutputMissing(c: ComplianceOptions, origin: string)
    requires !c.disableActionWrapper
    ensures ActionResult(c, origin, Body(Object(map[])))
            == Failure(Protocol("'" + origin + ":output' missing in output wrapper"))
  {
    assert MissingOutputMessage(OutputKey(origin)) == "'" + origin + ":output' missing in output wrapper";
  }

  /** The body sent at the end of an edit: the encoded change buffer, or nothing without one. */
  function ChangesPayload(changes: Option<map<string, Value>>, encode: Value -> string): string
  {
    if changes.Some? then encode(Object(changes.value)) else ""
  }

  // ---- the probe count ----

  predicate IsSuccessfulProbe(x: Exchange)
  {
    x.Call? && x.request.verb == "OPTIONS" && !x.reply.Failed?
  }

  /** The number of OPTIONS probes in a log that the server answered without error. */
  ghost function SuccessfulProbes(log: seq<Exchange>): nat
  {
    if |log| == 0 then 0
    else SuccessfulProbes(log[..|log| - 1]) + (if IsSuccessfulProbe(log[|log| - 1]) then 1 else 0)
  }

  lemma ProbesAppend(log: seq<Exchange>, x: Exchange)
    ensures SuccessfulProbes(log + [x]) == SuccessfulProbes(log) + (if IsSuccessfulProbe(x) then 1 else 0)
  {
    assert (log + [x])[..|log|] == log;
  }

  class ClientNode {
    const params: string
    const compliance: ComplianceOptions
    /** The JSON writer (`nodeutil.NewJSONWtr`), not part of this model. */
    const encode: Value -> string

    /** The read handle: the document a GET fetched, once fetched. */
    var read: Option<Value>
    /** The edit handle: the change buffer overlaid on this pre-fetched snapshot. */
    var edit: Option<Value>
    /** An OPTIONS probe has succeeded. */
    var found: bool
    /** The HTTP verb that ends the edit (the source's field `method`). */
    var verb: string
    /** The change buffer. */
    var changes: Option<map<string, Value>>

    ghost var log: seq<Exchange>

    ghost predicate Valid()
      reads this
    {
      && (edit.Some? <==> changes.Some?)
      && (verb == "" || verb == "PUT" || verb == "POST")
      && (edit.Some? ==> verb != "")
      && SuccessfulProbes(log) <= 1
      && (found <==> SuccessfulProbes(log) == 1)
    }

    constructor (params: string, compliance: ComplianceOptions, encode: Value -> string)
      ensures Valid()
      ensures this.params == params && this.compliance == compliance && this.encode == encode
      ensures read == None && edit == None && !found && verb == "" && changes == None && log == []
    {
      this.params := params;
      this.compliance := compliance;
      this.encode := encode;
      read := None;
      edit := None;
      found := false;
      verb := "";
      changes := None;
      log := [];
    }

    /** `get`: one GET with the given parameters. */
    method Get(path: Path, params: string, reply: Reply) returns (r: Result<Value, Error>)
      requires Valid()
      modifies this`log
      ensures Valid()
      ensures log == old(log) + [Call(WireRequest("GET", params, path, ""), reply)]
      ensures r == GetResult(reply)
    {
      ProbesAppend(log, Call(WireRequest("GET", params, path, ""), reply));
      log := log + [Call(WireRequest("GET", params, path, ""), reply)];
      r := GetResult(reply);
    }

    /** `request`: one call with an empty parameter string; no content is no node. */
    method Request(verb: string, path: Path, payload: string, reply: Reply) returns (r: Result<Option<Value>, Error>)
      requires Valid()
      requires verb != "OPTIONS"
      modifies this`log
      ensures Valid()
      ensures log == old(log) + [Call(WireRequest(verb, "", path, payload), reply)]
      ensures reply.Failed? ==> r == Failure(reply.error)
      ensures reply.NoContent? ==> r == Success(None)
      ensures reply.Body? ==> r == Success(Some(reply.doc))
    {
      ProbesAppend(log, Call(WireRequest(verb, "", path, payload), reply));
      log := log + [Call(WireRequest(verb, "", path, payload), reply)];
      match reply
      case Failed(e) => r := Failure(e);
      case NoContent => r := Success(None);
      case Body(doc) => r := Success(Some(doc));
    }

    /** `validNavigation`: until a probe has succeeded, one OPTIONS at the target; after that,
        nothing is sent and the path is valid. */
    method ValidNavigation(target: Path, reply: Reply) returns (valid: bool, err: Option<Error>)
      requires Valid()
      modifies this`found, this`log
      ensures Valid()
      ensures old(found) ==> valid && err.None? && found && log == old(log)
      ensures !old(found) ==> log == old(log) + [Call(WireRequest("OPTIONS", "", target, ""), reply)]
      ensures !old(found) ==> found == valid
      ensures !old(found) ==> ProbeVerdict(reply) == (if err.Some? then Failure(err.value) else Success(valid))
      ensures err.Some? ==> !valid
    {
      if !found {
        var x := Call(WireRequest("OPTIONS", "", target, ""), reply);
        ProbesAppend(log, x);
        log := log + [x];
        if reply.Failed? && reply.error.IsNotFound() {
          return false, None;
        }
        if reply.Failed? {
          return false, Some(reply.error);
        }
        found := true;
      }
      return true, None;
    }

    /** `startReadMode`, run only while there is no read handle. */
    method EnsureRead(path: Path, reply: Reply) returns (err: Option<Error>)
      requires Valid()
      modifies this`read, this`log
      ensures Valid()
      ensures old(read).Some? ==> err.None? && read == old(read) && log == old(log)
      ensures old(read).None? ==> log == old(log) + [Call(WireRequest("GET", params, path, ""), reply)]
      ensures old(read).None? && GetResult(reply).Failure? ==> err == Some(GetResult(reply).error) && read.None?
      ensures old(read).None? && GetResult(reply).Success? ==> err.None? && read == Some(GetResult(reply).value)
      ensures err.None? <==> read.Some?
    {
      if read.Some? {
        return None;
      }
      var r := Get(path, params, reply);
      if r.Failure? {
        return Some(r.error);
      }
      read := Some(r.value);
      err := None;
    }

    /** OnBeginEdit: below the edit root nothing happens; at the edit root the verb is chosen
        (POST for a new node, PUT otherwise) and edit mode is entered. */
    method BeginEdit(r: NodeRequest, reply: Reply) returns (err: Option<Error>)
      requires Valid()
      modifies this
      ensures Valid()
      ensures !r.editRoot ==> err.None? && unchanged(this)
      ensures r.editRoot ==> verb == (if r.isNew then "POST" else "PUT")
      ensures r.editRoot ==> log == old(log) + [Call(WireRequest("GET", EditParams, r.path, ""), reply)]
      ensures r.editRoot ==> read == old(read) && found == old(found)
      ensures r.editRoot && reply.Failed? ==> err == Some(reply.error) && edit == old(edit) && changes == old(changes)
      ensures r.editRoot && !reply.Failed? ==>
                err.None? && edit == Some(GetResult(reply).value) && changes == Some(map[])
    {
      if !r.editRoot {
        return None;
      }
      verb := if r.isNew then "POST" else "PUT";
      err := StartEditMode(r.path, reply);
    }

    /** `startEditMode`: pre-fetch the first configuration level, then overlay a fresh change
        buffer on it. A failed pre-fetch leaves the edit state as it was. */
    method StartEditMode(path: Path, reply: Reply) returns (err: Option<Error>)
      requires Valid() && verb != ""
      modifies this`edit, this`changes, this`log
      ensures Valid()
      ensures log == old(log) + [Call(WireRequest("GET", EditParams, path, ""), reply)]
      ensures reply.Failed? ==> err == Some(reply.error) && edit == old(edit) && changes == old(changes)
      ensures !reply.Failed? ==> err.None? && edit == Some(GetResult(reply).value) && changes == Some(map[])
    {
      var existing := Get(path, EditParams, reply);
      if existing.Failure? {
        return Some(existing.error);
      }
      changes := Some(map[]);
      edit := Some(existing.value);
      err := None;
    }

    /** OnChild. */
    method Child(r: ChildRequest, reply: Reply) returns (res: Result<Answer, Error>)
      requires Valid()
      modifies this
      ensures Valid()
      ensures verb == old(verb) && edit == old(edit)
      // navigation: probe once, answer with this node
      ensures r.target.Some? ==> read == old(read) && changes == old(changes)
      ensures r.target.Some? && old(found) ==> res == Success(Itself) && log == old(log)
      ensures r.target.Some? && !old(found) ==>
                log == old(log) + [Call(WireRequest("OPTIONS", "", r.target.value, ""), reply)]
                && found == !reply.Failed?
                && res == (match ProbeVerdict(reply)
                           case Success(valid) => Success(if valid then Itself else Absent)
                           case Failure(e) => Failure(e))
      // delete: one DELETE at the child's path, no node
      ensures r.target.None? && r.delete ==>
                log == old(log) + [Call(WireRequest("DELETE", "", r.ChildPath(), ""), reply)]
                && read == old(read) && found == old(found) && changes == old(changes)
                && res == (if reply.Failed? then Failure(reply.error) else Success(Absent))
      // edit mode: answered by the edit handle, nothing sent
      ensures r.target.None? && !r.delete && old(edit).Some? ==>
                log == old(log) && read == old(read) && found == old(found)
      ensures r.target.None? && !r.delete && old(edit).Some? && !r.isNew ==>
                res == Success(LookupAnswer(old(edit).value, r.ident)) && changes == old(changes)
      ensures r.target.None? && !r.delete && old(edit).Some? && r.isNew ==>
                res == Success(Found(EmptyDocument))
                && changes == Some(old(changes).value[r.ident := EmptyDocument])
      // read mode: answered by the read handle, fetched once
      ensures r.target.None? && !r.delete && old(edit).None? ==> found == old(found) && changes == old(changes)
      ensures r.target.None? && !r.delete && old(edit).None? && old(read).Some? ==>
                log == old(log) && read == old(read) && res == Success(LookupAnswer(read.value, r.ident))
      ensures r.target.None? && !r.delete && old(edit).None? && old(read).None? ==>
                log == old(log) + [Call(WireRequest("GET", params, r.path, ""), reply)]
                && (reply.Failed? ==> res == Failure(reply.error) && read.None?)
                && (!reply.Failed? ==> read == Some(GetResult(reply).value)
                                       && res == Success(LookupAnswer(read.value, r.ident)))
    {
      if r.target.Some? {
        var valid, err := ValidNavigation(r.target.value, reply);
        if err.Some? {
          return Failure(err.value);
        }
        return Success(if valid then Itself else Absent);
      }
      if r.delete {
        var d := Request("DELETE", r.ChildPath(), "", reply);
        if d.Failure? {
          return Failure(d.error);
        }
        return Success(Absent);
      }
      if edit.Some? {
        if !r.isNew {
          return Success(LookupAnswer(edit.value, r.ident));
        }
        changes := Some(changes.value[r.ident := EmptyDocument]);
        return Success(Found(EmptyDocument));
      }
      var err := EnsureRead(r.path, reply);
      if err.Some? {
        return Failure(err.value);
      }
      res := Success(LookupAnswer(read.value, r.ident));
    }

    /** OnNext. The handle answering a list request is given the list held under the
        request's name; choosing the row within it is the node library's. */
    method Next(r: ListRequest, reply: Reply) returns (res: Result<Row, Error>)
      requires Valid()
      modifies this
      ensures Valid()
      ensures verb == old(verb) && edit == old(edit) && changes == old(changes)
      ensures r.target.Some? ==> read == old(read)
      ensures r.target.Some? && old(found) ==> res == Success(Row(Itself, r.key)) && log == old(log)
      ensures r.target.Some? && !old(found) ==>
                log == old(log) + [Call(WireRequest("OPTIONS", "", r.target.value, ""), reply)]
                && found == !reply.Failed?
                && res == (match ProbeVerdict(reply)
                           case Success(valid) => Success(if valid then Row(Itself, r.key) else Row(Absent, []))
                           case Failure(e) => Failure(e))
      ensures r.target.None? ==> found == old(found)
      ensures r.target.None? && old(edit).Some? ==>
                log == old(log) && read == old(read)
                && res == Success(Row(LookupAnswer(Object(changes.value), r.ident), r.key))
      ensures r.target.None? && old(edit).None? && old(read).Some? ==>
                log == old(log) && read == old(read) && res == Success(Row(LookupAnswer(read.value, r.ident), r.key))
      ensures r.target.None? && old(edit).None? && old(read).None? ==>
                log == old(log) + [Call(WireRequest("GET", params, r.path, ""), reply)]
                && (reply.Failed? ==> res == Failure(reply.error) && read.None?)
                && (!reply.Failed? ==> read == Some(GetResult(reply).value)
                                       && res == Success(Row(LookupAnswer(read.value, r.ident), r.key)))
    {
      if r.target.Some? {
        var valid, err := ValidNavigation(r.target.value, reply);
        if err.Some? {
          return Failure(err.value);
        }
        return Success(if valid then Row(Itself, r.key) else Row(Absent, []));
      }
      if edit.Some? {
        return Success(Row(LookupAnswer(Object(changes.value), r.ident), r.key));
      }
      var err := EnsureRead(r.path, reply);
      if err.Some? {
        return Failure(err.value);
      }
      res := Success(Row(LookupAnswer(read.value, r.ident), r.key));
    }

    /** OnField: navigation never sends anything; in edit mode the change buffer is read or
        written; otherwise the read handle answers. */
    method Field(r: FieldRequest, reply: Reply) returns (res: Result<Option<Value>, Error>)
      requires Valid()
      modifies this
      ensures Valid()
      ensures verb == old(verb) && edit == old(edit) && found == old(found)
      ensures r.target.Some? ==> res == Success(None) && unchanged(this)
      ensures r.target.None? && old(edit).Some? ==> log == old(log) && read == old(read)
      ensures r.target.None? && old(edit).Some? && r.write ==>
                res == Success(None) && changes == Some(old(changes).value[r.ident := r.value])
      ensures r.target.None? && old(edit).Some? && !r.write ==>
                res == Success(Member(Object(changes.value), r.ident)) && changes == old(changes)
      ensures r.target.None? && old(edit).None? ==> changes == old(changes)
      ensures r.target.None? && old(edit).None? && old(read).Some? ==>
                log == old(log) && read == old(read) && res == Success(Member(read.value, r.ident))
      ensures r.target.None? && old(edit).None? && old(read).None? ==>
                log == old(log) + [Call(WireRequest("GET", params, r.path, ""), reply)]
                && (reply.Failed? ==> res == Failure(reply.error) && read.None?)
                && (!reply.Failed? ==> read == Some(GetResult(reply).value)
                                       && res == Success(Member(read.value, r.ident)))
    {
      if r.target.Some? {
        return Success(None);
      }
      if edit.Some? {
        if r.write {
          changes := Some(changes.value[r.ident := r.value]);
          return Success(None);
        }
        return Success(Member(Object(changes.value), r.ident));
      }
      var err := EnsureRead(r.path, reply);
      if err.Some? {
        return Failure(err.value);
      }
      res := Success(Member(read.value, r.ident));
    }

    /** OnNotify: one subscription at the selection's path, with empty parameters; `streamError` is
        the error `clientStream` reports, if any. */
    method Notify(path: Path, streamError: Option<Error>) returns (err: Option<Error>)
      requires Valid()
      modifies this`log
      ensures Valid()
      ensures log == old(log) + [Subscribe("", path)]
      ensures err == streamError
    {
      ProbesAppend(log, Subscribe("", path));
      log := log + [Subscribe("", path)];
      err := streamError;
    }

    /** OnAction / `requestAction`: one POST carrying the (wrapped) input, and the (unwrapped)
        output. */
    method Action(path: Path, input: Option<Value>, reply: Reply) returns (res: Result<Option<Value>, Error>)
      requires Valid()
      modifies this`log
      ensures Valid()
      ensures log == old(log) + [Call(WireRequest("POST", "", path, ActionPayload(compliance, path.origin, input, encode)), reply)]
      ensures res == ActionResult(compliance, path.origin, reply)
    {
      var payload := ActionPayload(compliance, path.origin, input, encode);
      var x := Call(WireRequest("POST", "", path, payload), reply);
      ProbesAppend(log, x);
      log := log + [x];
      res := ActionResult(compliance, path.origin, reply);
    }

    /** OnEndEdit: below the edit root, or when deleting, nothing is sent; otherwise one request
        with the chosen verb carrying the change buffer. */
    method EndEdit(r: NodeRequest, reply: Reply) returns (err: Option<Error>)
      requires Valid()
      modifies this`log
      ensures Valid()
      ensures (!r.editRoot || r.delete) ==> err.None? && log == old(log)
      ensures r.editRoot && !r.delete ==>
                log == old(log) + [Call(WireRequest(verb, "", r.path, ChangesPayload(changes, encode)), reply)]
                && err == (if reply.Failed? then Some(reply.error) else None)
    {
      if !r.editRoot || r.delete {
        return None;
      }
      var sent := Request(verb, r.path, ChangesPayload(changes, encode), reply);
      err := if sent.Failure? then Some(sent.error) else None;
    }
  }

  // The request sequences of the driver's unit test, derived from the handlers' contracts
  // alone. Its schema node x is a container holding a container y and a leaf z, or a list, or a
  // notification, depending on the case.

  /** The path of the test's node x of the given kind in module m. */
  function TestPath(kind: MetaKind): Path
  {
    Path("m", ["x"], kind, "m")
  }

  function TestData(): Value
  {
    Object(map["y" := EmptyDocument, "z" := String("hi")])
  }

  /** The list test's data: a list x with one row keyed "hi". */
  function TestList(): Value
  {
    Object(map["x" := Array([Object(map["y" := String("hi")])])])
  }

  /** A read sends one GET at the selection's path and answers the child y from the fetched
      document; reading the leaf z afterwards sends nothing. */
  method ReplayRead(encode: Value -> string)
      returns (first: Result<Answer, Error>, second: Result<Option<Value>, Error>, ghost sent: seq<Exchange>)
    ensures sent == [Call(WireRequest("GET", "", TestPath(Container), ""), Body(TestData()))]
    ensures first == Success(Found(EmptyDocument)) && second == Success(Some(String("hi")))
  {
    var x := TestPath(Container);
    var n := new ClientNode("", Strict, encode);
    first := n.Child(ChildRequest(x, "y", Container, "m", None, false, false), Body(TestData()));
    second := n.Field(FieldRequest(x, "z", None, false, Null), NoContent);
    sent := n.log;
  }

  /** A list read sends one GET at the selection's path; the list under the requested name
      answers, with the request's key. */
  method ReplayList(encode: Value -> string) returns (row: Result<Row, Error>, ghost sent: seq<Exchange>)
    ensures sent == [Call(WireRequest("GET", "", TestPath(List), ""), Body(TestList()))]
    ensures row == Success(Row(Found(Array([Object(map["y" := String("hi")])])), [String("hi")]))
  {
    var x := TestPath(List);
    var n := new ClientNode("", Strict, encode);
    row := n.Next(ListRequest(x, "x", None, [String("hi")]), Body(TestList()));
    sent := n.log;
  }

  /** Navigation sends one OPTIONS at the target, and none once it succeeded; a delete sends one
      DELETE at the child's path. */
  method ReplayNavigationAndDelete(encode: Value -> string)
      returns (nav: Result<Answer, Error>, again: Result<Answer, Error>, deleted: Result<Answer, Error>,
               ghost probes: seq<Exchange>, ghost deletes: seq<Exchange>)
    ensures probes == [Call(WireRequest("OPTIONS", "", TestPath(Container).Child("y", Container, "m"), ""), NoContent)]
    ensures deletes == [Call(WireRequest("DELETE", "", TestPath(Container).Child("y", Container, "m"), ""), NoContent)]
    ensures nav == Success(Itself) && again == Success(Itself) && deleted == Success(Absent)
  {
    var x := TestPath(Container);
    var xy := x.Child("y", Container, "m");
    var n := new ClientNode("", Strict, encode);
    nav := n.Child(ChildRequest(x, "y", Container, "m", Some(xy), false, false), NoContent);
    again := n.Child(ChildRequest(x, "y", Container, "m", Some(xy), false, false), NoContent);
    probes := n.log;

    n := new ClientNode("", Strict, encode);
    deleted := n.Child(ChildRequest(x, "y", Container, "m", None, false, true), NoContent);
    deletes := n.log;
  }

  /** A subscription is opened once; an action sends one POST with its input wrapped under
      "m:input". */
  method ReplayNotifyAndAction(encode: Value -> string)
      returns (err: Option<Error>, out: Result<Option<Value>, Error>,
               ghost subscribed: seq<Exchange>, ghost posted: seq<Exchange>)
    ensures subscribed == [Subscribe("", TestPath(Notification))] && err.None?
    ensures posted == [Call(WireRequest("POST", "", Path("m", ["x"], Action, "m"),
                                        "{\"m:input\":" + encode(TestData()) + "}"), NoContent)]
    ensures out == Success(Option.None)
  {
    var x := TestPath(Notification);
    var n := new ClientNode("", Strict, encode);
    err := n.Notify(x, None);
    subscribed := n.log;

    n := new ClientNode("", Strict, encode);
    var action := Path("m", ["x"], Action, "m");
    out := n.Action(action, Some(TestData()), NoContent);
    assert "{\"" + "m" + ":input\":" == "{\"m:input\":";
    posted := n.log;
  }

  /** Editing x: the pre-fetch GET is the only request, then the new child y and the field z
      go to the change buffer. */
  method EditTestData(n: ClientNode) returns (begun: Option<Error>)
    requires n.Valid() && n.log == []
    modifies n
    ensures n.Valid() && begun.None?
    ensures n.log == [Call(WireRequest("GET", EditParams, TestPath(Container), ""), Body(TestData()))]
    ensures n.verb == "PUT"
    ensures n.changes == Some(map["y" := EmptyDocument, "z" := String("hi")])
  {
    var x := TestPath(Container);
    begun := n.BeginEdit(NodeRequest(x, true, false, false), Body(TestData()));
    var c := n.Child(ChildRequest(x, "y", Container, "m", None, true, false), NoContent);
    var f := n.Field(FieldRequest(x, "z", None, true, String("hi")), NoContent);
  }

  /** An edit pre-fetches once, sends nothing while the new child and the field are written,
      and ends with one PUT carrying the change buffer. */
  method ReplayEdit(encode: Value -> string)
      returns (begun: Option<Error>, ended: Option<Error>, ghost sent: seq<Exchange>)
    ensures sent == [Call(WireRequest("GET", EditParams, TestPath(Container), ""), Body(TestData())),
                     Call(WireRequest("PUT", "", TestPath(Container), encode(TestData())), NoContent)]
    ensures begun.None? && ended.None?
  {
    var n := new ClientNode("", Strict, encode);
    begun := EditTestData(n);
    assert ChangesPayload(n.changes, n.encode) == encode(TestData());
    ended := n.EndEdit(NodeRequest(TestPath(Container), true, false, false), NoContent);
    sent := n.log;
  }
}
