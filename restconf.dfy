/** Types shared by the RESTCONF client: schema paths, compliance settings, media types and errors. */
module Restconf {

  /** The kind of schema definition a path ends at. */
  datatype MetaKind = Container | List | Leaf | Action | Notification

  /** A `node.Path`: the root module's name, the steps below it (each step already rendered with its
      list keys), and the kind and original (defining) module of the target definition. */
  datatype Path = Path(root: string, steps: seq<string>, kind: MetaKind, origin: string)
  {
    /** `p.StringNoModule()`: the steps joined by '/'. */
    function StringNoModule(): string
    {
      Join(steps)
    }

    /** `meta.IsAction(p.Meta)`: the target is an rpc or action. */
    predicate IsAction()
    {
      kind == Action
    }

    /** `p.Meta.Parent() == RootModule(p.Meta)`: the target is declared directly in the module. */
    predicate IsRootLevel()
    {
      |steps| == 1
    }

    /** `&node.Path{Parent: p, Meta: m}`: the path one step further down. */
    function Child(ident: string, childKind: MetaKind, childOrigin: string): (c: Path)
      ensures c.root == root && |c.steps| == |steps| + 1 && c.steps[..|steps|] == steps
    {
      Path(root, steps + [ident], childKind, childOrigin)
    }
  }

  function Join(parts: seq<string>): string
  {
    if |parts| == 0 then ""
    else if |parts| == 1 then parts[0]
    else Join(parts[..|parts| - 1]) + "/" + parts[|parts| - 1]
  }

  /** `restconf.ComplianceOptions`, reduced to the three switches this client consults.
      It is one immutable configuration value handed to every component. */
  datatype ComplianceOptions = ComplianceOptions(
    allowRpcUnderData: bool,
    disableNotificationWrapper: bool,
    disableActionWrapper: bool)

  /** Full RESTCONF compliance: every switch off. */
  const Strict := ComplianceOptions(false, false, false)

  /** The simplified preset the client compares its options against. */
  const Simplified := ComplianceOptions(true, true, true)

  /** Media types (section 11.3.2 of RFC 8040 for yang-data+json; server-sent events for streams). */
  const YangDataJsonMimeType := "application/yang-data+json"
  const PlainJsonMimeType := "application/json"
  const TextStreamMimeType := "text/event-stream"

  /** Query parameter marking a simplified-compliance subscription. */
  const SimplifiedComplianceParam := "simplified"

  /** Errors surfacing from the client. */
  datatype Error =
    | Status(code: nat, body: string)   // a non-success HTTP status, "(code) body"
    | NotFound                          // the `fc.NotFoundError` sentinel
    | Transport(reason: string)         // the HTTP client failed (connection, TLS, ...)
    | BadUrl(reason: string)            // `url.Parse` rejected an address
    | Malformed(reason: string)         // a payload that does not decode or has the wrong shape
    | Protocol(message: string)         // a missing RPC output envelope
    | Unauthorized                      // the `fc.UnauthorizedError` sentinel
  {
    /** `errors.Is(err, fc.NotFoundError)` once a 404 status wraps the sentinel. */
    predicate IsNotFound()
    {
      NotFound? || (Status? && code == 404)
    }
  }
}
