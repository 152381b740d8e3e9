/** Shared vocabulary of the NetworkNarcotic topology synthesis (src/nn.py):
    the validated input records, the failure reasons of a run, and the
    records the synthesis emits. */
module Common {

  /** Identity of a device or a link. The source draws these from uuid4();
      the model only relies on them being fresh and pairwise distinct. */
  type Id = nat

  datatype Option<T> = None | Some(value: T)

  /** Every abort of the source happens before the output file is opened,
      so a run either yields its value or one of these reasons. */
  datatype Result<T> = Ok(value: T) | Err(error: Error)

  datatype Error =
    | CapacityExceeded                    // "exceeds the 16-port limit ... Aborting."
    | UnknownConnection(cluster: string)  // "... referring to a non-existent connection"
    | DuplicateConnection(cluster: string) // "... same connection more than once"
    | ConnectionsMissing                  // iterating an absent `connections` list (a TypeError)

  /** addNodeToLink aborts when a cursor is ABOVE this value, so ports
      0 .. PortLimit (seventeen of them) can be handed out. */
  const PortLimit: nat := 16

  /** The `clustermode` of a router cluster. */
  datatype ClusterMode = Full | Loop | Line | HubSpoke

  /** The `connectionmode` of a connection; `FullMesh` is the source's "full". */
  datatype ConnectionMode = Single | FullMesh | Seek | Parallel | Spread

  /** A validated connection definition (`shiftable`, `switches`, `ipclass`
      and `ipsummary` are validated by the source but never read). */
  datatype ConnectionSpec = ConnectionSpec(tag: string, cables: nat, mode: ConnectionMode)

  /** One entry of a cluster's `connectedto` list: a bare tag or an inline definition. */
  datatype ConnRef = Reference(name: string) | Inline(spec: ConnectionSpec)

  /** A validated router cluster (`connectionshift`, `routing`, `gateway`,
      `ipclass` and `ipsummary` are never read by the synthesis). */
  datatype RouterSpec = RouterSpec(
    tag: string,
    amount: nat,
    mode: ClusterMode,
    cables: nat,
    connectedTo: seq<ConnRef>)

  /** The ranges the input schema enforces before synthesis starts. */
  predicate ValidRouter(r: RouterSpec) {
    1 <= r.amount <= 255 && 1 <= r.cables <= 3
  }

  /** A device record of the topology: display name and node_id. */
  datatype Node = Node(name: string, id: Id)

  /** One end of a link: {adapter_number, port_number, node_id}. */
  datatype Endpoint = Endpoint(adapter: nat, port: nat, node: Id)

  /** A link record: link_id and its `nodes` list of endpoints. */
  datatype Link = Link(id: Id, ends: seq<Endpoint>)

  /** The exported topology: its `nodes` and `links` lists. */
  datatype Graph = Graph(nodes: seq<Node>, links: seq<Link>)

  predicate Distinct(s: seq<Id>) {
    forall a, b :: 0 <= a < b < |s| ==> s[a] != s[b]
  }
}
