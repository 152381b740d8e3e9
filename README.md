# NetworkNarcotic topology synthesis in Dafny

NetworkNarcotic (`src/nn.py`) reads a declarative description of a network
and writes a GNS3 project. The description lists router clusters, each with a
tag, an `amount`, a `clustermode`, `cables` and a `connectedto` list, plus an
optional top-level `connections` list. This project models and proves the part
of `src/nn.py` that does the synthesis:

- **Expansion.** Every router cluster becomes `amount` devices named
  `<tag>-id1` .. `<tag>-id<amount>`. Each device gets a fresh id and a port
  cursor starting at 0. Its id is registered under the cluster's tag in the
  cluster table (`arrayDesiredRouterClusters`).
- **Internal wiring.** When `amount > 1`, the devices found under the tag are
  cabled by the cluster's `clustermode`:
  - `full`: every unordered pair of devices;
  - `loop`: a ring;
  - `line`: the ring without its closing edge;
  - `hubspoke`: the first device to every other device.

  Each cable appears `cables` times.
- **Port allocation.** `writeClusterLinks` turns each desired cable into a link
  with a fresh id. `addNodeToLink` hands each end the next port of its device,
  on adapter 1. The run aborts when a device's cursor is above 16. As written,
  ports 0 .. 16 can be handed out, which is seventeen ports per device.
- **Connection grouping.** The entries of every cluster's `connectedto` list
  are resolved (`standardizeConnection`):
  - a bare tag becomes the first declared connection with that tag;
  - an unknown tag aborts;
  - an inline definition is taken as it is.

  A cluster naming one connection tag twice aborts. For every `single`
  connection, the cluster's first device joins that tag's group.

Every abort of the source (`exit()` after a message) is an `Err` of a
`Result`. A Python `TypeError` from iterating an absent `connections` list is
also an `Err`, namely `ConnectionsMissing`. The id supply `uuid4()` is a
counter `nextId`. The properties proved rely only on its ids being fresh,
while the contracts name the counter's values.

The system's documentation describes behaviour that `src/nn.py` does not
implement. The model follows the code:

- **No inter-cluster links.** The application loop of `src/nn.py:346-357`
  appends no link. A run therefore emits only the clusters' internal links.
  For example, a `line` cluster of two devices plus a one-device cluster joined
  by a `single` connection yields one link, not two.
- **No switch mediation or three-party check.** The code has no switch
  mediation and no "a switch cluster is required" error. Three clusters
  sharing one `single` connection simply form a group of three devices.
- **No shift, gateway or switch clusters.** The code implements neither shift
  rotation nor gateways nor switch clusters.
- **`seek` and `spread`.** Like `full` and `parallel`, these connection modes
  are accepted and ignored.

## Modules

- `common.dfy` (`Common`): input records, output records, and the error reasons.
- `naming.dfy` (`Naming`): device names and the decimal rendering of ordinals.
- `buckets.dfy` (`Buckets`): the `[tag, [items]]` lists shared by the cluster
  table and the connection groups.
- `wiring.dfy` (`Wiring`): the four cabling patterns, as functions and as the
  source's loops.
- `ports.dfy` (`Ports`): port cursors, and which ports a list of desired links
  receives.
- `topology.dfy` (`Topology`): the class `Builder`. Its state is the table,
  the cursors, the `nodes` and `links` lists, and the id supply.
- `connections.dfy` (`Connections`): `standardizeConnection` and the grouping
  pass.
- `synthesis.dfy` (`Synthesis`): the whole run.

## Model

| member | source | states |
|---|---|---|
| Naming.DeviceName | src/nn.py:215 | a device's name is the cluster tag, then `-id`, then the decimal rendering of its ordinal |
| Naming.Decimal | src/nn.py:215 | `str(n)` is a non-empty string of decimal digits with no leading zero |
| Naming.DecimalRoundTrip | src/nn.py:215 | reading the decimal rendering of n back gives n |
| Naming.DeviceNameInjective | src/nn.py:215 | two devices of one cluster with different ordinals never get the same name |
| Buckets.Position | src/nn.py:222-225 | the index found is the first bucket carrying the tag, or the length when no bucket does |
| Buckets.FindAppend | src/nn.py:221-232 | adding an id under a tag extends what a search for that tag finds by exactly that id and leaves every other search unchanged |
| Buckets.FindExtend | src/nn.py:209-232 | adding several ids under a tag extends what a search for that tag finds by exactly those ids, in order; other tags are unaffected |
| Buckets.InTableAppend | src/nn.py:227-232 | after adding x, the table holds exactly the ids it held before plus x |
| Buckets.TagsUniqueAppend | src/nn.py:227-232 | the known-flag check keeps one bucket per tag |
| Buckets.ItemsDistinctAppend | src/nn.py:227-232 | adding an id not yet in the table keeps every id in the table distinct |
| Buckets.TableOkAppend | src/nn.py:221-232 | adding a fresh device keeps the cluster table well formed, with the device recorded at its slot |
| Buckets.FindDistinct | src/nn.py:242-250 | the devices found under a tag of a table without repeated ids are distinct |
| Buckets.TableFind | src/nn.py:242-243 | every device a search of a well-formed table finds is a registered device |
| Buckets.FindItems | src/nn.py:242-243 | the search loop returns the items of the first bucket with the tag, or nothing when the tag is unknown |
| Buckets.AddToBucket | src/nn.py:221-232 | the known-flag loop then append-or-extend builds exactly the table `Append` describes |
| Wiring.AppendCables | src/nn.py:248-249 | the cables loop appends exactly `cables` copies of the pair |
| Wiring.FullLinks | src/nn.py:241-250 | the nested `full` loop builds exactly the rows of pairs (earlier device, later device) |
| Wiring.ReverseNotYetListed | src/nn.py:247 | while device i meets a later device j, the reverse pair is not listed yet, so the membership test never skips a needed cable |
| Wiring.LoopLinks | src/nn.py:256-267 | the `loop` counter loop builds exactly the ring of cables |
| Wiring.LineLinks | src/nn.py:273-283 | the `line` loop, whose counter stops at n − 1, builds exactly the ring without its closing edge |
| Wiring.HubSpokeLinks | src/nn.py:289-297 | the `hubspoke` loop builds exactly the bundles from the first device to each other device |
| Wiring.DesiredPairs | src/nn.py:236-300 | the clustermode dispatch yields the desired-link list of the cluster's pattern |
| Wiring.PatternCount | src/nn.py:236-300 | a pattern over n devices lays n·(n−1)/2·c cables (full), n·c (loop) or (n−1)·c (line, hubspoke) |
| Wiring.TriangleClosedForm | src/nn.py:244-249 | the number of unordered pairs of n devices is n·(n−1)/2 |
| Wiring.FullPairsExactly | src/nn.py:244-249 | `full` cables a pair if and only if its first device comes before its second in the cluster |
| Wiring.FullNoReverse | src/nn.py:247 | over distinct devices `full` never lists a pair in both directions |
| Wiring.LoopPairsExactly | src/nn.py:261-266 | `loop` cables a pair if and only if it is some device and its successor modulo n |
| Wiring.LoopOfTwo | src/nn.py:263-265 | a two-device `loop` lays cables both ways between the two devices |
| Wiring.LinePairsExactly | src/nn.py:278-281 | `line` cables a pair if and only if it is some device and the next one, with no wrap-around |
| Wiring.LineHasNoWrap | src/nn.py:279 | over distinct devices `line` never cables the last device back to the first |
| Wiring.LoopIsLinePlusWrap | src/nn.py:254-283 | `loop` is `line` followed by the closing bundle from the last device to the first |
| Wiring.HubSpokePairsExactly | src/nn.py:290-296 | `hubspoke` cables a pair if and only if it runs from the first device to another device of the cluster |
| Wiring.PatternShape | src/nn.py:236-300 | over two or more distinct devices every pattern cables two different devices of the cluster |
| Wiring.PatternWithin | src/nn.py:236-300 | every pattern cables only devices of the cluster |
| Ports.UseCountMonotone | src/nn.py:81-85 | the uses of a device by a prefix of the desired links never exceed its uses by the whole list |
| Ports.ServedStep | src/nn.py:84-85 | writing one more desired link advances its first device's cursor, then its second's |
| Ports.PairOverflow | src/nn.py:72-74 | a link that cannot get both its ports shows that the list does not fit into the devices' ports |
| Ports.PairFits | src/nn.py:72-77 | when the list fits, every link finds both its ports free |
| Ports.ServedFits | src/nn.py:72-77 | cursors that end at most one past the limit show that the list fits |
| Ports.PairLinkInRange | src/nn.py:76 | a link whose two ports were free uses adapter 1 and ports 0 .. 16 |
| Ports.ExpectedLinksInRange | src/nn.py:72-86 | when a list fits, every link written for it has adapter 1 and ports 0 .. 16 on both ends |
| Ports.BumpOk | src/nn.py:77 | handing out a free port keeps every cursor at most one past the limit |
| Ports.CursorOf | src/nn.py:76-77 | a registered device has a cursor; its endpoint uses that port and handing it out advances only that cursor |
| Ports.CursorsAdd | src/nn.py:216-228 | a new device's id is not yet taken, and giving it cursor 0 keeps the cursor table well formed |
| Ports.GrownStep | src/nn.py:209-232 | each expanded device adds exactly one cursor, set to 0, and changes no other |
| Ports.PatternLinkShape | src/nn.py:84-85 | a pattern link has two ends, on two different devices when the cluster has two or more |
| Ports.PatternLinksWired | src/nn.py:80-86 | a fitting pattern appends only links with two ends on adapter 1, ports up to 16, on two different devices, so a list of such links stays one |
| Ports.Opened | src/nn.py:216-228 | the cursor table after expansion has a cursor for exactly the old devices and the new ids |
| Ports.GrownIs | src/nn.py:209-232 | a cursor table grown device by device is the old table plus cursor 0 for each new id |
| Topology.AfterClusterGrows | src/nn.py:208-300 | one cluster pass adds exactly its new ids under its tag, leaves every other tag's devices alone, opens a cursor for each new id, and advances the id supply by at least `amount` |
| Topology.ExtendRangeSnoc | src/nn.py:208-234 | registering one more device extends the cluster table by one more id |
| Topology.ClusterNodesSnoc | src/nn.py:234 | expanding one more device appends its node record |
| Topology.SlotOf | src/nn.py:70-71 | the inner search returns the first slot holding the device, or the length when none does |
| Topology.Builder.constructor | src/nn.py:165-170 | an empty topology and cluster table, all invariants holding |
| Topology.Builder.FreshId | src/nn.py:216 | a new id is the current supply value; the supply advances by one; the table and cursor invariants keep holding |
| Topology.Builder.AddNodeToLink | src/nn.py:68-78 | it succeeds if and only if the device's cursor is at most 16; on success it appends the endpoint (adapter 1, the cursor's port) and advances that cursor only; on failure no cursor changes; the table and cursor invariants keep holding |
| Topology.Builder.WriteLink | src/nn.py:81-86 | one link succeeds if and only if both its ports are free; on success it appends the link with a fresh id and ports on both ends |
| Topology.Builder.WriteClusterLinks | src/nn.py:80-86 | writing succeeds if and only if the list fits into the devices' ports; the links appended are those the cursors dictate, with consecutive fresh ids, and each cursor rises by its device's uses |
| Topology.Builder.AddDevice | src/nn.py:211-234 | one expanded device: a fresh id, its name, cursor 0, registered under the tag and appended to the nodes |
| Topology.Builder.ExpandCluster | src/nn.py:209-234 | `amount` devices named `<tag>-id1` .. `<tag>-id<amount>` with consecutive fresh ids, appended to the nodes and under the tag, each with cursor 0; other cursors unchanged |
| Topology.Builder.WireCluster | src/nn.py:236-300 | nothing for a single device; otherwise it succeeds if and only if the pattern fits the ports, and appends exactly the pattern's links, each well wired between different devices |
| Topology.Builder.AddCluster | src/nn.py:208-300 | expansion then wiring; it succeeds if and only if the cluster has at most one device or its pattern fits the ports after expansion; on success the table, cursors and id supply are `AfterCluster` of the old ones and all links stay well wired between different devices |
| Connections.FirstTagged | src/nn.py:92-96 | the index found is the first declaration carrying the tag, or the length |
| Connections.Resolve | src/nn.py:88-101 | an inline entry is kept; a bare tag resolves if and only if some declaration has that tag, to a declaration with that tag; otherwise the unknown-connection error of the owning cluster; with no `connections` list, a missing-list error |
| Connections.ResolveFirst | src/nn.py:92-96 | a bare tag resolves to the first declaration with that tag |
| Connections.StandardizeConnection | src/nn.py:88-101 | the found-flag loop resolves exactly as `Resolve` describes |
| Connections.Scan | src/nn.py:307-338 | one cluster's pass never fails for lack of ports, fails for a missing `connections` list only when there is none, and leaves the groups non-empty exactly when they were or some entry resolves to a `single` connection |
| Connections.ScanOkIff | src/nn.py:307-315 | one cluster's pass succeeds if and only if its entries all resolve, to pairwise different tags not already seen |
| Connections.ScanCollects | src/nn.py:317-336 | one cluster's pass adds its first device, at the end, to exactly the groups it joins through a `single` entry |
| Connections.SingleMentions | src/nn.py:315-318 | an entry joining a `single` group also lists that group's tag |
| Connections.Grouping | src/nn.py:303-344 | grouping never fails for lack of ports, fails for a missing `connections` list only when there is none, and yields some group exactly when some cluster has an entry resolving to a `single` connection |
| Connections.GroupingOkIff | src/nn.py:303-315 | grouping succeeds if and only if every cluster's entries resolve, each cluster naming every tag at most once |
| Connections.GroupingCollects | src/nn.py:303-344 | each group holds, in declaration order, the first device of every cluster with an entry resolving to a `single` connection of that tag |
| Connections.Listed | src/nn.py:310-311 | the duplicate search answers true if and only if the tag is already listed |
| Connections.GroupConnections | src/nn.py:303-344 | the nested grouping loops compute exactly the grouping `Grouping` defines |
| Synthesis.NodeNamesStep | src/nn.py:215-234 | expanding a cluster appends its devices' names to the node list's names |
| Synthesis.NamesStep | src/nn.py:208-215 | the names of the first i + 1 clusters are those of the first i followed by cluster i's |
| Synthesis.ExtendExpanded | src/nn.py:221-232 | after cluster i is expanded, every cluster up to i has devices in the table |
| Synthesis.Build | src/nn.py:208-300 | it succeeds if and only if every cluster's pattern fits the ports left by the clusters before it; on success every cluster has devices in the table, the nodes carry the expansion's names in order, and every link has two ends on adapter 1, ports up to 16, on two different devices; the only abort is a lack of ports |
| Synthesis.Synthesize | src/nn.py:208-349 | it succeeds if and only if every pattern fits, every cluster's entries resolve to pairwise different tags, and a `connections` list exists whenever some cluster joins a `single` connection; it aborts for lack of ports exactly when some pattern does not fit; a missing-list abort happens only without a `connections` list; on success the names and wiring of Build hold |

## Left out

- Input handling (`src/nn.py:1-154`) is not part of this model:
  - command-line arguments;
  - reading the YAML file;
  - schema validation.

  The validated input is given as records. The ranges the schema enforces on
  `amount` and `cables` are the precondition `ValidRouter`.
- Writing the GNS3 project file and the image constants are not part of this model.
- The node and link scaffold fields are not modelled:
  - `compute_id`, `node_type`, `symbol` and the router `properties`, including `dynamips_id`, which `uuid4().int` draws;
  - `filters`, `link_style` and `suspend`.
- Coordinates are not modelled. `tupleCalculateCoordinates` always returns `(0, 0)`.
- Console output is not modelled:
  - the debug `print` at `src/nn.py:262`;
  - the abort messages (an abort is only its `Error` reason).
- `uuid4()` is a counter shared by devices and links. The string form of the
  ids and their randomness are not modelled.
- The application loop of `src/nn.py:346-357` creates nothing, and the model
  emits nothing for it. Only its `TypeError` on an absent `connections` list is
  modelled, as `ConnectionsMissing`.
- The connection modes `full`, `seek`, `parallel` and `spread` do nothing in
  the source. The model records their tags for the duplicate check and nothing
  else.
- Fields the synthesis never reads are not modelled:
  - `connectionshift`, `routing`, `gateway`, `ipclass`, `ipsummary`;
  - `shiftable` and `switches`.
- Synthesis.Build: states only that the run succeeds exactly when every
  pattern fits (`RunFits`), that the only abort is a lack of ports, and, on
  success, that every cluster's tag has devices in the returned table, that
  the nodes carry the expansion's names in order and that every link is well
  wired. The returned table's exact contents, the node ids, the link list and
  its ids are not stated for the whole run. Stating them (for example the
  table as `After(routers, |routers|).clusters`) puts the whole chain of
  cluster passes into one proof, which then exceeds the verifier's resource
  limit. They are stated per cluster instead. Topology.Builder.AddCluster
  gives the nodes with their ids and the table, cursors and id supply as
  `AfterCluster`. Topology.Builder.WireCluster gives the exact links.
- Synthesis.Build: does not state that node ids and link ids are pairwise distinct.
- Topology.Builder.AddCluster: states the nodes, the table, the cursors and the
  id supply, and that links stay well wired. The exact links are stated by
  Topology.Builder.WireCluster, which it calls. Restating them in terms of the
  old snapshot makes Synthesis.Build exceed the resource limit.
- Synthesis.Synthesize: states the success and failure conditions of grouping
  but does not return the groups. The groups themselves are described by
  Connections.GroupingCollects.
- Synthesis.Synthesize: on success returns Build's graph. Like Build, it states
  only the names and the wiring shape of that graph; the node ids and the link
  list are not stated for the whole run.
- Connection groups hold the device id. The source stores the device's
  `[node_id, cursor]` record, which aliases the cluster table's entry
  (`src/nn.py:328`, `332`, `336`). Nothing reads the groups, so the difference
  is not observable.
