# Workspace digital twin — a verified model

The workspace is a digital twin of a Dorna lab cell. It has three parts.

- **Components.** A robot core (rail, arm, six fixture plates), microplates and other fixtures are built from a configuration. Each one declares solids that carry named anchors. Solids are attached to one another through those anchors.
- **Producer.** The producer (`Display`) walks the attachment forest to compute world poses. It streams them to a hub over socket.io. At most one frame is ever in flight, and the hub's ack releases the next one.
- **Hub.** The hub (`server.py`) merges the frames into a last-known world state field by field. It replays that state to new viewers. When it sees an object with no mesh, it asks the producers for a full snapshot.

This project models that core in Dafny and proves its contracts. Modules:

- `Wrappers`, `Json`: Option/Result, and decoded JSON/YAML values with Python truthiness, `dict.get` and `dict.get(k, default)`.
- `Naming`: the `f"{comp}_{solid}"` keys. Dictionaries built by assignment in a loop, where a later equal key overwrites an earlier one.
- `Hub` (`workspace/server.py`): the merge as a function, `class Server` with its handlers returning the events they emit, and the self-healing trigger.
- `Streaming` (`workspace/workspace/display.py`):
  - the backpressure channel as a pure specification (`Link`, `Emit`, `Ack`, ...);
  - `class Display`, whose methods are proved against that specification;
  - the fps clamp, the deadline step, and the two frame builders.
- `PoseGraph` (`Workspace.compute_world_poses`): the graph is an arena of solids with parent/children links, over an abstract transform type with `compose` and `eye`.
  - Step 1: every `update_pose` runs.
  - Step 2: the roots loop.
  - Step 3: the explicit-stack traversal.
  - Step 4: the `comp_solid` naming loop.
- `Workspace` (`Workspace.__init__`): the `core` check, the build loop through the factory, and the attach loop. It is proved against fold functions.
- `Factory` (`components/factory.py`): the registry as a class, and `create_component` with its error cases.
- `Anchors`: anchor tables and the row/column grid builder shared by the plate and the microplate. It also holds `Store`, which models a solid assembly as an insertion-ordered dict.
- `Core` (`components/core.py`): the settings and their defaults, the 205-name plate anchor table, the `core500` placement, the internal attachment chain, and the joint-to-offset mapping of `update_pose`.
- `Microplate` (`components/microplate.py`): the 97-name well table.

Modelling decisions (the model follows the code):

- The hub keeps no producer and viewer sets. Every emit without `room` goes to every client (`Everyone`).
- Mesh information is a `meshUrl` or a `mesh` field.
- The producer's `connect` and `disconnect` handlers set and clear only `_connected_evt`. The gate of `_emit_update` reads `sio.connected`, the socket.io client's own flag, which only the client changes (`Display.TransportChanged`). The `connect` handler does not re-arm the channel. `Display.OnConnect` models it as written (`Streaming.Connected`), for either value of the flag. `Display.OnConnectRearmed` models the correction described under Findings (`Streaming.ConnectRearmed`).
- `world_state.get(name) is None` also holds for a stored JSON null (`LooksNew`).
- The microplate loop runs over columns 1..12 (`range(1, 13)`), whatever its comment says.
- Clock values are exact `real`s rather than integer ticks. The deadline rule is the same.

## Model

| member | source | states |
|---|---|---|
| Naming.Key | workspace/workspace/workspace.py:79 | the key is the component name, `_`, then the solid name, in that order |
| Naming.KeysCollide | workspace/workspace/workspace.py:79 | two different (component, solid) pairs can share one key |
| Naming.Collect | workspace/workspace/workspace.py:76-81 | the dictionary built by the loop has exactly the keys of the assigned pairs |
| Naming.CollectLastWins | workspace/workspace/workspace.py:78-81 | the value under a key is the one of the last pair with that key |
| Naming.CollectDistinct | workspace/workspace/workspace.py:76-81 | without key collisions, every pair survives unchanged |
| Hub.BaseFields | workspace/server.py:39-41 | the fields `prev` starts from: the stored dict, or `{}` for a missing or non-dict entry |
| Hub.MergeEntry | workspace/server.py:39-44 | the stored entry is always a dict. A dict spec overrides exactly its own fields, and every other field survives. A non-dict spec keeps the old dict or creates `{}` |
| Hub.Merge | workspace/server.py:36-44 | the keys are the old keys plus the payload keys. Entries outside the payload are unchanged. Payload entries are merged per `MergeEntry` |
| Hub.UpdateEvents | workspace/server.py:69-76 | `scene_update` with the unmodified payload goes first, then one `request_snapshot` exactly when needed |
| Hub.Server.constructor | workspace/server.py:34 | the world state starts empty |
| Hub.Server.MergeIntoState | workspace/server.py:36-44 | the key-by-key in-place loop leaves `Merge(old state, payload)` |
| Hub.Server.UpstreamUpdate | workspace/server.py:54-76 | the trigger is decided on the state before the merge. The state becomes the merge. The events are `UpdateEvents`, and the ack is "ok" |
| Hub.Server.Connect | workspace/server.py:79-86 | with any mesh-bearing entry, the whole state is replayed to that sid only. Otherwise exactly one `request_snapshot` is broadcast |
| Hub.Server.RequestSnapshotFrom | workspace/server.py:89-91 | `request_snapshot` is always broadcast, whatever the state |
| Hub.Server.Disconnect | workspace/server.py:94-95 | no event; the state is not touched |
| Hub.MergeKeepsObjects | workspace/server.py:36-44 | "every entry is a dict" is preserved by merging |
| Hub.MergeIdempotent | workspace/server.py:36-44 | merging the same payload twice equals merging it once |
| Hub.MergeKeepsMesh | workspace/server.py:39-44 | a pose-only update keeps a stored `meshUrl` |
| Hub.LooksNewIsAbsent | workspace/server.py:63-64 | under the dict invariant, `get(name) is None` iff the key is absent |
| Hub.TriggerVanishesAfterMerge | workspace/server.py:59-69 | after the merge the trigger can never fire, so it must be decided before |
| Hub.AtMostOneSnapshotRequest | workspace/server.py:62-74 | however many keys trigger it, an update emits one `request_snapshot` if needed and none otherwise |
| Hub.ReplayScenario | workspace/server.py:54-86 | a mesh descriptor pushed by a producer is replayed verbatim to a later viewer only |
| Hub.SelfHealingScenario | workspace/server.py:59-74 | a pose-only unseen key makes the hub broadcast `request_snapshot` after the update |
| Hub.EmptyConnectScenario | workspace/server.py:82-86 | connecting to an empty hub asks for a snapshot and replays nothing |
| Streaming.Emit | workspace/workspace/display.py:93-110 | at most one frame is sent. A frame is sent only when none is in flight, and then one is in flight. Nothing already sent changes |
| Streaming.Ack | workspace/workspace/display.py:112-118 | the pending slot is emptied. With nothing pending, the channel goes idle and sends nothing |
| Streaming.Disconnected | workspace/workspace/display.py:96 | the client dropping its transport clears `sio.connected` and nothing else; in-flight and pending survive |
| Streaming.Reconnected | workspace/workspace/display.py:96 | the client raising its transport sets `sio.connected` and nothing else |
| Streaming.Connected | workspace/workspace/display.py:23-27 | the connect handler as written leaves `sio.connected` as it is. With the flag down or an empty snapshot nothing changes. With the flag up, on an idle channel a non-empty snapshot is sent and becomes in flight; with a frame in flight nothing is sent, and a non-empty snapshot replaces the pending slot |
| Streaming.EmitCoherent | workspace/workspace/display.py:105-110 | a pending frame exists only behind a frame in flight and is never empty; emitting keeps this |
| Streaming.AckCoherent | workspace/workspace/display.py:112-118 | the ack keeps the same invariant |
| Streaming.IdleEmitSends | workspace/workspace/display.py:105-122 | a frame submitted while idle and connected is sent, and the channel becomes busy |
| Streaming.DroppedEmitChangesNothing | workspace/workspace/display.py:94-97 | an empty payload or a disconnected socket changes nothing |
| Streaming.BurstWhileInFlight | workspace/workspace/display.py:106-109 | frames produced while one is in flight are not sent. The slot holds the latest non-empty one |
| Streaming.LatestFrameSentOnAck | workspace/workspace/display.py:112-118 | the ack that ends a burst sends exactly the burst's latest frame |
| Streaming.ReconnectStallsAfterLostAck | workspace/workspace/display.py:23-31 | as written, after a lost ack and a reconnect, neither the snapshot nor any later frame is ever sent, whether the handler runs before or after the client sets `sio.connected` |
| Streaming.ConnectRearmed | workspace/workspace/display.py:23-31 | the corrected handler keeps what was sent and leaves `sio.connected` as it is; with the flag down it only clears the in-flight state |
| Streaming.RearmedReconnectSendsSnapshot | workspace/workspace/display.py:23-27 | with the correction, the snapshot is sent whenever the handler runs with `sio.connected` up, whatever was in flight, and the channel is in flight exactly when it was sent |
| Streaming.Truncate | workspace/workspace/display.py:9 | Python `int()` on a float: floor for non-negatives, never positive for negatives |
| Streaming.ClampFps | workspace/workspace/display.py:45-49 | fps is at least 1. It is the integer part of the request when that is at least 1, else 1 |
| Streaming.DeadlineStep | workspace/workspace/display.py:135-143 | on schedule, the deadline advances by exactly one period. More than one period behind, it restarts at now + period with delay = period. It is never more than one period behind |
| Streaming.PoseFrame | workspace/workspace/display.py:83-90 | the frame has exactly the keys of the poses (none when the pose computation raised) |
| Streaming.PoseFrameIsPoseOnly | workspace/workspace/display.py:90 | each frame entry holds exactly the pose and `visible = true`, never mesh info |
| Streaming.Row | workspace/workspace/display.py:68-76 | one `comp_solid` pair per solid of a component, in order |
| Streaming.BuildSnapshot | workspace/workspace/display.py:56-81 | the nested loop leaves the last-wins dictionary of all `(comp_solid, entry)` pairs |
| Streaming.SnapshotEntryShape | workspace/workspace/display.py:69-76 | each entry belongs to a solid: `meshUrl = /static/CAD/<type>.glb`, the pose or the fallback, and `visible = true`. So it always has mesh info |
| Streaming.SnapshotCoversAllSolids | workspace/workspace/display.py:66-72 | every solid of every component has its `comp_solid` key |
| Streaming.Display.constructor | workspace/workspace/display.py:6-10 | fps is clamped; the channel starts idle and unconnected |
| Streaming.Display.SetFps | workspace/workspace/display.py:45-49 | only fps and the period change, and fps is clamped |
| Streaming.Display.EmitUpdate | workspace/workspace/display.py:93-122 | the new channel state is `Emit(old state, payload)`, and the rate is unchanged |
| Streaming.Display.AckCallback | workspace/workspace/display.py:112-118 | the new channel state is `Ack(old state)` |
| Streaming.Display.OnConnect | workspace/workspace/display.py:23-27 | the handler sets `_connected_evt`, and the new channel state is `Connected(old state, snapshot)`, the handler as written |
| Streaming.Display.OnConnectRearmed | workspace/workspace/display.py:23-31 | the corrected handler sets `_connected_evt`, and the new channel state is `ConnectRearmed(old state, snapshot)` |
| Streaming.Display.OnDisconnect | workspace/workspace/display.py:29-31 | the handler clears `_connected_evt` and leaves the channel state, `sio.connected` included, unchanged |
| Streaming.Display.TransportChanged | workspace/workspace/display.py:96 | the client's transport change is `Reconnected` or `Disconnected` of the old channel state and leaves `_connected_evt` alone |
| Streaming.Display.OnRequestSnapshot | workspace/workspace/display.py:33-35 | the snapshot goes through `Emit` |
| Streaming.Display.Run | workspace/workspace/display.py:124-145 | the channel follows emit-then-maybe-ack per iteration (`Steps`). The final deadline and the sleeps taken are exactly `Schedule(start, period, clock)` |
| Streaming.Schedule | workspace/workspace/display.py:135-143 | the deadline steps over the clock reads in order, keeping each positive delay as a sleep. The deadline is never more than a period behind the last read, there is at most one sleep per read, and every sleep is positive |
| Streaming.Pace | workspace/workspace/display.py:135-143 | one iteration's timer step extends the schedule by exactly one clock read |
| Streaming.ScheduleNoDrift | workspace/workspace/display.py:135-143 | while no read falls more than a period behind, the deadline after n reads is exactly start + n·period: the schedule does not drift |
| PoseGraph.RefreshAll | workspace/workspace/workspace.py:52-54 | the hooks never change parent or children links |
| PoseGraph.RefreshKeepsLinks | workspace/workspace/workspace.py:52-54 | refreshing preserves the forest invariant |
| PoseGraph.RefreshLeavesOthers | workspace/workspace/workspace.py:52-54 | a solid no hook writes keeps its local transform |
| PoseGraph.SetLocalsLastWins | workspace/workspace/workspace.py:52-54 | of several writes to one solid within a hook, the last one is what the solid holds |
| PoseGraph.RefreshWrittenHolds | workspace/workspace/workspace.py:52-54 | when the hooks before it did not raise, a hook's last write to a solid is what the solid holds afterwards, unless a later hook writes it again. This holds even if that hook then raises |
| PoseGraph.RefreshComponents | workspace/workspace/workspace.py:52-54 | the in-order hook loop equals `RefreshAll`, stopping at the first hook that raises |
| PoseGraph.RefreshStopsAtRaise | workspace/workspace/workspace.py:52-54 | after a hook raised, no later hook runs |
| PoseGraph.FindRoots | workspace/workspace/workspace.py:57-63 | the roots are distinct, parentless and listed. Every parentless listed solid is among them |
| PoseGraph.Traverse | workspace/workspace/workspace.py:66-73 | on a linked forest it terminates. Each solid is visited at most once and after its parent. A root gets `eye ∘ local`, a child `parent_world ∘ local`, and every root and child of a visited solid is visited |
| PoseGraph.PoseRow | workspace/workspace/workspace.py:78-80 | each solid of a component is paired with its key and its world transform, or its local one if unreached |
| PoseGraph.BuildPoses | workspace/workspace/workspace.py:76-81 | the naming loop leaves the last-wins dictionary of all those pairs |
| PoseGraph.ComputeWorldPoses | workspace/workspace/workspace.py:44-82 | the hooks run first, and the method returns no poses if one raised. Otherwise the roots, the world table and the naming are as above |
| PoseGraph.PosesCoverAllSolids | workspace/workspace/workspace.py:76-81 | there is a `comp_solid` key for every solid of every component |
| PoseGraph.OrphanKeepsLocal | workspace/workspace/workspace.py:80 | an unreached solid is published with its own local transform |
| PoseGraph.RootPathWorld | workspace/workspace/workspace.py:66-73 | with words as transforms, a visited solid's world value composes the locals along its path from a root |
| Workspace.Instantiate | workspace/workspace/components/factory.py:34 | the constructor the factory selected. Only a core with a preset other than `core500` fails |
| Workspace.BuildOne | workspace/workspace/workspace.py:20 | one `create_component(name, ccfg)`: a factory error is passed on. On success the component's class is the one registered under the entry's `type` |
| Workspace.BuildAll | workspace/workspace/workspace.py:17-20 | on success every entry is a dict, and the map's keys are exactly the entry names |
| Workspace.BuildAllSucceeds | workspace/workspace/workspace.py:18-20 | the build loop succeeds iff every entry builds |
| Workspace.BuildAllValues | workspace/workspace/workspace.py:18-20 | after a successful build, the name of each entry that no later entry repeats maps to exactly that entry's component |
| Workspace.BuildAllFirstError | workspace/workspace/workspace.py:18-20 | a failed build reports the error of the first entry that does not build, and every earlier entry built |
| Workspace.BuildAllSticky | workspace/workspace/workspace.py:19-20 | once an entry fails to build, the loop ends with that error |
| Workspace.Attach | workspace/workspace/workspace.py:23-36 | falsy `attach` is skipped. A non-dict `attach` is `BadAttach`. The step succeeds iff the block names all five keys, an existing parent component, and solids that exist in the parent and in the child. The directive's parent, parent solid, child solid and both anchors are the block's values, and the offset defaults to six zeros only when absent. Every error names the child, and a `MissingKey` error names one of the five keys, which is absent |
| Workspace.Attaching | workspace/workspace/workspace.py:23-26 | the positions of the entries with a truthy `attach`, strictly increasing, and containing exactly those positions |
| Workspace.AttachAll | workspace/workspace/workspace.py:22-36 | every directive is valid, with one per entry that has a truthy `attach` |
| Workspace.AttachAllSucceeds | workspace/workspace/workspace.py:22-36 | the attach loop succeeds iff every entry's step succeeds |
| Workspace.AttachAllDirectives | workspace/workspace/workspace.py:22-36 | directive k is the one that the k-th entry with a truthy `attach` produces |
| Workspace.AttachAllFirstError | workspace/workspace/workspace.py:22-36 | a failed attach loop reports the error of the first entry whose step fails, and every earlier step succeeded |
| Workspace.AttachAllSticky | workspace/workspace/workspace.py:23-36 | once an attachment fails, the loop ends with that error |
| Workspace.Init | workspace/workspace/workspace.py:12-36 | a config without `core` is rejected before anything is built. On success `core` is built along with every entry, there is one directive per entry with a truthy `attach`, and every directive is valid |
| Workspace.InitBuilt | workspace/workspace/workspace.py:12-36 | on success every entry built, each name holds the component of its last entry, and directive k comes from the k-th entry with a truthy `attach` |
| Workspace.Construct | workspace/workspace/components/factory.py:34 | calling the selected constructor equals `Instantiate` |
| Workspace.BuildComponents | workspace/workspace/workspace.py:18-20 | the build loop equals `BuildAll` |
| Workspace.RunAttachments | workspace/workspace/workspace.py:23-36 | the attach loop equals `AttachAll` |
| Workspace.Build | workspace/workspace/workspace.py:12-36 | the constructor equals `Init` |
| Factory.Registry.constructor | workspace/workspace/components/factory.py:4 | the registry starts empty |
| Factory.Registry.Register | workspace/workspace/components/factory.py:15-17 | the class is stored under its name, replacing any earlier one. The class comes back unchanged |
| Factory.ReregisterOverwrites | workspace/workspace/components/factory.py:16 | registering a name twice keeps only the later class |
| Factory.Registry.ImportComponents | workspace/workspace/components/__init__.py:10-12 | importing each component module in turn runs its `@register`, so the table becomes the old one overridden by `Builtins()` |
| Factory.RegisterAllMerges | workspace/workspace/components/factory.py:15-17 | registering a sequence of pairs equals overriding the table with what they register into an empty one |
| Factory.BuiltinsClasses | workspace/workspace/components/core.py:6 | the seven component modules register `core`, `microplate` and five constant-only types, each under its own type string |
| Factory.CreateComponent | workspace/workspace/components/factory.py:21-34 | success iff the config is a dict whose `type` is a registered non-empty string, and then it yields that class applied to `(name, cfg)`. Missing or falsy `type` is `MissingType` |
| Factory.ConstantSolids | workspace/workspace/components/microtube_gripper.py:20-28 | a constant-only component's first solid is named after its type |
| Anchors.Store | workspace/workspace/components/core.py:92 | dict assignment: a name not yet present is appended at the end |
| Anchors.StoreReplaces | workspace/workspace/components/core.py:109-110 | storing under a name already present replaces that entry where it stands, and nothing else changes |
| Anchors.StoreAgain | workspace/workspace/components/core.py:109-110 | storing the last-stored solid again changes nothing |
| Anchors.Digits | workspace/workspace/components/core.py:48 | the decimal numeral is non-empty and has one digit iff n < 10 |
| Anchors.DigitsInjective | workspace/workspace/components/core.py:48 | different numbers have different numerals |
| Anchors.GridName | workspace/workspace/components/core.py:48 | a grid name starts with a capital row letter and has at least one digit after it |
| Anchors.GridNameInjective | workspace/workspace/components/core.py:44-48 | different (row, column) cells get different names |
| Anchors.FillRow | workspace/workspace/components/core.py:46-48 | the inner loop writes every column of its row at its pose and keeps the grid invariant, so the next row can start |
| Anchors.AddGrid | workspace/workspace/components/core.py:44-48 | the table gains exactly rows × cols new names and keeps the old entries. Each cell holds `[x0+(c-1)p, y0-rp, z, 0, 0, 0]` |
| Core.ReadSettings | workspace/workspace/components/core.py:19-22 | the defaults are `preset = core500`, `aux_axis = 6`, `rail_offset = 0`, and a given value wins for each of the three |
| Core.PlateAnchors | workspace/workspace/components/core.py:37-53 | the grid is A1..J20 plus the four corners and the center: 205 names. Each cell holds its pose, and every grid anchor lies strictly inside the corner rectangle |
| Core.PlateGridInside | workspace/workspace/components/core.py:39-48 | grid x lies in [-237.5, 237.5] and grid y in [-112.5, 112.5] |
| Core.CoreSolidNamesDistinct | workspace/workspace/components/core.py:82-175 | the fifteen solids have fifteen different names |
| Core.AddPlateExtras | workspace/workspace/components/core.py:49-53 | the four corners and the center are added under names no grid cell has, so the table grows from 200 to 205 names and the grid entries stay as they were |
| Core.PlacePlates | workspace/workspace/components/core.py:91-99 | the `world_centers` loop inserts the six plates in order |
| Core.Assemble | workspace/workspace/components/core.py:91-175 | the insertions, including the duplicate rail-base store, leave exactly the fifteen solids in order |
| Core.PlatesAreRoots | workspace/workspace/components/core.py:80-98 | the plates are fixture plates at x = ±250 and y ∈ {250, 0, -250}, with zero height and orientation, and none is attached |
| Core.CoreLinksChain | workspace/workspace/components/core.py:116-185 | link k's child is the k-th solid after the plates, and its parent comes earlier in the assembly (`plate_1`, then the previous child), so the links form one chain from `plate_1` |
| Core.CoreLinksResolve | workspace/workspace/components/core.py:116-185 | the parent anchor and the child anchor of every internal link exist in the anchor tables of the parent and the child solid |
| Core.Construct | workspace/workspace/components/core.py:13-185 | the constructor fails iff the preset is not `core500`. Otherwise it builds the settings, the 205-name plate table with `D10` at (-12.5, 37.5, 7), the solids and the links |
| Core.D10 | workspace/workspace/components/core.py:116 | `D10` is grid cell (3, 10) at (-12.5, 37.5, 7) |
| Core.Index | workspace/workspace/components/core.py:221 | Python indexing: a negative index counts from the end; out of range is an error |
| Core.UpdatePose | workspace/workspace/components/core.py:207-228 | with no API or a failing `joint()`, nothing happens. It raises iff the aux index fails or fewer than 6 joints are read. The first re-attachment moves the carriage to `joints[aux_axis]` |
| Core.UpdatePoseMovesJoints | workspace/workspace/components/core.py:221-228 | only existing joints move, with only their offsets changed. It makes 1 + min(n, 6) re-attachments. Joint k turns by `joints[k]`, A5 by `-joints[4]` |
| Core.HomeIsInitial | workspace/workspace/components/core.py:221-228 | at the home position, the re-attachments equal the constructor's carriage and arm links |
| Core.NegativeAuxTakesLast | workspace/workspace/components/core.py:221 | `aux_axis = -1` takes the last joint value |
| Microplate.Construct | workspace/workspace/components/microplate.py:12-37 | the table holds `center` at zero plus A1..H12: 97 names, each well at its pose. The assembly is the single `microplate` solid |
| Microplate.WellCorners | workspace/workspace/components/microplate.py:20-29 | `A1` is at (-49.8, 31.5) and `H12` at (49.2, -31.5) |
| Microplate.AdjacentWells | workspace/workspace/components/microplate.py:20-29 | neighbouring wells are exactly 9 apart in one coordinate |
| Microplate.WellsWithinFootprint | workspace/workspace/components/microplate.py:20-29 | every well lies in the rectangle spanned by `A1` and `H12` |

## Left out

- Transport, threads and I/O: sockets, Tornado routes, `/healthz`, `sio.connect`/`disconnect`, `Display.start`/`stop`, locks and events. The socket handlers are methods called one after another, and emits are returned event lists or the ghost `sent` sequence.
- `json.dumps` failure and `_last_size` in `_emit_update`: encoding is not modelled, so every payload can be sent.
- Clocks and sleeping: clock reads are parameters of `Display.Run`, and sleeps are returned as delays.
- The numeric pose pipeline: numpy 4×4 matrices, `T_to_xyzabc`, and `Solid`/`attach_to`. These are foreign code with floating-point trigonometry, so transforms are an abstract type with `compose`/`eye`. Attachments are `Link`/`Directive` records. `update_pose` becomes `Refresh` writes in the pose graph. The model does not tie anchors and offsets to local transforms.
- The Dorna robot API: `connect` is the `reachable` parameter, `joint()` an optional list, and `close`/`stop` are left out.
- YAML loading: the configuration is a decoded sequence of `(name, cfg)` pairs. `pkgutil` module discovery is the fixed list `Factory.Modules`, and `CreateComponent` is given the resulting table as its `registry`.
- Workspace.Init: a configuration may repeat a name, which a loaded YAML mapping cannot (PyYAML keeps the last value at the first key's position). Repeated names are not collapsed, so for them the build order and the first error can differ from the source's; for distinct names, as in every loaded mapping, the model is exact.
- Streaming.ClampFps: the request is an exact real. Python's `int()` raising `OverflowError` on infinity and `ValueError` on NaN, and accepting a numeric string, are not modelled, so the constructor and `set_fps` never raise here.
- Streaming.Connected: whether the client sets `sio.connected` before or after it calls the `connect` handler is up to the socket.io library, so both orders are stated rather than one chosen.
- Streaming.Display.Run: the period read at the top of each iteration is the one given to `Run`. A concurrent `set_fps` that `period = self._period` would pick up is not modelled.
- The constant-only components (SBS adapter/adaptor, tool rack, microtube, microtube gripper): only the solid names in their assemblies are modelled, not their anchor tables.
- `Workspace.stop` and `Display.send_snapshot` (the same as `OnRequestSnapshot`).
- Creating and starting the `Display` at the end of `Workspace.__init__`: the client is modelled on its own in `Streaming`.
- The microtube gripper's internal attachment of its own solid to the tool-changer solid.
- Workspace.Attach: anchor names are not looked up, because `attach_to` is foreign code. Only the components and solids are checked.
- Streaming.DeadlineStep: uses exact reals, not floats. Rounding in `next_t += period` is not modelled.
- Core.PlateAnchors: its constants (and those of `Microplate.Construct`, such as -49.8) are exact reals, and floating-point rounding is not modelled.
- Workspace.Attach: a `TypeError` from an unhashable name and a `KeyError` from a missing one are the same `UnknownComponent`/`UnknownSolid` error.
- Core.Construct: `rail_offset` is read but never used. The robot connection is attempted before the preset check, but it has no modelled effect.
- PoseGraph.Traverse: requires a linked forest. On a cycle the source loop would not terminate.

## Findings

| source | as written | input that shows it | evidently intended | confidence | as-written member | corrected member |
|---|---|---|---|---|---|---|
| workspace/workspace/display.py:29-31 | the `disconnect` handler clears only the connected event. `_inflight` stays set, and `connect` emits the snapshot through the same gate | a frame is in flight when the connection drops, and its ack is lost with it. After reconnecting, the snapshot reaches only the pending slot (or is dropped, if the handler runs before `sio.connected` is set), and every later frame only ever reaches the pending slot, so nothing is sent again | reconnecting forgets the stale in-flight frame, so the baseline snapshot is sent | not executed; medium (it depends on the client dropping callbacks on disconnect) | Streaming.ReconnectStallsAfterLostAck | Streaming.ConnectRearmed |
