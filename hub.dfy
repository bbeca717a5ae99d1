/**
 * The hub (workspace/server.py): the last-known descriptor of every object,
 * merged field by field from producer frames, the self-healing snapshot
 * trigger, and the events each socket handler emits.
 *
 * An emit without `room` reaches every connected client: the server keeps no
 * separate producer and viewer sets, so `Everyone` is the only broadcast target.
 */
module Hub {
  import opened Wrappers
  import opened Json

  /** object key -> descriptor `{meshUrl/mesh/pose/visible/...}` */
  type WorldState = map<string, Json>

  datatype Target = Everyone | Only(sid: string)

  datatype Event =
    | SceneUpdate(to: Target, data: map<string, Json>)
    | RequestSnapshot(to: Target)

  /** Every stored descriptor is a dictionary; `merge_into_state` only ever stores dictionaries. */
  ghost predicate AllObjects(state: WorldState) {
    forall k :: k in state ==> state[k].JObj?
  }

  /** `_has_mesh_info`: a dictionary carrying a `meshUrl` or a `mesh` field. */
  predicate HasMeshInfo(spec: Json) {
    spec.JObj? && ("meshUrl" in spec.fields || "mesh" in spec.fields)
  }

  /** `world_has_any_mesh` */
  predicate WorldHasAnyMesh(state: WorldState) {
    exists k :: k in state && HasMeshInfo(state[k])
  }

  /** The fields `prev` holds before `prev.update(spec)`: the stored dictionary, or `{}`. */
  function BaseFields(prev: Option<Json>): (base: map<string, Json>)
    ensures prev.Some? && prev.value.JObj? ==> base == prev.value.fields
    ensures !(prev.Some? && prev.value.JObj?) ==> base == map[]
  {
    if prev.Some? && prev.value.JObj? then prev.value.fields else map[]
  }

  /** The descriptor stored for one payload key. */
  function MergeEntry(prev: Option<Json>, spec: Json): (r: Json)
    ensures r.JObj?
    // a dictionary spec overrides exactly its own fields ...
    ensures spec.JObj? ==> r.fields.Keys == BaseFields(prev).Keys + spec.fields.Keys
    ensures spec.JObj? ==> forall f :: f in spec.fields ==> r.fields[f] == spec.fields[f]
    // ... and every other field of the previous descriptor survives
    ensures forall f :: f in BaseFields(prev) && !(spec.JObj? && f in spec.fields) ==>
              f in r.fields && r.fields[f] == BaseFields(prev)[f]
    // a non-dictionary spec keeps the old dictionary, or creates `{}`
    ensures !spec.JObj? ==> r == JObj(BaseFields(prev))
  {
    var base := BaseFields(prev);
    JObj(if spec.JObj? then base + spec.fields else base)
  }

  /** `merge_into_state(state, payload)` as a function of the old state. */
  function Merge(state: WorldState, payload: Payload): (r: WorldState)
    ensures r.Keys == state.Keys + payload.Keys
    ensures forall k :: k in state && k !in payload ==> r[k] == state[k]
    ensures forall k :: k in payload ==> r[k] == MergeEntry(Get(state, k), payload[k])
  {
    map k | k in state.Keys + payload.Keys ::
      if k in payload then MergeEntry(Get(state, k), payload[k]) else state[k]
  }

  /** `world_state.get(name) is None`: absent, or stored as JSON null. */
  predicate LooksNew(state: WorldState, k: string) {
    k !in state || state[k] == JNull
  }

  /** The self-healing trigger of `upstream_update`, decided on the state before the merge. */
  predicate NeedsSnapshot(state: WorldState, payload: Payload) {
    exists k :: k in payload && LooksNew(state, k) && !HasMeshInfo(payload[k])
  }

  /** What `upstream_update` emits, in order, once the trigger is known. */
  function UpdateEvents(payload: Payload, need: bool): (events: seq<Event>)
    ensures |events| >= 1 && events[0] == SceneUpdate(Everyone, payload)
    ensures need ==> events == [SceneUpdate(Everyone, payload), RequestSnapshot(Everyone)]
    ensures !need ==> events == [SceneUpdate(Everyone, payload)]
  {
    [SceneUpdate(Everyone, payload)] + (if need then [RequestSnapshot(Everyone)] else [])
  }

  /** How many `request_snapshot` broadcasts an event list holds. */
  function SnapshotRequests(events: seq<Event>): (n: nat)
    ensures n <= |events|
  {
    if events == [] then 0
    else SnapshotRequests(events[..|events| - 1]) + (if events[|events| - 1].RequestSnapshot? then 1 else 0)
  }

  /** One more key of the loop in `merge_into_state`: its old entry is still the original one. */
  lemma MergeOneMore(state: WorldState, done: Payload, name: string, spec: Json)
    requires name !in done
    ensures Get(Merge(state, done), name) == Get(state, name)
    ensures Merge(state, done[name := spec])
            == Merge(state, done)[name := MergeEntry(Get(state, name), spec)]
  {
  }

  class Server {
    var worldState: WorldState

    /** The hub starts with an empty world state. */
    constructor ()
      ensures worldState == map[]
    {
      worldState := map[];
    }

    /** `merge_into_state(world_state, payload)`: one key of the payload at a time, in place. */
    method MergeIntoState(payload: Payload)
      modifies this
      ensures worldState == Merge(old(worldState), payload)
    {
      var todo := payload.Keys;
      ghost var done: Payload := map[];
      while todo != {}
        invariant todo <= payload.Keys
        invariant done.Keys == payload.Keys - todo
        invariant forall k :: k in done ==> done[k] == payload[k]
        invariant worldState == Merge(old(worldState), done)
        decreases todo
      {
        var name :| name in todo;
        var prev := Get(worldState, name);
        MergeOneMore(old(worldState), done, name, payload[name]);
        worldState := worldState[name := MergeEntry(prev, payload[name])];
        done := done[name := payload[name]];
        todo := todo - {name};
      }
      assert done == payload;
    }

    /**
     * `upstream_update(sid, payload)`: decide the self-healing need on the old
     * state, merge, fan the payload out unmodified, request at most one
     * snapshot, and acknowledge with "ok".
     */
    method UpstreamUpdate(sid: string, payload: Payload) returns (events: seq<Event>, ack: string)
      modifies this
      ensures worldState == Merge(old(worldState), payload)
      ensures events == UpdateEvents(payload, NeedsSnapshot(old(worldState), payload))
      ensures ack == "ok"
    {
      var needSnapshot := false;
      var todo := payload.Keys;
      while todo != {}
        invariant todo <= payload.Keys
        invariant needSnapshot <==>
          exists k :: k in payload.Keys - todo && LooksNew(worldState, k) && !HasMeshInfo(payload[k])
        decreases todo
      {
        var name :| name in todo;
        var prev := Get(worldState, name);
        if (prev == None || prev == Some(JNull)) && !HasMeshInfo(payload[name]) {
          needSnapshot := true;
        }
        todo := todo - {name};
      }
      MergeIntoState(payload);
      events := [SceneUpdate(Everyone, payload)];
      if needSnapshot {
        events := events + [RequestSnapshot(Everyone)];
      }
      ack := "ok";
    }

    /**
     * `connect(sid, ...)`: replay the whole state to the new client when some
     * descriptor carries mesh info, otherwise ask every client for a snapshot.
     */
    method Connect(sid: string) returns (events: seq<Event>)
      ensures WorldHasAnyMesh(worldState) ==> events == [SceneUpdate(Only(sid), worldState)]
      ensures !WorldHasAnyMesh(worldState) ==> events == [RequestSnapshot(Everyone)]
    {
      if worldState != map[] && WorldHasAnyMesh(worldState) {
        events := [SceneUpdate(Only(sid), worldState)];
      } else {
        events := [RequestSnapshot(Everyone)];
      }
    }

    /** `request_snapshot(sid)`: forwarded to every client whatever the state. */
    method RequestSnapshotFrom(sid: string) returns (events: seq<Event>)
      ensures events == [RequestSnapshot(Everyone)]
    {
      events := [RequestSnapshot(Everyone)];
    }

    /** `disconnect(sid)`: no event, and the world state is not rolled back (no `modifies`). */
    method Disconnect(sid: string) returns (events: seq<Event>)
      ensures events == []
    {
      events := [];
    }
  }

  // ---------------------------------------------------------------------------
  // Properties of the merge and of the self-healing trigger
  // ---------------------------------------------------------------------------

  /** Merging keeps the "every descriptor is a dictionary" invariant. */
  lemma MergeKeepsObjects(state: WorldState, payload: Payload)
    requires AllObjects(state)
    ensures AllObjects(Merge(state, payload))
  {
  }

  /** Merging the same payload twice yields the state of merging it once. */
  lemma MergeIdempotent(state: WorldState, payload: Payload)
    ensures Merge(Merge(state, payload), payload) == Merge(state, payload)
  {
    var once := Merge(state, payload);
    var twice := Merge(once, payload);
    forall k | k in payload ensures twice[k] == once[k] {
      var spec := payload[k];
      assert Get(once, k) == Some(once[k]);
      if spec.JObj? {
        var base := BaseFields(Get(state, k));
        assert once[k].fields == base + spec.fields;
        assert (base + spec.fields) + spec.fields == base + spec.fields;
      }
    }
    assert twice.Keys == once.Keys;
  }

  /** The field-preserving example: a pose-only update keeps a stored mesh reference. */
  lemma MergeKeepsMesh(state: WorldState, k: string, mesh: Json, pose: Json)
    requires k in state && state[k] == JObj(map["meshUrl" := mesh])
    ensures Merge(state, map[k := JObj(map["pose" := pose])])[k]
            == JObj(map["meshUrl" := mesh, "pose" := pose])
  {
    var r := Merge(state, map[k := JObj(map["pose" := pose])])[k];
    assert r.fields == map["meshUrl" := mesh] + map["pose" := pose];
    assert map["meshUrl" := mesh] + map["pose" := pose] == map["meshUrl" := mesh, "pose" := pose];
  }

  /** Under the dictionary invariant, "looks new" means exactly "absent". */
  lemma LooksNewIsAbsent(state: WorldState, k: string)
    requires AllObjects(state)
    ensures LooksNew(state, k) <==> k !in state
  {
  }

  /**
   * The trigger must be decided before the merge: afterwards every payload key
   * is present, so the same test on the merged state would never fire.
   */
  lemma TriggerVanishesAfterMerge(state: WorldState, payload: Payload)
    ensures !NeedsSnapshot(Merge(state, payload), payload)
  {
    var merged := Merge(state, payload);
    forall k | k in payload ensures !LooksNew(merged, k) {
      assert merged[k].JObj?;
    }
  }

  /** However many keys trigger it, an update emits at most one `request_snapshot`, and one iff needed. */
  lemma {:induction false} AtMostOneSnapshotRequest(payload: Payload, need: bool)
    ensures SnapshotRequests(UpdateEvents(payload, need)) == (if need then 1 else 0)
  {
    var events := UpdateEvents(payload, need);
    assert SnapshotRequests([SceneUpdate(Everyone, payload)]) == 0 by {
      assert [SceneUpdate(Everyone, payload)][..0] == [];
    }
    if need {
      assert events[..1] == [SceneUpdate(Everyone, payload)];
    }
  }

  // ---------------------------------------------------------------------------
  // End-to-end scenarios of the hub
  // ---------------------------------------------------------------------------

  /**
   * A producer describes "a" with a mesh; a viewer connecting afterwards gets
   * exactly that descriptor, and only that viewer gets it.
   */
  method ReplayScenario() returns (first: seq<Event>, replay: seq<Event>)
    ensures first == [SceneUpdate(Everyone, map["a" := JObj(map["meshUrl" := JStr("m"), "pose" := ZeroSix()])])]
    ensures replay == [SceneUpdate(Only("V"), map["a" := JObj(map["meshUrl" := JStr("m"), "pose" := ZeroSix()])])]
  {
    var descriptor := JObj(map["meshUrl" := JStr("m"), "pose" := ZeroSix()]);
    var hub := new Server();
    var ack;
    first, ack := hub.UpstreamUpdate("P", map["a" := descriptor]);
    assert !NeedsSnapshot(map[], map["a" := descriptor]) by {
      assert HasMeshInfo(descriptor);
    }
    assert map[] + descriptor.fields == descriptor.fields;
    assert hub.worldState == map["a" := descriptor];
    assert HasMeshInfo(hub.worldState["a"]);
    replay := hub.Connect("V");
  }

  /** A pose-only description of an unseen key makes the hub ask every client for a snapshot. */
  method SelfHealingScenario() returns (events: seq<Event>)
    ensures events == [SceneUpdate(Everyone, map["b" := JObj(map["pose" := JArr([JInt(1), JInt(2), JInt(3), JInt(0), JInt(0), JInt(0)])])]),
                       RequestSnapshot(Everyone)]
  {
    var hub := new Server();
    var ack;
    var spec := JObj(map["pose" := JArr([JInt(1), JInt(2), JInt(3), JInt(0), JInt(0), JInt(0)])]);
    events, ack := hub.UpstreamUpdate("P", map["b" := spec]);
    assert "b" in map["b" := spec] && LooksNew(map[], "b") && !HasMeshInfo(spec);
  }

  /** Connecting to an empty hub asks for a snapshot and replays nothing. */
  method EmptyConnectScenario() returns (events: seq<Event>)
    ensures events == [RequestSnapshot(Everyone)]
  {
    var hub := new Server();
    events := hub.Connect("V");
  }
}
