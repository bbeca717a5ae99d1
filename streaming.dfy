/**
 * The producer-side streaming client (workspace/workspace/display.py): the
 * ACK-driven backpressure state, the fps clamp, the drift-resistant deadline
 * step of the sampling loop, and the two frame builders.
 *
 * Everything runs single-threaded here: the sampling loop, the ack callback and
 * the socket event handlers are methods called one after another.
 */
module Streaming {
  import opened Wrappers
  import opened Json
  import Naming
  import Hub

  // ---------------------------------------------------------------------------
  // Backpressure: at most one frame in flight, at most one pending frame
  // ---------------------------------------------------------------------------

  /**
   * The abstract state of the channel: `sio.connected`, the transport's own
   * flag, which the socket.io client sets and clears and no code here writes;
   * the `_inflight` flag; the `_pending` slot; and every payload handed to
   * `sio.emit("upstream_update", ...)` so far.
   */
  datatype Link = Link(connected: bool, inflight: bool, pending: Option<Payload>, sent: seq<Payload>)

  /** A pending frame only exists behind a frame in flight, and it is never empty. */
  predicate Coherent(l: Link) {
    l.pending.Some? ==> l.inflight && l.pending.value != map[]
  }

  /** `_emit_update(payload)` */
  function Emit(l: Link, p: Payload): (r: Link)
    ensures r.connected == l.connected
    ensures |l.sent| <= |r.sent| <= |l.sent| + 1 && r.sent[..|l.sent|] == l.sent
    // a frame goes out only when none is in flight, and then one is
    ensures |r.sent| > |l.sent| ==> !l.inflight && r.inflight && r.sent[|l.sent|] == p
  {
    if p == map[] || !l.connected then l
    else if l.inflight then l.(pending := Some(p))
    else l.(inflight := true, sent := l.sent + [p])
  }

  /** `ack_cb`: clear the flag, take the pending frame and emit it. */
  function Ack(l: Link): (r: Link)
    requires l.inflight
    ensures r.connected == l.connected
    ensures r.pending == None
    ensures l.pending.None? ==> !r.inflight && r.sent == l.sent
  {
    var cleared := l.(inflight := false, pending := None);
    if l.pending.Some? then Emit(cleared, l.pending.value) else cleared
  }

  /** The transport drops: the client clears `sio.connected`; `_inflight` and `_pending` are left as they are. */
  function Disconnected(l: Link): (r: Link)
    ensures !r.connected && r.inflight == l.inflight && r.pending == l.pending && r.sent == l.sent
  {
    l.(connected := false)
  }

  /** The transport is up again: the client sets `sio.connected`; nothing else changes. */
  function Reconnected(l: Link): (r: Link)
    ensures r.connected && r.inflight == l.inflight && r.pending == l.pending && r.sent == l.sent
  {
    l.(connected := true)
  }

  /**
   * What the `connect` handler does to the channel: it emits a full snapshot
   * through the gate of `_emit_update` and leaves `sio.connected` alone (it
   * sets only `_connected_evt`). Whether the snapshot passes the gate depends
   * on whether the client has set `sio.connected` by the time the handler
   * runs, so both cases are stated: with the flag down the snapshot is
   * dropped; with it up, an idle channel sends it and a busy one parks it in
   * the pending slot.
   */
  function Connected(l: Link, snapshot: Payload): (r: Link)
    ensures r.connected == l.connected
    ensures !l.connected || snapshot == map[] ==> r == l
    ensures l.connected && !l.inflight && snapshot != map[] ==>
              r.sent == l.sent + [snapshot] && r.inflight && r.pending == l.pending
    ensures l.connected && l.inflight ==>
              r.sent == l.sent && r.inflight && r.pending == (if snapshot == map[] then l.pending else Some(snapshot))
  {
    Emit(l, snapshot)
  }

  /** A sequence of emits with no ack in between. */
  function EmitAll(l: Link, ps: seq<Payload>): (r: Link)
    ensures r.connected == l.connected
  {
    if ps == [] then l else Emit(EmitAll(l, ps[..|ps| - 1]), ps[|ps| - 1])
  }

  /** The latest non-empty payload of a sequence. */
  function LastNonEmpty(ps: seq<Payload>): (r: Option<Payload>)
    ensures r.Some? ==> r.value != map[] && r.value in ps
    ensures r.None? ==> forall i :: 0 <= i < |ps| ==> ps[i] == map[]
  {
    if ps == [] then None
    else if ps[|ps| - 1] != map[] then Some(ps[|ps| - 1])
    else LastNonEmpty(ps[..|ps| - 1])
  }

  lemma EmitCoherent(l: Link, p: Payload)
    requires Coherent(l)
    ensures Coherent(Emit(l, p))
  {
  }

  lemma AckCoherent(l: Link)
    requires Coherent(l) && l.inflight
    ensures Coherent(Ack(l))
  {
  }

  /** A frame submitted while idle and connected is sent, and the channel becomes busy. */
  lemma IdleEmitSends(l: Link, p: Payload)
    requires l.connected && !l.inflight && p != map[]
    ensures Emit(l, p).sent == l.sent + [p] && Emit(l, p).inflight
  {
  }

  /** An empty payload, or a disconnected socket: nothing is sent and nothing changes. */
  lemma DroppedEmitChangesNothing(l: Link, p: Payload)
    requires p == map[] || !l.connected
    ensures Emit(l, p) == l
  {
  }

  /**
   * Backpressure bound and latest-wins: however many frames are produced while
   * one is in flight, none is sent, one stays in flight, and the pending slot
   * holds the latest non-empty one.
   */
  lemma {:induction false} BurstWhileInFlight(l: Link, ps: seq<Payload>)
    requires l.inflight
    ensures EmitAll(l, ps).sent == l.sent
    ensures EmitAll(l, ps).inflight
    ensures EmitAll(l, ps).pending ==
      (if l.connected && LastNonEmpty(ps).Some? then LastNonEmpty(ps) else l.pending)
  {
    if ps != [] {
      var init := ps[..|ps| - 1];
      BurstWhileInFlight(l, init);
      if ps[|ps| - 1] == map[] {
        assert LastNonEmpty(ps) == LastNonEmpty(init);
      }
    }
  }

  /** The most recent frame is never lost: the ack that ends a burst sends the burst's latest frame. */
  lemma LatestFrameSentOnAck(l: Link, ps: seq<Payload>)
    requires l.inflight && l.connected && LastNonEmpty(ps).Some?
    ensures EmitAll(l, ps).inflight
    ensures Ack(EmitAll(l, ps)).sent == l.sent + [LastNonEmpty(ps).value]
    ensures Ack(EmitAll(l, ps)).inflight && Ack(EmitAll(l, ps)).pending == None
  {
    BurstWhileInFlight(l, ps);
  }

  /**
   * As written, a reconnect does not re-arm the channel: if the ack of the
   * frame in flight was lost with the old connection, then once the transport
   * is up again nothing is ever sent, whether the `connect` handler ran after
   * the client set `sio.connected` (the snapshot only reaches the pending
   * slot) or before (the snapshot is dropped).
   */
  lemma {:induction false} ReconnectStallsAfterLostAck(l: Link, snapshot: Payload, ps: seq<Payload>)
    requires l.inflight
    ensures EmitAll(Connected(Reconnected(Disconnected(l)), snapshot), ps).sent == l.sent
    ensures EmitAll(Connected(Reconnected(Disconnected(l)), snapshot), ps).inflight
    ensures EmitAll(Reconnected(Connected(Disconnected(l), snapshot)), ps).sent == l.sent
    ensures EmitAll(Reconnected(Connected(Disconnected(l), snapshot)), ps).inflight
  {
    BurstWhileInFlight(Connected(Reconnected(Disconnected(l)), snapshot), ps);
    BurstWhileInFlight(Reconnected(Connected(Disconnected(l), snapshot)), ps);
  }

  /** The evidently intended `connect` handler: drop the stale in-flight state, then emit the snapshot. */
  function ConnectRearmed(l: Link, snapshot: Payload): (r: Link)
    ensures r.connected == l.connected && |r.sent| >= |l.sent| && r.sent[..|l.sent|] == l.sent
    ensures !l.connected ==> r.sent == l.sent && !r.inflight && r.pending == None
  {
    var rearmed := l.(inflight := false, pending := None);
    assert rearmed.sent == l.sent;
    Emit(rearmed, snapshot)
  }

  /**
   * With the re-armed handler the baseline snapshot is sent on every
   * reconnect whose handler runs with the transport up, whatever was in
   * flight; and the channel is never left waiting on a lost ack.
   */
  lemma RearmedReconnectSendsSnapshot(l: Link, snapshot: Payload)
    requires snapshot != map[]
    ensures ConnectRearmed(l, snapshot).sent == l.sent + (if l.connected then [snapshot] else [])
    ensures ConnectRearmed(l, snapshot).inflight == l.connected && Coherent(ConnectRearmed(l, snapshot))
  {
  }

  // ---------------------------------------------------------------------------
  // Rate control
  // ---------------------------------------------------------------------------

  /** Python `int(x)`: truncation toward zero. */
  function Truncate(x: real): (n: int)
    ensures x >= 0.0 ==> n == x.Floor
    ensures x < 0.0 ==> n <= 0
  {
    if x >= 0.0 then x.Floor else -((-x).Floor)
  }

  /** `max(1, int(fps))` in the constructor and in `set_fps`. */
  function ClampFps(x: real): (fps: int)
    ensures fps >= 1
    ensures x >= 1.0 ==> fps as real <= x < fps as real + 1.0
    ensures x < 1.0 ==> fps == 1
  {
    var n := Truncate(x);
    if n < 1 then 1 else n
  }

  /** The deadline after one iteration of `_run`, and the delay the loop then waits on. */
  datatype Tick = Tick(next: real, delay: real)

  /** One step of the drift-resistant timer of `_run`. */
  function DeadlineStep(nextT: real, period: real, now: real): (t: Tick)
    requires period > 0.0
    ensures t.delay == t.next - now
    // on schedule (at most one period late): advance by exactly one period, no drift
    ensures nextT + period - now >= -period ==> t.next == nextT + period
    // far behind: restart the schedule one period from now, no burst of catch-up frames
    ensures nextT + period - now < -period ==> t.next == now + period && t.delay == period
    // either way the schedule is never more than one period behind
    ensures t.next >= now - period
  {
    var advanced := nextT + period;
    var delay := advanced - now;
    if delay < -period then Tick(now + period, period) else Tick(advanced, delay)
  }

  /**
   * The deadline and the sleeps of `_run` after one iteration per clock read
   * in `clock`, at a fixed period: the fold of `DeadlineStep`, keeping the
   * positive delays. It is never more than one period behind the last read,
   * and the loop never sleeps for zero or a negative time.
   */
  function Schedule(start: real, period: real, clock: seq<real>): (r: (real, seq<real>))
    requires period > 0.0
    ensures |clock| == 0 ==> r == (start, [])
    ensures |clock| > 0 ==> r.0 >= clock[|clock| - 1] - period
    ensures |r.1| <= |clock| && forall i :: 0 <= i < |r.1| ==> r.1[i] > 0.0
  {
    if clock == [] then (start, [])
    else
      var prev := Schedule(start, period, clock[..|clock| - 1]);
      var t := DeadlineStep(prev.0, period, clock[|clock| - 1]);
      (t.next, if t.delay > 0.0 then prev.1 + [t.delay] else prev.1)
  }

  /** The n-th deadline of an undisturbed schedule: `start + n * period`. */
  function Deadline(start: real, period: real, n: nat): (d: real)
    ensures d == start + n as real * period
  {
    if n == 0 then start else Deadline(start, period, n - 1) + period
  }

  /**
   * No drift: while every iteration ends within one period of its deadline,
   * the n-th deadline is exactly `start + n * period`, however long each
   * iteration took.
   */
  lemma {:induction false} ScheduleNoDrift(start: real, period: real, clock: seq<real>)
    requires period > 0.0
    requires forall i :: 0 <= i < |clock| ==> clock[i] <= Deadline(start, period, i + 2)
    ensures Schedule(start, period, clock).0 == Deadline(start, period, |clock|)
  {
    if clock != [] {
      var n := |clock|;
      var init := clock[..n - 1];
      forall i | 0 <= i < |init| ensures init[i] <= Deadline(start, period, i + 2) {
        assert init[i] == clock[i];
      }
      ScheduleNoDrift(start, period, init);
      assert Deadline(start, period, n + 1) == Deadline(start, period, n) + period;
    }
  }

  /** One more iteration of `_run` is one more `DeadlineStep`. */
  lemma ScheduleSnoc(start: real, period: real, clock: seq<real>, i: nat)
    requires period > 0.0 && i < |clock|
    ensures var prev := Schedule(start, period, clock[..i]);
            var t := DeadlineStep(prev.0, period, clock[i]);
            Schedule(start, period, clock[..i + 1]) == (t.next, if t.delay > 0.0 then prev.1 + [t.delay] else prev.1)
  {
    assert clock[..i + 1][..i] == clock[..i];
  }

  /** The timer part of one `_run` iteration: advance the deadline, then sleep if it lies ahead. */
  method Pace(start: real, period: real, clock: seq<real>, i: nat, nextT0: real, sleeps0: seq<real>)
    returns (nextT: real, sleeps: seq<real>)
    requires period > 0.0 && i < |clock| && (nextT0, sleeps0) == Schedule(start, period, clock[..i])
    ensures (nextT, sleeps) == Schedule(start, period, clock[..i + 1])
  {
    var tick := DeadlineStep(nextT0, period, clock[i]);
    nextT := tick.next;
    sleeps := sleeps0;
    if tick.delay > 0.0 {
      sleeps := sleeps + [tick.delay];
    }
    ScheduleSnoc(start, period, clock, i);
  }

  // ---------------------------------------------------------------------------
  // Frame builders
  // ---------------------------------------------------------------------------

  /** `_build_pose_frame`; `poses` is None when `compute_world_poses` raised. */
  function PoseFrame(poses: Option<Payload>): (frame: Payload)
    ensures frame.Keys == (if poses.Some? then poses.value.Keys else {})
  {
    var ps := poses.GetOr(map[]);
    map name | name in ps :: JObj(map["pose" := ps[name], "visible" := JBool(true)])
  }

  /** A pose frame entry holds exactly a pose and `visible = true`, and never mesh information. */
  lemma PoseFrameIsPoseOnly(poses: Option<Payload>, k: string)
    requires k in PoseFrame(poses)
    ensures poses.Some? && k in poses.value
    ensures PoseFrame(poses)[k].JObj? && PoseFrame(poses)[k].fields.Keys == {"pose", "visible"}
    ensures PoseFrame(poses)[k].fields["pose"] == poses.value[k]
    ensures PoseFrame(poses)[k].fields["visible"] == JBool(true)
    ensures !Hub.HasMeshInfo(PoseFrame(poses)[k])
  {
  }

  /** The attributes of a solid that `_build_snapshot` reads. */
  datatype SolidMeta = SolidMeta(typ: Option<string>, name: Option<string>)

  type Assembly = seq<(string, SolidMeta)>

  /** `getattr(solid, "type", getattr(solid, "name", solid_name))` */
  function MeshId(solid: SolidMeta, solidName: string): string {
    if solid.typ.Some? then solid.typ.value
    else if solid.name.Some? then solid.name.value
    else solidName
  }

  /** The "identity-ish" pose used for a solid that has no computed pose. */
  function FallbackPose(): Json {
    JArr([JArr([JInt(1), JInt(0), JInt(0), JInt(0)]),
          JArr([JInt(0), JInt(1), JInt(0), JInt(0)]),
          JArr([JInt(0), JInt(0), JInt(1), JInt(0)])])
  }

  function MeshUrl(meshId: string): string {
    "/static/CAD/" + meshId + ".glb"
  }

  function SnapshotEntry(meshId: string, pose: Json): Json {
    JObj(map["meshUrl" := JStr(MeshUrl(meshId)), "pose" := pose, "visible" := JBool(true)])
  }

  /** The `(key, entry)` pairs the inner loop of `_build_snapshot` writes for one component. */
  function Row(comp: (string, Assembly), poses: Payload): (row: seq<(string, Json)>)
    ensures |row| == |comp.1|
    ensures forall j :: 0 <= j < |row| ==> row[j].0 == Naming.Key(comp.0, comp.1[j].0)
  {
    seq(|comp.1|, j requires 0 <= j < |comp.1| =>
      var key := Naming.Key(comp.0, comp.1[j].0);
      (key, SnapshotEntry(MeshId(comp.1[j].1, comp.1[j].0), Get(poses, key).GetOr(FallbackPose()))))
  }

  /** All pairs written by `_build_snapshot`, components in order. */
  function Entries(comps: seq<(string, Assembly)>, poses: Payload): seq<(string, Json)> {
    if comps == [] then [] else Entries(comps[..|comps| - 1], poses) + Row(comps[|comps| - 1], poses)
  }

  /**
   * `_build_snapshot`: `poses` is None when `compute_world_poses` raised; a key
   * shared by two solids keeps the entry of the later one.
   */
  method BuildSnapshot(comps: seq<(string, Assembly)>, poses: Option<Payload>) returns (batch: Payload)
    ensures batch == Naming.Collect(Entries(comps, poses.GetOr(map[])))
  {
    var ps := poses.GetOr(map[]);
    batch := map[];
    var i := 0;
    while i < |comps|
      invariant 0 <= i <= |comps|
      invariant batch == Naming.Collect(Entries(comps[..i], ps))
    {
      batch := AddRow(batch, comps[i], ps, Entries(comps[..i], ps));
      EntriesSnoc(comps, ps, i);
      i := i + 1;
    }
    assert comps[..i] == comps;
  }

  /** The inner loop of `_build_snapshot`: one component's solids, in order. */
  method AddRow(batch0: Payload, comp: (string, Assembly), ps: Payload, ghost before: seq<(string, Json)>)
    returns (batch: Payload)
    requires batch0 == Naming.Collect(before)
    ensures batch == Naming.Collect(before + Row(comp, ps))
  {
    var (compName, assembly) := comp;
    ghost var row := Row(comp, ps);
    batch := batch0;
    var j := 0;
    assert before + row[..0] == before;
    while j < |assembly|
      invariant 0 <= j <= |assembly|
      invariant batch == Naming.Collect(before + row[..j])
    {
      var (solidName, solid) := assembly[j];
      var key := Naming.Key(compName, solidName);
      var entry := SnapshotEntry(MeshId(solid, solidName), Get(ps, key).GetOr(FallbackPose()));
      assert row[j] == (key, entry);
      CollectStep(before, row, j);
      batch := batch[key := entry];
      j := j + 1;
    }
    assert row[..j] == row;
  }

  /** Writing the next pair of a row is one more map update. */
  lemma CollectStep(before: seq<(string, Json)>, row: seq<(string, Json)>, j: nat)
    requires j < |row|
    ensures Naming.Collect(before + row[..j + 1]) == Naming.Collect(before + row[..j])[row[j].0 := row[j].1]
  {
    assert before + row[..j + 1] == (before + row[..j]) + [row[j]];
    Naming.CollectSnoc(before + row[..j], row[j]);
  }

  lemma EntriesSnoc(comps: seq<(string, Assembly)>, poses: Payload, i: nat)
    requires i < |comps|
    ensures Entries(comps[..i + 1], poses) == Entries(comps[..i], poses) + Row(comps[i], poses)
  {
    assert comps[..i + 1][..i] == comps[..i];
  }

  /** Every position of `Entries` comes from one solid of one component. */
  lemma {:induction false} EntriesFrom(comps: seq<(string, Assembly)>, poses: Payload, n: nat)
    requires n < |Entries(comps, poses)|
    ensures exists i, j :: (0 <= i < |comps| && 0 <= j < |comps[i].1|
                            && Entries(comps, poses)[n] == Row(comps[i], poses)[j])
  {
    var init := comps[..|comps| - 1];
    var last := comps[|comps| - 1];
    if n < |Entries(init, poses)| {
      EntriesFrom(init, poses, n);
      var i, j :| 0 <= i < |init| && 0 <= j < |init[i].1| && Entries(init, poses)[n] == Row(init[i], poses)[j];
      assert comps[i] == init[i];
    } else {
      var j := n - |Entries(init, poses)|;
      assert Entries(comps, poses)[n] == Row(last, poses)[j];
    }
  }

  /** Every solid of every component has its pair in `Entries`. */
  lemma {:induction false} EntriesCover(comps: seq<(string, Assembly)>, poses: Payload, i: nat, j: nat)
    requires i < |comps| && j < |comps[i].1|
    ensures Row(comps[i], poses)[j] in Entries(comps, poses)
  {
    var init := comps[..|comps| - 1];
    if i < |init| {
      assert comps[i] == init[i];
      EntriesCover(init, poses, i, j);
    }
  }

  /**
   * Every snapshot entry is keyed `comp_solid`, carries
   * `meshUrl = "/static/CAD/<type>.glb"`, the computed pose or the fallback,
   * and `visible = true` - so it always carries mesh information.
   */
  lemma SnapshotEntryShape(comps: seq<(string, Assembly)>, poses: Option<Payload>, k: string)
    requires k in Naming.Collect(Entries(comps, poses.GetOr(map[])))
    ensures exists i, j :: (0 <= i < |comps| && 0 <= j < |comps[i].1|
      && k == Naming.Key(comps[i].0, comps[i].1[j].0)
      && Naming.Collect(Entries(comps, poses.GetOr(map[])))[k]
         == SnapshotEntry(MeshId(comps[i].1[j].1, comps[i].1[j].0), Get(poses.GetOr(map[]), k).GetOr(FallbackPose())))
    ensures Hub.HasMeshInfo(Naming.Collect(Entries(comps, poses.GetOr(map[])))[k])
  {
    var ps := poses.GetOr(map[]);
    var es := Entries(comps, ps);
    Naming.CollectValueFrom(es, k);
    var n :| 0 <= n < |es| && es[n] == (k, Naming.Collect(es)[k]);
    EntriesFrom(comps, ps, n);
    var i, j :| 0 <= i < |comps| && 0 <= j < |comps[i].1| && es[n] == Row(comps[i], ps)[j];
    assert k == Naming.Key(comps[i].0, comps[i].1[j].0);
  }

  /** The snapshot has a key `comp_solid` for every solid of every component. */
  lemma SnapshotCoversAllSolids(comps: seq<(string, Assembly)>, poses: Option<Payload>, i: nat, j: nat)
    requires i < |comps| && j < |comps[i].1|
    ensures Naming.Key(comps[i].0, comps[i].1[j].0) in Naming.Collect(Entries(comps, poses.GetOr(map[])))
  {
    var ps := poses.GetOr(map[]);
    EntriesCover(comps, ps, i, j);
    var es := Entries(comps, ps);
    var n :| 0 <= n < |es| && es[n] == Row(comps[i], ps)[j];
    assert es[n].0 == Naming.Key(comps[i].0, comps[i].1[j].0);
  }

  // ---------------------------------------------------------------------------
  // The client object
  // ---------------------------------------------------------------------------

  /** One iteration of `_run` as seen by the channel: emit the frame, then maybe receive the ack. */
  function Step(l: Link, frame: Payload, ackArrives: bool): Link {
    var e := Emit(l, frame);
    if ackArrives && e.inflight then Ack(e) else e
  }

  function Steps(l: Link, frames: seq<Payload>, acks: seq<bool>): Link
    requires |frames| == |acks|
  {
    if frames == [] then l
    else Step(Steps(l, frames[..|frames| - 1], acks[..|acks| - 1]), frames[|frames| - 1], acks[|acks| - 1])
  }

  /** One more iteration is one more `Step`. */
  lemma StepsSnoc(l: Link, frames: seq<Payload>, acks: seq<bool>, i: nat)
    requires |frames| == |acks| && i < |frames|
    ensures Steps(l, frames[..i + 1], acks[..i + 1]) == Step(Steps(l, frames[..i], acks[..i]), frames[i], acks[i])
  {
    assert frames[..i + 1][..i] == frames[..i];
    assert acks[..i + 1][..i] == acks[..i];
  }

  class Display {
    var fps: int
    var period: real
    /** `sio.connected`, the transport's own flag, written only by `TransportChanged` */
    var connected: bool
    /** `_connected_evt`, the flag the socket handlers set and clear */
    var connectedEvt: bool
    var inflight: bool
    var pending: Option<Payload>
    /** every payload handed to the transport so far */
    ghost var sent: seq<Payload>

    ghost function State(): Link
      reads this
    {
      Link(connected, inflight, pending, sent)
    }

    ghost predicate Valid()
      reads this
    {
      fps >= 1 && period == 1.0 / (fps as real) && Coherent(State())
    }

    /** The constructor: clamped fps, idle channel, not yet connected. */
    constructor (fps0: real)
      ensures Valid() && fps == ClampFps(fps0)
      ensures State() == Link(false, false, None, []) && !connectedEvt
    {
      fps := ClampFps(fps0);
      period := 1.0 / (ClampFps(fps0) as real);
      connected := false;
      connectedEvt := false;
      inflight := false;
      pending := None;
      sent := [];
    }

    /** `set_fps`: only the rate changes. */
    method SetFps(f: real)
      requires Valid()
      modifies this
      ensures Valid() && fps == ClampFps(f) && State() == old(State())
    {
      fps := ClampFps(f);
      period := 1.0 / (fps as real);
    }

    /** `_emit_update(payload)` */
    method EmitUpdate(payload: Payload)
      requires Valid()
      modifies this
      ensures Valid() && fps == old(fps) && period == old(period) && connectedEvt == old(connectedEvt)
      ensures State() == Emit(old(State()), payload)
    {
      if payload == map[] {
        return;
      }
      if !connected {
        return;
      }
      if inflight {
        pending := Some(payload);
        return;
      }
      inflight := true;
      sent := sent + [payload];
    }

    /** `ack_cb`, run when the hub acknowledges the frame in flight. */
    method AckCallback()
      requires Valid() && inflight
      modifies this
      ensures Valid() && fps == old(fps) && period == old(period)
      ensures State() == Ack(old(State()))
    {
      inflight := false;
      var next := pending;
      pending := None;
      if next.Some? {
        EmitUpdate(next.value);
      }
    }

    /** The `connect` event handler; `snapshot` is what `_build_snapshot` returns at that moment. */
    method OnConnect(snapshot: Payload)
      requires Valid()
      modifies this
      ensures Valid() && fps == old(fps) && period == old(period)
      ensures State() == Connected(old(State()), snapshot) && connectedEvt
    {
      connectedEvt := true;
      EmitUpdate(snapshot);
    }

    /**
     * The `connect` handler with the correction of `ConnectRearmed`: a frame
     * still marked in flight from the previous connection is forgotten, so the
     * snapshot goes out.
     */
    method OnConnectRearmed(snapshot: Payload)
      requires Valid()
      modifies this
      ensures Valid() && fps == old(fps) && period == old(period)
      ensures State() == ConnectRearmed(old(State()), snapshot) && connectedEvt
    {
      connectedEvt := true;
      inflight := false;
      pending := None;
      EmitUpdate(snapshot);
    }

    /** The `disconnect` event handler: it clears `_connected_evt` and leaves the channel alone. */
    method OnDisconnect()
      requires Valid()
      modifies this
      ensures Valid() && fps == old(fps) && period == old(period)
      ensures State() == old(State()) && !connectedEvt
    {
      connectedEvt := false;
    }

    /**
     * The socket.io client raising or dropping its transport: the one place
     * `sio.connected`, the flag `_emit_update` gates on, changes.
     */
    method TransportChanged(up: bool)
      requires Valid()
      modifies this
      ensures Valid() && fps == old(fps) && period == old(period) && connectedEvt == old(connectedEvt)
      ensures State() == (if up then Reconnected(old(State())) else Disconnected(old(State())))
    {
      connected := up;
    }

    /** The `request_snapshot` handler (and `send_snapshot`, which does the same). */
    method OnRequestSnapshot(snapshot: Payload)
      requires Valid()
      modifies this
      ensures Valid() && fps == old(fps) && period == old(period)
      ensures State() == Emit(old(State()), snapshot)
    {
      EmitUpdate(snapshot);
    }

    /** The channel side of one `_run` iteration: emit the frame, then take the ack if it arrives. */
    method Iterate(frame: Payload, ackArrives: bool)
      requires Valid()
      modifies this
      ensures Valid() && fps == old(fps) && period == old(period)
      ensures State() == Step(old(State()), frame, ackArrives)
    {
      EmitUpdate(frame);
      if ackArrives && inflight {
        AckCallback();
      }
    }

    /**
     * `_run` for `|frames|` iterations: `frames[i]` is the pose frame built in
     * iteration i, `clock[i]` the clock read after emitting it, and `acks[i]`
     * whether the hub's ack arrives while the loop sleeps.
     */
    method Run(frames: seq<Payload>, acks: seq<bool>, clock: seq<real>, start: real)
      returns (nextT: real, sleeps: seq<real>)
      requires Valid() && |frames| == |acks| == |clock|
      modifies this
      ensures Valid() && fps == old(fps) && period == old(period)
      ensures State() == Steps(old(State()), frames, acks)
      ensures (nextT, sleeps) == Schedule(start, period, clock)
    {
      var p := period;
      nextT := start;
      sleeps := [];
      var i := 0;
      while i < |frames|
        invariant 0 <= i <= |frames|
        invariant Valid() && fps == old(fps) && period == old(period) && p == period
        invariant State() == Steps(old(State()), frames[..i], acks[..i])
        invariant (nextT, sleeps) == Schedule(start, period, clock[..i])
      {
        Iterate(frames[i], acks[i]);
        nextT, sleeps := Pace(start, p, clock, i, nextT, sleeps);
        p := period;
        StepsSnoc(old(State()), frames, acks, i);
        i := i + 1;
      }
      assert frames[..i] == frames && acks[..i] == acks && clock[..i] == clock;
    }
  }
}
