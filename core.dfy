/**
 * The `core` component (workspace/workspace/components/core.py): the robot
 * arm A0..A5 with its flange, the rail (base and carriage) and six fixture
 * plates, laid out by the `core500` preset, and the live joint refresh.
 */
module Core {
  import opened Wrappers
  import opened Json
  import opened Anchors

  /** The settings read from the component's configuration. */
  datatype Settings = Settings(preset: Json, ip: Option<Json>, auxAxis: Json, railOffset: Json)

  /** `preset` defaults to "core500", `aux_axis` to 6, `rail_offset` to 0; `ip` has no default. */
  function ReadSettings(cfg: map<string, Json>): (s: Settings)
    ensures "preset" !in cfg ==> s.preset == JStr("core500")
    ensures "aux_axis" !in cfg ==> s.auxAxis == JInt(6)
    ensures "rail_offset" !in cfg ==> s.railOffset == JInt(0)
    ensures "preset" in cfg ==> s.preset == cfg["preset"]
    ensures "aux_axis" in cfg ==> s.auxAxis == cfg["aux_axis"]
    ensures "rail_offset" in cfg ==> s.railOffset == cfg["rail_offset"]
    ensures s.ip == Get(cfg, "ip")
  {
    Settings(GetOr(cfg, "preset", JStr("core500")), Get(cfg, "ip"),
             GetOr(cfg, "aux_axis", JInt(6)), GetOr(cfg, "rail_offset", JInt(0)))
  }

  /**
   * The robot API is live when an `ip` is given (truthy) and connecting to it
   * did not raise; `connectOk` stands for the outcome of that call.
   */
  predicate HasApi(s: Settings, connectOk: bool) {
    s.ip.Some? && Truthy(s.ip.value) && connectOk
  }

  // ---------------------------------------------------------------------------
  // Plate anchors
  // ---------------------------------------------------------------------------

  const PlateX0: real := -237.5
  const PlateY0: real := 112.5
  const PlatePitch: real := 25.0
  const PlateZ: real := 7.0

  /** The convenience anchors added after the grid. */
  ghost function PlateExtras(): set<string> {
    {"corner_0", "corner_1", "corner_2", "corner_3", "center"}
  }

  /**
   * The plate's anchor table: the 10 x 20 grid `A1`..`J20` at 25 mm pitch and
   * height 7, then the four corners and the center. 205 distinct names, and
   * every grid anchor lies strictly inside the rectangle of the corners.
   */
  method PlateAnchors() returns (anchors: AnchorTable)
    ensures anchors.Keys == GridKeys(10, 20) + PlateExtras()
    ensures |anchors| == 205
    ensures forall r, c :: 0 <= r < 10 && 1 <= c <= 20 ==>
              GridName(r, c) in anchors && anchors[GridName(r, c)] == GridPose(PlateX0, PlateY0, PlatePitch, PlateZ, r, c)
    ensures anchors["corner_0"] == At(-250.0, 125.0, 7.0) && anchors["corner_1"] == At(250.0, 125.0, 7.0)
    ensures anchors["corner_2"] == At(250.0, -125.0, 7.0) && anchors["corner_3"] == At(-250.0, -125.0, 7.0)
    ensures anchors["center"] == At(0.0, 0.0, 7.0)
    ensures forall r, c :: 0 <= r < 10 && 1 <= c <= 20 ==>
              && anchors["corner_0"].x < anchors[GridName(r, c)].x < anchors["corner_1"].x
              && anchors["corner_3"].y < anchors[GridName(r, c)].y < anchors["corner_0"].y
  {
    var grid := AddGrid(map[], 10, 20, PlateX0, PlateY0, PlatePitch, PlateZ);
    anchors := AddPlateExtras(grid);
    forall r, c | 0 <= r < 10 && 1 <= c <= 20
      ensures -250.0 < GridX(PlateX0, PlatePitch, c) < 250.0 && -125.0 < GridY(PlateY0, PlatePitch, r) < 125.0
    {
      PlateGridInside(r, c);
    }
  }

  /** The four corners and the center, added after the grid under names no grid cell has. */
  method AddPlateExtras(grid: AnchorTable) returns (anchors: AnchorTable)
    requires grid.Keys == GridKeys(10, 20) && |grid| == 200
    ensures anchors.Keys == grid.Keys + PlateExtras()
    ensures |anchors| == 205
    ensures forall k :: k in grid ==> anchors[k] == grid[k]
    ensures anchors["corner_0"] == At(-250.0, 125.0, 7.0) && anchors["corner_1"] == At(250.0, 125.0, 7.0)
    ensures anchors["corner_2"] == At(250.0, -125.0, 7.0) && anchors["corner_3"] == At(-250.0, -125.0, 7.0)
    ensures anchors["center"] == At(0.0, 0.0, 7.0)
  {
    GridKeysUpper(10, 20);
    assert "corner_0" !in grid && "corner_1" !in grid && "corner_2" !in grid;
    assert "corner_3" !in grid && "center" !in grid;
    anchors := grid;
    AddOne(anchors, "corner_0", At(-250.0, 125.0, 7.0));
    anchors := anchors["corner_0" := At(-250.0, 125.0, 7.0)];
    AddOne(anchors, "corner_1", At(250.0, 125.0, 7.0));
    anchors := anchors["corner_1" := At(250.0, 125.0, 7.0)];
    AddOne(anchors, "corner_2", At(250.0, -125.0, 7.0));
    anchors := anchors["corner_2" := At(250.0, -125.0, 7.0)];
    AddOne(anchors, "corner_3", At(-250.0, -125.0, 7.0));
    anchors := anchors["corner_3" := At(-250.0, -125.0, 7.0)];
    AddOne(anchors, "center", At(0.0, 0.0, 7.0));
    anchors := anchors["center" := At(0.0, 0.0, 7.0)];
  }

  /** Grid columns span x in [-237.5, 237.5] and rows y in [-112.5, 112.5]. */
  lemma PlateGridInside(r: nat, c: nat)
    requires r < 10 && 1 <= c <= 20
    ensures -237.5 <= GridX(PlateX0, PlatePitch, c) <= 237.5
    ensures -112.5 <= GridY(PlateY0, PlatePitch, r) <= 112.5
  {
  }

  // ---------------------------------------------------------------------------
  // Solids
  // ---------------------------------------------------------------------------

  /** The `core500` placements: a 2 x 3 array of 500 x 250 plates centred on the origin. */
  function PlateCenters(): seq<(string, real, real)> {
    [("plate_0", -250.0, 250.0), ("plate_1", -250.0, 0.0), ("plate_2", -250.0, -250.0),
     ("plate_3", 250.0, 250.0), ("plate_4", 250.0, 0.0), ("plate_5", 250.0, -250.0)]
  }

  /** A plate placed directly in the world, at height 0. */
  function PlateSolid(p: (string, real, real)): SolidDef {
    SolidDef(p.0, "fixture_plate", Some(At(p.1, p.2, 0.0)))
  }

  /** The solids of the core, in the order the constructor inserts them. */
  function CoreSolids(): seq<SolidDef> {
    seq(6, k requires 0 <= k < 6 => PlateSolid(PlateCenters()[k])) +
    [SolidDef("rail_base", "rail_base_500mm", None), SolidDef("rail_carriage", "rail_carriage", None),
     SolidDef("robot_A0", "robot_A0", None), SolidDef("robot_A1", "robot_A1", None),
     SolidDef("robot_A2", "robot_A2", None), SolidDef("robot_A3", "robot_A3", None),
     SolidDef("robot_A4", "robot_A4", None), SolidDef("robot_A5", "robot_A5", None),
     SolidDef("robot_flange", "robot_flange", None)]
  }

  /** Length, first letter and last digit tell the fifteen names apart. */
  function NameSig(s: string): (int, char, char) {
    (|s|, if |s| > 0 then s[0] else ' ', if |s| == 7 then s[6] else if |s| == 8 then s[7] else ' ')
  }

  /** The fifteen solids have fifteen different names. */
  lemma CoreSolidNamesDistinct()
    ensures |CoreSolids()| == 15
    ensures forall i, j :: 0 <= i < j < |CoreSolids()| ==> CoreSolids()[i].name != CoreSolids()[j].name
  {
    var n := Names(CoreSolids());
    var sigs := [(7, 'p', '0'), (7, 'p', '1'), (7, 'p', '2'), (7, 'p', '3'), (7, 'p', '4'), (7, 'p', '5'),
                 (9, 'r', ' '), (13, 'r', ' '), (8, 'r', '0'), (8, 'r', '1'), (8, 'r', '2'), (8, 'r', '3'),
                 (8, 'r', '4'), (8, 'r', '5'), (12, 'r', ' ')];
    forall k | 0 <= k < |n| ensures NameSig(n[k]) == sigs[k] {
    }
    forall i, j | 0 <= i < j < |n| ensures n[i] != n[j] {
      assert sigs[i] != sigs[j];
    }
  }

  /** The name of each solid is new when the constructor inserts it. */
  lemma NewAt(i: nat)
    requires i < |CoreSolids()|
    ensures CoreSolids()[i].name !in Names(CoreSolids()[..i])
  {
    CoreSolidNamesDistinct();
    var pre := CoreSolids()[..i];
    forall k | 0 <= k < |pre| ensures Names(pre)[k] != CoreSolids()[i].name {
      assert pre[k] == CoreSolids()[k];
    }
  }

  /** Inserting the next solid of the list appends it. */
  lemma InsertNext(i: nat)
    requires i < |CoreSolids()|
    ensures Store(CoreSolids()[..i], CoreSolids()[i]) == CoreSolids()[..i + 1]
  {
    NewAt(i);
    StorePrefix(CoreSolids(), i);
  }

  /** Inserting the solid that was inserted last once more leaves the assembly as it is. */
  lemma InsertAgain(i: nat)
    requires i < |CoreSolids()|
    ensures Store(CoreSolids()[..i + 1], CoreSolids()[i]) == CoreSolids()[..i + 1]
  {
    NewAt(i);
    StorePrefix(CoreSolids(), i);
  }

  /** The `world_centers` loop: one fixture plate per entry, in order. */
  method PlacePlates() returns (assembly: seq<SolidDef>)
    ensures assembly == CoreSolids()[..6]
  {
    assembly := [];
    var centers := PlateCenters();
    var i := 0;
    while i < |centers|
      invariant 0 <= i <= |centers|
      invariant assembly == CoreSolids()[..i]
    {
      var (plateName, x, y) := centers[i];
      InsertNext(i);
      assert SolidDef(plateName, "fixture_plate", Some(At(x, y, 0.0))) == CoreSolids()[i];
      assembly := Store(assembly, SolidDef(plateName, "fixture_plate", Some(At(x, y, 0.0))));
      i := i + 1;
    }
  }

  /** `self.assembly[s.name] = s` for the `i`-th solid of the core, whose name is new. */
  method Put(assembly: seq<SolidDef>, s: SolidDef, ghost i: nat) returns (r: seq<SolidDef>)
    requires i < |CoreSolids()| && assembly == CoreSolids()[..i] && s == CoreSolids()[i]
    ensures r == CoreSolids()[..i + 1]
  {
    InsertNext(i);
    r := Store(assembly, s);
  }

  /** `self.assembly["rail_base"] = self.rail_base` once more: the same solid under the same name. */
  method PutAgain(assembly: seq<SolidDef>, s: SolidDef, ghost i: nat) returns (r: seq<SolidDef>)
    requires i < |CoreSolids()| && assembly == CoreSolids()[..i + 1] && s == CoreSolids()[i]
    ensures r == assembly
  {
    InsertAgain(i);
    r := Store(assembly, s);
  }

  /**
   * The insertions of the constructor's `core500` branch and after it: the
   * six plates in the order of `world_centers`, the rail base (stored twice,
   * the second store a no-op), the carriage and the seven arm solids.
   */
  method Assemble() returns (assembly: seq<SolidDef>)
    ensures assembly == CoreSolids()
  {
    assembly := PlacePlates();
    var railBase := SolidDef("rail_base", "rail_base_500mm", None);
    assembly := Put(assembly, railBase, 6);
    assembly := PutAgain(assembly, railBase, 6);
    assembly := Put(assembly, SolidDef("rail_carriage", "rail_carriage", None), 7);
    assembly := Put(assembly, SolidDef("robot_A0", "robot_A0", None), 8);
    assembly := Put(assembly, SolidDef("robot_A1", "robot_A1", None), 9);
    assembly := Put(assembly, SolidDef("robot_A2", "robot_A2", None), 10);
    assembly := Put(assembly, SolidDef("robot_A3", "robot_A3", None), 11);
    assembly := Put(assembly, SolidDef("robot_A4", "robot_A4", None), 12);
    assembly := Put(assembly, SolidDef("robot_A5", "robot_A5", None), 13);
    assembly := Put(assembly, SolidDef("robot_flange", "robot_flange", None), 14);
    assert assembly == CoreSolids()[..15];
  }

  // ---------------------------------------------------------------------------
  // Anchor tables of the rail and the arm
  // ---------------------------------------------------------------------------

  function RailBaseAnchors(): AnchorTable {
    map["center" := At(0.0, 0.0, 0.0), "hole_0" := At(0.0, 37.5, 0.0), "hole_1" := At(400.0, 37.5, 0.0),
        "hole_2" := At(400.0, -37.5, 0.0), "hole_3" := At(0.0, -37.5, 0.0)]
  }

  function RailCarriageAnchors(): AnchorTable {
    map["center" := At(0.0, 0.0, 0.0), "hole_0" := At(-50.0, 50.0, 0.0), "hole_1" := At(50.0, 50.0, 0.0),
        "hole_2" := At(50.0, -50.0, 0.0), "hole_3" := At(-50.0, -50.0, 0.0)]
  }

  /** The base of the arm: its input and output flanges and eight mounting holes `"0"`..`"7"`. */
  function RobotA0Anchors(): AnchorTable {
    map["input" := At(0.0, 0.0, 0.0), "output" := At(0.0, 0.0, 131.0),
        "0" := At(35.0, 50.0, 0.0), "1" := At(35.0, -50.0, 0.0), "2" := At(-15.0, 50.0, 0.0),
        "3" := At(-15.0, -50.0, 0.0), "4" := At(-65.0, 50.0, 0.0), "5" := At(-65.0, -50.0, 0.0),
        "6" := At(-115.0, 50.0, 0.0), "7" := At(-115.0, -50.0, 0.0)]
  }

  /** Links A1 .. A5 and the flange (`k` = 1 .. 6): an input at the origin and an output. */
  function RobotLinkAnchors(k: nat): AnchorTable
    requires 1 <= k <= 6
  {
    var outputs := [Pose6(80.0, 36.0, 99.01829, 90.0, 0.0, 0.0), At(210.0, 0.0, 4.8),
                    Pose6(29.0, 0.0, 72.0, 0.0, 90.0, 0.0), Pose6(29.0, 0.0, 146.0, 0.0, 89.9999, 0.0),
                    Pose6(-29.0, 0.0, 60.0, 0.0, -90.0, 0.0), At(0.0, 0.0, 6.0)];
    map["input" := At(0.0, 0.0, 0.0), "output" := outputs[k - 1]]
  }

  /** The anchor table of the `i`-th solid of `CoreSolids()`; all six plates share the plate table. */
  function AnchorsOf(plateAnchors: AnchorTable, i: nat): AnchorTable
    requires i < 15
  {
    if i < 6 then plateAnchors
    else [RailBaseAnchors(), RailCarriageAnchors(), RobotA0Anchors(), RobotLinkAnchors(1), RobotLinkAnchors(2),
          RobotLinkAnchors(3), RobotLinkAnchors(4), RobotLinkAnchors(5), RobotLinkAnchors(6)][i - 6]
  }

  // ---------------------------------------------------------------------------
  // Internal attachments
  // ---------------------------------------------------------------------------

  /** An attachment: `child.attach_to(parent, parent_anchor, child_anchor, offset)`. */
  datatype Link = Link(child: string, parent: string, parentAnchor: string, childAnchor: string, offset: Pose6)

  /** The rail carriage on the rail base, `x` along the rail, 82 above it. */
  function CarriageLink(x: real): Link {
    Link("rail_carriage", "rail_base", "center", "center", Pose6(x, 0.0, 82.0, 0.0, 0.0, 0.0))
  }

  /** Joint `k` of the arm (0: A1 on A0 ... 5: the flange on A5), turned by `angle` about z. */
  function RobotLink(k: nat, angle: real): Link
    requires k < 6
  {
    var chain := ["robot_A0", "robot_A1", "robot_A2", "robot_A3", "robot_A4", "robot_A5", "robot_flange"];
    Link(chain[k + 1], chain[k], "output", "input", Pose6(0.0, 0.0, 0.0, 0.0, 0.0, angle))
  }

  /** The attachments the constructor makes, in order, with every joint at zero. */
  function CoreLinks(): seq<Link> {
    [Link("rail_base", "plate_1", "D10", "hole_0", At(0.0, 0.0, 0.0)),
     CarriageLink(0.0),
     Link("robot_A0", "rail_carriage", "hole_1", "0", At(0.0, 0.0, 0.0)),
     RobotLink(0, 0.0), RobotLink(1, 0.0), RobotLink(2, 0.0), RobotLink(3, 0.0), RobotLink(4, 0.0), RobotLink(5, 0.0)]
  }

  /**
   * The internal attachments form one chain hanging from `plate_1`: link `k`
   * attaches solid `6 + k` (rail base, carriage, A0 .. A5, flange) to an
   * earlier solid, so every non-plate solid has exactly one parent, every
   * plate none, and no cycle is possible.
   */
  lemma CoreLinksChain()
    ensures |CoreLinks()| == 9 && |CoreSolids()| == 15
    ensures forall k :: 0 <= k < 9 ==> CoreLinks()[k].child == CoreSolids()[6 + k].name
    ensures forall k :: 0 <= k < 9 ==> ParentOf(k) < 6 + k && CoreLinks()[k].parent == CoreSolids()[ParentOf(k)].name
  {
  }

  /** The position in `CoreSolids()` of the parent of link `k`: `plate_1`, then the previous link's child. */
  function ParentOf(k: nat): nat
    requires k < 9
  {
    if k == 0 then 1 else 5 + k
  }

  /**
   * The six plates are placed directly in the world at x = +/-250 and
   * y in {250, 0, -250}, at zero height and orientation, and no internal
   * attachment makes a plate a child.
   */
  lemma PlatesAreRoots()
    ensures forall k :: 0 <= k < 6 ==>
              && CoreSolids()[k].typ == "fixture_plate" && CoreSolids()[k].pose.Some?
              && (CoreSolids()[k].pose.value.x == -250.0 || CoreSolids()[k].pose.value.x == 250.0)
              && (CoreSolids()[k].pose.value.y in {250.0, 0.0, -250.0})
              && CoreSolids()[k].pose.value == At(CoreSolids()[k].pose.value.x, CoreSolids()[k].pose.value.y, 0.0)
    ensures forall k, p :: 0 <= k < |CoreLinks()| && 0 <= p < 6 ==> CoreLinks()[k].child != CoreSolids()[p].name
  {
    CoreSolidNamesDistinct();
    CoreLinksChain();
  }

  /**
   * Every anchor an internal attachment names exists on the solid it names
   * (see `CoreLinksChain`), provided the plate table has `D10`.
   */
  lemma CoreLinksResolve(plateAnchors: AnchorTable)
    requires "D10" in plateAnchors
    ensures forall k :: 0 <= k < |CoreLinks()| ==>
              && CoreLinks()[k].parentAnchor in AnchorsOf(plateAnchors, ParentOf(k))
              && CoreLinks()[k].childAnchor in AnchorsOf(plateAnchors, 6 + k)
  {
  }

  // ---------------------------------------------------------------------------
  // Construction
  // ---------------------------------------------------------------------------

  datatype CoreError = UnsupportedPreset(preset: Json)

  /** A constructed core. */
  datatype CoreComponent = CoreComponent(
    name: string, settings: Settings, hasApi: bool,
    plateAnchors: AnchorTable, assembly: seq<SolidDef>, links: seq<Link>)

  /**
   * `Core.__init__`: reads the settings, tries the robot connection, builds
   * the plate anchors, rejects any preset but `core500`, inserts the solids
   * and makes the internal attachments, in that order.
   */
  method Construct(name: string, cfg: map<string, Json>, connectOk: bool) returns (r: Result<CoreComponent, CoreError>)
    ensures r.Err? <==> ReadSettings(cfg).preset != JStr("core500")
    ensures r.Err? ==> r.error == UnsupportedPreset(ReadSettings(cfg).preset)
    ensures r.Ok? ==> && r.value.name == name && r.value.settings == ReadSettings(cfg)
                      && r.value.hasApi == HasApi(ReadSettings(cfg), connectOk)
                      && r.value.assembly == CoreSolids() && r.value.links == CoreLinks()
                      && |r.value.plateAnchors| == 205
                      && "D10" in r.value.plateAnchors
                      && r.value.plateAnchors["D10"] == At(-12.5, 37.5, 7.0)
  {
    var settings := ReadSettings(cfg);
    var hasApi := HasApi(settings, connectOk);
    var plateAnchors := PlateAnchors();
    if settings.preset != JStr("core500") {
      return Err(UnsupportedPreset(settings.preset));
    }
    var assembly := Assemble();
    var links := CoreLinks();
    D10();
    r := Ok(CoreComponent(name, settings, hasApi, plateAnchors, assembly, links));
  }

  /** `D10`, where the rail base sits, is row 3, column 10 of the plate grid. */
  lemma D10()
    ensures GridName(3, 10) == "D10"
    ensures GridPose(PlateX0, PlateY0, PlatePitch, PlateZ, 3, 10) == At(-12.5, 37.5, 7.0)
  {
    assert Digits(10) == "10";
  }

  // ---------------------------------------------------------------------------
  // Live joint update
  // ---------------------------------------------------------------------------

  /** Python `xs[i]`: a negative index counts from the end; out of range is an `IndexError` (`None`). */
  function Index(xs: seq<real>, i: int): (r: Option<real>)
    ensures r.Some? <==> -|xs| <= i < |xs|
    ensures r.Some? ==> exists k :: 0 <= k < |xs| && (k == i || k == |xs| + i) && r.value == xs[k]
  {
    if 0 <= i < |xs| then Some(xs[i])
    else if -|xs| <= i < 0 then Some(xs[|xs| + i])
    else None
  }

  /** `joints[self.aux_axis]`: an int indexes, a bool indexes as 0 or 1, anything else is a `TypeError` (`None`). */
  function AuxIndex(xs: seq<real>, aux: Json): Option<real> {
    match aux
    case JInt(i) => Index(xs, i)
    case JBool(b) => Index(xs, if b then 1 else 0)
    case _ => None
  }

  /** The angle `update_pose` gives joint `k`: A5 turns the opposite way. */
  function JointAngle(js: seq<real>, k: nat): real
    requires k < 6 && k < |js|
  {
    if k == 4 then -js[4] else js[k]
  }

  /**
   * `Core.update_pose`: the re-attachments it makes, in order, and whether it
   * raised. Without a robot API, or when reading the joints fails, nothing
   * happens. Otherwise the carriage moves to `joints[aux_axis]` (an
   * `IndexError`/`TypeError` there raises before any change), then joints
   * 0 .. 5 turn A1 .. the flange, and the first missing joint raises an
   * `IndexError`, leaving the earlier re-attachments in place.
   */
  function UpdatePose(hasApi: bool, joints: Option<seq<real>>, aux: Json): (r: (seq<Link>, bool))
    ensures !hasApi || joints.None? ==> r == ([], false)
    ensures r.1 <==> hasApi && joints.Some? && (AuxIndex(joints.value, aux).None? || |joints.value| < 6)
    ensures |r.0| <= 7
    ensures r.0 != [] ==> && hasApi && joints.Some? && AuxIndex(joints.value, aux).Some?
                          && r.0[0] == CarriageLink(AuxIndex(joints.value, aux).value)
  {
    if !hasApi || joints.None? then ([], false)
    else
      var js := joints.value;
      match AuxIndex(js, aux)
      case None => ([], true)
      case Some(x) =>
        var n := if |js| < 6 then |js| else 6;
        ([CarriageLink(x)] + seq(n, k requires 0 <= k < n => RobotLink(k, JointAngle(js, k))), |js| < 6)
  }

  /** Two attachments of the same child to the same parent at the same anchors. */
  predicate SameJoint(a: Link, b: Link) {
    a.child == b.child && a.parent == b.parent && a.parentAnchor == b.parentAnchor && a.childAnchor == b.childAnchor
  }

  /**
   * `update_pose` only moves existing joints: its `k`-th re-attachment is the
   * carriage link (k = 0) or arm joint `k - 1` of the constructor's
   * attachments, with only the offset changed; the rail base and A0 stay put.
   * With every joint read it re-attaches all seven, and with `n < 6` joints
   * the first `1 + n` before raising.
   */
  lemma UpdatePoseMovesJoints(hasApi: bool, joints: Option<seq<real>>, aux: Json)
    ensures var links := UpdatePose(hasApi, joints, aux).0;
      forall k :: 0 <= k < |links| ==> SameJoint(links[k], CoreLinks()[if k == 0 then 1 else k + 2])
    ensures hasApi && joints.Some? && AuxIndex(joints.value, aux).Some? ==>
      |UpdatePose(hasApi, joints, aux).0| == 1 + (if |joints.value| < 6 then |joints.value| else 6)
    ensures forall k :: 1 <= k < |UpdatePose(hasApi, joints, aux).0| ==>
      UpdatePose(hasApi, joints, aux).0[k].offset == At(0.0, 0.0, 0.0).(c := JointAngle(joints.value, k - 1))
  {
  }

  /**
   * At the home position (every joint 0, the rail axis at index 6 as the
   * default `aux_axis` says) `update_pose` re-makes exactly the constructor's
   * carriage and arm attachments.
   */
  lemma HomeIsInitial(js: seq<real>)
    requires |js| >= 7 && forall k :: 0 <= k < |js| ==> js[k] == 0.0
    ensures UpdatePose(true, Some(js), JInt(6)) == ([CoreLinks()[1]] + CoreLinks()[3..], false)
  {
    var links := UpdatePose(true, Some(js), JInt(6)).0;
    var expected := [CoreLinks()[1]] + CoreLinks()[3..];
    assert |links| == 7 == |expected|;
    assert links[0] == CarriageLink(0.0) == expected[0];
    forall k | 1 <= k < 7 ensures links[k] == expected[k] {
      assert JointAngle(js, k - 1) == 0.0;
      assert expected[k] == RobotLink(k - 1, 0.0);
    }
    assert links == expected;
  }

  /** A negative `aux_axis` counts from the end: -1 is the last value read. */
  lemma NegativeAuxTakesLast(js: seq<real>)
    requires |js| >= 6
    ensures UpdatePose(true, Some(js), JInt(-1)).0[0] == CarriageLink(js[|js| - 1])
  {
  }
}
