/**
 * The `microplate` component (workspace/workspace/components/microplate.py):
 * one solid carrying the 8 x 12 well grid `A1`..`H12` at 9 mm pitch.
 */
module Microplate {
  import opened Wrappers
  import opened Anchors

  const WellX0: real := -49.8
  const WellY0: real := 31.5
  const WellPitch: real := 9.0
  const WellZ: real := 3.0

  /** A constructed microplate: its anchor table and its one-solid assembly. */
  datatype MicroplateComponent = MicroplateComponent(name: string, anchors: AnchorTable, assembly: seq<SolidDef>)

  /**
   * `microplate.__init__`: `center` at the origin, then rows A..H and columns
   * 1..12 (the loop's `range(1, 13)`); 97 distinct anchor names, and the one
   * solid `microplate`, unplaced, that carries them.
   */
  method Construct(name: string) returns (m: MicroplateComponent)
    ensures m.name == name
    ensures m.anchors.Keys == {"center"} + GridKeys(8, 12)
    ensures |m.anchors| == 97
    ensures m.anchors["center"] == At(0.0, 0.0, 0.0)
    ensures forall r, c :: 0 <= r < 8 && 1 <= c <= 12 ==>
              GridName(r, c) in m.anchors && m.anchors[GridName(r, c)] == GridPose(WellX0, WellY0, WellPitch, WellZ, r, c)
    ensures m.assembly == [SolidDef("microplate", "microplate", None)]
  {
    var anchors: AnchorTable := map["center" := At(0.0, 0.0, 0.0)];
    anchors := AddGrid(anchors, 8, 12, WellX0, WellY0, WellPitch, WellZ);
    var assembly := Store([], SolidDef("microplate", "microplate", None));
    m := MicroplateComponent(name, anchors, assembly);
  }

  /** `A1` is the top-left well at (-49.8, 31.5) and `H12` the bottom-right one at (49.2, -31.5). */
  lemma WellCorners()
    ensures GridName(0, 1) == "A1" && GridPose(WellX0, WellY0, WellPitch, WellZ, 0, 1) == At(-49.8, 31.5, 3.0)
    ensures GridName(7, 12) == "H12" && GridPose(WellX0, WellY0, WellPitch, WellZ, 7, 12) == At(49.2, -31.5, 3.0)
  {
    assert Digits(12) == "12";
  }

  /** Neighbouring wells are exactly one pitch apart: along x within a row, along -y within a column. */
  lemma AdjacentWells(r: nat, c: nat)
    requires r < 8 && 1 <= c <= 12
    ensures c < 12 ==> GridPose(WellX0, WellY0, WellPitch, WellZ, r, c + 1)
                       == GridPose(WellX0, WellY0, WellPitch, WellZ, r, c).(x := GridPose(WellX0, WellY0, WellPitch, WellZ, r, c).x + 9.0)
    ensures r < 7 ==> GridPose(WellX0, WellY0, WellPitch, WellZ, r + 1, c)
                      == GridPose(WellX0, WellY0, WellPitch, WellZ, r, c).(y := GridPose(WellX0, WellY0, WellPitch, WellZ, r, c).y - 9.0)
  {
  }

  /** Every well lies in the rectangle spanned by `A1` and `H12`. */
  lemma WellsWithinFootprint(r: nat, c: nat)
    requires r < 8 && 1 <= c <= 12
    ensures -49.8 <= GridPose(WellX0, WellY0, WellPitch, WellZ, r, c).x <= 49.2
    ensures -31.5 <= GridPose(WellX0, WellY0, WellPitch, WellZ, r, c).y <= 31.5
  {
  }
}
