/** Dispense geometry as arithmetic: the dispense height that tracks the
    liquid surface in a 384-well assay plate, the lateral offset that puts a
    tapered tip against the well wall, and the mapping of an offset direction
    to an (x, y) displacement. All lengths are millimetres and all volumes
    microlitres, over exact reals. */
module Geometry {
  import opened Outcomes

  // Corning 384-well flat plate, 112 uL wells
  const Assay384WellDepth: real := 11.43
  const Assay384WellVolume: real := 112.0
  /** Extra height that keeps the tip just above the liquid. */
  const ExtraZOffset: real := 0.8
  /** The dispense height is never below this. */
  const MinDispenseHeight: real := 1.0

  /** Height of the liquid surface plus the extra offset, before the floor. */
  function SurfaceHeight(totalVolume: real): real
  {
    totalVolume * (Assay384WellDepth / Assay384WellVolume) + ExtraZOffset
  }

  /** get_384_well_dispense_height: the surface height for the volume already
      present plus the volume being added, raised to 1 mm when lower. */
  function DispenseHeight384(currentVolume: real, volumeToAdd: real): (h: real)
    ensures h >= MinDispenseHeight
    ensures h >= SurfaceHeight(currentVolume + volumeToAdd)
    ensures h == MinDispenseHeight || h == SurfaceHeight(currentVolume + volumeToAdd)
  {
    var height := SurfaceHeight(currentVolume + volumeToAdd);
    if height < 1.0 then 1.0 else height
  }

  /** The liquid volume a surface height stands for: the inverse of SurfaceHeight. */
  function VolumeAtHeight(height: real): real
  {
    (height - ExtraZOffset) * (Assay384WellVolume / Assay384WellDepth)
  }

  /** Above the floor the dispense height determines the well's total volume. */
  lemma DispenseHeightEncodesVolume(currentVolume: real, volumeToAdd: real)
    requires SurfaceHeight(currentVolume + volumeToAdd) >= MinDispenseHeight
    ensures VolumeAtHeight(DispenseHeight384(currentVolume, volumeToAdd)) == currentVolume + volumeToAdd
  {
  }

  /** More liquid never lowers the dispense height. */
  lemma DispenseHeightMonotone(cv1: real, va1: real, cv2: real, va2: real)
    requires cv1 + va1 <= cv2 + va2
    ensures DispenseHeight384(cv1, va1) <= DispenseHeight384(cv2, va2)
  {
  }

  /** A pipette tip's diameter at its end and its taper (mm of diameter per
      mm of tip length). */
  datatype TipProfile = TipProfile(baseDiameter: real, taperSlope: real)

  /** The tip widths the protocol knows, keyed by pipette name. */
  function TipProfileOf(pipetteName: string): Option<TipProfile>
  {
    if pipetteName == "p20_single_gen2" then Some(TipProfile(0.90, 0.083))
    else if pipetteName == "p300_multi_gen2" then Some(TipProfile(1.07, 0.093))
    else None
  }

  /** Width of a tip at a given depth below the top of the well. */
  function TipWidth(t: TipProfile, depthBelowTop: real): real
  {
    t.baseDiameter + depthBelowTop * t.taperSlope
  }

  /** Extra offset that keeps the tip positively engaged with the wall. */
  const EdgeClearance: real := 0.2

  /** The depth and width of a well, from the labware definition. */
  datatype WellShape = WellShape(depth: real, width: real)

  /** get_well_edge_offset: distance from the well's centre at which the
      tapered tip touches the wall at the given height above the bottom. The
      height must be below the top of the well (checked first), and the
      pipette must have a tip profile (otherwise the source prints a message
      and then fails on the undefined tip width). */
  function WellEdgeOffset(pipetteName: string, well: WellShape, heightAboveBottom: real): (r: Result<real>)
    ensures r.Err? <==> well.depth - heightAboveBottom <= 0.0 || TipProfileOf(pipetteName).None?
    ensures well.depth - heightAboveBottom <= 0.0 ==> r == Err(InvalidGeometry)
    ensures r.Ok? ==>
      r.value + TipWidth(TipProfileOf(pipetteName).value, well.depth - heightAboveBottom) / 2.0
      == well.width / 2.0 + EdgeClearance
  {
    var heightBelowWellTop := well.depth - heightAboveBottom;
    if heightBelowWellTop <= 0.0 then Err(InvalidGeometry)
    else
      match TipProfileOf(pipetteName)
      case None => Err(UnknownTipProfile)
      case Some(t) => Ok((well.width - TipWidth(t, heightBelowWellTop)) / 2.0 + EdgeClearance)
  }

  /** The deeper the tip goes, the wider it is at the well's top and the
      further out it must be placed: the offset grows with the height. */
  lemma EdgeOffsetMonotone(pipetteName: string, well: WellShape, h1: real, h2: real)
    requires h1 <= h2 < well.depth
    requires TipProfileOf(pipetteName).Some?
    ensures WellEdgeOffset(pipetteName, well, h1).Ok? && WellEdgeOffset(pipetteName, well, h2).Ok?
    ensures WellEdgeOffset(pipetteName, well, h1).value <= WellEdgeOffset(pipetteName, well, h2).value
  {
    var t := TipProfileOf(pipetteName).value;
    assert t.taperSlope > 0.0;
  }

  /** The five directions offset_dispense accepts. */
  predicate IsDirection(direction: string)
  {
    direction in {"center", "right", "left", "top", "bottom"}
  }

  /** The direction branch of offset_dispense: the (x, y) displacement for a
      direction and a distance; any other direction is an error. */
  function DirectionOffset(direction: string, distance: real): (r: Result<(real, real)>)
    ensures r.Ok? <==> IsDirection(direction)
    ensures r.Err? ==> r.error == InvalidOffsetDirection
    ensures direction == "right" ==> r == Ok((distance, 0.0))
    ensures direction == "top" ==> r == Ok((0.0, distance))
  {
    if direction == "center" then Ok((0.0, 0.0))
    else if direction == "right" then Ok((distance, 0.0))
    else if direction == "left" then Ok((-distance, 0.0))
    else if direction == "top" then Ok((0.0, distance))
    else if direction == "bottom" then Ok((0.0, -distance))
    else Err(InvalidOffsetDirection)
  }

  /** Every accepted direction other than "center" moves the tip exactly the
      given distance along one axis; "center" does not move it; opposite
      directions give opposite displacements. */
  lemma DirectionOffsetGeometry(direction: string, distance: real)
    requires IsDirection(direction)
    ensures var (x, y) := DirectionOffset(direction, distance).value;
      && x * y == 0.0
      && (direction == "center" ==> x == 0.0 && y == 0.0)
      && (direction != "center" ==> x * x + y * y == distance * distance)
    ensures DirectionOffset("left", distance).value == (-DirectionOffset("right", distance).value.0, 0.0)
    ensures DirectionOffset("bottom", distance).value == (0.0, -DirectionOffset("top", distance).value.1)
  {
  }

  /** For a non-zero distance the displacement determines the direction. */
  lemma DirectionOffsetInjective(d1: string, d2: string, distance: real)
    requires distance != 0.0
    requires DirectionOffset(d1, distance).Ok? && DirectionOffset(d1, distance) == DirectionOffset(d2, distance)
    ensures d1 == d2
  {
  }
}
