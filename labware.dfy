/** Plain records for the labware the transfer engine addresses: wells, the
    points inside them that the pipette moves to, and plate layouts. */
module Labware {
  import opened WellNames

  /** A well, named by its plate's label (str(well.parent)) and its own name. */
  datatype WellRef = WellRef(plate: string, name: string)

  /** Where a pipette action happens: a bare well, a point measured from the
      well's bottom (with a lateral displacement), or a point measured from
      its top. Every place belongs to exactly one well (Location.labware.as_well()). */
  datatype Place =
    | Well(well: WellRef)
    | Bottom(well: WellRef, z: real, dx: real, dy: real)
    | Top(well: WellRef, z: real)

  /** The row and column counts of a registered plate. */
  datatype Plate = Plate(rows: nat, columns: nat)

  /** The names of rows 0 .. rows - 1 of column c. */
  function ColumnNames(rows: nat, c: nat): (s: set<string>)
    requires rows <= 26
    ensures forall w | w in s :: |w| >= 2
    decreases rows
  {
    if rows == 0 then {} else ColumnNames(rows - 1, c) + {WellName(rows - 1, c)}
  }

  /** The names of the wells of columns 0 .. columns - 1. */
  function GridNames(rows: nat, columns: nat): (s: set<string>)
    requires rows <= 26
    ensures forall w | w in s :: |w| >= 2
    decreases columns
  {
    if columns == 0 then {} else GridNames(rows, columns - 1) + ColumnNames(rows, columns - 1)
  }

  /** The names of all wells of a plate (plate.wells_by_name()). */
  function PlateWells(p: Plate): (s: set<string>)
    requires p.rows <= 26
    ensures forall w | w in s :: |w| >= 2
  {
    GridNames(p.rows, p.columns)
  }

  lemma {:induction false} ColumnNamesIff(rows: nat, c: nat, name: string)
    requires rows <= 26
    ensures name in ColumnNames(rows, c) <==> exists r: nat :: r < rows && name == WellName(r, c)
    decreases rows
  {
    if rows > 0 {
      ColumnNamesIff(rows - 1, c, name);
    }
  }

  lemma {:induction false} GridNamesIff(rows: nat, columns: nat, name: string)
    requires rows <= 26
    ensures name in GridNames(rows, columns) <==>
      exists r: nat, c: nat :: r < rows && c < columns && name == WellName(r, c)
    decreases columns
  {
    if columns > 0 {
      var c' := columns - 1;
      GridNamesIff(rows, c', name);
      ColumnNamesIff(rows, c', name);
      if name in GridNames(rows, columns) {
        if name in ColumnNames(rows, c') {
          var r: nat :| r < rows && name == WellName(r, c');
          assert r < rows && c' < columns && name == WellName(r, c');
        } else {
          var r: nat, c: nat :| r < rows && c < c' && name == WellName(r, c);
          assert r < rows && c < columns && name == WellName(r, c);
        }
      }
      if exists r: nat, c: nat :: r < rows && c < columns && name == WellName(r, c) {
        var r: nat, c: nat :| r < rows && c < columns && name == WellName(r, c);
        if c == c' {
          assert name in ColumnNames(rows, c');
        } else {
          assert name in GridNames(rows, c');
        }
      }
    }
  }

  /** A plate's wells are exactly the names of its (row, column) positions. */
  lemma PlateWellsIff(p: Plate, name: string)
    requires p.rows <= 26
    ensures name in PlateWells(p) <==>
      exists r: nat, c: nat :: r < p.rows && c < p.columns && name == WellName(r, c)
  {
    GridNamesIff(p.rows, p.columns, name);
  }

  /** Every well name of a plate is a row letter followed by a column number. */
  lemma PlateWellShape(p: Plate, name: string)
    requires p.rows <= 26 && name in PlateWells(p)
    ensures exists r: nat, c: nat :: r < p.rows && c < p.columns && name == WellName(r, c)
  {
    PlateWellsIff(p, name);
  }

  /** The well at row r and column c belongs to the plate. */
  lemma WellNameInPlate(p: Plate, r: nat, c: nat)
    requires p.rows <= 26 && r < p.rows && c < p.columns
    ensures WellName(r, c) in PlateWells(p)
  {
    PlateWellsIff(p, WellName(r, c));
  }

  /** The label of the deck's fixed trash contains this text. */
  const FixedTrashLabel: string := "Fixed Trash"

  /** Python's `sub in s` for strings. */
  predicate HasSubstring(s: string, sub: string)
    decreases |s|
  {
    |sub| <= |s| && (s[..|sub|] == sub || HasSubstring(s[1..], sub))
  }

  /** Whether a plate label names the fixed trash. */
  predicate IsTrash(plate: string)
  {
    HasSubstring(plate, FixedTrashLabel)
  }

  /** The deck's fixed trash well A1. */
  const TrashWell: WellRef := WellRef("Opentrons Fixed Trash on 12", "A1")

  /** An occurrence of sub at any offset k is found by the scan. */
  lemma {:induction false} HasSubstringAt(s: string, sub: string, k: nat)
    requires k + |sub| <= |s| && s[k..k + |sub|] == sub
    ensures HasSubstring(s, sub)
    decreases k
  {
    if k > 0 {
      assert s[1..][k - 1..k - 1 + |sub|] == s[k..k + |sub|];
      HasSubstringAt(s[1..], sub, k - 1);
    } else {
      assert s[..|sub|] == s[k..k + |sub|];
    }
  }

  /** sub occurs in s starting at offset k. */
  predicate OccursAt(s: string, sub: string, k: nat)
  {
    k + |sub| <= |s| && s[k..k + |sub|] == sub
  }

  /** The scan agrees with the definition of `sub in s`: it succeeds exactly
      when sub occurs in s at some offset. */
  lemma {:induction false} HasSubstringIff(s: string, sub: string)
    ensures HasSubstring(s, sub) <==> exists k: nat :: OccursAt(s, sub, k)
    decreases |s|
  {
    if HasSubstring(s, sub) {
      if s[..|sub|] == sub {
        assert OccursAt(s, sub, 0);
      } else {
        HasSubstringIff(s[1..], sub);
        var k: nat :| OccursAt(s[1..], sub, k);
        assert s[k + 1..k + 1 + |sub|] == s[1..][k..k + |sub|];
        assert OccursAt(s, sub, k + 1);
      }
    }
    if exists k: nat :: OccursAt(s, sub, k) {
      var k: nat :| OccursAt(s, sub, k);
      HasSubstringAt(s, sub, k);
    }
  }

  lemma TrashWellIsTrash()
    ensures IsTrash(TrashWell.plate)
  {
    var s := TrashWell.plate;
    assert s[10..21] == FixedTrashLabel;
    HasSubstringAt(s, FixedTrashLabel, 10);
  }

}
