/** Well addressing: conversion between a well name such as "B15" and its
    zero-based (row, column) indices, as done by indices_from_well_name,
    well_name_from_indices, offset_well and well_id_from_name. The column part
    is read and written the way Python's int() and str() do it, for the
    column texts made of an optional sign followed by ASCII digits. */
module WellNames {
  import opened Outcomes

  /** ord('A'): the row index is the code point of the row letter minus this. */
  const RowBase: int := 65

  predicate IsDigit(c: char) { '0' <= c <= '9' }

  predicate AllDigits(s: string) { forall i :: 0 <= i < |s| ==> IsDigit(s[i]) }

  function DigitChar(d: nat): (c: char)
    requires d < 10
    ensures IsDigit(c)
  {
    ('0' as int + d) as char
  }

  function DigitValue(c: char): (d: nat)
    requires IsDigit(c)
    ensures d < 10 && DigitChar(d) == c
  {
    c as int - '0' as int
  }

  /** Python's str() of a non-negative integer: decimal, no leading zeros. */
  function NatToString(n: nat): (s: string)
    ensures |s| >= 1 && AllDigits(s)
    ensures n >= 10 ==> s[0] != '0'
    decreases n
  {
    if n < 10 then [DigitChar(n)] else NatToString(n / 10) + [DigitChar(n % 10)]
  }

  /** The value of a string of decimal digits, most significant first. */
  function DigitsValue(s: string): nat
    requires AllDigits(s)
    decreases |s|
  {
    if s == [] then 0 else 10 * DigitsValue(s[..|s| - 1]) + DigitValue(s[|s| - 1])
  }

  /** Python's int() on a string of an optional sign and at least one ASCII
      digit; any other text is refused. */
  function ParseInt(s: string): Option<int>
  {
    if |s| >= 2 && (s[0] == '-' || s[0] == '+') && AllDigits(s[1..]) then
      Some(if s[0] == '-' then -(DigitsValue(s[1..]) as int) else DigitsValue(s[1..]))
    else if |s| >= 1 && AllDigits(s) then
      Some(DigitsValue(s))
    else
      None
  }

  /** Python's str() of an integer. */
  function IntToString(i: int): string
  {
    if i < 0 then "-" + NatToString(-i) else NatToString(i)
  }

  lemma {:induction false} DigitsValueOfNatToString(n: nat)
    ensures DigitsValue(NatToString(n)) == n
    decreases n
  {
    if n >= 10 {
      var s := NatToString(n);
      DigitsValueOfNatToString(n / 10);
      assert s[..|s| - 1] == NatToString(n / 10);
    }
  }

  /** int(str(i)) == i for every integer i. */
  lemma ParseIntToString(i: int)
    ensures ParseInt(IntToString(i)) == Some(i)
  {
    var s := IntToString(i);
    if i < 0 {
      assert s[0] == '-' && s[1..] == NatToString(-i);
      assert AllDigits(s[1..]);
      DigitsValueOfNatToString(-i);
    } else {
      assert IsDigit(s[0]);
      DigitsValueOfNatToString(i);
    }
  }

  /** str.upper() on one character, for the ASCII letters. */
  function AsciiUpper(c: char): (u: char)
    ensures 'a' <= c <= 'z' ==> u as int == c as int - 32
    ensures !('a' <= c <= 'z') ==> u == c
  {
    if 'a' <= c <= 'z' then (c as int - 32) as char else c
  }

  /** The code points chr() can produce and a Dafny char can hold. */
  predicate IsCodePoint(n: int) { 0 <= n < 0xD800 || 0xE000 <= n < 0x11_0000 }

  /** indices_from_well_name: row from the upper-cased first character
      (counted from 'A'), column from int() of the rest, minus one. No check
      is made that the first character is a letter. */
  function IndicesFromWellName(name: string): (r: Result<(int, int)>)
    ensures r.Ok? <==> |name| >= 1 && ParseInt(name[1..]).Some?
    ensures r.Ok? ==>
      r.value.0 == AsciiUpper(name[0]) as int - RowBase && r.value.1 == ParseInt(name[1..]).value - 1
  {
    if |name| == 0 then Err(InvalidWellName)
    else
      match ParseInt(name[1..])
      case None => Err(InvalidWellName)
      case Some(col) => Ok((AsciiUpper(name[0]) as int - RowBase, col - 1))
  }

  /** well_name_from_indices: chr(row + 65) followed by str(col + 1). The
      name starts with the character of code row + 65, and int() of the rest
      is col + 1. */
  function WellNameFromIndices(row: int, col: int): (r: Result<string>)
    ensures r.Ok? <==> IsCodePoint(row + RowBase)
    ensures r.Err? ==> r.error == InvalidRowIndex
    ensures r.Ok? ==> |r.value| >= 2 && r.value[0] as int == row + RowBase
    ensures r.Ok? ==> ParseInt(r.value[1..]) == Some(col + 1)
  {
    if IsCodePoint(row + RowBase) then
      var name := [(row + RowBase) as char] + IntToString(col + 1);
      assert name[1..] == IntToString(col + 1);
      ParseIntToString(col + 1);
      Ok(name)
    else Err(InvalidRowIndex)
  }

  /** A code point in 'a'..'z': a row letter the parser would read back
      upper-cased. */
  predicate IsLowerCode(n: int) { 'a' as int <= n <= 'z' as int }

  /** offset_well: the name of the well rowOffset rows and colOffset columns
      away. It fails when the name does not parse or the new row has no
      character; otherwise the new name parses back to the moved indices,
      unless its row letter is a lower-case one. */
  function OffsetWell(name: string, colOffset: int, rowOffset: int): (r: Result<string>)
    ensures IndicesFromWellName(name).Err? ==> r == Err(InvalidWellName)
    ensures IndicesFromWellName(name).Ok? ==>
      var (row, col) := IndicesFromWellName(name).value;
      (r.Ok? <==> IsCodePoint(row + rowOffset + RowBase)) &&
      (r.Err? ==> r.error == InvalidRowIndex) &&
      (r.Ok? && !IsLowerCode(row + rowOffset + RowBase) ==>
         IndicesFromWellName(r.value) == Ok((row + rowOffset, col + colOffset)))
  {
    match IndicesFromWellName(name)
    case Err(e) => Err(e)
    case Ok((row, col)) =>
      var r := WellNameFromIndices(row + rowOffset, col + colOffset);
      if r.Ok? && !IsLowerCode(row + rowOffset + RowBase) then
        WellNameRoundTrip(row + rowOffset, col + colOffset);
        r
      else r
  }

  /** well_id_from_name: column-major index in a 16-row plate. The
      rowsInPlate argument is accepted and ignored, as in the source. The id
      exists exactly when the name parses, and for a row of a 16-row plate
      it decodes back to the name's (row, column). */
  function WellIdFromName(name: string, rowsInPlate: int): (r: Result<int>)
    ensures r.Ok? <==> IndicesFromWellName(name).Ok?
    ensures r.Err? ==> r.error == InvalidWellName
    ensures r.Ok? && 0 <= IndicesFromWellName(name).value.0 < 16 ==>
      r.value / 16 == IndicesFromWellName(name).value.1 && r.value % 16 == IndicesFromWellName(name).value.0
  {
    var rc :- IndicesFromWellName(name);
    Ok(rc.1 * 16 + rc.0)
  }

  /** Row letter of a plate row; plates here have at most 26 rows. */
  function RowLetter(r: nat): char
    requires r < 26
  {
    (RowBase + r) as char
  }

  /** The canonical name of the well at row r and column c of a plate. */
  function WellName(r: nat, c: nat): string
    requires r < 26
  {
    [RowLetter(r)] + NatToString(c + 1)
  }

  /** Names produced for plate wells agree with well_name_from_indices. */
  lemma WellNameAgrees(r: nat, c: nat)
    requires r < 26
    ensures WellNameFromIndices(r, c) == Ok(WellName(r, c))
  {
  }

  /** Round trip: the indices of the name built from (r, c) are (r, c), for
      every row whose letter chr() can produce and upper() leaves alone (the
      capital letters among them), and every integer column. */
  lemma WellNameRoundTrip(r: int, c: int)
    requires IsCodePoint(r + RowBase) && !IsLowerCode(r + RowBase)
    ensures WellNameFromIndices(r, c).Ok?
    ensures IndicesFromWellName(WellNameFromIndices(r, c).value) == Ok((r, c))
  {
  }

  /** The other direction: rebuilding a parsed name yields the name with its
      row letter upper-cased and its column written canonically. */
  lemma IndicesThenName(name: string)
    requires IndicesFromWellName(name).Ok?
    ensures WellNameFromIndices(IndicesFromWellName(name).value.0, IndicesFromWellName(name).value.1)
         == Ok([AsciiUpper(name[0])] + IntToString(ParseInt(name[1..]).value))
  {
    var u := AsciiUpper(name[0]);
    assert IsCodePoint(u as int);
    assert ((u as int - RowBase) + RowBase) as char == u;
  }

  /** The row letter is case-insensitive. */
  lemma IndicesIgnoreCase(c: char, rest: string)
    requires 'a' <= c <= 'z'
    ensures IndicesFromWellName([c] + rest) == IndicesFromWellName([AsciiUpper(c)] + rest)
  {
    assert ([c] + rest)[1..] == rest == ([AsciiUpper(c)] + rest)[1..];
  }

  /** The well id is col * 16 + row whatever rowsInPlate says, and decodes
      back to (row, col) for rows of a 16-row plate. */
  lemma WellIdOfName(r: int, c: int, rowsInPlate: int)
    requires 0 <= r < 16 && c >= 0
    ensures WellNameFromIndices(r, c).Ok?
    ensures WellIdFromName(WellNameFromIndices(r, c).value, rowsInPlate) == Ok(c * 16 + r)
    ensures (c * 16 + r) / 16 == c && (c * 16 + r) % 16 == r
  {
    WellNameRoundTrip(r, c);
  }
}
