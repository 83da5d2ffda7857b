/** A file whose debug directory random access reads and no forward pass does: two of its
    records have the same data. */
module PeWitness {
  import opened Binary
  import opened Options
  import opened PeImage
  import opened PeScan

  function Zeros(n: nat): (b: Bytes)
    ensures |b| == n
  {
    seq(n, _ => 0)
  }

  const DOS: Bytes := ['M' as int, 'Z' as int] + Zeros(58) + Le32(64)
  const COFF: Bytes := ['P' as int, 'E' as int, 0, 0] + Zeros(2) + Le16(1) + Zeros(12) + Le16(152) + Zeros(2)
  const OPTIONAL: Bytes := Le16(0x10b) + Zeros(90) + Le32(7) + Zeros(48) + Le32(4096) + Le32(56)
  const SECTION: Bytes := Zeros(12) + Le32(4096) + Le32(1000) + Le32(280) + Zeros(16)
  const ENTRY: Bytes := Zeros(12) + Le32(2) + Le32(24) + Zeros(4) + Le32(336)
  const CODEVIEW: Bytes := ['R' as int, 'S' as int, 'D' as int, 'S' as int] + Zeros(20)

  const FILE: Bytes := DOS + COFF + OPTIONAL + SECTION + (ENTRY + ENTRY) + CODEVIEW

  /** A number where it was written. */
  lemma Field(before: Bytes, n: nat, rest: Bytes, b: Bytes)
    requires n < 0x1_0000_0000 && b == before + Le32(n) + rest
    ensures |before| + 4 <= |b| && U32(b, |before|) == n
  {
    var at := |before|;
    assert forall i :: 0 <= i < 4 ==> b[at + i] == Le32(n)[i];
    assert b[at] == Le32(n)[0] && b[at + 1] == Le32(n)[1] && b[at + 2] == Le32(n)[2] && b[at + 3] == Le32(n)[3];
  }

  lemma ShortField(before: Bytes, n: nat, rest: Bytes, b: Bytes)
    requires n < 0x10000 && b == before + Le16(n) + rest
    ensures |before| + 2 <= |b| && U16(b, |before|) == n
  {
    var at := |before|;
    assert b[at] == Le16(n)[0] && b[at + 1] == Le16(n)[1];
  }

  lemma DosFields()
    ensures |DOS| == 64 && IsDos(DOS) && U32(DOS, 0x3C) == 64
  {
    Field(['M' as int, 'Z' as int] + Zeros(58), 64, [], DOS);
  }

  lemma CoffFields()
    ensures |COFF| == 24 && Coff(COFF) == Some((1, 152))
  {
    var start: Bytes := ['P' as int, 'E' as int, 0, 0] + Zeros(2);
    var rest := Zeros(12) + Le16(152) + Zeros(2);
    assert COFF == start + Le16(1) + rest;
    ShortField(start, 1, rest, COFF);
    ShortField(start + Le16(1) + Zeros(12), 152, Zeros(2), COFF);
    assert COFF[..4] == ['P' as int, 'E' as int, 0, 0];
  }

  lemma OptionalFields()
    ensures |OPTIONAL| == 152 && ReadOptional(OPTIONAL) == Debug(4096, 56)
  {
    var start := Le16(0x10b) + Zeros(90);
    var tail := Le32(4096) + Le32(56);
    assert OPTIONAL == [] + Le16(0x10b) + (Zeros(90) + Le32(7) + Zeros(48) + tail);
    ShortField([], 0x10b, Zeros(90) + Le32(7) + Zeros(48) + tail, OPTIONAL);
    assert OPTIONAL == start + Le32(7) + (Zeros(48) + tail);
    Field(start, 7, Zeros(48) + tail, OPTIONAL);
    Field(start + Le32(7) + Zeros(48), 4096, Le32(56), OPTIONAL);
    Field(start + Le32(7) + Zeros(48) + Le32(4096), 56, [], OPTIONAL);
  }

  lemma SectionFields()
    ensures |SECTION| == 40 && Offset(SECTION, 1, 4096, 0) == Some(280)
  {
    var rest := Le32(280) + Zeros(16);
    assert SECTION == Zeros(12) + Le32(4096) + (Le32(1000) + rest);
    Field(Zeros(12), 4096, Le32(1000) + rest, SECTION);
    assert SECTION == Zeros(12) + Le32(4096) + Le32(1000) + rest;
    Field(Zeros(12) + Le32(4096), 1000, rest, SECTION);
    Field(Zeros(12) + Le32(4096) + Le32(1000), 280, Zeros(16), SECTION);
  }

  const RECORD := Record(2, 0, 0, 24, 336)

  lemma EntryFields()
    ensures |ENTRY| == 28 && RecordAt(ENTRY, 0) == RECORD
  {
    var rest := Zeros(4) + Le32(336);
    assert ENTRY == Zeros(12) + Le32(2) + (Le32(24) + rest);
    Field(Zeros(12), 2, Le32(24) + rest, ENTRY);
    assert ENTRY == Zeros(12) + Le32(2) + Le32(24) + rest;
    Field(Zeros(12) + Le32(2), 24, rest, ENTRY);
    Field(Zeros(12) + Le32(2) + Le32(24) + Zeros(4), 336, [], ENTRY);
  }

  lemma SecondEntry()
    ensures RecordAt(ENTRY + ENTRY, 0) == RecordAt(ENTRY + ENTRY, 1) == RECORD
  {
    EntryFields();
    var both := ENTRY + ENTRY;
    assert forall i :: 0 <= i < 28 ==> both[i] == ENTRY[i] && both[28 + i] == ENTRY[i];
  }

  lemma Entries2()
    ensures RecordsOf(ENTRY + ENTRY, 2) == [RECORD, RECORD]
  {
    EntryFields();
    SecondEntry();
    var both := ENTRY + ENTRY;
    assert [RECORD][1..] == [] && Insert([], RECORD) == [RECORD];
    assert RecordsOf(both, 0) == [] && RecordsOf(both, 1) == [RECORD];
    assert Insert([RECORD], RECORD) == [RECORD] + Insert([RECORD][1..], RECORD);
  }

  lemma Parts()
    ensures |FILE| == 360
    ensures FILE[0..64] == DOS && FILE[64..88] == COFF && FILE[88..240] == OPTIONAL && FILE[240..280] == SECTION
    ensures FILE[280..336] == ENTRY + ENTRY && FILE[336..360] == CODEVIEW
  {
    DosFields();
    CoffFields();
    OptionalFields();
    SectionFields();
    EntryFields();
  }

  lemma TheDirectoryIsFound()
    ensures FindDirectory(FILE, 360) == Place(280, 280, 2) && Locate(FILE, 360) == Records([RECORD, RECORD])
  {
    Parts();
    DosFields();
    CoffFields();
    OptionalFields();
    SectionFields();
    Entries2();
  }

  /** Random access finds the debug directory of the file; the forward reader answers that
      there is none. */
  method OverlappingRecordsAreNotRead() returns (data: Bytes, forward: Option<DebugDirectory>, passes: nat)
    ensures Directory(data, |data|).Some? && HeadersInOrder(data, |data|) && !WellLaidOut(data, Declared(|data|))
    ensures forward.None?
  {
    data := FILE;
    TheDirectoryIsFound();
    Parts();
    DosFields();
    CollectsInBounds(FILE, 360, [RECORD, RECORD], NoEntries);
    assert [RECORD, RECORD][1..] == [RECORD] && RECORD in [RECORD];
    forward, passes := ReadDebugDirectory(data, |data|);
  }
}
