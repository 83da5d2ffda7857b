/** The headers of a PE image and the records of its debug directory, as they are
    found when every offset can be read directly. */
module PeImage {
  import opened Binary
  import opened Options

  const MAX_SCAN_BYTES: nat := 256 * 1024 * 1024
  const MAX_SECTIONS: nat := 96
  const MAX_OPTIONAL_SIZE: nat := 1024
  const MAX_DEBUG_ENTRIES: nat := 64
  const DEBUG_ENTRY_SIZE: nat := 28
  const SECTION_SIZE: nat := 40
  const DEBUG_TYPE_CODEVIEW: nat := 2
  const DEBUG_TYPE_PDB_CHECKSUM: nat := 19
  const PORTABLE_CODEVIEW_MINOR: nat := 0x504D

  datatype CodeView = CodeView(guid: Bytes, age: nat, stamp: nat, portable: bool)
  datatype PdbChecksum = PdbChecksum(algorithm: Bytes, checksum: Bytes)
  datatype DebugDirectory = DebugDirectory(codeview: seq<CodeView>, checksums: seq<PdbChecksum>)

  const NoEntries: DebugDirectory := DebugDirectory([], [])

  /** One debug-directory entry of a kind that matters. */
  datatype Record = Record(kind: nat, stamp: nat, minor: nat, size: nat, pointer: nat) {
    /** Whether its data is read at all. */
    predicate Reads() {
      (kind == DEBUG_TYPE_CODEVIEW && size >= 24) || (kind == DEBUG_TYPE_PDB_CHECKSUM && 1 < size <= 256)
    }

    function ReadSize(): nat { if kind == DEBUG_TYPE_CODEVIEW then 24 else size }

    function End(): nat { pointer + ReadSize() }
  }

  // ---- Headers ----

  predicate IsDos(dos: Bytes)
    requires |dos| == 64
  {
    dos[0] == 'M' as int && dos[1] == 'Z' as int
  }

  /** The number of sections and the size of the optional header. */
  function Coff(coff: Bytes): Option<(nat, nat)>
    requires |coff| == 24
  {
    var sections, size := U16(coff, 6), U16(coff, 20);
    if coff[..4] != ['P' as int, 'E' as int, 0, 0] || sections > MAX_SECTIONS || size > MAX_OPTIONAL_SIZE then None
    else Some((sections, size))
  }

  datatype Optional = Unreadable | NoDebugData | Debug(rva: nat, size: nat)

  /** PE32 and PE32+ keep the data directories at different places. */
  function ReadOptional(h: Bytes): Optional {
    if |h| < 2 || (U16(h, 0) != 0x10b && U16(h, 0) != 0x20b) then Unreadable
    else
      var count := if U16(h, 0) == 0x10b then 92 else 108;
      var debug := count + 4 + 6 * 8;
      if |h| < count + 4 then Unreadable
      else if U32(h, count) <= 6 then NoDebugData
      else if |h| < debug + 8 then Unreadable
      else if U32(h, debug) == 0 || U32(h, debug + 4) == 0 then NoDebugData
      else Debug(U32(h, debug), U32(h, debug + 4))
  }

  /** The file offset of an address, in the first section whose file bytes hold it. */
  function Offset(table: Bytes, sections: nat, rva: nat, i: nat): Option<nat>
    requires |table| == sections * SECTION_SIZE && i <= sections
    decreases sections - i
  {
    if i == sections then None
    else
      var va, size, raw := U32(table, i * SECTION_SIZE + 12), U32(table, i * SECTION_SIZE + 16), U32(table, i * SECTION_SIZE + 20);
      if va <= rva < va + size then Some(raw + (rva - va)) else Offset(table, sections, rva, i + 1)
  }

  function Entries(debugSize: nat): nat {
    if debugSize / DEBUG_ENTRY_SIZE < MAX_DEBUG_ENTRIES then debugSize / DEBUG_ENTRY_SIZE else MAX_DEBUG_ENTRIES
  }

  function RecordAt(directory: Bytes, i: nat): Record
    requires (i + 1) * DEBUG_ENTRY_SIZE <= |directory|
  {
    var at := i * DEBUG_ENTRY_SIZE;
    Record(U32(directory, at + 12), U32(directory, at + 4), U16(directory, at + 10), U32(directory, at + 16), U32(directory, at + 24))
  }

  /** A stable insertion, in the order of the file. */
  function Insert(records: seq<Record>, r: Record): seq<Record> {
    if records == [] then [r]
    else if records[0].pointer <= r.pointer then [records[0]] + Insert(records[1..], r)
    else [r] + records
  }

  /** The first `n` entries that matter, sorted by where their data is. */
  function RecordsOf(directory: Bytes, n: nat): seq<Record>
    requires n * DEBUG_ENTRY_SIZE <= |directory|
  {
    if n == 0 then []
    else
      var r := RecordAt(directory, n - 1);
      if r.kind == DEBUG_TYPE_CODEVIEW || r.kind == DEBUG_TYPE_PDB_CHECKSUM then Insert(RecordsOf(directory, n - 1), r)
      else RecordsOf(directory, n - 1)
  }

  predicate Sorted(records: seq<Record>) {
    records == [] || ((forall r :: r in records[1..] ==> records[0].pointer <= r.pointer) && Sorted(records[1..]))
  }

  lemma {:induction false} InsertSorts(records: seq<Record>, r: Record)
    requires Sorted(records)
    ensures Sorted(Insert(records, r))
    ensures multiset(Insert(records, r)) == multiset(records) + multiset{r}
  {
    if records != [] {
      var first, rest := records[0], records[1..];
      assert records == [first] + rest;
      if first.pointer <= r.pointer {
        InsertSorts(rest, r);
        var inserted := Insert(rest, r);
        assert Insert(records, r)[1..] == inserted;
        forall x | x in inserted ensures first.pointer <= x.pointer {
          assert x in multiset(inserted);
          assert x == r || x in rest;
        }
      } else {
        assert Insert(records, r)[1..] == records;
      }
    }
  }

  lemma {:induction false} RecordsAreSorted(directory: Bytes, n: nat)
    requires n * DEBUG_ENTRY_SIZE <= |directory|
    ensures Sorted(RecordsOf(directory, n))
  {
    if n > 0 {
      RecordsAreSorted(directory, n - 1);
      InsertSorts(RecordsOf(directory, n - 1), RecordAt(directory, n - 1));
    }
  }

  // ---- Data of a record ----

  /** Where the first NUL is, or the length when there is none. */
  function Nul(s: Bytes): (at: nat)
    ensures at <= |s|
  {
    if s == [] || s[0] == 0 then 0 else 1 + Nul(s[1..])
  }

  /** What reading one record's data adds. */
  function Add(out: DebugDirectory, r: Record, data: Bytes): DebugDirectory
    requires r.Reads() && |data| == r.ReadSize()
  {
    if r.kind == DEBUG_TYPE_CODEVIEW then
      if data[..4] != ['R' as int, 'S' as int, 'D' as int, 'S' as int] then out
      else out.(codeview := out.codeview + [CodeView(data[4..20], U32(data, 20), r.stamp, r.minor == PORTABLE_CODEVIEW_MINOR)])
    else if Nul(data) == |data| || !IsUtf8(data[..Nul(data)]) then out
    else out.(checksums := out.checksums + [PdbChecksum(data[..Nul(data)], data[Nul(data) + 1..])])
  }

  // ---- The whole, read directly ----

  /** What a reader with random access sees of a file declared `len` bytes long. */
  function Slice(data: Bytes, len: nat, at: nat, n: nat): Option<Bytes> {
    if at + n <= len && at + n <= |data| then Some(data[at..at + n]) else None
  }

  datatype Located =
    | Answer(directory: Option<DebugDirectory>)
    | Records(records: seq<Record>)

  /** Where the debug directory is, once the headers before it hold together. */
  datatype Place = NoPlace(directory: Option<DebugDirectory>) | Place(headersEnd: nat, at: nat, entries: nat)

  function FindDirectory(data: Bytes, len: nat): Place {
    var dos := Slice(data, len, 0, 64);
    if dos.None? || !IsDos(dos.value) then NoPlace(None)
    else
      var pe := U32(dos.value, 0x3C);
      var coff := Slice(data, len, pe, 24);
      if coff.None? || Coff(coff.value).None? then NoPlace(None)
      else
        var (sections, size) := Coff(coff.value).value;
        var optional := Slice(data, len, pe + 24, size);
        if optional.None? || ReadOptional(optional.value).Unreadable? then NoPlace(None)
        else if ReadOptional(optional.value).NoDebugData? then NoPlace(Some(NoEntries))
        else
          var table := Slice(data, len, pe + 24 + size, sections * SECTION_SIZE);
          if table.None? then NoPlace(None)
          else
            var at := Offset(table.value, sections, ReadOptional(optional.value).rva, 0);
            if at.None? then NoPlace(None)
            else Place(pe + 24 + size + sections * SECTION_SIZE, at.value, Entries(ReadOptional(optional.value).size))
  }

  function Locate(data: Bytes, len: nat): Located {
    match FindDirectory(data, len)
    case NoPlace(directory) => Answer(directory)
    case Place(_, at, entries) =>
      match Slice(data, len, at, entries * DEBUG_ENTRY_SIZE)
      case None => Answer(None)
      case Some(directory) => Records(RecordsOf(directory, entries))
  }

  function Collect(data: Bytes, len: nat, records: seq<Record>, out: DebugDirectory): Option<DebugDirectory> {
    if records == [] then Some(out)
    else if !records[0].Reads() then Collect(data, len, records[1..], out)
    else
      match Slice(data, len, records[0].pointer, records[0].ReadSize())
      case None => None
      case Some(d) => Collect(data, len, records[1..], Add(out, records[0], d))
  }

  function Declared(len: nat): nat { if len < MAX_SCAN_BYTES then len else MAX_SCAN_BYTES }

  /** The debug directory of a file, read with random access. */
  function Directory(data: Bytes, len: nat): Option<DebugDirectory> {
    match Locate(data, Declared(len))
    case Answer(d) => d
    case Records(records) => Collect(data, Declared(len), records, NoEntries)
  }
}
