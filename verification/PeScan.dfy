/** Reading the debug directory from streams that only go forward, in at most two
    passes, compared with reading it directly. */
module PeScan {
  import opened Binary
  import opened Options
  import opened PeImage

  // ---- A forward reader ----

  /** `spent` is set once the stream has ended early: nothing more can be read. */
  class Forward {
    const data: Bytes
    const len: nat
    var pos: nat
    var spent: bool
    var behind: bool

    constructor (data: Bytes, len: nat)
      ensures this.data == data && this.len == len && pos == 0 && !spent && !behind
    {
      this.data, this.len, pos, spent, behind := data, len, 0, false, false;
    }

    predicate Ready()
      reads this
    {
      !spent && !behind && pos <= |data|
    }

    /** The bytes when they lie ahead and within the file; whether it failed only
        because this pass has gone past them shows in `behind`. */
    method ReadAt(at: nat, n: nat) returns (r: Option<Bytes>)
      requires Ready()
      modifies this
      ensures pos <= |data|
      ensures r == if old(pos) <= at then Slice(data, len, at, n) else None
      ensures r.Some? ==> Ready() && pos == at + n
      ensures behind <==> at + n <= len && at < old(pos)
    {
      if at + n > len || spent {
        return None;
      }
      if at < pos {
        behind := true;
        return None;
      }
      var skip := at - pos;
      var skipped := if skip <= |data| - pos then skip else |data| - pos;
      pos := pos + skipped;
      if skipped != skip {
        return None;
      }
      if |data| - pos < n {
        spent := true;
        return None;
      }
      r := Some(data[pos..pos + n]);
      pos := pos + n;
    }
  }

  // ---- Headers ----

  /** The PE header follows the DOS header, the debug directory the section table. */
  predicate HeadersInOrder(data: Bytes, len: nat) {
    (Slice(data, len, 0, 64).Some? ==> U32(Slice(data, len, 0, 64).value, 0x3C) >= 64) &&
    (FindDirectory(data, len).Place? ==> FindDirectory(data, len).at >= FindDirectory(data, len).headersEnd)
  }

  function DirectoryEnd(data: Bytes, len: nat): nat
    requires FindDirectory(data, len).Place?
  {
    FindDirectory(data, len).at + FindDirectory(data, len).entries * DEBUG_ENTRY_SIZE
  }

  method LocateDirectory(file: Forward) returns (place: Place)
    requires file.Ready() && file.pos == 0
    modifies file
    ensures var pe := Slice(file.data, file.len, 0, 64);
      place == if pe.Some? && U32(pe.value, 0x3C) < 64 then NoPlace(None) else FindDirectory(file.data, file.len)
    ensures place.Place? ==> file.Ready() && file.pos == place.headersEnd
  {
    var dos := file.ReadAt(0, 64);
    if dos.None? || !IsDos(dos.value) {
      return NoPlace(None);
    }
    var pe := U32(dos.value, 0x3C);
    var coff := file.ReadAt(pe, 24);
    if coff.None? || Coff(coff.value).None? {
      return NoPlace(None);
    }
    var (sections, size) := Coff(coff.value).value;
    var optional := file.ReadAt(pe + 24, size);
    if optional.None? {
      return NoPlace(None);
    }
    var header := ReadOptional(optional.value);
    if !header.Debug? {
      return NoPlace(if header.NoDebugData? then Some(NoEntries) else None);
    }
    var table := file.ReadAt(pe + 24 + size, sections * SECTION_SIZE);
    if table.None? {
      return NoPlace(None);
    }
    var at := Offset(table.value, sections, header.rva, 0);
    if at.None? {
      return NoPlace(None);
    }
    place := Place(file.pos, at.value, Entries(header.size));
  }

  method LocateRecords(file: Forward) returns (located: Located)
    requires file.Ready() && file.pos == 0
    modifies file
    ensures located == Start(file.data, file.len)
    ensures located.Records? ==> file.Ready() && file.pos == DirectoryEnd(file.data, file.len)
  {
    var place := LocateDirectory(file);
    if place.NoPlace? {
      return Answer(place.directory);
    }
    var directory := file.ReadAt(place.at, place.entries * DEBUG_ENTRY_SIZE);
    if directory.None? {
      return Answer(None);
    }
    located := Records(RecordsOf(directory.value, place.entries));
  }

  // ---- Records ----

  /** A forward pass at `pos` reaches every record's data. */
  predicate Fits(size: nat, len: nat, records: seq<Record>, pos: nat) {
    records == [] ||
    if !records[0].Reads() then Fits(size, len, records[1..], pos)
    else pos <= records[0].pointer && records[0].End() <= len && records[0].End() <= size && Fits(size, len, records[1..], records[0].End())
  }

  /** The first record it does not reach lies in the file but behind it. */
  predicate FallsBehind(size: nat, len: nat, records: seq<Record>, pos: nat) {
    records != [] &&
    if !records[0].Reads() then FallsBehind(size, len, records[1..], pos)
    else if records[0].End() > len then false
    else if records[0].pointer < pos then true
    else records[0].End() <= size && FallsBehind(size, len, records[1..], records[0].End())
  }

  method ReadRecords(file: Forward, records: seq<Record>) returns (r: Option<DebugDirectory>)
    requires file.Ready()
    modifies file
    ensures r == if Fits(|file.data|, file.len, records, old(file.pos)) then Collect(file.data, file.len, records, NoEntries) else None
    ensures file.behind <==> FallsBehind(|file.data|, file.len, records, old(file.pos))
  {
    var out := NoEntries;
    for n := 0 to |records|
      invariant file.Ready()
      invariant Fits(|file.data|, file.len, records, old(file.pos)) <==> Fits(|file.data|, file.len, records[n..], file.pos)
      invariant FallsBehind(|file.data|, file.len, records, old(file.pos)) <==> FallsBehind(|file.data|, file.len, records[n..], file.pos)
      invariant Collect(file.data, file.len, records, NoEntries) == Collect(file.data, file.len, records[n..], out)
    {
      assert records[n..][0] == records[n] && records[n..][1..] == records[n + 1..];
      if records[n].Reads() {
        var data := file.ReadAt(records[n].pointer, records[n].ReadSize());
        if data.None? {
          return None;
        }
        out := Add(out, records[n], data.value);
      }
    }
    r := Some(out);
  }

  // ---- Passes ----

  datatype Pass = Done(directory: Option<DebugDirectory>) | Again

  class DebugDirectoryScan {
    const len: nat
    var pending: Option<seq<Record>>

    constructor (len: nat)
      ensures this.len == Declared(len) && pending == None
    {
      this.len, pending := if len < MAX_SCAN_BYTES then len else MAX_SCAN_BYTES, None;
    }

    /** One pass over the stream from its start. */
    method RunPass(data: Bytes) returns (pass: Pass)
      modifies this
      ensures old(pending).None? ==> pass == FirstPass(data, len)
      ensures old(pending).Some? ==> pass == PassOver(data, len, old(pending).value, 0, false)
      ensures pass.Done? ==> pending == None
      ensures pass.Again? ==> Start(data, len).Records? && pending == Some(Start(data, len).records)
    {
      var file := new Forward(data, len);
      var first := pending.None?;
      var records;
      if pending.Some? {
        records, pending := pending.value, None;
      } else {
        var located := LocateRecords(file);
        if located.Answer? {
          return Done(located.directory);
        }
        records := located.records;
      }
      FallsBehindOrOut(|data|, len, records, file.pos);
      var directory := ReadRecords(file, records);
      if directory.None? && first && file.behind {
        pending := Some(records);
        return Again;
      }
      pass := Done(directory);
    }
  }

  /** What a pass finds of the records, from `pos` on. */
  function PassOver(data: Bytes, len: nat, records: seq<Record>, pos: nat, first: bool): Pass {
    if Fits(|data|, len, records, pos) then Done(Collect(data, len, records, NoEntries))
    else if first && FallsBehind(|data|, len, records, pos) then Again
    else Done(None)
  }

  function Start(data: Bytes, len: nat): Located {
    if HeadersInOrder(data, len) then Locate(data, len) else Answer(None)
  }

  function FirstPass(data: Bytes, len: nat): Pass {
    match Start(data, len)
    case Answer(d) => Done(d)
    case Records(records) => PassOver(data, len, records, DirectoryEnd(data, len), true)
  }

  // ---- What the passes together find ----

  /** Every record that is read lies in the file. */
  predicate InBounds(size: nat, len: nat, records: seq<Record>) {
    forall r :: r in records && r.Reads() ==> r.End() <= len && r.End() <= size
  }

  predicate Apart(r: Record, t: Record) { r.Reads() && t.Reads() ==> r.End() <= t.pointer || t.End() <= r.pointer }

  /** No two records share data that is read. */
  predicate Disjoint(records: seq<Record>) {
    records == [] || ((forall r :: r in records[1..] ==> Apart(records[0], r)) && Disjoint(records[1..]))
  }

  predicate AllAfter(records: seq<Record>, pos: nat) {
    forall r :: r in records && r.Reads() ==> pos <= r.pointer
  }

  /** In file order, one pass reaches exactly records that lie in the file, ahead of
      it, and apart from each other. */
  lemma {:induction false} FitsExactly(size: nat, len: nat, records: seq<Record>, pos: nat)
    requires Sorted(records)
    ensures Fits(size, len, records, pos) <==> InBounds(size, len, records) && Disjoint(records) && AllAfter(records, pos)
  {
    if records != [] {
      var r, rest := records[0], records[1..];
      assert records == [r] + rest;
      FitsExactly(size, len, rest, if r.Reads() then r.End() else pos);
      if r.Reads() {
        assert (forall t :: t in rest ==> Apart(r, t)) <==> AllAfter(rest, r.End());
      }
    }
  }

  lemma {:induction false} CollectsInBounds(data: Bytes, len: nat, records: seq<Record>, out: DebugDirectory)
    ensures Collect(data, len, records, out).Some? <==> InBounds(|data|, len, records)
  {
    if records != [] {
      var r, rest := records[0], records[1..];
      assert records == [r] + rest;
      if !r.Reads() {
        CollectsInBounds(data, len, rest, out);
      } else if r.End() <= len && r.End() <= |data| {
        CollectsInBounds(data, len, rest, Add(out, r, data[r.pointer..r.End()]));
      }
    }
  }

  lemma {:induction false} FallsBehindOrOut(size: nat, len: nat, records: seq<Record>, pos: nat)
    ensures InBounds(size, len, records) ==> FallsBehind(size, len, records, pos) == !Fits(size, len, records, pos)
    ensures FallsBehind(size, len, records, pos) ==> !Fits(size, len, records, pos)
  {
    if records != [] {
      var r, rest := records[0], records[1..];
      assert records == [r] + rest;
      FallsBehindOrOut(size, len, rest, if r.Reads() then r.End() else pos);
    }
  }

  /** What the passes find: what is there, unless a header points backwards or the
      data of two records overlaps. */
  function Found(data: Bytes, len: nat): Option<DebugDirectory> {
    if !HeadersInOrder(data, len) then None
    else
      match Locate(data, len)
      case Answer(d) => d
      case Records(records) => if Disjoint(records) then Collect(data, len, records, NoEntries) else None
  }

  lemma RecordsSorted(data: Bytes, len: nat)
    requires Locate(data, len).Records?
    ensures Sorted(Locate(data, len).records)
  {
    var p := FindDirectory(data, len);
    RecordsAreSorted(Slice(data, len, p.at, p.entries * DEBUG_ENTRY_SIZE).value, p.entries);
  }

  /** The first pass answers, or the second does; together they find `Found`. */
  lemma PassesFind(data: Bytes, len: nat)
    ensures FirstPass(data, len).Done? ==> FirstPass(data, len).directory == Found(data, len)
    ensures FirstPass(data, len).Again? ==>
      Start(data, len).Records? && PassOver(data, len, Start(data, len).records, 0, false) == Done(Found(data, len))
  {
    if Locate(data, len).Records? {
      var records := Locate(data, len).records;
      RecordsSorted(data, len);
      CollectsInBounds(data, len, records, NoEntries);
      FitsExactly(|data|, len, records, 0);
      if HeadersInOrder(data, len) {
        FitsExactly(|data|, len, records, DirectoryEnd(data, len));
        FallsBehindOrOut(|data|, len, records, DirectoryEnd(data, len));
      }
    }
  }

  /** The headers lie in file order and no two records share data. */
  predicate WellLaidOut(data: Bytes, len: nat) {
    HeadersInOrder(data, len) && (Locate(data, len).Records? ==> Disjoint(Locate(data, len).records))
  }

  /** The caller's loop, opening the stream again as long as it is told to. For every
      file and every declared length it ends after one or two passes; it finds what
      random access finds exactly when the file is well laid out or holds nothing. */
  method ReadDebugDirectory(data: Bytes, len: nat) returns (directory: Option<DebugDirectory>, passes: nat)
    ensures WellLaidOut(data, Declared(len)) ==> directory == Directory(data, len)
    ensures !WellLaidOut(data, Declared(len)) ==> directory.None?
    ensures directory == Directory(data, len) <==> Directory(data, len).None? || WellLaidOut(data, Declared(len))
    ensures passes == if FirstPass(data, Declared(len)).Again? then 2 else 1
  {
    PassesFind(data, Declared(len));
    var scan := new DebugDirectoryScan(len);
    passes := 0;
    while true
      invariant scan.len == Declared(len)
      invariant passes == 0 ==> scan.pending.None?
      invariant passes == 1 ==>
        FirstPass(data, scan.len).Again? && Start(data, scan.len).Records? && scan.pending == Some(Start(data, scan.len).records)
      invariant passes <= 1
      decreases 2 - passes
    {
      var pass := scan.RunPass(data);
      passes := passes + 1;
      if pass.Done? {
        return pass.directory, passes;
      }
    }
  }

  /** With records in the file and apart, a second pass is needed exactly when one
      that is read starts before the end of the directory. */
  lemma SecondPassExactly(data: Bytes, len: nat)
    ensures HeadersInOrder(data, len) && Locate(data, len).Records? ==>
      var records := Locate(data, len).records;
      Disjoint(records) && InBounds(|data|, len, records) ==>
        (FirstPass(data, len).Again? <==> exists r :: r in records && r.Reads() && r.pointer < DirectoryEnd(data, len))
  {
    if HeadersInOrder(data, len) && Locate(data, len).Records? {
      var records := Locate(data, len).records;
      RecordsSorted(data, len);
      FitsExactly(|data|, len, records, DirectoryEnd(data, len));
      FallsBehindOrOut(|data|, len, records, DirectoryEnd(data, len));
    }
  }
}
