/** Portable PDBs: the metadata root that says where the id is (ECMA-335, II.24.2.1 and
    II.24.2.2), and the checksum that is taken with the id zeroed. */
module Pdb {
  import opened Binary
  import opened Options

  const METADATA_SIGNATURE: nat := 0x424A_5342
  const HEADER_WINDOW: nat := 64 * 1024
  const BUFFER_SIZE: nat := 64 * 1024
  const ID_SIZE: nat := 20
  const MAX_NAME: nat := 32

  /** `#Pdb` */
  const PDB_NAME: Bytes := [0x23, 0x50, 0x64, 0x62]

  function ReadU16(b: Bytes, at: nat): Option<nat> { if at + 2 <= |b| then Some(U16(b, at)) else None }

  function ReadU32(b: Bytes, at: nat): Option<nat> { if at + 4 <= |b| then Some(U32(b, at)) else None }

  /** Rounded up to a multiple of four. */
  function Padded(n: nat): nat { (n + 3) / 4 * 4 }

  // ---- Printing ----

  /** A stream header without its padding. */
  function Header(offset: nat, size: nat, name: Bytes): (b: Bytes)
    requires offset < 0x1_0000_0000 && size < 0x1_0000_0000
    ensures |b| == 8 + |name| + 1
  {
    Le32(offset) + (Le32(size) + (name + [0]))
  }

  datatype Stream = Stream(offset: nat, size: nat, name: Bytes, pad: Bytes) {
    predicate Valid() {
      offset < 0x1_0000_0000 && size < 0x1_0000_0000 &&
      |name| < MAX_NAME && 0 !in name && IsUtf8(name) && |pad| == Padded(|name| + 1) - (|name| + 1)
    }

    function Print(): (b: Bytes)
      requires Valid()
      ensures |b| == Used()
    {
      Header(offset, size, name) + pad
    }

    function Used(): nat { 8 + Padded(|name| + 1) }
  }

  predicate ValidStreams(streams: seq<Stream>) { forall s :: s in streams ==> s.Valid() }

  function PrintStreams(streams: seq<Stream>): Bytes
    requires ValidStreams(streams)
  {
    if streams == [] then [] else streams[0].Print() + PrintStreams(streams[1..])
  }

  datatype Root = Root(major: nat, minor: nat, reserved: nat, version: Bytes, pad: Bytes, flags: nat, streams: seq<Stream>) {
    predicate Valid() {
      major < 0x10000 && minor < 0x10000 && reserved < 0x1_0000_0000 && flags < 0x10000 && |streams| < 0x10000 &&
      |version| < 0x1_0000_0000 && |pad| == Padded(|version|) - |version| && ValidStreams(streams)
    }

    function PrintHead(): (h: Bytes)
      requires Valid()
      ensures |h| == 16 + Padded(|version|) + 4
    {
      (Le32(METADATA_SIGNATURE) + (Le16(major) + Le16(minor)) + Le32(reserved) + Le32(|version|)) +
      (version + pad) + (Le16(flags) + Le16(|streams|))
    }

    function Print(): Bytes
      requires Valid()
    {
      PrintHead() + PrintStreams(streams)
    }
  }

  /** Where the first `#Pdb` stream is. */
  function FirstPdb(streams: seq<Stream>): Option<nat> {
    if streams == [] then None
    else if streams[0].name == PDB_NAME then Some(streams[0].offset)
    else FirstPdb(streams[1..])
  }

  // ---- Parsing ----

  /** How long the name is that ends at the first NUL among 32 bytes; the first `len` of
      them are not it. */
  function NameLength(b: Bytes, start: nat, len: nat): (r: Option<nat>)
    ensures r.Some? ==> len <= r.value < MAX_NAME && start + r.value < |b|
    decreases MAX_NAME - len
  {
    if len >= MAX_NAME || start + len >= |b| then None
    else if b[start + len] == 0 then Some(len)
    else NameLength(b, start, len + 1)
  }

  /** The name at `start` and the bytes it takes with its padding. */
  function StreamName(b: Bytes, start: nat): (r: Option<(Bytes, nat)>)
    ensures r.Some? ==> r.value.1 == Padded(|r.value.0| + 1)
  {
    match NameLength(b, start, 0)
    case None => None
    case Some(len) => if IsUtf8(b[start..start + len]) then Some((b[start..start + len], Padded(len + 1))) else None
  }

  function FindStream(b: Bytes, pos: nat, count: nat): Option<nat>
    decreases count
  {
    if count == 0 || pos + 8 > |b| then None
    else
      match StreamName(b, pos + 8)
      case None => None
      case Some((name, used)) => if name == PDB_NAME then Some(U32(b, pos)) else FindStream(b, pos + 8 + used, count - 1)
  }

  function StreamOffset(b: Bytes): Option<nat> {
    if ReadU32(b, 0) != Some(METADATA_SIGNATURE) || ReadU32(b, 12).None? then None
    else
      var pos := 16 + Padded(U32(b, 12));
      if ReadU16(b, pos + 2).None? then None else FindStream(b, pos + 4, U16(b, pos + 2))
  }

  method ReadStreamName(b: Bytes, start: nat) returns (r: Option<(Bytes, nat)>)
    ensures r == StreamName(b, start)
  {
    for len := 0 to MAX_NAME
      invariant NameLength(b, start, 0) == NameLength(b, start, len)
    {
      if start + len >= |b| {
        return None;
      }
      if b[start + len] == 0 {
        return if IsUtf8(b[start..start + len]) then Some((b[start..start + len], Padded(len + 1))) else None;
      }
    }
    r := None;
  }

  method PdbStreamOffset(b: Bytes) returns (r: Option<nat>)
    ensures r == StreamOffset(b)
  {
    if ReadU32(b, 0) != Some(METADATA_SIGNATURE) {
      return None;
    }
    var length := ReadU32(b, 12);
    if length.None? {
      return None;
    }
    var pos: nat := 16 + Padded(length.value);
    if ReadU16(b, pos).None? || ReadU16(b, pos + 2).None? {
      return None;
    }
    var count := U16(b, pos + 2);
    r := FindPdb(b, pos + 4, count);
  }

  /** The offset, the name and the length of a stream header. */
  method ReadHeader(b: Bytes, pos: nat) returns (r: Option<(nat, Bytes, nat)>)
    ensures r == if pos + 8 > |b| || StreamName(b, pos + 8).None? then None
                 else var (name, used) := StreamName(b, pos + 8).value; Some((U32(b, pos), name, 8 + used))
  {
    var offset := ReadU32(b, pos);
    if offset.None? || ReadU32(b, pos + 4).None? {
      return None;
    }
    var name := ReadStreamName(b, pos + 8);
    if name.None? {
      return None;
    }
    r := Some((offset.value, name.value.0, 8 + name.value.1));
  }

  method FindPdb(b: Bytes, start: nat, count: nat) returns (r: Option<nat>)
    ensures r == FindStream(b, start, count)
  {
    var pos := start;
    for i := 0 to count
      invariant FindStream(b, start, count) == FindStream(b, pos, count - i)
    {
      var header := ReadHeader(b, pos);
      if header.None? {
        return None;
      }
      var (offset, name, length) := header.value;
      if name == PDB_NAME {
        return Some(offset);
      }
      pos := pos + length;
    }
    r := None;
  }

  // ---- What is printed is found ----

  /** `s` is in `b` from `pos` on. */
  predicate At(b: Bytes, pos: nat, s: Bytes) { pos + |s| <= |b| && b[pos..pos + |s|] == s }

  lemma AtParts(b: Bytes, pos: nat, s: Bytes, t: Bytes)
    ensures At(b, pos, s + t) <==> At(b, pos, s) && At(b, pos + |s|, t)
  {
    if At(b, pos, s + t) {
      assert b[pos..pos + |s|] == (s + t)[..|s|];
      assert b[pos + |s|..pos + |s| + |t|] == (s + t)[|s|..];
    }
    if At(b, pos, s) && At(b, pos + |s|, t) {
      assert b[pos..pos + |s + t|] == s + t;
    }
  }

  /** The first NUL ends the name. */
  lemma {:induction false} LengthFound(b: Bytes, start: nat, len: nat, n: nat)
    requires len <= n < MAX_NAME && start + n < |b| && b[start + n] == 0 && 0 !in b[start + len..start + n]
    ensures NameLength(b, start, len) == Some(n)
    decreases n - len
  {
    if len < n {
      assert b[start + len] == b[start + len..start + n][0];
      assert b[start + len + 1..start + n] == b[start + len..start + n][1..];
      LengthFound(b, start, len + 1, n);
    }
  }

  lemma {:induction false} LengthIsFirst(b: Bytes, start: nat, len: nat)
    ensures var n := NameLength(b, start, len); n.Some? ==> b[start + n.value] == 0 && 0 !in b[start + len..start + n.value]
    decreases MAX_NAME - len
  {
    if len < MAX_NAME && start + len < |b| && b[start + len] != 0 {
      LengthIsFirst(b, start, len + 1);
      var n := NameLength(b, start, len);
      if n.Some? {
        assert b[start + len..start + n.value] == [b[start + len]] + b[start + len + 1..start + n.value];
      }
    }
  }

  lemma NameThere(b: Bytes, start: nat, name: Bytes)
    requires |name| < MAX_NAME && 0 !in name && At(b, start, name + [0])
    ensures NameLength(b, start, 0) == Some(|name|) && b[start..start + |name|] == name
  {
    AtParts(b, start, name, [0]);
    assert b[start + |name|] == b[start + |name|..start + |name| + 1][0];
    LengthFound(b, start, 0, |name|);
  }

  lemma LengthThere(b: Bytes, start: nat)
    requires NameLength(b, start, 0).Some?
    ensures var name := b[start..start + NameLength(b, start, 0).value]; 0 !in name && At(b, start, name + [0])
  {
    LengthIsFirst(b, start, 0);
    var n := NameLength(b, start, 0).value;
    assert b[start + n..start + n + 1] == [0];
    AtParts(b, start, b[start..start + n], [0]);
  }

  /** A name that stands there, up to its NUL, is read. */
  lemma NameIsRead(b: Bytes, start: nat, name: Bytes)
    requires |name| < MAX_NAME && 0 !in name && IsUtf8(name) && At(b, start, name + [0])
    ensures StreamName(b, start) == Some((name, Padded(|name| + 1)))
  {
    NameThere(b, start, name);
  }

  /** A name that is read stands there, up to its NUL. */
  lemma ReadNameIsThere(b: Bytes, start: nat)
    requires StreamName(b, start).Some?
    ensures var name := StreamName(b, start).value.0;
      |name| < MAX_NAME && 0 !in name && IsUtf8(name) && At(b, start, name + [0])
  {
    LengthThere(b, start);
  }

  /** The stream header at `pos`, as the parser sees it. */
  predicate HeaderAt(b: Bytes, pos: nat, s: Stream) {
    pos + 8 <= |b| && U32(b, pos) == s.offset && StreamName(b, pos + 8) == Some((s.name, Padded(|s.name| + 1)))
  }

  lemma HeaderParts(b: Bytes, pos: nat, offset: nat, size: nat, name: Bytes)
    requires offset < 0x1_0000_0000 && size < 0x1_0000_0000
    ensures At(b, pos, Header(offset, size, name)) <==>
      At(b, pos, Le32(offset)) && At(b, pos + 4, Le32(size)) && At(b, pos + 8, name + [0])
  {
    AtParts(b, pos, Le32(offset), Le32(size) + (name + [0]));
    AtParts(b, pos + 4, Le32(size), name + [0]);
  }

  lemma StreamPrinted(b: Bytes, pos: nat, s: Stream)
    requires s.Valid() && At(b, pos, s.Print())
    ensures HeaderAt(b, pos, s)
  {
    AtParts(b, pos, Header(s.offset, s.size, s.name), s.pad);
    HeaderParts(b, pos, s.offset, s.size, s.name);
    SameNumber(b, pos, s.offset);
    NameIsRead(b, pos + 8, s.name);
  }

  lemma SameNumber(b: Bytes, at: nat, n: nat)
    requires n < 0x1_0000_0000 && At(b, at, Le32(n))
    ensures U32(b, at) == n
  {
    var l := Le32(n);
    assert b[at..at + 4] == l;
    assert b[at] == l[0] && b[at + 1] == l[1] && b[at + 2] == l[2] && b[at + 3] == l[3];
  }

  lemma StreamThen(b: Bytes, pos: nat, s: Stream, rest: seq<Stream>)
    requires s.Valid() && ValidStreams(rest)
    ensures ValidStreams([s] + rest) && |PrintStreams([s] + rest)| == s.Used() + |PrintStreams(rest)|
    ensures At(b, pos, PrintStreams([s] + rest)) <==> At(b, pos, s.Print()) && At(b, pos + s.Used(), PrintStreams(rest))
    ensures FirstPdb([s] + rest) == if s.name == PDB_NAME then Some(s.offset) else FirstPdb(rest)
  {
    assert ([s] + rest)[1..] == rest;
    AtParts(b, pos, s.Print(), PrintStreams(rest));
  }

  lemma FirstFound(b: Bytes, pos: nat, s: Stream, rest: seq<Stream>)
    requires s.Valid() && ValidStreams(rest) && At(b, pos, PrintStreams([s] + rest))
    ensures At(b, pos + s.Used(), PrintStreams(rest))
    ensures FindStream(b, pos, 1 + |rest|) == if s.name == PDB_NAME then Some(s.offset) else FindStream(b, pos + s.Used(), |rest|)
    ensures FirstPdb([s] + rest) == if s.name == PDB_NAME then Some(s.offset) else FirstPdb(rest)
  {
    StreamThen(b, pos, s, rest);
    StreamPrinted(b, pos, s);
    OneStream(b, pos, 1 + |rest|, s);
  }

  /** Printed streams, whatever follows them: the first `#Pdb` is found. */
  lemma {:induction false} StreamsFound(b: Bytes, pos: nat, streams: seq<Stream>)
    requires ValidStreams(streams) && At(b, pos, PrintStreams(streams))
    ensures FindStream(b, pos, |streams|) == FirstPdb(streams)
    decreases streams
  {
    if streams != [] {
      var s, rest := streams[0], streams[1..];
      assert streams == [s] + rest;
      FirstFound(b, pos, s, rest);
      StreamsFound(b, pos + s.Used(), rest);
    }
  }

  lemma OneStream(b: Bytes, pos: nat, count: nat, s: Stream)
    requires HeaderAt(b, pos, s) && count > 0
    ensures FindStream(b, pos, count) == if s.name == PDB_NAME then Some(s.offset) else FindStream(b, pos + s.Used(), count - 1)
  {
  }

  lemma HeadFound(r: Root, b: Bytes)
    requires r.Valid() && At(b, 0, r.PrintHead())
    ensures |b| >= 16 && U32(b, 0) == METADATA_SIGNATURE && U32(b, 12) == |r.version|
    ensures var pos := 16 + Padded(|r.version|);
      |r.PrintHead()| == pos + 4 <= |b| && U16(b, pos + 2) == |r.streams|
  {
    var h, pos := r.PrintHead(), 16 + Padded(|r.version|);
    var fixed := Le32(METADATA_SIGNATURE) + (Le16(r.major) + Le16(r.minor)) + Le32(r.reserved) + Le32(|r.version|);
    AtParts(b, 0, fixed + (r.version + r.pad), Le16(r.flags) + Le16(|r.streams|));
    AtParts(b, pos, Le16(r.flags), Le16(|r.streams|));
    SameShort(b, pos + 2, |r.streams|);
    AtParts(b, 0, fixed, r.version + r.pad);
    AtParts(b, 0, Le32(METADATA_SIGNATURE) + (Le16(r.major) + Le16(r.minor)) + Le32(r.reserved), Le32(|r.version|));
    AtParts(b, 0, Le32(METADATA_SIGNATURE) + (Le16(r.major) + Le16(r.minor)), Le32(r.reserved));
    AtParts(b, 0, Le32(METADATA_SIGNATURE), Le16(r.major) + Le16(r.minor));
    SameNumber(b, 0, METADATA_SIGNATURE);
    SameNumber(b, 12, |r.version|);
  }

  lemma SameShort(b: Bytes, at: nat, n: nat)
    requires n < 0x10000 && At(b, at, Le16(n))
    ensures U16(b, at) == n
  {
    assert b[at] == b[at..at + 2][0] && b[at + 1] == b[at..at + 2][1];
  }

  /** The streams behind a head are found as streams. */
  lemma HeadThenStreams(b: Bytes, pos: nat, count: nat, found: Option<nat>)
    requires |b| >= 16 && U32(b, 0) == METADATA_SIGNATURE && pos == 16 + Padded(U32(b, 12)) + 4 <= |b| && U16(b, pos - 2) == count
    requires FindStream(b, pos, count) == found
    ensures StreamOffset(b) == found
  {
  }

  /** Every printed metadata root, whatever follows it, is parsed to the offset of its
      first `#Pdb` stream, or to none when it has none. */
  lemma PrintedRootIsParsed(r: Root, rest: Bytes)
    requires r.Valid()
    ensures StreamOffset(r.Print() + rest) == FirstPdb(r.streams)
  {
    var head, streams := r.PrintHead(), PrintStreams(r.streams);
    var b := head + streams + rest;
    assert b[0..|head|] == head && b[|head|..|head| + |streams|] == streams;
    HeadFound(r, b);
    var found := FindStream(b, |head|, |r.streams|);
    StreamsFound(b, |head|, r.streams);
    HeadThenStreams(b, |head|, |r.streams|, found);
  }

  // ---- What is found was there ----

  /** The header of a `#Pdb` stream, of whatever size. */
  predicate PdbHeader(b: Bytes, pos: nat, offset: nat) {
    offset < 0x1_0000_0000 && pos + 8 <= |b| && U32(b, pos + 4) < 0x1_0000_0000 && At(b, pos, Header(offset, U32(b, pos + 4), PDB_NAME))
  }

  /** From `pos` on: headers of streams with other names, and one named `#Pdb`. */
  predicate PdbAfter(b: Bytes, pos: nat, before: seq<Stream>, offset: nat)
    decreases before
  {
    if before == [] then PdbHeader(b, pos, offset)
    else
      before[0].Valid() && before[0].name != PDB_NAME && At(b, pos, before[0].Print()) &&
      PdbAfter(b, pos + before[0].Used(), before[1..], offset)
  }

  lemma HeaderThere(b: Bytes, pos: nat, name: Bytes, used: nat)
    requires pos + 8 <= |b| && StreamName(b, pos + 8) == Some((name, used))
    ensures |name| < MAX_NAME && 0 !in name && IsUtf8(name) && U32(b, pos) < 0x1_0000_0000 && U32(b, pos + 4) < 0x1_0000_0000
    ensures At(b, pos, Header(U32(b, pos), U32(b, pos + 4), name))
  {
    ReadBack(b, pos);
    ReadBack(b, pos + 4);
    ReadNameIsThere(b, pos + 8);
    HeaderParts(b, pos, U32(b, pos), U32(b, pos + 4), name);
  }

  lemma PaddedHeader(b: Bytes, pos: nat, s: Stream)
    requires s.Valid() && At(b, pos, Header(s.offset, s.size, s.name)) && At(b, pos + 8 + |s.name| + 1, s.pad)
    ensures At(b, pos, s.Print())
  {
    AtParts(b, pos, Header(s.offset, s.size, s.name), s.pad);
  }

  lemma StreamThere(b: Bytes, pos: nat, name: Bytes, used: nat) returns (s: Stream)
    requires pos + 8 + used <= |b| && StreamName(b, pos + 8) == Some((name, used))
    ensures s.Valid() && s.name == name && At(b, pos, s.Print()) && s.Used() == 8 + used
  {
    HeaderThere(b, pos, name, used);
    var padded := pos + 8 + |name| + 1;
    s := Stream(U32(b, pos), U32(b, pos + 4), name, b[padded..pos + 8 + used]);
    PaddedHeader(b, pos, s);
  }

  lemma PdbHere(b: Bytes, pos: nat, used: nat)
    requires pos + 8 <= |b| && StreamName(b, pos + 8) == Some((PDB_NAME, used))
    ensures PdbAfter(b, pos, [], U32(b, pos))
  {
    HeaderThere(b, pos, PDB_NAME, used);
  }

  lemma PdbFurtherOn(b: Bytes, pos: nat, s: Stream, next: nat, rest: seq<Stream>, offset: nat)
    requires s.Valid() && s.name != PDB_NAME && At(b, pos, s.Print()) && next == pos + s.Used() && PdbAfter(b, next, rest, offset)
    ensures PdbAfter(b, pos, [s] + rest, offset)
  {
    assert ([s] + rest)[1..] == rest;
  }

  lemma OneBefore(b: Bytes, pos: nat, name: Bytes, used: nat, next: nat, rest: seq<Stream>, offset: nat) returns (before: seq<Stream>)
    requires next == pos + 8 + used <= |b| && StreamName(b, pos + 8) == Some((name, used)) && name != PDB_NAME
    requires PdbAfter(b, next, rest, offset)
    ensures |before| == |rest| + 1 && PdbAfter(b, pos, before, offset)
  {
    var s := StreamThere(b, pos, name, used);
    PdbFurtherOn(b, pos, s, next, rest, offset);
    before := [s] + rest;
  }

  lemma StreamSeen(b: Bytes, pos: nat, count: nat, found: nat) returns (name: Bytes, used: nat, next: nat)
    requires FindStream(b, pos, count) == Some(found)
    ensures count > 0 && pos + 8 <= |b| && StreamName(b, pos + 8) == Some((name, used)) && next == pos + 8 + used
    ensures if name == PDB_NAME then found == U32(b, pos) else FindStream(b, next, count - 1) == Some(found)
  {
    name, used := StreamName(b, pos + 8).value.0, StreamName(b, pos + 8).value.1;
    next := pos + 8 + used;
  }

  /** A stream header is followed by at least another. */
  lemma RoomForMore(b: Bytes, pos: nat, count: nat)
    requires FindStream(b, pos, count).Some?
    ensures pos + 8 <= |b|
  {
  }

  /** A `#Pdb` stream that is found has its header there, after those of streams with
      other names, and within the number of streams the root gives. */
  lemma {:induction false} FoundStreamIsThere(b: Bytes, pos: nat, count: nat, found: nat) returns (before: seq<Stream>)
    requires FindStream(b, pos, count) == Some(found)
    ensures |before| < count && PdbAfter(b, pos, before, found)
    decreases count
  {
    var name, used, next := StreamSeen(b, pos, count, found);
    if name == PDB_NAME {
      PdbHere(b, pos, used);
      before := [];
    } else {
      RoomForMore(b, next, count - 1);
      var rest := FoundStreamIsThere(b, next, count - 1, found);
      before := OneBefore(b, pos, name, used, next, rest, found);
    }
  }

  /** Whatever the input, an offset is only found behind a metadata root that names it. */
  lemma ParsedRootIsThere(b: Bytes) returns (before: seq<Stream>)
    requires StreamOffset(b).Some?
    ensures |b| >= 16 && U32(b, 0) == METADATA_SIGNATURE
    ensures var pos := 16 + Padded(U32(b, 12)) + 4;
      pos <= |b| && |before| < U16(b, pos - 2) && PdbAfter(b, pos, before, StreamOffset(b).value)
  {
    var pos := 16 + Padded(U32(b, 12)) + 4;
    before := FoundStreamIsThere(b, pos, U16(b, pos - 2), StreamOffset(b).value);
  }

  // ---- The id and the checksum ----

  datatype PdbId = PdbId(guid: Bytes, stamp: nat, offset: nat)

  lemma IdBytes(b: Bytes)
    requires |b| == ID_SIZE
    ensures U32(b, 16) < 0x1_0000_0000 && b == b[..16] + Le32(U32(b, 16))
  {
    ReadBack(b, 16);
    assert b == b[..16] + b[16..20];
  }

  /** The id is what the file holds at the start of its `#Pdb` stream, wherever the
      stream lies; only the headers must be within the first part of the file. */
  method ReadPdbId(file: Bytes) returns (id: Option<PdbId>)
    ensures var window := file[..if |file| < HEADER_WINDOW then |file| else HEADER_WINDOW];
      (id.Some? <==> StreamOffset(window).Some? && StreamOffset(window).value + ID_SIZE <= |file|) &&
      (id.Some? ==> id.value.offset == StreamOffset(window).value)
    ensures id.Some? ==>
      id.value.offset + ID_SIZE <= |file| && |id.value.guid| == 16 && id.value.stamp < 0x1_0000_0000 &&
      file[id.value.offset..id.value.offset + ID_SIZE] == id.value.guid + Le32(id.value.stamp)
  {
    var header := file[..if |file| < HEADER_WINDOW then |file| else HEADER_WINDOW];
    var offset := PdbStreamOffset(header);
    if offset.None? {
      return None;
    }
    var at := offset.value;
    var bytes: Bytes;
    if at + ID_SIZE <= |header| {
      bytes := header[at..at + ID_SIZE];
      assert bytes == file[at..at + ID_SIZE];
    } else if at + ID_SIZE <= |file| {
      bytes := file[at..at + ID_SIZE];
    } else {
      return None;
    }
    IdBytes(bytes);
    id := Some(PdbId(bytes[..16], U32(bytes, 16), at));
  }

  /** The file with its id zeroed. */
  function WithoutId(file: Bytes, offset: nat): (r: Bytes)
    ensures |r| == |file|
  {
    seq(|file|, i requires 0 <= i < |file| => if offset <= i < offset + ID_SIZE then 0 else file[i])
  }

  /** What goes into the hash, however the reader splits the file into chunks. */
  method HashWithoutId(file: Bytes, offset: nat) returns (hashed: Bytes)
    ensures hashed == WithoutId(file, offset)
  {
    hashed := [];
    var buf := new byte[BUFFER_SIZE](_ => 0);
    var pos := 0;
    while pos < |file|
      invariant pos <= |file| && hashed == WithoutId(file, offset)[..pos]
    {
      var n: nat :| 0 < n <= BUFFER_SIZE && pos + n <= |file|;
      for i := 0 to n
        invariant buf[..i] == file[pos..pos + i]
      {
        buf[i] := file[pos + i];
      }
      var end := pos + n;
      var from := if offset > pos then offset else pos;
      var to := if offset + ID_SIZE < end then offset + ID_SIZE else end;
      if from < to {
        for i := from to to
          invariant forall j :: 0 <= j < n ==> buf[j] == if from <= pos + j < i then 0 else file[pos + j]
        {
          buf[i - pos] := 0;
        }
      }
      hashed := hashed + buf[..n];
      pos := end;
    }
  }
}
