/** What the server stores: per package version the payload on disk and the
    database rows, and the blob store that all versions share.

    A hash is a free constructor over what it hashes, so equal hashes mean
    equal contents and nothing else is known about them. */
module Store {
  import opened Options

  datatype Build = Build(bytes: string)
  datatype Digest = Sha512(of: Build)
  datatype Blob = Sha256(hex: string)
  datatype Feed = Feed(name: string)
  datatype Ver = Ver(lowerId: string, normalized: string)

  /** One feed's row for a version. A version is approved in a feed that holds
      it and does not have it pending. */
  datatype Member = Member(listed: bool, enabled: bool, pending: bool, pinned: bool) {
    /** What retention may look at and delete. */
    predicate Prunable() { enabled && !pending && !pinned }
  }

  /** An attached file. `madeFor` is a history variable: the build the version's
      row described when the file was attached. */
  datatype FileRow = FileRow(blob: Blob, madeFor: Digest)

  /** One version. `unrestored` records that `overwrite` logged that it could
      not put the previous payload back. */
  datatype Version = Version(
    payload: Option<Build>,
    row: Option<Digest>,
    members: map<Feed, Member>,
    files: map<string, FileRow>,
    unrestored: bool)
  {
    predicate Held() { members.Keys != {} }

    predicate Approved() { exists f :: f in members && !members[f].pending }

    predicate ApprovedIn(f: Feed) { f in members && !members[f].pending }
  }

  const Absent: Version := Version(None, None, map[], map[], false)

  datatype World = World(versions: map<Ver, Version>, blobs: set<Blob>) {

    function At(v: Ver): Version {
      if v in versions then versions[v] else Absent
    }

    function Put(v: Ver, s: Version): World {
      this.(versions := versions[v := s])
    }

    /** The attached-file rows, across all versions, that reference a blob. */
    function References(b: Blob): set<(Ver, string)> {
      set v, n | v in versions && n in versions[v].files && versions[v].files[n].blob == b :: (v, n)
    }
  }

  /** How many of a version's own file rows reference a blob. */
  function OwnReferences(files: map<string, FileRow>, b: Blob): set<string> {
    set n | n in files && files[n].blob == b
  }

  function BlobsOf(files: map<string, FileRow>): set<Blob> {
    set n | n in files :: files[n].blob
  }
}
