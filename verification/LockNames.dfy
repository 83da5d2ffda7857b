/** The strings under which locks are registered: every kind of lock shares one
    map, so two locks must share a string exactly when they are the same lock. */
module LockNames {
  import opened Ascii
  import opened LockOrder
  import Lexical
  import Symbols
  import SymbolPush

  /** A package id holds no ':' and no '/', an SSQP key and a hash no '/'. */
  predicate WellFormed(l: Lock) {
    match l
    case Cleanup(_) => false
    case Version(id, _) => ':' !in id && '/' !in id
    case Symbol(ssqp, _) => '/' !in ssqp
    case Blob(sha) => '/' !in sha
  }

  function NameOf(l: Lock): string
    requires WellFormed(l)
  {
    match l
    case Version(id, version) => Lower(id) + "/" + Lower(version)
    case Symbol(ssqp, file) => "symbol:" + Upper(ssqp) + "/" + Lower(file)
    case Blob(sha) => "blob:" + Lower(sha)
  }

  predicate SameLock(a: Lock, b: Lock) {
    match (a, b)
    case (Version(id, version), Version(id', version')) => SameIgnoringCase(id, id') && SameIgnoringCase(version, version')
    case (Symbol(ssqp, file), Symbol(ssqp', file')) => SameIgnoringCase(ssqp, ssqp') && SameIgnoringCase(file, file')
    case (Blob(sha), Blob(sha')) => SameIgnoringCase(sha, sha')
    case _ => false
  }

  lemma FoldingKeeps(s: string, c: char)
    requires c !in s && (c == '/' || c == ':')
    ensures c !in Lower(s) && c !in Upper(s)
  {
  }

  lemma FoldsAgree(a: string, b: string)
    ensures Upper(a) == Upper(b) <==> Lower(a) == Lower(b)
  {
    if Upper(a) == Upper(b) {
      forall i | 0 <= i < |a| ensures Lower(a)[i] == Lower(b)[i] {
        assert Upper(a)[i] == Upper(b)[i];
      }
    }
    if Lower(a) == Lower(b) {
      forall i | 0 <= i < |a| ensures Upper(a)[i] == Upper(b)[i] {
        assert Lower(a)[i] == Lower(b)[i];
      }
    }
  }

  lemma PrefixesDiffer(sha: string, s: string, file: string)
    requires '/' !in sha
    ensures "blob:" + sha != "symbol:" + s + "/" + file
  {
    assert ("blob:" + sha)[0] == 'b';
  }

  lemma VersionsAreTheirOwn(v: Lock, other: Lock)
    requires WellFormed(v) && WellFormed(other) && v.Version? && !other.Version?
    ensures NameOf(v) != NameOf(other)
  {
    FoldingKeeps(v.id, '/');
    FoldingKeeps(v.id, ':');
    if other.Symbol? {
      FoldingKeeps(other.ssqp, '/');
      var kind := "symbol:" + Upper(other.ssqp);
      assert kind[6] == ':';
      if NameOf(v) == NameOf(other) {
        assert kind + "/" + Lower(other.file) == NameOf(other);
        Lexical.SplitOnce(Lower(v.id), Lower(v.version), kind, Lower(other.file), '/');
        assert false;
      }
    } else {
      FoldingKeeps(other.sha256, '/');
      assert NameOf(v)[|v.id|] == '/';
    }
  }

  lemma OneNamePerVersion(a: Lock, b: Lock)
    requires WellFormed(a) && WellFormed(b) && a.Version? && b.Version?
    ensures NameOf(a) == NameOf(b) <==> SameLock(a, b)
  {
    FoldingKeeps(a.id, '/');
    FoldingKeeps(b.id, '/');
    if NameOf(a) == NameOf(b) {
      Lexical.SplitOnce(Lower(a.id), Lower(a.version), Lower(b.id), Lower(b.version), '/');
    }
  }

  lemma OneNamePerSymbol(a: Lock, b: Lock)
    requires WellFormed(a) && WellFormed(b) && a.Symbol? && b.Symbol?
    ensures NameOf(a) == NameOf(b) <==> SameLock(a, b)
  {
    FoldingKeeps(a.ssqp, '/');
    FoldingKeeps(b.ssqp, '/');
    FoldsAgree(a.ssqp, b.ssqp);
    if NameOf(a) == NameOf(b) {
      assert NameOf(a)[7..] == Upper(a.ssqp) + "/" + Lower(a.file);
      assert NameOf(b)[7..] == Upper(b.ssqp) + "/" + Lower(b.file);
      Lexical.SplitOnce(Upper(a.ssqp), Lower(a.file), Upper(b.ssqp), Lower(b.file), '/');
    }
  }

  lemma OneNamePerBlob(a: Lock, b: Lock)
    requires WellFormed(a) && WellFormed(b) && a.Blob? && b.Blob?
    ensures NameOf(a) == NameOf(b) <==> SameLock(a, b)
  {
    assert NameOf(a)[5..] == Lower(a.sha256) && NameOf(b)[5..] == Lower(b.sha256);
  }

  lemma SymbolsAreNoBlobs(a: Lock, b: Lock)
    requires WellFormed(a) && WellFormed(b) && a.Symbol? && b.Blob?
    ensures NameOf(a) != NameOf(b)
  {
    FoldingKeeps(b.sha256, '/');
    PrefixesDiffer(Lower(b.sha256), Upper(a.ssqp), Lower(a.file));
  }

  /** Two locks are registered under one string exactly when they are one lock. */
  lemma OneNamePerLock(a: Lock, b: Lock)
    requires WellFormed(a) && WellFormed(b)
    ensures NameOf(a) == NameOf(b) <==> SameLock(a, b)
  {
    match (a, b)
    case (Version(_, _), Version(_, _)) => OneNamePerVersion(a, b);
    case (Symbol(_, _), Symbol(_, _)) => OneNamePerSymbol(a, b);
    case (Blob(_), Blob(_)) => OneNamePerBlob(a, b);
    case (Version(_, _), _) => VersionsAreTheirOwn(a, b);
    case (_, Version(_, _)) => VersionsAreTheirOwn(b, a);
    case (Symbol(_, _), Blob(_)) => SymbolsAreNoBlobs(a, b);
    case (Blob(_), Symbol(_, _)) => SymbolsAreNoBlobs(b, a);
  }

  // ---- The symbol files of one push ----

  function LocksOf(items: seq<Symbols.Item>): seq<Lock> {
    seq(|items|, i requires 0 <= i < |items| => Symbol(items[i].key.ssqp, items[i].key.file))
  }

  /** The key is upper-case hex, the file name is lower-cased when it is read. */
  predicate Folded(items: seq<Symbols.Item>) {
    forall x :: x in items ==> '/' !in x.key.ssqp && Upper(x.key.ssqp) == x.key.ssqp && Lower(x.key.file) == x.key.file
  }

  /** The files a push has collected give locks in the one order, no two of them the
      same, so it never waits for itself. */
  lemma ASymbolPushLocksInOrder(version: Lock, items: seq<Symbols.Item>)
    requires version.Version? && SymbolPush.Ascending(items) && Folded(items)
    ensures LockOrder.SymbolPush(version, LocksOf(items)).Valid()
    ensures forall i, j :: 0 <= i < j < |items| ==> NameOf(LocksOf(items)[i]) != NameOf(LocksOf(items)[j])
  {
    SymbolPush.AscendingIsDistinct(items);
    forall i, j | 0 <= i < j < |items| ensures NameOf(LocksOf(items)[i]) != NameOf(LocksOf(items)[j]) {
      assert items[i] in items && items[j] in items && items[i].key != items[j].key;
      OneNamePerLock(LocksOf(items)[i], LocksOf(items)[j]);
      FoldsAgree(items[i].key.ssqp, items[j].key.ssqp);
    }
    forall i, j | 0 <= i < j < |items| ensures Before(LocksOf(items)[i], LocksOf(items)[j]) {
      assert SymbolPush.KeyLess(items[i].key, items[j].key);
    }
  }
}
