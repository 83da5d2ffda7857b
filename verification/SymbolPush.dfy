/** One symbol push, call by call: collecting the verified files, then claiming and
    storing all of them or none. */
module SymbolPush {
  import opened Options
  import opened Symbols
  import Lexical

  // ---- Collecting the verified files ----

  /** What checking one `.pdb` entry against the package comes to. */
  datatype Entry = NotPortable | Mismatched | Matched(item: Item)

  datatype Collected = Refused | Verified(items: seq<Item>, skipped: nat)

  predicate KeyLess(a: Key, b: Key) { Lexical.PairLess((a.ssqp, a.file), (b.ssqp, b.file)) }

  predicate Ascending(items: seq<Item>) {
    forall i, j :: 0 <= i < j < |items| ==> KeyLess(items[i].key, items[j].key)
  }

  /** Two entries of one key must be the same file. */
  predicate Clash(entries: seq<Entry>) {
    exists i, j :: 0 <= i < j < |entries| && entries[i].Matched? && entries[j].Matched? &&
      entries[i].item.key == entries[j].item.key && entries[i].item.pdb != entries[j].item.pdb
  }

  function NotPortables(entries: seq<Entry>): nat {
    if entries == [] then 0
    else NotPortables(entries[..|entries| - 1]) + (if entries[|entries| - 1].NotPortable? then 1 else 0)
  }

  /** Where a key is, or belongs, in the sorted map. */
  method Find(items: seq<Item>, k: Key) returns (at: nat)
    requires Ascending(items)
    ensures at <= |items|
    ensures forall i :: 0 <= i < at ==> KeyLess(items[i].key, k)
    ensures forall i :: at <= i < |items| ==> items[i].key == k || KeyLess(k, items[i].key)
    ensures (exists i :: 0 <= i < |items| && items[i].key == k) ==> at < |items| && items[at].key == k
  {
    at := 0;
    while at < |items| && KeyLess(items[at].key, k)
      invariant at <= |items|
      invariant forall i :: 0 <= i < at ==> KeyLess(items[i].key, k)
    {
      at := at + 1;
    }
    forall i | 0 <= i < |items|
      ensures !KeyLess(k, k)
      ensures at <= i ==> items[i].key == k || KeyLess(k, items[i].key)
    {
      Lexical.PairOrder((k.ssqp, k.file), (items[i].key.ssqp, items[i].key.file), (k.ssqp, k.file));
      if at < i {
        Lexical.PairOrder((k.ssqp, k.file), (items[at].key.ssqp, items[at].key.file), (items[i].key.ssqp, items[i].key.file));
      }
    }
  }

  lemma AscendingIsDistinct(items: seq<Item>)
    requires Ascending(items)
    ensures DistinctKeys(items)
  {
    forall i, j | 0 <= i < j < |items| ensures items[i].key != items[j].key {
      var k := items[i].key;
      Lexical.PairOrder((k.ssqp, k.file), (k.ssqp, k.file), (k.ssqp, k.file));
    }
  }

  /** The files collected so far are those matched so far. */
  ghost predicate Holds(items: seq<Item>, entries: seq<Entry>) {
    Ascending(items) && !Clash(entries) && Mismatched !in entries && forall x :: x in items <==> Matched(x) in entries
  }

  lemma NoMatchMore(items: seq<Item>, entries: seq<Entry>)
    requires Holds(items, entries)
    ensures Holds(items, entries + [NotPortable])
  {
    assert (entries + [NotPortable])[..|entries|] == entries;
  }

  lemma SameAgain(items: seq<Item>, entries: seq<Entry>, x: Item)
    requires Holds(items, entries) && x in items
    ensures Holds(items, entries + [Matched(x)])
  {
    AscendingIsDistinct(items);
    forall i | 0 <= i < |entries| && entries[i].Matched? && entries[i].item.key == x.key ensures entries[i].item == x {
      assert Matched(entries[i].item) in entries;
    }
  }

  lemma Another(items: seq<Item>, entries: seq<Entry>, x: Item, at: nat)
    requires Holds(items, entries) && at <= |items|
    requires (forall i :: 0 <= i < at ==> KeyLess(items[i].key, x.key)) && (forall i :: at <= i < |items| ==> KeyLess(x.key, items[i].key))
    ensures Holds(items[..at] + [x] + items[at..], entries + [Matched(x)])
  {
    var more := items[..at] + [x] + items[at..];
    forall y ensures y in more <==> y in items || y == x {
      assert items == items[..at] + items[at..];
    }
    assert Ascending(more);
    var k := x.key;
    Lexical.PairOrder((k.ssqp, k.file), (k.ssqp, k.file), (k.ssqp, k.file));
    forall i | 0 <= i < |entries| && entries[i].Matched? ensures entries[i].item.key != x.key {
      assert Matched(entries[i].item) in entries;
    }
  }

  lemma ClashFound(items: seq<Item>, entries: seq<Entry>, n: nat, y: Item)
    requires n < |entries| && Matched(y) in entries[..n] && entries[n].Matched?
    requires entries[n].item.key == y.key && entries[n].item.pdb != y.pdb
    ensures Clash(entries)
  {
    var i :| 0 <= i < n && entries[..n][i] == Matched(y);
    assert entries[i] == Matched(y);
  }

  /** Refused exactly when an entry does not match the package or two entries of one
      key differ; otherwise every matched file once, in the order its key is locked. */
  method Collect(entries: seq<Entry>) returns (r: Collected)
    ensures r.Refused? <==> Mismatched in entries || Clash(entries)
    ensures r.Verified? ==> Ascending(r.items) && DistinctKeys(r.items)
    ensures r.Verified? ==> forall x :: x in r.items <==> Matched(x) in entries
    ensures r.Verified? ==> r.skipped == NotPortables(entries)
  {
    var items: seq<Item> := [];
    var skipped := 0;
    for n := 0 to |entries|
      invariant Holds(items, entries[..n])
      invariant skipped == NotPortables(entries[..n])
    {
      assert entries[..n + 1] == entries[..n] + [entries[n]] && entries[..n + 1][..n] == entries[..n];
      if entries[n].Mismatched? {
        return Refused;
      }
      if entries[n].Matched? {
        var x := entries[n].item;
        var at := Find(items, x.key);
        if at < |items| && items[at].key == x.key {
          if items[at].pdb != x.pdb {
            ClashFound(items, entries, n, items[at]);
            return Refused;
          }
          SameAgain(items, entries[..n], x);
        } else {
          Another(items, entries[..n], x, at);
          items := items[..at] + [x] + items[at..];
        }
      } else {
        NoMatchMore(items, entries[..n]);
        skipped := skipped + 1;
      }
    }
    assert entries[..|entries|] == entries;
    AscendingIsDistinct(items);
    r := Verified(items, skipped);
  }

  // ---- Claiming and storing ----

  datatype Outcome =
    | Stored(claimed: seq<Key>)
      // Decided before anything is written.
    | Conflict
    | Unavailable
      // A later call failed; `undone` says whether every call of the undo worked.
    | Failed(undone: bool)

  /** A file the push may not publish: its key belongs to another package, or has
      other bytes, or is another version's claim without bytes. */
  predicate Conflicts(rows: map<Key, Ver>, bytes: map<Key, Pdb>, ver: Ver, x: Item) {
    x.key in rows &&
    (rows[x.key].lowerId != ver.lowerId || (if x.key in bytes then bytes[x.key] != x.pdb else rows[x.key] != ver))
  }

  function FilesOf(items: seq<Item>): map<Key, Pdb> {
    if items == [] then map[]
    else FilesOf(items[..|items| - 1])[items[|items| - 1].key := items[|items| - 1].pdb]
  }

  lemma {:induction false} FilesAreTheItems(items: seq<Item>)
    requires DistinctKeys(items)
    ensures forall x :: x in items <==> x.key in FilesOf(items) && FilesOf(items)[x.key] == x.pdb
  {
    if items != [] {
      FilesAreTheItems(items[..|items| - 1]);
      assert items == items[..|items| - 1] + [items[|items| - 1]];
    }
  }

  /** The rows after claiming every key that has none. */
  function Claimed(rows: map<Key, Ver>, files: map<Key, Pdb>, ver: Ver): map<Key, Ver> {
    map k | k in rows.Keys + files.Keys :: if k in rows then rows[k] else ver
  }

  /** What a client can download: bytes under a row. */
  function Served(rows: map<Key, Ver>, bytes: map<Key, Pdb>): map<Key, Pdb> {
    map k | k in rows && k in bytes :: bytes[k]
  }

  /** Everything is published: the new keys are this version's, every file is stored,
      and nothing else changed. */
  predicate Published(rows: map<Key, Ver>, bytes: map<Key, Pdb>, rows': map<Key, Ver>, bytes': map<Key, Pdb>,
                      ver: Ver, files: map<Key, Pdb>)
  {
    rows' == Claimed(rows, files, ver) && bytes' == bytes + files
  }

  /** Nothing is published: the rows are back, and what is served is what was served,
      plus files put back under rows this version already owned without bytes. */
  predicate Withdrawn(rows: map<Key, Ver>, bytes: map<Key, Pdb>, rows': map<Key, Ver>, bytes': map<Key, Pdb>,
                      ver: Ver, files: map<Key, Pdb>)
  {
    rows' == rows &&
    (forall k :: k in Served(rows, bytes) ==> k in bytes' && bytes'[k] == bytes[k]) &&
    (forall k :: k in Served(rows, bytes') && k !in bytes ==> rows[k] == ver && k in files && bytes'[k] == files[k])
  }

  lemma NextFile(items: seq<Item>, n: nat)
    requires DistinctKeys(items) && n < |items|
    ensures items[n].key !in FilesOf(items[..n])
    ensures FilesOf(items[..n + 1]) == FilesOf(items[..n])[items[n].key := items[n].pdb]
  {
    FilesAreTheItems(items[..n]);
    assert items[..n + 1][..n] == items[..n];
    assert forall k :: k in FilesOf(items[..n]) ==> Item(k, FilesOf(items[..n])[k]) in items[..n];
  }

  /** Publishing one more file. */
  lemma Grow(rows: map<Key, Ver>, bytes: map<Key, Pdb>, ver: Ver, files: map<Key, Pdb>, x: Item)
    requires x.key !in files && !Conflicts(rows, bytes, ver, x)
    ensures var more := files[x.key := x.pdb];
      Claimed(rows, more, ver) == (if x.key in rows then Claimed(rows, files, ver) else Claimed(rows, files, ver)[x.key := ver]) &&
      bytes + more == (if x.key in rows && x.key in bytes then bytes + files else (bytes + files)[x.key := x.pdb])
  {
  }

  lemma Unclaim(rows: map<Key, Ver>, ver: Ver, files: map<Key, Pdb>, k: Key)
    ensures Claimed(rows, files, ver) - (files.Keys - rows.Keys) == rows
    ensures k !in rows ==> Claimed(rows, files, ver)[k := ver] - (files.Keys - rows.Keys + {k}) == rows
  {
  }

  /** Undoing the claims takes everything back but what filled in missing bytes. */
  lemma Undo(rows: map<Key, Ver>, bytes: map<Key, Pdb>, ver: Ver, files: map<Key, Pdb>, all: map<Key, Pdb>, gone: set<Key>)
    requires forall k :: k in files ==> k in all && files[k] == all[k] && !Conflicts(rows, bytes, ver, Item(k, files[k]))
    requires gone !! rows.Keys && files.Keys - rows.Keys <= gone
    ensures Withdrawn(rows, bytes, rows, (bytes + files) - gone, ver, all)
  {
  }

  lemma NoConflictSoFar(items: seq<Item>, n: nat, rows: map<Key, Ver>, bytes: map<Key, Pdb>, ver: Ver)
    requires DistinctKeys(items) && n <= |items| && forall x :: x in items ==> !Conflicts(rows, bytes, ver, x)
    ensures var files, all := FilesOf(items[..n]), FilesOf(items);
      forall k :: k in files ==> k in all && files[k] == all[k] && !Conflicts(rows, bytes, ver, Item(k, files[k]))
  {
    FilesAreTheItems(items);
    FilesAreTheItems(items[..n]);
    var files := FilesOf(items[..n]);
    forall k | k in files ensures Item(k, files[k]) in items {
      assert Item(k, files[k]) in items[..n];
    }
  }

  method Call() returns (ok: bool) {
    ok := *;
  }

  class SymbolStore {
    var rows: map<Key, Ver>
    var bytes: map<Key, Pdb>

    /** Best effort: each call may fail and the rest still run. */
    method Release(claimed: seq<Key>) returns (undone: bool)
      modifies this
      ensures undone ==> rows == old(rows) - (set k | k in claimed) && bytes == old(bytes) - (set k | k in claimed)
      ensures rows.Keys <= old(rows).Keys && forall k :: k in rows ==> rows[k] == old(rows)[k]
      ensures forall k :: k in old(rows) && k !in rows ==> k in claimed
      ensures bytes.Keys <= old(bytes).Keys && forall k :: k in bytes ==> bytes[k] == old(bytes)[k]
      ensures forall k :: k in old(bytes) && k !in bytes ==> k in claimed
    {
      undone := true;
      for n := 0 to |claimed|
        invariant undone ==> rows == old(rows) - (set k | k in claimed[..n]) && bytes == old(bytes) - (set k | k in claimed[..n])
        invariant rows.Keys <= old(rows).Keys && forall k :: k in rows ==> rows[k] == old(rows)[k]
        invariant forall k :: k in old(rows) && k !in rows ==> k in claimed
        invariant bytes.Keys <= old(bytes).Keys && forall k :: k in bytes ==> bytes[k] == old(bytes)[k]
        invariant forall k :: k in old(bytes) && k !in bytes ==> k in claimed
      {
        assert claimed[..n + 1] == claimed[..n] + [claimed[n]];
        var ok := Call();
        if ok {
          rows := rows - {claimed[n]};
        } else {
          undone := false;
        }
        ok := Call();
        if ok {
          bytes := bytes - {claimed[n]};
        } else {
          undone := false;
        }
      }
      assert claimed[..|claimed|] == claimed;
    }

    /** Nothing is written unless every file may be published. */
    method Decide(ver: Ver, items: seq<Item>) returns (r: Option<seq<Plan>>, conflict: bool)
      ensures conflict ==> exists x :: x in items && Conflicts(rows, bytes, ver, x)
      ensures r.Some? ==> |r.value| == |items| && forall i :: 0 <= i < |items| ==>
        !Conflicts(rows, bytes, ver, items[i]) &&
        (r.value[i].Claim? <==> items[i].key !in rows) &&
        (r.value[i].Unchanged? <==> items[i].key in rows && items[i].key in bytes)
    {
      var plans: seq<Plan> := [];
      for n := 0 to |items|
        invariant |plans| == n
        invariant forall i :: 0 <= i < n ==>
          !Conflicts(rows, bytes, ver, items[i]) &&
          (plans[i].Claim? <==> items[i].key !in rows) &&
          (plans[i].Unchanged? <==> items[i].key in rows && items[i].key in bytes)
      {
        var x := items[n];
        var ok := Call();
        if !ok {
          return None, false;
        }
        if x.key !in rows {
          plans := plans + [Claim];
        } else {
          var owner := rows[x.key];
          if owner.lowerId != ver.lowerId {
            assert Conflicts(rows, bytes, ver, items[n]);
            return None, true;
          }
          ok := Call();
          if !ok {
            return None, false;
          }
          if x.key in bytes {
            if bytes[x.key] != x.pdb {
              assert Conflicts(rows, bytes, ver, items[n]);
              return None, true;
            }
            plans := plans + [Unchanged];
          } else if owner == ver {
            plans := plans + [Restore];
          } else {
            assert Conflicts(rows, bytes, ver, items[n]);
            return None, true;
          }
        }
      }
      r, conflict := Some(plans), false;
    }

    /** Claim and store one file as planned. */
    method Put(ver: Ver, x: Item, plan: Plan) returns (ok: bool, claimed: bool)
      requires plan.Claim? ==> x.key !in rows
      modifies this
      ensures claimed ==> plan.Claim?
      ensures rows == if claimed then old(rows)[x.key := ver] else old(rows)
      ensures bytes == if ok && !plan.Unchanged? then old(bytes)[x.key := x.pdb] else old(bytes)
      ensures ok && plan.Claim? ==> claimed
    {
      ok, claimed := true, false;
      if plan.Claim? {
        ok := Call();
        if !ok || x.key in rows {
          return false, false;
        }
        rows := rows[x.key := ver];
        claimed := true;
      }
      if !plan.Unchanged? {
        ok := Call();
        if ok {
          bytes := bytes[x.key := x.pdb];
        }
      }
    }

    /** The next file, after `files` were published over `rows0` and `bytes0`. */
    method StoreNext(ver: Ver, x: Item, plan: Plan, claimed: seq<Key>,
                     ghost rows0: map<Key, Ver>, ghost bytes0: map<Key, Pdb>, ghost files: map<Key, Pdb>)
      returns (ok: bool, claimed': seq<Key>)
      requires Published(rows0, bytes0, rows, bytes, ver, files) && (set k | k in claimed) == files.Keys - rows0.Keys
      requires x.key !in files && !Conflicts(rows0, bytes0, ver, x)
      requires (plan.Claim? <==> x.key !in rows0) && (plan.Unchanged? <==> x.key in rows0 && x.key in bytes0)
      modifies this
      ensures ok ==> Published(rows0, bytes0, rows, bytes, ver, files[x.key := x.pdb])
      ensures ok ==> (set k | k in claimed') == files[x.key := x.pdb].Keys - rows0.Keys
      ensures !ok ==> bytes == bytes0 + files
      ensures !ok ==> var gone := set k | k in claimed'; rows - gone == rows0 && gone !! rows0.Keys && files.Keys - rows0.Keys <= gone
    {
      Grow(rows0, bytes0, ver, files, x);
      var claim;
      ok, claim := Put(ver, x, plan);
      claimed' := if claim then claimed + [x.key] else claimed;
      assert (set k | k in claimed') == (set k | k in claimed) + (if claim then {x.key} else {});
      assert !ok ==> rows - (set k | k in claimed') == rows0 by {
        Unclaim(rows0, ver, files, x.key);
      }
    }

    /** All or nothing, for whichever call fails. */
    method StoreAll(ver: Ver, items: seq<Item>) returns (r: Outcome)
      requires DistinctKeys(items)
      modifies this
      ensures r.Conflict? || r.Unavailable? ==> rows == old(rows) && bytes == old(bytes)
      ensures r.Conflict? ==> exists x :: x in items && Conflicts(old(rows), old(bytes), ver, x)
      ensures r.Stored? || r.Failed? ==> forall x :: x in items ==> !Conflicts(old(rows), old(bytes), ver, x)
      ensures r.Stored? ==> Published(old(rows), old(bytes), rows, bytes, ver, FilesOf(items))
      ensures r.Stored? ==> (set k | k in r.claimed) == FilesOf(items).Keys - old(rows).Keys
      ensures r == Failed(true) ==> Withdrawn(old(rows), old(bytes), rows, bytes, ver, FilesOf(items))
    {
      var plans, conflict := Decide(ver, items);
      if plans.None? {
        return if conflict then Conflict else Unavailable;
      }
      assert forall x :: x in items ==> !Conflicts(rows, bytes, ver, x);
      var claimed: seq<Key> := [];
      for n := 0 to |items|
        invariant Published(old(rows), old(bytes), rows, bytes, ver, FilesOf(items[..n]))
        invariant (set k | k in claimed) == FilesOf(items[..n]).Keys - old(rows).Keys
      {
        NextFile(items, n);
        var ok;
        ok, claimed := StoreNext(ver, items[n], plans.value[n], claimed, old(rows), old(bytes), FilesOf(items[..n]));
        if !ok {
          NoConflictSoFar(items, n, old(rows), old(bytes), ver);
          Undo(old(rows), old(bytes), ver, FilesOf(items[..n]), FilesOf(items), set k | k in claimed);
          var undone := Release(claimed);
          return Failed(undone);
        }
      }
      assert items[..|items|] == items;
      r := Stored(claimed);
    }

    /** The whole push, ending with the symbol package itself: all or nothing. */
    method Push(ver: Ver, items: seq<Item>) returns (r: Outcome)
      requires DistinctKeys(items)
      modifies this
      ensures r.Conflict? || r.Unavailable? ==> rows == old(rows) && bytes == old(bytes)
      ensures r.Stored? ==> Published(old(rows), old(bytes), rows, bytes, ver, FilesOf(items))
      ensures r == Failed(true) ==> Withdrawn(old(rows), old(bytes), rows, bytes, ver, FilesOf(items))
    {
      r := StoreAll(ver, items);
      if r.Stored? {
        var ok := Call();
        if !ok {
          NoConflictSoFar(items, |items|, old(rows), old(bytes), ver);
          assert items[..|items|] == items;
          Undo(old(rows), old(bytes), ver, FilesOf(items), FilesOf(items), set k | k in r.claimed);
          Unclaim(old(rows), ver, FilesOf(items), Key("", ""));
          var undone := Release(r.claimed);
          r := Failed(undone);
        }
      }
    }
  }
}
