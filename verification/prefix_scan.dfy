/** The prefix scans of the catalogue: seek to a prefix in the sorted store, read on while keys
    start with it.  That finds exactly the keys with the prefix, and a table prefix matches the
    tables of one database only. */
module PrefixScan {
  import opened Bits
  import opened KeyEncoder
  import opened CompositeKey
  import opened ByteOrder
  import opened TableKey

  const META_DATABASE_ID: nat := 1001
  const META_TABLE_ID: nat := 1002

  /** The keys of a store, as its cursor visits them. */
  predicate Sorted(keys: seq<seq<Byte>>)
  {
    forall i, j :: 0 <= i < j < |keys| ==> BytesLess(keys[i], keys[j])
  }

  predicate StartsWith(key: seq<Byte>, prefix: seq<Byte>)
  {
    |prefix| <= |key| && key[..|prefix|] == prefix
  }

  /** The keys with a prefix, in order. */
  function Matching(keys: seq<seq<Byte>>, prefix: seq<Byte>): (r: seq<seq<Byte>>)
    decreases |keys|
  {
    if keys == [] then []
    else
      var n := |keys| - 1;
      Matching(keys[..n], prefix) + if StartsWith(keys[n], prefix) then [keys[n]] else []
  }

  /** A key with the prefix is not before it. */
  lemma {:induction false} PrefixNotAfter(key: seq<Byte>, prefix: seq<Byte>)
    requires StartsWith(key, prefix)
    ensures !BytesLess(key, prefix)
    decreases |prefix|
  {
    if prefix != [] {
      assert key[..|prefix|][0] == prefix[0];
      assert key[1..][..|prefix| - 1] == key[..|prefix|][1..];
      PrefixNotAfter(key[1..], prefix[1..]);
    }
  }

  /** Keys with a prefix are contiguous: between the prefix and a key that has it, all have it. */
  lemma {:induction false} PrefixContiguous(prefix: seq<Byte>, a: seq<Byte>, b: seq<Byte>)
    requires !BytesLess(a, prefix) && BytesLess(a, b) && StartsWith(b, prefix)
    ensures StartsWith(a, prefix)
    decreases |prefix|
  {
    if prefix != [] {
      assert b[..|prefix|][0] == prefix[0];
      assert a != [] && a[0] == prefix[0] == b[0];
      assert b[1..][..|prefix| - 1] == b[..|prefix|][1..];
      PrefixContiguous(prefix[1..], a[1..], b[1..]);
      assert a == [a[0]] + a[1..] && prefix == [prefix[0]] + prefix[1..];
      assert a[..|prefix|] == [a[0]] + a[1..][..|prefix| - 1];
    }
  }

  lemma {:induction false} NoneMatches(keys: seq<seq<Byte>>, prefix: seq<Byte>)
    requires forall k <- keys :: !StartsWith(k, prefix)
    ensures Matching(keys, prefix) == []
    decreases |keys|
  {
    if keys != [] {
      assert forall k <- keys[..|keys| - 1] :: k in keys;
      NoneMatches(keys[..|keys| - 1], prefix);
      assert keys[|keys| - 1] in keys;
    }
  }

  lemma {:induction false} MatchingConcat(a: seq<seq<Byte>>, b: seq<seq<Byte>>, prefix: seq<Byte>)
    ensures Matching(a + b, prefix) == Matching(a, prefix) + Matching(b, prefix)
    decreases |b|
  {
    if b == [] {
      assert a + b == a;
    } else {
      var n := |b| - 1;
      MatchingConcat(a, b[..n], prefix);
      assert (a + b)[..|a + b| - 1] == a + b[..n];
      assert (a + b)[|a + b| - 1] == b[n];
    }
  }

  /** Once a key after the prefix does not match, no later one does. */
  lemma NoneAfter(keys: seq<seq<Byte>>, prefix: seq<Byte>, i: nat)
    requires Sorted(keys) && i < |keys| && !BytesLess(keys[i], prefix) && !StartsWith(keys[i], prefix)
    ensures forall k <- keys[i..] :: !StartsWith(k, prefix)
  {
    forall k | k in keys[i..] ensures !StartsWith(k, prefix) {
      var j :| i <= j < |keys| && keys[j] == k;
      if StartsWith(k, prefix) {
        PrefixContiguous(prefix, keys[i], k);
      }
    }
  }

  /** The loops of DBManager::init and DBManager::open: what the scan finds is what a filter of
      the whole store finds. */
  method Scan(keys: seq<seq<Byte>>, prefix: seq<Byte>) returns (found: seq<seq<Byte>>)
    requires Sorted(keys)
    ensures found == Matching(keys, prefix)
  {
    var i := Seek(keys, prefix);
    forall k | k in keys[..i] ensures !StartsWith(k, prefix) {
      if StartsWith(k, prefix) {
        PrefixNotAfter(k, prefix);
      }
    }
    NoneMatches(keys[..i], prefix);
    found := [];
    while i < |keys|
      invariant 0 <= i <= |keys|
      invariant found == Matching(keys[..i], prefix)
      invariant forall k <- keys[i..] :: !BytesLess(k, prefix)
    {
      if !StartsWith(keys[i], prefix) {
        assert keys[i] in keys[i..];
        NoneAfter(keys, prefix, i);
        NoneMatches(keys[i..], prefix);
        MatchingConcat(keys[..i], keys[i..], prefix);
        assert keys == keys[..i] + keys[i..];
        return;
      }
      assert keys[..i + 1][..i] == keys[..i];
      found := found + [keys[i]];
      i := i + 1;
    }
    assert keys[..i] == keys;
  }

  /** The cursor's Seek: the first key that is not before the prefix. */
  method Seek(keys: seq<seq<Byte>>, prefix: seq<Byte>) returns (i: nat)
    requires Sorted(keys)
    ensures i <= |keys|
    ensures forall k <- keys[..i] :: BytesLess(k, prefix)
    ensures forall k <- keys[i..] :: !BytesLess(k, prefix)
  {
    i := 0;
    while i < |keys| && BytesLess(keys[i], prefix)
      invariant i <= |keys|
      invariant forall k <- keys[..i] :: BytesLess(k, prefix)
    {
      i := i + 1;
    }
    forall k | k in keys[i..] ensures !BytesLess(k, prefix) {
      var j :| i <= j < |keys| && keys[j] == k;
      if BytesLess(k, prefix) && j > i {
        BytesLessTransitive(keys[i], k, prefix);
      }
    }
  }

  // ---- Catalogue keys ----------------------------------------------------------------------

  predicate IsWord32(x: nat)
  {
    x < Pow2(32)
  }

  /** TableDescriptor::get_key and DatabaseDescriptor::get_key. */
  function TableKeyOf(meta: nat, db: nat, table: nat): (key: seq<Byte>)
  {
    BigEndian(meta, 4) + BigEndian(db, 4) + BigEndian(table, 4)
  }

  function DatabaseKeyOf(meta: nat, db: nat): (key: seq<Byte>)
  {
    BigEndian(meta, 4) + BigEndian(db, 4)
  }

  method GetTableKey(host: bool, meta: nat, db: nat, table: nat) returns (key: MutTableKey)
    ensures fresh(key) && key.data == TableKeyOf(meta, db, table)
  {
    hide BigEndian;
    key := new MutTableKey(host);
    key.AppendU32(meta);
    key.AppendU32(db);
    key.AppendU32(table);
  }

  method GetDatabaseKey(host: bool, meta: nat, db: nat) returns (key: MutTableKey)
    ensures fresh(key) && key.data == DatabaseKeyOf(meta, db)
  {
    hide BigEndian;
    key := new MutTableKey(host);
    key.AppendU32(meta);
    key.AppendU32(db);
  }

  /** A table's key has the prefix of a database exactly when it is that database's table: fixed
      widths leave no room for one id to run into the next. */
  lemma PrefixIsDatabase(meta: nat, db: nat, table: nat, meta2: nat, db2: nat)
    requires IsWord32(meta) && IsWord32(db) && IsWord32(meta2) && IsWord32(db2)
    ensures StartsWith(TableKeyOf(meta, db, table), DatabaseKeyOf(meta2, db2)) <==> meta == meta2 && db == db2
  {
    hide BigEndian, Pow2;
    BigEndianOrder(meta, meta2, 4);
    BigEndianOrder(db, db2, 4);
    var key, prefix := TableKeyOf(meta, db, table), DatabaseKeyOf(meta2, db2);
    assert key[..8] == BigEndian(meta, 4) + BigEndian(db, 4);
    assert key[..8][..4] == BigEndian(meta, 4) && key[..8][4..] == BigEndian(db, 4);
    assert prefix[..4] == BigEndian(meta2, 4) && prefix[4..] == BigEndian(db2, 4);
  }

  /** Tables have different keys: no part of a key is lost. */
  lemma TableKeysApart(meta: nat, db: nat, table: nat, meta2: nat, db2: nat, table2: nat)
    requires IsWord32(meta) && IsWord32(db) && IsWord32(table)
    requires IsWord32(meta2) && IsWord32(db2) && IsWord32(table2)
    ensures TableKeyOf(meta, db, table) == TableKeyOf(meta2, db2, table2)
       <==> meta == meta2 && db == db2 && table == table2
  {
    hide BigEndian, Pow2;
    BigEndianOrder(meta, meta2, 4);
    BigEndianOrder(db, db2, 4);
    BigEndianOrder(table, table2, 4);
    var a, b := TableKeyOf(meta, db, table), TableKeyOf(meta2, db2, table2);
    assert a[..4] == BigEndian(meta, 4) && a[4..8] == BigEndian(db, 4) && a[8..] == BigEndian(table, 4);
    assert b[..4] == BigEndian(meta2, 4) && b[4..8] == BigEndian(db2, 4) && b[8..] == BigEndian(table2, 4);
  }

  lemma DatabaseKeysApart(meta: nat, db: nat, meta2: nat, db2: nat)
    requires IsWord32(meta) && IsWord32(db) && IsWord32(meta2) && IsWord32(db2)
    ensures DatabaseKeyOf(meta, db) == DatabaseKeyOf(meta2, db2) <==> meta == meta2 && db == db2
  {
    hide BigEndian, Pow2;
    BigEndianOrder(meta, meta2, 4);
    BigEndianOrder(db, db2, 4);
    var a, b := DatabaseKeyOf(meta, db), DatabaseKeyOf(meta2, db2);
    assert a[..4] == BigEndian(meta, 4) && a[4..] == BigEndian(db, 4);
    assert b[..4] == BigEndian(meta2, 4) && b[4..] == BigEndian(db2, 4);
  }

  /** The first bytes of the catalogue's keys. */
  lemma CatalogueBytes()
    ensures BigEndian(META_DATABASE_ID, 4) == [0, 0, 3, 233] && BigEndian(META_TABLE_ID, 4) == [0, 0, 3, 234]
  {
  }

  /** A database's key is never mistaken for a table's: its first word is another. */
  lemma DatabaseKeyIsNoTable(db: nat, db2: nat)
    ensures !StartsWith(DatabaseKeyOf(META_DATABASE_ID, db), DatabaseKeyOf(META_TABLE_ID, db2))
  {
    hide BigEndian;
    assert Pow2(32) > 1002 by { Pow2Large(); }
    BigEndianOrder(META_DATABASE_ID, META_TABLE_ID, 4);
    assert DatabaseKeyOf(META_DATABASE_ID, db)[..4] == BigEndian(META_DATABASE_ID, 4);
    assert DatabaseKeyOf(META_TABLE_ID, db2)[..4] == BigEndian(META_TABLE_ID, 4);
    var key, prefix := DatabaseKeyOf(META_DATABASE_ID, db), DatabaseKeyOf(META_TABLE_ID, db2);
    assert key[..|prefix|] == key;
  }

  // ---- The catalogue -----------------------------------------------------------------------

  /** Databases and tables of a catalogue. */
  datatype Entry = Database(db: nat) | Table(db: nat, table: nat)

  function EntryKey(e: Entry): (key: seq<Byte>)
  {
    match e
    case Database(db) => DatabaseKeyOf(META_DATABASE_ID, db)
    case Table(db, table) => TableKeyOf(META_TABLE_ID, db, table)
  }

  /** The store's column family for descriptors holds nothing else. */
  ghost predicate IsCatalogue(keys: seq<seq<Byte>>)
  {
    Sorted(keys) && forall k <- keys :: IsEntry(k)
  }

  ghost predicate IsEntry(k: seq<Byte>)
  {
    exists e: Entry :: IsWords(e) && k == EntryKey(e)
  }

  predicate IsWords(e: Entry)
  {
    IsWord32(e.db) && (e.Table? ==> IsWord32(e.table))
  }

  /** Every database and every table has a key of its own. */
  lemma EntriesApart(e: Entry, f: Entry)
    requires IsWords(e) && IsWords(f)
    ensures EntryKey(e) == EntryKey(f) <==> e == f
  {
    hide IsWord32, TableKeyOf, DatabaseKeyOf;
    MetaIds();
    match (e, f)
    case (Database(d), Database(d2)) => DatabaseKeysApart(META_DATABASE_ID, d, META_DATABASE_ID, d2);
    case (Table(d, t), Table(d2, t2)) => TableKeysApart(META_TABLE_ID, d, t, META_TABLE_ID, d2, t2);
    case _ => DifferentLengths(e, f);
  }

  lemma DifferentLengths(e: Entry, f: Entry)
    requires e.Database? != f.Database?
    ensures EntryKey(e) != EntryKey(f)
  {
    hide BigEndian;
    assert |EntryKey(e)| == if e.Database? then 8 else 12;
    assert |EntryKey(f)| == if f.Database? then 8 else 12;
  }

  lemma {:induction false} MatchingIs(keys: seq<seq<Byte>>, prefix: seq<Byte>, k: seq<Byte>)
    ensures k in Matching(keys, prefix) <==> k in keys && StartsWith(k, prefix)
    decreases |keys|
  {
    hide StartsWith;
    if keys != [] {
      var n := |keys| - 1;
      MatchingIs(keys[..n], prefix, k);
      assert keys == keys[..n] + [keys[n]];
    }
  }

  lemma {:induction false} MatchingSorted(keys: seq<seq<Byte>>, prefix: seq<Byte>)
    requires Sorted(keys)
    ensures Sorted(Matching(keys, prefix))
    decreases |keys|
  {
    hide StartsWith, BytesLess;
    if keys != [] {
      var n := |keys| - 1;
      MatchingSorted(keys[..n], prefix);
      forall k | k in Matching(keys[..n], prefix) ensures BytesLess(k, keys[n]) {
        MatchingIs(keys[..n], prefix, k);
        var i :| 0 <= i < n && keys[i] == k;
      }
    }
  }

  /** In a sorted list nothing is there twice. */
  lemma SortedOnce(keys: seq<seq<Byte>>, i: nat, j: nat)
    requires Sorted(keys) && i < |keys| && j < |keys| && keys[i] == keys[j]
    ensures i == j
  {
    BytesLessIrreflexive(keys[i]);
  }

  /** What is found determines the tables: each is found exactly once, under its own key. */
  lemma TableFoundOnce(keys: seq<seq<Byte>>, found: seq<seq<Byte>>, db: nat, t: nat)
    requires IsCatalogue(keys) && IsWord32(db) && IsWord32(t) && Sorted(found)
    requires forall k :: k in found <==> k in keys && exists x: nat :: k == TableKeyOf(META_TABLE_ID, db, x)
    ensures EntryKey(Table(db, t)) in keys <==> exists i :: 0 <= i < |found| && found[i] == EntryKey(Table(db, t))
    ensures forall i, j :: 0 <= i < |found| && 0 <= j < |found| ==>
                  (found[i] == EntryKey(Table(db, t)) == found[j] ==> i == j)
    ensures forall e :: IsWords(e) && EntryKey(e) == EntryKey(Table(db, t)) ==> e == Table(db, t)
  {
    hide TableKeyOf, DatabaseKeyOf, Sorted, IsCatalogue, IsWord32;
    var key := EntryKey(Table(db, t));
    assert key == TableKeyOf(META_TABLE_ID, db, t);
    forall i, j | 0 <= i < |found| && 0 <= j < |found| && found[i] == key == found[j] ensures i == j {
      SortedOnce(found, i, j);
    }
    forall e | IsWords(e) && EntryKey(e) == key ensures e == Table(db, t) {
      EntriesApart(e, Table(db, t));
    }
  }

  /** The entries that the scan for the tables of a database stops at. */
  lemma TablePrefix(e: Entry, db: nat)
    requires IsWord32(e.db) && IsWord32(db)
    ensures StartsWith(EntryKey(e), DatabaseKeyOf(META_TABLE_ID, db)) <==> e.Table? && e.db == db
  {
    hide IsWord32, StartsWith, TableKeyOf, DatabaseKeyOf;
    match e
    case Database(d) => DatabaseKeyIsNoTable(d, db);
    case Table(d, t) =>
      assert IsWord32(META_TABLE_ID) by { MetaIds(); }
      PrefixIsDatabase(META_TABLE_ID, d, t, META_TABLE_ID, db);
  }

  lemma MetaIds()
    ensures IsWord32(META_TABLE_ID) && IsWord32(META_DATABASE_ID)
  {
    Pow2Large();
  }

  lemma FirstWord(e: Entry)
    ensures StartsWith(EntryKey(e), BigEndian(META_DATABASE_ID, 4)) <==> e.Database?
  {
    hide BigEndian, IsWord32, Pow2;
    assert IsWord32(META_TABLE_ID) && IsWord32(META_DATABASE_ID) by { MetaIds(); }
    assert META_TABLE_ID < Pow2(32) && META_DATABASE_ID < Pow2(32) by { Pow2Large(); }
    BigEndianOrder(META_DATABASE_ID, META_TABLE_ID, 4);
    assert EntryKey(e)[..4] == BigEndian(if e.Database? then META_DATABASE_ID else META_TABLE_ID, 4);
  }

  /** DBManager::open: the scan finds exactly the table keys of that database. */
  method OpenTables(host: bool, keys: seq<seq<Byte>>, db: nat) returns (found: seq<seq<Byte>>)
    requires IsCatalogue(keys) && IsWord32(db)
    ensures forall k :: k in found <==> k in keys && exists t: nat :: k == TableKeyOf(META_TABLE_ID, db, t)
    ensures Sorted(found)
  {
    hide StartsWith, IsWord32, TableKeyOf, DatabaseKeyOf, Sorted, Matching;
    var prefix := GetDatabaseKey(host, META_TABLE_ID, db);
    found := Scan(keys, prefix.data);
    MatchingSorted(keys, prefix.data);
    forall k ensures k in found <==> k in keys && exists t: nat :: k == TableKeyOf(META_TABLE_ID, db, t) {
      MatchingIs(keys, prefix.data, k);
      if k in keys {
        TableOf(k, db);
      }
    }
  }

  lemma TableOf(k: seq<Byte>, db: nat)
    requires IsEntry(k) && IsWord32(db)
    ensures StartsWith(k, DatabaseKeyOf(META_TABLE_ID, db)) <==> exists t: nat :: k == TableKeyOf(META_TABLE_ID, db, t)
  {
    hide StartsWith, IsWord32, TableKeyOf, DatabaseKeyOf;
    var e: Entry :| IsWords(e) && k == EntryKey(e);
    TablePrefix(e, db);
    if StartsWith(k, DatabaseKeyOf(META_TABLE_ID, db)) {
      assert k == TableKeyOf(META_TABLE_ID, db, e.table);
    }
    if t: nat :| k == TableKeyOf(META_TABLE_ID, db, t) {
      TablePrefix(Table(db, t), db);
      assert k == EntryKey(Table(db, t));
    }
  }

  /** DBManager::init: the scan finds exactly the keys of databases. */
  method InitDatabases(host: bool, keys: seq<seq<Byte>>) returns (found: seq<seq<Byte>>)
    requires IsCatalogue(keys)
    ensures forall k :: k in found <==> k in keys && exists d: nat :: k == DatabaseKeyOf(META_DATABASE_ID, d)
    ensures Sorted(found)
  {
    hide StartsWith, IsWord32, TableKeyOf, DatabaseKeyOf, BigEndian, Sorted, Matching;
    var key := new MutTableKey(host);
    key.AppendU32(META_DATABASE_ID);
    assert key.data == BigEndian(META_DATABASE_ID, 4);
    found := Scan(keys, key.data);
    MatchingSorted(keys, key.data);
    forall k ensures k in found <==> k in keys && exists d: nat :: k == DatabaseKeyOf(META_DATABASE_ID, d) {
      MatchingIs(keys, key.data, k);
      if k in keys {
        DatabaseOf(k);
      }
    }
  }

  lemma DatabaseOf(k: seq<Byte>)
    requires IsEntry(k)
    ensures StartsWith(k, BigEndian(META_DATABASE_ID, 4)) <==> exists d: nat :: k == DatabaseKeyOf(META_DATABASE_ID, d)
  {
    hide StartsWith, IsWord32, TableKeyOf, DatabaseKeyOf, BigEndian;
    var e: Entry :| IsWords(e) && k == EntryKey(e);
    FirstWord(e);
    if d: nat :| k == DatabaseKeyOf(META_DATABASE_ID, d) {
      FirstWord(Database(d));
      assert k == EntryKey(Database(d));
    }
  }

  lemma Pow2Large()
    ensures Pow2(32) == 4294967296
  {
    assert Pow2(8) == 256 by { assert Pow2(4) == 16; }
    Pow2Add(8, 8);
    Pow2Add(16, 16);
  }
}
