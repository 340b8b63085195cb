/** `processMaps`: loading map files and bringing the `locations` table up to date with them. */
module Catalogue {
  import opened Prelude
  import opened Domain

  /** The table in query order, and the number its next new row gets. */
  datatype Table = Table(rows: seq<Location>, nextId: nat)

  datatype Loaded = Loaded(table: Table, allMaps: seq<Location>, idToName: map<nat, string>)

  /** Loads and ids are unique, and ids still to come are unused. */
  ghost predicate Tidy(t: Table) {
    && (forall i, j :: 0 <= i < j < |t.rows| ==> t.rows[i].name != t.rows[j].name && t.rows[i].id != t.rows[j].id)
    && (forall i :: 0 <= i < |t.rows| ==> t.rows[i].id < t.nextId)
  }

  /** The place of the first row with that name; `|rows|` when there is none. */
  function Find(rows: seq<Location>, name: string): (p: nat)
    ensures p <= |rows|
    ensures p < |rows| ==> rows[p].name == name
    ensures forall i :: 0 <= i < p ==> rows[i].name != name
  {
    if rows == [] then 0
    else
      var p := Find(rows[..|rows| - 1], name);
      if p < |rows| - 1 || rows[p].name == name then p else |rows|
  }

  /** One loaded map: a new row, a newer version written over the old one, or no change. */
  function Sync(t: Table, map_: Location): (Table, Location) {
    var p := Find(t.rows, map_.name);
    if p == |t.rows| then
      var row := map_.(id := t.nextId);
      (Table(t.rows + [row], t.nextId + 1), row)
    else
      var row := t.rows[p];
      (if map_.version > row.version
       then t.(rows := t.rows[p := row.(hash := map_.hash, version := map_.version)]) else t,
       map_.(id := row.id))
  }

  /** The whole start-up load; a file that failed to parse is skipped. */
  function Load(t: Table, files: seq<Option<Location>>): Loaded {
    if files == [] then Loaded(t, [], map[])
    else
      var before, file := Load(t, files[..|files| - 1]), files[|files| - 1];
      if file.None? then before
      else
        var (table, row) := Sync(before.table, file.value);
        Loaded(table, before.allMaps + [row],
               if row.id in before.idToName then before.idToName else before.idToName[row.id := row.name])
  }

  class Catalog {
    var table: Table
    var allMaps: seq<Location>
    var idToName: map<nat, string>

    constructor (t: Table)
      ensures table == t && allMaps == [] && idToName == map[]
    {
      table, allMaps, idToName := t, [], map[];
    }

    method FindRow(name: string) returns (p: nat)
      ensures p == Find(table.rows, name)
    {
      p := 0;
      while p < |table.rows| && table.rows[p].name != name
        invariant 0 <= p <= |table.rows|
        invariant forall i :: 0 <= i < p ==> table.rows[i].name != name
      {
        p := p + 1;
      }
    }

    method ProcessMaps(files: seq<Option<Location>>)
      requires allMaps == [] && idToName == map[]
      modifies this
      ensures Loaded(table, allMaps, idToName) == Load(old(table), files)
    {
      var n := 0;
      while n < |files|
        invariant 0 <= n <= |files|
        invariant Loaded(table, allMaps, idToName) == Load(old(table), files[..n])
      {
        assert files[..n + 1][..n] == files[..n];
        if files[n].Some? {
          var loaded := files[n].value;
          var p := FindRow(loaded.name);
          if p == |table.rows| {
            loaded := loaded.(id := table.nextId);
            table := Table(table.rows + [loaded], table.nextId + 1);
          } else {
            var row := table.rows[p];
            loaded := loaded.(id := row.id);
            if loaded.version != row.version && loaded.version > row.version {
              table := table.(rows := table.rows[p := row.(hash := loaded.hash, version := loaded.version)]);
            }
          }
          allMaps := allMaps + [loaded];
          if loaded.id !in idToName {
            idToName := idToName[loaded.id := loaded.name];
          }
        }
        n := n + 1;
      }
      assert files[..n] == files;
    }
  }

  // --- What the load achieves ---

  /** File `k` loaded a map of this name. */
  predicate Loads(files: seq<Option<Location>>, k: int, name: string) {
    0 <= k < |files| && files[k].Some? && files[k].value.name == name
  }

  /** Some file loaded a map of this name. */
  ghost predicate Named(files: seq<Option<Location>>, name: string) {
    exists k :: Loads(files, k, name)
  }

  /** File `k` is the first to carry the version and hash of `row`. */
  ghost predicate FirstToReach(files: seq<Option<Location>>, k: int, row: Location) {
    && Loads(files, k, row.name) && files[k].value.version == row.version && files[k].value.hash == row.hash
    && forall j :: 0 <= j < k && Loads(files, j, row.name) ==> files[j].value.version < row.version
  }

  /** The row's version is the greatest ever seen for its name, and its hash is that of the first to carry it. */
  ghost predicate Newest(old_: Option<Location>, files: seq<Option<Location>>, row: Location) {
    && (forall k :: Loads(files, k, row.name) ==> files[k].value.version <= row.version)
    && (old_.Some? ==> old_.value.version <= row.version)
    && (if old_.Some? && old_.value.version == row.version then row.hash == old_.value.hash
        else exists k :: FirstToReach(files, k, row))
  }

  ghost function Before(t: Table, i: nat): Option<Location> {
    if i < |t.rows| then Some(t.rows[i]) else None
  }

  /** How the table after the load relates to the table before it. */
  ghost predicate Synced(t: Table, files: seq<Option<Location>>, u: Table) {
    && Tidy(u) && |t.rows| <= |u.rows| && t.nextId <= u.nextId
    && (forall i :: 0 <= i < |t.rows| ==>
          u.rows[i] == t.rows[i].(hash := u.rows[i].hash, version := u.rows[i].version))
    && (forall i :: 0 <= i < |u.rows| ==> i < |t.rows| || Named(files, u.rows[i].name))
    && (forall i :: 0 <= i < |u.rows| ==> Newest(Before(t, i), files, u.rows[i]))
    && (forall k :: 0 <= k < |files| && files[k].Some? ==> Find(u.rows, files[k].value.name) < |u.rows|)
  }

  /** A further file changes which versions were seen only for its own name. */
  lemma NewestSnoc(old_: Option<Location>, files: seq<Option<Location>>, row: Location, file: Option<Location>)
    requires Newest(old_, files, row) && (file.Some? && file.value.name == row.name ==> file.value.version <= row.version)
    ensures Newest(old_, files + [file], row)
  {
    var more := files + [file];
    assert forall k, n :: 0 <= k < |files| ==> (Loads(more, k, n) <==> Loads(files, k, n));
    if !(old_.Some? && old_.value.version == row.version) {
      var k :| FirstToReach(files, k, row);
      assert FirstToReach(more, k, row);
    }
  }

  /** A file with a greater version than any before becomes the first to carry it. */
  lemma NewestRaised(old_: Option<Location>, files: seq<Option<Location>>, row: Location, loaded: Location)
    requires loaded.name == row.name && loaded.version > row.version && Newest(old_, files, row)
    ensures Newest(old_, files + [Some(loaded)], row.(hash := loaded.hash, version := loaded.version))
  {
    var more, row' := files + [Some(loaded)], row.(hash := loaded.hash, version := loaded.version);
    assert forall k, n :: 0 <= k < |files| ==> (Loads(more, k, n) <==> Loads(files, k, n));
    assert FirstToReach(more, |files|, row');
  }

  lemma NewestCreated(files: seq<Option<Location>>, row: Location, loaded: Location)
    requires row == loaded.(id := row.id) && !Named(files, loaded.name)
    ensures Newest(None, files + [Some(loaded)], row)
  {
    var more := files + [Some(loaded)];
    assert forall k, n :: 0 <= k < |files| ==> (Loads(more, k, n) <==> Loads(files, k, n));
    assert FirstToReach(more, |files|, row);
  }

  lemma NamedSnoc(files: seq<Option<Location>>, file: Option<Location>, name: string)
    ensures Named(files, name) ==> Named(files + [file], name)
    ensures file.Some? ==> Named(files + [file], file.value.name)
  {
    if Named(files, name) {
      var k :| Loads(files, k, name);
      assert Loads(files + [file], k, name);
    }
    if file.Some? {
      assert Loads(files + [file], |files|, file.value.name);
    }
  }

  lemma NotFoundNotNamed(t: Table, files: seq<Option<Location>>, u: Table, name: string)
    requires Synced(t, files, u) && Find(u.rows, name) == |u.rows|
    ensures !Named(files, name)
  {
  }

  lemma SyncKeeps(t: Table, files: seq<Option<Location>>, u: Table, loaded: Location)
    requires Synced(t, files, u)
    ensures Synced(t, files + [Some(loaded)], Sync(u, loaded).0)
  {
    hide Newest, Named;
    var v, file := Sync(u, loaded).0, Some(loaded);
    var more, p := files + [file], Find(u.rows, loaded.name);
    if p == |u.rows| {
      NotFoundNotNamed(t, files, u, loaded.name);
      NewestCreated(files, v.rows[p], loaded);
    } else if loaded.version > u.rows[p].version {
      NewestRaised(Before(t, p), files, u.rows[p], loaded);
    }
    forall i | 0 <= i < |v.rows|
      ensures Newest(Before(t, i), more, v.rows[i]) && (i < |t.rows| || Named(more, v.rows[i].name))
    {
      NamedSnoc(files, file, v.rows[i].name);
      if i < |u.rows| && v.rows[i] == u.rows[i] && (i == p || u.rows[i].name != loaded.name) {
        if i != p || loaded.version <= u.rows[p].version {
          NewestSnoc(Before(t, i), files, u.rows[i], file);
        }
      }
    }
    forall k | 0 <= k < |more| && more[k].Some?
      ensures Find(v.rows, more[k].value.name) < |v.rows|
    {
      var name := more[k].value.name;
      var q := if k < |files| then Find(u.rows, name) else p;
      assert k < |files| ==> files[k] == more[k];
      assert q < |v.rows| && v.rows[q].name == name;
    }
  }

  lemma NoneKeeps(t: Table, files: seq<Option<Location>>, u: Table)
    requires Synced(t, files, u)
    ensures Synced(t, files + [None], u)
  {
    hide Newest, Named;
    forall i | 0 <= i < |u.rows|
      ensures Newest(Before(t, i), files + [None], u.rows[i]) && (i < |t.rows| || Named(files + [None], u.rows[i].name))
    {
      NamedSnoc(files, None, u.rows[i].name);
      NewestSnoc(Before(t, i), files, u.rows[i], None);
    }
  }

  lemma NothingLoaded(t: Table)
    requires Tidy(t)
    ensures Synced(t, [], t)
  {
  }

  /**
   * After the load: every loaded name has a row, and only one; each row's version is the greatest of its old
   * version and all loaded ones, with the hash of the first to carry it; ids, names and file names of old
   * rows are kept; and a row appears only for a loaded name.
   */
  lemma {:induction false} LoadSyncs(t: Table, files: seq<Option<Location>>)
    requires Tidy(t)
    ensures Synced(t, files, Load(t, files).table)
  {
    hide Synced, Sync;
    if files == [] {
      NothingLoaded(t);
    } else {
      var front, last := files[..|files| - 1], files[|files| - 1];
      LoadSyncs(t, front);
      assert files == front + [last];
      if last.Some? {
        SyncKeeps(t, front, Load(t, front).table, last.value);
      } else {
        NoneKeeps(t, front, Load(t, front).table);
      }
    }
  }

  /** A row whose name no file carries is untouched. */
  lemma UnnamedUntouched(t: Table, files: seq<Option<Location>>, i: nat)
    requires Tidy(t) && i < |t.rows| && !Named(files, t.rows[i].name)
    ensures i < |Load(t, files).table.rows| && Load(t, files).table.rows[i] == t.rows[i]
  {
    LoadSyncs(t, files);
    var row := Load(t, files).table.rows[i];
    assert Newest(Before(t, i), files, row);
  }

  // --- The list and the id index ---

  /** Each entry of `allMaps` is a file's own map under the id of its row, and the index maps that id to its name. */
  ghost predicate Indexed(l: Loaded, files: seq<Option<Location>>) {
    && (forall a :: a in l.allMaps ==>
          && a.id in l.idToName && l.idToName[a.id] == a.name && HasRow(l.table.rows, a.id, a.name)
          && exists k :: Loads(files, k, a.name) && a == files[k].value.(id := a.id))
    && (forall id :: id in l.idToName ==>
          && HasRow(l.table.rows, id, l.idToName[id])
          && exists a :: a in l.allMaps && a.id == id && a.name == l.idToName[id])
  }

  ghost predicate HasRow(rows: seq<Location>, id: nat, name: string) {
    exists i :: 0 <= i < |rows| && rows[i].id == id && rows[i].name == name
  }

  lemma SyncRow(u: Table, loaded: Location)
    requires Tidy(u)
    ensures var (v, row) := Sync(u, loaded);
            && row == loaded.(id := row.id) && HasRow(v.rows, row.id, row.name)
            && (forall id, name :: HasRow(u.rows, id, name) ==> HasRow(v.rows, id, name))
            && (forall name :: HasRow(u.rows, row.id, name) ==> name == row.name)
  {
    var (v, row) := Sync(u, loaded);
    var p := Find(u.rows, loaded.name);
    assert v.rows[p].id == row.id && v.rows[p].name == row.name;
    forall id, name | HasRow(u.rows, id, name)
      ensures HasRow(v.rows, id, name)
    {
      var i :| 0 <= i < |u.rows| && u.rows[i].id == id && u.rows[i].name == name;
      assert v.rows[i].id == id && v.rows[i].name == name;
    }
  }

  /** `mapIDToName` agrees with the table and with the loaded maps. */
  lemma {:induction false} LoadIndexes(t: Table, files: seq<Option<Location>>)
    requires Tidy(t)
    ensures Indexed(Load(t, files), files)
  {
    hide HasRow, Sync, Tidy;
    if files != [] {
      var front, last := files[..|files| - 1], files[|files| - 1];
      var l := Load(t, front);
      LoadIndexes(t, front);
      LoadTidy(t, front);
      forall a | a in l.allMaps
        ensures exists k :: Loads(files, k, a.name) && a == files[k].value.(id := a.id)
      {
        var k :| Loads(front, k, a.name) && a == front[k].value.(id := a.id);
        assert Loads(files, k, a.name) && files[k] == front[k];
      }
      if last.Some? {
        SyncRow(l.table, last.value);
        IndexRow(l, Sync(l.table, last.value).0, Sync(l.table, last.value).1, files, |front|);
      }
    }
  }

  lemma LoadTidy(t: Table, files: seq<Option<Location>>)
    requires Tidy(t)
    ensures Tidy(Load(t, files).table)
  {
    LoadSyncs(t, files);
  }

  lemma IndexRow(l: Loaded, v: Table, row: Location, files: seq<Option<Location>>, n: int)
    requires Indexed(l, files) && Loads(files, n, row.name) && row == files[n].value.(id := row.id)
    requires HasRow(v.rows, row.id, row.name)
    requires forall id, name :: HasRow(l.table.rows, id, name) ==> HasRow(v.rows, id, name)
    requires forall name :: HasRow(l.table.rows, row.id, name) ==> name == row.name
    ensures Indexed(Loaded(v, l.allMaps + [row],
                           if row.id in l.idToName then l.idToName else l.idToName[row.id := row.name]), files)
  {
    hide HasRow;
    var m := if row.id in l.idToName then l.idToName else l.idToName[row.id := row.name];
    assert m[row.id] == row.name;
    assert row in l.allMaps + [row];
    forall id | id in m
      ensures HasRow(v.rows, id, m[id]) && exists a :: a in l.allMaps + [row] && a.id == id && a.name == m[id]
    {
      if id in l.idToName {
        var a :| a in l.allMaps && a.id == id && a.name == l.idToName[id];
        assert a in l.allMaps + [row];
      }
    }
  }

  predicate IsParsed(file: Option<Location>) {
    file.Some?
  }

  /**
   * `allMaps` has one entry for each parsed file, in file order: that file's map under the id of the row of its
   * name. The ids in the index are exactly those.
   */
  ghost predicate Complete(l: Loaded, files: seq<Option<Location>>) {
    var parsed := Filter(IsParsed, files);
    && |l.allMaps| == |parsed|
    && (forall n :: 0 <= n < |parsed| ==>
          && parsed[n].Some? && l.allMaps[n] == parsed[n].value.(id := l.allMaps[n].id)
          && HasRow(l.table.rows, l.allMaps[n].id, parsed[n].value.name))
    && (forall id :: id in l.idToName <==> exists n :: 0 <= n < |l.allMaps| && l.allMaps[n].id == id)
  }

  /** Nothing that was parsed is left out of the list or of the index, whether its row is new or old. */
  lemma {:induction false} LoadIsComplete(t: Table, files: seq<Option<Location>>)
    requires Tidy(t)
    ensures Complete(Load(t, files), files)
  {
    hide HasRow, Sync, Tidy;
    if files != [] {
      var front, last := files[..|files| - 1], files[|files| - 1];
      var before, l := Load(t, front), Load(t, files);
      LoadIsComplete(t, front);
      LoadTidy(t, front);
      if last.Some? {
        SyncRow(before.table, last.value);
        forall id
          ensures id in l.idToName <==> exists n :: 0 <= n < |l.allMaps| && l.allMaps[n].id == id
        {
          IndexedSnoc(before, l, id);
        }
      }
    }
  }

  lemma IndexedSnoc(before: Loaded, l: Loaded, id: nat)
    requires l.allMaps != [] && l.allMaps[..|l.allMaps| - 1] == before.allMaps
    requires id in before.idToName <==> exists n :: 0 <= n < |before.allMaps| && before.allMaps[n].id == id
    requires id in l.idToName <==> id in before.idToName || id == l.allMaps[|l.allMaps| - 1].id
    ensures id in l.idToName <==> exists n :: 0 <= n < |l.allMaps| && l.allMaps[n].id == id
  {
    var m := |before.allMaps|;
    assert forall n :: 0 <= n < m ==> l.allMaps[n] == before.allMaps[n];
    if n :| 0 <= n < |l.allMaps| && l.allMaps[n].id == id && n < m {
      assert before.allMaps[n].id == id;
    }
  }

  /** File `k` is the first that loaded a map of this row's name, and the row has its path. */
  ghost predicate FirstOfName(files: seq<Option<Location>>, k: int, row: Location) {
    Loads(files, k, row.name) && files[k].value.file == row.file && forall j :: 0 <= j < k ==> !Loads(files, j, row.name)
  }

  /** A row that the load created: an id that the table had not given yet, and the path of the first file of its name. */
  ghost predicate IsNew(t: Table, files: seq<Option<Location>>, row: Location) {
    row.id >= t.nextId && exists k :: FirstOfName(files, k, row)
  }

  ghost predicate Created(t: Table, files: seq<Option<Location>>, u: Table) {
    forall i :: |t.rows| <= i < |u.rows| ==> IsNew(t, files, u.rows[i])
  }

  lemma IsNewSnoc(t: Table, files: seq<Option<Location>>, file: Option<Location>, row: Location, row': Location)
    requires IsNew(t, files, row) && row' == row.(hash := row'.hash, version := row'.version)
    ensures IsNew(t, files + [file], row')
  {
    var k :| FirstOfName(files, k, row);
    assert forall j, n :: 0 <= j < |files| ==> (Loads(files + [file], j, n) <==> Loads(files, j, n));
    assert FirstOfName(files + [file], k, row');
  }

  lemma NewIsFirst(t: Table, files: seq<Option<Location>>, loaded: Location, row: Location)
    requires !Named(files, loaded.name) && row == loaded.(id := row.id) && row.id >= t.nextId
    ensures IsNew(t, files + [Some(loaded)], row)
  {
    assert forall j, n :: 0 <= j < |files| ==> (Loads(files + [Some(loaded)], j, n) <==> Loads(files, j, n));
    assert FirstOfName(files + [Some(loaded)], |files|, row);
  }

  lemma SyncCreates(t: Table, files: seq<Option<Location>>, u: Table, loaded: Location)
    requires Synced(t, files, u) && Created(t, files, u)
    ensures Created(t, files + [Some(loaded)], Sync(u, loaded).0)
  {
    hide Newest, IsNew, Named;
    var v := Sync(u, loaded).0;
    forall i | |t.rows| <= i < |v.rows|
      ensures IsNew(t, files + [Some(loaded)], v.rows[i])
    {
      if i < |u.rows| {
        IsNewSnoc(t, files, Some(loaded), u.rows[i], v.rows[i]);
      } else {
        NotFoundNotNamed(t, files, u, loaded.name);
        NewIsFirst(t, files, loaded, v.rows[i]);
      }
    }
  }

  lemma NoneCreates(t: Table, files: seq<Option<Location>>, u: Table)
    requires Created(t, files, u)
    ensures Created(t, files + [None], u)
  {
    hide IsNew;
    forall i | |t.rows| <= i < |u.rows|
      ensures IsNew(t, files + [None], u.rows[i])
    {
      IsNewSnoc(t, files, None, u.rows[i], u.rows[i]);
    }
  }

  /** Every row that the load adds is new, and takes its path from the first file of its name. */
  lemma {:induction false} LoadCreates(t: Table, files: seq<Option<Location>>)
    requires Tidy(t)
    ensures Created(t, files, Load(t, files).table)
  {
    hide Synced, Sync, Created;
    if files == [] {
      NothingCreated(t);
    } else {
      var front, last := files[..|files| - 1], files[|files| - 1];
      LoadCreates(t, front);
      LoadSyncs(t, front);
      assert files == front + [last];
      if last.Some? {
        SyncCreates(t, front, Load(t, front).table, last.value);
      } else {
        NoneCreates(t, front, Load(t, front).table);
      }
    }
  }

  lemma NothingCreated(t: Table)
    ensures Created(t, [], t)
  {
  }

  // --- A second run ---

  /** Every loaded map has a row at least as new: nothing to create, nothing to update. */
  ghost predicate UpToDate(u: Table, files: seq<Option<Location>>) {
    forall k :: 0 <= k < |files| && files[k].Some? ==>
      var p := Find(u.rows, files[k].value.name);
      p < |u.rows| && files[k].value.version <= u.rows[p].version
  }

  lemma {:induction false} UpToDateStays(u: Table, files: seq<Option<Location>>)
    requires UpToDate(u, files)
    ensures Load(u, files).table == u
  {
    if files != [] {
      UpToDateStays(u, files[..|files| - 1]);
    }
  }

  /** Running the load again over the same files leaves the database exactly as it was. */
  lemma LoadIsIdempotent(t: Table, files: seq<Option<Location>>)
    requires Tidy(t)
    ensures Load(Load(t, files).table, files).table == Load(t, files).table
  {
    LoadSyncs(t, files);
    var u := Load(t, files).table;
    forall k | 0 <= k < |files| && files[k].Some?
      ensures var p := Find(u.rows, files[k].value.name);
              p < |u.rows| && files[k].value.version <= u.rows[p].version
    {
      var p := Find(u.rows, files[k].value.name);
      assert Newest(Before(t, p), files, u.rows[p]);
      assert Loads(files, k, u.rows[p].name);
    }
    UpToDateStays(u, files);
  }
}
