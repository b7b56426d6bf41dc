/**
 * venvy/data_manager.go: a storage directory with a key-value store kept in its `kvData`
 * sub-directory.  The stores on disk are shared by every manager through one `Disk`; a
 * manager's store handle points at the data directory its last successful set-up
 * created, which is what the diskv handle does.
 */
module DataManagers {
  import opened Wrappers
  import Paths
  import Json

  /** `StoragePath(elem...)`: the storage directory joined with the elements. */
  function StoragePath(storageDir: string, elems: seq<string>): (r: string)
    ensures Paths.IsAbs(storageDir) ==> Paths.IsAbs(r)
  {
    if Paths.IsAbs(storageDir) then
      Paths.JoinKeepsAbs([storageDir] + elems);
      Paths.Join([storageDir] + elems)
    else Paths.Join([storageDir] + elems)
  }

  /** Where the key-value data of a storage directory lives. */
  function DataDir(storageDir: string): string {
    Paths.Join([storageDir, "kvData"])
  }

  /** A store lies inside `dir` when it is the data directory of `dir`, `dir` itself, or below it. */
  predicate Inside(path: string, dir: string) {
    path == DataDir(dir) || path == dir || (|dir| < |path| && path[..|dir|] == dir && path[|dir|] == '/')
  }

  /** `os.RemoveAll(dir)` on the stores: every store inside `dir` disappears. */
  function RemoveInside(stores: map<string, map<string, string>>, dir: string): (r: map<string, map<string, string>>)
    ensures forall p :: p in r <==> p in stores && !Inside(p, dir)
    ensures forall p :: p in r ==> r[p] == stores[p]
  {
    map p | p in stores && !Inside(p, dir) :: stores[p]
  }

  /** diskv's `Read`: the value stored under the key, or an error. */
  function Get(store: map<string, string>, key: string): (r: Result<string>)
    ensures r.Ok? <==> key in store
    ensures r.Ok? ==> r.value == store[key]
  {
    if key in store then Ok(store[key]) else Err("open " + key + ": no such file or directory")
  }

  /** The key-value stores on disk, by data directory, and the directories the process may not create or remove. */
  class Disk {
    var stores: map<string, map<string, string>>
    const locked: set<string>

    constructor(stores: map<string, map<string, string>>, locked: set<string>)
      ensures this.stores == stores && this.locked == locked
    {
      this.stores := stores;
      this.locked := locked;
    }
  }

  class DataManager {
    var storageDir: string
    /** The data directory the store handle was opened on; None before the first successful set-up. */
    var handle: Option<string>
    const disk: Disk

    constructor(disk: Disk, storageDir: string)
      ensures this.disk == disk && this.storageDir == storageDir && handle.None?
    {
      this.disk := disk;
      this.storageDir := storageDir;
      this.handle := None;
    }

    function Path(elems: seq<string>): (r: string)
      reads this
      ensures Paths.IsAbs(storageDir) ==> Paths.IsAbs(r)
    {
      StoragePath(storageDir, elems)
    }

    /** The keys the store handle sees. */
    function Store(): map<string, string>
      reads this, disk
    {
      if handle.Some? && handle.value in disk.stores then disk.stores[handle.value] else map[]
    }

    /** `setup`: create the data directory (with the storage directory) and open the store on it. */
    method Setup() returns (err: Option<string>)
      modifies this, disk
      ensures storageDir == old(storageDir)
      ensures DataDir(storageDir) in disk.locked ==>
                err.Some? && handle == old(handle) && disk.stores == old(disk.stores)
      ensures DataDir(storageDir) !in disk.locked ==>
                err.None? && handle == Some(DataDir(storageDir))
                && disk.stores == old(if DataDir(storageDir) in disk.stores then disk.stores
                                      else disk.stores[DataDir(storageDir) := map[]])
    {
      var dataDir := DataDir(storageDir);
      if dataDir in disk.locked {
        return Some("mkdir " + dataDir + ": permission denied");
      }
      if dataDir !in disk.stores {
        disk.stores := disk.stores[dataDir := map[]];
      }
      handle := Some(dataDir);
      return None;
    }

    /** `ChDir`: move to another storage directory and set up again there. */
    method ChDir(toDir: string) returns (err: Option<string>)
      modifies this, disk
      ensures storageDir == toDir
      ensures DataDir(toDir) in disk.locked ==> err.Some? && handle == old(handle) && disk.stores == old(disk.stores)
      ensures DataDir(toDir) !in disk.locked ==> err.None? && handle == Some(DataDir(toDir))
      ensures DataDir(toDir) !in disk.locked && DataDir(toDir) in old(disk.stores) ==>
                Store() == old(disk.stores[DataDir(toDir)])
      ensures DataDir(toDir) !in disk.locked ==>
                disk.stores == old(if DataDir(toDir) in disk.stores then disk.stores
                                   else disk.stores[DataDir(toDir) := map[]])
    {
      storageDir := toDir;
      err := Setup();
    }

    /**
     * `Reset`: erase every key of the open store, remove the storage directory with
     * everything in it, and set up again; the first step that fails stops it.  The store
     * handle must be open (the Go code dereferences it).
     */
    method Reset() returns (err: Option<string>)
      requires handle.Some?
      modifies this, disk
      ensures storageDir == old(storageDir)
      ensures old(handle.value) in disk.locked ==> err.Some? && disk.stores == old(disk.stores)
      ensures err.None? ==> Store() == map[] && handle == Some(DataDir(storageDir))
      ensures err.None? ==> forall p :: p in disk.stores && p != DataDir(storageDir) ==>
                              p in old(disk.stores) && !Inside(p, storageDir) && !Inside(p, old(handle.value))
      ensures old(handle.value) in disk.locked ==>
                err == Some("unlinkat " + old(handle.value) + ": permission denied") && handle == old(handle)
      ensures old(handle.value) !in disk.locked && storageDir in disk.locked ==>
                err == Some("unlinkat " + storageDir + ": permission denied") && handle == old(handle)
                && disk.stores == RemoveInside(old(disk.stores), old(handle.value))
      ensures old(handle.value) !in disk.locked && storageDir !in disk.locked && DataDir(storageDir) in disk.locked ==>
                err.Some? && handle == old(handle)
                && disk.stores == RemoveInside(RemoveInside(old(disk.stores), old(handle.value)), storageDir)
      ensures old(handle.value) !in disk.locked && storageDir !in disk.locked && DataDir(storageDir) !in disk.locked ==>
                err.None? && handle == Some(DataDir(storageDir))
                && disk.stores == RemoveInside(RemoveInside(old(disk.stores), old(handle.value)), storageDir)[DataDir(storageDir) := map[]]
    {
      var base := handle.value;
      if base in disk.locked {
        return Some("unlinkat " + base + ": permission denied");
      }
      disk.stores := RemoveInside(disk.stores, base);
      if storageDir in disk.locked {
        return Some("unlinkat " + storageDir + ": permission denied");
      }
      disk.stores := RemoveInside(disk.stores, storageDir);
      err := Setup();
    }

    /** `SetKey`: store the value under the key. */
    method SetKey(key: string, value: string)
      requires handle.Some?
      modifies disk
      ensures disk.stores == old(disk.stores[handle.value := Store()[key := value]])
      ensures Get(Store(), key) == Ok(value)
    {
      var store := Store();
      disk.stores := disk.stores[handle.value := store[key := value]];
    }

    /** `GetKey`: the string last stored under the key, or an error when there is none. */
    method GetKey(key: string) returns (r: Result<string>)
      requires handle.Some?
      ensures r == Get(Store(), key)
    {
      var store := Store();
      if key in store {
        r := Ok(store[key]);
      } else {
        r := Err("open " + key + ": no such file or directory");
      }
    }

    /** `WriteJson`: store the JSON text of the value under the key. */
    method WriteJson(key: string, v: Json.Json)
      requires handle.Some?
      modifies disk
      ensures disk.stores == old(disk.stores[handle.value := Store()[key := Json.Encode(v)]])
      ensures Get(Store(), key) == Ok(Json.Encode(v))
    {
      SetKey(key, Json.Encode(v));
    }

    /** `ReadJson`: read the key and parse its text with `parse` (the JSON text parser). */
    method ReadJson(key: string, parse: string -> Option<Json.Json>) returns (r: Result<Json.Json>)
      requires handle.Some?
      ensures r == ParseStored(Get(Store(), key), parse)
    {
      var data := GetKey(key);
      r := ParseStored(data, parse);
    }
  }

  function ParseStored(data: Result<string>, parse: string -> Option<Json.Json>): (r: Result<Json.Json>)
    ensures data.Err? ==> r == Err(data.msg)
  {
    match data
    case Err(e) => Err(e)
    case Ok(text) =>
      match parse(text)
      case Some(j) => Ok(j)
      case None => Err("invalid character in JSON text")
  }

  /** A value written with `WriteJson` reads back with `ReadJson`, given a parser that inverts `json.Marshal`. */
  lemma WriteThenRead(store: map<string, string>, key: string, v: Json.Json, parse: string -> Option<Json.Json>)
    requires parse(Json.Encode(v)) == Some(v)
    ensures ParseStored(Get(store[key := Json.Encode(v)], key), parse) == Ok(v)
  {
  }

  /** `NewDataManager`: a relative storage directory is refused; otherwise the manager comes back with the set-up error, if any. */
  method NewDataManager(disk: Disk, storageDir: string) returns (dm: DataManager?, err: Option<string>)
    modifies disk
    ensures !Paths.IsAbs(storageDir) ==> dm == null && err == Some("storage dir " + storageDir + " not an absolute path")
    ensures !Paths.IsAbs(storageDir) ==> disk.stores == old(disk.stores)
    ensures Paths.IsAbs(storageDir) ==> dm != null && fresh(dm) && dm.disk == disk && dm.storageDir == storageDir
    ensures Paths.IsAbs(storageDir) ==> (err.None? <==> DataDir(storageDir) !in disk.locked)
    ensures Paths.IsAbs(storageDir) && err.None? ==> dm.handle == Some(DataDir(storageDir))
  {
    if !Paths.IsAbs(storageDir) {
      return null, Some("storage dir " + storageDir + " not an absolute path");
    }
    dm := new DataManager(disk, storageDir);
    err := dm.Setup();
  }
}
