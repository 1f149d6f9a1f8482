/** The two stores a request works on: its database connection and the object directory. */
module Store {
  import opened Basics
  import opened Records

  /** A connection sees its own uncommitted changes; other connections see `committed`. */
  class Connection {
    var db: Db
    var committed: Db

    constructor (db: Db)
      ensures this.db == db && this.committed == db
    {
      this.db, this.committed := db, db;
    }

    method Commit()
      modifies this`committed
      ensures committed == db
    {
      committed := db;
    }

    method Rollback()
      modifies this`db
      ensures db == committed
    {
      db := committed;
    }
  }

  class Storage {
    var files: Disk

    constructor (files: Disk)
      ensures this.files == files
    {
      this.files := files;
    }

    /**
     Creates an object exclusively: a name already present is an error and changes nothing.
     A write that fails after `stops` bytes removes what it has written.
     */
    method Write(name: Name, data: Bytes, now: int, stops: Option<nat>) returns (ok: bool)
      modifies this
      ensures ok <==> name !in old(files) && stops == None
      ensures files == if ok then old(files)[name := File(data, now)] else old(files)
    {
      if name in files {
        return false;
      }
      if stops.Some? {
        files := files[name := File(data[..Min(stops.value, |data|)], now)];
        Delete(name);
        assert files == old(files);
        return false;
      }
      files := files[name := File(data, now)];
      return true;
    }

    method Read(name: Name) returns (data: Option<Bytes>)
      ensures data == if name in files then Some(files[name].data) else None
    {
      data := if name in files then Some(files[name].data) else None;
    }

    /** Deleting an absent object is no error. */
    method Delete(name: Name)
      modifies this
      ensures files == old(files) - {name}
    {
      files := files - {name};
    }

    /**
     Removes every unknown object not younger than the age gate, in any directory order,
     and reports how many it removed.
     */
    method SweepOrphans(known: set<Name>, minAgeSeconds: int, now: int) returns (removed: nat)
      modifies this
      ensures files == Swept(old(files), known, now - 1000 * minAgeSeconds)
      ensures removed == |old(files)| - |files|
    {
      var cutoff := now - 1000 * minAgeSeconds;
      removed := 0;
      var entries := files.Keys;
      while entries != {}
        invariant entries <= files.Keys <= old(files).Keys
        invariant forall name <- old(files) ::
          name in files <==> name in entries || name in known || cutoff < old(files)[name].modifiedAt
        invariant forall name <- files :: files[name] == old(files)[name]
        invariant removed == |old(files)| - |files|
        decreases |entries|
      {
        var name :| name in entries;
        entries := entries - {name};
        if name !in known && files[name].modifiedAt <= cutoff {
          assert (files - {name}).Keys == files.Keys - {name};
          files := files - {name};
          removed := removed + 1;
        }
      }
      assert files.Keys == Swept(old(files), known, cutoff).Keys;
    }
  }

  /** What a sweep leaves. */
  function Swept(files: Disk, known: set<Name>, cutoff: int): Disk {
    map name | name in files && (name in known || cutoff < files[name].modifiedAt) :: files[name]
  }
}
