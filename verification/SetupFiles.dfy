/**
 The cache of confirmed content hashes (crates/vantage-point/src/roto_setup_files.rs:101-143):
 a map in memory and the file a restart reads it back from. Every save may fail; it goes
 through a temporary file and a rename, so a failed save leaves the old file.
 */
module SetupFiles {
  import opened SetupState
  import opened Prelude

  type HashMap = map<string, Hash>

  /** `file` holds the entries a readable load would find: none if the file is missing, broken or of another setup. */
  datatype Cache = Cache(values: HashMap, file: HashMap)

  function Loaded(file: HashMap, readable: bool): Cache {
    Cache(if readable then file else map[], file)
  }

  function Entry(c: Cache, device: string): Option<Hash> {
    if device in c.values then Some(c.values[device]) else None
  }

  function Invalidated(c: Cache, device: string, saves: bool): (Cache, bool) {
    if device !in c.values then (c, true)
    else if saves then (Cache(c.values - {device}, c.values - {device}), true)
    else (c, false)
  }

  function Confirmed(c: Cache, device: string, hash: Hash, saves: bool): Cache {
    var values := c.values[device := hash];
    Cache(values, if saves then values else c.file)
  }

  /** Whatever a restart would read back is also what memory holds. */
  predicate FileWithinMemory(c: Cache) {
    forall d :: d in c.file ==> d in c.values && c.values[d] == c.file[d]
  }

  class Hashes {
    var values: HashMap
    var file: HashMap

    ghost function View(): Cache
      reads this
    {
      Cache(values, file)
    }

    constructor Load(file: HashMap, readable: bool)
      ensures View() == Loaded(file, readable)
    {
      this.file := file;
      this.values := if readable then file else map[];
    }

    function Get(device: string): (hash: Option<Hash>)
      reads this
      ensures hash == Entry(View(), device)
    {
      if device in values then Some(values[device]) else None
    }

    method Save(saves: bool) returns (ok: bool)
      modifies this`file
      ensures ok == saves && file == if saves then values else old(file)
    {
      if saves {
        file := values;
      }
      return saves;
    }

    method Invalidate(device: string, saves: bool) returns (ok: bool)
      modifies this
      ensures (View(), ok) == Invalidated(old(View()), device, saves)
    {
      if device in values {
        var previous := values[device];
        values := values - {device};
        var saved := Save(saves);
        if !saved {
          values := values[device := previous];
          assert values == old(values);
          return false;
        }
      }
      return true;
    }

    method Confirm(device: string, hash: Hash, saves: bool) returns (ok: bool)
      modifies this
      ensures View() == Confirmed(old(View()), device, hash, saves) && ok == saves
    {
      values := values[device := hash];
      ok := Save(saves);
    }
  }

  /**
   Invalidation that reports success has removed the entry from memory and file alike, and a
   refused one has changed nothing; both hinge on the file holding no more than memory does.
   */
  lemma InvalidationReachesTheFile(c: Cache, device: string, saves: bool)
    requires FileWithinMemory(c)
    ensures var (c', ok) := Invalidated(c, device, saves);
            && FileWithinMemory(c')
            && (ok ==> device !in c'.values && device !in c'.file)
            && (!ok ==> c' == c)
            && (forall d :: d != device ==> Entry(c', d) == Entry(c, d))
  {
  }

  lemma ConfirmationKeepsFileWithinMemory(c: Cache, device: string, hash: Hash, saves: bool)
    requires FileWithinMemory(c) && device !in c.file
    ensures FileWithinMemory(Confirmed(c, device, hash, saves))
  {
  }

  /** A confirmed hash is in memory at once; saved, it is in the file, which then holds what memory does. */
  lemma ConfirmationIsKept(c: Cache, device: string, hash: Hash, saves: bool)
    ensures var c' := Confirmed(c, device, hash, saves);
      && Entry(c', device) == Some(hash) && (forall d :: d != device ==> Entry(c', d) == Entry(c, d))
      && (saves ==> device in c'.file && c'.file[device] == hash && c'.file == c'.values)
      && (!saves ==> c'.file == c.file)
  {
  }

  lemma LoadIsFaithfulExactlyWhen(file: HashMap, readable: bool)
    ensures FileWithinMemory(Loaded(file, readable)) <==> readable || file == map[]
  {
    if !readable && file != map[] {
      var d :| d in file;
      assert d !in Loaded(file, readable).values;
    }
  }

  /** A load that cannot read a file with an entry leaves that entry where no invalidation reaches it. */
  lemma UnreadableLoadHidesEntries(file: HashMap, device: string, saves: bool)
    requires device in file
    ensures var (c, ok) := Invalidated(Loaded(file, false), device, saves);
            ok && Loaded(c.file, true).values[device] == file[device]
  {
  }
}
