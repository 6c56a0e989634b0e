/** The directory of the disk cache: one file a dirty chunk, written aside and renamed. */
module DiskCache {
  import opened Volume
  import opened Numerals
  import opened SnapshotFormat

  type Dir = map<string, Bytes>
  type Files = map<Index, Bytes>

  const TMP := ".tmp"

  predicate AllDigits(s: string) {
    forall k :: 0 <= k < |s| ==> DigitValue(s[k]).Some?
  }

  /** Does loading look at a file of this name? */
  predicate Considered(name: string) {
    && |name| > 0 && name[0] != '.'
    && !(|name| >= 4 && name[|name| - 4..] == TMP)
    && |name| == 16 && AllDigits(name)
  }

  lemma {:induction false} DigitsUnhex(s: string)
    requires |s| % 2 == 0 && AllDigits(s)
    ensures Unhex(s, PairValue).Some?
  {
    if |s| > 0 {
      DigitsUnhex(s[..|s| - 2]);
    }
  }

  function IndexOf(name: string): Index
    requires Considered(name)
  {
    DigitsUnhex(name);
    assert name[0] != '+';
    ParseIndex(name).value
  }

  /** The directory holds these chunks, each under its own name; other files are not looked at. */
  ghost predicate Holds(dir: Dir, files: Files) {
    && (forall i :: i in files ==> FlatKey(i) in dir && dir[FlatKey(i)] == files[i])
    && (forall name :: name in dir && Considered(name) ==> Owned(files, name))
  }

  /** The name is that of one of the chunks. */
  ghost predicate Owned(files: Files, name: string)
    requires Considered(name)
  {
    IndexOf(name) in files && name == FlatKey(IndexOf(name))
  }

  lemma OwnName(i: Index)
    ensures Considered(FlatKey(i)) && IndexOf(FlatKey(i)) == i
  {
    CanonicalKeys(i);
    ParseFlat(i);
  }

  /**
   The chunks of every considered file. A file of another length is an error, and there is
   no other; of two names that differ in case only, one wins.
   */
  method LoadDiskCache(dir: Dir, chunkSize: nat) returns (r: Outcome<Files>)
    ensures r.Ok? <==> forall name :: name in dir && Considered(name) ==> |dir[name]| == chunkSize
    ensures r.Ok? ==> Loaded(dir, r.value, {})
  {
    var dirty: Files := map[];
    var rest := dir.Keys;
    while rest != {}
      invariant rest <= dir.Keys && Loaded(dir, dirty, rest)
      invariant forall name :: name in dir && name !in rest && Considered(name) ==> |dir[name]| == chunkSize
      decreases rest
    {
      var name :| name in rest;
      if Considered(name) {
        if |dir[name]| != chunkSize {
          return Err(Other);
        }
        LoadedMore(dir, dirty, rest, name);
        dirty := dirty[IndexOf(name) := dir[name]];
      }
      rest := rest - {name};
    }
    r := Ok(dirty);
  }

  /** `dirty` has the index of every considered file outside `rest`, each with the bytes of one of them. */
  ghost predicate Loaded(dir: Dir, dirty: Files, rest: set<string>) {
    && (forall name :: name in dir && name !in rest && Considered(name) ==> IndexOf(name) in dirty)
    && (forall i :: i in dirty ==> From(dir, dirty, rest, i))
  }

  ghost predicate From(dir: Dir, dirty: Files, rest: set<string>, i: Index)
    requires i in dirty
  {
    exists name :: name in dir && name !in rest && Considered(name) && IndexOf(name) == i && dir[name] == dirty[i]
  }

  lemma LoadedMore(dir: Dir, dirty: Files, rest: set<string>, name: string)
    requires Loaded(dir, dirty, rest) && name in rest && name in dir && Considered(name)
    ensures Loaded(dir, dirty[IndexOf(name) := dir[name]], rest - {name})
  {
    var next, less := dirty[IndexOf(name) := dir[name]], rest - {name};
    forall i | i in next ensures From(dir, next, less, i) {
      if i != IndexOf(name) {
        assert From(dir, dirty, rest, i);
      }
    }
  }

  lemma HeldIsLoaded(dir: Dir, files: Files, dirty: Files, i: Index)
    requires Holds(dir, files) && Loaded(dir, dirty, {}) && i in files
    ensures i in dirty
  {
    OwnName(i);
    assert FlatKey(i) in dir;
  }

  lemma LoadedIsHeld(dir: Dir, files: Files, dirty: Files, i: Index)
    requires Holds(dir, files) && Loaded(dir, dirty, {}) && i in dirty
    ensures i in files && dirty[i] == files[i]
  {
    assert From(dir, dirty, {}, i);
    var name :| name in dir && Considered(name) && IndexOf(name) == i && dir[name] == dirty[i];
    assert Owned(files, name);
  }

  /** What was persisted is what loading finds. */
  lemma LoadsWhatIsHeld(dir: Dir, files: Files, dirty: Files)
    requires Holds(dir, files) && Loaded(dir, dirty, {})
    ensures dirty == files
  {
    forall i | i in files ensures i in dirty {
      HeldIsLoaded(dir, files, dirty, i);
    }
    forall i | i in dirty ensures i in files && dirty[i] == files[i] {
      LoadedIsHeld(dir, files, dirty, i);
    }
  }

  /** The first half of persisting: the bytes go to a file beside. */
  function Aside(dir: Dir, i: Index, data: Bytes): Dir {
    dir[FlatKey(i) + TMP := data]
  }

  /** The second half: that file takes the chunk's name. */
  function Renamed(dir: Dir, i: Index, data: Bytes): Dir {
    (dir - {FlatKey(i) + TMP})[FlatKey(i) := data]
  }

  /** A crash between the halves leaves the old chunk, one after them the new one; nothing in between. */
  lemma PersistIsAtomic(dir: Dir, files: Files, i: Index, data: Bytes)
    requires Holds(dir, files)
    ensures Holds(Aside(dir, i, data), files)
    ensures Holds(Renamed(Aside(dir, i, data), i, data), files[i := data])
  {
    var tmp := FlatKey(i) + TMP;
    assert |tmp| == 20;
    forall j: Index ensures FlatKey(j) != tmp && (j != i ==> FlatKey(j) != FlatKey(i)) {
      KeysRoundTrip(j, i);
    }
    var a, b := Aside(dir, i, data), Renamed(Aside(dir, i, data), i, data);
    OwnName(i);
    forall name | name in a && Considered(name) ensures Owned(files, name) {
      assert name != tmp && name in dir;
    }
    forall name | name in b && Considered(name) ensures Owned(files[i := data], name) {
      if name != FlatKey(i) {
        assert name in dir && Owned(files, name);
      }
    }
  }

  lemma RemoveHolds(dir: Dir, files: Files, i: Index)
    requires Holds(dir, files)
    ensures Holds(dir - {FlatKey(i)}, files - {i})
  {
    forall j: Index | j != i ensures FlatKey(j) != FlatKey(i) {
      KeysRoundTrip(j, i);
    }
    forall name | name in dir - {FlatKey(i)} && Considered(name) ensures Owned(files - {i}, name) {
      assert Owned(files, name);
    }
  }
}
