/*
 * The photo store: JPEG files in one private directory, addressed by
 * PhotoNames.FileName.
 *
 * The directory is the store's map from file name to file contents. The JPEG
 * codec is opaque and failable in both directions; the store keeps it as a
 * pair of functions. Writes can fail without telling the caller, so a save
 * either writes its one file or leaves the directory as it was.
 */
module PhotoStorage {
  import opened PhotoNames

  newtype byte = x: int | 0 <= x < 256
  type Bytes = seq<byte>

  /** An in-memory bitmap; the store never looks inside one. */
  type Image

  /** The compression quality every save asks the encoder for. */
  const JpegQuality: real := 0.85

  /** The default grid shape of the bulk loader. */
  const DefaultTabCount: nat := 4
  const DefaultSlotsPerTab: nat := 6

  /** JPEG encoding at a quality, and decoding; either may fail. */
  datatype Codec = Codec(encode: (Image, real) -> Option<Bytes>, decode: Bytes -> Option<Image>)

  type Directory = map<string, Bytes>

  // ---------------------------------------------------------------------
  // The store's behaviour on a directory value
  // ---------------------------------------------------------------------

  /** Reading a whole file: its contents, or None when it does not exist. */
  function ReadFile(dir: Directory, name: string): (r: Option<Bytes>)
    ensures r.Some? <==> name in dir
    ensures r.Some? ==> r.value == dir[name]
  {
    if name in dir then Some(dir[name]) else None
  }

  /** What a load of `key` yields: the decoded file, None if absent or undecodable. */
  function Load(dir: Directory, codec: Codec, key: PhotoKey): (r: Option<Image>)
    ensures FileName(key) !in dir ==> r == None
    ensures FileName(key) in dir ==> r == codec.decode(dir[FileName(key)])
  {
    match ReadFile(dir, FileName(key))
    case None => None
    case Some(data) => codec.decode(data)
  }

  /** The directory after a save of `image` under `key` whose write succeeds. */
  function Stored(dir: Directory, codec: Codec, key: PhotoKey, image: Image): (r: Directory)
    ensures codec.encode(image, JpegQuality).None? ==> r == dir
    ensures codec.encode(image, JpegQuality).Some? ==>
              r.Keys == dir.Keys + {FileName(key)} && r[FileName(key)] == codec.encode(image, JpegQuality).value
    ensures forall n :: n in dir && n != FileName(key) ==> r[n] == dir[n]
  {
    match codec.encode(image, JpegQuality)
    case None => dir
    case Some(data) => dir[FileName(key) := data]
  }

  /** The directory after the file of `key` is removed, if it was there. */
  function Removed(dir: Directory, key: PhotoKey): (r: Directory)
    ensures r.Keys == dir.Keys - {FileName(key)}
    ensures forall n :: n in r ==> r[n] == dir[n]
  {
    dir - {FileName(key)}
  }

  /** The tabCount x slotsPerTab grid of loads, indexed [tab][slot]. */
  function Grid(dir: Directory, codec: Codec, tabCount: nat, slotsPerTab: nat): (g: seq<seq<Option<Image>>>)
    ensures |g| == tabCount
    ensures forall t :: 0 <= t < tabCount ==> |g[t]| == slotsPerTab
    ensures forall t, s :: 0 <= t < tabCount && 0 <= s < slotsPerTab ==>
              g[t][s] == Load(dir, codec, TabSlot(t, s))
  {
    seq(tabCount, t => seq(slotsPerTab, s => Load(dir, codec, TabSlot(t, s))))
  }

  // ---------------------------------------------------------------------
  // The store
  // ---------------------------------------------------------------------

  class PhotoStore {
    /** The JPEG codec the platform supplies. */
    const codec: Codec
    /** The private directory: file name to file contents. */
    var files: Directory

    /** A store over a directory as it survives from earlier runs. */
    constructor (codec: Codec, files: Directory)
      ensures this.codec == codec && this.files == files
    {
      this.codec := codec;
      this.files := files;
    }

    /**
     * Encodes `image` and writes it under the file name of `key`. A failed
     * encode, or a failed write, leaves the directory as it was; otherwise
     * exactly that one file is created or overwritten.
     */
    method Save(key: PhotoKey, image: Image)
      modifies this
      ensures codec.encode(image, JpegQuality).None? ==> files == old(files)
      ensures files == old(files) || files == Stored(old(files), codec, key, image)
    {
      var encoded := codec.encode(image, JpegQuality);
      if encoded.None? {
        return;
      }
      var written: bool :| true;  // the write may fail, and the failure is swallowed
      if written {
        files := files[FileName(key) := encoded.value];
      }
    }

    method SavePhoto(tab: int, slot: int, image: Image)
      modifies this
      ensures codec.encode(image, JpegQuality).None? ==> files == old(files)
      ensures files == old(files) || files == Stored(old(files), codec, TabSlot(tab, slot), image)
    {
      Save(TabSlot(tab, slot), image);
    }

    function LoadPhoto(tab: int, slot: int): (r: Option<Image>)
      reads this
      ensures PhotoFileName(tab, slot) !in files ==> r == None
      ensures PhotoFileName(tab, slot) in files ==> r == codec.decode(files[PhotoFileName(tab, slot)])
    {
      Load(files, codec, TabSlot(tab, slot))
    }

    /** Removes the file of (tab, slot); an absent file is not an error. */
    method DeletePhoto(tab: int, slot: int)
      modifies this
      ensures files == Removed(old(files), TabSlot(tab, slot))
    {
      files := files - {PhotoFileName(tab, slot)};
    }

    method SaveProfilePhoto(image: Image)
      modifies this
      ensures codec.encode(image, JpegQuality).None? ==> files == old(files)
      ensures files == old(files) || files == Stored(old(files), codec, ProfileKey, image)
    {
      Save(ProfileKey, image);
    }

    function LoadProfilePhoto(): (r: Option<Image>)
      reads this
      ensures ProfilePhotoFileName !in files ==> r == None
      ensures ProfilePhotoFileName in files ==> r == codec.decode(files[ProfilePhotoFileName])
    {
      Load(files, codec, ProfileKey)
    }

    /** Every (tab, slot) photo of the grid, loaded; absent ones are None. */
    function LoadAllTabs(tabCount: nat := DefaultTabCount, slotsPerTab: nat := DefaultSlotsPerTab)
      : (g: seq<seq<Option<Image>>>)
      reads this
      ensures |g| == tabCount
      ensures forall t :: 0 <= t < tabCount ==> |g[t]| == slotsPerTab
      ensures forall t, s :: 0 <= t < tabCount && 0 <= s < slotsPerTab ==> g[t][s] == LoadPhoto(t, s)
    {
      Grid(files, codec, tabCount, slotsPerTab)
    }
  }

  // ---------------------------------------------------------------------
  // Properties
  // ---------------------------------------------------------------------

  /** Called with no arguments, the bulk loader returns a 4 x 6 grid. */
  lemma DefaultGridShape(store: PhotoStore)
    ensures |store.LoadAllTabs()| == 4
    ensures forall t :: 0 <= t < 4 ==> |store.LoadAllTabs()[t]| == 6
  {
  }

  /** A save whose write succeeds changes the entry of its own file name and no other. */
  lemma StoredTouchesOneEntry(dir: Directory, codec: Codec, key: PhotoKey, image: Image, name: string)
    requires name != FileName(key)
    ensures name in Stored(dir, codec, key, image) <==> name in dir
    ensures name in dir ==> Stored(dir, codec, key, image)[name] == dir[name]
  {
  }

  /** A removal changes the entry of its own file name and no other. */
  lemma RemovedTouchesOneEntry(dir: Directory, key: PhotoKey, name: string)
    requires name != FileName(key)
    ensures name in Removed(dir, key) <==> name in dir
    ensures name in dir ==> Removed(dir, key)[name] == dir[name]
  {
  }

  /** Save then load on the same key gives back the decoded encoding of the image. */
  lemma LoadAfterSave(dir: Directory, codec: Codec, key: PhotoKey, image: Image)
    requires codec.encode(image, JpegQuality).Some?
    ensures Load(Stored(dir, codec, key, image), codec, key)
         == codec.decode(codec.encode(image, JpegQuality).value)
  {
  }

  /** Of two saves to one key, the load reflects the second, whatever the first was. */
  lemma LatestSaveWins(dir: Directory, codec: Codec, key: PhotoKey, first: Image, second: Image)
    requires codec.encode(second, JpegQuality).Some?
    ensures Load(Stored(Stored(dir, codec, key, first), codec, key, second), codec, key)
         == Load(Stored(dir, codec, key, second), codec, key)
  {
  }

  /** A save under one key leaves the load of every other key as it was. */
  lemma SaveLeavesOtherKeys(dir: Directory, codec: Codec, key: PhotoKey, image: Image, other: PhotoKey)
    requires other != key
    ensures Load(Stored(dir, codec, key, image), codec, other) == Load(dir, codec, other)
  {
    FileNameInjective(key, other);
  }

  /** After a delete, the key loads as absent. */
  lemma LoadAfterDelete(dir: Directory, codec: Codec, key: PhotoKey)
    ensures FileName(key) !in Removed(dir, key)
    ensures Load(Removed(dir, key), codec, key) == None
  {
  }

  /** A delete under one key leaves the load of every other key as it was. */
  lemma DeleteLeavesOtherKeys(dir: Directory, codec: Codec, key: PhotoKey, other: PhotoKey)
    requires other != key
    ensures Load(Removed(dir, key), codec, other) == Load(dir, codec, other)
  {
    FileNameInjective(key, other);
  }

  /** Deleting twice leaves the same directory as deleting once; deleting an absent file changes nothing. */
  lemma DeleteIdempotent(dir: Directory, key: PhotoKey)
    ensures Removed(Removed(dir, key), key) == Removed(dir, key)
    ensures FileName(key) !in dir ==> Removed(dir, key) == dir
  {
  }

  /**
   * A successful save to a cell inside the grid changes that cell of the
   * reloaded grid to the decoded encoding, and every other cell stays.
   */
  lemma GridAfterSave(dir: Directory, codec: Codec, tabCount: nat, slotsPerTab: nat,
                      tab: nat, slot: nat, image: Image)
    requires tab < tabCount && slot < slotsPerTab
    requires codec.encode(image, JpegQuality).Some?
    ensures var before := Grid(dir, codec, tabCount, slotsPerTab);
            Grid(Stored(dir, codec, TabSlot(tab, slot), image), codec, tabCount, slotsPerTab)
              == before[tab := before[tab][slot := codec.decode(codec.encode(image, JpegQuality).value)]]
  {
    var before := Grid(dir, codec, tabCount, slotsPerTab);
    var after := Grid(Stored(dir, codec, TabSlot(tab, slot), image), codec, tabCount, slotsPerTab);
    var expected := before[tab := before[tab][slot := codec.decode(codec.encode(image, JpegQuality).value)]];
    forall t | 0 <= t < tabCount
      ensures after[t] == expected[t]
    {
      forall s | 0 <= s < slotsPerTab
        ensures after[t][s] == expected[t][s]
      {
        if t != tab || s != slot {
          SaveLeavesOtherKeys(dir, codec, TabSlot(tab, slot), image, TabSlot(t, s));
        }
      }
    }
  }

  /** A save to a (tab, slot) outside the grid, negative ones included, leaves the reloaded grid as it was. */
  lemma GridAfterSaveOutside(dir: Directory, codec: Codec, tabCount: nat, slotsPerTab: nat,
                             tab: int, slot: int, image: Image)
    requires !(0 <= tab < tabCount && 0 <= slot < slotsPerTab)
    ensures Grid(Stored(dir, codec, TabSlot(tab, slot), image), codec, tabCount, slotsPerTab)
         == Grid(dir, codec, tabCount, slotsPerTab)
  {
    var before := Grid(dir, codec, tabCount, slotsPerTab);
    var after := Grid(Stored(dir, codec, TabSlot(tab, slot), image), codec, tabCount, slotsPerTab);
    forall t | 0 <= t < tabCount
      ensures after[t] == before[t]
    {
      forall s | 0 <= s < slotsPerTab
        ensures after[t][s] == before[t][s]
      {
        SaveLeavesOtherKeys(dir, codec, TabSlot(tab, slot), image, TabSlot(t, s));
      }
    }
  }

  /** The profile photo's file is never one of the grid's cells. */
  lemma ProfileSaveLeavesGrid(dir: Directory, codec: Codec, tabCount: nat, slotsPerTab: nat, image: Image)
    ensures Grid(Stored(dir, codec, ProfileKey, image), codec, tabCount, slotsPerTab)
         == Grid(dir, codec, tabCount, slotsPerTab)
  {
    var before := Grid(dir, codec, tabCount, slotsPerTab);
    var after := Grid(Stored(dir, codec, ProfileKey, image), codec, tabCount, slotsPerTab);
    forall t | 0 <= t < tabCount
      ensures after[t] == before[t]
    {
      forall s | 0 <= s < slotsPerTab
        ensures after[t][s] == before[t][s]
      {
        SaveLeavesOtherKeys(dir, codec, ProfileKey, image, TabSlot(t, s));
      }
    }
  }

  /**
   * Starting from an empty directory, one successful save to (2, 3) whose
   * file decodes makes exactly that cell of the default 4 x 6 grid present.
   */
  lemma OneSaveOneCell(codec: Codec, image: Image)
    requires codec.encode(image, JpegQuality).Some?
    requires codec.decode(codec.encode(image, JpegQuality).value).Some?
    ensures var g := Grid(Stored(map[], codec, TabSlot(2, 3), image), codec, DefaultTabCount, DefaultSlotsPerTab);
            forall t, s :: 0 <= t < DefaultTabCount && 0 <= s < DefaultSlotsPerTab ==>
              (g[t][s].Some? <==> t == 2 && s == 3)
  {
    var dir := Stored(map[], codec, TabSlot(2, 3), image);
    forall t, s | 0 <= t < DefaultTabCount && 0 <= s < DefaultSlotsPerTab
      ensures Load(dir, codec, TabSlot(t, s)).Some? <==> t == 2 && s == 3
    {
      PhotoFileNameInjective(t, s, 2, 3);
    }
  }
}
