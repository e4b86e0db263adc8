/** The file system (filesys/filesys.cc): creating, opening and removing files by name. */
module FileSystems {
  import opened Common
  import opened BitMaps
  import opened Encoding
  import opened FileHeaders
  import opened OpenFiles
  import opened Directories
  import opened Volumes
  import opened VolumeSteps

  /** The sectors of the file named `key`: its header and its data. */
  ghost function SectorsFor(d: Image, key: seq<Byte>): set<int>
    requires FsOk(d) && key in Files(d)
  {
    {TableOf(d)[Lookup(TableOf(d), key)].sector} + Elements(Data(HeaderFor(d, key)))
  }

  /** The other files have the same headers and bytes in both images. */
  ghost predicate OthersKept(d: Image, d': Image, key: seq<Byte>)
    requires FsOk(d) && FsOk(d')
  {
    forall k :: k in Files(d) && k != key ==>
      k in Files(d') && HeaderFor(d', k) == HeaderFor(d, k) && Files(d')[k] == Files(d)[k]
  }

  /** `d'` is `d` with a new file, of the given size and unspecified contents. */
  ghost predicate Created(d: Image, d': Image, key: seq<Byte>, size: Int32)
    requires FsOk(d)
  {
    && FsOk(d') && key !in Files(d)
    && Files(d').Keys == Files(d).Keys + {key}
    && OthersKept(d, d', key)
    && HeaderFor(d', key).numBytes == size
    && SectorsFor(d', key) !! MarkedOn(d) && MarkedOn(d') == MarkedOn(d) + SectorsFor(d', key)
  }

  /** `d'` is `d` without the file. */
  ghost predicate Removed(d: Image, d': Image, key: seq<Byte>)
    requires FsOk(d)
  {
    && FsOk(d') && key in Files(d)
    && Files(d') == Files(d) - {key}
    && OthersKept(d, d', key)
    && MarkedOn(d') == MarkedOn(d) - SectorsFor(d, key)
  }

  /** Removing a file that was just created restores the map of files and the bitmap. */
  lemma CreateRemove(d: Image, d': Image, d'': Image, key: seq<Byte>, size: Int32)
    requires FsOk(d) && Created(d, d', key, size) && Removed(d', d'', key)
    ensures Files(d'') == Files(d) && MarkedOn(d'') == MarkedOn(d)
  {
    hide FsOk, Files, AreFiles, HeaderFor, MarkedOn, SectorsFor;
  }

  // ---------------------------------------------------------------- what a commit writes

  /** The file of the directory, or of the bitmap, has the given content and nothing else
      differs from `d`. */
  ghost predicate Rewritten(d: Image, d': Image, h: Header, c: seq<Byte>) {
    HeaderOk(h) && OnlyFileChanged(d, d', h) && Content(d', h) == c
  }

  ghost predicate Disjoint(s: seq<int>, t: seq<int>) {
    forall x :: x in s ==> x !in t
  }

  /** Rewriting one file leaves a file with other sectors alone. */
  lemma RewrittenElsewhere(d: Image, d': Image, h: Header, g: Header)
    requires HeaderOk(h) && HeaderOk(g) && OnlyFileChanged(d, d', h) && Disjoint(Data(g), Data(h))
    ensures Content(d', g) == Content(d, g)
  {
    FlatFrame(d, d', Data(g), 0, |Data(g)|);
  }

  lemma BootDataDisjoint(d: Image, own: map<int, (nat, nat)>)
    requires Tidy(d, own)
    ensures Disjoint(Data(DirHeader(d)), Data(MapHeader(d)))
    ensures FREE_MAP_SECTOR !in Data(DirHeader(d)) && FREE_MAP_SECTOR !in Data(MapHeader(d))
    ensures DIRECTORY_SECTOR !in Data(DirHeader(d)) && DIRECTORY_SECTOR !in Data(MapHeader(d))
    ensures forall x :: x in Data(DirHeader(d)) ==> x in MarkedOn(d)
    ensures forall x :: x in Data(MapHeader(d)) ==> x in MarkedOn(d)
    ensures FREE_MAP_SECTOR in MarkedOn(d) && DIRECTORY_SECTOR in MarkedOn(d)
  {
    hide DecodeHeader, DecodeTable, DecodeWords, MarkedIn, Content, Lookup, HeaderOk, Data;
    var v := View(d);
    assert v.headers[MAP_FILE] == MapHeader(d) && v.headers[DIR_FILE] == DirHeader(d);
    assert Has(v, MAP_FILE, 0) && Has(v, DIR_FILE, 0);
    NotInDataOf(d, own, MAP_FILE, 0, MAP_FILE);
    NotInDataOf(d, own, MAP_FILE, 0, DIR_FILE);
    NotInDataOf(d, own, DIR_FILE, 0, MAP_FILE);
    NotInDataOf(d, own, DIR_FILE, 0, DIR_FILE);
    forall x | x in Data(DirHeader(d))
      ensures x in MarkedOn(d) && x !in Data(MapHeader(d))
    {
      var j :| 0 <= j < |Data(DirHeader(d))| && Data(DirHeader(d))[j] == x;
      assert Has(v, DIR_FILE, j + 1) && SectorOf(v, DIR_FILE, j + 1) == x;
      NotInDataOf(d, own, DIR_FILE, j + 1, MAP_FILE);
    }
    forall x | x in Data(MapHeader(d))
      ensures x in MarkedOn(d)
    {
      var j :| 0 <= j < |Data(MapHeader(d))| && Data(MapHeader(d))[j] == x;
      assert Has(v, MAP_FILE, j + 1) && SectorOf(v, MAP_FILE, j + 1) == x;
      NotInDataOf(d, own, MAP_FILE, j + 1, DIR_FILE);
    }
  }

  /** After a commit, the directory and the bitmap on the disk are the ones written. The two
      files may be written in either order. */
  lemma Committed(d: Image, d1: Image, d2: Image, d3: Image, t: seq<Entry>, ws: seq<Word>, dirFirst: bool)
    requires FsOk(d) && (forall x :: x in MarkedOn(d) ==> d1[x] == d[x])
    requires |t| == NUM_DIR_ENTRIES && |ws| == 32
    requires dirFirst ==> Rewritten(d1, d2, DirHeader(d), EncodeTable(t)) && Rewritten(d2, d3, MapHeader(d), EncodeWords(ws))
    requires !dirFirst ==> Rewritten(d1, d2, MapHeader(d), EncodeWords(ws)) && Rewritten(d2, d3, DirHeader(d), EncodeTable(t))
    ensures Bootable(d3) && TableOf(d3) == t && MarkedOn(d3) == MarkedIn(ws, NUM_SECTORS)
    ensures KeepsFiles(d, d3)
    ensures forall x :: 0 <= x < NUM_SECTORS && x !in MarkedOn(d) ==> d3[x] == d1[x]
  {
    hide DecodeHeader, DecodeTable, DecodeWords, MarkedIn, Lookup, HeaderOk, Data, EncodeTable, EncodeWords,
         Content, View, Owners, WellFormed;
    var own :| Tidy(d, own);
    BootDataDisjoint(d, own);
    var mh, dh := MapHeader(d), DirHeader(d);
    if dirFirst {
      RewrittenElsewhere(d2, d3, mh, dh);
    } else {
      RewrittenElsewhere(d2, d3, dh, mh);
    }
    assert d3[FREE_MAP_SECTOR] == d[FREE_MAP_SECTOR] && d3[DIRECTORY_SECTOR] == d[DIRECTORY_SECTOR];
    TableRoundTrip(t);
    WordsRoundTrip(ws);
  }

  lemma CreatedFile(d: Image, d': Image, slot: nat, h: Header, key: seq<Byte>)
    requires FsOk(d) && AddsFile(d, d', slot, h) && Key(TableOf(d')[slot].name) == key
    ensures Created(d, d', key, h.numBytes)
  {
    hide DecodeHeader, HeaderAt, Lookup, HeaderOk, Data, KeySet, Key, KeepsFiles, Tidy, View, HeaderFor, TableOf, MarkedOn;
    FileAdded(d, d', slot, h);
    LookupAdded(TableOf(d), slot, TableOf(d')[slot], key);
  }

  lemma RemovedFile(d: Image, d': Image, slot: nat, key: seq<Byte>)
    requires FsOk(d) && RemovesFile(d, d', slot)
    requires slot == Lookup(TableOf(d), key)
    ensures Removed(d, d', key)
  {
    hide HeaderOk, Data, Key, KeepsFiles, Tidy, View, TableOf, MarkedOn;
    FileRemoved(d, d', slot);
  }

  // ---------------------------------------------------------------- formatting

  /** An image whose only files are the bitmap and an empty directory. */
  ghost predicate Blank(d: Image) {
    && Bootable(d)
    && (forall f :: 0 <= f < NUM_DIR_ENTRIES ==> !TableOf(d)[f].inUse)
    && (forall x :: x in Data(MapHeader(d)) || x in Data(DirHeader(d)) ==> x != FREE_MAP_SECTOR && x != DIRECTORY_SECTOR)
    && Disjoint(Data(DirHeader(d)), Data(MapHeader(d)))
    && MarkedOn(d) == {FREE_MAP_SECTOR, DIRECTORY_SECTOR} + Elements(Data(MapHeader(d))) + Elements(Data(DirHeader(d)))
  }

  lemma BlankOwners(v: Volume) returns (own: map<int, (nat, nat)>)
    requires Shape(v) && (forall f :: 0 <= f < NUM_DIR_ENTRIES ==> !v.table[f].inUse)
    requires Distinct(Data(v.headers[MAP_FILE])) && Distinct(Data(v.headers[DIR_FILE]))
    requires forall x :: x in Data(v.headers[MAP_FILE]) || x in Data(v.headers[DIR_FILE]) ==>
               x != FREE_MAP_SECTOR && x != DIRECTORY_SECTOR
    requires Disjoint(Data(v.headers[DIR_FILE]), Data(v.headers[MAP_FILE]))
    ensures Owners(v, own)
    ensures own.Keys == {FREE_MAP_SECTOR, DIRECTORY_SECTOR} + Elements(Data(v.headers[MAP_FILE]))
                        + Elements(Data(v.headers[DIR_FILE]))
  {
    hide Distinct, Data, OwnersWith;
    var mapData, dirData := Data(v.headers[MAP_FILE]), Data(v.headers[DIR_FILE]);
    var mapList, dirList := [FREE_MAP_SECTOR] + mapData, [DIRECTORY_SECTOR] + dirData;
    OwnersWithFile(map[], MAP_FILE, FREE_MAP_SECTOR, mapData);
    var own1 := OwnersWith(map[], MAP_FILE, mapList, |mapList|);
    OwnersWithFile(own1, DIR_FILE, DIRECTORY_SECTOR, dirData);
    own := OwnersWith(own1, DIR_FILE, dirList, |dirList|);
    assert forall i: nat :: i < Count(v, MAP_FILE) ==> SectorOf(v, MAP_FILE, i) == mapList[i];
    assert forall i: nat :: i < Count(v, DIR_FILE) ==> SectorOf(v, DIR_FILE, i) == dirList[i];
  }

  lemma BlankIsOk(d: Image)
    requires Blank(d)
    ensures FsOk(d) && Files(d) == map[]
  {
    hide DecodeHeader, DecodeTable, DecodeWords, MarkedIn, Content, JustEnough, OnDisk, Distinct, Data;
    var own := BlankOwners(View(d));
    assert Tidy(d, own);
    assert KeySet(TableOf(d)) == {} by {
      forall k ensures Lookup(TableOf(d), k) == -1 { LookupIs(TableOf(d), k, -1); }
    }
  }

  /** Headers for the bitmap and the directory, with data in different sectors. */
  ghost predicate BootHeaders(mh: Header, dh: Header) {
    && HeaderOk(mh) && mh.numBytes == FREE_MAP_FILE_SIZE
    && HeaderOk(dh) && dh.numBytes == DIRECTORY_FILE_SIZE
    && (forall x :: x in Data(mh) || x in Data(dh) ==> x != FREE_MAP_SECTOR && x != DIRECTORY_SECTOR)
    && Disjoint(Data(dh), Data(mh))
  }

  lemma {:induction false} ElementsSize(s: seq<int>)
    ensures |Elements(s)| <= |s|
  {
    if s == [] {
      assert Elements(s) == {};
    } else {
      ElementsSize(s[1..]);
      assert Elements(s) == {s[0]} + Elements(s[1..]);
    }
  }

  lemma InElements(s: seq<int>)
    ensures forall x :: x in s ==> x in Elements(s)
  {
  }

  lemma RoomLeft(h: Header, base: set<nat>)
    requires HeaderOk(h) && |base| <= 2
    ensures ClearCount(NUM_SECTORS, base + Elements(Data(h))) >= NUM_SECTORS - 32
  {
    ElementsSize(Data(h));
    ClearAtLeast(NUM_SECTORS, base + Elements(Data(h)));
  }

  lemma FormattedIsBlank(d1: Image, d2: Image, d3: Image, mh: Header, dh: Header, t: seq<Entry>, ws: seq<Word>)
    requires BootHeaders(mh, dh) && DecodeHeader(d1[FREE_MAP_SECTOR]) == mh && DecodeHeader(d1[DIRECTORY_SECTOR]) == dh
    requires |t| == NUM_DIR_ENTRIES && |ws| == 32 && (forall f :: 0 <= f < |t| ==> !t[f].inUse)
    requires Rewritten(d1, d2, mh, EncodeWords(ws)) && Rewritten(d2, d3, dh, EncodeTable(t))
    requires MarkedIn(ws, NUM_SECTORS) == {FREE_MAP_SECTOR, DIRECTORY_SECTOR} + Elements(Data(mh)) + Elements(Data(dh))
    ensures Blank(d3) && MapHeader(d3) == mh && DirHeader(d3) == dh
  {
    hide DecodeHeader, DecodeTable, DecodeWords, MarkedIn, HeaderOk, Data, EncodeTable, EncodeWords, Content;
    RewrittenElsewhere(d2, d3, dh, mh);
    TableRoundTrip(t);
    WordsRoundTrip(ws);
  }

  lemma OkBootable(d: Image)
    requires FsOk(d)
    ensures Bootable(d)
  {
  }

  class FileSystem {
    const disk: SynchDisk
    const freeMapFile: OpenFile
    const directoryFile: OpenFile

    ghost predicate Valid()
      reads disk, freeMapFile.hdr, directoryFile.hdr
    {
      && freeMapFile.disk == disk && directoryFile.disk == disk
      && FsOk(disk.sectors)
      && freeMapFile.hdr.Value() == MapHeader(disk.sectors)
      && directoryFile.hdr.Value() == DirHeader(disk.sectors)
    }

    /** With `format`, lay out an empty file system on a disk that may hold anything;
        otherwise open the two files of the file system that is there. */
    constructor (disk: SynchDisk, format: bool)
      requires !format ==> FsOk(disk.sectors)
      modifies disk
      ensures Valid() && this.disk == disk && fresh(freeMapFile.hdr) && fresh(directoryFile.hdr)
      ensures format ==> Blank(disk.sectors) && Files(disk.sectors) == map[]
      ensures !format ==> disk.sectors == old(disk.sectors)
    {
      hide FsOk, Files, AreFiles;
      this.disk := disk;
      if format {
        var mapFile, dirFile := Format(disk);
        freeMapFile, directoryFile := mapFile, dirFile;
        BlankIsOk(disk.sectors);
      } else {
        freeMapFile := new OpenFile(disk, FREE_MAP_SECTOR);
        directoryFile := new OpenFile(disk, DIRECTORY_SECTOR);
      }
    }

    static method Format(disk: SynchDisk) returns (mapFile: OpenFile, dirFile: OpenFile)
      modifies disk
      ensures Blank(disk.sectors)
      ensures mapFile.disk == disk && fresh(mapFile.hdr) && mapFile.hdr.Value() == MapHeader(disk.sectors)
      ensures dirFile.disk == disk && fresh(dirFile.hdr) && dirFile.hdr.Value() == DirHeader(disk.sectors)
    {
      hide FsOk, Files, AreFiles, DecodeHeader, EncodeHeader, DecodeTable, DecodeWords, MarkedIn, Content, HeaderOk, Data, EncodeTable,
           EncodeWords, ClearCount;
      var directory := new Directory(NUM_DIR_ENTRIES);
      var freeMap, mapHdr, dirHdr := AllocateBootFiles();
      ghost var mh, dh := mapHdr.Value(), dirHdr.Value();
      mapHdr.WriteBack(disk, FREE_MAP_SECTOR);
      dirHdr.WriteBack(disk, DIRECTORY_SECTOR);
      HeaderRoundTrip(mh);
      HeaderRoundTrip(dh);
      mapFile := new OpenFile(disk, FREE_MAP_SECTOR);
      dirFile := new OpenFile(disk, DIRECTORY_SECTOR);
      ghost var d1 := disk.sectors;
      WriteBitMap(freeMap, mapFile);
      ghost var d2 := disk.sectors;
      directory.WriteBack(dirFile);
      FormattedIsBlank(d1, d2, disk.sectors, mh, dh, directory.table[..], freeMap.words[..]);
    }

    /** Mark the sectors of the two headers, and allocate the data of the two files: there
        is room for them, as the source asserts. */
    static method AllocateBootFiles() returns (freeMap: BitMap, mapHdr: FileHeader, dirHdr: FileHeader)
      ensures fresh(freeMap) && fresh(freeMap.words) && freeMap.Valid() && freeMap.numBits == NUM_SECTORS
      ensures fresh(mapHdr) && fresh(dirHdr) && mapHdr != dirHdr
      ensures BootHeaders(mapHdr.Value(), dirHdr.Value())
      ensures freeMap.Marked() == {FREE_MAP_SECTOR, DIRECTORY_SECTOR}
                + Elements(Data(mapHdr.Value())) + Elements(Data(dirHdr.Value()))
    {
      hide HeaderOk, Data, MarkedIn, ClearCount, Elements;
      freeMap := new BitMap(NUM_SECTORS);
      mapHdr := new FileHeader();
      dirHdr := new FileHeader();
      freeMap.Mark(FREE_MAP_SECTOR);
      freeMap.Mark(DIRECTORY_SECTOR);
      ghost var base := freeMap.Marked();
      assert base == {FREE_MAP_SECTOR, DIRECTORY_SECTOR};
      ClearAtLeast(NUM_SECTORS, base);
      var room := mapHdr.Allocate(freeMap, FREE_MAP_FILE_SIZE);
      assert room.Granted?;
      ghost var mh := mapHdr.Value();
      RoomLeft(mh, base);
      room := dirHdr.Allocate(freeMap, DIRECTORY_FILE_SIZE);
      assert room.Granted?;
      ghost var dh := dirHdr.Value();
      InElements(Data(mh));
      InElements(Data(dh));
    }

    method FetchDirectory() returns (directory: Directory)
      requires Valid()
      ensures fresh(directory) && fresh(directory.table) && directory.Valid()
      ensures directory.table[..] == TableOf(disk.sectors)
    {
      hide FsOk, HeaderOk, Content, DecodeHeader, DecodeTable, EncodeTable;
      OkBootable(disk.sectors);
      directory := new Directory(NUM_DIR_ENTRIES);
      directory.FetchFrom(directoryFile);
    }

    method FetchFreeMap() returns (freeMap: BitMap)
      requires Valid()
      ensures fresh(freeMap) && fresh(freeMap.words) && freeMap.Valid()
      ensures freeMap.numBits == NUM_SECTORS && freeMap.Marked() == MarkedOn(disk.sectors)
    {
      hide FsOk, HeaderOk, Content, DecodeHeader, DecodeWords, EncodeWords;
      OkBootable(disk.sectors);
      freeMap := new BitMap(NUM_SECTORS);
      FetchBitMap(freeMap, freeMapFile);
    }

    /** Create a file of fixed size: one is made exactly when its name is new, the directory has
        an entry left and the size is one a header can describe. With such a name and entry, a
        size that a header cannot describe overruns the header's table when the disk has room
        for it, and is refused when not. Without success no sector changes. */
    method Create(name: CString, initialSize: Int32) returns (r: Allocation)
      requires Valid()
      modifies disk
      ensures Valid()
      ensures r.Granted? <==> CreateSucceeds(old(disk.sectors), Key(name), initialSize)
      ensures r.Overrun? <==> CreateOverruns(old(disk.sectors), Key(name), initialSize)
      ensures r.Granted? ==> Created(old(disk.sectors), disk.sectors, Key(name), initialSize)
      ensures !r.Granted? ==> disk.sectors == old(disk.sectors)
    {
      hide FsOk, Files, AreFiles, Created, DecodeHeader, DecodeTable, DecodeWords, MarkedIn, Content, HeaderOk, Data, EncodeTable,
           EncodeWords, EncodeHeader, Lookup, ClearCount, KeySet, Key;
      ghost var d := disk.sectors;
      OkBootable(d);
      PlentyOfRoom(d);
      FullDirectory(d);
      FilesKeys(d, Key(name));
      var directory := FetchDirectory();
      var found := directory.Find(name);
      FoundSector(d, Key(name));
      if found != -1 {
        return Denied;
      }
      var freeMap := FetchFreeMap();
      var sector := freeMap.Find();
      assert sector >= 0 by { SomeClear(NUM_SECTORS, MarkedOn(d)); }
      MarkOne(NUM_SECTORS, MarkedOn(d), sector);
      var added, slot := directory.Add(name, sector);
      if !added {
        return Denied;
      }
      var hdr := new FileHeader();
      r := hdr.Allocate(freeMap, initialSize);
      BlocksFit(initialSize);
      if !r.Granted? {
        return;
      }
      Commit(hdr, sector, directory, slot, freeMap, Key(name));
    }

    /** A handle on the file, or null if there is none of that name. */
    method Open(name: CString) returns (file: OpenFile?)
      requires Valid()
      ensures file == null <==> Key(name) !in Files(disk.sectors)
      ensures file != null ==> fresh(file) && fresh(file.hdr) && file.disk == disk && file.seekPosition == 0
      ensures file != null ==> file.Valid() && file.hdr.Value() == HeaderFor(disk.sectors, Key(name))
      ensures file != null ==> file.Bytes() == Files(disk.sectors)[Key(name)]
    {
      hide FsOk, Files, AreFiles, DecodeHeader, DecodeTable, DecodeWords, MarkedIn, Content, HeaderOk, Data, EncodeTable, Lookup, KeySet, Key;
      OkBootable(disk.sectors);
      FilesKeys(disk.sectors, Key(name));
      FoundSector(disk.sectors, Key(name));
      var directory := FetchDirectory();
      var sector := directory.Find(name);
      if sector < 0 {
        return null;
      }
      FoundHeader(disk.sectors, Key(name));
      file := new OpenFile(disk, sector);
    }

    /** Remove a file; false if there is none of that name. */
    method Remove(name: CString) returns (success: bool)
      requires Valid()
      modifies disk
      ensures Valid()
      ensures success <==> Key(name) in Files(old(disk.sectors))
      ensures success ==> Removed(old(disk.sectors), disk.sectors, Key(name))
      ensures !success ==> disk.sectors == old(disk.sectors)
    {
      hide FsOk, Files, AreFiles, Removed, DecodeHeader, DecodeTable, DecodeWords, MarkedIn, Content, HeaderOk, Data, EncodeTable,
           EncodeWords, Lookup, KeySet, Key, Elements;
      ghost var d, key := disk.sectors, Key(name);
      OkBootable(d);
      FilesKeys(d, key);
      FoundSector(d, key);
      var directory := FetchDirectory();
      var sector := directory.Find(name);
      if sector == -1 {
        return false;
      }
      FoundHeader(d, key);
      OwnSectors(d, key);
      var fileHdr := new FileHeader();
      fileHdr.FetchFrom(disk, sector);
      var freeMap := FetchFreeMap();
      fileHdr.Deallocate(freeMap);
      freeMap.Clear(sector);
      var _ := directory.Remove(name);
      ghost var t, ws := directory.table[..], freeMap.words[..];
      WriteBitMap(freeMap, freeMapFile);
      ghost var d2 := disk.sectors;
      directory.WriteBack(directoryFile);
      CommitRemoves(d, d2, disk.sectors, t, ws, key);
      return true;
    }

    /** Write a new file's header, then the directory, then the bitmap. */
    method Commit(hdr: FileHeader, sector: int, directory: Directory, ghost slot: nat, freeMap: BitMap, ghost key: seq<Byte>)
      requires Valid() && directory.Valid() && freeMap.Valid() && freeMap.numBits == NUM_SECTORS
      requires 0 <= sector < NUM_SECTORS && sector !in MarkedOn(disk.sectors)
      requires hdr != freeMapFile.hdr && hdr != directoryFile.hdr
      requires slot < NUM_DIR_ENTRIES == directory.table.Length
      requires PlannedEntry(disk.sectors, directory.table[..], slot, sector, key)
      requires PlannedHeader(disk.sectors, hdr.Value(), sector, freeMap.Marked())
      modifies disk
      ensures Valid() && Created(old(disk.sectors), disk.sectors, key, hdr.numBytes)
    {
      hide FsOk, Files, AreFiles, Created, DecodeHeader, DecodeTable, DecodeWords, MarkedIn, Content, HeaderOk, Data, EncodeTable,
           EncodeWords, EncodeHeader, Lookup, KeySet, Key;
      ghost var d := disk.sectors;
      OkBootable(d);
      ghost var h, t, ws := hdr.Value(), directory.table[..], freeMap.words[..];
      hdr.WriteBack(disk, sector);
      ghost var d1 := disk.sectors;
      directory.WriteBack(directoryFile);
      ghost var d2 := disk.sectors;
      WriteBitMap(freeMap, freeMapFile);
      CommitCreates(d, d1, d2, disk.sectors, t, ws, slot, sector, h, key);
    }
  }

  /** Create comes to store past the end of the sector table of the new header: the name is
      new, the directory has a free entry, and the blocks are too many for the table but
      not for the disk, once a sector is taken for the header. */
  ghost predicate CreateOverruns(d: Image, key: seq<Byte>, size: Int32)
    requires FsOk(d)
  {
    && key !in Files(d) && |Files(d)| < NUM_DIR_ENTRIES
    && NUM_DIRECT < Blocks(size) <= ClearCount(NUM_SECTORS, MarkedOn(d)) - 1
  }

  /** It can happen on every sound disk whose directory is not full: one byte above
      MaxFileSize is enough. */
  lemma SmallestOverrun(d: Image, key: seq<Byte>)
    requires FsOk(d) && key !in Files(d) && |Files(d)| < NUM_DIR_ENTRIES
    ensures CreateOverruns(d, key, MAX_FILE_SIZE + 1) && !CreateOverruns(d, key, MAX_FILE_SIZE)
  {
    hide FsOk, Files, AreFiles, MarkedOn;
    PlentyOfRoom(d);
  }

  /** In particular on a disk that was just formatted. */
  lemma OverrunOnBlank(d: Image, key: seq<Byte>)
    requires Blank(d)
    ensures FsOk(d) && CreateOverruns(d, key, 3841)
  {
    hide FsOk, Files, AreFiles, Blank, CreateOverruns;
    BlankIsOk(d);
    SmallestOverrun(d, key);
  }

  ghost predicate CreateSucceeds(d: Image, key: seq<Byte>, size: Int32)
    requires FsOk(d)
  {
    key !in Files(d) && |Files(d)| < NUM_DIR_ENTRIES && size <= MAX_FILE_SIZE
  }

  lemma FilesKeys(d: Image, key: seq<Byte>)
    requires FsOk(d)
    ensures key in Files(d) <==> Lookup(TableOf(d), key) != -1
  {
    hide Lookup, Content, MarkedIn, DecodeTable, DecodeHeader;
  }

  lemma FoundSector(d: Image, key: seq<Byte>)
    requires FsOk(d)
    ensures Lookup(TableOf(d), key) != -1 ==> 0 <= TableOf(d)[Lookup(TableOf(d), key)].sector < NUM_SECTORS
  {
    hide Lookup, Content, MarkedIn, DecodeTable, DecodeHeader, HeaderOk, Owners;
    var own :| Tidy(d, own);
    var f := Lookup(TableOf(d), key);
    if f != -1 {
      assert InUse(View(d).table, f);
    }
  }

  lemma FoundHeader(d: Image, key: seq<Byte>)
    requires FsOk(d) && key in Files(d)
    ensures Lookup(TableOf(d), key) >= 0
    ensures var s := TableOf(d)[Lookup(TableOf(d), key)].sector;
            0 <= s < NUM_SECTORS && DecodeHeader(d[s]) == HeaderFor(d, key)
    ensures HeaderOk(HeaderFor(d, key)) && Files(d)[key] == Content(d, HeaderFor(d, key))
  {
    hide Lookup, Content, MarkedIn, DecodeTable, DecodeHeader, HeaderOk, Owners;
    FoundSector(d, key);
  }

  /** The sectors of a file are marked, so the assertion in Deallocate holds. */
  lemma OwnSectors(d: Image, key: seq<Byte>)
    requires FsOk(d) && key in Files(d)
    ensures Elements(Data(HeaderFor(d, key))) <= MarkedOn(d)
  {
    hide Lookup, Content, MarkedIn, DecodeTable, DecodeHeader, HeaderOk, Data;
    var own :| Tidy(d, own);
    var f, v := Lookup(TableOf(d), key), View(d);
    forall x | x in Elements(Data(v.headers[f]))
      ensures x in MarkedOn(d)
    {
      var j :| 0 <= j < |Data(v.headers[f])| && Data(v.headers[f])[j] == x;
      assert Has(v, f, j + 1) && SectorOf(v, f, j + 1) == x;
    }
  }

  /** A size needs no more than 30 blocks exactly when it is at most MaxFileSize. */
  lemma BlocksFit(size: Int32)
    ensures Blocks(size) <= NUM_DIRECT <==> size <= MAX_FILE_SIZE
  {
  }

  ghost predicate PlannedEntry(d: Image, t: seq<Entry>, slot: nat, sector: int, key: seq<Byte>)
    requires FsOk(d)
  {
    && |t| == NUM_DIR_ENTRIES && slot < NUM_DIR_ENTRIES && !TableOf(d)[slot].inUse
    && t == TableOf(d)[slot := t[slot]]
    && t[slot].inUse && t[slot].sector == sector && Key(t[slot].name) == key
    && Lookup(TableOf(d), key) == -1
  }

  ghost predicate PlannedHeader(d: Image, h: Header, sector: int, marked: set<nat>)
    requires FsOk(d)
  {
    && HeaderOk(h)
    && Elements(Data(h)) !! MarkedOn(d) + {sector}
    && marked == MarkedOn(d) + {sector} + Elements(Data(h))
  }

  lemma CreatedIsOk(d: Image, d': Image, key: seq<Byte>, size: Int32)
    requires FsOk(d) && Created(d, d', key, size)
    ensures FsOk(d')
  {
    hide FsOk, Files, AreFiles, OthersKept, SectorsFor;
  }

  lemma CommitCreates(d: Image, d1: Image, d2: Image, d3: Image, t: seq<Entry>, ws: seq<Word>,
                      slot: nat, sector: nat, h: Header, key: seq<Byte>)
    requires FsOk(d) && sector < NUM_SECTORS && sector !in MarkedOn(d) && |ws| == 32
    requires PlannedEntry(d, t, slot, sector, key) && PlannedHeader(d, h, sector, MarkedIn(ws, NUM_SECTORS))
    requires d1 == d[sector := EncodeHeader(h)]
    requires Rewritten(d1, d2, DirHeader(d), EncodeTable(t)) && Rewritten(d2, d3, MapHeader(d), EncodeWords(ws))
    ensures Created(d, d3, key, h.numBytes) && FsOk(d3)
    ensures MapHeader(d3) == MapHeader(d) && DirHeader(d3) == DirHeader(d)
  {
    hide Files, AreFiles, Created, DecodeHeader, DecodeTable, DecodeWords, MarkedIn, Content, HeaderOk, Data, EncodeTable,
         EncodeWords, EncodeHeader, Lookup, KeySet, Key, View, Owners, WellFormed, Rewritten;
    Committed(d, d1, d2, d3, t, ws, true);
    HeaderRoundTrip(h);
    InElements(Data(h));
    assert AddsFile(d, d3, slot, h);
    CreatedFile(d, d3, slot, h, key);
    CreatedIsOk(d, d3, key, h.numBytes);
    var own :| Tidy(d, own);
    KeptBoot(d, d3, own);
  }

  lemma CommitRemoves(d: Image, d2: Image, d3: Image, t: seq<Entry>, ws: seq<Word>, key: seq<Byte>)
    requires FsOk(d) && key in Files(d) && |ws| == 32 && Lookup(TableOf(d), key) >= 0
    requires var f := Lookup(TableOf(d), key);
             && t == TableOf(d)[f := TableOf(d)[f].(inUse := false)]
             && MarkedIn(ws, NUM_SECTORS) == MarkedOn(d) - Elements(Data(HeaderFor(d, key))) - {TableOf(d)[f].sector}
    requires Rewritten(d, d2, MapHeader(d), EncodeWords(ws)) && Rewritten(d2, d3, DirHeader(d), EncodeTable(t))
    ensures Removed(d, d3, key) && FsOk(d3)
    ensures MapHeader(d3) == MapHeader(d) && DirHeader(d3) == DirHeader(d)
  {
    hide Files, AreFiles, DecodeHeader, DecodeTable, DecodeWords, MarkedIn, Content, HeaderOk, Data, EncodeTable,
         EncodeWords, Lookup, KeySet, Key, Owners, WellFormed, Rewritten, Elements, HeaderAt;
    Committed(d, d, d2, d3, t, ws, false);
    var f := Lookup(TableOf(d), key);
    assert RemovesFile(d, d3, f);
    RemovedFile(d, d3, f, key);
    var own :| Tidy(d, own);
    KeptBoot(d, d3, own);
  }
}
