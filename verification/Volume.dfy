/** What a disk image means as a file system: which sectors belong to which file, and the
    map from names to contents that the files make up. */
module Volumes {
  import opened Common
  import opened BitMaps
  import opened Encoding
  import opened FileHeaders
  import opened Directories

  const FREE_MAP_SECTOR := 0
  const DIRECTORY_SECTOR := 1
  const FREE_MAP_FILE_SIZE := 128
  const NUM_DIR_ENTRIES := 10
  const DIRECTORY_FILE_SIZE := 200

  // Files are numbered: the entries of the directory, then the two files that hold the
  // bitmap and the directory.
  const MAP_FILE := 10
  const DIR_FILE := 11
  const NUM_FILES := 12

  // ---------------------------------------------------------------- decoding an image

  ghost function MapHeader(d: Image): Header { DecodeHeader(d[FREE_MAP_SECTOR]) }

  ghost function DirHeader(d: Image): Header { DecodeHeader(d[DIRECTORY_SECTOR]) }

  /** The two headers at the well-known sectors describe files of the right size. */
  ghost predicate Bootable(d: Image) {
    && HeaderOk(MapHeader(d)) && MapHeader(d).numBytes == FREE_MAP_FILE_SIZE
    && HeaderOk(DirHeader(d)) && DirHeader(d).numBytes == DIRECTORY_FILE_SIZE
  }

  /** The directory on the disk. */
  ghost function TableOf(d: Image): (t: seq<Entry>)
    requires Bootable(d)
    ensures |t| == NUM_DIR_ENTRIES
  {
    DecodeTable(Content(d, DirHeader(d)))
  }

  /** The sectors marked in the bitmap on the disk. */
  ghost function MarkedOn(d: Image): (s: set<nat>)
    requires Bootable(d)
    ensures forall x :: x in s ==> 0 <= x < NUM_SECTORS
  {
    MarkedIn(DecodeWords(Content(d, MapHeader(d))), NUM_SECTORS)
  }

  /** The directory together with the header of every file, by file number. */
  datatype Volume = Volume(table: seq<Entry>, headers: seq<Header>)

  ghost function HeaderAt(d: Image, s: int): Header {
    if 0 <= s < NUM_SECTORS then DecodeHeader(d[s]) else MapHeader(d)
  }

  function HeaderSector(t: seq<Entry>, f: nat): int
    requires |t| == NUM_DIR_ENTRIES && f < NUM_FILES
  {
    if f == MAP_FILE then FREE_MAP_SECTOR else if f == DIR_FILE then DIRECTORY_SECTOR else t[f].sector
  }

  predicate InUse(t: seq<Entry>, f: nat)
    requires |t| == NUM_DIR_ENTRIES && f < NUM_FILES
  {
    f >= NUM_DIR_ENTRIES || t[f].inUse
  }

  ghost function View(d: Image): (v: Volume)
    requires Bootable(d)
    ensures Shape(v)
  {
    var t := TableOf(d);
    Volume(t, seq(NUM_FILES, f requires 0 <= f < NUM_FILES => HeaderAt(d, HeaderSector(t, f))))
  }

  ghost predicate Shape(v: Volume) {
    |v.table| == NUM_DIR_ENTRIES && |v.headers| == NUM_FILES
  }

  // ---------------------------------------------------------------- ownership

  /** How many sectors file `f` occupies: its header and its data. */
  ghost function Count(v: Volume, f: nat): nat
    requires Shape(v) && f < NUM_FILES
  {
    1 + |Data(v.headers[f])|
  }

  /** Sector `i` of file `f`: the header first, then the data. */
  ghost function SectorOf(v: Volume, f: nat, i: nat): int
    requires Shape(v) && f < NUM_FILES && i < Count(v, f)
  {
    if i == 0 then HeaderSector(v.table, f) else Data(v.headers[f])[i - 1]
  }

  /** File `f` exists and has a sector number `i`. */
  ghost predicate Has(v: Volume, f: nat, i: nat)
    requires Shape(v)
  {
    f < NUM_FILES && InUse(v.table, f) && i < Count(v, f)
  }

  /** A search for the name of an entry in use finds that entry, so no two share a name. */
  ghost predicate UniqueKeys(t: seq<Entry>) {
    forall f :: 0 <= f < |t| && t[f].inUse ==> Lookup(t, Key(t[f].name)) == f
  }

  ghost predicate WellFormed(v: Volume) {
    && Shape(v)
    && UniqueKeys(v.table)
    && forall f :: 0 <= f < NUM_FILES && InUse(v.table, f) ==>
         0 <= HeaderSector(v.table, f) < NUM_SECTORS && HeaderOk(v.headers[f])
  }

  /** `own` tells, for exactly the sectors in use, whose they are. */
  ghost predicate Owners(v: Volume, own: map<int, (nat, nat)>)
    requires Shape(v)
  {
    && (forall f: nat, i: nat :: Has(v, f, i) ==>
          SectorOf(v, f, i) in own && own[SectorOf(v, f, i)] == (f, i))
    && (forall x :: x in own ==> Has(v, own[x].0, own[x].1) && SectorOf(v, own[x].0, own[x].1) == x)
  }

  /** The invariant of the file system: the bitmap marks exactly the sectors in use, and
      each of them belongs to one place in one file. */
  ghost predicate FsOk(d: Image) {
    exists own :: Tidy(d, own)
  }

  ghost predicate Tidy(d: Image, own: map<int, (nat, nat)>) {
    && Bootable(d) && WellFormed(View(d))
    && Owners(View(d), own) && own.Keys == MarkedOn(d)
  }

  /** No sector is shared, and none is lost: the invariant without the owner map. */
  lemma ExactlyOwned(d: Image)
    requires FsOk(d)
    ensures forall f: nat, i: nat, g: nat, j: nat ::
              Has(View(d), f, i) && Has(View(d), g, j) && SectorOf(View(d), f, i) == SectorOf(View(d), g, j)
              ==> f == g && i == j
    ensures forall x :: x in MarkedOn(d) <==>
              exists f: nat, i: nat :: Has(View(d), f, i) && SectorOf(View(d), f, i) == x
  {
  }

  // ---------------------------------------------------------------- room on the disk

  lemma {:induction false} InjectionSize<T>(s: set<T>, code: map<T, int>, n: nat)
    requires forall x :: x in s ==> x in code && 0 <= code[x] < n
    requires forall x, y :: x in s && y in s && code[x] == code[y] ==> x == y
    ensures |s| <= n
  {
    if n == 0 {
      assert s == {};
    } else if x :| x in s && code[x] == n - 1 {
      InjectionSize(s - {x}, code, n - 1);
    } else {
      InjectionSize(s, code, n - 1);
    }
  }

  const MAX_SECTORS_IN_USE := NUM_FILES * (1 + NUM_DIRECT)

  function PairCode(p: (nat, nat)): nat { 31 * p.0 + p.1 }

  lemma PairCodeInjective(p: (nat, nat), q: (nat, nat))
    requires p.1 < 31 && q.1 < 31 && PairCode(p) == PairCode(q)
    ensures p == q
  {
  }

  lemma OwnedPlace(v: Volume, own: map<int, (nat, nat)>, x: int)
    requires WellFormed(v) && Owners(v, own) && x in own
    ensures own[x].0 < NUM_FILES && own[x].1 < 31 && PairCode(own[x]) < MAX_SECTORS_IN_USE
  {
    assert Has(v, own[x].0, own[x].1);
  }

  lemma OwnersBounded(v: Volume, own: map<int, (nat, nat)>)
    requires WellFormed(v) && Owners(v, own)
    ensures |own.Keys| <= MAX_SECTORS_IN_USE
  {
    var code := Tabulated(own.Keys, x requires x in own => PairCode(own[x]));
    forall x | x in own
      ensures 0 <= code[x] < MAX_SECTORS_IN_USE
    {
      OwnedPlace(v, own, x);
    }
    forall x, y | x in own && y in own && code[x] == code[y]
      ensures x == y
    {
      OwnedPlace(v, own, x);
      OwnedPlace(v, own, y);
      PairCodeInjective(own[x], own[y]);
    }
    InjectionSize(own.Keys, code, MAX_SECTORS_IN_USE);
  }

  /** Twelve files of at most 31 sectors never fill the disk. */
  lemma PlentyOfRoom(d: Image)
    requires FsOk(d)
    ensures ClearCount(NUM_SECTORS, MarkedOn(d)) >= NUM_SECTORS - MAX_SECTORS_IN_USE
  {
    var own :| Tidy(d, own);
    OwnersBounded(View(d), own);
    ClearAtLeast(NUM_SECTORS, MarkedOn(d));
  }

  // ---------------------------------------------------------------- the map of files

  ghost function KeysUpTo(t: seq<Entry>, n: nat): (s: set<seq<Byte>>)
    requires n <= |t|
  {
    if n == 0 then {}
    else if t[n - 1].inUse then KeysUpTo(t, n - 1) + {Key(t[n - 1].name)}
    else KeysUpTo(t, n - 1)
  }

  lemma {:induction false} KeysUpToSpec(t: seq<Entry>, n: nat, k: seq<Byte>)
    requires n <= |t|
    ensures k in KeysUpTo(t, n) <==> 0 <= Lookup(t, k) < n
  {
    if n > 0 { KeysUpToSpec(t, n - 1, k); }
  }

  ghost function KeySet(t: seq<Entry>): (s: set<seq<Byte>>)
    ensures forall k :: k in s <==> Lookup(t, k) != -1
  {
    assert forall k :: k in KeysUpTo(t, |t|) <==> Lookup(t, k) != -1 by {
      forall k ensures k in KeysUpTo(t, |t|) <==> Lookup(t, k) != -1 { KeysUpToSpec(t, |t|, k); }
    }
    KeysUpTo(t, |t|)
  }

  /** The header of the file named by `key`. */
  ghost function HeaderFor(d: Image, key: seq<Byte>): (h: Header)
    requires FsOk(d) && key in KeySet(TableOf(d))
    ensures HeaderOk(h)
  {
    View(d).headers[Lookup(TableOf(d), key)]
  }

  ghost predicate AreFiles(d: Image, files: map<seq<Byte>, seq<Byte>>)
    requires FsOk(d)
  {
    files.Keys == KeySet(TableOf(d)) && forall k :: k in files ==> files[k] == Content(d, HeaderFor(d, k))
  }

  lemma FilesExist(d: Image)
    requires FsOk(d)
    ensures exists files :: AreFiles(d, files)
  {
    hide KeySet, HeaderFor, Content, WellFormed, Owners;
    var keys := KeySet(TableOf(d));
    var files := Tabulated(keys, k requires k in keys => Content(d, HeaderFor(d, k)));
    assert AreFiles(d, files);
  }

  /** The file system as its users see it: a map from nine-character names to bytes. */
  ghost function Files(d: Image): (files: map<seq<Byte>, seq<Byte>>)
    requires FsOk(d)
    ensures AreFiles(d, files)
  {
    FilesExist(d);
    var files :| AreFiles(d, files);
    files
  }

  ghost function Used(t: seq<Entry>, n: nat): (u: nat)
    requires n <= |t|
    ensures u <= n
    ensures u == n <==> forall f :: 0 <= f < n ==> t[f].inUse
  {
    if n == 0 then 0 else Used(t, n - 1) + if t[n - 1].inUse then 1 else 0
  }

  lemma AddSize<T>(s: set<T>, x: T)
    requires x !in s
    ensures |s + {x}| == |s| + 1
  {
  }

  lemma {:induction false} KeyCount(t: seq<Entry>, n: nat)
    requires n <= |t| && UniqueKeys(t)
    ensures |KeysUpTo(t, n)| == Used(t, n)
  {
    if n > 0 {
      KeyCount(t, n - 1);
      if t[n - 1].inUse {
        var rest, key := KeysUpTo(t, n - 1), Key(t[n - 1].name);
        KeysUpToSpec(t, n - 1, key);
        AddSize(rest, key);
      }
    }
  }

  /** There is a free entry in the directory exactly when there are fewer than ten files. */
  lemma FullDirectory(d: Image)
    requires FsOk(d)
    ensures |Files(d)| <= NUM_DIR_ENTRIES
    ensures |Files(d)| < NUM_DIR_ENTRIES <==>
            exists f :: 0 <= f < NUM_DIR_ENTRIES && !TableOf(d)[f].inUse
  {
    KeyCount(TableOf(d), NUM_DIR_ENTRIES);
    assert Files(d).Keys == KeySet(TableOf(d));
  }
}
