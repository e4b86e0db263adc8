/** Disk images, file headers, and the bytes a header describes
    (machine/disk.h, filesys/synchdisk.cc as its callers see it, filesys/filehdr.cc). */
module FileHeaders {
  import opened Common
  import opened BitMaps
  import opened Encoding

  const NUM_SECTORS := 1024
  const MAX_FILE_SIZE := NUM_DIRECT * SECTOR_SIZE

  const BLANK: Sector := seq(SECTOR_SIZE, _ => 0)

  type Image = d: seq<Sector> | |d| == NUM_SECTORS
    witness seq<Sector>(NUM_SECTORS, _ => BLANK)

  /** `divRoundUp(size, SectorSize)` with C's division, which rounds towards zero. */
  function Blocks(size: Int32): Int32 {
    if size >= 0 then size / SECTOR_SIZE + (if size % SECTOR_SIZE > 0 then 1 else 0)
    else -((0 - size) / SECTOR_SIZE)
  }

  /** `c` with `bytes` in place of what was at `at`. */
  function Splice(c: seq<Byte>, at: nat, bytes: seq<Byte>): (r: seq<Byte>)
    requires at + |bytes| <= |c|
    ensures |r| == |c|
  {
    c[..at] + bytes + c[at + |bytes|..]
  }

  lemma SplicePrefix(c: seq<Byte>, at: nat, bytes: seq<Byte>)
    requires at + |bytes| <= |c|
    ensures Splice(c, at, bytes)[..at + |bytes|] == c[..at] + bytes
  {
  }

  /** `n` blocks are just enough for `size` bytes. */
  predicate JustEnough(size: int, n: int) {
    if size <= 0 then n <= 0 else SECTOR_SIZE * (n - 1) < size <= SECTOR_SIZE * n
  }

  lemma BlocksJustEnough(size: Int32)
    ensures JustEnough(size, Blocks(size))
    ensures size <= MAX_FILE_SIZE ==> Blocks(size) <= NUM_DIRECT
  {
  }

  /** No value occurs twice. */
  ghost predicate Distinct(s: seq<int>) {
    DistinctUpTo(s, |s|)
  }

  ghost predicate DistinctUpTo(s: seq<int>, n: nat)
    requires n <= |s|
  {
    n == 0 || (DistinctUpTo(s, n - 1) && forall j :: 0 <= j < n - 1 ==> s[j] != s[n - 1])
  }

  /** Place `i` is the only one that holds `s[i]`. */
  lemma {:induction false} DistinctAt(s: seq<int>, n: nat, i: nat)
    requires i < n <= |s| && DistinctUpTo(s, n)
    ensures forall j :: 0 <= j < n && j != i ==> s[j] != s[i]
  {
    if i < n - 1 { DistinctAt(s, n - 1, i); }
  }

  lemma {:induction false} DistinctPrefix(s: seq<int>, t: seq<int>, n: nat)
    requires n <= |s| && n <= |t| && (forall j :: 0 <= j < n ==> s[j] == t[j]) && DistinctUpTo(s, n)
    ensures DistinctUpTo(t, n)
  {
    if n > 0 { DistinctPrefix(s, t, n - 1); }
  }

  ghost function Elements(s: seq<int>): set<int> {
    set x | x in s
  }

  /** A header that Allocate can have filled in: the size fits the table, and the used
      part of the table holds different sectors of the disk. */
  ghost predicate HeaderOk(h: Header) {
    && JustEnough(h.numBytes, h.numSectors)
    && h.numSectors <= NUM_DIRECT
    && OnDisk(Data(h))
    && Distinct(Data(h))
  }

  /** The used part of the sector table. */
  function Data(h: Header): (s: seq<Int32>) {
    if 0 <= h.numSectors <= NUM_DIRECT then h.data[..h.numSectors] else []
  }

  function Length(h: Header): nat {
    if h.numBytes < 0 then 0 else h.numBytes
  }

  ghost predicate OnDisk(s: seq<int>) {
    forall j :: 0 <= j < |s| ==> 0 <= s[j] < NUM_SECTORS
  }

  /** Sectors `s[i]`, ..., `s[j - 1]` laid end to end. */
  ghost function Flat(d: Image, s: seq<int>, i: nat, j: nat): (bs: seq<Byte>)
    requires OnDisk(s) && i <= j <= |s|
    ensures |bs| == SECTOR_SIZE * (j - i)
  {
    if i == j then [] else Flat(d, s, i, j - 1) + d[s[j - 1]]
  }

  lemma {:induction false} FlatConcat(d: Image, s: seq<int>, i: nat, j: nat, k: nat)
    requires OnDisk(s) && i <= j <= k <= |s|
    ensures Flat(d, s, i, k) == Flat(d, s, i, j) + Flat(d, s, j, k)
  {
    if j < k { FlatConcat(d, s, i, j, k - 1); }
  }

  /** `Flat` looks at the listed sectors only. */
  lemma {:induction false} FlatFrame(d: Image, d': Image, s: seq<int>, i: nat, j: nat)
    requires OnDisk(s) && i <= j <= |s|
    requires forall b :: i <= b < j ==> d'[s[b]] == d[s[b]]
    ensures Flat(d', s, i, j) == Flat(d, s, i, j)
  {
    if i < j { FlatFrame(d, d', s, i, j - 1); }
  }

  /** The bytes of the file described by `h`. */
  ghost function Content(d: Image, h: Header): (c: seq<Byte>)
    requires HeaderOk(h)
    ensures |c| == Length(h)
  {
    Flat(d, Data(h), 0, |Data(h)|)[..Length(h)]
  }

  /** The disk as the file system sees it: a request returns once it has been served. */
  class SynchDisk {
    var sectors: Image

    constructor (image: Image)
      ensures sectors == image
    {
      sectors := image;
    }

    method ReadSector(n: int, data: array<Byte>, at: nat)
      requires 0 <= n < NUM_SECTORS && at + SECTOR_SIZE <= data.Length
      modifies data
      ensures data[..] == Splice(old(data[..]), at, sectors[n])
    {
      forall k | 0 <= k < SECTOR_SIZE {
        data[at + k] := sectors[n][k];
      }
    }

    method WriteSector(n: int, data: array<Byte>, at: nat)
      requires 0 <= n < NUM_SECTORS && at + SECTOR_SIZE <= data.Length
      modifies this
      ensures sectors == old(sectors)[n := data[at..at + SECTOR_SIZE]]
    {
      sectors := sectors[n := data[at..at + SECTOR_SIZE]];
    }
  }

  type Table = s: seq<Int32> | |s| == NUM_DIRECT witness seq(NUM_DIRECT, _ => 0)

  datatype Allocation = Granted | Denied | Overrun

  /** The table is full of sectors taken from the bitmap, and one more is taken that would
      be stored behind it. */
  ghost predicate Overran(n: nat, before: set<nat>, table: Table, marked: set<nat>) {
    exists s: int :: Taken(n, before, table + [s], marked)
  }

  class FileHeader {
    var numBytes: Int32
    var numSectors: Int32
    var dataSectors: Table

    ghost function Value(): Header
      reads this
    {
      Header(numBytes, numSectors, dataSectors)
    }

    /** There is no constructor in the source: the fields start as whatever memory holds. */
    constructor () {
      numBytes, numSectors, dataSectors := *, *, *;
    }

    /** Take a sector of `freeMap` for every block of the file, or none at all. Nothing here
        compares the number of blocks with the size of the table: when the disk has room
        for more of them, the loop comes to store an entry past its end. */
    method Allocate(freeMap: BitMap, fileSize: Int32) returns (r: Allocation)
      requires freeMap.Valid() && freeMap.numBits <= NUM_SECTORS
      modifies this, freeMap.words
      ensures r.Denied? <==> Blocks(fileSize) > ClearCount(freeMap.numBits, old(freeMap.Marked()))
      ensures r.Overrun? <==> NUM_DIRECT < Blocks(fileSize) <= ClearCount(freeMap.numBits, old(freeMap.Marked()))
      ensures numBytes == fileSize && numSectors == Blocks(fileSize)
      ensures r.Denied? ==> freeMap.Marked() == old(freeMap.Marked())
      ensures r.Granted? ==> HeaderOk(Value()) && Elements(Data(Value())) !! old(freeMap.Marked())
      ensures r.Granted? ==> freeMap.Marked() == old(freeMap.Marked()) + Elements(Data(Value()))
      ensures r.Overrun? ==> Overran(freeMap.numBits, old(freeMap.Marked()), dataSectors, freeMap.Marked())
    {
      numBytes := fileSize;
      numSectors := Blocks(fileSize);
      BlocksJustEnough(fileSize);
      var clear := freeMap.NumClear();
      if clear < numSectors {
        return Denied;
      }
      ghost var before := freeMap.Marked();
      var stored := TakeSectors(freeMap, if numSectors < 0 then 0 else numSectors);
      if !stored {
        return Overrun;
      }
      AllocatedHeader(Value(), if numSectors < 0 then 0 else numSectors,
                      freeMap.numBits, before, freeMap.Marked());
      return Granted;
    }

    method TakeSectors(freeMap: BitMap, count: nat) returns (stored: bool)
      requires freeMap.Valid() && count <= ClearCount(freeMap.numBits, freeMap.Marked())
      requires freeMap.numBits <= NUM_SECTORS
      modifies this`dataSectors, freeMap.words
      ensures stored <==> count <= NUM_DIRECT
      ensures stored ==> Taken(freeMap.numBits, old(freeMap.Marked()), dataSectors[..count], freeMap.Marked())
      ensures !stored ==> Overran(freeMap.numBits, old(freeMap.Marked()), dataSectors, freeMap.Marked())
    {
      ghost var before, n := freeMap.Marked(), freeMap.numBits;
      ghost var taken: seq<int> := [];
      for i := 0 to count
        invariant i <= NUM_DIRECT && dataSectors[..i] == taken
        invariant Taken(n, before, taken, freeMap.Marked())
        invariant ClearCount(n, freeMap.Marked()) >= count - i
      {
        ghost var marked := freeMap.Marked();
        SomeClear(n, marked);
        var s := freeMap.Find();
        TakeOne(n, before, taken, marked, s);
        if i == NUM_DIRECT {
          assert dataSectors[..i] == dataSectors;
          return false;
        }
        taken := taken + [s];
        dataSectors := dataSectors[i := s];
      }
      return true;
    }

    /** Give the data sectors back. Each must be marked: the source asserts it. */
    method Deallocate(freeMap: BitMap)
      requires freeMap.Valid() && freeMap.numBits == NUM_SECTORS
      requires HeaderOk(Value()) && Elements(Data(Value())) <= freeMap.Marked()
      modifies freeMap.words
      ensures freeMap.Marked() == old(freeMap.Marked()) - Elements(Data(Value()))
    {
      ghost var before := freeMap.Marked();
      ghost var data := Data(Value());
      var i := 0;
      while i < numSectors
        invariant 0 <= i <= |data|
        invariant Data(Value()) == data
        invariant freeMap.Marked() == before - Elements(data[..i])
      {
        DistinctAt(data, |data|, i);
        assert dataSectors[i] == data[i] && data[i] in Elements(data) && data[i] !in Elements(data[..i]);
        var on := freeMap.Test(dataSectors[i]);
        assert on;
        freeMap.Clear(dataSectors[i]);
        assert data[..i + 1] == data[..i] + [data[i]];
        i := i + 1;
      }
      assert data[..i] == data;
    }

    method FetchFrom(disk: SynchDisk, sector: int)
      requires 0 <= sector < NUM_SECTORS
      modifies this
      ensures Value() == DecodeHeader(disk.sectors[sector])
    {
      var h := DecodeHeader(disk.sectors[sector]);
      numBytes := h.numBytes;
      numSectors := h.numSectors;
      dataSectors := h.data;
    }

    method WriteBack(disk: SynchDisk, sector: int)
      requires 0 <= sector < NUM_SECTORS
      modifies disk
      ensures disk.sectors == old(disk.sectors)[sector := EncodeHeader(old(Value()))]
    {
      disk.sectors := disk.sectors[sector := EncodeHeader(Header(numBytes, numSectors, dataSectors))];
    }

    /** The sector that stores the byte at `offset`, which lies in block `block`. */
    method ByteToSector(offset: int, ghost block: nat) returns (s: int)
      requires HeaderOk(Value()) && block < |Data(Value())|
      requires SECTOR_SIZE * block <= offset < SECTOR_SIZE * block + SECTOR_SIZE
      ensures s == Data(Value())[block] && 0 <= s < NUM_SECTORS
    {
      s := dataSectors[offset / SECTOR_SIZE];
      assert s == Data(Value())[block];
    }
  }

  /** `taken` are different bits below `n`, none of them in `before`, and `marked` is
      `before` with them added. */
  ghost predicate Taken(n: nat, before: set<nat>, taken: seq<int>, marked: set<nat>) {
    && Distinct(taken)
    && (forall j :: 0 <= j < |taken| ==> 0 <= taken[j] < n && taken[j] !in before)
    && marked == before + Elements(taken)
  }

  /** A header whose table starts with the taken sectors describes exactly those. */
  lemma AllocatedHeader(h: Header, count: nat, n: nat, before: set<nat>, marked: set<nat>)
    requires n <= NUM_SECTORS && JustEnough(h.numBytes, h.numSectors)
    requires h.numSectors <= count <= NUM_DIRECT && (h.numSectors < 0 ==> count == 0)
    requires h.numSectors >= 0 ==> count == h.numSectors
    requires Taken(n, before, h.data[..count], marked)
    ensures HeaderOk(h)
    ensures Elements(Data(h)) !! before && marked == before + Elements(Data(h))
  {
    assert Data(h) == h.data[..count];
  }

  lemma TakeOne(n: nat, before: set<nat>, taken: seq<int>, marked: set<nat>, s: int)
    requires Taken(n, before, taken, marked)
    requires 0 <= s < n && s !in marked
    ensures Taken(n, before, taken + [s], marked + {s})
    ensures ClearCount(n, marked + {s}) == ClearCount(n, marked) - 1
  {
    MarkOne(n, marked, s);
    DistinctPrefix(taken, taken + [s], |taken|);
    assert forall j :: 0 <= j < |taken| ==> taken[j] in Elements(taken);
    assert Elements(taken + [s]) == Elements(taken) + {s};
  }
}
