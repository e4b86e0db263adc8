/** Byte-granular access to a file on a disk that moves whole sectors
    (filesys/openfile.cc). */
module OpenFiles {
  import opened Common
  import opened Encoding
  import opened FileHeaders

  /** How many of the requested bytes are transferred. */
  function Transferred(length: nat, numBytes: int, position: int): nat {
    if numBytes <= 0 || position >= length || position < 0 then 0
    else if position + numBytes > length then length - position
    else numBytes
  }

  /** A request the source gives a meaning to: a positive count comes with a position that
      is not negative, and their sum, once it is computed, fits an int. */
  predicate Defined(length: nat, numBytes: Int32, position: Int32) {
    numBytes > 0 ==> position >= 0 && (position < length ==> position + numBytes < 0x8000_0000)
  }

  /** Every sector that is not one of the file's own is the same in both images. */
  ghost predicate OnlyFileChanged(d: Image, d': Image, h: Header) {
    forall s :: 0 <= s < NUM_SECTORS && s !in Data(h) ==> d'[s] == d[s]
  }

  class OpenFile {
    const disk: SynchDisk
    const hdr: FileHeader
    var seekPosition: Int32

    ghost predicate Valid()
      reads hdr
    {
      HeaderOk(hdr.Value())
    }

    ghost function Bytes(): (c: seq<Byte>)
      requires Valid()
      reads hdr, disk
      ensures |c| == Length(hdr.Value())
    {
      Content(disk.sectors, hdr.Value())
    }

    constructor (disk: SynchDisk, sector: int)
      requires 0 <= sector < NUM_SECTORS
      ensures this.disk == disk && fresh(hdr) && seekPosition == 0
      ensures hdr.Value() == DecodeHeader(disk.sectors[sector])
    {
      this.disk := disk;
      hdr := new FileHeader();
      seekPosition := 0;
      new;
      hdr.FetchFrom(disk, sector);
    }

    method Seek(position: Int32)
      modifies this
      ensures seekPosition == position
    {
      seekPosition := position;
    }

    /** Read from the current position, and move it past what was read. */
    method Read(into: array<Byte>, numBytes: Int32) returns (result: Int32)
      requires Valid() && Defined(Length(hdr.Value()), numBytes, seekPosition)
      requires Transferred(Length(hdr.Value()), numBytes, seekPosition) <= into.Length
      modifies this, into
      ensures result == Transferred(Length(hdr.Value()), numBytes, old(seekPosition))
      ensures seekPosition == old(seekPosition) + result
      ensures result == 0 ==> into[..] == old(into[..])
      ensures result > 0 ==>
                into[..] == Splice(old(into[..]), 0, Bytes()[old(seekPosition)..seekPosition])
    {
      result := ReadAt(into, 0, numBytes, seekPosition);
      seekPosition := seekPosition + result;
    }

    /** Write at the current position, and move it past what was written. */
    method Write(from: array<Byte>, numBytes: Int32) returns (result: Int32)
      requires Valid() && Defined(Length(hdr.Value()), numBytes, seekPosition)
      requires Transferred(Length(hdr.Value()), numBytes, seekPosition) <= from.Length
      modifies this, disk
      ensures result == Transferred(Length(hdr.Value()), numBytes, old(seekPosition))
      ensures seekPosition == old(seekPosition) + result
      ensures OnlyFileChanged(old(disk.sectors), disk.sectors, hdr.Value())
      ensures result == 0 ==> disk.sectors == old(disk.sectors)
      ensures result > 0 ==> Bytes() == Splice(old(Bytes()), old(seekPosition), from[..result])
    {
      result := WriteAt(from, numBytes, seekPosition);
      seekPosition := seekPosition + result;
    }

    /** Read all the sectors touched by the request, then copy out the part asked for. */
    method ReadAt(into: array<Byte>, at: nat, numBytes: Int32, position: Int32) returns (result: Int32)
      requires Valid() && Defined(Length(hdr.Value()), numBytes, position)
      requires at + Transferred(Length(hdr.Value()), numBytes, position) <= into.Length
      modifies into
      ensures result == Transferred(Length(hdr.Value()), numBytes, position)
      ensures result == 0 ==> into[..] == old(into[..])
      ensures result > 0 ==> into[..] == Splice(old(into[..]), at, Bytes()[position..position + result])
    {
      var fileLength := hdr.numBytes;
      if numBytes <= 0 || position >= fileLength {
        return 0;
      }
      result := if position + numBytes > fileLength then fileLength - position else numBytes;
      ReadPart(into, at, result, position);
    }

    method ReadPart(into: array<Byte>, at: nat, n: nat, position: nat)
      requires Valid() && 0 < n && position + n <= Length(hdr.Value()) && at + n <= into.Length
      modifies into
      ensures into[..] == Splice(old(into[..]), at, Bytes()[position..position + n])
    {
      var first := BlockOf(position);
      var last := BlockOf(position + n - 1);
      var buf := ReadSectors(first, last);
      var skip := position - first * SECTOR_SIZE;
      ghost var part := Bytes()[position..position + n];
      assert buf[skip..skip + n] == part by {
        LoadedPart(disk.sectors, hdr.Value(), first, last, position, n);
      }
      Bcopy(buf, skip, into, at, n);
      assert into[..] == Splice(old(into[..]), at, part);
      assert Bytes()[position..position + n] == part;
    }

    method ReadSectors(first: nat, last: nat) returns (buf: array<Byte>)
      requires Valid() && first <= last < |Data(hdr.Value())|
      ensures fresh(buf) && buf.Length == (1 + last - first) * SECTOR_SIZE
      ensures buf[..] == Flat(disk.sectors, Data(hdr.Value()), first, last + 1)
    {
      buf := new Byte[(1 + last - first) * SECTOR_SIZE];
      ghost var data := Data(hdr.Value());
      var i := first;
      while i <= last
        invariant first <= i <= last + 1
        invariant buf[..(i - first) * SECTOR_SIZE] == Flat(disk.sectors, data, first, i)
      {
        var s := hdr.ByteToSector(i * SECTOR_SIZE, i);
        ghost var at := (i - first) * SECTOR_SIZE;
        SplicePrefix(buf[..], at, disk.sectors[s]);
        assert at + SECTOR_SIZE == (i + 1 - first) * SECTOR_SIZE && buf[..][..at] == buf[..at];
        disk.ReadSector(s, buf, (i - first) * SECTOR_SIZE);
        i := i + 1;
      }
    }

    /** Read the sectors that are only partly overwritten, lay the new bytes over them, and
        write every touched sector back. */
    method WriteAt(from: array<Byte>, numBytes: Int32, position: Int32) returns (result: Int32)
      requires Valid() && Defined(Length(hdr.Value()), numBytes, position)
      requires Transferred(Length(hdr.Value()), numBytes, position) <= from.Length
      modifies disk
      ensures result == Transferred(Length(hdr.Value()), numBytes, position)
      ensures OnlyFileChanged(old(disk.sectors), disk.sectors, hdr.Value())
      ensures result == 0 ==> disk.sectors == old(disk.sectors)
      ensures result > 0 ==> Bytes() == Splice(old(Bytes()), position, from[..result])
    {
      var fileLength := hdr.numBytes;
      if numBytes <= 0 || position >= fileLength {
        return 0;
      }
      result := if position + numBytes > fileLength then fileLength - position else numBytes;
      WritePart(from, result, position);
    }

    method WritePart(from: array<Byte>, n: nat, position: nat)
      requires Valid() && 0 < n <= from.Length && position + n <= Length(hdr.Value())
      modifies disk
      ensures OnlyFileChanged(old(disk.sectors), disk.sectors, hdr.Value())
      ensures Bytes() == Splice(old(Bytes()), position, from[..n])
    {
      hide Agrees, Stored, Splice, OnlyFileChanged;
      var first := BlockOf(position);
      var last := BlockOf(position + n - 1);
      ghost var d, bytes := disk.sectors, from[..n];
      var buf := Compose(from, n, position, first, last);
      WriteSectors(buf, first, last);
      PartStored(d, disk.sectors, hdr.Value(), first, last, buf[..], position, bytes);
    }

    /** The sectors `first..last` as they will be once the request is done, as far as they
        lie inside the file. */
    method Compose(from: array<Byte>, n: nat, position: nat, first: nat, last: nat)
      returns (buf: array<Byte>)
      requires Valid() && 0 < n <= from.Length && position + n <= Length(hdr.Value())
      requires first * SECTOR_SIZE <= position < first * SECTOR_SIZE + SECTOR_SIZE
      requires last * SECTOR_SIZE < position + n <= last * SECTOR_SIZE + SECTOR_SIZE
      ensures fresh(buf) && buf.Length == (1 + last - first) * SECTOR_SIZE
      ensures Agrees(buf[..], first, Splice(Bytes(), position, from[..n]))
    {
      ghost var c, bytes := Bytes(), from[..n];
      buf := LoadEdges(n, position, first, last);
      assert from[0..n] == bytes;
      OverlayAgrees(buf[..], first, c, position, bytes);
      Bcopy(from, 0, buf, position - first * SECTOR_SIZE, n);
      assert Bytes() == c;
    }

    /** Fill a buffer for blocks `first..last` so that it holds the bytes of the file on both
        sides of the request; the rest of it is whatever memory holds. */
    method LoadEdges(n: nat, position: nat, first: nat, last: nat) returns (buf: array<Byte>)
      requires Valid() && 0 < n && position + n <= Length(hdr.Value())
      requires first * SECTOR_SIZE <= position < first * SECTOR_SIZE + SECTOR_SIZE
      requires last * SECTOR_SIZE < position + n <= last * SECTOR_SIZE + SECTOR_SIZE
      ensures fresh(buf) && buf.Length == (1 + last - first) * SECTOR_SIZE
      ensures Covers(buf[..], first, Bytes(), 0, position)
      ensures Covers(buf[..], first, Bytes(), position + n, Length(hdr.Value()))
    {
      buf := new Byte[(1 + last - first) * SECTOR_SIZE];
      ghost var c := Bytes();
      var firstAligned := position == first * SECTOR_SIZE;
      var lastAligned := position + n == (last + 1) * SECTOR_SIZE;
      if !firstAligned {
        ReadBlock(buf, first, first, 0);
        CoversPart(buf[..], first, c, first * SECTOR_SIZE, (first + 1) * SECTOR_SIZE, 0, position);
      }
      if !lastAligned && (first != last || firstAligned) {
        ReadBlock(buf, first, last, position);
        CoversPart(buf[..], first, c, last * SECTOR_SIZE, (last + 1) * SECTOR_SIZE, position + n, |c|);
      } else if !lastAligned {
        CoversPart(buf[..], first, c, first * SECTOR_SIZE, (first + 1) * SECTOR_SIZE, position + n, |c|);
      }
    }

    /** Read one block of the file into its place in a buffer that starts with block `first`. */
    method ReadBlock(buf: array<Byte>, first: nat, block: nat, ghost below: nat)
      requires Valid() && first <= block && block * SECTOR_SIZE < Length(hdr.Value())
      requires (block + 1 - first) * SECTOR_SIZE <= buf.Length
      requires below <= block * SECTOR_SIZE && Covers(buf[..], first, Bytes(), 0, below)
      modifies buf
      ensures Covers(buf[..], first, Bytes(), block * SECTOR_SIZE, (block + 1) * SECTOR_SIZE)
      ensures Covers(buf[..], first, Bytes(), 0, below)
    {
      hide Covers;
      ghost var b := buf[..];
      var r := ReadAt(buf, (block - first) * SECTOR_SIZE, SECTOR_SIZE, block * SECTOR_SIZE);
      SpliceCovers(b, first, Bytes(), block, r, below);
    }

    method WriteSectors(buf: array<Byte>, first: nat, last: nat)
      requires Valid() && first <= last < |Data(hdr.Value())|
      requires buf.Length == (1 + last - first) * SECTOR_SIZE
      modifies disk
      ensures Stored(old(disk.sectors), disk.sectors, Data(hdr.Value()), first, last + 1, buf[..])
    {
      hide Stored;
      ghost var h, d, bytes := hdr.Value(), disk.sectors, buf[..];
      var i := first;
      StoreNone(d, Data(h), first, bytes);
      while i <= last
        invariant first <= i <= last + 1
        invariant Stored(d, disk.sectors, Data(h), first, i, bytes)
      {
        var s := hdr.ByteToSector(i * SECTOR_SIZE, i);
        StoreBlock(d, disk.sectors, h, first, i, bytes);
        disk.WriteSector(s, buf, (i - first) * SECTOR_SIZE);
        i := i + 1;
      }
    }
  }

  /** `bcopy(&from[start], &into[at], n)`. */
  method Bcopy(from: array<Byte>, start: nat, into: array<Byte>, at: nat, n: nat)
    requires start + n <= from.Length && at + n <= into.Length
    modifies into
    ensures into[..] == Splice(old(into[..]), at, old(from[start..start + n]))
  {
    forall k | 0 <= k < n {
      into[at + k] := from[start + k];
    }
  }

  /** `divRoundDown(position, SectorSize)`: the block that holds a byte. */
  method BlockOf(position: nat) returns (b: nat)
    ensures b * SECTOR_SIZE <= position < b * SECTOR_SIZE + SECTOR_SIZE
  {
    b := position / SECTOR_SIZE;
  }

  /** Part of a file lies inside the blocks that cover it. */
  lemma LoadedPart(d: Image, h: Header, first: nat, last: nat, position: nat, n: nat)
    requires HeaderOk(h) && first <= last < |Data(h)|
    requires first * SECTOR_SIZE <= position && position + n <= (last + 1) * SECTOR_SIZE
    requires position + n <= Length(h)
    ensures var skip := position - first * SECTOR_SIZE;
            Flat(d, Data(h), first, last + 1)[skip..skip + n] == Content(d, h)[position..position + n]
  {
    Blocks3(d, Data(h), first, last + 1);
    var a, b, c := Flat(d, Data(h), 0, first), Flat(d, Data(h), first, last + 1), Content(d, h);
    forall k | position <= k < position + n
      ensures c[k] == b[k - |a|]
    {
      assert (a + b)[k] == b[k - |a|];
    }
  }

  lemma Blocks3(d: Image, s: seq<int>, i: nat, j: nat)
    requires OnDisk(s) && i <= j <= |s|
    ensures Flat(d, s, 0, |s|) == Flat(d, s, 0, i) + Flat(d, s, i, j) + Flat(d, s, j, |s|)
  {
    FlatConcat(d, s, 0, i, j);
    FlatConcat(d, s, 0, j, |s|);
  }

  /** `buf`, placed at sector `first`, holds bytes `lo..hi` of `c`. */
  ghost predicate Covers(buf: seq<Byte>, first: nat, c: seq<Byte>, lo: nat, hi: nat) {
    forall k :: lo <= k < hi && k < |c| && k < first * SECTOR_SIZE + |buf| && first * SECTOR_SIZE <= k ==>
      buf[k - first * SECTOR_SIZE] == c[k]
  }

  lemma CoversPart(buf: seq<Byte>, first: nat, c: seq<Byte>, lo: nat, hi: nat, lo': nat, hi': nat)
    requires Covers(buf, first, c, lo, hi)
    requires lo <= lo' || lo <= first * SECTOR_SIZE
    requires hi' <= hi || first * SECTOR_SIZE + |buf| <= hi
    ensures Covers(buf, first, c, lo', hi')
  {
  }

  /** Reading a block into its place covers it, and keeps what comes before it. */
  lemma SpliceCovers(buf: seq<Byte>, first: nat, c: seq<Byte>, block: nat, r: nat, below: nat)
    requires first <= block && (block - first) * SECTOR_SIZE + r <= |buf| && block * SECTOR_SIZE + r <= |c|
    requires r == SECTOR_SIZE || block * SECTOR_SIZE + r == |c|
    requires below <= block * SECTOR_SIZE && Covers(buf, first, c, 0, below)
    ensures var at := block * SECTOR_SIZE;
            var buf' := Splice(buf, at - first * SECTOR_SIZE, c[at..at + r]);
            && Covers(buf', first, c, at, at + SECTOR_SIZE)
            && Covers(buf', first, c, 0, below)
  {
  }

  /** New bytes laid over a buffer that covers both sides of them. */
  lemma OverlayAgrees(buf: seq<Byte>, first: nat, c: seq<Byte>, position: nat, bytes: seq<Byte>)
    requires first * SECTOR_SIZE <= position && position + |bytes| <= first * SECTOR_SIZE + |buf|
    requires position + |bytes| <= |c|
    requires Covers(buf, first, c, 0, position)
    requires Covers(buf, first, c, position + |bytes|, |c|)
    ensures Agrees(Splice(buf, position - first * SECTOR_SIZE, bytes), first, Splice(c, position, bytes))
  {
  }

  /** `buf`, placed at sector `first`, agrees with `c` wherever `c` reaches. */
  ghost predicate Agrees(buf: seq<Byte>, first: nat, c: seq<Byte>) {
    forall t :: 0 <= t < |buf| && first * SECTOR_SIZE + t < |c| ==> buf[t] == c[first * SECTOR_SIZE + t]
  }

  /** `d'` is `d` with blocks `first..next` of the file taken from `buf`. */
  ghost predicate Stored(d: Image, d': Image, data: seq<int>, first: nat, next: nat, buf: seq<Byte>)
    requires OnDisk(data) && first <= next <= |data| && (next - first) * SECTOR_SIZE <= |buf|
  {
    && (forall s :: 0 <= s < NUM_SECTORS && s !in data ==> d'[s] == d[s])
    && (forall b :: 0 <= b < |data| && !(first <= b < next) ==> d'[data[b]] == d[data[b]])
    && Flat(d', data, first, next) == buf[..(next - first) * SECTOR_SIZE]
  }

  lemma StoreNone(d: Image, data: seq<int>, first: nat, buf: seq<Byte>)
    requires OnDisk(data) && first <= |data|
    ensures Stored(d, d, data, first, first, buf)
  {
  }

  lemma StoreOne(d: Image, d': Image, data: seq<int>, first: nat, next: nat, buf: seq<Byte>)
    requires OnDisk(data) && first <= next < |data| && (next + 1 - first) * SECTOR_SIZE <= |buf|
    requires forall b :: 0 <= b < |data| && b != next ==> data[b] != data[next]
    requires Stored(d, d', data, first, next, buf)
    ensures var at := (next - first) * SECTOR_SIZE;
            Stored(d, d'[data[next] := buf[at..at + SECTOR_SIZE]], data, first, next + 1, buf)
  {
    var at := (next - first) * SECTOR_SIZE;
    FlatFrame(d', d'[data[next] := buf[at..at + SECTOR_SIZE]], data, first, next);
  }

  lemma StoreBlock(d: Image, d': Image, h: Header, first: nat, next: nat, buf: seq<Byte>)
    requires HeaderOk(h) && first <= next < |Data(h)| && (next + 1 - first) * SECTOR_SIZE <= |buf|
    requires Stored(d, d', Data(h), first, next, buf)
    ensures var at := (next - first) * SECTOR_SIZE;
            Stored(d, d'[Data(h)[next] := buf[at..at + SECTOR_SIZE]], Data(h), first, next + 1, buf)
  {
    DistinctAt(Data(h), |Data(h)|, next);
    StoreOne(d, d', Data(h), first, next, buf);
  }

  /** Storing the blocks of a request that has been overlaid splices it into the file. */
  lemma PartStored(d: Image, d': Image, h: Header, first: nat, last: nat, buf: seq<Byte>, position: nat, bytes: seq<Byte>)
    requires HeaderOk(h) && first <= last < |Data(h)| && |buf| == (1 + last - first) * SECTOR_SIZE
    requires Stored(d, d', Data(h), first, last + 1, buf)
    requires first * SECTOR_SIZE <= position && position + |bytes| <= (last + 1) * SECTOR_SIZE
    requires position + |bytes| <= Length(h) && Agrees(buf, first, Splice(Content(d, h), position, bytes))
    ensures Content(d', h) == Splice(Content(d, h), position, bytes) && OnlyFileChanged(d, d', h)
  {
    hide Agrees, Content, Flat;
    StoredContent(d, d', h, first, last + 1, buf, Splice(Content(d, h), position, bytes));
  }

  /** Storing blocks that agree with `c` turns the content into `c`, if the rest of `c` was
      there before. */
  lemma StoredContent(d: Image, d': Image, h: Header, first: nat, next: nat, buf: seq<Byte>, c: seq<Byte>)
    requires HeaderOk(h) && first <= next <= |Data(h)| && |buf| == (next - first) * SECTOR_SIZE
    requires Stored(d, d', Data(h), first, next, buf)
    requires |c| == Length(h) && Agrees(buf, first, c)
    requires forall k :: 0 <= k < |c| && !(first * SECTOR_SIZE <= k < next * SECTOR_SIZE)
               ==> c[k] == Content(d, h)[k]
    ensures Content(d', h) == c
  {
    var data := Data(h);
    Blocks3(d, data, first, next);
    Blocks3(d', data, first, next);
    FlatFrame(d, d', data, 0, first);
    FlatFrame(d, d', data, next, |data|);
  }
}
