/** How many sectors are free: what each operation on the file system takes and gives back. */
module FreeSpace {
  import opened Common
  import opened BitMaps
  import opened Encoding
  import opened FileHeaders
  import opened Directories
  import opened Volumes
  import opened VolumeSteps
  import opened FileSystems

  ghost function Free(d: Image): nat
    requires FsOk(d)
  {
    ClearCount(NUM_SECTORS, MarkedOn(d))
  }

  /** The header of a file and the sectors for its bytes. */
  function SectorsNeeded(length: nat): nat {
    1 + (length + SECTOR_SIZE - 1) / SECTOR_SIZE
  }

  lemma {:induction false} MarkMany(n: nat, marked: set<nat>, more: set<nat>)
    requires more !! marked && forall x :: x in more ==> x < n
    ensures ClearCount(n, marked + more) == ClearCount(n, marked) - |more|
  {
    if more == {} {
      assert marked + more == marked;
    } else {
      var x :| x in more;
      MarkMany(n, marked, more - {x});
      MarkOne(n, marked + (more - {x}), x);
      assert marked + (more - {x}) + {x} == marked + more;
    }
  }

  lemma {:induction false} DistinctSize(s: seq<int>, n: nat)
    requires n <= |s| && DistinctUpTo(s, n)
    ensures |Elements(s[..n])| == n
  {
    if n == 0 {
      assert Elements(s[..n]) == {};
    } else {
      DistinctSize(s, n - 1);
      assert s[..n] == s[..n - 1] + [s[n - 1]];
      assert Elements(s[..n]) == Elements(s[..n - 1]) + {s[n - 1]};
    }
  }

  lemma DataSize(h: Header)
    requires HeaderOk(h)
    ensures |Elements(Data(h))| == SectorsNeeded(Length(h)) - 1
  {
    DistinctSize(Data(h), |Data(h)|);
    assert Data(h)[..|Data(h)|] == Data(h);
  }

  /** The sectors of a file are marked, and there are as many as its length needs. */
  lemma FileSectors(d: Image, key: seq<Byte>)
    requires FsOk(d) && key in Files(d)
    ensures |SectorsFor(d, key)| == SectorsNeeded(|Files(d)[key]|)
    ensures forall x :: x in SectorsFor(d, key) ==> x in MarkedOn(d) && 0 <= x < NUM_SECTORS
  {
    hide Lookup, Content, MarkedIn, DecodeTable, DecodeHeader, HeaderOk, Owners, Data, KeySet, SectorsNeeded;
    var own :| Tidy(d, own);
    var f, v := Lookup(TableOf(d), key), View(d);
    FoundHeader(d, key);
    FoundSector(d, key);
    assert Has(v, f, 0) && SectorOf(v, f, 0) == v.table[f].sector;
    NotInDataOf(d, own, f, 0, f);
    OwnSectors(d, key);
    DataSize(HeaderFor(d, key));
  }

  /** A new file takes the sectors it needs out of the free ones. */
  lemma CreateTakes(d: Image, d': Image, key: seq<Byte>, size: Int32)
    requires FsOk(d) && Created(d, d', key, size)
    ensures Free(d') == Free(d) - SectorsNeeded(|Files(d')[key]|)
  {
    hide FsOk, Files, AreFiles, HeaderFor, SectorsFor, MarkedOn, SectorsNeeded, ClearCount, OthersKept, Bootable;
    OkBootable(d);
    FileSectors(d', key);
    MarkMany(NUM_SECTORS, MarkedOn(d), SectorsFor(d', key));
  }

  /** A file that is removed gives exactly those back. */
  lemma RemoveGives(d: Image, d': Image, key: seq<Byte>)
    requires FsOk(d) && Removed(d, d', key)
    ensures Free(d') == Free(d) + SectorsNeeded(|Files(d)[key]|)
  {
    hide FsOk, Files, AreFiles, HeaderFor, SectorsFor, MarkedOn, SectorsNeeded, ClearCount, OthersKept, Bootable;
    OkBootable(d);
    OkBootable(d');
    FileSectors(d, key);
    MarkMany(NUM_SECTORS, MarkedOn(d'), SectorsFor(d, key));
    assert MarkedOn(d') + SectorsFor(d, key) == MarkedOn(d);
  }

  /** On a formatted disk five sectors are in use: two headers, one sector of bitmap and
      two of directory. */
  lemma FreeOnBlank(d: Image)
    requires Blank(d)
    ensures FsOk(d) && Free(d) == NUM_SECTORS - 5
  {
    hide FsOk, MarkedOn, HeaderOk, Data, TableOf, ClearCount;
    BlankIsOk(d);
    var mapData, dirData := Elements(Data(MapHeader(d))), Elements(Data(DirHeader(d)));
    DataSize(MapHeader(d));
    DataSize(DirHeader(d));
    var headers := {FREE_MAP_SECTOR, DIRECTORY_SECTOR};
    assert headers !! mapData && headers + mapData !! dirData;
    NoneMarked(NUM_SECTORS);
    MarkMany(NUM_SECTORS, {}, MarkedOn(d));
    assert {} + MarkedOn(d) == MarkedOn(d);
  }

  lemma {:induction false} NoneMarked(n: nat)
    ensures ClearCount(n, {}) == n
  {
    if n > 0 { NoneMarked(n - 1); }
  }
}
