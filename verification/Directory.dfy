/** The table of file names (filesys/directory.cc), and the copies of the table and of the
    free-sector bitmap that are kept in files (also userprog/bitmap.cc). */
module Directories {
  import opened Common
  import opened BitMaps
  import opened Encoding
  import opened FileHeaders
  import opened OpenFiles

  predicate Names(e: Entry, key: seq<Byte>) {
    e.inUse && Key(e.name) == key
  }

  /** The first entry in use with the given key, or -1. */
  ghost function Lookup(t: seq<Entry>, key: seq<Byte>): (i: int)
    ensures -1 <= i < |t|
    ensures i >= 0 ==> Names(t[i], key) && forall j :: 0 <= j < i ==> !Names(t[j], key)
    ensures i == -1 ==> forall j :: 0 <= j < |t| ==> !Names(t[j], key)
  {
    LookupFrom(t, key, 0)
  }

  ghost function LookupFrom(t: seq<Entry>, key: seq<Byte>, start: nat): (i: int)
    requires start <= |t|
    ensures i == -1 || start <= i < |t|
    ensures i >= 0 ==> Names(t[i], key) && forall j :: start <= j < i ==> !Names(t[j], key)
    ensures i == -1 ==> forall j :: start <= j < |t| ==> !Names(t[j], key)
    decreases |t| - start
  {
    if start == |t| then -1
    else if Names(t[start], key) then start
    else LookupFrom(t, key, start + 1)
  }

  /** What a read of the whole of `image` leaves there, from a file with content `c`. */
  ghost function Fetched(image: seq<Byte>, c: seq<Byte>): (r: seq<Byte>)
    ensures |r| == |image|
    ensures |c| == |image| ==> r == c
  {
    if |c| < |image| then Splice(image, 0, c) else c[..|image|]
  }

  /** Read as much of `image` as the file holds. */
  method FetchImage(image: array<Byte>, file: OpenFile)
    requires file.Valid() && image.Length < 0x8000_0000
    modifies image
    ensures image[..] == Fetched(old(image[..]), file.Bytes())
  {
    ghost var before, c := image[..], file.Bytes();
    var r := file.ReadAt(image, 0, image.Length, 0);
    if r > 0 {
      assert Splice(before, 0, c[0..r]) == Fetched(before, c);
    }
  }

  /** Write an image over the start of a file of at least its size. */
  method StoreImage(image: array<Byte>, file: OpenFile)
    requires file.Valid() && image.Length < 0x8000_0000
    modifies file.disk
    ensures OnlyFileChanged(old(file.disk.sectors), file.disk.sectors, file.hdr.Value())
    ensures image.Length == Length(file.hdr.Value()) ==> file.Bytes() == image[..]
  {
    ghost var c := file.Bytes();
    var r := file.WriteAt(image, image.Length, 0);
    if image.Length == |c| && r > 0 {
      assert Splice(c, 0, image[..r]) == image[..];
    }
  }

  class Directory {
    const table: array<Entry>

    ghost predicate Valid() {
      ENTRY_SIZE * table.Length < 0x8000_0000
    }

    /** No entry is in use; the rest of the entries is whatever memory holds. */
    constructor (size: nat)
      requires ENTRY_SIZE * size < 0x8000_0000
      ensures Valid() && fresh(table) && table.Length == size
      ensures forall i :: 0 <= i < size ==> !table[i].inUse
    {
      table := new Entry[size];
      new;
      for i := 0 to table.Length
        invariant forall j :: 0 <= j < i ==> !table[j].inUse
      {
        table[i] := table[i].(inUse := false);
      }
    }

    method FindIndex(name: CString) returns (i: int)
      ensures i == Lookup(table[..], Key(name))
    {
      i := 0;
      while i < table.Length
        invariant 0 <= i <= table.Length
        invariant forall j :: 0 <= j < i ==> !Names(table[j], Key(name))
      {
        SamePrefixIffSameKey(table[i].name, name, NAME_LEN);
        if table[i].inUse && SamePrefix(table[i].name, name, NAME_LEN) {
          LookupIs(table[..], Key(name), i);
          return;
        }
        i := i + 1;
      }
      LookupIs(table[..], Key(name), -1);
      i := -1;
    }

    /** The sector of the file's header, or -1. */
    method Find(name: CString) returns (sector: Int32)
      ensures var i := Lookup(table[..], Key(name));
              sector == if i == -1 then -1 else table[i].sector
    {
      var i := FindIndex(name);
      if i != -1 {
        return table[i].sector;
      }
      return -1;
    }

    /** Put the name into the first free entry, unless it is there already. */
    method Add(name: CString, newSector: Int32) returns (ok: bool, ghost slot: nat)
      modifies table
      ensures ok <==> (&& Lookup(old(table[..]), Key(name)) == -1
                       && exists i :: 0 <= i < table.Length && !old(table[i].inUse))
      ensures !ok ==> table[..] == old(table[..])
      ensures ok ==> slot < table.Length && !old(table[slot].inUse)
      ensures ok ==> forall i :: 0 <= i < slot ==> old(table[i].inUse)
      ensures ok ==> table[slot].inUse && Key(table[slot].name) == Key(name) && table[slot].sector == newSector
      ensures ok ==> table[..] == old(table[..])[slot := table[slot]]
    {
      slot := 0;
      var found := FindIndex(name);
      if found != -1 {
        return false, 0;
      }
      var i := 0;
      while i < table.Length
        invariant 0 <= i <= table.Length
        invariant forall j :: 0 <= j < i ==> table[j].inUse
        invariant table[..] == old(table[..])
      {
        if !table[i].inUse {
          var e := table[i];
          CanonIdempotent(name, e.name[NAME_LEN..], NAME_LEN);
          table[i] := Entry(true, newSector, Canon(name, NAME_LEN) + e.name[NAME_LEN..], e.padding);
          return true, i;
        }
        i := i + 1;
      }
      return false, 0;
    }

    method Remove(name: CString) returns (ok: bool)
      modifies table
      ensures ok <==> Lookup(old(table[..]), Key(name)) != -1
      ensures !ok ==> table[..] == old(table[..])
      ensures ok ==> var i := Lookup(old(table[..]), Key(name));
                     table[..] == old(table[..])[i := old(table[..])[i].(inUse := false)]
    {
      var i := FindIndex(name);
      if i == -1 {
        return false;
      }
      table[i] := table[i].(inUse := false);
      return true;
    }

    /** Reading the file into the table's memory. */
    method FetchFrom(file: OpenFile)
      requires Valid() && file.Valid()
      modifies table
      ensures table[..] == DecodeTable(Fetched(EncodeTable(old(table[..])), file.Bytes()))
    {
      var image := EncodeTable(table[..]);
      var buf := new Byte[|image|](i requires 0 <= i < |image| => image[i]);
      assert buf[..] == image;
      FetchImage(buf, file);
      var entries := DecodeTable(buf[..]);
      forall i | 0 <= i < table.Length {
        table[i] := entries[i];
      }
      assert table[..] == entries;
    }

    method WriteBack(file: OpenFile)
      requires Valid() && file.Valid()
      modifies file.disk
      ensures OnlyFileChanged(old(file.disk.sectors), file.disk.sectors, file.hdr.Value())
      ensures ENTRY_SIZE * table.Length == Length(file.hdr.Value()) ==> file.Bytes() == EncodeTable(table[..])
    {
      var image := EncodeTable(table[..]);
      var buf := new Byte[|image|](i requires 0 <= i < |image| => image[i]);
      assert buf[..] == image;
      StoreImage(buf, file);
    }
  }

  lemma LookupIs(t: seq<Entry>, key: seq<Byte>, i: int)
    requires -1 <= i < |t|
    requires i == -1 ==> forall j :: 0 <= j < |t| ==> !Names(t[j], key)
    requires i >= 0 ==> Names(t[i], key) && forall j :: 0 <= j < i ==> !Names(t[j], key)
    ensures Lookup(t, key) == i
  {
  }

  // ---------------------------------------------------------------- the bitmap's file

  method FetchBitMap(freeMap: BitMap, file: OpenFile)
    requires freeMap.Valid() && file.Valid() && 4 * freeMap.words.Length < 0x8000_0000
    modifies freeMap.words
    ensures freeMap.words[..] == DecodeWords(Fetched(EncodeWords(old(freeMap.words[..])), file.Bytes()))
  {
    var image := EncodeWords(freeMap.words[..]);
    var buf := new Byte[|image|](i requires 0 <= i < |image| => image[i]);
    assert buf[..] == image;
    FetchImage(buf, file);
    var ws := DecodeWords(buf[..]);
    forall i | 0 <= i < freeMap.words.Length {
      freeMap.words[i] := ws[i];
    }
    assert freeMap.words[..] == ws;
  }

  method WriteBitMap(freeMap: BitMap, file: OpenFile)
    requires freeMap.Valid() && file.Valid() && 4 * freeMap.words.Length < 0x8000_0000
    modifies file.disk
    ensures OnlyFileChanged(old(file.disk.sectors), file.disk.sectors, file.hdr.Value())
    ensures 4 * freeMap.words.Length == Length(file.hdr.Value()) ==>
              file.Bytes() == EncodeWords(freeMap.words[..])
  {
    var image := EncodeWords(freeMap.words[..]);
    var buf := new Byte[|image|](i requires 0 <= i < |image| => image[i]);
    assert buf[..] == image;
    StoreImage(buf, file);
  }
}
