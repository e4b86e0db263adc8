/** How the changes that Create, Remove and WriteAt make to sectors change the meaning of
    the disk image. */
module VolumeSteps {
  import opened Common
  import opened BitMaps
  import opened Encoding
  import opened FileHeaders
  import opened OpenFiles
  import opened Directories
  import opened Volumes

  // ---------------------------------------------------------------- names

  lemma LookupAdded(t: seq<Entry>, slot: nat, e: Entry, k: seq<Byte>)
    requires slot < |t| && !t[slot].inUse && e.inUse && Lookup(t, Key(e.name)) == -1
    ensures Lookup(t[slot := e], k) == if k == Key(e.name) then slot else Lookup(t, k)
  {
    LookupIs(t[slot := e], k, if k == Key(e.name) then slot else Lookup(t, k));
  }

  lemma LookupRemoved(t: seq<Entry>, slot: nat, k: seq<Byte>)
    requires slot < |t| && t[slot].inUse && UniqueKeys(t)
    ensures Lookup(t[slot := t[slot].(inUse := false)], k) == if k == Key(t[slot].name) then -1 else Lookup(t, k)
  {
    var t' := t[slot := t[slot].(inUse := false)];
    if k == Key(t[slot].name) {
      forall j | 0 <= j < |t'|
        ensures !Names(t'[j], k)
      {
        assert t[j].inUse ==> Lookup(t, Key(t[j].name)) == j;
      }
      LookupIs(t', k, -1);
    } else {
      LookupIs(t', k, Lookup(t, k));
    }
  }

  lemma UniqueKeysAdded(t: seq<Entry>, slot: nat, e: Entry)
    requires UniqueKeys(t) && slot < |t| && !t[slot].inUse && e.inUse && Lookup(t, Key(e.name)) == -1
    ensures UniqueKeys(t[slot := e])
  {
    var t' := t[slot := e];
    forall f | 0 <= f < |t'| && t'[f].inUse
      ensures Lookup(t', Key(t'[f].name)) == f
    {
      LookupAdded(t, slot, e, Key(t'[f].name));
    }
  }

  lemma UniqueKeysRemoved(t: seq<Entry>, slot: nat)
    requires UniqueKeys(t) && slot < |t| && t[slot].inUse
    ensures UniqueKeys(t[slot := t[slot].(inUse := false)])
  {
    var t' := t[slot := t[slot].(inUse := false)];
    forall f | 0 <= f < |t'| && t'[f].inUse
      ensures Lookup(t', Key(t'[f].name)) == f
    {
      LookupRemoved(t, slot, Key(t'[f].name));
    }
  }

  // ---------------------------------------------------------------- owners

  /** The two volumes describe every file of the first alike. */
  ghost predicate SameHeaders(v: Volume, v': Volume)
    requires Shape(v) && Shape(v')
  {
    forall f :: 0 <= f < NUM_FILES && InUse(v.table, f) ==> v'.headers[f] == v.headers[f]
  }

  /** `own` with `list[j]` given to place `j` of file `slot`, for each `j` below `n`. */
  ghost function OwnersWith(own: map<int, (nat, nat)>, slot: nat, list: seq<int>, n: nat): map<int, (nat, nat)>
    requires n <= |list|
  {
    if n == 0 then own else OwnersWith(own, slot, list, n - 1)[list[n - 1] := (slot, n - 1)]
  }

  lemma {:induction false} OwnersWithValues(own: map<int, (nat, nat)>, slot: nat, list: seq<int>, n: nat)
    requires n <= |list| && DistinctUpTo(list, n)
    requires forall j :: 0 <= j < n ==> list[j] !in own
    ensures var own' := OwnersWith(own, slot, list, n);
            && (forall x :: x in own ==> x in own' && own'[x] == own[x])
            && (forall j :: 0 <= j < n ==> list[j] in own' && own'[list[j]] == (slot, j))
            && (forall x :: x in own' && x !in own ==> own'[x].0 == slot && own'[x].1 < n && list[own'[x].1] == x)
  {
    if n > 0 { OwnersWithValues(own, slot, list, n - 1); }
  }

  lemma {:induction false} OwnersWithDomain(own: map<int, (nat, nat)>, slot: nat, data: seq<int>, n: nat, x: int)
    requires n <= |data|
    ensures x in OwnersWith(own, slot, data, n) <==> x in own || exists j :: 0 <= j < n && data[j] == x
  {
    if n > 0 { OwnersWithDomain(own, slot, data, n - 1, x); }
  }

  lemma OwnersWithKeySet(own: map<int, (nat, nat)>, slot: nat, data: seq<int>)
    ensures OwnersWith(own, slot, data, |data|).Keys == own.Keys + Elements(data)
  {
    var own' := OwnersWith(own, slot, data, |data|);
    forall x
      ensures x in own' <==> x in own || x in Elements(data)
    {
      OwnersWithDomain(own, slot, data, |data|, x);
    }
  }

  /** `v'` is `v` with a file in the free entry `slot`, and `own'` is `own` extended to it. */
  ghost predicate Extends(v: Volume, v': Volume, own: map<int, (nat, nat)>, own': map<int, (nat, nat)>, slot: nat)
    requires Shape(v) && Shape(v')
  {
    && slot < NUM_DIR_ENTRIES && !v.table[slot].inUse && v'.table[slot].inUse
    && v'.table == v.table[slot := v'.table[slot]]
    && SameHeaders(v, v')
    && (forall x :: x in own ==> x in own' && own'[x] == own[x])
    && (forall i: nat :: i < Count(v', slot) ==> SectorOf(v', slot, i) in own' && own'[SectorOf(v', slot, i)] == (slot, i))
    && (forall x :: x in own' && x !in own ==>
          own'[x].0 == slot && own'[x].1 < Count(v', slot) && SectorOf(v', slot, own'[x].1) == x)
  }

  lemma ExtendedOwners(v: Volume, v': Volume, own: map<int, (nat, nat)>, own': map<int, (nat, nat)>, slot: nat)
    requires Shape(v) && Shape(v') && Owners(v, own) && Extends(v, v', own, own', slot)
    ensures Owners(v', own')
  {
    forall f: nat, i: nat | Has(v', f, i)
      ensures SectorOf(v', f, i) in own' && own'[SectorOf(v', f, i)] == (f, i)
    {
      if f != slot {
        assert Has(v, f, i);
      }
    }
    forall x | x in own'
      ensures Has(v', own'[x].0, own'[x].1) && SectorOf(v', own'[x].0, own'[x].1) == x
    {
      if x in own {
        assert Has(v, own[x].0, own[x].1);
      }
    }
  }

  lemma {:induction false} DistinctCons(x: int, s: seq<int>, n: nat)
    requires n <= |s| && DistinctUpTo(s, n) && x !in s
    ensures DistinctUpTo([x] + s, n + 1)
  {
    if n > 0 { DistinctCons(x, s, n - 1); }
  }

  lemma OwnersWithFile(own: map<int, (nat, nat)>, slot: nat, sector: int, data: seq<int>)
    requires Distinct(data) && sector !in data && sector !in own
    requires forall x :: x in data ==> x !in own
    ensures var list := [sector] + data;
            var own' := OwnersWith(own, slot, list, |list|);
            && own'.Keys == own.Keys + {sector} + Elements(data)
            && (forall x :: x in own ==> x in own' && own'[x] == own[x])
            && (forall j :: 0 <= j < |list| ==> list[j] in own' && own'[list[j]] == (slot, j))
            && (forall x :: x in own' && x !in own ==> own'[x].0 == slot && own'[x].1 < |list| && list[own'[x].1] == x)
  {
    var list := [sector] + data;
    DistinctCons(sector, data, |data|);
    OwnersWithValues(own, slot, list, |list|);
    OwnersWithKeySet(own, slot, list);
    assert Elements(list) == {sector} + Elements(data);
  }

  lemma OwnersAdded(v: Volume, v': Volume, own: map<int, (nat, nat)>, slot: nat)
    returns (own': map<int, (nat, nat)>)
    requires Shape(v) && Shape(v') && Owners(v, own)
    requires slot < NUM_DIR_ENTRIES && !v.table[slot].inUse && v'.table[slot].inUse
    requires v'.table == v.table[slot := v'.table[slot]] && SameHeaders(v, v')
    requires HeaderOk(v'.headers[slot]) && v'.table[slot].sector !in own
    requires forall x :: x in Data(v'.headers[slot]) ==> x != v'.table[slot].sector && x !in own
    ensures Owners(v', own')
    ensures own'.Keys == own.Keys + {v'.table[slot].sector} + Elements(Data(v'.headers[slot]))
  {
    var sector, data := v'.table[slot].sector, Data(v'.headers[slot]);
    var list := [sector] + data;
    own' := OwnersWith(own, slot, list, |list|);
    OwnersWithFile(own, slot, sector, data);
    assert forall i: nat :: i < Count(v', slot) ==> SectorOf(v', slot, i) == list[i];
    ExtendedOwners(v, v', own, own', slot);
  }

  ghost function OwnersWithout(own: map<int, (nat, nat)>, slot: nat): map<int, (nat, nat)> {
    own - set x | x in own && own[x].0 == slot
  }

  lemma OwnersRemoved(v: Volume, v': Volume, own: map<int, (nat, nat)>, slot: nat)
    requires Shape(v) && Shape(v') && Owners(v, own)
    requires slot < NUM_DIR_ENTRIES && v.table[slot].inUse
    requires v'.table == v.table[slot := v.table[slot].(inUse := false)]
    requires SameHeaders(v', v)
    ensures var own' := OwnersWithout(own, slot);
            && Owners(v', own')
            && own'.Keys == own.Keys - {v.table[slot].sector} - Elements(Data(v.headers[slot]))
  {
    var data := Data(v.headers[slot]);
    var own' := OwnersWithout(own, slot);
    forall f: nat, i: nat | Has(v', f, i)
      ensures SectorOf(v', f, i) in own' && own'[SectorOf(v', f, i)] == (f, i)
    {
      assert f != slot && Has(v, f, i) && SectorOf(v', f, i) == SectorOf(v, f, i);
    }
    forall x | x in own
      ensures own[x].0 == slot <==> x == v.table[slot].sector || x in Elements(data)
    {
      assert Has(v, own[x].0, own[x].1);
      if x == v.table[slot].sector {
        assert Has(v, slot, 0) && SectorOf(v, slot, 0) == x;
      } else if x in Elements(data) {
        var j :| 0 <= j < |data| && data[j] == x;
        assert Has(v, slot, j + 1) && SectorOf(v, slot, j + 1) == x;
      }
    }
    forall x | x in own'
      ensures Has(v', own'[x].0, own'[x].1) && SectorOf(v', own'[x].0, own'[x].1) == x
    {
      assert Has(v, own[x].0, own[x].1);
    }
  }

  // ---------------------------------------------------------------- sectors left alone

  /** Nothing in use has changed, except the contents of the bitmap and the directory. */
  ghost predicate KeepsFiles(d: Image, d': Image)
    requires Bootable(d)
  {
    forall x :: x in MarkedOn(d) && x !in Data(MapHeader(d)) && x !in Data(DirHeader(d)) ==> d'[x] == d[x]
  }

  /** No other file has a sector among the data of file `g`. */
  lemma NotInDataOf(d: Image, own: map<int, (nat, nat)>, f: nat, i: nat, g: nat)
    requires Tidy(d, own) && Has(View(d), f, i) && g < NUM_FILES && InUse(View(d).table, g)
    requires f != g || i == 0
    ensures SectorOf(View(d), f, i) in MarkedOn(d)
    ensures SectorOf(View(d), f, i) !in Data(View(d).headers[g])
  {
    var v := View(d);
    var x, data := SectorOf(v, f, i), Data(v.headers[g]);
    forall j | 0 <= j < |data|
      ensures data[j] != x
    {
      assert Has(v, g, j + 1) && SectorOf(v, g, j + 1) == data[j];
    }
  }

  lemma KeptSector(d: Image, d': Image, own: map<int, (nat, nat)>, f: nat, i: nat)
    requires Tidy(d, own) && KeepsFiles(d, d') && Has(View(d), f, i) && (f < NUM_DIR_ENTRIES || i == 0)
    ensures d'[SectorOf(View(d), f, i)] == d[SectorOf(View(d), f, i)]
  {
    NotInDataOf(d, own, f, i, MAP_FILE);
    NotInDataOf(d, own, f, i, DIR_FILE);
  }

  lemma KeptBoot(d: Image, d': Image, own: map<int, (nat, nat)>)
    requires Tidy(d, own) && KeepsFiles(d, d')
    ensures Bootable(d') && MapHeader(d') == MapHeader(d) && DirHeader(d') == DirHeader(d)
  {
    assert Has(View(d), MAP_FILE, 0) && Has(View(d), DIR_FILE, 0);
    KeptSector(d, d', own, MAP_FILE, 0);
    KeptSector(d, d', own, DIR_FILE, 0);
  }

  lemma KeptData(d: Image, d': Image, own: map<int, (nat, nat)>, f: nat, j: nat)
    requires Tidy(d, own) && KeepsFiles(d, d') && f < NUM_DIR_ENTRIES && TableOf(d)[f].inUse
    requires j < |Data(View(d).headers[f])|
    ensures var x := Data(View(d).headers[f])[j];
            0 <= x < NUM_SECTORS && d'[x] == d[x]
  {
    assert Has(View(d), f, j + 1);
    KeptSector(d, d', own, f, j + 1);
  }

  lemma KeptFile(d: Image, d': Image, own: map<int, (nat, nat)>, f: nat)
    requires Tidy(d, own) && KeepsFiles(d, d') && f < NUM_DIR_ENTRIES && TableOf(d)[f].inUse
    ensures var h := View(d).headers[f];
            HeaderAt(d', TableOf(d)[f].sector) == h && HeaderOk(h) && Content(d', h) == Content(d, h)
  {
    var h := View(d).headers[f];
    assert Has(View(d), f, 0);
    KeptSector(d, d', own, f, 0);
    forall j | 0 <= j < |Data(h)|
      ensures d'[Data(h)[j]] == d[Data(h)[j]]
    {
      KeptData(d, d', own, f, j);
    }
    FlatFrame(d, d', Data(h), 0, |Data(h)|);
  }

  lemma KeptHeader(d: Image, d': Image, own: map<int, (nat, nat)>, f: nat)
    requires Tidy(d, own) && KeepsFiles(d, d') && f < NUM_FILES && InUse(TableOf(d), f)
    ensures HeaderAt(d', HeaderSector(TableOf(d), f)) == View(d).headers[f]
  {
    KeptBoot(d, d', own);
    if f < NUM_DIR_ENTRIES {
      KeptFile(d, d', own, f);
    }
  }

  // ---------------------------------------------------------------- a file is added

  /** Between `d` and `d'` the free entry `slot` has become a file with header `h`, made of
      sectors that were free. */
  ghost predicate AddsFile(d: Image, d': Image, slot: nat, h: Header) {
    && Bootable(d) && Bootable(d') && KeepsFiles(d, d')
    && slot < NUM_DIR_ENTRIES && !TableOf(d)[slot].inUse
    && TableOf(d') == TableOf(d)[slot := TableOf(d')[slot]]
    && (var e := TableOf(d')[slot];
        && e.inUse && Lookup(TableOf(d), Key(e.name)) == -1
        && 0 <= e.sector < NUM_SECTORS && e.sector !in MarkedOn(d)
        && DecodeHeader(d'[e.sector]) == h && HeaderOk(h)
        && (forall x :: x in Data(h) ==> x != e.sector && x !in MarkedOn(d))
        && MarkedOn(d') == MarkedOn(d) + {e.sector} + Elements(Data(h)))
  }

  lemma AddedView(d: Image, d': Image, own: map<int, (nat, nat)>, slot: nat, h: Header)
    requires Tidy(d, own) && AddsFile(d, d', slot, h)
    ensures SameHeaders(View(d), View(d')) && View(d').headers[slot] == h
  {
    hide DecodeTable, DecodeWords, MarkedIn, Content, Lookup, HeaderOk, Data;
    forall f | 0 <= f < NUM_FILES && InUse(TableOf(d), f)
      ensures View(d').headers[f] == View(d).headers[f]
    {
      KeptHeader(d, d', own, f);
    }
  }

  lemma AddedTidy(d: Image, d': Image, own: map<int, (nat, nat)>, slot: nat, h: Header)
    requires Tidy(d, own) && AddsFile(d, d', slot, h)
    ensures FsOk(d')
  {
    hide DecodeHeader, DecodeTable, DecodeWords, MarkedIn, Content, HeaderAt, Lookup, HeaderOk, Data;
    var v, v' := View(d), View(d');
    AddedView(d, d', own, slot, h);
    UniqueKeysAdded(v.table, slot, v'.table[slot]);
    forall f | 0 <= f < NUM_FILES && InUse(v'.table, f)
      ensures 0 <= HeaderSector(v'.table, f) < NUM_SECTORS && HeaderOk(v'.headers[f])
    {
      if f != slot {
        assert InUse(v.table, f) && HeaderSector(v'.table, f) == HeaderSector(v.table, f);
      }
    }
    var own' := OwnersAdded(v, v', own, slot);
    assert Tidy(d', own');
  }

  /** The file is added to the map, and every other file keeps its header and its bytes. */
  lemma FileAdded(d: Image, d': Image, slot: nat, h: Header)
    requires FsOk(d) && AddsFile(d, d', slot, h)
    ensures FsOk(d')
    ensures var key := Key(TableOf(d')[slot].name);
            && key !in Files(d)
            && Files(d').Keys == Files(d).Keys + {key}
            && HeaderFor(d', key) == h
            && (forall k :: k in Files(d) ==> HeaderFor(d', k) == HeaderFor(d, k) && Files(d')[k] == Files(d)[k])
  {
    hide DecodeHeader, DecodeTable, DecodeWords, MarkedIn, Content, HeaderAt, Lookup, HeaderOk, Data,
         Owners, KeySet, Key, UniqueKeys, KeepsFiles;
    var own :| Tidy(d, own);
    AddedTidy(d, d', own, slot, h);
    AddedView(d, d', own, slot, h);
    var key := Key(TableOf(d')[slot].name);
    forall k
      ensures Lookup(TableOf(d'), k) == if k == key then slot else Lookup(TableOf(d), k)
    {
      LookupAdded(TableOf(d), slot, TableOf(d')[slot], k);
    }
    forall k | k in Files(d)
      ensures HeaderFor(d', k) == HeaderFor(d, k) && Files(d')[k] == Files(d)[k]
    {
      KeptFile(d, d', own, Lookup(TableOf(d), k));
    }
  }

  // ---------------------------------------------------------------- a file is removed

  /** Between `d` and `d'` the file in entry `slot` has gone and its sectors are free. */
  ghost predicate RemovesFile(d: Image, d': Image, slot: nat) {
    && Bootable(d) && Bootable(d') && KeepsFiles(d, d')
    && slot < NUM_DIR_ENTRIES && TableOf(d)[slot].inUse
    && TableOf(d') == TableOf(d)[slot := TableOf(d)[slot].(inUse := false)]
    && MarkedOn(d') == MarkedOn(d) - {TableOf(d)[slot].sector} - Elements(Data(View(d).headers[slot]))
  }

  lemma RemovedTidy(d: Image, d': Image, own: map<int, (nat, nat)>, slot: nat)
    requires Tidy(d, own) && RemovesFile(d, d', slot)
    ensures FsOk(d') && SameHeaders(View(d'), View(d))
  {
    hide DecodeHeader, DecodeTable, DecodeWords, MarkedIn, Content, Lookup, HeaderOk, Data;
    var v, v' := View(d), View(d');
    UniqueKeysRemoved(v.table, slot);
    forall f | 0 <= f < NUM_FILES && InUse(v'.table, f)
      ensures v.headers[f] == v'.headers[f]
      ensures 0 <= HeaderSector(v'.table, f) < NUM_SECTORS && HeaderOk(v'.headers[f])
    {
      assert InUse(v.table, f) && HeaderSector(v'.table, f) == HeaderSector(v.table, f);
      KeptHeader(d, d', own, f);
    }
    OwnersRemoved(v, v', own, slot);
    assert Tidy(d', OwnersWithout(own, slot));
  }

  /** The file leaves the map, and every other file keeps its header and its bytes. */
  lemma FileRemoved(d: Image, d': Image, slot: nat)
    requires FsOk(d) && RemovesFile(d, d', slot)
    ensures FsOk(d')
    ensures var key := Key(TableOf(d)[slot].name);
            && Files(d') == Files(d) - {key}
            && (forall k :: k in Files(d') ==> HeaderFor(d', k) == HeaderFor(d, k))
  {
    hide DecodeHeader, DecodeTable, DecodeWords, MarkedIn, Content, HeaderAt, Lookup, HeaderOk, Data,
         Owners, KeySet, Key, KeepsFiles;
    var own :| Tidy(d, own);
    RemovedTidy(d, d', own, slot);
    var key := Key(TableOf(d)[slot].name);
    forall k
      ensures Lookup(TableOf(d'), k) == if k == key then -1 else Lookup(TableOf(d), k)
    {
      LookupRemoved(TableOf(d), slot, k);
    }
    forall k | k in Files(d')
      ensures HeaderFor(d', k) == HeaderFor(d, k) && Files(d')[k] == Files(d)[k]
    {
      KeptFile(d, d', own, Lookup(TableOf(d), k));
    }
  }

  // ---------------------------------------------------------------- a file is written

  /** A file other than `f` does not notice that the data of `f` changes. */
  lemma OtherFile(d: Image, d': Image, own: map<int, (nat, nat)>, f: nat, g: nat)
    requires Tidy(d, own) && f < NUM_FILES && g < NUM_FILES && InUse(TableOf(d), f) && InUse(TableOf(d), g)
    requires OnlyFileChanged(d, d', View(d).headers[f])
    ensures HeaderAt(d', HeaderSector(TableOf(d), g)) == View(d).headers[g]
    ensures g != f ==> Content(d', View(d).headers[g]) == Content(d, View(d).headers[g])
  {
    hide DecodeHeader, DecodeTable, DecodeWords, MarkedIn, Lookup, Data, Owners;
    var v := View(d);
    var h := v.headers[g];
    assert Has(v, g, 0);
    NotInDataOf(d, own, g, 0, f);
    if g != f {
      forall j | 0 <= j < |Data(h)|
        ensures d'[Data(h)[j]] == d[Data(h)[j]]
      {
        assert Has(v, g, j + 1) && SectorOf(v, g, j + 1) == Data(h)[j];
        NotInDataOf(d, own, g, j + 1, f);
      }
      FlatFrame(d, d', Data(h), 0, |Data(h)|);
    }
  }

  lemma WrittenView(d: Image, d': Image, own: map<int, (nat, nat)>, f: nat)
    requires Tidy(d, own) && f < NUM_DIR_ENTRIES && TableOf(d)[f].inUse
    requires OnlyFileChanged(d, d', View(d).headers[f])
    ensures Bootable(d') && TableOf(d') == TableOf(d) && MarkedOn(d') == MarkedOn(d)
    ensures SameHeaders(View(d), View(d'))
    ensures MapHeader(d') == MapHeader(d) && DirHeader(d') == DirHeader(d)
  {
    hide DecodeHeader, DecodeTable, DecodeWords, MarkedIn, Content, Lookup, HeaderOk, Data, OnlyFileChanged;
    OtherFile(d, d', own, f, MAP_FILE);
    OtherFile(d, d', own, f, DIR_FILE);
    forall g | 0 <= g < NUM_FILES && InUse(TableOf(d), g)
      ensures View(d').headers[g] == View(d).headers[g]
    {
      OtherFile(d, d', own, f, g);
    }
  }

  lemma WrittenTidy(d: Image, d': Image, own: map<int, (nat, nat)>, f: nat)
    requires Tidy(d, own) && f < NUM_DIR_ENTRIES && TableOf(d)[f].inUse
    requires OnlyFileChanged(d, d', View(d).headers[f])
    ensures FsOk(d')
  {
    hide DecodeHeader, DecodeTable, DecodeWords, MarkedIn, Content, Lookup, HeaderOk, Data, OnlyFileChanged, HeaderAt;
    WrittenView(d, d', own, f);
    var v, v' := View(d), View(d');
    forall f: nat, i: nat
      ensures Has(v', f, i) <==> Has(v, f, i)
      ensures Has(v, f, i) ==> SectorOf(v', f, i) == SectorOf(v, f, i)
    {
    }
    assert Owners(v', own);
    assert Tidy(d', own);
  }

  /** Only the bytes of that file change. */
  lemma FileWritten(d: Image, d': Image, key: seq<Byte>)
    requires FsOk(d) && key in Files(d) && OnlyFileChanged(d, d', HeaderFor(d, key))
    ensures FsOk(d') && MarkedOn(d') == MarkedOn(d) && TableOf(d') == TableOf(d)
    ensures MapHeader(d') == MapHeader(d) && DirHeader(d') == DirHeader(d)
    ensures Files(d') == Files(d)[key := Content(d', HeaderFor(d, key))]
    ensures forall k :: k in Files(d) ==> HeaderFor(d', k) == HeaderFor(d, k)
  {
    hide DecodeHeader, DecodeTable, DecodeWords, MarkedIn, Content, HeaderAt, Lookup, HeaderOk, Data,
         Owners, KeySet, Key, OnlyFileChanged;
    var own :| Tidy(d, own);
    var f := Lookup(TableOf(d), key);
    WrittenTidy(d, d', own, f);
    WrittenView(d, d', own, f);
    forall k | k in Files(d) && k != key
      ensures Files(d')[k] == Files(d)[k]
    {
      OtherFile(d, d', own, f, Lookup(TableOf(d), k));
    }
  }
}
