/** Virtual memory of the simulated machine (machine/translate.cc): translation by page table
    or TLB, and loads and stores of 1, 2 or 4 bytes on hosts of either byte order. */
module MachineMemory {
  import opened Common

  const PAGE_SIZE := 128
  const NUM_PHYS_PAGES := 32
  const MEMORY_SIZE := 4096
  const TLB_SIZE := 4

  type Size = x | x == 1 || x == 2 || x == 4 witness 1

  datatype Host = Host(bigEndian: bool, signedChar: bool)

  datatype Exception = NoException | PageFault | ReadOnly | BusError | AddressError

  datatype Entry = Entry(virtualPage: nat, physicalPage: nat, valid: bool, readOnly: bool, use: bool, dirty: bool)

  /** The translation table in force. */
  datatype Mmu = PageTable(table: seq<Entry>) | Tlb(table: seq<Entry>)

  // ---------------------------------------------------------------- byte order

  /** The word whose bytes, least significant first, are these. */
  function Little(b0: Byte, b1: Byte, b2: Byte, b3: Byte): Word {
    b0 + 0x100 * (b1 + 0x100 * (b2 + 0x100 * b3))
  }

  /** A byte of a word, least significant first. */
  function Part(w: Word, i: nat): Byte
    requires i < 4
  {
    match i
    case 0 => w % 0x100
    case 1 => w / 0x100 % 0x100
    case 2 => w / 0x100 / 0x100 % 0x100
    case _ => w / 0x100 / 0x100 / 0x100
  }

  lemma DivMod(r: Byte, q: nat)
    ensures (r + 0x100 * q) / 0x100 == q && (r + 0x100 * q) % 0x100 == r
  {
  }

  /** Putting a word together and taking it apart again. */
  lemma PartsOfLittle(b0: Byte, b1: Byte, b2: Byte, b3: Byte)
    ensures var w := Little(b0, b1, b2, b3);
            Part(w, 0) == b0 && Part(w, 1) == b1 && Part(w, 2) == b2 && Part(w, 3) == b3
  {
    DivMod(b0, b1 + 0x100 * (b2 + 0x100 * b3));
    DivMod(b1, b2 + 0x100 * b3);
    DivMod(b2, b3);
  }

  lemma LittleOfParts(w: Word)
    ensures Little(Part(w, 0), Part(w, 1), Part(w, 2), Part(w, 3)) == w
  {
    var w1 := w / 0x100;
    var w2 := w1 / 0x100;
    assert w2 == w2 % 0x100 + 0x100 * (w2 / 0x100);
    assert w1 == w1 % 0x100 + 0x100 * w2;
  }

  /** What the host sees in memory as an unsigned int, and as an unsigned short. */
  function HostWord(h: Host, b0: Byte, b1: Byte, b2: Byte, b3: Byte): Word {
    if h.bigEndian then Little(b3, b2, b1, b0) else Little(b0, b1, b2, b3)
  }

  function HostShort(h: Host, b0: Byte, b1: Byte): Word {
    if h.bigEndian then Little(b1, b0, 0, 0) else Little(b0, b1, 0, 0)
  }

  /** How the host lays a word, and a short, out in memory. */
  function HostBytes(h: Host, w: Word): seq<Byte> {
    if h.bigEndian then [Part(w, 3), Part(w, 2), Part(w, 1), Part(w, 0)]
    else [Part(w, 0), Part(w, 1), Part(w, 2), Part(w, 3)]
  }

  function HostShortBytes(h: Host, w: Word): seq<Byte> {
    if h.bigEndian then [Part(w, 1), Part(w, 0)] else [Part(w, 0), Part(w, 1)]
  }

  /** Each byte goes to its mirror place. */
  function WordToHost(h: Host, w: Word): Word {
    if h.bigEndian then Little(Part(w, 3), Part(w, 2), Part(w, 1), Part(w, 0)) else w
  }

  function ShortToHost(h: Host, w: Word): Word {
    if h.bigEndian then Little(Part(w, 1), Part(w, 0), 0, 0) else w
  }

  /** `value & 0xffff`. */
  function Low16(w: Word): Word {
    Little(Part(w, 0), Part(w, 1), 0, 0)
  }

  /** Loads are little endian on every host, and so are stores. */
  lemma LoadIsLittle(h: Host, b0: Byte, b1: Byte, b2: Byte, b3: Byte)
    ensures WordToHost(h, HostWord(h, b0, b1, b2, b3)) == Little(b0, b1, b2, b3)
    ensures ShortToHost(h, HostShort(h, b0, b1)) == Little(b0, b1, 0, 0)
  {
    hide Part;
    PartsOfLittle(b3, b2, b1, b0);
    PartsOfLittle(b1, b0, 0, 0);
  }

  lemma StoreIsLittle(h: Host, w: Word)
    ensures HostBytes(h, WordToHost(h, w)) == [Part(w, 0), Part(w, 1), Part(w, 2), Part(w, 3)]
    ensures HostShortBytes(h, ShortToHost(h, Low16(w))) == [Part(w, 0), Part(w, 1)]
  {
    hide Part, Little;
    PartsOfLittle(Part(w, 3), Part(w, 2), Part(w, 1), Part(w, 0));
    PartsOfLittle(Part(w, 0), Part(w, 1), 0, 0);
    PartsOfLittle(Part(w, 1), Part(w, 0), 0, 0);
  }

  /** A char as an int. */
  function CharToInt(h: Host, b: Byte): Word {
    if h.signedChar && b >= 0x80 then b + 0xffff_ff00 else b
  }

  // ---------------------------------------------------------------- translation

  function PageOf(addr: nat): nat { addr / PAGE_SIZE }

  /** The first valid TLB entry for the page, from `i` on. */
  function Search(table: seq<Entry>, vpn: nat, i: nat): (r: Option<nat>)
    requires i <= |table|
    ensures r.Some? ==> i <= r.value < |table| && table[r.value].valid && table[r.value].virtualPage == vpn
    ensures r.None? ==> forall j :: i <= j < |table| ==> !(table[j].valid && table[j].virtualPage == vpn)
    decreases |table| - i
  {
    if i == |table| then None
    else if table[i].valid && table[i].virtualPage == vpn then Some(i)
    else Search(table, vpn, i + 1)
  }

  /** The entry that maps a page. */
  function SlotOf(mmu: Mmu, vpn: nat): (r: Option<nat>)
    ensures r.Some? ==> r.value < |mmu.table| && mmu.table[r.value].valid
  {
    match mmu
    case PageTable(table) => if vpn < |table| && table[vpn].valid then Some(vpn) else None
    case Tlb(table) => Search(table, vpn, 0)
  }

  /** The physical address of one virtual byte, if the page is mapped to memory that exists. */
  function Physical(mmu: Mmu, addr: nat): (r: Option<nat>)
    ensures r.Some? ==> r.value < MEMORY_SIZE
  {
    var slot := SlotOf(mmu, PageOf(addr));
    if slot.None? || mmu.table[slot.value].physicalPage >= NUM_PHYS_PAGES then None
    else
      var frame := mmu.table[slot.value].physicalPage;
      assert frame * PAGE_SIZE <= (NUM_PHYS_PAGES - 1) * PAGE_SIZE;
      Some(frame * PAGE_SIZE + addr % PAGE_SIZE)
  }

  /** Which exception an access raises. */
  function Fault(mmu: Mmu, addr: nat, size: Size, writing: bool): Exception {
    var slot := SlotOf(mmu, PageOf(addr));
    if addr % size != 0 then AddressError
    else if mmu.PageTable? && PageOf(addr) >= |mmu.table| then AddressError
    else if slot.None? then PageFault
    else if mmu.table[slot.value].readOnly && writing then ReadOnly
    else if mmu.table[slot.value].physicalPage >= NUM_PHYS_PAGES then BusError
    else NoException
  }

  /** The entry is the one for the page: that number in a page table, the first for it in a TLB. */
  ghost predicate Maps(mmu: Mmu, vpn: nat, e: Entry) {
    && e.valid
    && match mmu
       case PageTable(table) => vpn < |table| && e == table[vpn]
       case Tlb(table) =>
         exists i :: 0 <= i < |table| && e == table[i] && e.virtualPage == vpn
                     && forall j :: 0 <= j < i ==> !(table[j].valid && table[j].virtualPage == vpn)
  }

  lemma {:induction false} SearchFirst(table: seq<Entry>, vpn: nat, i: nat, k: nat)
    requires i <= k < |table| && table[k].valid && table[k].virtualPage == vpn
    requires forall j :: i <= j < k ==> !(table[j].valid && table[j].virtualPage == vpn)
    ensures Search(table, vpn, i) == Some(k)
    decreases k - i
  {
    if i < k { SearchFirst(table, vpn, i + 1, k); }
  }

  lemma {:induction false} FirstBefore(table: seq<Entry>, vpn: nat, i: nat)
    requires i <= |table|
    ensures Search(table, vpn, i).Some? ==>
              forall j :: i <= j < Search(table, vpn, i).value ==> !(table[j].valid && table[j].virtualPage == vpn)
    decreases |table| - i
  {
    if i < |table| { FirstBefore(table, vpn, i + 1); }
  }

  lemma MapsSlot(mmu: Mmu, vpn: nat, e: Entry)
    ensures Maps(mmu, vpn, e) <==> SlotOf(mmu, vpn).Some? && mmu.table[SlotOf(mmu, vpn).value] == e
  {
    if mmu.Tlb? {
      FirstBefore(mmu.table, vpn, 0);
      if Maps(mmu, vpn, e) {
        var k :| 0 <= k < |mmu.table| && e == mmu.table[k] && e.virtualPage == vpn
                 && forall j :: 0 <= j < k ==> !(mmu.table[j].valid && mmu.table[j].virtualPage == vpn);
        SearchFirst(mmu.table, vpn, 0, k);
      }
    }
  }

  /** An access succeeds exactly if it is aligned and its page has an entry that lets it through, with
      a frame that exists; it then goes to that frame, at the same offset. A page that is read-only is
      never written. */
  lemma AccessIff(mmu: Mmu, addr: nat, size: Size, writing: bool)
    ensures Fault(mmu, addr, size, writing) == NoException <==>
              && addr % size == 0
              && exists e :: Maps(mmu, addr / PAGE_SIZE, e) && !(e.readOnly && writing) && e.physicalPage < NUM_PHYS_PAGES
    ensures forall e :: Maps(mmu, addr / PAGE_SIZE, e) && e.physicalPage < NUM_PHYS_PAGES ==>
              Physical(mmu, addr) == Some(e.physicalPage * PAGE_SIZE + addr % PAGE_SIZE)
    ensures forall e :: Maps(mmu, addr / PAGE_SIZE, e) && e.readOnly ==> Fault(mmu, addr, size, true) != NoException
  {
    hide Search, Maps;
    forall e {
      MapsSlot(mmu, addr / PAGE_SIZE, e);
    }
    var slot := SlotOf(mmu, addr / PAGE_SIZE);
    if slot.Some? { MapsSlot(mmu, addr / PAGE_SIZE, mmu.table[slot.value]); }
  }

  function Marked(e: Entry, writing: bool): Entry {
    e.(use := true, dirty := e.dirty || writing)
  }

  /** The table after a successful access. */
  function Touched(mmu: Mmu, addr: nat, writing: bool): Mmu {
    var slot := SlotOf(mmu, PageOf(addr));
    if slot.None? then mmu
    else mmu.(table := mmu.table[slot.value := Marked(mmu.table[slot.value], writing)])
  }

  /** After an access the page's entry is marked as used, and as dirty if it was or has been written;
      nothing else of it changes, and no other entry does. */
  lemma MarksUse(mmu: Mmu, addr: nat, writing: bool, e: Entry)
    requires Maps(mmu, addr / PAGE_SIZE, e)
    ensures var slot, mmu' := SlotOf(mmu, addr / PAGE_SIZE), Touched(mmu, addr, writing);
            && slot.Some? && mmu.table[slot.value] == e && |mmu'.table| == |mmu.table|
            && (forall i :: 0 <= i < |mmu.table| && i != slot.value ==> mmu'.table[i] == mmu.table[i])
            && var e' := mmu'.table[slot.value];
               && Maps(mmu', addr / PAGE_SIZE, e') && e'.use && (e'.dirty <==> e.dirty || writing)
               && e'.virtualPage == e.virtualPage && e'.physicalPage == e.physicalPage && e'.readOnly == e.readOnly
  {
    hide Maps, Search;
    MapsSlot(mmu, addr / PAGE_SIZE, e);
    var mmu' := Touched(mmu, addr, writing);
    var i := SlotOf(mmu, addr / PAGE_SIZE).value;
    if mmu.Tlb? { SearchSame(mmu.table, mmu'.table, addr / PAGE_SIZE, 0); }
    MapsSlot(mmu', addr / PAGE_SIZE, mmu'.table[i]);
  }

  /** Use and dirty bits do not matter to translation. */
  lemma TouchedSame(mmu: Mmu, addr: nat, writing: bool, other: nat)
    ensures Physical(Touched(mmu, addr, writing), other) == Physical(mmu, other)
  {
    if mmu.Tlb? && SlotOf(mmu, PageOf(addr)).Some? {
      var i := SlotOf(mmu, PageOf(addr)).value;
      SearchSame(mmu.table, mmu.table[i := Marked(mmu.table[i], writing)], PageOf(other), 0);
    }
  }

  /** Two tables that translate alike and raise the same exceptions. */
  ghost predicate SameMapping(m: Mmu, m': Mmu) {
    && (forall a: nat :: Physical(m', a) == Physical(m, a))
    && (forall a: nat, size: Size, writing: bool :: Fault(m', a, size, writing) == Fault(m, a, size, writing))
  }

  lemma TouchedFault(mmu: Mmu, addr: nat, writing: bool, other: nat, size: Size, w: bool)
    ensures Fault(Touched(mmu, addr, writing), other, size, w) == Fault(mmu, other, size, w)
  {
    if mmu.Tlb? && SlotOf(mmu, PageOf(addr)).Some? {
      var i := SlotOf(mmu, PageOf(addr)).value;
      SearchSame(mmu.table, mmu.table[i := Marked(mmu.table[i], writing)], PageOf(other), 0);
    }
  }

  lemma TouchedMapping(mmu: Mmu, addr: nat, writing: bool)
    ensures SameMapping(mmu, Touched(mmu, addr, writing))
  {
    hide Physical, Fault, Touched;
    forall a: nat { TouchedSame(mmu, addr, writing, a); }
    forall a: nat, size: Size, w: bool { TouchedFault(mmu, addr, writing, a, size, w); }
  }

  lemma {:induction false} SearchSame(a: seq<Entry>, b: seq<Entry>, vpn: nat, i: nat)
    requires |a| == |b| && i <= |a|
    requires forall j :: 0 <= j < |a| ==> a[j].valid == b[j].valid && a[j].virtualPage == b[j].virtualPage
    ensures Search(a, vpn, i) == Search(b, vpn, i)
    decreases |a| - i
  {
    if i < |a| { SearchSame(a, b, vpn, i + 1); }
  }

  lemma AlignedOffset(addr: nat, size: Size, i: nat)
    requires addr % size == 0 && i < size
    ensures PageOf(addr + i) == PageOf(addr) && (addr + i) % PAGE_SIZE == addr % PAGE_SIZE + i
  {
    if size == 2 { assert addr % 2 == 0; } else if size == 4 { assert addr % 4 == 0; }
  }

  /** An aligned access stays on its page. */
  lemma AlignedOnPage(mmu: Mmu, addr: nat, size: Size, i: nat)
    requires addr % size == 0 && i < size && Physical(mmu, addr).Some?
    ensures Physical(mmu, addr + i) == Some(Physical(mmu, addr).value + i)
  {
    AlignedOffset(addr, size, i);
    hide SlotOf, PageOf;
  }

  // ---------------------------------------------------------------- TLB and page table

  /** Every valid TLB entry repeats the page table. */
  ghost predicate Agrees(tlb: seq<Entry>, table: seq<Entry>) {
    forall i :: 0 <= i < |tlb| && tlb[i].valid ==>
      && tlb[i].virtualPage < |table| && table[tlb[i].virtualPage].valid
      && tlb[i].physicalPage == table[tlb[i].virtualPage].physicalPage
      && tlb[i].readOnly == table[tlb[i].virtualPage].readOnly
  }

  /** Such a TLB does what the page table does, or faults for the page to be loaded. */
  lemma TlbLikePageTable(tlb: seq<Entry>, table: seq<Entry>, addr: nat, size: Size, writing: bool)
    requires Agrees(tlb, table) && addr % size == 0
    ensures SlotOf(Tlb(tlb), PageOf(addr)).None? ==> Fault(Tlb(tlb), addr, size, writing) == PageFault
    ensures SlotOf(Tlb(tlb), PageOf(addr)).Some? ==>
              && Fault(Tlb(tlb), addr, size, writing) == Fault(PageTable(table), addr, size, writing)
              && Physical(Tlb(tlb), addr) == Physical(PageTable(table), addr)
  {
  }

  // ---------------------------------------------------------------- flat memory

  /** The byte a program finds at a virtual address. */
  function Virtual(mem: seq<Byte>, mmu: Mmu, addr: nat): Option<Byte>
    requires |mem| == MEMORY_SIZE
  {
    var p := Physical(mmu, addr);
    if p.None? then None else Some(mem[p.value])
  }

  /** No two virtual bytes share a physical one. */
  ghost predicate Injective(mmu: Mmu) {
    forall a: nat, b: nat :: Physical(mmu, a).Some? && Physical(mmu, a) == Physical(mmu, b) ==> a == b
  }

  lemma FrameAndOffset(f: nat, x: nat, g: nat, y: nat)
    requires f * PAGE_SIZE + x == g * PAGE_SIZE + y && x < PAGE_SIZE && y < PAGE_SIZE
    ensures f == g && x == y
  {
  }

  /** A page table is injective when no two valid pages share a frame. */
  lemma DistinctFrames(table: seq<Entry>)
    requires forall i, j :: 0 <= i < j < |table| && table[i].valid && table[j].valid ==>
               table[i].physicalPage != table[j].physicalPage
    ensures Injective(PageTable(table))
  {
    forall a: nat, b: nat | Physical(PageTable(table), a).Some? && Physical(PageTable(table), a) == Physical(PageTable(table), b)
      ensures a == b
    {
      var f, g := table[PageOf(a)].physicalPage, table[PageOf(b)].physicalPage;
      FrameAndOffset(f, a % PAGE_SIZE, g, b % PAGE_SIZE);
    }
  }

  function Spliced(mem: seq<Byte>, p: nat, bytes: seq<Byte>): seq<Byte>
    requires p + |bytes| <= |mem|
  {
    mem[..p] + bytes + mem[p + |bytes|..]
  }

  /** The bytes are where the table puts the address, and the rest of memory is as it was. */
  ghost predicate Written(mmu: Mmu, addr: nat, bytes: seq<Byte>, mem: seq<Byte>, mem': seq<Byte>) {
    var p := Physical(mmu, addr);
    p.Some? && p.value + |bytes| <= |mem| && mem' == Spliced(mem, p.value, bytes)
  }

  /** A store changes the virtual bytes it names, and no other. */
  lemma StoreFlat(mem: seq<Byte>, mmu: Mmu, addr: nat, bytes: seq<Byte>, other: nat)
    requires |mem| == MEMORY_SIZE && Injective(mmu) && (|bytes| == 1 || |bytes| == 2 || |bytes| == 4)
    requires addr % |bytes| == 0 && Physical(mmu, addr).Some? && Physical(mmu, addr).value + |bytes| <= MEMORY_SIZE
    ensures Virtual(Spliced(mem, Physical(mmu, addr).value, bytes), mmu, other) ==
            if addr <= other < addr + |bytes| then Some(bytes[other - addr]) else Virtual(mem, mmu, other)
  {
    hide Physical;
    var size: Size, p := |bytes|, Physical(mmu, addr).value;
    if addr <= other < addr + size {
      AlignedOnPage(mmu, addr, size, other - addr);
    } else if Physical(mmu, other).Some? && p <= Physical(mmu, other).value < p + size {
      AlignedOnPage(mmu, addr, size, Physical(mmu, other).value - p);
      assert false;
    }
  }

  /** Marking an entry as used changes nothing that a program sees. */
  lemma SameVirtual(mem: seq<Byte>, mmu: Mmu, addr: nat, writing: bool)
    requires |mem| == MEMORY_SIZE
    ensures forall a: nat :: Virtual(mem, Touched(mmu, addr, writing), a) == Virtual(mem, mmu, a)
  {
    forall a: nat { TouchedSame(mmu, addr, writing, a); }
  }

  /** So an injective table stays injective. */
  lemma TouchedInjective(mmu: Mmu, addr: nat, writing: bool)
    requires Injective(mmu)
    ensures Injective(Touched(mmu, addr, writing))
  {
    hide Physical, Touched;
    forall a: nat, b: nat | Physical(Touched(mmu, addr, writing), a).Some?
                            && Physical(Touched(mmu, addr, writing), a) == Physical(Touched(mmu, addr, writing), b)
      ensures a == b
    {
      TouchedSame(mmu, addr, writing, a);
      TouchedSame(mmu, addr, writing, b);
    }
  }

  lemma Aligned(mmu: Mmu, addr: nat, size: Size, writing: bool)
    requires Fault(mmu, addr, size, writing) == NoException
    ensures addr % size == 0 && Physical(mmu, addr).Some?
  {
  }

  lemma Consecutive(mem: seq<Byte>, mmu: Mmu, addr: nat, size: Size, p: nat, writing: bool)
    requires |mem| == MEMORY_SIZE && Fault(mmu, addr, size, writing) == NoException && Physical(mmu, addr) == Some(p)
    ensures p + size <= MEMORY_SIZE
    ensures forall a: nat :: addr <= a < addr + size ==> Virtual(mem, mmu, a) == Some(mem[p + (a - addr)])
  {
    hide Fault, Physical;
    Aligned(mmu, addr, size, writing);
    AlignedOnPage(mmu, addr, size, size - 1);
    forall a: nat | addr <= a < addr + size
      ensures Virtual(mem, mmu, a) == Some(mem[p + (a - addr)])
    {
      AlignedOnPage(mmu, addr, size, a - addr);
    }
  }

  lemma StoresFlat(mem: seq<Byte>, mmu: Mmu, addr: nat, size: Size, bytes: seq<Byte>)
    requires |mem| == MEMORY_SIZE && Injective(mmu) && |bytes| == size
    requires Fault(mmu, addr, size, true) == NoException && Physical(mmu, addr).Some?
    ensures Physical(mmu, addr).value + size <= MEMORY_SIZE
    ensures forall a: nat :: Virtual(Spliced(mem, Physical(mmu, addr).value, bytes), mmu, a) ==
              if addr <= a < addr + size then Some(bytes[a - addr]) else Virtual(mem, mmu, a)
  {
    hide Fault, Physical, Virtual, Spliced;
    Aligned(mmu, addr, size, true);
    Consecutive(mem, mmu, addr, size, Physical(mmu, addr).value, true);
    forall a: nat { StoreFlat(mem, mmu, addr, bytes, a); }
  }

  /** The value a load brings of these bytes. */
  function Loaded(h: Host, bytes: seq<Byte>): Word
    requires |bytes| == 1 || |bytes| == 2 || |bytes| == 4
  {
    if |bytes| == 1 then CharToInt(h, bytes[0])
    else if |bytes| == 2 then Little(bytes[0], bytes[1], 0, 0)
    else Little(bytes[0], bytes[1], bytes[2], bytes[3])
  }

  /** The bytes a store leaves of a value. */
  function Stored(value: Word, size: Size): (bytes: seq<Byte>)
    ensures |bytes| == size
  {
    if size == 1 then [Part(value, 0)]
    else if size == 2 then [Part(value, 0), Part(value, 1)]
    else [Part(value, 0), Part(value, 1), Part(value, 2), Part(value, 3)]
  }

  /** What is stored is what is loaded, as far as it fits. */
  lemma LoadAfterStore(h: Host, value: Word, size: Size)
    ensures size == 4 ==> Loaded(h, Stored(value, size)) == value
    ensures size == 2 ==> Loaded(h, Stored(value, size)) == Low16(value)
    ensures size == 1 ==> Part(Loaded(h, Stored(value, size)), 0) == Part(value, 0)
  {
    LittleOfParts(value);
  }

  // ---------------------------------------------------------------- the machine

  class Memory {
    const mainMemory: array<Byte>
    const host: Host
    const tlb: array?<Entry>
    var pageTable: array?<Entry>      // of the address space that is running

    /** There is a TLB or a page table, but not both. */
    ghost predicate Valid()
      reads this
    {
      && mainMemory.Length == MEMORY_SIZE
      && (tlb == null || pageTable == null) && (tlb != null || pageTable != null)
      && (tlb != null ==> tlb.Length == TLB_SIZE)
    }

    ghost function View(): Mmu
      requires Valid()
      reads this, tlb, pageTable
    {
      if tlb == null then PageTable(pageTable[..]) else Tlb(tlb[..])
    }

    constructor (host: Host, tlb: array?<Entry>, pageTable: array?<Entry>)
      requires tlb == null || pageTable == null
      requires tlb != null || pageTable != null
      requires tlb != null ==> tlb.Length == TLB_SIZE
      ensures Valid() && this.tlb == tlb && this.pageTable == pageTable && this.host == host
      ensures fresh(mainMemory) && forall i :: 0 <= i < MEMORY_SIZE ==> mainMemory[i] == 0
    {
      mainMemory := new Byte[MEMORY_SIZE](i => 0);
      this.host, this.tlb, this.pageTable := host, tlb, pageTable;
    }

    /** The search loop of the TLB. */
    method SearchTlb(vpn: nat) returns (slot: Option<nat>)
      requires Valid() && tlb != null
      ensures slot == Search(tlb[..], vpn, 0)
    {
      for i := 0 to TLB_SIZE
        invariant Search(tlb[..], vpn, 0) == Search(tlb[..], vpn, i)
      {
        if tlb[i].valid && tlb[i].virtualPage == vpn {
          return Some(i);
        }
      }
      return None;
    }

    /** The exception the access raises, or its physical address, which lies within memory. */
    method Translate(virtAddr: Word, size: Size, writing: bool) returns (exception: Exception, physAddr: nat)
      requires Valid()
      modifies tlb, pageTable
      ensures exception == Fault(old(View()), virtAddr, size, writing)
      ensures if exception == NoException
              then Physical(old(View()), virtAddr) == Some(physAddr) && View() == Touched(old(View()), virtAddr, writing)
              else View() == old(View())
      ensures exception == NoException ==> physAddr + size <= MEMORY_SIZE
    {
      physAddr := 0;
      if (size == 4 && virtAddr % 4 != 0) || (size == 2 && virtAddr % 2 != 0) {
        return AddressError, 0;
      }
      var vpn := virtAddr / PAGE_SIZE;
      var offset := virtAddr % PAGE_SIZE;
      var slot: Option<nat>;
      if tlb == null {
        if vpn >= pageTable.Length {
          return AddressError, 0;
        } else if !pageTable[vpn].valid {
          return PageFault, 0;
        }
        slot := Some(vpn);
      } else {
        slot := SearchTlb(vpn);
        if slot.None? {
          return PageFault, 0;
        }
      }
      var table: array<Entry> := if tlb == null then pageTable else tlb;
      var entry := table[slot.value];
      if entry.readOnly && writing {
        return ReadOnly, 0;
      }
      var pageFrame := entry.physicalPage;
      if pageFrame >= NUM_PHYS_PAGES {
        return BusError, 0;
      }
      table[slot.value] := Marked(entry, writing);
      physAddr := pageFrame * PAGE_SIZE + offset;
      AlignedOffset(virtAddr, size, size - 1);
      return NoException, physAddr;
    }

    /** The byte a program finds at a virtual address. */
    ghost function VirtualAt(addr: nat): Option<Byte>
      requires Valid()
      reads this, mainMemory, tlb, pageTable
    {
      Virtual(mainMemory[..], View(), addr)
    }

    /** What the host reads at a physical address, in the machine's byte order. */
    method Load(p: nat, size: Size) returns (value: Word)
      requires Valid() && p + size <= MEMORY_SIZE
      ensures value == Loaded(host, mainMemory[p..p + size])
    {
      hide Little, Part;
      match size
      case 1 =>
        value := CharToInt(host, mainMemory[p]);
      case 2 =>
        LoadIsLittle(host, mainMemory[p], mainMemory[p + 1], 0, 0);
        value := ShortToHost(host, HostShort(host, mainMemory[p], mainMemory[p + 1]));
      case _ =>
        LoadIsLittle(host, mainMemory[p], mainMemory[p + 1], mainMemory[p + 2], mainMemory[p + 3]);
        value := WordToHost(host, HostWord(host, mainMemory[p], mainMemory[p + 1], mainMemory[p + 2], mainMemory[p + 3]));
    }

    method Store(p: nat, size: Size, value: Word)
      requires Valid() && p + size <= MEMORY_SIZE
      modifies mainMemory
      ensures mainMemory[..] == Spliced(old(mainMemory[..]), p, Stored(value, size))
    {
      hide Little, Part;
      match size
      case 1 =>
        mainMemory[p] := Part(value, 0);
      case 2 =>
        StoreIsLittle(host, value);
        var bytes := HostShortBytes(host, ShortToHost(host, Low16(value)));
        mainMemory[p], mainMemory[p + 1] := bytes[0], bytes[1];
      case _ =>
        StoreIsLittle(host, value);
        var bytes := HostBytes(host, WordToHost(host, value));
        mainMemory[p], mainMemory[p + 1], mainMemory[p + 2], mainMemory[p + 3] := bytes[0], bytes[1], bytes[2], bytes[3];
    }

    /** A load of consecutive virtual bytes, little endian on every host. */
    method ReadMem(addr: Word, size: Size) returns (exception: Exception, value: Word, ghost bytes: seq<Byte>)
      requires Valid()
      modifies tlb, pageTable
      ensures exception == Fault(old(View()), addr, size, false)
      ensures View() == if exception == NoException then Touched(old(View()), addr, false) else old(View())
      ensures SameMapping(old(View()), View())
      ensures forall a: nat :: VirtualAt(a) == old(VirtualAt(a))
      ensures Injective(old(View())) ==> Injective(View())
      ensures exception == NoException ==>
                && |bytes| == size && value == Loaded(host, bytes)
                && forall a: nat :: addr <= a < addr + size ==> VirtualAt(a) == Some(bytes[a - addr])
    {
      hide Fault, Touched, Loaded, Physical;
      ghost var mmu := View();
      value, bytes := 0, [];
      var p;
      exception, p := Translate(addr, size, false);
      if exception == NoException {
        value := Load(p, size);
        bytes := mainMemory[p..p + size];
        SameVirtual(mainMemory[..], mmu, addr, false);
        TouchedMapping(mmu, addr, false);
        if Injective(mmu) { TouchedInjective(mmu, addr, false); }
        Consecutive(mainMemory[..], mmu, addr, size, p, false);
      }
    }

    /** A store to consecutive virtual bytes, little endian on every host: they change, and
        with an injective table no other virtual byte does. */
    method WriteMem(addr: Word, size: Size, value: Word) returns (exception: Exception)
      requires Valid()
      modifies mainMemory, tlb, pageTable
      ensures exception == Fault(old(View()), addr, size, true)
      ensures View() == if exception == NoException then Touched(old(View()), addr, true) else old(View())
      ensures SameMapping(old(View()), View())
      ensures if exception == NoException then Written(old(View()), addr, Stored(value, size), old(mainMemory[..]), mainMemory[..])
              else mainMemory[..] == old(mainMemory[..]) && forall a: nat :: VirtualAt(a) == old(VirtualAt(a))
      ensures Injective(old(View())) ==> Injective(View())
      ensures exception == NoException && Injective(old(View())) ==>
                forall a: nat :: VirtualAt(a) == if addr <= a < addr + size then Some(Stored(value, size)[a - addr]) else old(VirtualAt(a))
    {
      hide Fault, Touched, Physical, Spliced, Stored;
      ghost var mmu, mem := View(), mainMemory[..];
      var p;
      exception, p := Translate(addr, size, true);
      if exception == NoException {
        Store(p, size, value);
        SameVirtual(mainMemory[..], mmu, addr, true);
        TouchedMapping(mmu, addr, true);
        if Injective(mmu) {
          TouchedInjective(mmu, addr, true);
          StoresFlat(mem, mmu, addr, size, Stored(value, size));
        }
      }
    }
  }
}
