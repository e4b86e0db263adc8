/** The memory images that the file system copies to and from disk sectors:
    little-endian words, file headers and directory entries. */
module Encoding {
  import opened Common

  const SECTOR_SIZE := 128
  const NUM_DIRECT := 30
  const NAME_LEN := 9        // FileNameMaxLen
  const ENTRY_SIZE := 20     // sizeof(DirectoryEntry), with the compiler's padding

  // ---------------------------------------------------------------- words

  /** Byte `j` of a little-endian word. */
  function WordByte(w: Word, j: nat): Byte
    requires j < 4
  {
    if j == 0 then w % 0x100
    else if j == 1 then w / 0x100 % 0x100
    else if j == 2 then w / 0x1_0000 % 0x100
    else w / 0x100_0000
  }

  function WordOf(b0: Byte, b1: Byte, b2: Byte, b3: Byte): Word {
    b0 + 0x100 * b1 + 0x1_0000 * b2 + 0x100_0000 * b3
  }

  function EncodeWords(ws: seq<Word>): (bs: seq<Byte>)
    ensures |bs| == 4 * |ws|
  {
    seq(4 * |ws|, k requires 0 <= k < 4 * |ws| => WordByte(ws[k / 4], k % 4))
  }

  function DecodeWords(bs: seq<Byte>): (ws: seq<Word>)
    ensures |ws| == |bs| / 4
  {
    seq(|bs| / 4, i requires 0 <= i < |bs| / 4 =>
      WordOf(bs[4 * i], bs[4 * i + 1], bs[4 * i + 2], bs[4 * i + 3]))
  }

  lemma WordBytes(w: Word)
    ensures WordOf(WordByte(w, 0), WordByte(w, 1), WordByte(w, 2), WordByte(w, 3)) == w
  {
    assert w / 0x1_0000 == w / 0x100 / 0x100;
    assert w / 0x100_0000 == w / 0x1_0000 / 0x100;
  }

  lemma EncodedWord(ws: seq<Word>, i: nat, j: nat)
    requires i < |ws| && j < 4
    ensures EncodeWords(ws)[4 * i + j] == WordByte(ws[i], j)
  {
    assert (4 * i + j) / 4 == i && (4 * i + j) % 4 == j;
  }

  lemma EncodedWordBack(ws: seq<Word>, i: nat)
    requires i < |ws|
    ensures var bs := EncodeWords(ws);
            WordOf(bs[4 * i], bs[4 * i + 1], bs[4 * i + 2], bs[4 * i + 3]) == ws[i]
  {
    EncodedWord(ws, i, 0);
    EncodedWord(ws, i, 1);
    EncodedWord(ws, i, 2);
    EncodedWord(ws, i, 3);
    WordBytes(ws[i]);
  }

  lemma WordsRoundTrip(ws: seq<Word>)
    ensures DecodeWords(EncodeWords(ws)) == ws
  {
    forall i | 0 <= i < |ws|
      ensures DecodeWords(EncodeWords(ws))[i] == ws[i]
    {
      EncodedWordBack(ws, i);
    }
  }

  // ---------------------------------------------------------------- signed ints

  function ToWords(xs: seq<Int32>): (ws: seq<Word>)
    ensures |ws| == |xs|
  {
    seq(|xs|, i requires 0 <= i < |xs| => Unsigned(xs[i]))
  }

  function ToInts(ws: seq<Word>): (xs: seq<Int32>)
    ensures |xs| == |ws|
  {
    seq(|ws|, i requires 0 <= i < |ws| => Signed(ws[i]))
  }

  lemma IntsRoundTrip(xs: seq<Int32>)
    ensures ToInts(ToWords(xs)) == xs
  {
  }

  // ---------------------------------------------------------------- sectors

  type Sector = s: seq<Byte> | |s| == SECTOR_SIZE witness seq(SECTOR_SIZE, _ => 0)

  // ---------------------------------------------------------------- file headers

  /** The value of a FileHeader: numBytes, numSectors and the table dataSectors. */
  datatype HeaderValue = Header(numBytes: Int32, numSectors: Int32, data: seq<Int32>)

  type Header = h: HeaderValue | |h.data| == NUM_DIRECT
    witness Header(0, 0, seq(NUM_DIRECT, _ => 0))

  /** A header is written to disk as the 32 ints it is made of. */
  function EncodeHeader(h: Header): Sector {
    EncodeWords(ToWords([h.numBytes, h.numSectors] + h.data))
  }

  function DecodeHeader(s: Sector): Header {
    var ints := ToInts(DecodeWords(s));
    Header(ints[0], ints[1], ints[2..])
  }

  lemma HeaderRoundTrip(h: Header)
    ensures DecodeHeader(EncodeHeader(h)) == h
  {
    var ints := [h.numBytes, h.numSectors] + h.data;
    WordsRoundTrip(ToWords(ints));
    IntsRoundTrip(ints);
    assert ints[2..] == h.data;
  }

  // ---------------------------------------------------------------- directory entries

  /** A DirectoryEntry: the bool, the sector of the file's header, the ten bytes of
      the name, and the five bytes of padding that travel with it. */
  datatype EntryValue = Entry(inUse: bool, sector: Int32, name: seq<Byte>, padding: seq<Byte>)

  type Entry = e: EntryValue | |e.name| == NAME_LEN + 1 && |e.padding| == 5
    witness Entry(false, 0, seq(NAME_LEN + 1, _ => 0), seq(5, _ => 0))

  function EncodeEntry(e: Entry): (bs: seq<Byte>)
    ensures |bs| == ENTRY_SIZE
  {
    [if e.inUse then 1 else 0] + e.padding[..3] + EncodeWords([Unsigned(e.sector)])
      + e.name + e.padding[3..]
  }

  function DecodeEntry(bs: seq<Byte>): Entry
    requires |bs| == ENTRY_SIZE
  {
    Entry(bs[0] != 0, Signed(WordOf(bs[4], bs[5], bs[6], bs[7])), bs[8..18],
          bs[1..4] + bs[18..20])
  }

  lemma EntryRoundTrip(e: Entry)
    ensures DecodeEntry(EncodeEntry(e)) == e
  {
    var bs := EncodeEntry(e);
    WordBytes(Unsigned(e.sector));
    assert bs[4..8] == EncodeWords([Unsigned(e.sector)]);
    assert bs[4] == bs[4..8][0] && bs[5] == bs[4..8][1] && bs[6] == bs[4..8][2] && bs[7] == bs[4..8][3];
    assert bs[8..18] == e.name;
    assert bs[1..4] == e.padding[..3] && bs[18..20] == e.padding[3..];
  }

  function EncodeTable(t: seq<Entry>): (bs: seq<Byte>)
    ensures |bs| == ENTRY_SIZE * |t|
  {
    seq(ENTRY_SIZE * |t|, k requires 0 <= k < ENTRY_SIZE * |t| =>
      EncodeEntry(t[k / ENTRY_SIZE])[k % ENTRY_SIZE])
  }

  function DecodeTable(bs: seq<Byte>): (t: seq<Entry>)
    ensures |t| == |bs| / ENTRY_SIZE
  {
    seq(|bs| / ENTRY_SIZE, i requires 0 <= i < |bs| / ENTRY_SIZE =>
      DecodeEntry(bs[ENTRY_SIZE * i..ENTRY_SIZE * i + ENTRY_SIZE]))
  }

  lemma EncodedEntry(t: seq<Entry>, i: nat)
    requires i < |t|
    ensures EncodeTable(t)[ENTRY_SIZE * i..ENTRY_SIZE * i + ENTRY_SIZE] == EncodeEntry(t[i])
  {
    forall j | 0 <= j < ENTRY_SIZE
      ensures EncodeTable(t)[ENTRY_SIZE * i + j] == EncodeEntry(t[i])[j]
    {
      assert (ENTRY_SIZE * i + j) / ENTRY_SIZE == i && (ENTRY_SIZE * i + j) % ENTRY_SIZE == j;
    }
  }

  lemma TableRoundTrip(t: seq<Entry>)
    ensures DecodeTable(EncodeTable(t)) == t
  {
    var bs := EncodeTable(t);
    forall i | 0 <= i < |t|
      ensures DecodeEntry(bs[ENTRY_SIZE * i..ENTRY_SIZE * i + ENTRY_SIZE]) == t[i]
    {
      EncodedEntry(t, i);
      EntryRoundTrip(t[i]);
    }
  }

  // ---------------------------------------------------------------- file names

  /** A C string: its characters up to, not including, the terminating NUL. */
  type CString = s: seq<Byte> | 0 !in s witness []

  /** What `strncpy(_, s, n)` leaves in the first `n` bytes: `s` up to its first NUL,
      cut or padded with NULs to length `n`. */
  function Canon(s: seq<Byte>, n: nat): (r: seq<Byte>)
    ensures |r| == n
    decreases n, s
  {
    if n == 0 then []
    else if s == [] || s[0] == 0 then [0] + Canon([], n - 1)
    else [s[0]] + Canon(s[1..], n - 1)
  }

  /** The name by which the directory knows a file: nine characters. */
  function Key(name: seq<Byte>): (k: seq<Byte>)
    ensures |k| == NAME_LEN
  {
    Canon(name, NAME_LEN)
  }

  /** Character k of a name as `strncpy` leaves it: its own, or padding once it has ended. */
  lemma {:induction false} CanonAt(s: CString, n: nat, k: nat)
    requires k < n
    ensures Canon(s, n)[k] == if k < |s| then s[k] else 0
    decreases n
  {
    if k > 0 {
      var rest := if s == [] then [] else s[1..];
      CanonAt(rest, n - 1, k - 1);
      assert Canon(s, n)[k] == Canon(rest, n - 1)[k - 1];
    }
  }

  /** The first n characters of a name, or all if there are fewer. */
  function Cut(s: CString, n: nat): CString {
    if |s| <= n then s else s[..n]
  }

  lemma SameCut(a: CString, b: CString, n: nat)
    ensures Canon(a, n) == Canon(b, n) <==> Cut(a, n) == Cut(b, n)
  {
    hide Canon;
    forall k | 0 <= k < n
      ensures Canon(a, n)[k] == (if k < |a| then a[k] else 0) && Canon(b, n)[k] == (if k < |b| then b[k] else 0)
    {
      CanonAt(a, n, k);
      CanonAt(b, n, k);
    }
    if Canon(a, n) == Canon(b, n) {
      SameEnd(a, b, n);
      SameEnd(b, a, n);
    } else {
      var k :| 0 <= k < n && Canon(a, n)[k] != Canon(b, n)[k];
      assert k < |Cut(a, n)| <==> k < |a|;
      assert k < |Cut(b, n)| <==> k < |b|;
    }
  }

  /** A name with the characters of another, padding included, is no shorter within n. */
  lemma SameEnd(a: CString, b: CString, n: nat)
    requires forall k :: 0 <= k < n ==> (if k < |a| then a[k] else 0) == (if k < |b| then b[k] else 0)
    ensures |Cut(a, n)| <= |Cut(b, n)|
  {
    if |b| < |a| {
      assert a[|b|] != 0;
    }
  }

  /** Two names are of the same file exactly if their first nine characters are the same. */
  lemma SameKeyIff(a: CString, b: CString)
    ensures Key(a) == Key(b) <==> Cut(a, 9) == Cut(b, 9)
  {
    SameCut(a, b, 9);
  }

  /** `strncmp(a, b, n) == 0`. The end of a sequence stands for the terminating NUL. */
  predicate SamePrefix(a: seq<Byte>, b: seq<Byte>, n: nat) {
    n == 0 ||
    (var x, y := if a == [] then 0 else a[0], if b == [] then 0 else b[0];
     x == y && (x == 0 || SamePrefix(a[1..], b[1..], n - 1)))
  }

  /** `strncmp` calls two names equal exactly when they have the same key. */
  lemma {:induction false} SamePrefixIffSameKey(a: seq<Byte>, b: seq<Byte>, n: nat)
    ensures SamePrefix(a, b, n) <==> Canon(a, n) == Canon(b, n)
  {
    if n > 0 {
      var x, y := if a == [] then 0 else a[0], if b == [] then 0 else b[0];
      assert Canon(a, n)[0] == x && Canon(b, n)[0] == y;
      if x == y && x != 0 {
        SamePrefixIffSameKey(a[1..], b[1..], n - 1);
        assert Canon(a, n)[1..] == Canon(a[1..], n - 1);
        assert Canon(b, n)[1..] == Canon(b[1..], n - 1);
      }
    }
  }

  /** Copying a name into an entry and comparing later sees the same key. */
  lemma {:induction false} CanonIdempotent(s: seq<Byte>, rest: seq<Byte>, n: nat)
    ensures Canon(Canon(s, n) + rest, n) == Canon(s, n)
    decreases n
  {
    if n > 0 {
      var c := Canon(s, n) + rest;
      if c[0] == 0 {
        CanonOfZero(s, n);
      } else {
        assert c[1..] == Canon(s[1..], n - 1) + rest;
        CanonIdempotent(s[1..], rest, n - 1);
      }
    }
  }

  lemma CanonOfZero(s: seq<Byte>, n: nat)
    requires n > 0 && Canon(s, n)[0] == 0
    ensures Canon(s, n) == Canon([], n)
  {
  }
}
