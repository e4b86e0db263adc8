/** An array of bits kept in 32-bit words (userprog/bitmap.cc). */
module BitMaps {
  import opened Bits
  import opened Common

  const BITS_IN_WORD := 32

  /** The numbers of the set bits among the first `n` bits of `words`. */
  ghost function MarkedIn(words: seq<Word>, n: nat): set<nat>
    requires n <= BITS_IN_WORD * |words|
  {
    set k: nat | k < n && Bit(words[k / BITS_IN_WORD], k % BITS_IN_WORD)
  }

  /** How many of the bits below `n` are not marked. */
  ghost function ClearCount(n: nat, marked: set<nat>): (c: nat)
    ensures c <= n
  {
    if n == 0 then 0 else ClearCount(n - 1, marked) + if n - 1 in marked then 0 else 1
  }

  lemma {:induction false} SomeClear(n: nat, marked: set<nat>)
    requires ClearCount(n, marked) > 0
    ensures exists k :: 0 <= k < n && k !in marked
  {
    if n - 1 in marked { SomeClear(n - 1, marked); }
  }

  lemma {:induction false} MarkOne(n: nat, marked: set<nat>, which: nat)
    requires which !in marked
    ensures ClearCount(n, marked + {which}) == ClearCount(n, marked) - if which < n then 1 else 0
  {
    if n > 0 { MarkOne(n - 1, marked, which); }
  }

  /** A bit is clear unless it is one of the marked ones, so few marks leave many clear. */
  lemma {:induction false} ClearAtLeast(n: nat, marked: set<nat>)
    ensures ClearCount(n, marked) + |marked| >= n
  {
    if n > 0 {
      ClearAtLeast(n - 1, marked - {n - 1});
      UnmarkAbove(n - 1, marked, n - 1);
    }
  }

  lemma {:induction false} UnmarkAbove(n: nat, marked: set<nat>, which: nat)
    requires n <= which
    ensures ClearCount(n, marked - {which}) == ClearCount(n, marked)
  {
    if n > 0 { UnmarkAbove(n - 1, marked, which); }
  }

  /** Setting or clearing bit `which` of the word that holds it changes the set of
      marked bits by exactly that bit. */
  lemma UpdateWord(words: seq<Word>, n: nat, which: nat, w: Word, on: bool)
    requires which < n <= BITS_IN_WORD * |words|
    requires forall j: nat :: Bit(w, j) <==>
               if j == which % BITS_IN_WORD then on else Bit(words[which / BITS_IN_WORD], j)
    ensures MarkedIn(words[which / BITS_IN_WORD := w], n)
         == if on then MarkedIn(words, n) + {which} else MarkedIn(words, n) - {which}
  {
    var words' := words[which / BITS_IN_WORD := w];
    forall k: nat | k < n
      ensures Bit(words'[k / BITS_IN_WORD], k % BITS_IN_WORD)
         <==> if k == which then on else Bit(words[k / BITS_IN_WORD], k % BITS_IN_WORD)
    {
      if k / BITS_IN_WORD == which / BITS_IN_WORD && k % BITS_IN_WORD == which % BITS_IN_WORD {
        assert k == which;
      }
    }
  }

  class BitMap {
    const numBits: nat
    const words: array<Word>

    ghost predicate Valid() {
      numBits <= BITS_IN_WORD * words.Length < numBits + BITS_IN_WORD
    }

    ghost function Marked(): (s: set<nat>)
      requires Valid()
      reads words
    {
      MarkedIn(words[..], numBits)
    }

    /** Every bit is clear at first. */
    constructor (nitems: nat)
      ensures Valid() && fresh(words) && numBits == nitems
      ensures Marked() == {}
    {
      numBits := nitems;
      words := new Word[nitems / BITS_IN_WORD + (if nitems % BITS_IN_WORD > 0 then 1 else 0)];
      new;
      for i := 0 to numBits
        invariant forall k :: 0 <= k < i ==> k !in Marked()
      {
        Clear(i);
      }
    }

    method Mark(which: nat)
      requires Valid() && which < numBits
      modifies words
      ensures Marked() == old(Marked()) + {which}
    {
      var w := SetBit(words[which / BITS_IN_WORD], which % BITS_IN_WORD);
      UpdateWord(words[..], numBits, which, w, true);
      ghost var before := words[..];
      words[which / BITS_IN_WORD] := w;
      assert words[..] == before[which / BITS_IN_WORD := w];
    }

    method Clear(which: nat)
      requires Valid() && which < numBits
      modifies words
      ensures Marked() == old(Marked()) - {which}
    {
      var w := ClearBit(words[which / BITS_IN_WORD], which % BITS_IN_WORD);
      UpdateWord(words[..], numBits, which, w, false);
      ghost var before := words[..];
      words[which / BITS_IN_WORD] := w;
      assert words[..] == before[which / BITS_IN_WORD := w];
    }

    method Test(which: nat) returns (on: bool)
      requires Valid() && which < numBits
      ensures on <==> which in Marked()
    {
      var k := which % BITS_IN_WORD;
      AndPow2(words[which / BITS_IN_WORD], k);
      on := And(words[which / BITS_IN_WORD], Pow2(k)) != 0;
    }

    /** Take the first clear bit; -1 when every bit is set. */
    method Find() returns (which: int)
      requires Valid()
      modifies words
      ensures -1 <= which < numBits
      ensures which == -1 <==> forall k :: 0 <= k < numBits ==> k in old(Marked())
      ensures which == -1 ==> Marked() == old(Marked())
      ensures which >= 0 ==> which !in old(Marked()) && forall k :: 0 <= k < which ==> k in old(Marked())
      ensures which >= 0 ==> Marked() == old(Marked()) + {which}
    {
      for i := 0 to numBits
        invariant words[..] == old(words[..]) && Marked() == old(Marked())
        invariant forall k :: 0 <= k < i ==> k in old(Marked())
      {
        var on := Test(i);
        if !on {
          assert i !in old(Marked());
          Mark(i);
          return i;
        }
      }
      return -1;
    }

    method NumClear() returns (count: nat)
      requires Valid()
      ensures count == ClearCount(numBits, Marked())
    {
      count := 0;
      for i := 0 to numBits
        invariant count == ClearCount(i, Marked())
      {
        var on := Test(i);
        if !on {
          count := count + 1;
        }
      }
    }
  }
}
