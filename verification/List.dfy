/** The singly linked list of threads/list.cc, refining a sequence of keyed items. */
module Lists {
  import opened Common

  datatype Keyed<T> = Keyed(item: T, key: int)

  // ---------------------------------------------------------------- sequences

  ghost predicate Sorted<T>(s: seq<Keyed<T>>) {
    forall i, j :: 0 <= i <= j < |s| ==> s[i].key <= s[j].key
  }

  /** The position before the first larger key from `i` on, or the end. */
  function Place<T>(s: seq<Keyed<T>>, i: nat, key: int): (p: nat)
    requires i <= |s|
    ensures i <= p <= |s| && (p < |s| ==> key < s[p].key)
    ensures forall j :: i <= j < p ==> s[j].key <= key
    decreases |s| - i
  {
    if i == |s| || key < s[i].key then i else Place(s, i + 1, key)
  }

  function Inserted<T>(s: seq<Keyed<T>>, e: Keyed<T>): seq<Keyed<T>> {
    var p := Place(s, 0, e.key);
    s[..p] + [e] + s[p..]
  }

  /** Insertion keeps everything that was there. */
  lemma InsertedKeeps<T>(s: seq<Keyed<T>>, e: Keyed<T>)
    ensures multiset(Inserted(s, e)) == multiset(s) + multiset{e}
  {
    var p := Place(s, 0, e.key);
    assert s == s[..p] + s[p..];
  }

  /** Insertion keeps a sorted list sorted. */
  lemma InsertedSorted<T>(s: seq<Keyed<T>>, e: Keyed<T>)
    requires Sorted(s)
    ensures Sorted(Inserted(s, e))
  {
    var p, r := Place(s, 0, e.key), Inserted(s, e);
    forall i, j | 0 <= i <= j < |r|
      ensures r[i].key <= r[j].key
    {
      if i < p && p < j { assert s[i].key <= s[j - 1].key; }
      if p < i { assert s[i - 1].key <= s[j - 1].key; }
      if i == p && p < j { assert s[p].key <= s[j - 1].key; }
    }
  }

  // ---------------------------------------------------------------- the linked list

  class ListElement<T> {
    const item: T
    const key: int
    var next: ListElement?<T>

    constructor (item: T, key: int)
      ensures this.item == item && this.key == key && next == null
    {
      this.item := item;
      this.key := key;
      next := null;
    }
  }

  class List<T> {
    var first: ListElement?<T>
    var last: ListElement?<T>

    /** The elements in order. */
    ghost var spine: seq<ListElement<T>>

    ghost function Nodes(): set<ListElement<T>>
      reads this
    {
      set n | n in spine
    }

    ghost predicate Valid()
      reads this, Nodes()
    {
      && (forall i, j :: 0 <= i < j < |spine| ==> spine[i] != spine[j])
      && (forall i :: 0 <= i < |spine| - 1 ==> spine[i].next == spine[i + 1])
      && (if spine == [] then first == null && last == null
          else first == spine[0] && last == spine[|spine| - 1] && spine[|spine| - 1].next == null)
    }

    ghost function Contents(): seq<Keyed<T>>
      reads this
    {
      seq(|spine|, i requires 0 <= i < |spine| reads this => Keyed(spine[i].item, spine[i].key))
    }

    constructor ()
      ensures Valid() && spine == [] && Contents() == []
    {
      first := null;
      last := null;
      spine := [];
    }

    method IsEmpty() returns (empty: bool)
      requires Valid()
      ensures empty <==> Contents() == []
    {
      empty := first == null;
    }

    /** Link a new element behind the last one. */
    method LinkLast(element: ListElement<T>)
      requires Valid() && element !in spine && element.next == null
      modifies this, Nodes()
      ensures Valid() && spine == old(spine) + [element]
    {
      if first == null {
        first := element;
      } else {
        last.next := element;
      }
      last := element;
      spine := spine + [element];
    }

    /** Link a new element before the first one. */
    method LinkFirst(element: ListElement<T>)
      requires Valid() && element !in spine && element.next == null
      modifies this, element
      ensures Valid() && spine == [element] + old(spine)
    {
      if first == null {
        last := element;
      } else {
        element.next := first;
      }
      first := element;
      spine := [element] + spine;
    }

    method Append(item: T)
      requires Valid()
      modifies this, Nodes()
      ensures Valid() && Contents() == old(Contents()) + [Keyed(item, 0)]
      ensures fresh(Nodes() - old(Nodes()))
    {
      var element := new ListElement(item, 0);
      LinkLast(element);
    }

    method Prepend(item: T)
      requires Valid()
      modifies this
      ensures Valid() && Contents() == [Keyed(item, 0)] + old(Contents())
      ensures fresh(Nodes() - old(Nodes()))
    {
      var element := new ListElement(item, 0);
      LinkFirst(element);
    }

    /** Walk to the element after which the key belongs. */
    method FindPlace(sortKey: int) returns (ptr: ListElement<T>, ghost i: nat)
      requires Valid() && spine != [] && spine[0].key <= sortKey
      ensures i < |spine| && ptr == spine[i] && Place(Contents(), 0, sortKey) == i + 1
    {
      ptr := first;
      i := 0;
      ghost var s := Contents();
      while ptr.next != null && !(sortKey < ptr.next.key)
        invariant i < |spine| && ptr == spine[i]
        invariant Place(s, 0, sortKey) == Place(s, i + 1, sortKey)
        decreases |spine| - i
      {
        ptr := ptr.next;
        i := i + 1;
      }
    }

    /** Link a new element behind one that is not the last. */
    method LinkAfter(ptr: ListElement<T>, ghost i: nat, element: ListElement<T>)
      requires Valid() && i + 1 < |spine| && ptr == spine[i] && element !in spine
      modifies this, ptr, element
      ensures Valid() && spine == old(spine[..i + 1] + [element] + spine[i + 1..])
    {
      element.next := ptr.next;
      ptr.next := element;
      spine := spine[..i + 1] + [element] + spine[i + 1..];
    }

    method SortedInsert(item: T, sortKey: int)
      requires Valid()
      modifies this, Nodes()
      ensures Valid() && Contents() == Inserted(old(Contents()), Keyed(item, sortKey))
      ensures fresh(Nodes() - old(Nodes()))
    {
      var element := new ListElement(item, sortKey);
      if first == null {
        LinkLast(element);
      } else if sortKey < first.key {
        LinkFirst(element);
      } else {
        var ptr, i := FindPlace(sortKey);
        if ptr.next == null {
          LinkLast(element);
        } else {
          LinkAfter(ptr, i, element);
        }
      }
    }

    method SortedRemove() returns (r: Option<Keyed<T>>)
      requires Valid()
      modifies this
      ensures Valid() && (old(Contents()) == [] <==> r.None?)
      ensures if r.None? then Contents() == [] else r.value == old(Contents())[0] && Contents() == old(Contents())[1..]
      ensures Nodes() <= old(Nodes())
    {
      if first == null {
        return None;
      }
      r := Some(Keyed(first.item, first.key));
      if first == last {
        first := null;
        last := null;
      } else {
        first := first.next;
      }
      spine := spine[1..];
    }

    method Remove() returns (r: Option<T>)
      requires Valid()
      modifies this
      ensures Valid() && (old(Contents()) == [] <==> r.None?)
      ensures if r.None? then Contents() == [] else r.value == old(Contents())[0].item && Contents() == old(Contents())[1..]
      ensures Nodes() <= old(Nodes())
    {
      var e := SortedRemove();
      r := if e.None? then None else Some(e.value.item);
    }
  }
}
