/** The LIST macros of include/libtx/queue.h. A link stands for one cell holding a pointer to an
    element: a list head is such a cell, and so is the le_next field of an element. le_prev, the
    address of the cell that points at the element, is therefore a reference to a link. */
module IntrusiveList {

  class Link<P(0)> {
    var next: Link?<P>
    var prev: Link?<P>
    var payload: P

    constructor (p: P)
      ensures payload == p && next == null
    {
      payload := p;
      next := null;
    }
  }

  // ---------------------------------------------------------------- one list

  ghost predicate Distinct<T>(s: seq<T>) {
    forall i, j :: 0 <= i < j < |s| ==> s[i] != s[j]
  }

  /** The cell h starts a list of exactly the elements s. When `cut` is set, h itself may hold
      anything: the state after LIST_INIT of a head whose elements are still being visited. */
  ghost predicate Chain<P(0)>(h: Link<P>, s: seq<Link<P>>, cut: bool)
    reads h`next, s`next, s`prev
  {
    && h !in s && Distinct(s)
    && (cut || h.next == if s == [] then null else s[0])
    && (s != [] ==> s[0].prev == h && s[|s| - 1].next == null)
    && (forall i, j :: 0 <= i < j < |s| && j == i + 1 ==> s[i].next == s[j] && s[j].prev == s[i])
  }

  /** LIST_INSERT_HEAD */
  method InsertHead<P(0)>(head: Link<P>, elm: Link<P>, ghost s: seq<Link<P>>)
    requires Chain(head, s, false) && elm != head && elm !in s
    modifies head`next, s`prev, elm`next, elm`prev
    ensures Chain(head, [elm] + s, false)
  {
    elm.next := head.next;
    if elm.next != null {
      head.next.prev := elm;
    }
    head.next := elm;
    elm.prev := head;
    ghost var r := [elm] + s;
    assert forall i :: 0 < i < |r| ==> r[i] == s[i - 1];
  }

  /** LIST_INSERT_BEFORE */
  method InsertBefore<P(0)>(listelm: Link<P>, elm: Link<P>, ghost h: Link<P>, ghost s: seq<Link<P>>, ghost i: nat)
    requires Chain(h, s, false) && elm != h && elm !in s && i < |s| && s[i] == listelm
    modifies h`next, s`next, s`prev, elm`next, elm`prev
    ensures Chain(h, s[..i] + [elm] + s[i..], false)
  {
    assert listelm.prev == if i == 0 then h else s[i - 1];
    elm.prev := listelm.prev;
    elm.next := listelm;
    listelm.prev.next := elm;
    listelm.prev := elm;
    ghost var r := s[..i] + [elm] + s[i..];
    assert forall k :: 0 <= k < i ==> r[k] == s[k];
    assert r[i] == elm && forall k :: i < k < |r| ==> r[k] == s[k - 1];
  }

  /** LIST_REMOVE. Removing the first element of a cut list writes the head and so mends the list. */
  method Remove<P(0)>(elm: Link<P>, ghost h: Link<P>, ghost s: seq<Link<P>>, ghost i: nat, ghost cut: bool)
    requires Chain(h, s, cut) && i < |s| && s[i] == elm
    requires cut ==> i == 0
    modifies h`next, s`next, s`prev
    ensures Chain(h, s[..i] + s[i + 1..], false)
  {
    assert elm.prev == if i == 0 then h else s[i - 1];
    assert elm.next == if i + 1 == |s| then null else s[i + 1];
    if elm.next != null {
      elm.next.prev := elm.prev;
    }
    elm.prev.next := elm.next;
    ghost var r := s[..i] + s[i + 1..];
    assert forall k :: 0 <= k < i ==> r[k] == s[k];
    assert forall k :: i <= k < |r| ==> r[k] == s[k + 1];
    assert forall k :: 0 <= k < |r| ==> r[k] != h && r[k] in s;
  }

  // ---------------------------------------------------------------- sequences

  /** The sequence without the element x. */
  function Minus<T(==)>(s: seq<T>, x: T): (r: seq<T>)
    ensures forall y :: y in r ==> y in s && y != x
    ensures forall y :: y in s && y != x ==> y in r
    ensures x !in s ==> r == s
  {
    if s == [] then []
    else if s[0] == x then Minus(s[1..], x)
    else [s[0]] + Minus(s[1..], x)
  }

  /** The sequence with x in front of its last element. */
  function BeforeLast<T>(s: seq<T>, x: T): seq<T> {
    if s == [] then [x] else s[..|s| - 1] + [x] + s[|s| - 1..]
  }

  lemma {:induction false} MinusAt<T>(s: seq<T>, i: nat)
    requires Distinct(s) && i < |s|
    ensures Minus(s, s[i]) == s[..i] + s[i + 1..]
  {
    var x, t := s[i], s[1..];
    assert forall k :: 0 < k < |s| ==> s[k] == t[k - 1];
    if i == 0 {
      assert x !in t;
    } else {
      MinusAt(t, i - 1);
      assert [s[0]] + (t[..i - 1] + t[i..]) == s[..i] + s[i + 1..];
    }
  }

  lemma MinusDistinct<T>(s: seq<T>, x: T)
    requires Distinct(s)
    ensures Distinct(Minus(s, x))
  {
    if x in s {
      var i :| 0 <= i < |s| && s[i] == x;
      MinusAt(s, i);
    }
  }

  lemma {:induction false} MinusLast<T>(s: seq<T>, x: T)
    requires s != [] && s[|s| - 1] != x
    ensures Minus(s, x) != [] && Minus(s, x)[|Minus(s, x)| - 1] == s[|s| - 1]
  {
    if |s| > 1 {
      MinusLast(s[1..], x);
    }
  }

  lemma PushFacts<T>(s: seq<T>, x: T)
    requires Distinct(s) && x !in s
    ensures var r := [x] + s;
            && Distinct(r) && x in r
            && (forall y :: y in r ==> y in s || y == x)
            && (forall y :: y in s ==> y in r)
  {
    var r := [x] + s;
    assert r[0] == x && forall i :: 0 < i < |r| ==> r[i] == s[i - 1];
  }

  lemma BeforeLastFacts<T>(s: seq<T>, x: T)
    requires Distinct(s) && x !in s
    ensures var r := BeforeLast(s, x);
            && Distinct(r) && x in r
            && (forall y :: y in r ==> y in s || y == x)
            && (forall y :: y in s ==> y in r)
            && (s != [] ==> r[|r| - 1] == s[|s| - 1])
  {
    var r := BeforeLast(s, x);
    if s != [] {
      assert r[|s| - 1] == x && r[|s|] == s[|s| - 1];
      assert forall i :: 0 <= i < |s| - 1 ==> r[i] == s[i];
    }
  }

  // ---------------------------------------------------------------- a family of disjoint lists

  /** lists: the elements of every list, by head. at: the list each linked element is on, which is
      where its le_prev leads. */
  datatype Family<P(0)> = Family(lists: map<Link<P>, seq<Link<P>>>, at: map<Link<P>, Link<P>>)

  ghost predicate WellFormed<P(0)>(f: Family<P>) {
    && (forall h, x :: h in f.lists && x in f.lists[h] ==> x in f.at && f.at[x] == h)
    && (forall x :: x in f.at ==> f.at[x] in f.lists && x in f.lists[f.at[x]] && x !in f.lists)
    && (forall h :: h in f.lists ==> Distinct(f.lists[h]))
  }

  function Unlinked<P(0)>(f: Family<P>, x: Link<P>): (r: Family<P>)
    ensures r.lists.Keys == f.lists.Keys
  {
    if x in f.at && f.at[x] in f.lists
    then Family(f.lists[f.at[x] := Minus(f.lists[f.at[x]], x)], f.at - {x})
    else f.(at := f.at - {x})
  }

  function Pushed<P(0)>(f: Family<P>, h: Link<P>, x: Link<P>): (r: Family<P>)
    requires h in f.lists
    ensures r.lists.Keys == f.lists.Keys
  {
    Family(f.lists[h := [x] + f.lists[h]], f.at[x := h])
  }

  function Appended<P(0)>(f: Family<P>, h: Link<P>, x: Link<P>): (r: Family<P>)
    requires h in f.lists
    ensures r.lists.Keys == f.lists.Keys
  {
    Family(f.lists[h := BeforeLast(f.lists[h], x)], f.at[x := h])
  }

  /** LIST_INIT: whatever was on the list is on no list. */
  function Cleared<P(0)>(f: Family<P>, h: Link<P>): (r: Family<P>)
    requires h in f.lists
    ensures r.lists.Keys == f.lists.Keys
  {
    Family(f.lists[h := []], f.at - set x | x in f.lists[h])
  }

  lemma UnlinkedWellFormed<P(0)>(f: Family<P>, x: Link<P>)
    requires WellFormed(f)
    ensures WellFormed(Unlinked(f, x))
  {
    hide Minus, Distinct;
    if x in f.at {
      MinusDistinct(f.lists[f.at[x]], x);
    } else {
      assert f.at - {x} == f.at;
    }
  }

  lemma PushedWellFormed<P(0)>(f: Family<P>, h: Link<P>, x: Link<P>)
    requires WellFormed(f) && h in f.lists && x !in f.at && x !in f.lists
    ensures WellFormed(Pushed(f, h, x))
  {
    hide Distinct;
    PushFacts(f.lists[h], x);
  }

  lemma AppendedWellFormed<P(0)>(f: Family<P>, h: Link<P>, x: Link<P>)
    requires WellFormed(f) && h in f.lists && x !in f.at && x !in f.lists
    ensures WellFormed(Appended(f, h, x))
  {
    hide BeforeLast, Distinct;
    BeforeLastFacts(f.lists[h], x);
  }

  lemma ClearedWellFormed<P(0)>(f: Family<P>, h: Link<P>)
    requires WellFormed(f) && h in f.lists
    ensures WellFormed(Cleared(f, h))
  {
    var r := Cleared(f, h);
    assert forall x :: x in r.at <==> x in f.at && x !in f.lists[h];
    forall g, x | g in r.lists && x in r.lists[g] ensures x in r.at && r.at[x] == g {
      assert g != h && x in f.lists[g] && f.at[x] == g;
      assert x !in f.lists[h];
    }
    forall x | x in r.at ensures r.at[x] in r.lists && x in r.lists[r.at[x]] && x !in r.lists {
      assert f.at[x] != h;
    }
    forall g | g in r.lists ensures Distinct(r.lists[g]) { }
  }

  ghost function Footprint<P(0)>(f: Family<P>): set<Link<P>> {
    f.lists.Keys + f.at.Keys
  }

  ghost predicate Linked<P(0)>(f: Family<P>, cut: Link?<P>)
    requires WellFormed(f)
    reads Footprint(f)`next, Footprint(f)`prev
  {
    forall h :: h in f.lists ==> Chain(h, f.lists[h], h == cut)
  }

  lemma Within<P(0)>(f: Family<P>, h: Link<P>)
    requires WellFormed(f) && h in f.lists
    ensures forall x :: x in f.lists[h] ==> x in f.at
  {
  }

  /** Two lists of a family share no link. */
  lemma Apart<P(0)>(f: Family<P>, g: Link<P>, h: Link<P>)
    requires WellFormed(f) && g in f.lists && h in f.lists && g != h
    ensures g !in f.lists[h] && h !in f.lists[g]
    ensures forall i :: 0 <= i < |f.lists[g]| ==> f.lists[g][i] in f.at && f.lists[g][i] !in f.lists[h]
  {
    forall i | 0 <= i < |f.lists[g]| ensures f.lists[g][i] in f.at && f.lists[g][i] !in f.lists[h] {
      var x := f.lists[g][i];
      assert x in f.lists[g] && f.at[x] == g;
    }
  }

  method ListInsertHead<P(0)>(head: Link<P>, elm: Link<P>, ghost f: Family<P>)
    requires WellFormed(f) && Linked(f, null) && head in f.lists && elm !in f.at && elm !in f.lists
    modifies Footprint(f)`next, Footprint(f)`prev, elm`next, elm`prev
    ensures WellFormed(Pushed(f, head, elm)) && Linked(Pushed(f, head, elm), null)
  {
    hide Chain, WellFormed;
    Within(f, head);
    InsertHead(head, elm, f.lists[head]);
    forall g | g in f.lists && g != head ensures Chain(g, f.lists[g], false) {
      assert old(Chain(g, f.lists[g], false));
      Apart(f, g, head);
    }
    PushedWellFormed(f, head, elm);
  }

  /** LIST_INSERT_BEFORE in front of the last element of a list. */
  method ListInsertBefore<P(0)>(last: Link<P>, elm: Link<P>, ghost f: Family<P>, ghost h: Link<P>)
    requires WellFormed(f) && Linked(f, null) && elm !in f.at && elm !in f.lists
    requires h in f.lists && f.lists[h] != [] && f.lists[h][|f.lists[h]| - 1] == last
    modifies Footprint(f)`next, Footprint(f)`prev, elm`next, elm`prev
    ensures WellFormed(Appended(f, h, elm)) && Linked(Appended(f, h, elm), null)
  {
    hide Chain, WellFormed;
    Within(f, h);
    InsertBefore(last, elm, h, f.lists[h], |f.lists[h]| - 1);
    forall g | g in f.lists && g != h ensures Chain(g, f.lists[g], false) {
      assert old(Chain(g, f.lists[g], false));
      Apart(f, g, h);
    }
    AppendedWellFormed(f, h, elm);
  }

  lemma Position<P(0)>(f: Family<P>, x: Link<P>, front: bool) returns (h: Link<P>, i: nat)
    requires WellFormed(f) && x in f.at
    requires front ==> f.at[x] in f.lists && f.lists[f.at[x]] != [] && f.lists[f.at[x]][0] == x
    ensures h in f.lists && f.at[x] == h
    ensures i < |f.lists[h]| && f.lists[h][i] == x && Minus(f.lists[h], x) == f.lists[h][..i] + f.lists[h][i + 1..]
    ensures front ==> i == 0
  {
    h := f.at[x];
    var s := f.lists[h];
    i :| 0 <= i < |s| && s[i] == x && (front ==> i == 0);
    MinusAt(s, i);
  }

  /** LIST_REMOVE of an element of any list, or of the first element of the cut list. */
  method ListRemove<P(0)>(elm: Link<P>, ghost f: Family<P>, ghost cut: Link?<P>)
    requires WellFormed(f) && Linked(f, cut) && elm in f.at
    requires cut != null ==> cut in f.lists && f.at[elm] == cut && f.lists[cut] != [] && f.lists[cut][0] == elm
    modifies Footprint(f)`next, Footprint(f)`prev
    ensures WellFormed(Unlinked(f, elm)) && Linked(Unlinked(f, elm), null)
  {
    hide Chain, WellFormed, Minus;
    ghost var h, i := Position(f, elm, cut != null);
    Within(f, h);
    Remove(elm, h, f.lists[h], i, h == cut);
    forall g | g in f.lists && g != h ensures Chain(g, f.lists[g], false) {
      assert old(Chain(g, f.lists[g], g == cut));
      Apart(f, g, h);
    }
    UnlinkedWellFormed(f, elm);
  }

  /** LIST_INIT of a head. */
  method ListInit<P(0)>(head: Link<P>, ghost f: Family<P>)
    requires WellFormed(f) && Linked(f, null) && head in f.lists
    modifies head`next
    ensures WellFormed(Cleared(f, head)) && Linked(Cleared(f, head), null)
  {
    hide WellFormed;
    ClearedWellFormed(f, head);
    forall g | g in f.lists && g != head ensures head !in f.lists[g] { Apart(f, g, head); }
    head.next := null;
    forall g | g in f.lists && g != head ensures Chain(g, f.lists[g], false) {
      assert old(Chain(g, f.lists[g], false));
    }
    assert Chain(head, [], false);
  }
}
