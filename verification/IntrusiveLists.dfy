/**
 Intrusive circular lists.  A list is a sentinel that is itself an item; the links of a list and
 its items form a ring.  What the pointers mean is given by a World: for each list, the sequence
 of its items, and the items that are in no list.
 */
module IntrusiveLists {
  import opened Collections

  /** All items there are, the items of each list, and the list that each item is in, if any. */
  datatype World = World(items: set<Item>, lists: map<Item, seq<Item>>, owner: map<Item, Item>)

  /** Each item is in at most one list, once; a list is in no list. */
  ghost predicate Separate(w: World) {
    match w
    case World(items, lists, owner) =>
      && lists.Keys <= items && owner.Keys <= items && lists.Keys !! owner.Keys
      && (forall x :: x in owner ==> owner[x] in lists && x in lists[owner[x]])
      && (forall h :: h in lists ==> Distinct(lists[h]))
      && (forall h, i :: h in lists && 0 <= i < |lists[h]| ==> lists[h][i] in owner && owner[lists[h][i]] == h)
  }

  ghost predicate Loose(w: World, x: Item) {
    x in w.items && x !in w.lists && x !in w.owner
  }

  ghost predicate Joined(a: Item, b: Item)
    reads a`next_, b`prev_
  {
    a.next_ == b && b.prev_ == a
  }

  /** The ring of links through a sentinel and a sequence of items. */
  ghost predicate Ring(h: Item, xs: seq<Item>)
    reads h`next_, h`prev_, (set x | x in xs)`next_, (set x | x in xs)`prev_
  {
    if xs == [] then Joined(h, h)
    else
      && Joined(h, xs[0]) && Joined(xs[|xs| - 1], h)
      && (forall i, j :: 0 <= i && j == i + 1 < |xs| ==> Joined(xs[i], xs[j]))
  }

  ghost predicate Consistent(w: World)
    reads w.items`next_, w.items`prev_
  {
    match w
    case World(items, lists, owner) =>
      && Separate(w)
      && (forall h :: h in lists ==> Ring(h, lists[h]))
      && (forall x :: x in items && Loose(w, x) ==> x.next_ == null && x.prev_ == null)
  }

  // ----- what the operations do to a world

  function Unlinked(w: World, x: Item): World {
    if x !in w.owner || w.owner[x] !in w.lists then w
    else World(w.items, w.lists[w.owner[x] := Without(w.lists[w.owner[x]], x)], w.owner - {x})
  }

  function Pushed(w: World, h: Item, x: Item): World
    requires h in w.lists
  {
    var u := Unlinked(w, x);
    World(w.items, u.lists[h := u.lists[h] + [x]], u.owner[x := h])
  }

  function Cleared(w: World, h: Item): World
    requires h in w.lists
  {
    World(w.items, w.lists[h := []], map x | x in w.owner && w.owner[x] != h :: w.owner[x])
  }

  /** A list that does not exist any more. */
  function Disposed(w: World, h: Item): World
    requires h in w.lists
  {
    var c := Cleared(w, h);
    World(w.items - {h}, c.lists - {h}, c.owner)
  }

  /** The items of one list move to a new one. */
  function Moved(w: World, from: Item, to: Item): World
    requires from in w.lists
  {
    World(w.items + {to}, w.lists[from := []][to := w.lists[from]],
          map x | x in w.owner :: if w.owner[x] == from then to else w.owner[x])
  }

  lemma UnlinkedSeparate(w: World, x: Item)
    requires Separate(w) && x in w.items && x !in w.lists
    ensures Separate(Unlinked(w, x)) && Loose(Unlinked(w, x), x)
    ensures var u := Unlinked(w, x); u.items == w.items && u.lists.Keys == w.lists.Keys && u.owner == w.owner - {x}
    ensures x !in w.owner ==> Unlinked(w, x) == w
  {
    if x in w.owner {
      var h := w.owner[x];
      var xs := w.lists[h];
      var k :| 0 <= k < |xs| && xs[k] == x;
      WithoutAt(xs, k);
      CutSeparate(w, h, k);
    }
  }

  /** Unlinking takes an item out of every list, and changes nothing else in any. */
  lemma UnlinkedEverywhere(w: World, x: Item, h: Item)
    requires Separate(w) && h in w.lists
    ensures h in Unlinked(w, x).lists && Unlinked(w, x).lists[h] == Without(w.lists[h], x)
  {
    if !(x in w.owner && w.owner[x] == h) {
      WithoutAbsent(w.lists[h], x);
    }
  }

  lemma CutSeparate(w: World, h: Item, k: nat)
    requires Separate(w) && h in w.lists && k < |w.lists[h]|
    ensures var xs := w.lists[h];
            Separate(World(w.items, w.lists[h := xs[..k] + xs[k + 1..]], w.owner - {xs[k]}))
  {
    var xs := w.lists[h];
    var ys := xs[..k] + xs[k + 1..];
    assert Distinct(ys) && forall i :: 0 <= i < |ys| ==> ys[i] == xs[if i < k then i else i + 1] && ys[i] != xs[k];
    hide Distinct;
    forall y | y in w.owner && w.owner[y] == h && y != xs[k] ensures y in ys {
      var i :| 0 <= i < |xs| && xs[i] == y;
      assert ys[if i < k then i else i - 1] == y;
    }
  }

  /** Two rings have nothing in common. */
  lemma RingsApart(w: World, h: Item, g: Item)
    requires Separate(w) && h in w.lists && g in w.lists && g != h
    ensures ({g} + set x | x in w.lists[g]) !! ({h} + set x | x in w.lists[h])
  {
  }

  /** unlink() tells an item in a list from a loose one by its links. */
  lemma LinkedOrLoose(w: World, x: Item)
    requires Consistent(w) && x in w.items && x !in w.lists
    ensures x in w.owner <==> x.next_ != null && x.prev_ != null
  {
    if x in w.owner {
      var xs := w.lists[w.owner[x]];
      var k :| 0 <= k < |xs| && xs[k] == x;
      x.HasLinks(w.owner[x], xs, k);
    } else {
      assert Loose(w, x);
    }
  }

  lemma PushedSeparate(w: World, h: Item, x: Item)
    requires Separate(w) && h in w.lists && Loose(w, x)
    ensures Separate(Pushed(w, h, x)) && Pushed(w, h, x) == World(w.items, w.lists[h := w.lists[h] + [x]], w.owner[x := h])
  {
    var xs, v := w.lists[h], Pushed(w, h, x);
    assert forall y :: y in v.owner && v.owner[y] == h ==> y in v.lists[h];
  }

  /** Pushing takes an item out of every list, makes it the last of one, and changes nothing else in any. */
  lemma PushedEverywhere(w: World, h: Item, x: Item, g: Item)
    requires Separate(w) && h in w.lists && g in w.lists && x in w.items && x !in w.lists
    ensures g in Pushed(w, h, x).lists && Pushed(w, h, x).lists[g] == Without(w.lists[g], x) + if g == h then [x] else []
  {
    UnlinkedSeparate(w, x);
    UnlinkedEverywhere(w, x, g);
    UnlinkedEverywhere(w, x, h);
  }

  lemma ClearedStep(w: World, h: Item)
    requires Separate(w) && h in w.lists && w.lists[h] != []
    ensures var u := Unlinked(w, w.lists[h][0]);
            u.items == w.items && h in u.lists && u.lists[h] == w.lists[h][1..] && Cleared(u, h) == Cleared(w, h)
  {
    var x := w.lists[h][0];
    WithoutAt(w.lists[h], 0);
    assert w.owner[x] == h;
  }

  lemma ClearedEmpty(w: World, h: Item)
    requires Separate(w) && h in w.lists && w.lists[h] == []
    ensures Cleared(w, h) == w
  {
  }

  lemma DisposedSeparate(w: World, h: Item)
    requires Separate(w) && h in w.lists
    ensures Separate(Disposed(w, h)) && Cleared(w, h).lists[h] == [] && h in Cleared(w, h).lists && Cleared(w, h).items == w.items
    ensures Disposed(w, h) == World(w.items - {h}, Cleared(w, h).lists - {h}, Cleared(w, h).owner)
  {
  }

  lemma MovedSeparate(w: World, from: Item, to: Item)
    requires Separate(w) && from in w.lists && to !in w.items
    ensures Separate(Moved(w, from, to))
    ensures forall x :: x in Moved(w, from, to).items && Loose(Moved(w, from, to), x) ==> x in w.items && Loose(w, x)
  {
  }

  class Item {
    var next_: Item?
    var prev_: Item?

    constructor ()
      ensures next_ == null && prev_ == null
    {
      next_, prev_ := null, null;
    }

    /** An empty list. */
    constructor List()
      ensures Ring(this, [])
    {
      next_, prev_ := this, this;
    }

    // ----- items

    /** An item in a ring has links. */
    lemma HasLinks(h: Item, xs: seq<Item>, k: nat)
      requires Ring(h, xs) && k < |xs| && xs[k] == this
      ensures next_ == (if k == |xs| - 1 then h else xs[k + 1])
      ensures prev_ == (if k == 0 then h else xs[k - 1])
    {
      assert 0 < k ==> Joined(xs[k - 1], xs[k]);
      assert k < |xs| - 1 ==> Joined(xs[k], xs[k + 1]);
    }

    /** The first half of unlink(), inside the one ring that matters. */
    method Bypass(ghost h: Item, ghost xs: seq<Item>, ghost k: nat)
      requires Ring(h, xs) && Distinct(xs) && h !in xs && k < |xs| && xs[k] == this
      modifies h`next_, h`prev_, (set x | x in xs)`next_, (set x | x in xs)`prev_
      ensures Ring(h, xs[..k] + xs[k + 1..]) && next_ == null && prev_ == null
    {
      HasLinks(h, xs, k);
      next_.prev_ := prev_;
      prev_.next_ := next_;
      next_, prev_ := null, null;
    }

    /** The same, seen from the whole world. */
    method Detach(ghost w: World)
      requires Consistent(w) && this in w.owner && next_ != null && prev_ != null
      modifies w.items`next_, w.items`prev_
      ensures Consistent(Unlinked(w, this))
    {
      hide Ring, Joined, Distinct, Without;
      UnlinkedSeparate(w, this);
      ghost var h, u := w.owner[this], Unlinked(w, this);
      ghost var xs := w.lists[h];
      ghost var k :| 0 <= k < |xs| && xs[k] == this;
      WithoutAt(xs, k);
      forall g | g in w.lists && g != h ensures ({g} + set x | x in w.lists[g]) !! ({h} + set x | x in xs) { RingsApart(w, h, g); }
      assert forall x :: x in w.items && Loose(w, x) ==> x != h && x !in xs;
      Bypass(h, xs, k);
      assert forall g :: g in w.lists && g != h ==> Ring(g, w.lists[g]);
      assert forall x :: x in u.items && Loose(u, x) ==> x == this || Loose(w, x);
    }

    /** Unlinks the item from whichever list it is in. */
    method Unlink(ghost w: World)
      requires Consistent(w) && this in w.items && this !in w.lists
      modifies w.items`next_, w.items`prev_
      ensures Consistent(Unlinked(w, this)) && Loose(Unlinked(w, this), this)
    {
      LinkedOrLoose(w, this);
      if next_ != null && prev_ != null {
        Detach(w);
      } else {
        assert forall g :: g in w.lists ==> Ring(g, w.lists[g]) && this !in w.lists[g];
        next_, prev_ := null, null;
        assert forall g :: g in w.lists ==> Ring(g, w.lists[g]);
        hide Ring;
      }
    }

    // ----- lists

    method Empty(ghost w: World) returns (empty: bool)
      requires Consistent(w) && this in w.lists
      ensures empty <==> w.lists[this] == []
    {
      empty := next_ == this;
      assert w.lists[this] != [] ==> w.lists[this][0] in w.owner;
    }

    method ContainsOneItem(ghost w: World) returns (one: bool)
      requires Consistent(w) && this in w.lists
      ensures one <==> |w.lists[this]| == 1
    {
      ghost var xs := w.lists[this];
      assert forall i :: 0 <= i < |xs| ==> xs[i] in w.owner;
      assert |xs| > 1 ==> Joined(xs[0], xs[1]) && xs[0] != xs[1];
      one := next_ != this && next_.next_ == this;
    }

    method Front(ghost w: World) returns (x: Item)
      requires Consistent(w) && this in w.lists && w.lists[this] != []
      ensures x == w.lists[this][0] && x in w.owner && w.owner[x] == this
    {
      x := next_;
    }

    method PopFront(ghost w: World)
      requires Consistent(w) && this in w.lists && w.lists[this] != []
      modifies w.items`next_, w.items`prev_
      ensures Consistent(Unlinked(w, w.lists[this][0])) && Ring(this, w.lists[this][1..])
    {
      var x := Front(w);
      ClearedStep(w, this);
      hide Ring, Distinct;
      x.Unlink(w);
      ghost var u := Unlinked(w, x);
      assert Ring(this, u.lists[this]);
    }

    /** The second half of push_back(), inside the one ring that matters. */
    method LinkLast(item: Item, ghost xs: seq<Item>)
      requires Ring(this, xs) && this !in xs && item !in xs && item != this && Distinct(xs)
      modifies this`next_, this`prev_, item`next_, item`prev_, (set x | x in xs)`next_
      ensures Ring(this, xs + [item])
    {
      item.next_ := this;
      item.prev_ := this.prev_;
      this.prev_.next_ := item;
      this.prev_ := item;
    }

    /** The same, seen from the whole world. */
    method Attach(item: Item, ghost w: World)
      requires Consistent(w) && this in w.lists && Loose(w, item)
      modifies w.items`next_, w.items`prev_
      ensures Consistent(Pushed(w, this, item))
    {
      hide Ring, Joined, Distinct, Without;
      ghost var xs := w.lists[this];
      PushedSeparate(w, this, item);
      forall g | g in w.lists && g != this ensures ({g} + set x | x in w.lists[g]) !! ({this, item} + set x | x in xs) { RingsApart(w, this, g); }
      assert forall x :: x in w.items && Loose(w, x) ==> x != this && x !in xs;
      LinkLast(item, xs);
      assert forall g :: g in w.lists && g != this ==> Ring(g, w.lists[g]);
    }

    /** Appends an item, which leaves the list it was in. */
    method PushBack(item: Item, ghost w: World)
      requires Consistent(w) && this in w.lists && item in w.items && item !in w.lists
      modifies w.items`next_, w.items`prev_
      ensures Consistent(Pushed(w, this, item)) && Ring(this, Without(w.lists[this], item) + [item])
    {
      PushedEverywhere(w, this, item, this);
      item.Unlink(w);
      hide Ring, Without, Distinct;
      Attach(item, Unlinked(w, item));
      ghost var v := Pushed(w, this, item);
      assert Ring(this, v.lists[this]);
    }

    /** The move constructor, inside the one ring that matters. */
    method TakeOver(rhs: Item, ghost xs: seq<Item>)
      requires Ring(rhs, xs) && rhs !in xs && Distinct(xs) && this != rhs && this !in xs
      modifies this`next_, this`prev_, rhs`next_, rhs`prev_, (set x | x in xs)`next_, (set x | x in xs)`prev_
      ensures Ring(this, xs) && Ring(rhs, [])
    {
      if rhs.next_ == rhs {
        next_, prev_ := this, this;
      } else {
        next_, rhs.next_ := rhs.next_, rhs;
        prev_, rhs.prev_ := rhs.prev_, rhs;
        next_.prev_ := this;
        prev_.next_ := this;
      }
    }

    /** The move constructor: the new list takes over the items of the other. */
    constructor Move(rhs: Item, ghost w: World)
      requires Consistent(w) && rhs in w.lists
      modifies w.items`next_, w.items`prev_
      ensures Consistent(Moved(w, rhs, this)) && this !in w.items && Ring(this, w.lists[rhs]) && Ring(rhs, [])
    {
      hide Ring, Joined, Distinct, Without;
      ghost var xs := w.lists[rhs];
      forall g | g in w.lists && g != rhs ensures ({g} + set x | x in w.lists[g]) !! ({rhs} + set x | x in xs) { RingsApart(w, rhs, g); }
      assert forall x :: x in w.items && Loose(w, x) ==> x != rhs && x !in xs;
      new;
      MovedSeparate(w, rhs, this);
      ghost var v := Moved(w, rhs, this);
      assert forall x :: x in v.items && Loose(v, x) ==> x != rhs && x !in xs && x != this && x.next_ == null && x.prev_ == null;
      hide Separate, Loose;
      TakeOver(rhs, xs);
      assert forall g :: g in w.lists && g != rhs ==> Ring(g, w.lists[g]);
    }

    /** Unlinks every item. */
    method Clear(ghost w: World)
      requires Consistent(w) && this in w.lists
      modifies w.items`next_, w.items`prev_
      ensures Consistent(Cleared(w, this)) && Ring(this, [])
    {
      hide Ring, Separate, Unlinked, Cleared;
      ghost var v := w;
      var empty := Empty(v);
      while !empty
        invariant Consistent(v) && v.items == w.items && this in v.lists && Cleared(v, this) == Cleared(w, this)
        invariant empty <==> v.lists[this] == []
        decreases |v.lists[this]|
      {
        ClearedStep(v, this);
        ghost var x := v.lists[this][0];
        PopFront(v);
        v := Unlinked(v, x);
        empty := Empty(v);
      }
      ClearedEmpty(v, this);
      assert Ring(this, v.lists[this]);
    }

    /** The destructor of a list. */
    method Dispose(ghost w: World)
      requires Consistent(w) && this in w.lists
      modifies w.items`next_, w.items`prev_
      ensures Consistent(Disposed(w, this))
    {
      Clear(w);
      DisposedSeparate(w, this);
      hide *;
      Vanish(Cleared(w, this), Disposed(w, this));
    }

    /** An empty list unlinks itself. */
    method Vanish(ghost w: World, ghost v: World)
      requires Consistent(w) && this in w.lists && w.lists[this] == []
      requires Separate(v) && v == World(w.items - {this}, w.lists - {this}, w.owner)
      modifies this`next_, this`prev_
      ensures Consistent(v)
    {
      assert next_ == this && prev_ == this by { assert Ring(this, []); }
      assert Consistent(v);
      hide Ring, Joined, Distinct, Separate;
      next_.prev_ := prev_;
      prev_.next_ := next_;
      next_, prev_ := null, null;
    }
  }
}
