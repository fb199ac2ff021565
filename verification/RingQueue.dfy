/**
 The circular buffer behind executors and channels.  Memory is modelled cell by cell: a cell is raw
 until an element is constructed in it and raw again once that is destroyed or moved away, so that
 constructing over a live element, or reading a raw cell, would be an error here.
 */
module RingQueue {

  datatype Cell<T> = Raw | Live(value: T)

  /** How far cell k is behind the head of a buffer of `cap` cells. */
  function Offset(cap: nat, head: nat, k: nat): (d: nat)
    requires head <= cap && k < cap
    ensures d < cap
  {
    if k >= head then k - head else k + cap - head
  }

  /** The cell i places behind the head. */
  function At(cap: nat, head: nat, i: nat): (k: nat)
    requires head <= cap && i < cap
    ensures k < cap && Offset(cap, head, k) == i
  {
    if head + i < cap then head + i else head + i - cap
  }

  /** The cells from `head` on, wrapping around, hold exactly the elements of c; all others are raw. */
  ghost predicate Holds<T>(cells: seq<Cell<T>>, head: nat, c: seq<T>) {
    && |c| <= |cells| && head <= |cells|
    && forall k: nat :: k < |cells| ==>
         cells[k] == var d := Offset(|cells|, head, k); if d < |c| then Live(c[d]) else Raw
  }

  lemma HoldsPush<T>(cells: seq<Cell<T>>, head: nat, c: seq<T>, x: T)
    requires Holds(cells, head, c) && |c| < |cells|
    ensures var k := At(|cells|, head, |c|);
            cells[k].Raw? && Holds(cells[k := Live(x)], head, c + [x])
  {}

  lemma HoldsPop<T>(cells: seq<Cell<T>>, head: nat, c: seq<T>)
    requires Holds(cells, head, c) && c != [] && head < |cells|
    ensures cells[head] == Live(c[0]) && Holds(cells[head := Raw], head + 1, c[1..])
  {}

  lemma HoldsNothing<T>(cells: seq<Cell<T>>)
    requires forall k: nat :: k < |cells| ==> cells[k] == Raw
    ensures Holds(cells, 0, [])
  {}

  /** A head one past the end is the same as a head at the beginning. */
  lemma HoldsWrap<T>(cells: seq<Cell<T>>, c: seq<T>)
    requires Holds(cells, |cells|, c)
    ensures Holds(cells, 0, c)
  {}

  class Queue<T> {
    var buffer: array<Cell<T>>
    var head: nat
    var tail: nat
    var size: nat
    ghost var contents: seq<T>

    /** The queue is in order, apart from `size` and `tail`. */
    ghost predicate Holding(c: seq<T>)
      reads this, buffer
    {
      Holds(buffer[..], head, c)
    }

    ghost predicate Valid()
      reads this, buffer
    {
      && Holding(contents)
      && size == |contents|
      && (if buffer.Length == 0 then head == tail == 0 else head < buffer.Length && tail < buffer.Length)
      && tail == Wrap(head + size)
    }

    /** Where a pointer that has run over the end continues. */
    function Wrap(x: nat): nat
      reads this
    {
      if x < buffer.Length then x else if x < 2 * buffer.Length then x - buffer.Length else 0
    }

    constructor (capacity: nat)
      ensures Valid() && contents == [] && buffer.Length == capacity && fresh(buffer)
    {
      buffer := new Cell<T>[capacity](_ => Raw);
      head, tail, size := 0, 0, 0;
      contents := [];
    }

    function Capacity(): nat
      reads this
    {
      buffer.Length
    }

    method Front() returns (x: T)
      requires Valid() && contents != []
      ensures x == contents[0]
    {
      assert Offset(buffer.Length, head, head) == 0;
      x := buffer[head].value;
    }

    /** Constructs the elements of xs in the cells from `at` on, which are the first free ones. */
    method MoveIn(xs: seq<T>, at: nat, ghost c: seq<T>) returns (end: nat)
      requires Holding(c) && |c| + |xs| <= buffer.Length && at + |xs| <= buffer.Length
      requires xs != [] ==> at == Wrap(head + |c|)
      modifies buffer
      ensures Holding(c + xs) && end == at + |xs|
    {
      var i := 0;
      while i < |xs|
        invariant i <= |xs| && Holding(c + xs[..i])
      {
        ghost var cells := buffer[..];
        HoldsPush(cells, head, c + xs[..i], xs[i]);
        assert At(buffer.Length, head, |c| + i) == at + i;
        assert cells[at + i].Raw?;
        buffer[at + i] := Live(xs[i]);
        assert buffer[..] == cells[at + i := Live(xs[i])];
        assert c + xs[..i] + [xs[i]] == c + xs[..i + 1];
        i := i + 1;
      }
      assert xs[..|xs|] == xs;
      end := at + |xs|;
    }

    /** Moves n elements out from the head on, up to the end of the buffer at most. */
    method MoveOut(n: nat, ghost c: seq<T>) returns (out: seq<T>)
      requires Holding(c) && n <= |c| && head + n <= buffer.Length
      modifies this`head, buffer
      ensures Holding(c[n..]) && head == old(head) + n && out == c[..n]
    {
      out := [];
      var i := 0;
      while i < n
        invariant i <= n && head == old(head) + i && Holding(c[i..]) && out == c[..i]
      {
        hide Holds;
        ghost var cells := buffer[..];
        HoldsPop(cells, head, c[i..]);
        assert cells[head] == buffer[head] && c[i..][0] == c[i];
        out := out + [buffer[head].value];
        buffer[head] := Raw;
        assert buffer[..] == cells[head := Raw];
        assert c[i..][1..] == c[i + 1..];
        head := head + 1;
        i := i + 1;
      }
    }

    /** The elements up to the end of the buffer or the tail, and those that wrapped around. */
    function FirstLength(): nat
      reads this
    {
      if size == 0 then 0 else if head < tail then tail - head else if head <= buffer.Length then buffer.Length - head else 0
    }

    /** Moves everything out: first_range(), then second_range(). */
    method Unload() returns (first: seq<T>, second: seq<T>)
      requires Valid()
      modifies this`head, buffer
      ensures first + second == contents
    {
      ghost var c := contents;
      var n := FirstLength();
      assert n <= size && head + n <= buffer.Length;
      first := MoveOut(n, c);
      second := [];
      if size > n {
        assert head == buffer.Length;
        HoldsWrap(buffer[..], c[n..]);
        head := 0;
        second := MoveOut(size - n, c[n..]);
      }
    }

    method Grow(newCapacity: nat)
      requires Valid()
      modifies this, buffer
      ensures Valid() && contents == old(contents) && fresh(buffer)
      ensures buffer.Length == Max(Max(newCapacity, 8), 2 * old(buffer.Length))
    {
      var cap := Max(Max(newCapacity, 8), 2 * buffer.Length);
      assert size < cap;
      var first, second := Unload();
      assert |first| + |second| == |contents| == size;
      hide Holds;
      buffer := new Cell<T>[cap](_ => Raw);
      head := 0;
      HoldsNothing(buffer[..]);
      var dst := MoveIn(first, 0, []);
      assert [] + first == first;
      tail := MoveIn(second, dst, first);
    }

    method PushBack(x: T)
      requires Valid()
      modifies this, buffer
      ensures Valid() && contents == old(contents) + [x]
      ensures old(size) < old(buffer.Length) ==> buffer == old(buffer)
      ensures old(size) == old(buffer.Length) ==> fresh(buffer)
      ensures old(size) == old(buffer.Length) ==> buffer.Length == Max(8, 2 * old(buffer.Length))
    {
      if size == buffer.Length {
        Grow(0);
      }
      var _ := MoveIn([x], tail, contents);
      tail := tail + 1;
      if tail == buffer.Length {
        tail := 0;
      }
      size := size + 1;
      contents := contents + [x];
    }

    method PopFront()
      requires Valid() && contents != []
      modifies this, buffer
      ensures Valid() && contents == old(contents)[1..] && buffer == old(buffer)
    {
      assert Offset(buffer.Length, head, head) == 0;
      var _ := MoveOut(1, contents);
      if head == buffer.Length {
        HoldsWrap(buffer[..], contents[1..]);
        head := 0;
      }
      size := size - 1;
      contents := contents[1..];
    }

    method Append(xs: seq<T>)
      requires Valid()
      modifies this, buffer
      ensures Valid() && contents == old(contents) + xs
      ensures old(size) + |xs| <= old(buffer.Length) ==> buffer == old(buffer)
      ensures old(size) + |xs| > old(buffer.Length) ==>
                fresh(buffer) && buffer.Length == Max(Max(old(size) + |xs|, 8), 2 * old(buffer.Length))
    {
      if size + |xs| > buffer.Length {
        Grow(size + |xs|);
      }
      hide Holds;
      tail := Fill(xs);
      size := size + |xs|;
      contents := contents + xs;
      if tail == buffer.Length {
        tail := 0;
      }
    }

    /** Constructs xs behind the tail, in one piece or around the end of the buffer. */
    method Fill(xs: seq<T>) returns (end: nat)
      requires Valid() && size + |xs| <= buffer.Length
      modifies buffer
      ensures Holding(contents + xs)
      ensures end <= buffer.Length && (if end == buffer.Length then 0 else end) == Wrap(head + size + |xs|)
    {
      hide Holds;
      if tail + |xs| <= buffer.Length {
        end := MoveIn(xs, tail, contents);
      } else {
        var bound := buffer.Length - tail;
        var _ := MoveIn(xs[..bound], tail, contents);
        end := MoveIn(xs[bound..], 0, contents + xs[..bound]);
        assert contents + xs[..bound] + xs[bound..] == contents + xs;
      }
    }

    method PopFrontTo(n: nat) returns (out: seq<T>)
      requires Valid() && n <= size
      modifies this, buffer
      ensures Valid() && out == old(contents)[..n] && contents == old(contents)[n..] && buffer == old(buffer)
    {
      assert size <= buffer.Length;
      hide Holds;
      ghost var c := contents;
      var n1 := Min(n, buffer.Length - head);
      assert Min(n - n1, tail) == n - n1;
      out := MoveOut(n1, c);
      if head == buffer.Length {
        HoldsWrap(buffer[..], c[n1..]);
        head := 0;
      }
      size := size - n1;
      var rest := Min(n - n1, tail);
      if rest > 0 {
        var out2 := MoveOut(rest, c[n1..]);
        out := out + out2;
        size := size - rest;
        assert c[n1..][rest..] == c[n..] && c[..n1] + c[n1..][..rest] == c[..n];
      }
      contents := c[n..];
    }

    /** for_each_item(): f is applied to each element, first to last. */
    method ForEachItem(f: T -> T)
      requires Valid()
      modifies buffer, this`contents
      ensures Valid() && |contents| == |old(contents)|
      ensures forall i :: 0 <= i < |contents| ==> contents[i] == f(old(contents)[i])
    {
      ghost var c := contents;
      var first, i := FirstLength(), 0;
      while i < size
        invariant i <= size == |c| && Holding(Mapped(c, f, i))
      {
        var at := if i < first then head + i else i - first;
        assert at == At(buffer.Length, head, i);
        ghost var cells := buffer[..];
        buffer[at] := Live(f(buffer[at].value));
        HoldsMap(cells, head, c, f, i);
        assert buffer[..] == cells[at := Live(f(c[i]))];
        i := i + 1;
      }
      contents := Mapped(c, f, size);
    }
  }

  /** c with f applied to its first n elements. */
  ghost function Mapped<T>(c: seq<T>, f: T -> T, n: nat): (r: seq<T>)
    ensures |r| == |c| && forall i :: 0 <= i < |c| ==> r[i] == if i < n then f(c[i]) else c[i]
  {
    seq(|c|, i requires 0 <= i < |c| => if i < n then f(c[i]) else c[i])
  }

  lemma HoldsMap<T>(cells: seq<Cell<T>>, head: nat, c: seq<T>, f: T -> T, i: nat)
    requires i < |c| && Holds(cells, head, Mapped(c, f, i))
    ensures var at := At(|cells|, head, i);
            cells[at] == Live(c[i]) && Holds(cells[at := Live(f(c[i]))], head, Mapped(c, f, i + 1))
  {}

  function Max(a: nat, b: nat): nat { if a >= b then a else b }
  function Min(a: nat, b: nat): nat { if a <= b then a else b }
}
