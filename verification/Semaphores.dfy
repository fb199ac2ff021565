/**
 A semaphore: a counter, and the awaiters parked until they are handed a permit.  Awaiters are
 numbered.  Waking one is the last thing that release() does, so whatever the woken task does at
 once is a later call here.
 */
module Semaphores {
  import opened Collections

  /** Those of a sequence that are not in a set. */
  function Except(xs: seq<nat>, out: set<nat>): seq<nat> {
    if xs == [] then [] else (if xs[0] in out then [] else [xs[0]]) + Except(xs[1..], out)
  }

  lemma {:induction false} ExceptOneMore(xs: seq<nat>, out: set<nat>, x: nat)
    ensures Except(xs, out + {x}) == Without(Except(xs, out), x)
  {
    if xs != [] {
      ExceptOneMore(xs[1..], out, x);
      WithoutConcat([xs[0]], Except(xs[1..], out), x);
      assert Without([xs[0]], x) == (if xs[0] == x then [] else [xs[0]]) + Without([], x);
      assert [] + Except(xs[1..], out) == Except(xs[1..], out);
    }
  }

  lemma {:induction false} ExceptAppend(xs: seq<nat>, out: set<nat>, x: nat)
    requires x !in out
    ensures Except(xs + [x], out) == Except(xs, out) + [x]
  {
    if xs == [] {
      assert Except([x], out) == [x] + Except([], out);
    } else {
      assert (xs + [x])[0] == xs[0] && (xs + [x])[1..] == xs[1..] + [x];
      ExceptAppend(xs[1..], out, x);
    }
  }

  /** Somebody new joins the queue. */
  lemma QueueBack(handed: seq<nat>, parked: seq<nat>, x: nat)
    requires Distinct(handed + parked) && x !in handed && x !in parked
    ensures Distinct(handed + (parked + [x])) && handed + parked + [x] == handed + (parked + [x])
  {
  }

  /** The first of the queue moves over. */
  lemma QueueFront(handed: seq<nat>, parked: seq<nat>)
    requires Distinct(handed + parked) && parked != []
    ensures (handed + [parked[0]]) + parked[1..] == handed + parked
    ensures forall y :: y in parked[1..] <==> y in parked && y != parked[0]
    ensures parked[0] !in handed && forall y :: y in handed + [parked[0]] <==> y in handed || y == parked[0]
  {
    var all, n := handed + parked, |handed|;
    assert all[n] == parked[0] && forall j :: 0 <= j < |parked| ==> all[n + j] == parked[j];
    assert forall j :: 0 <= j < n ==> all[j] == handed[j];
    assert parked == [parked[0]] + parked[1..];
  }

  datatype State =
    | Fresh     // without a permit, not parked
    | Parked
    | Borrowed  // took a permit when it was constructed
    | Granted   // was given a permit later and has not been resumed yet
    | Done      // its permit has gone to the task, or it was cancelled or destroyed
  {
    predicate Holds() { Borrowed? || Granted? }
  }

  class Semaphore {
    var value: nat
    var parked: seq<nat>         // oldest first
    var state: map<nat, State>   // every awaiter there has been
    var taken: nat               // permits that tasks have got
    var released: nat            // calls of release() by tasks
    const initial: nat
    ghost var holders: set<nat>  // awaiters that have a permit
    ghost var parks: seq<nat>    // awaiters in the order in which they parked
    ghost var handed: seq<nat>   // awaiters in the order in which release() handed them a permit
    ghost var quit: set<nat>     // awaiters that left the queue by themselves

    /** No permit is lost or made up. */
    ghost predicate Conserved()
      reads this
    {
      && (forall x :: x in holders <==> x in state && state[x].Holds())
      && value + |holders| + taken == initial + released
    }

    /** Permits are handed out in the order of parking, among those that did not leave. */
    ghost predicate InOrder()
      reads this
    {
      && (forall x :: x in parked <==> x in state && state[x].Parked?)
      && (forall x :: x in handed ==> x in state && (state[x].Granted? || state[x].Done?))
      && (forall x :: x in quit ==> x in state && state[x].Done?)
      && Distinct(handed + parked) && Except(parks, quit) == handed + parked
    }

    ghost predicate Valid()
      reads this
    {
      Conserved() && InOrder() && (parked != [] ==> value == 0)
    }

    constructor (initial: nat)
      ensures Valid() && this.initial == value == initial && parked == [] && taken == released == 0
      ensures state == map[] && parks == handed == [] && quit == {}
    {
      value, this.initial, taken, released := initial, initial, 0, 0;
      parked, state, holders, parks, handed, quit := [], map[], {}, [], [], {};
    }

    predicate Is(x: nat, s: State)
      reads this
    {
      x in state && state[x] == s
    }

    /** tryAcquire(), without saying yet who has the permit. */
    method Decrement() returns (ok: bool)
      modifies this`value
      ensures ok <==> old(value) > 0
      ensures value == old(value) - if ok then 1 else 0
    {
      ok := value != 0;
      if ok {
        value := value - 1;
      }
    }

    /** tryAcquire() by a task: never ahead of a parked awaiter. */
    method TryAcquire() returns (ok: bool)
      requires Valid()
      modifies this`value, this`taken
      ensures Valid() && (ok ==> parked == [])
      ensures ok <==> old(value) > 0
      ensures taken == old(taken) + if ok then 1 else 0
    {
      ok := Decrement();
      if ok {
        taken := taken + 1;
      }
    }

    /** The constructor of an awaiter. */
    method NewAwaiter(x: nat)
      requires Valid() && x !in state
      modifies this`value, this`state, this`holders
      ensures Valid() && state == old(state)[x := if old(value) > 0 then Borrowed else Fresh]
      ensures value == if old(value) > 0 then old(value) - 1 else 0
    {
      hide Distinct, Except;
      var ok := Decrement();
      state := state[x := if ok then Borrowed else Fresh];
      if ok {
        holders := holders + {x};
      }
    }

    /** await_suspend() of an awaiter that is not ready. */
    method Suspend(x: nat) returns (waits: bool)
      requires Valid() && Is(x, Fresh)
      modifies this
      ensures Valid() && state == old(state)[x := if waits then Parked else Granted]
      ensures waits <==> old(value) == 0
      ensures parked == old(parked) + if waits then [x] else []
      ensures taken == old(taken) && released == old(released)
    {
      QueueBack(handed, parked, x);
      ExceptAppend(parks, quit, x);
      hide Distinct, Except;
      var ok := Decrement();
      waits := !ok;
      state := state[x := if waits then Parked else Granted];
      if ok {
        holders := holders + {x};
      } else {
        parks, parked := parks + [x], parked + [x];
      }
    }

    /** The queue without an awaiter that has not been handed a permit. */
    lemma QueueWithout(x: nat)
      requires InOrder() && x in parked
      ensures Except(parks, quit + {x}) == handed + Without(parked, x) && Distinct(handed + Without(parked, x))
      ensures forall y :: y in Without(parked, x) <==> y in parked && y != x
    {
      ExceptOneMore(parks, quit, x);
      WithoutConcat(handed, parked, x);
      assert x !in handed;
      WithoutMembers(handed, x);
      WithoutMembers(parked, x);
      WithoutMembers(handed + parked, x);
    }

    /** await_cancel() of a parked awaiter. */
    method Cancel(x: nat)
      requires Valid() && Is(x, Parked)
      modifies this`parked, this`state, this`quit
      ensures Valid() && parked == Without(old(parked), x) && state == old(state)[x := Done]
    {
      QueueWithout(x);
      hide Distinct, Except, Without;
      parked := Without(parked, x);
      state := state[x := Done];
      quit := quit + {x};
    }

    /** await_resume(): the task gets the permit. */
    method Resume(x: nat)
      requires Valid() && (Is(x, Borrowed) || Is(x, Granted))
      modifies this`state, this`holders, this`taken
      ensures Valid() && taken == old(taken) + 1 && state == old(state)[x := Done]
    {
      hide Distinct, Except;
      assert x in holders;
      state := state[x := Done];
      holders := holders - {x};
      taken := taken + 1;
    }

    /** What release() does with the permit it is given. */
    method PassOn()
      requires (forall x :: x in holders <==> x in state && state[x].Holds()) && InOrder() && (parked != [] ==> value == 0)
      requires value + |holders| + taken + 1 == initial + released
      modifies this`value, this`parked, this`state, this`handed, this`holders
      ensures Valid()
      ensures if old(parked) == [] then value == old(value) + 1 && state == old(state) && parked == []
              else value == old(value) && parked == old(parked)[1..] && state == old(state)[old(parked)[0] := Granted]
    {
      if parked == [] {
        value := value + 1;
      } else {
        hide Distinct, Except;
        var x := parked[0];
        QueueFront(handed, parked);
        handed, parked := handed + [x], parked[1..];
        state := state[x := Granted];
        holders := holders + {x};
      }
    }

    /** release(), called by a task or by the destructor of a lock. */
    method Release()
      requires Valid()
      modifies this`value, this`parked, this`state, this`handed, this`holders, this`released
      ensures Valid() && released == old(released) + 1
      ensures if old(parked) == [] then value == old(value) + 1 && state == old(state) && parked == []
              else value == old(value) && parked == old(parked)[1..] && state == old(state)[old(parked)[0] := Granted]
    {
      released := released + 1;
      PassOn();
    }

    /** An awaiter that is not parked is no longer there; its permit, if any, is left to be passed on. */
    method GiveUp(x: nat)
      requires Valid() && x in state && !state[x].Granted? && !state[x].Parked?
      modifies this`state, this`holders
      ensures (forall y :: y in holders <==> y in state && state[y].Holds()) && InOrder()
      ensures |holders| == |old(holders)| - if old(Is(x, Borrowed)) then 1 else 0
      ensures !old(Is(x, Borrowed)) ==> Valid() && Without(parked, x) == parked
      ensures state == old(state)[x := Done]
    {
      WithoutMembers(parked, x);
      hide Distinct, Except, Without;
      state := state[x := Done];
      holders := holders - {x};
    }

    /** The destructor of an awaiter, wherever it is in its life except between being given a permit and
        being resumed. A borrowed permit goes to the awaiter that has been parked for longest. */
    method Destroy(x: nat)
      requires Valid() && x in state && !state[x].Granted?
      modifies this
      ensures Valid() && taken == old(taken) && released == old(released)
      ensures !old(Is(x, Borrowed)) ==> value == old(value) && state == old(state)[x := Done] && parked == Without(old(parked), x)
      ensures old(Is(x, Borrowed)) ==>
                if old(parked) == [] then value == old(value) + 1 && state == old(state)[x := Done]
                else parked == old(parked)[1..] && state == old(state)[x := Done][old(parked)[0] := Granted]
    {
      hide Distinct, Except, Without, InOrder;
      if Is(x, Parked) {
        Cancel(x);
      } else {
        var borrowed := Is(x, Borrowed);
        GiveUp(x);
        if borrowed {
          PassOn();
        }
      }
    }

    /** Any sequence of calls, by any number of tasks, on a new semaphore: tasks never have more permits
        than the initial ones and those released, nobody is parked while there is a permit, and permits
        are handed out in the order of parking. */
    method AnyRun(steps: nat)
      requires Valid() && value == initial && state == map[] && released == 0
      modifies this
      ensures taken <= initial + released && value <= initial + released
      ensures value + |set x | x in state && state[x].Holds()| + taken == initial + released
      ensures parked != [] ==> value == 0
      ensures handed + parked == Except(parks, quit)
    {
      hide Distinct, Except, Without;
      var left, next := steps, 0;
      while left > 0
        invariant Valid() && forall x :: x in state ==> x < next
      {
        assert parked != [] ==> parked[0] in state;
        var choice: int, id: int := *, *;
        var x: nat := if id < 0 then -id else id;
        if choice == 0 {
          NewAwaiter(next);
          next := next + 1;
        } else if choice == 1 && Is(x, Fresh) {
          var _ := Suspend(x);
        } else if choice == 2 && Is(x, Parked) {
          Cancel(x);
        } else if choice == 3 && (Is(x, Borrowed) || Is(x, Granted)) {
          Resume(x);
        } else if choice == 4 && x in state && state[x] != Granted {
          Destroy(x);
        } else if choice == 5 {
          Release();
        } else {
          var _ := TryAcquire();
        }
        left := left - 1;
      }
      assert holders == set x | x in state && state[x].Holds();
    }
  }
}
