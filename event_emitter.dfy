/**
 * The listener list that a Node.js `EventEmitter` keeps for one event name.
 * `on(name, f)` appends `f`; `off(name, f)` removes the most recently added
 * occurrence of that very function object and does nothing when `f` was never
 * added. Listener values stand for function objects, so two closures written
 * alike are still different values.
 */
module EventEmitter {

  /** The list after `on(name, h)`. */
  function On<H>(listeners: seq<H>, h: H): (r: seq<H>)
    ensures |r| == |listeners| + 1 && r[..|listeners|] == listeners && r[|listeners|] == h
  {
    listeners + [h]
  }

  /** The list after `off(name, h)`: the last occurrence of `h` is dropped. */
  function Off<H(==)>(listeners: seq<H>, h: H): (r: seq<H>)
    ensures |r| == if h in listeners then |listeners| - 1 else |listeners|
    decreases |listeners|
  {
    if listeners == [] then []
    else if listeners[|listeners| - 1] == h then listeners[..|listeners| - 1]
    else Off(listeners[..|listeners| - 1], h) + [listeners[|listeners| - 1]]
  }

  /** Removing a listener that was never added changes nothing. */
  lemma {:induction false} OffUnregistered<H>(listeners: seq<H>, h: H)
    requires h !in listeners
    ensures Off(listeners, h) == listeners
  {
    if listeners != [] {
      var init := listeners[..|listeners| - 1];
      assert forall x :: x in init ==> x in listeners;
      OffUnregistered(init, h);
      assert listeners == init + [listeners[|listeners| - 1]];
    }
  }

  /** Removing a registered listener drops exactly one occurrence of it and keeps the rest. */
  lemma {:induction false} OffRegistered<H>(listeners: seq<H>, h: H)
    requires h in listeners
    ensures multiset(Off(listeners, h)) == multiset(listeners) - multiset{h}
  {
    var n := |listeners|;
    var init := listeners[..n - 1];
    assert listeners == init + [listeners[n - 1]];
    if listeners[n - 1] != h {
      assert h in init;
      OffRegistered(init, h);
    }
  }

  /**
   * Removing a registered listener drops its most recent occurrence: position
   * `i` holds `h`, no later position does, and the rest keep their order.
   */
  lemma {:induction false} OffRemovesLast<H>(listeners: seq<H>, h: H) returns (i: nat)
    requires h in listeners
    ensures i < |listeners| && listeners[i] == h && h !in listeners[i + 1..]
    ensures Off(listeners, h) == listeners[..i] + listeners[i + 1..]
    decreases |listeners|
  {
    var n := |listeners| - 1;
    var init := listeners[..n];
    if listeners[n] == h {
      i := n;
      assert listeners[n + 1..] == [];
    } else {
      assert h in init;
      i := OffRemovesLast(init, h);
      assert listeners[i + 1..] == init[i + 1..] + [listeners[n]];
      assert listeners[..i] == init[..i];
    }
  }

  /** `off` undoes the `on` that added the same function. */
  lemma OffAfterOn<H>(listeners: seq<H>, h: H)
    ensures Off(On(listeners, h), h) == listeners
  {
    assert On(listeners, h)[..|listeners|] == listeners;
  }
}
