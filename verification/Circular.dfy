/** Circular buffers: the values a fixed number of slots holds, from a head on. */
module Circular {
  /** The slot i places after head. */
  function At(length: nat, head: nat, i: nat): nat
    requires head < length && i <= length
  {
    if head + i < length then head + i else head + i - length
  }

  /** The sum modulo the length, as it is computed. */
  lemma AtIsModulo(length: nat, head: nat, i: nat)
    requires head < length && i <= length
    ensures At(length, head, i) == (head + i) % length < length
  {
  }

  /** What a ring of slots holds: n values from head on. */
  function Held<T>(slots: seq<T>, head: nat, n: nat): (r: seq<T>)
    requires head < |slots| && n <= |slots|
  {
    seq(n, i requires 0 <= i < n => slots[At(|slots|, head, i)])
  }

  lemma Put<T>(slots: seq<T>, head: nat, n: nat, frame: T)
    requires head < |slots| && n < |slots|
    ensures Held(slots[At(|slots|, head, n) := frame], head, n + 1) == Held(slots, head, n) + [frame]
  {
  }

  lemma Take<T>(slots: seq<T>, head: nat, n: nat)
    requires head < |slots| && 0 < n <= |slots|
    ensures Held(slots, head, n)[0] == slots[head]
    ensures Held(slots, At(|slots|, head, 1), n - 1) == Held(slots, head, n)[1..]
  {
  }

  lemma Overwrite<T>(slots: seq<T>, head: nat, frame: T)
    requires head < |slots|
    ensures Held(slots[head := frame], At(|slots|, head, 1), |slots|) == Held(slots, head, |slots|)[1..] + [frame]
  {
  }
}
