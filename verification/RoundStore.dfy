/**
 The interface every round store implements, and what a round computes when it is run on its
 own messages alone.
 */
module RoundStore {
  import opened Messages

  /** Adding a message updates the store in place and may also fail: both parts are kept. */
  datatype Added<+S, +E> = Added(store: S, error: Option<E>)

  /** A store implementation. `output` gives back `None` where the source hands the store back. */
  datatype StoreOps<!S, !M, O, E> = StoreOps(
    add: (S, Incoming<M>) -> Added<S, E>,
    wantsMore: S -> bool,
    output: S -> Option<O>)

  /** The store law on the states described by `inv`: `inv` is kept by every call, accepted or
      rejected, and a store that wants no more messages outputs. */
  ghost predicate Lawful<S(!new), M(!new), O, E>(ops: StoreOps<S, M, O, E>, inv: S -> bool) {
    && (forall s, m :: inv(s) ==> inv(ops.add(s, m).store))
    && (forall s :: inv(s) && !ops.wantsMore(s) ==> ops.output(s).Some?)
  }

  /** The store after a sequence of messages, rejected ones included. */
  function AddAll<S, M, O, E>(ops: StoreOps<S, M, O, E>, s: S, ms: seq<Incoming<M>>): S {
    if ms == [] then s else ops.add(AddAll(ops, s, ms[..|ms| - 1]), ms[|ms| - 1]).store
  }

  /** No message of the sequence is rejected. */
  predicate AllAccepted<S, M, O, E>(ops: StoreOps<S, M, O, E>, s: S, ms: seq<Incoming<M>>) {
    ms == [] ||
    (AllAccepted(ops, s, ms[..|ms| - 1]) &&
     ops.add(AddAll(ops, s, ms[..|ms| - 1]), ms[|ms| - 1]).error.None?)
  }

  lemma {:induction false} LawfulAlways<S(!new), M(!new), O, E>(
    ops: StoreOps<S, M, O, E>, inv: S -> bool, s: S, ms: seq<Incoming<M>>)
    requires Lawful(ops, inv) && inv(s)
    ensures inv(AddAll(ops, s, ms))
  {
    if ms != [] {
      LawfulAlways(ops, inv, s, ms[..|ms| - 1]);
    }
  }

  /** The same store with its errors relabelled. */
  function Relabelled<S, M, O, E, E'>(ops: StoreOps<S, M, O, E>, rename: E -> E'): StoreOps<S, M, O, E'> {
    StoreOps(
      (s: S, m: Incoming<M>) =>
        var a := ops.add(s, m);
        Added(a.store, if a.error.Some? then Some(rename(a.error.value)) else None),
      ops.wantsMore,
      ops.output)
  }

  lemma {:induction false} RelabellingIsTransparent<S, M, O, E, E'>(
    ops: StoreOps<S, M, O, E>, rename: E -> E', s: S, ms: seq<Incoming<M>>)
    ensures AddAll(Relabelled(ops, rename), s, ms) == AddAll(ops, s, ms)
    ensures AllAccepted(Relabelled(ops, rename), s, ms) <==> AllAccepted(ops, s, ms)
  {
    if ms != [] {
      RelabellingIsTransparent(ops, rename, s, ms[..|ms| - 1]);
    }
  }

  /** Relabelling errors keeps the store law. */
  lemma RelabellingIsLawful<S(!new), M(!new), O, E, E'>(ops: StoreOps<S, M, O, E>, rename: E -> E', inv: S -> bool)
    requires Lawful(ops, inv)
    ensures Lawful(Relabelled(ops, rename), inv)
  {
    var relabelled := Relabelled(ops, rename);
    forall s, m | inv(s) ensures inv(relabelled.add(s, m).store) {
      assert relabelled.add(s, m).store == ops.add(s, m).store;
    }
  }
}
