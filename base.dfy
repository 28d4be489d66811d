/** Kotlin and Arrow building blocks that the mappers and the view model rely on:
    nullable values, `Either`, `List.map` and the value view of an insertion-ordered `Map`. */
module Base {

  /** A Kotlin nullable value `T?`: `None` is `null`. */
  datatype Option<+T> = None | Some(value: T)

  /** Arrow's `Either<L, R>`: by convention `Left` carries the error, `Right` the value. */
  datatype Either<+L, +R> = Left(left: L) | Right(right: R)

  /** Kotlin's `List.map`: one output per input element, in the same order. */
  function MapList<T, S>(xs: seq<T>, f: T -> S): (ys: seq<S>)
    ensures |ys| == |xs|
    ensures forall i :: 0 <= i < |xs| ==> ys[i] == f(xs[i])
  {
    if xs == [] then [] else [f(xs[0])] + MapList(xs[1..], f)
  }

  /** `Map.values` of an insertion-ordered map (the `LinkedHashMap` a JSON
      decoder builds), given as its list of entries in iteration order. */
  function Values<K, V>(entries: seq<(K, V)>): (vs: seq<V>)
    ensures |vs| == |entries|
    ensures forall i :: 0 <= i < |entries| ==> vs[i] == entries[i].1
  {
    if entries == [] then [] else [entries[0].1] + Values(entries[1..])
  }

  lemma MapListAppend<T, S>(xs: seq<T>, ys: seq<T>, f: T -> S)
    ensures MapList(xs + ys, f) == MapList(xs, f) + MapList(ys, f)
  {
  }
}
