/** Dictionaries with an enumeration order. A roblox-ts `Map` compiles to a
    Luau table, and `forEach` over it to `pairs`, which promises no order;
    such a table is modelled as a Dafny `map` plus a sequence that lists
    each of its keys once: one of the orders an enumeration may take. */
module Collections {

  /** `order` lists the keys of `m` once each. */
  ghost predicate OrderedKeys<K(!new), V>(order: seq<K>, m: map<K, V>) {
    (forall i, j :: 0 <= i < j < |order| ==> order[i] != order[j]) &&
    (forall k :: k in m <==> k in order)
  }
}
