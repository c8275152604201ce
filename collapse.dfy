/** The collapse map a view keeps for its expandable blocks: `true` means
    collapsed. Views read an entry as a JavaScript condition, so a key that is
    absent reads as undefined, which is falsy: expanded. */
module Collapse {

  /** `state[key]` used as a condition. */
  predicate IsCollapsed<K>(state: map<K, bool>, key: K) {
    key in state && state[key]
  }

  /** `{...prev, [key]: !prev[key]}`: a new map in which only `key` changed. */
  function Toggle<K>(state: map<K, bool>, key: K): (r: map<K, bool>)
    ensures r.Keys == state.Keys + {key}
    ensures IsCollapsed(r, key) == !IsCollapsed(state, key)
    ensures key !in state ==> r[key]
    ensures forall k :: k in state && k != key ==> r[k] == state[k]
  {
    state[key := !IsCollapsed(state, key)]
  }

  /** Toggling a key that is present twice gives back the same map. */
  lemma ToggleTwice<K>(state: map<K, bool>, key: K)
    requires key in state
    ensures Toggle(Toggle(state, key), key) == state
  {
    var r := Toggle(Toggle(state, key), key);
    assert r.Keys == state.Keys;
    assert forall k :: k in r ==> r[k] == state[k];
  }

  /** Every key of `keys` present and collapsed, and no other key. */
  function AllCollapsed<K>(keys: set<K>): (r: map<K, bool>)
    ensures r.Keys == keys
    ensures forall k :: k in keys ==> IsCollapsed(r, k)
  {
    map k | k in keys :: true
  }
}
