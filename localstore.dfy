/**
 * Ext.cf.naming.LocalStore: a thin wrapper around the browser's
 * window.localStorage. The backing store is modelled as the keys in
 * storage index order together with the string stored under each key;
 * `available` says whether the browser offers a store at all.
 */
module LocalStore {

  /** What getItem hands back: null, undefined, or a stored string. */
  datatype Item = NullItem | UndefinedItem | Text(text: string)

  /** window.localStorage as data. */
  datatype Storage = Storage(available: bool, keys: seq<string>, items: map<string, string>)

  predicate Distinct(ks: seq<string>) {
    forall i, j :: 0 <= i < j < |ks| ==> ks[i] != ks[j]
  }

  /**
   * The keys are listed once each, exactly the keys that hold a string are
   * listed, and a store the browser does not offer holds nothing.
   */
  predicate WellFormed(st: Storage) {
    && Distinct(st.keys)
    && (forall k :: k in st.items ==> k in st.keys)
    && (forall k :: k in st.keys ==> k in st.items)
    && (!st.available ==> st.keys == [])
  }

  /** `key.indexOf(prefix) === 0`. */
  predicate StartsWith(key: string, prefix: string) {
    |prefix| <= |key| && key[..|prefix|] == prefix
  }

  // ---------------------------------------------------------------------
  // The store as functions of its state

  /** getItem's decoding of a stored string: the two sentinels, and every other string as it is. */
  function Decode(text: string): Item {
    if text == "null" then NullItem
    else if text == "undefined" then UndefinedItem
    else Text(text)
  }

  /**
   * getItem: undefined when there is no store; localStorage.getItem answers
   * null for a key it does not hold.
   */
  function ItemOf(st: Storage, key: string): Item {
    if !st.available then UndefinedItem
    else if key !in st.items then NullItem
    else Decode(st.items[key])
  }

  /** setItem: an existing key keeps its place, a new key goes last. */
  function WithItem(st: Storage, key: string, value: string): Storage {
    if !st.available then st
    else Storage(true, if key in st.items then st.keys else st.keys + [key], st.items[key := value])
  }

  /** The keys of `ks` other than `key`, in order. */
  function Without(ks: seq<string>, key: string): (r: seq<string>)
    ensures forall x :: x in r <==> x in ks && x != key
  {
    if ks == [] then []
    else Without(ks[..|ks| - 1], key) + (if ks[|ks| - 1] == key then [] else [ks[|ks| - 1]])
  }

  /** removeItem. */
  function WithoutItem(st: Storage, key: string): Storage {
    if !st.available then st
    else Storage(true, Without(st.keys, key), st.items - {key})
  }

  /** listKeys: the keys starting with `prefix`, in storage index order. */
  function PrefixedKeys(ks: seq<string>, prefix: string): (r: seq<string>)
    ensures forall x :: x in r <==> x in ks && StartsWith(x, prefix)
  {
    if ks == [] then []
    else
      PrefixedKeys(ks[..|ks| - 1], prefix)
        + (if StartsWith(ks[|ks| - 1], prefix) then [ks[|ks| - 1]] else [])
  }

  /** The keys not starting with `prefix`, in storage index order. */
  function UnprefixedKeys(ks: seq<string>, prefix: string): (r: seq<string>)
    ensures forall x :: x in r <==> x in ks && !StartsWith(x, prefix)
  {
    if ks == [] then []
    else
      UnprefixedKeys(ks[..|ks| - 1], prefix)
        + (if StartsWith(ks[|ks| - 1], prefix) then [] else [ks[|ks| - 1]])
  }

  /** removeItem applied to each of `ks` in turn. */
  function WithoutKeys(st: Storage, ks: seq<string>): Storage {
    if ks == [] then st
    else WithoutItem(WithoutKeys(st, ks[..|ks| - 1]), ks[|ks| - 1])
  }

  /** The keys of `ks` that are not in `gone`, in order. */
  function Minus(ks: seq<string>, gone: set<string>): (r: seq<string>)
    ensures forall x :: x in r <==> x in ks && x !in gone
  {
    if ks == [] then []
    else Minus(ks[..|ks| - 1], gone) + (if ks[|ks| - 1] in gone then [] else [ks[|ks| - 1]])
  }

  // ---------------------------------------------------------------------
  // What the operations promise

  /** getItem gives back what setItem stored, the two sentinel strings decoded. */
  lemma GetAfterSet(st: Storage, key: string, value: string)
    requires st.available
    ensures ItemOf(WithItem(st, key, value), key) == Decode(value)
    ensures value != "null" && value != "undefined" ==> ItemOf(WithItem(st, key, value), key) == Text(value)
  {
  }

  /** setItem changes what getItem answers for its own key only. */
  lemma SetLeavesOthers(st: Storage, key: string, value: string, other: string)
    requires other != key
    ensures ItemOf(WithItem(st, key, value), other) == ItemOf(st, other)
  {
  }

  /** After removeItem the key is gone (getItem answers null) and every other key reads as before. */
  lemma RemoveMakesAbsent(st: Storage, key: string, other: string)
    requires st.available && other != key
    ensures key !in WithoutItem(st, key).items && key !in WithoutItem(st, key).keys
    ensures ItemOf(WithoutItem(st, key), key) == NullItem
    ensures ItemOf(WithoutItem(st, key), other) == ItemOf(st, other)
  {
  }

  /** Without a backing store getItem answers undefined and the writers do nothing. */
  lemma Unavailable(st: Storage, key: string, value: string)
    requires !st.available
    ensures ItemOf(st, key) == UndefinedItem
    ensures WithItem(st, key, value) == st && WithoutItem(st, key) == st
  {
  }

  lemma {:induction false} WithoutDistinct(ks: seq<string>, key: string)
    requires Distinct(ks)
    ensures Distinct(Without(ks, key))
  {
    if ks != [] {
      var front, last := ks[..|ks| - 1], ks[|ks| - 1];
      assert Distinct(front);
      WithoutDistinct(front, key);
      assert last !in front;
      AppendDistinct(Without(front, key), if last == key then [] else [last]);
    }
  }

  lemma AppendDistinct(s: seq<string>, t: seq<string>)
    requires Distinct(s) && |t| <= 1 && (forall x :: x in t ==> x !in s)
    ensures Distinct(s + t)
  {
    if t != [] {
      assert forall i :: 0 <= i < |s| ==> (s + t)[i] == s[i];
      assert (s + t)[|s|] == t[0] && t[0] in t;
      assert s + t == s + [t[0]];
      forall i, j | 0 <= i < j < |s + t|
        ensures (s + t)[i] != (s + t)[j]
      {
        if j == |s| {
          assert s[i] in s;
        }
      }
    }
  }

  lemma SetWellFormed(st: Storage, key: string, value: string)
    requires WellFormed(st)
    ensures WellFormed(WithItem(st, key, value))
  {
  }

  lemma RemoveWellFormed(st: Storage, key: string)
    requires WellFormed(st)
    ensures WellFormed(WithoutItem(st, key))
  {
    WithoutDistinct(st.keys, key);
  }

  lemma {:induction false} WithoutMinus(ks: seq<string>, gone: set<string>, key: string)
    ensures Without(Minus(ks, gone), key) == Minus(ks, gone + {key})
  {
    if ks != [] {
      var front, last := ks[..|ks| - 1], ks[|ks| - 1];
      WithoutMinus(front, gone, key);
      var m := Minus(front, gone);
      var tail := if last in gone then [] else [last];
      assert Minus(ks, gone) == m + tail;
      if tail == [] {
        assert Without(m + tail, key) == Without(m, key) by { assert m + tail == m; }
      } else {
        assert (m + tail)[..|m + tail| - 1] == m;
      }
    }
  }

  /** The keys named in `ks`. */
  function Named(ks: seq<string>): (r: set<string>)
    ensures forall x :: x in r <==> x in ks
  {
    set x | x in ks
  }

  /** Removing the keys `ks` one by one removes exactly them and keeps the order of the rest. */
  lemma {:induction false} WithoutKeysEffect(st: Storage, ks: seq<string>)
    requires st.available
    ensures WithoutKeys(st, ks) == Storage(true, Minus(st.keys, Named(ks)), st.items - Named(ks))
  {
    if ks == [] {
      assert Named(ks) == {};
      MinusNothing(st.keys);
      assert st.items - {} == st.items;
    } else {
      var front, last := ks[..|ks| - 1], ks[|ks| - 1];
      WithoutKeysEffect(st, front);
      WithoutMinus(st.keys, Named(front), last);
      assert Named(front) + {last} == Named(ks) by {
        assert ks == front + [last];
      }
    }
  }

  lemma {:induction false} MinusNothing(ks: seq<string>)
    ensures Minus(ks, {}) == ks
  {
    if ks != [] {
      MinusNothing(ks[..|ks| - 1]);
      assert ks == ks[..|ks| - 1] + [ks[|ks| - 1]];
    }
  }

  /** Minus keeps exactly the keys UnprefixedKeys keeps when `gone` is the prefixed ones. */
  lemma {:induction false} MinusUnprefixed(ks: seq<string>, gone: set<string>, prefix: string)
    requires forall x :: x in ks ==> (x in gone <==> StartsWith(x, prefix))
    ensures Minus(ks, gone) == UnprefixedKeys(ks, prefix)
  {
    if ks != [] {
      MinusUnprefixed(ks[..|ks| - 1], gone, prefix);
    }
  }

  lemma {:induction false} PrefixedDistinct(ks: seq<string>, prefix: string)
    requires Distinct(ks)
    ensures Distinct(PrefixedKeys(ks, prefix))
  {
    if ks != [] {
      assert Distinct(ks[..|ks| - 1]);
      PrefixedDistinct(ks[..|ks| - 1], prefix);
    }
  }

  /**
   * removeAllKeyPrefixes: once the listed keys are removed no key starting
   * with the prefix is left, the other keys read as before, and they keep
   * their order.
   */
  lemma RemovePrefixedEffect(st: Storage, prefix: string)
    requires WellFormed(st)
    ensures var after := WithoutKeys(st, PrefixedKeys(st.keys, prefix));
      && WellFormed(after)
      && after.available == st.available
      && (forall k :: k in after.keys ==> !StartsWith(k, prefix))
      && (forall k :: StartsWith(k, prefix) ==> k !in after.items)
      && after.keys == UnprefixedKeys(st.keys, prefix)
      && (forall k :: !StartsWith(k, prefix) ==> ItemOf(after, k) == ItemOf(st, k))
  {
    var ks := PrefixedKeys(st.keys, prefix);
    if st.available {
      WithoutKeysEffect(st, ks);
      MinusUnprefixed(st.keys, Named(ks), prefix);
      WithoutKeysWellFormed(st, ks);
    } else {
      WithoutKeysUnavailable(st, ks);
    }
  }

  lemma {:induction false} WithoutKeysWellFormed(st: Storage, ks: seq<string>)
    requires WellFormed(st)
    ensures WellFormed(WithoutKeys(st, ks))
  {
    if ks != [] {
      WithoutKeysWellFormed(st, ks[..|ks| - 1]);
      RemoveWellFormed(WithoutKeys(st, ks[..|ks| - 1]), ks[|ks| - 1]);
    }
  }

  lemma {:induction false} WithoutKeysUnavailable(st: Storage, ks: seq<string>)
    requires !st.available
    ensures WithoutKeys(st, ks) == st
  {
    if ks != [] {
      WithoutKeysUnavailable(st, ks[..|ks| - 1]);
    }
  }

  // ---------------------------------------------------------------------
  // The wrapper object

  class LocalStore {
    /** Whether the browser offers window.localStorage. */
    const available: bool
    /** The stored keys in storage index order (`localStorage.key(i)`). */
    var keys: seq<string>
    var items: map<string, string>

    function State(): Storage
      reads this
    {
      Storage(available, keys, items)
    }

    predicate Valid()
      reads this
    {
      WellFormed(State())
    }

    /** A wrapper over whatever the browser's store already holds. */
    constructor(initial: Storage)
      requires WellFormed(initial)
      ensures Valid() && State() == initial
    {
      available := initial.available;
      keys := initial.keys;
      items := initial.items;
    }

    method GetItem(key: string) returns (r: Item)
      ensures r == ItemOf(State(), key)
    {
      if !available {
        return UndefinedItem;
      }
      if key !in items {
        return NullItem;
      }
      var value := items[key];
      if value == "null" {
        r := NullItem;
      } else if value == "undefined" {
        r := UndefinedItem;
      } else {
        r := Text(value);
      }
    }

    method SetItem(key: string, value: string)
      requires Valid()
      modifies this
      ensures Valid() && State() == WithItem(old(State()), key, value)
    {
      SetWellFormed(State(), key, value);
      if available {
        if key !in items {
          keys := keys + [key];
        }
        items := items[key := value];
      }
    }

    method RemoveItem(key: string)
      requires Valid()
      modifies this
      ensures Valid() && State() == WithoutItem(old(State()), key)
    {
      RemoveWellFormed(State(), key);
      if available {
        keys := Without(keys, key);
        items := items - {key};
      }
    }

    /** The stored keys starting with `prefix`, found by walking the storage index. */
    method ListKeys(prefix: string) returns (found: seq<string>)
      ensures found == PrefixedKeys(keys, prefix)
    {
      found := [];
      var i := 0;
      while i < |keys|
        invariant 0 <= i <= |keys|
        invariant found == PrefixedKeys(keys[..i], prefix)
      {
        var key := keys[i];
        assert keys[..i + 1][..i] == keys[..i];
        if StartsWith(key, prefix) {
          found := found + [key];
        }
        i := i + 1;
      }
      assert keys[..i] == keys;
    }

    /** Removes every key starting with `prefix` and answers the keys it removed. */
    method RemoveAllKeyPrefixes(prefix: string) returns (removed: seq<string>)
      requires Valid()
      modifies this
      ensures removed == PrefixedKeys(old(keys), prefix)
      ensures Valid() && State() == WithoutKeys(old(State()), removed)
    {
      removed := ListKeys(prefix);
      var i := 0;
      while i < |removed|
        invariant 0 <= i <= |removed|
        invariant Valid() && State() == WithoutKeys(old(State()), removed[..i])
      {
        assert removed[..i + 1][..i] == removed[..i];
        RemoveItem(removed[i]);
        i := i + 1;
      }
      assert removed[..i] == removed;
    }
  }
}
