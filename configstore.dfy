/**
 * Ext.cf.naming.ConfigStore: the configs of naming-service objects, kept
 * in a memory map (`memCache`) in front of the browser's local store, under
 * keys derived from the object's class name and id.
 */
module ConfigStore {
  import opened Js
  import opened Json
  import opened LocalStore

  /** Every key the config store writes starts with this. */
  const KeyPrefix: string := "sencha-io-config-"

  /** Both tiers together. */
  datatype Cache = Cache(mem: map<string, Value>, store: Storage)

  // ---------------------------------------------------------------------
  // Store keys

  /**
   * getStoreKey: a key with a truthy `join` member is joined with "-", and
   * anything else is converted with String(). Arrays have `join`; an object
   * whose own `join` member is truthy cannot be called, since values here
   * hold no functions, and raises a TypeError, as does asking null or
   * undefined for `join`.
   */
  function StoreKey(key: Value): (r: Result<string>)
    ensures r.Raised? <==> Nullish(key) || (key.Obj? && Truthy(Get(key.members, "join")))
    ensures r.Raised? ==> r.exception == TypeError
  {
    if Nullish(key) then Raised(TypeError)
    else if key.Arr? then Ok(KeyPrefix + Join(ElementTexts(key.items), "-"))
    else if key.Obj? && Truthy(Get(key.members, "join")) then Raised(TypeError)
    else Ok(KeyPrefix + ToText(key))
  }

  lemma StoreKeyPrefix(key: Value)
    requires !Nullish(key) && !(key.Obj? && Truthy(Get(key.members, "join")))
    ensures StoreKey(key).Ok? && StartsWith(StoreKey(key).value, KeyPrefix)
  {
  }

  /** An object whose `join` member is a number is asked to call it, which raises. */
  lemma StoreKeyJoinMember()
    ensures StoreKey(Obj([Member("join", Num(1))])) == Raised(TypeError)
    ensures StoreKey(Obj([Member("join", Num(0))])) == Ok(KeyPrefix + "[object Object]")
  {
  }

  /** Two different class-and-id pairs that share a store key: derivation is not injective. */
  lemma StoreKeyCollision()
    ensures var a, b := Arr([Str("User"), Str("abc-def")]), Arr([Str("User-abc"), Str("def")]);
      a != b && StoreKey(a) == StoreKey(b) == Ok(KeyPrefix + "User-abc-def")
  {
    var a, b := Arr([Str("User"), Str("abc-def")]), Arr([Str("User-abc"), Str("def")]);
    assert ElementTexts(a.items) == ["User", "abc-def"];
    assert ElementTexts(b.items) == ["User-abc", "def"];
    assert "User" + "-" + "abc-def" == "User-abc-def";
    assert "User-abc" + "-" + "def" == "User-abc-def";
    assert a.items[0] != b.items[0];
  }

  /** A string part of a key array that holds no dash. */
  predicate DashFree(v: Value) {
    v.Str? && '-' !in v.s
  }

  /**
   * The collision needs a dash inside a part: arrays of dash-free strings
   * with at least one element get distinct store keys.
   */
  lemma StoreKeyInjective(a: seq<Value>, b: seq<Value>)
    requires a != [] && b != []
    requires forall i :: 0 <= i < |a| ==> DashFree(a[i])
    requires forall i :: 0 <= i < |b| ==> DashFree(b[i])
    requires StoreKey(Arr(a)) == StoreKey(Arr(b))
    ensures a == b
  {
    var ta, tb := ElementTexts(a), ElementTexts(b);
    assert (KeyPrefix + Join(ta, "-"))[|KeyPrefix|..] == Join(ta, "-");
    assert (KeyPrefix + Join(tb, "-"))[|KeyPrefix|..] == Join(tb, "-");
    JoinInjective(ta, tb);
    assert |a| == |b|;
    forall i | 0 <= i < |a|
      ensures a[i] == b[i]
    {
      assert ta[i] == a[i].s && tb[i] == b[i].s;
    }
  }

  lemma {:induction false} JoinInjective(a: seq<string>, b: seq<string>)
    requires a != [] && b != []
    requires forall i :: 0 <= i < |a| ==> '-' !in a[i]
    requires forall i :: 0 <= i < |b| ==> '-' !in b[i]
    requires Join(a, "-") == Join(b, "-")
    ensures a == b
  {
    var ja, jb := Join(a, "-"), Join(b, "-");
    if |a| == 1 && |b| == 1 {
    } else if |a| == 1 {
      DashAt(b[0], Join(b[1..], "-"));
    } else if |b| == 1 {
      DashAt(a[0], Join(a[1..], "-"));
    } else {
      var ra, rb := Join(a[1..], "-"), Join(b[1..], "-");
      DashAt(a[0], ra);
      DashAt(b[0], rb);
      if |a[0]| < |b[0]| {
      } else if |b[0]| < |a[0]| {
      } else {
        assert a[0] == ja[..|a[0]|] == b[0];
        assert ra == ja[|a[0]| + 1..] == rb;
        JoinInjective(a[1..], b[1..]);
        assert a == [a[0]] + a[1..] && b == [b[0]] + b[1..];
      }
    }
  }

  lemma DashAt(p: string, rest: string)
    ensures var s := p + "-" + rest;
      |s| > |p| && s[..|p|] == p && s[|p|] == '-' && s[|p| + 1..] == rest
      && forall i :: 0 <= i < |p| ==> s[i] == p[i]
  {
  }

  // ---------------------------------------------------------------------
  // The two tiers as functions of their state

  /** What getItem answered, as a JavaScript value. */
  function ItemValue(item: Item): Value {
    match item
    case NullItem => Null
    case UndefinedItem => Undefined
    case Text(s) => Str(s)
  }

  /** getObjectConfig's fallback: a truthy stored string is JSON.parse'd, anything else kept as it is. */
  function Load(item: Item): (r: Result<Value>)
    ensures !Truthy(ItemValue(item)) ==> r == Ok(ItemValue(item))
    ensures r.Raised? ==> r.exception == SyntaxError
  {
    if Truthy(ItemValue(item)) then Parse(item.text) else Ok(ItemValue(item))
  }

  /** The string localStorage keeps for JSON.stringify's answer (undefined becomes "undefined"). */
  function StoredText(config: Value): string {
    match Stringify(config)
    case None => "undefined"
    case Some(t) => t
  }

  /** A memory entry answers a read only when it is truthy. */
  predicate Hit(c: Cache, k: string) {
    k in c.mem && Truthy(c.mem[k])
  }

  /** What getObjectConfig answers for the store key `k`. */
  function Lookup(c: Cache, k: string): Result<Value> {
    if Hit(c, k) then Ok(c.mem[k]) else Load(ItemOf(c.store, k))
  }

  /** The state after getObjectConfig for `k`: a miss that loads backfills memory with what it loaded. */
  function AfterLookup(c: Cache, k: string): Cache {
    if Hit(c, k) then c
    else
      match Load(ItemOf(c.store, k))
      case Raised(_) => c
      case Ok(v) => c.(mem := c.mem[k := v])
  }

  /** setObjectConfig for `k`: memory holds the value itself, the store its JSON text. */
  function Stored(c: Cache, k: string, config: Value): Cache {
    Cache(c.mem[k := config], WithItem(c.store, k, StoredText(config)))
  }

  /** remove for `k`. */
  function Removed(c: Cache, k: string): Cache {
    Cache(c.mem - {k}, WithoutItem(c.store, k))
  }

  /** nukeCache. */
  function Nuked(c: Cache): Cache {
    Cache(map[], WithoutKeys(c.store, PrefixedKeys(c.store.keys, KeyPrefix)))
  }

  // ---------------------------------------------------------------------
  // What the operations promise

  /** A truthy config just set is read back from memory, whatever the store holds. */
  lemma SetThenGet(c: Cache, k: string, config: Value, store: Storage)
    requires Truthy(config)
    ensures Lookup(Stored(c, k, config), k) == Ok(config)
    ensures Lookup(Stored(c, k, config).(store := store), k) == Ok(config)
    ensures AfterLookup(Stored(c, k, config), k) == Stored(c, k, config)
  {
  }

  /** Reading twice answers the same as reading once and changes nothing more. */
  lemma LookupIdempotent(c: Cache, k: string)
    ensures Lookup(AfterLookup(c, k), k) == Lookup(c, k)
    ensures AfterLookup(AfterLookup(c, k), k) == AfterLookup(c, k)
  {
  }

  /**
   * No read changes what any later read answers: the only thing a read can
   * write is a backfill, and a falsy backfill is read past just like a
   * missing entry.
   */
  lemma LookupUnobservable(c: Cache, k: string, other: string)
    ensures Lookup(AfterLookup(c, k), other) == Lookup(c, other)
  {
  }

  /** A read changes memory at its own key only, and never the store. */
  lemma LookupFrame(c: Cache, k: string, other: string)
    requires other != k
    ensures AfterLookup(c, k).store == c.store
    ensures other in AfterLookup(c, k).mem <==> other in c.mem
    ensures other in c.mem ==> AfterLookup(c, k).mem[other] == c.mem[other]
  {
  }

  /** Values whose JSON text reads back as themselves (undefined through the "undefined" sentinel). */
  predicate Storable(config: Value) {
    config == Undefined || Jsonable(config)
  }

  /** JSON text never spells the "undefined" sentinel and spells "null" only for null. */
  lemma StoredTextSentinels(config: Value)
    requires Jsonable(config)
    ensures StoredText(config) != "undefined"
    ensures StoredText(config) == "null" ==> config == Null
  {
    RoundTrip(config);
    var t := StoredText(config);
    assert t[0] != 'u';
    if t == "null" {
      assert Parse("null") == Ok(Null);
    }
  }

  /** What setObjectConfig puts in the local store reads back, through getItem and the fallback, as the config. */
  lemma Persisted(st: Storage, k: string, config: Value)
    requires st.available && Storable(config)
    ensures Load(ItemOf(WithItem(st, k, StoredText(config)), k)) == Ok(config)
  {
    var t := StoredText(config);
    GetAfterSet(st, k, t);
    if config != Undefined {
      StoredTextSentinels(config);
      RoundTrip(config);
      if t != "null" {
        assert ItemOf(WithItem(st, k, t), k) == Text(t);
      }
    }
  }

  /** A later session, starting with empty memory over the same local store, reads back what was set. */
  lemma SetThenReload(c: Cache, k: string, config: Value)
    requires c.store.available && Storable(config)
    ensures Lookup(Cache(map[], Stored(c, k, config).store), k) == Ok(config)
  {
    Persisted(c.store, k, config);
  }

  /** After remove the key reads as a miss from the store (null, or undefined without a store); other keys are untouched. */
  lemma RemoveThenGet(c: Cache, k: string, other: string)
    requires other != k
    ensures k !in Removed(c, k).mem
    ensures Lookup(Removed(c, k), k) == Ok(if c.store.available then Null else Undefined)
    ensures other in Removed(c, k).mem <==> other in c.mem
    ensures other in c.mem ==> Removed(c, k).mem[other] == c.mem[other]
    ensures ItemOf(Removed(c, k).store, other) == ItemOf(c.store, other)
  {
    if c.store.available {
      RemoveMakesAbsent(c.store, k, other);
    }
  }

  /**
   * After nukeCache memory is empty, no store key under the prefix is left,
   * and so every key the config store derives reads as a miss.
   */
  lemma NukeThenGet(c: Cache, k: string)
    requires WellFormed(c.store) && StartsWith(k, KeyPrefix)
    ensures Nuked(c).mem == map[]
    ensures forall x :: x in Nuked(c).store.keys ==> !StartsWith(x, KeyPrefix)
    ensures Lookup(Nuked(c), k) == Ok(if c.store.available then Null else Undefined)
  {
    RemovePrefixedEffect(c.store, KeyPrefix);
  }

  /** nukeCache leaves the store keys of other users of the local store alone. */
  lemma NukeLeavesOthers(c: Cache, k: string)
    requires WellFormed(c.store) && !StartsWith(k, KeyPrefix)
    ensures ItemOf(Nuked(c).store, k) == ItemOf(c.store, k)
    ensures Nuked(c).store.keys == UnprefixedKeys(c.store.keys, KeyPrefix)
  {
    RemovePrefixedEffect(c.store, KeyPrefix);
  }

  // ---------------------------------------------------------------------
  // Coherence of the two tiers

  /** With a store present, every memory entry is what the store would give back. */
  predicate Coherent(c: Cache) {
    c.store.available ==> forall k :: k in c.mem ==> Load(ItemOf(c.store, k)) == Ok(c.mem[k])
  }

  /** In a coherent cache the memory tier never changes an answer: a read answers what the store gives. */
  lemma CoherentTransparent(c: Cache, k: string)
    requires Coherent(c) && c.store.available
    ensures Lookup(c, k) == Load(ItemOf(c.store, k))
  {
  }

  lemma CoherentLookup(c: Cache, k: string)
    requires Coherent(c)
    ensures Coherent(AfterLookup(c, k))
  {
  }

  lemma CoherentStored(c: Cache, k: string, config: Value)
    requires Coherent(c) && Storable(config)
    ensures Coherent(Stored(c, k, config))
  {
    var after := Stored(c, k, config);
    if c.store.available {
      Persisted(c.store, k, config);
      forall x | x in after.mem
        ensures Load(ItemOf(after.store, x)) == Ok(after.mem[x])
      {
        if x != k {
          SetLeavesOthers(c.store, k, StoredText(config), x);
        }
      }
    }
  }

  lemma CoherentRemoved(c: Cache, k: string)
    requires Coherent(c)
    ensures Coherent(Removed(c, k))
  {
    var after := Removed(c, k);
    if c.store.available {
      forall x | x in after.mem
        ensures Load(ItemOf(after.store, x)) == Ok(after.mem[x])
      {
        RemoveMakesAbsent(c.store, k, x);
      }
    }
  }

  lemma CoherentNuked(c: Cache)
    ensures Coherent(Nuked(c))
  {
  }

  /**
   * A config JSON cannot carry (a member whose value is undefined, say)
   * makes the tiers disagree: memory answers the config, a reload answers
   * the object without that member.
   */
  lemma UnstorableIncoherent(c: Cache, k: string)
    requires c.store.available
    ensures var config := Obj([Member("a", Undefined)]);
      Truthy(config) && !Coherent(Stored(c, k, config))
  {
    var config := Obj([Member("a", Undefined)]);
    var after := Stored(c, k, config);
    assert PrintMembers(config.members, true) == PrintMembers([], true) == "";
    assert Print(config) == "{" + "" + "}" == "{}";
    assert Stringify(config) == Some("{}");
    GetAfterSet(c.store, k, "{}");
    assert Parse("{}") == Ok(Obj([]));
    assert Load(ItemOf(after.store, k)) != Ok(after.mem[k]);
  }

  // ---------------------------------------------------------------------
  // The object

  class ConfigStore {
    const localStore: LocalStore
    var memCache: map<string, Value>

    function State(): Cache
      reads this, localStore
    {
      Cache(memCache, localStore.State())
    }

    predicate Valid()
      reads this, localStore
    {
      localStore.Valid()
    }

    /** Empty memory over whatever the browser's local store already holds. */
    constructor(initial: Storage)
      requires WellFormed(initial)
      ensures Valid() && fresh(localStore)
      ensures State() == Cache(map[], initial)
    {
      localStore := new LocalStore(initial);
      memCache := map[];
    }

    method GetObjectConfig(key: Value) returns (r: Result<Value>)
      requires Valid()
      modifies this
      ensures Valid()
      ensures match StoreKey(key)
        case Raised(e) => r == Raised(e) && State() == old(State())
        case Ok(k) => r == Lookup(old(State()), k) && State() == AfterLookup(old(State()), k)
    {
      var sk := StoreKey(key);
      if sk.Raised? {
        return Raised(sk.exception);
      }
      var k := sk.value;
      var config := if k in memCache then memCache[k] else Undefined;
      if !Truthy(config) {
        var item := localStore.GetItem(k);
        var loaded := Load(item);
        if loaded.Raised? {
          return loaded;
        }
        config := loaded.value;
        memCache := memCache[k := config];
      }
      r := Ok(config);
    }

    method SetObjectConfig(key: Value, config: Value) returns (r: Result<()>)
      requires Valid()
      modifies this, localStore
      ensures Valid()
      ensures match StoreKey(key)
        case Raised(e) => r == Raised(e) && State() == old(State())
        case Ok(k) => r == Ok(()) && State() == Stored(old(State()), k, config)
    {
      var sk := StoreKey(key);
      if sk.Raised? {
        return Raised(sk.exception);
      }
      var k := sk.value;
      memCache := memCache[k := config];
      localStore.SetItem(k, StoredText(config));
      r := Ok(());
    }

    method Remove(key: Value) returns (r: Result<()>)
      requires Valid()
      modifies this, localStore
      ensures Valid()
      ensures match StoreKey(key)
        case Raised(e) => r == Raised(e) && State() == old(State())
        case Ok(k) => r == Ok(()) && State() == Removed(old(State()), k)
    {
      var sk := StoreKey(key);
      if sk.Raised? {
        return Raised(sk.exception);
      }
      var k := sk.value;
      memCache := memCache - {k};
      localStore.RemoveItem(k);
      r := Ok(());
    }

    method NukeCache()
      requires Valid()
      modifies this, localStore
      ensures Valid() && State() == Nuked(old(State()))
    {
      memCache := map[];
      var _ := localStore.RemoveAllKeyPrefixes(KeyPrefix);
    }
  }
}
