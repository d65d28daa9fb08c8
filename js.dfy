/**
 * JavaScript values as the naming layer handles them: the configuration
 * objects kept in the cache, the data bags of naming objects, and the few
 * pieces of JavaScript semantics the cached-object code relies on
 * (truthiness, property access, Array.prototype.join, Ext.Object.merge).
 */
module Js {

  datatype Option<+T> = None | Some(value: T)

  /** The exceptions the modelled code can raise. */
  datatype Exception = TypeError | SyntaxError

  /** A computation that either yields a value or raises a JavaScript exception. */
  datatype Result<+T> = Ok(value: T) | Raised(exception: Exception)

  /**
   * A JavaScript value. Numbers are integers; objects keep their members in
   * insertion order. (JavaScript lists integer-like keys such as "0" first,
   * in ascending numeric order, before the other keys in insertion order;
   * that ordering is not modelled.)
   */
  datatype Value =
    | Undefined
    | Null
    | Bool(b: bool)
    | Num(n: int)
    | Str(s: string)
    | Arr(items: seq<Value>)
    | Obj(members: seq<Member>)

  datatype Member = Member(key: string, value: Value)

  /** JavaScript's `if (v)` test. */
  predicate Truthy(v: Value) {
    match v
    case Undefined => false
    case Null => false
    case Bool(b) => b
    case Num(n) => n != 0
    case Str(s) => s != ""
    case Arr(_) => true
    case Obj(_) => true
  }

  predicate Nullish(v: Value) {
    v == Undefined || v == Null
  }

  // ---------------------------------------------------------------------
  // Object members

  predicate HasKey(ms: seq<Member>, k: string) {
    exists i :: 0 <= i < |ms| && ms[i].key == k
  }

  predicate DistinctKeys(ms: seq<Member>) {
    forall i, j :: 0 <= i < j < |ms| ==> ms[i].key != ms[j].key
  }

  /** `obj[k]` on an object: the member's value, or undefined when there is none. */
  function Get(ms: seq<Member>, k: string): (v: Value)
    ensures !HasKey(ms, k) ==> v == Undefined
  {
    if ms == [] then Undefined
    else if ms[0].key == k then ms[0].value
    else Get(ms[1..], k)
  }

  /**
   * `obj[k] = v`: an existing member is overwritten where it stands, a new
   * key is added at the end.
   */
  function Put(ms: seq<Member>, k: string, v: Value): (r: seq<Member>)
    ensures Get(r, k) == v
    ensures forall k' :: k' != k ==> Get(r, k') == Get(ms, k')
    ensures |r| == if HasKey(ms, k) then |ms| else |ms| + 1
  {
    if ms == [] then [Member(k, v)]
    else
      HasKeySplit(ms, k);
      if ms[0].key == k then [Member(k, v)] + ms[1..] else [ms[0]] + Put(ms[1..], k, v)
  }

  /** A key not yet present is appended, so insertion order is kept (integer-like keys aside). */
  lemma {:induction false} PutFresh(ms: seq<Member>, k: string, v: Value)
    requires !HasKey(ms, k)
    ensures Put(ms, k, v) == ms + [Member(k, v)]
  {
    if ms != [] {
      HasKeySplit(ms, k);
      PutFresh(ms[1..], k, v);
    }
  }

  lemma {:induction false} PutKeys(ms: seq<Member>, k: string, v: Value, k': string)
    ensures HasKey(Put(ms, k, v), k') <==> HasKey(ms, k') || k' == k
  {
    if ms == [] {
      assert Put(ms, k, v)[0].key == k;
    } else {
      var r := Put(ms, k, v);
      HasKeySplit(ms, k');
      HasKeySplit(r, k');
      if ms[0].key != k {
        assert r[1..] == Put(ms[1..], k, v);
        PutKeys(ms[1..], k, v, k');
      } else {
        assert r[1..] == ms[1..];
      }
    }
  }

  lemma {:induction false} PutDistinct(ms: seq<Member>, k: string, v: Value)
    requires DistinctKeys(ms)
    ensures DistinctKeys(Put(ms, k, v))
  {
    if ms != [] {
      var r := Put(ms, k, v);
      if ms[0].key != k {
        PutDistinct(ms[1..], k, v);
        assert r[1..] == Put(ms[1..], k, v);
        forall j | 0 < j < |r| ensures r[0].key != r[j].key {
          PutKeys(ms[1..], k, v, ms[0].key);
          assert r[1..][j - 1].key == r[j].key;
        }
      }
    }
  }

  lemma HasKeySplit(ms: seq<Member>, k: string)
    requires ms != []
    ensures HasKey(ms, k) <==> ms[0].key == k || HasKey(ms[1..], k)
  {
    if HasKey(ms, k) {
      var i :| 0 <= i < |ms| && ms[i].key == k;
      if i > 0 { assert ms[1..][i - 1].key == k; }
    }
    if HasKey(ms[1..], k) {
      var i :| 0 <= i < |ms[1..]| && ms[1..][i].key == k;
      assert ms[i + 1].key == k;
    }
  }

  /**
   * Reading property `k` of any value: objects look the member up, other
   * non-nullish values have no such own property, and reading a property of
   * null or undefined raises a TypeError.
   */
  function Property(v: Value, k: string): (r: Result<Value>)
    ensures r.Raised? <==> Nullish(v)
    ensures r.Raised? ==> r.exception == TypeError
    ensures v.Obj? ==> r == Ok(Get(v.members, k))
  {
    match v
    case Undefined => Raised(TypeError)
    case Null => Raised(TypeError)
    case Obj(ms) => Ok(Get(ms, k))
    case _ => Ok(Undefined)
  }

  /**
   * `v.k = x`: assigning a property of null or undefined raises a TypeError;
   * objects get the member; assigning a property of a primitive is silently
   * ignored. Arrays carry no named properties here, so an assignment to one
   * is ignored as well, although JavaScript would add the property.
   */
  function SetProperty(v: Value, k: string, x: Value): (r: Result<Value>)
    ensures r.Raised? <==> Nullish(v)
    ensures r.Raised? ==> r.exception == TypeError
    ensures v.Obj? ==> r.Ok? && r.value.Obj? && Get(r.value.members, k) == x
    ensures v.Obj? ==> forall k' :: k' != k ==> Get(r.value.members, k') == Get(v.members, k')
    ensures !v.Obj? && r.Ok? ==> r.value == v
  {
    match v
    case Undefined => Raised(TypeError)
    case Null => Raised(TypeError)
    case Obj(ms) => Ok(Obj(Put(ms, k, x)))
    case _ => Ok(v)
  }

  // ---------------------------------------------------------------------
  // Number and string conversion

  function Digit(d: nat): char
    requires d < 10
  {
    "0123456789"[d]
  }

  predicate IsDigit(c: char) {
    '0' <= c <= '9'
  }

  /** Decimal text of a natural number, without leading zeros. */
  function NatText(n: nat): (s: string)
    ensures |s| >= 1
    ensures forall i :: 0 <= i < |s| ==> IsDigit(s[i])
    ensures (s[0] == '0') <==> (n == 0)
  {
    if n < 10 then [Digit(n)] else NatText(n / 10) + [Digit(n % 10)]
  }

  /** `String(n)` for an integer. */
  function IntText(n: int): string {
    if n < 0 then "-" + NatText(-n) else NatText(n)
  }

  /** `parts.join(sep)`. */
  function Join(parts: seq<string>, sep: string): (s: string)
    ensures |parts| == 1 ==> s == parts[0]
  {
    if parts == [] then ""
    else if |parts| == 1 then parts[0]
    else parts[0] + sep + Join(parts[1..], sep)
  }

  /**
   * How Array.prototype.join renders one element: null and undefined become
   * the empty string, arrays are joined with ",", objects become
   * "[object Object]".
   */
  function JoinText(v: Value): string {
    match v
    case Undefined => ""
    case Null => ""
    case Bool(b) => if b then "true" else "false"
    case Num(n) => IntText(n)
    case Str(s) => s
    case Arr(items) => JoinTexts(items)
    case Obj(_) => "[object Object]"
  }

  function JoinTexts(items: seq<Value>): string {
    if items == [] then ""
    else if |items| == 1 then JoinText(items[0])
    else JoinText(items[0]) + "," + JoinTexts(items[1..])
  }

  /** The element texts Array.prototype.join puts between its separators. */
  function ElementTexts(items: seq<Value>): (r: seq<string>)
    ensures |r| == |items|
    ensures forall i :: 0 <= i < |items| ==> r[i] == JoinText(items[i])
  {
    if items == [] then [] else [JoinText(items[0])] + ElementTexts(items[1..])
  }

  /** `String(v)`, which `+` applies to an operand that is not a string. */
  function ToText(v: Value): string {
    match v
    case Undefined => "undefined"
    case Null => "null"
    case _ => JoinText(v)
  }

  // ---------------------------------------------------------------------
  // Ext.Object.merge

  /**
   * Ext.Object.merge(source, object) restricted to an object `data` argument:
   * merging into an object merges member by member; merging a non-empty
   * object into null or undefined raises a TypeError (it assigns a property
   * of null); merging into any other value leaves it as it is. That includes
   * arrays, to which JavaScript would assign the data's keys as properties.
   */
  function MergeData(current: Value, data: seq<Member>): (r: Result<Value>)
    ensures r.Raised? <==> Nullish(current) && data != []
    ensures current.Obj? ==> r.Ok? && r.value.Obj?
    ensures current.Obj? && DistinctKeys(data) ==> MergedTopLevel(current.members, data, r.value.members)
    ensures !current.Obj? && r.Ok? ==> r.value == current
  {
    match current
    case Obj(ms) =>
      (if DistinctKeys(data) then MergeMembersProperties(ms, data); Ok(Obj(MergeMembers(ms, data)))
       else Ok(Obj(MergeMembers(ms, data))))
    case Undefined => if data == [] then Ok(current) else Raised(TypeError)
    case Null => if data == [] then Ok(current) else Raised(TypeError)
    case _ => Ok(current)
  }

  /** Whether `value` counts as a plain object for Ext.Object.merge (`value.constructor === Object`). */
  predicate IsPlainObject(v: Value) {
    v.Obj?
  }

  function Size(v: Value): nat {
    match v
    case Arr(items) => 1 + ItemsSize(items)
    case Obj(ms) => 1 + MembersSize(ms)
    case _ => 1
  }

  function ItemsSize(items: seq<Value>): nat {
    if items == [] then 0 else Size(items[0]) + ItemsSize(items[1..])
  }

  function MembersSize(ms: seq<Member>): nat {
    if ms == [] then 0 else 1 + Size(ms[0].value) + MembersSize(ms[1..])
  }

  /**
   * Member-by-member merge, in the order of `data`: a plain-object value is
   * merged recursively into an object already under that key (otherwise it
   * replaces it); every other value replaces the member.
   */
  function MergeMembers(source: seq<Member>, data: seq<Member>): seq<Member>
    decreases MembersSize(data), 1
  {
    if data == [] then source
    else MergeMembers(MergeStep(source, data), data[1..])
  }

  /** Merging the first member of `data` into `source`. */
  function MergeStep(source: seq<Member>, data: seq<Member>): seq<Member>
    requires data != []
    decreases MembersSize(data), 0
  {
    var m := data[0];
    var existing := Get(source, m.key);
    assert MembersSize(data) == 1 + Size(m.value) + MembersSize(data[1..]);
    if IsPlainObject(m.value) && IsPlainObject(existing)
    then Put(source, m.key, Obj(MergeMembers(existing.members, m.value.members)))
    else Put(source, m.key, m.value)
  }

  /**
   * The top-level effect of a merge: keys outside `data` keep their value,
   * keys whose value in `data` is not a plain object take that value, and
   * the resulting keys are those of both.
   */
  ghost predicate MergedTopLevel(source: seq<Member>, data: seq<Member>, merged: seq<Member>) {
    && (forall k :: HasKey(merged, k) <==> HasKey(source, k) || HasKey(data, k))
    && (forall k :: !HasKey(data, k) ==> Get(merged, k) == Get(source, k))
    && (forall k :: HasKey(data, k) && !IsPlainObject(Get(data, k)) ==> Get(merged, k) == Get(data, k))
    && (forall k :: HasKey(data, k) && IsPlainObject(Get(data, k)) ==> IsPlainObject(Get(merged, k)))
    && (DistinctKeys(source) ==> DistinctKeys(merged))
  }

  lemma MergeStepFacts(source: seq<Member>, data: seq<Member>)
    requires data != []
    ensures forall k :: HasKey(MergeStep(source, data), k) <==> HasKey(source, k) || k == data[0].key
    ensures DistinctKeys(source) ==> DistinctKeys(MergeStep(source, data))
  {
    var m := data[0];
    var existing := Get(source, m.key);
    var x := if IsPlainObject(m.value) && IsPlainObject(existing)
      then Obj(MergeMembers(existing.members, m.value.members)) else m.value;
    assert MergeStep(source, data) == Put(source, m.key, x);
    forall k ensures HasKey(MergeStep(source, data), k) <==> HasKey(source, k) || k == m.key {
      PutKeys(source, m.key, x, k);
    }
    if DistinctKeys(source) {
      PutDistinct(source, m.key, x);
    }
  }

  lemma {:induction false} MergeKeys(source: seq<Member>, data: seq<Member>, k: string)
    ensures HasKey(MergeMembers(source, data), k) <==> HasKey(source, k) || HasKey(data, k)
    decreases |data|
  {
    if data != [] {
      HasKeySplit(data, k);
      MergeStepFacts(source, data);
      MergeKeys(MergeStep(source, data), data[1..], k);
    }
  }

  lemma {:induction false} MergeUntouched(source: seq<Member>, data: seq<Member>, k: string)
    requires !HasKey(data, k)
    ensures Get(MergeMembers(source, data), k) == Get(source, k)
    decreases |data|
  {
    if data != [] {
      HasKeySplit(data, k);
      MergeUntouched(MergeStep(source, data), data[1..], k);
    }
  }

  lemma DistinctTail(ms: seq<Member>)
    requires ms != [] && DistinctKeys(ms)
    ensures DistinctKeys(ms[1..]) && !HasKey(ms[1..], ms[0].key)
  {
  }

  lemma {:induction false} MergeTakes(source: seq<Member>, data: seq<Member>, k: string)
    requires DistinctKeys(data) && HasKey(data, k)
    ensures !IsPlainObject(Get(data, k)) ==> Get(MergeMembers(source, data), k) == Get(data, k)
    ensures IsPlainObject(Get(data, k)) ==> IsPlainObject(Get(MergeMembers(source, data), k))
    decreases |data|
  {
    HasKeySplit(data, k);
    DistinctTail(data);
    var next := MergeStep(source, data);
    if data[0].key == k {
      MergeUntouched(next, data[1..], k);
    } else {
      MergeTakes(next, data[1..], k);
    }
  }

  lemma {:induction false} MergeDistinct(source: seq<Member>, data: seq<Member>)
    requires DistinctKeys(source)
    ensures DistinctKeys(MergeMembers(source, data))
    decreases |data|
  {
    if data != [] {
      MergeStepFacts(source, data);
      MergeDistinct(MergeStep(source, data), data[1..]);
    }
  }

  /** What a member-by-member merge does at the top level. */
  lemma MergeMembersProperties(source: seq<Member>, data: seq<Member>)
    requires DistinctKeys(data)
    ensures MergedTopLevel(source, data, MergeMembers(source, data))
  {
    var merged := MergeMembers(source, data);
    forall k ensures HasKey(merged, k) <==> HasKey(source, k) || HasKey(data, k) {
      MergeKeys(source, data, k);
    }
    forall k | !HasKey(data, k) ensures Get(merged, k) == Get(source, k) {
      MergeUntouched(source, data, k);
    }
    forall k | HasKey(data, k)
      ensures !IsPlainObject(Get(data, k)) ==> Get(merged, k) == Get(data, k)
      ensures IsPlainObject(Get(data, k)) ==> IsPlainObject(Get(merged, k))
    {
      MergeTakes(source, data, k);
    }
    if DistinctKeys(source) {
      MergeDistinct(source, data);
    }
  }
  /**
   * Ext.Object.merge merges a plain object into a plain object already
   * under the same key instead of replacing it: merging `{b: {y: 2}}` into
   * `{a: 1, b: {x: 1}}` keeps `b.x`.
   */
  lemma NestedMerge()
    ensures MergeData(Obj([Member("a", Num(1)), Member("b", Obj([Member("x", Num(1))]))]),
                      [Member("b", Obj([Member("y", Num(2))]))])
         == Ok(Obj([Member("a", Num(1)), Member("b", Obj([Member("x", Num(1)), Member("y", Num(2))]))]))
  {
    var inner := [Member("x", Num(1))];
    var merged := [Member("x", Num(1)), Member("y", Num(2))];
    var source := [Member("a", Num(1)), Member("b", Obj(inner))];
    var data := [Member("b", Obj([Member("y", Num(2))]))];
    assert MergeMembers(inner, [Member("y", Num(2))]) == merged by {
      SingleMerge(inner, Member("y", Num(2)));
      PutAppends(inner, "y", Num(2));
    }
    assert MergeMembers(source, data) == [Member("a", Num(1)), Member("b", Obj(merged))] by {
      SingleMerge(source, data[0]);
      GetSecond(source[0], "b", Obj(inner));
      MergeStepPlain(source, data);
      PutSecond(source[0], "b", Obj(inner), Obj(merged));
    }
  }

  lemma MergeStepPlain(source: seq<Member>, data: seq<Member>)
    requires data != [] && IsPlainObject(data[0].value) && IsPlainObject(Get(source, data[0].key))
    ensures MergeStep(source, data)
         == Put(source, data[0].key, Obj(MergeMembers(Get(source, data[0].key).members, data[0].value.members)))
  {
  }

  lemma GetSecond(first: Member, k: string, v: Value)
    requires first.key != k
    ensures Get([first, Member(k, v)], k) == v
  {
    assert [first, Member(k, v)][1..] == [Member(k, v)];
  }

  lemma SingleMerge(source: seq<Member>, m: Member)
    ensures MergeMembers(source, [m]) == MergeStep(source, [m])
  {
    assert [m][1..] == [];
  }

  lemma PutAppends(ms: seq<Member>, k: string, v: Value)
    requires |ms| == 1 && ms[0].key != k
    ensures Put(ms, k, v) == ms + [Member(k, v)]
  {
    assert ms[1..] == [];
  }

  lemma PutSecond(first: Member, k: string, previous: Value, v: Value)
    requires first.key != k
    ensures Put([first, Member(k, previous)], k, v) == [first, Member(k, v)]
  {
    assert [first, Member(k, previous)][1..] == [Member(k, previous)];
  }
}
