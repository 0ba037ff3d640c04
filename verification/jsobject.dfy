/**
 * An ordinary JavaScript object with string-valued own properties, kept in
 * property order: assigning an existing key replaces its value in place, a
 * new key is appended. The key `__proto__` is the exception: assigning it
 * runs the setter inherited from `Object.prototype`, which ignores a string,
 * so no property is made. `Object.assign(target, source)` assigns the
 * source's properties one by one, in order.
 */
module JsObject {
  import opened Wrappers

  datatype Prop = Prop(key: string, value: string)

  /** The keys in property order. */
  function Keys(props: seq<Prop>): (ks: seq<string>)
    ensures |ks| == |props|
    ensures forall i :: 0 <= i < |props| ==> ks[i] == props[i].key
  {
    if props == [] then [] else [props[0].key] + Keys(props[1..])
  }

  /** No key occurs twice, as in every JavaScript object. */
  predicate DistinctKeys(props: seq<Prop>)
  {
    forall i, j :: 0 <= i < j < |props| ==> props[i].key != props[j].key
  }

  /** A JavaScript object literal or dictionary. */
  type Object = props: seq<Prop> | DistinctKeys(props) witness []

  /** The key whose assignment reaches the inherited `__proto__` setter. */
  const ProtoKey: string := "__proto__"

  /** The own property `key` of `o`, `None` when `o` has no such own property. */
  function Get(props: seq<Prop>, key: string): (r: Option<string>)
    ensures r.Some? <==> key in Keys(props)
    ensures r.Some? ==> Prop(key, r.value) in props
  {
    if props == [] then None
    else if props[0].key == key then Some(props[0].value)
    else Get(props[1..], key)
  }

  /** `o[key] = value` for a string `value`. */
  function SetProp(props: seq<Prop>, key: string, value: string): seq<Prop>
  {
    if key == ProtoKey then props else SetOwn(props, key, value)
  }

  /** Assigning an ordinary key: replace its value in place, or append it. */
  function SetOwn(props: seq<Prop>, key: string, value: string): seq<Prop>
  {
    if props == [] then [Prop(key, value)]
    else if props[0].key == key then [Prop(key, value)] + props[1..]
    else [props[0]] + SetOwn(props[1..], key, value)
  }

  /** `Object.assign(target, source)`, on the property lists of both. */
  function AssignAll(target: seq<Prop>, source: seq<Prop>): (r: seq<Prop>)
    decreases |source|
  {
    if source == [] then target
    else AssignAll(SetProp(target, source[0].key, source[0].value), source[1..])
  }

  /**
   * After `o[key] = value`, `o[key]` is `value` and every other key reads as
   * before; assigning `__proto__` leaves the own properties as they were.
   */
  lemma GetSetProp(props: seq<Prop>, key: string, value: string, k: string)
    ensures Get(SetProp(props, key, value), k) == if k == key && key != ProtoKey then Some(value) else Get(props, k)
  {
    if key != ProtoKey {
      GetSetOwn(props, key, value, k);
    }
  }

  lemma {:induction false} GetSetOwn(props: seq<Prop>, key: string, value: string, k: string)
    ensures Get(SetOwn(props, key, value), k) == if k == key then Some(value) else Get(props, k)
  {
    if props != [] && props[0].key != key {
      GetSetOwn(props[1..], key, value, k);
    }
  }

  /**
   * `o[key] = value` keeps the order of the keys, appending `key` when it is
   * new; `__proto__` is never added.
   */
  lemma KeysSetProp(props: seq<Prop>, key: string, value: string)
    ensures Keys(SetProp(props, key, value))
      == if key == ProtoKey || key in Keys(props) then Keys(props) else Keys(props) + [key]
  {
    if key != ProtoKey {
      KeysSetOwn(props, key, value);
    }
  }

  lemma {:induction false} KeysSetOwn(props: seq<Prop>, key: string, value: string)
    ensures Keys(SetOwn(props, key, value)) == if key in Keys(props) then Keys(props) else Keys(props) + [key]
  {
    if props != [] && props[0].key != key {
      KeysSetOwn(props[1..], key, value);
      assert Keys(props) == [props[0].key] + Keys(props[1..]);
    }
  }

  /** `o[key] = value` never creates a second property of the same name. */
  lemma DistinctSetProp(props: seq<Prop>, key: string, value: string)
    requires DistinctKeys(props)
    ensures DistinctKeys(SetProp(props, key, value))
  {
    var r := SetProp(props, key, value);
    KeysSetProp(props, key, value);
    var ks, rs := Keys(props), Keys(r);
    assert |r| == |rs|;
    forall i, j | 0 <= i < j < |r| ensures r[i].key != r[j].key {
      assert rs[i] == r[i].key && rs[j] == r[j].key;
      if j < |props| {
        assert rs[i] == ks[i] && rs[j] == ks[j];
      } else {
        assert rs[j] == key && rs[i] == ks[i];
      }
    }
  }

  /**
   * After `Object.assign(target, source)`, a key of `source` reads as in
   * `source`, any other key, and `__proto__`, as in `target`.
   */
  lemma {:induction false} GetAssignAll(target: seq<Prop>, source: Object, k: string)
    ensures Get(AssignAll(target, source), k)
      == if k in Keys(source) && k != ProtoKey then Get(source, k) else Get(target, k)
    decreases |source|
  {
    if source != [] {
      var rest: Object := source[1..];
      GetAssignAll(SetProp(target, source[0].key, source[0].value), rest, k);
      GetSetProp(target, source[0].key, source[0].value, k);
      assert Keys(source) == [source[0].key] + Keys(rest);
      if k in Keys(rest) {
        assert k != source[0].key;
      }
    }
  }

  /**
   * `Object.assign(target, source)` keeps the keys of `target` in their places,
   * in front, and the keys it ends with are those of `target` and those of
   * `source` other than `__proto__`.
   */
  lemma {:induction false} KeysAssignAll(target: seq<Prop>, source: seq<Prop>)
    ensures Keys(target) <= Keys(AssignAll(target, source))
    ensures forall k ::
              k in Keys(AssignAll(target, source)) <==> k in Keys(target) || (k in Keys(source) && k != ProtoKey)
    ensures DistinctKeys(target) ==> DistinctKeys(AssignAll(target, source))
    decreases |source|
  {
    if source != [] {
      var key := source[0].key;
      var t1 := SetProp(target, key, source[0].value);
      KeysSetProp(target, key, source[0].value);
      if DistinctKeys(target) {
        DistinctSetProp(target, key, source[0].value);
      }
      KeysAssignAll(t1, source[1..]);
      assert Keys(source) == [key] + Keys(source[1..]);
    }
  }

  /** The object `headers` that `init` fills in place. */
  class Dict {
    var props: seq<Prop>

    ghost predicate Valid()
      reads this
    {
      DistinctKeys(props)
    }

    /** `{}` */
    constructor ()
      ensures Valid() && props == []
    {
      props := [];
    }

    /** `this[key] = value` */
    method Put(key: string, value: string)
      requires Valid()
      modifies this
      ensures Valid() && props == SetProp(old(props), key, value)
    {
      DistinctSetProp(props, key, value);
      props := SetProp(props, key, value);
    }

    /** `Object.assign(this, source)`: the properties of `source` are assigned in order. */
    method Assign(source: Object)
      requires Valid()
      modifies this
      ensures Valid() && props == AssignAll(old(props), source)
    {
      var i := 0;
      while i < |source|
        invariant 0 <= i <= |source|
        invariant Valid()
        invariant AssignAll(props, source[i..]) == AssignAll(old(props), source)
      {
        assert source[i..][0] == source[i] && source[i..][1..] == source[i + 1..];
        Put(source[i].key, source[i].value);
        i := i + 1;
      }
      assert source[i..] == [];
    }
  }
}
