/** Style properties and the style map that the heading's finalize step
    fills in: a list of (key, value) properties where setting a key that is
    already present overwrites that property in place, and setting a new key
    appends it. */
module Styles {
  import opened Wrappers

  /** An exact length relative to the font size, in hundredths of an em
      (`Em::new(1.4)` is `Em(140)`). */
  datatype Em = Em(hundredths: int)

  /** A font weight on the usual 100..900 scale. */
  datatype FontWeight = FontWeight(weight: int)

  const BOLD: FontWeight := FontWeight(700)

  /** Vertical spacing; a strong one is not collapsed with its neighbours. */
  datatype VSpace = VSpace(amount: Em, strong: bool)

  /** The style keys the heading sets; `Other` stands for every other
      property key of the library. */
  datatype Key = TextSize | TextWeight | BlockAbove | BlockBelow | Other(name: string)

  datatype StyleValue = Size(size: Em) | Weight(weight: FontWeight) | Spacing(space: VSpace)

  datatype Property = Property(key: Key, value: StyleValue)

  /** The contents of a style map, in insertion order. */
  type Properties = seq<Property>

  function KeysOf(props: Properties): (keys: set<Key>)
    ensures forall i :: 0 <= i < |props| ==> props[i].key in keys
    ensures forall k :: k in keys ==> exists i :: 0 <= i < |props| && props[i].key == k
  {
    if props == [] then {} else {props[0].key} + KeysOf(props[1..])
  }

  /** No key occurs twice. */
  predicate UniqueKeys(props: Properties)
  {
    forall i, j :: 0 <= i < j < |props| ==> props[i].key != props[j].key
  }

  /** The value of the first property with the given key. */
  function Lookup(props: Properties, key: Key): (r: Option<StyleValue>)
    ensures r.None? <==> key !in KeysOf(props)
  {
    if props == [] then None
    else if props[0].key == key then Some(props[0].value)
    else Lookup(props[1..], key)
  }

  /** The properties after setting `key` to `value`: the first property with
      that key is replaced where it stands; if there is none, a new property
      is appended. */
  function Put(props: Properties, key: Key, value: StyleValue): Properties
  {
    if props == [] then [Property(key, value)]
    else if props[0].key == key then [Property(key, value)] + props[1..]
    else [props[0]] + Put(props[1..], key, value)
  }

  /** After a set, looking the key up gives the new value. */
  lemma {:induction false} PutLookupSame(props: Properties, key: Key, value: StyleValue)
    ensures Lookup(Put(props, key, value), key) == Some(value)
  {
    if props != [] && props[0].key != key {
      PutLookupSame(props[1..], key, value);
    }
  }

  /** A set leaves every other key's value as it was. */
  lemma {:induction false} PutLookupOther(props: Properties, key: Key, value: StyleValue, other: Key)
    requires other != key
    ensures Lookup(Put(props, key, value), other) == Lookup(props, other)
  {
    if props != [] && props[0].key != key {
      PutLookupOther(props[1..], key, value, other);
    }
  }

  /** A set adds exactly its key to the key set. */
  lemma {:induction false} PutKeys(props: Properties, key: Key, value: StyleValue)
    ensures KeysOf(Put(props, key, value)) == KeysOf(props) + {key}
  {
    if props != [] {
      var p := Put(props, key, value);
      assert p[0] == (if props[0].key == key then Property(key, value) else props[0]);
      if props[0].key == key {
        assert p[1..] == props[1..];
      } else {
        PutKeys(props[1..], key, value);
        assert p[1..] == Put(props[1..], key, value);
      }
    }
  }

  /** A set grows the map by one property only when the key was new. */
  lemma {:induction false} PutLength(props: Properties, key: Key, value: StyleValue)
    ensures |Put(props, key, value)| == if key in KeysOf(props) then |props| else |props| + 1
  {
    if props != [] && props[0].key != key {
      PutLength(props[1..], key, value);
    }
  }

  /** A set keeps the keys of a map unique. */
  lemma {:induction false} PutUnique(props: Properties, key: Key, value: StyleValue)
    requires UniqueKeys(props)
    ensures UniqueKeys(Put(props, key, value))
  {
    if props != [] && props[0].key != key {
      var rest := Put(props[1..], key, value);
      PutUnique(props[1..], key, value);
      PutKeys(props[1..], key, value);
      var p := Put(props, key, value);
      assert p == [props[0]] + rest;
      assert props[0].key !in KeysOf(rest) by {
        forall i | 0 <= i < |props[1..]| ensures props[1..][i].key != props[0].key {
          assert props[1..][i] == props[i + 1];
        }
      }
      forall i, j | 0 <= i < j < |p| ensures p[i].key != p[j].key {
        assert p[j] == rest[j - 1];
        if i > 0 {
          assert p[i] == rest[i - 1];
        }
      }
    }
  }

  /** Put in index form: if `i` is the first position holding `key` (or
      `|props|` when there is none), a set overwrites position `i` or
      appends. */
  lemma {:induction false} PutAt(props: Properties, key: Key, value: StyleValue, i: nat)
    requires i <= |props|
    requires forall j :: 0 <= j < i ==> props[j].key != key
    requires i < |props| ==> props[i].key == key
    ensures Put(props, key, value) ==
      if i < |props| then props[i := Property(key, value)] else props + [Property(key, value)]
  {
    if props != [] && props[0].key != key {
      PutAt(props[1..], key, value, i - 1);
      if i < |props| {
        assert props[i := Property(key, value)] == [props[0]] + props[1..][i - 1 := Property(key, value)];
      } else {
        assert props + [Property(key, value)] == [props[0]] + (props[1..] + [Property(key, value)]);
      }
    } else if props != [] {
      assert props[0 := Property(key, value)] == [Property(key, value)] + props[1..];
    }
  }

  /** A mutable style map, filled in by successive `Set` calls. */
  class StyleMap {
    var props: Properties

    /** An empty map. */
    constructor ()
      ensures props == []
    {
      props := [];
    }

    /** The position of the first property with `key`, or `|props|` when the
        key is not set. */
    method Find(key: Key) returns (i: nat)
      ensures i <= |props|
      ensures i < |props| ==> props[i].key == key
      ensures forall j :: 0 <= j < i ==> props[j].key != key
    {
      i := 0;
      while i < |props| && props[i].key != key
        invariant i <= |props|
        invariant forall j :: 0 <= j < i ==> props[j].key != key
      {
        i := i + 1;
      }
    }

    /** Sets `key` to `value`, overwriting the property already holding it
        or appending a new one. */
    method Set(key: Key, value: StyleValue)
      modifies this
      ensures props == Put(old(props), key, value)
    {
      var i := Find(key);
      PutAt(props, key, value, i);
      if i < |props| {
        props := props[i := Property(key, value)];
      } else {
        props := props + [Property(key, value)];
      }
    }
  }
}
