/** jspb.Map with values that are not messages (protobuf-3.20.0/js/map.js): a dictionary by string
    key, and the array of pairs it is kept in, which is brought up to date only when asked for. */
module JspbMap {
  import opened Wrappers
  import opened StringOrder

  /** An entry of the dictionary, and a record of the array. */
  datatype Entry<K, V> = Entry(key: K, value: V)

  /** Properties that every object inherits. */
  const INHERITED: set<string> := {
    "constructor", "hasOwnProperty", "isPrototypeOf", "propertyIsEnumerable", "toLocaleString", "toString", "valueOf",
    "__proto__", "__defineGetter__", "__defineSetter__", "__lookupGetter__", "__lookupSetter__"
  }

  /** The properties of an entry object. */
  const ENTRY_FIELDS: set<string> := {"key", "value", "valueWrapper"}

  /** What reading a property of an object finds: an entry, something that the object inherits and
      that is no entry, or undefined. */
  datatype Property<K, V> = Found(entry: Entry<K, V>) | Inherited | Undefined

  /** Reading a property of a dictionary object whose prototype may have been replaced by an entry.
      `__proto__` reads the prototype itself, and the properties of the prototype are inherited. */
  function Lookup<K, V>(m: map<string, Entry<K, V>>, proto: Option<Entry<K, V>>, name: string): Property<K, V> {
    if name in m then Found(m[name])
    else if name == "__proto__" && proto.Some? then Found(proto.value)
    else if name in INHERITED || (proto.Some? && name in ENTRY_FIELDS) then Inherited
    else Undefined
  }

  /** `value` of an entry; neither keys and values nor what all objects inherit have such a property. */
  function ValueOf<K, V>(p: Property<K, V>): Option<V> {
    match p
    case Found(entry) => Some(entry.value)
    case _ => None
  }

  /** `i` is the last place in the array at which the string key stands. */
  ghost predicate LastAt<K, V>(str: K -> string, arr: seq<Entry<K, V>>, name: string, i: nat) {
    i < |arr| && str(arr[i].key) == name && forall j :: i < j < |arr| ==> str(arr[j].key) != name
  }

  lemma {:induction false} FindLast<K, V>(str: K -> string, arr: seq<Entry<K, V>>, name: string)
    returns (i: nat)
    requires name in LastWins(str, arr)
    ensures LastAt(str, arr, name, i) && LastWins(str, arr)[name] == arr[i]
  {
    var n := |arr| - 1;
    if str(arr[n].key) == name {
      i := n;
    } else {
      i := FindLast(str, arr[..n], name);
    }
  }

  /** The dictionary that an array of pairs stands for: the last pair with a key wins. */
  function LastWins<K, V>(str: K -> string, arr: seq<Entry<K, V>>): map<string, Entry<K, V>> {
    if arr == [] then map[]
    else
      var last := arr[|arr| - 1];
      LastWins(str, arr[..|arr| - 1])[str(last.key) := last]
  }

  /** The string keys of the pairs. */
  function Names<K, V>(str: K -> string, arr: seq<Entry<K, V>>): (r: seq<string>)
    ensures |r| == |arr| && forall i :: 0 <= i < |arr| ==> r[i] == str(arr[i].key)
  {
    seq(|arr|, i requires 0 <= i < |arr| => str(arr[i].key))
  }

  lemma {:induction false} LastWinsKeys<K, V>(str: K -> string, arr: seq<Entry<K, V>>, name: string)
    ensures name in LastWins(str, arr) <==> name in Names(str, arr)
    ensures name in LastWins(str, arr) ==> str(LastWins(str, arr)[name].key) == name
  {
    if arr != [] {
      var n := |arr| - 1;
      LastWinsKeys(str, arr[..n], name);
      assert Names(str, arr) == Names(str, arr[..n]) + [str(arr[n].key)];
    }
  }

  lemma {:induction false} LastWinsAt<K, V>(str: K -> string, arr: seq<Entry<K, V>>, i: nat)
    requires i < |arr| && forall j :: i < j < |arr| ==> str(arr[j].key) != str(arr[i].key)
    ensures str(arr[i].key) in LastWins(str, arr) && LastWins(str, arr)[str(arr[i].key)] == arr[i]
  {
    var n := |arr| - 1;
    if i < n { LastWinsAt(str, arr[..n], i); }
  }

  lemma StrictlySortedIsSorted(s: seq<string>)
    requires StrictlySorted(s)
    ensures Sorted(s) && forall i, j :: 0 <= i < j < |s| ==> s[i] != s[j]
  {
  }

  /** The array of a dictionary with its keys in order is determined by the dictionary. */
  lemma SortedArrayIsUnique<K, V>(str: K -> string, a: seq<Entry<K, V>>, b: seq<Entry<K, V>>)
    requires StrictlySorted(Names(str, a)) && StrictlySorted(Names(str, b))
    requires LastWins(str, a) == LastWins(str, b)
    ensures a == b
  {
    hide StrCmp, LastWins;
    var p, q := Names(str, a), Names(str, b);
    StrictlySortedIsSorted(p);
    StrictlySortedIsSorted(q);
    forall x ensures x in p <==> x in q {
      LastWinsKeys(str, a, x);
      LastWinsKeys(str, b, x);
    }
    SameStrictlySorted(p, q);
    forall i | 0 <= i < |a| ensures a[i] == b[i] {
      LastWinsAt(str, a, i);
      LastWinsAt(str, b, i);
    }
  }

  lemma SameStrictlySorted(s: seq<string>, t: seq<string>)
    requires StrictlySorted(s) && StrictlySorted(t) && forall x :: x in s <==> x in t
    ensures s == t
  {
    hide StrCmp;
    StrictlySortedIsSorted(s);
    StrictlySortedIsSorted(t);
    forall x ensures multiset(s)[x] == multiset(t)[x] {
      assert x in s <==> x in t;
      OnlyOnce(s, x);
      OnlyOnce(t, x);
    }
    assert multiset(s) == multiset(t);
    SortedAreEqual(s, t);
  }

  lemma {:induction false} OnlyOnce(s: seq<string>, x: string)
    requires forall i, j :: 0 <= i < j < |s| ==> s[i] != s[j]
    ensures multiset(s)[x] == if x in s then 1 else 0
  {
    if s != [] {
      assert s == [s[0]] + s[1..];
      OnlyOnce(s[1..], x);
    }
  }

  class Map<K, V> {
    var arr: seq<Entry<K, V>>
    var map_: map<string, Entry<K, V>>
    var proto: Option<Entry<K, V>>    // the prototype of the dictionary, None for the usual one
    var arrClean: bool
    const str: K -> string            // toString

    /** The entries that have been stored: `__proto__` is kept as the prototype. */
    ghost function Stored(): (r: map<string, Entry<K, V>>)
      reads this
      ensures "__proto__" !in map_ ==> r - {"__proto__"} == map_
    {
      if proto.Some? then map_["__proto__" := proto.value] else map_
    }

    /** Every reachable state: entries are filed under their own keys, and an array that counts as
        up to date stands for the entries, or for those that are not the prototype. */
    ghost predicate Valid()
      reads this
    {
      && (forall name :: name in Stored() ==> str(Stored()[name].key) == name)
      && (arrClean ==> LastWins(str, arr) == Stored() || LastWins(str, arr) == map_)
      && "__proto__" !in map_
    }

    constructor (arr: seq<Entry<K, V>>, str: K -> string)
      ensures Valid() && this.str == str && this.arr == arr
      ensures arrClean && Stored() == LastWins(str, arr)
    {
      this.arr := arr;
      this.str := str;
      map_ := map[];
      proto := None;
      arrClean := true;
      new;
      if |this.arr| > 0 {
        LoadFromArray();
      }
    }

    /** Assigning a property: that called `__proto__` replaces the prototype. */
    method Assign(name: string, entry: Entry<K, V>)
      requires "__proto__" !in map_
      modifies `map_, `proto
      ensures "__proto__" !in map_ && Stored() == old(Stored())[name := entry]
    {
      if name == "__proto__" {
        proto := Some(entry);
      } else {
        map_ := map_[name := entry];
      }
    }

    method LoadFromArray()
      requires map_ == map[] && proto.None?
      modifies this
      ensures Valid() && arr == old(arr) && arrClean && Stored() == LastWins(str, arr)
    {
      for i := 0 to |arr|
        invariant arr == old(arr) && "__proto__" !in map_ && Stored() == LastWins(str, arr[..i])
      {
        var record := arr[i];
        assert arr[..i + 1][..i] == arr[..i];
        Assign(str(record.key), Entry(record.key, record.value));
      }
      assert arr[..|arr|] == arr;
      arrClean := true;
      forall name | name in Stored() ensures str(Stored()[name].key) == name {
        LastWinsKeys(str, arr, name);
      }
    }

    /** The own keys of the dictionary, in whatever order the properties of an object come. */
    method StringKeys() returns (ret: seq<string>)
      ensures multiset(ret) == multiset(map_.Keys)
    {
      ret := [];
      var rest := map_.Keys;
      while rest != {}
        invariant rest <= map_.Keys
        invariant multiset(ret) + multiset(rest) == multiset(map_.Keys)
        decreases rest
      {
        var p :| p in rest;
        rest := rest - {p};
        ret := ret + [p];
      }
    }

    /** Fills the array from the own keys, sorted. */
    method Rebuild()
      requires forall name :: name in map_ ==> str(map_[name].key) == name
      modifies `arr
      ensures StrictlySorted(Names(str, arr)) && LastWins(str, arr) == map_
    {
      hide LastWins, Sort, StrictlySorted;
      arr := [];
      var strKeys := StringKeys();
      SortedKeys(strKeys, map_.Keys);
      strKeys := Sort(strKeys);
      for i := 0 to |strKeys|
        invariant |arr| == i && forall j :: 0 <= j < i ==> arr[j] == map_[strKeys[j]]
      {
        var entry := map_[strKeys[i]];
        arr := arr + [Entry(entry.key, entry.value)];
      }
      assert Names(str, arr) == strKeys;
      ArrayStandsFor(str, arr, map_, strKeys);
    }

    lemma OwnAreStored()
      requires "__proto__" !in map_
      ensures forall name :: name in map_ ==> name in Stored() && Stored()[name] == map_[name]
      ensures Stored() == map_ <==> "__proto__" !in Stored()
    {
    }

    /** An array brought up to date stands for all entries if and only if none is called `__proto__`. */
    method ToArray() returns (r: seq<Entry<K, V>>)
      requires Valid()
      modifies `arr, `arrClean
      ensures Valid() && arrClean && r == arr
      ensures old(arrClean) ==> r == old(arr)
      ensures !old(arrClean) ==> StrictlySorted(Names(str, r)) && LastWins(str, r) == Stored() - {"__proto__"}
      ensures !old(arrClean) ==> (LastWins(str, r) == Stored() <==> "__proto__" !in Stored())
      ensures "__proto__" !in Stored() ==> LastWins(str, r) == Stored()
    {
      hide LastWins, StrictlySorted;
      OwnAreStored();
      if !arrClean {
        Rebuild();
        arrClean := true;
      }
      r := arr;
    }

    method Clear()
      modifies this
      ensures Valid() && Stored() == map[] && arr == old(arr) && !arrClean
    {
      map_ := map[];
      proto := None;
      arrClean := false;
    }

    method Set(key: K, value: V)
      requires Valid()
      modifies this
      ensures Valid() && Stored() == old(Stored())[str(key) := Entry(key, value)] && arr == old(arr) && !arrClean
    {
      Assign(str(key), Entry(key, value));
      arrClean := false;
    }

    /** None: the call of hasOwnProperty fails, because an entry stands in its place.  Deleting does
        what it says, and the result says whether there was an entry, except for a prototype. */
    method Del(key: K) returns (hadKey: Option<bool>)
      requires Valid()
      modifies this
      ensures Valid() && arr == old(arr)
      ensures hadKey.None? <==> "hasOwnProperty" in old(Stored())
      ensures hadKey.None? ==> Stored() == old(Stored()) && arrClean == old(arrClean)
      ensures hadKey.Some? ==> !arrClean
      ensures hadKey.Some? ==>
                (hadKey.value == (str(key) in old(Stored())) && Stored() == old(Stored()) - {str(key)}
                 <==> str(key) != "__proto__" || "__proto__" !in old(Stored()))
      ensures hadKey.Some? && str(key) == "__proto__" ==> !hadKey.value && Stored() == old(Stored())
    {
      var keyValue := str(key);
      if "hasOwnProperty" in map_ {
        return None;
      }
      hadKey := Some(keyValue in map_);
      map_ := map_ - {keyValue};
      arrClean := false;
      assert forall name :: name in Stored() ==> name in old(Stored()) && Stored()[name] == old(Stored())[name];
    }

    /** None is undefined.  There is a value exactly if an entry has the key; names of inherited
        properties are no exception.  An array that is up to date has the value in the last pair
        with the key, unless the entry is a prototype that the array has lost. */
    method Get(key: K) returns (r: Option<V>)
      requires Valid()
      ensures r.Some? <==> exists name :: name in Stored() && str(Stored()[name].key) == str(key)
      ensures forall name :: name in Stored() && str(Stored()[name].key) == str(key) ==> r == Some(Stored()[name].value)
      ensures arrClean && str(key) in Names(str, arr) ==>
                r.Some? && exists i: nat :: LastAt(str, arr, str(key), i) && arr[i].value == r.value
      ensures arrClean && str(key) !in Names(str, arr) ==> r.None? || str(key) == "__proto__"
    {
      var keyValue := str(key);
      var entry := Lookup(map_, proto, keyValue);
      if entry.Undefined? {
        r := None;
      } else {
        r := ValueOf(entry);
      }
      assert keyValue in Stored() ==> r == Some(Stored()[keyValue].value);
      if arrClean {
        LastWinsKeys(str, arr, keyValue);
        if keyValue in LastWins(str, arr) {
          ghost var i := FindLast(str, arr, keyValue);
        }
      }
    }

    /** Right for every key that is not the name of an inherited property, or that is present. */
    method Has(key: K) returns (r: bool)
      requires Valid()
      ensures (r <==> str(key) in Stored()) <==>
              || str(key) in Stored()
              || (str(key) !in INHERITED && ("__proto__" in Stored() ==> str(key) !in ENTRY_FIELDS))
    {
      r := !Lookup(map_, proto, str(key)).Undefined?;
    }
  }

  lemma SortedKeys(names: seq<string>, keys: set<string>)
    requires multiset(names) == multiset(keys)
    ensures StrictlySorted(Sort(names)) && forall x :: x in Sort(names) <==> x in keys
  {
    hide StrCmp, Sort;
    var s := Sort(names);
    SortSorts(names);
    forall x ensures x in s <==> x in keys {
      assert x in s <==> x in multiset(s);
    }
    forall i, j | 0 <= i < j < |s| ensures s[i] != s[j] {
      if s[i] == s[j] {
        TwiceIsTwo(s, i, j);
        assert false;
      }
    }
  }

  lemma TwiceIsTwo(s: seq<string>, i: nat, j: nat)
    requires i < j < |s| && s[i] == s[j]
    ensures multiset(s)[s[i]] >= 2
  {
    assert s == s[..j] + [s[j]] + s[j + 1..];
    assert s[i] in s[..j];
  }

  /** Pairs taken from a dictionary, one for each key, stand for it. */
  lemma ArrayStandsFor<K, V>(str: K -> string, arr: seq<Entry<K, V>>, m: map<string, Entry<K, V>>, names: seq<string>)
    requires names == Names(str, arr) && StrictlySorted(names) && forall x :: x in names <==> x in m
    requires forall i :: 0 <= i < |names| ==> arr[i] == m[names[i]]
    ensures LastWins(str, arr) == m
  {
    hide StrictlySorted, LastWins, Names;
    var l := LastWins(str, arr);
    forall x ensures x in l <==> x in m { LastWinsKeys(str, arr, x); }
    forall x | x in m ensures l[x] == m[x] { EntryStands(str, arr, m, names, x); }
  }

  lemma EntryStands<K, V>(
      str: K -> string, arr: seq<Entry<K, V>>, m: map<string, Entry<K, V>>, names: seq<string>, x: string)
    requires names == Names(str, arr) && StrictlySorted(names) && x in names && x in m
    requires forall i :: 0 <= i < |names| && names[i] in m ==> arr[i] == m[names[i]]
    ensures x in LastWins(str, arr) && LastWins(str, arr)[x] == m[x]
  {
    hide StrCmp, LastWins;
    StrictlySortedIsSorted(names);
    var i :| 0 <= i < |names| && names[i] == x;
    LastWinsAt(str, arr, i);
  }
}
