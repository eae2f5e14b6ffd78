/** Field storage of a jspb message (protobuf-3.20.0/js/message.js): fields below the pivot live in
    an array, the others in an extension object that is the last element of the same array. */
module JspbMessage {
  import opened Wrappers
  import opened JsValue
  import opened Seqs

  /** A JavaScript array held by a field.  Messages share such arrays by reference. */
  class JsList {
    var elems: seq<Value>

    constructor ()
      ensures elems == []
    {
      elems := [];
    }
  }

  /** The extension object: property names are field numbers. */
  class ExtensionObject {
    var props: map<nat, Slot>

    constructor ()
      ensures props == map[]
    {
      props := map[];
    }

    ghost predicate Valid()
      reads this
    {
      forall n :: n in props ==> !props[n].Ext?
    }
  }

  /** What an array element or a property holds: a value that is not a list, a list, or the
      extension object. */
  datatype Slot = Plain(v: Value) | List(list: JsList) | Ext(ext: ExtensionObject)

  const UNSET := Plain(Undefined)

  /** `slot == null`. */
  predicate Nullish(slot: Slot) {
    slot.Plain? && IsNullish(slot.v)
  }

  /** `!slot`. */
  predicate Falsy(slot: Slot) {
    slot.Plain? && (IsNullish(slot.v) || slot.v in {Bool(false), Num(0), NaN, Str("")})
  }

  /** `===`.  Byte arrays are equal only to themselves; two of them are taken to be different. */
  predicate Identical(a: Slot, b: Slot) {
    a == b && !(a.Plain? && (a.v.NaN? || IsObject(a.v)))
  }

  function SlotAt(s: seq<Slot>, i: int): Slot {
    if 0 <= i < |s| then s[i] else UNSET
  }

  /** Assigning an element of a JavaScript array: beyond the end the array grows. */
  function SetAt(s: seq<Slot>, i: nat, v: Slot): (r: seq<Slot>)
    ensures |r| == Max(|s|, i + 1)
    ensures forall j: nat :: SlotAt(r, j) == if j == i then v else SlotAt(s, j)
  {
    if i < |s| then s[i := v] else s + seq(i - |s|, _ => UNSET) + [v]
  }

  function Prop(props: map<nat, Slot>, n: nat): Slot {
    if n in props then props[n] else UNSET
  }

  predicate HasExt(s: seq<Slot>) {
    s != [] && s[|s| - 1].Ext?
  }

  ghost function ExtOf(s: seq<Slot>): set<ExtensionObject> {
    if HasExt(s) then {s[|s| - 1].ext} else {}
  }

  /** The field number that `s`, read on its own, holds: the elements before the extension object
      are the fields from `-offset` on, and the extension object has all the later ones. */
  ghost function FieldOf(s: seq<Slot>, offset: int, n: nat): Slot
    reads ExtOf(s)
  {
    if HasExt(s) && n + offset >= |s| - 1 then Prop(s[|s| - 1].ext.props, n) else SlotAt(s, n + offset)
  }

  /** An extension object stands nowhere but at the end. */
  ghost predicate WellFormedData(s: seq<Slot>)
    reads ExtOf(s)
  {
    && (forall i :: 0 <= i < |s| - 1 ==> !s[i].Ext?)
    && (HasExt(s) ==> s[|s| - 1].ext.Valid())
  }

  /** The same contents, an empty list possibly having been made a list of its own. */
  ghost predicate Renewed(was: Slot, now: Slot, sentinel: JsList)
    reads if now.List? then {now.list} else {}
  {
    now == was || (was == List(sentinel) && now.List? && now.list != sentinel && now.list.elems == [])
  }

  /** The array of a message made without one holds the message id, if there is a proper one. */
  function InitialData(data: Option<seq<Slot>>, messageId: Value): seq<Slot> {
    match data
    case Some(d) => d
    case None => if Falsy(Plain(messageId)) then [] else [Plain(messageId)]
  }

  /** Only response messages, whose id is not 0, keep their id in the array. */
  function OffsetFor(messageId: Value): int {
    if messageId == Num(0) then -1 else 0
  }

  /** Where Array.prototype.splice starts: a negative index counts from the end. */
  function SpliceStart(index: int, length: nat): (i: nat)
    ensures i <= length
  {
    if index > length then length else if index >= 0 then index else Max(length + index, 0)
  }

  /** A repeated field that holds nothing yet. */
  function Filled(slot: Slot, isRepeated: bool, sentinel: JsList): Slot {
    if isRepeated && Falsy(slot) then List(sentinel) else slot
  }

  /** The fields that data holds nothing for, empty lists of repeated fields counting as something. */
  ghost function UnsetIn(s: seq<Slot>, offset: int, repeated: seq<nat>, sentinel: JsList): iset<nat>
    reads ExtOf(s)
  {
    iset m: nat | Nullish(Filled(FieldOf(s, offset, m), m in repeated, sentinel))
  }

  /** The last of the listed fields that is not among the unset ones; 0 if there is none. */
  ghost function LastMember(union: seq<nat>, unset: iset<nat>): nat {
    if union == [] then 0
    else if union[|union| - 1] !in unset then union[|union| - 1]
    else LastMember(union[..|union| - 1], unset)
  }

  lemma NoMember(unset: iset<nat>)
    ensures LastMember([], unset) == 0
  {
  }

  lemma LastMemberNext(union: seq<nat>, unset: iset<nat>, i: nat)
    requires i < |union|
    ensures LastMember(union[..i + 1], unset) == if union[i] !in unset then union[i] else LastMember(union[..i], unset)
  {
    assert union[..i + 1][..i] == union[..i];
  }

  lemma {:induction false} OnlyMember(union: seq<nat>, unset: iset<nat>, k: nat)
    requires 0 !in union && (forall m :: m in union && m != k ==> m in unset) && (k != 0 ==> k in union && k !in unset)
    ensures LastMember(union, unset) == k
  {
    if union != [] && union[|union| - 1] in unset { OnlyMember(union[..|union| - 1], unset, k); }
  }

  lemma {:induction false} LastMemberAgrees(union: seq<nat>, p: iset<nat>, q: iset<nat>)
    requires forall m :: m in union ==> (m in p <==> m in q)
    ensures LastMember(union, p) == LastMember(union, q)
  {
    if union != [] {
      assert union[|union| - 1] in union;
      LastMemberAgrees(union[..|union| - 1], p, q);
    }
  }

  ghost predicate Ascending(union: seq<nat>) {
    forall i, j :: 0 <= i < j < |union| ==> union[i] < union[j]
  }

  /** No member that is set has a greater field number than the one found. */
  ghost predicate FindsGreatest(union: seq<nat>, unset: iset<nat>) {
    forall m :: m in union && m !in unset ==> m <= LastMember(union, unset)
  }

  lemma {:induction false} AscendingFindsGreatest(union: seq<nat>, unset: iset<nat>)
    requires Ascending(union)
    ensures FindsGreatest(union, unset)
  {
    if union != [] {
      var n := |union| - 1;
      AscendingFindsGreatest(union[..n], unset);
      forall m | m in union && m !in unset ensures m <= LastMember(union, unset) {
        if m != union[n] {
          var i :| 0 <= i < |union| && union[i] == m;
          assert m == union[..n][i];
        }
      }
    }
  }

  lemma {:induction false} LastMemberAt(union: seq<nat>, unset: iset<nat>, j: nat)
    requires j < |union| && union[j] !in unset && forall k :: j < k < |union| ==> union[k] in unset
    ensures LastMember(union, unset) == union[j]
  {
    if j < |union| - 1 { LastMemberAt(union[..|union| - 1], unset, j); }
  }

  /** The member found is the set one with the greatest field number, whatever is set, if and only if
      the union lists its fields in ascending order. */
  lemma FindsGreatestIff(union: seq<nat>)
    requires NoDup(union)
    ensures Ascending(union) <==> forall unset :: FindsGreatest(union, unset)
  {
    if Ascending(union) {
      forall unset ensures FindsGreatest(union, unset) { AscendingFindsGreatest(union, unset); }
    } else {
      var i, j :| 0 <= i < j < |union| && union[i] >= union[j];
      var unset := iset m: nat | m in union && m != union[i] && m != union[j];
      forall k | j < k < |union| ensures union[k] in unset { assert union[k] != union[i] && union[k] != union[j]; }
      LastMemberAt(union, unset, j);
      assert union[i] != union[j] && union[i] in union && union[i] !in unset;
      assert !FindsGreatest(union, unset);
    }
  }

  /** Of two set fields that are listed in descending order the smaller one is kept. */
  lemma SmallerOneIsKept(a: nat, b: nat)
    requires a > b
    ensures LastMember([a, b], iset{}) == b && !FindsGreatest([a, b], iset{})
  {
    assert a in [a, b];
  }

  /** A union that shares no field with another one. */
  ghost predicate Separate(unions: seq<seq<nat>>, i: nat)
    requires i < |unions|
  {
    forall j, m :: 0 <= j < |unions| && j != i && m in unions[i] ==> m !in unions[j]
  }

  class Message {
    var slots: seq<Slot>            // msg.array
    var offset: int
    var pivot: Option<int>          // None is Number.MAX_VALUE: every field is in the array
    var extension: ExtensionObject?
    const sentinel: JsList          // EMPTY_LIST_SENTINEL_, the same for all messages

    ghost predicate Valid()
      reads this, extension
    {
      && offset in {-1, 0}
      && (forall i :: 0 <= i < |slots| && slots[i].Ext? ==> i == |slots| - 1 && slots[i].ext == extension)
      && (extension != null ==> extension.Valid())
      && (pivot.None? ==> extension == null)
      && (pivot.Some? ==>
            && pivot.value + offset >= 0
            && (if extension == null then |slots| <= pivot.value + offset
                else |slots| == pivot.value + offset + 1 && slots[|slots| - 1] == Ext(extension)))
    }

    ghost function Objects(): set<object>
      reads this
    {
      {this} + if extension == null then {} else {extension}
    }

    /** The flat map that the storage stands for. */
    ghost function Field(n: nat): Slot
      requires Valid()
      reads this, extension
    {
      FieldOf(slots, offset, n)
    }

    /** fieldNumber < pivot_. */
    predicate InArray(n: nat)
      reads this
    {
      pivot.None? || n < pivot.value
    }

    ghost predicate Keeps(o: int, p: Option<int>)
      reads this
    {
      offset == o && pivot == p
    }

    constructor (data: Option<seq<Slot>>, messageId: Value, suggestedPivot: int, repeated: seq<nat>,
                 unions: seq<seq<nat>>, sentinel: JsList)
      requires WellFormedData(InitialData(data, messageId))
      requires 0 !in repeated && forall i :: 0 <= i < |unions| ==> 0 !in unions[i] && NoDup(unions[i])
      modifies ExtOf(InitialData(data, messageId))
      ensures Valid() && offset == OffsetFor(messageId) && this.sentinel == sentinel
      ensures forall o :: o in Objects() ==> fresh(o) || o in ExtOf(InitialData(data, messageId))
      ensures forall m: nat ::
                var raw := old(FieldOf(InitialData(data, messageId), OffsetFor(messageId), m));
                var start := Filled(raw, m in repeated, sentinel);
                if forall i :: 0 <= i < |unions| ==> m !in unions[i] then Field(m) == start
                else Nullish(Field(m)) || Renewed(start, Field(m), sentinel)
      ensures forall i :: 0 <= i < |unions| ==> Settled(unions[i])
      ensures forall i :: 0 <= i < |unions| && Separate(unions, i) ==>
                IsCase(unions[i], LastMember(unions[i],
                  old(UnsetIn(InitialData(data, messageId), OffsetFor(messageId), repeated, sentinel))))
    {
      var d := InitialData(data, messageId);
      var o := OffsetFor(messageId);
      slots := d;
      offset := o;
      this.sentinel := sentinel;
      if HasExt(d) {
        pivot := Some(|d| - 1 - o);
        extension := d[|d| - 1].ext;
      } else if suggestedPivot > -1 {
        pivot := Some(Max(suggestedPivot, |d| - o));
        extension := null;
      } else {
        pivot := None;
        extension := null;
      }
      new;
      InitFields(repeated, unions);
    }

    /** The loops over the repeated fields and over the unions. */
    method InitFields(repeated: seq<nat>, unions: seq<seq<nat>>)
      requires Valid() && 0 !in repeated
      requires forall i :: 0 <= i < |unions| ==> 0 !in unions[i] && NoDup(unions[i])
      modifies Objects()
      ensures Valid() && Keeps(old(offset), old(pivot))
      ensures extension == old(extension) || fresh(extension)
      ensures forall m: nat ::
                var start := Filled(old(Field(m)), m in repeated, sentinel);
                if forall i :: 0 <= i < |unions| ==> m !in unions[i] then Field(m) == start
                else Nullish(Field(m)) || Renewed(start, Field(m), sentinel)
      ensures forall i :: 0 <= i < |unions| ==> Settled(unions[i])
      ensures forall i :: 0 <= i < |unions| && Separate(unions, i) ==>
                IsCase(unions[i], LastMember(unions[i], old(UnsetIn(slots, offset, repeated, sentinel))))
    {
      hide Valid, Settled, IsCase, LastMember;
      InitRepeated(repeated);
      assert Unset() == old(UnsetIn(slots, offset, repeated, sentinel));
      InitUnions(unions);
    }

    /** Puts the empty-list sentinel into every repeated field that holds nothing. */
    method InitRepeated(repeated: seq<nat>)
      requires Valid() && 0 !in repeated
      modifies Objects()
      ensures Valid() && Keeps(old(offset), old(pivot))
      ensures extension == old(extension) || fresh(extension)
      ensures forall m: nat :: Field(m) == Filled(old(Field(m)), m in repeated, sentinel)
    {
      hide Valid, Field;
      for i := 0 to |repeated|
        invariant Valid() && Keeps(old(offset), old(pivot))
        invariant extension == old(extension) || fresh(extension)
        invariant forall m: nat :: Field(m) == Filled(old(Field(m)), m in repeated[..i], sentinel)
      {
        InitRepeatedField(repeated[i]);
        assert repeated[..i + 1] == repeated[..i] + [repeated[i]];
      }
      assert repeated[..|repeated|] == repeated;
    }

    method InitRepeatedField(n: nat)
      requires Valid() && n >= 1
      modifies Objects()
      ensures Valid() && Keeps(old(offset), old(pivot))
      ensures extension == old(extension) || fresh(extension)
      ensures forall m: nat :: Field(m) == Filled(old(Field(m)), m == n, sentinel)
    {
      if InArray(n) {
        slots := SetAt(slots, n + offset, Filled(SlotAt(slots, n + offset), true, sentinel));
      } else {
        MaybeInitEmptyExtensionObject();
        extension.props := extension.props[n := Filled(Prop(extension.props, n), true, sentinel)];
      }
    }

    method GetField(n: nat) returns (r: Slot)
      requires Valid() && n >= 1
      modifies Objects()
      ensures Valid() && Keeps(old(offset), old(pivot)) && extension == old(extension)
      ensures forall m: nat :: m != n ==> Field(m) == old(Field(m))
      ensures Field(n) == r && !r.Ext? && r != List(sentinel) && Renewed(old(Field(n)), r, sentinel)
      ensures r != old(Field(n)) ==> r.List? && fresh(r.list)
    {
      if InArray(n) {
        r := SlotAt(slots, n + offset);
        if r == List(sentinel) {
          var list := new JsList();
          r := List(list);
          slots := SetAt(slots, n + offset, r);
        }
      } else {
        if extension == null {
          return UNSET;
        }
        r := Prop(extension.props, n);
        if r == List(sentinel) {
          var list := new JsList();
          r := List(list);
          extension.props := extension.props[n := r];
        }
      }
    }

    method MaybeInitEmptyExtensionObject()
      requires Valid() && pivot.Some?
      modifies this
      ensures Valid() && Keeps(old(offset), old(pivot))
      ensures extension != null && (extension == old(extension) || fresh(extension))
      ensures forall m: nat :: Field(m) == old(Field(m))
    {
      var pivotIndex := pivot.value + offset;
      if Falsy(SlotAt(slots, pivotIndex)) {
        extension := new ExtensionObject();
        slots := SetAt(slots, pivotIndex, Ext(extension));
      }
    }

    method SetField(n: nat, value: Slot)
      requires Valid() && n >= 1 && !value.Ext?
      modifies Objects()
      ensures Valid() && Keeps(old(offset), old(pivot))
      ensures extension == old(extension) || fresh(extension)
      ensures forall m: nat :: Field(m) == if m == n then value else old(Field(m))
    {
      if InArray(n) {
        slots := SetAt(slots, n + offset, value);
      } else {
        MaybeInitEmptyExtensionObject();
        extension.props := extension.props[n := value];
      }
    }

    /** Appends to, or inserts into, the list of a repeated field.  The list that all messages share
        for empty fields is never written. */
    method AddToRepeatedField(n: nat, value: Value, index: Option<int>)
      requires Valid() && n >= 1 && Field(n).List?
      requires sentinel.elems == []
      modifies Objects(), if Field(n).List? && Field(n).list != sentinel then {Field(n).list} else {}
      ensures Valid() && Keeps(old(offset), old(pivot)) && extension == old(extension) && sentinel.elems == []
      ensures forall m: nat :: m != n ==> Field(m) == old(Field(m))
      ensures Field(n) == old(Field(n)) || (Field(n).List? && fresh(Field(n).list))
      ensures Field(n).List? && Field(n).list != sentinel
      ensures old(Field(n)) != List(sentinel) ==> Field(n) == old(Field(n))
      ensures var was := old(Field(n).list.elems);
              var i := if index.Some? then SpliceStart(index.value, |was|) else |was|;
              Field(n).list.elems == was[..i] + [value] + was[i..]
    {
      hide Valid, Field;
      var r := GetField(n);
      var elems := r.list.elems;
      assert elems == old(Field(n).list.elems);
      match index {
        case Some(index) =>
          var i := SpliceStart(index, |elems|);
          r.list.elems := elems[..i] + [value] + elems[i..];
        case None =>
          assert elems + [value] == elems[..|elems|] + [value] + elems[|elems|..];
          r.list.elems := elems + [value];
      }
      assert Field(n) == r;
    }

    // -------------------------------------------------------------- defaults

    /** What reading field `n` with a default shows. */
    ghost function Shown(n: nat, default: Slot): Slot
      requires Valid()
      reads this, extension
    {
      if Nullish(Field(n)) then default else Field(n)
    }

    method GetFieldWithDefault(n: nat, default: Slot) returns (r: Slot)
      requires Valid() && n >= 1
      modifies Objects()
      ensures Valid() && Keeps(old(offset), old(pivot)) && extension == old(extension)
      ensures forall m: nat :: m != n ==> Field(m) == old(Field(m))
      ensures Field(n) == old(Field(n)) || (Field(n).List? && fresh(Field(n).list))
      ensures r == Shown(n, default) && Renewed(old(Shown(n, default)), r, sentinel)
    {
      r := GetField(n);
      if Nullish(r) {
        r := default;
      }
    }

    /** A value set this way is the value shown with the same default, unless it is null. */
    method SetFieldIgnoringDefault(n: nat, value: Slot, default: Slot)
      requires Valid() && n >= 1 && !value.Ext?
      modifies Objects()
      ensures Valid() && Keeps(old(offset), old(pivot))
      ensures extension == old(extension) || fresh(extension)
      ensures forall m: nat :: m != n ==> Field(m) == old(Field(m))
      ensures Shown(n, default) == if Nullish(value) then default else value
      ensures Identical(value, default) ==> Nullish(Field(n))
    {
      hide Valid, Field;
      if !Identical(value, default) {
        SetField(n, value);
      } else {
        ForgetField(n);
      }
    }

    /** What becomes of a default value: null in the array, no property in the extension object. */
    method ForgetField(n: nat)
      requires Valid() && n >= 1
      modifies Objects()
      ensures Valid() && Keeps(old(offset), old(pivot))
      ensures extension == old(extension) || fresh(extension)
      ensures Nullish(Field(n)) && forall m: nat :: m != n ==> Field(m) == old(Field(m))
    {
      if InArray(n) {
        slots := SetAt(slots, n + offset, Plain(Null));
      } else {
        MaybeInitEmptyExtensionObject();
        extension.props := map m | m in extension.props && m != n :: extension.props[m];
      }
    }

    // -------------------------------------------------------------- unions

    /** `k` is the one member of the union that is set; 0 if there is none. */
    ghost predicate IsCase(union: seq<nat>, k: nat)
      requires Valid()
      reads this, extension
    {
      && (forall m :: m in union && m != k ==> Nullish(Field(m)))
      && (k != 0 ==> k in union && !Nullish(Field(k)))
    }

    /** At most one member of the union is set. */
    ghost predicate Settled(union: seq<nat>)
      requires Valid()
      reads this, extension
    {
      forall a, b :: a in union && b in union && a != b ==> Nullish(Field(a)) || Nullish(Field(b))
    }

    /** The fields that are not set. */
    ghost function Unset(): iset<nat>
      requires Valid()
      reads this, extension
    {
      iset n: nat | Nullish(Field(n))
    }

    /** The last listed member that is set; 0 if there is none. */
    ghost function LastCase(union: seq<nat>): nat
      requires Valid()
      reads this, extension
    {
      LastMember(union, Unset())
    }

    lemma CaseIsLast(union: seq<nat>, k: nat)
      requires Valid() && 0 !in union && IsCase(union, k)
      ensures LastCase(union) == k
    {
      OnlyMember(union, Unset(), k);
    }

    method ComputeOneofCase(union: seq<nat>) returns (r: nat)
      requires Valid() && 0 !in union && NoDup(union)
      modifies Objects()
      ensures Valid() && Keeps(old(offset), old(pivot))
      ensures extension == old(extension) || fresh(extension)
      ensures r == old(LastCase(union)) && IsCase(union, r)
      ensures forall m: nat :: m !in union || old(Nullish(Field(m))) ==> Field(m) == old(Field(m))
      ensures r != 0 ==> Renewed(old(Field(r)), Field(r), sentinel)
    {
      hide Valid, Field, LastMember;
      NoMember(old(Unset()));
      r := 0;
      var value := UNSET;
      for i := 0 to |union|
        invariant Valid() && Keeps(old(offset), old(pivot))
        invariant extension == old(extension) || fresh(extension)
        invariant forall m :: m in union[..i] ==> Nullish(Field(m))
        invariant forall m: nat :: m !in union[..i] || old(Nullish(Field(m))) ==> Field(m) == old(Field(m))
        invariant r == old(LastCase(union[..i]))
        invariant r != 0 ==>
                    r in union[..i] && !Nullish(value) && !value.Ext? && Renewed(old(Field(r)), value, sentinel)
      {
        var n := union[i];
        var current := GetField(n);
        if !Nullish(current) {
          r := n;
          value := current;
          SetField(n, UNSET);
        }
        LastMemberNext(union, old(Unset()), i);
        assert union[..i + 1] == union[..i] + [n];
      }
      assert union[..|union|] == union;
      if r != 0 {
        SetField(r, value);
      }
    }

    /** One union of several: it gets its case, and none of the others loses what it has. */
    method InitUnion(unions: seq<seq<nat>>, i: nat)
      requires Valid() && i < |unions| && 0 !in unions[i] && NoDup(unions[i])
      modifies Objects()
      ensures Valid() && Keeps(old(offset), old(pivot))
      ensures extension == old(extension) || fresh(extension)
      ensures Settled(unions[i]) && IsCase(unions[i], old(LastCase(unions[i])))
      ensures forall j :: 0 <= j < |unions| && old(Settled(unions[j])) ==> Settled(unions[j])
      ensures forall j, k :: 0 <= j < |unions| && j != i && Separate(unions, j) && old(IsCase(unions[j], k)) ==>
                IsCase(unions[j], k)
      ensures forall m: nat :: m !in unions[i] ==> Field(m) == old(Field(m))
      ensures forall m: nat :: Nullish(Field(m)) || Renewed(old(Field(m)), Field(m), sentinel)
    {
      hide Valid, LastCase, Field;
      var _ := ComputeOneofCase(unions[i]);
    }

    method InitUnions(unions: seq<seq<nat>>)
      requires Valid() && forall i :: 0 <= i < |unions| ==> 0 !in unions[i] && NoDup(unions[i])
      modifies Objects()
      ensures Valid() && Keeps(old(offset), old(pivot))
      ensures extension == old(extension) || fresh(extension)
      ensures forall i :: 0 <= i < |unions| ==> Settled(unions[i])
      ensures forall i :: 0 <= i < |unions| && Separate(unions, i) ==> IsCase(unions[i], old(LastCase(unions[i])))
      ensures forall m: nat :: (exists i :: 0 <= i < |unions| && m in unions[i]) || Field(m) == old(Field(m))
      ensures forall m: nat :: Nullish(Field(m)) || Renewed(old(Field(m)), Field(m), sentinel)
    {
      hide Valid, Settled, IsCase, LastMember;
      for i := 0 to |unions|
        invariant Valid() && Keeps(old(offset), old(pivot))
        invariant extension == old(extension) || fresh(extension)
        invariant forall j :: 0 <= j < i ==> Settled(unions[j])
        invariant forall j :: 0 <= j < i && Separate(unions, j) ==> IsCase(unions[j], old(LastCase(unions[j])))
        invariant forall m: nat :: (exists j :: 0 <= j < i && m in unions[j]) || Field(m) == old(Field(m))
        invariant forall m: nat :: Nullish(Field(m)) || Renewed(old(Field(m)), Field(m), sentinel)
      {
        if Separate(unions, i) { LastMemberAgrees(unions[i], old(Unset()), Unset()); }
        InitUnion(unions, i);
      }
    }

    /** After a value that is not null is set, its field is the case. */
    method SetOneofField(n: nat, union: seq<nat>, value: Slot)
      requires Valid() && 0 !in union && NoDup(union) && n in union && !value.Ext?
      modifies Objects()
      ensures Valid() && Keeps(old(offset), old(pivot))
      ensures extension == old(extension) || fresh(extension)
      ensures Field(n) == value && forall m: nat :: m !in union ==> Field(m) == old(Field(m))
      ensures !Nullish(value) ==> IsCase(union, n)
      ensures value == Plain(Null) ==> IsCase(union, 0)
      ensures value == UNSET ==> IsCase(union, if old(LastCase(union)) == n then 0 else old(LastCase(union)))
    {
      hide Valid, Field;
      var current := ComputeOneofCase(union);
      if current != 0 && current != n && value != UNSET {
        SetField(current, UNSET);
      }
      SetField(n, value);
    }
  }
}
