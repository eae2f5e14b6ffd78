/** The hooked environment of libco/co_hook_sys_call.cpp: a sorted list of names, set up once, and
    for each coroutine its own values for these names. */
module SysEnv {
  import opened Wrappers
  import opened StringOrder

  // ---------------------------------------------------------------- setting up the list

  /** `s` with each run of equal neighbours reduced to one. */
  function Uniq(s: seq<string>): (r: seq<string>)
    ensures |r| <= |s| && (s != [] ==> r != [] && r[|r| - 1] == s[|s| - 1])
  {
    var n := |s| - 1;
    if |s| <= 1 then s
    else if s[n] == s[n - 1] then Uniq(s[..n])
    else Uniq(s[..n]) + [s[n]]
  }

  lemma {:induction false} UniqHolds(s: seq<string>, x: string)
    ensures x in Uniq(s) <==> x in s
  {
    if |s| > 1 {
      var n := |s| - 1;
      UniqHolds(s[..n], x);
      assert s == s[..n] + [s[n]];
      assert s[n - 1] in s[..n];
    }
  }

  lemma {:induction false} UniqSorted(s: seq<string>)
    requires Sorted(s)
    ensures StrictlySorted(Uniq(s))
  {
    hide StrCmp, Uniq;
    if |s| <= 1 {
      if s != [] { UniqStep(s); }
    } else {
      var n := |s| - 1;
      UniqSorted(s[..n]);
      UniqStep(s);
      UniqStep(s[..n]);
      if s[n] != s[n - 1] {
        assert StrCmp(s[n - 1], s[n]) <= 0;
        StrictlySortedAppend(Uniq(s[..n]), s[n]);
      }
    }
  }

  lemma StrictlySortedAppend(u: seq<string>, x: string)
    requires StrictlySorted(u) && u != [] && StrCmp(u[|u| - 1], x) < 0
    ensures StrictlySorted(u + [x])
  {
    hide StrCmp;
    forall i | 0 <= i < |u| ensures StrCmp(u[i], x) < 0 {
      if i < |u| - 1 { StrCmpTransitive(u[i], u[|u| - 1], x); }
    }
  }

  /** The removal of repeated names from a sorted array, in place; `cnt` names remain. */
  method Dedup(data: array<string>, n: nat) returns (cnt: nat)
    requires 1 < n <= data.Length
    modifies data
    ensures cnt <= n && data[..cnt] == Uniq(old(data[..n]))
  {
    hide Uniq;
    ghost var was := data[..];
    UniqStep(was[..1]);
    var lp := 0;
    for lq := 1 to n
      invariant 0 <= lp < lq
      invariant data[..lp + 1] == Uniq(was[..lq])
      invariant forall j :: lq <= j < data.Length ==> data[j] == was[j]
    {
      UniqStep(was[..lq + 1]);
      assert was[..lq + 1][..lq] == was[..lq];
      assert data[lq] == was[lq] && data[lp] == was[lq - 1] by {
        assert data[lp] == data[..lp + 1][lp];
        UniqStep(was[..lq]);
      }
      ghost var kept := data[..lp + 1];
      if data[lp] != data[lq] {
        lp := lp + 1;
        if lq != lp {
          data[lp] := data[lq];
        }
        assert data[..lp + 1] == kept + [was[lq]];
      }
    }
    cnt := lp + 1;
    assert was[..n] == old(data[..n]);
  }

  lemma UniqStep(s: seq<string>)
    requires s != []
    ensures Uniq(s) != [] && Uniq(s)[|Uniq(s)| - 1] == s[|s| - 1]
    ensures |s| == 1 ==> Uniq(s) == s
    ensures |s| > 1 ==>
              Uniq(s) == Uniq(s[..|s| - 1]) + (if s[|s| - 1] == s[|s| - 2] then [] else [s[|s| - 1]])
  {
  }

  /** The names worth keeping: neither null nor empty. */
  function Proper(names: seq<Option<string>>): (r: seq<string>)
    ensures forall x :: x in r <==> x != [] && Some(x) in names
    ensures |r| <= |names|
  {
    if names == [] then []
    else
      var n := |names| - 1;
      assert names == names[..n] + [names[n]];
      Proper(names[..n]) + (if names[n].Some? && names[n].value != [] then [names[n].value] else [])
  }

  /** The list made from an array that holds the proper names in front. */
  function ListOf(proper: seq<string>): seq<string> {
    if |proper| > 1 then Uniq(Sort(proper)) else proper
  }

  lemma ListOfIsRight(proper: seq<string>)
    ensures StrictlySorted(ListOf(proper))
    ensures forall x :: x in ListOf(proper) <==> x in proper
  {
    if |proper| > 1 {
      SortSorts(proper);
      UniqSorted(Sort(proper));
      forall x ensures x in ListOf(proper) <==> x in proper {
        UniqHolds(Sort(proper), x);
        SameNames(Sort(proper), proper, x);
      }
    }
  }

  lemma SortLength(s: seq<string>)
    ensures |Sort(s)| == |s|
  {
    assert |multiset(Sort(s))| == |multiset(s)|;
  }

  lemma ProperStep(names: seq<Option<string>>, i: nat)
    requires i < |names|
    ensures Proper(names[..i + 1]) ==
            Proper(names[..i]) + (if names[i].Some? && names[i].value != [] then [names[i].value] else [])
  {
    assert names[..i + 1][..i] == names[..i];
  }

  /** The loop that copies the proper names to the front of an array. */
  method CopyProper(names: seq<Option<string>>, data: array<string>) returns (cnt: nat)
    requires data.Length == |names|
    modifies data
    ensures cnt <= |names| && data[..cnt] == Proper(names)
  {
    hide Proper;
    cnt := 0;
    assert Proper([]) == [];
    for i := 0 to |names|
      invariant cnt <= i && data[..cnt] == Proper(names[..i])
    {
      ProperStep(names, i);
      if names[i].Some? && names[i].value != [] {
        ghost var kept := data[..cnt];
        data[cnt] := names[i].value;
        cnt := cnt + 1;
        assert data[..cnt] == kept + [names[i].value];
      }
    }
    assert names[..|names|] == names;
  }

  /** co_set_env_list on a list that is not set yet: exactly the proper names, strictly sorted. */
  method MakeEnvList(names: seq<Option<string>>) returns (list: seq<string>)
    ensures StrictlySorted(list)
    ensures forall x :: x in list <==> x != [] && Some(x) in names
  {
    hide Sort, Uniq, StrictlySorted;
    var data := new string[|names|](_ => []);
    var cnt := CopyProper(names, data);
    ghost var proper := data[..cnt];
    if cnt > 1 {
      var sorted := Sort(data[..cnt]);
      SortLength(data[..cnt]);
      forall i | 0 <= i < cnt { data[i] := sorted[i]; }
      assert data[..cnt] == sorted;
      cnt := Dedup(data, cnt);
    }
    list := data[..cnt];
    ListOfIsRight(proper);
  }

  // ---------------------------------------------------------------- looking a name up

  /** bsearch: the place of a name in the list, or None. */
  method BSearch(list: seq<string>, name: string) returns (r: Option<nat>)
    requires StrictlySorted(list)
    ensures r.Some? ==> r.value < |list| && list[r.value] == name
    ensures r.None? ==> name !in list
  {
    var lo, hi := 0, |list|;
    while lo < hi
      invariant 0 <= lo <= hi <= |list|
      invariant forall i :: 0 <= i < lo ==> StrCmp(list[i], name) < 0
      invariant forall i :: hi <= i < |list| ==> StrCmp(name, list[i]) < 0
      decreases hi - lo
    {
      var mid := lo + (hi - lo) / 2;
      var c := StrCmp(name, list[mid]);
      StrCmpAntisymmetric(list[mid], name);
      if c == 0 {
        return Some(mid);
      } else if c < 0 {
        forall i | mid < i < |list| ensures StrCmp(name, list[i]) < 0 { StrCmpTransitive(name, list[mid], list[i]); }
        hi := mid;
      } else {
        forall i | 0 <= i < mid ensures StrCmp(list[i], name) < 0 { StrCmpTransitive(list[i], list[mid], name); }
        lo := mid + 1;
      }
    }
    return None;
  }

  // ---------------------------------------------------------------- the values of each coroutine

  type Co = nat

  /** g_co_sysenv and the pvEnv arrays of the coroutines that have one.  An operation on a name
      outside the list is passed on to the system, which is not modelled. */
  class Environments {
    var installed: bool
    var list: seq<string>
    var values: map<Co, seq<Option<string>>>

    constructor ()
      ensures Valid() && !installed
    {
      installed, list, values := false, [], map[];
    }

    ghost predicate Valid()
      reads this
    {
      && StrictlySorted(list)
      && (forall co :: co in values ==> |values[co]| == |list|)
      && (!installed ==> list == [] && values == map[])
    }

    /** What coroutine `co` has stored under the `i`-th name. */
    ghost function Stored(co: Co, i: nat): Option<string>
      requires Valid() && i < |list|
      reads this
    {
      if co in values then values[co][i] else None
    }

    /** The value of a name for a coroutine: one flat map that everything below is about. */
    ghost function Value(co: Co, name: string): (v: Option<string>)
      requires Valid()
      reads this
      ensures forall i :: 0 <= i < |list| && list[i] == name ==> v == Stored(co, i)
      ensures name !in list ==> v == None
    {
      if name in list then
        var i :| 0 <= i < |list| && list[i] == name;
        Stored(co, i)
      else None
    }

    /** co_set_env_list: only the first call counts. */
    method SetEnvList(names: seq<Option<string>>)
      requires Valid()
      modifies this
      ensures Valid() && installed
      ensures old(installed) ==> list == old(list) && values == old(values)
      ensures !old(installed) ==> values == map[] && forall x :: x in list <==> x != [] && Some(x) in names
    {
      if installed {
        return;
      }
      list := MakeEnvList(names);
      installed := true;
    }

    /** dup_co_sysenv_arr for a coroutine without values of its own. */
    method Prepare(co: Co)
      requires Valid() && installed
      modifies `values
      ensures Valid() && co in values
      ensures forall c, x :: Value(c, x) == old(Value(c, x))
    {
      hide StrictlySorted;
      if co !in values {
        values := values[co := seq(|list|, _ => None)];
        forall c, x ensures Value(c, x) == old(Value(c, x)) {
          if x in list { var i :| 0 <= i < |list| && list[i] == x; }
        }
      }
    }

    /** The store of one value, seen through the flat map. */
    method Put(co: Co, i: nat, v: Option<string>)
      requires Valid() && installed && co in values && i < |list|
      modifies `values
      ensures Valid() && co in values
      ensures forall c, x :: Value(c, x) == if c == co && x == list[i] then v else old(Value(c, x))
    {
      values := values[co := values[co][i := v]];
      forall c, x ensures Value(c, x) == if c == co && x == list[i] then v else old(Value(c, x)) {
        if x in list {
          var j :| 0 <= j < |list| && list[j] == x;
          assert x == list[i] ==> StrCmp(list[i], list[j]) == 0;
          assert x == list[i] ==> i == j;
        }
      }
    }

    /** setenv: a listed name changes for the current coroutine only, and without `overwrite`
        only if it has no value yet. */
    method SetEnv(self: Co, hooked: bool, name: string, value: Option<string>, overwrite: bool) returns (handled: bool)
      requires Valid()
      modifies `values
      ensures Valid() && handled == (hooked && installed && name in list)
      ensures forall c, x :: Value(c, x) ==
                if handled && c == self && x == name && (overwrite || old(Value(self, name)) == None)
                then value else old(Value(c, x))
    {
      if !hooked || !installed { return false; }
      Prepare(self);
      var e := BSearch(list, name);
      if e.None? { return false; }
      if overwrite || values[self][e.value].None? {
        Put(self, e.value, value);
      }
      return true;
    }

    /** unsetenv: a listed name loses its value for the current coroutine only. */
    method UnsetEnv(self: Co, hooked: bool, name: string) returns (handled: bool)
      requires Valid()
      modifies `values
      ensures Valid() && handled == (hooked && installed && name in list)
      ensures forall c, x :: Value(c, x) == if handled && c == self && x == name then None else old(Value(c, x))
    {
      if !hooked || !installed { return false; }
      Prepare(self);
      var e := BSearch(list, name);
      if e.None? { return false; }
      Put(self, e.value, None);
      return true;
    }

    /** getenv: the current coroutine's own value of a listed name. */
    method GetEnv(self: Co, hooked: bool, name: string) returns (handled: bool, value: Option<string>)
      requires Valid()
      modifies `values
      ensures Valid() && handled == (hooked && installed && name in list)
      ensures handled ==> value == old(Value(self, name))
      ensures forall c, x :: Value(c, x) == old(Value(c, x))
    {
      if !hooked || !installed { return false, None; }
      Prepare(self);
      var e := BSearch(list, name);
      if e.None? { return false, None; }
      return true, values[self][e.value];
    }
  }
}
