/**
 * The query part of a URL as a list of name-value pairs, with the `get`,
 * `set` and `delete` operations of URLSearchParams as section 6.2 of the
 * WHATWG URL Standard defines them.
 */
module SearchParams {
  import opened Wrappers

  type Pair = (string, string)

  /** Some pair in `l` has the name `name`. */
  predicate HasName(l: seq<Pair>, name: string) {
    |l| > 0 && (l[0].0 == name || HasName(l[1..], name))
  }

  /** `get(name)`: the value of the first pair named `name`, or null. */
  function GetParam(l: seq<Pair>, name: string): (r: Option<string>)
    ensures r.Some? <==> HasName(l, name)
    ensures r.Some? ==> exists i :: 0 <= i < |l| && l[i] == (name, r.value) && !HasName(l[..i], name)
  {
    if l == [] then None
    else if l[0].0 == name then
      assert l[..0] == [];
      Some(l[0].1)
    else
      var r := GetParam(l[1..], name);
      if r.Some? then
        var i :| 0 <= i < |l[1..]| && l[1..][i] == (name, r.value) && !HasName(l[1..][..i], name);
        assert l[..i + 1][1..] == l[1..][..i];
        r
      else r
  }

  /** `delete(name)`: every pair named `name` removed, the others kept in order. */
  function DeleteParam(l: seq<Pair>, name: string): (r: seq<Pair>)
    ensures !HasName(r, name)
    ensures forall p :: p in r <==> p in l && p.0 != name
    ensures forall p {:trigger multiset(r)[p]} :: multiset(r)[p] == if p.0 == name then 0 else multiset(l)[p]
  {
    if l == [] then []
    else
      assert l == [l[0]] + l[1..];
      if l[0].0 == name then DeleteParam(l[1..], name)
      else [l[0]] + DeleteParam(l[1..], name)
  }

  /** The first pair named `name` given the value `value`, the later ones removed. */
  function ReplaceFirst(l: seq<Pair>, name: string, value: string): seq<Pair> {
    if l == [] then []
    else if l[0].0 == name then [(name, value)] + DeleteParam(l[1..], name)
    else [l[0]] + ReplaceFirst(l[1..], name, value)
  }

  /**
   * `set(name, value)`: when some pair is named `name`, the first one takes
   * the value and the others are removed; otherwise the pair is appended.
   */
  function SetParam(l: seq<Pair>, name: string, value: string): seq<Pair> {
    if HasName(l, name) then ReplaceFirst(l, name, value) else l + [(name, value)]
  }

  // ---------------------------------------------------------------------------

  lemma {:induction false} HasNameAppend(a: seq<Pair>, p: Pair, name: string)
    ensures HasName(a + [p], name) <==> HasName(a, name) || p.0 == name
  {
    if a != [] {
      assert (a + [p])[1..] == a[1..] + [p];
      HasNameAppend(a[1..], p, name);
    }
  }

  lemma {:induction false} DeleteAppend(a: seq<Pair>, p: Pair, name: string)
    ensures DeleteParam(a + [p], name) == DeleteParam(a, name) + (if p.0 == name then [] else [p])
  {
    if a != [] {
      assert (a + [p])[1..] == a[1..] + [p];
      DeleteAppend(a[1..], p, name);
    }
  }

  lemma {:induction false} DeleteAbsent(l: seq<Pair>, name: string)
    requires !HasName(l, name)
    ensures DeleteParam(l, name) == l
  {
    if l != [] {
      DeleteAbsent(l[1..], name);
    }
  }

  lemma {:induction false} ReplaceFirstAppendPresent(a: seq<Pair>, p: Pair, name: string, value: string)
    requires HasName(a, name)
    ensures ReplaceFirst(a + [p], name, value) == ReplaceFirst(a, name, value) + (if p.0 == name then [] else [p])
  {
    assert (a + [p])[1..] == a[1..] + [p];
    if a[0].0 == name {
      DeleteAppend(a[1..], p, name);
    } else {
      ReplaceFirstAppendPresent(a[1..], p, name, value);
    }
  }

  lemma {:induction false} ReplaceFirstAppendAbsent(a: seq<Pair>, p: Pair, name: string, value: string)
    requires !HasName(a, name) && p.0 == name
    ensures ReplaceFirst(a + [p], name, value) == a + [(name, value)]
  {
    if a == [] {
      assert [p][1..] == [];
    } else {
      assert (a + [p])[1..] == a[1..] + [p];
      ReplaceFirstAppendAbsent(a[1..], p, name, value);
    }
  }

  lemma {:induction false} ReplaceFirstProperties(l: seq<Pair>, name: string, value: string)
    requires HasName(l, name)
    ensures GetParam(ReplaceFirst(l, name, value), name) == Some(value)
    ensures DeleteParam(ReplaceFirst(l, name, value), name) == DeleteParam(l, name)
    ensures |ReplaceFirst(l, name, value)| == |DeleteParam(l, name)| + 1
  {
    if l[0].0 != name {
      ReplaceFirstProperties(l[1..], name, value);
    } else {
      var r := ReplaceFirst(l, name, value);
      assert r[1..] == DeleteParam(l[1..], name);
      DeleteAbsent(r[1..], name);
    }
  }

  /**
   * After `set(name, value)`, `get(name)` gives `value`; without the pairs
   * named `name` the list is what it was, and exactly one such pair is left.
   * That pair stands where the first pair named `name` stood, or at the end
   * when there was none.
   */
  lemma SetParamEffect(l: seq<Pair>, name: string, value: string)
    ensures GetParam(SetParam(l, name, value), name) == Some(value)
    ensures DeleteParam(SetParam(l, name, value), name) == DeleteParam(l, name)
    ensures |SetParam(l, name, value)| == |DeleteParam(l, name)| + 1
    ensures !HasName(l, name) ==> SetParam(l, name, value) == l + [(name, value)]
    ensures HasName(l, name) ==>
              exists i :: 0 <= i < |l| && l[i].0 == name && !HasName(l[..i], name) &&
                SetParam(l, name, value) == l[..i] + [(name, value)] + DeleteParam(l[i + 1..], name)
  {
    if HasName(l, name) {
      ReplaceFirstProperties(l, name, value);
      ReplaceFirstSplit(l, name, value);
    } else {
      GetAppendAbsent(l, (name, value), name);
      DeleteAppend(l, (name, value), name);
      DeleteAbsent(l, name);
    }
  }

  /** The replacement stands at the first pair named `name`; the later ones are removed. */
  lemma {:induction false} ReplaceFirstSplit(l: seq<Pair>, name: string, value: string)
    requires HasName(l, name)
    ensures exists i :: 0 <= i < |l| && l[i].0 == name && !HasName(l[..i], name) &&
              ReplaceFirst(l, name, value) == l[..i] + [(name, value)] + DeleteParam(l[i + 1..], name)
  {
    if l[0].0 == name {
      assert l[..0] == [];
      assert ReplaceFirst(l, name, value) == l[..0] + [(name, value)] + DeleteParam(l[0 + 1..], name);
    } else {
      var t := l[1..];
      ReplaceFirstSplit(t, name, value);
      var i :| 0 <= i < |t| && t[i].0 == name && !HasName(t[..i], name) &&
                 ReplaceFirst(t, name, value) == t[..i] + [(name, value)] + DeleteParam(t[i + 1..], name);
      assert l[..i + 1] == [l[0]] + t[..i];
      assert l[..i + 1][1..] == t[..i];
      assert l[i + 1 + 1..] == t[i + 1..];
      assert l[i + 1] == t[i];
      assert ReplaceFirst(l, name, value) == l[..i + 1] + [(name, value)] + DeleteParam(l[i + 1 + 1..], name);
    }
  }

  lemma {:induction false} GetAppendAbsent(l: seq<Pair>, p: Pair, name: string)
    requires !HasName(l, name) && p.0 == name
    ensures GetParam(l + [p], name) == Some(p.1)
  {
    if l != [] {
      assert (l + [p])[1..] == l[1..] + [p];
      GetAppendAbsent(l[1..], p, name);
    }
  }

  /** `get` of another name reads only the pairs with that name. */
  lemma {:induction false} GetIgnoresDeleted(l: seq<Pair>, name: string, other: string)
    requires other != name
    ensures GetParam(DeleteParam(l, name), other) == GetParam(l, other)
  {
    if l != [] {
      GetIgnoresDeleted(l[1..], name, other);
    }
  }

  /** `set` and `delete` of one name leave `get` of every other name unchanged. */
  lemma OtherNamesUnchanged(l: seq<Pair>, name: string, value: string, other: string)
    requires other != name
    ensures GetParam(SetParam(l, name, value), other) == GetParam(l, other)
    ensures GetParam(DeleteParam(l, name), other) == GetParam(l, other)
  {
    SetParamEffect(l, name, value);
    GetIgnoresDeleted(SetParam(l, name, value), name, other);
    GetIgnoresDeleted(l, name, other);
  }

  /** After `delete(name)`, `get(name)` gives null; deleting twice is deleting once. */
  lemma DeleteParamEffect(l: seq<Pair>, name: string)
    ensures GetParam(DeleteParam(l, name), name) == None
    ensures DeleteParam(DeleteParam(l, name), name) == DeleteParam(l, name)
  {
    DeleteAbsent(DeleteParam(l, name), name);
  }

  /** Setting the same pair twice is setting it once. */
  lemma SetParamIdempotent(l: seq<Pair>, name: string, value: string)
    ensures SetParam(SetParam(l, name, value), name, value) == SetParam(l, name, value)
  {
    var once := SetParam(l, name, value);
    SetParamEffect(l, name, value);
    SameValueReplace(once, name, value);
  }

  lemma {:induction false} SameValueReplace(l: seq<Pair>, name: string, value: string)
    requires GetParam(l, name) == Some(value)
    requires |l| == |DeleteParam(l, name)| + 1
    ensures ReplaceFirst(l, name, value) == l
  {
    if l[0].0 == name {
      assert l[0] == (name, value);
      assert |DeleteParam(l, name)| == |DeleteParam(l[1..], name)|;
      DeleteShorter(l[1..], name);
      assert !HasName(l[1..], name);
      DeleteAbsent(l[1..], name);
      assert l == [l[0]] + l[1..];
    } else {
      assert |DeleteParam(l, name)| == 1 + |DeleteParam(l[1..], name)|;
      SameValueReplace(l[1..], name, value);
      assert l == [l[0]] + l[1..];
    }
  }

  /** Deleting a name that is present makes the list shorter. */
  lemma {:induction false} DeleteShorter(l: seq<Pair>, name: string)
    ensures |DeleteParam(l, name)| <= |l|
    ensures HasName(l, name) ==> |DeleteParam(l, name)| < |l|
  {
    if l != [] {
      DeleteShorter(l[1..], name);
    }
  }

  // ---------------------------------------------------------------------------

  /** A URLSearchParams object: its list of pairs, changed in place. */
  class ParamList {
    var pairs: seq<Pair>

    /** `new URLSearchParams(init)`, from the pairs of an existing query. */
    constructor (init: seq<Pair>)
      ensures pairs == init
    {
      pairs := init;
    }

    method Set(name: string, value: string)
      modifies this
      ensures pairs == SetParam(old(pairs), name, value)
    {
      var l := pairs;
      var out: seq<Pair> := [];
      var found := false;
      var i := 0;
      while i < |l|
        invariant 0 <= i <= |l|
        invariant found == HasName(l[..i], name)
        invariant out == if found then ReplaceFirst(l[..i], name, value) else l[..i]
      {
        var p := l[i];
        assert l[..i + 1] == l[..i] + [p];
        HasNameAppend(l[..i], p, name);
        if found {
          ReplaceFirstAppendPresent(l[..i], p, name, value);
        } else if p.0 == name {
          ReplaceFirstAppendAbsent(l[..i], p, name, value);
        }
        if p.0 == name {
          if !found {
            out := out + [(name, value)];
            found := true;
          }
        } else {
          out := out + [p];
        }
        i := i + 1;
      }
      assert l[..i] == l;
      if !found {
        out := out + [(name, value)];
      }
      pairs := out;
    }

    method Delete(name: string)
      modifies this
      ensures pairs == DeleteParam(old(pairs), name)
    {
      var l := pairs;
      var kept: seq<Pair> := [];
      var i := 0;
      while i < |l|
        invariant 0 <= i <= |l|
        invariant kept == DeleteParam(l[..i], name)
      {
        assert l[..i + 1] == l[..i] + [l[i]];
        DeleteAppend(l[..i], l[i], name);
        if l[i].0 != name {
          kept := kept + [l[i]];
        }
        i := i + 1;
      }
      assert l[..i] == l;
      pairs := kept;
    }
  }
}
