/**
 The part of the URL standard's `URLSearchParams` that the gate uses: a query
 is an ordered list of name/value pairs (already percent-decoded); `get`
 returns the value of the first pair with the given name, and `set` replaces
 the first such pair's value and drops the later ones, or appends a pair when
 there is none.
 */
module SearchParams {
  import opened JsValues

  type Query = seq<(string, string)>

  /** True when some pair of `q` is named `name`. */
  predicate HasName(q: Query, name: string) {
    exists i | 0 <= i < |q| :: q[i].0 == name
  }

  /** The number of pairs of `q` named `name`. */
  function CountName(q: Query, name: string): nat {
    if q == [] then 0
    else (if q[0].0 == name then 1 else 0) + CountName(q[1..], name)
  }

  /** `params.get(name)`: the value of the first pair named `name`, or null. */
  function Get(q: Query, name: string): (r: Option<string>)
    ensures r.None? <==> !HasName(q, name)
    ensures r.Some? ==> exists i | 0 <= i < |q| ::
                          q[i] == (name, r.value) && forall j | 0 <= j < i :: q[j].0 != name
  {
    if q == [] then None
    else if q[0].0 == name then Some(q[0].1)
    else
      var r := Get(q[1..], name);
      assert forall i | 1 <= i < |q| :: q[i] == q[1..][i - 1];
      r
  }

  /** The pairs of `q` that are not named `name`. */
  function RemoveName(q: Query, name: string): (r: Query)
    ensures !HasName(r, name) && CountName(r, name) == 0
    ensures forall pair: (string, string) | pair.0 != name :: multiset(r)[pair] == multiset(q)[pair]
    ensures |r| + CountName(q, name) == |q|
  {
    if q == [] then []
    else
      assert q == [q[0]] + q[1..];
      if q[0].0 == name then RemoveName(q[1..], name)
      else
        var rest := RemoveName(q[1..], name);
        assert ([q[0]] + rest)[1..] == rest;
        [q[0]] + rest
  }

  /** `params.set(name, value)`. */
  function SetParam(q: Query, name: string, value: string): (r: Query)
    ensures CountName(r, name) == 1
    ensures (name, value) in r
    ensures forall pair: (string, string) | pair.0 != name :: multiset(r)[pair] == multiset(q)[pair]
    ensures |r| == |q| - CountName(q, name) + 1
  {
    if q == [] then [(name, value)]
    else
      assert q == [q[0]] + q[1..];
      if q[0].0 == name then
        var rest := RemoveName(q[1..], name);
        assert ([(name, value)] + rest)[1..] == rest;
        [(name, value)] + rest
      else
        var rest := SetParam(q[1..], name, value);
        assert ([q[0]] + rest)[1..] == rest;
        [q[0]] + rest
  }

  /** Removing one name leaves the first value of every other name as it was. */
  lemma {:induction false} GetRemoveOther(q: Query, name: string, other: string)
    requires other != name
    ensures Get(RemoveName(q, name), other) == Get(q, other)
  {
    if q != [] {
      GetRemoveOther(q[1..], name, other);
    }
  }

  /** After `set`, `get` of the same name returns the value just set. */
  lemma {:induction false} GetSetSame(q: Query, name: string, value: string)
    ensures Get(SetParam(q, name, value), name) == Some(value)
  {
    if q != [] && q[0].0 != name {
      GetSetSame(q[1..], name, value);
    }
  }

  /** `set` of one name leaves `get` of every other name unchanged. */
  lemma {:induction false} GetSetOther(q: Query, name: string, value: string, other: string)
    requires other != name
    ensures Get(SetParam(q, name, value), other) == Get(q, other)
  {
    if q != [] {
      if q[0].0 == name {
        GetRemoveOther(q[1..], name, other);
      } else {
        GetSetOther(q[1..], name, value, other);
      }
    }
  }
}
