/** Value types shared by the backend (Python) and the dashboard (JavaScript) models. */
module Common {

  datatype Option<+T> = None | Some(value: T)
  {
    function GetOr(default: T): T
    {
      match this
      case Some(v) => v
      case None => default
    }
  }

  lemma AppendAssoc<T>(a: seq<T>, b: seq<T>, c: seq<T>)
    ensures a + b + c == a + (b + c)
  {
  }

  /** A non-empty list is its init followed by its last element. */
  lemma SplitLast<T>(a: seq<T>, b: seq<T>)
    requires |b| > 0
    ensures b == b[..|b| - 1] + [b[|b| - 1]]
    ensures a + b == (a + b[..|b| - 1]) + [b[|b| - 1]]
  {
  }

  /** A measured value as it arrives in a measurement envelope: a JSON number,
      or a string such as "NaN" sent by a board that lost its sensor. */
  datatype Reading = Num(x: real) | Str(s: string)

  /** First value stored under `key` in an ordered key/value list
      (a Python dict or a JavaScript object). */
  function Lookup<V>(entries: seq<(string, V)>, key: string): (r: Option<V>)
    ensures r.Some? <==> exists i :: 0 <= i < |entries| && entries[i].0 == key
    ensures r.Some? ==> exists i :: 0 <= i < |entries| && entries[i] == (key, r.value)
  {
    if |entries| == 0 then None
    else if entries[0].0 == key then Some(entries[0].1)
    else
      var r := Lookup(entries[1..], key);
      assert forall i :: 1 <= i < |entries| ==> entries[i] == entries[1..][i - 1];
      r
  }
  /** `obj[key] = v` on an ordered key/value list: an existing key keeps its
      place and takes the new value, a new key goes at the end. */
  function Assign<V>(obj: seq<(string, V)>, key: string, v: V): (r: seq<(string, V)>)
    ensures Lookup(r, key) == Some(v)
    ensures forall k :: k != key ==> Lookup(r, k) == Lookup(obj, k)
    ensures Lookup(obj, key).Some? ==> |r| == |obj|
    ensures Lookup(obj, key).None? ==> r == obj + [(key, v)]
  {
    if |obj| == 0 then [(key, v)]
    else if obj[0].0 == key then [(key, v)] + obj[1..]
    else
      var rest := Assign(obj[1..], key, v);
      assert Lookup(obj, key) == Lookup(obj[1..], key);
      [obj[0]] + rest
  }

  /** The value last paired with `key` in a list of assignments. */
  function LastValue<V>(entries: seq<(string, V)>, key: string): (r: Option<V>)
    ensures r.Some? <==> exists i :: 0 <= i < |entries| && entries[i].0 == key
  {
    if |entries| == 0 then None
    else if entries[|entries| - 1].0 == key then Some(entries[|entries| - 1].1)
    else
      var r := LastValue(entries[..|entries| - 1], key);
      assert forall i :: 0 <= i < |entries| - 1 ==> entries[i] == entries[..|entries| - 1][i];
      r
  }

  /** The assignments `obj[k] = v`, one after the other. */
  function AssignAll<V>(obj: seq<(string, V)>, entries: seq<(string, V)>): seq<(string, V)>
  {
    if |entries| == 0 then obj
    else
      var last := entries[|entries| - 1];
      Assign(AssignAll(obj, entries[..|entries| - 1]), last.0, last.1)
  }

  lemma AssignAllSnoc<V>(obj: seq<(string, V)>, entries: seq<(string, V)>, key: string, v: V)
    ensures AssignAll(obj, entries + [(key, v)]) == Assign(AssignAll(obj, entries), key, v)
  {
    assert (entries + [(key, v)])[..|entries|] == entries;
  }

  /** One more entry of a run of assignments, taken from the run's prefix. */
  lemma AssignAllPrefixSnoc<V>(obj: seq<(string, V)>, entries: seq<(string, V)>, i: nat)
    requires i < |entries|
    ensures AssignAll(obj, entries[..i + 1]) == Assign(AssignAll(obj, entries[..i]), entries[i].0, entries[i].1)
  {
    assert entries[..i + 1][..i] == entries[..i];
  }

  /** After a run of assignments, a key holds the value last assigned to it,
      or its old value if it was never assigned. */
  lemma {:induction false} AssignAllLookup<V>(obj: seq<(string, V)>, entries: seq<(string, V)>, key: string)
    ensures Lookup(AssignAll(obj, entries), key)
            == if LastValue(entries, key).Some? then LastValue(entries, key) else Lookup(obj, key)
  {
    if |entries| > 0 {
      AssignAllLookup(obj, entries[..|entries| - 1], key);
    }
  }

  /** Running two lists of assignments is running their concatenation. */
  lemma {:induction false} AssignAllAppend<V>(obj: seq<(string, V)>, a: seq<(string, V)>, b: seq<(string, V)>)
    ensures AssignAll(obj, a + b) == AssignAll(AssignAll(obj, a), b)
  {
    if |b| == 0 {
      assert a + b == a;
    } else {
      AssignAllAppend(obj, a, b[..|b| - 1]);
      assert (a + b)[..|a + b| - 1] == a + b[..|b| - 1];
    }
  }

  lemma {:induction false} LastValueAppend<V>(a: seq<(string, V)>, b: seq<(string, V)>, key: string)
    ensures LastValue(a + b, key) == if LastValue(b, key).Some? then LastValue(b, key) else LastValue(a, key)
  {
    if |b| == 0 {
      assert a + b == a;
    } else {
      assert (a + b)[..|a + b| - 1] == a + b[..|b| - 1];
      LastValueAppend(a, b[..|b| - 1], key);
    }
  }
}
