/** A request query as the handlers build it: a JavaScript object used as a
    record. Its keys keep their insertion order, which is the order the
    parameters reach the URL, so it is a list of key/value entries.
    Assigning to an existing key keeps its place; a new key goes last. */
module Query {
  import opened Wrappers
  import opened JsValue

  type Query = seq<(string, Value)>

  function Keys(q: Query): (ks: seq<string>)
    ensures |ks| == |q|
  {
    if q == [] then [] else [q[0].0] + Keys(q[1..])
  }

  lemma {:induction false} KeysAt(q: Query)
    ensures forall i :: 0 <= i < |q| ==> Keys(q)[i] == q[i].0
  {
    if q != [] {
      KeysAt(q[1..]);
      assert forall i :: 1 <= i < |q| ==> q[1..][i - 1] == q[i];
    }
  }

  /** Every key at most once, as in any JavaScript object. */
  predicate UniqueKeys(q: Query) {
    forall i, j :: 0 <= i < j < |q| ==> q[i].0 != q[j].0
  }

  /** `q[key]`: `undefined` when the key is absent. */
  function Lookup(q: Query, key: string): (v: Value)
    ensures key !in Keys(q) ==> v == Undefined
  {
    if q == [] then Undefined
    else if q[0].0 == key then q[0].1
    else Lookup(q[1..], key)
  }

  /** `q[key] = v` */
  function Set(q: Query, key: string, v: Value): Query {
    if q == [] then [(key, v)]
    else if q[0].0 == key then [(key, v)] + q[1..]
    else [q[0]] + Set(q[1..], key, v)
  }

  /** Assigning a key gives it the new value and leaves every other key as
      it was; an existing key keeps its place, a new one goes last. */
  lemma SetFields(q: Query, key: string, v: Value)
    ensures key in Keys(Set(q, key, v)) && Lookup(Set(q, key, v), key) == v
    ensures forall k :: k != key ==> Lookup(Set(q, key, v), k) == Lookup(q, k)
    ensures Keys(Set(q, key, v)) == if key in Keys(q) then Keys(q) else Keys(q) + [key]
  {
    SetStores(q, key, v);
    forall k | k != key ensures Lookup(Set(q, key, v), k) == Lookup(q, k) {
      SetKeepsOther(q, key, v, k);
    }
    SetKeys(q, key, v);
  }

  lemma {:induction false} SetStores(q: Query, key: string, v: Value)
    ensures key in Keys(Set(q, key, v)) && Lookup(Set(q, key, v), key) == v
  {
    if q != [] && q[0].0 != key {
      SetStores(q[1..], key, v);
      assert Keys(Set(q, key, v)) == [q[0].0] + Keys(Set(q[1..], key, v));
    }
  }

  lemma {:induction false} SetKeepsOther(q: Query, key: string, v: Value, k: string)
    requires k != key
    ensures Lookup(Set(q, key, v), k) == Lookup(q, k)
  {
    if q != [] && q[0].0 != key {
      SetKeepsOther(q[1..], key, v, k);
      assert Set(q, key, v)[1..] == Set(q[1..], key, v);
    } else if q != [] {
      assert Set(q, key, v)[1..] == q[1..];
    }
  }

  lemma {:induction false} SetKeys(q: Query, key: string, v: Value)
    ensures Keys(Set(q, key, v)) == if key in Keys(q) then Keys(q) else Keys(q) + [key]
  {
    if q == [] {
      assert Keys(Set(q, key, v)) == [key];
    } else if q[0].0 == key {
      assert Set(q, key, v)[1..] == q[1..];
      assert Keys(Set(q, key, v)) == [key] + Keys(q[1..]) == Keys(q);
    } else {
      var r := Set(q[1..], key, v);
      SetKeys(q[1..], key, v);
      assert Set(q, key, v) == [q[0]] + r;
      assert Keys(Set(q, key, v)) == [q[0].0] + Keys(r);
      assert Keys(q) == [q[0].0] + Keys(q[1..]);
      assert key in Keys(q) <==> key in Keys(q[1..]);
    }
  }

  /** Assigning a key never repeats one. */
  lemma SetKeepsUniqueKeys(q: Query, key: string, v: Value)
    requires UniqueKeys(q)
    ensures UniqueKeys(Set(q, key, v))
  {
    var r := Set(q, key, v);
    SetFields(q, key, v);
    KeysAt(q);
    KeysAt(r);
    forall i, j | 0 <= i < j < |r| ensures r[i].0 != r[j].0 {
      assert r[i].0 == Keys(r)[i] && r[j].0 == Keys(r)[j];
      if j < |q| {
        assert Keys(r)[i] == Keys(q)[i] && Keys(r)[j] == Keys(q)[j];
      } else {
        assert Keys(r)[i] == q[i].0 && Keys(r)[j] == key;
        assert q[i].0 in Keys(q);
      }
    }
  }

  /** `delete q[key]` */
  function Delete(q: Query, key: string): Query {
    if q == [] then []
    else if q[0].0 == key then Delete(q[1..], key)
    else [q[0]] + Delete(q[1..], key)
  }

  /** Deleting a key removes it and leaves every other key as it was. */
  lemma {:induction false} DeleteFields(q: Query, key: string)
    ensures key !in Keys(Delete(q, key))
    ensures forall k :: k != key ==> Lookup(Delete(q, key), k) == Lookup(q, k)
    ensures forall k :: k in Keys(Delete(q, key)) <==> k in Keys(q) && k != key
    ensures key !in Keys(q) ==> Delete(q, key) == q
  {
    if q != [] {
      DeleteFields(q[1..], key);
      assert Keys(q) == [q[0].0] + Keys(q[1..]);
    }
  }

  /** Assigning a key that is not there yet adds it at the end. */
  lemma {:induction false} SetAppends(q: Query, key: string, v: Value)
    requires key !in Keys(q)
    ensures Set(q, key, v) == q + [(key, v)]
  {
    if q != [] {
      assert Keys(q) == [q[0].0] + Keys(q[1..]);
      SetAppends(q[1..], key, v);
      assert [q[0]] + (q[1..] + [(key, v)]) == q + [(key, v)];
    }
  }

  // ---------------------------------------------------------------------------
  // Objects filled by conditional assignments

  /** A field a handler may assign: its key, and its value when it is given. */
  type Assignment = (string, Option<Value>)

  function Names(fields: seq<Assignment>): (ns: seq<string>)
    ensures |ns| == |fields|
  {
    if fields == [] then [] else Names(fields[..|fields| - 1]) + [fields[|fields| - 1].0]
  }

  predicate DistinctNames(fields: seq<Assignment>) {
    forall i, j :: 0 <= i < j < |fields| ==> fields[i].0 != fields[j].0
  }

  /** The object an empty literal becomes after `if (given) q.key = value`
      for each field in turn: the given fields, in order. */
  function Given(fields: seq<Assignment>): (q: Query)
    ensures |q| <= |fields|
  {
    if fields == [] then []
    else
      var last := fields[|fields| - 1];
      Given(fields[..|fields| - 1]) + (if last.1.Some? then [(last.0, last.1.value)] else [])
  }

  /** The keys of the object are among the field names. */
  lemma {:induction false} GivenKeys(fields: seq<Assignment>)
    ensures forall k :: k in Keys(Given(fields)) ==> k in Names(fields)
  {
    if fields != [] {
      var init := fields[..|fields| - 1];
      var last := fields[|fields| - 1];
      GivenKeys(init);
      KeysAppend(Given(init), if last.1.Some? then [(last.0, last.1.value)] else []);
    }
  }

  /** A field is in the object exactly when it is given, with its value;
      no key appears twice. */
  lemma {:induction false} GivenLookup(fields: seq<Assignment>, i: int)
    requires DistinctNames(fields) && 0 <= i < |fields|
    ensures fields[i].0 in Keys(Given(fields)) <==> fields[i].1.Some?
    ensures Lookup(Given(fields), fields[i].0) == fields[i].1.GetOr(Undefined)
  {
    var init := fields[..|fields| - 1];
    var last := fields[|fields| - 1];
    var tail: Query := if last.1.Some? then [(last.0, last.1.value)] else [];
    KeysAppend(Given(init), tail);
    if i == |fields| - 1 {
      GivenKeys(init);
      assert last.0 !in Names(init) by {
        NamesAt(init);
      }
      LookupAppend(Given(init), tail, last.0);
    } else {
      GivenLookup(init, i);
      LookupAppend(Given(init), tail, fields[i].0);
    }
  }

  lemma {:induction false} NamesAt(fields: seq<Assignment>)
    ensures forall j :: 0 <= j < |fields| ==> Names(fields)[j] == fields[j].0
  {
    if fields != [] {
      NamesAt(fields[..|fields| - 1]);
    }
  }

  /** Built from distinct names, the object never repeats a key. */
  lemma {:induction false} GivenUnique(fields: seq<Assignment>)
    requires DistinctNames(fields)
    ensures UniqueKeys(Given(fields))
  {
    if fields != [] {
      var init := fields[..|fields| - 1];
      var last := fields[|fields| - 1];
      GivenUnique(init);
      if last.1.Some? {
        var q := Given(fields);
        GivenKeys(init);
        NamesAt(init);
        assert last.0 !in Names(init);
        KeysAt(Given(init));
        forall i | 0 <= i < |Given(init)| ensures Given(init)[i].0 != last.0 {
          assert Given(init)[i].0 == Keys(Given(init))[i];
        }
      }
    }
  }

  lemma {:induction false} KeysAppend(a: Query, b: Query)
    ensures Keys(a + b) == Keys(a) + Keys(b)
  {
    if a != [] {
      KeysAppend(a[1..], b);
      assert (a + b)[1..] == a[1..] + b;
    } else {
      assert a + b == b;
    }
  }

  lemma {:induction false} LookupAppend(a: Query, b: Query, key: string)
    ensures Lookup(a + b, key) == if key in Keys(a) then Lookup(a, key) else Lookup(b, key)
  {
    if a != [] {
      LookupAppend(a[1..], b, key);
      assert (a + b)[1..] == a[1..] + b;
      assert Keys(a) == [a[0].0] + Keys(a[1..]);
    } else {
      assert a + b == b;
    }
  }

  /** `if (given) q.key = value` for the next of the fields, whose key is
      not in the object yet. */
  method Assign(q: Query, ghost fields: seq<Assignment>, ghost k: int, field: Assignment) returns (q': Query)
    requires DistinctNames(fields) && 0 <= k < |fields| && fields[k] == field
    requires q == Given(fields[..k])
    ensures q' == Given(fields[..k + 1])
  {
    var before := fields[..k];
    assert fields[..k + 1][..k] == before;
    q' := q;
    if field.1.Some? {
      GivenKeys(before);
      NamesAt(before);
      SetAppends(q, field.0, field.1.value);
      q' := Set(q, field.0, field.1.value);
    }
  }
}
