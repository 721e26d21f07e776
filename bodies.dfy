/** The JSON bodies of `document save` and `document update`: an object
    literal filled by `if (given) body.wire_name = value`, one field after
    the other. The body is a map, since the server reads it by key. */
module Bodies {
  import opened Wrappers
  import opened JsValue
  import Query
  import Context
  import Utils

  type Body = map<string, Value>

  /** `if (options.option) body.wire = String(options.option)` */
  function TextField(options: Context.Options, option: string, wire: string): Query.Assignment {
    var given := Context.Opt(options, option);
    (wire, if Truthy(given) then Some(Str(ToJsString(given))) else None)
  }

  /** `if (tags.provided) body.tags = tags.values` */
  function TagsField(tags: Utils.CsvList): Query.Assignment {
    ("tags", if tags.provided then Some(Arr(Strs(tags.values))) else None)
  }

  /** One conditional assignment applied to the body. */
  function Fill(body: Body, field: Query.Assignment): Body {
    if field.1.Some? then body[field.0 := field.1.value] else body
  }

  /** The body after the assignments, in order, starting from `{}`. */
  function Filled(fields: seq<Query.Assignment>): Body {
    if fields == [] then map[] else Fill(Filled(fields[..|fields| - 1]), fields[|fields| - 1])
  }

  /** The keys of the body are among the field names. */
  lemma {:induction false} FilledKeys(fields: seq<Query.Assignment>)
    ensures forall k :: k in Filled(fields) ==> exists i :: 0 <= i < |fields| && fields[i].0 == k
  {
    if fields != [] {
      var init := fields[..|fields| - 1];
      FilledKeys(init);
      assert Filled(fields) == Fill(Filled(init), fields[|fields| - 1]);
      forall k | k in Filled(fields)
        ensures exists i :: 0 <= i < |fields| && fields[i].0 == k
      {
        if k != fields[|fields| - 1].0 {
          var i :| 0 <= i < |init| && init[i].0 == k;
          assert fields[i] == init[i];
        }
      }
    }
  }

  /** With distinct names, a field is in the body exactly when it is given,
      and then with its value. */
  lemma {:induction false} FilledLookup(fields: seq<Query.Assignment>, i: int)
    requires Query.DistinctNames(fields) && 0 <= i < |fields|
    ensures fields[i].0 in Filled(fields) <==> fields[i].1.Some?
    ensures fields[i].1.Some? ==> Filled(fields)[fields[i].0] == fields[i].1.value
  {
    var init := fields[..|fields| - 1];
    if i < |fields| - 1 {
      assert init[i] == fields[i];
      assert Query.DistinctNames(init);
      FilledLookup(init, i);
    } else {
      FilledKeys(init);
      assert fields[i].0 !in Filled(init) by {
        forall j | 0 <= j < |init| ensures init[j].0 != fields[i].0 {
          assert init[j] == fields[j];
        }
      }
    }
  }

  /** The body is empty exactly when no field is given. */
  lemma {:induction false} FilledEmpty(fields: seq<Query.Assignment>)
    ensures Filled(fields) == map[] <==> forall i :: 0 <= i < |fields| ==> fields[i].1.None?
  {
    if fields != [] {
      var init := fields[..|fields| - 1];
      FilledEmpty(init);
      if fields[|fields| - 1].1.Some? {
        assert fields[|fields| - 1].0 in Filled(fields);
      } else {
        assert forall i :: 0 <= i < |init| ==> init[i] == fields[i];
      }
    }
  }

  /** `if (given) body.name = value`, as the `k`-th of the fields. */
  method Put(body: Body, ghost fields: seq<Query.Assignment>, ghost k: int, field: Query.Assignment) returns (body': Body)
    requires 0 <= k < |fields| && fields[k] == field
    requires body == Filled(fields[..k])
    ensures body' == Filled(fields[..k + 1])
  {
    assert fields[..k + 1][..k] == fields[..k];
    body' := body;
    if field.1.Some? {
      body' := body[field.0 := field.1.value];
    }
  }
}
