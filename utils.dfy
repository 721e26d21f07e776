/** Flag parsing and request helpers shared by every command (src/utils.ts). */
module Utils {
  import opened Wrappers
  import opened JsValue
  import opened Exits
  import Text
  import Numbers
  import Query

  // ---------------------------------------------------------------------------
  // parseOptionalBoolean

  function InvalidBoolean(flagName: string): Failure {
    Failure("Invalid value for " + flagName + "; expected true or false.", USAGE)
  }

  /** A string flag value as `parseOptionalBoolean` compares it. */
  function NormalizeFlag(s: string): string {
    Text.ToLower(Text.Trim(s))
  }

  /** Three-valued boolean flag: absent, true or false; anything it cannot
      read is a usage error. A bare flag reaches it as the empty string. */
  function ParseOptionalBoolean(value: Value, flagName: string): (r: Result<Option<bool>, Failure>)
    ensures r == Ok(None) <==> value == Undefined
    ensures r.Err? ==> r.error == InvalidBoolean(flagName)
  {
    match value
    case Undefined => Ok(None)
    case Bool(b) => Ok(Some(b))
    case Num(n) => Ok(Some(n != 0))
    case Str(s) => ReadBoolean(NormalizeFlag(s), flagName)
    case _ => Err(InvalidBoolean(flagName))
  }

  /** The words a normalized string flag value may be. */
  function ReadBoolean(normalized: string, flagName: string): Result<Option<bool>, Failure> {
    if normalized == "" || normalized == "true" || normalized == "1" then Ok(Some(true))
    else if normalized == "false" || normalized == "0" then Ok(Some(false))
    else Err(InvalidBoolean(flagName))
  }

  /** Which values read as true, which as false and which are refused. */
  lemma ParseOptionalBooleanCases(value: Value, flagName: string)
    ensures value.Bool? ==> ParseOptionalBoolean(value, flagName) == Ok(Some(value.b))
    ensures value.Num? ==> ParseOptionalBoolean(value, flagName) == Ok(Some(value.n != 0))
    ensures value.Str? ==>
      (ParseOptionalBoolean(value, flagName) == Ok(Some(true)) <==> NormalizeFlag(value.s) in {"", "true", "1"})
    ensures value.Str? ==>
      (ParseOptionalBoolean(value, flagName) == Ok(Some(false)) <==> NormalizeFlag(value.s) in {"false", "0"})
    ensures ParseOptionalBoolean(value, flagName).Err? <==>
      value.Null? || value.Arr? || value.Obj? ||
      (value.Str? && NormalizeFlag(value.s) !in {"", "true", "1", "false", "0"})
  {
  }

  /** White space around a string flag value does not change how it reads. */
  lemma ParseOptionalBooleanIgnoresPadding(before: string, s: string, after: string, flagName: string)
    requires Text.AllSpace(before) && Text.AllSpace(after) && Text.Trimmed(s)
    ensures ParseOptionalBoolean(Str(before + (s + after)), flagName) == ParseOptionalBoolean(Str(s), flagName)
  {
    var padded := before + (s + after);
    NormalizeFlagIgnoresPadding(before, s, after);
    assert ParseOptionalBoolean(Str(padded), flagName) == ReadBoolean(NormalizeFlag(padded), flagName);
    assert ParseOptionalBoolean(Str(s), flagName) == ReadBoolean(NormalizeFlag(s), flagName);
  }

  lemma NormalizeFlagIgnoresPadding(before: string, s: string, after: string)
    requires Text.AllSpace(before) && Text.AllSpace(after) && Text.Trimmed(s)
    ensures NormalizeFlag(before + (s + after)) == NormalizeFlag(s)
  {
    Text.TrimDropsPadding(before, s, after);
    Text.TrimOfTrimmed(s);
  }

  // ---------------------------------------------------------------------------
  // parsePositiveInt

  function InvalidPositiveInt(flagName: string): Failure {
    Failure("Invalid value for " + flagName + "; expected a positive integer.", USAGE)
  }

  /** A number is taken as it is; anything else goes through
      `Number.parseInt(String(value), 10)`. */
  function NumericValue(value: Value): Option<int> {
    if value.Num? then Some(value.n) else Numbers.ParseIntPrefix(ToJsString(value))
  }

  /** Positive integer flag: absent, or a value above zero; NaN, zero and
      negative values are usage errors. */
  function ParsePositiveInt(value: Value, flagName: string): (r: Result<Option<int>, Failure>)
    ensures r == Ok(None) <==> value == Undefined
    ensures r.Ok? && r.value.Some? ==> r.value.value > 0 && NumericValue(value) == r.value
    ensures value.Num? ==> (r.Ok? <==> value.n > 0)
    ensures r.Err? <==> value != Undefined && (NumericValue(value).None? || NumericValue(value).value <= 0)
    ensures r.Err? ==> r.error == InvalidPositiveInt(flagName)
  {
    if value == Undefined then Ok(None)
    else
      var parsed := NumericValue(value);
      if parsed.None? || parsed.value <= 0 then Err(InvalidPositiveInt(flagName))
      else Ok(Some(parsed.value))
  }

  /** A decimal number above zero reads back as itself, whatever white space
      precedes it and whatever non-digit text follows it. */
  lemma ParsePositiveIntOfDecimal(ws: string, n: int, rest: string, flagName: string)
    requires n > 0
    requires Text.AllSpace(ws)
    requires rest == [] || !Numbers.IsDigit(rest[0])
    ensures ParsePositiveInt(Str(ws + (Numbers.IntToString(n) + rest)), flagName) == Ok(Some(n))
  {
    Numbers.ParseIntPrefixOfInt(ws, n, rest);
  }

  /** A decimal integer reads back as itself. */
  lemma NumericValueOfInt(n: int)
    ensures NumericValue(Str(Numbers.IntToString(n))) == Some(n)
  {
    var s := Numbers.IntToString(n);
    assert [] + (s + []) == s;
    Numbers.ParseIntPrefixOfInt([], n, []);
  }

  /** Zero and negative decimals are refused. */
  lemma ParsePositiveIntRefusesNonPositive(n: int, flagName: string)
    requires n <= 0
    ensures ParsePositiveInt(Str(Numbers.IntToString(n)), flagName) == Err(InvalidPositiveInt(flagName))
  {
    NumericValueOfInt(n);
  }

  // ---------------------------------------------------------------------------
  // parseCsvList

  datatype CsvList = CsvList(values: seq<string>, provided: bool)

  /** `items.flatMap(item => String(item).split(","))` */
  function SplitItems(items: seq<Value>): (r: seq<string>)
    ensures forall i :: 0 <= i < |r| ==> ',' !in r[i]
  {
    if items == [] then [] else Text.Split(ToJsString(items[0]), ',') + SplitItems(items[1..])
  }

  lemma SplitItemsOne(s: string)
    ensures SplitItems([Str(s)]) == Text.Split(s, ',')
  {
    assert ToJsString(Str(s)) == s;
    assert [Str(s)][1..] == [];
    assert SplitItems([]) == [];
    assert Text.Split(s, ',') + [] == Text.Split(s, ',');
  }

  /** The pieces of a concatenation of items are the pieces of each part,
      in item order. */
  lemma {:induction false} SplitItemsAppend(a: seq<Value>, b: seq<Value>)
    ensures SplitItems(a + b) == SplitItems(a) + SplitItems(b)
  {
    if a == [] {
      assert a + b == b;
    } else {
      assert (a + b)[0] == a[0];
      assert (a + b)[1..] == a[1..] + b;
      SplitItemsAppend(a[1..], b);
    }
  }

  /** `.map(item => item.trim())` */
  function TrimAll(parts: seq<string>): (r: seq<string>)
    ensures |r| == |parts|
  {
    if parts == [] then [] else [Text.Trim(parts[0])] + TrimAll(parts[1..])
  }

  lemma {:induction false} TrimAllAt(parts: seq<string>, i: int)
    requires 0 <= i < |parts|
    ensures TrimAll(parts)[i] == Text.Trim(parts[i])
  {
    if i > 0 {
      TrimAllAt(parts[1..], i - 1);
      assert parts[1..][i - 1] == parts[i];
    }
  }

  /** Trimming works piece by piece. */
  lemma {:induction false} TrimAllAppend(a: seq<string>, b: seq<string>)
    ensures TrimAll(a + b) == TrimAll(a) + TrimAll(b)
  {
    if a == [] {
      assert a + b == b;
    } else {
      assert (a + b)[0] == a[0];
      assert (a + b)[1..] == a[1..] + b;
      TrimAllAppend(a[1..], b);
    }
  }

  /** Comma-separated list flag: absent, or the trimmed non-empty pieces of
      every item split at commas, in order. */
  function ParseCsvList(value: Value): (r: CsvList)
    ensures r.provided <==> value != Undefined
    ensures !r.provided ==> r.values == []
    ensures forall i :: 0 <= i < |r.values| ==>
      r.values[i] != [] && Text.Trimmed(r.values[i]) && ',' !in r.values[i]
  {
    if value == Undefined then CsvList([], false)
    else
      var items := if value.Arr? then value.items else [value];
      var pieces := SplitItems(items);
      var trimmed := TrimAll(pieces);
      forall i | 0 <= i < |trimmed| ensures ',' !in trimmed[i] && Text.Trimmed(trimmed[i]) {
        TrimAllAt(pieces, i);
        Text.TrimKeepsCharacters(pieces[i]);
      }
      CsvList(Text.NonEmpty(trimmed), true)
  }

  lemma ParseCsvListOfStr(s: string)
    ensures ParseCsvList(Str(s)) == CsvList(Text.NonEmpty(TrimAll(Text.Split(s, ','))), true)
  {
    SplitItemsOne(s);
  }

  /** An array value, such as a repeated `--tags`, gives the values of its
      first items followed by the values of the rest. */
  lemma ParseCsvListOfArrayAppend(xs: seq<Value>, ys: seq<Value>)
    ensures ParseCsvList(Arr(xs + ys)).values == ParseCsvList(Arr(xs)).values + ParseCsvList(Arr(ys)).values
  {
    SplitItemsAppend(xs, ys);
    TrimAllAppend(SplitItems(xs), SplitItems(ys));
    Text.NonEmptyAppend(TrimAll(SplitItems(xs)), TrimAll(SplitItems(ys)));
  }

  /** Each string item of an array reads as that string would on its own. */
  lemma ParseCsvListOfStrItem(s: string)
    ensures ParseCsvList(Arr([Str(s)])).values == ParseCsvList(Str(s)).values
  {
    SplitItemsOne(s);
  }

  /** `--tags a,b --tags c` reads as the values of "a,b" followed by those
      of "c". */
  lemma ParseCsvListOfTwoStrings(x: string, y: string)
    ensures ParseCsvList(Arr([Str(x), Str(y)])).values == ParseCsvList(Str(x)).values + ParseCsvList(Str(y)).values
  {
    assert [Str(x), Str(y)] == [Str(x)] + [Str(y)];
    ParseCsvListOfArrayAppend([Str(x)], [Str(y)]);
    ParseCsvListOfStrItem(x);
    ParseCsvListOfStrItem(y);
  }

  lemma {:induction false} TrimAllOfTrimmed(parts: seq<string>)
    requires forall i :: 0 <= i < |parts| ==> Text.Trimmed(parts[i])
    ensures TrimAll(parts) == parts
  {
    if parts != [] {
      Text.TrimOfTrimmed(parts[0]);
      TrimAllOfTrimmed(parts[1..]);
    }
  }

  /** A list written with commas reads back as the same list, when its
      entries are non-empty, trimmed and free of commas. */
  lemma ParseCsvListOfJoined(tags: seq<string>)
    requires forall i :: 0 <= i < |tags| ==> tags[i] != [] && Text.Trimmed(tags[i]) && ',' !in tags[i]
    ensures ParseCsvList(Str(Text.Join(tags, ','))) == CsvList(tags, true)
  {
    if tags == [] {
      ParseCsvListOfEmpty();
    } else {
      ParseCsvListOfStr(Text.Join(tags, ','));
      Text.SplitJoin(tags, ',');
      TrimAllOfTrimmed(tags);
      Text.NonEmptyKeepsNonEmpty(tags);
    }
  }

  /** An empty string is a list given with no entries. */
  lemma ParseCsvListOfEmpty()
    ensures ParseCsvList(Str("")) == CsvList([], true)
  {
    var parts: seq<string> := [[]];
    ParseCsvListOfStr("");
    assert Text.Split("", ',') == parts;
    assert TrimAll(parts) == parts by {
      TrimAllOfTrimmed(parts);
    }
    assert Text.NonEmpty(parts) == [] by {
      assert parts[1..] == [];
    }
  }

  // ---------------------------------------------------------------------------
  // normalizeStringArray, normalizeBaseUrl

  /** Repeatable string flag: absent, or every given value written as a string, in order. */
  function NormalizeStringArray(value: Value): (r: Option<seq<string>>)
    ensures r.None? <==> value == Undefined
    ensures value.Arr? ==> (r.Some? && |r.value| == |value.items| &&
      forall i :: 0 <= i < |value.items| ==> r.value[i] == ToJsString(value.items[i]))
    ensures !value.Arr? && value != Undefined ==> r == Some([ToJsString(value)])
  {
    if value == Undefined then None
    else
      var items := if value.Arr? then value.items else [value];
      assert value.Arr? ==> forall i :: 0 <= i < |items| ==> JsStrings(items)[i] == ToJsString(items[i]) by {
        if value.Arr? {
          forall i | 0 <= i < |items| ensures JsStrings(items)[i] == ToJsString(items[i]) {
            JsStringsAt(items, i);
          }
        }
      }
      assert !value.Arr? ==> JsStrings(items) == [ToJsString(value)] by {
        assert [value][1..] == [];
      }
      Some(JsStrings(items))
  }

  /** `items.map(item => String(item))` */
  function JsStrings(items: seq<Value>): (r: seq<string>)
    ensures |r| == |items|
  {
    if items == [] then [] else [ToJsString(items[0])] + JsStrings(items[1..])
  }

  lemma {:induction false} JsStringsAt(items: seq<Value>, i: int)
    requires 0 <= i < |items|
    ensures JsStrings(items)[i] == ToJsString(items[i])
  {
    if i > 0 {
      JsStringsAt(items[1..], i - 1);
      assert items[1..][i - 1] == items[i];
    }
  }

  /** A base URL with exactly the trailing slash the caller gave, or one added. */
  function NormalizeBaseUrl(baseUrl: string): (r: string)
    ensures Text.EndsWith(r, "/")
    ensures Text.EndsWith(baseUrl, "/") ==> r == baseUrl
    ensures !Text.EndsWith(baseUrl, "/") ==> r == baseUrl + "/"
  {
    if Text.EndsWith(baseUrl, "/") then baseUrl else baseUrl + "/"
  }

  lemma NormalizeBaseUrlIdempotent(baseUrl: string)
    ensures NormalizeBaseUrl(NormalizeBaseUrl(baseUrl)) == NormalizeBaseUrl(baseUrl)
  {
  }

  // ---------------------------------------------------------------------------
  // toUrlSearchParams

  type Param = (string, string)

  /** The parameters one query entry contributes: none for `undefined`, one
      per element for an array, else one holding `String(value)`. */
  function EntryParams(key: string, value: Value): (r: seq<Param>)
    ensures forall i :: 0 <= i < |r| ==> r[i].0 == key
    ensures value.Undefined? ==> r == []
    ensures value.Arr? ==> (|r| == |value.items| &&
      forall i :: 0 <= i < |r| ==> r[i].1 == ToJsString(value.items[i]))
    ensures !value.Undefined? && !value.Arr? ==> r == [(key, ToJsString(value))]
  {
    if value.Undefined? then []
    else if value.Arr? then
      var r := KeyedParams(key, value.items);
      assert forall i :: 0 <= i < |r| ==> r[i].1 == ToJsString(value.items[i]) by {
        forall i | 0 <= i < |r| ensures r[i].1 == ToJsString(value.items[i]) {
          KeyedParamsAt(key, value.items, i);
        }
      }
      r
    else [(key, ToJsString(value))]
  }

  /** One parameter per array element, each under the same key. */
  function KeyedParams(key: string, items: seq<Value>): (r: seq<Param>)
    ensures |r| == |items|
    ensures forall i :: 0 <= i < |r| ==> r[i].0 == key
  {
    if items == [] then [] else [(key, ToJsString(items[0]))] + KeyedParams(key, items[1..])
  }

  lemma {:induction false} KeyedParamsAt(key: string, items: seq<Value>, i: int)
    requires 0 <= i < |items|
    ensures KeyedParams(key, items)[i] == (key, ToJsString(items[i]))
  {
    if i > 0 {
      KeyedParamsAt(key, items[1..], i - 1);
      assert items[1..][i - 1] == items[i];
    }
  }

  /** The parameters of a whole query, entry after entry. */
  function SearchParams(q: Query.Query): seq<Param> {
    if q == [] then [] else EntryParams(q[0].0, q[0].1) + SearchParams(q[1..])
  }

  /** The parameters of two queries laid end to end are laid end to end. */
  lemma {:induction false} SearchParamsAppend(a: Query.Query, b: Query.Query)
    ensures SearchParams(a + b) == SearchParams(a) + SearchParams(b)
  {
    if a != [] {
      assert (a + b)[0] == a[0];
      assert (a + b)[1..] == a[1..] + b;
      SearchParamsAppend(a[1..], b);
    } else {
      assert a + b == b;
    }
  }

  /** Every parameter names a key of the query whose value is not `undefined`. */
  lemma {:induction false} SearchParamsKeys(q: Query.Query)
    ensures forall p :: p in SearchParams(q) ==>
      p.0 in Query.Keys(q) && exists i :: 0 <= i < |q| && q[i].0 == p.0 && !q[i].1.Undefined?
  {
    if q != [] {
      SearchParamsKeys(q[1..]);
      Query.KeysAt(q);
      forall p | p in SearchParams(q)
        ensures p.0 in Query.Keys(q) && exists i :: 0 <= i < |q| && q[i].0 == p.0 && !q[i].1.Undefined?
      {
        if p in EntryParams(q[0].0, q[0].1) {
          assert q[0].0 == p.0;
          assert Query.Keys(q)[0] == p.0;
        } else {
          assert p in SearchParams(q[1..]);
          var i :| 0 <= i < |q[1..]| && q[1..][i].0 == p.0 && !q[1..][i].1.Undefined?;
          assert q[i + 1] == q[1..][i];
          assert Query.Keys(q)[i + 1] == p.0;
        }
      }
    }
  }

  /** `toUrlSearchParams(query)`: an absent query gives no parameters. */
  method ToUrlSearchParams(query: Option<Query.Query>) returns (params: seq<Param>)
    ensures query.None? ==> params == []
    ensures query.Some? ==> params == SearchParams(query.value)
  {
    params := [];
    if query.None? {
      return;
    }
    var q := query.value;
    var i := 0;
    while i < |q|
      invariant 0 <= i <= |q|
      invariant params == SearchParams(q[..i])
    {
      var (key, value) := q[i];
      params := AppendEntry(params, key, value);
      assert q[..i + 1] == q[..i] + [q[i]];
      SearchParamsAppend(q[..i], [q[i]]);
      i := i + 1;
    }
    assert q[..|q|] == q;
  }

  /** The body of the loop over the entries: nothing for `undefined`, one
      parameter per item of an array, else one parameter. */
  method AppendEntry(params: seq<Param>, key: string, value: Value) returns (params': seq<Param>)
    ensures params' == params + EntryParams(key, value)
  {
    params' := params;
    if value.Undefined? {
    } else if value.Arr? {
      var j := 0;
      while j < |value.items|
        invariant 0 <= j <= |value.items|
        invariant params' == params + EntryParams(key, value)[..j]
      {
        params' := params' + [(key, ToJsString(value.items[j]))];
        j := j + 1;
      }
    } else {
      params' := params' + [(key, ToJsString(value))];
    }
  }


  // ---------------------------------------------------------------------------
  // extractErrorMessage

  /** `record.detail ?? record.error ?? record.message` */
  function ReportedError(data: Value): Value {
    Coalesce(Coalesce(Field(data, "detail"), Field(data, "error")), Field(data, "message"))
  }

  /** The server's own explanation of an error: the first of `detail`,
      `error` and `message` that is present, if it is a string, or the whole
      body if that is a string. */
  function ExtractErrorMessage(data: Value): (r: Option<string>)
    ensures data.Str? ==> r == Some(data.s)
    ensures data.Obj? ==> (r.Some? <==> ReportedError(data).Str?)
    ensures data.Obj? && r.Some? ==> r.value == ReportedError(data).s
    ensures !data.Str? && !data.Obj? ==> r.None?
  {
    if IsObjectLike(data) && ReportedError(data).Str? then Some(ReportedError(data).s)
    else if data.Str? then Some(data.s)
    else None
  }

  /** A `detail` that is present but not a string hides `error` and `message`. */
  lemma ExtractErrorMessageNonStringDetail(data: Value)
    requires data.Obj? && "detail" in data.fields
    requires !Nullish(data.fields["detail"]) && !data.fields["detail"].Str?
    ensures ExtractErrorMessage(data).None?
  {
  }
}
