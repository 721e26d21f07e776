/** The plain-text renderings of server records (src/format.ts): two fields
    of a record, the empty ones dropped, the rest joined by a tab. */
module Format {
  import opened JsValue
  import Text

  /** `typeof record.key === "string" ? record.key : ""` */
  function StringField(record: Value, key: string): (r: string)
    ensures Field(record, key).Str? ==> r == Field(record, key).s
    ensures !Field(record, key).Str? ==> r == []
  {
    if Field(record, key).Str? then Field(record, key).s else []
  }

  /** `[a, b].filter(part => part.length > 0).join("\t")`: the non-empty
      parts joined by a tab; when neither part holds a tab, splitting the
      line at tabs gives those parts back. */
  function TabLine(a: string, b: string): (r: string)
    ensures a == [] && b == [] ==> r == []
    ensures a != [] && b == [] ==> r == a
    ensures a == [] && b != [] ==> r == b
    ensures a != [] && b != [] ==> r == a + "\t" + b
    ensures '\t' !in a && '\t' !in b && r != [] ==> Text.Split(r, '\t') == Text.NonEmpty([a, b])
  {
    var parts := Text.NonEmpty([a, b]);
    NonEmptyOfPair(a, b);
    assert a != [] && b != [] ==> Text.Join(parts, '\t') == a + "\t" + b by {
      if a != [] && b != [] {
        assert parts[1..] == [b];
      }
    }
    assert '\t' !in a && '\t' !in b && parts != [] ==> Text.Split(Text.Join(parts, '\t'), '\t') == parts by {
      if '\t' !in a && '\t' !in b && parts != [] {
        Text.SplitJoin(parts, '\t');
      }
    }
    Text.Join(parts, '\t')
  }

  lemma NonEmptyOfPair(a: string, b: string)
    ensures Text.NonEmpty([a, b]) ==
      if a != [] && b != [] then [a, b] else if a != [] then [a] else if b != [] then [b] else []
  {
    assert [a, b][1..] == [b];
    assert [b][1..] == [];
  }

  /** The first non-empty string among `title`, `source_url` and `url`, else "". */
  function Title(document: Value): (r: string)
    ensures StringField(document, "title") != [] ==> r == StringField(document, "title")
    ensures StringField(document, "title") == [] && StringField(document, "source_url") != [] ==>
      r == StringField(document, "source_url")
    ensures StringField(document, "title") == [] && StringField(document, "source_url") == [] ==>
      r == StringField(document, "url")
  {
    if StringField(document, "title") != [] then StringField(document, "title")
    else if StringField(document, "source_url") != [] then StringField(document, "source_url")
    else StringField(document, "url")
  }

  /** `formatDocumentLine`: the id when it is a string, then the title;
      empty only when both are. */
  function FormatDocumentLine(document: Value): (r: string)
    ensures r == [] <==> StringField(document, "id") == [] && Title(document) == []
    ensures StringField(document, "id") != [] && Title(document) != [] ==>
      r == StringField(document, "id") + "\t" + Title(document)
    ensures '\t' !in StringField(document, "id") && '\t' !in Title(document) && r != [] ==>
      Text.Split(r, '\t') == Text.NonEmpty([StringField(document, "id"), Title(document)])
  {
    TabLine(StringField(document, "id"), Title(document))
  }

  /** `formatTagLine`: the key, then the name. */
  function FormatTagLine(tag: Value): (r: string)
    ensures r == [] <==> StringField(tag, "key") == [] && StringField(tag, "name") == []
    ensures StringField(tag, "key") != [] && StringField(tag, "name") != [] ==>
      r == StringField(tag, "key") + "\t" + StringField(tag, "name")
    ensures '\t' !in StringField(tag, "key") && '\t' !in StringField(tag, "name") && r != [] ==>
      Text.Split(r, '\t') == Text.NonEmpty([StringField(tag, "key"), StringField(tag, "name")])
  {
    TabLine(StringField(tag, "key"), StringField(tag, "name"))
  }

  /** `formatIdAndUrl`: the id, then the URL. */
  function FormatIdAndUrl(data: Value): (r: string)
    ensures r == [] <==> StringField(data, "id") == [] && StringField(data, "url") == []
    ensures StringField(data, "id") != [] && StringField(data, "url") != [] ==>
      r == StringField(data, "id") + "\t" + StringField(data, "url")
    ensures '\t' !in StringField(data, "id") && '\t' !in StringField(data, "url") && r != [] ==>
      Text.Split(r, '\t') == Text.NonEmpty([StringField(data, "id"), StringField(data, "url")])
  {
    TabLine(StringField(data, "id"), StringField(data, "url"))
  }

  /** A document with no string id, title, source URL or URL renders as "". */
  lemma DocumentLineOfBareRecord(document: Value)
    requires !Field(document, "id").Str? && !Field(document, "title").Str?
    requires !Field(document, "source_url").Str? && !Field(document, "url").Str?
    ensures FormatDocumentLine(document) == []
  {
  }
}
