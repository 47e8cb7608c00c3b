/** The property-update builder of the write-to-entry function: a property name, a value and a
    property type become the `properties` map sent with Notion's page update. */
module Properties {
  import opened Wrappers
  import opened Blocks

  /** A page property value. A number keeps the text it is converted from: the conversion
      itself (JavaScript's `Number`) is not modelled. */
  datatype PropertyValue =
    | RichTextValue(segments: seq<RichText>)
    | NumberValue(source: string)

  type PropertyMap = map<string, PropertyValue>

  /** The `properties` sent for one update request. Only the types "text" and "number" set a
      key; any other type leaves the map empty, and the update is still sent. The text segment
      of a "text" update carries no link. */
  function UpdateProperty(property: string, value: string, kind: string): (r: PropertyMap)
    ensures |r| <= 1
    ensures r.Keys == (if kind == "text" || kind == "number" then {property} else {})
    ensures kind == "text" ==> r[property] == RichTextValue([RichText(value, None)])
    ensures kind == "number" ==> r[property] == NumberValue(value)
  {
    match kind
    case "text" => map[property := RichTextValue([RichText(value, None)])]
    case "number" => map[property := NumberValue(value)]
    case _ => map[]
  }

  /** Notion's page update: the properties sent replace the page's properties of the same
      name; the others are kept. */
  function ApplyUpdate(page: PropertyMap, update: PropertyMap): PropertyMap {
    page + update
  }

  /** The plain text of a run of rich-text segments. */
  function PlainText(segments: seq<RichText>): string {
    if |segments| == 0 then "" else segments[0].content + PlainText(segments[1..])
  }

  /** The text a page shows for a rich-text property. */
  function ReadText(page: PropertyMap, name: string): Option<string> {
    if name in page && page[name].RichTextValue? then Some(PlainText(page[name].segments)) else None
  }

  /** The source text of a number property. */
  function ReadNumber(page: PropertyMap, name: string): Option<string> {
    if name in page && page[name].NumberValue? then Some(page[name].source) else None
  }

  /** Round trip through Notion: after the update the named property reads back as the value
      sent, every other property is unchanged, and an unsupported type changes nothing. */
  lemma UpdateThenRead(page: PropertyMap, property: string, value: string, kind: string)
    ensures var after := ApplyUpdate(page, UpdateProperty(property, value, kind));
            && (kind == "text" ==> ReadText(after, property) == Some(value))
            && (kind == "number" ==> ReadNumber(after, property) == Some(value))
            && (forall k :: k in page && k != property ==> k in after && after[k] == page[k])
            && (kind != "text" && kind != "number" ==> after == page)
  {
    var after := ApplyUpdate(page, UpdateProperty(property, value, kind));
    if kind == "text" {
      assert after[property].segments == [RichText(value, None)];
      var one := [RichText(value, None)];
      assert one[1..] == [];
      assert PlainText(one) == value + "" == value;
    }
  }
}
