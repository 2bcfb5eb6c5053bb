/**
 * Decoded values, the errors a decode can end in, and the mutable instance
 * the decode engine fills in.
 */
module Objects {
  import opened Json
  import opened Descriptors

  /** A `java.net.URI`, kept as its text (no parsing is modelled). */
  datatype Uri = Uri(text: string)

  /** A field of an instance; Java keys it by declaring class and name. */
  datatype FieldId = FieldId(owner: ClassName, name: string)

  function Key(f: Field): FieldId { FieldId(f.owner, f.name) }

  /** What a field of a decoded object holds. */
  datatype Value =
    | Null
    | Text(chars: string)                                  // a java.lang.String
    | UriRef(uri: Uri)                                     // a java.net.URI
    | Object(cls: ClassName, slots: map<FieldId, Value>)   // an instance of a described class
    | Other(cls: ClassName, data: Json)                    // any other value of the mapper

  type Slots = map<FieldId, Value>

  /** `value.getClass()`, which throws on null. */
  function RuntimeClass(v: Value): ClassName
    requires !v.Null?
  {
    match v
    case Text(_) => StringName
    case UriRef(_) => UriName
    case Object(c, _) => c
    case Other(c, _) => c
  }

  /** The link-object record of `HalLinkObject`. */
  datatype LinkObject = LinkObject(
    href: Option<string>,
    templated: bool,
    mediaType: Option<string>,
    name: Option<string>,
    profile: Option<Uri>,
    deprecation: Option<Uri>,
    title: Option<string>,
    hreflang: Option<string>)

  const HrefId := FieldId(HalLinkObjectName, "href")

  function TextOrNull(s: Option<string>): Value
  {
    if s.Some? then Text(s.value) else Null
  }

  function UriOrNull(u: Option<Uri>): Value
  {
    if u.Some? then UriRef(u.value) else Null
  }

  /** A link record as the `HalLinkObject` instance that holds it. */
  function LinkObjectValue(l: LinkObject): Value
  {
    Object(HalLinkObjectName, map[
      HrefId := TextOrNull(l.href),
      FieldId(HalLinkObjectName, "templated") := Other(BooleanName, JBool(l.templated)),
      FieldId(HalLinkObjectName, "type") := TextOrNull(l.mediaType),
      FieldId(HalLinkObjectName, "name") := TextOrNull(l.name),
      FieldId(HalLinkObjectName, "profile") := UriOrNull(l.profile),
      FieldId(HalLinkObjectName, "deprecation") := UriOrNull(l.deprecation),
      FieldId(HalLinkObjectName, "title") := TextOrNull(l.title),
      FieldId(HalLinkObjectName, "hreflang") := TextOrNull(l.hreflang)
    ])
  }

  /** `getHref()` of a link object: its `href` field, null unless it holds a String. */
  function Href(v: Value): Option<string>
    requires v.Object?
  {
    if HrefId in v.slots && v.slots[HrefId].Text? then Some(v.slots[HrefId].chars) else None
  }

  /** The record's href is what `getHref()` reads back from its instance. */
  lemma HrefOfLinkObject(l: LinkObject)
    ensures LinkObjectValue(l).Object? && Href(LinkObjectValue(l)) == l.href
  {
  }

  const LinksRoot := "_links"
  const EmbeddedRoot := "_embedded"

  /** Every way a decode can fail; each aborts the whole decode. */
  datatype Error =
    | MissingLink(member: string, root: string)              // JsonParseException from readLink
    | MissingEmbed(member: string, root: string)             // JsonParseException from readEmbed
    | LinkNotAssignable(field: string, typeName: ClassName)  // ClassCastException from setLink
    | EmbedNotAssignable(field: string, typeName: ClassName) // ClassCastException from setEmbed
    | NotALinkObject(field: string)                          // the decoded link is no HalLinkObject
    | FieldTypeMismatch(field: string, typeName: ClassName)  // IllegalArgumentException from Field.set
    | NotAJsonObject(member: string)                         // getAsJsonObject on a non-object
    | NullPointer(what: string)                              // NullPointerException
    | MapperFailure(message: string)                         // raised inside the generic mapper

  datatype Result<+T> = Ok(value: T) | Err(error: Error)

  datatype Outcome = Pass | Fail(error: Error)

  /** An object under construction: the mapper builds it, the HAL pass assigns its fields. */
  class Instance {
    const cls: ClassName
    var slots: Slots

    constructor (cls: ClassName, slots: Slots)
      ensures this.cls == cls && this.slots == slots
    {
      this.cls := cls;
      this.slots := slots;
    }

    /** `field.set(object, value)`: this field and no other changes. */
    method Set(k: FieldId, v: Value)
      modifies this
      ensures slots == old(slots)[k := v]
    {
      slots := slots[k := v];
    }

    /** The object as a value, once it is complete. */
    function Snapshot(): (v: Value)
      reads this
      ensures v.Object? && v.cls == cls && v.slots == slots
    {
      Object(cls, slots)
    }
  }
}
