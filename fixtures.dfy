/**
 * The resources of the repository's own tests, a mapper that fills plain
 * String fields from same-named members and builds link objects, and the
 * decodes those tests perform, computed from the model.
 */
module Fixtures {
  import opened Json
  import opened Descriptors
  import opened Objects
  import opened HalReflection
  import opened HalTypeAdapterFactory

  // ---------------------------------------------------------------------
  // Test resources

  const StringLinkName: ClassName := "HalLinkTest$HalLinkStringTestResource"
  const UriLinkName: ClassName := "HalLinkTest$HalLinkUriTestResource"
  const LinkObjectLinkName: ClassName := "HalLinkTest$HalLinkLinkObjectTestResource"
  const NamedLinkName: ClassName := "HalLinkTest$HalLinkNamedTestResource"
  const OptionalLinkName: ClassName := "HalLinkTest$HalLinkOptionalTestResource"
  const SimpleEmbedName: ClassName := "HalEmbedTest$SimpleEmbed"
  const EmbedResourceName: ClassName := "HalEmbedTest$HalEmbedTestResource"

  function LinkField(owner: ClassName, name: string, cls: ClassName, annotation: HalAnnotation): Field
  {
    Field(owner, name, Scalar(cls), None, Some(annotation), None)
  }

  function Resource(name: ClassName, fields: seq<Field>): Class
  {
    Class(name, Some(ObjectClass), [], fields, true)
  }

  const StringLinkClass := Resource(StringLinkName, [
    LinkField(StringLinkName, "stringLink", StringName, DefaultAnnotation)])

  const UriLinkClass := Resource(UriLinkName, [
    LinkField(UriLinkName, "uriLink", UriName, DefaultAnnotation)])

  const LinkObjectLinkClass := Resource(LinkObjectLinkName, [
    LinkField(LinkObjectLinkName, "linkObjectLink", HalLinkObjectName, DefaultAnnotation)])

  const NamedLinkClass := Resource(NamedLinkName, [
    LinkField(NamedLinkName, "namedLink", StringName, HalAnnotation("named", false)),
    Field(NamedLinkName, "overrideLink", Scalar(StringName), Some("overridden_name"),
          Some(HalAnnotation("named", false)), None)])

  const OptionalLinkClass := Resource(OptionalLinkName, [
    LinkField(OptionalLinkName, "requiredLink", StringName, HalAnnotation("", false)),
    LinkField(OptionalLinkName, "optionalLink", StringName, HalAnnotation("", true))])

  const SimpleEmbedClass := Resource(SimpleEmbedName, [
    PlainField(SimpleEmbedName, "baz", StringName),
    LinkField(SimpleEmbedName, "self", StringName, DefaultAnnotation)])

  const EmbedResourceClass := Resource(EmbedResourceName, [
    Field(EmbedResourceName, "simpleEmbed", Scalar(SimpleEmbedName), None, None, Some(DefaultAnnotation))])

  /** A world that files the library classes the fixtures use, and `cs`, under their names. */
  ghost predicate Knows(w: World, cs: seq<Class>)
  {
    && WorldOk(w)
    && forall c :: c in cs ==> c.name in w && w[c.name] == c
  }

  /** A resource extending `Object` whose fields have known non-collection types fits any closed world. */
  lemma AddResource(w: World, c: Class)
    requires WorldOk(w) && c.name !in w && c.superclass == Some(ObjectClass)
    requires forall f :: f in c.fields ==>
               f.declared.typeArguments.None? && f.declared.raw in w && !IsCollection(w, f.declared.raw)
    ensures WorldOk(w[c.name := c])
  {
    assert ClassOk(w, ObjectClass);
    WorldExtended(w, c);
  }

  /** The library's String, URI and link object are no collections. */
  lemma LibraryLeaves(w: World)
    requires WorldOk(w)
    ensures !IsCollection(w, StringName) && !IsCollection(w, UriName) && !IsCollection(w, HalLinkObjectName)
  {
    StringIsNot(CollectionName);
    assert !SubtypeOf(ObjectClass, CollectionName);
  }

  /** The library classes and one more resource. */
  function WorldOf(c: Class): World
  {
    LibraryWorld[c.name := c]
  }

  /** A resource whose fields are Strings, URIs and link objects fits the library world. */
  lemma WorldOfOk(c: Class)
    requires c.name !in LibraryWorld && c.superclass == Some(ObjectClass)
    requires forall f :: f in c.fields ==>
               f.declared.typeArguments.None? && f.declared.raw in {StringName, UriName, HalLinkObjectName}
    ensures Knows(WorldOf(c), [c])
  {
    LibraryWorldOk();
    LibraryLeaves(LibraryWorld);
    AddResource(LibraryWorld, c);
  }

  // The world of each link test.

  lemma StringLinkWorld()
    ensures Knows(WorldOf(StringLinkClass), [StringLinkClass])
  {
    WorldOfOk(StringLinkClass);
  }

  lemma UriLinkWorld()
    ensures Knows(WorldOf(UriLinkClass), [UriLinkClass])
  {
    WorldOfOk(UriLinkClass);
  }

  lemma LinkObjectLinkWorld()
    ensures Knows(WorldOf(LinkObjectLinkClass), [LinkObjectLinkClass])
  {
    WorldOfOk(LinkObjectLinkClass);
  }

  lemma NamedLinkWorld()
    ensures Knows(WorldOf(NamedLinkClass), [NamedLinkClass])
  {
    WorldOfOk(NamedLinkClass);
  }

  lemma OptionalLinkWorld()
    ensures Knows(WorldOf(OptionalLinkClass), [OptionalLinkClass])
  {
    WorldOfOk(OptionalLinkClass);
  }

  /** The world of the embed test: `SimpleEmbed` first, then the resource that embeds it. */
  lemma EmbedWorld()
    ensures Knows(WorldOf(SimpleEmbedClass)[EmbedResourceName := EmbedResourceClass], [SimpleEmbedClass, EmbedResourceClass])
  {
    var w := WorldOf(SimpleEmbedClass);
    SimpleEmbedWorld();
    AddResource(w, EmbedResourceClass);
  }

  /** The library world with `SimpleEmbed`, in which `SimpleEmbed` is not a collection. */
  lemma SimpleEmbedWorld()
    ensures var w := WorldOf(SimpleEmbedClass);
      && WorldOk(w) && w[SimpleEmbedName] == SimpleEmbedClass && w[ObjectName] == ObjectClass
      && !IsCollection(w, SimpleEmbedName)
  {
    WorldOfOk(SimpleEmbedClass);
    assert !SubtypeOf(SimpleEmbedClass, CollectionName) by {
      assert !SubtypeOf(ObjectClass, CollectionName);
    }
  }

  // ---------------------------------------------------------------------
  // The mapper of the tests

  function StringMember(ms: seq<Member>, key: string): Option<string>
  {
    match Get(ms, key)
    case Some(JString(s)) => Some(s)
    case _ => None
  }

  function UriMember(ms: seq<Member>, key: string): Option<Uri>
  {
    match StringMember(ms, key)
    case Some(s) => Some(Uri(s))
    case None => None
  }

  /** The plain String fields the mapper fills from members of the same name. */
  function PlainNames(cls: ClassName): seq<string>
  {
    if cls == SimpleEmbedName then ["baz"] else []
  }

  function PlainSlots(cls: ClassName, ms: seq<Member>, names: seq<string>): Slots
  {
    if names == [] then map[]
    else
      var rest := PlainSlots(cls, ms, names[1..]);
      match StringMember(ms, names[0])
      case Some(s) => rest[FieldId(cls, names[0]) := Text(s)]
      case None => rest
  }

  function Instantiate(cls: ClassName, ms: seq<Member>): Result<Slots>
  {
    if cls == HalLinkObjectName then
      Ok(LinkObjectValue(LinkObject(
        StringMember(ms, "href"), Get(ms, "templated") == Some(JBool(true)),
        StringMember(ms, "type"), StringMember(ms, "name"),
        UriMember(ms, "profile"), UriMember(ms, "deprecation"),
        StringMember(ms, "title"), StringMember(ms, "hreflang"))).slots)
    else Ok(PlainSlots(cls, ms, PlainNames(cls)))
  }

  const TestMapper := Mapper(
    (cls: ClassName, ms: seq<Member>) => Instantiate(cls, ms),
    (cls: ClassName, j: Json) => if j.JNull? then Ok(Null) else Err(MapperFailure("unexpected tree")),
    (cls: ClassName, v: Value) => JNull)

  function Link(href: string): Json
  {
    JObject([Member("href", JString(href))])
  }

  // ---------------------------------------------------------------------
  // The decodes of the tests

  /** A resource extending `Object` has only its own fields. */
  lemma FieldsOfResource(c: Class)
    requires c.superclass == Some(ObjectClass)
    ensures AllFields(c) == c.fields
  {
    assert AllFields(ObjectClass) == [];
  }

  /** A list of HAL fields is kept whole by the filter. */
  lemma {:induction false} HalFilterKeepsAll(w: World, fs: seq<Field>)
    requires FieldsOk(w, fs) && forall f :: f in fs ==> IsHalField(w, f)
    ensures HalFilter(w, fs) == fs
  {
    if fs != [] {
      assert forall f :: f in fs[..|fs| - 1] ==> f in fs;
      HalFilterKeepsAll(w, fs[..|fs| - 1]);
    }
  }

  /** A decode of a resource document is the HAL pass over what the mapper built. */
  lemma DecodeResource(w: World, m: Mapper, c: Class, ms: seq<Member>, fs: seq<Field>,
                       links: Option<seq<Member>>, embedded: Option<seq<Member>>, slots: Slots)
    requires WorldOk(w) && c.name in w && w[c.name] == c && IsResource(c)
    requires m.instantiate(c.name, ms) == Ok(slots)
    requires RootObject(ms, LinksRoot) == Ok(links) && RootObject(ms, EmbeddedRoot) == Ok(embedded)
    requires HalFields(w, c) == fs
    ensures FieldsOk(w, fs) && RootsBelow(links, embedded, Size(JObject(ms)))
    ensures FromJson(w, m, c.name, JObject(ms))
         == match ReadHalFields(w, m, fs, links, embedded, slots, Size(JObject(ms)))
            case Ok(s) => Ok(Object(c.name, s))
            case Err(e) => Err(e)
  {
    AllFieldsOk(w, c);
    HalFilterExact(w, AllFields(c));
  }

  /** The pass over two fields: the second step starts from the first's result. */
  lemma ReadTwo(w: World, m: Mapper, f1: Field, f2: Field, links: Option<seq<Member>>,
                embedded: Option<seq<Member>>, slots: Slots, bound: nat)
    requires WorldOk(w) && FieldOk(w, f1) && FieldOk(w, f2) && RootsBelow(links, embedded, bound)
    ensures var first := FieldStep(w, m, f1, links, embedded, slots, bound);
      ReadHalFields(w, m, [f1, f2], links, embedded, slots, bound)
        == if first.Err? then first else FieldStep(w, m, f2, links, embedded, first.value, bound)
  {
    var first := FieldStep(w, m, f1, links, embedded, slots, bound);
    assert [f1, f2][1..] == [f2];
    if first.Ok? {
      ReadOne(w, m, f2, links, embedded, first.value, bound);
    }
  }

  /** The pass over one field is its step. */
  lemma ReadOne(w: World, m: Mapper, f: Field, links: Option<seq<Member>>,
                embedded: Option<seq<Member>>, slots: Slots, bound: nat)
    requires WorldOk(w) && FieldOk(w, f) && RootsBelow(links, embedded, bound)
    ensures ReadHalFields(w, m, [f], links, embedded, slots, bound) == FieldStep(w, m, f, links, embedded, slots, bound)
  {
    assert [f][1..] == [];
  }

  /** The link object the mapper builds from `{ "href": … }`. */
  function LinkValue(href: string): Value
  {
    LinkObjectValue(LinkObject(Some(href), false, None, None, None, None, None, None))
  }

  lemma DecodeLinkObject(w: World, href: string)
    requires WorldOk(w)
    ensures FromJson(w, TestMapper, HalLinkObjectName, Link(href)) == Ok(LinkValue(href))
    ensures IsLinkObject(w, LinkValue(href)) && Href(LinkValue(href)) == Some(href)
  {
    var ms := [Member("href", JString(href))];
    assert StringMember(ms, "href") == Some(href);
    assert Get(ms, "templated") == None;
    assert Get(ms, "type") == None && Get(ms, "name") == None && Get(ms, "profile") == None;
    assert Get(ms, "deprecation") == None && Get(ms, "title") == None && Get(ms, "hreflang") == None;
    HrefOfLinkObject(LinkObject(Some(href), false, None, None, None, None, None, None));
  }

  /** What a link field of a given class holds for `{ "href": … }`. */
  function Stored(cls: ClassName, href: string): Value
  {
    if cls == StringName then Text(href)
    else if cls == UriName then UriRef(Uri(href))
    else LinkValue(href)
  }

  /** The library's link-field types: which branch of `setLink` each takes, and that each is its own item type. */
  lemma LinkFieldTypes(w: World, f: Field)
    requires WorldOk(w)
    requires f.declared.typeArguments.None? && f.declared.raw in {StringName, UriName, HalLinkObjectName}
    ensures FieldOk(w, f) && ItemType(w, f) == FieldType(f) && LinkTarget(w, f) == HalLinkObjectName
    ensures Assignable(w, StringName, CharSequenceName) && Assignable(w, StringName, StringName)
    ensures !Assignable(w, UriName, CharSequenceName) && Assignable(w, UriName, UriName)
    ensures !Assignable(w, HalLinkObjectName, CharSequenceName) && !Assignable(w, HalLinkObjectName, UriName)
    ensures Assignable(w, HalLinkObjectName, HalLinkObjectName)
  {
    LibraryLeaves(w);
    assert SubtypeOf(StringClass.interfaces[0], CharSequenceName);
    assert !SubtypeOf(ObjectClass, CharSequenceName) && !SubtypeOf(ObjectClass, UriName);
    StringIsNot(HalLinkObjectName);
  }

  /** The link object of `{ "href": … }` stored into such a field. */
  lemma LinkAssignmentWithHref(w: World, f: Field, href: string)
    requires WorldOk(w)
    requires f.declared.typeArguments.None? && f.declared.raw in {StringName, UriName, HalLinkObjectName}
    ensures FieldOk(w, f) && IsLinkObject(w, LinkValue(href))
    ensures LinkAssignment(w, f, LinkValue(href)) == Ok(Stored(f.declared.raw, href))
  {
    LinkFieldTypes(w, f);
    DecodeLinkObject(w, href);
  }

  /** A link field of type String, URI or link object whose member holds `{ "href": … }` receives that href. */
  lemma LinkStepWithHref(w: World, f: Field, links: seq<Member>, embedded: Option<seq<Member>>,
                         slots: Slots, bound: nat, href: string)
    requires Knows(w, [])
    requires f.declared.typeArguments.None? && f.declared.raw in {StringName, UriName, HalLinkObjectName}
    requires f.link.Some? && RootsBelow(Some(links), embedded, bound)
    requires Get(links, JsonFieldName(f.link.value, f)) == Some(Link(href))
    ensures FieldOk(w, f) && Present(w, f, Some(links), embedded)
    ensures FieldStep(w, TestMapper, f, Some(links), embedded, slots, bound)
         == Ok(slots[Key(f) := Stored(f.declared.raw, href)])
  {
    LinkFieldTypes(w, f);
    DecodeLinkObject(w, href);
    LinkAssignmentWithHref(w, f, href);
  }

  /** `{ "_links": { "stringLink": { "href": … } } }` gives the String field that href. */
  lemma DeserializeStringLink(w: World)
    requires Knows(w, [StringLinkClass])
    ensures FromJson(w, TestMapper, StringLinkName,
                     JObject([Member("_links", JObject([Member("stringLink", Link("/api/deserializeStringLink"))]))]))
         == Ok(Object(StringLinkName, map[FieldId(StringLinkName, "stringLink") := Text("/api/deserializeStringLink")]))
  {
    var c, href := StringLinkClass, "/api/deserializeStringLink";
    var f := c.fields[0];
    var links := [Member("stringLink", Link(href))];
    var ms := [Member("_links", JObject(links))];
    assert w[c.name] == c;
    assert RootObject(ms, LinksRoot) == Ok(Some(links));
    LinkStepWithHref(w, f, links, None, map[], Size(JObject(ms)), href);
    FieldsOfResource(c);
    HalFilterKeepsAll(w, [f]);
    DecodeResource(w, TestMapper, c, ms, [f], Some(links), None, map[]);
    ReadOne(w, TestMapper, f, Some(links), None, map[], Size(JObject(ms)));
  }

  /** A URI field receives the href of its link as a URI. */
  lemma DeserializeUriLink(w: World)
    requires Knows(w, [UriLinkClass])
    ensures FromJson(w, TestMapper, UriLinkName,
                     JObject([Member("_links", JObject([Member("uriLink", Link("/api/deserializeUriLink"))]))]))
         == Ok(Object(UriLinkName, map[FieldId(UriLinkName, "uriLink") := UriRef(Uri("/api/deserializeUriLink"))]))
  {
    var c, href := UriLinkClass, "/api/deserializeUriLink";
    var f := c.fields[0];
    var links := [Member("uriLink", Link(href))];
    var ms := [Member("_links", JObject(links))];
    assert w[c.name] == c;
    assert RootObject(ms, LinksRoot) == Ok(Some(links));
    LinkStepWithHref(w, f, links, None, map[], Size(JObject(ms)), href);
    FieldsOfResource(c);
    HalFilterKeepsAll(w, [f]);
    DecodeResource(w, TestMapper, c, ms, [f], Some(links), None, map[]);
    ReadOne(w, TestMapper, f, Some(links), None, map[], Size(JObject(ms)));
  }

  /**
   * The same document through `setLink` as written: the link object decodes,
   * and storing its href String into the `URI` field is refused.
   */
  lemma DeserializeUriLinkAsWritten(w: World)
    requires Knows(w, [UriLinkClass])
    ensures var f := UriLinkClass.fields[0];
      && FieldOk(w, f) && IsLinkObject(w, LinkValue("/api/deserializeUriLink"))
      && LinkAssignmentAsWritten(w, f, LinkValue("/api/deserializeUriLink")) == Err(FieldTypeMismatch("uriLink", UriName))
  {
    var f := UriLinkClass.fields[0];
    LinkFieldTypes(w, f);
    DecodeLinkObject(w, "/api/deserializeUriLink");
    UriLinkAsWrittenRejected(w, f, LinkValue("/api/deserializeUriLink"));
  }

  /** A `HalLinkObject` field receives the link object itself, whose href is the member's. */
  lemma DeserializeLinkObjectLink(w: World)
    requires Knows(w, [LinkObjectLinkClass])
    ensures FromJson(w, TestMapper, LinkObjectLinkName,
                     JObject([Member("_links", JObject([Member("linkObjectLink", Link("/api/deserializeLinkObjectLink"))]))]))
         == Ok(Object(LinkObjectLinkName, map[FieldId(LinkObjectLinkName, "linkObjectLink") := LinkValue("/api/deserializeLinkObjectLink")]))
    ensures Href(LinkValue("/api/deserializeLinkObjectLink")) == Some("/api/deserializeLinkObjectLink")
  {
    var c, href := LinkObjectLinkClass, "/api/deserializeLinkObjectLink";
    var f := c.fields[0];
    var links := [Member("linkObjectLink", Link(href))];
    var ms := [Member("_links", JObject(links))];
    assert w[c.name] == c;
    assert RootObject(ms, LinksRoot) == Ok(Some(links));
    LinkStepWithHref(w, f, links, None, map[], Size(JObject(ms)), href);
    FieldsOfResource(c);
    HalFilterKeepsAll(w, [f]);
    DecodeResource(w, TestMapper, c, ms, [f], Some(links), None, map[]);
    ReadOne(w, TestMapper, f, Some(links), None, map[], Size(JObject(ms)));
    DecodeLinkObject(w, href);
  }

  const NamedLinks := [Member("named", Link("/api/foo")), Member("overridden_name", Link("/api/bar"))]

  /** Each field of the named-link resource finds its own member. */
  lemma NamedLinkSteps(w: World, bound: nat)
    requires Knows(w, [NamedLinkClass]) && MembersSize(NamedLinks) < bound
    ensures FieldsOk(w, NamedLinkClass.fields)
    ensures var f1, f2 := NamedLinkClass.fields[0], NamedLinkClass.fields[1];
      && FieldStep(w, TestMapper, f1, Some(NamedLinks), None, map[], bound) == Ok(map[Key(f1) := Text("/api/foo")])
      && FieldStep(w, TestMapper, f2, Some(NamedLinks), None, map[Key(f1) := Text("/api/foo")], bound)
         == Ok(map[Key(f1) := Text("/api/foo"), Key(f2) := Text("/api/bar")])
  {
    var f1, f2 := NamedLinkClass.fields[0], NamedLinkClass.fields[1];
    assert NamedLinks[..1] == [Member("named", Link("/api/foo"))];
    assert JsonFieldName(f1.link.value, f1) == "named";
    assert Get(NamedLinks, "named") == Some(Link("/api/foo"));
    LinkStepWithHref(w, f1, NamedLinks, None, map[], bound, "/api/foo");
    assert JsonFieldName(f2.link.value, f2) == "overridden_name";
    LinkStepWithHref(w, f2, NamedLinks, None, map[Key(f1) := Text("/api/foo")], bound, "/api/bar");
  }

  /** The pass over the named-link resource's fields fills both. */
  lemma NamedLinkPass(w: World, bound: nat)
    requires Knows(w, [NamedLinkClass]) && MembersSize(NamedLinks) < bound
    ensures FieldsOk(w, NamedLinkClass.fields)
    ensures ReadHalFields(w, TestMapper, NamedLinkClass.fields, Some(NamedLinks), None, map[], bound)
         == Ok(map[FieldId(NamedLinkName, "namedLink") := Text("/api/foo"),
                   FieldId(NamedLinkName, "overrideLink") := Text("/api/bar")])
  {
    var f1, f2 := NamedLinkClass.fields[0], NamedLinkClass.fields[1];
    NamedLinkSteps(w, bound);
    ReadTwo(w, TestMapper, f1, f2, Some(NamedLinks), None, map[], bound);
    assert NamedLinkClass.fields == [f1, f2];
  }

  /** The annotation's name picks the member; `@SerializedName` overrides it. */
  lemma DeserializeNamedLink(w: World)
    requires Knows(w, [NamedLinkClass])
    ensures FromJson(w, TestMapper, NamedLinkName, JObject([Member("_links", JObject(NamedLinks))]))
         == Ok(Object(NamedLinkName, map[FieldId(NamedLinkName, "namedLink") := Text("/api/foo"),
                                         FieldId(NamedLinkName, "overrideLink") := Text("/api/bar")]))
  {
    var c := NamedLinkClass;
    var ms := [Member("_links", JObject(NamedLinks))];
    var bound := Size(JObject(ms));
    assert w[c.name] == c;
    assert RootObject(ms, LinksRoot) == Ok(Some(NamedLinks));
    assert RootObject(ms, EmbeddedRoot) == Ok(None);
    NamedLinkPass(w, bound);
    FieldsOfResource(c);
    HalFilterKeepsAll(w, c.fields);
    DecodeResource(w, TestMapper, c, ms, c.fields, Some(NamedLinks), None, map[]);
  }

  /** Both fields of the optional-link resource are HAL fields, read in declaration order. */
  lemma OptionalLinkHalFields(w: World)
    requires Knows(w, [OptionalLinkClass])
    ensures var c := OptionalLinkClass;
      && c.name in w && w[c.name] == c
      && FieldOk(w, c.fields[0]) && FieldOk(w, c.fields[1]) && IsLink(w, c.fields[0]) && IsLink(w, c.fields[1])
      && HalFields(w, c) == [c.fields[0], c.fields[1]]
  {
    var c := OptionalLinkClass;
    LibraryLeaves(w);
    assert FieldOk(w, c.fields[0]) && FieldOk(w, c.fields[1]);
    FieldsOfResource(c);
    assert c.fields == [c.fields[0], c.fields[1]];
    HalFilterKeepsAll(w, [c.fields[0], c.fields[1]]);
  }

  /** The mapper builds no plain field of a class it has none for. */
  lemma NoPlainFields(cls: ClassName, ms: seq<Member>)
    requires cls != HalLinkObjectName && cls != SimpleEmbedName
    ensures TestMapper.instantiate(cls, ms) == Ok(map[])
  {
  }

  /** An optional link whose member is absent leaves its field unset. */
  lemma DeserializeMissingOptionalLink(w: World)
    requires Knows(w, [OptionalLinkClass])
    ensures FromJson(w, TestMapper, OptionalLinkName,
                     JObject([Member("_links", JObject([Member("requiredLink", Link("/api/deserializeOptionalLink"))]))]))
         == Ok(Object(OptionalLinkName, map[FieldId(OptionalLinkName, "requiredLink") := Text("/api/deserializeOptionalLink")]))
  {
    var c, href := OptionalLinkClass, "/api/deserializeOptionalLink";
    var f1, f2 := c.fields[0], c.fields[1];
    var links := [Member("requiredLink", Link(href))];
    var ms := [Member("_links", JObject(links))];
    var bound := Size(JObject(ms));
    OptionalLinkHalFields(w);
    NoPlainFields(c.name, ms);
    assert RootObject(ms, LinksRoot) == Ok(Some(links));
    OptionalLinkPass(w, links, bound, href);
    DecodeResource(w, TestMapper, c, ms, [f1, f2], Some(links), None, map[]);
  }

  /** The pass over the optional-link resource when only `requiredLink` is present. */
  lemma OptionalLinkPass(w: World, links: seq<Member>, bound: nat, href: string)
    requires Knows(w, [OptionalLinkClass])
    requires links == [Member("requiredLink", Link(href))] && MembersSize(links) < bound
    ensures var c := OptionalLinkClass;
      && FieldsOk(w, [c.fields[0], c.fields[1]]) && RootsBelow(Some(links), None, bound)
      && ReadHalFields(w, TestMapper, [c.fields[0], c.fields[1]], Some(links), None, map[], bound)
         == Ok(map[Key(c.fields[0]) := Text(href)])
  {
    var f1, f2 := OptionalLinkClass.fields[0], OptionalLinkClass.fields[1];
    OptionalLinkHalFields(w);
    LinkStepWithHref(w, f1, links, None, map[], bound, href);
    var s1 := map[Key(f1) := Text(href)];
    assert !Has(links, "optionalLink");
    AbsentMember(w, TestMapper, f2, Some(links), None, s1, bound);
    ReadTwo(w, TestMapper, f1, f2, Some(links), None, map[], bound);
  }

  /** A required link whose member is absent fails the whole decode with the parse error. */
  lemma DeserializeMissingRequiredLink(w: World)
    requires Knows(w, [OptionalLinkClass])
    ensures FromJson(w, TestMapper, OptionalLinkName,
                     JObject([Member("_links", JObject([Member("optionalLink", Link("/api/deserializeMissingRequiredLink"))]))]))
         == Err(MissingLink("requiredLink", "_links"))
  {
    var c := OptionalLinkClass;
    var f1, f2 := c.fields[0], c.fields[1];
    var links := [Member("optionalLink", Link("/api/deserializeMissingRequiredLink"))];
    var ms := [Member("_links", JObject(links))];
    var bound := Size(JObject(ms));
    OptionalLinkHalFields(w);
    NoPlainFields(c.name, ms);
    assert RootObject(ms, LinksRoot) == Ok(Some(links));
    assert !Has(links, "requiredLink");
    AbsentMember(w, TestMapper, f1, Some(links), None, map[], bound);
    DecodeResource(w, TestMapper, c, ms, [f1, f2], Some(links), None, map[]);
    ReadTwo(w, TestMapper, f1, f2, Some(links), None, map[], bound);
  }

  /** An empty document fails for a resource with a required link. */
  lemma DeserializeMissingAllLink(w: World)
    requires Knows(w, [OptionalLinkClass])
    ensures FromJson(w, TestMapper, OptionalLinkName, JObject([])) == Err(MissingLink("requiredLink", "_links"))
  {
    var c := OptionalLinkClass;
    var f1, f2 := c.fields[0], c.fields[1];
    var bound := Size(JObject([]));
    OptionalLinkHalFields(w);
    NoPlainFields(c.name, []);
    AbsentMember(w, TestMapper, f1, None, None, map[], bound);
    DecodeResource(w, TestMapper, c, [], [f1, f2], None, None, map[]);
    ReadTwo(w, TestMapper, f1, f2, None, None, map[], bound);
  }

  /** A resource of `SimpleEmbed` as a document: a plain member and its own `self` link. */
  function SimpleEmbedDocument(baz: string, self: string): Json
  {
    JObject([Member("baz", JString(baz)), Member("_links", JObject([Member("self", Link(self))]))])
  }

  function SimpleEmbedValue(baz: string, self: string): Value
  {
    Object(SimpleEmbedName, map[FieldId(SimpleEmbedName, "baz") := Text(baz),
                                FieldId(SimpleEmbedName, "self") := Text(self)])
  }

  /** `baz` is a plain field: only `self` is a HAL field of `SimpleEmbed`. */
  lemma SimpleEmbedHalFields(w: World)
    requires Knows(w, [SimpleEmbedClass])
    ensures HalFields(w, SimpleEmbedClass) == [SimpleEmbedClass.fields[1]]
  {
    var c := SimpleEmbedClass;
    var f1, f2 := c.fields[0], c.fields[1];
    LibraryLeaves(w);
    StringIsNot(HalLinkObjectName);
    assert FieldOk(w, f1) && !IsHalField(w, f1);
    assert FieldOk(w, f2) && IsHalField(w, f2);
    FieldsOfResource(c);
    assert c.fields == [f1, f2];
    assert HalFilter(w, [f1]) == [] by {
      assert [f1][..0] == [];
    }
    assert [f1, f2][..1] == [f1];
    assert HalFilter(w, [f1, f2]) == HalFilter(w, [f1]) + [f2];
  }

  /** The mapper alone fills `baz` from the member of that name. */
  lemma SimpleEmbedInstantiate(baz: string, self: string)
    ensures TestMapper.instantiate(SimpleEmbedName, SimpleEmbedDocument(baz, self).members)
         == Ok(map[FieldId(SimpleEmbedName, "baz") := Text(baz)])
  {
    var ms := SimpleEmbedDocument(baz, self).members;
    assert ms[..1] == [Member("baz", JString(baz))];
    assert Get(ms[..1], "baz") == Some(JString(baz));
    assert Get(ms, "baz") == Some(JString(baz));
    assert StringMember(ms, "baz") == Some(baz);
    assert ["baz"][1..] == [];
    assert PlainNames(SimpleEmbedName) == ["baz"];
    assert PlainSlots(SimpleEmbedName, ms, ["baz"]) == map[FieldId(SimpleEmbedName, "baz") := Text(baz)];
    assert Instantiate(SimpleEmbedName, ms) == Ok(map[FieldId(SimpleEmbedName, "baz") := Text(baz)]);
  }

  /** The mapper fills `baz`; the HAL pass fills `self`. */
  lemma DecodeSimpleEmbed(w: World, baz: string, self: string)
    requires Knows(w, [SimpleEmbedClass])
    ensures FromJson(w, TestMapper, SimpleEmbedName, SimpleEmbedDocument(baz, self)) == Ok(SimpleEmbedValue(baz, self))
  {
    var c := SimpleEmbedClass;
    var f2 := c.fields[1];
    var links := [Member("self", Link(self))];
    var j := SimpleEmbedDocument(baz, self);
    var s0 := map[FieldId(SimpleEmbedName, "baz") := Text(baz)];
    assert w[c.name] == c;
    assert j.members[..1] == [Member("baz", JString(baz))] && j.members[..1][..0] == [];
    assert RootObject(j.members, LinksRoot) == Ok(Some(links));
    assert RootObject(j.members, EmbeddedRoot) == Ok(None);
    SimpleEmbedInstantiate(baz, self);
    SimpleEmbedHalFields(w);
    LinkStepWithHref(w, f2, links, None, s0, Size(j), self);
    DecodeResource(w, TestMapper, c, j.members, [f2], Some(links), None, s0);
    ReadOne(w, TestMapper, f2, Some(links), None, s0, Size(j));
  }

  /** An embed field whose member decodes to a value of the field's own class receives that value. */
  lemma EmbedStepWithValue(w: World, f: Field, embedded: seq<Member>, slots: Slots, bound: nat, v: Value)
    requires WorldOk(w) && FieldOk(w, f) && RootsBelow(None, Some(embedded), bound)
    requires !IsLink(w, f) && f.embed.Some? && ItemType(w, f) == FieldType(f)
    requires Get(embedded, JsonFieldName(f.embed.value, f)).Some?
    requires FromJson(w, TestMapper, FieldType(f), Get(embedded, JsonFieldName(f.embed.value, f)).value) == Ok(v)
    requires v.Object? && v.cls == FieldType(f)
    ensures FieldStep(w, TestMapper, f, None, Some(embedded), slots, bound) == Ok(slots[Key(f) := v])
  {
    assert Assignable(w, v.cls, FieldType(f));
    assert EmbedAssignment(w, f, v) == Ok(v);
  }

  /** `simpleEmbed` is an embed field, and not a link field, of item type `SimpleEmbed`. */
  lemma EmbedResourceField(w: World)
    requires Knows(w, [SimpleEmbedClass, EmbedResourceClass])
    ensures var f := EmbedResourceClass.fields[0];
      && FieldOk(w, f) && ItemType(w, f) == FieldType(f) == SimpleEmbedName
      && !IsLink(w, f) && IsEmbed(w, f) && Knows(w, [SimpleEmbedClass])
  {
    var f := EmbedResourceClass.fields[0];
    assert w[SimpleEmbedName] == SimpleEmbedClass;
    assert !SubtypeOf(SimpleEmbedClass, CollectionName) && !SubtypeOf(SimpleEmbedClass, HalLinkObjectName) by {
      assert !SubtypeOf(ObjectClass, CollectionName) && !SubtypeOf(ObjectClass, HalLinkObjectName);
    }
    assert FieldOk(w, f);
  }

  /** The step of `simpleEmbed`: the embedded document decodes to the `SimpleEmbed` value, which is stored. */
  lemma EmbedResourceStep(w: World, embedded: seq<Member>, bound: nat)
    requires Knows(w, [SimpleEmbedClass, EmbedResourceClass])
    requires embedded == [Member("simpleEmbed", SimpleEmbedDocument("foobarbaz", "/api/deserializeEmbed"))]
    requires MembersSize(embedded) < bound
    ensures FieldOk(w, EmbedResourceClass.fields[0]) && RootsBelow(None, Some(embedded), bound)
    ensures FieldStep(w, TestMapper, EmbedResourceClass.fields[0], None, Some(embedded), map[], bound)
         == Ok(map[Key(EmbedResourceClass.fields[0]) := SimpleEmbedValue("foobarbaz", "/api/deserializeEmbed")])
  {
    EmbedResourceField(w);
    DecodeSimpleEmbed(w, "foobarbaz", "/api/deserializeEmbed");
    EmbedStepWithValue(w, EmbedResourceClass.fields[0], embedded, map[], bound,
                       SimpleEmbedValue("foobarbaz", "/api/deserializeEmbed"));
  }

  /** An embedded resource is decoded recursively, links included, into the embed field. */
  lemma DeserializeEmbed(w: World)
    requires Knows(w, [SimpleEmbedClass, EmbedResourceClass])
    ensures FromJson(w, TestMapper, EmbedResourceName,
                     JObject([Member("_embedded", JObject([Member("simpleEmbed", SimpleEmbedDocument("foobarbaz", "/api/deserializeEmbed"))]))]))
         == Ok(Object(EmbedResourceName, map[FieldId(EmbedResourceName, "simpleEmbed") := SimpleEmbedValue("foobarbaz", "/api/deserializeEmbed")]))
  {
    var c := EmbedResourceClass;
    var f := c.fields[0];
    var inner := SimpleEmbedDocument("foobarbaz", "/api/deserializeEmbed");
    var embedded := [Member("simpleEmbed", inner)];
    var ms := [Member("_embedded", JObject(embedded))];
    var bound := Size(JObject(ms));
    assert w[c.name] == c;
    assert RootObject(ms, LinksRoot) == Ok(None);
    assert RootObject(ms, EmbeddedRoot) == Ok(Some(embedded));
    EmbedResourceField(w);
    EmbedResourceStep(w, embedded, bound);
    FieldsOfResource(c);
    HalFilterKeepsAll(w, [f]);
    DecodeResource(w, TestMapper, c, ms, [f], None, Some(embedded), map[]);
    ReadOne(w, TestMapper, f, None, Some(embedded), map[], bound);
  }
}
