/**
 * Field metadata for HAL decoding: the fields of a class and its
 * superclasses, which of them are links or embeds, the JSON name each is
 * looked up under, the item type a field decodes into, and the assignment
 * of a decoded link or embed into a field. The two per-class caches are
 * the state of class `Caches`.
 */
module HalReflection {
  import opened Json
  import opened Descriptors
  import opened Objects

  /** `type.isAnnotationPresent(HalResource.class)`. */
  predicate IsResource(c: Class)
  {
    c.resource
  }

  /** `getFieldType`: the declared (raw) class of a field. */
  function FieldType(f: Field): ClassName
  {
    f.declared.raw
  }

  /**
   * `getFieldItemizedType`: a collection field decodes items of its first
   * type argument (or of the collection class when it has none); any other
   * field decodes its declared class. The result is always a known class.
   */
  function ItemType(w: World, f: Field): (t: ClassName)
    requires FieldOk(w, f)
    ensures t in w
    ensures !IsCollection(w, FieldType(f)) ==> t == FieldType(f)
    ensures IsCollection(w, FieldType(f)) && |f.declared.typeArguments.value| > 0 ==> t == f.declared.typeArguments.value[0]
    ensures IsCollection(w, FieldType(f)) && |f.declared.typeArguments.value| == 0 ==> t == FieldType(f)
  {
    if IsCollection(w, FieldType(f)) then
      var args := f.declared.typeArguments.value;
      if |args| > 0 then args[0] else FieldType(f)
    else
      FieldType(f)
  }

  /** `isEmbed`: annotated `@HalEmbed`, or its item type is a resource. */
  predicate IsEmbed(w: World, f: Field)
    requires FieldOk(w, f)
  {
    f.embed.Some? || IsResource(w[ItemType(w, f)])
  }

  /** `isLink`: annotated `@HalLink`, or its item type is a `HalLinkObject`. */
  predicate IsLink(w: World, f: Field)
    requires FieldOk(w, f)
  {
    f.link.Some? || Assignable(w, ItemType(w, f), HalLinkObjectName)
  }

  predicate IsHalField(w: World, f: Field)
    requires FieldOk(w, f)
  {
    IsLink(w, f) || IsEmbed(w, f)
  }

  /**
   * `getJsonFieldName` for a `@HalLink` or `@HalEmbed` annotation (both
   * overloads pass the annotation's `name` on): `@SerializedName` when
   * present, else the annotation's name when non-empty, else the field name.
   */
  function JsonFieldName(annotation: HalAnnotation, f: Field): string
  {
    if f.serializedName.Some? then f.serializedName.value
    else if annotation.name == "" then f.name
    else annotation.name
  }

  /** The precedence of wire names, each rule applying only when the ones above it do not. */
  lemma WireNamePrecedence(annotation: HalAnnotation, f: Field)
    ensures f.serializedName.Some? ==> JsonFieldName(annotation, f) == f.serializedName.value
    ensures f.serializedName.None? && annotation.name != "" ==> JsonFieldName(annotation, f) == annotation.name
    ensures f.serializedName.None? && annotation.name == "" ==> JsonFieldName(annotation, f) == f.name
    ensures JsonFieldName(annotation, f) == JsonFieldName(HalAnnotation(annotation.name, !annotation.optional), f)
  {
  }

  // ---------------------------------------------------------------------
  // The fields of a class and its superclasses

  /** The class, its superclass, and so on up to the root. */
  function Ancestry(c: Class): (cs: seq<Class>)
    decreases c
    ensures |cs| > 0 && cs[0] == c
  {
    [c] + if c.superclass.Some? then Ancestry(c.superclass.value) else []
  }

  /** What `getAllFields(type)` returns. */
  function AllFields(c: Class): seq<Field>
    decreases c
  {
    c.fields + if c.superclass.Some? then AllFields(c.superclass.value) else []
  }

  /** The declared fields of each class in turn. */
  function ConcatFields(cs: seq<Class>): seq<Field>
  {
    if cs == [] then [] else cs[0].fields + ConcatFields(cs[1..])
  }

  lemma {:induction false} ConcatFieldsAppend(a: seq<Class>, b: seq<Class>)
    ensures ConcatFields(a + b) == ConcatFields(a) + ConcatFields(b)
  {
    if a != [] {
      assert (a + b)[0] == a[0];
      assert (a + b)[1..] == a[1..] + b;
      ConcatFieldsAppend(a[1..], b);
    } else {
      assert a + b == b;
    }
  }

  /** All fields are the declared fields of the class and of each ancestor, most derived first. */
  lemma {:induction false} AllFieldsIsConcatOfAncestry(c: Class)
    decreases c
    ensures AllFields(c) == ConcatFields(Ancestry(c))
  {
    if c.superclass.Some? {
      AllFieldsIsConcatOfAncestry(c.superclass.value);
      assert Ancestry(c)[1..] == Ancestry(c.superclass.value);
    } else {
      assert Ancestry(c)[1..] == [];
    }
  }

  /**
   * The fields of an ancestor, with everything above it, come after all the
   * fields of the classes below it, in their declared order.
   */
  lemma {:induction false} AncestorFieldsFollow(c: Class, i: nat)
    requires i < |Ancestry(c)|
    ensures AllFields(c) == ConcatFields(Ancestry(c)[..i]) + AllFields(Ancestry(c)[i])
  {
    var cs := Ancestry(c);
    AllFieldsIsConcatOfAncestry(c);
    AllFieldsIsConcatOfAncestry(cs[i]);
    AncestrySuffix(c, i);
    assert cs == cs[..i] + cs[i..];
    ConcatFieldsAppend(cs[..i], cs[i..]);
  }

  /** The ancestry of an ancestor is the rest of the ancestry. */
  lemma {:induction false} AncestrySuffix(c: Class, i: nat)
    requires i < |Ancestry(c)|
    ensures Ancestry(c)[i..] == Ancestry(Ancestry(c)[i])
    decreases c
  {
    if i > 0 {
      assert c.superclass.Some?;
      var s := c.superclass.value;
      assert Ancestry(c)[1..] == Ancestry(s);
      AncestrySuffix(s, i - 1);
      assert Ancestry(c)[i..] == Ancestry(s)[i - 1..];
    }
  }

  /** A field is listed exactly when some class of the ancestry declares it. */
  lemma {:induction false} FieldInAllFieldsIff(c: Class, f: Field)
    decreases c
    ensures f in AllFields(c) <==> exists k :: k in Ancestry(c) && f in k.fields
  {
    if c.superclass.Some? {
      FieldInAllFieldsIff(c.superclass.value, f);
      assert Ancestry(c) == [c] + Ancestry(c.superclass.value);
    } else {
      assert Ancestry(c) == [c];
    }
  }

  lemma {:induction false} AllFieldsOk(w: World, c: Class)
    requires ClassOk(w, c)
    decreases c
    ensures forall f :: f in AllFields(c) ==> FieldOk(w, f)
  {
    if c.superclass.Some? {
      AllFieldsOk(w, c.superclass.value);
    }
  }

  // ---------------------------------------------------------------------
  // The HAL fields of a class

  /** The HAL fields of `fs`, in order. */
  function HalFilter(w: World, fs: seq<Field>): seq<Field>
    requires forall f :: f in fs ==> FieldOk(w, f)
  {
    if fs == [] then []
    else
      var last := fs[|fs| - 1];
      HalFilter(w, fs[..|fs| - 1]) + if IsHalField(w, last) then [last] else []
  }

  /** What `getHalFields(type)` returns. */
  function HalFields(w: World, c: Class): seq<Field>
    requires ClassOk(w, c)
  {
    AllFieldsOk(w, c);
    HalFilter(w, AllFields(c))
  }

  /** `a` is `b` with some elements left out: greedy matching from the back. */
  ghost predicate IsSubsequence<T>(a: seq<T>, b: seq<T>)
    decreases |b|
  {
    if a == [] then true
    else if b == [] then false
    else if a[|a| - 1] == b[|b| - 1] then IsSubsequence(a[..|a| - 1], b[..|b| - 1])
    else IsSubsequence(a, b[..|b| - 1])
  }

  /** The filter keeps exactly the HAL fields, and keeps them in order. */
  lemma {:induction false} HalFilterExact(w: World, fs: seq<Field>)
    requires forall f :: f in fs ==> FieldOk(w, f)
    ensures forall f :: f in HalFilter(w, fs) <==> f in fs && IsHalField(w, f)
    ensures IsSubsequence(HalFilter(w, fs), fs)
    ensures forall f :: f in HalFilter(w, fs) ==> IsHalField(w, f)
  {
    if fs != [] {
      var init := fs[..|fs| - 1];
      var last := fs[|fs| - 1];
      assert fs == init + [last];
      HalFilterExact(w, init);
      var r := HalFilter(w, fs);
      if IsHalField(w, last) {
        assert r == HalFilter(w, init) + [last];
        assert r[..|r| - 1] == HalFilter(w, init);
      } else {
        assert r == HalFilter(w, init);
        assert r == [] || r[|r| - 1] != last;
      }
    }
  }

  /** `getHalFields` is exactly the link or embed fields of `getAllFields`, in the same order. */
  lemma HalFieldsAreTheLinkOrEmbedFields(w: World, c: Class)
    requires ClassOk(w, c)
    ensures forall f :: f in HalFields(w, c) <==> f in AllFields(c) && FieldOk(w, f) && (IsLink(w, f) || IsEmbed(w, f))
    ensures IsSubsequence(HalFields(w, c), AllFields(c))
  {
    AllFieldsOk(w, c);
    HalFilterExact(w, AllFields(c));
  }

  // ---------------------------------------------------------------------
  // Assigning a decoded link or embed

  /** A value `setLink` accepts: null or an instance of `HalLinkObject` or a subclass. */
  predicate IsLinkObject(w: World, v: Value)
  {
    v.Null? || (v.Object? && Assignable(w, v.cls, HalLinkObjectName))
  }

  /** `Field.set` accepts null or an instance of the field's declared (raw) class. */
  predicate FieldAccepts(w: World, f: Field, v: Value)
  {
    v.Null? || Assignable(w, RuntimeClass(v), FieldType(f))
  }

  /** `setFieldSafe`: `Field.set`, which throws on a value the field's type does not accept. */
  function StoreChecked(w: World, f: Field, v: Value): (r: Result<Value>)
    ensures r.Ok? <==> FieldAccepts(w, f, v)
    ensures r.Ok? ==> r.value == v
    ensures r.Err? ==> r.error == FieldTypeMismatch(f.name, FieldType(f))
  {
    if FieldAccepts(w, f, v) then Ok(v) else Err(FieldTypeMismatch(f.name, FieldType(f)))
  }

  /** Hands a computed value on to `setFieldSafe`, or passes an earlier failure through. */
  function StoreAfter(w: World, f: Field, r: Result<Value>): Result<Value>
  {
    match r
    case Err(e) => Err(e)
    case Ok(v) => StoreChecked(w, f, v)
  }

  /**
   * The value `setLink` hands to `setFieldSafe`, tried in order: a
   * CharSequence field gets the href text, a URI field gets the href as a
   * URI, a `HalLinkObject` field gets the link itself; any other field type
   * is a cast error.
   */
  function LinkValueFor(w: World, f: Field, resource: Value): Result<Value>
    requires FieldOk(w, f) && IsLinkObject(w, resource)
  {
    var dest := ItemType(w, f);
    if Assignable(w, dest, CharSequenceName) then
      if resource.Null? then Err(NullPointer("link object"))
      else if Href(resource).None? then Err(NullPointer("href"))
      else Ok(Text(Href(resource).value))
    else if Assignable(w, dest, UriName) then
      if resource.Null? then Err(NullPointer("link object"))
      else Ok(if Href(resource).None? then Null else UriRef(Uri(Href(resource).value)))
    else if Assignable(w, dest, HalLinkObjectName) then Ok(resource)
    else Err(LinkNotAssignable(f.name, dest))
  }

  /** `setLink` with the URI branch corrected: the branch's value, stored by `Field.set`. */
  function LinkAssignment(w: World, f: Field, resource: Value): Result<Value>
    requires FieldOk(w, f) && IsLinkObject(w, resource)
  {
    StoreAfter(w, f, LinkValueFor(w, f, resource))
  }

  /**
   * `setLink` as the source writes it: the URI branch hands `getHref()`, a
   * String, to `Field.set` instead of a URI; the other branches are as above.
   */
  function LinkAssignmentAsWritten(w: World, f: Field, resource: Value): Result<Value>
    requires FieldOk(w, f) && IsLinkObject(w, resource)
  {
    var dest := ItemType(w, f);
    if !Assignable(w, dest, CharSequenceName) && Assignable(w, dest, UriName) then
      if resource.Null? then Err(NullPointer("link object"))
      else StoreChecked(w, f, TextOrNull(Href(resource)))
    else LinkAssignment(w, f, resource)
  }

  /** The href a stored link value stands for. */
  function DenotedHref(v: Value): Option<string>
  {
    match v
    case Text(s) => Some(s)
    case UriRef(u) => Some(u.text)
    case Object(_, _) => Href(v)
    case _ => None
  }

  /**
   * Whatever branch `setLink` takes for a link with an href, a field it
   * assigns ends up denoting that same href, in a value its type accepts. A
   * branch is found exactly when the field type is a CharSequence, a URI or
   * a `HalLinkObject`; otherwise the link is a cast error.
   */
  lemma LinkAssignmentKeepsHref(w: World, f: Field, resource: Value)
    requires FieldOk(w, f) && IsLinkObject(w, resource) && resource.Object? && Href(resource).Some?
    ensures LinkValueFor(w, f, resource).Ok? <==>
              (|| Assignable(w, ItemType(w, f), CharSequenceName)
               || Assignable(w, ItemType(w, f), UriName)
               || Assignable(w, ItemType(w, f), HalLinkObjectName))
    ensures var r := LinkAssignment(w, f, resource);
      && (r.Ok? ==> LinkValueFor(w, f, resource).Ok?)
      && (r.Ok? ==> DenotedHref(r.value) == Href(resource) && FieldAccepts(w, f, r.value))
      && (r.Err? ==> || r.error == LinkNotAssignable(f.name, ItemType(w, f))
                     || r.error == FieldTypeMismatch(f.name, FieldType(f)))
  {
  }

  /** A CharSequence field wins over every later branch, even for a type that is also a URI or a link. */
  lemma TextBranchFirst(w: World, f: Field, resource: Value)
    requires FieldOk(w, f) && IsLinkObject(w, resource) && resource.Object? && Href(resource).Some?
    requires Assignable(w, ItemType(w, f), CharSequenceName)
    ensures LinkValueFor(w, f, resource) == Ok(Text(Href(resource).value))
  {
  }

  /** A URI class is neither a CharSequence nor a collection, and a String is not a URI. */
  lemma UriIsPlain(w: World)
    requires WorldOk(w)
    ensures !Assignable(w, UriName, CharSequenceName) && !IsCollection(w, UriName)
    ensures Assignable(w, UriName, UriName) && !Assignable(w, StringName, UriName)
  {
    StringIsNot(UriName);
  }

  /** As written, a `URI` field given a link with an href makes `Field.set` throw. */
  lemma UriLinkAsWrittenRejected(w: World, f: Field, resource: Value)
    requires WorldOk(w) && FieldOk(w, f) && FieldType(f) == UriName
    requires IsLinkObject(w, resource) && resource.Object? && Href(resource).Some?
    ensures LinkAssignmentAsWritten(w, f, resource) == Err(FieldTypeMismatch(f.name, UriName))
  {
    UriIsPlain(w);
  }

  /** Corrected, a `URI` field given a link receives that link's href as a URI, or null for no href. */
  lemma UriLinkStoresUri(w: World, f: Field, resource: Value)
    requires WorldOk(w) && FieldOk(w, f) && FieldType(f) == UriName
    requires IsLinkObject(w, resource) && resource.Object?
    ensures Href(resource).Some? ==> LinkAssignment(w, f, resource) == Ok(UriRef(Uri(Href(resource).value)))
    ensures Href(resource).None? ==> LinkAssignment(w, f, resource) == Ok(Null)
  {
    UriIsPlain(w);
  }

  /**
   * What `setEmbed` stores: the decoded value itself, when the field's item
   * type is assignable from the value's runtime class and `Field.set` accepts
   * it; otherwise a cast error, or a null pointer for a null value.
   */
  function EmbedAssignment(w: World, f: Field, resource: Value): Result<Value>
    requires FieldOk(w, f)
  {
    var dest := ItemType(w, f);
    if resource.Null? then Err(NullPointer("embedded value"))
    else if Assignable(w, RuntimeClass(resource), dest) then StoreChecked(w, f, resource)
    else Err(EmbedNotAssignable(f.name, dest))
  }

  /**
   * An embed is stored unchanged, and exactly when its runtime class fits the
   * field's item type and the field itself; for a field that is not a
   * collection the two checks coincide.
   */
  lemma EmbedAssignmentIff(w: World, f: Field, resource: Value)
    requires FieldOk(w, f)
    ensures var r := EmbedAssignment(w, f, resource);
      && (r.Ok? <==> !resource.Null? && Assignable(w, RuntimeClass(resource), ItemType(w, f))
                     && FieldAccepts(w, f, resource))
      && (!IsCollection(w, FieldType(f)) ==>
            (r.Ok? <==> !resource.Null? && Assignable(w, RuntimeClass(resource), FieldType(f))))
      && (r.Ok? ==> r.value == resource)
  {
  }

  /** `setFieldSafe`: stores into the named field of `target` when `Field.set` accepts the value. */
  method SetFieldSafe(w: World, f: Field, value: Value, target: Instance) returns (o: Outcome)
    modifies target
    ensures var r := StoreChecked(w, f, value);
      && (r.Ok? ==> o == Pass && target.slots == old(target.slots)[Key(f) := value])
      && (r.Err? ==> o == Fail(r.error) && target.slots == old(target.slots))
  {
    if value.Null? || Assignable(w, RuntimeClass(value), FieldType(f)) {
      target.Set(Key(f), value);
      o := Pass;
    } else {
      o := Fail(FieldTypeMismatch(f.name, FieldType(f)));
    }
  }

  /**
   * `setLink`, with the URI branch corrected: assigns the named field of
   * `target` and no other, or throws and changes nothing.
   */
  method SetLink(w: World, f: Field, resource: Value, target: Instance) returns (o: Outcome)
    requires FieldOk(w, f) && IsLinkObject(w, resource)
    modifies target
    ensures var r := LinkAssignment(w, f, resource);
      && (r.Ok? ==> o == Pass && target.slots == old(target.slots)[Key(f) := r.value])
      && (r.Err? ==> o == Fail(r.error) && target.slots == old(target.slots))
  {
    var destinationType := ItemType(w, f);
    var value;
    if Assignable(w, destinationType, CharSequenceName) {
      if resource.Null? {
        return Fail(NullPointer("link object"));
      }
      var href := Href(resource);
      if href.None? {
        return Fail(NullPointer("href"));
      }
      value := Text(href.value);
    } else if Assignable(w, destinationType, UriName) {
      if resource.Null? {
        return Fail(NullPointer("link object"));
      }
      // Corrected: the href as a URI. The source stores the String itself
      // (`LinkAssignmentAsWritten`).
      var href := Href(resource);
      value := if href.None? then Null else UriRef(Uri(href.value));
    } else if Assignable(w, destinationType, HalLinkObjectName) {
      value := resource;
    } else {
      return Fail(LinkNotAssignable(f.name, destinationType));
    }
    o := SetFieldSafe(w, f, value, target);
  }

  /** `setEmbed`: assigns the named field of `target` and no other, or throws and changes nothing. */
  method SetEmbed(w: World, f: Field, resource: Value, target: Instance) returns (o: Outcome)
    requires FieldOk(w, f)
    modifies target
    ensures var r := EmbedAssignment(w, f, resource);
      && (r.Ok? ==> o == Pass && target.slots == old(target.slots)[Key(f) := r.value])
      && (r.Err? ==> o == Fail(r.error) && target.slots == old(target.slots))
  {
    var destinationType := ItemType(w, f);
    if resource.Null? {
      return Fail(NullPointer("embedded value"));
    }
    if Assignable(w, RuntimeClass(resource), destinationType) {
      o := SetFieldSafe(w, f, resource, target);
    } else {
      o := Fail(EmbedNotAssignable(f.name, destinationType));
    }
  }

  /** The loop of `getHalFields`: keeps each field that is a link or an embed, in order. */
  method SelectHalFields(w: World, fields: seq<Field>) returns (result: seq<Field>)
    requires forall f :: f in fields ==> FieldOk(w, f)
    ensures result == HalFilter(w, fields)
  {
    result := [];
    var i := 0;
    while i < |fields|
      invariant 0 <= i <= |fields|
      invariant result == HalFilter(w, fields[..i])
    {
      var field := fields[i];
      assert fields[..i + 1][..i] == fields[..i];
      if IsLink(w, field) || IsEmbed(w, field) {
        result := result + [field];
      }
      i := i + 1;
    }
    assert fields[..i] == fields;
  }

  // ---------------------------------------------------------------------
  // The two caches

  /** The classes of an ancestry, as a set. */
  function AncestrySet(c: Class): set<Class>
  {
    set k | k in Ancestry(c)
  }

  /**
   * The process-wide caches: the declared fields of each class reached so
   * far, and the HAL fields of each class resolved so far; both only grow.
   */
  class Caches {
    const world: World
    var fieldCache: map<Class, seq<Field>>
    var halFieldCache: map<Class, seq<Field>>

    ghost predicate Valid()
      reads this
    {
      && WorldOk(world)
      && (forall t :: t in fieldCache ==> fieldCache[t] == t.fields)
      && (forall t :: t in halFieldCache ==> ClassOk(world, t) && halFieldCache[t] == HalFields(world, t))
    }

    constructor (world: World)
      requires WorldOk(world)
      ensures Valid() && this.world == world
      ensures fieldCache == map[] && halFieldCache == map[]
    {
      this.world := world;
      fieldCache := map[];
      halFieldCache := map[];
    }

    /** `getAllFields(type)`. */
    method GetAllFields(t: Class) returns (r: seq<Field>)
      requires Valid()
      modifies this
      ensures Valid()
      ensures r == AllFields(t)
      ensures fieldCache.Keys == old(fieldCache.Keys) + AncestrySet(t)
      ensures forall k :: k in old(fieldCache) ==> fieldCache[k] == old(fieldCache[k])
      ensures halFieldCache == old(halFieldCache)
    {
      r := GetAllFieldsInto([], t);
    }

    /**
     * `getAllFields(fields, type)`: appends the fields of `t` and of each
     * ancestor to `fields`, filing each class's own fields in the cache; an
     * entry already there is reused as it is.
     */
    method GetAllFieldsInto(fields: seq<Field>, t: Class) returns (r: seq<Field>)
      requires Valid()
      modifies this
      decreases t
      ensures Valid()
      ensures r == fields + AllFields(t)
      ensures fieldCache.Keys == old(fieldCache.Keys) + AncestrySet(t)
      ensures forall k :: k in old(fieldCache) ==> fieldCache[k] == old(fieldCache[k])
      ensures halFieldCache == old(halFieldCache)
    {
      var fieldsForOnlyThisClass := if t in fieldCache then fieldCache[t] else t.fields;
      fieldCache := fieldCache[t := fieldsForOnlyThisClass];
      var acc := fields + fieldsForOnlyThisClass;
      if t.superclass.None? {
        r := acc;
        assert Ancestry(t) == [t];
      } else {
        r := GetAllFieldsInto(acc, t.superclass.value);
        assert Ancestry(t) == [t] + Ancestry(t.superclass.value);
      }
    }

    /**
     * `getHalFields(type)`: the cached list when there is one, with nothing
     * changed; otherwise the link and embed fields of `getAllFields(type)`,
     * which are then cached.
     */
    method GetHalFields(t: Class) returns (r: seq<Field>)
      requires Valid() && ClassOk(world, t)
      modifies this
      ensures Valid()
      ensures r == HalFields(world, t)
      ensures halFieldCache == old(halFieldCache)[t := r]
      ensures t in old(halFieldCache) ==> r == old(halFieldCache[t]) && fieldCache == old(fieldCache)
      ensures t !in old(halFieldCache) ==> fieldCache.Keys == old(fieldCache.Keys) + AncestrySet(t)
      ensures forall k :: k in old(fieldCache) ==> fieldCache[k] == old(fieldCache[k])
    {
      if t in halFieldCache {
        r := halFieldCache[t];
        return;
      }
      var fields := GetAllFields(t);
      AllFieldsOk(world, t);
      var result := SelectHalFields(world, fields);
      halFieldCache := halFieldCache[t := result];
      r := result;
    }
  }
}
