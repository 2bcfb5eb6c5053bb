/**
 * The type adapter factory: a class without `@HalResource` gets the
 * mapper's own adapter; a resource class gets an adapter that writes
 * through the mapper unchanged and, when reading, lets the mapper build the
 * object and then fills in its link and embed fields from the document's
 * `_links` and `_embedded` objects.
 *
 * `Decode` and its helpers state the read as functions; `Read`, `ReadLink`
 * and `ReadEmbed` are the procedure itself, proved equal to them.
 */
module HalTypeAdapterFactory {
  import opened Json
  import opened Descriptors
  import opened Objects
  import opened HalReflection

  /**
   * The generic mapper as the core sees it. `instantiate` is the delegate
   * adapter of a data-model class building an object from an object tree
   * (it knows nothing of `_links` and `_embedded`); `decode` is every other
   * conversion it performs; `encode` is its writer.
   */
  datatype Mapper = Mapper(
    instantiate: (ClassName, seq<Member>) -> Result<Slots>,
    decode: (ClassName, Json) -> Result<Value>,
    encode: (ClassName, Value) -> Json)

  /** `delegate.fromJsonTree(json)`: what the mapper alone makes of a tree. */
  function DelegateRead(m: Mapper, cls: ClassName, j: Json): (r: Result<Value>)
    ensures j.JObject? ==> (r.Ok? <==> m.instantiate(cls, j.members).Ok?)
    ensures j.JObject? && r.Ok? ==> r.value == Object(cls, m.instantiate(cls, j.members).value)
  {
    match j
    case JObject(ms) =>
      (match m.instantiate(cls, ms)
       case Ok(slots) => Ok(Object(cls, slots))
       case Err(e) => Err(e))
    case _ => m.decode(cls, j)
  }

  /** The adapter `create` hands out: the delegate itself, or the HAL adapter. */
  datatype Adapter = Delegate(cls: Class) | HalAdapter(cls: Class)

  /** `create`: only a class marked `@HalResource` gets the HAL adapter. */
  function Create(c: Class): (a: Adapter)
    ensures a.cls == c
    ensures a.HalAdapter? <==> IsResource(c)
  {
    if !IsResource(c) then Delegate(c) else HalAdapter(c)
  }

  /** `write`: the HAL adapter (made null-safe) writes through the delegate. */
  function Write(m: Mapper, a: Adapter, v: Value): (out: Json)
    ensures a.HalAdapter? && v.Null? ==> out == JNull
    ensures a.Delegate? || !v.Null? ==> out == m.encode(a.cls.name, v)
  {
    match a
    case Delegate(c) => m.encode(c.name, v)
    case HalAdapter(c) => if v.Null? then JNull else m.encode(c.name, v)
  }

  /** Writing is plain writing, for every class and value, when the mapper writes null as null. */
  lemma WriteIsPlainWrite(m: Mapper, c: Class, v: Value)
    requires m.encode(c.name, Null) == JNull
    ensures Write(m, Create(c), v) == m.encode(c.name, v)
  {
  }

  /** `getAsJsonObject(name)` on the document: absent is no root; a non-object is a cast error. */
  function RootObject(ms: seq<Member>, name: string): (r: Result<Option<seq<Member>>>)
    ensures r.Ok? && r.value.Some? ==> MembersSize(r.value.value) < MembersSize(ms)
    ensures r.Ok? && r.value.Some? ==> Get(ms, name) == Some(JObject(r.value.value))
    ensures r.Ok? && r.value.None? <==> !Has(ms, name)
    ensures Get(ms, name).Some? && Get(ms, name).value.JObject? ==> r == Ok(Some(Get(ms, name).value.members))
    ensures Get(ms, name).Some? && !Get(ms, name).value.JObject? ==> r == Err(NotAJsonObject(name))
    ensures r.Err? ==> r.error == NotAJsonObject(name)
  {
    match Get(ms, name)
    case None => Ok(None)
    case Some(JObject(root)) => Ok(Some(root))
    case Some(_) => Err(NotAJsonObject(name))
  }

  /**
   * The class `readLink` decodes a link into, as the check is written:
   * `!innerType.isAssignableFrom(HalLinkObject.class)` keeps the item type
   * only when it is `HalLinkObject` or one of its supertypes.
   */
  function LinkTargetAsWritten(w: World, f: Field): (t: ClassName)
    requires WorldOk(w) && FieldOk(w, f)
    ensures Assignable(w, HalLinkObjectName, ItemType(w, f)) ==> t == ItemType(w, f)
    ensures !Assignable(w, HalLinkObjectName, ItemType(w, f)) ==> t == HalLinkObjectName
  {
    var innerType := ItemType(w, f);
    if !Assignable(w, HalLinkObjectName, innerType) then HalLinkObjectName else innerType
  }

  /**
   * The class a link is decoded into, as the comment beside the check
   * intends: the item type when it descends from `HalLinkObject`, else
   * `HalLinkObject` itself.
   */
  function LinkTarget(w: World, f: Field): (t: ClassName)
    requires WorldOk(w) && FieldOk(w, f)
    ensures t in w && Assignable(w, t, HalLinkObjectName)
    ensures t == ItemType(w, f) || t == HalLinkObjectName
    ensures Assignable(w, ItemType(w, f), HalLinkObjectName) ==> t == ItemType(w, f)
  {
    var innerType := ItemType(w, f);
    if Assignable(w, innerType, HalLinkObjectName) then innerType else HalLinkObjectName
  }

  /**
   * As written, a field declared as a strict subclass of `HalLinkObject`
   * has its link decoded as a plain `HalLinkObject`, which `Field.set` then
   * refuses to store into the field.
   */
  lemma LinkSubclassAsWrittenRejected(w: World, f: Field, s: Slots)
    requires WorldOk(w) && FieldOk(w, f) && !IsCollection(w, FieldType(f))
    requires Assignable(w, FieldType(f), HalLinkObjectName) && !Assignable(w, HalLinkObjectName, FieldType(f))
    requires !Assignable(w, FieldType(f), CharSequenceName) && !Assignable(w, FieldType(f), UriName)
    ensures LinkTargetAsWritten(w, f) == HalLinkObjectName
    ensures LinkAssignment(w, f, Object(HalLinkObjectName, s)) == Err(FieldTypeMismatch(f.name, FieldType(f)))
  {
  }

  /**
   * Corrected, such a field has its link decoded into its own class, and any
   * value of that class the mapper produces is stored unchanged.
   */
  lemma LinkSubclassStored(w: World, f: Field, cls: ClassName, s: Slots)
    requires WorldOk(w) && FieldOk(w, f) && !IsCollection(w, FieldType(f))
    requires Assignable(w, FieldType(f), HalLinkObjectName)
    requires !Assignable(w, FieldType(f), CharSequenceName) && !Assignable(w, FieldType(f), UriName)
    requires Assignable(w, cls, FieldType(f)) && Assignable(w, cls, HalLinkObjectName)
    ensures LinkTarget(w, f) == FieldType(f)
    ensures LinkAssignment(w, f, Object(cls, s)) == Ok(Object(cls, s))
  {
  }

  // ---------------------------------------------------------------------
  // The read, as functions

  /** `gson.fromJson(json, t)`: the adapter `create` picks for `t`, made null-safe. */
  function FromJson(w: World, m: Mapper, t: ClassName, j: Json): Result<Value>
    requires WorldOk(w) && t in w
    decreases Size(j), 3, 0
  {
    match Create(w[t])
    case Delegate(_) => DelegateRead(m, t, j)
    case HalAdapter(c) => if j.JNull? then Ok(Null) else Decode(w, m, c, j)
  }

  /** The HAL adapter's `read` of a resource class. */
  function Decode(w: World, m: Mapper, c: Class, j: Json): Result<Value>
    requires WorldOk(w) && ClassOk(w, c)
    decreases Size(j), 2, 0
  {
    match j
    case JObject(ms) =>
      (match m.instantiate(c.name, ms)
       case Err(e) => Err(e)
       case Ok(slots) =>
         match RootObject(ms, LinksRoot)
         case Err(e) => Err(e)
         case Ok(links) =>
           match RootObject(ms, EmbeddedRoot)
           case Err(e) => Err(e)
           case Ok(embedded) =>
             AllFieldsOk(w, c);
             HalFilterExact(w, AllFields(c));
             match ReadHalFields(w, m, HalFields(w, c), links, embedded, slots, Size(j))
             case Err(e) => Err(e)
             case Ok(result) => Ok(Object(c.name, result)))
    case _ => DelegateRead(m, c.name, j)
  }

  ghost predicate FieldsOk(w: World, fs: seq<Field>)
  {
    forall f :: f in fs ==> FieldOk(w, f)
  }

  ghost predicate RootsBelow(links: Option<seq<Member>>, embedded: Option<seq<Member>>, bound: nat)
  {
    && (links.Some? ==> MembersSize(links.value) < bound)
    && (embedded.Some? ==> MembersSize(embedded.value) < bound)
  }

  /** The loop of `read`: each HAL field in turn, stopping at the first failure. */
  function ReadHalFields(w: World, m: Mapper, fs: seq<Field>, links: Option<seq<Member>>,
                         embedded: Option<seq<Member>>, slots: Slots, ghost bound: nat): Result<Slots>
    requires WorldOk(w) && FieldsOk(w, fs) && RootsBelow(links, embedded, bound)
    decreases bound, 1, |fs|
  {
    if fs == [] then Ok(slots)
    else
      match FieldStep(w, m, fs[0], links, embedded, slots, bound)
      case Err(e) => Err(e)
      case Ok(next) => ReadHalFields(w, m, fs[1..], links, embedded, next, bound)
  }

  /** One field of the loop: a link is read as a link even when it is also an embed. */
  function FieldStep(w: World, m: Mapper, f: Field, links: Option<seq<Member>>,
                     embedded: Option<seq<Member>>, slots: Slots, ghost bound: nat): Result<Slots>
    requires WorldOk(w) && FieldOk(w, f) && RootsBelow(links, embedded, bound)
    decreases bound, 0, 1
  {
    if IsLink(w, f) then LinkStep(w, m, f, links, slots, bound)
    else if IsEmbed(w, f) then EmbedStep(w, m, f, embedded, slots, bound)
    else Ok(slots)
  }

  /** `readLink`, with `LinkTarget` and `LinkAssignment` in their corrected form. */
  function LinkStep(w: World, m: Mapper, f: Field, root: Option<seq<Member>>,
                    slots: Slots, ghost bound: nat): Result<Slots>
    requires WorldOk(w) && FieldOk(w, f) && RootsBelow(root, None, bound)
    decreases bound, 0, 0
  {
    if f.link.None? then Err(NullPointer("HalLink annotation"))
    else
      var link := f.link.value;
      if root.None? && link.optional then Ok(slots)
      else
        var memberName := JsonFieldName(link, f);
        if root.None? then Err(MissingLink(memberName, LinksRoot))
        else if !Has(root.value, memberName) then
          if link.optional then Ok(slots) else Err(MissingLink(memberName, LinksRoot))
        else
          var element := Get(root.value, memberName).value;
          match FromJson(w, m, LinkTarget(w, f), element)
          case Err(e) => Err(e)
          case Ok(resource) =>
            if !IsLinkObject(w, resource) then Err(NotALinkObject(f.name))
            else
              match LinkAssignment(w, f, resource)
              case Err(e) => Err(e)
              case Ok(v) => Ok(slots[Key(f) := v])
  }

  /** `readEmbed`: the value is decoded into the item type, recursively. */
  function EmbedStep(w: World, m: Mapper, f: Field, root: Option<seq<Member>>,
                     slots: Slots, ghost bound: nat): Result<Slots>
    requires WorldOk(w) && FieldOk(w, f) && RootsBelow(None, root, bound)
    decreases bound, 0, 0
  {
    if f.embed.None? then Err(NullPointer("HalEmbed annotation"))
    else
      var embed := f.embed.value;
      if root.None? && embed.optional then Ok(slots)
      else
        var memberName := JsonFieldName(embed, f);
        if root.None? then Err(MissingEmbed(memberName, EmbeddedRoot))
        else if !Has(root.value, memberName) then
          if embed.optional then Ok(slots) else Err(MissingEmbed(memberName, EmbeddedRoot))
        else
          var element := Get(root.value, memberName).value;
          match FromJson(w, m, ItemType(w, f), element)
          case Err(e) => Err(e)
          case Ok(resource) =>
            match EmbedAssignment(w, f, resource)
            case Err(e) => Err(e)
            case Ok(v) => Ok(slots[Key(f) := v])
  }

  // ---------------------------------------------------------------------
  // The read, as the procedure

  /** `gson.fromJson(element, type)` as the adapters perform it. */
  method FromJsonTree(caches: Caches, m: Mapper, t: ClassName, j: Json) returns (r: Result<Value>)
    requires caches.Valid() && t in caches.world
    modifies caches
    decreases Size(j), 3, 0
    ensures caches.Valid()
    ensures old(caches.fieldCache.Keys) <= caches.fieldCache.Keys && old(caches.halFieldCache.Keys) <= caches.halFieldCache.Keys
    ensures r == FromJson(caches.world, m, t, j)
    ensures IsResource(caches.world[t]) && j.JObject? && FromJson(caches.world, m, t, j).Ok? ==> caches.world[t] in caches.halFieldCache
  {
    var adapter := Create(caches.world[t]);
    match adapter
    case Delegate(_) =>
      r := DelegateRead(m, t, j);
    case HalAdapter(c) =>
      if j.JNull? {
        r := Ok(Null);
      } else {
        r := Read(caches, m, c, j);
      }
  }

  /** The HAL adapter's `read`. */
  method Read(caches: Caches, m: Mapper, c: Class, j: Json) returns (r: Result<Value>)
    requires caches.Valid() && ClassOk(caches.world, c)
    modifies caches
    decreases Size(j), 2, 0
    ensures caches.Valid()
    ensures old(caches.fieldCache.Keys) <= caches.fieldCache.Keys && old(caches.halFieldCache.Keys) <= caches.halFieldCache.Keys
    ensures r == Decode(caches.world, m, c, j)
    ensures (&& j.JObject? && DelegateRead(m, c.name, j).Ok? && RootObject(j.members, LinksRoot).Ok?
             && RootObject(j.members, EmbeddedRoot).Ok?) ==> c in caches.halFieldCache
  {
    var w := caches.world;
    var deserialized := DelegateRead(m, c.name, j);
    if deserialized.Err? || !j.JObject? {
      return deserialized;
    }
    var fullJsonObject := j.members;
    var linksObject := RootObject(fullJsonObject, LinksRoot);
    if linksObject.Err? {
      return Err(linksObject.error);
    }
    var embeddedObject := RootObject(fullJsonObject, EmbeddedRoot);
    if embeddedObject.Err? {
      return Err(embeddedObject.error);
    }
    var links, embedded := linksObject.value, embeddedObject.value;
    var fieldsList := caches.GetHalFields(c);
    AllFieldsOk(w, c);
    HalFilterExact(w, AllFields(c));
    var instance := new Instance(c.name, deserialized.value.slots);
    var outcome := ReadFields(caches, m, fieldsList, links, embedded, instance, Size(j));
    if outcome.Fail? {
      return Err(outcome.error);
    }
    r := Ok(instance.Snapshot());
  }

  /** The loop of `read` over the HAL fields, stopping at the first exception. */
  method ReadFields(caches: Caches, m: Mapper, fieldsList: seq<Field>, links: Option<seq<Member>>,
                    embedded: Option<seq<Member>>, instance: Instance, ghost bound: nat) returns (o: Outcome)
    requires caches.Valid() && FieldsOk(caches.world, fieldsList) && RootsBelow(links, embedded, bound)
    modifies caches, instance
    decreases bound, 1, 0
    ensures caches.Valid()
    ensures old(caches.fieldCache.Keys) <= caches.fieldCache.Keys && old(caches.halFieldCache.Keys) <= caches.halFieldCache.Keys
    ensures var res := ReadHalFields(caches.world, m, fieldsList, links, embedded, old(instance.slots), bound);
      && (res.Ok? ==> o == Pass && instance.slots == res.value)
      && (res.Err? ==> o == Fail(res.error))
  {
    var w := caches.world;
    ghost var initial := instance.slots;
    var i := 0;
    while i < |fieldsList|
      invariant 0 <= i <= |fieldsList|
      invariant caches.Valid() && caches.world == w
      invariant old(caches.fieldCache.Keys) <= caches.fieldCache.Keys && old(caches.halFieldCache.Keys) <= caches.halFieldCache.Keys
      invariant FieldsOk(w, fieldsList[i..])
      invariant ReadHalFields(w, m, fieldsList[i..], links, embedded, instance.slots, bound)
             == ReadHalFields(w, m, fieldsList, links, embedded, initial, bound)
    {
      var field := fieldsList[i];
      assert fieldsList[i..][0] == field && fieldsList[i..][1..] == fieldsList[i + 1..];
      var outcome := ReadField(caches, m, field, links, embedded, instance, bound);
      if outcome.Fail? {
        return outcome;
      }
      i := i + 1;
    }
    o := Pass;
  }

  /** One pass of the loop in `read`: a link field is read as a link, else an embed field as an embed. */
  method ReadField(caches: Caches, m: Mapper, field: Field, links: Option<seq<Member>>,
                   embedded: Option<seq<Member>>, instance: Instance, ghost bound: nat) returns (o: Outcome)
    requires caches.Valid() && FieldOk(caches.world, field) && RootsBelow(links, embedded, bound)
    modifies caches, instance
    decreases bound, 0, 2
    ensures caches.Valid()
    ensures old(caches.fieldCache.Keys) <= caches.fieldCache.Keys && old(caches.halFieldCache.Keys) <= caches.halFieldCache.Keys
    ensures var step := FieldStep(caches.world, m, field, links, embedded, old(instance.slots), bound);
      && (step.Ok? ==> o == Pass && instance.slots == step.value)
      && (step.Err? ==> o == Fail(step.error))
  {
    var w := caches.world;
    o := Pass;
    if IsLink(w, field) {
      o := ReadLink(caches, m, field, links, instance, bound);
    } else if IsEmbed(w, field) {
      o := ReadEmbed(caches, m, field, embedded, instance, bound);
    }
  }

  /**
   * `readLink`, with the link target check and `setLink` in their corrected
   * form: on success the object holds exactly what `LinkStep` computes.
   */
  method ReadLink(caches: Caches, m: Mapper, field: Field, rootObject: Option<seq<Member>>,
                  deserialized: Instance, ghost bound: nat) returns (o: Outcome)
    requires caches.Valid() && FieldOk(caches.world, field) && RootsBelow(rootObject, None, bound)
    modifies caches, deserialized
    decreases bound, 0, 0
    ensures caches.Valid()
    ensures old(caches.fieldCache.Keys) <= caches.fieldCache.Keys && old(caches.halFieldCache.Keys) <= caches.halFieldCache.Keys
    ensures var step := LinkStep(caches.world, m, field, rootObject, old(deserialized.slots), bound);
      && (step.Ok? ==> o == Pass && deserialized.slots == step.value)
      && (step.Err? ==> o == Fail(step.error))
  {
    var w := caches.world;
    if field.link.None? {
      return Fail(NullPointer("HalLink annotation"));
    }
    var link := field.link.value;
    var optional := link.optional;
    if rootObject.None? && optional {
      return Pass;
    }
    var memberName := JsonFieldName(link, field);
    var missingException := MissingLink(memberName, LinksRoot);
    if rootObject.None? {
      return Fail(missingException);
    }
    var exists_ := Has(rootObject.value, memberName);
    if !exists_ {
      if optional {
        return Pass;
      }
      return Fail(missingException);
    }
    var innerType := ItemType(w, field);
    // Corrected: keep a descendant of `HalLinkObject`. The source tests the
    // reverse direction (`LinkTargetAsWritten`).
    if !Assignable(w, innerType, HalLinkObjectName) {
      innerType := HalLinkObjectName;
    }
    var element := Get(rootObject.value, memberName).value;
    var resource := FromJsonTree(caches, m, innerType, element);
    if resource.Err? {
      return Fail(resource.error);
    }
    if !IsLinkObject(w, resource.value) {
      return Fail(NotALinkObject(field.name));
    }
    o := SetLink(w, field, resource.value, deserialized);
  }

  /** `readEmbed`: on success the object holds exactly what `EmbedStep` computes. */
  method ReadEmbed(caches: Caches, m: Mapper, field: Field, rootObject: Option<seq<Member>>,
                   deserialized: Instance, ghost bound: nat) returns (o: Outcome)
    requires caches.Valid() && FieldOk(caches.world, field) && RootsBelow(None, rootObject, bound)
    modifies caches, deserialized
    decreases bound, 0, 0
    ensures caches.Valid()
    ensures old(caches.fieldCache.Keys) <= caches.fieldCache.Keys && old(caches.halFieldCache.Keys) <= caches.halFieldCache.Keys
    ensures var step := EmbedStep(caches.world, m, field, rootObject, old(deserialized.slots), bound);
      && (step.Ok? ==> o == Pass && deserialized.slots == step.value)
      && (step.Err? ==> o == Fail(step.error))
  {
    var w := caches.world;
    if field.embed.None? {
      return Fail(NullPointer("HalEmbed annotation"));
    }
    var embed := field.embed.value;
    var optional := embed.optional;
    if rootObject.None? && optional {
      return Pass;
    }
    var memberName := JsonFieldName(embed, field);
    var missingException := MissingEmbed(memberName, EmbeddedRoot);
    if rootObject.None? {
      return Fail(missingException);
    }
    var exists_ := Has(rootObject.value, memberName);
    if !exists_ {
      if optional {
        return Pass;
      }
      return Fail(missingException);
    }
    var innerType := ItemType(w, field);
    var element := Get(rootObject.value, memberName).value;
    var resource := FromJsonTree(caches, m, innerType, element);
    if resource.Err? {
      return Fail(resource.error);
    }
    o := SetEmbed(w, field, resource.value, deserialized);
  }

  // ---------------------------------------------------------------------
  // Properties of the read

  /** A class without `@HalResource` is read by the mapper alone. */
  lemma NonResourcePassThrough(w: World, m: Mapper, t: ClassName, j: Json)
    requires WorldOk(w) && t in w && !IsResource(w[t])
    ensures FromJson(w, m, t, j) == DelegateRead(m, t, j)
  {
  }

  /** A JSON null is null for a resource; any other non-object tree is the mapper's result alone. */
  lemma NonObjectTreeUntouched(w: World, m: Mapper, t: ClassName, j: Json)
    requires WorldOk(w) && t in w && IsResource(w[t]) && !j.JObject?
    ensures j.JNull? ==> FromJson(w, m, t, j) == Ok(Null)
    ensures !j.JNull? ==> FromJson(w, m, t, j) == m.decode(t, j)
  {
  }

  /** The member a HAL field is read from is there: its root exists and has the key. */
  predicate Present(w: World, f: Field, links: Option<seq<Member>>, embedded: Option<seq<Member>>)
    requires FieldOk(w, f)
  {
    if IsLink(w, f) then
      f.link.Some? && links.Some? && Has(links.value, JsonFieldName(f.link.value, f))
    else if IsEmbed(w, f) then
      f.embed.Some? && embedded.Some? && Has(embedded.value, JsonFieldName(f.embed.value, f))
    else false
  }

  /** The field's annotation lets its member be absent; a plain field is never looked up. */
  predicate MayBeAbsent(w: World, f: Field)
    requires FieldOk(w, f)
  {
    if IsLink(w, f) then f.link.Some? && f.link.value.optional
    else if IsEmbed(w, f) then f.embed.Some? && f.embed.value.optional
    else true
  }

  /**
   * A field whose member is absent leaves the object as it is when it is
   * optional, and otherwise fails with the parse error naming the member and
   * its root (or with a null pointer when the annotation is missing).
   */
  lemma AbsentMember(w: World, m: Mapper, f: Field, links: Option<seq<Member>>,
                     embedded: Option<seq<Member>>, slots: Slots, bound: nat)
    requires WorldOk(w) && FieldOk(w, f) && RootsBelow(links, embedded, bound)
    requires !Present(w, f, links, embedded)
    ensures var r := FieldStep(w, m, f, links, embedded, slots, bound);
      && (r.Ok? <==> MayBeAbsent(w, f))
      && (r.Ok? ==> r.value == slots)
      && (IsLink(w, f) && f.link.Some? && r.Err? ==>
            r.error == MissingLink(JsonFieldName(f.link.value, f), LinksRoot))
      && (!IsLink(w, f) && IsEmbed(w, f) && f.embed.Some? && r.Err? ==>
            r.error == MissingEmbed(JsonFieldName(f.embed.value, f), EmbeddedRoot))
      && (IsLink(w, f) && f.link.None? ==> r == Err(NullPointer("HalLink annotation")))
      && (!IsLink(w, f) && IsEmbed(w, f) && f.embed.None? ==> r == Err(NullPointer("HalEmbed annotation")))
  {
  }

  /** An absent root and a root without the member end the same way: one error for both. */
  lemma AbsentRootIsAbsentKey(w: World, m: Mapper, f: Field, root: seq<Member>, slots: Slots, bound: nat)
    requires WorldOk(w) && FieldOk(w, f) && MembersSize(root) < bound
    ensures f.link.Some? && !Has(root, JsonFieldName(f.link.value, f)) ==>
      LinkStep(w, m, f, Some(root), slots, bound) == LinkStep(w, m, f, None, slots, bound)
    ensures f.embed.Some? && !Has(root, JsonFieldName(f.embed.value, f)) ==>
      EmbedStep(w, m, f, Some(root), slots, bound) == EmbedStep(w, m, f, None, slots, bound)
  {
  }

  /** A field that is both a link and an embed is read as a link only; an embed never looks at `_links`. */
  lemma LinkBeforeEmbed(w: World, m: Mapper, f: Field, links: Option<seq<Member>>, links': Option<seq<Member>>,
                        embedded: Option<seq<Member>>, embedded': Option<seq<Member>>, slots: Slots, bound: nat)
    requires WorldOk(w) && FieldOk(w, f)
    requires RootsBelow(links, embedded, bound) && RootsBelow(links', embedded', bound)
    ensures IsLink(w, f) && links == links' ==>
      FieldStep(w, m, f, links, embedded, slots, bound) == FieldStep(w, m, f, links', embedded', slots, bound)
    ensures !IsLink(w, f) && embedded == embedded' ==>
      FieldStep(w, m, f, links, embedded, slots, bound) == FieldStep(w, m, f, links', embedded', slots, bound)
  {
  }

  /**
   * A present link is decoded into a link object and the field receives its
   * href, as text or as a URI, or the link object itself.
   */
  lemma PresentLinkKeepsHref(w: World, m: Mapper, f: Field, links: Option<seq<Member>>,
                             embedded: Option<seq<Member>>, slots: Slots, bound: nat)
    requires WorldOk(w) && FieldOk(w, f) && RootsBelow(links, embedded, bound)
    requires IsLink(w, f) && Present(w, f, links, embedded)
    ensures var element := Get(links.value, JsonFieldName(f.link.value, f)).value;
      var v := FromJson(w, m, LinkTarget(w, f), element);
      var r := FieldStep(w, m, f, links, embedded, slots, bound);
      && (v.Err? ==> r == Err(v.error))
      && (v.Ok? && !IsLinkObject(w, v.value) ==> r == Err(NotALinkObject(f.name)))
      && (v.Ok? && v.value.Object? && IsLinkObject(w, v.value) && Href(v.value).Some? ==>
            && (r.Ok? ==> || Assignable(w, ItemType(w, f), CharSequenceName)
                          || Assignable(w, ItemType(w, f), UriName)
                          || Assignable(w, ItemType(w, f), HalLinkObjectName))
            && (r.Ok? ==> && Key(f) in r.value && FieldAccepts(w, f, r.value[Key(f)])
                          && DenotedHref(r.value[Key(f)]) == Href(v.value)))
  {
    var element := Get(links.value, JsonFieldName(f.link.value, f)).value;
    var v := FromJson(w, m, LinkTarget(w, f), element);
    if v.Ok? && v.value.Object? && IsLinkObject(w, v.value) && Href(v.value).Some? {
      LinkAssignmentKeepsHref(w, f, v.value);
    }
  }

  /**
   * A present embed is decoded recursively into the field's item type; a
   * failure inside it is the failure of the whole step, and on success the
   * field holds the decoded value.
   */
  lemma PresentEmbedIsDecoded(w: World, m: Mapper, f: Field, links: Option<seq<Member>>,
                              embedded: Option<seq<Member>>, slots: Slots, bound: nat)
    requires WorldOk(w) && FieldOk(w, f) && RootsBelow(links, embedded, bound)
    requires !IsLink(w, f) && IsEmbed(w, f) && Present(w, f, links, embedded)
    ensures var element := Get(embedded.value, JsonFieldName(f.embed.value, f)).value;
      var v := FromJson(w, m, ItemType(w, f), element);
      var r := FieldStep(w, m, f, links, embedded, slots, bound);
      && (v.Err? ==> r == Err(v.error))
      && (v.Ok? ==> (r.Ok? <==> && !v.value.Null? && Assignable(w, RuntimeClass(v.value), ItemType(w, f))
                                && FieldAccepts(w, f, v.value)))
      && (r.Ok? ==> v.Ok? && r.value == slots[Key(f) := v.value])
  {
    var element := Get(embedded.value, JsonFieldName(f.embed.value, f)).value;
    var v := FromJson(w, m, ItemType(w, f), element);
    if v.Ok? {
      EmbedAssignmentIff(w, f, v.value);
    }
  }

  /** One step changes at most the field it reads, and only when its member is present. */
  lemma StepWritesOnlyItsField(w: World, m: Mapper, f: Field, links: Option<seq<Member>>,
                               embedded: Option<seq<Member>>, slots: Slots, bound: nat)
    requires WorldOk(w) && FieldOk(w, f) && RootsBelow(links, embedded, bound)
    ensures var r := FieldStep(w, m, f, links, embedded, slots, bound);
      && (r.Ok? ==> r.value - {Key(f)} == slots - {Key(f)})
      && (r.Ok? && Present(w, f, links, embedded) ==> Key(f) in r.value)
      && (r.Ok? && !Present(w, f, links, embedded) ==> r.value == slots)
  {
    var r := FieldStep(w, m, f, links, embedded, slots, bound);
    StepShape(w, m, f, links, embedded, slots, bound);
    if r.Ok? && Present(w, f, links, embedded) {
      UpdateOnlyKey(slots, Key(f), r.value[Key(f)]);
    }
  }

  /** A successful step either updates its own field or leaves the slots as they were. */
  lemma StepShape(w: World, m: Mapper, f: Field, links: Option<seq<Member>>,
                  embedded: Option<seq<Member>>, slots: Slots, bound: nat)
    requires WorldOk(w) && FieldOk(w, f) && RootsBelow(links, embedded, bound)
    ensures var r := FieldStep(w, m, f, links, embedded, slots, bound);
      && (r.Ok? && Present(w, f, links, embedded) ==> Key(f) in r.value && r.value == slots[Key(f) := r.value[Key(f)]])
      && (r.Ok? && !Present(w, f, links, embedded) ==> r.value == slots)
  {
    if IsLink(w, f) {
      LinkStepShape(w, m, f, links, slots, bound);
    } else if IsEmbed(w, f) {
      EmbedStepShape(w, m, f, embedded, slots, bound);
    }
  }

  /** The shape of a link step: an update of its own field, or no change when the member is absent. */
  lemma LinkStepShape(w: World, m: Mapper, f: Field, root: Option<seq<Member>>, slots: Slots, bound: nat)
    requires WorldOk(w) && FieldOk(w, f) && RootsBelow(root, None, bound)
    ensures var r := LinkStep(w, m, f, root, slots, bound);
      var present := f.link.Some? && root.Some? && Has(root.value, JsonFieldName(f.link.value, f));
      && (r.Ok? && present ==> Key(f) in r.value && r.value == slots[Key(f) := r.value[Key(f)]])
      && (r.Ok? && !present ==> r.value == slots)
  {
    if f.link.Some? && root.Some? && Has(root.value, JsonFieldName(f.link.value, f)) {
      var element := Get(root.value, JsonFieldName(f.link.value, f)).value;
      var d := FromJson(w, m, LinkTarget(w, f), element);
      if d.Ok? && IsLinkObject(w, d.value) {
        var a := LinkAssignment(w, f, d.value);
        if a.Ok? {
          assert LinkStep(w, m, f, root, slots, bound) == Ok(slots[Key(f) := a.value]);
        }
      }
    }
  }

  /** The shape of an embed step, likewise. */
  lemma EmbedStepShape(w: World, m: Mapper, f: Field, root: Option<seq<Member>>, slots: Slots, bound: nat)
    requires WorldOk(w) && FieldOk(w, f) && RootsBelow(None, root, bound)
    ensures var r := EmbedStep(w, m, f, root, slots, bound);
      var present := f.embed.Some? && root.Some? && Has(root.value, JsonFieldName(f.embed.value, f));
      && (r.Ok? && present ==> Key(f) in r.value && r.value == slots[Key(f) := r.value[Key(f)]])
      && (r.Ok? && !present ==> r.value == slots)
  {
    if f.embed.Some? && root.Some? && Has(root.value, JsonFieldName(f.embed.value, f)) {
      var element := Get(root.value, JsonFieldName(f.embed.value, f)).value;
      var d := FromJson(w, m, ItemType(w, f), element);
      if d.Ok? {
        var a := EmbedAssignment(w, f, d.value);
        if a.Ok? {
          assert EmbedStep(w, m, f, root, slots, bound) == Ok(slots[Key(f) := a.value]);
        }
      }
    }
  }

  /** Updating one key leaves every other key as it was. */
  lemma UpdateOnlyKey(slots: Slots, k: FieldId, v: Value)
    ensures slots[k := v] - {k} == slots - {k}
  {
  }

  /**
   * The HAL pass leaves a slot as the mapper filled it unless some field of
   * the pass with that key has its member present.
   */
  lemma {:induction false} UnreadSlotsKept(w: World, m: Mapper, fs: seq<Field>, links: Option<seq<Member>>,
                                           embedded: Option<seq<Member>>, slots: Slots, bound: nat, k: FieldId)
    requires WorldOk(w) && FieldsOk(w, fs) && RootsBelow(links, embedded, bound)
    requires forall f :: f in fs ==> Key(f) != k || !Present(w, f, links, embedded)
    ensures var r := ReadHalFields(w, m, fs, links, embedded, slots, bound);
      r.Ok? ==> (k in r.value <==> k in slots) && (k in slots ==> r.value[k] == slots[k])
    decreases |fs|
  {
    if fs != [] {
      var step := FieldStep(w, m, fs[0], links, embedded, slots, bound);
      StepWritesOnlyItsField(w, m, fs[0], links, embedded, slots, bound);
      if step.Ok? {
        if Key(fs[0]) != k {
          assert k in step.value <==> k in step.value - {Key(fs[0])};
          assert k in slots <==> k in slots - {Key(fs[0])};
          assert k in slots ==> (step.value - {Key(fs[0])})[k] == (slots - {Key(fs[0])})[k];
        }
        assert forall f :: f in fs[1..] ==> f in fs;
        UnreadSlotsKept(w, m, fs[1..], links, embedded, step.value, bound, k);
      }
    }
  }

  /** With neither root, the pass succeeds, unchanged, exactly when every field may be absent. */
  lemma {:induction false} WithoutRoots(w: World, m: Mapper, fs: seq<Field>, slots: Slots, bound: nat)
    requires WorldOk(w) && FieldsOk(w, fs)
    ensures var r := ReadHalFields(w, m, fs, None, None, slots, bound);
      && (r.Ok? <==> forall f :: f in fs ==> MayBeAbsent(w, f))
      && (r.Ok? ==> r.value == slots)
    decreases |fs|
  {
    if fs != [] {
      AbsentMember(w, m, fs[0], None, None, slots, bound);
      assert forall f :: f in fs[1..] ==> f in fs;
      assert forall f :: f in fs ==> f == fs[0] || f in fs[1..];
      WithoutRoots(w, m, fs[1..], slots, bound);
    }
  }

  /** A field that may not be absent and whose member is absent makes the whole pass fail. */
  lemma {:induction false} RequiredAbsentAborts(w: World, m: Mapper, fs: seq<Field>, links: Option<seq<Member>>,
                                                embedded: Option<seq<Member>>, slots: Slots, bound: nat, i: nat)
    requires WorldOk(w) && FieldsOk(w, fs) && RootsBelow(links, embedded, bound)
    requires i < |fs| && !MayBeAbsent(w, fs[i]) && !Present(w, fs[i], links, embedded)
    ensures ReadHalFields(w, m, fs, links, embedded, slots, bound).Err?
    decreases i
  {
    var step := FieldStep(w, m, fs[0], links, embedded, slots, bound);
    if i == 0 {
      AbsentMember(w, m, fs[0], links, embedded, slots, bound);
    } else if step.Ok? {
      assert forall f :: f in fs[1..] ==> f in fs;
      assert fs[1..][i - 1] == fs[i];
      RequiredAbsentAborts(w, m, fs[1..], links, embedded, step.value, bound, i - 1);
    }
  }

  /** Decoding a resource keeps every slot the mapper filled that no HAL field of the class owns. */
  lemma DelegateSlotsKept(w: World, m: Mapper, c: Class, ms: seq<Member>, slots: Slots, k: FieldId)
    requires WorldOk(w) && ClassOk(w, c)
    requires m.instantiate(c.name, ms) == Ok(slots)
    requires forall f :: f in HalFields(w, c) ==> Key(f) != k
    ensures var r := Decode(w, m, c, JObject(ms));
      r.Ok? ==> && r.value.Object? && r.value.cls == c.name
                && (k in r.value.slots <==> k in slots)
                && (k in slots ==> r.value.slots[k] == slots[k])
  {
    var links, embedded := RootObject(ms, LinksRoot), RootObject(ms, EmbeddedRoot);
    if links.Ok? && embedded.Ok? {
      AllFieldsOk(w, c);
      HalFilterExact(w, AllFields(c));
      UnreadSlotsKept(w, m, HalFields(w, c), links.value, embedded.value, slots, Size(JObject(ms)), k);
    }
  }

  /**
   * A document with neither `_links` nor `_embedded` decodes to what the
   * mapper built exactly when every HAL field of the class may be absent, and
   * fails otherwise.
   */
  lemma DocumentWithoutRoots(w: World, m: Mapper, c: Class, ms: seq<Member>, slots: Slots)
    requires WorldOk(w) && ClassOk(w, c)
    requires m.instantiate(c.name, ms) == Ok(slots)
    requires !Has(ms, LinksRoot) && !Has(ms, EmbeddedRoot)
    ensures var r := Decode(w, m, c, JObject(ms));
      && (r.Ok? <==> forall f :: f in HalFields(w, c) ==> FieldOk(w, f) && MayBeAbsent(w, f))
      && (r.Ok? ==> r.value == Object(c.name, slots))
  {
    AllFieldsOk(w, c);
    HalFilterExact(w, AllFields(c));
    WithoutRoots(w, m, HalFields(w, c), slots, Size(JObject(ms)));
  }
}
