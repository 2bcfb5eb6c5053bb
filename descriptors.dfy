/**
 * Static descriptors of Java classes and fields, standing in for what
 * reflection and annotation lookup report: a class's name, its superclass
 * and interfaces, its declared fields in declaration order and whether it
 * carries the `@HalResource` marker; a field's declaring class, name,
 * declared type, `@SerializedName` value and `@HalLink` / `@HalEmbed`
 * annotations.
 */
module Descriptors {
  import opened Json

  type ClassName = string

  /**
   * `@HalLink(name, optional)` and `@HalEmbed(name, optional)` have the same
   * two elements; an element left out takes its default.
   */
  datatype HalAnnotation = HalAnnotation(name: string, optional: bool)

  /** `name() default ""` and `optional() default false`. */
  const DefaultAnnotation := HalAnnotation("", false)

  /**
   * The declared type of a field: its raw class, and its type arguments when
   * the declaration is parameterized (`List<Foo>`); `None` for a raw or
   * non-generic declaration.
   */
  datatype DeclaredType = DeclaredType(raw: ClassName, typeArguments: Option<seq<ClassName>>)

  function Scalar(cls: ClassName): DeclaredType { DeclaredType(cls, None) }

  function ListOf(item: ClassName): DeclaredType { DeclaredType(ListName, Some([item])) }

  datatype Field = Field(
    owner: ClassName,
    name: string,
    declared: DeclaredType,
    serializedName: Option<string>,
    link: Option<HalAnnotation>,
    embed: Option<HalAnnotation>)

  /**
   * A class, with its superclass chain and interfaces held inside it (a Java
   * class hierarchy has no cycles). Field types name classes instead, since a
   * class may have a field of its own type.
   */
  datatype Class = Class(
    name: ClassName,
    superclass: Option<Class>,
    interfaces: seq<Class>,
    fields: seq<Field>,
    resource: bool)

  /** `sup.isAssignableFrom(c)`: `c` is `sup`, or extends or implements it. */
  predicate SubtypeOf(c: Class, sup: ClassName)
    decreases c
  {
    || c.name == sup
    || (c.superclass.Some? && SubtypeOf(c.superclass.value, sup))
    || (exists i :: 0 <= i < |c.interfaces| && SubtypeOf(c.interfaces[i], sup))
  }

  /** The classes the program knows, by name. */
  type World = map<ClassName, Class>

  /** `sup.isAssignableFrom(sub)` by name; a class the world does not describe is only itself. */
  predicate Assignable(w: World, sub: ClassName, sup: ClassName)
  {
    if sub in w then SubtypeOf(w[sub], sup) else sub == sup
  }

  predicate IsCollection(w: World, cls: ClassName)
  {
    Assignable(w, cls, CollectionName)
  }

  /**
   * A field whose types are all known, and which, when its raw class is a
   * collection, is declared with type arguments (a raw collection field makes
   * the item type lookup fail with a cast error, which is not modelled).
   */
  ghost predicate FieldOk(w: World, f: Field)
  {
    && f.declared.raw in w
    && (IsCollection(w, f.declared.raw) ==> f.declared.typeArguments.Some?)
    && (f.declared.typeArguments.Some? ==>
          forall a :: a in f.declared.typeArguments.value ==> a in w)
  }

  /** Every field declared along the superclass chain of `c` is well typed. */
  ghost predicate ClassOk(w: World, c: Class)
    decreases c
  {
    && (forall f :: f in c.fields ==> FieldOk(w, f))
    && (c.superclass.Some? ==> ClassOk(w, c.superclass.value))
  }

  /**
   * A closed world: the library classes the core names are the library's,
   * and every class is filed under its own name and is well typed.
   */
  ghost predicate WorldOk(w: World)
  {
    && HalLinkObjectName in w && w[HalLinkObjectName] == HalLinkObjectClass
    && StringName in w && w[StringName] == StringClass
    && UriName in w && w[UriName] == UriClass
    && forall n :: n in w ==> w[n].name == n && ClassOk(w, w[n])
  }

  // The library classes the core refers to.

  const ObjectName: ClassName := "java.lang.Object"
  const CharSequenceName: ClassName := "java.lang.CharSequence"
  const StringName: ClassName := "java.lang.String"
  const UriName: ClassName := "java.net.URI"
  const CollectionName: ClassName := "java.util.Collection"
  const ListName: ClassName := "java.util.List"
  const BooleanName: ClassName := "boolean"
  const HalLinkObjectName: ClassName := "com.xpbytes.gson.hal.HalLinkObject"
  const HalResourceBaseName: ClassName := "com.xpbytes.gson.hal.HalResourceBase"

  const ObjectClass := Class(ObjectName, None, [], [], false)
  const CharSequenceClass := Class(CharSequenceName, None, [], [], false)
  const StringClass := Class(StringName, Some(ObjectClass), [CharSequenceClass], [], false)
  const UriClass := Class(UriName, Some(ObjectClass), [], [], false)
  const CollectionClass := Class(CollectionName, None, [], [], false)
  const ListClass := Class(ListName, None, [CollectionClass], [], false)
  const BooleanClass := Class(BooleanName, None, [], [], false)

  /** `HalLinkObject`: a plain class of eight public fields; `href` is a String. */
  const HalLinkObjectClass := Class(HalLinkObjectName, Some(ObjectClass), [], [
    PlainField(HalLinkObjectName, "href", StringName),
    PlainField(HalLinkObjectName, "templated", BooleanName),
    PlainField(HalLinkObjectName, "type", StringName),
    PlainField(HalLinkObjectName, "name", StringName),
    PlainField(HalLinkObjectName, "profile", UriName),
    PlainField(HalLinkObjectName, "deprecation", UriName),
    PlainField(HalLinkObjectName, "title", StringName),
    PlainField(HalLinkObjectName, "hreflang", StringName)
  ], false)

  /** `HalResourceBase`: a resource whose only field is its `self` link, held as a String. */
  const HalResourceBaseClass := Class(HalResourceBaseName, Some(ObjectClass), [], [
    Field(HalResourceBaseName, "halSelfReference", Scalar(StringName), None,
          Some(HalAnnotation("self", false)), None)
  ], true)

  function PlainField(owner: ClassName, name: string, cls: ClassName): Field
  {
    Field(owner, name, Scalar(cls), None, None, None)
  }

  /** The library classes, filed by name. */
  const LibraryWorld: World := map[
    ObjectName := ObjectClass,
    CharSequenceName := CharSequenceClass,
    StringName := StringClass,
    UriName := UriClass,
    CollectionName := CollectionClass,
    ListName := ListClass,
    BooleanName := BooleanClass,
    HalLinkObjectName := HalLinkObjectClass,
    HalResourceBaseName := HalResourceBaseClass
  ]

  lemma LibraryWorldOk()
    ensures WorldOk(LibraryWorld)
  {
    assert ClassOk(LibraryWorld, ObjectClass);
    StringIsNot(CollectionName);
    assert !IsCollection(LibraryWorld, StringName);
    assert !IsCollection(LibraryWorld, UriName);
    assert !IsCollection(LibraryWorld, BooleanName);
    assert ClassOk(LibraryWorld, HalLinkObjectClass);
    assert ClassOk(LibraryWorld, HalResourceBaseClass);
  }

  /** A String is a CharSequence; neither a String nor a URI is a link object. */
  lemma LibrarySubtyping()
    ensures Assignable(LibraryWorld, StringName, CharSequenceName)
    ensures !Assignable(LibraryWorld, UriName, CharSequenceName)
    ensures !Assignable(LibraryWorld, StringName, HalLinkObjectName)
    ensures Assignable(LibraryWorld, HalLinkObjectName, ObjectName)
    ensures Assignable(LibraryWorld, ListName, CollectionName)
  {
    assert SubtypeOf(StringClass.interfaces[0], CharSequenceName);
    assert SubtypeOf(ListClass.interfaces[0], CollectionName);
    StringIsNot(HalLinkObjectName);
  }

  /** String extends only Object and implements only CharSequence. */
  lemma StringIsNot(sup: ClassName)
    requires sup != StringName && sup != ObjectName && sup != CharSequenceName
    ensures !SubtypeOf(StringClass, sup)
  {
    assert !SubtypeOf(CharSequenceClass, sup);
    assert forall i :: 0 <= i < |StringClass.interfaces| ==> StringClass.interfaces[i] == CharSequenceClass;
  }

  /** Adding classes keeps a class well typed: every name it relies on keeps its meaning. */
  lemma {:induction false} ClassOkGrows(w: World, w': World, c: Class)
    requires forall n :: n in w ==> n in w' && w'[n] == w[n]
    requires ClassOk(w, c)
    ensures ClassOk(w', c)
    decreases c
  {
    forall f | f in c.fields
      ensures FieldOk(w', f)
    {
      assert FieldOk(w, f);
      assert IsCollection(w', f.declared.raw) == IsCollection(w, f.declared.raw);
    }
    if c.superclass.Some? {
      ClassOkGrows(w, w', c.superclass.value);
    }
  }

  /** A closed world with one more class, filed under its name, whose fields use known types. */
  lemma WorldExtended(w: World, c: Class)
    requires WorldOk(w) && c.name !in w && ClassOk(w, c)
    ensures WorldOk(w[c.name := c])
  {
    var w' := w[c.name := c];
    ClassOkGrows(w, w', c);
    forall n | n in w
      ensures ClassOk(w', w[n])
    {
      ClassOkGrows(w, w', w[n]);
    }
  }
}
