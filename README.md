# gson-hal decode core, modelled in Dafny

gson-hal is a Gson extension for HAL (Hypertext Application Language)
documents. HAL keeps a resource's links under the reserved `_links` member
and its embedded resources under `_embedded`. The extension's `HalTypeAdapterFactory` hands every class
without `@HalResource` straight to Gson's delegate adapter. For a
resource class it decodes the object with the delegate first. When the document is a
JSON object, it then walks the class's HAL fields and assigns each one a value:

- a link, decoded from `_links` as a `HalLinkObject` and stored as its href text, as a URI (in the corrected form of `setLink`, see "## Findings") or as the link object;
- an embed, decoded recursively from `_embedded` into the field's item type.

`HalReflection` supplies the metadata for this walk:

- the fields of a class and its superclasses, most derived first;
- which of those are links or embeds;
- the JSON name each is looked up under;
- the item type of a collection field;
- the type dispatch that stores a decoded value into a field.

It caches the per-class field lists and HAL field lists in two maps.

The project has six modules:

- `Json` is the JSON tree. An object is a sequence of members, and a lookup sees the last member with a key.
- `Descriptors` holds class and field descriptors in place of reflection and annotation lookup. This covers `@HalLink`/`@HalEmbed` with their `name` and `optional` elements, `@SerializedName`, superclasses and subtyping.
- `Objects` holds decoded values, the errors a decode can end in, and `Instance`, the object the HAL pass fills in.
- `HalReflection` holds the classifiers, the field hierarchy, the caches as class `Caches`, and `setLink`/`setEmbed` as methods on an `Instance`.
- `HalTypeAdapterFactory` holds `create`, `write`, and the read specified as functions (`FromJson`, `Decode`, `ReadHalFields`, `LinkStep`, `EmbedStep`). It also holds the imperative `read`, `readLink` and `readEmbed`, each proved equal to those functions, and the properties of the read.
- `Fixtures` holds the single-link, named-link and optional-link test classes of `HalLinkTest` and the single-embed classes of `HalEmbedTest`, a concrete mapper, and those tests' documents decoded to their expected objects.

Gson itself enters as a `Mapper`, a value of three functions:

- `instantiate` builds the plain fields of an object from its members.
- `decode` handles any other conversion.
- `encode` writes.

Where the code and its documentation differ, the model follows the code, with two exceptions. These are the defects under "## Findings": there the main model follows the tests and the comment beside the check, and the code as written is modelled beside it. The rows below that describe the corrected behaviour say "corrected". Otherwise the model follows the code:

- A missing `_links`/`_embedded` root and a missing key inside it throw the same `JsonParseException`. That exception names the member and the root.
- A field that is both a link and an embed is read as a link: `read` checks `isLink` before `isEmbed`.

## Model

| member | source | states |
|---|---|---|
| HalReflection.ItemType | gson-hal/src/main/java/com/xpbytes/gson/hal/HalReflection.java:241-266 | the item type is a known class; a non-collection field yields its declared class; a collection field with type arguments yields the first one, and one without yields its declared class |
| HalReflection.IsResource | gson-hal/src/main/java/com/xpbytes/gson/hal/HalReflection.java:85-87 | definition: a class is a resource iff it carries `@HalResource`; `Create` and `NonResourcePassThrough` state what follows from it |
| HalReflection.FieldType | gson-hal/src/main/java/com/xpbytes/gson/hal/HalReflection.java:278-294 | definition: the raw declared class of a field; `ItemType` states how the item type relates to it |
| HalReflection.IsEmbed | gson-hal/src/main/java/com/xpbytes/gson/hal/HalReflection.java:96-100 | definition: annotated `@HalEmbed`, or the item type is a resource; `HalFieldsAreTheLinkOrEmbedFields` and `LinkBeforeEmbed` use it |
| HalReflection.IsLink | gson-hal/src/main/java/com/xpbytes/gson/hal/HalReflection.java:109-112 | definition: annotated `@HalLink`, or the item type descends from `HalLinkObject`; `HalFieldsAreTheLinkOrEmbedFields` and `LinkBeforeEmbed` use it |
| HalReflection.JsonFieldName | gson-hal/src/main/java/com/xpbytes/gson/hal/HalReflection.java:123-155 | definition of the wire name; its precedence is what `WireNamePrecedence` states |
| HalReflection.WireNamePrecedence | gson-hal/src/main/java/com/xpbytes/gson/hal/HalReflection.java:123-155 | `@SerializedName` wins; else a non-empty annotation name; else the field name; `optional` plays no part |
| HalReflection.Ancestry | gson-hal/src/main/java/com/xpbytes/gson/hal/HalReflection.java:51 | the chain walked by `getAllFields` starts at the class itself |
| HalReflection.ConcatFieldsAppend | gson-hal/src/main/java/com/xpbytes/gson/hal/HalReflection.java:50 | appending class by class distributes over concatenation of class chains |
| HalReflection.AllFields | gson-hal/src/main/java/com/xpbytes/gson/hal/HalReflection.java:43-52 | definition: own fields, then the superclass's all fields; `AllFieldsIsConcatOfAncestry`, `FieldInAllFieldsIff` and `Caches.GetAllFieldsInto` state its meaning |
| HalReflection.AllFieldsIsConcatOfAncestry | gson-hal/src/main/java/com/xpbytes/gson/hal/HalReflection.java:43-52 | all fields are each class's declared fields, class then superclass up to the root, in declaration order |
| HalReflection.AncestorFieldsFollow | gson-hal/src/main/java/com/xpbytes/gson/hal/HalReflection.java:43-52 | the fields of any ancestor and above come after all fields of the classes below it |
| HalReflection.AncestrySuffix | gson-hal/src/main/java/com/xpbytes/gson/hal/HalReflection.java:51 | the chain from an ancestor is the rest of the chain |
| HalReflection.FieldInAllFieldsIff | gson-hal/src/main/java/com/xpbytes/gson/hal/HalReflection.java:43-52 | a field is listed iff some class of the chain declares it |
| HalReflection.AllFieldsOk | gson-hal/src/main/java/com/xpbytes/gson/hal/HalReflection.java:43-52 | every listed field of a well-typed class is well typed |
| HalReflection.HalFilter | gson-hal/src/main/java/com/xpbytes/gson/hal/HalReflection.java:69-72 | definition: the link-or-embed fields of a list, in order; `HalFilterExact` states both directions of membership and the order |
| HalReflection.HalFields | gson-hal/src/main/java/com/xpbytes/gson/hal/HalReflection.java:63-76 | definition: `HalFilter` of `AllFields`; `HalFieldsAreTheLinkOrEmbedFields` and `Caches.GetHalFields` state its meaning |
| HalReflection.HalFilterExact | gson-hal/src/main/java/com/xpbytes/gson/hal/HalReflection.java:67-72 | the filter keeps a field iff it is a link or an embed, and the result is a subsequence of its input |
| HalReflection.HalFieldsAreTheLinkOrEmbedFields | gson-hal/src/main/java/com/xpbytes/gson/hal/HalReflection.java:63-76 | `getHalFields` is exactly the link-or-embed fields of `getAllFields`, in the same order |
| HalReflection.StoreChecked | gson-hal/src/main/java/com/xpbytes/gson/hal/HalReflection.java:222-229 | `Field.set` stores the value unchanged only when the field's declared class accepts it, else fails with a type mismatch naming the field |
| HalReflection.LinkValueFor | gson-hal/src/main/java/com/xpbytes/gson/hal/HalReflection.java:176-191 | corrected URI branch; definition of the branch value, tried in order; `LinkAssignmentKeepsHref`, `TextBranchFirst` and `UriLinkStoresUri` state its meaning |
| HalReflection.LinkAssignment | gson-hal/src/main/java/com/xpbytes/gson/hal/HalReflection.java:176-191 | corrected URI branch: the branch value stored by `Field.set`; `LinkAssignmentKeepsHref` and `UriLinkStoresUri` state its meaning, `SetLink` is proved to perform it |
| HalReflection.LinkAssignmentAsWritten | gson-hal/src/main/java/com/xpbytes/gson/hal/HalReflection.java:176-191 | the code as written: the URI branch hands the href String to `Field.set`; `UriLinkAsWrittenRejected` states the result |
| HalReflection.LinkAssignmentKeepsHref | gson-hal/src/main/java/com/xpbytes/gson/hal/HalReflection.java:176-191 | a branch exists iff the item type is a CharSequence, a URI or a `HalLinkObject`; a stored link denotes the link object's href in a value the field accepts; any failure is the cast error or the type mismatch |
| HalReflection.TextBranchFirst | gson-hal/src/main/java/com/xpbytes/gson/hal/HalReflection.java:178-179 | a CharSequence destination takes the href text before any later branch is tried |
| HalReflection.UriIsPlain | gson-hal/src/main/java/com/xpbytes/gson/hal/HalReflection.java:180-181 | a URI is not a CharSequence or a collection, and a String is not a URI |
| HalReflection.UriLinkAsWrittenRejected | gson-hal/src/main/java/com/xpbytes/gson/hal/HalReflection.java:180-181 | as written, a `URI` field given a link with an href fails with a type mismatch |
| HalReflection.UriLinkStoresUri | gson-hal/src/main/java/com/xpbytes/gson/hal/HalReflection.java:180-181 | corrected, a `URI` field receives the href as a URI, or null when the link has no href |
| HalReflection.EmbedAssignment | gson-hal/src/main/java/com/xpbytes/gson/hal/HalReflection.java:203-213 | definition of what `setEmbed` stores or the error it throws; `EmbedAssignmentIff` states when it succeeds, `SetEmbed` is proved to perform it |
| HalReflection.EmbedAssignmentIff | gson-hal/src/main/java/com/xpbytes/gson/hal/HalReflection.java:203-213 | an embed is stored unchanged iff it is non-null, its runtime class fits the item type and the field accepts it; for a non-collection field, iff its class fits the field's class |
| HalReflection.SetFieldSafe | gson-hal/src/main/java/com/xpbytes/gson/hal/HalReflection.java:222-229 | on success only the named field changes, to the value; on a type mismatch nothing changes |
| HalReflection.SetLink | gson-hal/src/main/java/com/xpbytes/gson/hal/HalReflection.java:176-191 | corrected URI branch: the object's named field and no other gets `LinkAssignment`'s value, or the call fails with its error and nothing changes |
| HalReflection.SetEmbed | gson-hal/src/main/java/com/xpbytes/gson/hal/HalReflection.java:203-213 | the named field and no other gets the embed assignment's value, or the call fails with its error and nothing changes |
| HalReflection.SelectHalFields | gson-hal/src/main/java/com/xpbytes/gson/hal/HalReflection.java:67-72 | the loop's result is the HAL filter of the field list |
| HalReflection.Caches.constructor | gson-hal/src/main/java/com/xpbytes/gson/hal/HalReflection.java:20-21 | both caches start empty |
| HalReflection.Caches.GetAllFields | gson-hal/src/main/java/com/xpbytes/gson/hal/HalReflection.java:32-34 | returns all fields of the chain; the field cache gains exactly the classes of the chain; existing entries are unchanged; the HAL field cache is untouched |
| HalReflection.Caches.GetAllFieldsInto | gson-hal/src/main/java/com/xpbytes/gson/hal/HalReflection.java:43-52 | appends the chain's fields to the accumulator; caches each class's own fields, reusing an existing entry |
| HalReflection.Caches.GetHalFields | gson-hal/src/main/java/com/xpbytes/gson/hal/HalReflection.java:63-76 | returns the HAL fields and caches them; a cached class returns its cached list with both caches unchanged |
| HalTypeAdapterFactory.DelegateRead | gson-hal/src/main/java/com/xpbytes/gson/hal/HalTypeAdapterFactory.java:46 | on an object tree the delegate succeeds iff the mapper builds the slots, and then gives an object of the requested class with those slots |
| HalTypeAdapterFactory.Create | gson-hal/src/main/java/com/xpbytes/gson/hal/HalTypeAdapterFactory.java:26-36 | the HAL adapter is chosen iff the class is a `@HalResource`, else the delegate |
| HalTypeAdapterFactory.Write | gson-hal/src/main/java/com/xpbytes/gson/hal/HalTypeAdapterFactory.java:37-40 | the HAL adapter, made null-safe at line 155, writes null as JSON null; every other write is the delegate's |
| HalTypeAdapterFactory.WriteIsPlainWrite | gson-hal/src/main/java/com/xpbytes/gson/hal/HalTypeAdapterFactory.java:37-40 | writing through the chosen adapter is the plain writer's output |
| HalTypeAdapterFactory.RootObject | gson-hal/src/main/java/com/xpbytes/gson/hal/HalTypeAdapterFactory.java:51-52 | `getAsJsonObject`: the root is absent iff the member is; an object-valued member yields its members; any other member is an error naming it |
| HalTypeAdapterFactory.LinkTargetAsWritten | gson-hal/src/main/java/com/xpbytes/gson/hal/HalTypeAdapterFactory.java:127-130 | the check as written: the item type is kept iff it is `HalLinkObject` or one of its supertypes, else `HalLinkObject` is used |
| HalTypeAdapterFactory.LinkTarget | gson-hal/src/main/java/com/xpbytes/gson/hal/HalTypeAdapterFactory.java:127-130 | corrected: a link is decoded into a known link class; an item type that descends from `HalLinkObject` is kept |
| HalTypeAdapterFactory.LinkSubclassAsWrittenRejected | gson-hal/src/main/java/com/xpbytes/gson/hal/HalTypeAdapterFactory.java:127-130 | as written, a field typed as a strict subclass of `HalLinkObject` is decoded as `HalLinkObject`, which its field then refuses |
| HalTypeAdapterFactory.LinkSubclassStored | gson-hal/src/main/java/com/xpbytes/gson/hal/HalTypeAdapterFactory.java:127-130 | corrected, such a field is decoded into its own class and the decoded value is stored unchanged |
| HalTypeAdapterFactory.FromJson | gson-hal/src/main/java/com/xpbytes/gson/hal/HalTypeAdapterFactory.java:26-36 | definition of `gson.fromJson` through `create` and `nullSafe`; `NonResourcePassThrough`, `NonObjectTreeUntouched` and `FromJsonTree` state its meaning |
| HalTypeAdapterFactory.Decode | gson-hal/src/main/java/com/xpbytes/gson/hal/HalTypeAdapterFactory.java:42-65 | definition of the HAL adapter's read; `DelegateSlotsKept`, `DocumentWithoutRoots` and `Read` state its meaning |
| HalTypeAdapterFactory.ReadHalFields | gson-hal/src/main/java/com/xpbytes/gson/hal/HalTypeAdapterFactory.java:54-60 | definition of the loop as a fold that stops at the first failure; `UnreadSlotsKept`, `WithoutRoots` and `RequiredAbsentAborts` state its meaning |
| HalTypeAdapterFactory.FieldStep | gson-hal/src/main/java/com/xpbytes/gson/hal/HalTypeAdapterFactory.java:56-59 | definition of one pass; `LinkBeforeEmbed`, `AbsentMember` and `StepWritesOnlyItsField` state its meaning |
| HalTypeAdapterFactory.LinkStep | gson-hal/src/main/java/com/xpbytes/gson/hal/HalTypeAdapterFactory.java:101-153 | corrected target check and `setLink`; definition of `readLink`; `AbsentMember`, `AbsentRootIsAbsentKey` and `PresentLinkKeepsHref` state its meaning |
| HalTypeAdapterFactory.EmbedStep | gson-hal/src/main/java/com/xpbytes/gson/hal/HalTypeAdapterFactory.java:67-99 | definition of `readEmbed`; `AbsentMember`, `AbsentRootIsAbsentKey` and `PresentEmbedIsDecoded` state its meaning |
| HalTypeAdapterFactory.FromJsonTree | gson-hal/src/main/java/com/xpbytes/gson/hal/HalTypeAdapterFactory.java:26-36 | corrected link handling: dispatching through `create` and `nullSafe` computes `FromJson`; the caches stay valid and keep every key they had; a resource read from an object tree leaves its class in the HAL field cache |
| HalTypeAdapterFactory.Read | gson-hal/src/main/java/com/xpbytes/gson/hal/HalTypeAdapterFactory.java:42-65 | corrected link handling: the imperative read equals `Decode`; the caches keep every key they had, and once both roots are read the class is in the HAL field cache |
| HalTypeAdapterFactory.ReadFields | gson-hal/src/main/java/com/xpbytes/gson/hal/HalTypeAdapterFactory.java:54-60 | the loop over the HAL fields computes `ReadHalFields`: on success the object holds its slots, else the outcome is its error; the caches stay valid and keep their keys |
| HalTypeAdapterFactory.ReadField | gson-hal/src/main/java/com/xpbytes/gson/hal/HalTypeAdapterFactory.java:55-60 | corrected link handling: one pass of the loop performs `FieldStep`: a link field is read as a link, else an embed field as an embed |
| HalTypeAdapterFactory.ReadLink | gson-hal/src/main/java/com/xpbytes/gson/hal/HalTypeAdapterFactory.java:101-153 | corrected target check and `setLink`: on success the object holds exactly the slots `LinkStep` computes; on failure the outcome is `LinkStep`'s error |
| HalTypeAdapterFactory.ReadEmbed | gson-hal/src/main/java/com/xpbytes/gson/hal/HalTypeAdapterFactory.java:67-99 | on success the object holds exactly the slots `EmbedStep` computes; on failure the outcome is its error |
| HalTypeAdapterFactory.NonResourcePassThrough | gson-hal/src/main/java/com/xpbytes/gson/hal/HalTypeAdapterFactory.java:33-34 | a class without `@HalResource` decodes exactly as the delegate decodes it |
| HalTypeAdapterFactory.NonObjectTreeUntouched | gson-hal/src/main/java/com/xpbytes/gson/hal/HalTypeAdapterFactory.java:46-64 | a resource read from a non-object tree gives the delegate's result (null for null), with no HAL field read |
| HalTypeAdapterFactory.AbsentMember | gson-hal/src/main/java/com/xpbytes/gson/hal/HalTypeAdapterFactory.java:67-90 | a field whose root or key is absent passes iff its annotation is optional, leaving the object unchanged; a link or embed without its annotation fails with a null pointer; otherwise the error names the member and the root |
| HalTypeAdapterFactory.AbsentRootIsAbsentKey | gson-hal/src/main/java/com/xpbytes/gson/hal/HalTypeAdapterFactory.java:117-125 | a missing root and a root without the key give the same outcome |
| HalTypeAdapterFactory.LinkBeforeEmbed | gson-hal/src/main/java/com/xpbytes/gson/hal/HalTypeAdapterFactory.java:56-59 | a link field's step depends only on `_links`, and any other field's only on `_embedded` |
| HalTypeAdapterFactory.PresentLinkKeepsHref | gson-hal/src/main/java/com/xpbytes/gson/hal/HalTypeAdapterFactory.java:127-152 | corrected target check and `setLink`: a present link's decode failure is the step's failure; a non-link-object is refused; a stored link denotes the decoded href in a value the field accepts |
| HalTypeAdapterFactory.PresentEmbedIsDecoded | gson-hal/src/main/java/com/xpbytes/gson/hal/HalTypeAdapterFactory.java:92-98 | a present embed is decoded recursively into the item type; its failure is the step's failure; it is stored iff non-null and it fits the item type and the field |
| HalTypeAdapterFactory.StepWritesOnlyItsField | gson-hal/src/main/java/com/xpbytes/gson/hal/HalTypeAdapterFactory.java:54-60 | one step changes at most its own field; a present member is written; an absent one changes nothing |
| HalTypeAdapterFactory.UnreadSlotsKept | gson-hal/src/main/java/com/xpbytes/gson/hal/HalTypeAdapterFactory.java:54-60 | a slot that no field with a present member writes keeps the delegate's value through the whole walk |
| HalTypeAdapterFactory.WithoutRoots | gson-hal/src/main/java/com/xpbytes/gson/hal/HalTypeAdapterFactory.java:54-60 | with neither root, the walk succeeds iff every field may be absent, and then changes nothing |
| HalTypeAdapterFactory.RequiredAbsentAborts | gson-hal/src/main/java/com/xpbytes/gson/hal/HalTypeAdapterFactory.java:54-60 | one required field whose member is absent makes the whole walk fail |
| HalTypeAdapterFactory.DelegateSlotsKept | gson-hal/src/main/java/com/xpbytes/gson/hal/HalTypeAdapterFactory.java:46-64 | a field of the delegate's object that is not a HAL field survives the read unchanged |
| HalTypeAdapterFactory.DocumentWithoutRoots | gson-hal/src/main/java/com/xpbytes/gson/hal/HalTypeAdapterFactory.java:46-64 | a document without `_links` and `_embedded` decodes iff every HAL field may be absent, and then to the delegate's object |
| Objects.Instance.Set | gson-hal/src/main/java/com/xpbytes/gson/hal/HalReflection.java:225 | `field.set`: the named slot gets the value and no other slot changes |
| Objects.HrefOfLinkObject | gson-hal/src/main/java/com/xpbytes/gson/hal/HalLinkObject.java:9-20 | `getHref()` of the instance holding a link record reads back the record's href |
| Fixtures.DeserializeStringLink | gson-hal/src/test/java/com/xpbytes/gson/hal/HalLinkTest.java:33-41 | a String link field receives the href text |
| Fixtures.DeserializeUriLink | gson-hal/src/test/java/com/xpbytes/gson/hal/HalLinkTest.java:55-63 | corrected, a URI link field receives the href as a URI |
| Fixtures.DeserializeUriLinkAsWritten | gson-hal/src/main/java/com/xpbytes/gson/hal/HalReflection.java:180-181 | as written, the same document's link is refused by the URI field |
| Fixtures.DeserializeLinkObjectLink | gson-hal/src/test/java/com/xpbytes/gson/hal/HalLinkTest.java:65-73 | a `HalLinkObject` field receives the link object, whose href is the document's |
| Fixtures.DeserializeNamedLink | gson-hal/src/test/java/com/xpbytes/gson/hal/HalLinkTest.java:75-85 | the annotation name and `@SerializedName` pick the members read |
| Fixtures.DeserializeMissingOptionalLink | gson-hal/src/test/java/com/xpbytes/gson/hal/HalLinkTest.java:87-96 | an absent optional link leaves its field unset while the required one is read |
| Fixtures.DeserializeMissingRequiredLink | gson-hal/src/test/java/com/xpbytes/gson/hal/HalLinkTest.java:110-115 | an absent required link fails, naming the member and `_links` |
| Fixtures.DeserializeMissingAllLink | gson-hal/src/test/java/com/xpbytes/gson/hal/HalLinkTest.java:117-121 | an empty document fails on the required link |
| Fixtures.DeserializeEmbed | gson-hal/src/test/java/com/xpbytes/gson/hal/HalEmbedTest.java:47-59 | an embedded resource is decoded recursively, its own `self` link included |

## Left out

- Gson's machinery lies outside this model. That covers the delegate adapter, `JsonReader`/`JsonWriter` and the mapping of plain fields. The `Mapper` parameter stands in for it. A nested object that the mapper decodes on its own does not pass back through the HAL adapter; only embeds and links re-enter it.
- `synchronized` on the cache methods is not modelled, because the model is single-threaded.
- The `Logger` call in `read` is I/O and is left out.
- The commented-out collection-link path in `readLink` is unfinished and is left out. The model stores a collection field's item into the collection-typed field as the code does, and `Field.set` then refuses it.
- `setAccessible` and the swallowed `IllegalAccessException` have no counterpart here. Every field is treated as accessible.
- A raw `Collection` field, whose cast to `ParameterizedType` throws, is excluded by the precondition `FieldOk`.
- Wildcard and nested generic type arguments are not modelled. A type argument is a class name.
- Assigning null to a primitive field, which `Field.set` rejects, is not modelled: `FieldAccepts` accepts null for every field.
- An absent slot stands for a field left at the value the delegate gave it. The delegate's own defaults are the mapper's business.
- Decoded sub-objects are values. Aliasing between the object being read and an embedded object is not captured.
- `HalConstants.java`, `HalResource.java` and the `SampleTest`/`GsonDelegateTest` fixtures are not part of this model. The root names `_links` and `_embedded` are written out as constants.
- URI parsing is not modelled: a URI is the text of its href.
- The world of class descriptors is looser than a JVM's. A class's embedded superclass is not required to be the class filed under that name, a field's `owner` is not required to name its declaring class, and an interface (`CharSequence`, `List`) is not assignable to `java.lang.Object`. No property of the model depends on these, and no field of the model is declared as `Object`.
- Some test cases have no fixture: `deserializeMultipleLinks` and `deserializePresentOptionalLink` of `HalLinkTest`, and the multiple, named and optional embed tests of `HalEmbedTest`. They exercise the same steps as the modelled cases, and the general lemmas on `ReadHalFields` cover them.
- HalReflection.LinkAssignmentKeepsHref: states the stored value only for a link object that has an href. For a missing href, `UriLinkStoresUri` covers the URI case, and the CharSequence case is a null-pointer error.

## Findings

| source | as written | input that shows it | evidently intended | confidence | as-written member | corrected member |
|---|---|---|---|---|---|---|
| gson-hal/src/main/java/com/xpbytes/gson/hal/HalReflection.java:180-181 | the URI branch of `setLink` passes `resource.getHref()`, a `String`, to `Field.set` on a `URI` field, which throws `IllegalArgumentException` | `{ "_links": { "uriLink": { "href": "/api/deserializeUriLink" } } }` read as `HalLinkUriTestResource` | the field receives the href as a URI, as `HalLinkTest.deserializeUriLink` expects. A link without an href stores null, as the code does now, rather than the null-pointer exception `URI.create(null)` would throw | not executed | HalReflection.LinkAssignmentAsWritten, HalReflection.UriLinkAsWrittenRejected, Fixtures.DeserializeUriLinkAsWritten | HalReflection.LinkAssignment, HalReflection.UriLinkStoresUri, Fixtures.DeserializeUriLink |
| gson-hal/src/main/java/com/xpbytes/gson/hal/HalTypeAdapterFactory.java:127-130 | `!innerType.isAssignableFrom(HalLinkObject.class)` keeps the item type only for `HalLinkObject` and its supertypes, so a field typed as a subclass of `HalLinkObject` is decoded as a plain `HalLinkObject`, which `Field.set` then refuses | a `@HalLink` field of a class `SelfLink extends HalLinkObject`, given a present link | `!HalLinkObject.class.isAssignableFrom(innerType)`, so that a descendant of `HalLinkObject` is kept, as the comment beside the check says | not executed | HalTypeAdapterFactory.LinkTargetAsWritten, HalTypeAdapterFactory.LinkSubclassAsWrittenRejected | HalTypeAdapterFactory.LinkTarget, HalTypeAdapterFactory.LinkSubclassStored |
