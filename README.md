# Jackson annotation introspector, modelled in Dafny

This project models `JacksonAnnotationIntrospector`, the standard provider of
Jackson's data-binding layer that reads the Jackson annotations on a class,
method or field and turns them into directives for the serializer and
deserializer: whether an annotation kind is handled at all, which serializer
or deserializer class is forced, whether a member is ignored, the
three-valued auto-detection flags for getters, setters and creators, explicit
property names, the as-value, any-setter and creator markers, and whether null
properties are written (with the caller's default passed through).

The introspector has no fields, so every query is a pure function:

- `wrappers.dfy` (module `Wrappers`): `Option` stands for a Java reference that
  may be null, `Result` for a query that may throw.
- `annotations.dfy` (module `Annotations`): the data model. An annotated element
  is a record holding, per Jackson annotation kind, `None` when the annotation
  is absent and `Some(arguments)` when it is present. Java never supplies a
  null annotation argument, but the introspector guards against one for the
  role array of `@JsonAutoDetect` and the names of `@JsonGetter` /
  `@JsonSetter`; an inner `Option` models that guarded case. A class literal is either the
  `NoClass` sentinel or a class with its name and the set of types it is
  assignable to. An entry of the role array carries the three role flags.
  `AnnotatedClass`, `AnnotatedMethod` and `AnnotatedField` are subset types of
  one `Annotated` record, so each query accepts only the element kind its Java
  signature accepts.
- `introspector.dfy` (module `JacksonIntrospector`): the queries, each with a
  contract stating its answer in terms of the annotations present.
- `properties.dfy` (module `IntrospectorProperties`): laws relating several
  calls or several elements.

Java's nullable `Boolean` is `Option<bool>` (null, FALSE, TRUE); nullable
`String` and `Class` results are `Option`; the `IllegalArgumentException` of
the converter lookups is `Failure(IllegalArgument(message))`, with the message
text of the source.

The ignore queries and `hasAsValueAnnotation` return a plain `boolean`, so an
explicit `false` and an absent annotation give the same answer.

## Model

| member | source | states |
|---|---|---|
| `JacksonIntrospector.IsHandled` | src/java/org/codehaus/jackson/map/introspect/JacksonAnnotationIntrospector.java:25-38 | handled iff the annotation's type carries the Jackson tag annotation |
| `JacksonIntrospector.FindSerializerClass` | src/java/org/codehaus/jackson/map/introspect/JacksonAnnotationIntrospector.java:40-58 | null when `@JsonUseSerializer` is absent or names `NoClass`; throws, with the source's message, iff it names another class not assignable to `JsonSerializer`; otherwise returns exactly the named class |
| `JacksonIntrospector.FindDeserializerClass` | src/java/org/codehaus/jackson/map/introspect/JacksonAnnotationIntrospector.java:60-74 | the same law for `@JsonUseDeserializer` and `JsonDeserializer` |
| `JacksonIntrospector.IsIgnorableMethod` | src/java/org/codehaus/jackson/map/introspect/JacksonAnnotationIntrospector.java:82-86 | true iff `@JsonIgnore` is present with value true |
| `JacksonIntrospector.AnyRoleEnabled` | src/java/org/codehaus/jackson/map/introspect/JacksonAnnotationIntrospector.java:100-104 | the early-returning scan of the role array is true iff some entry enables the role |
| `JacksonIntrospector.FindGetterAutoDetection` | src/java/org/codehaus/jackson/map/introspect/JacksonAnnotationIntrospector.java:94-109 | null iff `@JsonAutoDetect` is absent; TRUE iff the role array is non-null and some entry enables getters; FALSE otherwise |
| `JacksonIntrospector.WillWriteNullPropertiesForClass` | src/java/org/codehaus/jackson/map/introspect/JacksonAnnotationIntrospector.java:111-115 | the caller's default when `@JsonWriteNullProperties` is absent, the annotation's value when present |
| `JacksonIntrospector.FindSetterAutoDetection` | src/java/org/codehaus/jackson/map/introspect/JacksonAnnotationIntrospector.java:123-138 | null iff `@JsonAutoDetect` is absent; TRUE iff some entry enables setters; FALSE otherwise |
| `JacksonIntrospector.FindCreatorAutoDetection` | src/java/org/codehaus/jackson/map/introspect/JacksonAnnotationIntrospector.java:140-155 | null iff `@JsonAutoDetect` is absent; TRUE iff some entry enables creators; FALSE otherwise |
| `JacksonIntrospector.FindGettablePropertyName` | src/java/org/codehaus/jackson/map/introspect/JacksonAnnotationIntrospector.java:163-175 | null iff `@JsonGetter` is absent; otherwise its value, with the guard against a null value (which Java never supplies) giving `""` |
| `JacksonIntrospector.HasAsValueAnnotation` | src/java/org/codehaus/jackson/map/introspect/JacksonAnnotationIntrospector.java:177-182 | true iff `@JsonValue` is present with value true |
| `JacksonIntrospector.WillWriteNullPropertiesForMethod` | src/java/org/codehaus/jackson/map/introspect/JacksonAnnotationIntrospector.java:184-188 | the method-level overload: the default when absent, the annotation's value when present |
| `JacksonIntrospector.FindSettablePropertyName` | src/java/org/codehaus/jackson/map/introspect/JacksonAnnotationIntrospector.java:196-208 | null iff `@JsonSetter` is absent; otherwise its value, with the guard against a null value (which Java never supplies) giving `""` |
| `JacksonIntrospector.HasAnySetterAnnotation` | src/java/org/codehaus/jackson/map/introspect/JacksonAnnotationIntrospector.java:210-217 | true iff `@JsonAnySetter` is present; it has no disabling form |
| `JacksonIntrospector.HasCreatorAnnotation` | src/java/org/codehaus/jackson/map/introspect/JacksonAnnotationIntrospector.java:219-226 | true iff `@JsonCreator` is present; it has no disabling form |
| `JacksonIntrospector.IsIgnorableField` | src/java/org/codehaus/jackson/map/introspect/JacksonAnnotationIntrospector.java:234-238 | true iff `@JsonIgnore` is present with value true |
| `IntrospectorProperties.HandledDependsOnTagOnly` | src/java/org/codehaus/jackson/map/introspect/JacksonAnnotationIntrospector.java:36-37 | annotation types with the same meta-annotations are handled alike, whatever their names |
| `IntrospectorProperties.ConverterCapabilitiesIndependent` | src/java/org/codehaus/jackson/map/introspect/JacksonAnnotationIntrospector.java:54-72 | a class that is a serializer but not a deserializer is accepted by one lookup and rejected by the other |
| `IntrospectorProperties.ExplicitFalseLikeAbsent` | src/java/org/codehaus/jackson/map/introspect/JacksonAnnotationIntrospector.java:82-86 | `@JsonIgnore(false)` and `@JsonValue(false)` give the same answer (false) as the absent annotation, for methods and fields |
| `IntrospectorProperties.AnyRoleEnabledMonotone` | src/java/org/codehaus/jackson/map/introspect/JacksonAnnotationIntrospector.java:100-104 | adding entries to the role array never turns an enabled role off |
| `IntrospectorProperties.AnyRoleEnabledOrderIndependent` | src/java/org/codehaus/jackson/map/introspect/JacksonAnnotationIntrospector.java:100-104 | the scan's answer does not depend on the order of the entries |
| `IntrospectorProperties.AnyRoleEnabledDependsOnEntriesOnly` | src/java/org/codehaus/jackson/map/introspect/JacksonAnnotationIntrospector.java:100-104 | role arrays holding the same entries, in any order and number of repetitions, give the same answer |
| `IntrospectorProperties.AnyRoleEnabledIgnoresOtherRoles` | src/java/org/codehaus/jackson/map/introspect/JacksonAnnotationIntrospector.java:129-133 | the answer for one role does not depend on the other two role flags of the entries |
| `IntrospectorProperties.AutoDetectionOrderIndependent` | src/java/org/codehaus/jackson/map/introspect/JacksonAnnotationIntrospector.java:94-155 | two classes whose role arrays are permutations of each other get the same getter, setter and creator answers |
| `IntrospectorProperties.AutoDetectionNullArrayLikeEmpty` | src/java/org/codehaus/jackson/map/introspect/JacksonAnnotationIntrospector.java:97-107 | the guard against a null role array (which Java never supplies) answers FALSE for every role, exactly as an empty array does |
| `IntrospectorProperties.AutoDetectionGetterOnly` | src/java/org/codehaus/jackson/map/introspect/JacksonAnnotationIntrospector.java:94-155 | the three reductions over one array are independent: a getter-only entry gives TRUE, FALSE, FALSE |
| `IntrospectorProperties.WriteNullDefaultMattersIffAbsent` | src/java/org/codehaus/jackson/map/introspect/JacksonAnnotationIntrospector.java:111-115 | for both overloads, the caller's default changes the answer iff the annotation is absent |
| `IntrospectorProperties.NullNameLikeEmptyName` | src/java/org/codehaus/jackson/map/introspect/JacksonAnnotationIntrospector.java:169-174 | the guard against a null name (which Java never supplies) answers as an explicit `""`, which is a name and not the null of an absent annotation |
| `IntrospectorProperties.UnannotatedHasNoOpinion` | src/java/org/codehaus/jackson/map/introspect/JacksonAnnotationIntrospector.java:40-238 | an element without Jackson annotations gets null, false or the caller's default from every query |
| `IntrospectorProperties.IgnoredFieldAndNamedGetter` | src/java/org/codehaus/jackson/map/introspect/JacksonAnnotationIntrospector.java:163-175 | a field with `@JsonIgnore(true)` is ignorable; a getter with `@JsonGetter("foo")` is named `"foo"` and every other query on the getter, and the converter lookups on the field, give their no-opinion answers |

## Left out

- Java reflection (`getAnnotation`, `hasAnnotation`, `annotationType`) and the `Annotated`, `AnnotatedClass`, `AnnotatedMethod` and `AnnotatedField` accessors: an element is the record of annotations present on it.
- `Class.isAssignableFrom` and the `JsonSerializer` / `JsonDeserializer` types: a class carries the set of type names it is assignable to; the generic cast of the returned class is not modelled.
- The `JsonMethod` enumeration is not part of this model: an entry is the record of its three role flags.
- The package-prefix test kept as a comment in `isHandled` is dead code and is not modelled.
- The `AnnotationIntrospector` base class and any chaining of several introspectors (first-match-wins merging) are not part of this model; only the standard provider is.
- The end-to-end JAXB round trip through `ObjectMapper` (TestJaxbAnnotationIntrospector.java) exercises an introspector and a mapper that are not part of this model.
- Concurrency: the introspector is stateless and its queries are functions, so repeated or concurrent queries give identical answers by construction.
