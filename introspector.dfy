/**
 * The standard Jackson annotation introspector: each query turns the Jackson
 * annotations present on a class, method or field into one directive. The
 * introspector has no state, so every query is a function of the element
 * (and, for the null-writing queries, of a caller-supplied default).
 */
module JacksonIntrospector {
  import opened Wrappers
  import opened Annotations

  /** The exception a query can throw. */
  datatype IntrospectionError = IllegalArgument(message: string)

  /*
   * General annotation properties
   */

  /**
   * An annotation is handled exactly when its type carries the Jackson tag
   * annotation; its name and package play no part.
   */
  function IsHandled(ann: Annotation): (r: bool)
    ensures r <==> JacksonAnnotationTag in ann.annotationType.metaAnnotations
  {
    JacksonAnnotationTag in ann.annotationType.metaAnnotations
  }

  /** The two converter annotations share one lookup, parameterised by their kind. */
  datatype ConverterKind = SerializerKind | DeserializerKind

  function ConverterType(k: ConverterKind): string
  {
    match k
    case SerializerKind => JsonSerializerType
    case DeserializerKind => JsonDeserializerType
  }

  /** The message of the exception thrown for a class that is not a converter of kind k. */
  function InvalidConverterMessage(k: ConverterKind, c: ClassRef): string
    requires c.Cls?
  {
    match k
    case SerializerKind =>
      "Invalid @JsonUseSerializer annotation: Class " + c.name + " not a JsonSerializer"
    case DeserializerKind =>
      "Invalid @JsonUseDeserializer annotation: Class " + c.name + " not a JsonDeserializer"
  }

  /**
   * Resolves the class named by a converter annotation: absent and NoClass
   * both mean "no converter"; NoClass is tested before the capability check,
   * so it never fails; any other class must be assignable to the converter type.
   */
  function FindConverterClass(k: ConverterKind, ann: Option<ClassRef>): Result<Option<ClassRef>, IntrospectionError>
  {
    match ann
    case None => Success(None)
    case Some(cls) =>
      if cls == NoClass then Success(None)
      else if !IsAssignableTo(cls, ConverterType(k)) then
        Failure(IllegalArgument(InvalidConverterMessage(k, cls)))
      else Success(Some(cls))
  }

  /** The serializer class forced by @JsonUseSerializer. */
  function FindSerializerClass(a: Annotated): (r: Result<Option<ClassRef>, IntrospectionError>)
    ensures a.annotations.useSerializer.None? ==> r == Success(None)
    ensures a.annotations.useSerializer == Some(NoClass) ==> r == Success(None)
    ensures r.Failure? <==>
      (a.annotations.useSerializer.Some? && a.annotations.useSerializer.value.Cls?
       && JsonSerializerType !in a.annotations.useSerializer.value.assignableTo)
    ensures r.Failure? ==>
      r.error == IllegalArgument(InvalidConverterMessage(SerializerKind, a.annotations.useSerializer.value))
    ensures r.Success? && r.value.Some? ==>
      r.value == a.annotations.useSerializer && IsAssignableTo(r.value.value, JsonSerializerType)
    ensures a.annotations.useSerializer.Some? && IsAssignableTo(a.annotations.useSerializer.value, JsonSerializerType)
      ==> r == Success(a.annotations.useSerializer)
  {
    FindConverterClass(SerializerKind, a.annotations.useSerializer)
  }

  /** The deserializer class forced by @JsonUseDeserializer. */
  function FindDeserializerClass(a: Annotated): (r: Result<Option<ClassRef>, IntrospectionError>)
    ensures a.annotations.useDeserializer.None? ==> r == Success(None)
    ensures a.annotations.useDeserializer == Some(NoClass) ==> r == Success(None)
    ensures r.Failure? <==>
      (a.annotations.useDeserializer.Some? && a.annotations.useDeserializer.value.Cls?
       && JsonDeserializerType !in a.annotations.useDeserializer.value.assignableTo)
    ensures r.Failure? ==>
      r.error == IllegalArgument(InvalidConverterMessage(DeserializerKind, a.annotations.useDeserializer.value))
    ensures r.Success? && r.value.Some? ==>
      r.value == a.annotations.useDeserializer && IsAssignableTo(r.value.value, JsonDeserializerType)
    ensures a.annotations.useDeserializer.Some? && IsAssignableTo(a.annotations.useDeserializer.value, JsonDeserializerType)
      ==> r == Success(a.annotations.useDeserializer)
  {
    FindConverterClass(DeserializerKind, a.annotations.useDeserializer)
  }

  /*
   * Ignoring members
   */

  /** A method is ignorable only when @JsonIgnore is present with value true. */
  function IsIgnorableMethod(m: AnnotatedMethod): (r: bool)
    ensures r <==> m.annotations.ignore == Some(true)
  {
    m.annotations.ignore.Some? && m.annotations.ignore.value
  }

  /** A field is ignorable only when @JsonIgnore is present with value true. */
  function IsIgnorableField(f: AnnotatedField): (r: bool)
    ensures r <==> f.annotations.ignore == Some(true)
  {
    f.annotations.ignore.Some? && f.annotations.ignore.value
  }

  /*
   * Auto-detection: a left-to-right scan of the role array that stops at the
   * first entry enabling the role.
   */

  /** Whether some entry of the role array enables role. */
  function AnyRoleEnabled(methods: seq<JsonMethod>, role: Role): (r: bool)
    ensures r <==> exists i :: 0 <= i < |methods| && Enabled(methods[i], role)
  {
    if methods == [] then false
    else if Enabled(methods[0], role) then true
    else AnyRoleEnabled(methods[1..], role)
  }

  /**
   * The shared three-valued reduction: null when @JsonAutoDetect is absent,
   * otherwise TRUE or FALSE; the defensive guard against a null role array
   * (a value Java never supplies) answers as if there were no entries.
   */
  function FindAutoDetection(ac: AnnotatedClass, role: Role): Option<bool>
  {
    match ac.annotations.autoDetect
    case None => None
    case Some(None) => Some(false)
    case Some(Some(methods)) => Some(AnyRoleEnabled(methods, role))
  }

  /** Whether @JsonAutoDetect is present with a non-null role array some entry of which enables role. */
  predicate AutoDetectEnables(ac: AnnotatedClass, role: Role)
  {
    && ac.annotations.autoDetect.Some?
    && ac.annotations.autoDetect.value.Some?
    && exists i :: 0 <= i < |ac.annotations.autoDetect.value.value|
                   && Enabled(ac.annotations.autoDetect.value.value[i], role)
  }

  function FindGetterAutoDetection(ac: AnnotatedClass): (r: Option<bool>)
    ensures r.None? <==> ac.annotations.autoDetect.None?
    ensures r == Some(true) <==> AutoDetectEnables(ac, Getter)
  {
    FindAutoDetection(ac, Getter)
  }

  function FindSetterAutoDetection(ac: AnnotatedClass): (r: Option<bool>)
    ensures r.None? <==> ac.annotations.autoDetect.None?
    ensures r == Some(true) <==> AutoDetectEnables(ac, Setter)
  {
    FindAutoDetection(ac, Setter)
  }

  function FindCreatorAutoDetection(ac: AnnotatedClass): (r: Option<bool>)
    ensures r.None? <==> ac.annotations.autoDetect.None?
    ensures r == Some(true) <==> AutoDetectEnables(ac, Creator)
  {
    FindAutoDetection(ac, Creator)
  }

  /*
   * Writing null properties: the caller's default is passed through when
   * @JsonWriteNullProperties is absent.
   */

  function WriteNullDirective(anns: AnnotationSet, defValue: bool): bool
  {
    match anns.writeNullProperties
    case None => defValue
    case Some(v) => v
  }

  /** The class-level overload. */
  function WillWriteNullPropertiesForClass(ac: AnnotatedClass, defValue: bool): (r: bool)
    ensures ac.annotations.writeNullProperties.None? ==> r == defValue
    ensures ac.annotations.writeNullProperties.Some? ==> r == ac.annotations.writeNullProperties.value
  {
    WriteNullDirective(ac.annotations, defValue)
  }

  /** The method-level overload. */
  function WillWriteNullPropertiesForMethod(am: AnnotatedMethod, defValue: bool): (r: bool)
    ensures am.annotations.writeNullProperties.None? ==> r == defValue
    ensures am.annotations.writeNullProperties.Some? ==> r == am.annotations.writeNullProperties.value
  {
    WriteNullDirective(am.annotations, defValue)
  }

  /*
   * Explicit property names: null when the annotation is absent, otherwise
   * its value; the defensive guard against a null value (which Java never
   * supplies) turns it into "".
   */

  function NormalisedName(ann: Option<Option<string>>): Option<string>
  {
    match ann
    case None => None
    case Some(None) => Some("")
    case Some(Some(name)) => Some(name)
  }

  function FindGettablePropertyName(am: AnnotatedMethod): (r: Option<string>)
    ensures r.None? <==> am.annotations.getter.None?
    ensures am.annotations.getter == Some(None) ==> r == Some("")
    ensures am.annotations.getter.Some? && am.annotations.getter.value.Some? ==>
      r == am.annotations.getter.value
  {
    NormalisedName(am.annotations.getter)
  }

  function FindSettablePropertyName(am: AnnotatedMethod): (r: Option<string>)
    ensures r.None? <==> am.annotations.setter.None?
    ensures am.annotations.setter == Some(None) ==> r == Some("")
    ensures am.annotations.setter.Some? && am.annotations.setter.value.Some? ==>
      r == am.annotations.setter.value
  {
    NormalisedName(am.annotations.setter)
  }

  /*
   * Method markers
   */

  /** @JsonValue(false) disables the marker, exactly as its absence does. */
  function HasAsValueAnnotation(am: AnnotatedMethod): (r: bool)
    ensures r <==> am.annotations.asValue == Some(true)
  {
    am.annotations.asValue.Some? && am.annotations.asValue.value
  }

  /** Plain presence: @JsonAnySetter has no disabling form. */
  function HasAnySetterAnnotation(am: AnnotatedMethod): (r: bool)
    ensures r <==> am.annotations.anySetter
  {
    am.annotations.anySetter
  }

  /** Plain presence: @JsonCreator has no disabling form. */
  function HasCreatorAnnotation(am: AnnotatedMethod): (r: bool)
    ensures r <==> am.annotations.creator
  {
    am.annotations.creator
  }
}
