/**
 * The data model the introspector reads: annotation types, class literals
 * named by annotations, the role entries of an auto-detection annotation, and
 * program elements (classes, methods, fields) with the Jackson annotations
 * present on them. Reflection is abstracted away: an element is a record
 * holding, per Jackson annotation kind, None when that annotation is absent
 * and Some(arguments) when it is present.
 */
module Annotations {
  import opened Wrappers

  /** Fully-qualified name of the marker annotation every Jackson annotation type carries. */
  const JacksonAnnotationTag: string := "org.codehaus.jackson.annotate.JacksonAnnotation"

  /** Fully-qualified names of the two converter base types. */
  const JsonSerializerType: string := "org.codehaus.jackson.map.JsonSerializer"
  const JsonDeserializerType: string := "org.codehaus.jackson.map.JsonDeserializer"

  /** An annotation type: its name and the names of the annotations declared on it. */
  datatype AnnotationType = AnnotationType(name: string, metaAnnotations: set<string>)

  /** An annotation instance, reduced to its type. */
  datatype Annotation = Annotation(annotationType: AnnotationType)

  /**
   * A class literal given as an annotation argument. NoClass is the sentinel
   * class meaning "annotation present but inert"; any other class carries its
   * name and the fully-qualified names of every type it is assignable to
   * (itself, its superclasses and its interfaces).
   */
  datatype ClassRef = NoClass | Cls(name: string, assignableTo: set<string>)

  /** Whether a value of class c may be stored in a variable of type target. */
  predicate IsAssignableTo(c: ClassRef, target: string)
  {
    c.Cls? && target in c.assignableTo
  }

  /** One entry of the role array of the auto-detection annotation. */
  datatype JsonMethod = JsonMethod(getterEnabled: bool, setterEnabled: bool, creatorEnabled: bool)

  /** The three roles auto-detection can be switched on for. */
  datatype Role = Getter | Setter | Creator

  /** Whether entry m enables role. */
  predicate Enabled(m: JsonMethod, role: Role)
  {
    match role
    case Getter => m.getterEnabled
    case Setter => m.setterEnabled
    case Creator => m.creatorEnabled
  }

  /**
   * The Jackson annotations present on one element, with their arguments.
   * An outer None means the annotation is absent. Java never supplies a null
   * annotation argument, but the introspector guards against one for the role
   * array and the property names; an inner None models that guarded case.
   * The any-setter and creator markers take no argument, so only their
   * presence is recorded.
   */
  datatype AnnotationSet = AnnotationSet(
    useSerializer: Option<ClassRef>,               // @JsonUseSerializer(value)
    useDeserializer: Option<ClassRef>,             // @JsonUseDeserializer(value)
    ignore: Option<bool>,                          // @JsonIgnore(value)
    autoDetect: Option<Option<seq<JsonMethod>>>,   // @JsonAutoDetect(value)
    writeNullProperties: Option<bool>,             // @JsonWriteNullProperties(value)
    getter: Option<Option<string>>,                // @JsonGetter(value)
    setter: Option<Option<string>>,                // @JsonSetter(value)
    asValue: Option<bool>,                         // @JsonValue(value)
    anySetter: bool,                               // @JsonAnySetter
    creator: bool                                  // @JsonCreator
  )

  /** An element that carries no Jackson annotation at all. */
  const NoAnnotations: AnnotationSet :=
    AnnotationSet(None, None, None, None, None, None, None, None, false, false)

  datatype ElementKind = ClassElement | MethodElement | FieldElement

  /** A program element together with the annotations found on it. */
  datatype Annotated = Annotated(kind: ElementKind, annotations: AnnotationSet)

  type AnnotatedClass = a: Annotated | a.kind == ClassElement
    witness Annotated(ClassElement, NoAnnotations)

  type AnnotatedMethod = a: Annotated | a.kind == MethodElement
    witness Annotated(MethodElement, NoAnnotations)

  type AnnotatedField = a: Annotated | a.kind == FieldElement
    witness Annotated(FieldElement, NoAnnotations)
}
