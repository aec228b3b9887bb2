/**
 * Laws about the introspector's queries that relate several calls or several
 * elements: what a disabling argument means, how the guard against a null
 * role array relates to an empty one, the independence of the three auto-detection reductions, the
 * pass-through of the caller's default, and the answers for an element that
 * carries no Jackson annotation.
 */
module IntrospectorProperties {
  import opened Wrappers
  import opened Annotations
  import opened JacksonIntrospector

  /*
   * Annotation handling
   */

  /**
   * Whether an annotation is handled depends on its meta-annotations only:
   * two annotation types with the same meta-annotations get the same answer,
   * whatever their names or packages.
   */
  lemma HandledDependsOnTagOnly(a1: Annotation, a2: Annotation)
    requires a1.annotationType.metaAnnotations == a2.annotationType.metaAnnotations
    ensures IsHandled(a1) == IsHandled(a2)
  {
  }

  /*
   * Converter classes
   */

  /**
   * The serializer and deserializer lookups are independent: a class that is
   * a serializer but not a deserializer is accepted by one and rejected by the other.
   */
  lemma ConverterCapabilitiesIndependent(a: Annotated, c: ClassRef)
    requires c.Cls? && JsonSerializerType in c.assignableTo && JsonDeserializerType !in c.assignableTo
    requires a.annotations.useSerializer == Some(c) && a.annotations.useDeserializer == Some(c)
    ensures FindSerializerClass(a) == Success(Some(c))
    ensures FindDeserializerClass(a).Failure?
  {
  }

  /*
   * Ignoring members and the as-value marker: an explicit false is the same
   * answer as an absent annotation, since these queries are two-valued.
   */

  lemma ExplicitFalseLikeAbsent(m: AnnotatedMethod, f: AnnotatedField)
    requires m.annotations.ignore == Some(false) && m.annotations.asValue == Some(false)
    requires f.annotations.ignore == Some(false)
    ensures IsIgnorableMethod(m) == IsIgnorableMethod(m.(annotations := m.annotations.(ignore := None))) == false
    ensures HasAsValueAnnotation(m) == HasAsValueAnnotation(m.(annotations := m.annotations.(asValue := None))) == false
    ensures IsIgnorableField(f) == IsIgnorableField(f.(annotations := f.annotations.(ignore := None))) == false
  {
  }

  /*
   * Auto-detection
   */

  /** If every entry of ms occurs in ns, a role enabled by ms is enabled by ns. */
  lemma AnyRoleEnabledMonotone(ms: seq<JsonMethod>, ns: seq<JsonMethod>, role: Role)
    requires forall i :: 0 <= i < |ms| ==> ms[i] in multiset(ns)
    ensures AnyRoleEnabled(ms, role) ==> AnyRoleEnabled(ns, role)
  {
  }

  /** The reduction does not depend on the order of entries. */
  lemma AnyRoleEnabledOrderIndependent(ms: seq<JsonMethod>, ns: seq<JsonMethod>, role: Role)
    requires multiset(ms) == multiset(ns)
    ensures AnyRoleEnabled(ms, role) == AnyRoleEnabled(ns, role)
  {
    forall i | 0 <= i < |ms| ensures ms[i] in multiset(ns) {
      assert ms[i] in multiset(ms);
    }
    forall j | 0 <= j < |ns| ensures ns[j] in multiset(ms) {
      assert ns[j] in multiset(ns);
    }
    AnyRoleEnabledMonotone(ms, ns, role);
    AnyRoleEnabledMonotone(ns, ms, role);
  }

  /**
   * Nor does it depend on how often an entry repeats: role arrays holding
   * the same entries, in any order and number, give the same answer.
   */
  lemma AnyRoleEnabledDependsOnEntriesOnly(ms: seq<JsonMethod>, ns: seq<JsonMethod>, role: Role)
    requires forall x :: x in ms <==> x in ns
    ensures AnyRoleEnabled(ms, role) == AnyRoleEnabled(ns, role)
  {
    forall i | 0 <= i < |ms| ensures ms[i] in multiset(ns) {
      assert ms[i] in ns;
    }
    forall j | 0 <= j < |ns| ensures ns[j] in multiset(ms) {
      assert ns[j] in ms;
    }
    AnyRoleEnabledMonotone(ms, ns, role);
    AnyRoleEnabledMonotone(ns, ms, role);
  }

  /**
   * The reduction for one role does not depend on the other two: role arrays
   * whose entries agree on that role give the same answer.
   */
  lemma AnyRoleEnabledIgnoresOtherRoles(ms: seq<JsonMethod>, ns: seq<JsonMethod>, role: Role)
    requires |ms| == |ns|
    requires forall i :: 0 <= i < |ms| ==> Enabled(ms[i], role) == Enabled(ns[i], role)
    ensures AnyRoleEnabled(ms, role) == AnyRoleEnabled(ns, role)
  {
  }

  /**
   * Two classes whose @JsonAutoDetect role arrays hold the same entries in any
   * order get the same answer for every role.
   */
  lemma AutoDetectionOrderIndependent(c1: AnnotatedClass, c2: AnnotatedClass, ms: seq<JsonMethod>, ns: seq<JsonMethod>)
    requires c1.annotations.autoDetect == Some(Some(ms))
    requires c2.annotations.autoDetect == Some(Some(ns))
    requires multiset(ms) == multiset(ns)
    ensures FindGetterAutoDetection(c1) == FindGetterAutoDetection(c2)
    ensures FindSetterAutoDetection(c1) == FindSetterAutoDetection(c2)
    ensures FindCreatorAutoDetection(c1) == FindCreatorAutoDetection(c2)
  {
    AnyRoleEnabledOrderIndependent(ms, ns, Getter);
    AnyRoleEnabledOrderIndependent(ms, ns, Setter);
    AnyRoleEnabledOrderIndependent(ms, ns, Creator);
  }

  /**
   * Once @JsonAutoDetect is present the answer is never null; the guard
   * against a null role array (which Java never supplies) answers exactly as
   * an empty array does: FALSE for every role.
   */
  lemma AutoDetectionNullArrayLikeEmpty(c1: AnnotatedClass, c2: AnnotatedClass)
    requires c1.annotations.autoDetect == Some(None)
    requires c2.annotations.autoDetect == Some(Some([]))
    ensures FindGetterAutoDetection(c1) == FindGetterAutoDetection(c2) == Some(false)
    ensures FindSetterAutoDetection(c1) == FindSetterAutoDetection(c2) == Some(false)
    ensures FindCreatorAutoDetection(c1) == FindCreatorAutoDetection(c2) == Some(false)
  {
  }

  /**
   * The three reductions over one role array are independent: an array whose
   * only entry enables the getter role gives TRUE, FALSE and FALSE.
   */
  lemma AutoDetectionGetterOnly(ac: AnnotatedClass)
    requires ac.annotations.autoDetect == Some(Some([JsonMethod(true, false, false)]))
    ensures FindGetterAutoDetection(ac) == Some(true)
    ensures FindSetterAutoDetection(ac) == Some(false)
    ensures FindCreatorAutoDetection(ac) == Some(false)
  {
  }

  /*
   * Writing null properties
   */

  /**
   * The caller's default decides the answer exactly when the annotation is
   * absent, for both overloads.
   */
  lemma WriteNullDefaultMattersIffAbsent(ac: AnnotatedClass, am: AnnotatedMethod)
    ensures WillWriteNullPropertiesForClass(ac, true) != WillWriteNullPropertiesForClass(ac, false)
      <==> ac.annotations.writeNullProperties.None?
    ensures WillWriteNullPropertiesForMethod(am, true) != WillWriteNullPropertiesForMethod(am, false)
      <==> am.annotations.writeNullProperties.None?
  {
  }

  /*
   * Property names
   */

  /**
   * The guard against a null name (which Java never supplies) answers exactly
   * as an explicit "", and that answer is a name, distinct from the null
   * returned for an absent annotation.
   */
  lemma NullNameLikeEmptyName(m1: AnnotatedMethod, m2: AnnotatedMethod)
    requires m1.annotations.getter == Some(None) && m2.annotations.getter == Some(Some(""))
    requires m1.annotations.setter == Some(None) && m2.annotations.setter == Some(Some(""))
    ensures FindGettablePropertyName(m1) == FindGettablePropertyName(m2) == Some("")
    ensures FindSettablePropertyName(m1) == FindSettablePropertyName(m2) == Some("")
  {
  }

  /*
   * Elements without annotations, and a worked scenario
   */

  /**
   * An element with no Jackson annotation gets the no-opinion answer from
   * every query: null, false, or the caller's default.
   */
  lemma UnannotatedHasNoOpinion(ac: AnnotatedClass, am: AnnotatedMethod, af: AnnotatedField, defValue: bool)
    requires ac.annotations == NoAnnotations
    requires am.annotations == NoAnnotations
    requires af.annotations == NoAnnotations
    ensures FindSerializerClass(am) == FindDeserializerClass(am) == Success(None)
    ensures FindSerializerClass(ac) == FindDeserializerClass(ac) == Success(None)
    ensures FindGetterAutoDetection(ac) == FindSetterAutoDetection(ac) == FindCreatorAutoDetection(ac) == None
    ensures WillWriteNullPropertiesForClass(ac, defValue) == defValue
    ensures WillWriteNullPropertiesForMethod(am, defValue) == defValue
    ensures FindGettablePropertyName(am) == FindSettablePropertyName(am) == None
    ensures !IsIgnorableMethod(am) && !IsIgnorableField(af)
    ensures !HasAsValueAnnotation(am) && !HasAnySetterAnnotation(am) && !HasCreatorAnnotation(am)
  {
  }

  /**
   * A field annotated @JsonIgnore(true) and a getter annotated
   * @JsonGetter("foo"): the field is ignorable, the getter is named "foo",
   * and every other query on the getter gives its no-opinion answer.
   */
  lemma IgnoredFieldAndNamedGetter(af: AnnotatedField, am: AnnotatedMethod, defValue: bool)
    requires af.annotations == NoAnnotations.(ignore := Some(true))
    requires am.annotations == NoAnnotations.(getter := Some(Some("foo")))
    ensures IsIgnorableField(af)
    ensures FindSerializerClass(af) == FindDeserializerClass(af) == Success(None)
    ensures FindGettablePropertyName(am) == Some("foo")
    ensures FindSettablePropertyName(am) == None
    ensures !IsIgnorableMethod(am) && !HasAsValueAnnotation(am)
    ensures !HasAnySetterAnnotation(am) && !HasCreatorAnnotation(am)
    ensures FindSerializerClass(am) == FindDeserializerClass(am) == Success(None)
    ensures WillWriteNullPropertiesForMethod(am, defValue) == defValue
  {
  }
}
