/** The setters of MutablePropertyExtensions: each writes one entry of the
    property's annotation table. Writing null through the annotation indexer
    clears the entry; writing any other value sets it. */
module MutablePropertyExtensions {
  import opened Wrappers

  type Int32 = x: int | -0x8000_0000 <= x < 0x8000_0000

  /** How the property's value is read and written (the PropertyAccessMode enum). */
  datatype PropertyAccessMode = Field | FieldDuringConstruction | Property

  /** A value generator factory delegate, known only by its identity. */
  datatype ValueGeneratorFactory = ValueGeneratorFactory(id: nat)

  /** The annotation values these setters store. */
  datatype AnnotationValue =
    | MaxLengthValue(maxLength: Int32)
    | UnicodeValue(unicode: bool)
    | AccessModeValue(mode: PropertyAccessMode)
    | FactoryValue(factory: ValueGeneratorFactory)
    | OtherValue(text: string)

  /** Exceptions the setters throw; the string is the offending parameter's name. */
  datatype ArgumentError = ArgumentNull(paramName: string) | ArgumentOutOfRange(paramName: string)

  /** CoreAnnotationNames. */
  const MaxLengthAnnotation: string := "MaxLength"
  const UnicodeAnnotation: string := "Unicode"
  const PropertyAccessModeAnnotation: string := "PropertyAccessMode"
  const ValueGeneratorFactoryAnnotation: string := "ValueGeneratorFactory"

  /** `property[name] = value` on the annotation table: `name` ends up holding
      exactly `value` (absent for null) and every other entry is untouched. */
  function WithAnnotation(annotations: map<string, AnnotationValue>, name: string, value: Option<AnnotationValue>)
    : (r: map<string, AnnotationValue>)
    ensures name in r <==> value.Some?
    ensures value.Some? ==> r[name] == value.value
    ensures forall k :: k != name ==> (k in r <==> k in annotations)
    ensures forall k :: k != name && k in annotations ==> r[k] == annotations[k]
  {
    if value.Some? then annotations[name := value.value] else annotations - {name}
  }

  /** Reading an annotation back: `property[name]`, null when absent. */
  function FindAnnotation(annotations: map<string, AnnotationValue>, name: string): Option<AnnotationValue>
  {
    if name in annotations then Some(annotations[name]) else None
  }

  /** Writing an annotation and reading it back gives what was written. */
  lemma ReadBackAfterWrite(annotations: map<string, AnnotationValue>, name: string, value: Option<AnnotationValue>)
    ensures FindAnnotation(WithAnnotation(annotations, name, value), name) == value
  {
  }

  /** Setters of different annotations commute: neither can observe the other. */
  lemma {:induction false} DistinctWritesCommute(annotations: map<string, AnnotationValue>,
                                                 a: string, x: Option<AnnotationValue>,
                                                 b: string, y: Option<AnnotationValue>)
    requires a != b
    ensures WithAnnotation(WithAnnotation(annotations, a, x), b, y)
         == WithAnnotation(WithAnnotation(annotations, b, y), a, x)
  {
    var left := WithAnnotation(WithAnnotation(annotations, a, x), b, y);
    var right := WithAnnotation(WithAnnotation(annotations, b, y), a, x);
    assert forall k :: k in left <==> k in right;
    assert forall k :: k in left ==> left[k] == right[k];
  }

  lemma AnnotationNamesDistinct()
    ensures MaxLengthAnnotation != UnicodeAnnotation
    ensures MaxLengthAnnotation != PropertyAccessModeAnnotation
    ensures MaxLengthAnnotation != ValueGeneratorFactoryAnnotation
    ensures UnicodeAnnotation != PropertyAccessModeAnnotation
    ensures UnicodeAnnotation != ValueGeneratorFactoryAnnotation
    ensures PropertyAccessModeAnnotation != ValueGeneratorFactoryAnnotation
  {
  }

  /** The annotation entry stored for a maximum length: null clears it. */
  function MaxLengthEntry(maxLength: Option<Int32>): Option<AnnotationValue>
  {
    if maxLength.Some? then Some(MaxLengthValue(maxLength.value)) else None
  }

  /** A property: its annotation table, updated in place. */
  class MutableProperty {
    var annotations: map<string, AnnotationValue>

    constructor (annotations: map<string, AnnotationValue>)
      ensures this.annotations == annotations
    {
      this.annotations := annotations;
    }
  }

  /** Sets the value generator factory; a null factory is rejected with
      ArgumentNullException before anything is written. */
  method SetValueGeneratorFactory(property: MutableProperty, valueGeneratorFactory: Option<ValueGeneratorFactory>)
    returns (outcome: Outcome<ArgumentError>)
    modifies property
    ensures valueGeneratorFactory.None? ==>
              outcome == Fail(ArgumentNull("valueGeneratorFactory"))
              && property.annotations == old(property.annotations)
    ensures valueGeneratorFactory.Some? ==>
              outcome == Pass
              && property.annotations == WithAnnotation(old(property.annotations), ValueGeneratorFactoryAnnotation,
                                                        Some(FactoryValue(valueGeneratorFactory.value)))
  {
    if valueGeneratorFactory.None? {
      return Fail(ArgumentNull("valueGeneratorFactory"));
    }
    property.annotations := WithAnnotation(property.annotations, ValueGeneratorFactoryAnnotation,
                                           Some(FactoryValue(valueGeneratorFactory.value)));
    outcome := Pass;
  }

  /** Sets the maximum length; a negative length is rejected with
      ArgumentOutOfRangeException before anything is written, null clears it. */
  method SetMaxLength(property: MutableProperty, maxLength: Option<Int32>)
    returns (outcome: Outcome<ArgumentError>)
    modifies property
    ensures outcome.Fail? <==> maxLength.Some? && maxLength.value < 0
    ensures outcome.Fail? ==>
              outcome.error == ArgumentOutOfRange("maxLength")
              && property.annotations == old(property.annotations)
    ensures outcome.Pass? ==>
              property.annotations == WithAnnotation(old(property.annotations), MaxLengthAnnotation, MaxLengthEntry(maxLength))
  {
    if maxLength.Some? && maxLength.value < 0 {
      return Fail(ArgumentOutOfRange("maxLength"));
    }
    property.annotations := WithAnnotation(property.annotations, MaxLengthAnnotation, MaxLengthEntry(maxLength));
    outcome := Pass;
  }

  /** Sets the access mode; null clears it. */
  method SetPropertyAccessMode(property: MutableProperty, propertyAccessMode: Option<PropertyAccessMode>)
    modifies property
    ensures property.annotations ==
              WithAnnotation(old(property.annotations), PropertyAccessModeAnnotation,
                             if propertyAccessMode.Some? then Some(AccessModeValue(propertyAccessMode.value)) else None)
  {
    property.annotations :=
      WithAnnotation(property.annotations, PropertyAccessModeAnnotation,
                     if propertyAccessMode.Some? then Some(AccessModeValue(propertyAccessMode.value)) else None);
  }

  /** Sets whether the property accepts Unicode; null clears the setting. */
  method IsUnicode(property: MutableProperty, unicode: Option<bool>)
    modifies property
    ensures property.annotations ==
              WithAnnotation(old(property.annotations), UnicodeAnnotation,
                             if unicode.Some? then Some(UnicodeValue(unicode.value)) else None)
  {
    property.annotations :=
      WithAnnotation(property.annotations, UnicodeAnnotation,
                     if unicode.Some? then Some(UnicodeValue(unicode.value)) else None);
  }
}
