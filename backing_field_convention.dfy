/** The backing-field convention: for a property (or navigation) of an entity
    type, find the CLR field that stores it, by trying a fixed list of naming
    patterns on each type of the declaring entity's CLR hierarchy.

    Reflection is abstracted: `Reflection.runtimeFields` is what
    `Type.GetRuntimeFields()` reports for each type (field name to field type),
    and `Reflection.assignableFrom` is the `IsAssignableFrom` relation as a set
    of (target, source) pairs. */
module BackingFieldConvention {
  import opened Wrappers

  /** A CLR type, identified by its full name. */
  type ClrType = string

  datatype Reflection = Reflection(
    runtimeFields: map<ClrType, map<string, ClrType>>,
    assignableFrom: set<(ClrType, ClrType)>)

  /** A field found by reflection: the type it was looked up on, its name and its type. */
  datatype FieldInfo = FieldInfo(declaringType: ClrType, name: string, fieldType: ClrType)

  /** Where a piece of model configuration came from. */
  datatype ConfigurationSource = Explicit | DataAnnotation | Convention

  function Rank(source: ConfigurationSource): nat
  {
    match source
    case Explicit => 2
    case DataAnnotation => 1
    case Convention => 0
  }

  /** `source.Overrides(current)`: a setting made from `source` may replace one
      made from `current`; `None` means nothing has been configured yet. */
  predicate Overrides(source: ConfigurationSource, current: Option<ConfigurationSource>)
  {
    current.None? || Rank(source) >= Rank(current.value)
  }

  /** The convention may only fill in a field that nobody configured, or one
      that an earlier run of a convention chose. */
  lemma ConventionOverridesOnlyConvention(current: Option<ConfigurationSource>)
    ensures Overrides(Convention, current) <==> current == None || current == Some(Convention)
  {
  }

  /** Overrides orders the configuration sources totally. */
  lemma OverridesIsTotalOrder(a: ConfigurationSource, b: ConfigurationSource, c: ConfigurationSource)
    ensures Overrides(a, Some(a))
    ensures Overrides(a, Some(b)) || Overrides(b, Some(a))
    ensures Overrides(a, Some(b)) && Overrides(b, Some(a)) ==> a == b
    ensures Overrides(a, Some(b)) && Overrides(b, Some(c)) ==> Overrides(a, Some(c))
  {
  }

  /** `entityType.GetRuntimeFields().ToDictionary(f => f.Name)`; a type the
      reflection map does not list has no fields. */
  function FieldsOf(refl: Reflection, entityType: ClrType): map<string, ClrType>
  {
    if entityType in refl.runtimeFields then refl.runtimeFields[entityType] else map[]
  }

  /** A field of this name exists on the type and its field type can be
      assigned from the property type. */
  predicate Accepts(refl: Reflection, entityType: ClrType, propertyType: ClrType, name: string)
  {
    var fields := FieldsOf(refl, entityType);
    name in fields && (fields[name], propertyType) in refl.assignableFrom
  }

  function FieldNamed(refl: Reflection, entityType: ClrType, name: string): FieldInfo
    requires name in FieldsOf(refl, entityType)
  {
    FieldInfo(entityType, name, FieldsOf(refl, entityType)[name])
  }

  /** `char.ToLowerInvariant` on the ASCII letters; every other character is kept. */
  function ToLowerInvariant(c: char): (r: char)
    ensures 'A' <= c <= 'Z' ==> 'a' <= r <= 'z' && r as int - c as int == 'a' as int - 'A' as int
    ensures !('A' <= c <= 'Z') ==> r == c
  {
    if 'A' <= c <= 'Z' then (c as int + ('a' as int - 'A' as int)) as char else c
  }

  /** The property name with its first character lower-cased. */
  function Camelize(propertyName: string): (r: string)
    requires |propertyName| > 0
    ensures |r| == |propertyName|
    ensures r[0] == ToLowerInvariant(propertyName[0])
    ensures forall i :: 1 <= i < |r| ==> r[i] == propertyName[i]
  {
    [ToLowerInvariant(propertyName[0])] + propertyName[1..]
  }

  /** Camelizing a camelized name changes nothing more. */
  lemma CamelizeIdempotent(propertyName: string)
    requires |propertyName| > 0
    ensures Camelize(Camelize(propertyName)) == Camelize(propertyName)
  {
    var once := Camelize(propertyName);
    var twice := Camelize(once);
    assert |twice| == |once|;
    assert twice[0] == once[0];
    forall i | 1 <= i < |once|
      ensures twice[i] == once[i]
    {
    }
  }

  /** A name that does not start with an upper-case letter is its own camel form. */
  lemma CamelizeKeepsLowerCaseName(propertyName: string)
    requires |propertyName| > 0 && !('A' <= propertyName[0] <= 'Z')
    ensures Camelize(propertyName) == propertyName
  {
    var c := Camelize(propertyName);
    assert |c| == |propertyName|;
    forall i | 0 <= i < |c|
      ensures c[i] == propertyName[i]
    {
    }
  }

  /** A field name built from the property name or its camel form, bare or
      with one of the prefixes `_` and `m_`. */
  predicate ConventionalName(name: string, propertyName: string)
    requires |propertyName| > 0
  {
    var camelized := Camelize(propertyName);
    name in {propertyName, camelized, "_" + propertyName, "_" + camelized, "m_" + propertyName, "m_" + camelized}
  }

  /** The names tried, in the order they are tried: the compiler-generated
      auto-property field first, then the six conventional names, each of
      which is tried. */
  function CandidateNames(propertyName: string): (r: seq<string>)
    requires |propertyName| > 0
    ensures |r| == 7
    ensures r[0] == "<" + propertyName + ">k__BackingField"
    ensures forall i :: 1 <= i < 7 ==> ConventionalName(r[i], propertyName)
    ensures forall name :: ConventionalName(name, propertyName) ==> name in r[1..]
  {
    var camelized := Camelize(propertyName);
    [ "<" + propertyName + ">k__BackingField",
      propertyName,
      camelized,
      "_" + camelized,
      "_" + propertyName,
      "m_" + camelized,
      "m_" + propertyName ]
  }

  /** `names[i]` is accepted and no earlier name is. */
  ghost predicate FirstAccepted(refl: Reflection, entityType: ClrType, propertyType: ClrType,
                                names: seq<string>, i: int)
  {
    && 0 <= i < |names|
    && Accepts(refl, entityType, propertyType, names[i])
    && forall j :: 0 <= j < i ==> !Accepts(refl, entityType, propertyType, names[j])
  }

  /** The reference search: the field under the first accepted name, if any. */
  function FirstMatch(refl: Reflection, entityType: ClrType, propertyType: ClrType, names: seq<string>)
    : (r: Option<FieldInfo>)
    ensures r.None? <==> forall i :: 0 <= i < |names| ==> !Accepts(refl, entityType, propertyType, names[i])
    ensures r.Some? ==> exists i :: FirstAccepted(refl, entityType, propertyType, names, i)
                                    && r.value == FieldNamed(refl, entityType, names[i])
    ensures forall i :: FirstAccepted(refl, entityType, propertyType, names, i)
                        ==> r == Some(FieldNamed(refl, entityType, names[i]))
    decreases |names|
  {
    if names == [] then None
    else if Accepts(refl, entityType, propertyType, names[0]) then
      assert FirstAccepted(refl, entityType, propertyType, names, 0);
      Some(FieldNamed(refl, entityType, names[0]))
    else
      var r := FirstMatch(refl, entityType, propertyType, names[1..]);
      assert forall i :: FirstAccepted(refl, entityType, propertyType, names, i)
                         ==> i >= 1 && FirstAccepted(refl, entityType, propertyType, names[1..], i - 1);
      assert forall i :: FirstAccepted(refl, entityType, propertyType, names[1..], i)
                         ==> FirstAccepted(refl, entityType, propertyType, names, i + 1);
      r
  }

  /** TryMatchFieldName, as the source writes it: one short-circuit chain over
      the seven candidate names. The result is the field under the first
      candidate that exists with an assignable type, or None when there is none. */
  function TryMatchFieldName(refl: Reflection, entityType: ClrType, propertyType: ClrType, propertyName: string)
    : (r: Option<FieldInfo>)
    requires |propertyName| > 0
    ensures r == FirstMatch(refl, entityType, propertyType, CandidateNames(propertyName))
  {
    var camelized := Camelize(propertyName);
    var names := CandidateNames(propertyName);
    FirstMatchUnrolled(refl, entityType, propertyType, names);
    if Accepts(refl, entityType, propertyType, "<" + propertyName + ">k__BackingField") then
      Some(FieldNamed(refl, entityType, "<" + propertyName + ">k__BackingField"))
    else if Accepts(refl, entityType, propertyType, propertyName) then
      Some(FieldNamed(refl, entityType, propertyName))
    else if Accepts(refl, entityType, propertyType, camelized) then
      Some(FieldNamed(refl, entityType, camelized))
    else if Accepts(refl, entityType, propertyType, "_" + camelized) then
      Some(FieldNamed(refl, entityType, "_" + camelized))
    else if Accepts(refl, entityType, propertyType, "_" + propertyName) then
      Some(FieldNamed(refl, entityType, "_" + propertyName))
    else if Accepts(refl, entityType, propertyType, "m_" + camelized) then
      Some(FieldNamed(refl, entityType, "m_" + camelized))
    else if Accepts(refl, entityType, propertyType, "m_" + propertyName) then
      Some(FieldNamed(refl, entityType, "m_" + propertyName))
    else
      None
  }

  /** FirstMatch over a seven-name list, unrolled into the chain the source writes. */
  lemma FirstMatchUnrolled(refl: Reflection, entityType: ClrType, propertyType: ClrType, names: seq<string>)
    requires |names| == 7
    ensures FirstMatch(refl, entityType, propertyType, names) ==
      if Accepts(refl, entityType, propertyType, names[0]) then Some(FieldNamed(refl, entityType, names[0]))
      else if Accepts(refl, entityType, propertyType, names[1]) then Some(FieldNamed(refl, entityType, names[1]))
      else if Accepts(refl, entityType, propertyType, names[2]) then Some(FieldNamed(refl, entityType, names[2]))
      else if Accepts(refl, entityType, propertyType, names[3]) then Some(FieldNamed(refl, entityType, names[3]))
      else if Accepts(refl, entityType, propertyType, names[4]) then Some(FieldNamed(refl, entityType, names[4]))
      else if Accepts(refl, entityType, propertyType, names[5]) then Some(FieldNamed(refl, entityType, names[5]))
      else if Accepts(refl, entityType, propertyType, names[6]) then Some(FieldNamed(refl, entityType, names[6]))
      else None
  {
    var s := names;
    assert s[1..][0] == s[1] && s[1..][1..] == s[2..];
    assert s[2..][0] == s[2] && s[2..][1..] == s[3..];
    assert s[3..][0] == s[3] && s[3..][1..] == s[4..];
    assert s[4..][0] == s[4] && s[4..][1..] == s[5..];
    assert s[5..][0] == s[5] && s[5..][1..] == s[6..];
    assert s[6..][0] == s[6] && s[6..][1..] == [];
  }

  /** A name that exists on the type but whose field type is not assignable
      from the property type is passed over: the search goes on as if the
      name were not listed. */
  lemma {:induction false} IncompatibleFieldIsSkipped(refl: Reflection, entityType: ClrType, propertyType: ClrType,
                                                      names: seq<string>, i: nat)
    requires i < |names|
    requires names[i] in FieldsOf(refl, entityType)
    requires (FieldsOf(refl, entityType)[names[i]], propertyType) !in refl.assignableFrom
    ensures FirstMatch(refl, entityType, propertyType, names)
         == FirstMatch(refl, entityType, propertyType, names[..i] + names[i + 1..])
  {
    if i > 0 {
      var rest := names[1..];
      IncompatibleFieldIsSkipped(refl, entityType, propertyType, rest, i - 1);
      assert names[..i] + names[i + 1..] == [names[0]] + (rest[..i - 1] + rest[i..]);
      assert (names[..i] + names[i + 1..])[1..] == rest[..i - 1] + rest[i..];
    } else {
      assert names[..i] + names[i + 1..] == names[1..];
    }
  }

  /** `types[k]` is the first type of the hierarchy on which TryMatchFieldName finds a field. */
  ghost predicate FirstMatchingType(refl: Reflection, types: seq<ClrType>, propertyType: ClrType,
                                    propertyName: string, k: int)
    requires |propertyName| > 0
  {
    && 0 <= k < |types|
    && TryMatchFieldName(refl, types[k], propertyType, propertyName).Some?
    && forall j :: 0 <= j < k ==> TryMatchFieldName(refl, types[j], propertyType, propertyName).None?
  }

  /** The hierarchy search of Apply: the match on the first type, in sequence
      order, that yields one; later types are not consulted. */
  function FirstInHierarchy(refl: Reflection, types: seq<ClrType>, propertyType: ClrType, propertyName: string)
    : (r: Option<FieldInfo>)
    requires |propertyName| > 0
    ensures r.None? <==> forall k :: 0 <= k < |types| ==> TryMatchFieldName(refl, types[k], propertyType, propertyName).None?
    ensures forall k :: FirstMatchingType(refl, types, propertyType, propertyName, k)
                        ==> r == TryMatchFieldName(refl, types[k], propertyType, propertyName)
    ensures r.Some? ==> r.value.declaringType in types
    decreases |types|
  {
    if types == [] then None
    else
      var found := TryMatchFieldName(refl, types[0], propertyType, propertyName);
      if found.Some? then
        assert FirstMatchingType(refl, types, propertyType, propertyName, 0);
        found
      else
        var r := FirstInHierarchy(refl, types[1..], propertyType, propertyName);
        assert forall k :: FirstMatchingType(refl, types, propertyType, propertyName, k)
                           ==> k >= 1 && FirstMatchingType(refl, types[1..], propertyType, propertyName, k - 1);
        assert r.Some? ==> r.value.declaringType in types[1..];
        r
  }

  /** PropertyBase: what Apply reads and writes of a property or navigation. */
  class PropertyBase {
    const name: string
    /** The property's CLR type. */
    const clrType: ClrType
    /** `DeclaringEntityType.ClrType.GetTypesInHierarchy()`, as reflection reports it. */
    const typesInHierarchy: seq<ClrType>
    var fieldInfo: Option<FieldInfo>
    /** `GetFieldInfoConfigurationSource()`; None until a field is set. */
    var fieldInfoConfigurationSource: Option<ConfigurationSource>

    constructor (name: string, clrType: ClrType, typesInHierarchy: seq<ClrType>)
      ensures this.name == name && this.clrType == clrType && this.typesInHierarchy == typesInHierarchy
      ensures fieldInfo == None && fieldInfoConfigurationSource == None
    {
      this.name := name;
      this.clrType := clrType;
      this.typesInHierarchy := typesInHierarchy;
      fieldInfo := None;
      fieldInfoConfigurationSource := None;
    }

    /** Records the field and where the setting came from. */
    method SetFieldInfo(field: FieldInfo, configurationSource: ConfigurationSource, runConventions: bool)
      modifies this
      ensures fieldInfo == Some(field) && fieldInfoConfigurationSource == Some(configurationSource)
    {
      fieldInfo := Some(field);
      fieldInfoConfigurationSource := Some(configurationSource);
    }
  }

  /** Apply(PropertyBase): when a convention may override the current setting,
      walk the hierarchy and record the first match with source Convention;
      otherwise, or when nothing matches, leave the property as it was. */
  method Apply(refl: Reflection, propertyBase: PropertyBase)
    requires |propertyBase.name| > 0
    modifies propertyBase
    ensures var found := FirstInHierarchy(refl, propertyBase.typesInHierarchy, propertyBase.clrType, propertyBase.name);
            if Overrides(Convention, old(propertyBase.fieldInfoConfigurationSource)) && found.Some? then
              propertyBase.fieldInfo == found && propertyBase.fieldInfoConfigurationSource == Some(Convention)
            else
              propertyBase.fieldInfo == old(propertyBase.fieldInfo)
              && propertyBase.fieldInfoConfigurationSource == old(propertyBase.fieldInfoConfigurationSource)
  {
    if Overrides(Convention, propertyBase.fieldInfoConfigurationSource) {
      var types := propertyBase.typesInHierarchy;
      for i := 0 to |types|
        invariant FirstInHierarchy(refl, types, propertyBase.clrType, propertyBase.name)
               == FirstInHierarchy(refl, types[i..], propertyBase.clrType, propertyBase.name)
        invariant propertyBase.fieldInfo == old(propertyBase.fieldInfo)
        invariant propertyBase.fieldInfoConfigurationSource == old(propertyBase.fieldInfoConfigurationSource)
      {
        var fieldInfo := TryMatchFieldName(refl, types[i], propertyBase.clrType, propertyBase.name);
        if fieldInfo.Some? {
          propertyBase.SetFieldInfo(fieldInfo.value, Convention, false);
          return;
        }
        assert types[i..][1..] == types[i + 1..];
      }
    }
  }

  class InternalPropertyBuilder {
    const metadata: PropertyBase

    constructor (metadata: PropertyBase)
      ensures this.metadata == metadata
    {
      this.metadata := metadata;
    }
  }

  class InternalRelationshipBuilder {
    constructor ()
    {
    }
  }

  /** Apply(InternalPropertyBuilder): runs the convention on the builder's
      property and hands back the same builder. */
  method ApplyToPropertyBuilder(refl: Reflection, propertyBuilder: InternalPropertyBuilder)
    returns (r: InternalPropertyBuilder)
    requires |propertyBuilder.metadata.name| > 0
    modifies propertyBuilder.metadata
    ensures r == propertyBuilder
    ensures var p := propertyBuilder.metadata;
            var found := FirstInHierarchy(refl, p.typesInHierarchy, p.clrType, p.name);
            if Overrides(Convention, old(p.fieldInfoConfigurationSource)) && found.Some? then
              p.fieldInfo == found && p.fieldInfoConfigurationSource == Some(Convention)
            else
              p.fieldInfo == old(p.fieldInfo) && p.fieldInfoConfigurationSource == old(p.fieldInfoConfigurationSource)
  {
    Apply(refl, propertyBuilder.metadata);
    r := propertyBuilder;
  }

  /** Apply(InternalRelationshipBuilder, Navigation): runs the convention on
      the navigation and hands back the same relationship builder. */
  method ApplyToRelationshipBuilder(refl: Reflection, relationshipBuilder: InternalRelationshipBuilder,
                                    navigation: PropertyBase)
    returns (r: InternalRelationshipBuilder)
    requires |navigation.name| > 0
    modifies navigation
    ensures r == relationshipBuilder
    ensures var found := FirstInHierarchy(refl, navigation.typesInHierarchy, navigation.clrType, navigation.name);
            if Overrides(Convention, old(navigation.fieldInfoConfigurationSource)) && found.Some? then
              navigation.fieldInfo == found && navigation.fieldInfoConfigurationSource == Some(Convention)
            else
              navigation.fieldInfo == old(navigation.fieldInfo)
              && navigation.fieldInfoConfigurationSource == old(navigation.fieldInfoConfigurationSource)
  {
    Apply(refl, navigation);
    r := relationshipBuilder;
  }
}
