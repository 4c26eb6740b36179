# Entity Framework Core: backing-field discovery, property annotations, and the Local view

This project models three pieces of Entity Framework Core and proves properties of them in Dafny.

- **The backing-field convention** (`backing_field_convention.dfy`, module `BackingFieldConvention`).
  For a property or navigation, it tries seven candidate field names in a fixed order, on each type of
  the declaring entity's CLR hierarchy in turn. It keeps the first field whose type can be assigned
  from the property type. The convention only runs when a convention may override the field's current
  configuration source. Reflection is a parameter: `Reflection.runtimeFields` gives each type's runtime
  fields by name, and `Reflection.assignableFrom` gives the `IsAssignableFrom` relation.
  `TryMatchFieldName` is written as the source writes it, a chain of seven tests. It is proved equal to
  `FirstMatch`, a reference search over the candidate list whose contract states "first accepted
  candidate, or none".
- **The property annotation setters** (`mutable_property_extensions.dfy`, module
  `MutablePropertyExtensions`). A property is a class holding a `map` from annotation name to value.
  Each setter is a method that writes one key of that map. `WithAnnotation` is the indexer write, and
  its contract says that no other key changes.
- **Entity tracking and the `DbSet<T>.Local` view** (`databinding.dfy`, module `Databinding`).
  This is the contract the data-binding tests pin down. `StateManager` holds a map from entity instance
  to state. Instances are `EntityObject` references, so identity is reference identity. The manager also
  holds a cache of `LocalView` objects, one per type. A view's membership is the derived set
  `LocalMembers`: the tracked instances of the view's type or a subtype whose state is Unchanged,
  Modified or Added. Because the view is derived from the state manager, it is live by construction.
  Every operation is a method whose postcondition gives the new map as a pure function of the old one
  (`WithState`, `AfterLocalAdd`, `Loaded`). The lemmas then state how each of those functions moves
  entities into and out of every view.

`wrappers.dfy` holds the `Option` and `Outcome` datatypes. They model nullable values and calls that
throw before changing anything.

Where a doc comment and the code disagree, the model follows the code. The doc comment of
`SetValueGeneratorFactory` says that null clears the factory, but the code rejects null with
`Check.NotNull`. The model rejects null.

## Model

| member | source | states |
|---|---|---|
| `BackingFieldConvention.ConventionOverridesOnlyConvention` | src/Microsoft.EntityFrameworkCore/Metadata/Conventions/Internal/BackingFieldConvention.cs:46 | Convention overrides a field-info source exactly when none is set or the current one is Convention, so an explicit or data-annotation field is never replaced |
| `BackingFieldConvention.OverridesIsTotalOrder` | src/Microsoft.EntityFrameworkCore/Metadata/Conventions/Internal/BackingFieldConvention.cs:46 | `Overrides` is reflexive, total, antisymmetric and transitive on configuration sources |
| `BackingFieldConvention.ToLowerInvariant` | src/Microsoft.EntityFrameworkCore/Metadata/Conventions/Internal/BackingFieldConvention.cs:69 | an upper-case ASCII letter maps to its lower-case letter; every other character is kept |
| `BackingFieldConvention.Camelize` | src/Microsoft.EntityFrameworkCore/Metadata/Conventions/Internal/BackingFieldConvention.cs:69 | the camel form has the same length, its first character is the lower-cased first character, and every later character is unchanged; it needs a non-empty name |
| `BackingFieldConvention.CamelizeIdempotent` | src/Microsoft.EntityFrameworkCore/Metadata/Conventions/Internal/BackingFieldConvention.cs:69 | camelizing a camelized name gives the same name |
| `BackingFieldConvention.CamelizeKeepsLowerCaseName` | src/Microsoft.EntityFrameworkCore/Metadata/Conventions/Internal/BackingFieldConvention.cs:69-79 | a name that does not start with an ASCII upper-case letter is its own camel form, so the `P` and `camel(P)` candidates coincide |
| `BackingFieldConvention.CandidateNames` | src/Microsoft.EntityFrameworkCore/Metadata/Conventions/Internal/BackingFieldConvention.cs:74-87 | seven names, the compiler-generated `<P>k__BackingField` first; each later one is `P` or `camel(P)`, bare or prefixed by `_` or `m_`, and every such name is among them |
| `BackingFieldConvention.FirstMatch` | src/Microsoft.EntityFrameworkCore/Metadata/Conventions/Internal/BackingFieldConvention.cs:74-89 | over a list of names: None exactly when no name is present with an assignable field type; otherwise the field under the first accepted name, and that first name exists |
| `BackingFieldConvention.TryMatchFieldName` | src/Microsoft.EntityFrameworkCore/Metadata/Conventions/Internal/BackingFieldConvention.cs:64-90 | the seven-way short-circuit chain equals `FirstMatch` over the candidates `<P>k__BackingField`, `P`, `camel(P)`, `_camel(P)`, `_P`, `m_camel(P)`, `m_P`, in that order |
| `BackingFieldConvention.FirstMatchUnrolled` | src/Microsoft.EntityFrameworkCore/Metadata/Conventions/Internal/BackingFieldConvention.cs:74-89 | on a seven-name list, the reference search is the same as the source's if-chain, candidate by candidate |
| `BackingFieldConvention.IncompatibleFieldIsSkipped` | src/Microsoft.EntityFrameworkCore/Metadata/Conventions/Internal/BackingFieldConvention.cs:74-87 | a name whose field exists but whose type is not assignable from the property type has no influence; the result is that of the list without it |
| `BackingFieldConvention.FirstInHierarchy` | src/Microsoft.EntityFrameworkCore/Metadata/Conventions/Internal/BackingFieldConvention.cs:48-55 | over the hierarchy in sequence order: None exactly when no type yields a match; otherwise the match on the first type that yields one, and the field belongs to a type of the hierarchy |
| `BackingFieldConvention.PropertyBase.constructor` | src/Microsoft.EntityFrameworkCore/Metadata/Conventions/Internal/BackingFieldConvention.cs:46-50 | a property with its name, CLR type and declaring type's hierarchy, and no field or field source set yet |
| `BackingFieldConvention.PropertyBase.SetFieldInfo` | src/Microsoft.EntityFrameworkCore/Metadata/Conventions/Internal/BackingFieldConvention.cs:53 | records the field and its configuration source |
| `BackingFieldConvention.Apply` | src/Microsoft.EntityFrameworkCore/Metadata/Conventions/Internal/BackingFieldConvention.cs:44-58 | if Convention does not override the current source, or no hierarchy type matches, the property is unchanged; otherwise its field is the `FirstInHierarchy` match and its source is Convention |
| `BackingFieldConvention.InternalPropertyBuilder.constructor` | src/Microsoft.EntityFrameworkCore/Metadata/Conventions/Internal/BackingFieldConvention.cs:24 | a builder whose `Metadata` is the given property |
| `BackingFieldConvention.ApplyToPropertyBuilder` | src/Microsoft.EntityFrameworkCore/Metadata/Conventions/Internal/BackingFieldConvention.cs:22-27 | returns the builder it was given, after applying the convention to the builder's property |
| `BackingFieldConvention.ApplyToRelationshipBuilder` | src/Microsoft.EntityFrameworkCore/Metadata/Conventions/Internal/BackingFieldConvention.cs:33-38 | returns the relationship builder it was given, after applying the convention to the navigation |
| `MutablePropertyExtensions.WithAnnotation` | src/Microsoft.EntityFrameworkCore/Extensions/MutablePropertyExtensions.cs:42-86 | the indexer write each setter makes (lines 42, 61, 74 and 86): the key holds exactly the value written, or is absent for null; every other key is present and equal exactly as before |
| `MutablePropertyExtensions.ReadBackAfterWrite` | src/Microsoft.EntityFrameworkCore/Extensions/MutablePropertyExtensions.cs:81-86 | reading an annotation back after writing it gives what was written, null included |
| `MutablePropertyExtensions.DistinctWritesCommute` | src/Microsoft.EntityFrameworkCore/Extensions/MutablePropertyExtensions.cs:35-87 | writes to two different annotation keys commute, so no setter can observe another's key |
| `MutablePropertyExtensions.AnnotationNamesDistinct` | src/Microsoft.EntityFrameworkCore/Extensions/MutablePropertyExtensions.cs:42-86 | the four setters write four different keys |
| `MutablePropertyExtensions.MutableProperty.constructor` | src/Microsoft.EntityFrameworkCore/Extensions/MutablePropertyExtensions.cs:36 | a property whose annotation table is the given one |
| `MutablePropertyExtensions.SetValueGeneratorFactory` | src/Microsoft.EntityFrameworkCore/Extensions/MutablePropertyExtensions.cs:35-43 | a null factory fails with ArgumentNull and leaves the table unchanged; otherwise the factory is stored under its key and nothing else changes |
| `MutablePropertyExtensions.SetMaxLength` | src/Microsoft.EntityFrameworkCore/Extensions/MutablePropertyExtensions.cs:51-62 | fails with ArgumentOutOfRange exactly for a negative length, leaving the table unchanged; otherwise null, zero or a positive length is stored exactly under MaxLength (null clears it) and nothing else changes |
| `MutablePropertyExtensions.SetPropertyAccessMode` | src/Microsoft.EntityFrameworkCore/Extensions/MutablePropertyExtensions.cs:69-75 | stores the mode under its key, null clears it, and no other key changes |
| `MutablePropertyExtensions.IsUnicode` | src/Microsoft.EntityFrameworkCore/Extensions/MutablePropertyExtensions.cs:82-87 | stores true or false under Unicode, null clears it, and no other key changes |
| `Databinding.IsAssignable` | src/Microsoft.EntityFrameworkCore.Specification.Tests/DatabindingTestBase.cs:324-337 | every type is assignable to itself, and a type with no base type is assignable only to itself |
| `Databinding.EntityObject.constructor` | src/Microsoft.EntityFrameworkCore.Specification.Tests/DatabindingTestBase.cs:50-63 | a new entity instance of the given type and key |
| `Databinding.StateOf` | src/Microsoft.EntityFrameworkCore.Specification.Tests/DatabindingTestBase.cs:251 | an untracked instance is Detached; a tracked one has its recorded state |
| `Databinding.LocalMembers` | src/Microsoft.EntityFrameworkCore.Specification.Tests/DatabindingTestBase.cs:74-77 | a view holds only tracked instances of its type or a subtype that are neither Deleted nor Detached, and holds every such instance |
| `Databinding.WithState` | src/Microsoft.EntityFrameworkCore.Specification.Tests/DatabindingTestBase.cs:166-232 | after setting a state the instance reports that state, every other instance keeps its state, and no Detached entry is ever stored |
| `Databinding.AfterLocalAdd` | src/Microsoft.EntityFrameworkCore.Specification.Tests/DatabindingTestBase.cs:270-302 | after `Local.Add` the instance is in a visible state; an instance already visible leaves the tracker unchanged; every other instance keeps its state |
| `Databinding.Materialize` | src/Microsoft.EntityFrameworkCore.Specification.Tests/DatabindingTestBase.cs:119-130 | materializing one result tracks it, as Unchanged when it was new, and keeps every tracked state |
| `Databinding.AssignableUnderLargerMap` | src/Microsoft.EntityFrameworkCore.Specification.Tests/DatabindingTestBase.cs:424-426 | adding base-type entries to the hierarchy never breaks an existing subtype relation |
| `Databinding.AssignableSplit` | src/Microsoft.EntityFrameworkCore.Specification.Tests/DatabindingTestBase.cs:424-426 | a chain of base types from `b` to `c` either avoids a type `a` or passes through it, and then `a` reaches `c` |
| `Databinding.IsAssignableTransitive` | src/Microsoft.EntityFrameworkCore.Specification.Tests/DatabindingTestBase.cs:424-426 | a subtype of a subtype of T is a subtype of T, for every hierarchy |
| `Databinding.SubtypeViewNests` | src/Microsoft.EntityFrameworkCore.Specification.Tests/DatabindingTestBase.cs:424-426 | the view of a subtype is contained in the view of each of its base types, so every tracked TestDriver is in both the TestDriver and the Driver view |
| `Databinding.DirectBaseIsAssignable` | src/Microsoft.EntityFrameworkCore.Specification.Tests/DatabindingTestBase.cs:324-337 | an instance of a type is an instance of that type's base type |
| `Databinding.F1Hierarchy` | src/Microsoft.EntityFrameworkCore.Specification.Tests/DatabindingTestBase.cs:416-429 | in the F1 model a TestDriver is a Driver; a Driver is not a TestDriver; neither is a Team, and a Team is not a Driver |
| `Databinding.Loaded` | src/Microsoft.EntityFrameworkCore.Specification.Tests/DatabindingTestBase.cs:396-405 | after a load, the tracked instances are the old ones plus the results; old entries keep their state and new results are Unchanged |
| `Databinding.ViewAfterStateChange` | src/Microsoft.EntityFrameworkCore.Specification.Tests/DatabindingTestBase.cs:66-232 | after any state change the view of T gains the entity when it is of T or a subtype and the new state is visible, loses it when the new state is Deleted or Detached, and is unchanged for an entity of an unrelated type |
| `Databinding.EnteringTheView` | src/Microsoft.EntityFrameworkCore.Specification.Tests/DatabindingTestBase.cs:200-232 | setting a visible state on an entity of T or a subtype adds exactly that entity to the view, whatever its previous state; this covers Add, Attach and Deleted to Added or Unchanged |
| `Databinding.LeavingTheView` | src/Microsoft.EntityFrameworkCore.Specification.Tests/DatabindingTestBase.cs:132-198 | Remove or setting Deleted or Detached removes exactly that entity from every view |
| `Databinding.UnrelatedTypeLeavesViewUnchanged` | src/Microsoft.EntityFrameworkCore.Specification.Tests/DatabindingTestBase.cs:304-322 | tracking an entity whose type is neither T nor a subtype of T leaves the view of T as it was |
| `Databinding.LocalAddRules` | src/Microsoft.EntityFrameworkCore.Specification.Tests/DatabindingTestBase.cs:270-302 | `Local.Add` makes an untracked or Deleted entity Added and leaves a tracked Unchanged, Modified or Added entity as it was; afterwards the entity is a member |
| `Databinding.LoadedView` | src/Microsoft.EntityFrameworkCore.Specification.Tests/DatabindingTestBase.cs:407-430 | after a load, each view gains exactly the newly tracked results of its type or a subtype |
| `Databinding.SubsetCardinality` | src/Microsoft.EntityFrameworkCore.Specification.Tests/DatabindingTestBase.cs:420-422 | a subset has at most as many elements as its superset, so a view never counts more than the tracker holds |
| `Databinding.DistinctElementsCount` | src/Microsoft.EntityFrameworkCore.Specification.Tests/DatabindingTestBase.cs:128 | a sequence of distinct instances holds as many instances as its length |
| `Databinding.LoadedIntoEmptyView` | src/Microsoft.EntityFrameworkCore.Specification.Tests/DatabindingTestBase.cs:119-130 | loading results of T into an empty context puts every one of them, and nothing else, in the view of T |
| `Databinding.LoadIntoEmptyContext` | src/Microsoft.EntityFrameworkCore.Specification.Tests/DatabindingTestBase.cs:119-130 | loading distinct results of T into an empty context tracks exactly as many instances as there are results, and the view of T counts exactly that many |
| `Databinding.StateManager.constructor` | src/Microsoft.EntityFrameworkCore.Specification.Tests/DatabindingTestBase.cs:376-394 | a new context tracks nothing and has created no view yet |
| `Databinding.StateManager.State` | src/Microsoft.EntityFrameworkCore.Specification.Tests/DatabindingTestBase.cs:251 | `context.Entry(e).State`: Detached for an untracked instance, otherwise its recorded state |
| `Databinding.StateManager.Local` | src/Microsoft.EntityFrameworkCore.Specification.Tests/DatabindingTestBase.cs:339-348 | the first access creates the view of the type, every later access returns the same cached instance, and no entity's state changes |
| `Databinding.StateManager.Add` | src/Microsoft.EntityFrameworkCore.Specification.Tests/DatabindingTestBase.cs:81-98 | a new entity is tracked as Added and nothing else changes |
| `Databinding.StateManager.Attach` | src/Microsoft.EntityFrameworkCore.Specification.Tests/DatabindingTestBase.cs:100-117 | a new entity is tracked as Unchanged and nothing else changes |
| `Databinding.StateManager.Remove` | src/Microsoft.EntityFrameworkCore.Specification.Tests/DatabindingTestBase.cs:149-164 | a tracked, not-Added entity becomes Deleted and nothing else changes |
| `Databinding.StateManager.SetState` | src/Microsoft.EntityFrameworkCore.Specification.Tests/DatabindingTestBase.cs:166-232 | Detached stops tracking the entity; any other state is recorded; nothing else changes |
| `Databinding.StateManager.Load` | src/Microsoft.EntityFrameworkCore.Specification.Tests/DatabindingTestBase.cs:119-130 | each materialized result enters the state manager Unchanged unless it is already tracked |
| `Databinding.StateManager.Find` | src/Microsoft.EntityFrameworkCore.Specification.Tests/DatabindingTestBase.cs:234-253 | returns a tracked instance of T or a subtype with the key, and None exactly when no tracked instance has both |
| `Databinding.LocalView.constructor` | src/Microsoft.EntityFrameworkCore.Specification.Tests/DatabindingTestBase.cs:339-348 | a view of the given type over the given context |
| `Databinding.LocalView.Members` | src/Microsoft.EntityFrameworkCore.Specification.Tests/DatabindingTestBase.cs:424-429 | the live contents: exactly the tracked instances of the view's type or a subtype in a visible state |
| `Databinding.LocalView.Count` | src/Microsoft.EntityFrameworkCore.Specification.Tests/DatabindingTestBase.cs:383-392 | `local.Count` is at most the number of tracked instances, and zero exactly when no tracked instance is contained |
| `Databinding.LocalView.Contains` | src/Microsoft.EntityFrameworkCore.Specification.Tests/DatabindingTestBase.cs:424-429 | `local.Contains(e)` holds exactly when e is of the view's type or a subtype and its state is Unchanged, Modified or Added |
| `Databinding.LocalView.Add` | src/Microsoft.EntityFrameworkCore.Specification.Tests/DatabindingTestBase.cs:234-253 | applies the `Local.Add` rules to the state manager, keeps every view cached, and the entity is then a member |
| `Databinding.LocalView.Remove` | src/Microsoft.EntityFrameworkCore.Specification.Tests/DatabindingTestBase.cs:255-268 | a tracked, not-Added member becomes Deleted in the state manager and leaves the view |
| `Databinding.LoadedDrivers` | src/Microsoft.EntityFrameworkCore.Specification.Tests/DatabindingTestBase.cs:37-40 | after loading into an empty context every driver is in the view, so the snapshot to remove is the whole deleted team |
| `Databinding.RemovalStep` | src/Microsoft.EntityFrameworkCore.Specification.Tests/DatabindingTestBase.cs:40-43 | removing one more driver of the snapshot marks it Deleted and nothing else |
| `Databinding.RemoveAll` | src/Microsoft.EntityFrameworkCore.Specification.Tests/DatabindingTestBase.cs:40-43 | removing every driver of the snapshot leaves each deleted-team driver Deleted, every other driver Unchanged, and the view cache as it was |
| `Databinding.SetupContext` | src/Microsoft.EntityFrameworkCore.Specification.Tests/DatabindingTestBase.cs:35-64 | on a new context: every loaded driver of the deleted team is Deleted, every other loaded driver stays Unchanged, and two new distinct drivers are Added |
| `Databinding.SetupContextView` | src/Microsoft.EntityFrameworkCore.Specification.Tests/DatabindingTestBase.cs:66-78 | after SetupContext the Driver view is exactly the drivers outside the deleted team plus the two added ones, so there are no Deleted drivers in it |

## Left out

- Real reflection (`GetRuntimeFields`, `IsAssignableFrom`, `GetTypesInHierarchy`) is a parameter: the
  `Reflection` value and `PropertyBase.typesInHierarchy`. A map holds one field per name, so the
  exception `ToDictionary` throws for two runtime fields with the same name is not modelled.
- `BackingFieldConvention.ToLowerInvariant`, `BackingFieldConvention.Camelize`,
  `BackingFieldConvention.CamelizeKeepsLowerCaseName`: handle the ASCII letters only. Non-ASCII letters, which
  .NET also lower-cases, are kept unchanged, because the model has no Unicode case tables.
- `BackingFieldConvention.TryMatchFieldName`, `BackingFieldConvention.Apply`,
  `BackingFieldConvention.ApplyToPropertyBuilder`, `BackingFieldConvention.ApplyToRelationshipBuilder`:
  require a non-empty property name. The source indexes `propertyName[0]`, which throws for an empty
  name; Apply reaches that index only when the override guard at line 46 passes and the hierarchy is
  non-empty, while the model demands a non-empty name in every case.
- ConfigurationSource.cs is not part of this model. `Overrides` uses the ranking Explicit above
  DataAnnotation above Convention, and an unset source is overridden by any source.
- `BackingFieldConvention.PropertyBase.SetFieldInfo`: records the field and its source only. Its
  validation and the conventions it would run when `runConventions` is true belong to the `PropertyBase`
  class, which is not part of this model; Apply passes false.
- The annotation indexer (`property[name] = value`) belongs to the `Annotatable` class,
  which is not part of this model. Based on the setters' doc comments
  ("null to clear"), the model has null remove the key and any other value set it.
- `PropertyAccessMode` is modelled with the three members Field, FieldDuringConstruction and Property.
  A value generator factory is known only by an identity number.
- `GetContainingForeignKeys`, `GetContainingPrimaryKey`, `GetContainingKeys` and `SetField` are
  delegations to metadata classes `Property` and `EntityType`, which are not part of this model.
- The four setters' `Check.NotNull(property, ...)`: a null property, which throws
  ArgumentNullException, cannot be expressed, because `MutableProperty` is a non-null reference type.
- `Databinding.StateManager.Add`, `Databinding.StateManager.Attach`: defined only for untracked
  entities. DatabindingTestBase never adds or attaches a tracked entity, and the state manager that
  would decide that case is not part of this model.
- `Databinding.StateManager.Remove`, `Databinding.LocalView.Remove`: defined only for tracked entities
  that are not Added. DatabindingTestBase only removes Unchanged entities and does not assert what
  removing an Added or untracked entity does.
- `Databinding.StateManager.SetState`: records any requested state from any starting state.
  DatabindingTestBase exercises only Unchanged to Detached (lines 142, 193), Unchanged to Deleted
  (line 176), Deleted to Added (line 210) and Deleted to Unchanged (line 227). The other transitions,
  Added to Deleted among them, are not asserted there, so the model's recording of them is not a
  statement about EF Core's state manager.
- `Databinding.StateManager.Find`: looks only among tracked entities. The database query that `Find`
  falls back on is left out. Key uniqueness across tracked entities (the identity map) is not an
  invariant of the model, so Find may return any tracked entity with the key.
- Property changes (`driver.Races = 5`) do not change states. Automatic change detection
  (`DetectChanges`, `AutoDetectChangesEnabled`) is not modelled. Contexts are created with it switched
  off (DatabindingTestBase.cs line 750); the one test that switches it on
  (`DbSet_Local_does_not_call_DetectChanges`, lines 351-373) is left out.
- Binding lists (`ToBindingList`), sorting through `TypeDescriptor`, and navigation-property binding
  lists are left out. They are UI binding, and their reconciliation depends on change detection and
  relationship fixup, which are not part of this model.
- Database-dependent facts are left out: the seed data counts (42, 20, 12, the team sizes) and running
  queries. `Load` gets its materialized results as a parameter, and `SetupContext` gets the loaded
  drivers and the deleted team's drivers as parameters.
- Errors for a view used after its context is disposed, and for an instance that changes type, are not
  asserted by DatabindingTestBase and are not modelled.
- `Databinding.LocalMembers`, `Databinding.LocalView.Members`: `Local` is an ordered observable
  collection, but the model's view is a set, so insertion order is not modelled. The source caches
  the view on each `DbSet` (lines 339-348); the model caches it per entity type in `StateManager`,
  which is the same thing only while each type has one set per context.
- Change notifications to view observers, and concurrency, are not modelled. A view is derived from
  the state manager on every read.
- The tool entry points, the AppDomain executor, the SQL Server test fixture and the relational DbSet
  wrapper are process plumbing with no logic of the core.
