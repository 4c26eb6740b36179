/** Entity tracking and the per-type Local view of a context.

    A context's state manager records, for each tracked entity instance, its
    lifecycle state. `DbSet<T>.Local` is a view of the state manager: the
    tracked instances of T or of a subtype of T that are Unchanged, Modified
    or Added. The view is cached per type and live: it is derived from the
    state manager, so it shows every later change. */
module Databinding {
  import opened Wrappers

  /** An entity type, identified by its CLR name. */
  type EntityType = string

  /** The entity types of the F1 model the scenarios use. */
  const Driver: EntityType := "Driver"
  const TestDriver: EntityType := "TestDriver"
  const Team: EntityType := "Team"

  /** TestDriver derives from Driver; Team is unrelated to both. */
  const F1BaseTypes: map<EntityType, EntityType> := map[TestDriver := Driver]

  datatype EntityState = Detached | Unchanged | Deleted | Modified | Added

  /** The states whose entities appear in a Local view. */
  predicate IsVisible(state: EntityState)
  {
    state == Unchanged || state == Modified || state == Added
  }

  /** An entity instance. Its identity is reference identity; its CLR type and
      key value never change while it is tracked. */
  class EntityObject {
    const entityType: EntityType
    const key: int

    constructor (entityType: EntityType, key: int)
      ensures this.entityType == entityType && this.key == key
    {
      this.entityType := entityType;
      this.key := key;
    }
  }

  /** The state manager's table: one entry per tracked instance. Detached
      instances have no entry. */
  type Entries = map<EntityObject, EntityState>

  /** An instance of `candidate` is an instance of `requested`: the two are
      equal, or `requested` lies on the chain of base types above `candidate`.
      Each type is left out of the map once visited, so a cyclic map cannot
      make the walk loop. */
  predicate IsAssignable(candidate: EntityType, requested: EntityType, baseTypes: map<EntityType, EntityType>)
    ensures candidate == requested ==> IsAssignable(candidate, requested, baseTypes)
    ensures IsAssignable(candidate, requested, baseTypes) && candidate != requested ==> candidate in baseTypes
    decreases baseTypes.Keys
  {
    || candidate == requested
    || (candidate in baseTypes && IsAssignable(baseTypes[candidate], requested, baseTypes - {candidate}))
  }

  /** Every type is assignable to its own base type. */
  lemma DirectBaseIsAssignable(candidate: EntityType, baseTypes: map<EntityType, EntityType>)
    requires candidate in baseTypes
    ensures IsAssignable(candidate, baseTypes[candidate], baseTypes)
  {
  }

  /** Assignability under a map stays true under any map that extends it. */
  lemma {:induction false} AssignableUnderLargerMap(candidate: EntityType, requested: EntityType,
                                                    small: map<EntityType, EntityType>, large: map<EntityType, EntityType>)
    requires forall k :: k in small ==> k in large && large[k] == small[k]
    requires IsAssignable(candidate, requested, small)
    ensures IsAssignable(candidate, requested, large)
    decreases small.Keys
  {
    if candidate != requested {
      AssignableUnderLargerMap(small[candidate], requested, small - {candidate}, large - {candidate});
    }
  }

  /** A chain from `b` to `c` either avoids the type `a`, or passes through it,
      in which case `a` itself reaches `c`. */
  lemma {:induction false} AssignableSplit(b: EntityType, c: EntityType, a: EntityType,
                                           baseTypes: map<EntityType, EntityType>)
    requires IsAssignable(b, c, baseTypes)
    ensures IsAssignable(b, c, baseTypes - {a}) || IsAssignable(a, c, baseTypes)
    decreases baseTypes.Keys
  {
    if b != c && b != a {
      var rest := baseTypes - {b};
      AssignableSplit(baseTypes[b], c, a, rest);
      if IsAssignable(baseTypes[b], c, rest - {a}) {
        assert rest - {a} == (baseTypes - {a}) - {b};
        assert IsAssignable(b, c, baseTypes - {a});
      } else {
        AssignableUnderLargerMap(a, c, rest, baseTypes);
      }
    }
  }

  /** A subtype of a subtype is a subtype. */
  lemma {:induction false} IsAssignableTransitive(a: EntityType, b: EntityType, c: EntityType,
                                                  baseTypes: map<EntityType, EntityType>)
    requires IsAssignable(a, b, baseTypes) && IsAssignable(b, c, baseTypes)
    ensures IsAssignable(a, c, baseTypes)
    decreases baseTypes.Keys
  {
    if a != b {
      AssignableSplit(b, c, a, baseTypes);
      if IsAssignable(b, c, baseTypes - {a}) {
        IsAssignableTransitive(baseTypes[a], b, c, baseTypes - {a});
      }
    }
  }

  /** In the F1 model, a TestDriver is a Driver, and neither is a Team. */
  lemma F1Hierarchy()
    ensures IsAssignable(TestDriver, Driver, F1BaseTypes)
    ensures IsAssignable(TestDriver, TestDriver, F1BaseTypes)
    ensures !IsAssignable(Driver, TestDriver, F1BaseTypes)
    ensures !IsAssignable(Driver, Team, F1BaseTypes) && !IsAssignable(TestDriver, Team, F1BaseTypes)
    ensures !IsAssignable(Team, Driver, F1BaseTypes)
  {
    assert F1BaseTypes - {TestDriver} == map[];
  }

  /** `context.Entry(e).State`: Detached for an instance that is not tracked. */
  function StateOf(entries: Entries, e: EntityObject): (r: EntityState)
    ensures e !in entries ==> r == Detached
    ensures e in entries ==> r == entries[e]
  {
    if e in entries then entries[e] else Detached
  }

  /** The membership of the Local view of `elementType`. */
  function LocalMembers(entries: Entries, baseTypes: map<EntityType, EntityType>, elementType: EntityType)
    : (r: set<EntityObject>)
    ensures r <= entries.Keys
    ensures forall e :: e in r ==> IsAssignable(e.entityType, elementType, baseTypes)
    ensures forall e :: e in r ==> StateOf(entries, e) != Deleted && StateOf(entries, e) != Detached
    ensures forall e :: (e in entries && IsAssignable(e.entityType, elementType, baseTypes)
                         && entries[e] != Deleted && entries[e] != Detached) ==> e in r
  {
    set e | e in entries && IsAssignable(e.entityType, elementType, baseTypes) && IsVisible(entries[e])
  }

  /** The view of a type contains the view of each of its subtypes. */
  lemma SubtypeViewNests(entries: Entries, baseTypes: map<EntityType, EntityType>,
                         subtype: EntityType, elementType: EntityType)
    requires IsAssignable(subtype, elementType, baseTypes)
    ensures LocalMembers(entries, baseTypes, subtype) <= LocalMembers(entries, baseTypes, elementType)
  {
    forall e | e in LocalMembers(entries, baseTypes, subtype)
      ensures e in LocalMembers(entries, baseTypes, elementType)
    {
      IsAssignableTransitive(e.entityType, subtype, elementType, baseTypes);
    }
  }

  /** Setting an entity's state: Detached stops tracking it, any other state
      is recorded, whether or not it was tracked before. */
  function WithState(entries: Entries, e: EntityObject, state: EntityState): (r: Entries)
    ensures StateOf(r, e) == state
    ensures r.Keys - {e} == entries.Keys - {e}
    ensures forall x :: x in entries && x != e ==> x in r && r[x] == entries[x]
    ensures (forall x :: x in entries ==> entries[x] != Detached) ==> (forall x :: x in r ==> r[x] != Detached)
  {
    if state == Detached then entries - {e} else entries[e := state]
  }

  /** What `Local.Add(e)` does to the state manager: an untracked or Deleted
      instance becomes Added, any other tracked instance keeps its state. */
  function AfterLocalAdd(entries: Entries, e: EntityObject): (r: Entries)
    ensures IsVisible(StateOf(r, e))
    ensures IsVisible(StateOf(entries, e)) ==> r == entries
    ensures r.Keys - {e} == entries.Keys - {e}
    ensures forall x :: x in entries && x != e ==> x in r && r[x] == entries[x]
  {
    if StateOf(entries, e) == Detached || StateOf(entries, e) == Deleted then entries[e := Added] else entries
  }

  /** Materializing one query result: a new instance starts Unchanged, an
      instance already tracked keeps its state. */
  function Materialize(entries: Entries, e: EntityObject): (r: Entries)
    ensures r.Keys == entries.Keys + {e}
    ensures e !in entries ==> r[e] == Unchanged
    ensures forall x :: x in entries ==> r[x] == entries[x]
  {
    if e in entries then entries else entries[e := Unchanged]
  }

  /** The state manager after materializing `results` in order. */
  function Loaded(entries: Entries, results: seq<EntityObject>): (r: Entries)
    ensures r.Keys == entries.Keys + (set e | e in results)
    ensures forall e :: e in entries ==> r[e] == entries[e]
    ensures forall e :: e in results && e !in entries ==> r[e] == Unchanged
    decreases |results|
  {
    if results == [] then entries
    else
      var front := results[..|results| - 1];
      var last := results[|results| - 1];
      assert (set e | e in results) == (set e | e in front) + {last};
      Materialize(Loaded(entries, front), last)
  }

  /** The whole view contract for one state change: the entity joins the view
      of `elementType` when its new state is visible and its type is
      `elementType` or a subtype, leaves it when the new state is Deleted or
      Detached, and views of unrelated types do not change. */
  lemma {:induction false} ViewAfterStateChange(entries: Entries, baseTypes: map<EntityType, EntityType>,
                                                elementType: EntityType, e: EntityObject, state: EntityState)
    ensures LocalMembers(WithState(entries, e, state), baseTypes, elementType)
         == if !IsAssignable(e.entityType, elementType, baseTypes) then LocalMembers(entries, baseTypes, elementType)
            else if IsVisible(state) then LocalMembers(entries, baseTypes, elementType) + {e}
            else LocalMembers(entries, baseTypes, elementType) - {e}
  {
    var before := LocalMembers(entries, baseTypes, elementType);
    var after := LocalMembers(WithState(entries, e, state), baseTypes, elementType);
    var expected := if !IsAssignable(e.entityType, elementType, baseTypes) then before
                    else if IsVisible(state) then before + {e}
                    else before - {e};
    forall x | x in after
      ensures x in expected
    {
      if x != e {
        assert x in entries && WithState(entries, e, state)[x] == entries[x];
      }
    }
    forall x | x in expected
      ensures x in after
    {
      if x != e {
        assert x in before;
        assert x in WithState(entries, e, state) && WithState(entries, e, state)[x] == entries[x];
      }
    }
  }

  /** Add, Attach, or setting the state to Added, Unchanged or Modified puts an
      entity of `elementType` or a subtype into the view, whatever its state was. */
  lemma EnteringTheView(entries: Entries, baseTypes: map<EntityType, EntityType>,
                        elementType: EntityType, e: EntityObject, state: EntityState)
    requires IsAssignable(e.entityType, elementType, baseTypes) && IsVisible(state)
    ensures LocalMembers(WithState(entries, e, state), baseTypes, elementType)
         == LocalMembers(entries, baseTypes, elementType) + {e}
  {
    ViewAfterStateChange(entries, baseTypes, elementType, e, state);
  }

  /** Remove, or setting the state to Deleted or Detached, takes the entity out
      of every view and touches no other member. */
  lemma LeavingTheView(entries: Entries, baseTypes: map<EntityType, EntityType>,
                       elementType: EntityType, e: EntityObject, state: EntityState)
    requires state == Deleted || state == Detached
    ensures LocalMembers(WithState(entries, e, state), baseTypes, elementType)
         == LocalMembers(entries, baseTypes, elementType) - {e}
  {
    ViewAfterStateChange(entries, baseTypes, elementType, e, state);
    if !IsAssignable(e.entityType, elementType, baseTypes) {
      assert e !in LocalMembers(entries, baseTypes, elementType);
    }
  }

  /** Tracking, or changing the state of, an entity whose type is neither
      `elementType` nor a subtype of it leaves that view as it was. */
  lemma UnrelatedTypeLeavesViewUnchanged(entries: Entries, baseTypes: map<EntityType, EntityType>,
                                         elementType: EntityType, e: EntityObject, state: EntityState)
    requires !IsAssignable(e.entityType, elementType, baseTypes)
    ensures LocalMembers(WithState(entries, e, state), baseTypes, elementType)
         == LocalMembers(entries, baseTypes, elementType)
  {
    ViewAfterStateChange(entries, baseTypes, elementType, e, state);
  }

  /** The three rules of `Local.Add`, and the entity is a member afterwards. */
  lemma LocalAddRules(entries: Entries, baseTypes: map<EntityType, EntityType>,
                      elementType: EntityType, e: EntityObject)
    requires IsAssignable(e.entityType, elementType, baseTypes)
    ensures StateOf(entries, e) == Detached ==> StateOf(AfterLocalAdd(entries, e), e) == Added
    ensures StateOf(entries, e) == Deleted ==> StateOf(AfterLocalAdd(entries, e), e) == Added
    ensures IsVisible(StateOf(entries, e)) ==> AfterLocalAdd(entries, e) == entries
    ensures LocalMembers(AfterLocalAdd(entries, e), baseTypes, elementType)
         == LocalMembers(entries, baseTypes, elementType) + {e}
  {
    if StateOf(entries, e) == Detached || StateOf(entries, e) == Deleted {
      assert AfterLocalAdd(entries, e) == WithState(entries, e, Added);
      EnteringTheView(entries, baseTypes, elementType, e, Added);
    } else {
      assert e in LocalMembers(entries, baseTypes, elementType);
    }
  }

  /** Loading adds to each view exactly the new query results of its type;
      nothing already tracked changes state. */
  lemma LoadedView(entries: Entries, baseTypes: map<EntityType, EntityType>,
                   elementType: EntityType, results: seq<EntityObject>)
    ensures LocalMembers(Loaded(entries, results), baseTypes, elementType)
         == LocalMembers(entries, baseTypes, elementType)
            + (set m | m in results && m !in entries && IsAssignable(m.entityType, elementType, baseTypes))
  {
  }

  /** A subset is no larger than its superset. */
  lemma {:induction false} SubsetCardinality(a: set<EntityObject>, b: set<EntityObject>)
    requires a <= b
    ensures |a| <= |b|
    decreases b
  {
    if a != {} {
      var x :| x in a;
      SubsetCardinality(a - {x}, b - {x});
    }
  }

  /** The instances of a sequence without repetitions are as many as its length. */
  lemma {:induction false} DistinctElementsCount(s: seq<EntityObject>)
    requires forall i, j :: 0 <= i < j < |s| ==> s[i] != s[j]
    ensures |set x | x in s| == |s|
  {
    if s != [] {
      var rest := s[1..];
      DistinctElementsCount(rest);
      assert (set x | x in s) == (set x | x in rest) + {s[0]};
      assert s[0] !in rest;
    }
  }

  /** Loading results of `elementType` into an empty context puts all of them,
      and nothing else, in its view. */
  lemma LoadedIntoEmptyView(baseTypes: map<EntityType, EntityType>, elementType: EntityType,
                            results: seq<EntityObject>)
    requires forall m :: m in results ==> IsAssignable(m.entityType, elementType, baseTypes)
    ensures LocalMembers(Loaded(map[], results), baseTypes, elementType) == set m | m in results
  {
    var empty: Entries := map[];
    LoadedView(empty, baseTypes, elementType, results);
    assert LocalMembers(empty, baseTypes, elementType) == {};
    assert (set m | m in results && m !in empty && IsAssignable(m.entityType, elementType, baseTypes))
        == set m | m in results;
  }

  /** Loading distinct results of `elementType` into an empty context: the
      state manager tracks, and the view counts, exactly as many instances as
      there are results. */
  lemma LoadIntoEmptyContext(baseTypes: map<EntityType, EntityType>, elementType: EntityType,
                             results: seq<EntityObject>)
    requires forall i, j :: 0 <= i < j < |results| ==> results[i] != results[j]
    requires forall m :: m in results ==> IsAssignable(m.entityType, elementType, baseTypes)
    ensures |Loaded(map[], results)| == |results|
    ensures |LocalMembers(Loaded(map[], results), baseTypes, elementType)| == |results|
  {
    var r := Loaded(map[], results);
    DistinctElementsCount(results);
    assert r.Keys == set m | m in results;
    assert |r| == |r.Keys|;
    LoadedIntoEmptyView(baseTypes, elementType, results);
  }

  /** A context's state manager, with its cache of Local views by type. */
  class StateManager {
    /** The model's type hierarchy: each entity type's base type. */
    const baseTypes: map<EntityType, EntityType>
    var entries: Entries
    var localViews: map<EntityType, LocalView>

    ghost predicate Valid()
      reads this
    {
      && (forall e :: e in entries ==> entries[e] != Detached)
      && (forall t :: t in localViews ==> localViews[t].manager == this && localViews[t].elementType == t)
    }

    /** A new context: nothing tracked, no view created yet. */
    constructor (baseTypes: map<EntityType, EntityType>)
      ensures Valid()
      ensures this.baseTypes == baseTypes && entries == map[] && localViews == map[]
    {
      this.baseTypes := baseTypes;
      entries := map[];
      localViews := map[];
    }

    /** `context.Entry(e).State`. */
    function State(e: EntityObject): (r: EntityState)
      reads this
      ensures e !in entries ==> r == Detached
      ensures e in entries ==> r == entries[e]
    {
      StateOf(entries, e)
    }

    /** `DbSet<T>.Local`: created on first use, then the cached instance every
      time; getting it changes no entity's state. */
    method Local(elementType: EntityType) returns (view: LocalView)
      requires Valid()
      modifies this
      ensures Valid()
      ensures view.manager == this && view.elementType == elementType
      ensures elementType in old(localViews) ==> view == old(localViews)[elementType] && localViews == old(localViews)
      ensures elementType !in old(localViews) ==> fresh(view) && localViews == old(localViews)[elementType := view]
      ensures entries == old(entries)
    {
      if elementType in localViews {
        view := localViews[elementType];
      } else {
        view := new LocalView(this, elementType);
        localViews := localViews[elementType := view];
      }
    }

    /** `Add` of a new entity: it is tracked as Added. */
    method Add(e: EntityObject)
      requires Valid() && e !in entries
      modifies this
      ensures Valid()
      ensures entries == WithState(old(entries), e, Added) && localViews == old(localViews)
    {
      entries := entries[e := Added];
    }

    /** `Attach` of a new entity: it is tracked as Unchanged. */
    method Attach(e: EntityObject)
      requires Valid() && e !in entries
      modifies this
      ensures Valid()
      ensures entries == WithState(old(entries), e, Unchanged) && localViews == old(localViews)
    {
      entries := entries[e := Unchanged];
    }

    /** `Remove` of a tracked entity that is not Added: it becomes Deleted. */
    method Remove(e: EntityObject)
      requires Valid() && e in entries && entries[e] != Added
      modifies this
      ensures Valid()
      ensures entries == WithState(old(entries), e, Deleted) && localViews == old(localViews)
    {
      entries := entries[e := Deleted];
    }

    /** `context.Entry(e).State = state`. */
    method SetState(e: EntityObject, state: EntityState)
      requires Valid()
      modifies this
      ensures Valid()
      ensures entries == WithState(old(entries), e, state) && localViews == old(localViews)
    {
      if state == Detached {
        entries := entries - {e};
      } else {
        entries := entries[e := state];
      }
    }

    /** `Load()`: each materialized result enters the state manager Unchanged
      unless it is tracked already. */
    method Load(results: seq<EntityObject>)
      requires Valid()
      modifies this
      ensures Valid()
      ensures entries == Loaded(old(entries), results) && localViews == old(localViews)
    {
      for i := 0 to |results|
        invariant Valid()
        invariant entries == Loaded(old(entries), results[..i])
        invariant localViews == old(localViews)
      {
        assert results[..i + 1][..i] == results[..i];
        if results[i] !in entries {
          entries := entries[results[i] := Unchanged];
        }
      }
      assert results[..|results|] == results;
    }

    /** `DbSet<T>.Find(key)` among the tracked entities: a tracked instance of
      T or a subtype with that key, or None when the state manager has none. */
    method Find(elementType: EntityType, key: int) returns (r: Option<EntityObject>)
      ensures r.Some? ==> r.value in entries && r.value.key == key
                          && IsAssignable(r.value.entityType, elementType, baseTypes)
      ensures r.None? <==>
                forall e :: e in entries ==> !(e.key == key && IsAssignable(e.entityType, elementType, baseTypes))
    {
      var matches := set e | e in entries && e.key == key && IsAssignable(e.entityType, elementType, baseTypes);
      if matches == {} {
        assert forall e :: e in entries ==> e !in matches;
        r := None;
      } else {
        var e :| e in matches;
        r := Some(e);
      }
    }
  }

  /** `DbSet<T>.Local` of one context. */
  class LocalView {
    const manager: StateManager
    const elementType: EntityType

    constructor (manager: StateManager, elementType: EntityType)
      ensures this.manager == manager && this.elementType == elementType
    {
      this.manager := manager;
      this.elementType := elementType;
    }

    /** The live contents: recomputed from the state manager at every read. */
    function Members(): (r: set<EntityObject>)
      reads manager
      ensures r <= manager.entries.Keys
      ensures forall e :: e in manager.entries ==>
                (e in r <==> IsAssignable(e.entityType, elementType, manager.baseTypes) && IsVisible(manager.entries[e]))
    {
      LocalMembers(manager.entries, manager.baseTypes, elementType)
    }

    /** `local.Count`: never more than the state manager tracks. */
    function Count(): (r: nat)
      reads manager
      ensures r <= |manager.entries|
      ensures r == 0 <==> (forall e :: e in manager.entries ==> !Contains(e))
    {
      SubsetCardinality(Members(), manager.entries.Keys);
      |Members()|
    }

    /** `local.Contains(e)`. */
    predicate Contains(e: EntityObject)
      reads manager
      ensures Contains(e) <==> IsAssignable(e.entityType, elementType, manager.baseTypes) && IsVisible(manager.State(e))
    {
      e in Members()
    }

    /** `Local.Add(e)` for an instance of the view's type. */
    method Add(e: EntityObject)
      requires manager.Valid()
      requires IsAssignable(e.entityType, elementType, manager.baseTypes)
      modifies manager
      ensures manager.Valid()
      ensures manager.entries == AfterLocalAdd(old(manager.entries), e)
      ensures manager.localViews == old(manager.localViews)
      ensures Contains(e)
    {
      manager.entries := AfterLocalAdd(manager.entries, e);
      LocalAddRules(old(manager.entries), manager.baseTypes, elementType, e);
    }

    /** `Local.Remove(e)` of a tracked instance of the view's type that is not
      Added: it becomes Deleted in the state manager. */
    method Remove(e: EntityObject)
      requires manager.Valid()
      requires IsAssignable(e.entityType, elementType, manager.baseTypes)
      requires e in manager.entries && manager.entries[e] != Added
      modifies manager
      ensures manager.Valid()
      ensures manager.entries == WithState(old(manager.entries), e, Deleted)
      ensures manager.localViews == old(manager.localViews)
      ensures !Contains(e)
    {
      manager.entries := manager.entries[e := Deleted];
    }
  }

  /** The states SetupContext leaves the loaded drivers in. */
  function SetupStates(drivers: seq<EntityObject>, inDeletedTeam: set<EntityObject>): Entries
  {
    PendingRemoval(drivers, inDeletedTeam, {})
  }

  /** The loaded drivers while the removal loop of SetupContext still has
      `pending` left to remove. */
  function PendingRemoval(drivers: seq<EntityObject>, inDeletedTeam: set<EntityObject>, pending: set<EntityObject>)
    : Entries
  {
    map d | d in drivers :: if d in inDeletedTeam && d !in pending then Deleted else Unchanged
  }

  lemma RemovalStep(drivers: seq<EntityObject>, inDeletedTeam: set<EntityObject>, pending: set<EntityObject>,
                    d: EntityObject)
    requires d in drivers && d in inDeletedTeam && d in pending
    ensures PendingRemoval(drivers, inDeletedTeam, pending)[d := Deleted]
         == PendingRemoval(drivers, inDeletedTeam, pending - {d})
  {
  }

  /** Right after loading into an empty context every driver is Unchanged and
      in the view, so the snapshot to remove is the whole deleted team. */
  lemma LoadedDrivers(baseTypes: map<EntityType, EntityType>, drivers: seq<EntityObject>,
                      inDeletedTeam: set<EntityObject>)
    requires forall d :: d in drivers ==> IsAssignable(d.entityType, Driver, baseTypes)
    ensures LocalMembers(Loaded(map[], drivers), baseTypes, Driver) == set d | d in drivers
    ensures Loaded(map[], drivers)
         == PendingRemoval(drivers, inDeletedTeam, set d | d in drivers && d in inDeletedTeam)
  {
    LoadedView(map[], baseTypes, Driver, drivers);
    var loaded := Loaded(map[], drivers);
    var pending := PendingRemoval(drivers, inDeletedTeam, set d | d in drivers && d in inDeletedTeam);
    assert loaded.Keys == pending.Keys;
    forall d | d in loaded.Keys
      ensures loaded[d] == pending[d]
    {
    }
  }

  /** The removal loop of SetupContext: removes every driver of the snapshot
      `doomed`, so the whole deleted team ends Deleted. */
  method RemoveAll(context: StateManager, drivers: seq<EntityObject>, inDeletedTeam: set<EntityObject>,
                   doomed: set<EntityObject>)
    requires context.Valid()
    requires forall d :: d in doomed ==> d in drivers && d in inDeletedTeam
    requires context.entries == PendingRemoval(drivers, inDeletedTeam, doomed)
    modifies context
    ensures context.Valid()
    ensures context.localViews == old(context.localViews)
    ensures context.entries == SetupStates(drivers, inDeletedTeam)
  {
    var pending := doomed;
    while pending != {}
      invariant context.Valid()
      invariant context.localViews == old(context.localViews)
      invariant forall d :: d in pending ==> d in drivers && d in inDeletedTeam
      invariant context.entries == PendingRemoval(drivers, inDeletedTeam, pending)
      decreases pending
    {
      var d :| d in pending;
      RemovalStep(drivers, inDeletedTeam, pending, d);
      context.Remove(d);
      pending := pending - {d};
    }
  }

  /** SetupContext on a new context: load all drivers, remove those of the
      deleted team (through a snapshot of the Local view), and add two new
      drivers. `drivers` are the query results; `inDeletedTeam` holds the
      drivers whose TeamId is the deleted team's. */
  method SetupContext(context: StateManager, drivers: seq<EntityObject>, inDeletedTeam: set<EntityObject>)
    returns (pedro: EntityObject, kamui: EntityObject)
    requires context.Valid() && context.entries == map[]
    requires forall d :: d in drivers ==> IsAssignable(d.entityType, Driver, context.baseTypes)
    modifies context
    ensures context.Valid()
    ensures fresh(pedro) && fresh(kamui) && pedro != kamui
    ensures pedro.entityType == Driver && kamui.entityType == Driver
    ensures context.entries == SetupStates(drivers, inDeletedTeam)[pedro := Added][kamui := Added]
  {
    context.Load(drivers);
    var local := context.Local(Driver);
    LoadedDrivers(context.baseTypes, drivers, inDeletedTeam);
    var doomed := set d | d in local.Members() && d in inDeletedTeam;
    assert doomed == set d | d in drivers && d in inDeletedTeam;
    RemoveAll(context, drivers, inDeletedTeam, doomed);
    // Setting Races on the drivers of the modified team changes a property
    // only: without change detection their state stays Unchanged.
    pedro := new EntityObject(Driver, 0);
    context.Add(pedro);
    kamui := new EntityObject(Driver, 0);
    context.Add(kamui);
  }

  /** After SetupContext, the Driver view holds the drivers not in the deleted
      team (Unchanged, including those of the modified team) and the two Added
      drivers, and none of the Deleted ones. */
  lemma SetupContextView(baseTypes: map<EntityType, EntityType>, drivers: seq<EntityObject>,
                         inDeletedTeam: set<EntityObject>, pedro: EntityObject, kamui: EntityObject)
    requires forall d :: d in drivers ==> IsAssignable(d.entityType, Driver, baseTypes)
    requires pedro.entityType == Driver && kamui.entityType == Driver
    ensures LocalMembers(SetupStates(drivers, inDeletedTeam)[pedro := Added][kamui := Added], baseTypes, Driver)
         == (set d | d in drivers && d !in inDeletedTeam) + {pedro, kamui}
  {
    var s := SetupStates(drivers, inDeletedTeam);
    assert LocalMembers(s, baseTypes, Driver) == set d | d in drivers && d !in inDeletedTeam;
    EnteringTheView(s, baseTypes, Driver, pedro, Added);
    EnteringTheView(s[pedro := Added], baseTypes, Driver, kamui, Added);
  }
}
