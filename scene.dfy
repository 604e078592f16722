/**
 * The scene graph (Source/Core/Scene/Scene.h, Scene.cpp,
 * Source/Core/Entity/Entity.h, Entity.cpp, Component.h): a scene owns its
 * entities in spawn order plus an ID lookup; an entity owns at most one
 * component per component type.
 *
 * The lifecycle hooks (Initialize, BeginPlay, EndPlay, Update, Render) are
 * empty in the base classes, so the iteration methods return the objects
 * they would call, in the order they would call them. The order of an
 * unordered_map's iteration is unspecified, so an entity reports the set of
 * components it visits. The process-wide counter an Entity draws from when
 * constructed with ID 0 is an object passed in.
 */
module SceneGraph {
  import opened Types

  /** std::type_index of a component class. */
  datatype ComponentType = TransformType | MeshType | OtherType(className: string)

  /** Component: an owner pointer and an active flag. */
  class Component {
    const kind: ComponentType
    var owner: Entity?
    var isActive: bool

    constructor (kind: ComponentType)
      ensures this.kind == kind && owner == null && isActive
    {
      this.kind := kind;
      owner := null;
      isActive := true;
    }

    method SetOwner(e: Entity?)
      modifies this`owner
      ensures owner == e
    {
      owner := e;
    }
  }

  /** The function-local static `nextID` of Entity's constructor. */
  class EntityIdCounter {
    var next: nat

    constructor ()
      ensures next == 1
    {
      next := 1;
    }
  }

  /** Entity: ID, name, active flag, scene pointer and one component per type. */
  class Entity {
    const id: nat
    var name: string
    var isActive: bool
    var scene: Scene?
    var components: map<ComponentType, Component>

    /** Entity(id): a non-zero ID is kept; ID 0 takes the next value of the process-wide counter. */
    constructor (id: nat, counter: EntityIdCounter)
      modifies counter
      ensures id != 0 ==> this.id == id && counter.next == old(counter.next)
      ensures id == 0 ==> this.id == old(counter.next) && counter.next == old(counter.next) + 1
      ensures name == "" && isActive && scene == null && components == map[]
    {
      if id == 0 {
        this.id := counter.next;
        counter.next := counter.next + 1;
      } else {
        this.id := id;
      }
      name := "";
      isActive := true;
      scene := null;
      components := map[];
    }

    /** GetComponentByType: the stored component of that type, or null. */
    function GetComponent(t: ComponentType): (c: Component?)
      reads this
      ensures c != null <==> t in components
      ensures c != null ==> c == components[t]
    {
      if t in components then components[t] else null
    }

    /** HasComponent<T>: whether a component of that type is stored. */
    predicate HasComponent(t: ComponentType): (has: bool)
      reads this
      ensures has <==> t in components
    {
      GetComponent(t) != null
    }

    /** RegisterComponent: stores c under t, replacing any component of that type. */
    method RegisterComponent(t: ComponentType, c: Component)
      modifies this`components
      ensures components == old(components)[t := c]
    {
      components := components[t := c];
    }

    /**
     * AddComponent<T>: an existing T is returned and kept; otherwise a new T
     * owned by this entity is stored and returned. Other types are untouched.
     */
    method AddComponent(t: ComponentType) returns (c: Component)
      modifies this`components
      ensures t in old(components) ==> c == old(components[t]) && components == old(components)
      ensures t !in old(components) ==>
                fresh(c) && c.kind == t && c.owner == this && c.isActive && components == old(components)[t := c]
    {
      if t in components {
        return components[t];
      }
      c := new Component(t);
      c.SetOwner(this);
      RegisterComponent(t, c);
    }

    /** RemoveComponent<T>: true exactly when a T was there; afterwards there is none, other types untouched. */
    method RemoveComponent(t: ComponentType) returns (removed: bool)
      modifies this`components
      ensures removed <==> t in old(components)
      ensures components == old(components) - {t}
    {
      if t in components {
        components := components - {t};
        return true;
      }
      return false;
    }

    /** The components whose active flag is set. */
    function ActiveComponents(): (cs: set<Component>)
      reads this, components.Values
    {
      set t | t in components && components[t].isActive :: components[t]
    }

    /** Update / Render: nothing for an inactive entity (or a null renderer); otherwise the active components. */
    method Visit(hasRenderer: bool) returns (visited: set<Component>)
      ensures visited == if isActive && hasRenderer then ActiveComponents() else {}
      ensures forall c :: c in visited ==> c in components.Values && c.isActive
    {
      if !isActive || !hasRenderer {
        return {};
      }
      visited := set t | t in components && components[t].isActive :: components[t];
    }
  }

  /** Scene: a name, an active flag, the entities in spawn order, an ID lookup and the next ID. */
  class Scene {
    var name: string
    var isActive: bool
    var entities: seq<Entity>
    var lookup: map<nat, Entity>
    var nextEntityID: nat

    /**
     * The lookup holds exactly the scene's entities, each under its own ID;
     * no entity appears twice; every ID is positive and below the next one.
     */
    ghost predicate Valid()
      reads this
    {
      Registered(entities, lookup, nextEntityID)
    }

    /** A new scene: "Untitled Scene", active, empty, next ID 1. */
    constructor ()
      ensures Valid()
      ensures name == "Untitled Scene" && isActive && entities == [] && lookup == map[] && nextEntityID == 1
    {
      name := "Untitled Scene";
      isActive := true;
      entities := [];
      lookup := map[];
      nextEntityID := 1;
    }

    /** GenerateEntityID: the post-increment of the counter. */
    method GenerateEntityID() returns (id: nat)
      modifies this`nextEntityID
      ensures id == old(nextEntityID) && nextEntityID == old(nextEntityID) + 1
    {
      id := nextEntityID;
      nextEntityID := nextEntityID + 1;
    }

    /**
     * SpawnEntity: a new entity with the freshly generated ID, this scene as
     * its scene and a TransformComponent, registered and appended last. The
     * process-wide counter is not drawn from, since the ID is never 0.
     */
    method SpawnEntity(counter: EntityIdCounter) returns (e: Entity)
      requires Valid()
      modifies this, counter
      ensures Valid()
      ensures fresh(e) && e.id == old(nextEntityID) && nextEntityID == old(nextEntityID) + 1
      ensures entities == old(entities) + [e] && lookup == old(lookup)[e.id := e]
      ensures e.scene == this && TransformType in e.components && e.components[TransformType].owner == e
      ensures FindEntity(e.id) == e
      ensures counter.next == old(counter.next)
      ensures name == old(name) && isActive == old(isActive)
    {
      var id := GenerateEntityID();
      e := new Entity(id, counter);
      e.scene := this;
      var _ := e.AddComponent(TransformType);
      RegisterEntity(e);
      entities := entities + [e];
    }

    /** RegisterEntity: the lookup maps the entity's ID to it. */
    method RegisterEntity(e: Entity)
      modifies this`lookup
      ensures lookup == old(lookup)[e.id := e]
    {
      lookup := lookup[e.id := e];
    }

    /** UnregisterEntity: the entity's ID leaves the lookup. */
    method UnregisterEntity(e: Entity)
      modifies this`lookup
      ensures lookup == old(lookup) - {e.id}
    {
      if e.id in lookup {
        lookup := lookup - {e.id};
      }
    }

    /** FindEntity: the registered entity with that ID, or null. */
    function FindEntity(id: nat): (e: Entity?)
      reads this
      ensures e != null <==> id in lookup
      ensures e != null ==> e == lookup[id]
    {
      if id in lookup then lookup[id] else null
    }

    /** In a valid scene FindEntity finds exactly the entities of the scene, by their IDs. */
    lemma FindEntityFindsMembers(id: nat)
      requires Valid()
      ensures FindEntity(id) != null <==> exists i :: 0 <= i < |entities| && entities[i].id == id
      ensures FindEntity(id) != null ==> FindEntity(id) in entities && FindEntity(id).id == id
    {
      if FindEntity(id) != null {
        var i :| 0 <= i < |entities| && entities[i] == lookup[id];
      }
    }

    /** The position of e in the entity list (std::find_if), or |entities| when absent. */
    method IndexOf(e: Entity) returns (i: nat)
      ensures i <= |entities|
      ensures i < |entities| ==> entities[i] == e
      ensures forall j :: 0 <= j < i ==> entities[j] != e
    {
      i := 0;
      while i < |entities| && entities[i] != e
        invariant 0 <= i <= |entities|
        invariant forall j :: 0 <= j < i ==> entities[j] != e
      {
        i := i + 1;
      }
    }

    /**
     * DestroyEntity(entity): a member is removed from the list, keeping the
     * others' order, and from the lookup, and true is returned; null or a
     * non-member returns false and changes nothing.
     */
    method DestroyEntity(e: Entity?) returns (ok: bool)
      requires Valid()
      modifies this`entities, this`lookup
      ensures Valid()
      ensures ok <==> e != null && e in old(entities)
      ensures ok ==> exists i :: 0 <= i < |old(entities)| && old(entities)[i] == e &&
                                 entities == old(entities)[..i] + old(entities)[i + 1..]
      ensures ok ==> lookup == old(lookup) - {e.id} && e !in entities
      ensures !ok ==> entities == old(entities) && lookup == old(lookup)
    {
      if e == null {
        return false;
      }
      var i := IndexOf(e);
      if i == |entities| {
        return false;
      }
      UnregisterEntity(e);
      RemovalKeepsRegistered(entities, old(lookup), nextEntityID, i);
      entities := entities[..i] + entities[i + 1..];
      ok := true;
    }

    /** DestroyEntity(id): the entity FindEntity gives, or false when there is none. */
    method DestroyEntityById(id: nat) returns (ok: bool)
      requires Valid()
      modifies this`entities, this`lookup
      ensures Valid()
      ensures ok <==> id in old(lookup)
      ensures ok ==> lookup == old(lookup) - {id} && |entities| == |old(entities)| - 1
      ensures ok ==> exists i :: 0 <= i < |old(entities)| && old(entities)[i] == old(lookup)[id] &&
                                 entities == old(entities)[..i] + old(entities)[i + 1..]
      ensures !ok ==> entities == old(entities) && lookup == old(lookup)
    {
      var e := FindEntity(id);
      if e == null {
        return false;
      }
      ok := DestroyEntity(e);
    }

    /** FindEntityByName: the first entity in spawn order with that name, or null. */
    method FindEntityByName(n: string) returns (e: Entity?)
      ensures e == null ==> forall i :: 0 <= i < |entities| ==> entities[i].name != n
      ensures e != null ==> exists i :: 0 <= i < |entities| && entities[i] == e && e.name == n &&
                                       forall j :: 0 <= j < i ==> entities[j].name != n
    {
      var i := 0;
      while i < |entities|
        invariant 0 <= i <= |entities|
        invariant forall j :: 0 <= j < i ==> entities[j].name != n
      {
        if entities[i].name == n {
          return entities[i];
        }
        i := i + 1;
      }
      return null;
    }

    /**
     * Update / BeginPlay / Render: nothing for an inactive scene (or a null
     * renderer); otherwise the active entities in spawn order.
     */
    method VisitActive(hasRenderer: bool) returns (visited: seq<Entity>)
      ensures visited == if isActive && hasRenderer then ActiveEntities(entities) else []
    {
      visited := [];
      if !isActive || !hasRenderer {
        return;
      }
      var i := 0;
      while i < |entities|
        invariant 0 <= i <= |entities|
        invariant visited == ActiveEntities(entities[..i])
      {
        assert entities[..i + 1][..i] == entities[..i];
        if entities[i].isActive {
          visited := visited + [entities[i]];
        }
        i := i + 1;
      }
      assert entities[..i] == entities;
    }

    /** EndPlay: every entity, active or not, in spawn order. */
    method EndPlay() returns (visited: seq<Entity>)
      ensures visited == entities
    {
      visited := [];
      var i := 0;
      while i < |entities|
        invariant 0 <= i <= |entities| && visited == entities[..i]
      {
        visited := visited + [entities[i]];
        i := i + 1;
      }
    }
  }

  /**
   * The lookup holds exactly the entities of es, each under its own ID; no
   * entity appears twice; every ID is positive and below `next`.
   */
  ghost predicate Registered(es: seq<Entity>, lookup: map<nat, Entity>, next: nat)
  {
    next >= 1 &&
    (forall i, j :: 0 <= i < j < |es| ==> es[i] != es[j]) &&
    (forall i :: 0 <= i < |es| ==> 0 < es[i].id < next && es[i].id in lookup && lookup[es[i].id] == es[i]) &&
    (forall id :: id in lookup ==> lookup[id] in es && lookup[id].id == id)
  }

  /** Position k of es with position i removed is position k or k + 1 of es. */
  lemma RemovedAt(es: seq<Entity>, i: nat, k: nat)
    requires i < |es| && k < |es| - 1
    ensures (es[..i] + es[i + 1..])[k] == es[if k < i then k else k + 1]
  {
  }

  /** Every entity of es other than es[i] is at some position of es with position i removed. */
  lemma RemovedKeeps(es: seq<Entity>, i: nat, k: nat)
    requires i < |es| && k < |es| && k != i
    ensures es[k] == (es[..i] + es[i + 1..])[if k < i then k else k - 1]
  {
    RemovedAt(es, i, if k < i then k else k - 1);
  }

  /** Removing entity i from the list and its ID from the lookup keeps the two in step. */
  lemma RemovalKeepsRegistered(es: seq<Entity>, lookup: map<nat, Entity>, next: nat, i: nat)
    requires Registered(es, lookup, next) && i < |es|
    ensures Registered(es[..i] + es[i + 1..], lookup - {es[i].id}, next)
    ensures es[i] !in es[..i] + es[i + 1..]
  {
    var rest, smaller := es[..i] + es[i + 1..], lookup - {es[i].id};
    forall a, b | 0 <= a < b < |rest|
      ensures rest[a] != rest[b]
    {
      RemovedAt(es, i, a);
      RemovedAt(es, i, b);
    }
    forall k | 0 <= k < |rest|
      ensures 0 < rest[k].id < next && rest[k].id in smaller && smaller[rest[k].id] == rest[k]
    {
      RemovedAt(es, i, k);
    }
    forall id | id in smaller
      ensures smaller[id] in rest && smaller[id].id == id
    {
      var k :| 0 <= k < |es| && es[k] == smaller[id];
      RemovedKeeps(es, i, k);
    }
    forall k | 0 <= k < |rest|
      ensures rest[k] != es[i]
    {
      RemovedAt(es, i, k);
    }
  }

  /** The active entities of es, in order. */
  function ActiveEntities(es: seq<Entity>): (r: seq<Entity>)
    reads set e | e in es
  {
    if es == [] then []
    else ActiveEntities(es[..|es| - 1]) + (if es[|es| - 1].isActive then [es[|es| - 1]] else [])
  }

  /** ActiveEntities keeps exactly the active entities, each after those before it in es. */
  lemma {:induction false} ActiveEntitiesAreTheActiveOnes(es: seq<Entity>)
    ensures forall e :: e in ActiveEntities(es) <==> e in es && e.isActive
    ensures |ActiveEntities(es)| <= |es|
  {
    if es != [] {
      var init := es[..|es| - 1];
      ActiveEntitiesAreTheActiveOnes(init);
      assert es == init + [es[|es| - 1]];
    }
  }
}
