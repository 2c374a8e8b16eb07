/**
  Entities and the entity manager, as far as the tank code relies on them: an
  entity holds at most one component per kind, and the manager is an
  append-only sequence of entities whose positions serve as entity references.
 */
module Entities {
  import opened Wrappers
  import opened Components
  import ComponentTypes

  datatype Entity = Entity(components: map<ComponentTypes.Kind, Component>)

  /** Every stored component sits under its own kind. */
  ghost predicate WellKeyed(e: Entity) {
    forall k :: k in e.components ==> KindOf(e.components[k].data) == k
  }

  const NewEntity: Entity := Entity(map[])

  predicate HasComponent(e: Entity, k: ComponentTypes.Kind) {
    k in e.components
  }

  /** GetComponent<K>(): the attached instance, or nothing. */
  function GetComponent(e: Entity, k: ComponentTypes.Kind): (r: Option<Component>)
    ensures r.Some? <==> HasComponent(e, k)
    ensures WellKeyed(e) && r.Some? ==> KindOf(r.value.data) == k
  {
    if k in e.components then Some(e.components[k]) else None
  }

  /** AddComponent<K>(args): builds the component d (the template argument K names
      its kind k) and attaches it as its constructor left it, replacing any earlier
      instance of k. The template makes k the kind of d; callers pass
      k == KindOf(d), and AddKeepsWellKeyed shows that this keeps the entity well keyed. */
  function AddComponent(e: Entity, k: ComponentTypes.Kind, d: Data): (r: Entity)
    ensures GetComponent(r, k) == Some(Fresh(d))
    ensures forall k' :: k' != k ==> GetComponent(r, k') == GetComponent(e, k')
  {
    Entity(e.components[k := Fresh(d)])
  }

  /** Attaching a component under its own kind keeps every component under its own kind. */
  lemma AddKeepsWellKeyed(e: Entity, k: ComponentTypes.Kind, d: Data)
    requires WellKeyed(e) && KindOf(d) == k
    ensures WellKeyed(AddComponent(e, k, d))
  {
  }

  /** The entity manager's live entities in insertion order. */
  type World = seq<Entity>

  datatype Added = Added(world: World, id: EntityId)

  /** AddEntity(e): takes ownership of e; the returned reference is its position. */
  function AddEntity(w: World, e: Entity): (r: Added)
    ensures |r.world| == |w| + 1 && r.id == |w|
    ensures r.world[r.id] == e
    ensures forall i :: 0 <= i < |w| ==> r.world[i] == w[i]
  {
    Added(w + [e], |w|)
  }

  /** GetAllEntitiesWithComponent<K>(): every entity holding k, in insertion order. */
  function EntitiesWith(w: World, k: ComponentTypes.Kind): (ids: seq<EntityId>)
    ensures forall i, j :: 0 <= i < j < |ids| ==> ids[i] < ids[j]
    ensures forall i :: 0 <= i < |ids| ==> ids[i] < |w|
    ensures forall n: nat :: n in ids <==> n < |w| && HasComponent(w[n], k)
    decreases |w|
  {
    if w == [] then []
    else
      var front := EntitiesWith(w[..|w| - 1], k);
      assert forall n: nat :: n < |w| - 1 ==> w[..|w| - 1][n] == w[n];
      if HasComponent(w[|w| - 1], k) then front + [|w| - 1] else front
  }

  /** The first entry of the query result, as the tank code reads it with xs.at(0). */
  function FirstWith(w: World, k: ComponentTypes.Kind): (r: Option<EntityId>)
    ensures r.Some? ==> r.value < |w| && HasComponent(w[r.value], k)
    ensures r.Some? ==> forall n :: 0 <= n < r.value ==> !HasComponent(w[n], k)
    ensures r.None? <==> forall n :: 0 <= n < |w| ==> !HasComponent(w[n], k)
  {
    var xs := EntitiesWith(w, k);
    if |xs| != 0 then
      assert forall n: nat :: n < xs[0] && HasComponent(w[n], k) ==> n in xs;
      Some(xs[0])
    else
      assert forall n: nat :: n < |w| && HasComponent(w[n], k) ==> n in xs;
      None
  }

  /** Querying only ever sees entities that hold the kind; appending one without it
      leaves the answer as it was. */
  lemma {:induction false} AddEntityQuery(w: World, e: Entity, k: ComponentTypes.Kind)
    ensures EntitiesWith(AddEntity(w, e).world, k)
         == EntitiesWith(w, k) + (if HasComponent(e, k) then [|w|] else [])
  {
    var w' := AddEntity(w, e).world;
    assert w'[..|w'| - 1] == w;
  }

  /** Queries only look at which kinds each entity holds. */
  lemma {:induction false} SameKindsSameEntities(w: World, w': World, k: ComponentTypes.Kind)
    requires |w| == |w'|
    requires forall i :: 0 <= i < |w| ==> (HasComponent(w[i], k) <==> HasComponent(w'[i], k))
    ensures EntitiesWith(w, k) == EntitiesWith(w', k)
    decreases |w|
  {
    if w != [] {
      var n := |w| - 1;
      var p, p' := w[..n], w'[..n];
      assert forall i :: 0 <= i < n ==> p[i] == w[i] && p'[i] == w'[i];
      SameKindsSameEntities(p, p', k);
      assert HasComponent(w[n], k) <==> HasComponent(w'[n], k);
    }
  }

  lemma SameKindsSameQuery(w: World, w': World, k: ComponentTypes.Kind)
    requires |w| == |w'|
    requires forall i :: 0 <= i < |w| ==> (HasComponent(w[i], k) <==> HasComponent(w'[i], k))
    ensures EntitiesWith(w, k) == EntitiesWith(w', k)
    ensures FirstWith(w, k) == FirstWith(w', k)
  {
    SameKindsSameEntities(w, w', k);
  }
}
