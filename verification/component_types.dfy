/**
  Component kinds and the process-wide component-type-id registry
  (Component::GetComponentTypeID<T> with its function-local static and the
  shared counter m_MaxComponentTypeId).
 */
module ComponentTypes {

  /** Every struct deriving from Component that the engine and the tank code use.
      The source's static_assert that T derives from Component is enforced here by
      the type: only a Kind can be handed to the registry. */
  datatype Kind =
    | Box2dBody | Transform | Mover | Collision | Sprite | Player | Score | Health
    | Camera | Input | Animation | Shadow | Terrain | Menu
    | Physics | Tank | Shoot | SolidObject | Ownership | Bullet | Lake

  /** The registry state: the id each kind's static has cached so far, and the counter. */
  datatype Registry = Registry(ids: map<Kind, nat>, next: nat)

  /** The state at process start: no kind has asked yet and the counter is 0. */
  const Initial: Registry := Registry(map[], 0)

  /** Issued ids are exactly 0 .. next-1, and no two kinds share one. */
  ghost predicate Valid(r: Registry) {
    && (forall k :: k in r.ids ==> r.ids[k] < r.next)
    && (forall n: nat :: n < r.next ==> n in r.ids.Values)
    && (forall k, k' :: k in r.ids && k' in r.ids && k != k' ==> r.ids[k] != r.ids[k'])
  }

  lemma InitialValid()
    ensures Valid(Initial)
  {
  }

  /** The result of one GetComponentTypeID<T>() call: the new registry and the id returned. */
  datatype Issued = Issued(registry: Registry, id: nat)

  /** GetComponentTypeID<K>(): the first call for K initialises K's static from the
      counter and bumps the counter; later calls return the cached value. */
  function GetTypeId(r: Registry, k: Kind): (res: Issued)
    requires Valid(r)
    ensures Valid(res.registry)
    ensures k in res.registry.ids && res.registry.ids[k] == res.id
    ensures k in r.ids ==> res.registry == r && res.id == r.ids[k]
    ensures k !in r.ids ==> res.id == r.next && res.registry.next == r.next + 1
    ensures res.registry.ids.Keys == r.ids.Keys + {k}
    ensures forall k' :: k' in r.ids ==> res.registry.ids[k'] == r.ids[k']
  {
    if k in r.ids then
      Issued(r, r.ids[k])
    else
      var r' := Registry(r.ids[k := r.next], r.next + 1);
      assert forall n: nat :: n < r'.next ==> n in r'.ids.Values by {
        forall n: nat | n < r'.next
          ensures n in r'.ids.Values
        {
          if n < r.next {
            assert n in r.ids.Values;
            var k0 :| k0 in r.ids && r.ids[k0] == n;
            assert r'.ids[k0] == n;
          } else {
            assert r'.ids[k] == n;
          }
        }
      }
      Issued(r', r.next)
  }

  /** A second request for the same kind returns the same id and changes nothing. */
  lemma GetTypeIdMemoised(r: Registry, k: Kind)
    requires Valid(r)
    ensures var first := GetTypeId(r, k);
            GetTypeId(first.registry, k) == first
  {
  }

  /** The very first id handed out in a process is 0. */
  lemma FirstIdIsZero(k: Kind)
    ensures Valid(Initial) && GetTypeId(Initial, k).id == 0
  {
  }

  /** The registry after a run of GetComponentTypeID calls, with the id each call returned. */
  datatype Run = Run(registry: Registry, ids: seq<nat>)

  function IssueAll(r: Registry, ks: seq<Kind>): (res: Run)
    requires Valid(r)
    ensures Valid(res.registry)
    ensures |res.ids| == |ks|
    ensures r.next <= res.registry.next
    ensures forall k :: k in r.ids ==> k in res.registry.ids && res.registry.ids[k] == r.ids[k]
    ensures forall i :: 0 <= i < |ks| ==> ks[i] in res.registry.ids && res.registry.ids[ks[i]] == res.ids[i]
    decreases |ks|
  {
    if ks == [] then
      Run(r, [])
    else
      var first := GetTypeId(r, ks[0]);
      var rest := IssueAll(first.registry, ks[1..]);
      Run(rest.registry, [first.id] + rest.ids)
  }

  /** Over any sequence of requests, two calls return the same id exactly when
      they asked for the same kind, and every id is below the final counter. */
  lemma {:induction false} SameIdIffSameKind(r: Registry, ks: seq<Kind>)
    requires Valid(r)
    ensures var run := IssueAll(r, ks);
            && (forall i, j :: 0 <= i < |ks| && 0 <= j < |ks| ==> (ks[i] == ks[j] <==> run.ids[i] == run.ids[j]))
            && (forall i :: 0 <= i < |ks| ==> run.ids[i] < run.registry.next)
  {
    var run := IssueAll(r, ks);
    forall i, j | 0 <= i < |ks| && 0 <= j < |ks|
      ensures ks[i] == ks[j] <==> run.ids[i] == run.ids[j]
    {
      assert run.registry.ids[ks[i]] == run.ids[i];
      assert run.registry.ids[ks[j]] == run.ids[j];
    }
  }
}
