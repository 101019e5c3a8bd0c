// The projection of a signed node registry onto the router: one node changed or added at a time
// (scripts/router_registry_projection.py). A manifest's digest is the manifest, text formats and
// signatures are left out.
module RegistryProjection {
  import opened Common
  import opened RouterControl

  const CAPACITY := 1000

  datatype Compatibility = Compatible | LegacyReadonly

  datatype Base = Base(id: int, name: int, adapter: int, url: int, pin: int)

  datatype Desired = Desired(base: Base, compatibility: Compatibility)

  datatype Entry = Entry(base: Base, revision: int, epoch: int, compatibility: Compatibility)

  datatype Manifest =
    | Legacy(version: int, owner: int, live: bool, bases: seq<Base>)
    | Dynamic(version: int, owner: int, live: bool, entries: seq<Entry>)

  datatype Registration = Registration(revision: int, compatibility: Compatibility)

  // what the router keeps for a node besides its route
  datatype NodeState = NodeState(route: Route, adapter: int, registration: Option<Registration>)

  // registry stands for the owner, version and digest the router reports; schema 2 is a projected one
  datatype RouterState = RouterState(projected: bool, registry: Manifest, nodes: map<int, NodeState>)

  // "bootstrap", the operation a node is sealed by before it is first used
  const BOOTSTRAP := 0

  function Bases(m: Manifest): (r: seq<Base>)
    ensures |r| == if m.Dynamic? then |m.entries| else |m.bases|
  {
    if m.Dynamic? then seq(|m.entries|, i requires 0 <= i < |m.entries| => m.entries[i].base) else m.bases
  }

  predicate SafeInteger(n: int) {
    1 <= n <= MAXIMUM_SAFE_INTEGER
  }

  // ids and certificate pins are bound once
  predicate UniqueBindings(bases: seq<Base>) {
    forall i, j :: 0 <= i < j < |bases| ==> bases[i].id != bases[j].id && bases[i].pin != bases[j].pin
  }

  // validate_manifest
  predicate ValidManifest(m: Manifest) {
    && SafeInteger(m.version)
    && UniqueBindings(Bases(m))
    && (m.Dynamic? ==>
          && 0 < |m.entries| <= CAPACITY
          && forall i :: 0 <= i < |m.entries| ==> SafeInteger(m.entries[i].revision) && SafeInteger(m.entries[i].epoch))
  }

  function Ids(bases: seq<Base>): set<int> {
    set i | 0 <= i < |bases| :: bases[i].id
  }

  // ----- project, one node of the manifest at a time -----

  datatype Plan = Plan(operation: int, desired: Option<Desired>, legacy: Option<Compatibility>)

  datatype Projected = Projected(entry: Entry, node: NodeState, changed: bool)

  function EntryOf(m: Manifest, i: nat, node: NodeState, plan: Plan): Entry
    requires i < |Bases(m)| && (m.Legacy? ==> plan.legacy.Some?)
  {
    if m.Dynamic? then m.entries[i]
    else Entry(m.bases[i], m.version, if node.route.epoch < 1 then 1 else node.route.epoch, plan.legacy.value)
  }

  // a changed node is left sealed by the operation, with the next epoch and no adapter version
  function Resealed(route: Route, operation: Operation): Route {
    Route(Sealed, route.stateVersion + 1, route.generation, route.epoch + 1, 0, Some(operation), false)
  }

  // the body of the loop: None is a refused projection
  function ProjectNode(m: Manifest, i: nat, node: NodeState, plan: Plan): Option<Projected>
    requires i < |Bases(m)| && (m.Legacy? ==> plan.legacy.Some?)
  {
    var current := EntryOf(m, i, node, plan);
    var targeted := plan.desired.Some? && plan.desired.value.base.id == current.base.id;
    var base := if targeted then plan.desired.value.base else current.base;
    var compatibility := if targeted then plan.desired.value.compatibility else current.compatibility;
    var changed := base != current.base || (m.Dynamic? && compatibility != current.compatibility);
    if node.adapter != current.base.adapter || (compatibility.LegacyReadonly? && !node.route.mode.Sealed?) then None
    else if m.Dynamic? && (node.registration != Some(Registration(current.revision, current.compatibility)) || node.route.epoch != current.epoch) then None
    else if !changed then
      Some(Projected(Entry(base, current.revision, current.epoch, compatibility),
                     node.(route := node.route.(epoch := current.epoch), registration := Some(Registration(current.revision, compatibility))), false))
    else if !node.route.mode.Sealed? || (node.route.operation != Some(plan.operation) && node.route.operation != Some(BOOTSTRAP))
            || current.revision >= MAXIMUM_SAFE_INTEGER || node.route.epoch >= MAXIMUM_SAFE_INTEGER then None
    else
      Some(Projected(Entry(base, current.revision + 1, node.route.epoch + 1, compatibility),
                     NodeState(Resealed(node.route, plan.operation), base.adapter, Some(Registration(current.revision + 1, compatibility))),
                     true))
  }

  datatype Progress = Progress(entries: seq<Entry>, nodes: map<int, NodeState>, changes: nat)

  function ProjectNodes(m: Manifest, nodes: map<int, NodeState>, plan: Plan, n: nat): Option<Progress>
    requires n <= |Bases(m)| && (m.Legacy? ==> plan.legacy.Some?)
    requires Ids(Bases(m)) <= nodes.Keys
  {
    if n == 0 then Some(Progress([], map[], 0))
    else
      match ProjectNodes(m, nodes, plan, n - 1)
      case None => None
      case Some(p) =>
        var id := Bases(m)[n - 1].id;
        match ProjectNode(m, n - 1, nodes[id], plan)
        case None => None
        case Some(one) =>
          Some(Progress(p.entries + [one.entry], p.nodes[id := one.node], p.changes + (if one.changed then 1 else 0)))
  }

  // a node the registry did not have: revision and epoch one, sealed
  function NewEntry(desired: Desired): Entry {
    Entry(desired.base, 1, 1, desired.compatibility)
  }

  function NewNode(desired: Desired, operation: Operation): NodeState {
    NodeState(Route(Sealed, 1, 0, 1, 0, Some(operation), false), desired.base.adapter, Some(Registration(1, desired.compatibility)))
  }

  function Admit(p: Progress, ids: set<int>, plan: Plan): Option<Progress> {
    if plan.desired.None? || plan.desired.value.base.id in ids then Some(p)
    else if |p.entries| >= CAPACITY then None
    else
      Some(Progress(p.entries + [NewEntry(plan.desired.value)],
                    p.nodes[plan.desired.value.base.id := NewNode(plan.desired.value, plan.operation)], p.changes + 1))
  }

  // the reader of the router's state refuses one in which a route carries a seal projection
  predicate Acceptable(m: Manifest, state: RouterState, plan: Plan) {
    && ValidManifest(m)
    && (if m.Dynamic? then plan.legacy.None? && state.projected && plan.desired.Some? else plan.legacy.Some? && !state.projected)
    && state.registry == m && state.nodes.Keys == Ids(Bases(m)) && m.version < MAXIMUM_SAFE_INTEGER
    && forall id :: id in state.nodes ==> !state.nodes[id].route.projected
  }

  // project
  function Project(m: Manifest, state: RouterState, plan: Plan): Option<RouterState> {
    if !Acceptable(m, state, plan) then None
    else
      match ProjectNodes(m, state.nodes, plan, |Bases(m)|)
      case None => None
      case Some(p) =>
        match Admit(p, Ids(Bases(m)), plan)
        case None => None
        case Some(q) =>
          var candidate := Dynamic(m.version + 1, m.owner, m.live, q.entries);
          if q.changes > 1 || (q.changes == 0 && m.Dynamic?) || !ValidManifest(candidate) then None
          else Some(RouterState(true, candidate, q.nodes))
  }

  // ----- the two loops as the script runs them -----

  // the ids and pins met so far say whether the next node may be bound
  predicate Fresh(bases: seq<Base>, n: nat, b: Base)
    requires n <= |bases|
  {
    forall k :: 0 <= k < n ==> bases[k].id != b.id && bases[k].pin != b.pin
  }

  predicate UniqueUpTo(bases: seq<Base>, n: nat)
    requires n <= |bases|
  {
    forall k :: 0 <= k < n ==> Fresh(bases, k, bases[k])
  }

  predicate SafeUpTo(m: Manifest, n: nat)
    requires n <= |Bases(m)|
  {
    m.Dynamic? ==> forall k :: 0 <= k < n ==> SafeInteger(m.entries[k].revision) && SafeInteger(m.entries[k].epoch)
  }

  lemma UniqueIsPairwise(bases: seq<Base>)
    ensures UniqueUpTo(bases, |bases|) <==> UniqueBindings(bases)
  {
    if UniqueUpTo(bases, |bases|) {
      forall i, j | 0 <= i < j < |bases| ensures bases[i].id != bases[j].id && bases[i].pin != bases[j].pin {
        assert Fresh(bases, j, bases[j]);
      }
    }
  }

  // validate_manifest: the sets of ids and pins grow with the nodes
  method ValidateManifest(m: Manifest) returns (valid: bool)
    ensures valid <==> ValidManifest(m)
  {
    var bases := Bases(m);
    UniqueIsPairwise(bases);
    if !SafeInteger(m.version) || (m.Dynamic? && !(0 < |m.entries| <= CAPACITY)) {
      return false;
    }
    hide UniqueBindings;
    var ids, pins := {}, {};
    for i := 0 to |bases|
      invariant ids == (set k | 0 <= k < i :: bases[k].id) && pins == (set k | 0 <= k < i :: bases[k].pin)
      invariant UniqueUpTo(bases, i) && SafeUpTo(m, i)
    {
      assert Fresh(bases, i, bases[i]) <==> bases[i].id !in ids && bases[i].pin !in pins;
      if bases[i].id in ids || bases[i].pin in pins {
        assert !UniqueUpTo(bases, |bases|);
        return false;
      }
      if m.Dynamic? && !(SafeInteger(m.entries[i].revision) && SafeInteger(m.entries[i].epoch)) {
        return false;
      }
      ids, pins := ids + {bases[i].id}, pins + {bases[i].pin};
    }
    valid := true;
  }

  // project: nodes, routes and the count of changes are built as the loop goes; the result is exactly
  // the projection or a refusal
  method ProjectRegistry(m: Manifest, state: RouterState, plan: Plan) returns (result: Option<RouterState>)
    ensures result == Project(m, state, plan)
  {
    var valid := ValidateManifest(m);
    if !valid || !Acceptable(m, state, plan) {
      return None;
    }
    var bases := Bases(m);
    var changes: nat, entries: seq<Entry>, routes: map<int, NodeState> := 0, [], map[];
    for i := 0 to |bases|
      invariant ProjectNodes(m, state.nodes, plan, i) == Some(Progress(entries, routes, changes))
    {
      IdsHas(bases, i);
      var one := ProjectNode(m, i, state.nodes[bases[i].id], plan);
      if one.None? {
        RefusalStays(m, state.nodes, plan, i + 1, |bases|);
        return None;
      }
      entries, routes := entries + [one.value.entry], routes[bases[i].id := one.value.node];
      if one.value.changed {
        changes := changes + 1;
      }
    }
    if plan.desired.Some? && plan.desired.value.base.id !in state.nodes {
      if |entries| >= CAPACITY {
        return None;
      }
      changes := changes + 1;
      entries := entries + [NewEntry(plan.desired.value)];
      routes := routes[plan.desired.value.base.id := NewNode(plan.desired.value, plan.operation)];
    }
    if changes > 1 || (changes == 0 && m.Dynamic?) {
      return None;
    }
    var candidate := Dynamic(m.version + 1, m.owner, m.live, entries);
    valid := ValidateManifest(candidate);
    return if valid then Some(RouterState(true, candidate, routes)) else None;
  }

  // a node that is refused refuses the whole registry
  lemma {:induction false} RefusalStays(m: Manifest, nodes: map<int, NodeState>, plan: Plan, i: nat, n: nat)
    requires i <= n <= |Bases(m)| && (m.Legacy? ==> plan.legacy.Some?) && Ids(Bases(m)) <= nodes.Keys
    requires ProjectNodes(m, nodes, plan, i).None?
    ensures ProjectNodes(m, nodes, plan, n).None?
  {
    hide ProjectNode;
    if i < n {
      RefusalStays(m, nodes, plan, i, n - 1);
    }
  }

  // ----- agreement -----

  predicate RouteAgrees(e: Entry, r: NodeState) {
    && r.registration == Some(Registration(e.revision, e.compatibility)) && r.route.epoch == e.epoch && r.adapter == e.base.adapter
    && (e.compatibility.LegacyReadonly? ==> r.route.mode.Sealed?)
  }

  ghost predicate NodeAgrees(e: Entry, nodes: map<int, NodeState>) {
    e.base.id in nodes && RouteAgrees(e, nodes[e.base.id])
  }

  // the manifest and the router say the same about every node, and bindings are unique
  ghost predicate Agreement(state: RouterState) {
    && state.projected && state.registry.Dynamic? && ValidManifest(state.registry)
    && state.nodes.Keys == Ids(Bases(state.registry))
    && forall i :: 0 <= i < |state.registry.entries| ==> NodeAgrees(state.registry.entries[i], state.nodes)
  }

  lemma NodeAgreesAlone(m: Manifest, i: nat, node: NodeState, plan: Plan)
    requires i < |Bases(m)| && (m.Legacy? ==> plan.legacy.Some?) && ProjectNode(m, i, node, plan).Some?
    ensures var one := ProjectNode(m, i, node, plan).value;
      one.entry.base.id == Bases(m)[i].id && RouteAgrees(one.entry, one.node)
  {
  }

  // what the loop has built after n nodes, whatever it started from
  lemma {:induction false} NodesAgree(m: Manifest, nodes: map<int, NodeState>, plan: Plan, n: nat)
    requires n <= |Bases(m)| && (m.Legacy? ==> plan.legacy.Some?) && Ids(Bases(m)) <= nodes.Keys && UniqueBindings(Bases(m))
    requires ProjectNodes(m, nodes, plan, n).Some?
    ensures var p := ProjectNodes(m, nodes, plan, n).value;
      && |p.entries| == n && p.nodes.Keys == Ids(Bases(m)[..n])
      && (forall i :: 0 <= i < n ==> p.entries[i].base.id == Bases(m)[i].id && NodeAgrees(p.entries[i], p.nodes))
  {
    hide ProjectNode, RouteAgrees, Ids;
    var bases := Bases(m);
    if n > 0 {
      NodesAgree(m, nodes, plan, n - 1);
      IdsStep(bases, n);
      IdsHas(bases, n - 1);
      NodeAgreesAlone(m, n - 1, nodes[bases[n - 1].id], plan);
    } else {
      NoIds(bases);
    }
  }

  lemma NoIds(bases: seq<Base>)
    ensures Ids(bases[..0]) == {}
  {
  }

  lemma IdsHas(bases: seq<Base>, i: nat)
    requires i < |bases|
    ensures bases[i].id in Ids(bases)
  {
  }

  lemma IdsStep(bases: seq<Base>, n: nat)
    requires 0 < n <= |bases|
    ensures Ids(bases[..n]) == Ids(bases[..n - 1]) + {bases[n - 1].id}
  {
    forall id ensures id in Ids(bases[..n]) <==> id in Ids(bases[..n - 1]) + {bases[n - 1].id} {
      if id in Ids(bases[..n]) {
        var i :| 0 <= i < n && bases[..n][i].id == id;
        if i < n - 1 {
          assert bases[..n - 1][i].id == id;
        }
      }
      if id in Ids(bases[..n - 1]) {
        var i :| 0 <= i < n - 1 && bases[..n - 1][i].id == id;
        assert bases[..n][i].id == id;
      }
      assert bases[..n][n - 1].id == bases[n - 1].id;
    }
  }

  lemma WholeIds(bases: seq<Base>)
    ensures Ids(bases[..|bases|]) == Ids(bases)
  {
    assert bases[..|bases|] == bases;
  }

  // A projection that is accepted leaves manifest and router in agreement, one version up, whatever
  // the two were before.
  lemma ProjectAgrees(m: Manifest, state: RouterState, plan: Plan)
    requires Project(m, state, plan).Some?
    ensures var next := Project(m, state, plan).value;
      && Agreement(next)
      && next.registry.version == m.version + 1 && next.registry.owner == m.owner && next.registry.live == m.live
  {
    hide ProjectNode, ProjectNodes, RouteAgrees, Ids;
    var bases := Bases(m);
    var p := ProjectNodes(m, state.nodes, plan, |bases|).value;
    var q := Admit(p, Ids(bases), plan).value;
    var next := Project(m, state, plan).value;
    NodesAgree(m, state.nodes, plan, |bases|);
    WholeIds(bases);
    if plan.desired.Some? && plan.desired.value.base.id !in Ids(bases) {
      var d := plan.desired.value;
      AppendedIds(p, q, bases, d.base.id);
      AppendedAgrees(p, q, d, plan.operation);
    } else {
      SameIds(p.entries, bases);
    }
  }

  lemma SameIds(entries: seq<Entry>, bases: seq<Base>)
    requires |entries| == |bases| && forall i :: 0 <= i < |bases| ==> entries[i].base.id == bases[i].id
    ensures forall m: Manifest :: m.Dynamic? && m.entries == entries ==> Ids(Bases(m)) == Ids(bases)
  {
    forall m: Manifest | m.Dynamic? && m.entries == entries ensures Ids(Bases(m)) == Ids(bases) {
      forall id ensures id in Ids(Bases(m)) <==> id in Ids(bases) {
        if id in Ids(Bases(m)) {
          var i :| 0 <= i < |entries| && Bases(m)[i].id == id;
          assert bases[i].id == id;
        }
        if id in Ids(bases) {
          var i :| 0 <= i < |bases| && bases[i].id == id;
          assert Bases(m)[i].id == id;
        }
      }
    }
  }

  lemma AppendedIds(p: Progress, q: Progress, bases: seq<Base>, id: int)
    requires |p.entries| == |bases| && forall i :: 0 <= i < |bases| ==> p.entries[i].base.id == bases[i].id
    requires |q.entries| == |p.entries| + 1 && q.entries[..|p.entries|] == p.entries && q.entries[|p.entries|].base.id == id
    requires p.nodes.Keys == Ids(bases) && q.nodes.Keys == p.nodes.Keys + {id}
    ensures forall m: Manifest :: m.Dynamic? && m.entries == q.entries ==> Ids(Bases(m)) == q.nodes.Keys
  {
    forall m: Manifest | m.Dynamic? && m.entries == q.entries ensures Ids(Bases(m)) == q.nodes.Keys {
      forall x ensures x in Ids(Bases(m)) <==> x in Ids(bases) + {id} {
        if x in Ids(Bases(m)) {
          var i :| 0 <= i < |q.entries| && Bases(m)[i].id == x;
          if i < |bases| {
            assert q.entries[i] == p.entries[i] && bases[i].id == x;
          }
        }
        if x in Ids(bases) {
          var i :| 0 <= i < |bases| && bases[i].id == x;
          assert q.entries[i] == p.entries[i] && Bases(m)[i].id == x;
        }
        assert Bases(m)[|bases|].id == id;
      }
    }
  }

  lemma AppendedAgrees(p: Progress, q: Progress, d: Desired, operation: int)
    requires forall i :: 0 <= i < |p.entries| ==> NodeAgrees(p.entries[i], p.nodes)
    requires d.base.id !in p.nodes
    requires q.entries == p.entries + [NewEntry(d)] && q.nodes == p.nodes[d.base.id := NewNode(d, operation)]
    ensures forall i :: 0 <= i < |q.entries| ==> NodeAgrees(q.entries[i], q.nodes)
  {
  }

  // ----- exactly one node changes -----

  // what a projection of an agreeing registry does to one node
  ghost predicate NodeChange(before: Entry, after: Entry, r: NodeState, s: NodeState, plan: Plan)
    requires plan.desired.Some?
  {
    var d := plan.desired.value;
    if before.base.id != d.base.id then after == before && s == r
    else if before.base == d.base && before.compatibility == d.compatibility then after == before && s == r
    else
      && after.base == d.base && after.compatibility == d.compatibility
      && after.revision == before.revision + 1 && after.epoch == before.epoch + 1
      && r.route.mode.Sealed? && (r.route.operation == Some(plan.operation) || r.route.operation == Some(BOOTSTRAP))
      && s.adapter == d.base.adapter && s.registration == Some(Registration(before.revision + 1, d.compatibility))
      && SealedAnew(r.route, s.route, plan.operation)
  }

  // sealed by the operation, with the next state version and identity epoch and no adapter version yet
  predicate SealedAnew(before: Route, after: Route, operation: Operation) {
    && after.mode.Sealed? && after.operation == Some(operation) && !after.projected
    && after.stateVersion == before.stateVersion + 1 && after.epoch == before.epoch + 1
    && after.generation == before.generation && after.version == 0
  }

  // a node the router did not know: sealed by the operation, at the first registration, epoch and state
  predicate Admitted(d: Desired, operation: Operation, e: Entry, s: NodeState) {
    && e.base == d.base && e.compatibility == d.compatibility && e.revision == 1 && e.epoch == 1
    && s.adapter == d.base.adapter && s.registration == Some(Registration(1, d.compatibility))
    && s.route.mode.Sealed? && s.route.operation == Some(operation) && !s.route.projected
    && s.route.stateVersion == 1 && s.route.generation == 0 && s.route.epoch == 1 && s.route.version == 0
  }

  lemma NodeChanges(state: RouterState, i: nat, plan: Plan)
    requires Agreement(state) && plan.desired.Some? && i < |state.registry.entries|
    requires state.registry.entries[i].base.id in state.nodes
    requires ProjectNode(state.registry, i, state.nodes[state.registry.entries[i].base.id], plan).Some?
    ensures var before := state.registry.entries[i]; var r := state.nodes[before.base.id];
      var one := ProjectNode(state.registry, i, r, plan).value;
      && NodeChange(before, one.entry, r, one.node, plan)
      && (one.changed <==>
            && before.base.id == plan.desired.value.base.id
            && (before.base != plan.desired.value.base || before.compatibility != plan.desired.value.compatibility))
  {
    assert NodeAgrees(state.registry.entries[i], state.nodes);
  }

  lemma {:induction false} NodesChange(state: RouterState, plan: Plan, n: nat)
    requires Agreement(state) && plan.desired.Some? && n <= |state.registry.entries|
    requires ProjectNodes(state.registry, state.nodes, plan, n).Some?
    ensures var p := ProjectNodes(state.registry, state.nodes, plan, n).value;
      && |p.entries| == n && p.nodes.Keys == Ids(Bases(state.registry)[..n])
      && forall i :: 0 <= i < n ==>
           var id := state.registry.entries[i].base.id;
           id in p.nodes && id in state.nodes && NodeChange(state.registry.entries[i], p.entries[i], state.nodes[id], p.nodes[id], plan)
  {
    hide ProjectNode, NodeChange, Ids, RouteAgrees;
    NodesAgree(state.registry, state.nodes, plan, n);
    if n > 0 {
      var entries := state.registry.entries;
      NodesChange(state, plan, n - 1);
      var p := ProjectNodes(state.registry, state.nodes, plan, n - 1).value;
      var q := ProjectNodes(state.registry, state.nodes, plan, n).value;
      var last := entries[n - 1].base.id;
      IdsHas(Bases(state.registry), n - 1);
      NodeChanges(state, n - 1, plan);
      forall i | 0 <= i < n
        ensures var id := entries[i].base.id;
          id in q.nodes && id in state.nodes && NodeChange(entries[i], q.entries[i], state.nodes[id], q.nodes[id], plan)
      {
        if i < n - 1 {
          assert Bases(state.registry)[i].id != Bases(state.registry)[n - 1].id;
          assert q.entries[i] == p.entries[i] && q.nodes[entries[i].base.id] == p.nodes[entries[i].base.id];
        }
      }
    }
  }

  // Exactly the desired node changes: a known one goes up by one in revision and epoch and is left
  // sealed by the operation, a new one is appended; every other entry and route stays as it is.
  lemma OneNodeChanges(state: RouterState, plan: Plan)
    requires Agreement(state) && Project(state.registry, state, plan).Some?
    ensures plan.desired.Some?
    ensures var next := Project(state.registry, state, plan).value; var d := plan.desired.value; var n := |state.registry.entries|;
      && (forall i :: 0 <= i < n ==>
            var id := state.registry.entries[i].base.id;
            && i < |next.registry.entries| && id in state.nodes && id in next.nodes
            && NodeChange(state.registry.entries[i], next.registry.entries[i], state.nodes[id], next.nodes[id], plan))
      && (if d.base.id in state.nodes then |next.registry.entries| == n && next.nodes.Keys == state.nodes.Keys
          else |next.registry.entries| == n + 1 && next.nodes.Keys == state.nodes.Keys + {d.base.id}
               && Admitted(d, plan.operation, next.registry.entries[n], next.nodes[d.base.id]))
      && next.registry.version == state.registry.version + 1 && next.registry.owner == state.registry.owner && next.registry.live == state.registry.live
  {
    hide ProjectNode, ProjectNodes, NodeChange, Ids, RouteAgrees;
    var bases := Bases(state.registry);
    NodesChange(state, plan, |bases|);
    WholeIds(bases);
  }

  // What an accepted projection makes of one node, and what it asked of it: the router had it with the adapter,
  // registration and epoch of the manifest. A legacy manifest gives each node its first registration.
  ghost predicate FromNode(m: Manifest, i: nat, r: NodeState, after: Entry, s: NodeState, plan: Plan)
    requires i < |Bases(m)| && (m.Legacy? ==> plan.legacy.Some?)
  {
    var base := Bases(m)[i];
    var revision := if m.Dynamic? then m.entries[i].revision else m.version;
    var epoch := if m.Dynamic? then m.entries[i].epoch else if r.route.epoch >= 1 then r.route.epoch else 1;
    var kind := if m.Dynamic? then m.entries[i].compatibility else plan.legacy.value;
    var desired := if plan.desired.Some? && plan.desired.value.base.id == base.id then plan.desired.value else Desired(base, kind);
    && r.adapter == base.adapter
    && (m.Dynamic? ==> r.registration == Some(Registration(revision, kind)) && r.route.epoch == epoch)
    && (desired.compatibility.LegacyReadonly? ==> r.route.mode.Sealed?)
    && after.base == desired.base && after.compatibility == desired.compatibility
    && s.registration == Some(Registration(after.revision, after.compatibility)) && s.adapter == after.base.adapter && s.route.epoch == after.epoch
    && if desired.base == base && (m.Legacy? || desired.compatibility == kind) then
         after.revision == revision && after.epoch == epoch && s.route == r.route.(epoch := epoch)
       else
         && after.revision == revision + 1 && after.epoch == r.route.epoch + 1
         && r.route.mode.Sealed? && (r.route.operation == Some(plan.operation) || r.route.operation == Some(BOOTSTRAP))
         && SealedAnew(r.route, s.route, plan.operation)
  }

  lemma OneNodeFrom(m: Manifest, i: nat, r: NodeState, plan: Plan)
    requires i < |Bases(m)| && (m.Legacy? ==> plan.legacy.Some?) && ProjectNode(m, i, r, plan).Some?
    ensures var one := ProjectNode(m, i, r, plan).value; FromNode(m, i, r, one.entry, one.node, plan)
  {
  }

  lemma {:induction false} NodesFrom(m: Manifest, nodes: map<int, NodeState>, plan: Plan, n: nat)
    requires n <= |Bases(m)| && (m.Legacy? ==> plan.legacy.Some?) && Ids(Bases(m)) <= nodes.Keys && UniqueBindings(Bases(m))
    requires ProjectNodes(m, nodes, plan, n).Some?
    ensures var p := ProjectNodes(m, nodes, plan, n).value;
      |p.entries| == n
      && forall i :: 0 <= i < n ==>
           var id := Bases(m)[i].id; id in nodes && id in p.nodes && FromNode(m, i, nodes[id], p.entries[i], p.nodes[id], plan)
  {
    hide ProjectNode, Ids, FromNode;
    if n > 0 {
      NodesFrom(m, nodes, plan, n - 1);
      IdsHas(Bases(m), n - 1);
      OneNodeFrom(m, n - 1, nodes[Bases(m)[n - 1].id], plan);
    }
  }

  // Every node of an accepted projection comes from what manifest and router agreed on, one version later.
  lemma ProjectMeans(m: Manifest, state: RouterState, plan: Plan)
    requires Project(m, state, plan).Some?
    ensures var next := Project(m, state, plan).value; var n := |Bases(m)|;
      && state.registry == m && (m.Dynamic? <==> state.projected) && next.projected && next.registry.Dynamic?
      && next.registry.version == m.version + 1 && next.registry.owner == m.owner && next.registry.live == m.live
      && n <= |next.registry.entries| <= n + 1
      && (forall i :: 0 <= i < n ==>
            var id := Bases(m)[i].id;
            && id in state.nodes && id in next.nodes && (m.Legacy? ==> plan.legacy.Some?)
            && FromNode(m, i, state.nodes[id], next.registry.entries[i], next.nodes[id], plan))
      && (|next.registry.entries| == n + 1 ==>
            && plan.desired.Some? && plan.desired.value.base.id !in state.nodes && plan.desired.value.base.id in next.nodes
            && Admitted(plan.desired.value, plan.operation, next.registry.entries[n], next.nodes[plan.desired.value.base.id]))
  {
    hide ProjectNode, FromNode, Ids;
    NodesFrom(m, state.nodes, plan, |Bases(m)|);
    WholeIds(Bases(m));
    forall i | 0 <= i < |Bases(m)| ensures Bases(m)[i].id in state.nodes {
      IdsHas(Bases(m), i);
    }
  }

  // ----- when a projection is accepted -----

  predicate Targets(e: Entry, d: Desired) {
    e.base.id == d.base.id
  }

  predicate Differs(e: Entry, d: Desired) {
    e.base != d.base || e.compatibility != d.compatibility
  }

  // the node may be changed: it is sealed by this operation or was never opened, and its numbers are not exhausted
  predicate MayChange(e: Entry, r: NodeState, d: Desired, operation: Operation) {
    && r.route.mode.Sealed? && (r.route.operation == Some(operation) || r.route.operation == Some(BOOTSTRAP))
    && e.revision < MAXIMUM_SAFE_INTEGER && e.epoch < MAXIMUM_SAFE_INTEGER
  }

  // a desired node that is known and already as desired changes nothing
  predicate NodePasses(e: Entry, r: NodeState, plan: Plan) {
    plan.desired.Some? && Targets(e, plan.desired.value) && Differs(e, plan.desired.value) ==>
      MayChange(e, r, plan.desired.value, plan.operation)
  }

  lemma NodePassesIff(state: RouterState, i: nat, plan: Plan)
    requires Agreement(state) && plan.desired.Some? && i < |state.registry.entries|
    requires state.registry.entries[i].base.id in state.nodes
    ensures var e := state.registry.entries[i]; var one := ProjectNode(state.registry, i, state.nodes[e.base.id], plan);
      && (one.Some? <==> NodePasses(e, state.nodes[e.base.id], plan))
      && (one.Some? ==> one.value.changed == (Targets(e, plan.desired.value) && Differs(e, plan.desired.value)))
  {
    assert NodeAgrees(state.registry.entries[i], state.nodes);
  }

  // some entry before n is the desired node and not as desired
  ghost predicate ChangeBefore(state: RouterState, d: Desired, n: nat)
    requires state.registry.Dynamic? && n <= |state.registry.entries|
  {
    exists i :: 0 <= i < n && Targets(state.registry.entries[i], d) && Differs(state.registry.entries[i], d)
  }

  ghost predicate AllPass(state: RouterState, plan: Plan, n: nat)
    requires state.registry.Dynamic? && n <= |state.registry.entries|
  {
    forall i :: 0 <= i < n ==>
      state.registry.entries[i].base.id in state.nodes && NodePasses(state.registry.entries[i], state.nodes[state.registry.entries[i].base.id], plan)
  }

  lemma {:induction false} NodesPassIff(state: RouterState, plan: Plan, n: nat)
    requires Agreement(state) && plan.desired.Some? && n <= |state.registry.entries| && Ids(Bases(state.registry)) <= state.nodes.Keys
    ensures var p := ProjectNodes(state.registry, state.nodes, plan, n);
      && (p.Some? <==> AllPass(state, plan, n))
      && (p.Some? ==> p.value.changes == if ChangeBefore(state, plan.desired.value, n) then 1 else 0)
  {
    hide ProjectNode, Ids, NodePasses, RouteAgrees;
    if n > 0 {
      NodesPassIff(state, plan, n - 1);
      IdsHas(Bases(state.registry), n - 1);
      NodePassesIff(state, n - 1, plan);
      if Targets(state.registry.entries[n - 1], plan.desired.value) {
        assert forall i :: 0 <= i < n ==> Bases(state.registry)[i] == state.registry.entries[i].base;
        assert forall i :: 0 <= i < n - 1 ==> Bases(state.registry)[i].id != Bases(state.registry)[n - 1].id;
        assert forall i :: 0 <= i < n - 1 ==> !Targets(state.registry.entries[i], plan.desired.value);
      }
    }
  }

  // The desired pin is bound to no other node.
  ghost predicate PinIsFree(m: Manifest, d: Desired)
    requires m.Dynamic?
  {
    forall i :: 0 <= i < |m.entries| && !Targets(m.entries[i], d) ==> m.entries[i].base.pin != d.base.pin
  }

  // a manifest with the desired node in its place, or at the end, is valid exactly if the pin is free
  ghost predicate Replaced(m: Manifest, d: Desired, entries: seq<Entry>)
    requires m.Dynamic?
  {
    && |m.entries| <= |entries| <= |m.entries| + 1
    && (forall i :: 0 <= i < |m.entries| ==>
          && entries[i].base == (if Targets(m.entries[i], d) then d.base else m.entries[i].base)
          && SafeInteger(entries[i].revision) && SafeInteger(entries[i].epoch))
    && ((exists i :: 0 <= i < |m.entries| && Targets(m.entries[i], d)) <==> |entries| == |m.entries|)
    && (|entries| > |m.entries| ==>
          var e := entries[|m.entries|]; e.base == d.base && SafeInteger(e.revision) && SafeInteger(e.epoch))
  }

  lemma ReplacedIsValidIff(m: Manifest, d: Desired, entries: seq<Entry>)
    requires m.Dynamic? && ValidManifest(m) && Replaced(m, d, entries)
    ensures ValidManifest(Dynamic(m.version + 1, m.owner, m.live, entries)) <==>
              m.version < MAXIMUM_SAFE_INTEGER && |entries| <= CAPACITY && PinIsFree(m, d)
  {
    var c := Dynamic(m.version + 1, m.owner, m.live, entries);
    assert forall i :: 0 <= i < |entries| ==> Bases(c)[i] == entries[i].base;
    assert forall i :: 0 <= i < |m.entries| ==> Bases(m)[i] == m.entries[i].base;
    var k :| 0 <= k < |entries| && entries[k].base == d.base && (k == |m.entries| || Targets(m.entries[k], d));
    if UniqueBindings(Bases(c)) {
      forall i | 0 <= i < |m.entries| && !Targets(m.entries[i], d) ensures m.entries[i].base.pin != d.base.pin {
        assert i != k && (if i < k then Bases(c)[i].pin != Bases(c)[k].pin else Bases(c)[k].pin != Bases(c)[i].pin);
      }
    }
    if PinIsFree(m, d) {
      forall i, j | 0 <= i < j < |entries| ensures Bases(c)[i].id != Bases(c)[j].id && Bases(c)[i].pin != Bases(c)[j].pin {
        assert j < |m.entries| ==> Bases(m)[i].id != Bases(m)[j].id && Bases(m)[i].pin != Bases(m)[j].pin;
      }
    }
  }

  // what the loop leaves is such a manifest
  lemma LoopReplaces(state: RouterState, plan: Plan)
    requires Agreement(state) && plan.desired.Some? && plan.legacy.None? && Ids(Bases(state.registry)) == state.nodes.Keys
    requires ProjectNodes(state.registry, state.nodes, plan, |state.registry.entries|).Some?
    requires AllPass(state, plan, |state.registry.entries|)
    ensures var p := ProjectNodes(state.registry, state.nodes, plan, |state.registry.entries|).value; var d := plan.desired.value;
      Replaced(state.registry, d, if d.base.id in state.nodes then p.entries else p.entries + [NewEntry(d)])
  {
    hide ProjectNode, ProjectNodes, FromNode, NodePasses;
    var m, d := state.registry, plan.desired.value;
    var p := ProjectNodes(m, state.nodes, plan, |m.entries|).value;
    NodesFrom(m, state.nodes, plan, |m.entries|);
    var entries := if d.base.id in state.nodes then p.entries else p.entries + [NewEntry(d)];
    forall i | 0 <= i < |m.entries|
      ensures entries[i].base == (if Targets(m.entries[i], d) then d.base else m.entries[i].base)
      ensures SafeInteger(entries[i].revision) && SafeInteger(entries[i].epoch)
    {
      PlaceReplaced(state, i, p.entries[i], p.nodes[Bases(m)[i].id], plan);
    }
    TargetIsKnown(state, d);
  }

  lemma PlaceReplaced(state: RouterState, i: nat, after: Entry, s: NodeState, plan: Plan)
    requires Agreement(state) && plan.desired.Some? && plan.legacy.None? && i < |state.registry.entries|
    requires var id := state.registry.entries[i].base.id;
      id in state.nodes && NodePasses(state.registry.entries[i], state.nodes[id], plan)
      && FromNode(state.registry, i, state.nodes[id], after, s, plan)
    ensures var d := plan.desired.value; var e := state.registry.entries[i];
      && after.base == (if Targets(e, d) then d.base else e.base)
      && SafeInteger(after.revision) && SafeInteger(after.epoch)
  {
    assert NodeAgrees(state.registry.entries[i], state.nodes);
  }

  lemma TargetIsKnown(state: RouterState, d: Desired)
    requires Agreement(state)
    ensures (exists i :: 0 <= i < |state.registry.entries| && Targets(state.registry.entries[i], d)) <==> d.base.id in state.nodes
  {
    assert forall i :: 0 <= i < |state.registry.entries| ==> Bases(state.registry)[i] == state.registry.entries[i].base;
    if d.base.id in state.nodes {
      assert d.base.id in Ids(Bases(state.registry));
      var i :| 0 <= i < |Bases(state.registry)| && Bases(state.registry)[i].id == d.base.id;
      assert Targets(state.registry.entries[i], d);
    } else {
      forall i | 0 <= i < |state.registry.entries| ensures !Targets(state.registry.entries[i], d) {
        IdsHas(Bases(state.registry), i);
      }
    }
  }

  // From an agreeing registry a projection is accepted if and only if a version is left, no route carries a seal
  // projection, the desired node's pin is free, and the node either is new and there is room for it or differs
  // from what is desired and may be changed.
  lemma AcceptedIff(state: RouterState, plan: Plan)
    requires Agreement(state)
    ensures Project(state.registry, state, plan).Some? <==>
      && plan.desired.Some? && plan.legacy.None? && state.registry.version < MAXIMUM_SAFE_INTEGER
      && (forall id :: id in state.nodes ==> !state.nodes[id].route.projected)
      && PinIsFree(state.registry, plan.desired.value)
      && (if plan.desired.value.base.id in state.nodes then
            exists i :: 0 <= i < |state.registry.entries|
              && var e := state.registry.entries[i];
              Targets(e, plan.desired.value) && Differs(e, plan.desired.value)
              && MayChange(e, state.nodes[plan.desired.value.base.id], plan.desired.value, plan.operation)
          else |state.registry.entries| < CAPACITY)
  {
    hide ProjectNode, ProjectNodes, NodeAgrees, MayChange, Replaced, ValidManifest, Ids, AllPass, ChangeBefore;
    AgreementIsValid(state);
    if plan.desired.Some? && plan.legacy.None? {
      var m, d, n := state.registry, plan.desired.value, |state.registry.entries|;
      NodesPassIff(state, plan, n);
      TargetIsKnown(state, d);
      OnlyOneTarget(m, d);
      PassingIsMayChange(state, plan);
      var p := ProjectNodes(m, state.nodes, plan, n);
      if p.Some? {
        LoopReplaces(state, plan);
        NodesFrom(m, state.nodes, plan, n);
        ReplacedIsValidIff(m, d, if d.base.id in state.nodes then p.value.entries else p.value.entries + [NewEntry(d)]);
      }
    }
  }

  // every node passes and one changes, exactly if the desired one is known, differs and may be changed
  lemma PassingIsMayChange(state: RouterState, plan: Plan)
    requires Agreement(state) && plan.desired.Some?
    ensures var d := plan.desired.value; var n := |state.registry.entries|;
      && (d.base.id in state.nodes ==>
            (AllPass(state, plan, n) && ChangeBefore(state, d, n) <==>
               exists i :: 0 <= i < n && Targets(state.registry.entries[i], d) && Differs(state.registry.entries[i], d)
                 && MayChange(state.registry.entries[i], state.nodes[d.base.id], d, plan.operation)))
      && (d.base.id !in state.nodes ==> AllPass(state, plan, n) && !ChangeBefore(state, d, n))
  {
    hide MayChange, RouteAgrees, ValidManifest, Ids;
    var d, n := plan.desired.value, |state.registry.entries|;
    AgreementIsValid(state);
    OnlyOneTarget(state.registry, d);
    TargetIsKnown(state, d);
    assert forall i :: 0 <= i < n ==> NodeAgrees(state.registry.entries[i], state.nodes);
  }

  lemma AgreementIsValid(state: RouterState)
    requires Agreement(state)
    ensures state.registry.Dynamic? && ValidManifest(state.registry) && UniqueBindings(Bases(state.registry))
    ensures Ids(Bases(state.registry)) == state.nodes.Keys
  {
  }

  lemma OnlyOneTarget(m: Manifest, d: Desired)
    requires m.Dynamic? && ValidManifest(m)
    ensures forall i, j :: 0 <= i < |m.entries| && 0 <= j < |m.entries| && Targets(m.entries[i], d) && Targets(m.entries[j], d) ==> i == j
    ensures 0 < |m.entries| <= CAPACITY
  {
    assert forall i :: 0 <= i < |m.entries| ==> Bases(m)[i] == m.entries[i].base;
  }

  // and the change is never empty
  lemma ChangeIsReal(state: RouterState, plan: Plan)
    requires Agreement(state) && Project(state.registry, state, plan).Some?
    ensures Project(state.registry, state, plan).value.registry.entries != state.registry.entries
  {
    hide ProjectNode, Ids, RouteAgrees;
    var m := state.registry;
    var p := ProjectNodes(m, state.nodes, plan, |Bases(m)|).value;
    if plan.desired.value.base.id in Ids(Bases(m)) {
      ChangesAreReal(state, plan, |Bases(m)|);
    } else {
      NodesAgree(m, state.nodes, plan, |Bases(m)|);
    }
  }

  lemma {:induction false} ChangesAreReal(state: RouterState, plan: Plan, n: nat)
    requires Agreement(state) && plan.desired.Some? && n <= |state.registry.entries|
    requires ProjectNodes(state.registry, state.nodes, plan, n).Some?
    ensures var p := ProjectNodes(state.registry, state.nodes, plan, n).value;
      |p.entries| == n && (p.changes > 0 ==> p.entries != state.registry.entries[..n])
  {
    hide ProjectNode, Ids, RouteAgrees;
    if n > 0 {
      ChangesAreReal(state, plan, n - 1);
      IdsHas(Bases(state.registry), n - 1);
      NodeChanges(state, n - 1, plan);
      var p := ProjectNodes(state.registry, state.nodes, plan, n - 1).value;
      var q := ProjectNodes(state.registry, state.nodes, plan, n).value;
      assert q.entries[..n - 1] == p.entries;
      if q.entries == state.registry.entries[..n] {
        assert q.entries[..n - 1] == state.registry.entries[..n - 1];
        assert q.entries[n - 1] == state.registry.entries[n - 1];
      }
    }
  }

  // ----- chains of projections, with the router at work between them -----

  datatype Link =
    | Projection(plan: Plan)
    | Transition(id: int, action: Action, operation: Operation, request: Request, ready: bool)

  // One route is moved by a control action. The router validates its whole state before it writes it: a
  // readonly node is never eligible.
  function Transit(state: RouterState, id: int, action: Action, operation: Operation, request: Request, ready: bool): Option<RouterState> {
    if id !in state.nodes then None
    else
      var node := state.nodes[id];
      match NextState(action, operation, node.route, request, ready)
      case None => None
      case Some(next) =>
        if state.projected && next.mode.Eligible? && (node.registration.None? || !node.registration.value.compatibility.Compatible?) then None
        else Some(state.(nodes := state.nodes[id := node.(route := next)]))
  }

  ghost predicate Linked(before: RouterState, link: Link, after: RouterState) {
    match link
    case Projection(plan) => Project(before.registry, before, plan) == Some(after)
    case Transition(id, action, operation, request, ready) => Transit(before, id, action, operation, request, ready) == Some(after)
  }

  ghost predicate Chain(states: seq<RouterState>, links: seq<Link>) {
    |states| == |links| + 1 && forall i :: 0 <= i < |links| ==> Linked(states[i], links[i], states[i + 1])
  }

  // Drains, seals, activations, releases and aborts keep the agreement.
  lemma TransitionAgrees(before: RouterState, id: int, action: Action, operation: Operation, request: Request, ready: bool)
    requires Agreement(before) && Transit(before, id, action, operation, request, ready).Some?
    ensures var after := Transit(before, id, action, operation, request, ready).value;
      Agreement(after) && after.registry == before.registry
  {
    hide ValidManifest, NextState;
    var after := Transit(before, id, action, operation, request, ready).value;
    forall i | 0 <= i < |before.registry.entries| ensures NodeAgrees(before.registry.entries[i], after.nodes) {
      var e := before.registry.entries[i];
      assert NodeAgrees(e, before.nodes);
      if e.base.id == id {
        SafeEpoch(before.registry, i);
        RouteKeepsEpoch(action, operation, before.nodes[id].route, request, ready);
      }
    }
  }

  lemma SafeEpoch(m: Manifest, i: nat)
    requires m.Dynamic? && ValidManifest(m) && i < |m.entries|
    ensures m.entries[i].epoch >= 1
  {
  }

  // a known identity epoch is changed by no action, and a sealed route is left only for an eligible one
  lemma RouteKeepsEpoch(action: Action, operation: Operation, route: Route, request: Request, ready: bool)
    requires NextState(action, operation, route, request, ready).Some? && route.epoch >= 1
    ensures var next := NextState(action, operation, route, request, ready).value;
      next.epoch == route.epoch && (route.mode.Sealed? ==> next.mode.Eligible?)
  {
  }

  // a later registry extends an earlier one: same ids in the same places, nothing goes down
  ghost predicate Succeeds(before: RouterState, after: RouterState) {
    && before.registry.Dynamic? && after.registry.Dynamic?
    && before.registry.version <= after.registry.version
    && |before.registry.entries| <= |after.registry.entries|
    && forall i :: 0 <= i < |before.registry.entries| ==> EntrySucceeds(before.registry.entries[i], after.registry.entries[i])
  }

  // revision and epoch go up together, and while they stand still so does the whole entry
  predicate EntrySucceeds(before: Entry, after: Entry) {
    && after.base.id == before.base.id
    && after.revision - before.revision == after.epoch - before.epoch >= 0
    && (after.revision == before.revision ==> after == before)
  }

  lemma LinkSucceeds(before: RouterState, link: Link, after: RouterState)
    requires Agreement(before) && Linked(before, link, after)
    ensures Agreement(after) && Succeeds(before, after)
    ensures after.registry.version == before.registry.version + (if link.Projection? then 1 else 0)
  {
    hide Project, Transit, Agreement, ValidManifest;
    match link
    case Projection(plan) =>
      ProjectAgrees(before.registry, before, plan);
      OneNodeChanges(before, plan);
      AgreementIsDynamic(before);
      AgreementIsDynamic(after);
      forall i | 0 <= i < |before.registry.entries|
        ensures EntrySucceeds(before.registry.entries[i], after.registry.entries[i])
      {
        var id := before.registry.entries[i].base.id;
        assert NodeChange(before.registry.entries[i], after.registry.entries[i], before.nodes[id], after.nodes[id], plan);
      }
    case Transition(id, action, operation, request, ready) =>
      TransitionAgrees(before, id, action, operation, request, ready);
      AgreementIsDynamic(before);
  }

  lemma AgreementIsDynamic(state: RouterState)
    requires Agreement(state)
    ensures state.registry.Dynamic?
  {
  }

  // Composed any number of times, projections keep manifest and router in agreement, ids and pins
  // unique and every readonly node sealed, and no registration ever goes back.
  lemma {:induction false} ChainAgrees(states: seq<RouterState>, links: seq<Link>)
    requires Chain(states, links) && Agreement(states[0])
    ensures Agreement(states[|links|]) && Succeeds(states[0], states[|links|])
    ensures states[|links|].registry.version == states[0].registry.version + Projections(links)
  {
    hide Agreement, Linked;
    if links == [] {
      AgreementIsDynamic(states[0]);
    } else {
      var n := |links| - 1;
      assert Chain(states[..n + 1], links[..n]);
      ChainAgrees(states[..n + 1], links[..n]);
      LinkSucceeds(states[n], links[n], states[n + 1]);
    }
  }

  function Projections(links: seq<Link>): nat {
    if links == [] then 0 else Projections(links[..|links| - 1]) + (if links[|links| - 1].Projection? then 1 else 0)
  }

  // The one-time upgrade of a legacy manifest gives every node a registration; from then on the chain
  // keeps what it gave.
  lemma UpgradeThenChain(m: Manifest, state: RouterState, plan: Plan, states: seq<RouterState>, links: seq<Link>)
    requires m.Legacy? && Project(m, state, plan).Some?
    requires Chain(states, links) && states[0] == Project(m, state, plan).value
    ensures Agreement(states[|links|]) && states[|links|].registry.version == m.version + 1 + Projections(links)
    ensures forall i :: 0 <= i < |m.bases| ==>
              i < |states[|links|].registry.entries| && states[|links|].registry.entries[i].base.id == m.bases[i].id
              && states[|links|].registry.entries[i].revision >= m.version
  {
    hide Agreement, Linked, Project;
    ProjectAgrees(m, state, plan);
    ChainAgrees(states, links);
    UpgradeKeepsPlaces(m, state, plan);
    forall i | 0 <= i < |m.bases|
      ensures i < |states[|links|].registry.entries| && states[|links|].registry.entries[i].base.id == m.bases[i].id
      ensures states[|links|].registry.entries[i].revision >= m.version
    {
      assert EntrySucceeds(states[0].registry.entries[i], states[|links|].registry.entries[i]);
    }
  }

  lemma UpgradeKeepsPlaces(m: Manifest, state: RouterState, plan: Plan)
    requires m.Legacy? && Project(m, state, plan).Some?
    ensures var next := Project(m, state, plan).value;
      && next.registry.Dynamic? && |next.registry.entries| >= |m.bases|
      && forall i :: 0 <= i < |m.bases| ==>
           next.registry.entries[i].base.id == m.bases[i].id && next.registry.entries[i].revision >= m.version
  {
    hide ProjectNode, Ids;
    UpgradeRevisions(m, state.nodes, plan, |m.bases|);
  }

  lemma {:induction false} UpgradeRevisions(m: Manifest, nodes: map<int, NodeState>, plan: Plan, n: nat)
    requires m.Legacy? && plan.legacy.Some? && n <= |m.bases| && Ids(Bases(m)) <= nodes.Keys
    requires ProjectNodes(m, nodes, plan, n).Some?
    ensures var p := ProjectNodes(m, nodes, plan, n).value;
      |p.entries| == n && forall i :: 0 <= i < n ==> p.entries[i].base.id == m.bases[i].id && p.entries[i].revision >= m.version
  {
    if n > 0 {
      UpgradeRevisions(m, nodes, plan, n - 1);
    }
  }
}
