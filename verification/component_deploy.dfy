// The component installer: a journal on disk, routes fenced at the router by compare-and-swap, and a
// container whose replacement may land late (scripts/component_deploy.py,
// internal/harnessrouter/control.go). The process may die at any effect; what the journal then says
// has to be true of the routes and the container.
module ComponentDeploy {
  import opened Common
  import opened RouterControl

  type Node = int

  datatype Manifest = Manifest(image: int, adapterVersion: int)

  // ----- the installer's view of the router -----

  datatype Identity = Identity(epoch: int, registry: int, version: int)

  // RouterControl.projected: what the installer expects a committed transition to leave
  function Projected(action: Action, route: Route, operation: Operation, identity: Identity): Route
    requires action.Drain? || action.LegacySeal? || action.Activate? || action.Abort?
  {
    var desired := route.(stateVersion := route.stateVersion + 1);
    match action
    case Drain => desired.(mode := Draining, operation := Some(operation))
    case LegacySeal => desired.(mode := Sealed)
    case _ => desired.(mode := Eligible, generation := route.generation + 1, epoch := identity.epoch, version := identity.version,
                       operation := None)
  }

  // the request transition_many sends for a node
  function RequestFor(action: Action, route: Route, identity: Identity): Request {
    if action.Activate? || action.Abort?
    then Request(route.mode, route.stateVersion, route.generation, identity.epoch, identity.version, false, false)
    else Request(route.mode, route.stateVersion, route.generation, 0, 0, false, false)
  }

  // The installer's projection is exactly what the router commits, so reading the routes back after
  // a lost reply tells whether the transition happened.
  lemma ProjectionIsExact(action: Action, operation: Operation, route: Route, identity: Identity, ready: bool)
    requires action.Drain? || action.LegacySeal? || action.Activate? || action.Abort?
    requires !route.projected
    ensures var next := NextState(action, operation, route, RequestFor(action, route, identity), ready);
      && (next.Some? ==> next.value == Projected(action, route, operation, identity))
      && Projected(action, route, operation, identity) != route
  {
  }

  // ----- the journal -----

  datatype Phase =
    Prepared | SealedRoutes | ReplaceStarted | ReplaceUnknown | TargetVerified | RestoreStarted | PriorVerified | ActivationPending

  datatype Slot = Slot(current: Manifest, previous: Option<Manifest>)

  // component is the node that the replaced component runs, if it runs one
  datatype Pending = Pending(component: Option<Node>, prior: Manifest, target: Manifest, operation: Operation, phase: Phase, rollback: bool,
                             identities: map<Node, Identity>, priorContainer: int, priorSlot: Slot,
                             sealedRoutes: map<Node, Route>, targetIdentities: map<Node, Identity>)

  datatype Ledger = Ledger(slot: Slot, pending: Option<Pending>)

  datatype Effect = Done | Raised | Crashed

  datatype Seen = Desired | Alternate | Nothing

  datatype Result = AlreadyCurrent | Deployed | RolledBack | DeployedAfterRestart | RolledBackAfterRestart | PriorRetained | NothingPending

  datatype Outcome = Returned(result: Result) | Failed | Killed

  // how far the body of apply got: no replacement journalled, replaced for certain, or past the point
  // where an inverse mutation may be issued
  datatype Reached = BeforeReplace | Replaced | PointOfNoReturn

  // what a replacement of the container ended in
  datatype Replacement = ReplacedForSure | ReplacedAfterUnknown | Unclear | Died

  // ----- the world a process finds -----

  // busy are the nodes with work in flight, outstanding is a mutation the daemon accepted and has not finished
  datatype World = World(routes: map<Node, Route>, busy: set<Node>, running: Manifest, container: int, outstanding: Option<Manifest>)

  predicate Quiet(w: World, affected: set<Node>) {
    forall n :: n in affected ==> n !in w.busy
  }

  // sealed by the operation, with nothing in flight
  ghost predicate Fenced(w: World, affected: set<Node>, operation: Operation) {
    forall n :: n in affected ==>
      n in w.routes && w.routes[n].mode.Sealed? && w.routes[n].operation == Some(operation) && n !in w.busy
  }

  // activated or aborted: no affected route carries the operation any more
  ghost predicate Released(w: World, affected: set<Node>, operation: Operation) {
    forall n :: n in affected ==> n in w.routes && w.routes[n].operation != Some(operation)
  }

  // Routes that were reopened: eligible, in no operation's hands, for the identities that were found.
  ghost predicate OpenFor(reopened: map<Node, Route>, identities: map<Node, Identity>) {
    && reopened.Keys == identities.Keys
    && forall n :: n in reopened ==>
         && reopened[n].mode.Eligible? && reopened[n].operation.None?
         && reopened[n].epoch == identities[n].epoch && reopened[n].version == identities[n].version
  }

  // They were reopened, and since then at most other operations moved them.
  ghost predicate WasReopened(w: World, operation: Operation, identities: map<Node, Identity>) {
    Released(w, identities.Keys, operation) && exists reopened :: OpenFor(reopened, identities) && Since(reopened, w)
  }

  // what verify_candidate asks of the nodes: the identities of before, the component's own with the
  // adapter version of the manifest
  function CandidateIdentities(component: Option<Node>, before: map<Node, Identity>, manifest: Manifest): (r: map<Node, Identity>)
    ensures r.Keys == before.Keys
  {
    map n | n in before :: if component == Some(n) then before[n].(version := manifest.adapterVersion) else before[n]
  }

  ghost predicate Drained(w: World, affected: set<Node>, operation: Operation) {
    forall n :: n in affected ==> n in w.routes && w.routes[n].mode.Draining? && w.routes[n].operation == Some(operation)
  }

  ghost predicate Settled(w: World, manifest: Manifest) {
    w.running == manifest && w.outstanding.None?
  }

  // a mutation toward one image, issued while the other was running
  ghost predicate Moving(w: World, source: Manifest, goal: Manifest) {
    Settled(w, source) || Settled(w, goal) || (w.running == source && w.outstanding == Some(goal))
  }

  ghost predicate AsRecorded(w: World, affected: set<Node>, sealed: map<Node, Route>) {
    forall n :: n in affected ==> n in w.routes && n in sealed && w.routes[n] == sealed[n]
  }

  // What a journal promises about the world. Without a pending operation the current image runs and
  // nothing is under way. From replace_started on the affected routes are sealed by the operation
  // until it has been activated or aborted.
  ghost predicate Promises(l: Ledger, w: World, affected: set<Node>) {
    if l.pending.None? then Settled(w, l.slot.current)
    else
      var p := l.pending.value;
      && p.prior != p.target && p.priorSlot.current == p.prior && p.identities.Keys == affected
      && affected <= w.routes.Keys
      && (if p.phase.ActivationPending? then l.slot == Slot(p.target, Some(p.prior)) else l.slot == p.priorSlot)
      && PhasePromises(p, w, affected)
  }

  ghost predicate PhasePromises(p: Pending, w: World, affected: set<Node>) {
    var aborted := Released(w, affected, p.operation) && Settled(w, p.prior);
    match p.phase
    case Prepared => Settled(w, p.prior)
    case SealedRoutes => Settled(w, p.prior)
    case ReplaceStarted => aborted || (Fenced(w, affected, p.operation) && Moving(w, p.prior, p.target))
    case ReplaceUnknown => aborted || (Fenced(w, affected, p.operation) && Moving(w, p.prior, p.target))
    case TargetVerified => aborted || (Fenced(w, affected, p.operation) && Moving(w, p.prior, p.target))
    case RestoreStarted => aborted || (Fenced(w, affected, p.operation) && Moving(w, p.target, p.prior))
    case PriorVerified => aborted || (Fenced(w, affected, p.operation) && Settled(w, p.prior))
    case ActivationPending =>
      && Settled(w, p.target)
      && p.sealedRoutes.Keys == affected && p.targetIdentities == CandidateIdentities(p.component, p.identities, p.target)
      && (forall n :: n in affected ==>
            p.sealedRoutes[n].mode.Sealed? && p.sealedRoutes[n].operation == Some(p.operation) && !p.sealedRoutes[n].projected)
      && (Released(w, affected, p.operation) || (AsRecorded(w, affected, p.sealedRoutes) && Quiet(w, affected)))
  }

  predicate Owns(l: Ledger, operation: Operation) {
    l.pending.Some? ==> l.pending.value.operation == operation
  }

  // the routes were once as read: a route that moved on has a higher version
  ghost predicate Since(earlier: map<Node, Route>, w: World) {
    forall n :: n in earlier ==> n in w.routes && (w.routes[n] == earlier[n] || w.routes[n].stateVersion > earlier[n].stateVersion)
  }

  // What happens while the process is not looking: the daemon finishes an accepted mutation or drops
  // it, containers are recreated, other operations move the routes this one does not fence, and nodes get
  // and finish work, new work only while their route is eligible.
  ghost predicate Drifts(w: World, u: World, operation: Operation) {
    && u.routes.Keys == w.routes.Keys
    && (forall n :: n in w.routes ==>
          u.routes[n] == w.routes[n]
          || (w.routes[n].operation != Some(operation) && u.routes[n].operation != Some(operation)
              && u.routes[n].stateVersion > w.routes[n].stateVersion))
    && (forall n :: n in w.routes && u.routes[n] == w.routes[n] && !w.routes[n].mode.Eligible? && n !in w.busy ==> n !in u.busy)
    && ((u.running == w.running && u.outstanding == w.outstanding)
        || (u.running == w.running && u.outstanding.None?)
        || (w.outstanding.Some? && u.running == w.outstanding.value && u.outstanding.None?))
  }

  lemma DriftKeeps(l: Ledger, w: World, u: World, affected: set<Node>, operation: Operation)
    requires Promises(l, w, affected) && Owns(l, operation) && Drifts(w, u, operation)
    ensures Promises(l, u, affected)
  {
    assert forall n :: n in affected && n in w.routes ==> n in u.routes;
  }

  lemma DriftKeepsRoutes(w: World, u: World, affected: set<Node>, operation: Operation)
    requires Drifts(w, u, operation)
    ensures Fenced(w, affected, operation) ==> Fenced(u, affected, operation)
    ensures Released(w, affected, operation) ==> Released(u, affected, operation)
    ensures affected <= w.routes.Keys ==> affected <= u.routes.Keys
  {
    assert forall n :: n in w.routes ==> n in u.routes;
  }

  // routes that an operation holds get no new work
  lemma DriftKeepsQuiet(w: World, u: World, affected: set<Node>, operation: Operation)
    requires Drifts(w, u, operation) && Quiet(w, affected)
    requires forall n :: n in affected ==>
      n in u.routes && !u.routes[n].mode.Eligible? && (u.routes[n].operation == Some(operation) || u.routes[n] == w.routes[n])
    ensures Quiet(u, affected)
  {
  }

  // what is read at the start of a transition and found again at its commit was held all along
  lemma QuietAtCommit(action: Action, w: World, u: World, current: map<Node, Route>, operation: Operation, identities: map<Node, Identity>)
    requires identities.Keys == current.Keys && Since(current, w) && Drifts(w, u, operation) && Quiet(w, current.Keys)
    requires Acceptable(action, u, current, operation, identities)
    requires action.LegacySeal? || action.Activate? || action.Abort?
    ensures Quiet(u, current.Keys)
  {
    forall n | n in current ensures u.routes[n] == w.routes[n] && !u.routes[n].mode.Eligible? {
      assert Matches(u.routes[n], RequestFor(action, current[n], identities[n]));
      assert n in w.routes;
    }
  }

  lemma DriftKeepsReopened(w: World, u: World, operation: Operation, identities: map<Node, Identity>)
    requires WasReopened(w, operation, identities) && Drifts(w, u, operation)
    ensures WasReopened(u, operation, identities)
  {
    var reopened :| OpenFor(reopened, identities) && Since(reopened, w);
    DriftKeepsSince(reopened, w, u, operation);
    DriftKeepsRoutes(w, u, identities.Keys, operation);
  }

  lemma DriftKeepsSince(earlier: map<Node, Route>, w: World, u: World, operation: Operation)
    requires Since(earlier, w) && Drifts(w, u, operation)
    ensures Since(earlier, u)
  {
  }

  // Why reconcile goes on only when it sees the image the journal was moving to: that image is there
  // to stay, while the other one may still be replaced by the mutation under way.
  lemma DesiredIsFinal(w: World, u: World, source: Manifest, goal: Manifest, operation: Operation)
    requires source != goal && Moving(w, source, goal) && w.running == goal && Drifts(w, u, operation)
    ensures Settled(w, goal) && Settled(u, goal)
  {
  }

  lemma AlternateIsNotFinal(w: World, source: Manifest, goal: Manifest, operation: Operation)
    requires source != goal && w.running == source && w.outstanding == Some(goal)
    ensures Moving(w, source, goal) && exists u :: Drifts(w, u, operation) && u.running == goal
  {
    var u := w.(running := goal, outstanding := None);
    assert Drifts(w, u, operation);
  }

  // ----- a transition of all affected routes -----

  function Expected(action: Action, current: map<Node, Route>, operation: Operation, identities: map<Node, Identity>): (r: map<Node, Route>)
    requires identities.Keys == current.Keys
    requires action.Drain? || action.LegacySeal? || action.Activate? || action.Abort?
    ensures r.Keys == current.Keys && forall n :: n in current ==> r[n] == Projected(action, current[n], operation, identities[n])
  {
    map n | n in current :: Projected(action, current[n], operation, identities[n])
  }

  // transitionBatch accepts when every node does
  predicate Acceptable(action: Action, w: World, current: map<Node, Route>, operation: Operation, identities: map<Node, Identity>)
    requires identities.Keys == current.Keys
  {
    forall n :: n in current ==>
      n in w.routes && NextState(action, operation, w.routes[n], RequestFor(action, current[n], identities[n]), true).Some?
  }

  function Committed(action: Action, w: World, current: map<Node, Route>, operation: Operation, identities: map<Node, Identity>): World
    requires identities.Keys == current.Keys && Acceptable(action, w, current, operation, identities)
  {
    w.(routes := map n | n in w.routes ::
      if n in current then NextState(action, operation, w.routes[n], RequestFor(action, current[n], identities[n]), true).value
      else w.routes[n])
  }

  // a batch that is accepted finds the routes as they were read, and leaves what was expected
  lemma CommitIsExpected(action: Action, w: World, current: map<Node, Route>, operation: Operation, identities: map<Node, Identity>)
    requires identities.Keys == current.Keys && Since(current, w) && Acceptable(action, w, current, operation, identities)
    requires action.Drain? || action.LegacySeal? || action.Activate? || action.Abort?
    requires forall n :: n in current ==> !current[n].projected
    ensures var u := Committed(action, w, current, operation, identities);
      && u.routes.Keys == w.routes.Keys
      && forall n :: n in current ==>
           w.routes[n] == current[n] && u.routes[n] == Projected(action, current[n], operation, identities[n])
  {
    forall n | n in current
      ensures w.routes[n] == current[n]
      ensures NextState(action, operation, w.routes[n], RequestFor(action, current[n], identities[n]), true)
           == Some(Projected(action, current[n], operation, identities[n]))
    {
      ProjectionIsExact(action, operation, current[n], identities[n], true);
    }
  }

  // Where a transition may be made without breaking the journal's promise. Routes are sealed and reopened
  // only while their nodes have nothing in flight.
  ghost predicate MayTransition(action: Action, l: Ledger, w: World, affected: set<Node>) {
    && l.pending.Some? && (!action.Drain? ==> Quiet(w, affected))
    && match action
       case Drain => l.pending.value.phase.Prepared?
       case LegacySeal => l.pending.value.phase.Prepared?
       case Activate => l.pending.value.phase.ActivationPending?
       case Abort => !l.pending.value.phase.ActivationPending? && Settled(w, l.pending.value.prior)
       case _ => false
  }

  lemma CommitKeeps(action: Action, l: Ledger, w: World, affected: set<Node>, current: map<Node, Route>, operation: Operation, identities: map<Node, Identity>)
    requires current.Keys == affected && identities.Keys == affected && Since(current, w)
    requires Acceptable(action, w, current, operation, identities) && MayTransition(action, l, w, affected)
    requires forall n :: n in current ==> !current[n].projected
    requires Promises(l, w, affected) && Owns(l, operation)
    ensures Promises(l, Committed(action, w, current, operation, identities), affected)
  {
    CommitIsExpected(action, w, current, operation, identities);
    var u := Committed(action, w, current, operation, identities);
    assert action.Activate? || action.Abort? ==> Released(u, affected, operation);
  }

  // ----- an undisturbed deployment -----

  // nothing moves but the work in flight, which ends
  function AtRest(w: World): World {
    w.(busy := {})
  }

  // what ReadRoutes accepts
  predicate Readable(w: World, affected: set<Node>) {
    forall n :: n in affected ==>
      n in w.routes && !w.routes[n].projected && (w.routes[n].mode.Eligible? <==> w.routes[n].operation.None?)
  }

  // a route that is open, and whose counters leave room for the three transitions of a deployment
  predicate ReadyRoute(r: Route) {
    && r.mode.Eligible? && r.operation.None? && !r.projected && r.epoch >= 1 && r.version != 0
    && r.stateVersion + 2 < MAXIMUM_SAFE_INTEGER && r.generation < MAXIMUM_SAFE_INTEGER
  }

  predicate ReadyRoutes(routes: map<Node, Route>, affected: set<Node>) {
    forall n :: n in affected ==> n in routes && ReadyRoute(routes[n])
  }

  // the affected routes as a deployment of this operation seals them, and the others as they were
  ghost predicate SealedFrom(before: map<Node, Route>, after: map<Node, Route>, affected: set<Node>, operation: Operation) {
    && after.Keys == before.Keys
    && forall n :: n in before ==>
         after[n] == if n in affected then before[n].(mode := Sealed, operation := Some(operation), stateVersion := before[n].stateVersion + 2)
                     else before[n]
  }

  // the identities that the nodes of ready routes report
  ghost predicate Report(identities: map<Node, Identity>, routes: map<Node, Route>, affected: set<Node>) {
    identities.Keys == affected
    && forall n :: n in affected ==> n in routes && identities[n].epoch == routes[n].epoch && identities[n].version == routes[n].version
  }

  lemma FenceIsAccepted(w: World, current: map<Node, Route>, operation: Operation, identities: map<Node, Identity>)
    requires identities.Keys == current.Keys && AsRecorded(w, current.Keys, current) && ReadyRoutes(current, current.Keys)
    ensures Acceptable(Action.Drain, w, current, operation, identities)
    ensures var drained := Expected(Action.Drain, current, operation, identities); var u := Committed(Action.Drain, w, current, operation, identities);
      && AsRecorded(u, current.Keys, drained) && Acceptable(LegacySeal, u, drained, operation, identities)
      && SealedFrom(w.routes, Committed(LegacySeal, u, drained, operation, identities).routes, current.Keys, operation)
  {
  }

  lemma ReadyIsReadable(w: World, affected: set<Node>)
    requires ReadyRoutes(w.routes, affected)
    ensures Readable(w, affected) && forall n :: n in affected ==> n in w.routes && w.routes[n].mode.Eligible?
  {
  }

  lemma SameReady(w: World, current: map<Node, Route>, affected: set<Node>)
    requires ReadyRoutes(w.routes, affected) && current.Keys == affected && forall n :: n in affected ==> n in w.routes && current[n] == w.routes[n]
    ensures ReadyRoutes(current, affected) && AsRecorded(w, affected, current)
  {
  }

  // the router would take each route back into traffic for these identities
  predicate Opens(routes: map<Node, Route>, operation: Operation, identities: map<Node, Identity>) {
    forall n :: n in identities ==>
      n in routes && NextState(Action.Activate, operation, routes[n], RequestFor(Action.Activate, routes[n], identities[n]), true).Some?
  }

  lemma OpensIsAcceptable(w: World, sealed: map<Node, Route>, operation: Operation, identities: map<Node, Identity>)
    requires identities.Keys == sealed.Keys && AsRecorded(w, sealed.Keys, sealed)
    ensures Acceptable(Action.Activate, w, sealed, operation, identities) <==> Opens(w.routes, operation, identities)
  {
  }

  // the routes are ready, the identities theirs, and the new image has an adapter version where it needs one
  ghost predicate Undisturbed(w: World, affected: set<Node>, identities: map<Node, Identity>, component: Option<Node>, target: Manifest) {
    ReadyRoutes(w.routes, affected) && Report(identities, w.routes, affected) && Named(component, affected, target)
  }

  // the routes a pending operation left, once its target runs: sealed by it as recorded and ready to be taken back,
  // or reopened by the activation that was under way
  ghost predicate Resumable(p: Pending, w: World, affected: set<Node>) {
    && Readable(w, affected)
    && if p.phase.ActivationPending? then
         && p.sealedRoutes.Keys == p.targetIdentities.Keys
         && ((AsRecorded(w, affected, p.sealedRoutes) && Opens(w.routes, p.operation, p.targetIdentities))
             || AsRecorded(w, affected, Expected(Action.Activate, p.sealedRoutes, p.operation, p.targetIdentities)))
       else
         && Fenced(w, affected, p.operation) && Opens(w.routes, p.operation, CandidateIdentities(p.component, p.identities, p.target))
  }

  lemma ResumesAtOneEnd(p: Pending, w: World, affected: set<Node>, current: map<Node, Route>)
    requires Resumable(p, w, affected) && p.phase.ActivationPending? && p.sealedRoutes.Keys == affected == current.Keys
    requires AsRecorded(w, affected, current)
    ensures
      || (current == p.sealedRoutes && Acceptable(Action.Activate, AtRest(w), p.sealedRoutes, p.operation, p.targetIdentities))
      || (current == Expected(Action.Activate, p.sealedRoutes, p.operation, p.targetIdentities) && forall n :: n in current ==> current[n].mode.Eligible?)
  {
    hide NextState, Opens;
    if AsRecorded(w, affected, p.sealedRoutes) && Opens(w.routes, p.operation, p.targetIdentities) {
      SameRoutes(w, affected, current, p.sealedRoutes);
      OpensIsAcceptable(AtRest(w), p.sealedRoutes, p.operation, p.targetIdentities);
    } else {
      SameRoutes(w, affected, current, Expected(Action.Activate, p.sealedRoutes, p.operation, p.targetIdentities));
    }
  }

  lemma SameRoutes(w: World, affected: set<Node>, a: map<Node, Route>, b: map<Node, Route>)
    requires AsRecorded(w, affected, a) && AsRecorded(w, affected, b) && a.Keys == affected == b.Keys
    ensures a == b
  {
    assert forall n :: n in affected ==> a[n] == b[n];
    assert forall n :: n in a <==> n in b;
  }

  predicate Named(component: Option<Node>, affected: set<Node>, target: Manifest) {
    component.Some? && component.value in affected ==> target.adapterVersion != 0
  }

  lemma SealedRoutesOpen(before: map<Node, Route>, w: World, affected: set<Node>, operation: Operation, found: map<Node, Identity>,
                         component: Option<Node>, target: Manifest)
    requires Report(found, before, affected) && ReadyRoutes(before, affected) && SealedFrom(before, w.routes, affected, operation)
    requires Named(component, affected, target)
    ensures Opens(w.routes, operation, CandidateIdentities(component, found, target)) && Readable(w, affected)
  {
  }

  class Installer {
    // the component's share of deployment.json, and what this process has of it in memory
    var disk: Ledger
    var ledger: Ledger
    var world: World
    const affected: set<Node>
    // the node the component runs, which the panel does not have
    const component: Option<Node>
    // nobody else acts and every effect succeeds
    var calm: bool

    // the journal's promise, at every moment a process can die
    ghost predicate Inv()
      reads this
    {
      Promises(disk, world, affected)
    }

    // a process that has read the journal
    ghost predicate Loaded()
      reads this
    {
      Inv() && ledger == disk
    }

    constructor (manifest: Manifest, node: Option<Node>, nodes: set<Node>, routing: map<Node, Route>, atWork: set<Node>, id: int)
      ensures Loaded() && affected == nodes && component == node
    {
      disk := Ledger(Slot(manifest, None), None);
      ledger := Ledger(Slot(manifest, None), None);
      world := World(routing, atWork, manifest, id, None);
      affected := nodes;
      component := node;
      calm := false;
    }

    method Drift(operation: Operation)
      modifies this`world
      ensures Drifts(old(world), world, operation)
      ensures calm ==> world == AtRest(old(world))
    {
      if calm {
        world := AtRest(world);
        return;
      }
      var landed := *;
      var dropped := *;
      if landed && world.outstanding.Some? {
        world := world.(running := world.outstanding.value, container := world.container + 1, outstanding := None);
      } else if dropped {
        world := world.(outstanding := None);
      }
      var recreated := *;
      if recreated {
        world := world.(container := world.container + 1);
      }
      var after := OtherOperations(operation, world.routes);
      var working := Work(world.routes, after, world.busy);
      world := world.(routes := after, busy := working);
    }

    // deploy.atomic_json: a failed or interrupted write may still have reached the disk
    method WriteLedger(operation: Operation) returns (effect: Effect)
      requires Inv() && Promises(ledger, world, affected) && Owns(disk, operation) && Owns(ledger, operation)
      modifies this`disk, this`world
      ensures Drifts(old(world), world, operation)
      ensures Inv() && Promises(ledger, world, affected)
      ensures effect.Done? ==> disk == ledger
      ensures disk == ledger || disk == old(disk)
      ensures calm ==> effect.Done? && world == AtRest(old(world))
    {
      Drift(operation);
      DriftKeeps(disk, old(world), world, affected, operation);
      DriftKeeps(ledger, old(world), world, affected, operation);
      var landed := *;
      if landed || calm {
        disk := ledger;
      }
      effect := *;
      if calm {
        effect := Effect.Done;
      } else if effect.Done? && !landed {
        effect := Raised;
      }
    }

    // inspect: succeeds only on the image that is running
    method Inspect(operation: Operation, manifest: Manifest) returns (effect: Effect)
      requires Inv() && Owns(disk, operation)
      modifies this`world
      ensures Drifts(old(world), world, operation) && Inv()
      ensures effect.Done? ==> world.running == manifest
      ensures calm ==> (effect.Done? <==> old(world).running == manifest) && world == AtRest(old(world))
    {
      Drift(operation);
      DriftKeeps(disk, old(world), world, affected, operation);
      effect := *;
      if calm {
        effect := Effect.Done;
      }
      if effect.Done? && world.running != manifest {
        effect := Raised;
      }
    }

    method WaitRuntimeIdentity(operation: Operation, desired: Manifest, alternate: Manifest) returns (seen: Seen)
      requires Inv() && Owns(disk, operation)
      modifies this`world
      ensures Drifts(old(world), world, operation) && Inv()
      ensures seen.Desired? ==> world.running == desired
      ensures seen.Alternate? ==> world.running == alternate
      ensures calm ==> world == AtRest(old(world)) && (old(world).running == desired ==> seen.Desired?)
    {
      Drift(operation);
      DriftKeeps(disk, old(world), world, affected, operation);
      seen := *;
      if calm && world.running == desired {
        seen := Desired;
      }
      if (seen.Desired? && world.running != desired) || (seen.Alternate? && world.running != alternate) {
        seen := Nothing;
      }
    }

    // health, quiescence, other containers, image checks, pins: any of them may fail
    method Probe(operation: Operation) returns (effect: Effect)
      requires Inv() && Owns(disk, operation)
      modifies this`world
      ensures Drifts(old(world), world, operation) && Inv()
      ensures calm ==> effect.Done? && world == AtRest(old(world))
    {
      Drift(operation);
      DriftKeeps(disk, old(world), world, affected, operation);
      effect := *;
      if calm {
        effect := Effect.Done;
      }
    }

    // wait_quiescent on every affected node
    method WaitQuiescent(operation: Operation) returns (effect: Effect)
      requires Inv() && Owns(disk, operation)
      modifies this`world
      ensures Drifts(old(world), world, operation) && Inv()
      ensures effect.Done? ==> Quiet(world, affected)
      ensures calm ==> effect.Done? && world == AtRest(old(world))
    {
      Drift(operation);
      DriftKeeps(disk, old(world), world, affected, operation);
      effect := *;
      if calm {
        effect := Effect.Done;
      }
      if effect.Done? && (exists n :: n in affected && n in world.busy) {
        effect := Raised;
      }
    }

    // verify_transition: the routes are read once more
    method VerifyTransition(operation: Operation, expected: map<Node, Route>) returns (effect: Effect)
      requires Inv() && Owns(disk, operation) && expected.Keys == affected
      modifies this`world
      ensures Drifts(old(world), world, operation) && Inv()
      ensures effect.Done? ==> AsRecorded(world, affected, expected)
      ensures calm ==> (effect.Done? <==> AsRecorded(old(world), affected, expected)) && world == AtRest(old(world))
    {
      Drift(operation);
      DriftKeeps(disk, old(world), world, affected, operation);
      effect := *;
      if calm {
        effect := Effect.Done;
      }
      if effect.Done? && exists n :: n in affected && (n !in world.routes || world.routes[n] != expected[n]) {
        effect := Raised;
      }
    }

    // routing() and route_subset(): the affected routes as the router reports them
    method ReadRoutes(operation: Operation) returns (effect: Effect, current: map<Node, Route>)
      requires Inv() && Owns(disk, operation)
      modifies this`world
      ensures Drifts(old(world), world, operation) && Inv()
      ensures effect.Done? ==>
        && current.Keys == affected && affected <= world.routes.Keys && Since(current, world)
        && forall n :: n in affected ==>
             && n in world.routes && current[n] == world.routes[n] && !current[n].projected
             && (current[n].mode.Eligible? <==> current[n].operation.None?)
      ensures calm ==> (effect.Done? <==> Readable(old(world), affected)) && world == AtRest(old(world))
    {
      Drift(operation);
      DriftKeeps(disk, old(world), world, affected, operation);
      current := map n | n in affected && n in world.routes :: world.routes[n];
      effect := *;
      if calm {
        effect := Effect.Done;
      }
      if effect.Done? && (exists n :: n in affected
                            && (n !in world.routes || world.routes[n].projected
                                || (world.routes[n].mode.Eligible? != world.routes[n].operation.None?))) {
        effect := Raised;
      }
    }

    // what a transition leaves where it is known to have been committed
    ghost predicate Transited(action: Action, current: map<Node, Route>, operation: Operation, identities: map<Node, Identity>)
      requires identities.Keys == current.Keys
      reads this
    {
      forall n :: n in current ==>
        && n in world.routes
        && (if action.Drain? || action.LegacySeal? then world.routes[n] == Projected(action, current[n], operation, identities[n])
            else world.routes[n].operation != Some(operation))
    }

    // transition_many: one compare-and-swap over all nodes; a lost reply is resolved by reading back
    method TransitionMany(action: Action, current: map<Node, Route>, operation: Operation, identities: map<Node, Identity>)
      returns (effect: Effect)
      requires current.Keys == affected && identities.Keys == affected && Since(current, world)
      requires forall n :: n in current ==> !current[n].projected
      requires Inv() && Owns(disk, operation) && MayTransition(action, disk, world, affected)
      modifies this`world
      ensures Inv()
      ensures forall m :: Settled(old(world), m) ==> Settled(world, m)
      ensures effect.Done? ==> Transited(action, current, operation, identities)
      ensures action.LegacySeal? && Drained(old(world), affected, operation) && Quiet(old(world), affected) ==> Quiet(world, affected)
      ensures calm && Acceptable(action, old(world), current, operation, identities) ==>
                effect.Done? && world == Committed(action, AtRest(old(world)), current, operation, identities)
    {
      hide NextState, RequestFor, Promises;
      var answered := Send(action, current, operation, identities);
      if answered {
        return Effect.Done;
      }
      // the reply was an error, or was lost
      var expected := Expected(action, current, operation, identities);
      label Lost:
      Drift(operation);
      DriftKeeps(disk, old@Lost(world), world, affected, operation);
      effect := *;
      if effect.Done? && (exists n :: n in affected && (n !in world.routes || world.routes[n] != expected[n])) {
        effect := Raised;
      }
    }

    // the batch is committed if it is acceptable when it arrives, and the answer may still be lost
    method Send(action: Action, current: map<Node, Route>, operation: Operation, identities: map<Node, Identity>)
      returns (answered: bool)
      requires current.Keys == affected && identities.Keys == affected && Since(current, world)
      requires forall n :: n in current ==> !current[n].projected
      requires Inv() && Owns(disk, operation) && MayTransition(action, disk, world, affected)
      modifies this`world
      ensures Inv()
      ensures forall m :: Settled(old(world), m) ==> Settled(world, m)
      ensures answered ==> Transited(action, current, operation, identities)
      ensures action.LegacySeal? && Drained(old(world), affected, operation) && Quiet(old(world), affected) ==>
                Quiet(world, affected) && forall n :: n in affected ==>
                  n in world.routes && !world.routes[n].mode.Eligible? && world.routes[n].operation == Some(operation)
      ensures calm && Acceptable(action, old(world), current, operation, identities) ==>
                answered && world == Committed(action, AtRest(old(world)), current, operation, identities)
    {
      hide NextState, RequestFor, Promises;
      Drift(operation);
      DriftKeeps(disk, old(world), world, affected, operation);
      DriftKeepsSince(current, old(world), world, operation);
      answered := false;
      if Acceptable(action, world, current, operation, identities) {
        var delivered := *;
        if delivered || calm {
          if !action.Drain? {
            QuietAtCommit(action, old(world), world, current, operation, identities);
          }
          CommitKeeps(action, disk, world, affected, current, operation, identities);
          CommitIsExpected(action, world, current, operation, identities);
          world := Committed(action, world, current, operation, identities);
          answered := *;
          answered := answered || calm;
        }
      }
    }

    // replace: an accepted mutation that timed out is safe only once its own image is seen
    method Replace(operation: Operation, goal: Manifest, source: Manifest) returns (outcome: Replacement)
      requires Inv() && Owns(disk, operation) && disk.pending.Some? && source != goal
      requires Fenced(world, affected, operation) && Settled(world, source)
      requires var p := disk.pending.value;
        || (p.phase.ReplaceStarted? && goal == p.target && source == p.prior)
        || (p.phase.RestoreStarted? && goal == p.prior && source == p.target)
      modifies this`world
      ensures Inv() && Fenced(world, affected, operation)
      ensures outcome.ReplacedForSure? || outcome.ReplacedAfterUnknown? ==> Settled(world, goal)
      ensures Moving(world, source, goal)
      ensures calm ==> outcome.ReplacedForSure? && world == AtRest(old(world)).(running := goal)
    {
      world := world.(outstanding := Some(goal));
      label Issued:
      Drift(operation);
      DriftKeeps(disk, old@Issued(world), world, affected, operation);
      DriftKeepsRoutes(old@Issued(world), world, affected, operation);
      outcome := *;
      if calm || outcome.ReplacedForSure? {
        outcome := ReplacedForSure;
        world := world.(running := goal, outstanding := None);
      } else if !outcome.Died? {
        label Waiting:
        var seen := WaitRuntimeIdentity(operation, goal, source);
        DriftKeepsRoutes(old@Waiting(world), world, affected, operation);
        outcome := if seen.Desired? then ReplacedAfterUnknown else Unclear;
      }
    }

    // abort_to_prior: issues no Docker mutation
    method AbortToPrior(operation: Operation, prior: Manifest, identities: map<Node, Identity>, expected: Option<int>) returns (effect: Effect)
      requires Inv() && Owns(disk, operation) && disk.pending.Some? && !disk.pending.value.phase.ActivationPending?
      requires prior == disk.pending.value.prior && Settled(world, prior) && identities.Keys == affected
      modifies this`world
      ensures Inv() && Settled(world, prior)
      ensures effect.Done? ==> WasReopened(world, operation, identities)
    {
      effect := Inspect(operation, prior);
      if !effect.Done? {
        return;
      }
      if expected.Some? && world.container != expected.value {
        return Raised;
      }
      effect := WaitQuiescent(operation);
      if !effect.Done? {
        return;
      }
      var current: map<Node, Route>;
      label Reading:
      effect, current := ReadRoutes(operation);
      if !effect.Done? {
        return;
      }
      if forall n :: n in current ==> current[n].mode.Eligible? {
        if exists n :: n in current && (current[n].epoch != identities[n].epoch || current[n].version != identities[n].version) {
          return Raised;
        }
        assert OpenFor(current, identities) && Since(current, world);
        return Effect.Done;
      }
      if exists n :: n in current && (current[n].mode.Eligible? || current[n].operation != Some(operation)) {
        return Raised;
      }
      DriftKeepsQuiet(old@Reading(world), world, affected, operation);
      effect := TransitionMany(Action.Abort, current, operation, identities);
      if effect.Done? {
        var expected := Expected(Action.Abort, current, operation, identities);
        effect := VerifyTransition(operation, expected);
        assert effect.Done? ==> OpenFor(expected, identities) && Since(expected, world);
      }
    }

    method WritePhase(operation: Operation, phase: Phase) returns (effect: Effect)
      requires Inv() && Owns(disk, operation) && ledger.pending.Some? && Owns(ledger, operation)
      requires Promises(ledger.(pending := Some(ledger.pending.value.(phase := phase))), world, affected)
      modifies this`disk, this`ledger, this`world
      ensures ledger == old(ledger).(pending := Some(old(ledger).pending.value.(phase := phase)))
      ensures Drifts(old(world), world, operation)
      ensures Inv() && Promises(ledger, world, affected)
      ensures effect.Done? ==> disk == ledger
      ensures disk == ledger || disk == old(disk)
      ensures calm ==> effect.Done? && world == AtRest(old(world))
    {
      ledger := ledger.(pending := Some(ledger.pending.value.(phase := phase)));
      effect := WriteLedger(operation);
    }

    // before_health: the identities of the affected nodes agree with their routes
    method ReadIdentities(operation: Operation, current: map<Node, Route>) returns (effect: Effect, identities: map<Node, Identity>)
      requires Inv() && Owns(disk, operation) && current.Keys == affected
      modifies this`world
      ensures Drifts(old(world), world, operation) && Inv()
      ensures effect.Done? ==> identities.Keys == affected
      ensures effect.Done? ==>
        forall n :: n in affected ==> identities[n].epoch == current[n].epoch && identities[n].version == current[n].version
      ensures calm ==> effect.Done? && world == AtRest(old(world))
    {
      effect := Probe(operation);
      identities := *;
      if calm {
        identities := map n | n in current :: Identity(current[n].epoch, 0, current[n].version);
      }
      if effect.Done? && (identities.Keys != affected
                          || exists n :: n in affected && (identities[n].epoch != current[n].epoch || identities[n].version != current[n].version)) {
        effect := Raised;
      }
    }

    // drain the affected routes, wait for quiet, seal them
    method FenceRoutes(operation: Operation, identities: map<Node, Identity>) returns (effect: Effect)
      requires Inv() && Owns(disk, operation) && disk.pending.Some? && disk.pending.value.phase.Prepared? && identities.Keys == affected
      modifies this`world
      ensures Inv()
      ensures effect.Done? ==> Fenced(world, affected, operation)
      ensures calm && ReadyRoutes(old(world).routes, affected) ==>
                effect.Done? && SealedFrom(old(world).routes, world.routes, affected, operation) && world == AtRest(old(world)).(routes := world.routes)
    {
      hide NextState, Promises, Acceptable, SealedFrom, ReadyRoutes;
      var drained: map<Node, Route>;
      effect, drained := DrainRoutes(operation, identities);
      if !effect.Done? {
        return;
      }
      label Drained:
      effect := WaitQuiescent(operation);
      DriftKeepsSince(drained, old@Drained(world), world, operation);
      if !effect.Done? {
        return;
      }
      effect := TransitionMany(LegacySeal, drained, operation, identities);
    }

    method DrainRoutes(operation: Operation, identities: map<Node, Identity>) returns (effect: Effect, drained: map<Node, Route>)
      requires Inv() && Owns(disk, operation) && disk.pending.Some? && disk.pending.value.phase.Prepared? && identities.Keys == affected
      modifies this`world
      ensures Inv()
      ensures effect.Done? ==> drained.Keys == affected && AsRecorded(world, affected, drained) && Drained(world, affected, operation)
      ensures effect.Done? ==> forall n :: n in drained ==> !drained[n].projected
      ensures calm && ReadyRoutes(old(world).routes, affected) ==>
        && effect.Done? && world == AtRest(old(world)).(routes := world.routes) && Acceptable(LegacySeal, AtRest(world), drained, operation, identities)
        && SealedFrom(old(world).routes, Committed(LegacySeal, AtRest(world), drained, operation, identities).routes, affected, operation)
    {
      hide NextState, Promises, SealedFrom, ReadyRoutes;
      drained := map[];
      var current: map<Node, Route>;
      if calm && ReadyRoutes(world.routes, affected) {
        ReadyIsReadable(world, affected);
      }
      effect, current := ReadRoutes(operation);
      if !effect.Done? {
        return;
      }
      if exists n :: n in current && !current[n].mode.Eligible? {
        if calm && ReadyRoutes(world.routes, affected) {
          ReadyIsReadable(world, affected);
        }
        return Raised, drained;
      }
      if calm && ReadyRoutes(world.routes, affected) {
        SameReady(world, current, affected);
        FenceIsAccepted(world, current, operation, identities);
      }
      effect := TransitionMany(Action.Drain, current, operation, identities);
      if effect.Done? {
        drained := Expected(Action.Drain, current, operation, identities);
      }
    }

    // the body of apply between the prepared journal entry and the final clearing
    method Deploy(operation: Operation, target: Manifest, prior: Manifest, slot: Slot, rollback: bool, identities: map<Node, Identity>, priorContainer: int)
      returns (effect: Effect, reached: Reached)
      requires Inv() && disk == ledger && prior != target && slot.current == prior && identities.Keys == affected
      requires disk == Ledger(slot, Some(Pending(component, prior, target, operation, Prepared, rollback, identities, priorContainer, slot, map[], map[])))
      modifies this`disk, this`ledger, this`world
      ensures Inv() && Owns(disk, operation) && disk.pending.Some? && disk.pending.value.prior == prior && disk.pending.value.target == target
      ensures Owns(ledger, operation) && ledger.pending.Some?
      ensures effect.Done? ==> disk == ledger && disk.pending.value.phase.ActivationPending?
      ensures effect.Done? ==> WasReopened(world, operation, CandidateIdentities(component, identities, target))
      ensures !disk.pending.value.phase.ActivationPending? ==> disk.slot == slot
      ensures effect.Raised? && !reached.PointOfNoReturn? ==>
        && ledger.slot == slot && ledger.pending.value.prior == prior && ledger.pending.value.target == target
        && ledger.pending.value.priorSlot == slot && ledger.pending.value.identities == identities
        && !disk.pending.value.phase.ActivationPending?
      ensures effect.Raised? && reached.BeforeReplace? ==> Settled(world, prior)
      ensures effect.Raised? && reached.Replaced? ==> Settled(world, target) && Fenced(world, affected, operation)
      ensures calm && Undisturbed(old(world), affected, identities, component, target) ==> effect.Done?
    {
      hide Opens, NextState, SealedFrom, Report, ReadyRoutes;
      reached := BeforeReplace;
      effect := FenceRoutes(operation, identities);
      if calm && Undisturbed(old(world), affected, identities, component, target) {
        SealedRoutesOpen(old(world).routes, world, affected, operation, identities, component, target);
      }
      if !effect.Done? {
        return;
      }
      label Sealing:
      effect := WritePhase(operation, SealedRoutes);
      DriftKeepsRoutes(old@Sealing(world), world, affected, operation);
      if !effect.Done? {
        return;
      }
      label Pinning:
      effect := Probe(operation);
      DriftKeepsRoutes(old@Pinning(world), world, affected, operation);
      if !effect.Done? {
        return;
      }
      label Starting:
      effect := WritePhase(operation, ReplaceStarted);
      DriftKeepsRoutes(old@Starting(world), world, affected, operation);
      if !effect.Done? {
        return;
      }
      effect, reached := ReplaceAndActivate(operation, target, prior, slot, identities);
    }

    // from the journalled replacement on
    method ReplaceAndActivate(operation: Operation, target: Manifest, prior: Manifest, slot: Slot, identities: map<Node, Identity>)
      returns (effect: Effect, reached: Reached)
      requires Inv() && disk == ledger && prior != target && slot.current == prior && identities.Keys == affected
      requires disk.pending.Some? && Owns(disk, operation) && disk.slot == slot
      requires var p := disk.pending.value;
        p.component == component && p.prior == prior && p.target == target && p.phase.ReplaceStarted? && p.priorSlot == slot && p.identities == identities
      requires Fenced(world, affected, operation) && Settled(world, prior)
      modifies this`disk, this`ledger, this`world
      ensures Inv() && Owns(disk, operation) && disk.pending.Some? && disk.pending.value.prior == prior && disk.pending.value.target == target
      ensures Owns(ledger, operation) && ledger.pending.Some? && !reached.BeforeReplace?
      ensures effect.Done? ==> disk == ledger && disk.pending.value.phase.ActivationPending?
      ensures effect.Done? ==> WasReopened(world, operation, CandidateIdentities(component, identities, target))
      ensures !disk.pending.value.phase.ActivationPending? ==> disk.slot == slot
      ensures effect.Raised? && reached.Replaced? ==>
        && ledger.slot == slot && ledger.pending.value.prior == prior && ledger.pending.value.target == target
        && ledger.pending.value.priorSlot == slot && ledger.pending.value.identities == identities
        && !disk.pending.value.phase.ActivationPending?
        && Settled(world, target) && Fenced(world, affected, operation)
      ensures calm && Readable(old(world), affected) && Opens(old(world).routes, operation, CandidateIdentities(component, identities, target)) ==> effect.Done?
    {
      hide Opens, NextState;
      reached := PointOfNoReturn;
      var outcome := Replace(operation, target, prior);
      if outcome.Died? {
        return Crashed, reached;
      }
      if !outcome.ReplacedForSure? {
        // the provenance stays durable even when the target is visible
        label Unknowing:
        effect := WritePhase(operation, ReplaceUnknown);
        DriftKeepsRoutes(old@Unknowing(world), world, affected, operation);
        if !effect.Done? {
          return;
        }
        if outcome.Unclear? {
          return Raised, reached;
        }
      }
      var sealed: map<Node, Route>;
      effect, sealed := VerifyTarget(operation, target, prior);
      if !effect.Done? {
        reached := if outcome.ReplacedForSure? then Reached.Replaced else PointOfNoReturn;
        return;
      }
      // once this write starts no inverse mutation is allowed
      effect := Activate(operation, target, prior, sealed);
    }

    // the target runs: checked, journalled, and the routes read as they are sealed
    method VerifyTarget(operation: Operation, target: Manifest, prior: Manifest) returns (effect: Effect, sealed: map<Node, Route>)
      requires Inv() && disk == ledger && disk.pending.Some? && Owns(disk, operation)
      requires var p := disk.pending.value; p.prior == prior && p.target == target && (p.phase.ReplaceStarted? || p.phase.ReplaceUnknown?)
      requires Fenced(world, affected, operation) && Settled(world, target)
      modifies this`disk, this`ledger, this`world
      ensures Inv() && Fenced(world, affected, operation) && Settled(world, target)
      ensures ledger == old(ledger) || ledger == old(ledger).(pending := Some(old(ledger).pending.value.(phase := TargetVerified)))
      ensures disk == old(disk) || disk == ledger
      ensures effect.Done? ==> disk == ledger && disk.pending.value.phase.TargetVerified?
      ensures effect.Done? ==> sealed.Keys == affected && AsRecorded(world, affected, sealed) && forall n :: n in sealed ==> !sealed[n].projected
      ensures calm && Readable(old(world), affected) ==> effect.Done? && world == AtRest(old(world))
    {
      sealed := map[];
      label Verifying:
      effect := Inspect(operation, target);
      DriftKeepsRoutes(old@Verifying(world), world, affected, operation);
      if effect.Done? {
        label Probing:
        effect := Probe(operation);
        DriftKeepsRoutes(old@Probing(world), world, affected, operation);
      }
      if effect.Done? {
        label Verified:
        effect := WritePhase(operation, TargetVerified);
        DriftKeepsRoutes(old@Verified(world), world, affected, operation);
      }
      if effect.Done? {
        label Reading:
        effect, sealed := ReadRoutes(operation);
        DriftKeepsRoutes(old@Reading(world), world, affected, operation);
      }
    }

    // the activation_pending entry and the transition that reopens the routes
    method Activate(operation: Operation, target: Manifest, prior: Manifest, sealed: map<Node, Route>) returns (effect: Effect)
      requires Inv() && Owns(disk, operation) && disk.pending.Some? && disk == ledger
      requires var p := disk.pending.value;
        p.prior == prior && p.target == target && (p.phase.ReplaceStarted? || p.phase.ReplaceUnknown? || p.phase.TargetVerified?)
      requires Fenced(world, affected, operation) && Settled(world, target)
      requires sealed.Keys == affected && AsRecorded(world, affected, sealed) && forall n :: n in sealed ==> !sealed[n].projected
      modifies this`disk, this`ledger, this`world
      ensures Inv() && Owns(disk, operation) && disk.pending.Some? && disk.pending.value.prior == prior && disk.pending.value.target == target
      ensures Owns(ledger, operation) && ledger.pending.Some?
      ensures effect.Done? ==> disk == ledger && disk.pending.value.phase.ActivationPending?
      ensures effect.Done? ==> var p := old(disk).pending.value;
        WasReopened(world, operation, CandidateIdentities(p.component, p.identities, target))
      ensures !disk.pending.value.phase.ActivationPending? ==> disk == old(disk)
      ensures calm ==> var p := old(disk).pending.value;
        Opens(old(world).routes, operation, CandidateIdentities(p.component, p.identities, target)) ==> effect.Done?
    {
      var identities := CandidateIdentities(ledger.pending.value.component, ledger.pending.value.identities, target);
      ledger := Ledger(Slot(target, Some(prior)),
                       Some(ledger.pending.value.(phase := ActivationPending, sealedRoutes := sealed, targetIdentities := identities)));
      label Writing:
      effect := WriteLedger(operation);
      if !effect.Done? {
        return;
      }
      DriftKeepsSince(sealed, old@Writing(world), world, operation);
      if calm {
        OpensIsAcceptable(world, sealed, operation, identities);
      }
      effect := Reopen(sealed, operation, identities);
    }

    // the activation of the recorded routes, read back
    method Reopen(sealed: map<Node, Route>, operation: Operation, identities: map<Node, Identity>) returns (effect: Effect)
      requires sealed.Keys == affected && identities.Keys == affected && Since(sealed, world) && Quiet(world, affected)
      requires forall n :: n in sealed ==> !sealed[n].projected
      requires Inv() && Owns(disk, operation) && disk.pending.Some? && disk.pending.value.phase.ActivationPending?
      modifies this`world
      ensures Inv()
      ensures effect.Done? ==> WasReopened(world, operation, identities)
      ensures calm && Acceptable(Action.Activate, old(world), sealed, operation, identities) ==> effect.Done?
    {
      hide NextState, Promises;
      effect := TransitionMany(Action.Activate, sealed, operation, identities);
      if effect.Done? {
        var expected := Expected(Action.Activate, sealed, operation, identities);
        if calm && Acceptable(Action.Activate, old(world), sealed, operation, identities) {
          CommitIsExpected(Action.Activate, AtRest(old(world)), sealed, operation, identities);
        }
        effect := VerifyTransition(operation, expected);
        assert effect.Done? ==> OpenFor(expected, identities) && Since(expected, world);
      }
    }

    // the end of both failure paths: the routes reopened on the prior image, and only then nothing pending
    method ClearAfterAbort(operation: Operation, prior: Manifest, identities: map<Node, Identity>, expected: Option<int>) returns (effect: Effect)
      requires Inv() && Owns(disk, operation) && disk.pending.Some? && !disk.pending.value.phase.ActivationPending?
      requires disk.pending.value.prior == prior && Settled(world, prior) && identities.Keys == affected
      requires ledger.slot.current == prior && disk.slot == ledger.slot
      modifies this`disk, this`ledger, this`world
      ensures Inv() && disk.slot == old(disk).slot
      ensures effect.Done? ==> disk.pending.None?
      ensures disk.pending.None? ==> WasReopened(world, operation, identities)
    {
      effect := AbortToPrior(operation, prior, identities, expected);
      if !effect.Done? {
        return;
      }
      ledger := ledger.(pending := None);
      label Clearing:
      effect := WriteLedger(operation);
      DriftKeepsReopened(old@Clearing(world), world, operation, identities);
    }

    // the failure path before any replacement was journalled by this process
    method Withdraw(operation: Operation, prior: Manifest, identities: map<Node, Identity>, expected: Option<int>) returns (effect: Effect)
      requires Inv() && Owns(disk, operation) && disk.pending.Some? && !disk.pending.value.phase.ActivationPending?
      requires disk.pending.value.prior == prior && Settled(world, prior) && identities.Keys == affected
      requires ledger.slot.current == prior && disk.slot == ledger.slot
      modifies this`disk, this`ledger, this`world
      ensures Inv() && disk.slot == old(disk).slot
      ensures effect.Done? ==> disk.pending.None?
      ensures disk.pending.None? ==> WasReopened(world, operation, identities)
    {
      effect := Probe(operation);
      if !effect.Done? {
        return;
      }
      effect := ClearAfterAbort(operation, prior, identities, expected);
    }

    // the failure path after a replacement that is known to have finished
    method Restore(operation: Operation, prior: Manifest, target: Manifest, identities: map<Node, Identity>) returns (effect: Effect)
      requires Inv() && Owns(disk, operation) && disk.pending.Some? && !disk.pending.value.phase.ActivationPending?
      requires disk.pending.value.prior == prior && identities.Keys == affected && prior != target
      requires ledger.pending.Some? && Owns(ledger, operation) && ledger.slot == disk.slot && ledger.slot.current == prior
      requires var p := ledger.pending.value; p.prior == prior && p.target == target && p.priorSlot == ledger.slot && p.identities == identities
      requires Settled(world, target) && Fenced(world, affected, operation)
      modifies this`disk, this`ledger, this`world
      ensures Inv() && disk.slot == old(disk).slot
      ensures effect.Done? ==> disk.pending.None?
      ensures disk.pending.None? ==> WasReopened(world, operation, identities)
    {
      label Starting:
      effect := WritePhase(operation, RestoreStarted);
      DriftKeepsRoutes(old@Starting(world), world, affected, operation);
      if !effect.Done? {
        return;
      }
      label Pinning:
      effect := Probe(operation);
      DriftKeepsRoutes(old@Pinning(world), world, affected, operation);
      if !effect.Done? {
        return;
      }
      var outcome := Replace(operation, prior, target);
      if outcome.Died? {
        return Crashed;
      }
      if outcome.Unclear? {
        return Raised;
      }
      label Verifying:
      effect := Inspect(operation, prior);
      DriftKeepsRoutes(old@Verifying(world), world, affected, operation);
      if !effect.Done? {
        return;
      }
      label Verified:
      effect := WritePhase(operation, PriorVerified);
      DriftKeepsRoutes(old@Verified(world), world, affected, operation);
      if !effect.Done? {
        return;
      }
      effect := ClearAfterAbort(operation, prior, identities, None);
    }

    // everything apply asks before it writes anything
    method Precheck(operation: Operation, target: Manifest, prior: Manifest, priorContainer: int)
      returns (effect: Effect, identities: map<Node, Identity>)
      requires Inv() && disk.pending.None? && disk.slot.current == prior
      modifies this`world
      ensures Inv()
      ensures effect.Done? ==> identities.Keys == affected && affected <= world.routes.Keys && WasReopened(world, operation, identities)
      ensures effect.Done? && target != prior ==> world.container == priorContainer
      ensures Released(old(world), affected, operation) ==> Released(world, affected, operation)
      ensures calm && ReadyRoutes(old(world).routes, affected) && old(world).container == priorContainer ==>
                effect.Done? && world == AtRest(old(world)) && Report(identities, world.routes, affected)
    {
      if calm && ReadyRoutes(world.routes, affected) {
        ReadyIsReadable(world, affected);
        ReadyIsReadable(AtRest(world), affected);
      }
      identities := map[];
      effect := Inspect(operation, prior);
      if !effect.Done? {
        return;
      }
      var current: map<Node, Route>;
      effect, current := ReadRoutes(operation);
      if !effect.Done? {
        return;
      }
      if exists n :: n in current && !current[n].mode.Eligible? {
        return Raised, identities;
      }
      label Identifying:
      effect, identities := ReadIdentities(operation, current);
      DriftKeepsRoutes(old@Identifying(world), world, affected, operation);
      DriftKeepsSince(current, old@Identifying(world), world, operation);
      assert effect.Done? ==> OpenFor(current, identities);
      if !effect.Done? || target == prior {
        return;
      }
      // the download, and the checks repeated after it
      label Downloading:
      effect := Probe(operation);
      DriftKeepsRoutes(old@Downloading(world), world, affected, operation);
      DriftKeepsReopened(old@Downloading(world), world, operation, identities);
      if effect.Done? && world.container != priorContainer {
        effect := Raised;
      }
    }

    // apply
    method Apply(target: Manifest, rollback: bool, operation: Operation) returns (outcome: Outcome)
      requires Loaded()
      modifies this
      ensures Inv()
      ensures outcome.Returned? ==> disk.pending.None?
      ensures outcome == Returned(Deployed) || outcome == Returned(RolledBack) ==>
                disk.slot == Slot(target, Some(old(disk).slot.current)) && old(disk).pending.None?
      ensures outcome == Returned(RolledBack) ==> Some(target) == old(disk).slot.previous
      // reported as done: every affected route was reopened for the identities of before, the component's own
      // node with the adapter version of the new image
      ensures outcome == Returned(Deployed) || outcome == Returned(RolledBack) ==>
                exists before: map<Node, Identity> ::
                  before.Keys == affected && WasReopened(world, operation, CandidateIdentities(component, before, target))
      // whatever happened, the operation fences nothing without a journal entry that says so
      ensures Released(old(world), affected, operation) && disk.pending.None? ==> Released(world, affected, operation)
      ensures outcome == Returned(AlreadyCurrent) ==> disk == old(disk) && target == disk.slot.current
      ensures disk.pending.None? ==> disk.slot == old(disk).slot || disk.slot == Slot(target, Some(old(disk).slot.current))
      ensures old(disk).pending.Some? ==> disk == old(disk) && outcome == Failed
      // undisturbed, from routes that are open, it does what it was asked for
      ensures calm == old(calm)
      ensures calm && old(disk).pending.None? && ReadyRoutes(old(world).routes, affected) && Named(component, affected, target)
              && (rollback ==> old(disk).slot.previous == Some(target)) ==>
                outcome == Returned(if target == old(disk).slot.current then AlreadyCurrent else if rollback then RolledBack else Deployed)
    {
      var slot := ledger.slot;
      var prior := slot.current;
      if ledger.pending.Some? || (rollback && Some(target) != slot.previous) {
        return Failed;
      }
      var priorContainer := world.container;
      var effect, identities := Precheck(operation, target, prior, priorContainer);
      if !effect.Done? {
        return if effect.Crashed? then Killed else Failed;
      }
      if target == prior {
        return Returned(AlreadyCurrent);
      }
      outcome := Transact(target, prior, slot, rollback, operation, identities, priorContainer);
    }

    // from the prepared entry to the cleared one
    method Transact(target: Manifest, prior: Manifest, slot: Slot, rollback: bool, operation: Operation,
                    identities: map<Node, Identity>, priorContainer: int) returns (outcome: Outcome)
      requires Loaded() && disk == Ledger(slot, None) && slot.current == prior && prior != target
      requires identities.Keys == affected && affected <= world.routes.Keys && WasReopened(world, operation, identities)
      modifies this
      ensures Inv()
      ensures outcome.Returned? ==> outcome.result == (if rollback then RolledBack else Deployed) && disk.pending.None?
      ensures outcome.Returned? ==>
                disk.slot == Slot(target, Some(prior)) && WasReopened(world, operation, CandidateIdentities(component, identities, target))
      ensures disk.pending.None? ==> Released(world, affected, operation)
      ensures disk.pending.None? ==> disk.slot == slot || disk.slot == Slot(target, Some(prior))
      ensures calm == old(calm) && (calm && Undisturbed(old(world), affected, identities, component, target) ==> outcome.Returned?)
    {
      hide NextState, ReadyRoutes, Report;
      ledger := Ledger(slot, Some(Pending(component, prior, target, operation, Prepared, rollback, identities, priorContainer, slot, map[], map[])));
      label Preparing:
      var effect := WriteLedger(operation);
      DriftKeepsReopened(old@Preparing(world), world, operation, identities);
      if !effect.Done? {
        return if effect.Crashed? then Killed else Failed;
      }
      var reached: Reached;
      effect, reached := Deploy(operation, target, prior, slot, rollback, identities, priorContainer);
      if effect.Crashed? {
        return Killed;
      }
      if effect.Raised? {
        if reached.BeforeReplace? {
          effect := Withdraw(operation, prior, identities, Some(priorContainer));
        } else if reached.Replaced? {
          effect := Restore(operation, prior, target, identities);
        }
        return if effect.Crashed? then Killed else Failed;
      }
      ledger := ledger.(pending := None);
      label Finishing:
      effect := WriteLedger(operation);
      DriftKeepsReopened(old@Finishing(world), world, operation, CandidateIdentities(component, identities, target));
      if !effect.Done? {
        return if effect.Crashed? then Killed else Failed;
      }
      outcome := Returned(if rollback then RolledBack else Deployed);
    }

    // reconcile: the next process finds a pending operation
    method Reconcile() returns (outcome: Outcome)
      requires Loaded()
      modifies this
      ensures Inv()
      ensures outcome.Returned? ==> disk.pending.None?
      ensures outcome == Returned(NothingPending) <==> old(disk).pending.None?
      ensures outcome == Returned(PriorRetained) ==> disk.slot == old(disk).pending.value.priorSlot
      ensures outcome == Returned(DeployedAfterRestart) || outcome == Returned(RolledBackAfterRestart) ==>
                disk.slot == Slot(old(disk).pending.value.target, Some(old(disk).pending.value.prior))
      ensures disk.pending.None? && old(disk).pending.Some? ==>
                var p := old(disk).pending.value;
                || (disk.slot == p.priorSlot && WasReopened(world, p.operation, p.identities))
                || (disk.slot == Slot(p.target, Some(p.prior))
                    && WasReopened(world, p.operation, CandidateIdentities(p.component, p.identities, p.target)))
      // undisturbed, it finishes what was begun where the target runs and the routes are as it left them
      ensures calm == old(calm)
      ensures calm && old(disk).pending.Some? ==>
                var p := old(disk).pending.value;
                old(world).running == p.target && Resumable(p, old(world), affected)
                && (p.phase.ReplaceStarted? || p.phase.ReplaceUnknown? || p.phase.TargetVerified? || p.phase.ActivationPending?) ==>
                  outcome == Returned(if p.rollback then RolledBackAfterRestart else DeployedAfterRestart)
    {
      if ledger.pending.None? {
        return Returned(NothingPending);
      }
      var p := ledger.pending.value;
      var seen := WaitRuntimeIdentity(p.operation, p.target, p.prior);
      if seen.Nothing? {
        return Failed;
      }
      var effect: Effect;
      var untouched := p.phase.Prepared? || p.phase.SealedRoutes?;
      if untouched || p.phase.RestoreStarted? || p.phase.PriorVerified? {
        if !seen.Alternate? {
          return Failed;
        }
        effect := Withdraw(p.operation, p.prior, p.identities, if untouched then Some(p.priorContainer) else None);
        if !effect.Done? {
          return if effect.Crashed? then Killed else Failed;
        }
        return Returned(PriorRetained);
      }
      if !seen.Desired? {
        return Failed;
      }
      effect := RollForward(p);
      if !effect.Done? {
        return if effect.Crashed? then Killed else Failed;
      }
      outcome := Returned(if p.rollback then RolledBackAfterRestart else DeployedAfterRestart);
    }

    // the target runs: finish what the journal began
    method RollForward(p: Pending) returns (effect: Effect)
      requires Inv() && disk == ledger && disk.pending == Some(p) && Settled(world, p.target)
      requires p.phase.ReplaceStarted? || p.phase.ReplaceUnknown? || p.phase.TargetVerified? || p.phase.ActivationPending?
      modifies this`disk, this`ledger, this`world
      ensures Inv()
      ensures effect.Done? ==> disk == Ledger(Slot(p.target, Some(p.prior)), None)
      ensures disk.pending.None? ==> disk.slot == Slot(p.target, Some(p.prior))
      ensures disk.pending.None? ==> WasReopened(world, p.operation, CandidateIdentities(p.component, p.identities, p.target))
      ensures calm && Resumable(p, old(world), affected) ==> effect.Done?
    {
      hide NextState, Resumable, WasReopened;
      effect := Reactivate(p);
      if !effect.Done? {
        return;
      }
      ledger := ledger.(pending := None);
      label Finishing:
      effect := WriteLedger(p.operation);
      DriftKeepsReopened(old@Finishing(world), world, p.operation, CandidateIdentities(p.component, p.identities, p.target));
    }

    // the routes taken back into traffic, by this process or the one before
    method Reactivate(p: Pending) returns (effect: Effect)
      requires Inv() && disk == ledger && disk.pending == Some(p) && Settled(world, p.target)
      requires p.phase.ReplaceStarted? || p.phase.ReplaceUnknown? || p.phase.TargetVerified? || p.phase.ActivationPending?
      modifies this`disk, this`ledger, this`world
      ensures Inv() && disk.pending.Some? && Owns(disk, p.operation) && Owns(ledger, p.operation)
      ensures effect.Done? ==> disk == ledger && disk.slot == Slot(p.target, Some(p.prior)) && disk.pending.value.phase.ActivationPending?
      ensures effect.Done? ==> disk.pending.value.target == p.target
      ensures effect.Done? ==> WasReopened(world, p.operation, CandidateIdentities(p.component, p.identities, p.target))
      ensures calm && Resumable(p, old(world), affected) ==> effect.Done?
    {
      hide NextState, Opens;
      effect := Probe(p.operation);
      if !effect.Done? {
        return;
      }
      var current: map<Node, Route>;
      effect, current := ReadRoutes(p.operation);
      if !effect.Done? {
        return;
      }
      if p.phase.ActivationPending? {
        effect := ResumeActivation(p, current);
      } else {
        if exists n :: n in current && (!current[n].mode.Sealed? || current[n].operation != Some(p.operation)) {
          return Raised;
        }
        effect := VerifyAndActivate(p, current);
      }
    }

    // either the activation was committed before the crash, or the routes are sealed as recorded
    method ResumeActivation(p: Pending, current: map<Node, Route>) returns (effect: Effect)
      requires Inv() && disk == ledger && disk.pending == Some(p) && p.phase.ActivationPending?
      requires p.sealedRoutes.Keys == affected == p.targetIdentities.Keys
      requires forall n :: n in affected ==> p.sealedRoutes[n].mode.Sealed? && !p.sealedRoutes[n].projected
      requires current.Keys == affected && Since(current, world) && AsRecorded(world, affected, current)
      modifies this`world
      ensures Inv()
      ensures effect.Done? ==> WasReopened(world, p.operation, p.targetIdentities)
      ensures calm && Resumable(p, old(world), affected) ==> effect.Done?
    {
      hide NextState, Opens, Promises, Resumable, Acceptable;
      if calm && Resumable(p, world, affected) {
        ResumesAtOneEnd(p, world, affected, current);
      }
      var eligible := forall n :: n in current ==> current[n].mode.Eligible?;
      var expected := Expected(Action.Activate, p.sealedRoutes, p.operation, p.targetIdentities);
      if !((eligible && current == expected) || current == p.sealedRoutes) {
        return Raised;
      }
      effect := InspectResumed(p, current);
      if !effect.Done? {
        return;
      }
      if eligible {
        assert OpenFor(current, p.targetIdentities);
        return;
      }
      effect := Reopen(p.sealedRoutes, p.operation, p.targetIdentities);
    }

    // routes that are sealed as recorded stay so
    method InspectResumed(p: Pending, current: map<Node, Route>) returns (effect: Effect)
      requires Inv() && disk.pending == Some(p) && p.phase.ActivationPending?
      requires current.Keys == affected && Since(current, world) && AsRecorded(world, affected, current)
      modifies this`world
      ensures Inv() && Since(current, world)
      ensures (forall n :: n in current ==> current[n].operation != Some(p.operation)) ==> Released(world, affected, p.operation)
      ensures current == p.sealedRoutes ==> Quiet(world, affected)
      ensures calm ==> effect.Done? && world == AtRest(old(world))
    {
      effect := Inspect(p.operation, p.target);
      DriftKeepsSince(current, old(world), world, p.operation);
      DriftKeepsRoutes(old(world), world, affected, p.operation);
      if current == p.sealedRoutes {
        assert AsRecorded(world, affected, p.sealedRoutes);
        if n :| n in affected {
          assert world.routes[n].operation == Some(p.operation);
        }
      }
    }

    method VerifyAndActivate(p: Pending, current: map<Node, Route>) returns (effect: Effect)
      requires Inv() && disk == ledger && disk.pending == Some(p) && Settled(world, p.target)
      requires p.phase.ReplaceStarted? || p.phase.ReplaceUnknown? || p.phase.TargetVerified?
      requires current.Keys == affected && AsRecorded(world, affected, current)
      requires forall n :: n in current ==> current[n].mode.Sealed? && current[n].operation == Some(p.operation) && !current[n].projected
      modifies this`disk, this`ledger, this`world
      ensures Inv() && disk.pending.Some? && Owns(disk, p.operation) && Owns(ledger, p.operation)
      ensures effect.Done? ==> disk == ledger && disk.slot == Slot(p.target, Some(p.prior))
      ensures effect.Done? ==> disk.pending.value.phase.ActivationPending? && disk.pending.value.target == p.target
      ensures effect.Done? ==> WasReopened(world, p.operation, CandidateIdentities(p.component, p.identities, p.target))
      ensures calm && Resumable(p, old(world), affected) ==> effect.Done?
    {
      hide NextState, Opens;
      label Verifying:
      effect := Inspect(p.operation, p.target);
      DriftKeepsRoutes(old@Verifying(world), world, affected, p.operation);
      if !effect.Done? {
        return;
      }
      effect := Activate(p.operation, p.target, p.prior, current);
    }

    // Any number of processes, one after the other, each dying or ending where it may: what the
    // journal says stays true, and it is never left without the current image running.
    method Operate(rounds: nat)
      requires Inv()
      modifies this
      ensures Inv()
    {
      var i := 0;
      while i < rounds
        invariant Inv()
      {
        ledger := disk;
        calm := *;
        var resume := *;
        if resume {
          var outcome := Reconcile();
        } else {
          var target: Manifest := *;
          var rollback := *;
          var operation := *;
          var outcome := Apply(target, rollback, operation);
        }
        i := i + 1;
      }
    }
  }

  // nodes finish what they do, and get new work where their route is eligible
  method Work(routes: map<Node, Route>, after: map<Node, Route>, busy: set<Node>) returns (working: set<Node>)
    requires after.Keys == routes.Keys
    ensures forall n :: n in routes && after[n] == routes[n] && !routes[n].mode.Eligible? && n !in busy ==> n !in working
  {
    var finished: set<Node>, started: set<Node> := *, *;
    working := busy - finished
               + set n | n in started && !(n in routes && after[n] == routes[n] && !routes[n].mode.Eligible?);
  }

  // whatever the other operations make of the routes the operation does not fence
  method OtherOperations(operation: Operation, routes: map<Node, Route>) returns (after: map<Node, Route>)
    ensures after.Keys == routes.Keys
    ensures forall n :: n in routes ==>
              after[n] == routes[n]
              || (routes[n].operation != Some(operation) && after[n].operation != Some(operation)
                  && after[n].stateVersion > routes[n].stateVersion)
  {
    after :| after.Keys == routes.Keys
      && forall n :: n in routes ==>
           after[n] == routes[n]
           || (routes[n].operation != Some(operation) && after[n].operation != Some(operation)
               && after[n].stateVersion > routes[n].stateVersion);
  }
}
