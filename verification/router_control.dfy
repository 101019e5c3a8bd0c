// The router's side of a route: its state and what each control action makes of it
// (internal/harnessrouter/control.go). An empty adapter version is zero.
module RouterControl {
  import opened Common

  type Operation = int

  datatype Mode = Eligible | Draining | Sealed

  // projected stands for the seal projection of a scoped hold proof
  datatype Route = Route(mode: Mode, stateVersion: int, generation: int, epoch: int, version: int,
                         operation: Option<Operation>, projected: bool)

  datatype Action = Drain | LegacySeal | Seal | Activate | Release | Abort

  // ready is the answer of the node or hold checks the router makes for the action
  datatype Request = Request(mode: Mode, stateVersion: int, generation: int, epoch: int, version: int, proof: bool, release: bool)

  predicate Matches(current: Route, request: Request) {
    current.mode == request.mode && current.stateVersion == request.stateVersion && current.generation == request.generation
  }

  // nextState
  function NextState(action: Action, operation: Operation, current: Route, request: Request, ready: bool): Option<Route> {
    if !Matches(current, request) then None
    else
      var bare := request.epoch == 0 && request.version == 0 && !request.proof && !request.release;
      var next :=
        match action
        case Drain =>
          if current.mode.Eligible? && current.operation.None? && bare
          then Some(current.(mode := Draining, operation := Some(operation))) else None
        case LegacySeal =>
          if current.mode.Draining? && current.operation == Some(operation) && bare && !current.projected && ready
          then Some(current.(mode := Sealed)) else None
        case Seal =>
          if request.epoch == 0 && request.version == 0 && request.proof && !request.release && !current.projected && ready
             && ((current.mode.Eligible? && current.operation.None?) || (current.mode.Draining? && current.operation == Some(operation)))
          then Some(current.(mode := Sealed, operation := Some(operation), projected := true)) else None
        case Activate =>
          if current.mode.Sealed? && current.operation == Some(operation) && request.epoch >= 1 && request.version != 0
             && !request.proof && !request.release && !current.projected && (current.epoch == 0 || current.epoch == request.epoch) && ready
          then Some(Reopened(current, request)) else None
        case Release =>
          if current.mode.Sealed? && current.operation == Some(operation) && current.projected
             && request.epoch == current.epoch && request.version == current.version && request.epoch >= 1 && request.version != 0
             && !request.proof && request.release && ready
          then Some(Reopened(current, request)) else None
        case Abort =>
          if (current.mode.Draining? || current.mode.Sealed?) && current.operation == Some(operation)
             && request.epoch == current.epoch && request.version == current.version && request.epoch >= 1 && request.version != 0
             && !request.proof && request.release == current.projected && ready
          then Some(Reopened(current, request)) else None;
      if next.None? || next.value.stateVersion == MAXIMUM_SAFE_INTEGER || next.value.generation > MAXIMUM_SAFE_INTEGER then None
      else Some(next.value.(stateVersion := next.value.stateVersion + 1))
  }

  function Reopened(current: Route, request: Request): Route {
    current.(mode := Eligible, operation := None, generation := current.generation + 1, epoch := request.epoch,
             version := request.version, projected := false)
  }

  // A route fenced by one operation is moved by no request of another.
  lemma FenceHolds(action: Action, operation: Operation, current: Route, request: Request, ready: bool)
    requires current.operation.Some? && current.operation != Some(operation)
    ensures NextState(action, operation, current, request, ready) == None
  {
  }

  // fenced by this operation: draining or sealed, with or without the projection of a scoped hold
  predicate FencedBy(route: Route, operation: Operation) {
    (route.mode == Draining || route.mode == Sealed) && route.operation == Some(operation)
  }

  predicate Open(route: Route) {
    route.mode == Eligible && route.operation == None
  }

  // Traffic goes to a route again only by its own operation, in the next generation, at a named version: an
  // unscoped seal by an activation, which may name the first epoch, a scoped one by a release, and any fence by an
  // abort to the version it was set at.
  lemma OpensIff(action: Action, operation: Operation, current: Route, request: Request, ready: bool)
    ensures var r := NextState(action, operation, current, request, ready);
      && (r.Some? && r.value.mode == Eligible <==>
            && Matches(current, request) && FencedBy(current, operation) && ready && !request.proof
            && request.epoch >= 1 && request.version != 0
            && current.stateVersion != MAXIMUM_SAFE_INTEGER && current.generation < MAXIMUM_SAFE_INTEGER
            && match action
               case Activate => current.mode == Sealed && !current.projected && !request.release && (current.epoch == 0 || current.epoch == request.epoch)
               case Release => current.mode == Sealed && current.projected && request.release
                               && request.epoch == current.epoch && request.version == current.version
               case Abort => request.release == current.projected && request.epoch == current.epoch && request.version == current.version
               case _ => false)
      && (r.Some? && r.value.mode == Eligible ==>
            r.value == Route(Eligible, current.stateVersion + 1, current.generation + 1, request.epoch, request.version, None, false))
  {
  }

  // A route is taken from traffic by an operation it then names: an open one is drained or sealed, a draining one
  // sealed, and generation, epoch and version stay.
  lemma FencesIff(action: Action, operation: Operation, current: Route, request: Request, ready: bool)
    ensures var r := NextState(action, operation, current, request, ready);
      && (r.Some? && r.value.mode != Eligible <==>
            && Matches(current, request) && request.epoch == 0 && request.version == 0 && !request.release
            && current.stateVersion != MAXIMUM_SAFE_INTEGER && current.generation <= MAXIMUM_SAFE_INTEGER
            && match action
               case Drain => Open(current) && !request.proof
               case LegacySeal => current.mode == Draining && FencedBy(current, operation) && !current.projected && !request.proof && ready
               case Seal => (Open(current) || (current.mode == Draining && FencedBy(current, operation))) && !current.projected && request.proof && ready
               case _ => false)
      && (r.Some? && r.value.mode != Eligible ==>
            r.value == Route(if action == Drain then Draining else Sealed, current.stateVersion + 1, current.generation, current.epoch, current.version,
                             Some(operation), current.projected || action == Seal))
  {
  }
}
