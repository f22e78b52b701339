// SQLiteModelRegistry: registration, promotion and rollback over the model and deployment
// tables. Evaluation gates, signatures and artifacts are oracles. Each public method is one
// transaction: an error leaves both tables as they were.
module Registry {
  import opened Basics
  import opened Lifecycle

  datatype Model = Model(registry: string, tenants: seq<string>, state: State, history: seq<Transition>)

  datatype Pointer = Pointer(current: string, previous: Option<string>)

  datatype Tables = Tables(models: map<string, Model>, deployments: map<string, Pointer>)

  datatype Identity = Identity(operator: bool, actor: Option<string>, tenants: set<string>)

  datatype Request = Request(version: string, target: State, reason: string, evaluation: Option<string>,
                             actor: Option<string>)

  // What the registry asks of evaluations, deployment reports, manifests and artifacts.
  datatype Gates = Gates(
    passed: (string, Option<string>) -> bool,
    progression: (string, Request) -> bool,
    manifest: string -> bool,
    artifact: string -> bool)

  function Get(models: map<string, Model>, version: string, who: Identity, gates: Gates): Result<Model, Error> {
    if !who.operator then Failure(OperatorRequired)
    else if version !in models then Failure(ModelNotFound)
    else if exists i :: 0 <= i < |models[version].tenants| && models[version].tenants[i] !in who.tenants
        then Failure(ModelNotFound)
    else if !gates.manifest(version) then Failure(ManifestInvalid)
    else Success(models[version])
  }

  // The recorded actor; a transition without one is refused.
  function Actor(who: Identity): string {
    if who.actor.Some? then who.actor.value else ""
  }

  function Moved(m: Model, request: Request, who: Identity): Model {
    m.(state := request.target,
       history := m.history + [Transition(Some(m.state), request.target, Actor(who), request.reason,
                                          request.evaluation)])
  }

  function TransitionRefusal(m: Model, request: Request, who: Identity, rollback: bool, gates: Gates): Option<Error> {
    var passed := if rollback then Approval(m.history).Some? else gates.passed(request.version, request.evaluation);
    match Refusal(m.state, request.target, who.actor, request.reason, passed, rollback)
    case Some(e) => Some(e)
    case None =>
      if !rollback && (request.target == Canary || request.target == Production)
          && !gates.progression(request.version, request)
      then Some(ProgressionRefused)
      else if request.target != Revoked && request.target != Deprecated && !gates.artifact(request.version)
          then Some(ArtifactInvalid)
      else None
  }

  function Retire(version: string, reason: string): Request {
    Request(version, Deprecated, reason, None, None)
  }

  // ---- The tables after each operation ----

  function Registered(t: Tables, version: string, registry: string, tenants: seq<string>,
                      actor: string): Result<Tables, Error> {
    if version in t.models then Failure(VersionExists)
    else
      var first := Transition(None, Candidate, actor, "training_completed", None);
      Success(t.(models := t.models[version := Model(registry, tenants, Candidate, [first])]))
  }

  predicate Repeats(m: Model, request: Request, who: Identity) {
    && m.state == request.target && |m.history| > 0
    && var last := m.history[|m.history| - 1];
    && Some(last.actor) == who.actor && last.reason == request.reason && last.evaluation == request.evaluation
  }

  function Promoted(t: Tables, request: Request, who: Identity, gates: Gates): Result<Tables, Error> {
    match Get(t.models, request.version, who, gates)
    case Failure(e) => Failure(e)
    case Success(m) =>
      if request.actor.Some? && request.actor != who.actor then Failure(ActorMismatch)
      else if Repeats(m, request, who) then Success(t)
      else
        match TransitionRefusal(m, request, who, false, gates)
        case Some(e) => Failure(e)
        case None =>
          var models := t.models[request.version := Moved(m, request, who)];
          if request.target == Production then TakeOver(Tables(models, t.deployments), m, request, who, gates)
          else Success(Tables(models, t.deployments))
  }

  // Retires the deployment's current version, if there is one, and points at the new one.
  function TakeOver(t: Tables, m: Model, request: Request, who: Identity, gates: Gates): Result<Tables, Error> {
    if m.registry !in t.deployments then
      Success(t.(deployments := t.deployments[m.registry := Pointer(request.version, None)]))
    else
      var incumbent := t.deployments[m.registry].current;
      match Get(t.models, incumbent, who, gates)
      case Failure(e) => Failure(e)
      case Success(sitting) =>
        if sitting.state != Production || sitting.tenants != m.tenants then Failure(DeploymentConflict)
        else
          match TransitionRefusal(sitting, Retire(incumbent, request.reason), who, false, gates)
          case Some(e) => Failure(e)
          case None => Success(Tables(t.models[incumbent := Moved(sitting, Retire(incumbent, request.reason), who)],
                                      t.deployments[m.registry := Pointer(request.version, Some(incumbent))]))
  }

  function Restore(version: string, reason: string, approval: Transition): Request {
    Request(version, Production, reason, approval.evaluation, None)
  }

  function RolledBack(t: Tables, deployment: string, who: Identity, reason: string,
                      gates: Gates): Result<Tables, Error> {
    if !who.operator then Failure(OperatorRequired)
    else if deployment !in t.deployments || t.deployments[deployment].previous.None?
        then Failure(PreviousVersionRequired)
    else
      var current, previous := t.deployments[deployment].current, t.deployments[deployment].previous.value;
      match (Get(t.models, current, who, gates), Get(t.models, previous, who, gates))
      case (Failure(e), _) => Failure(e)
      case (_, Failure(e)) => Failure(e)
      case (Success(now), Success(before)) =>
        if now.state != Production || before.state != Deprecated || Approval(before.history).None?
            then Failure(RollbackUnavailable)
        else SwapBack(t, deployment, current, now, previous, before, Approval(before.history).value, who, reason, gates)
  }

  function SwapBack(t: Tables, deployment: string, current: string, now: Model, previous: string, before: Model,
                    approval: Transition, who: Identity, reason: string, gates: Gates): Result<Tables, Error> {
    match TransitionRefusal(now, Retire(current, reason), who, true, gates)
    case Some(e) => Failure(e)
    case None =>
      match TransitionRefusal(before, Restore(previous, reason, approval), who, true, gates)
      case Some(e) => Failure(e)
      case None =>
        Success(Tables(t.models[current := Moved(now, Retire(current, reason), who)]
                               [previous := Moved(before, Restore(previous, reason, approval), who)],
                       t.deployments[deployment := Pointer(previous, Some(current))]))
  }

  // ---- What every reachable registry satisfies ----

  // A history is a contiguous chain of edges that ends in the stored state.
  ghost predicate Recorded(m: Model) {
    Chain(m.history) && m.history[|m.history| - 1].to == m.state
  }

  predicate Retired(s: State) { s == Deprecated || s == Revoked }

  // A pointer's current version is or was in production, its previous version is retired,
  // and both belong to the deployment.
  ghost predicate PointsWell(models: map<string, Model>, deployment: string, p: Pointer) {
    && p.current in models && models[p.current].registry == deployment
    && (models[p.current].state == Production || Retired(models[p.current].state))
    && (p.previous.Some? ==>
          && p.previous.value in models && models[p.previous.value].registry == deployment
          && Retired(models[p.previous.value].state) && p.previous.value != p.current)
  }

  ghost predicate Sound(t: Tables) {
    && (forall v :: v in t.models ==> Recorded(t.models[v]))
    && (forall d :: d in t.deployments ==> PointsWell(t.models, d, t.deployments[d]))
    && (forall v :: v in t.models && t.models[v].state == Production ==>
          t.models[v].registry in t.deployments && t.deployments[t.models[v].registry].current == v)
  }

  lemma MoveIsRecorded(m: Model, request: Request, who: Identity, rollback: bool, gates: Gates)
    requires Recorded(m) && TransitionRefusal(m, request, who, rollback, gates).None?
    ensures Recorded(Moved(m, request, who))
    ensures Linked(m.history[|m.history| - 1], Moved(m, request, who).history[|m.history|])
  {
    var t := Transition(Some(m.state), request.target, Actor(who), request.reason, request.evaluation);
    ChainGrows(m.history, t);
  }

  lemma RegistrationKeepsSound(t: Tables, version: string, registry: string, tenants: seq<string>, actor: string)
    requires Sound(t) && Registered(t, version, registry, tenants, actor).Success?
    ensures Sound(Registered(t, version, registry, tenants, actor).value)
  {
  }

  // A first or later version goes to production while the current one is retired.
  lemma SuccessionKeepsSound(t: Tables, version: string, up: Model, incumbent: string, down: Model)
    requires Sound(t) && version in t.models && incumbent in t.models && version != incumbent
    requires up.registry in t.deployments && t.deployments[up.registry].current == incumbent
    requires Recorded(up) && up.state == Production && up.registry == t.models[version].registry
    requires Recorded(down) && down.state == Deprecated && down.registry == t.models[incumbent].registry == up.registry
    ensures Sound(Tables(t.models[version := up][incumbent := down],
                         t.deployments[up.registry := Pointer(version, Some(incumbent))]))
  {
    var later := Tables(t.models[version := up][incumbent := down],
                        t.deployments[up.registry := Pointer(version, Some(incumbent))]);
    forall d | d in later.deployments ensures PointsWell(later.models, d, later.deployments[d]) {
      if d != up.registry { assert PointsWell(t.models, d, t.deployments[d]); }
    }
  }

  lemma FirstProductionKeepsSound(t: Tables, version: string, up: Model)
    requires Sound(t) && version in t.models && up.registry !in t.deployments
    requires Recorded(up) && up.state == Production && up.registry == t.models[version].registry
    ensures Sound(Tables(t.models[version := up], t.deployments[up.registry := Pointer(version, None)]))
  {
    var later := Tables(t.models[version := up], t.deployments[up.registry := Pointer(version, None)]);
    forall d | d in later.deployments ensures PointsWell(later.models, d, later.deployments[d]) {
      if d != up.registry { assert PointsWell(t.models, d, t.deployments[d]); }
    }
  }

  // A move that neither enters production nor brings anything back.
  lemma OrdinaryMoveKeepsSound(t: Tables, version: string, next: Model)
    requires Sound(t) && version in t.models && Recorded(next) && next.registry == t.models[version].registry
    requires next.state != Production && Allowed(t.models[version].state, next.state)
    ensures Sound(t.(models := t.models[version := next]))
  {
    var later := t.models[version := next];
    forall d | d in t.deployments ensures PointsWell(later, d, t.deployments[d]) {
      assert PointsWell(t.models, d, t.deployments[d]);
    }
  }

  lemma PromotionToProductionKeepsSound(t: Tables, request: Request, who: Identity, gates: Gates)
    requires Sound(t) && request.version in t.models && request.target == Production
    requires TransitionRefusal(t.models[request.version], request, who, false, gates).None?
    requires var m := t.models[request.version];
             TakeOver(Tables(t.models[request.version := Moved(m, request, who)], t.deployments), m, request, who,
                      gates).Success?
    ensures var m := t.models[request.version];
            Sound(TakeOver(Tables(t.models[request.version := Moved(m, request, who)], t.deployments), m, request, who,
                           gates).value)
  {
    var m := t.models[request.version];
    var up := Moved(m, request, who);
    MoveIsRecorded(m, request, who, false, gates);
    if m.registry in t.deployments {
      var incumbent := t.deployments[m.registry].current;
      assert PointsWell(t.models, m.registry, t.deployments[m.registry]);
      var down := Moved(t.models[incumbent], Retire(incumbent, request.reason), who);
      MoveIsRecorded(t.models[incumbent], Retire(incumbent, request.reason), who, false, gates);
      SuccessionKeepsSound(t, request.version, up, incumbent, down);
    } else {
      FirstProductionKeepsSound(t, request.version, up);
    }
  }

  lemma PromotionKeepsSound(t: Tables, request: Request, who: Identity, gates: Gates)
    requires Sound(t) && Promoted(t, request, who, gates).Success?
    ensures Sound(Promoted(t, request, who, gates).value)
  {
    var m := t.models[request.version];
    if !Repeats(m, request, who) {
      if request.target == Production {
        PromotionToProductionKeepsSound(t, request, who, gates);
      } else {
        MoveIsRecorded(m, request, who, false, gates);
        OrdinaryMoveKeepsSound(t, request.version, Moved(m, request, who));
      }
    }
  }

  lemma RollbackKeepsSound(t: Tables, deployment: string, who: Identity, reason: string, gates: Gates)
    requires Sound(t) && RolledBack(t, deployment, who, reason, gates).Success?
    ensures Sound(RolledBack(t, deployment, who, reason, gates).value)
  {
    var current, previous := t.deployments[deployment].current, t.deployments[deployment].previous.value;
    var approval := Approval(t.models[previous].history).value;
    var down := Moved(t.models[current], Retire(current, reason), who);
    var up := Moved(t.models[previous], Restore(previous, reason, approval), who);
    assert PointsWell(t.models, deployment, t.deployments[deployment]);
    MoveIsRecorded(t.models[current], Retire(current, reason), who, true, gates);
    MoveIsRecorded(t.models[previous], Restore(previous, reason, approval), who, true, gates);
    SuccessionKeepsSound(t, previous, up, current, down);
    assert t.models[current := down][previous := up] == t.models[previous := up][current := down];
  }

  // ---- Runs ----

  datatype Step =
    | Register(version: string, registry: string, tenants: seq<string>, actor: string)
    | Promote(request: Request, who: Identity, gates: Gates)
    | Rollback(deployment: string, who: Identity, reason: string, gates: Gates)

  function Attempt(t: Tables, s: Step): Result<Tables, Error> {
    match s
    case Register(version, registry, tenants, actor) => Registered(t, version, registry, tenants, actor)
    case Promote(request, who, gates) => Promoted(t, request, who, gates)
    case Rollback(deployment, who, reason, gates) => RolledBack(t, deployment, who, reason, gates)
  }

  function After(t: Tables, s: Step): Tables {
    match Attempt(t, s)
    case Success(next) => next
    case Failure(_) => t
  }

  function Replay(t: Tables, steps: seq<Step>, n: nat): Tables
    requires n <= |steps|
  {
    if n == 0 then t else After(Replay(t, steps, n - 1), steps[n - 1])
  }

  lemma StepKeepsSound(t: Tables, s: Step)
    requires Sound(t)
    ensures Sound(After(t, s))
  {
    if Attempt(t, s).Success? {
      match s
      case Register(version, registry, tenants, actor) => RegistrationKeepsSound(t, version, registry, tenants, actor);
      case Promote(request, who, gates) => PromotionKeepsSound(t, request, who, gates);
      case Rollback(deployment, who, reason, gates) => RollbackKeepsSound(t, deployment, who, reason, gates);
    }
  }

  lemma {:induction false} EveryRunIsSound(t: Tables, steps: seq<Step>, n: nat)
    requires Sound(t) && n <= |steps|
    ensures Sound(Replay(t, steps, n))
  {
    if n > 0 {
      EveryRunIsSound(t, steps, n - 1);
      StepKeepsSound(Replay(t, steps, n - 1), steps[n - 1]);
    }
  }

  const Start := Tables(map[], map[])

  // Each deployment has at most one production model, and its pointer names it.
  lemma OneProductionPerDeployment(steps: seq<Step>, n: nat, v: string, w: string)
    requires n <= |steps|
    requires var t := Replay(Start, steps, n);
             v in t.models && w in t.models && t.models[v].state == t.models[w].state == Production
             && t.models[v].registry == t.models[w].registry
    ensures v == w
    ensures var t := Replay(Start, steps, n);
            t.models[v].registry in t.deployments && t.deployments[t.models[v].registry].current == v
  {
    EveryRunIsSound(Start, steps, n);
  }

  // Every model that ever was approved or beyond has its approval on record.
  lemma ApprovalIsOnRecord(steps: seq<Step>, n: nat, v: string, k: nat)
    requires n <= |steps| && v in Replay(Start, steps, n).models
    requires var h := Replay(Start, steps, n).models[v].history; k < |h| && Beyond(h[k].to)
    ensures Approval(Replay(Start, steps, n).models[v].history).Some?
  {
    EveryRunIsSound(Start, steps, n);
    var h := Replay(Start, steps, n).models[v].history;
    BeyondMeansApproved(h, |h|, k);
  }

  // What one step may do to one model: leave it, or add one linked transition to its history.
  ghost predicate Advances(m: Model, next: Model) {
    || next == m
    || (&& next.registry == m.registry && next.tenants == m.tenants
        && |next.history| == |m.history| + 1 && next.history[..|m.history|] == m.history
        && Recorded(next) && m.state != Revoked)
  }

  lemma MoveAdvances(m: Model, request: Request, who: Identity, rollback: bool, gates: Gates)
    requires Recorded(m) && TransitionRefusal(m, request, who, rollback, gates).None?
    ensures Advances(m, Moved(m, request, who))
  {
    MoveIsRecorded(m, request, who, rollback, gates);
  }

  // Everything outside the named versions is as before.
  ghost predicate OthersSame(t: Tables, u: Tables, v: string, w: string) {
    && t.models.Keys == u.models.Keys
    && forall x :: x in t.models && x != v && x != w ==> u.models[x] == t.models[x]
  }

  ghost predicate Moves(t: Tables, u: Tables, v: string, from: set<State>, to: State) {
    v in t.models && v in u.models && t.models[v].state in from && u.models[v].state == to
        && Advances(t.models[v], u.models[v])
  }

  // Version `up` takes over deployment d from its current version, if it has one.
  ghost predicate TakesOver(t: Tables, u: Tables, d: string, up: string, from: State) {
    && Moves(t, u, up, {from}, Production) && t.models[up].registry == d
    && (d !in t.deployments ==> OthersSame(t, u, up, up) && u.deployments == t.deployments[d := Pointer(up, None)])
    && (d in t.deployments ==>
          var down := t.deployments[d].current;
          down != up && Moves(t, u, down, {Production}, Deprecated) && OthersSame(t, u, up, down)
          && u.deployments == t.deployments[d := Pointer(up, Some(down))])
  }

  lemma SuccessionTakesOver(t: Tables, d: string, up: string, restored: Model, down: string, retired: Model)
    requires up in t.models && down in t.models && up != down && d in t.deployments && t.deployments[d].current == down
    requires Advances(t.models[up], restored) && restored.state == Production && t.models[up].registry == d
    requires Advances(t.models[down], retired) && t.models[down].state == Production && retired.state == Deprecated
    ensures TakesOver(t, Tables(t.models[up := restored][down := retired], t.deployments[d := Pointer(up, Some(down))]),
                      d, up, t.models[up].state)
  {
  }

  lemma RollbackTakesOver(t: Tables, deployment: string, who: Identity, reason: string, gates: Gates)
    requires Sound(t) && RolledBack(t, deployment, who, reason, gates).Success?
    ensures deployment in t.deployments && t.deployments[deployment].previous.Some?
    ensures TakesOver(t, RolledBack(t, deployment, who, reason, gates).value, deployment,
                      t.deployments[deployment].previous.value, Deprecated)
  {
    var current, previous := t.deployments[deployment].current, t.deployments[deployment].previous.value;
    assert PointsWell(t.models, deployment, t.deployments[deployment]);
    var approval := Approval(t.models[previous].history).value;
    var retired := Moved(t.models[current], Retire(current, reason), who);
    var restored := Moved(t.models[previous], Restore(previous, reason, approval), who);
    MoveAdvances(t.models[current], Retire(current, reason), who, true, gates);
    MoveAdvances(t.models[previous], Restore(previous, reason, approval), who, true, gates);
    SuccessionTakesOver(t, deployment, previous, restored, current, retired);
    assert t.models[current := retired][previous := restored] == t.models[previous := restored][current := retired];
  }

  lemma FirstTakesOver(t: Tables, d: string, up: string, next: Model)
    requires up in t.models && d !in t.deployments && t.models[up].registry == d
    requires Advances(t.models[up], next) && next.state == Production
    ensures TakesOver(t, Tables(t.models[up := next], t.deployments[d := Pointer(up, None)]), d, up, t.models[up].state)
  {
  }

  lemma PromotionTakesOver(t: Tables, request: Request, who: Identity, gates: Gates)
    requires Sound(t) && Promoted(t, request, who, gates).Success? && request.target == Production
    requires request.version in t.models && !Repeats(t.models[request.version], request, who)
    ensures TakesOver(t, Promoted(t, request, who, gates).value, t.models[request.version].registry, request.version,
                      Canary)
  {
    var m := t.models[request.version];
    var next := Moved(m, request, who);
    MoveAdvances(m, request, who, false, gates);
    if m.registry in t.deployments {
      var incumbent := t.deployments[m.registry].current;
      assert PointsWell(t.models, m.registry, t.deployments[m.registry]);
      MoveAdvances(t.models[incumbent], Retire(incumbent, request.reason), who, false, gates);
      SuccessionTakesOver(t, m.registry, request.version, next, incumbent,
                          Moved(t.models[incumbent], Retire(incumbent, request.reason), who));
    } else {
      FirstTakesOver(t, m.registry, request.version, next);
    }
  }

  lemma PromotionMoves(t: Tables, request: Request, who: Identity, gates: Gates)
    requires Sound(t) && Promoted(t, request, who, gates).Success? && request.target != Production
    requires request.version in t.models && !Repeats(t.models[request.version], request, who)
    ensures ChangesBy(t, Promoted(t, request, who, gates).value, Move(request.version, request.target))
  {
    MoveAdvances(t.models[request.version], request, who, false, gates);
  }

  // One step, by its effect.
  datatype Change =
    | Nothing
    | Addition(version: string)
    | Move(version: string, to: State)
    | Succession(deployment: string, up: string, from: State)

  ghost predicate ChangesBy(t: Tables, u: Tables, c: Change) {
    match c
    case Nothing => u == t
    case Addition(v) =>
      && v !in t.models && v in u.models && u.models[v].state == Candidate
      && u == t.(models := t.models[v := u.models[v]])
    case Move(v, to) =>
      && v in t.models && to != Production && Allowed(t.models[v].state, to)
      && Moves(t, u, v, {t.models[v].state}, to) && OthersSame(t, u, v, v) && u.deployments == t.deployments
    case Succession(d, up, from) => (from == Canary || from == Deprecated) && TakesOver(t, u, d, up, from)
  }

  // A promotion that succeeds and is no repeat, to a state other than production.
  predicate Relocates(t: Tables, s: Step) {
    && s.Promote? && Attempt(t, s).Success? && s.request.target != Production
    && s.request.version in t.models && !Repeats(t.models[s.request.version], s.request, s.who)
  }

  lemma StepChanges(t: Tables, s: Step) returns (c: Change)
    requires Sound(t)
    ensures ChangesBy(t, After(t, s), c)
    ensures c.Move? <==> Relocates(t, s)
    ensures c.Move? ==> c == Move(s.request.version, s.request.target)
  {
    c := Nothing;
    if Attempt(t, s).Success? {
      match s
      case Register(version, _, _, _) => c := Addition(version);
      case Promote(request, who, gates) =>
        if !Repeats(t.models[request.version], request, who) {
          if request.target == Production {
            PromotionTakesOver(t, request, who, gates);
            c := Succession(t.models[request.version].registry, request.version, Canary);
          } else {
            PromotionMoves(t, request, who, gates);
            c := Move(request.version, request.target);
          }
        }
      case Rollback(deployment, who, reason, gates) =>
        RollbackTakesOver(t, deployment, who, reason, gates);
        c := Succession(deployment, t.deployments[deployment].previous.value, Deprecated);
    }
  }

  // Histories only grow, by linked transitions, and a revoked model never changes.
  lemma ChangeAdvances(t: Tables, u: Tables, c: Change, v: string)
    requires ChangesBy(t, u, c) && v in t.models
    ensures v in u.models && Advances(t.models[v], u.models[v])
  {
  }

  lemma HistoriesOnlyGrow(t: Tables, s: Step, v: string)
    requires Sound(t) && v in t.models
    ensures v in After(t, s).models && Advances(t.models[v], After(t, s).models[v])
  {
    var c := StepChanges(t, s);
    ChangeAdvances(t, After(t, s), c, v);
  }

  lemma {:induction false} RevokedIsTerminal(t: Tables, steps: seq<Step>, n: nat, v: string)
    requires Sound(t) && n <= |steps| && v in t.models && t.models[v].state == Revoked
    ensures v in Replay(t, steps, n).models && Replay(t, steps, n).models[v] == t.models[v]
  {
    if n > 0 {
      RevokedIsTerminal(t, steps, n - 1, v);
      EveryRunIsSound(t, steps, n - 1);
      HistoriesOnlyGrow(Replay(t, steps, n - 1), steps[n - 1], v);
    }
  }

  // ---- Gates ----

  // A promotion that moves its model was made by an operator who may see the model's tenants,
  // names an actor and a reason, and met the gate of its target.
  lemma PromotionsAreGated(t: Tables, request: Request, who: Identity, gates: Gates, u: Tables)
    requires Promoted(t, request, who, gates) == Success(u) && u != t
    ensures who.operator && request.version in t.models
    ensures forall tenant :: tenant in t.models[request.version].tenants ==> tenant in who.tenants
    ensures who.actor.Some? && who.actor.value != "" && !Blank(request.reason)
    ensures request.target == Approved ==> gates.passed(request.version, request.evaluation)
    ensures request.target == Canary || request.target == Production ==> gates.progression(request.version, request)
    ensures !Retired(request.target) ==> gates.artifact(request.version)
  {
    var m := t.models[request.version];
    assert TransitionRefusal(m, request, who, false, gates).None?;
  }

  // ---- When an operation succeeds, and what it records ----

  // An operator may see the version, and its manifest is in order.
  ghost predicate Viewable(t: Tables, v: string, who: Identity, gates: Gates) {
    && who.operator && v in t.models && gates.manifest(v)
    && forall tenant :: tenant in t.models[v].tenants ==> tenant in who.tenants
  }

  predicate Signed(who: Identity, reason: string) {
    who.actor.Some? && who.actor.value != "" && !Blank(reason)
  }

  lemma GetIff(t: Tables, v: string, who: Identity, gates: Gates)
    ensures Get(t.models, v, who, gates).Success? <==> Viewable(t, v, who, gates)
    ensures Viewable(t, v, who, gates) ==> Get(t.models, v, who, gates).value == t.models[v]
  {
  }

  // A model of somebody else's tenants is not told from one that does not exist.
  lemma HiddenLooksMissing(t: Tables, v: string, who: Identity, gates: Gates)
    ensures var r := Get(t.models, v, who, gates);
            && (r == Failure(OperatorRequired) <==> !who.operator)
            && (r == Failure(ModelNotFound) <==>
                  who.operator && (v in t.models ==>
                    exists tenant :: tenant in t.models[v].tenants && tenant !in who.tenants))
            && (r.Failure? ==> r.error in {OperatorRequired, ModelNotFound, ManifestInvalid})
  {
  }

  // Why a transition is refused: its edge, its note, its evaluation, its progression or its
  // artifact, the first that is not in order.
  lemma RefusalsInOrder(m: Model, request: Request, who: Identity, gates: Gates)
    ensures var refusal := TransitionRefusal(m, request, who, false, gates);
            && (refusal == Some(InvalidTransition) <==> !Allowed(m.state, request.target))
            && (refusal == Some(NoteRequired) <==> Allowed(m.state, request.target) && !Signed(who, request.reason))
            && (refusal == Some(EvaluationRequired) ==>
                  request.target == Approved && !gates.passed(request.version, request.evaluation))
            && (refusal == Some(ProgressionRefused) ==>
                  request.target in {Canary, Production} && !gates.progression(request.version, request))
            && (refusal == Some(ArtifactInvalid) ==>
                  && request.target !in {Deprecated, Revoked} && !gates.artifact(request.version)
                  && (request.target in {Canary, Production} ==> gates.progression(request.version, request)))
  {
  }

  // A rollback restores a deprecated version that was approved and whose artifact is intact, in
  // place of one in production, for an operator who may see both and signs for it.
  ghost predicate CanRollBack(t: Tables, d: string, who: Identity, reason: string, gates: Gates) {
    && d in t.deployments && t.deployments[d].previous.Some?
    && var current, previous := t.deployments[d].current, t.deployments[d].previous.value;
    && Viewable(t, current, who, gates) && Viewable(t, previous, who, gates)
    && t.models[current].state == Production && t.models[previous].state == Deprecated
    && (exists k :: LastApproval(t.models[previous].history, k))
    && Signed(who, reason) && gates.artifact(previous)
  }

  lemma RollbackSucceedsIff(t: Tables, d: string, who: Identity, reason: string, gates: Gates)
    ensures RolledBack(t, d, who, reason, gates).Success? <==> CanRollBack(t, d, who, reason, gates)
  {
    if d in t.deployments && t.deployments[d].previous.Some? {
      var current, previous := t.deployments[d].current, t.deployments[d].previous.value;
      GetIff(t, current, who, gates);
      GetIff(t, previous, who, gates);
      if previous in t.models { ApprovalIffOnRecord(t.models[previous].history); }
    }
  }

  lemma RollbackRefusals(t: Tables, d: string, who: Identity, reason: string, gates: Gates)
    ensures var r := RolledBack(t, d, who, reason, gates);
            && (r == Failure(OperatorRequired) <==> !who.operator)
            && (r == Failure(PreviousVersionRequired) <==>
                  who.operator && (d in t.deployments ==> t.deployments[d].previous.None?))
            && (r == Failure(RollbackUnavailable) ==>
                  && d in t.deployments && t.deployments[d].previous.Some?
                  && var current, previous := t.deployments[d].current, t.deployments[d].previous.value;
                  && current in t.models && previous in t.models
                  && !(&& t.models[current].state == Production && t.models[previous].state == Deprecated
                       && exists k :: LastApproval(t.models[previous].history, k)))
            && (r == Failure(NoteRequired) ==> !Signed(who, reason))
  {
    if d in t.deployments && t.deployments[d].previous.Some? {
      var current, previous := t.deployments[d].current, t.deployments[d].previous.value;
      GetIff(t, current, who, gates);
      GetIff(t, previous, who, gates);
      HiddenLooksMissing(t, current, who, gates);
      HiddenLooksMissing(t, previous, who, gates);
      if previous in t.models { ApprovalIffOnRecord(t.models[previous].history); }
    }
  }

  // The model after a signed transition.
  function Recording(m: Model, to: State, who: Identity, reason: string, evaluation: Option<string>): Model
    requires who.actor.Some?
  {
    m.(state := to, history := m.history + [Transition(Some(m.state), to, who.actor.value, reason, evaluation)])
  }

  // It swaps the two versions, records both moves, the restored one under the evaluation of its
  // last approval, and touches nothing else.
  lemma RollbackRecords(t: Tables, d: string, who: Identity, reason: string, gates: Gates, k: nat)
    requires CanRollBack(t, d, who, reason, gates)
    requires LastApproval(t.models[t.deployments[d].previous.value].history, k)
    ensures var current, previous := t.deployments[d].current, t.deployments[d].previous.value;
            var now, before := t.models[current], t.models[previous];
            RolledBack(t, d, who, reason, gates)
            == Success(Tables(t.models[current := Recording(now, Deprecated, who, reason, None)]
                                      [previous := Recording(before, Production, who, reason,
                                                             before.history[k].evaluation)],
                              t.deployments[d := Pointer(previous, Some(current))]))
  {
    RollbackSucceedsIff(t, d, who, reason, gates);
    LastApprovalIsFound(t.models[t.deployments[d].previous.value].history, k);
  }

  // What a promotion needs of the model it moves, and of the version it would replace.
  ghost predicate MayMove(t: Tables, request: Request, who: Identity, gates: Gates) {
    && Viewable(t, request.version, who, gates) && (request.actor.None? || request.actor == who.actor)
    && Allowed(t.models[request.version].state, request.target) && Signed(who, request.reason)
    && (request.target == Approved ==> gates.passed(request.version, request.evaluation))
    && (request.target in {Canary, Production} ==> gates.progression(request.version, request))
    && (request.target !in {Deprecated, Revoked} ==> gates.artifact(request.version))
  }

  ghost predicate MayReplace(t: Tables, request: Request, who: Identity, gates: Gates)
    requires request.version in t.models
  {
    var m := t.models[request.version];
    m.registry in t.deployments ==>
      var incumbent := t.deployments[m.registry].current;
      && Viewable(t, incumbent, who, gates)
      && t.models[incumbent].state == Production && t.models[incumbent].tenants == m.tenants
  }

  // What repeats the last recorded transition succeeds without an effect.
  ghost predicate AlreadyDone(t: Tables, request: Request, who: Identity, gates: Gates) {
    && Viewable(t, request.version, who, gates) && (request.actor.None? || request.actor == who.actor)
    && var m := t.models[request.version];
    && m.state == request.target && who.actor.Some? && |m.history| > 0
    && var last := m.history[|m.history| - 1];
    && last.actor == who.actor.value && last.reason == request.reason && last.evaluation == request.evaluation
  }

  lemma MoveIff(t: Tables, request: Request, who: Identity, gates: Gates)
    requires Viewable(t, request.version, who, gates) && (request.actor.None? || request.actor == who.actor)
    ensures TransitionRefusal(t.models[request.version], request, who, false, gates).None? <==>
            MayMove(t, request, who, gates)
  {
  }

  lemma TakeOverIff(t: Tables, request: Request, who: Identity, gates: Gates)
    requires Sound(t) && MayMove(t, request, who, gates) && request.target == Production
    ensures var m := t.models[request.version];
            var moved := Tables(t.models[request.version := Moved(m, request, who)], t.deployments);
            TakeOver(moved, m, request, who, gates).Success? <==> MayReplace(t, request, who, gates)
  {
    var m := t.models[request.version];
    assert m.state == Canary;
    if m.registry in t.deployments {
      var incumbent := t.deployments[m.registry].current;
      assert PointsWell(t.models, m.registry, t.deployments[m.registry]);
      var moved := Tables(t.models[request.version := Moved(m, request, who)], t.deployments);
      assert moved.models[incumbent] == t.models[incumbent];
      GetIff(t, incumbent, who, gates);
      GetIff(moved, incumbent, who, gates);
    }
  }

  lemma PromotionSucceedsIff(t: Tables, request: Request, who: Identity, gates: Gates)
    requires Sound(t)
    ensures Promoted(t, request, who, gates).Success? <==>
            || AlreadyDone(t, request, who, gates)
            || (MayMove(t, request, who, gates)
                && (request.target == Production ==> MayReplace(t, request, who, gates)))
  {
    GetIff(t, request.version, who, gates);
    if Viewable(t, request.version, who, gates) && (request.actor.None? || request.actor == who.actor) {
      MoveIff(t, request, who, gates);
      if MayMove(t, request, who, gates) && request.target == Production { TakeOverIff(t, request, who, gates); }
    }
  }

  // What a promotion that is no repeat leaves: its model moved and recorded; and, on the way to
  // production, the version it replaces deprecated and remembered.
  lemma PromotionRecords(t: Tables, request: Request, who: Identity, gates: Gates)
    requires Sound(t) && MayMove(t, request, who, gates) && !AlreadyDone(t, request, who, gates)
    requires request.target == Production ==> MayReplace(t, request, who, gates)
    ensures var m := t.models[request.version];
            var up := Recording(m, request.target, who, request.reason, request.evaluation);
            Promoted(t, request, who, gates) == Success(
              if request.target != Production then t.(models := t.models[request.version := up])
              else if m.registry !in t.deployments then
                Tables(t.models[request.version := up], t.deployments[m.registry := Pointer(request.version, None)])
              else
                var incumbent := t.deployments[m.registry].current;
                var down := Recording(t.models[incumbent], Deprecated, who, request.reason, None);
                Tables(t.models[request.version := up][incumbent := down],
                       t.deployments[m.registry := Pointer(request.version, Some(incumbent))]))
  {
    GetIff(t, request.version, who, gates);
    MoveIff(t, request, who, gates);
    var m := t.models[request.version];
    if request.target == Production && m.registry in t.deployments {
      TakeOverIff(t, request, who, gates);
      assert PointsWell(t.models, m.registry, t.deployments[m.registry]);
    }
  }

  // ---- Rollback undoes rollback ----

  ghost predicate SameStates(t: Tables, u: Tables) {
    && t.models.Keys == u.models.Keys
    && forall v :: v in t.models ==> t.models[v].state == u.models[v].state
  }

  lemma TakingOverTwiceRestores(t: Tables, u: Tables, back: Tables, d: string, previous: string)
    requires d in t.deployments && t.deployments[d].previous == Some(previous)
    requires TakesOver(t, u, d, previous, Deprecated) && TakesOver(u, back, d, t.deployments[d].current, Deprecated)
    ensures back.deployments == t.deployments && SameStates(t, back)
  {
  }

  lemma TwoRollbacksRestore(t: Tables, deployment: string, who: Identity, reason: string, gates: Gates,
                            who': Identity, reason': string, gates': Gates, u: Tables, back: Tables)
    requires Sound(t) && RolledBack(t, deployment, who, reason, gates) == Success(u)
    requires RolledBack(u, deployment, who', reason', gates') == Success(back)
    ensures back.deployments == t.deployments && SameStates(t, back)
  {
    RollbackTakesOver(t, deployment, who, reason, gates);
    RollbackKeepsSound(t, deployment, who, reason, gates);
    RollbackTakesOver(u, deployment, who', reason', gates');
    TakingOverTwiceRestores(t, u, back, deployment, t.deployments[deployment].previous.value);
  }

  // After a rollback the next one is never refused for a missing version, state or approval.
  lemma RollbackCanBeUndone(t: Tables, deployment: string, who: Identity, reason: string, gates: Gates, u: Tables,
                            who': Identity, reason': string, gates': Gates)
    requires Sound(t) && RolledBack(t, deployment, who, reason, gates) == Success(u)
    ensures !MissingVersion(RolledBack(u, deployment, who', reason', gates'))
  {
    RollbackTakesOver(t, deployment, who, reason, gates);
    RollbackKeepsSound(t, deployment, who, reason, gates);
    RestorableAfterTakeOver(t, u, deployment, t.deployments[deployment].previous.value);
    RestorableRollsBack(u, deployment, who', reason', gates');
  }

  ghost predicate MissingVersion(r: Result<Tables, Error>) {
    r.Failure? && r.error in {PreviousVersionRequired, RollbackUnavailable, InvalidTransition, EvaluationRequired}
  }

  ghost predicate Restorable(t: Tables, d: string) {
    && d in t.deployments && t.deployments[d].previous.Some?
    && var current, previous := t.deployments[d].current, t.deployments[d].previous.value;
    && current in t.models && t.models[current].state == Production
    && previous in t.models && t.models[previous].state == Deprecated && Approval(t.models[previous].history).Some?
  }

  lemma RestorableRollsBack(t: Tables, d: string, who: Identity, reason: string, gates: Gates)
    requires Restorable(t, d)
    ensures !MissingVersion(RolledBack(t, d, who, reason, gates))
  {
  }

  lemma RestorableAfterTakeOver(t: Tables, u: Tables, d: string, previous: string)
    requires d in t.deployments && t.deployments[d].previous == Some(previous) && Sound(u)
             && TakesOver(t, u, d, previous, Deprecated)
    ensures Restorable(u, d)
  {
    var h := u.models[t.deployments[d].current].history;
    assert Recorded(u.models[t.deployments[d].current]);
    BeyondMeansApproved(h, |h|, |h| - 1);
  }

  // ---- A stranded deployment ----

  // The pointer's current version was retired without a successor.
  predicate Stranded(t: Tables, deployment: string) {
    && deployment in t.deployments && t.deployments[deployment].current in t.models
    && Retired(t.models[t.deployments[deployment].current].state)
  }

  lemma ChangeKeepsStranded(t: Tables, u: Tables, c: Change, deployment: string)
    requires ChangesBy(t, u, c) && Stranded(t, deployment)
             && PointsWell(t.models, deployment, t.deployments[deployment])
    ensures Stranded(u, deployment) && u.deployments[deployment] == t.deployments[deployment]
  {
  }

  lemma StrandedStays(t: Tables, s: Step, deployment: string)
    requires Sound(t) && Stranded(t, deployment)
    ensures Stranded(After(t, s), deployment) && After(t, s).deployments[deployment] == t.deployments[deployment]
  {
    var c := StepChanges(t, s);
    ChangeKeepsStranded(t, After(t, s), c, deployment);
  }

  // What a caller asks for: a direct promotion of the current version of d to deprecated or
  // revoked.
  predicate RetiresCurrent(t: Tables, s: Step, d: string) {
    && s.Promote? && Retired(s.request.target)
    && d in t.deployments && t.deployments[d].current == s.request.version
  }

  lemma ChangeStrandsIff(t: Tables, u: Tables, c: Change, d: string)
    requires ChangesBy(t, u, c) && !Stranded(t, d)
    requires d in t.deployments ==> PointsWell(t.models, d, t.deployments[d])
    requires c.Succession? && c.deployment in t.deployments ==>
             PointsWell(t.models, c.deployment, t.deployments[c.deployment])
    ensures Stranded(u, d) <==> c.Move? && Retired(c.to) && d in t.deployments && t.deployments[d].current == c.version
  {
  }

  // A registration, a rollback and any other promotion leave a serving deployment serving.
  lemma StrandsIff(t: Tables, s: Step, d: string)
    requires Sound(t) && !Stranded(t, d)
    ensures Stranded(After(t, s), d) <==> Attempt(t, s).Success? && RetiresCurrent(t, s, d)
  {
    var c := StepChanges(t, s);
    ChangeStrandsIff(t, After(t, s), c, d);
    if Attempt(t, s).Success? && RetiresCurrent(t, s, d) {
      assert PointsWell(t.models, d, t.deployments[d]);
      assert Relocates(t, s);
    }
  }

  // In any run, the deployments that serve nothing are those whose current version was retired
  // by such a promotion.
  lemma {:induction false} StrandedIffRetired(steps: seq<Step>, n: nat, d: string)
    requires n <= |steps|
    ensures Stranded(Replay(Start, steps, n), d) <==> Retirement(steps, n, d)
  {
    if n > 0 {
      var t := Replay(Start, steps, n - 1);
      StrandedIffRetired(steps, n - 1, d);
      EveryRunIsSound(Start, steps, n - 1);
      RetirementGrows(steps, n, d);
      if Stranded(t, d) { StrandedStays(t, steps[n - 1], d); } else { StrandsIff(t, steps[n - 1], d); }
    }
  }

  predicate RetiredAt(steps: seq<Step>, k: nat, d: string)
    requires k < |steps|
  {
    var t := Replay(Start, steps, k);
    Attempt(t, steps[k]).Success? && RetiresCurrent(t, steps[k], d)
  }

  // Some step before the n-th retired the current version of d.
  predicate Retirement(steps: seq<Step>, n: nat, d: string)
    requires n <= |steps|
  {
    exists k :: 0 <= k < n && RetiredAt(steps, k, d)
  }

  lemma RetirementGrows(steps: seq<Step>, n: nat, d: string)
    requires 0 < n <= |steps|
    ensures Retirement(steps, n, d) <==> Retirement(steps, n - 1, d) || RetiredAt(steps, n - 1, d)
  {
  }

  // Nothing but the state of the sitting version stands against the promotion or the rollback.
  predicate OtherwisePromotes(t: Tables, request: Request, who: Identity, gates: Gates, d: string)
    requires d in t.deployments
  {
    && Get(t.models, request.version, who, gates).Success?
    && (request.actor.None? || request.actor == who.actor)
    && TransitionRefusal(t.models[request.version], request, who, false, gates).None?
    && Get(t.models, t.deployments[d].current, who, gates).Success?
  }

  predicate OtherwiseRollsBack(t: Tables, who: Identity, gates: Gates, d: string)
    requires d in t.deployments
  {
    && who.operator && t.deployments[d].previous.Some?
    && Get(t.models, t.deployments[d].current, who, gates).Success?
    && Get(t.models, t.deployments[d].previous.value, who, gates).Success?
  }

  // Promotions of the deployment's models to production and its rollbacks fail.
  predicate RefusesAll(t: Tables, d: string, request: Request, who: Identity, reason: string, gates: Gates) {
    && d in t.deployments
    && RolledBack(t, d, who, reason, gates).Failure?
    && (OtherwiseRollsBack(t, who, gates, d) ==> RolledBack(t, d, who, reason, gates).error == RollbackUnavailable)
    && (request.version in t.models && t.models[request.version].registry == d && request.target == Production ==>
          && Promoted(t, request, who, gates).Failure?
          && (OtherwisePromotes(t, request, who, gates, d) ==>
              Promoted(t, request, who, gates).error == DeploymentConflict))
  }

  lemma StrandedRefusesPromotion(t: Tables, d: string, request: Request, who: Identity, gates: Gates)
    requires Sound(t) && Stranded(t, d)
    requires request.version in t.models && t.models[request.version].registry == d && request.target == Production
    ensures Promoted(t, request, who, gates).Failure?
    ensures OtherwisePromotes(t, request, who, gates, d) ==>
            Promoted(t, request, who, gates).error == DeploymentConflict
  {
    var m := t.models[request.version];
    StrandedIffNothingServes(t, d);
    assert !Repeats(m, request, who);
    if TransitionRefusal(m, request, who, false, gates).None? {
      var incumbent := t.deployments[d].current;
      assert Allowed(m.state, Production) && m.state == Canary;
      assert t.models[request.version := Moved(m, request, who)][incumbent] == t.models[incumbent];
    }
  }

  lemma StrandedRefuses(t: Tables, d: string, request: Request, who: Identity, reason: string, gates: Gates)
    requires Sound(t) && Stranded(t, d)
    ensures RefusesAll(t, d, request, who, reason, gates)
  {
    if request.version in t.models && t.models[request.version].registry == d && request.target == Production {
      StrandedRefusesPromotion(t, d, request, who, gates);
    }
  }

  // Once stranded, a deployment never again has a production model: in every later state its
  // promotions to production conflict and its rollbacks are refused.
  lemma {:induction false} StrandedForever(t: Tables, steps: seq<Step>, n: nat, d: string, v: string,
                                           request: Request, who: Identity, reason: string, gates: Gates)
    requires Sound(t) && Stranded(t, d) && n <= |steps|
    ensures Stranded(Replay(t, steps, n), d)
    ensures RefusesAll(Replay(t, steps, n), d, request, who, reason, gates)
    ensures v in Replay(t, steps, n).models && Replay(t, steps, n).models[v].registry == d ==>
              Replay(t, steps, n).models[v].state != Production
  {
    StrandedStaysForever(t, steps, n, d);
    EveryRunIsSound(t, steps, n);
    StrandedRefuses(Replay(t, steps, n), d, request, who, reason, gates);
    StrandedIffNothingServes(Replay(t, steps, n), d);
  }

  lemma {:induction false} StrandedStaysForever(t: Tables, steps: seq<Step>, n: nat, d: string)
    requires Sound(t) && Stranded(t, d) && n <= |steps|
    ensures Stranded(Replay(t, steps, n), d)
  {
    if n > 0 {
      var u := Replay(t, steps, n - 1);
      StrandedStaysForever(t, steps, n - 1, d);
      EveryRunIsSound(t, steps, n - 1);
      StrandedStays(u, steps[n - 1], d);
      assert Replay(t, steps, n) == After(u, steps[n - 1]);
    }
  }

  lemma StrandedIffNothingServes(t: Tables, deployment: string)
    requires Sound(t) && deployment in t.deployments
    ensures Stranded(t, deployment) <==> forall v :: v in t.models && t.models[v].registry == deployment ==>
            t.models[v].state != Production
  {
    assert PointsWell(t.models, deployment, t.deployments[deployment]);
  }

  // A run that strands: one model climbs to production and is then promoted to deprecated.
  const Boss := Identity(true, Some("a"), {})
  const Open := Gates((v, e) => true, (v, request) => true, v => true, v => true)

  function Rung(k: nat): State {
    match k
    case 0 => Candidate
    case 1 => Evaluating
    case 2 => Approved
    case 3 => Shadow
    case 4 => Canary
    case 5 => Production
    case _ => Deprecated
  }

  function Climb(k: nat): Request { Request("m", Rung(k), "r", None, None) }

  function Rise(): seq<Step> {
    [Step.Register("m", "d", [], "a"), Step.Promote(Climb(1), Boss, Open), Step.Promote(Climb(2), Boss, Open),
     Step.Promote(Climb(3), Boss, Open), Step.Promote(Climb(4), Boss, Open), Step.Promote(Climb(5), Boss, Open),
     Step.Promote(Climb(6), Boss, Open)]
  }

  function Career(k: nat): (m: Model)
    ensures m.registry == "d" && m.tenants == [] && m.state == Rung(k) && |m.history| > 0
  {
    if k == 0 then Model("d", [], Candidate, [Transition(None, Candidate, "a", "training_completed", None)])
    else Moved(Career(k - 1), Climb(k), Boss)
  }

  lemma ClimbIsAllowed(k: nat)
    requires 0 < k < 7
    ensures TransitionRefusal(Career(k - 1), Climb(k), Boss, false, Open).None?
            && !Repeats(Career(k - 1), Climb(k), Boss)
  {
    assert !Whitespace("r"[0]);
    assert |"a"| == 1;
    assert Allowed(Rung(k - 1), Rung(k));
  }

  function Landing(k: nat): Tables {
    Tables(map["m" := Career(k)], if k >= 5 then map["d" := Pointer("m", None)] else map[])
  }

  lemma ClimbLands(k: nat)
    requires 0 < k < 7
    ensures After(Landing(k - 1), Step.Promote(Climb(k), Boss, Open)) == Landing(k)
  {
    var t := Landing(k - 1);
    ClimbIsAllowed(k);
    assert Get(t.models, "m", Boss, Open) == Success(Career(k - 1));
    assert t.models["m" := Career(k)] == Landing(k).models;
  }

  lemma RiseStep(k: nat)
    requires 0 < k < 7
    ensures Rise()[k] == Step.Promote(Climb(k), Boss, Open)
  {
  }

  lemma {:induction false} RiseReaches(k: nat)
    requires k < 7
    ensures Replay(Start, Rise(), k + 1) == Landing(k)
  {
    if k > 0 {
      RiseReaches(k - 1);
      RiseStep(k);
      ClimbLands(k);
    } else {
      assert Replay(Start, Rise(), 0) == Start;
    }
  }

  lemma RiseStrands()
    ensures !Stranded(Replay(Start, Rise(), 6), "d") && Stranded(Replay(Start, Rise(), 7), "d")
  {
    RiseReaches(5);
    RiseReaches(6);
  }

  // ---- The registry ----

  class ModelRegistry {
    var models: map<string, Model>
    var deployments: map<string, Pointer>

    ghost predicate Valid()
      reads this
    {
      Sound(Contents())
    }

    function Contents(): Tables
      reads this
    {
      Tables(models, deployments)
    }

    constructor ()
      ensures Contents() == Start && Valid()
    {
      models, deployments := map[], map[];
    }

    // A completed training publishes its model as a candidate.
    method Register(version: string, registry: string, tenants: seq<string>,
                    actor: string) returns (error: Option<Error>)
      requires Valid()
      modifies this
      ensures Valid()
      ensures Contents() == After(old(Contents()), Step.Register(version, registry, tenants, actor))
      ensures error.None? <==> version !in old(models)
    {
      StepKeepsSound(Contents(), Step.Register(version, registry, tenants, actor));
      if version in models { return Some(VersionExists); }
      var first := Transition(None, Candidate, actor, "training_completed", None);
      models := models[version := Model(registry, tenants, Candidate, [first])];
      return None;
    }

    // _transition: updates the model row, or reports why not.
    method Transit(request: Request, who: Identity, rollback: bool, gates: Gates) returns (error: Option<Error>)
      requires request.version in models
      modifies this
      ensures deployments == old(deployments)
      ensures error == TransitionRefusal(old(models)[request.version], request, who, rollback, gates)
      ensures models == if error.Some? then old(models)
                        else old(models)[request.version := Moved(old(models)[request.version], request, who)]
    {
      var m := models[request.version];
      error := TransitionRefusal(m, request, who, rollback, gates);
      if error.None? { models := models[request.version := Moved(m, request, who)]; }
    }

    method Promote(request: Request, who: Identity, gates: Gates) returns (error: Option<Error>)
      requires Valid()
      modifies this
      ensures Valid()
      ensures Contents() == After(old(Contents()), Step.Promote(request, who, gates))
      ensures error == Problem(Promoted(old(Contents()), request, who, gates))
    {
      StepKeepsSound(Contents(), Step.Promote(request, who, gates));
      var found := Get(models, request.version, who, gates);
      if found.Failure? { return Some(found.error); }
      var m := found.value;
      if request.actor.Some? && request.actor != who.actor { return Some(ActorMismatch); }
      if Repeats(m, request, who) { return None; }
      var before := models;
      error := Transit(request, who, false, gates);
      if error.Some? || request.target != Production { return; }
      if m.registry !in deployments {
        deployments := deployments[m.registry := Pointer(request.version, None)];
        return;
      }
      var incumbent := deployments[m.registry].current;
      var sitting := Get(models, incumbent, who, gates);
      if sitting.Failure? {
        error := Some(sitting.error);
      } else if sitting.value.state != Production || sitting.value.tenants != m.tenants {
        error := Some(DeploymentConflict);
      } else {
        error := Transit(Retire(incumbent, request.reason), who, false, gates);
      }
      if error.Some? {
        models := before;
      } else {
        deployments := deployments[m.registry := Pointer(request.version, Some(incumbent))];
      }
    }

    method Rollback(deployment: string, who: Identity, reason: string, gates: Gates) returns (error: Option<Error>)
      requires Valid()
      modifies this
      ensures Valid()
      ensures Contents() == After(old(Contents()), Step.Rollback(deployment, who, reason, gates))
      ensures error == Problem(RolledBack(old(Contents()), deployment, who, reason, gates))
    {
      StepKeepsSound(Contents(), Step.Rollback(deployment, who, reason, gates));
      if !who.operator { return Some(OperatorRequired); }
      if deployment !in deployments || deployments[deployment].previous.None? { return Some(PreviousVersionRequired); }
      var current, previous := deployments[deployment].current, deployments[deployment].previous.value;
      var now, earlier := Get(models, current, who, gates), Get(models, previous, who, gates);
      if now.Failure? { return Some(now.error); }
      if earlier.Failure? { return Some(earlier.error); }
      var approval := Approval(earlier.value.history);
      if now.value.state != Production || earlier.value.state != Deprecated
          || approval.None? { return Some(RollbackUnavailable); }
      var before := models;
      error := Transit(Retire(current, reason), who, true, gates);
      if error.Some? { return; }
      error := Transit(Restore(previous, reason, approval.value), who, true, gates);
      if error.Some? {
        models := before;
        return;
      }
      deployments := deployments[deployment := Pointer(previous, Some(current))];
    }
  }

  function Problem(r: Result<Tables, Error>): Option<Error> {
    match r
    case Success(_) => None
    case Failure(e) => Some(e)
  }
}
