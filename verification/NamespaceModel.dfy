/**
 * The client's live model of a namespace, kept up to date from an event stream that overlaps the snapshot
 * it was bootstrapped from. The object is in NamespaceModelImpl.dfy.
 */
module NamespaceModel {
  import opened Common

  datatype WorkloadState =
    | Dormant | WaitingForSpec
    | Launching(pod: string, worker: string)
    | Running(pod: string, worker: string)
    | Suspending(pod: string, worker: string)
    | Suspended | RetryBackoff
    | Failed(exitCode: Option<int>, reason: string)
    | Completed(code: int)

  datatype Workload = Workload(state: WorkloadState, spliced: bool, ip: Option<string>, restarts: nat, demand: nat)

  datatype PodState =
    | PodCreated
    | PodScheduled(worker: string)
    | PodRunning(worker: string)
    | PodSuspending(worker: string)
    | PodSuspended(worker: string, snapshot: string)
    | PodStopped(code: int)
    | PodFailed(reason: string)
    | PodDisplaced
    | PodReaped

  datatype Pod = Pod(workload: string, state: PodState)

  datatype BackendNeed = NoNeed | TrafficNeed | ActiveNeed

  datatype ServiceState =
    | ServicePending | ServiceIdle | ServiceNeedsBackend
    | ServiceActive(pod: string, worker: string, need: BackendNeed)

  datatype Service = Service(
    workload: string,
    state: ServiceState,
    activation: bool,
    spliced: bool,
    ip: Option<string>,
    mac: Option<string>)

  datatype NamespaceState = Creating | Active | Destroying

  datatype Model = Model(
    id: string,
    state: NamespaceState,
    workloads: map<string, Workload>,
    services: map<string, Service>,
    pods: map<string, Pod>)

  // ---------------------------------------------------------------------
  // Events; a missing state or payload is None, as on the wire
  // ---------------------------------------------------------------------

  datatype WorkloadEvent =
    | Spliced(worker: string)
    | Unspliced
    | DemandChanged(services: nat)
    | StateChanged(oldState: Option<WorkloadState>, newState: Option<WorkloadState>)

  datatype PodEvent =
    | Created | Reaped
    | Scheduled(worker: string)
    | RunningOn(worker: string)
    | Stopped(code: int)
    | FailedWith(reason: string)
    | SuspendingOn(worker: string)
    | SuspendedOn(worker: string, snapshot: string)
    | SuspendFailed
    | MemoryConstrained | MemoryConstraintCleared | OomKill(count: nat)
    | Resuming(worker: string)
    | Displaced

  datatype Event =
    | NoEvent
    | OfWorkload(workload: string, wevent: Option<WorkloadEvent>)
    | OfPod(pod: string, workload: string, pevent: Option<PodEvent>)
    | OfEndpoint(endpoint: string, service: Option<string>, endpointWorkload: Option<string>)

  datatype StateChange =
    | WorkloadStateChanged(id: string, before: WorkloadState, after: WorkloadState)
    | WorkloadSpliced(id: string, worker: string)
    | WorkloadUnspliced(id: string)
    | WorkloadDemandChanged(id: string, demand: nat)
    | PodWasCreated(pod: string, workload: string)
    | PodStateChanged(pod: string, workload: string, state: PodState)
    | PodWasReaped(pod: string, workload: string)
    | PodMemoryConstrained(pod: string, workload: string)
    | PodMemoryConstraintCleared(pod: string, workload: string)
    | PodOomKill(pod: string, workload: string, count: nat)
    | EndpointSeen(endpoint: string, service: Option<string>, endpointWorkload: Option<string>)

  datatype Applied = Applied(model: Model, change: Option<StateChange>)

  /** A missing workload state reads as dormant. */
  function Known(s: Option<WorkloadState>): WorkloadState { if s == None then Dormant else s.value }

  function UpdateWorkload(w: Workload, e: WorkloadEvent): Workload
  {
    match e
    case Spliced(_) => w.(spliced := true)
    case Unspliced => w.(spliced := false)
    case DemandChanged(n) => w.(demand := n)
    case StateChanged(_, s) => w.(state := Known(s))
  }

  function WorkloadChange(m: Model, id: string, e: WorkloadEvent): StateChange
  {
    match e
    case Spliced(worker) => WorkloadSpliced(id, worker)
    case Unspliced => WorkloadUnspliced(id)
    case DemandChanged(n) => WorkloadDemandChanged(id, n)
    case StateChanged(before, after) =>
      WorkloadStateChanged(id, if id in m.workloads then m.workloads[id].state else Known(before), Known(after))
  }

  /** The pod state that an event reports, for the events that report one. */
  function ReportedState(e: PodEvent): Option<PodState>
  {
    match e
    case Scheduled(w) => Some(PodScheduled(w))
    case RunningOn(w) => Some(PodRunning(w))
    case Stopped(c) => Some(PodStopped(c))
    case FailedWith(r) => Some(PodFailed(r))
    case SuspendingOn(w) => Some(PodSuspending(w))
    case SuspendedOn(w, s) => Some(PodSuspended(w, s))
    case Resuming(w) => Some(PodRunning(w))
    case Displaced => Some(PodDisplaced)
    case _ => None
  }

  function ApplyPodEvent(m: Model, pod: string, workload: string, e: PodEvent): Applied
  {
    match e
    case Created =>
      Applied(m.(pods := m.pods[pod := Pod(workload, PodCreated)]), Some(PodWasCreated(pod, workload)))
    case Reaped => Applied(m.(pods := m.pods - {pod}), Some(PodWasReaped(pod, workload)))
    case SuspendFailed => Applied(m, None)
    case MemoryConstrained => Applied(m, Some(PodMemoryConstrained(pod, workload)))
    case MemoryConstraintCleared => Applied(m, Some(PodMemoryConstraintCleared(pod, workload)))
    case OomKill(n) => Applied(m, Some(PodOomKill(pod, workload, n)))
    case _ =>
      var s := ReportedState(e).value;
      Applied(m.(pods := m.pods[pod := if pod in m.pods then m.pods[pod].(state := s) else Pod(workload, s)]),
              Some(PodStateChanged(pod, workload, s)))
  }

  function ApplyEvent(m: Model, e: Event): Applied
  {
    match e
    case NoEvent => Applied(m, None)
    case OfWorkload(id, we) =>
      if we == None then Applied(m, None)
      else
        Applied(if id in m.workloads then m.(workloads := m.workloads[id := UpdateWorkload(m.workloads[id], we.value)])
                else m,
                Some(WorkloadChange(m, id, we.value)))
    case OfPod(pod, workload, pe) =>
      if pe == None then Applied(m, None) else ApplyPodEvent(m, pod, workload, pe.value)
    case OfEndpoint(ep, svc, wl) => Applied(m, Some(EndpointSeen(ep, svc, wl)))
  }

  function ApplyAll(m: Model, es: seq<Event>): Model
    decreases |es|
  {
    if es == [] then m else ApplyAll(ApplyEvent(m, es[0]).model, es[1..])
  }

  lemma {:induction false} ApplyAllAppend(m: Model, a: seq<Event>, b: seq<Event>)
    ensures ApplyAll(m, a + b) == ApplyAll(ApplyAll(m, a), b)
    decreases |a|
  {
    if a == [] {
      assert a + b == b;
    } else {
      assert (a + b)[1..] == a[1..] + b;
      ApplyAllAppend(ApplyEvent(m, a[0]).model, a[1..], b);
    }
  }

  // ---------------------------------------------------------------------
  // What a whole event sequence does to one entity
  // ---------------------------------------------------------------------

  /** The last value written to each field of a workload, if any. */
  datatype WorkloadEffect = WorkloadEffect(state: Option<WorkloadState>, spliced: Option<bool>, demand: Option<nat>)

  /** What happens to a pod entry: nothing, replaced, removed, or its state set (inserting it if absent). */
  datatype PodEffect = Keep | Put(pod: Pod) | Remove | Set(workload: string, state: PodState)

  function NoteWorkload(f: WorkloadEffect, e: Event, id: string): WorkloadEffect
  {
    if !e.OfWorkload? || e.workload != id || e.wevent == None then f
    else
      match e.wevent.value
      case Spliced(_) => f.(spliced := Some(true))
      case Unspliced => f.(spliced := Some(false))
      case DemandChanged(n) => f.(demand := Some(n))
      case StateChanged(_, s) => f.(state := Some(Known(s)))
  }

  function NotePod(f: PodEffect, e: Event, id: string): PodEffect
  {
    if !e.OfPod? || e.pod != id || e.pevent == None then f
    else
      match e.pevent.value
      case Created => Put(Pod(e.workload, PodCreated))
      case Reaped => Remove
      case _ =>
        var s := ReportedState(e.pevent.value);
        if s == None then f
        else
          match f
          case Keep => Set(e.workload, s.value)
          case Put(p) => Put(p.(state := s.value))
          case Remove => Put(Pod(e.workload, s.value))
          case Set(w, _) => Set(w, s.value)
  }

  function WorkloadEffectOf(es: seq<Event>, id: string): WorkloadEffect
  {
    if es == [] then WorkloadEffect(None, None, None)
    else NoteWorkload(WorkloadEffectOf(es[..|es| - 1], id), es[|es| - 1], id)
  }

  function PodEffectOf(es: seq<Event>, id: string): PodEffect
  {
    if es == [] then Keep else NotePod(PodEffectOf(es[..|es| - 1], id), es[|es| - 1], id)
  }

  function Or<T>(o: Option<T>, default: T): T { if o == None then default else o.value }

  function Amend(w: Workload, f: WorkloadEffect): Workload
  {
    w.(state := Or(f.state, w.state), spliced := Or(f.spliced, w.spliced), demand := Or(f.demand, w.demand))
  }

  function Affect(p: Option<Pod>, f: PodEffect): Option<Pod>
  {
    match f
    case Keep => p
    case Put(q) => Some(q)
    case Remove => None
    case Set(w, s) => Some(if p == None then Pod(w, s) else p.value.(state := s))
  }

  function GetPod(m: Model, id: string): Option<Pod> { if id in m.pods then Some(m.pods[id]) else None }

  /** `m'` is `m` with every workload and pod changed as the effects of `es` say, and nothing else. */
  ghost predicate HasEffects(m: Model, es: seq<Event>, m': Model)
  {
    && m'.id == m.id && m'.state == m.state && m'.services == m.services
    && m'.workloads.Keys == m.workloads.Keys
    && (forall id :: id in m.workloads ==> m'.workloads[id] == Amend(m.workloads[id], WorkloadEffectOf(es, id)))
    && (forall id :: GetPod(m', id) == Affect(GetPod(m, id), PodEffectOf(es, id)))
  }

  lemma OneMoreEvent(m: Model, es: seq<Event>, m': Model, e: Event)
    requires HasEffects(m, es, m')
    ensures HasEffects(m, es + [e], ApplyEvent(m', e).model)
  {
    var all := es + [e];
    var m'' := ApplyEvent(m', e).model;
    assert all[..|all| - 1] == es && all[|all| - 1] == e;
    forall id ensures GetPod(m'', id) == Affect(GetPod(m, id), PodEffectOf(all, id)) {
      PodStep(m', e, id, GetPod(m, id), PodEffectOf(es, id));
    }
    forall id | id in m.workloads ensures m''.workloads[id] == Amend(m.workloads[id], WorkloadEffectOf(all, id)) {
      WorkloadStep(m', e, id, m.workloads[id], WorkloadEffectOf(es, id));
    }
  }

  lemma PodStep(m: Model, e: Event, id: string, p: Option<Pod>, f: PodEffect)
    requires GetPod(m, id) == Affect(p, f)
    ensures GetPod(ApplyEvent(m, e).model, id) == Affect(p, NotePod(f, e, id))
  {
  }

  lemma WorkloadStep(m: Model, e: Event, id: string, w: Workload, f: WorkloadEffect)
    requires id in m.workloads && m.workloads[id] == Amend(w, f)
    ensures id in ApplyEvent(m, e).model.workloads
    ensures ApplyEvent(m, e).model.workloads[id] == Amend(w, NoteWorkload(f, e, id))
  {
  }

  /** Applying a sequence of events changes each entity by its own effect only. */
  lemma {:induction false} ApplyAllEffects(m: Model, es: seq<Event>)
    ensures HasEffects(m, es, ApplyAll(m, es))
  {
    if es != [] {
      var init, e := es[..|es| - 1], es[|es| - 1];
      ApplyAllEffects(m, init);
      assert es == init + [e];
      ApplyAllAppend(m, init, [e]);
      assert [e][1..] == [];
      OneMoreEvent(m, init, ApplyAll(m, init), e);
    }
  }

  lemma SameModel(a: Model, b: Model)
    requires a.id == b.id && a.state == b.state && a.services == b.services && a.workloads.Keys == b.workloads.Keys
    requires forall id :: id in a.workloads ==> a.workloads[id] == b.workloads[id]
    requires forall id :: GetPod(a, id) == GetPod(b, id)
    ensures a == b
  {
    forall id ensures (id in a.pods <==> id in b.pods) && (id in a.pods ==> a.pods[id] == b.pods[id]) {
      assert GetPod(a, id) == GetPod(b, id);
    }
  }

  // ---------------------------------------------------------------------
  // Overlapping the snapshot
  // ---------------------------------------------------------------------

  /** Replaying a stretch of events that the model already holds changes nothing. */
  lemma ReplayIsIdempotent(m: Model, es: seq<Event>)
    ensures ApplyAll(ApplyAll(m, es), es) == ApplyAll(m, es)
  {
    var once := ApplyAll(m, es);
    var twice := ApplyAll(once, es);
    ApplyAllEffects(m, es);
    ApplyAllEffects(once, es);
    forall id ensures GetPod(twice, id) == GetPod(once, id) {
      assert GetPod(once, id) == Affect(GetPod(m, id), PodEffectOf(es, id));
    }
    SameModel(twice, once);
  }

  /**
   * Subscribing before taking the snapshot is safe: a model that already holds the first `k` events and is
   * then fed the stream from an earlier point `j` ends exactly where one pass over all events would.
   */
  lemma SubscribeBeforeSnapshotIsSafe(m: Model, es: seq<Event>, j: nat, k: nat)
    requires j <= k <= |es|
    ensures ApplyAll(ApplyAll(m, es[..k]), es[j..]) == ApplyAll(m, es)
  {
    var a, b, c := es[..j], es[j..k], es[k..];
    assert es[..k] == a + b && es[j..] == b + c && es == es[..k] + c;
    ApplyAllAppend(m, a, b);
    ApplyAllAppend(ApplyAll(m, es[..k]), b, c);
    ReplayIsIdempotent(ApplyAll(m, a), b);
    ApplyAllAppend(m, es[..k], c);
  }

  // ---------------------------------------------------------------------
  // A snapshot that is not exact
  // ---------------------------------------------------------------------

  /** The workload a pod entry would name after its state is set. */
  function NameAfterSet(p: Option<Pod>, workload: string): string { if p == None then workload else p.value.workload }

  /** Field by field: what the snapshot gets wrong is overwritten by the events. */
  ghost predicate Heals(s: Model, m: Model, es: seq<Event>)
  {
    && s.id == m.id && s.state == m.state && s.services == m.services && s.workloads.Keys == m.workloads.Keys
    && (forall id :: id in m.workloads ==>
          var f, v, w := WorkloadEffectOf(es, id), s.workloads[id], m.workloads[id];
          && v.ip == w.ip && v.restarts == w.restarts
          && (f.state == None ==> v.state == w.state)
          && (f.spliced == None ==> v.spliced == w.spliced)
          && (f.demand == None ==> v.demand == w.demand))
    && (forall id :: PodHeals(GetPod(s, id), GetPod(m, id), PodEffectOf(es, id)))
  }

  predicate PodHeals(p: Option<Pod>, q: Option<Pod>, f: PodEffect)
  {
    match f
    case Keep => p == q
    case Put(_) => true
    case Remove => true
    case Set(w, _) => NameAfterSet(p, w) == NameAfterSet(q, w)
  }

  lemma PodHealsExactly(p: Option<Pod>, q: Option<Pod>, f: PodEffect)
    ensures Affect(p, f) == Affect(q, f) <==> PodHeals(p, q, f)
  {
  }

  /**
   * From a snapshot that differs from the truth, the stream leads to the true model exactly when every
   * field the snapshot has wrong is written by some event in the stream.
   */
  lemma InexactSnapshotHealsIff(s: Model, m: Model, es: seq<Event>)
    ensures ApplyAll(s, es) == ApplyAll(m, es) <==> Heals(s, m, es)
  {
    ApplyAllEffects(s, es);
    ApplyAllEffects(m, es);
    forall id ensures Affect(GetPod(s, id), PodEffectOf(es, id)) == Affect(GetPod(m, id), PodEffectOf(es, id))
                      <==> PodHeals(GetPod(s, id), GetPod(m, id), PodEffectOf(es, id)) {
      PodHealsExactly(GetPod(s, id), GetPod(m, id), PodEffectOf(es, id));
    }
    if Heals(s, m, es) {
      HealedModel(s, m, es);
    } else if ApplyAll(s, es) == ApplyAll(m, es) {
      NotHealed(s, m, es);
    }
  }

  lemma HealedModel(s: Model, m: Model, es: seq<Event>)
    requires Heals(s, m, es)
    ensures ApplyAll(s, es) == ApplyAll(m, es)
  {
    var a, b := ApplyAll(s, es), ApplyAll(m, es);
    ApplyAllEffects(s, es);
    ApplyAllEffects(m, es);
    forall id ensures GetPod(a, id) == GetPod(b, id) {
      PodHealsExactly(GetPod(s, id), GetPod(m, id), PodEffectOf(es, id));
    }
    SameModel(a, b);
  }

  lemma NotHealed(s: Model, m: Model, es: seq<Event>)
    requires ApplyAll(s, es) == ApplyAll(m, es)
    ensures Heals(s, m, es)
  {
    ApplyAllEffects(s, es);
    ApplyAllEffects(m, es);
    forall id | id in m.workloads
      ensures Amend(s.workloads[id], WorkloadEffectOf(es, id)) == Amend(m.workloads[id], WorkloadEffectOf(es, id))
    {
      assert ApplyAll(m, es).workloads[id] == Amend(m.workloads[id], WorkloadEffectOf(es, id));
    }
    forall id ensures PodHeals(GetPod(s, id), GetPod(m, id), PodEffectOf(es, id)) {
      PodHealsExactly(GetPod(s, id), GetPod(m, id), PodEffectOf(es, id));
      assert GetPod(ApplyAll(s, es), id) == GetPod(ApplyAll(m, es), id);
    }
  }

  // ---------------------------------------------------------------------
  // Bootstrapping from a status report
  // ---------------------------------------------------------------------

  datatype WorkloadReport = WorkloadReport(state: Option<WorkloadState>, spliced: bool, ip: string, restarts: nat)

  /** A missing or unrecognised value on the wire is None. */
  datatype ReportedService =
    | ReportedPending | ReportedIdle | ReportedNeedsBackend
    | ReportedActive(pod: string, worker: string, need: Option<BackendNeed>)

  datatype ServiceReport = ServiceReport(
    workload: string,
    state: Option<ReportedService>,
    activation: bool,
    spliced: bool,
    ip: string,
    mac: string)

  datatype PodPhase =
    | PhaseUnknown | PhaseLaunching | PhaseRunning | PhaseSuspending | PhaseSuspended
    | PhaseResuming | PhaseFinished | PhaseFailed | PhaseDisplaced

  datatype PodReport = PodReport(workload: string, phase: PodPhase)

  datatype StatusReport = StatusReport(
    id: string,
    state: Option<NamespaceState>,
    workloads: map<string, WorkloadReport>,
    services: map<string, ServiceReport>,
    pods: map<string, PodReport>)

  function NonEmpty(s: string): Option<string> { if s == "" then None else Some(s) }

  /** The report has no worker, snapshot, exit code or reason; the model fills in blanks. */
  function FromPhase(p: PodPhase): PodState
  {
    match p
    case PhaseRunning => PodRunning("")
    case PhaseSuspending => PodSuspending("")
    case PhaseSuspended => PodSuspended("", "")
    case PhaseResuming => PodRunning("")
    case PhaseFinished => PodStopped(0)
    case PhaseFailed => PodFailed("")
    case PhaseDisplaced => PodDisplaced
    case _ => PodCreated
  }

  function WorkloadOf(w: WorkloadReport): Workload
  {
    Workload(Known(w.state), w.spliced, NonEmpty(w.ip), w.restarts, 0)
  }

  function ServiceOf(s: ServiceReport): Service
  {
    Service(s.workload, ServiceStateOf(s.state), s.activation, s.spliced, NonEmpty(s.ip), NonEmpty(s.mac))
  }

  function ServiceStateOf(s: Option<ReportedService>): ServiceState
  {
    match s
    case Some(ReportedIdle) => ServiceIdle
    case Some(ReportedNeedsBackend) => ServiceNeedsBackend
    case Some(ReportedActive(pod, worker, need)) =>
      ServiceActive(pod, worker, if need == None then NoNeed else need.value)
    case _ => ServicePending
  }

  function PodOf(p: PodReport): Pod { Pod(p.workload, FromPhase(p.phase)) }

  function FromStatus(r: StatusReport): Model
  {
    Model(r.id,
          if r.state == None then Active else r.state.value,
          map id | id in r.workloads :: WorkloadOf(r.workloads[id]),
          map id | id in r.services :: ServiceOf(r.services[id]),
          map id | id in r.pods :: PodOf(r.pods[id]))
  }

  /**
   * A report carries no demand, so a bootstrapped model starts every workload at zero: after the stream
   * its demand is the true one exactly when the stream reported it or it was zero to begin with.
   */
  lemma BootstrappedDemand(r: StatusReport, m: Model, es: seq<Event>, id: string)
    requires id in r.workloads && id in m.workloads
    ensures id in ApplyAll(FromStatus(r), es).workloads && id in ApplyAll(m, es).workloads
    ensures ApplyAll(FromStatus(r), es).workloads[id].demand == ApplyAll(m, es).workloads[id].demand
            <==> WorkloadEffectOf(es, id).demand.Some? || m.workloads[id].demand == 0
  {
    ApplyAllEffects(FromStatus(r), es);
    ApplyAllEffects(m, es);
  }

  /** A pod's reported phase gives back its exact state only for the states that carry no detail. */
  lemma BootstrappedPodState(r: StatusReport, m: Model, es: seq<Event>, id: string)
    requires id in r.pods && id in m.pods && r.pods[id].workload == m.pods[id].workload
    ensures GetPod(ApplyAll(FromStatus(r), es), id) == GetPod(ApplyAll(m, es), id)
            <==> PodEffectOf(es, id) != Keep || FromPhase(r.pods[id].phase) == m.pods[id].state
  {
    var s := FromStatus(r);
    ApplyAllEffects(s, es);
    ApplyAllEffects(m, es);
    assert GetPod(s, id) == Some(Pod(r.pods[id].workload, FromPhase(r.pods[id].phase)));
    assert GetPod(ApplyAll(s, es), id) == Affect(GetPod(s, id), PodEffectOf(es, id));
    assert GetPod(ApplyAll(m, es), id) == Affect(GetPod(m, id), PodEffectOf(es, id));
  }
}
