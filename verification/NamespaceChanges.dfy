/** The changes that the client's model reports: they tell all that happened to it. */
module NamespaceChanges {
  import opened Common
  import opened NamespaceModel

  // ---------------------------------------------------------------------
  // Replaying reported changes
  // ---------------------------------------------------------------------

  /** The changes reported while events are applied, in order. */
  function Changes(m: Model, es: seq<Event>): seq<StateChange>
    decreases |es|
  {
    if es == [] then []
    else
      var first := ApplyEvent(m, es[0]);
      (if first.change == None then [] else [first.change.value]) + Changes(first.model, es[1..])
  }

  /** What a listener that keeps a model of its own does with a reported change. */
  function Replay(m: Model, c: StateChange): Model
  {
    match c
    case WorkloadStateChanged(id, _, after) => ReplayWorkload(m, id, (w: Workload) => w.(state := after))
    case WorkloadSpliced(id, _) => ReplayWorkload(m, id, (w: Workload) => w.(spliced := true))
    case WorkloadUnspliced(id) => ReplayWorkload(m, id, (w: Workload) => w.(spliced := false))
    case WorkloadDemandChanged(id, n) => ReplayWorkload(m, id, (w: Workload) => w.(demand := n))
    case PodWasCreated(pod, workload) => m.(pods := m.pods[pod := Pod(workload, PodCreated)])
    case PodStateChanged(pod, workload, s) =>
      m.(pods := m.pods[pod := Pod(if pod in m.pods then m.pods[pod].workload else workload, s)])
    case PodWasReaped(pod, _) => m.(pods := m.pods - {pod})
    case _ => m
  }

  function ReplayWorkload(m: Model, id: string, f: Workload -> Workload): Model
  {
    if id in m.workloads then m.(workloads := m.workloads[id := f(m.workloads[id])]) else m
  }

  function ReplayAll(m: Model, cs: seq<StateChange>): Model
    decreases |cs|
  {
    if cs == [] then m else ReplayAll(Replay(m, cs[0]), cs[1..])
  }

  lemma ReportedChangeReplays(m: Model, e: Event)
    ensures var applied := ApplyEvent(m, e);
            applied.model == if applied.change == None then m else Replay(m, applied.change.value)
  {
  }

  /**
   * For every model and every stream of events: replaying the reported changes on the model as it was gives the model
   * as it is. So nothing happens to it that is not reported, and nothing is reported that did not happen.
   */
  lemma {:induction false} ReportedChangesRebuildTheModel(m: Model, es: seq<Event>)
    ensures ReplayAll(m, Changes(m, es)) == ApplyAll(m, es)
    decreases |es|
  {
    if es != [] {
      var first := ApplyEvent(m, es[0]);
      var rest := Changes(first.model, es[1..]);
      ReportedChangeReplays(m, es[0]);
      ReportedChangesRebuildTheModel(first.model, es[1..]);
      if first.change == None {
        assert [] + rest == rest;
      } else {
        assert ([first.change.value] + rest)[1..] == rest;
      }
    }
  }

  /** A reported change of a known workload's state names the state it had and the state it has. */
  lemma StateChangesLink(m: Model, e: Event)
    requires var c := ApplyEvent(m, e).change;
             c.Some? && c.value.WorkloadStateChanged? && c.value.id in m.workloads
    ensures var c, after := ApplyEvent(m, e).change.value, ApplyEvent(m, e).model;
            && c.before == m.workloads[c.id].state
            && c.id in after.workloads && c.after == after.workloads[c.id].state
  {
  }

  // ---------------------------------------------------------------------
  // Pods
  // ---------------------------------------------------------------------

  /** What each event leaves of its pod; a pod that is known keeps the workload it was first seen with. */
  lemma PodAfterEvent(m: Model, pod: string, workload: string, e: PodEvent)
    ensures var before, after := GetPod(m, pod), GetPod(ApplyEvent(m, OfPod(pod, workload, Some(e))).model, pod);
            var owner := if before == None then workload else before.value.workload;
            && (e.Created? ==> after == Some(Pod(workload, PodCreated)))
            && (e.Scheduled? ==> after == Some(Pod(owner, PodScheduled(e.worker))))
            && (e.RunningOn? || e.Resuming? ==> after == Some(Pod(owner, PodRunning(e.worker))))
            && (e.SuspendingOn? ==> after == Some(Pod(owner, PodSuspending(e.worker))))
            && (e.SuspendedOn? ==> after == Some(Pod(owner, PodSuspended(e.worker, e.snapshot))))
            && (e.Stopped? ==> after == Some(Pod(owner, PodStopped(e.code))))
            && (e.FailedWith? ==> after == Some(Pod(owner, PodFailed(e.reason))))
            && (e.Displaced? ==> after == Some(Pod(owner, PodDisplaced)))
            && (e.Reaped? ==> after == None)
            && (e.SuspendFailed? || e.MemoryConstrained? || e.MemoryConstraintCleared? || e.OomKill? ==>
                  after == before)
  {
  }

  // ---------------------------------------------------------------------
  // Reports
  // ---------------------------------------------------------------------

  /** What is missing or unrecognised on the wire reads as the harmless choice. */
  lemma MissingFieldsReadAs(r: StatusReport, m: Model, id: string, before: Option<WorkloadState>, pod: string,
                            worker: string)
    requires r.state == None && id in m.workloads
    ensures FromStatus(r).state == Active
    ensures WorkloadOf(WorkloadReport(None, false, "", 0)) == Workload(Dormant, false, None, 0, 0)
    ensures ApplyEvent(m, OfWorkload(id, Some(StateChanged(before, None)))).model
            == m.(workloads := m.workloads[id := m.workloads[id].(state := Dormant)])
    ensures ServiceStateOf(None) == ServicePending
    ensures ServiceStateOf(Some(ReportedActive(pod, worker, None))) == ServiceActive(pod, worker, NoNeed)
    ensures FromPhase(PhaseUnknown) == PodCreated && FromPhase(PhaseResuming) == PodRunning("")
  {
  }

  function Text(s: Option<string>): string { if s == None then "" else s.value }

  /** The phase that a report gives for a pod state. */
  function PhaseOf(s: PodState): PodPhase
  {
    match s
    case PodCreated => PhaseLaunching
    case PodScheduled(_) => PhaseLaunching
    case PodRunning(_) => PhaseRunning
    case PodSuspending(_) => PhaseSuspending
    case PodSuspended(_, _) => PhaseSuspended
    case PodStopped(_) => PhaseFinished
    case PodFailed(_) => PhaseFailed
    case PodDisplaced => PhaseDisplaced
    case PodReaped => PhaseUnknown
  }

  function ReportedServiceOf(s: ServiceState): ReportedService
  {
    match s
    case ServicePending => ReportedPending
    case ServiceIdle => ReportedIdle
    case ServiceNeedsBackend => ReportedNeedsBackend
    case ServiceActive(pod, worker, need) => ReportedActive(pod, worker, Some(need))
  }

  /** The state says no more than its phase. */
  predicate CarriesNoDetail(s: PodState)
  {
    match s
    case PodCreated => true
    case PodScheduled(_) => false
    case PodRunning(w) => w == ""
    case PodSuspending(w) => w == ""
    case PodSuspended(w, snapshot) => w == "" && snapshot == ""
    case PodStopped(code) => code == 0
    case PodFailed(reason) => reason == ""
    case PodDisplaced => true
    case PodReaped => false
  }

  ghost predicate WorkloadsReportable(ws: map<string, Workload>)
  {
    forall id :: id in ws ==> ws[id].demand == 0 && ws[id].ip != Some("")
  }

  ghost predicate ServicesReportable(ss: map<string, Service>)
  {
    forall id :: id in ss ==> ss[id].ip != Some("") && ss[id].mac != Some("")
  }

  ghost predicate PodsReportable(ps: map<string, Pod>) { forall id :: id in ps ==> CarriesNoDetail(ps[id].state) }

  lemma WorkloadComesBackIff(w: Workload)
    ensures WorkloadOf(WorkloadReportOf(w)) == w <==> w.demand == 0 && w.ip != Some("")
  {
  }

  lemma ServiceComesBackIff(s: Service)
    ensures ServiceOf(ServiceReportOf(s)) == s <==> s.ip != Some("") && s.mac != Some("")
  {
    assert ServiceStateOf(Some(ReportedServiceOf(s.state))) == s.state;
  }

  lemma PhaseComesBackIff(s: PodState)
    ensures FromPhase(PhaseOf(s)) == s <==> CarriesNoDetail(s)
  {
  }

  function WorkloadReportOf(w: Workload): WorkloadReport
  {
    WorkloadReport(Some(w.state), w.spliced, Text(w.ip), w.restarts)
  }

  function ServiceReportOf(s: Service): ServiceReport
  {
    ServiceReport(s.workload, Some(ReportedServiceOf(s.state)), s.activation, s.spliced, Text(s.ip), Text(s.mac))
  }

  function PodReportOf(p: Pod): PodReport { PodReport(p.workload, PhaseOf(p.state)) }

  /** A report with every field filled in from a model. */
  function ReportOf(m: Model): StatusReport
  {
    StatusReport(m.id, Some(m.state),
                 map id | id in m.workloads :: WorkloadReportOf(m.workloads[id]),
                 map id | id in m.services :: ServiceReportOf(m.services[id]),
                 map id | id in m.pods :: PodReportOf(m.pods[id]))
  }

  lemma WorkloadsComeBackIff(ws: map<string, Workload>)
    ensures (map id | id in ws :: WorkloadOf(WorkloadReportOf(ws[id]))) == ws
            <==> WorkloadsReportable(ws)
  {
    var back := map id | id in ws :: WorkloadOf(WorkloadReportOf(ws[id]));
    forall id | id in ws ensures back[id] == ws[id] <==> ws[id].demand == 0 && ws[id].ip != Some("") {
      WorkloadComesBackIff(ws[id]);
    }
  }

  lemma ServicesComeBackIff(ss: map<string, Service>)
    ensures (map id | id in ss :: ServiceOf(ServiceReportOf(ss[id]))) == ss
            <==> ServicesReportable(ss)
  {
    var back := map id | id in ss :: ServiceOf(ServiceReportOf(ss[id]));
    forall id | id in ss ensures back[id] == ss[id] <==> ss[id].ip != Some("") && ss[id].mac != Some("") {
      ServiceComesBackIff(ss[id]);
    }
  }

  lemma PodsComeBackIff(ps: map<string, Pod>)
    ensures (map id | id in ps :: PodOf(PodReportOf(ps[id]))) == ps
            <==> PodsReportable(ps)
  {
    var back := map id | id in ps :: PodOf(PodReportOf(ps[id]));
    forall id | id in ps ensures back[id] == ps[id] <==> CarriesNoDetail(ps[id].state) {
      PhaseComesBackIff(ps[id].state);
    }
  }

  /**
   * Bootstrapping from a report with every field filled in gives the model back exactly when it has no demand, no empty
   * addresses, and no pod whose state says more than its phase.
   */
  lemma BootstrapInvertsReportIff(m: Model)
    ensures FromStatus(ReportOf(m)) == m
            <==> WorkloadsReportable(m.workloads) && ServicesReportable(m.services) && PodsReportable(m.pods)
  {
    ReportReadBack(m);
    WorkloadsComeBackIff(m.workloads);
    ServicesComeBackIff(m.services);
    PodsComeBackIff(m.pods);
  }

  lemma ReportReadBack(m: Model)
    ensures var b := FromStatus(ReportOf(m));
            && b.id == m.id && b.state == m.state
            && b.workloads == (map id | id in m.workloads :: WorkloadOf(WorkloadReportOf(m.workloads[id])))
            && b.services == (map id | id in m.services :: ServiceOf(ServiceReportOf(m.services[id])))
            && b.pods == (map id | id in m.pods :: PodOf(PodReportOf(m.pods[id])))
  {
  }
}
