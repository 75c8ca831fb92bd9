/** The namespace model object, proved to compute the functions of NamespaceModel. */
module NamespaceModelImpl {
  import opened Common
  import opened Spec = NamespaceModel

  /** Inserts the converted entries of a report's table one by one. */
  method Converted<A, B>(report: map<string, A>, convert: A -> B, order: seq<string>) returns (table: map<string, B>)
    requires Enumerates(order, report.Keys)
    ensures table == map id | id in report :: convert(report[id])
  {
    table := map[];
    for i := 0 to |order|
      invariant forall id :: id in table <==> id in order[..i]
      invariant forall id :: id in table ==> table[id] == convert(report[id])
    {
      assert order[..i + 1] == order[..i] + [order[i]];
      assert order[i] in report.Keys;
      table := table[order[i] := convert(report[order[i]])];
    }
    assert order[..|order|] == order;
  }

  class NamespaceModel {
    const id: string
    const state: NamespaceState
    var workloads: map<string, Workload>
    const services: map<string, Service>
    var pods: map<string, Pod>

    function View(): Model
      reads this
    {
      Model(id, state, workloads, services, pods)
    }

    /** The orders are the iteration orders of the report's three tables. */
    constructor FromStatus(r: StatusReport, workloadOrder: seq<string>,
                           serviceOrder: seq<string>, podOrder: seq<string>)
      requires Enumerates(workloadOrder, r.workloads.Keys)
      requires Enumerates(serviceOrder, r.services.Keys)
      requires Enumerates(podOrder, r.pods.Keys)
      ensures View() == Spec.FromStatus(r)
    {
      var ws := Converted(r.workloads, WorkloadOf, workloadOrder);
      var ss := Converted(r.services, ServiceOf, serviceOrder);
      var ps := Converted(r.pods, PodOf, podOrder);
      id, state := r.id, if r.state == None then Active else r.state.value;
      workloads, services, pods := ws, ss, ps;
    }

    method ApplyEvent(e: Event) returns (change: Option<StateChange>)
      modifies this
      ensures Applied(View(), change) == Spec.ApplyEvent(old(View()), e)
    {
      match e {
        case NoEvent => change := None;
        case OfWorkload(w, we) =>
          if we == None {
            change := None;
          } else {
            change := ApplyWorkloadEvent(w, we.value);
          }
        case OfPod(p, w, pe) =>
          if pe == None {
            change := None;
          } else {
            change := ApplyPodEvent(p, w, pe.value);
          }
        case OfEndpoint(ep, svc, wl) => change := Some(EndpointSeen(ep, svc, wl));
      }
    }

    /** Workload events change workloads only. */
    method ApplyWorkloadEvent(w: string, e: WorkloadEvent) returns (change: Option<StateChange>)
      modifies this`workloads
      ensures Applied(View(), change) == Spec.ApplyEvent(old(View()), OfWorkload(w, Some(e)))
    {
      match e {
        case Spliced(worker) =>
          if w in workloads {
            workloads := workloads[w := workloads[w].(spliced := true)];
          }
          change := Some(WorkloadSpliced(w, worker));
        case Unspliced =>
          if w in workloads {
            workloads := workloads[w := workloads[w].(spliced := false)];
          }
          change := Some(WorkloadUnspliced(w));
        case DemandChanged(n) =>
          if w in workloads {
            workloads := workloads[w := workloads[w].(demand := n)];
          }
          change := Some(WorkloadDemandChanged(w, n));
        case StateChanged(before, after) =>
          var oldState := Known(before);
          if w in workloads {
            oldState := workloads[w].state;
            workloads := workloads[w := workloads[w].(state := Known(after))];
          }
          change := Some(WorkloadStateChanged(w, oldState, Known(after)));
      }
    }

    /** Pod events change pods only: workload state is tracked independently. */
    method ApplyPodEvent(p: string, w: string, e: PodEvent) returns (change: Option<StateChange>)
      modifies this`pods
      ensures Applied(View(), change) == Spec.ApplyPodEvent(old(View()), p, w, e)
    {
      match e {
        case Created =>
          pods := pods[p := Pod(w, PodCreated)];
          change := Some(PodWasCreated(p, w));
        case Reaped =>
          pods := pods - {p};
          change := Some(PodWasReaped(p, w));
        case SuspendFailed => change := None;
        case MemoryConstrained => change := Some(PodMemoryConstrained(p, w));
        case MemoryConstraintCleared => change := Some(PodMemoryConstraintCleared(p, w));
        case OomKill(n) => change := Some(PodOomKill(p, w, n));
        case _ =>
          var newState := ReportedState(e).value;
          if p in pods {
            pods := pods[p := pods[p].(state := newState)];
          } else {
            pods := pods[p := Pod(w, newState)];
          }
          change := Some(PodStateChanged(p, w, newState));
      }
    }

    /** Drives the model from a stretch of the event stream. */
    method ApplyStream(es: seq<Event>)
      modifies this
      ensures View() == ApplyAll(old(View()), es)
    {
      for i := 0 to |es|
        invariant ApplyAll(View(), es[i..]) == ApplyAll(old(View()), es)
      {
        assert es[i..][1..] == es[i + 1..];
        var change := ApplyEvent(es[i]);
      }
    }
  }
}
