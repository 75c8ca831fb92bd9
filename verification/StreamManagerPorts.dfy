/** Ephemeral ports: the search finds a free one whenever there is one, and live upstreams never share. */
module StreamManagerPorts {
  import opened Common
  import opened StreamManager
  import opened StreamManagerLaws

  // ---------------------------------------------------------------------
  // The search
  // ---------------------------------------------------------------------

  /** The port tried after `k` steps from `next`. */
  function PortAt(next: Port, k: nat): Port
  {
    (49152 + ((next as int - 49152) + k) % 16384) as U16
  }

  lemma PortAtStep(next: Port, k: nat)
    ensures PortAt(NextPort(next), k) == PortAt(next, k + 1)
    ensures PortAt(next, 0) == next
  {
    var a := next as int - 49152;
    assert NextPort(next) as int == 49152 + (a + 1) % 16384;
    assert ((a + 1) % 16384 + k) % 16384 == (a + 1 + k) % 16384;
  }

  lemma {:induction false} ChoosePortSpec(ports: set<Port>, next: Port, n: nat)
    ensures var c := ChoosePort(ports, next, n);
            && (c.taken <==> exists k :: 0 <= k < n && PortAt(next, k) !in ports)
            && (c.taken ==> c.port !in ports && c.next == NextPort(c.port))
            && (!c.taken ==> c.port == c.next == PortAt(next, n))
    decreases n
  {
    PortAtStep(next, 0);
    if n > 0 && next in ports {
      ChoosePortSpec(ports, NextPort(next), n - 1);
      PortAtStep(next, n - 1);
      if k :| 0 <= k < n && PortAt(next, k) !in ports {
        PortAtStep(next, k - 1);
        assert PortAt(NextPort(next), k - 1) !in ports;
      }
      if k :| 0 <= k < n - 1 && PortAt(NextPort(next), k) !in ports {
        PortAtStep(next, k);
        assert PortAt(next, k + 1) !in ports;
      }
    } else if n > 0 {
      assert PortAt(next, 0) !in ports;
    }
  }

  /** One pass visits every port of the range, once. */
  lemma EveryPortVisited(next: Port, p: Port) returns (k: nat)
    ensures k < 16384 && PortAt(next, k) == p
    ensures forall j: nat :: j < 16384 && PortAt(next, j) == p ==> j == k
  {
    k := (p as int - next as int + 16384) % 16384;
    assert ((next as int - 49152) + k) % 16384 == p as int - 49152;
    forall j: nat | j < 16384 && PortAt(next, j) == p ensures j == k {
      VisitedOnce(next as int - 49152, j, k);
    }
  }

  lemma VisitedOnce(a: nat, j: nat, k: nat)
    requires j < 16384 && k < 16384 && (a + j) % 16384 == (a + k) % 16384
    ensures j == k
  {
  }

  /** A full pass fails exactly when every port of the range is in use. */
  lemma FullPass(ports: set<Port>, next: Port)
    ensures var c := ChoosePort(ports, next, 16384);
            && (c.taken <==> exists p: Port :: p !in ports)
            && (c.taken ==> c.port !in ports)
  {
    ChoosePortSpec(ports, next, 16384);
    if p: Port :| p !in ports {
      var k := EveryPortVisited(next, p);
    }
  }

  lemma AllPorts() returns (all: set<Port>)
    ensures |all| == 16384 && forall p: Port :: p in all
  {
    all := {};
    for n := 0 to 16384
      invariant |all| == n
      invariant forall p: Port :: p in all <==> p as int < 49152 + n
    {
      all := all + {(49152 + n) as U16};
    }
  }

  lemma SmallerSubset(a: set<Port>, b: set<Port>)
    requires a <= b
    ensures |a| <= |b|
    ensures |a| < |b| <==> exists p :: p in b && p !in a
  {
    assert b == a + (b - a);
    if |a| < |b| {
      assert b - a != {};
      var p :| p in b - a;
    }
  }

  /** There are 16384 ports, so a smaller set leaves one free. */
  lemma FreePortExists(ports: set<Port>)
    ensures |ports| <= 16384
    ensures |ports| < 16384 <==> exists p: Port :: p !in ports
  {
    var all := AllPorts();
    SmallerSubset(ports, all);
  }

  // ---------------------------------------------------------------------
  // Ports of live upstreams
  // ---------------------------------------------------------------------

  ghost predicate Uses(streams: map<nat, Stream>, p: Port)
  {
    exists id :: id in streams && streams[id].localPort == Some(p)
  }

  /** The set is exactly the ports of live upstreams, and no two of them share one. */
  ghost predicate PortsExact(streams: map<nat, Stream>, ports: set<Port>)
  {
    && (forall p: Port :: p in ports <==> Uses(streams, p))
    && (forall a, b :: a in streams && b in streams && streams[a].localPort.Some? && a != b ==>
          streams[a].localPort != streams[b].localPort)
  }

  ghost function LiveUpstreams(streams: map<nat, Stream>): set<nat>
  {
    set id | id in streams && streams[id].localPort.Some?
  }

  lemma {:induction false} PortsCount(streams: map<nat, Stream>, ports: set<Port>)
    requires PortsExact(streams, ports)
    ensures |ports| == |LiveUpstreams(streams)|
    decreases |streams|
  {
    if p :| p in ports {
      var id :| id in streams && streams[id].localPort == Some(p);
      DropPort(streams, ports, id);
      PortsCount(streams - {id}, ports - {p});
      assert LiveUpstreams(streams - {id}) == LiveUpstreams(streams) - {id};
    } else {
      forall id | id in streams ensures streams[id].localPort == None {
        if streams[id].localPort.Some? {
          assert Uses(streams, streams[id].localPort.value);
        }
      }
      assert LiveUpstreams(streams) == {};
    }
  }

  lemma DropPort(streams: map<nat, Stream>, ports: set<Port>, id: nat)
    requires PortsExact(streams, ports) && id in streams
    ensures var port := streams[id].localPort;
            PortsExact(streams - {id}, if port == None then ports else ports - {port.value})
  {
    var port := streams[id].localPort;
    var ports' := if port == None then ports else ports - {port.value};
    forall p: Port ensures p in ports' <==> Uses(streams - {id}, p) {
      if p in ports' {
        var g :| g in streams && streams[g].localPort == Some(p);
        assert g in streams - {id};
      }
      if Uses(streams - {id}, p) {
        var g :| g in streams - {id} && (streams - {id})[g].localPort == Some(p);
        assert g in streams && streams[g].localPort == Some(p);
      }
    }
  }

  /** Opening an upstream keeps the bookkeeping exact exactly while fewer than 16384 upstreams are live. */
  lemma OpenUpstreamPorts(m: Manager, handle: nat)
    requires PortsExact(m.streams, m.ports) && IdsBelow(m)
    ensures var m' := OpenUpstream(m, handle);
            PortsExact(m'.streams, m'.ports) <==> |LiveUpstreams(m.streams)| < 16384
  {
    var c := ChoosePort(m.ports, m.nextPort, 16384);
    var m' := OpenUpstream(m, handle);
    FullPass(m.ports, m.nextPort);
    FreePortExists(m.ports);
    PortsCount(m.streams, m.ports);
    var id := m.nextStreamId;
    if c.taken {
      AddPort(m.streams, m.ports, id, m'.streams[id]);
    } else {
      assert c.port in m.ports;
      assert Uses(m.streams, c.port);
      var other :| other in m.streams && m.streams[other].localPort == Some(c.port);
      assert other in m'.streams && m'.streams[other].localPort == m'.streams[id].localPort;
    }
  }

  lemma AddPort(streams: map<nat, Stream>, ports: set<Port>, id: nat, st: Stream)
    requires PortsExact(streams, ports) && id !in streams && st.localPort.Some? && st.localPort.value !in ports
    ensures PortsExact(streams[id := st], ports + {st.localPort.value})
  {
    var streams' := streams[id := st];
    forall p: Port ensures p in ports + {st.localPort.value} <==> Uses(streams', p) {
      if p in ports {
        var g :| g in streams && streams[g].localPort == Some(p);
        assert g in streams' && streams'[g].localPort == Some(p);
      }
      if p == st.localPort.value {
        assert id in streams' && streams'[id].localPort == Some(p);
      }
      if Uses(streams', p) {
        var g :| g in streams' && streams'[g].localPort == Some(p);
        assert g != id ==> g in streams && streams[g].localPort == Some(p);
      }
    }
    forall a | a in streams ensures streams[a].localPort != st.localPort {
      if streams[a].localPort.Some? {
        assert Uses(streams, streams[a].localPort.value);
      }
    }
  }

  /** Only the ports of the streams matter. */
  lemma SamePorts(a: map<nat, Stream>, b: map<nat, Stream>, ports: set<Port>)
    requires PortsExact(a, ports) && a.Keys <= b.Keys
    requires forall id :: id in b ==> b[id].localPort == if id in a then a[id].localPort else None
    ensures PortsExact(b, ports)
  {
    forall p: Port ensures Uses(a, p) <==> Uses(b, p) {
      if Uses(a, p) {
        var g :| g in a && a[g].localPort == Some(p);
        assert g in b && b[g].localPort == Some(p);
      }
      if Uses(b, p) {
        var g :| g in b && b[g].localPort == Some(p);
        assert g in a && a[g].localPort == Some(p);
      }
    }
  }

  lemma {:induction false} AcceptAllPorts(m: Manager, handles: seq<nat>, o: Oracle)
    requires PortsExact(m.streams, m.ports) && IdsBelow(m)
    ensures var m' := AcceptAll(m, handles, o).manager; PortsExact(m'.streams, m'.ports)
    decreases |handles|
  {
    if handles != [] {
      var m1 := Accept(m, handles[0], o).manager;
      SamePorts(m.streams, m1.streams, m.ports);
      AcceptAllPorts(m1, handles[1..], o);
    }
  }

  lemma {:induction false} DropAllPorts(m: Manager, ids: seq<nat>)
    requires PortsExact(m.streams, m.ports)
    ensures var m' := DropAll(m, ids); PortsExact(m'.streams, m'.ports)
    decreases |ids|
  {
    if ids != [] {
      if ids[0] in m.streams {
        DropPort(m.streams, m.ports, ids[0]);
      }
      DropAllPorts(Drop(m, ids[0]), ids[1..]);
    }
  }

  lemma ScanPorts(m: Manager, o: Oracle)
    requires PortsExact(m.streams, m.ports) && Tables(m) && AllOpen(m.streams) && FreshHandles(m, o)
    requires Enumerates(o.order, AcceptPhase(m, o).manager.streams.Keys)
    ensures PortsExact(Scan(m, o).manager.streams, Scan(m, o).manager.ports)
  {
    var m1 := AcceptPhase(m, o).manager;
    var w := Walk(m1.streams, o, o.order);
    AcceptAllPorts(m.(listeners := EstablishedIn(m.listeners, o.socket, false)),
                   EstablishedIn(m.listeners, o.socket, true), o);
    AcceptPhaseTables(m, o);
    WalkSpec(m1.streams, o, o.order);
    forall id | id in w.streams ensures w.streams[id].localPort == m1.streams[id].localPort {
      ObserveStream(id, m1.streams[id], o.socket(m1.streams[id].handle));
    }
    SamePorts(m1.streams, w.streams, m1.ports);
    DropAllPorts(m1.(streams := w.streams), w.closed);
  }

  /** No upstream is opened while 16384 are live. */
  ghost predicate RoomyRun(m: Manager, inputs: seq<Input>)
  {
    inputs != [] ==>
      && RoomyRun(m, inputs[..|inputs| - 1])
      && (inputs[|inputs| - 1].action.Connect? && Run(m, inputs[..|inputs| - 1]).manager.backend ==>
            |LiveUpstreams(Run(m, inputs[..|inputs| - 1]).manager.streams)| < 16384)
  }

  /** On every such run the port set is exactly the ports of the live upstreams, all different. */
  lemma {:induction false} PortsExactOnEveryRun(m: Manager, inputs: seq<Input>)
    requires Initial(m) && PlausibleRun(m, inputs) && RoomyRun(m, inputs)
    ensures PortsExact(Run(m, inputs).manager.streams, Run(m, inputs).manager.ports)
  {
    if inputs != [] {
      var init, i := inputs[..|inputs| - 1], inputs[|inputs| - 1];
      var before := Run(m, init).manager;
      PortsExactOnEveryRun(m, init);
      TablesOnEveryRun(m, init);
      ExecuteTables(before, i.action);
      ExecutePorts(before, i.action);
      ScanPorts(Execute(before, i.action), i.oracle);
    }
  }

  lemma ExecutePorts(m: Manager, a: ManagerAction)
    requires PortsExact(m.streams, m.ports) && Tables(m)
    requires a.Connect? && m.backend ==> |LiveUpstreams(m.streams)| < 16384
    ensures PortsExact(Execute(m, a).streams, Execute(m, a).ports)
  {
    if a.Connect? && m.backend {
      OpenUpstreamPorts(m, a.handle);
    } else {
      ExecuteKeepsPorts(m, a);
      SamePorts(m.streams, Execute(m, a).streams, m.ports);
    }
  }

  lemma ExecuteKeepsPorts(m: Manager, a: ManagerAction)
    requires !(a.Connect? && m.backend)
    ensures Execute(m, a).ports == m.ports && Execute(m, a).streams.Keys == m.streams.Keys
    ensures forall id :: id in m.streams ==> Execute(m, a).streams[id].localPort == m.streams[id].localPort
  {
  }
}
