/**
 * The swap script end to end. The remote AXL service is an input: each operation's
 * answer is a function of its argument (endpoint creation may also depend on the
 * endpoints already created), so a run is determined by the entered name and the
 * service. A run records the calls made in order and how the script ended.
 */
module Migration {
  import opened Wrappers
  import opened Axl
  import opened GatewayMap
  import opened PortQuery
  import opened Endpoints

  /** How the AXL service answers each operation; a failure carries the fault text. */
  datatype Service = Service(
    getGateway: string -> Result<FetchedGateway, string>,
    executeSqlQuery: string -> Result<seq<Row>, string>,
    addGateway: Submission -> Option<string>,
    getGatewayEndpointAnalogAccess: Option<string> -> Result<AnalogAccess, string>,
    addGatewayEndpointAnalogAccess: (seq<EndpointRequest>, EndpointRequest) -> Option<string>)

  datatype Operation =
    | GetGateway
    | ExecuteSqlQuery
    | AddGateway
    | GetGatewayEndpointAnalogAccess
    | AddGatewayEndpointAnalogAccess

  /** A request the script sends, with its argument. */
  datatype Call =
    | GetGatewayCall(domainName: string)
    | ExecuteSqlQueryCall(sql: string)
    | AddGatewayCall(submission: Submission)
    | GetEndpointCall(uuid: Option<string>)
    | AddEndpointCall(request: EndpointRequest)

  /** Why the script stopped early: a fault it reports, or the unbound `unit` name. */
  datatype Abort = Fault(operation: Operation, message: string) | NameError(name: string)

  datatype Outcome = Completed | Aborted(reason: Abort)

  datatype Run = Run(calls: seq<Call>, outcome: Outcome)

  /** The process exit status: 0 after the last port, 1 after any fault or exception. */
  function ExitStatus(outcome: Outcome): int
  {
    if outcome.Completed? then 0 else 1
  }

  /** State of the port loop: calls made, endpoints created, and the abort if it stopped. */
  datatype LoopState = LoopState(calls: seq<Call>, created: seq<EndpointRequest>, aborted: Option<Abort>)

  function DeviceUuid(port: Row): Option<string>
  {
    GetColumn("fkdevice", port)
  }

  function Lookup(svc: Service, port: Row): Result<AnalogAccess, string>
  {
    svc.getGatewayEndpointAnalogAccess(DeviceUuid(port))
  }

  /** One iteration of the loop over ports, from a state that has not stopped. */
  function PortStep(svc: Service, at: Option<Position>, domain: string, st: LoopState, port: Row): LoopState
  {
    var calls := st.calls + [GetEndpointCall(DeviceUuid(port))];
    match Lookup(svc, port)
    case Failure(f) => LoopState(calls, st.created, Some(Fault(GetGatewayEndpointAnalogAccess, f)))
    case Success(access) =>
      match at
      case None => LoopState(calls, st.created, Some(NameError("unit")))
      case Some(position) =>
        var request := BuildEndpoint(access, PortNumber(access), position, domain);
        var calls := calls + [AddEndpointCall(request)];
        match svc.addGatewayEndpointAnalogAccess(st.created, request)
        case Some(f) => LoopState(calls, st.created, Some(Fault(AddGatewayEndpointAnalogAccess, f)))
        case None => LoopState(calls, st.created + [request], None)
  }

  /** The loop's state after its first k iterations (a stopped loop stays stopped). */
  function RunPorts(svc: Service, ports: seq<Row>, at: Option<Position>, domain: string, k: nat): LoopState
    requires k <= |ports|
  {
    if k == 0 then LoopState([], [], None)
    else
      var st := RunPorts(svc, ports, at, domain, k - 1);
      if st.aborted.Some? then st else PortStep(svc, at, domain, st, ports[k - 1])
  }

  function PortsOutcome(svc: Service, ports: seq<Row>, at: Option<Position>, domain: string): LoopState
  {
    RunPorts(svc, ports, at, domain, |ports|)
  }

  lemma {:induction false} StoppedStaysStopped(svc: Service, ports: seq<Row>, at: Option<Position>, domain: string, i: nat, n: nat)
    requires i <= n <= |ports|
    requires RunPorts(svc, ports, at, domain, i).aborted.Some?
    ensures RunPorts(svc, ports, at, domain, n) == RunPorts(svc, ports, at, domain, i)
    decreases n
  {
    if n > i {
      StoppedStaysStopped(svc, ports, at, domain, i, n - 1);
      var prev := RunPorts(svc, ports, at, domain, n - 1);
      assert prev.aborted.Some?;
    }
  }

  /** Port k was looked up, turned into `request` and created after the endpoints `before`. */
  ghost predicate CreatedFrom(svc: Service, port: Row, at: Option<Position>, domain: string,
                              before: seq<EndpointRequest>, request: EndpointRequest)
  {
    && Lookup(svc, port).Success?
    && at.Some?
    && request == BuildEndpoint(Lookup(svc, port).value, PortNumber(Lookup(svc, port).value), at.value, domain)
    && svc.addGatewayEndpointAnalogAccess(before, request).None?
  }

  /**
   * What the loop has done after k iterations: one creation per port in order, each
   * preceded by its lookup in the call log; a loop still running has handled all k
   * ports; a stopped loop stopped while handling port |created|, right after the
   * creations before it.
   */
  ghost predicate LoopShape(svc: Service, ports: seq<Row>, at: Option<Position>, domain: string, k: nat, st: LoopState)
    requires k <= |ports|
  {
    var n := |st.created|;
    && n <= k
    && 2 * n <= |st.calls|
    && (forall j | 0 <= j < n ::
          && CreatedFrom(svc, ports[j], at, domain, st.created[..j], st.created[j])
          && st.calls[2 * j] == GetEndpointCall(DeviceUuid(ports[j]))
          && st.calls[2 * j + 1] == AddEndpointCall(st.created[j]))
    && (st.aborted.None? ==> n == k && |st.calls| == 2 * k)
    && (st.aborted.Some? ==>
          n < k && st == PortStep(svc, at, domain, LoopState(st.calls[..2 * n], st.created, None), ports[n]))
  }

  /** A stopped loop keeps its shape as the iteration count grows. */
  lemma StoppedShape(svc: Service, ports: seq<Row>, at: Option<Position>, domain: string, k: nat, st: LoopState)
    requires k < |ports|
    requires st.aborted.Some? && LoopShape(svc, ports, at, domain, k, st)
    ensures LoopShape(svc, ports, at, domain, k + 1, st)
  {
  }

  /** One more iteration of a running loop keeps its shape. */
  lemma RunningShape(svc: Service, ports: seq<Row>, at: Option<Position>, domain: string, k: nat, prev: LoopState)
    requires k < |ports|
    requires prev.aborted.None? && LoopShape(svc, ports, at, domain, k, prev)
    ensures LoopShape(svc, ports, at, domain, k + 1, PortStep(svc, at, domain, prev, ports[k]))
  {
    var st := PortStep(svc, at, domain, prev, ports[k]);
    assert prev == LoopState(prev.calls, prev.created, None);
    assert st.calls[..2 * k] == prev.calls;
    if st.aborted.None? {
      var request := st.created[k];
      assert st.created == prev.created + [request];
      assert CreatedFrom(svc, ports[k], at, domain, prev.created, request);
      forall j | 0 <= j < k + 1
        ensures CreatedFrom(svc, ports[j], at, domain, st.created[..j], st.created[j])
        ensures st.calls[2 * j] == GetEndpointCall(DeviceUuid(ports[j]))
        ensures st.calls[2 * j + 1] == AddEndpointCall(st.created[j])
      {
        if j < k {
          assert st.created[..j] == prev.created[..j];
        } else {
          assert st.created[..j] == prev.created;
        }
      }
    }
  }

  lemma StepShape(svc: Service, ports: seq<Row>, at: Option<Position>, domain: string, k: nat)
    requires 0 < k <= |ports|
    requires LoopShape(svc, ports, at, domain, k - 1, RunPorts(svc, ports, at, domain, k - 1))
    ensures LoopShape(svc, ports, at, domain, k, RunPorts(svc, ports, at, domain, k))
  {
    var prev := RunPorts(svc, ports, at, domain, k - 1);
    if prev.aborted.None? {
      RunningShape(svc, ports, at, domain, k - 1, prev);
      assert RunPorts(svc, ports, at, domain, k) == PortStep(svc, at, domain, prev, ports[k - 1]);
    } else {
      StoppedShape(svc, ports, at, domain, k - 1, prev);
      assert RunPorts(svc, ports, at, domain, k) == prev;
    }
  }

  lemma {:induction false} RunPortsShape(svc: Service, ports: seq<Row>, at: Option<Position>, domain: string, k: nat)
    requires k <= |ports|
    ensures LoopShape(svc, ports, at, domain, k, RunPorts(svc, ports, at, domain, k))
    decreases k
  {
    if k > 0 {
      RunPortsShape(svc, ports, at, domain, k - 1);
      StepShape(svc, ports, at, domain, k);
    }
  }

  /**
   * The whole loop: it stops early exactly when fewer endpoints were created than
   * ports were listed; each created endpoint comes from its port, in order; and a
   * fault at port k leaves exactly the k endpoints before it created.
   */
  lemma PortsOutcomeShape(svc: Service, ports: seq<Row>, at: Option<Position>, domain: string)
    ensures var st := PortsOutcome(svc, ports, at, domain);
      && |st.created| <= |ports|
      && 2 * |st.created| <= |st.calls|
      && (st.aborted.None? <==> |st.created| == |ports|)
      && (forall j | 0 <= j < |st.created| ::
            CreatedFrom(svc, ports[j], at, domain, st.created[..j], st.created[j])
            && st.calls[2 * j] == GetEndpointCall(DeviceUuid(ports[j]))
            && st.calls[2 * j + 1] == AddEndpointCall(st.created[j]))
      && (st.aborted.None? ==> |st.calls| == 2 * |ports|)
      && (st.aborted.Some? ==>
            st == PortStep(svc, at, domain, LoopState(st.calls[..2 * |st.created|], st.created, None), ports[|st.created|]))
  {
    RunPortsShape(svc, ports, at, domain, |ports|);
  }

  /** The loop over ports (one lookup and one create call per port, stopping at the first fault). */
  method MigratePorts(svc: Service, ports: seq<Row>, at: Option<Position>, domain: string) returns (st: LoopState)
    ensures st == PortsOutcome(svc, ports, at, domain)
  {
    var calls: seq<Call> := [];
    var created: seq<EndpointRequest> := [];
    var aborted: Option<Abort> := None;
    var i := 0;
    while i < |ports| && aborted.None?
      invariant i <= |ports|
      invariant LoopState(calls, created, aborted) == RunPorts(svc, ports, at, domain, i)
    {
      ghost var before := LoopState(calls, created, aborted);
      var port := ports[i];
      var uuid := GetColumn("fkdevice", port);
      calls := calls + [GetEndpointCall(uuid)];
      var resp := svc.getGatewayEndpointAnalogAccess(uuid);
      assert resp == Lookup(svc, port);
      if resp.Failure? {
        aborted := Some(Fault(GetGatewayEndpointAnalogAccess, resp.error));
      } else {
        var portnum := Renumber(resp.value.subunit, resp.value.endpoint.index);
        if at.None? {
          aborted := Some(NameError("unit"));
        } else {
          var endpoint := BuildEndpoint(resp.value, portnum, at.value, domain);
          calls := calls + [AddEndpointCall(endpoint)];
          var fault := svc.addGatewayEndpointAnalogAccess(created, endpoint);
          if fault.Some? {
            aborted := Some(Fault(AddGatewayEndpointAnalogAccess, fault.value));
          } else {
            created := created + [endpoint];
          }
        }
      }
      assert LoopState(calls, created, aborted) == PortStep(svc, at, domain, before, port);
      assert RunPorts(svc, ports, at, domain, i + 1) == PortStep(svc, at, domain, before, port);
      i := i + 1;
    }
    st := LoopState(calls, created, aborted);
    if i < |ports| {
      StoppedStaysStopped(svc, ports, at, domain, i, |ports|);
    }
  }

  /** The script as a function of the entered gateway name and the service. */
  function Migration(entered: string, svc: Service): Run
  {
    var lookup := GetGatewayCall(entered);
    match svc.getGateway(entered)
    case Failure(f) => Run([lookup], Aborted(Fault(GetGateway, f)))
    case Success(fetched) =>
      var sql := MemberQuery(RawUuid(fetched.uuid));
      var calls := [lookup, ExecuteSqlQueryCall(sql)];
      match svc.executeSqlQuery(sql)
      case Failure(f) => Run(calls, Aborted(Fault(ExecuteSqlQuery, f)))
      case Success(ports) =>
        var domain := NewDomain(entered);
        var submission := Submission(GatewayToSubmit(fetched, domain), VendorConfig);
        var calls := calls + [AddGatewayCall(submission)];
        match svc.addGateway(submission)
        case Some(f) => Run(calls, Aborted(Fault(AddGateway, f)))
        case None =>
          var st := PortsOutcome(svc, ports, PositionOf(fetched), domain);
          Run(calls + st.calls, if st.aborted.Some? then Aborted(st.aborted.value) else Completed)
  }

  /**
   * The script step by step: `domain`, `gateway`, `unit` and `subunit` are reassigned
   * as the source does, and the swap rules are its three separate `if` statements.
   */
  method SwapVoiceGateway(entered: string, svc: Service) returns (run: Run)
    ensures run == Migration(entered, svc)
  {
    var domain := entered;
    var calls := [GetGatewayCall(domain)];
    var resp := svc.getGateway(domain);
    if resp.Failure? {
      return Run(calls, Aborted(Fault(GetGateway, resp.error)));
    }
    var fetched := resp.value;
    var gateway := AsFetched(fetched);
    var gatewaytype := fetched.product;
    var callManagerGroupName := fetched.callManagerGroupName;
    var gatewaydesc := fetched.description;

    var rawUuid := RawUuid(fetched.uuid);
    var sql := MemberQuery(rawUuid);
    calls := calls + [ExecuteSqlQueryCall(sql)];
    var rows := svc.executeSqlQuery(sql);
    if rows.Failure? {
      return Run(calls, Aborted(Fault(ExecuteSqlQuery, rows.error)));
    }
    var ports := rows.value;

    domain := NewDomain(domain);
    var at: Option<Position> := None;   // `unit` and `subunit` are unbound until a rule matches
    if gatewaytype == "VG204" {
      var unit, subunit := 0, 1;
      at := Some(Position(unit, subunit));
      gateway := Replacement(Gateway(domain, "VG400", "MGCP", gatewaydesc, callManagerGroupName,
        [Unit(unit, "VG-1NIM-MBRD", [Subunit(subunit, "VG-4FXS/4FXO", 0)])]));
    }
    if gatewaytype == "VG310" {
      var unit, subunit := 0, 1;
      at := Some(Position(unit, subunit));
      gateway := Replacement(Gateway(domain, "VG410", "MGCP", gatewaydesc, callManagerGroupName,
        [Unit(unit, "VG-1NIM-MBRD", [Subunit(subunit, "VG-24FXS", 0)])]));
    }
    if gatewaytype == "VG320" {
      var unit, subunit := 0, 1;
      at := Some(Position(unit, subunit));
      gateway := Replacement(Gateway(domain, "VG410", "MGCP", gatewaydesc, callManagerGroupName,
        [Unit(unit, "VG-1NIM-MBRD", [Subunit(subunit, "VG-48FXS", 0)])]));
    }

    var submission := Submission(gateway, [VendorItem("ModemPassthrough", "Disable"), VendorItem("T38FaxRelay", "Enable")]);
    calls := calls + [AddGatewayCall(submission)];
    var fault := svc.addGateway(submission);
    if fault.Some? {
      return Run(calls, Aborted(Fault(AddGateway, fault.value)));
    }

    var st := MigratePorts(svc, ports, at, domain);
    run := Run(calls + st.calls, if st.aborted.Some? then Aborted(st.aborted.value) else Completed);
  }

  /** The first three calls of a run that gets as far as the loop over ports. */
  function SetupCalls(entered: string, fetched: FetchedGateway): seq<Call>
  {
    [GetGatewayCall(entered),
     ExecuteSqlQueryCall(MemberQuery(RawUuid(fetched.uuid))),
     AddGatewayCall(Submission(GatewayToSubmit(fetched, NewDomain(entered)), VendorConfig))]
  }

  /** The gateway lookup, the member query and the gateway creation all succeed. */
  ghost predicate ReachesPorts(entered: string, svc: Service, fetched: FetchedGateway, ports: seq<Row>)
  {
    && svc.getGateway(entered) == Success(fetched)
    && svc.executeSqlQuery(MemberQuery(RawUuid(fetched.uuid))) == Success(ports)
    && svc.addGateway(Submission(GatewayToSubmit(fetched, NewDomain(entered)), VendorConfig)).None?
  }

  /** A failed gateway lookup ends the run with status 1 before any other call. */
  lemma GatewayLookupFaultStops(entered: string, svc: Service)
    requires svc.getGateway(entered).Failure?
    ensures Migration(entered, svc).calls == [GetGatewayCall(entered)]
    ensures Migration(entered, svc).outcome == Aborted(Fault(GetGateway, svc.getGateway(entered).error))
    ensures ExitStatus(Migration(entered, svc).outcome) == 1
  {
  }

  /**
   * After a successful lookup the second call is the member query on the gateway's raw
   * uuid, and the third (if reached) submits the mapped or as-fetched gateway under the
   * prefixed name with vendorConfig ModemPassthrough=Disable then T38FaxRelay=Enable.
   */
  lemma SetupCallsMade(entered: string, svc: Service)
    requires svc.getGateway(entered).Success?
    ensures var fetched := svc.getGateway(entered).value;
      var run := Migration(entered, svc);
      && |run.calls| >= 2
      && run.calls[1] == ExecuteSqlQueryCall("SELECT * FROM mgcpdevicemember WHERE fkmgcp='" + RawUuid(fetched.uuid) + "'")
      && QueryKey(run.calls[1].sql) == Some(RawUuid(fetched.uuid))
      && (svc.executeSqlQuery(run.calls[1].sql).Success? ==>
            |run.calls| >= 3
            && run.calls[..3] == SetupCalls(entered, fetched)
            && run.calls[2].submission.vendorConfig ==
                 [VendorItem("ModemPassthrough", "Disable"), VendorItem("T38FaxRelay", "Enable")])
      && (svc.executeSqlQuery(run.calls[1].sql).Failure? ==>
            |run.calls| == 2 && ExitStatus(run.outcome) == 1)
  {
  }

  /** With no ports listed, no endpoint is looked up or created and the run exits 0. */
  lemma NoPortsNoEndpointCalls(entered: string, svc: Service, fetched: FetchedGateway)
    requires ReachesPorts(entered, svc, fetched, [])
    ensures Migration(entered, svc) == Run(SetupCalls(entered, fetched), Completed)
    ensures ExitStatus(Migration(entered, svc).outcome) == 0
  {
  }

  /**
   * With a model no rule covers, the as-fetched record is submitted; if that is
   * accepted and there are ports, the run looks up the first port and then stops,
   * with the unbound `unit` when the lookup succeeds, creating no endpoint.
   */
  lemma UnsupportedModelStopsAtFirstPort(entered: string, svc: Service, fetched: FetchedGateway, ports: seq<Row>)
    requires ModelMapping(fetched.product).None?
    requires ReachesPorts(entered, svc, fetched, ports)
    requires ports != []
    ensures SetupCalls(entered, fetched)[2] == AddGatewayCall(Submission(AsFetched(fetched), VendorConfig))
    ensures Migration(entered, svc).calls == SetupCalls(entered, fetched) + [GetEndpointCall(DeviceUuid(ports[0]))]
    ensures Lookup(svc, ports[0]).Success? ==> Migration(entered, svc).outcome == Aborted(NameError("unit"))
    ensures ExitStatus(Migration(entered, svc).outcome) == 1
  {
    var at := PositionOf(fetched);
    var first := RunPorts(svc, ports, at, NewDomain(entered), 1);
    assert first.aborted.Some?;
    StoppedStaysStopped(svc, ports, at, NewDomain(entered), 1, |ports|);
  }

  /** A run that gets past addGateway is the setup calls followed by the loop. */
  lemma MigrationReachingPorts(entered: string, svc: Service, fetched: FetchedGateway, ports: seq<Row>)
    requires ReachesPorts(entered, svc, fetched, ports)
    ensures var st := PortsOutcome(svc, ports, PositionOf(fetched), NewDomain(entered));
      Migration(entered, svc) ==
        Run(SetupCalls(entered, fetched) + st.calls, if st.aborted.Some? then Aborted(st.aborted.value) else Completed)
  {
  }

  /** A loop that ran to the end looked up and then created every port, in order. */
  lemma CompletedLoop(svc: Service, ports: seq<Row>, at: Option<Position>, domain: string)
    requires PortsOutcome(svc, ports, at, domain).aborted.None?
    ensures var st := PortsOutcome(svc, ports, at, domain);
      && |st.calls| == 2 * |ports|
      && (ports != [] ==> at.Some?)
      && forall k | 0 <= k < |ports| ::
           && Lookup(svc, ports[k]).Success?
           && st.calls[2 * k] == GetEndpointCall(DeviceUuid(ports[k]))
           && st.calls[2 * k + 1] == AddEndpointCall(BuildEndpoint(Lookup(svc, ports[k]).value,
                PortNumber(Lookup(svc, ports[k]).value), at.value, domain))
  {
    var st := PortsOutcome(svc, ports, at, domain);
    PortsOutcomeShape(svc, ports, at, domain);
    if ports != [] {
      assert CreatedFrom(svc, ports[0], at, domain, st.created[..0], st.created[0]);
    }
    forall k | 0 <= k < |ports|
      ensures CreatedFrom(svc, ports[k], at, domain, st.created[..k], st.created[k])
    {
    }
  }

  /**
   * A run that reaches the loop completes exactly when every port was created; a
   * completed run made one lookup and one creation per port, in port order, and the
   * creation for port k is the endpoint built from that port's lookup under unit 0,
   * subunit 1 and the prefixed domain. A stopped run created fewer endpoints than
   * there are ports and exits 1.
   */
  lemma PortsCreatedInOrder(entered: string, svc: Service, fetched: FetchedGateway, ports: seq<Row>)
    requires ReachesPorts(entered, svc, fetched, ports)
    ensures var run := Migration(entered, svc);
      var st := PortsOutcome(svc, ports, PositionOf(fetched), NewDomain(entered));
      && run.calls == SetupCalls(entered, fetched) + st.calls
      && (run.outcome.Completed? <==> |st.created| == |ports|)
      && (run.outcome.Completed? ==>
            && |run.calls| == 3 + 2 * |ports|
            && forall k | 0 <= k < |ports| ::
                 && Lookup(svc, ports[k]).Success?
                 && run.calls[3 + 2 * k] == GetEndpointCall(DeviceUuid(ports[k]))
                 && run.calls[4 + 2 * k] == AddEndpointCall(BuildEndpoint(Lookup(svc, ports[k]).value,
                      PortNumber(Lookup(svc, ports[k]).value), Position(0, 1), "new-" + entered)))
      && (run.outcome.Aborted? ==> |st.created| < |ports| && ExitStatus(run.outcome) == 1)
  {
    var at := PositionOf(fetched);
    var domain := NewDomain(entered);
    var st := PortsOutcome(svc, ports, at, domain);
    MigrationReachingPorts(entered, svc, fetched, ports);
    PortsOutcomeShape(svc, ports, at, domain);
    var run := Migration(entered, svc);
    var setup := SetupCalls(entered, fetched);
    if st.aborted.None? {
      CompletedLoop(svc, ports, at, domain);
      if ports != [] {
        MappedGatewayFields(fetched, entered);
        assert at == Some(Position(0, 1));
      }
      forall k | 0 <= k < |ports|
        ensures run.calls[3 + 2 * k] == st.calls[2 * k] && run.calls[4 + 2 * k] == st.calls[2 * k + 1]
      {
      }
    }
  }
}
