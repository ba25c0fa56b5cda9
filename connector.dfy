/**
 * CloudStackConnector: the orchestrator's side of the connector. It keeps a
 * machine record in step with the remote server (refreshMachineState),
 * creates a server and rolls it back when registering it fails
 * (createMachine), and names new servers with a counter shared by every
 * connector of the process (createServer).
 *
 * The controller's services are parameters: the machine registration is a
 * function from server id to machine id or failure, the clock a number of
 * milliseconds, the agent resolution data a value that may have failed to
 * build. Calls the remote receives are recorded in ghost logs so that
 * "one reboot is issued" can be stated.
 */
module Connector {

  import opened Wrappers
  import opened Text
  import opened Xml
  import opened Signer
  import opened CloudStackClient
  import opened Utils
  import opened Registry

  /** The orchestrator's machine states; OtherState stands for any state the connector does not act on. */
  datatype MachineState = STARTING | STARTED | STOPPING | STOPPED | NOT_RESPONDING | OtherState(name: string)

  /** The orchestrator's record of a machine; the name is the server id. */
  class Machine {
    const id: string
    const name: string
    /** The properties of the machine's compute center. */
    const computeCenterProps: Properties
    var state: MachineState
    var ipAddress: Option<string>

    constructor (id: string, name: string, computeCenterProps: Properties, state: MachineState, ipAddress: Option<string>)
      ensures this.id == id && this.name == name && this.computeCenterProps == computeCenterProps
      ensures this.state == state && this.ipAddress == ipAddress
    {
      this.id := id;
      this.name := name;
      this.computeCenterProps := computeCenterProps;
      this.state := state;
      this.ipAddress := ipAddress;
    }
  }

  const StatusErrorPrefix := "Unable to retrieve Server Status. Error:"
  const NoSuchElement := "java.util.NoSuchElementException"

  // ---------------------------------------------------------------------------
  // refreshMachineState

  /** What a STARTING machine does about the remote status. */
  datatype StartingAction = Become(state: MachineState) | PowerOn | ReadIp | Stay

  /** The STARTING branch: gone or destroyed stops, error or expunging stops responding, stopped is powered on, running reads the ip. */
  function StartingStep(status: Option<ServerStatus>): (a: StartingAction)
    ensures a.Become? ==> a.state == MachineState.STOPPED || a.state == NOT_RESPONDING
    ensures a == Become(MachineState.STOPPED) <==> status == None || status == Some(DESTROYED)
    ensures a == Become(NOT_RESPONDING) <==> status == Some(ERROR) || status == Some(EXPUNGING)
    ensures a == PowerOn <==> status == Some(ServerStatus.STOPPED)
    ensures a == ReadIp <==> status == Some(RUNNING)
    ensures a == Stay <==> status.Some? && (status.value == UNKOWN || status.value.Other?)
  {
    match status
    case None => Become(MachineState.STOPPED)
    case Some(s) =>
      if s == ServerStatus.STOPPED then PowerOn
      else if s == RUNNING then ReadIp
      else if s == ERROR || s == EXPUNGING then Become(NOT_RESPONDING)
      else if s == DESTROYED then Become(MachineState.STOPPED)
      else Stay
  }

  /** The STOPPING branch: the new state, or None when the machine is left alone. A failed query counts as stopped. */
  function StoppingStep(status: Result<Option<ServerStatus>>): (r: Option<MachineState>)
    ensures r.Some? ==> r.value == MachineState.STOPPED || r.value == NOT_RESPONDING
    ensures r.None? <==> status.Success? && status.value.Some? && (status.value.value == RUNNING || status.value.value.Other?)
    ensures r == Some(NOT_RESPONDING) <==> status.Success? && status.value.Some? && (status.value.value == ERROR || status.value.value == EXPUNGING)
  {
    if status.Failure? || status.value.None? then Some(MachineState.STOPPED)
    else
      var s := status.value.value;
      if s == ERROR || s == EXPUNGING then Some(NOT_RESPONDING)
      else if s == ServerStatus.STOPPED || s == DESTROYED then Some(MachineState.STOPPED)
      else if s == UNKOWN then Some(MachineState.STOPPED)
      else None
  }

  /** getIpAddress: the first address listed; an empty list has no first element. */
  function FirstIp(ips: Result<seq<string>>): (r: Result<string>)
    ensures r.Success? <==> ips.Success? && ips.value != []
    ensures r.Success? ==> r.value == ips.value[0]
    ensures ips.Success? && ips.value == [] ==> r == Failure(NoSuchElement)
    ensures ips.Failure? ==> r == Failure(ips.error)
  {
    match ips
    case Failure(e) => Failure(e)
    case Success(list) => if list == [] then Failure(NoSuchElement) else Success(list[0])
  }

  /** `if (ip != null && !currentIpAddress.equals(ip)) setIpAddress(ip)`: a null recorded address throws. */
  function RecordIp(current: Option<string>, ip: string): (r: Result<Option<string>>)
    ensures current.None? ==> r == Failure(NullPointerException)
    ensures current.Some? ==> r == Success(Some(ip))
  {
    if current.None? then Failure(NullPointerException)
    else if current.value != ip then Success(Some(ip))
    else Success(current)
  }

  /** The result of one refresh: what is raised, the new state and address, and whether a reboot went out. */
  datatype Reconciled = Reconciled(outcome: Outcome, state: MachineState, ip: Option<string>, rebooted: bool)

  /** What the remote answers about one server: its status, a reboot, its address listing. */
  datatype Answers = Answers(status: Result<Option<ServerStatus>>, reboot: Result<bool>, ips: Result<seq<string>>)

  /** The answers a client receives for the server with the given id. */
  function AnswersFor(c: Client, id: string, remote: Remote, parse: Parser, others: set<string>): Answers {
    Answers(GetServerStatus(c, id, remote, parse, others), Reboot(c, id, remote, parse), IpAddresses(c, id, remote, parse))
  }

  /** refreshMachineState as a value: the machine's state and address, the client lookup, and the remote's answers. */
  function Reconcile(state: MachineState, ip: Option<string>, client: Result<Client>, answers: Answers): Reconciled {
    var asBefore := Reconciled(Pass, state, ip, false);
    if state != STARTING && state != STOPPING then asBefore
    else if client.Failure? then Reconciled(Fail(StatusErrorPrefix + client.error), state, ip, false)
    else if state == STOPPING then
      match StoppingStep(answers.status)
      case None => asBefore
      case Some(s) => Reconciled(Pass, s, ip, false)
    else if answers.status.Failure? then Reconciled(Fail(StatusErrorPrefix + answers.status.error), state, ip, false)
    else match StartingStep(answers.status.value)
      case Become(s) => Reconciled(Pass, s, ip, false)
      case Stay => asBefore
      case PowerOn =>
        (match answers.reboot
         case Failure(e) => Reconciled(Fail(StatusErrorPrefix + e), state, ip, true)
         case Success(_) => Reconciled(Pass, state, ip, true))
      case ReadIp =>
        match FirstIp(answers.ips)
        case Failure(e) => Reconciled(Fail(StatusErrorPrefix + e), state, ip, false)
        case Success(address) =>
          match RecordIp(ip, address)
          case Failure(e) => Reconciled(Fail(StatusErrorPrefix + e), state, ip, false)
          case Success(newIp) => Reconciled(Pass, STARTED, newIp, false)
  }

  /** A refresh that raises leaves the machine as it was and says why. */
  lemma ReconcileFailureKeepsMachine(state: MachineState, ip: Option<string>, client: Result<Client>, answers: Answers)
    ensures var r := Reconcile(state, ip, client, answers);
      r.outcome.Fail? ==>
        (&& r.state == state && r.ip == ip
         && |r.outcome.error| >= |StatusErrorPrefix| && r.outcome.error[..|StatusErrorPrefix|] == StatusErrorPrefix)
  {
  }

  /** Only a STARTING machine whose server runs becomes STARTED, and then it records the first listed address. */
  lemma ReconcileStarted(state: MachineState, ip: Option<string>, client: Result<Client>, answers: Answers)
    requires state != STARTED
    requires Reconcile(state, ip, client, answers).state == STARTED
    ensures state == STARTING && client.Success? && answers.status == Success(Some(RUNNING))
    ensures answers.ips.Success? && answers.ips.value != [] && Reconcile(state, ip, client, answers).ip == Some(answers.ips.value[0])
  {
    assert answers.status.Success?;
    assert StartingStep(answers.status.value) == ReadIp;
  }

  /**
   * A STARTING machine whose client is found and whose status is read: gone or
   * destroyed becomes STOPPED, error or expunging becomes NOT_RESPONDING, an
   * unknown or unlisted status leaves it as it was; none of these raises.
   */
  lemma ReconcileStartingStatus(ip: Option<string>, client: Result<Client>, answers: Answers)
    requires client.Success? && answers.status.Success?
    ensures var r := Reconcile(STARTING, ip, client, answers);
      var status := answers.status.value;
      && (status == None || status == Some(DESTROYED) ==> r == Reconciled(Pass, MachineState.STOPPED, ip, false))
      && (status == Some(ERROR) || status == Some(EXPUNGING) ==> r == Reconciled(Pass, NOT_RESPONDING, ip, false))
      && (status.Some? && (status.value == UNKOWN || status.value.Other?) ==> r == Reconciled(Pass, STARTING, ip, false))
    ensures var r := Reconcile(STARTING, ip, client, answers);
      var status := answers.status.value;
      && (r.state == MachineState.STOPPED <==> status == None || status == Some(DESTROYED))
      && (r.state == NOT_RESPONDING <==> status == Some(ERROR) || status == Some(EXPUNGING))
  {
    var status := answers.status.value;
    var step := StartingStep(status);
    if step == PowerOn {
      assert Reconcile(STARTING, ip, client, answers).state == STARTING;
    } else if step == ReadIp {
      var r := Reconcile(STARTING, ip, client, answers);
      assert r.state == STARTING || r.state == STARTED;
    }
  }

  /** A STOPPING machine never fails once the client is found, and ends STOPPED, NOT_RESPONDING or as it was. */
  lemma ReconcileStopping(ip: Option<string>, client: Result<Client>, answers: Answers)
    requires client.Success?
    ensures var r := Reconcile(STOPPING, ip, client, answers);
      && r.outcome == Pass && r.ip == ip && !r.rebooted
      && (r.state == STOPPING || r.state == MachineState.STOPPED || r.state == NOT_RESPONDING)
  {
  }

  /** A reboot goes out only for a STARTING machine whose server is stopped, and then the state stays STARTING. */
  lemma ReconcileReboots(state: MachineState, ip: Option<string>, client: Result<Client>, answers: Answers)
    ensures var r := Reconcile(state, ip, client, answers);
      r.rebooted <==> (state == STARTING && client.Success? && answers.status == Success(Some(ServerStatus.STOPPED)))
    ensures var r := Reconcile(state, ip, client, answers);
      r.rebooted ==> r.state == STARTING && r.ip == ip
  {
    if state == STARTING && client.Success? && answers.status.Success? {
      assert StartingStep(answers.status.value) == PowerOn <==> answers.status.value == Some(ServerStatus.STOPPED);
    }
  }

  /** A running server with an address, seen by a machine with no recorded address, raises a null pointer exception. */
  lemma ReconcileNullRecordedIp(client: Result<Client>, answers: Answers)
    requires client.Success? && answers.status == Success(Some(RUNNING))
    requires answers.ips.Success? && answers.ips.value != []
    ensures Reconcile(STARTING, None, client, answers) == Reconciled(Fail(StatusErrorPrefix + NullPointerException), STARTING, None, false)
  {
  }

  /** Any state but STARTING and STOPPING is left alone without a look at the client or the remote. */
  lemma ReconcileIdle(state: MachineState, ip: Option<string>, client: Result<Client>, answers: Answers)
    requires state != STARTING && state != STOPPING
    ensures forall c, a :: Reconcile(state, ip, c, a) == Reconciled(Pass, state, ip, false)
  {
  }

  /** The display name given to a new server. */
  function DisplayName(millis: nat, count: nat): string {
    "AD_" + NatToString(millis) + NatToString(count)
  }

  /** At one clock width, different (clock, count) pairs give different names. */
  lemma DisplayNamesDistinct(m1: nat, c1: nat, m2: nat, c2: nat)
    requires |NatToString(m1)| == |NatToString(m2)|
    requires m1 != m2 || c1 != c2
    ensures DisplayName(m1, c1) != DisplayName(m2, c2)
  {
    var a, b := DisplayName(m1, c1), DisplayName(m2, c2);
    if a == b {
      var n := 3 + |NatToString(m1)|;
      assert a[3..n] == NatToString(m1);
      assert b[3..n] == NatToString(m2);
      assert a[n..] == NatToString(c1);
      assert b[n..] == NatToString(c2);
      NatToStringInjective(m1, m2);
      NatToStringInjective(c1, c2);
    }
  }

  /** When the clock gains a digit, two names can meet: clock 1 with count 23, clock 12 with count 3. */
  lemma DisplayNamesMeetAcrossWidths()
    ensures DisplayName(1, 23) == DisplayName(12, 3)
  {
    assert NatToString(1) == "1";
    assert NatToString(2) == "2";
    assert NatToString(3) == "3";
    assert NatToString(23) == NatToString(2) + "3";
    assert NatToString(12) == NatToString(1) + "2";
  }

  /** The options createServer fills in: the Name option is read from the Account property. */
  function ServerOptions(props: Properties, ipToNetwork: map<string, string>, displayName: string, userData: Option<string>)
    : (o: CreateServerOptions)
    ensures o.name == o.account
    ensures o.displayName == Some(displayName) && o.userData == userData && o.ipToNetworkList == ipToNetwork
  {
    CreateServerOptions(
      account := Get(props, Account), diskOfferingId := Get(props, DiskOfferingId), displayName := Some(displayName),
      domainId := Get(props, DomainId), group := Get(props, Group), hostId := Get(props, HostId),
      hypervisor := Get(props, Hypervisor), ipAddress := Get(props, IpAddress), keyboard := Get(props, Keyboard),
      keyPair := Get(props, KeyPair), name := Get(props, Name), netWorkIds := Get(props, NetworkIds),
      projectId := Get(props, ProjectId), securityGroupIds := Get(props, SecurityGroupIds),
      securityGroupNames := Get(props, SecurityGroupNames), size := Get(props, Size), userData := userData,
      ipToNetworkList := ipToNetwork)
  }

  /** createServer as a value: the ip list error, or what deployVirtualMachine makes of the reply. */
  function ServerFor(client: Client, imageProps: Properties, machineProps: Properties, millis: nat, count: nat,
                     userData: Option<string>, ipOrder: seq<string>, remote: Remote, parse: Parser): Result<Server>
    requires IpToNetwork(machineProps).Success? ==> IsEnumeration(ipOrder, IpToNetwork(machineProps).value.Keys)
  {
    match IpToNetwork(machineProps)
    case Failure(e) => Failure(e)
    case Success(ipToNetwork) =>
      var options := ServerOptions(machineProps, ipToNetwork, DisplayName(millis, count), userData);
      DeployOutcome(client.Send(DeployVirtualMachine,
        DeployParams(Get(machineProps, ServiceOfferingId), Get(imageProps, TemplateId), Get(machineProps, ZoneId), options, ipOrder),
        remote), parse)
  }

  /** The deploy request sends the Account value under `name` as well as under `account`. */
  lemma ServerRequestNameIsAccount(serviceOfferingId: Option<string>, templateId: Option<string>, zoneId: Option<string>,
                                   props: Properties, ipToNetwork: map<string, string>, displayName: string,
                                   userData: Option<string>, ipOrder: seq<string>)
    requires forall k :: k in ipOrder ==> k in ipToNetwork
    ensures var sent := DeployParams(serviceOfferingId, templateId, zoneId, ServerOptions(props, ipToNetwork, displayName, userData), ipOrder);
      && ("name" in sent <==> "account" in sent)
      && ("name" in sent ==> sent["name"] == sent["account"])
  {
    DeployNameLikeAccount(serviceOfferingId, templateId, zoneId, ServerOptions(props, ipToNetwork, displayName, userData), ipOrder);
  }

  /** The message of the exception raised when the rollback's terminate fails too. */
  function OrphanMessage(typeName: string, serverId: string): string {
    OrphanLead(typeName) + serverId + " that must be shut down manually. Root cause for machine "
      + "create failure is following: "
  }

  function OrphanLead(typeName: string): string {
    "Machine create failed, but terminate failed as well! We have an orphan " + typeName + " instance with id: "
  }

  /**
   * What createMachine returns or raises: the machine id, a ConnectorException
   * with its message and the failure that caused it, or an exception of the
   * client lookup, which happens before the try block and is not wrapped.
   */
  datatype Created = Created(machineId: string) | Raised(message: Message, cause: string) | Escaped(error: string)

  /** The message of a ConnectorException: a text passed along, or the orphan report. */
  datatype Message = Plain(text: string) | Orphan(typeName: string, serverId: string)

  /** The text getMessage() returns. */
  function Rendered(m: Message): string {
    match m
    case Plain(t) => t
    case Orphan(typeName, serverId) => OrphanMessage(typeName, serverId)
  }

  /** The end of createMachine once a server exists: registered, or rolled back, or reported as an orphan. */
  function Settle(serverId: string, registered: Result<string>, terminated: Result<bool>, typeName: string): (r: Created)
    ensures registered.Success? ==> r == Created(registered.value)
    ensures registered.Failure? ==> r.Raised? && r.cause == registered.error
    ensures registered.Failure? && terminated.Failure? ==> r.message == Orphan(typeName, serverId)
    ensures registered.Failure? && terminated.Success? ==> r.message == Plain(registered.error)
  {
    match registered
    case Success(m) => Created(m)
    case Failure(e) => if terminated.Failure? then Raised(Orphan(typeName, serverId), e) else Raised(Plain(e), e)
  }

  /** The orphan message names the server to shut down, right after the lead. */
  lemma OrphanMessageNamesServer(typeName: string, serverId: string)
    ensures var lead := |OrphanLead(typeName)|;
      |OrphanMessage(typeName, serverId)| > lead + |serverId|
      && OrphanMessage(typeName, serverId)[lead..lead + |serverId|] == serverId
  {
  }

  /** What createMachine does once the client is found: its result and the servers it terminates. */
  datatype Creation = Creation(result: Created, terminated: seq<string>)

  /**
   * createMachine after the client lookup, from what its steps return: the
   * agent resolution data, createServer, the registration of the server and
   * the rollback's terminate.
   */
  function Create(typeName: string, userData: Result<Option<string>>, server: Result<Server>,
                  registered: Result<string>, terminated: Result<bool>): Creation {
    if userData.Failure? then Creation(Raised(Plain(userData.error), userData.error), [])
    else if server.Failure? then Creation(Raised(Plain(server.error), server.error), [])
    else if registered.Success? then Creation(Created(registered.value), [])
    else Creation(Settle(server.value.id, registered, terminated, typeName), [server.value.id])
  }

  /** What the steps of createMachine return for a client, the counter at `count`: the server, its registration, its terminate. */
  function Steps(client: Client, userData: Result<Option<string>>, imageProps: Properties, machineProps: Properties,
                 millis: nat, count: nat, ipOrder: seq<string>, register: string -> Result<string>, remote: Remote, parse: Parser)
    : (Result<Server>, Result<string>, Result<bool>)
    requires IpToNetwork(machineProps).Success? ==> IsEnumeration(ipOrder, IpToNetwork(machineProps).value.Keys)
  {
    if userData.Failure? then (Failure(userData.error), Failure(""), Failure(""))
    else
      var server := ServerFor(client, imageProps, machineProps, millis, count, userData.value, ipOrder, remote, parse);
      if server.Failure? then (server, Failure(""), Failure(""))
      else (server, register(server.value.id), Terminate(client, server.value.id, remote, parse))
  }

  /** The try block once the server step has answered: register a created server, and roll it back if that fails. */
  function Enlisted(client: Client, typeName: string, server: Result<Server>, register: string -> Result<string>,
                    remote: Remote, parse: Parser): Creation
  {
    match server
    case Failure(e) => Creation(Raised(Plain(e), e), [])
    case Success(s) =>
      var registered := register(s.id);
      Creation(Settle(s.id, registered, Terminate(client, s.id, remote, parse), typeName),
               if registered.Success? then [] else [s.id])
  }

  /** The case-by-case outcome of registering a created server is `Enlisted`. */
  lemma EnlistIsEnlisted(client: Client, typeName: string, server: Result<Server>, register: string -> Result<string>,
                         remote: Remote, parse: Parser, r: Created, before: seq<string>, after: seq<string>)
    requires server.Failure? ==> r == Raised(Plain(server.error), server.error) && after == before
    requires server.Success? ==>
      var id := server.value.id;
      var registered := register(id);
      && r == Settle(id, registered, Terminate(client, id, remote, parse), typeName)
      && after == before + (if registered.Success? then [] else [id])
    ensures var c := Enlisted(client, typeName, server, register, remote, parse);
      r == c.result && after == before + c.terminated
  {
  }

  /** createMachine once the client is found, the counter at `count`. */
  function Creating(client: Client, typeName: string, userData: Result<Option<string>>, imageProps: Properties,
                    machineProps: Properties, millis: nat, count: nat, ipOrder: seq<string>,
                    register: string -> Result<string>, remote: Remote, parse: Parser): Creation
    requires IpToNetwork(machineProps).Success? ==> IsEnumeration(ipOrder, IpToNetwork(machineProps).value.Keys)
  {
    match userData
    case Failure(e) => Creation(Raised(Plain(e), e), [])
    case Success(data) =>
      Enlisted(client, typeName, ServerFor(client, imageProps, machineProps, millis, count, data, ipOrder, remote, parse),
               register, remote, parse)
  }

  /** Creating is Create over what the steps return, so the rollback lemmas about Create hold of it. */
  lemma CreatingIsCreate(client: Client, typeName: string, userData: Result<Option<string>>, imageProps: Properties,
                         machineProps: Properties, millis: nat, count: nat, ipOrder: seq<string>,
                         register: string -> Result<string>, remote: Remote, parse: Parser)
    requires IpToNetwork(machineProps).Success? ==> IsEnumeration(ipOrder, IpToNetwork(machineProps).value.Keys)
    ensures var steps := Steps(client, userData, imageProps, machineProps, millis, count, ipOrder, register, remote, parse);
      Creating(client, typeName, userData, imageProps, machineProps, millis, count, ipOrder, register, remote, parse)
        == Create(typeName, userData, steps.0, steps.1, steps.2)
  {
    if userData.Success? {
      var server := ServerFor(client, imageProps, machineProps, millis, count, userData.value, ipOrder, remote, parse);
      EnlistedIsCreate(client, typeName, userData.value, server, register, remote, parse);
    }
  }

  /** Once the agent data is encoded, Enlisted is Create over the server, its registration and its terminate. */
  lemma EnlistedIsCreate(client: Client, typeName: string, userData: Option<string>, server: Result<Server>,
                         register: string -> Result<string>, remote: Remote, parse: Parser)
    ensures Enlisted(client, typeName, server, register, remote, parse) ==
      if server.Failure? then Create(typeName, Success(userData), server, Failure(""), Failure(""))
      else Create(typeName, Success(userData), server, register(server.value.id), Terminate(client, server.value.id, remote, parse))
  {
  }

  /** The counter after createMachine: createServer takes a number once the agent data and the ip list are read. */
  function CountAfter(userData: Result<Option<string>>, machineProps: Properties, count: nat): nat {
    if userData.Success? && IpToNetwork(machineProps).Success? then count + 1 else count
  }

  /** A server is terminated only when it was deployed and registering it failed, and then exactly that server, once. */
  lemma CreateRollsBack(typeName: string, userData: Result<Option<string>>, server: Result<Server>,
                        registered: Result<string>, terminated: Result<bool>)
    ensures var c := Create(typeName, userData, server, registered, terminated);
      c.terminated != [] <==> userData.Success? && server.Success? && registered.Failure?
    ensures var c := Create(typeName, userData, server, registered, terminated);
      c.terminated != [] ==> c.terminated == [server.value.id]
    ensures var c := Create(typeName, userData, server, registered, terminated);
      c.result.Created? <==> userData.Success? && server.Success? && registered.Success?
    ensures !Create(typeName, userData, server, registered, terminated).result.Escaped?
  {
  }

  /** A failed rollback names the orphaned server and keeps the registration failure as the cause; otherwise the failure itself is raised. */
  lemma CreateReportsOrphan(typeName: string, userData: Result<Option<string>>, server: Result<Server>,
                            registered: Result<string>, terminated: Result<bool>)
    requires userData.Success? && server.Success? && registered.Failure?
    ensures var c := Create(typeName, userData, server, registered, terminated);
      var id := server.value.id;
      var lead := |OrphanLead(typeName)|;
      && c.result.Raised? && c.result.cause == registered.error
      && (terminated.Failure? ==>
            var text := Rendered(c.result.message);
            text == OrphanMessage(typeName, id) && |text| > lead + |id| && text[lead..lead + |id|] == id)
      && (terminated.Success? ==> c.result.message == Plain(registered.error))
  {
    OrphanMessageNamesServer(typeName, server.value.id);
  }

  // ---------------------------------------------------------------------------
  // The connector

  /** The static counter of createServer: one object shared by every connector of the process. */
  class Counter {
    var value: nat

    constructor ()
      ensures value == 0
    {
      value := 0;
    }

    /** `count = counter++` under the counter's lock. */
    method Next() returns (n: nat)
      modifies this
      ensures n == old(value) && value == old(value) + 1
    {
      n := value;
      value := value + 1;
    }
  }

  class CloudStackConnector {
    /** The process-wide counter of createServer. */
    const counter: Counter
    /** The singleton locator of this package. */
    const locator: ClientLocator
    /** The names of the status constants beyond those the connector tests. */
    const others: set<string>
    /** Server ids a reboot was sent for, in order. */
    ghost var reboots: seq<string>
    /** Server ids a terminate was sent for, in order. */
    ghost var terminations: seq<string>

    ghost predicate Valid()
      reads this, locator
    {
      locator.Valid()
    }

    constructor (locator: ClientLocator, counter: Counter, others: set<string>)
      requires locator.Valid()
      ensures Valid() && this.locator == locator && this.counter == counter && this.others == others
      ensures reboots == [] && terminations == []
    {
      this.locator := locator;
      this.counter := counter;
      this.others := others;
      reboots := [];
      terminations := [];
    }

    /** getIpAddress. */
    method GetIpAddress(machine: Machine, client: Client) returns (r: Result<string>)
      ensures r == FirstIp(IpAddresses(client, machine.name, locator.remote, locator.parse))
    {
      var ips := ListIpAddress(client, machine.name, locator.remote, locator.parse);
      if ips.Failure? {
        return Failure(ips.error);
      }
      if ips.value == [] {
        return Failure(NoSuchElement);
      }
      return Success(ips.value[0]);
    }

    /** refreshMachineState. */
    method RefreshMachineState(machine: Machine) returns (r: Outcome)
      requires Valid()
      modifies machine, locator, this`reboots
      ensures Valid()
      ensures var active := old(machine.state) == STARTING || old(machine.state) == STOPPING;
        var located := LocateFromProps(old(locator.clients), machine.computeCenterProps, locator.remote, locator.parse);
        var answers := if located.0.Success? then AnswersFor(located.0.value, machine.name, locator.remote, locator.parse, others)
                       else Answers(Failure(""), Failure(""), Failure(""));
        var expected := Reconcile(old(machine.state), old(machine.ipAddress), located.0, answers);
        && r == expected.outcome && machine.state == expected.state && machine.ipAddress == expected.ip
        && reboots == old(reboots) + (if expected.rebooted then [machine.name] else [])
        && locator.clients == (if active then located.1 else old(locator.clients))
    {
      var currentState := machine.state;
      if currentState == STARTING || currentState == STOPPING {
        ghost var located := LocateFromProps(locator.clients, machine.computeCenterProps, locator.remote, locator.parse);
        var client := locator.GetClientFromProps(machine.computeCenterProps);
        assert client == located.0;
        if client.Failure? {
          return Fail(StatusErrorPrefix + client.error);
        }
        if currentState == STARTING {
          r := RefreshStarting(machine, client.value);
        } else {
          r := RefreshStopping(machine, client.value);
        }
      } else {
        r := Pass;
      }
    }

    /** The STARTING branch of refreshMachineState, the client found. */
    method RefreshStarting(machine: Machine, client: Client) returns (r: Outcome)
      requires machine.state == STARTING
      modifies machine, this`reboots
      ensures var expected := Reconcile(STARTING, old(machine.ipAddress), Success(client),
                                        AnswersFor(client, machine.name, locator.remote, locator.parse, others));
        && r == expected.outcome && machine.state == expected.state && machine.ipAddress == expected.ip
        && reboots == old(reboots) + (if expected.rebooted then [machine.name] else [])
    {
      ghost var answers := AnswersFor(client, machine.name, locator.remote, locator.parse, others);
      var serverStatus := GetServerStatus(client, machine.name, locator.remote, locator.parse, others);
      assert serverStatus == answers.status;
      if serverStatus.Failure? {
        return Fail(StatusErrorPrefix + serverStatus.error);
      }
      match StartingStep(serverStatus.value)
      case Become(state) =>
        machine.state := state;
        r := Pass;
      case Stay =>
        r := Pass;
      case PowerOn =>
        r := PowerOnStarting(machine, client);
        assert Reboot(client, machine.name, locator.remote, locator.parse) == answers.reboot;
      case ReadIp =>
        r := RefreshRunning(machine, client);
        assert FirstIp(IpAddresses(client, machine.name, locator.remote, locator.parse)) == FirstIp(answers.ips);
    }

    /** A STARTING machine whose server is stopped: send a reboot; the machine stays STARTING. */
    method PowerOnStarting(machine: Machine, client: Client) returns (r: Outcome)
      modifies this`reboots
      ensures var rebooted := Reboot(client, machine.name, locator.remote, locator.parse);
        r == (if rebooted.Failure? then Fail(StatusErrorPrefix + rebooted.error) else Pass)
      ensures reboots == old(reboots) + [machine.name]
    {
      reboots := reboots + [machine.name];
      var rebooted := Reboot(client, machine.name, locator.remote, locator.parse);
      if rebooted.Failure? {
        return Fail(StatusErrorPrefix + rebooted.error);
      }
      return Pass;
    }

    /** A STARTING machine whose server runs: record the first listed address, then mark it STARTED. */
    method RefreshRunning(machine: Machine, client: Client) returns (r: Outcome)
      modifies machine
      ensures var address := FirstIp(IpAddresses(client, machine.name, locator.remote, locator.parse));
        && (address.Failure? ==> r == Fail(StatusErrorPrefix + address.error) && unchanged(machine))
        && (address.Success? ==>
              var recorded := RecordIp(old(machine.ipAddress), address.value);
              && (recorded.Failure? ==> r == Fail(StatusErrorPrefix + recorded.error) && unchanged(machine))
              && (recorded.Success? ==> r == Pass && machine.state == STARTED && machine.ipAddress == recorded.value))
    {
      var ipAddress := GetIpAddress(machine, client);
      if ipAddress.Failure? {
        return Fail(StatusErrorPrefix + ipAddress.error);
      }
      var currentIpAddress := machine.ipAddress;
      if currentIpAddress.None? {
        return Fail(StatusErrorPrefix + NullPointerException);
      }
      if currentIpAddress.value != ipAddress.value {
        machine.ipAddress := Some(ipAddress.value);
      }
      machine.state := STARTED;
      return Pass;
    }

    /** The STOPPING branch of refreshMachineState, the client found: a failed query is taken as stopped. */
    method RefreshStopping(machine: Machine, client: Client) returns (r: Outcome)
      requires machine.state == STOPPING
      modifies machine
      ensures var expected := Reconcile(STOPPING, old(machine.ipAddress), Success(client),
                                        AnswersFor(client, machine.name, locator.remote, locator.parse, others));
        r == expected.outcome && machine.state == expected.state && machine.ipAddress == expected.ip && !expected.rebooted
    {
      var serverStatus: Option<ServerStatus> := None;
      var queried := GetServerStatus(client, machine.name, locator.remote, locator.parse, others);
      if queried.Failure? {
        machine.state := MachineState.STOPPED;
      } else {
        serverStatus := queried.value;
      }
      if serverStatus.None? {
        machine.state := MachineState.STOPPED;
      } else if serverStatus.value == ERROR || serverStatus.value == EXPUNGING {
        machine.state := NOT_RESPONDING;
      } else if serverStatus.value == ServerStatus.STOPPED || serverStatus.value == DESTROYED {
        machine.state := MachineState.STOPPED;
      } else if serverStatus.value == UNKOWN {
        machine.state := MachineState.STOPPED;
      }
      return Pass;
    }

    /** createServer: the ip map read, the counter taken and incremented, the server deployed. */
    method CreateServer(userData: Option<string>, imageProps: Properties, machineProps: Properties, client: Client,
                        millis: nat, ipOrder: seq<string>) returns (r: Result<Server>)
      requires IpToNetwork(machineProps).Success? ==> IsEnumeration(ipOrder, IpToNetwork(machineProps).value.Keys)
      modifies counter
      ensures r == ServerFor(client, imageProps, machineProps, millis, old(counter.value), userData, ipOrder, locator.remote, locator.parse)
      ensures counter.value == if IpToNetwork(machineProps).Success? then old(counter.value) + 1 else old(counter.value)
    {
      var ipToNetworkList := GetIpToNetworkList(machineProps);
      if ipToNetworkList.Failure? {
        return Failure(ipToNetworkList.error);
      }
      var ipToNetwork := ipToNetworkList.value;
      assert IsEnumeration(ipOrder, ipToNetwork.Keys);
      ghost var expected := ServerFor(client, imageProps, machineProps, millis, counter.value, userData, ipOrder,
                                      locator.remote, locator.parse);
      var count := counter.Next();
      r := DeployNumbered(userData, imageProps, machineProps, client, millis, count, ipOrder, ipToNetwork);
      assert r == expected;
    }

    /** createServer once the number is taken: the settings read, the options built and the server deployed. */
    method DeployNumbered(userData: Option<string>, imageProps: Properties, machineProps: Properties, client: Client,
                          millis: nat, count: nat, ipOrder: seq<string>, ipToNetworkList: map<string, string>)
      returns (r: Result<Server>)
      requires IpToNetwork(machineProps) == Success(ipToNetworkList) && IsEnumeration(ipOrder, ipToNetworkList.Keys)
      ensures r == ServerFor(client, imageProps, machineProps, millis, count, userData, ipOrder, locator.remote, locator.parse)
    {
      var serviceOfferingId := Get(machineProps, ServiceOfferingId);
      var templateId := Get(imageProps, TemplateId);
      var zoneId := Get(machineProps, ZoneId);
      var options := ServerOptions(machineProps, ipToNetworkList, DisplayName(millis, count), userData);
      r := Deploy(client, serviceOfferingId, templateId, zoneId,
                  options, ipOrder, locator.remote, locator.parse);
    }

    /** createMachine: get the client, create the server, register the machine; on a failure after deploy, terminate the server. */
    method CreateMachine(computeCenterProps: Properties, typeName: string, userData: Result<Option<string>>,
                         imageProps: Properties, machineProps: Properties, millis: nat, ipOrder: seq<string>,
                         register: string -> Result<string>) returns (r: Created)
      requires Valid()
      requires IpToNetwork(machineProps).Success? ==> IsEnumeration(ipOrder, IpToNetwork(machineProps).value.Keys)
      modifies locator, counter, this`terminations
      ensures Valid()
      ensures var located := LocateFromProps(old(locator.clients), computeCenterProps, locator.remote, locator.parse);
        locator.clients == located.1
      ensures var located := LocateFromProps(old(locator.clients), computeCenterProps, locator.remote, locator.parse);
        located.0.Failure? ==> r == Escaped(located.0.error) && terminations == old(terminations) && counter.value == old(counter.value)
      ensures var located := LocateFromProps(old(locator.clients), computeCenterProps, locator.remote, locator.parse);
        located.0.Success? ==>
          var c := Creating(located.0.value, typeName, userData, imageProps, machineProps, millis, old(counter.value), ipOrder,
                            register, locator.remote, locator.parse);
          && r == c.result && terminations == old(terminations) + c.terminated
          && counter.value == CountAfter(userData, machineProps, old(counter.value))
    {
      ghost var located := LocateFromProps(locator.clients, computeCenterProps, locator.remote, locator.parse);
      var client := locator.GetClientFromProps(computeCenterProps);
      assert client == located.0;
      if client.Failure? {
        return Escaped(client.error);
      }
      r := Provision(client.value, typeName, userData, imageProps, machineProps, millis, ipOrder, register);
    }

    /** The part of createMachine inside its try block: create the server, register it, roll it back. */
    method Provision(client: Client, typeName: string, userData: Result<Option<string>>,
                     imageProps: Properties, machineProps: Properties, millis: nat, ipOrder: seq<string>,
                     register: string -> Result<string>) returns (r: Created)
      requires IpToNetwork(machineProps).Success? ==> IsEnumeration(ipOrder, IpToNetwork(machineProps).value.Keys)
      modifies counter, this`terminations
      ensures var c := Creating(client, typeName, userData, imageProps, machineProps, millis, old(counter.value), ipOrder,
                                register, locator.remote, locator.parse);
        r == c.result && terminations == old(terminations) + c.terminated
      ensures counter.value == CountAfter(userData, machineProps, old(counter.value))
    {
      if userData.Failure? {
        return Raised(Plain(userData.error), userData.error);
      }
      r := Launch(client, typeName, userData.value, imageProps, machineProps, millis, ipOrder, register);
    }

    /** The try block once the agent resolution data is encoded: create the server, then register it or roll it back. */
    method Launch(client: Client, typeName: string, userData: Option<string>,
                  imageProps: Properties, machineProps: Properties, millis: nat, ipOrder: seq<string>,
                  register: string -> Result<string>) returns (r: Created)
      requires IpToNetwork(machineProps).Success? ==> IsEnumeration(ipOrder, IpToNetwork(machineProps).value.Keys)
      modifies counter, this`terminations
      ensures var server := ServerFor(client, imageProps, machineProps, millis, old(counter.value), userData, ipOrder,
                                      locator.remote, locator.parse);
        var c := Enlisted(client, typeName, server, register, locator.remote, locator.parse);
        r == c.result && terminations == old(terminations) + c.terminated
      ensures counter.value == if IpToNetwork(machineProps).Success? then old(counter.value) + 1 else old(counter.value)
    {
      ghost var expected := ServerFor(client, imageProps, machineProps, millis, counter.value, userData, ipOrder,
                                      locator.remote, locator.parse);
      var server := CreateServer(userData, imageProps, machineProps, client, millis, ipOrder);
      assert server == expected;
      ghost var before := terminations;
      r := Enlist(client, typeName, server, register);
      EnlistIsEnlisted(client, typeName, server, register, locator.remote, locator.parse, r, before, terminations);
    }

    /** The end of createMachine's try block: a failed createServer is raised; otherwise register the server and, if that fails, terminate it. */
    method Enlist(client: Client, typeName: string, server: Result<Server>, register: string -> Result<string>) returns (r: Created)
      modifies this`terminations
      ensures server.Failure? ==> r == Raised(Plain(server.error), server.error) && terminations == old(terminations)
      ensures server.Success? ==>
        var id := server.value.id;
        var registered := register(id);
        && r == Settle(id, registered, Terminate(client, id, locator.remote, locator.parse), typeName)
        && terminations == old(terminations) + (if registered.Success? then [] else [id])
    {
      if server.Failure? {
        return Raised(Plain(server.error), server.error);
      }
      var id := server.value.id;
      var machine := register(id);
      if machine.Success? {
        return Created(machine.value);
      }
      terminations := terminations + [id];
      var terminated := Terminate(client, id, locator.remote, locator.parse);
      if terminated.Failure? {
        return Raised(Orphan(typeName, id), machine.error);
      }
      return Raised(Plain(machine.error), machine.error);
    }

    /** terminateMachine. */
    method TerminateMachine(machine: Machine, typeName: string) returns (r: Outcome)
      requires Valid()
      modifies locator, this`terminations
      ensures Valid()
      ensures var located := LocateFromProps(old(locator.clients), machine.computeCenterProps, locator.remote, locator.parse);
        var prefix := "Error Terminating " + typeName + " Instance Id:" + machine.id + ". Error:";
        && locator.clients == located.1
        && (located.0.Failure? ==> r == Fail(prefix + located.0.error) && terminations == old(terminations))
        && (located.0.Success? ==>
              var t := Terminate(located.0.value, machine.name, locator.remote, locator.parse);
              && terminations == old(terminations) + [machine.name]
              && r == (if t.Failure? then Fail(prefix + t.error) else Pass))
    {
      var prefix := "Error Terminating " + typeName + " Instance Id:" + machine.id + ". Error:";
      var client := locator.GetClientFromProps(machine.computeCenterProps);
      if client.Failure? {
        return Fail(prefix + client.error);
      }
      terminations := terminations + [machine.name];
      var terminated := Terminate(client.value, machine.name, locator.remote, locator.parse);
      if terminated.Failure? {
        return Fail(prefix + terminated.error);
      }
      return Pass;
    }

    /** restartMachine. */
    method RestartMachine(machine: Machine, typeName: string) returns (r: Outcome)
      requires Valid()
      modifies locator, this`reboots
      ensures Valid()
      ensures var located := LocateFromProps(old(locator.clients), machine.computeCenterProps, locator.remote, locator.parse);
        var prefix := "Error Rebooting " + typeName + " Instance Id:" + machine.name + ". Error:";
        && locator.clients == located.1
        && (located.0.Failure? ==> r == Fail(prefix + located.0.error) && reboots == old(reboots))
        && (located.0.Success? ==>
              var b := Reboot(located.0.value, machine.name, locator.remote, locator.parse);
              && reboots == old(reboots) + [machine.name]
              && r == (if b.Failure? then Fail(prefix + b.error) else Pass))
    {
      var prefix := "Error Rebooting " + typeName + " Instance Id:" + machine.name + ". Error:";
      var client := locator.GetClientFromProps(machine.computeCenterProps);
      if client.Failure? {
        return Fail(prefix + client.error);
      }
      reboots := reboots + [machine.name];
      var rebooted := Reboot(client.value, machine.name, locator.remote, locator.parse);
      if rebooted.Failure? {
        return Fail(prefix + rebooted.error);
      }
      return Pass;
    }
  }
}
