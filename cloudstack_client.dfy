/**
 * CloudStackClient: the compute facade over the CloudStack API. Each operation
 * builds one signed request, makes one round trip through the remote oracle and
 * interprets the XML response; the error envelope is an `errortext` element.
 *
 * A client is a value: its fields are fixed by the constructor. Responses are
 * parsed by the Parser oracle into an element tree searched in document order.
 */
module CloudStackClient {

  import opened Wrappers
  import opened Text
  import opened Xml
  import opened UrlEncoding
  import opened Signer

  const DeployVirtualMachine := "deployVirtualMachine"
  const RebootVirtualMachine := "rebootVirtualMachine"
  const DestroyVirtualMachine := "destroyVirtualMachine"
  const ListVirtualMachines := "listVirtualMachines"

  const NullResponse := "Null response from server"

  /** Credentials and endpoint; any of them may be null. */
  datatype Client = Client(apiKey: Option<string>, secretKey: Option<string>, accessUrl: Option<string>)
  {
    /** `accessUrl + "/api?"`. */
    function ApiUrl(): string {
      JavaString(accessUrl) + "/api?"
    }

    /** execute() of a request for this client. */
    function Send(command: string, params: map<string, string>, remote: Remote): Result<Option<string>> {
      Signer.Send(ApiUrl(), apiKey, secretKey, command, params, remote)
    }
  }

  /** The handle deployVirtualMachine returns. */
  datatype Server = Server(id: string)

  // ---------------------------------------------------------------------------
  // Reading responses

  /** stringToXmlDocument: a null body or one the parser rejects is an error naming the body. */
  function ParseDocument(response: Option<string>, parse: Parser): (r: Result<Node>)
    ensures r.Success? <==> response.Some? && parse(response.value).Some?
    ensures r.Success? ==> r.value == parse(response.value).value
  {
    if response.Some? && parse(response.value).Some? then Success(parse(response.value).value)
    else Failure("Error reading xml response. Response Body:" + JavaString(response))
  }

  /** `list.item(0).getTextContent().trim()`: there is no first item to read in an empty list. */
  function FirstText(nodes: seq<Node>): (r: Result<string>)
    ensures r.Success? <==> nodes != []
    ensures r.Success? ==> r.value == Trim(TextContent(nodes[0])) && IsTrimmed(r.value)
  {
    if nodes == [] then Failure(NullPointerException) else Success(Trim(TextContent(nodes[0])))
  }

  /** The body is present and parses to a document. */
  predicate Parses(response: Option<string>, parse: Parser) {
    response.Some? && parse(response.value).Some?
  }

  /** The parsed document of a response that parses. */
  function Document(response: Option<string>, parse: Parser): Node
    requires Parses(response, parse)
  {
    parse(response.value).value
  }

  /** containsErrorMessage: a null or blank body counts as an error; otherwise look for `errortext`. */
  function ContainsErrorMessage(response: Option<string>, parse: Parser): (r: Result<bool>)
    ensures IsBlankOrNull(response) ==> r == Success(true)
    ensures !IsBlankOrNull(response) ==> (r.Success? <==> Parses(response, parse))
    ensures !IsBlankOrNull(response) && r.Success? ==> (r.value <==> HasTag(Document(response, parse), "errortext"))
  {
    if IsBlankOrNull(response) then Success(true)
    else match ParseDocument(response, parse)
      case Failure(e) => Failure(e)
      case Success(doc) =>
        ElementsByTagFinds(doc, "errortext");
        Success(|ElementsByTag(doc, "errortext")| != 0)
  }

  /** getErrorMessage: a fixed message for a blank body, else the trimmed text of the first `errortext`. */
  function GetErrorMessage(response: Option<string>, parse: Parser): (r: Result<string>)
    ensures IsBlankOrNull(response) ==> r == Success(NullResponse)
    ensures !IsBlankOrNull(response) ==>
      (r.Success? <==> Parses(response, parse) && HasTag(Document(response, parse), "errortext"))
    ensures !IsBlankOrNull(response) && r.Success? ==>
      var found := ElementsByTag(Document(response, parse), "errortext");
      found != [] && r.value == Trim(TextContent(found[0])) && IsTrimmed(r.value)
  {
    if IsBlankOrNull(response) then Success(NullResponse)
    else match ParseDocument(response, parse)
      case Failure(e) => Failure(e)
      case Success(doc) =>
        ElementsByTagFinds(doc, "errortext");
        FirstText(ElementsByTag(doc, "errortext"))
  }

  /** A round trip that succeeded and whose body is the error envelope. */
  predicate IsErrorReply(reply: Result<Option<string>>, parse: Parser) {
    reply.Success? && ContainsErrorMessage(reply.value, parse) == Success(true)
  }

  /** A round trip that succeeded with a body that parses and carries no `errortext`. */
  predicate IsCleanReply(reply: Result<Option<string>>, parse: Parser) {
    reply.Success? && ContainsErrorMessage(reply.value, parse) == Success(false)
  }

  lemma CleanReplyParses(reply: Result<Option<string>>, parse: Parser)
    requires IsCleanReply(reply, parse)
    ensures !IsBlankOrNull(reply.value) && Parses(reply.value, parse)
    ensures !HasTag(Document(reply.value, parse), "errortext")
  {
  }

  /** A reply is the error envelope, clean, or neither (the round trip failed or the body does not parse). */
  lemma ReplyKinds(reply: Result<Option<string>>, parse: Parser)
    ensures !(IsErrorReply(reply, parse) && IsCleanReply(reply, parse))
    ensures reply.Success? && !IsErrorReply(reply, parse) && !IsCleanReply(reply, parse) ==>
      !IsBlankOrNull(reply.value) && !Parses(reply.value, parse)
  {
  }

  // ---------------------------------------------------------------------------
  // listServerIds and authenticate

  /** The trimmed text of the first `id` inside a `virtualmachine` element; a null pointer when it has none. */
  function IdOf(vm: Node): Result<string> {
    FirstText(Descendants(vm, "id"))
  }

  /** The values of a list of results in order, or the error of the first failure. */
  function Gather(rs: seq<Result<string>>): Result<seq<string>> {
    if rs == [] then Success([])
    else
      match Gather(rs[..|rs| - 1])
      case Failure(e) => Failure(e)
      case Success(values) =>
        match rs[|rs| - 1]
        case Failure(e) => Failure(e)
        case Success(v) => Success(values + [v])
  }

  /** Gather succeeds exactly when every result does, with their values in order; otherwise it keeps the first error. */
  lemma {:induction false} GatherMeaning(rs: seq<Result<string>>)
    ensures Gather(rs).Success? <==> forall i :: 0 <= i < |rs| ==> rs[i].Success?
    ensures Gather(rs).Success? ==> |Gather(rs).value| == |rs| && forall i :: 0 <= i < |rs| ==> Gather(rs).value[i] == rs[i].value
    ensures Gather(rs).Failure? ==>
      exists i :: 0 <= i < |rs| && rs[i] == Failure(Gather(rs).error) && forall j :: 0 <= j < i ==> rs[j].Success?
  {
    if rs != [] {
      var init := rs[..|rs| - 1];
      GatherMeaning(init);
      assert forall i :: 0 <= i < |init| ==> rs[i] == init[i];
      match Gather(init)
      case Failure(_) =>
        var i :| 0 <= i < |init| && init[i] == Failure(Gather(init).error) && forall j :: 0 <= j < i ==> init[j].Success?;
        assert rs[i].Failure?;
      case Success(values) =>
        if rs[|rs| - 1].Success? {
          var all := values + [rs[|rs| - 1].value];
          assert Gather(rs) == Success(all);
          assert forall i :: 0 <= i < |init| ==> all[i] == values[i];
        }
    }
  }

  /** The id lookup of each `virtualmachine` element. */
  function IdsOf(vms: seq<Node>): (r: seq<Result<string>>)
    ensures |r| == |vms| && forall i :: 0 <= i < |vms| ==> r[i] == IdOf(vms[i])
  {
    seq(|vms|, i requires 0 <= i < |vms| => IdOf(vms[i]))
  }

  /** The id of each `virtualmachine` element, or the error of the first one without. */
  function VmIds(vms: seq<Node>): (r: Result<seq<string>>)
    ensures r.Failure? ==> r.error == NullPointerException
    ensures r.Success? ==> |r.value| == |vms|
  {
    GatherMeaning(IdsOf(vms));
    Gather(IdsOf(vms))
  }

  /** One id per element, in order, exactly when every element has an `id` descendant. */
  lemma VmIdsMeaning(vms: seq<Node>)
    ensures VmIds(vms).Success? <==> forall i :: 0 <= i < |vms| ==> Descendants(vms[i], "id") != []
    ensures VmIds(vms).Success? ==> forall i :: 0 <= i < |vms| ==> VmIds(vms).value[i] == IdOf(vms[i]).value
  {
    GatherMeaning(IdsOf(vms));
  }

  /** What listServerIds makes of the reply to `listVirtualMachines`. */
  function Listing(reply: Result<Option<string>>, parse: Parser): Result<seq<string>> {
    if reply.Failure? then Failure(reply.error)
    else match ContainsErrorMessage(reply.value, parse)
      case Failure(e) => Failure(e)
      case Success(isError) =>
        if isError then
          match GetErrorMessage(reply.value, parse)
          case Failure(e) => Failure(e)
          case Success(m) => Failure("Error retrieving Servers. Response:" + m)
        else VmIds(ElementsByTag(Document(reply.value, parse), "virtualmachine"))
  }

  /** listServerIds, as a value: the ids of every listed virtual machine in document order. */
  function ServerIds(c: Client, remote: Remote, parse: Parser): Result<seq<string>> {
    Listing(c.Send(ListVirtualMachines, map[], remote), parse)
  }

  /** A listing succeeds exactly on a clean reply whose every `virtualmachine` holds an `id`; then it has one trimmed id per machine. */
  lemma ListingMeaning(reply: Result<Option<string>>, parse: Parser)
    ensures Listing(reply, parse).Success? <==>
      IsCleanReply(reply, parse) &&
      forall v :: v in ElementsByTag(Document(reply.value, parse), "virtualmachine") ==> Descendants(v, "id") != []
    ensures Listing(reply, parse).Success? ==>
      var vms := ElementsByTag(Document(reply.value, parse), "virtualmachine");
      var ids := Listing(reply, parse).value;
      |ids| == |vms| && forall i :: 0 <= i < |ids| ==> IsTrimmed(ids[i]) && ids[i] == Trim(TextContent(Descendants(vms[i], "id")[0]))
  {
    if IsCleanReply(reply, parse) {
      var vms := ElementsByTag(Document(reply.value, parse), "virtualmachine");
      assert Listing(reply, parse) == VmIds(vms);
      VmIdsMeaning(vms);
      assert (forall v :: v in vms ==> Descendants(v, "id") != []) <==>
             (forall i :: 0 <= i < |vms| ==> Descendants(vms[i], "id") != []);
    } else {
      assert Listing(reply, parse).Failure?;
    }
  }

  /** listServerIds. */
  method ListServerIds(c: Client, remote: Remote, parse: Parser) returns (r: Result<seq<string>>)
    ensures r == ServerIds(c, remote, parse)
  {
    var reply := c.Send(ListVirtualMachines, map[], remote);
    if reply.Failure? {
      return Failure(reply.error);
    }
    var isError := ContainsErrorMessage(reply.value, parse);
    if isError.Failure? {
      return Failure(isError.error);
    }
    if isError.value {
      var message := GetErrorMessage(reply.value, parse);
      if message.Failure? {
        return Failure(message.error);
      }
      return Failure("Error retrieving Servers. Response:" + message.value);
    }
    r := CollectVmIds(ElementsByTag(Document(reply.value, parse), "virtualmachine"));
  }

  /** The loop of listServerIds over the `virtualmachine` elements. */
  method CollectVmIds(vms: seq<Node>) returns (r: Result<seq<string>>)
    ensures r == VmIds(vms)
  {
    ghost var rs := IdsOf(vms);
    var ids: seq<string> := [];
    var i := 0;
    while i < |vms|
      invariant 0 <= i <= |vms|
      invariant Gather(rs[..i]).Success? && ids == Gather(rs[..i]).value
    {
      var id := IdOf(vms[i]);
      if id.Failure? {
        GatherMeaning(rs);
        assert rs[i].Failure?;
        return Failure(id.error);
      }
      ids := ids + [id.value];
      GatherSnoc(rs, i);
      i := i + 1;
    }
    assert rs[..i] == rs;
    return Success(ids);
  }

  lemma GatherSnoc(rs: seq<Result<string>>, i: nat)
    requires i < |rs| && Gather(rs[..i]).Success? && rs[i].Success?
    ensures Gather(rs[..i + 1]) == Success(Gather(rs[..i]).value + [rs[i].value])
  {
    assert rs[..i + 1][..i] == rs[..i];
  }

  /** authenticate: the credentials work exactly when listing the servers raises nothing. */
  function Authenticate(c: Client, remote: Remote, parse: Parser): (r: bool)
    ensures r ==> CanSign(c.apiKey, c.secretKey)
    ensures r ==> IsCleanReply(c.Send(ListVirtualMachines, map[], remote), parse)
  {
    ListingMeaning(c.Send(ListVirtualMachines, map[], remote), parse);
    ServerIds(c, remote, parse).Success?
  }

  // ---------------------------------------------------------------------------
  // Single-server commands

  /** The parameter table of a command that names one server. */
  function IdParams(id: string): (r: map<string, string>)
    ensures !IsBlank(id) ==> r == map["id" := PercentEncode(Trim(id))]
    ensures IsBlank(id) ==> r == map[]
  {
    PutMeaning(map[], "id", Some(id));
    Put(map[], "id", Some(id))
  }

  /** `getElementsByTagName("jobid").getLength() > 0` on the parsed body. */
  function HasJob(reply: Result<Option<string>>, parse: Parser): (r: Result<bool>)
    ensures r.Success? <==> reply.Success? && Parses(reply.value, parse)
    ensures r.Success? ==> (r.value <==> HasTag(Document(reply.value, parse), "jobid"))
  {
    if reply.Failure? then Failure(reply.error)
    else match ParseDocument(reply.value, parse)
      case Failure(e) => Failure(e)
      case Success(doc) =>
        ElementsByTagFinds(doc, "jobid");
        Success(|ElementsByTag(doc, "jobid")| > 0)
  }

  /** rebootVirtualMachine: true when the reply holds a `jobid`; the error envelope is not consulted. */
  function Reboot(c: Client, id: string, remote: Remote, parse: Parser): (r: Result<bool>)
    ensures var reply := c.Send(RebootVirtualMachine, IdParams(id), remote);
      r.Success? <==> reply.Success? && Parses(reply.value, parse)
    ensures var reply := c.Send(RebootVirtualMachine, IdParams(id), remote);
      r.Success? ==> (r.value <==> HasTag(Document(reply.value, parse), "jobid"))
    ensures !CanSign(c.apiKey, c.secretKey) ==> r == Failure(NullPointerException)
  {
    HasJob(c.Send(RebootVirtualMachine, IdParams(id), remote), parse)
  }

  /** A reply carrying both an `errortext` and a `jobid` still counts as a successful reboot. */
  lemma RebootIgnoresErrorText(c: Client, id: string, remote: Remote, parse: Parser)
    requires var reply := c.Send(RebootVirtualMachine, IdParams(id), remote);
      reply.Success? && Parses(reply.value, parse) && HasTag(Document(reply.value, parse), "jobid")
    ensures Reboot(c, id, remote, parse) == Success(true)
  {
  }

  /** terminateVirtualMachine. */
  function Terminate(c: Client, id: string, remote: Remote, parse: Parser): (r: Result<bool>)
    ensures var reply := c.Send(DestroyVirtualMachine, IdParams(id), remote);
      IsErrorReply(reply, parse) ==>
        (r == Success(true) <==> ServerIds(c, remote, parse).Success? && id !in ServerIds(c, remote, parse).value)
    ensures var reply := c.Send(DestroyVirtualMachine, IdParams(id), remote);
      IsErrorReply(reply, parse) ==> r != Success(false)
    ensures var reply := c.Send(DestroyVirtualMachine, IdParams(id), remote);
      !IsErrorReply(reply, parse) ==> r.Success? ==> IsCleanReply(reply, parse)
    ensures var reply := c.Send(DestroyVirtualMachine, IdParams(id), remote);
      IsCleanReply(reply, parse) ==> r == Success(HasTag(Document(reply.value, parse), "jobid"))
  {
    var reply := c.Send(DestroyVirtualMachine, IdParams(id), remote);
    if reply.Failure? then Failure(reply.error)
    else match ContainsErrorMessage(reply.value, parse)
      case Failure(e) => Failure(e)
      case Success(true) =>
        (match ServerIds(c, remote, parse)
         case Failure(e) => Failure(e)
         case Success(vms) =>
           if id in vms then
             match GetErrorMessage(reply.value, parse)
             case Failure(e) => Failure(e)
             case Success(m) => Failure("Error terminating instance with id:" + id + " Response:" + m)
           else Success(true))
      case Success(false) => HasJob(reply, parse)
  }

  /** An error reply for a server that is still listed is a failure naming the id and the error text. */
  lemma TerminateStillListedFails(c: Client, id: string, remote: Remote, parse: Parser)
    requires IsErrorReply(c.Send(DestroyVirtualMachine, IdParams(id), remote), parse)
    requires ServerIds(c, remote, parse).Success? && id in ServerIds(c, remote, parse).value
    ensures Terminate(c, id, remote, parse).Failure?
    ensures var message := GetErrorMessage(c.Send(DestroyVirtualMachine, IdParams(id), remote).value, parse);
      && (message.Success? ==>
            Terminate(c, id, remote, parse) == Failure("Error terminating instance with id:" + id + " Response:" + message.value))
      && (message.Failure? ==> Terminate(c, id, remote, parse) == Failure(message.error))
  {
  }

  /** getServer: the raw reply to `listVirtualMachines` restricted to one id. */
  function GetServer(c: Client, id: string, remote: Remote): (r: Result<Option<string>>)
    ensures CanSign(c.apiKey, c.secretKey) && !IsBlank(id) ==>
      r == remote(ApiCall(c.ApiUrl(), c.apiKey.value, c.secretKey.value, ListVirtualMachines, map["id" := PercentEncode(Trim(id))]))
  {
    c.Send(ListVirtualMachines, IdParams(id), remote)
  }

  /** A blank id is dropped from the request, so getServer asks for every server. */
  lemma GetServerBlankIdListsAll(c: Client, id: string, remote: Remote)
    requires IsBlank(id)
    ensures GetServer(c, id, remote) == c.Send(ListVirtualMachines, map[], remote)
  {
  }

  /** The trimmed text of every node, in order. */
  function Texts(nodes: seq<Node>): (r: seq<string>)
    ensures |r| == |nodes|
    ensures forall i :: 0 <= i < |nodes| ==> r[i] == Trim(TextContent(nodes[i])) && IsTrimmed(r[i])
  {
    if nodes == [] then []
    else
      var init := Texts(nodes[..|nodes| - 1]);
      var last := Trim(TextContent(nodes[|nodes| - 1]));
      init + [last]
  }

  /** listIpAddress, as a value: every `ipaddress` text of the server's listing, or an error naming the id. */
  function IpAddresses(c: Client, id: string, remote: Remote, parse: Parser): (r: Result<seq<string>>)
    ensures var reply := GetServer(c, id, remote);
      r.Success? <==> IsCleanReply(reply, parse)
    ensures var reply := GetServer(c, id, remote);
      r.Success? ==> r.value == Texts(ElementsByTag(Document(reply.value, parse), "ipaddress"))
    ensures IsErrorReply(GetServer(c, id, remote), parse) ==> r == Failure("Error retrieving ip address for instance id:" + id)
  {
    var reply := GetServer(c, id, remote);
    if reply.Failure? then Failure(reply.error)
    else match ContainsErrorMessage(reply.value, parse)
      case Failure(e) => Failure(e)
      case Success(true) => Failure("Error retrieving ip address for instance id:" + id)
      case Success(false) => Success(Texts(ElementsByTag(Document(reply.value, parse), "ipaddress")))
  }

  /** listIpAddress: the loop over the `ipaddress` elements. */
  method ListIpAddress(c: Client, id: string, remote: Remote, parse: Parser) returns (r: Result<seq<string>>)
    ensures r == IpAddresses(c, id, remote, parse)
  {
    var reply := GetServer(c, id, remote);
    if reply.Failure? {
      return Failure(reply.error);
    }
    var isError := ContainsErrorMessage(reply.value, parse);
    if isError.Failure? {
      return Failure(isError.error);
    }
    if isError.value {
      return Failure("Error retrieving ip address for instance id:" + id);
    }
    var list := ElementsByTag(Document(reply.value, parse), "ipaddress");
    var ips: seq<string> := [];
    var i := 0;
    while i < |list|
      invariant 0 <= i <= |list|
      invariant ips == Texts(list[..i])
    {
      assert list[..i + 1][..i] == list[..i];
      ips := ips + [Trim(TextContent(list[i]))];
      i := i + 1;
    }
    assert list[..i] == list;
    return Success(ips);
  }

  // ---------------------------------------------------------------------------
  // Server status

  /** The remote lifecycle states; Other stands for a constant of the enum not named here. */
  datatype ServerStatus = STOPPED | RUNNING | ERROR | EXPUNGING | DESTROYED | UNKOWN | Other(name: string)

  /** The name of a constant. */
  function StatusName(s: ServerStatus): string {
    match s
    case STOPPED => "STOPPED"
    case RUNNING => "RUNNING"
    case ERROR => "ERROR"
    case EXPUNGING => "EXPUNGING"
    case DESTROYED => "DESTROYED"
    case UNKOWN => "UNKOWN"
    case Other(n) => n
  }

  predicate IsNamedStatus(name: string) {
    name in {"STOPPED", "RUNNING", "ERROR", "EXPUNGING", "DESTROYED", "UNKOWN"}
  }

  /**
   * ServerStatus.valueOf, with the raised exception caught as UNKOWN: the
   * constant of that exact name, where `others` holds the names of the
   * constants not listed above.
   */
  function ValueOf(name: string, others: set<string>): (r: ServerStatus)
    ensures r.Other? ==> r.name in others && !IsNamedStatus(r.name)
    ensures r != UNKOWN ==> StatusName(r) == name
  {
    match name
    case "STOPPED" => STOPPED
    case "RUNNING" => RUNNING
    case "ERROR" => ERROR
    case "EXPUNGING" => EXPUNGING
    case "DESTROYED" => DESTROYED
    case "UNKOWN" => UNKOWN
    case _ => if name in others then Other(name) else UNKOWN
  }

  /** A constant of the enum. */
  predicate IsConstant(s: ServerStatus, others: set<string>) {
    s.Other? ==> s.name in others && !IsNamedStatus(s.name)
  }

  /** valueOf finds every constant by its name. */
  lemma ValueOfName(s: ServerStatus, others: set<string>)
    requires IsConstant(s, others)
    ensures ValueOf(StatusName(s), others) == s
  {
  }

  /** A name that is no constant maps to UNKOWN. */
  lemma ValueOfUnknown(name: string, others: set<string>)
    requires !IsNamedStatus(name) && name !in others
    ensures ValueOf(name, others) == UNKOWN
  {
  }

  /** `ServerStatus.valueOf(status.toUpperCase().trim())`, falling back to UNKOWN. */
  function StatusOf(text: string, others: set<string>): (r: ServerStatus)
    ensures IsConstant(r, others)
  {
    ValueOf(Trim(ToUpper(text)), others)
  }

  /** The state text is read without regard to case. */
  lemma StatusOfIgnoresCase(text: string, others: set<string>)
    ensures StatusOf(ToLower(text), others) == StatusOf(text, others)
  {
    UpperOfLower(text);
  }

  /** getServerStatus: None when the server is gone; an error when it is listed yet its own query fails. */
  function GetServerStatus(c: Client, id: string, remote: Remote, parse: Parser, others: set<string>): (r: Result<Option<ServerStatus>>)
    ensures IsErrorReply(GetServer(c, id, remote), parse) ==>
      (r == Success(None) <==> ServerIds(c, remote, parse).Success? && id !in ServerIds(c, remote, parse).value)
    ensures IsErrorReply(GetServer(c, id, remote), parse) ==> r.Success? ==> r.value.None?
    ensures r == Success(None) ==> IsErrorReply(GetServer(c, id, remote), parse)
    ensures IsErrorReply(GetServer(c, id, remote), parse) && ServerIds(c, remote, parse).Success? &&
            id in ServerIds(c, remote, parse).value ==>
      r == Failure("Error retrieving instance status with id:" + id)
    ensures IsCleanReply(GetServer(c, id, remote), parse) &&
            !HasTag(Document(GetServer(c, id, remote).value, parse), "state") ==>
      r == Failure(NullPointerException)
    ensures r.Success? && r.value.Some? ==>
      var reply := GetServer(c, id, remote);
      IsCleanReply(reply, parse) &&
      var states := ElementsByTag(Document(reply.value, parse), "state");
      states != [] && r.value.value == StatusOf(Trim(TextContent(states[0])), others)
  {
    var reply := GetServer(c, id, remote);
    if reply.Failure? then Failure(reply.error)
    else match ContainsErrorMessage(reply.value, parse)
      case Failure(e) => Failure(e)
      case Success(true) =>
        (match ServerIds(c, remote, parse)
         case Failure(e) => Failure(e)
         case Success(ids) =>
           if id !in ids then Success(None) else Failure("Error retrieving instance status with id:" + id))
      case Success(false) =>
        ElementsByTagFinds(Document(reply.value, parse), "state");
        match FirstText(ElementsByTag(Document(reply.value, parse), "state"))
        case Failure(e) => Failure(e)
        case Success(status) => Success(Some(StatusOf(status, others)))
  }

  /** On a clean reply with a `state` element the status query cannot fail, whatever the text says. */
  lemma StatusNeverFailsOnState(c: Client, id: string, remote: Remote, parse: Parser, others: set<string>)
    requires IsCleanReply(GetServer(c, id, remote), parse)
    requires HasTag(Document(GetServer(c, id, remote).value, parse), "state")
    ensures GetServerStatus(c, id, remote, parse, others).Success?
    ensures GetServerStatus(c, id, remote, parse, others).value.Some?
  {
    ElementsByTagFinds(Document(GetServer(c, id, remote).value, parse), "state");
  }

  // ---------------------------------------------------------------------------
  // deployVirtualMachine

  /** The optional settings of a new virtual machine; every one may be null. */
  datatype CreateServerOptions = CreateServerOptions(
    account: Option<string>, diskOfferingId: Option<string>, displayName: Option<string>,
    domainId: Option<string>, group: Option<string>, hostId: Option<string>,
    hypervisor: Option<string>, ipAddress: Option<string>, keyboard: Option<string>,
    keyPair: Option<string>, name: Option<string>, netWorkIds: Option<string>,
    projectId: Option<string>, securityGroupIds: Option<string>, securityGroupNames: Option<string>,
    size: Option<string>, userData: Option<string>, ipToNetworkList: map<string, string>)

  /** One addParam call: the field and the value passed. */
  type Param = (string, Option<string>)

  /** Successive addParam calls on a table. */
  function PutAll(params: map<string, string>, calls: seq<Param>): map<string, string>
    decreases |calls|
  {
    if calls == [] then params else PutAll(Put(params, calls[0].0, calls[0].1), calls[1..])
  }

  /** The fixed addParam calls of deployVirtualMachine, in source order; `securitygroupnames` carries the size. */
  function FixedParams(serviceOfferingId: Option<string>, templateId: Option<string>, zoneId: Option<string>,
                       o: CreateServerOptions): (r: seq<Param>)
    ensures |r| == 20
  {
    [("serviceofferingid", serviceOfferingId), ("templateid", templateId), ("zoneid", zoneId)]
      + PlacementParams(o) + AccessParams(o)
  }

  /** The options from `account` to `ipaddress`. */
  function PlacementParams(o: CreateServerOptions): (r: seq<Param>)
    ensures |r| == 8
  {
    [("account", o.account), ("diskofferingid", o.diskOfferingId), ("displayname", o.displayName),
     ("domainid", o.domainId), ("group", o.group), ("hostid", o.hostId), ("hypervisor", o.hypervisor),
     ("ipaddress", o.ipAddress)]
  }

  /** The options from `keyboard` to `size`; `securitygroupnames` carries the size. */
  function AccessParams(o: CreateServerOptions): (r: seq<Param>)
    ensures |r| == 9
  {
    [("keyboard", o.keyboard), ("keypair", o.keyPair), ("name", o.name),
     ("networkids", o.netWorkIds), ("projectid", o.projectId), ("securitygroupids", o.securityGroupIds),
     ("securitygroupnames", o.size), ("userdata", o.userData), ("size", o.size)]
  }

  /** One call of a run: the rest of the run starts from the table that call leaves. */
  lemma PutAllStep(p: map<string, string>, calls: seq<Param>, k: nat)
    requires k < |calls|
    ensures PutAll(p, calls[k..]) == PutAll(Put(p, calls[k].0, calls[k].1), calls[k + 1..])
  {
    assert calls[k..][0] == calls[k] && calls[k..][1..] == calls[k + 1..];
  }

  /** Calls made in two runs. */
  lemma {:induction false} PutAllConcat(p: map<string, string>, a: seq<Param>, b: seq<Param>)
    ensures PutAll(p, a + b) == PutAll(PutAll(p, a), b)
    decreases |a|
  {
    if a == [] {
      assert a + b == b;
    } else {
      assert (a + b)[0] == a[0] && (a + b)[1..] == a[1..] + b;
      PutAllConcat(Put(p, a[0].0, a[0].1), a[1..], b);
    }
  }

  /** `"iptonetworklist[" + i + "].ip"`. */
  function IpKey(i: nat): string {
    "iptonetworklist[" + NatToString(i) + "].ip"
  }

  /** `"iptonetworklist[" + i + "].networkid"`. */
  function NetworkKey(i: nat): string {
    "iptonetworklist[" + NatToString(i) + "].networkid"
  }

  /** The addParam calls of the ip loop from the entry at position i on, the counter starting at i. */
  function IpParamsFrom(order: seq<string>, ipToNetwork: map<string, string>, i: nat): (r: seq<Param>)
    requires i <= |order| && forall k :: k in order ==> k in ipToNetwork
    ensures |r| == 2 * (|order| - i)
    decreases |order| - i
  {
    if i == |order| then []
    else [(IpKey(i), Some(order[i])), (NetworkKey(i), Some(ipToNetwork[order[i]]))] + IpParamsFrom(order, ipToNetwork, i + 1)
  }

  /** The parameter table deployVirtualMachine sends, the ip map visited in the given order. */
  function DeployParams(serviceOfferingId: Option<string>, templateId: Option<string>, zoneId: Option<string>,
                        o: CreateServerOptions, ipOrder: seq<string>): map<string, string>
    requires forall k :: k in ipOrder ==> k in o.ipToNetworkList
  {
    PutAll(PutAll(map[], FixedParams(serviceOfferingId, templateId, zoneId, o)), IpParamsFrom(ipOrder, o.ipToNetworkList, 0))
  }

  /** What deployVirtualMachine makes of the reply: the server named by the first `id`, or the error. */
  function DeployOutcome(reply: Result<Option<string>>, parse: Parser): (r: Result<Server>)
    ensures IsErrorReply(reply, parse) ==> r.Failure?
    ensures IsErrorReply(reply, parse) ==>
      var message := GetErrorMessage(reply.value, parse);
      && (message.Success? ==> r == Failure("Error deploying virtual machine. Response: " + message.value))
      && (message.Failure? ==> r == Failure(message.error))
    ensures r.Success? <==> IsCleanReply(reply, parse) && HasTag(Document(reply.value, parse), "id")
    ensures r.Success? ==>
      var found := ElementsByTag(Document(reply.value, parse), "id");
      found != [] && r.value.id == Trim(TextContent(found[0])) && IsTrimmed(r.value.id)
  {
    if reply.Failure? then Failure(reply.error)
    else match ContainsErrorMessage(reply.value, parse)
      case Failure(e) => Failure(e)
      case Success(isError) =>
        if isError then
          match GetErrorMessage(reply.value, parse)
          case Failure(e) => Failure(e)
          case Success(m) => Failure("Error deploying virtual machine. Response: " + m)
        else
          var doc := Document(reply.value, parse);
          ElementsByTagFinds(doc, "id");
          match FirstText(ElementsByTag(doc, "id"))
          case Failure(e) => Failure(e)
          case Success(id) => Success(Server(id))
  }

  /** deployVirtualMachine, the ip map visited in the order `ipOrder` enumerates it. */
  method Deploy(c: Client, serviceOfferingId: Option<string>, templateId: Option<string>, zoneId: Option<string>,
                options: CreateServerOptions, ipOrder: seq<string>, remote: Remote, parse: Parser)
    returns (r: Result<Server>)
    requires IsEnumeration(ipOrder, options.ipToNetworkList.Keys)
    ensures r == DeployOutcome(c.Send(DeployVirtualMachine, DeployParams(serviceOfferingId, templateId, zoneId, options, ipOrder), remote), parse)
  {
    var request := new ApiRequest(DeployVirtualMachine, c.apiKey, c.secretKey, c.ApiUrl());
    AddFixedParams(request, serviceOfferingId, templateId, zoneId, options);
    AddIpParams(request, ipOrder, options.ipToNetworkList);
    var reply := request.Execute(remote);
    r := DeployOutcome(reply, parse);
  }

  /** The fixed addParam calls of deployVirtualMachine, in source order. */
  method AddFixedParams(request: ApiRequest, serviceOfferingId: Option<string>, templateId: Option<string>,
                        zoneId: Option<string>, options: CreateServerOptions)
    requires request.Valid()
    modifies request
    ensures request.Valid()
    ensures request.params == PutAll(old(request.params), FixedParams(serviceOfferingId, templateId, zoneId, options))
  {
    ghost var start := request.params;
    ghost var server: seq<Param> := [("serviceofferingid", serviceOfferingId), ("templateid", templateId), ("zoneid", zoneId)];
    assert server[0..] == server;
    PutAllStep(request.params, server, 0);
    request.AddParam("serviceofferingid", serviceOfferingId);
    PutAllStep(request.params, server, 1);
    request.AddParam("templateid", templateId);
    PutAllStep(request.params, server, 2);
    request.AddParam("zoneid", zoneId);
    assert server[3..] == [];
    AddPlacementParams(request, options);
    AddAccessParams(request, options);
    PutAllConcat(start, server, PlacementParams(options));
    PutAllConcat(start, server + PlacementParams(options), AccessParams(options));
  }

  /** addParam of the options from `account` to `ipaddress`. */
  method AddPlacementParams(request: ApiRequest, options: CreateServerOptions)
    requires request.Valid()
    modifies request
    ensures request.Valid()
    ensures request.params == PutAll(old(request.params), PlacementParams(options))
  {
    ghost var calls := PlacementParams(options);
    assert calls[0..] == calls;
    PutAllStep(request.params, calls, 0);
    request.AddParam("account", options.account);
    PutAllStep(request.params, calls, 1);
    request.AddParam("diskofferingid", options.diskOfferingId);
    PutAllStep(request.params, calls, 2);
    request.AddParam("displayname", options.displayName);
    PutAllStep(request.params, calls, 3);
    request.AddParam("domainid", options.domainId);
    PutAllStep(request.params, calls, 4);
    request.AddParam("group", options.group);
    PutAllStep(request.params, calls, 5);
    request.AddParam("hostid", options.hostId);
    PutAllStep(request.params, calls, 6);
    request.AddParam("hypervisor", options.hypervisor);
    PutAllStep(request.params, calls, 7);
    request.AddParam("ipaddress", options.ipAddress);
    assert calls[8..] == [];
  }

  /** addParam of the options from `keyboard` to `size`; `securitygroupnames` is given the size. */
  method AddAccessParams(request: ApiRequest, options: CreateServerOptions)
    requires request.Valid()
    modifies request
    ensures request.Valid()
    ensures request.params == PutAll(old(request.params), AccessParams(options))
  {
    ghost var calls := AccessParams(options);
    assert calls[0..] == calls;
    PutAllStep(request.params, calls, 0);
    request.AddParam("keyboard", options.keyboard);
    PutAllStep(request.params, calls, 1);
    request.AddParam("keypair", options.keyPair);
    PutAllStep(request.params, calls, 2);
    request.AddParam("name", options.name);
    PutAllStep(request.params, calls, 3);
    request.AddParam("networkids", options.netWorkIds);
    PutAllStep(request.params, calls, 4);
    request.AddParam("projectid", options.projectId);
    PutAllStep(request.params, calls, 5);
    request.AddParam("securitygroupids", options.securityGroupIds);
    PutAllStep(request.params, calls, 6);
    request.AddParam("securitygroupnames", options.size);
    PutAllStep(request.params, calls, 7);
    request.AddParam("userdata", options.userData);
    PutAllStep(request.params, calls, 8);
    request.AddParam("size", options.size);
    assert calls[9..] == [];
  }

  /** The loop of deployVirtualMachine over the ip map: two parameters per entry, the counter running 0, 1, … */
  method AddIpParams(request: ApiRequest, order: seq<string>, ipToNetwork: map<string, string>)
    requires request.Valid() && forall k :: k in order ==> k in ipToNetwork
    modifies request
    ensures request.Valid()
    ensures request.params == PutAll(old(request.params), IpParamsFrom(order, ipToNetwork, 0))
  {
    var i := 0;
    while i < |order|
      invariant 0 <= i <= |order| && request.Valid()
      invariant PutAll(request.params, IpParamsFrom(order, ipToNetwork, i)) == PutAll(old(request.params), IpParamsFrom(order, ipToNetwork, 0))
    {
      var ip := order[i];
      ghost var rest := IpParamsFrom(order, ipToNetwork, i);
      assert rest[2..] == IpParamsFrom(order, ipToNetwork, i + 1);
      request.AddParam(IpKey(i), Some(ip));
      request.AddParam(NetworkKey(i), Some(ipToNetwork[ip]));
      i := i + 1;
    }
  }

  // ---------------------------------------------------------------------------
  // What deployVirtualMachine sends

  /** Calls that never name the field leave its entry as it was. */
  lemma {:induction false} PutAllAbsent(p: map<string, string>, calls: seq<Param>, name: string)
    requires forall k :: 0 <= k < |calls| ==> calls[k].0 != name
    ensures name in PutAll(p, calls) <==> name in p
    ensures name in p ==> PutAll(p, calls)[name] == p[name]
    decreases |calls|
  {
    if calls != [] {
      PutAllAbsent(Put(p, calls[0].0, calls[0].1), calls[1..], name);
    }
  }

  /** The one call that names a field decides its entry: the encoded value, or the entry as it was for a blank value. */
  lemma {:induction false} PutAllUnique(p: map<string, string>, calls: seq<Param>, j: nat)
    requires j < |calls|
    requires forall k :: 0 <= k < |calls| && k != j ==> calls[k].0 != calls[j].0
    ensures var name, value := calls[j].0, calls[j].1;
      && (name in PutAll(p, calls) <==> name in p || !IsBlankOrNull(value))
      && (!IsBlankOrNull(value) ==> PutAll(p, calls)[name] == PercentEncode(Trim(value.value)))
      && (IsBlankOrNull(value) && name in p ==> PutAll(p, calls)[name] == p[name])
    decreases |calls|
  {
    var q := Put(p, calls[0].0, calls[0].1);
    PutMeaning(p, calls[0].0, calls[0].1);
    if j == 0 {
      PutAllAbsent(q, calls[1..], calls[0].0);
    } else {
      PutAllUnique(q, calls[1..], j - 1);
    }
  }

  /** Every entry of the result was there before or is named by a call. */
  lemma {:induction false} PutAllKeys(p: map<string, string>, calls: seq<Param>, name: string)
    requires name in PutAll(p, calls)
    ensures name in p || exists k :: 0 <= k < |calls| && calls[k].0 == name
    decreases |calls|
  {
    if calls != [] {
      PutAllKeys(Put(p, calls[0].0, calls[0].1), calls[1..], name);
      if exists k :: 0 <= k < |calls[1..]| && calls[1..][k].0 == name {
        var k :| 0 <= k < |calls[1..]| && calls[1..][k].0 == name;
        assert calls[k + 1].0 == name;
      }
    }
  }

  lemma PutAllTwo(p: map<string, string>, calls: seq<Param>)
    requires |calls| >= 2
    ensures PutAll(p, calls) == PutAll(Put(Put(p, calls[0].0, calls[0].1), calls[1].0, calls[1].1), calls[2..])
  {
    assert calls[1..][1..] == calls[2..];
  }

  /** The fixed field names are distinct and at most 18 characters long. */
  lemma FixedNames(serviceOfferingId: Option<string>, templateId: Option<string>, zoneId: Option<string>, o: CreateServerOptions)
    ensures var f := FixedParams(serviceOfferingId, templateId, zoneId, o);
      forall a, b :: 0 <= a < b < |f| ==> f[a].0 != f[b].0
    ensures var f := FixedParams(serviceOfferingId, templateId, zoneId, o);
      forall a :: 0 <= a < |f| ==> |f[a].0| <= 18
  {
    var f := FixedParams(serviceOfferingId, templateId, zoneId, o);
    forall a | 0 <= a < |f| ensures f[a].0 == FieldNames[a] {
    }
    FieldNamesDistinct();
  }

  /** The names the fixed addParam calls use, in order. */
  const FieldNames: seq<string> := [
    "serviceofferingid", "templateid", "zoneid", "account", "diskofferingid", "displayname", "domainid", "group",
    "hostid", "hypervisor", "ipaddress", "keyboard", "keypair", "name", "networkids", "projectid",
    "securitygroupids", "securitygroupnames", "userdata", "size"]

  lemma FieldNamesDistinct()
    ensures forall a, b :: 0 <= a < b < |FieldNames| ==> FieldNames[a] != FieldNames[b]
    ensures forall a :: 0 <= a < |FieldNames| ==> |FieldNames[a]| <= 18
  {
  }

  lemma IpKeyShape(i: nat)
    ensures |IpKey(i)| >= 21 && IpKey(i)[16..|IpKey(i)| - 4] == NatToString(i) && IpKey(i)[|IpKey(i)| - 1] == 'p'
    ensures |NetworkKey(i)| >= 28 && NetworkKey(i)[16..|NetworkKey(i)| - 11] == NatToString(i) && NetworkKey(i)[|NetworkKey(i)| - 1] == 'd'
  {
  }

  /** Both keys of an ip entry are lower case and longer than `apikey` and `command`. */
  lemma IpKeysAreLower(i: nat)
    ensures IsLower(IpKey(i)) && |IpKey(i)| > 7
    ensures IsLower(NetworkKey(i)) && |NetworkKey(i)| > 7
  {
    var n := NatToString(i);
    assert IsLower(n);
    IsLowerConcat("iptonetworklist[", n);
    IsLowerConcat("iptonetworklist[" + n, "].ip");
    IsLowerConcat("iptonetworklist[" + n, "].networkid");
  }

  /** Every name of the fixed calls is lower case and is neither `apikey` nor `command`. */
  lemma FieldNameIsLower(a: nat)
    requires a < |FieldNames|
    ensures IsLower(FieldNames[a]) && FieldNames[a] != "apikey" && FieldNames[a] != "command"
  {
    if a < 10 {
      FirstNamesAreLower(a);
    } else {
      LastNamesAreLower(a - 10);
    }
  }

  lemma FirstNamesAreLower(a: nat)
    requires a < 10
    ensures IsLower(FieldNames[a]) && FieldNames[a] != "apikey" && FieldNames[a] != "command"
  {
    assert FieldNames[..10] == ["serviceofferingid", "templateid", "zoneid", "account", "diskofferingid",
                                "displayname", "domainid", "group", "hostid", "hypervisor"];
    assert FieldNames[a] == FieldNames[..10][a];
  }

  lemma LastNamesAreLower(a: nat)
    requires a < 10
    ensures IsLower(FieldNames[a + 10]) && FieldNames[a + 10] != "apikey" && FieldNames[a + 10] != "command"
  {
    assert FieldNames[10..] == ["ipaddress", "keyboard", "keypair", "name", "networkids", "projectid",
                                "securitygroupids", "securitygroupnames", "userdata", "size"];
    assert FieldNames[a + 10] == FieldNames[10..][a];
  }

  /** The table of a single-server command meets LowerDistinct, so its signature is order-free. */
  lemma IdParamsLowerDistinct(id: string)
    ensures LowerDistinct(IdParams(id))
  {
    assert IsLower("id");
    LowerNamesAreDistinct(IdParams(id));
  }

  /** The table deployVirtualMachine sends meets LowerDistinct, so its signature is order-free. */
  lemma DeployParamsLowerDistinct(serviceOfferingId: Option<string>, templateId: Option<string>, zoneId: Option<string>,
                                  o: CreateServerOptions, ipOrder: seq<string>)
    requires forall k :: k in ipOrder ==> k in o.ipToNetworkList
    ensures LowerDistinct(DeployParams(serviceOfferingId, templateId, zoneId, o, ipOrder))
  {
    var p := DeployParams(serviceOfferingId, templateId, zoneId, o, ipOrder);
    forall k | k in p ensures IsLower(k) && k != "apikey" && k != "command" {
      DeployKeyIsLower(serviceOfferingId, templateId, zoneId, o, ipOrder, k);
    }
    LowerNamesAreDistinct(p);
  }

  lemma DeployKeyIsLower(serviceOfferingId: Option<string>, templateId: Option<string>, zoneId: Option<string>,
                         o: CreateServerOptions, ipOrder: seq<string>, k: string)
    requires forall x :: x in ipOrder ==> x in o.ipToNetworkList
    requires k in DeployParams(serviceOfferingId, templateId, zoneId, o, ipOrder)
    ensures IsLower(k) && k != "apikey" && k != "command"
  {
    var f := FixedParams(serviceOfferingId, templateId, zoneId, o);
    var ips := IpParamsFrom(ipOrder, o.ipToNetworkList, 0);
    PutAllKeys(PutAll(map[], f), ips, k);
    if k in PutAll(map[], f) {
      PutAllKeys(map[], f, k);
      var a :| 0 <= a < |f| && f[a].0 == k;
      FixedName(serviceOfferingId, templateId, zoneId, o, a);
      FieldNameIsLower(a);
    } else {
      var a :| 0 <= a < |ips| && ips[a].0 == k;
      IpParamsAt(ipOrder, o.ipToNetworkList, 0, a);
      IpKeysAreLower(a / 2);
    }
  }

  lemma FixedName(serviceOfferingId: Option<string>, templateId: Option<string>, zoneId: Option<string>,
                  o: CreateServerOptions, a: nat)
    requires a < 20
    ensures FixedParams(serviceOfferingId, templateId, zoneId, o)[a].0 == FieldNames[a]
  {
  }

  /** Every iteration order of the deployVirtualMachine table signs the same. */
  lemma DeploySignatureOrderFree(apiKey: string, secretKey: string, serviceOfferingId: Option<string>,
                                 templateId: Option<string>, zoneId: Option<string>, o: CreateServerOptions,
                                 ipOrder: seq<string>, order1: seq<string>, order2: seq<string>, hmac: Hmac)
    requires forall k :: k in ipOrder ==> k in o.ipToNetworkList
    requires var p := DeployParams(serviceOfferingId, templateId, zoneId, o, ipOrder);
      IsEnumeration(order1, p.Keys) && IsEnumeration(order2, p.Keys)
    ensures var p := DeployParams(serviceOfferingId, templateId, zoneId, o, ipOrder);
      Signature(apiKey, secretKey, DeployVirtualMachine, p, order1, hmac)
      == Signature(apiKey, secretKey, DeployVirtualMachine, p, order2, hmac)
  {
    DeployParamsLowerDistinct(serviceOfferingId, templateId, zoneId, o, ipOrder);
    SignatureOrderIndependent(apiKey, secretKey, DeployVirtualMachine, DeployParams(serviceOfferingId, templateId, zoneId, o, ipOrder),
                              order1, order2, hmac);
  }

  /** The keys of different entries differ, and an ip key is never a network key. */
  lemma IpKeysDistinct(a: nat, b: nat)
    ensures IpKey(a) == IpKey(b) ==> a == b
    ensures NetworkKey(a) == NetworkKey(b) ==> a == b
    ensures IpKey(a) != NetworkKey(b)
  {
    IpKeyShape(a);
    IpKeyShape(b);
    NatToStringInjective(a, b);
  }

  /** Call k of the ip loop from position i: the ip of entry i + k/2 for even k, its network id for odd k. */
  lemma {:induction false} IpParamsAt(order: seq<string>, ipToNetwork: map<string, string>, i: nat, k: nat)
    requires i <= |order| && forall x :: x in order ==> x in ipToNetwork
    requires k < 2 * (|order| - i)
    ensures i + k / 2 < |order|
    ensures IpParamsFrom(order, ipToNetwork, i)[k]
         == if k % 2 == 0 then (IpKey(i + k / 2), Some(order[i + k / 2]))
            else (NetworkKey(i + k / 2), Some(ipToNetwork[order[i + k / 2]]))
    decreases k
  {
    var head := [(IpKey(i), Some(order[i])), (NetworkKey(i), Some(ipToNetwork[order[i]]))];
    var rest := IpParamsFrom(order, ipToNetwork, i + 1);
    assert IpParamsFrom(order, ipToNetwork, i) == head + rest;
    if k >= 2 {
      IpParamsAt(order, ipToNetwork, i + 1, k - 2);
      assert (head + rest)[k] == rest[k - 2];
      assert (i + 1) + (k - 2) / 2 == i + k / 2 && (k - 2) % 2 == k % 2;
    }
  }

  /** Every key of the ip loop is longer than any fixed field name. */
  lemma IpParamLong(order: seq<string>, ipToNetwork: map<string, string>, k: nat)
    requires forall x :: x in order ==> x in ipToNetwork
    requires k < |IpParamsFrom(order, ipToNetwork, 0)|
    ensures |IpParamsFrom(order, ipToNetwork, 0)[k].0| >= 21
  {
    IpParamsAt(order, ipToNetwork, 0, k);
    IpKeyShape(k / 2);
  }

  /** No two calls of the ip loop name the same field. */
  lemma IpParamsDistinct(order: seq<string>, ipToNetwork: map<string, string>, a: nat, b: nat)
    requires forall x :: x in order ==> x in ipToNetwork
    requires a < |IpParamsFrom(order, ipToNetwork, 0)| && b < |IpParamsFrom(order, ipToNetwork, 0)| && a != b
    ensures IpParamsFrom(order, ipToNetwork, 0)[a].0 != IpParamsFrom(order, ipToNetwork, 0)[b].0
  {
    IpParamsAt(order, ipToNetwork, 0, a);
    IpParamsAt(order, ipToNetwork, 0, b);
    IpKeysDistinct(a / 2, b / 2);
    IpKeysDistinct(b / 2, a / 2);
  }

  /** Over a table without the field, call k of the ip loop decides it alone: the encoded value, or absent when blank. */
  lemma IpCallSent(p: map<string, string>, order: seq<string>, ipToNetwork: map<string, string>, k: nat,
                    name: string, value: string)
    requires forall x :: x in order ==> x in ipToNetwork
    requires k < |IpParamsFrom(order, ipToNetwork, 0)|
    requires IpParamsFrom(order, ipToNetwork, 0)[k] == (name, Some(value)) && name !in p
    ensures var r := PutAll(p, IpParamsFrom(order, ipToNetwork, 0));
      && (name in r <==> !IsBlank(value))
      && (name in r ==> r[name] == PercentEncode(Trim(value)))
  {
    var calls := IpParamsFrom(order, ipToNetwork, 0);
    forall i | 0 <= i < |calls| && i != k ensures calls[i].0 != calls[k].0 {
      IpParamsDistinct(order, ipToNetwork, i, k);
    }
    PutAllUnique(p, calls, k);
  }

  /** Entry j of the enumeration, reached from position i, gives calls 2(j - i) and 2(j - i) + 1 of the loop. */
  lemma {:induction false} IpParamsPair(order: seq<string>, ipToNetwork: map<string, string>, i: nat, j: nat)
    requires i <= j < |order| && forall x :: x in order ==> x in ipToNetwork
    ensures IpParamsFrom(order, ipToNetwork, i)[2 * (j - i)] == (IpKey(j), Some(order[j]))
    ensures IpParamsFrom(order, ipToNetwork, i)[2 * (j - i) + 1] == (NetworkKey(j), Some(ipToNetwork[order[j]]))
    decreases j - i
  {
    if i < j {
      IpParamsPair(order, ipToNetwork, i + 1, j);
      var calls := IpParamsFrom(order, ipToNetwork, i);
      assert calls[2..] == IpParamsFrom(order, ipToNetwork, i + 1);
      assert calls[2 * (j - i)] == calls[2..][2 * (j - (i + 1))];
      assert calls[2 * (j - i) + 1] == calls[2..][2 * (j - (i + 1)) + 1];
    }
  }

  /** Over a table holding neither key of entry j, the ip loop sends entry j's ip and network id, each unless blank. */
  lemma IpBlockSent(p: map<string, string>, order: seq<string>, ipToNetwork: map<string, string>, j: nat)
    requires forall x :: x in order ==> x in ipToNetwork
    requires j < |order| && IpKey(j) !in p && NetworkKey(j) !in p
    ensures var r := PutAll(p, IpParamsFrom(order, ipToNetwork, 0));
      && (IpKey(j) in r <==> !IsBlank(order[j]))
      && (IpKey(j) in r ==> r[IpKey(j)] == PercentEncode(Trim(order[j])))
      && (NetworkKey(j) in r <==> !IsBlank(ipToNetwork[order[j]]))
      && (NetworkKey(j) in r ==> r[NetworkKey(j)] == PercentEncode(Trim(ipToNetwork[order[j]])))
  {
    IpParamsPair(order, ipToNetwork, 0, j);
    IpCallSent(p, order, ipToNetwork, 2 * j, IpKey(j), order[j]);
    IpCallSent(p, order, ipToNetwork, 2 * j + 1, NetworkKey(j), ipToNetwork[order[j]]);
  }

  /** The fixed calls never produce a field name longer than 18 characters. */
  lemma FixedParamsShort(serviceOfferingId: Option<string>, templateId: Option<string>, zoneId: Option<string>,
                         o: CreateServerOptions, name: string)
    requires |name| > 18
    ensures name !in PutAll(map[], FixedParams(serviceOfferingId, templateId, zoneId, o))
  {
    FixedNames(serviceOfferingId, templateId, zoneId, o);
    PutAllAbsent(map[], FixedParams(serviceOfferingId, templateId, zoneId, o), name);
  }

  /**
   * Each fixed option is sent, encoded, exactly when it is non-blank. In
   * particular the size goes out under `securitygroupnames` as well as `size`.
   */
  lemma DeployFixedParam(serviceOfferingId: Option<string>, templateId: Option<string>, zoneId: Option<string>,
                         o: CreateServerOptions, ipOrder: seq<string>, j: nat)
    requires forall k :: k in ipOrder ==> k in o.ipToNetworkList
    requires j < 20
    ensures var (name, value) := FixedParams(serviceOfferingId, templateId, zoneId, o)[j];
      var sent := DeployParams(serviceOfferingId, templateId, zoneId, o, ipOrder);
      && (name in sent <==> !IsBlankOrNull(value))
      && (name in sent ==> sent[name] == PercentEncode(Trim(value.value)))
  {
    var f := FixedParams(serviceOfferingId, templateId, zoneId, o);
    FixedNames(serviceOfferingId, templateId, zoneId, o);
    var calls := IpParamsFrom(ipOrder, o.ipToNetworkList, 0);
    PutAllUnique(map[], f, j);
    assert |f[j].0| <= 18;
    forall k | 0 <= k < |calls| ensures calls[k].0 != f[j].0 {
      IpParamLong(ipOrder, o.ipToNetworkList, k);
    }
    PutAllAbsent(PutAll(map[], f), calls, f[j].0);
  }

  /** Two fixed fields given the same value are sent alike: both or neither, with the same encoded text. */
  lemma DeployTwinFields(serviceOfferingId: Option<string>, templateId: Option<string>, zoneId: Option<string>,
                         o: CreateServerOptions, ipOrder: seq<string>, i: nat, j: nat)
    requires forall k :: k in ipOrder ==> k in o.ipToNetworkList
    requires i < 20 && j < 20
    requires FixedParams(serviceOfferingId, templateId, zoneId, o)[i].1 == FixedParams(serviceOfferingId, templateId, zoneId, o)[j].1
    ensures var f := FixedParams(serviceOfferingId, templateId, zoneId, o);
      var sent := DeployParams(serviceOfferingId, templateId, zoneId, o, ipOrder);
      && (f[i].0 in sent <==> f[j].0 in sent)
      && (f[i].0 in sent ==> sent[f[i].0] == sent[f[j].0])
  {
    DeployFixedParam(serviceOfferingId, templateId, zoneId, o, ipOrder, i);
    DeployFixedParam(serviceOfferingId, templateId, zoneId, o, ipOrder, j);
  }

  /** The Name option and the Account option, when equal, go out alike under `name` and `account`. */
  lemma DeployNameLikeAccount(serviceOfferingId: Option<string>, templateId: Option<string>, zoneId: Option<string>,
                              o: CreateServerOptions, ipOrder: seq<string>)
    requires forall k :: k in ipOrder ==> k in o.ipToNetworkList
    requires o.name == o.account
    ensures var sent := DeployParams(serviceOfferingId, templateId, zoneId, o, ipOrder);
      && ("name" in sent <==> "account" in sent)
      && ("name" in sent ==> sent["name"] == sent["account"])
  {
    var f := FixedParams(serviceOfferingId, templateId, zoneId, o);
    assert f[3] == ("account", o.account) && f[13] == ("name", o.name);
    DeployTwinFields(serviceOfferingId, templateId, zoneId, o, ipOrder, 13, 3);
  }

  /** The `securitygroupnames` parameter carries the Size option, never the security group names. */
  lemma DeploySizeQuirk(serviceOfferingId: Option<string>, templateId: Option<string>, zoneId: Option<string>,
                        o: CreateServerOptions, ipOrder: seq<string>)
    requires forall k :: k in ipOrder ==> k in o.ipToNetworkList
    ensures var sent := DeployParams(serviceOfferingId, templateId, zoneId, o, ipOrder);
      && ("securitygroupnames" in sent <==> !IsBlankOrNull(o.size))
      && ("size" in sent <==> !IsBlankOrNull(o.size))
      && ("securitygroupnames" in sent ==> sent["securitygroupnames"] == sent["size"] == PercentEncode(Trim(o.size.value)))
    ensures forall names :: DeployParams(serviceOfferingId, templateId, zoneId, o.(securityGroupNames := names), ipOrder)
                         == DeployParams(serviceOfferingId, templateId, zoneId, o, ipOrder)
  {
    DeployFixedParam(serviceOfferingId, templateId, zoneId, o, ipOrder, 17);
    DeployFixedParam(serviceOfferingId, templateId, zoneId, o, ipOrder, 19);
  }

  /** Entry j of the ip map goes out as `iptonetworklist[j].ip` and `iptonetworklist[j].networkid`, each unless blank. */
  lemma DeployIpBlock(serviceOfferingId: Option<string>, templateId: Option<string>, zoneId: Option<string>,
                      o: CreateServerOptions, ipOrder: seq<string>, j: nat)
    requires forall k :: k in ipOrder ==> k in o.ipToNetworkList
    requires j < |ipOrder|
    ensures var sent := DeployParams(serviceOfferingId, templateId, zoneId, o, ipOrder);
      && (IpKey(j) in sent <==> !IsBlank(ipOrder[j]))
      && (IpKey(j) in sent ==> sent[IpKey(j)] == PercentEncode(Trim(ipOrder[j])))
      && (NetworkKey(j) in sent <==> !IsBlank(o.ipToNetworkList[ipOrder[j]]))
      && (NetworkKey(j) in sent ==> sent[NetworkKey(j)] == PercentEncode(Trim(o.ipToNetworkList[ipOrder[j]])))
  {
    IpKeyShape(j);
    FixedParamsShort(serviceOfferingId, templateId, zoneId, o, IpKey(j));
    FixedParamsShort(serviceOfferingId, templateId, zoneId, o, NetworkKey(j));
    IpBlockSent(PutAll(map[], FixedParams(serviceOfferingId, templateId, zoneId, o)), ipOrder, o.ipToNetworkList, j);
  }

  /** Every parameter sent is a fixed field or belongs to an entry of the ip map: the block has no gaps and nothing past its end. */
  lemma DeployParamNames(serviceOfferingId: Option<string>, templateId: Option<string>, zoneId: Option<string>,
                         o: CreateServerOptions, ipOrder: seq<string>, name: string)
    requires forall k :: k in ipOrder ==> k in o.ipToNetworkList
    requires name in DeployParams(serviceOfferingId, templateId, zoneId, o, ipOrder)
    ensures || (exists k :: 0 <= k < 20 && FixedParams(serviceOfferingId, templateId, zoneId, o)[k].0 == name)
            || (exists n :: 0 <= n < |ipOrder| && (name == IpKey(n) || name == NetworkKey(n)))
  {
    var f := FixedParams(serviceOfferingId, templateId, zoneId, o);
    var calls := IpParamsFrom(ipOrder, o.ipToNetworkList, 0);
    PutAllKeys(PutAll(map[], f), calls, name);
    if name in PutAll(map[], f) {
      PutAllKeys(map[], f, name);
    } else {
      var k :| 0 <= k < |calls| && calls[k].0 == name;
      IpParamsAt(ipOrder, o.ipToNetworkList, 0, k);
      assert name == IpKey(k / 2) || name == NetworkKey(k / 2);
    }
  }
}
