/**
 * ClientLocator: the process-wide table of authenticated clients, keyed by
 * the credentials and endpoint written one after the other. Both packages of
 * the connector hold a locator with this same logic, each its own singleton
 * with its own table.
 *
 * The remote and the parser are fixed for the life of the locator, so a
 * client that authenticated when it was stored still does.
 */
module Registry {

  import opened Wrappers
  import opened Text
  import opened Xml
  import opened Signer
  import opened CloudStackClient
  import opened Utils

  const InvalidCredentials := "Invalid authentication credentials."

  /** `secretkey + apiKey + endPoint`: no separator, and a null part reads "null". */
  function Identifier(secretKey: Option<string>, apiKey: Option<string>, endPoint: Option<string>): string {
    JavaString(secretKey) + JavaString(apiKey) + JavaString(endPoint)
  }

  /** The key a client is filed under. */
  function KeyOf(c: Client): string {
    Identifier(c.secretKey, c.apiKey, c.accessUrl)
  }

  /** Different credentials can share a key: the table then hands out the first client stored. */
  lemma IdentifierCollides(endPoint: Option<string>)
    ensures Identifier(Some("ab"), Some("c"), endPoint) == Identifier(Some("a"), Some("bc"), endPoint)
  {
    assert "ab" + "c" == "a" + "bc";
  }

  /** Every stored client sits under its own key and passed authenticate. */
  ghost predicate ValidTable(clients: map<string, Client>, remote: Remote, parse: Parser) {
    forall id :: id in clients ==> KeyOf(clients[id]) == id && Authenticate(clients[id], remote, parse)
  }

  /** getClient(secretkey, apiKey, endPoint) on a table: the client returned and the table afterwards. */
  function Locate(clients: map<string, Client>, secretKey: Option<string>, apiKey: Option<string>, endPoint: Option<string>,
                  remote: Remote, parse: Parser): (r: (Result<Client>, map<string, Client>))
    ensures var id := Identifier(secretKey, apiKey, endPoint);
      && (r.0.Failure? ==> r.1 == clients && r.0.error == InvalidCredentials)
      && (id in clients ==> r == (Success(clients[id]), clients))
      && (r.0.Success? ==> id in r.1 && r.1[id] == r.0.value)
      && r.1.Keys <= clients.Keys + {id}
      && (forall other :: other in clients && other != id ==> other in r.1 && r.1[other] == clients[other])
  {
    var id := Identifier(secretKey, apiKey, endPoint);
    if id in clients then (Success(clients[id]), clients)
    else
      var client := Client(apiKey, secretKey, endPoint);
      if !Authenticate(client, remote, parse) then (Failure(InvalidCredentials), clients)
      else (Success(client), clients[id := client])
  }

  /** A new key authenticates the client built from exactly those credentials, and stores it only on success. */
  lemma LocateNew(clients: map<string, Client>, secretKey: Option<string>, apiKey: Option<string>, endPoint: Option<string>,
                  remote: Remote, parse: Parser)
    requires Identifier(secretKey, apiKey, endPoint) !in clients
    ensures var r := Locate(clients, secretKey, apiKey, endPoint, remote, parse);
      var client := Client(apiKey, secretKey, endPoint);
      && (r.0.Success? <==> Authenticate(client, remote, parse))
      && (r.0.Success? ==> r == (Success(client), clients[Identifier(secretKey, apiKey, endPoint) := client]))
  {
  }

  /** The table keeps its invariant, and whatever is handed out passed authenticate. */
  lemma LocateKeepsValid(clients: map<string, Client>, secretKey: Option<string>, apiKey: Option<string>, endPoint: Option<string>,
                         remote: Remote, parse: Parser)
    requires ValidTable(clients, remote, parse)
    ensures var r := Locate(clients, secretKey, apiKey, endPoint, remote, parse);
      && ValidTable(r.1, remote, parse)
      && (r.0.Success? ==> Authenticate(r.0.value, remote, parse) && KeyOf(r.0.value) == Identifier(secretKey, apiKey, endPoint))
  {
    var id := Identifier(secretKey, apiKey, endPoint);
    if id !in clients {
      var client := Client(apiKey, secretKey, endPoint);
      assert KeyOf(client) == id;
      if Authenticate(client, remote, parse) {
        var t := clients[id := client];
        forall k | k in t
          ensures KeyOf(t[k]) == k && Authenticate(t[k], remote, parse)
        {
        }
      }
    }
  }

  /** Asking again gives the same client and leaves the table as the first call left it. */
  lemma LocateTwice(clients: map<string, Client>, secretKey: Option<string>, apiKey: Option<string>, endPoint: Option<string>,
                    remote: Remote, parse: Parser)
    requires Locate(clients, secretKey, apiKey, endPoint, remote, parse).0.Success?
    ensures var first := Locate(clients, secretKey, apiKey, endPoint, remote, parse);
      Locate(first.1, secretKey, apiKey, endPoint, remote, parse) == first
  {
  }

  /** After ("ab", "c") is stored, asking for ("a", "bc") on the same endpoint returns the ("ab", "c") client. */
  lemma CollidingCredentialsShareClient(clients: map<string, Client>, endPoint: Option<string>,
                                        remote: Remote, parse: Parser)
    requires Locate(clients, Some("ab"), Some("c"), endPoint, remote, parse).0.Success?
    requires Identifier(Some("ab"), Some("c"), endPoint) !in clients
    ensures var first := Locate(clients, Some("ab"), Some("c"), endPoint, remote, parse);
      var second := Locate(first.1, Some("a"), Some("bc"), endPoint, remote, parse);
      second.0 == Success(Client(Some("c"), Some("ab"), endPoint))
  {
    IdentifierCollides(endPoint);
  }

  /** getClient(props): the api key, the secret key and the endpoint read through Utils, passed as (secret, api, endpoint). */
  function LocateFromProps(clients: map<string, Client>, props: Properties, remote: Remote, parse: Parser)
    : (r: (Result<Client>, map<string, Client>))
    ensures GetEndPoint(props).Failure? ==> r == (Failure(NullPointerException), clients)
    ensures GetEndPoint(props).Success? ==>
      r == Locate(clients, Get(props, SecretKey), Get(props, ApiKey), Some(GetEndPoint(props).value), remote, parse)
  {
    var apiKey := Get(props, ApiKey);
    var secretKey := Get(props, SecretKey);
    match GetEndPoint(props)
    case Failure(e) => (Failure(e), clients)
    case Success(endPoint) => Locate(clients, secretKey, apiKey, Some(endPoint), remote, parse)
  }

  /** A client built from the properties carries the api key as api key and the secret key as secret key. */
  lemma FromPropsKeepsRoles(clients: map<string, Client>, props: Properties, remote: Remote, parse: Parser)
    requires GetEndPoint(props).Success?
    requires Identifier(Get(props, SecretKey), Get(props, ApiKey), Some(GetEndPoint(props).value)) !in clients
    requires LocateFromProps(clients, props, remote, parse).0.Success?
    ensures var c := LocateFromProps(clients, props, remote, parse).0.value;
      c.apiKey == Get(props, ApiKey) && c.secretKey == Get(props, SecretKey) && c.accessUrl == Some(GetEndPoint(props).value)
  {
  }

  class ClientLocator {
    /** cloudStackClients. */
    var clients: map<string, Client>
    const remote: Remote
    const parse: Parser

    ghost predicate Valid()
      reads this
    {
      ValidTable(clients, remote, parse)
    }

    constructor (remote: Remote, parse: Parser)
      ensures Valid() && clients == map[]
      ensures this.remote == remote && this.parse == parse
    {
      clients := map[];
      this.remote := remote;
      this.parse := parse;
    }

    /** getClient(secretkey, apiKey, endPoint). */
    method GetClient(secretKey: Option<string>, apiKey: Option<string>, endPoint: Option<string>) returns (r: Result<Client>)
      requires Valid()
      modifies this
      ensures Valid()
      ensures (r, clients) == Locate(old(clients), secretKey, apiKey, endPoint, remote, parse)
      ensures r.Success? ==> Authenticate(r.value, remote, parse)
    {
      LocateKeepsValid(clients, secretKey, apiKey, endPoint, remote, parse);
      var identifier := Identifier(secretKey, apiKey, endPoint);
      if identifier in clients {
        return Success(clients[identifier]);
      }
      var client := Client(apiKey, secretKey, endPoint);
      if !Authenticate(client, remote, parse) {
        return Failure(InvalidCredentials);
      }
      clients := clients[identifier := client];
      return Success(client);
    }

    /** getClient(props, controllerServices). */
    method GetClientFromProps(props: Properties) returns (r: Result<Client>)
      requires Valid()
      modifies this
      ensures Valid()
      ensures (r, clients) == LocateFromProps(old(clients), props, remote, parse)
      ensures r.Success? ==> Authenticate(r.value, remote, parse)
    {
      var apiKey := Get(props, ApiKey);
      var secretKey := Get(props, SecretKey);
      var endPoint := GetEndPoint(props);
      if endPoint.Failure? {
        return Failure(endPoint.error);
      }
      r := GetClient(secretKey, apiKey, Some(endPoint.value));
    }
  }
}
