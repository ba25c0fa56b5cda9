/**
 * The property helpers of the connector: how a configured value is read
 * (blank counts as absent, surrounding whitespace is dropped), the endpoint
 * with one trailing slash removed, and the ip/network pair list.
 *
 * The controller's property lookup is a map from property name to value;
 * a name the map does not hold reads as null.
 */
module Utils {

  import opened Wrappers
  import opened Text

  /** The configured properties, by name. */
  type Properties = map<string, string>

  /** `getStringPropertyValueByName`: the value, or null when the property is not set. */
  function Property(props: Properties, name: string): Option<string> {
    if name in props then Some(props[name]) else None
  }

  /** The settings the connector reads. */
  datatype Setting =
    | ApiKey | SecretKey | EndPoint
    | ServiceOfferingId | ZoneId | TemplateId | NetworkIds | DiskOfferingId | Group
    | HostId | Hypervisor | KeyPair | SecurityGroupNames | SecurityGroupIds | Size | IpAddress | DomainId | Account | Name
    | Keyboard | ProjectId | IpToNetworkList

  /** The property name declared for each setting. */
  function Key(s: Setting): string {
    match s
    case ApiKey => "Api Key"
    case SecretKey => "Secret Key"
    case EndPoint => "Client End Point Url"
    case ServiceOfferingId => "Service Offering Id"
    case ZoneId => "Zone Id"
    case TemplateId => "Template Id"
    case NetworkIds => "Network Ids"
    case DiskOfferingId => "Disk Offering Id"
    case Group => "Group"
    case HostId => "Host Id"
    case Hypervisor => "Hypervisor"
    case KeyPair => "Key Pair"
    case SecurityGroupNames => "Security Group Names"
    case SecurityGroupIds => "Security Group Ids"
    case Size => "Size"
    case IpAddress => "Ip Address"
    case DomainId => "Domain Id"
    case Account => "Account"
    case Name => "Name"
    case Keyboard => "Keyboard"
    case ProjectId => "Project Id"
    case IpToNetworkList => "Ip To Network List"
  }

  /** No two settings share a property name. */
  lemma KeyInjective(s: Setting, t: Setting)
    ensures Key(s) == Key(t) ==> s == t
  {
  }

  /** getValue: null for a null or blank value, the trimmed value otherwise. */
  function GetValue(value: Option<string>): (r: Option<string>)
    ensures r.None? <==> IsBlankOrNull(value)
    ensures r.Some? ==> r.value == Trim(value.value) && r.value != [] && IsTrimmed(r.value)
  {
    if value.None? || IsBlank(value.value) then None else Some(Trim(value.value))
  }

  /** Normalising twice is normalising once. */
  lemma GetValueIdempotent(value: Option<string>)
    ensures GetValue(GetValue(value)) == GetValue(value)
  {
  }

  /** The property each getter reads: its own, except that getName reads the Account property. */
  function KeyRead(s: Setting): (r: string)
    ensures s != Name ==> r == Key(s)
    ensures s == Name ==> r == Key(Account)
  {
    if s == Name then Key(Account) else Key(s)
  }

  /** The getter of a setting: getValue of the property it reads. */
  function Get(props: Properties, s: Setting): Option<string> {
    GetValue(Property(props, KeyRead(s)))
  }

  /** Every getter but getName returns the normalised value of its own property. */
  lemma GetReadsOwnProperty(props: Properties, s: Setting)
    requires s != Name
    ensures Get(props, s).None? <==> Key(s) !in props || IsBlank(props[Key(s)])
    ensures Get(props, s).Some? ==> Get(props, s).value == Trim(props[Key(s)])
  {
  }

  /** getName returns the Account value and ignores the Name property altogether. */
  lemma GetNameReadsAccount(props: Properties, name: string)
    ensures Get(props, Name) == Get(props, Account)
    ensures Get(props[Key(Name) := name], Name) == Get(props, Name)
  {
    KeyInjective(Name, Account);
  }

  /** The endpoint rule on a normalised value: one trailing `/` removed; a null value raises a null pointer exception. */
  function StripSlash(url: Option<string>): (r: Result<string>)
    requires url.Some? ==> url.value != []
    ensures r.Failure? <==> url.None?
    ensures r.Failure? ==> r.error == NullPointerException
    ensures r.Success? ==>
      && (url.value[|url.value| - 1] == '/' ==> r.value + "/" == url.value)
      && (url.value[|url.value| - 1] != '/' ==> r.value == url.value)
  {
    if url.None? then Failure(NullPointerException)
    else
      var u := url.value;
      if u[|u| - 1] == '/' then
        assert u[..|u| - 1] + "/" == u;
        Success(u[..|u| - 1])
      else Success(u)
  }

  /** getEndPoint: the normalised endpoint with one trailing `/` removed; an unset endpoint raises a null pointer exception. */
  function GetEndPoint(props: Properties): (r: Result<string>)
    ensures r.Failure? <==> Get(props, EndPoint).None?
    ensures r.Failure? ==> r.error == NullPointerException
    ensures r.Success? ==>
      var url := Get(props, EndPoint).value;
      && (url[|url| - 1] == '/' ==> r.value + "/" == url)
      && (url[|url| - 1] != '/' ==> r.value == url)
  {
    StripSlash(Get(props, EndPoint))
  }

  /** Only one slash goes: an endpoint ending in `//` keeps the other. */
  lemma EndPointStripsOneSlash(props: Properties)
    requires var url := Get(props, EndPoint);
      url.Some? && |url.value| >= 2 && url.value[|url.value| - 2..] == "//"
    ensures GetEndPoint(props).Success?
    ensures var e := GetEndPoint(props).value; e != [] && e[|e| - 1] == '/'
  {
    var url := Get(props, EndPoint).value;
    assert url[|url| - 2] == '/';
  }

  // ---------------------------------------------------------------------------
  // The ip to network list

  const PairsError := "Error, Ip to Network List must consist of ip and networkid value pairs"

  /** A separator of the list: `,` or `;`. */
  predicate IsSeparator(c: char) {
    c == ',' || c == ';'
  }

  /** How many separators s holds. */
  function SeparatorCount(s: string): nat {
    if s == [] then 0 else (if IsSeparator(s[0]) then 1 else 0) + SeparatorCount(s[1..])
  }

  /** Every piece between separators, empty ones included: one more piece than separators. */
  function Pieces(s: string): (r: seq<string>)
    ensures |r| == SeparatorCount(s) + 1
    ensures forall i, j :: 0 <= i < |r| && 0 <= j < |r[i]| ==> !IsSeparator(r[i][j])
  {
    if s == [] then [""]
    else
      var rest := Pieces(s[1..]);
      if IsSeparator(s[0]) then [""] + rest
      else
        var head := [s[0]] + rest[0];
        assert forall j :: 0 < j < |head| ==> head[j] == rest[0][j - 1];
        [head] + rest[1..]
  }

  /** The pieces written back with their separators give the string again. */
  function Rejoin(pieces: seq<string>, seps: string): string
    requires |pieces| == |seps| + 1
  {
    if seps == [] then pieces[0] else pieces[0] + [seps[0]] + Rejoin(pieces[1..], seps[1..])
  }

  /** The separators of s, in order. */
  function Separators(s: string): (r: string)
    ensures |r| == SeparatorCount(s)
  {
    if s == [] then [] else (if IsSeparator(s[0]) then [s[0]] else []) + Separators(s[1..])
  }

  /** Splitting loses nothing: the pieces and the separators rebuild the string. */
  lemma {:induction false} PiecesRejoin(s: string)
    ensures Rejoin(Pieces(s), Separators(s)) == s
    decreases |s|
  {
    if s != [] {
      PiecesRejoin(s[1..]);
      var rest := Pieces(s[1..]);
      var seps := Separators(s[1..]);
      assert s == [s[0]] + s[1..];
      if IsSeparator(s[0]) {
        assert Pieces(s) == [""] + rest;
        assert Separators(s) == [s[0]] + seps;
      } else {
        var head := [s[0]] + rest[0];
        assert Pieces(s) == [head] + rest[1..];
        assert Separators(s) == seps;
        if seps != [] {
          assert Rejoin([head] + rest[1..], seps) == head + [seps[0]] + Rejoin(rest[1..], seps[1..]);
          assert Rejoin(rest, seps) == rest[0] + [seps[0]] + Rejoin(rest[1..], seps[1..]);
        }
      }
    }
  }

  /** Drop the empty pieces at the end, as String.split does. */
  function DropTrailingEmpty(pieces: seq<string>): (r: seq<string>)
    ensures |r| <= |pieces| && r == pieces[..|r|]
    ensures r == [] || r[|r| - 1] != []
    ensures forall i :: |r| <= i < |pieces| ==> pieces[i] == []
  {
    if pieces == [] || pieces[|pieces| - 1] != [] then pieces else DropTrailingEmpty(pieces[..|pieces| - 1])
  }

  /** `value.split(",|;")`. */
  function Split(s: string): seq<string> {
    DropTrailingEmpty(Pieces(s))
  }

  /** The map the loop builds from a list of even length: each even-indexed piece mapped to the next, later pairs overwriting. */
  function PairMap(list: seq<string>): map<string, string>
    requires |list| % 2 == 0
    decreases |list|
  {
    if list == [] then map[] else PairMap(list[..|list| - 2])[list[|list| - 2] := list[|list| - 1]]
  }

  /** getIpToNetworkList as a value: the empty map when unset or blank, an error for an odd number of pieces. */
  function IpToNetwork(props: Properties): Result<map<string, string>> {
    match Get(props, IpToNetworkList)
    case None => Success(map[])
    case Some(value) =>
      var list := Split(value);
      if |list| % 2 != 0 then Failure(PairsError) else Success(PairMap(list))
  }

  /** getIpToNetworkList: the pairs loop over the split list. */
  method GetIpToNetworkList(props: Properties) returns (r: Result<map<string, string>>)
    ensures r == IpToNetwork(props)
    ensures Get(props, IpToNetworkList).None? ==> r == Success(map[])
    ensures Get(props, IpToNetworkList).Some? && |Split(Get(props, IpToNetworkList).value)| % 2 != 0 ==> r == Failure(PairsError)
    ensures Get(props, IpToNetworkList).Some? && |Split(Get(props, IpToNetworkList).value)| % 2 == 0 ==>
      r == Success(PairMap(Split(Get(props, IpToNetworkList).value)))
  {
    var value := Get(props, IpToNetworkList);
    if value.None? {
      return Success(map[]);
    }
    var list := Split(value.value);
    if |list| % 2 != 0 {
      return Failure(PairsError);
    }
    var pairs := PutPairs(list);
    return Success(pairs);
  }

  /** The while loop of getIpToNetworkList: `put(list[i], list[++i])`, then `i++`. */
  method PutPairs(list: seq<string>) returns (pairs: map<string, string>)
    requires |list| % 2 == 0
    ensures pairs == PairMap(list)
  {
    pairs := map[];
    var i := 0;
    while i < |list|
      invariant 0 <= i <= |list| && i % 2 == 0
      invariant pairs == PairMap(list[..i])
    {
      var ip := list[i];
      i := i + 1;
      pairs := pairs[ip := list[i]];
      i := i + 1;
      PairMapStep(list, i);
    }
    assert list[..i] == list;
  }

  lemma PairMapStep(list: seq<string>, i: nat)
    requires 2 <= i <= |list| && i % 2 == 0
    ensures PairMap(list[..i]) == PairMap(list[..i - 2])[list[i - 2] := list[i - 1]]
  {
    var pre := list[..i];
    assert pre[..i - 2] == list[..i - 2] && pre[i - 2] == list[i - 2] && pre[i - 1] == list[i - 1];
  }

  /** The keys of the map are exactly the even-indexed pieces. */
  lemma {:induction false} PairMapKeys(list: seq<string>, k: string)
    requires |list| % 2 == 0
    ensures k in PairMap(list) <==> exists j :: 0 <= j < |list| && j % 2 == 0 && list[j] == k
    decreases |list|
  {
    if list != [] {
      var front := list[..|list| - 2];
      PairMapKeys(front, k);
      if exists j :: 0 <= j < |front| && j % 2 == 0 && front[j] == k {
        var j :| 0 <= j < |front| && j % 2 == 0 && front[j] == k;
        assert list[j] == k;
      }
      if exists j :: 0 <= j < |list| && j % 2 == 0 && list[j] == k {
        var j :| 0 <= j < |list| && j % 2 == 0 && list[j] == k;
        if j < |list| - 2 {
          assert front[j] == k;
        }
      }
    }
  }

  /** A key maps to the piece after its last occurrence: later pairs win. */
  lemma {:induction false} PairMapLaterWins(list: seq<string>, j: nat)
    requires |list| % 2 == 0 && j % 2 == 0 && j + 1 < |list|
    requires forall n :: j < n < |list| && n % 2 == 0 ==> list[n] != list[j]
    ensures list[j] in PairMap(list) && PairMap(list)[list[j]] == list[j + 1]
    decreases |list|
  {
    if j < |list| - 2 {
      var front := list[..|list| - 2];
      assert list[|list| - 2] != list[j];
      PairMapLaterWins(front, j);
    }
  }

  /** Duplicate ips collapse, so the map holds at most one entry per pair. */
  lemma {:induction false} PairMapSize(list: seq<string>)
    requires |list| % 2 == 0
    ensures |PairMap(list)| <= |list| / 2
    decreases |list|
  {
    if list != [] {
      var front := list[..|list| - 2];
      PairMapSize(front);
      var m := PairMap(front);
      var k := list[|list| - 2];
      if k in m {
        assert m[k := list[|list| - 1]].Keys == m.Keys;
      } else {
        assert m[k := list[|list| - 1]].Keys == m.Keys + {k};
      }
    }
  }

  /** A value made only of separators splits into nothing, so it yields the empty map rather than an error. */
  lemma OnlySeparatorsGiveEmptyList()
    ensures Split(",;") == []
  {
    assert Pieces(";") == ["", ""];
    assert Pieces(",;") == ["", "", ""];
  }
}
