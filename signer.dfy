/**
 * CloudStackApiClient: the parameter table of one API request, the
 * signature base string and the signed request URL.
 *
 * The table is a HashMap in the source; the order in which its entries are
 * visited is not specified, so URL generation takes that order as an explicit
 * enumeration of the keys. HMAC-SHA1 with Base64 is an oracle (Hmac).
 */
module Signer {

  import opened Wrappers
  import opened Text
  import opened Ordering
  import opened UrlEncoding

  /** The logical content of one signed API request: what the remote endpoint receives. */
  datatype ApiCall = ApiCall(apiUrl: string, apiKey: string, secretKey: string, command: string, params: map<string, string>)

  /** One HTTP GET round trip: the response body (which may be null) or the transport failure. */
  type Remote = ApiCall -> Result<Option<string>>

  /** HMAC-SHA1 (RFC 2104) of the data under the key, Base64-encoded (RFC 4648 section 4) and trimmed. */
  type Hmac = (string, string) -> string

  /** Every stored value is non-empty and already URL-encoded. */
  predicate WellFormedParams(params: map<string, string>) {
    forall f :: f in params ==> params[f] != [] && IsEncoded(params[f])
  }

  /** addParam on the table. */
  function Put(params: map<string, string>, field: string, value: Option<string>): map<string, string> {
    if IsBlankOrNull(value) then params else params[field := EncodeUrl(value).value]
  }

  /** A null or blank value leaves the table alone; otherwise the encoded value replaces any earlier one. */
  lemma PutMeaning(params: map<string, string>, field: string, value: Option<string>)
    ensures IsBlankOrNull(value) ==> Put(params, field, value) == params
    ensures !IsBlankOrNull(value) ==> Put(params, field, value) == params[field := PercentEncode(Trim(value.value))]
    ensures !IsBlankOrNull(value) ==> Put(params, field, value)[field] != []
    ensures WellFormedParams(params) ==> WellFormedParams(Put(params, field, value))
  {
    if !IsBlankOrNull(value) {
      PutEncoded(params, field, value);
      if WellFormedParams(params) {
        PutKeepsWellFormed(params, field, value);
      }
    }
  }

  lemma PutEncoded(params: map<string, string>, field: string, value: Option<string>)
    requires !IsBlankOrNull(value)
    ensures Put(params, field, value) == params[field := PercentEncode(Trim(value.value))]
    ensures PercentEncode(Trim(value.value)) != [] && IsEncoded(PercentEncode(Trim(value.value)))
  {
    var encoded := EncodeUrl(value).value;
    assert encoded != [] && IsEncoded(encoded);
  }

  lemma PutKeepsWellFormed(params: map<string, string>, field: string, value: Option<string>)
    requires !IsBlankOrNull(value) && WellFormedParams(params)
    ensures WellFormedParams(Put(params, field, value))
  {
    PutEncoded(params, field, value);
    var p := Put(params, field, value);
    forall f | f in p ensures p[f] != [] && IsEncoded(p[f]) {
      if f != field {
        assert p[f] == params[f];
      }
    }
  }

  /** `order` visits every key of the table exactly once: an iteration order of the HashMap. */
  predicate IsEnumeration(order: seq<string>, keys: set<string>) {
    && (forall i, j :: 0 <= i < j < |order| ==> order[i] != order[j])
    && (forall k :: k in keys ==> k in order)
    && (forall k :: k in order ==> k in keys)
  }

  /** `&name=value` for each parameter visited, name encoded, value as stored (original case). */
  function QueryAlong(params: map<string, string>, order: seq<string>): string
    requires forall k :: k in order ==> k in params
  {
    if order == [] then ""
    else
      var k := order[|order| - 1];
      QueryAlong(params, order[..|order| - 1]) + "&" + EncodeUrl(Some(k)).value + "=" + params[k]
  }

  /** The field list before sorting: `apikey`, `command`, then each visited name lower-cased. */
  function FieldsAlong(order: seq<string>): (r: seq<string>)
    ensures |r| == |order| + 2 && r[0] == "apikey" && r[1] == "command"
    ensures forall i :: 0 <= i < |order| ==> r[i + 2] == ToLower(order[i])
  {
    if order == [] then ["apikey", "command"] else FieldsAlong(order[..|order| - 1]) + [ToLower(order[|order| - 1])]
  }

  /** The lower-cased table `paramsLowerCase` after visiting `order`: a later put on the same name wins. */
  function TableAlong(apiKey: string, command: string, params: map<string, string>, order: seq<string>): map<string, string>
    requires forall k :: k in order ==> k in params
  {
    if order == [] then map["apikey" := ToLower(apiKey), "command" := ToLower(command)]
    else
      var k := order[|order| - 1];
      TableAlong(apiKey, command, params, order[..|order| - 1])[ToLower(k) := ToLower(params[k])]
  }

  /** `map.get(name)` appended to a StringBuilder: a missing entry is written as "null". */
  function Lookup(table: map<string, string>, name: string): string {
    if name in table then table[name] else "null"
  }

  /** `name=value` pairs joined by `&`. */
  function JoinFields(fields: seq<string>, table: map<string, string>): string {
    if fields == [] then ""
    else if |fields| == 1 then fields[0] + "=" + Lookup(table, fields[0])
    else
      var f := fields[|fields| - 1];
      JoinFields(fields[..|fields| - 1], table) + "&" + f + "=" + Lookup(table, f)
  }

  /** The signature base string before the final lower-casing: the sorted fields with their lower-cased values. */
  function SignatureBase(apiKey: string, command: string, params: map<string, string>, order: seq<string>): string
    requires forall k :: k in order ==> k in params
  {
    JoinFields(Sort(FieldsAlong(order)), TableAlong(apiKey, command, params, order))
  }

  /** The signature: HMAC of the lower-cased base string under the secret key. */
  function Signature(apiKey: string, secretKey: string, command: string,
                     params: map<string, string>, order: seq<string>, hmac: Hmac): string
    requires forall k :: k in order ==> k in params
  {
    hmac(ToLower(SignatureBase(apiKey, command, params, order)), secretKey)
  }

  /** The request URL generateRequestUrl returns. */
  function RequestUrl(apiUrl: string, apiKey: string, secretKey: string, command: string,
                      params: map<string, string>, order: seq<string>, hmac: Hmac): string
    requires forall k :: k in order ==> k in params
  {
    apiUrl + "apiKey=" + apiKey + "&command=" + command + QueryAlong(params, order)
      + "&signature=" + EncodeUrl(Some(Signature(apiKey, secretKey, command, params, order, hmac))).value
  }

  /** The message of the SignatureException calculateRFC2104HMAC raises when the key is null. */
  const HmacFailure := "Failed to generate HMAC : null"

  /** The message when the key has no bytes: SecretKeySpec refuses an empty key with "Empty key". */
  const EmptyKeyFailure := "Failed to generate HMAC : Empty key"

  /** The URL can be signed: an api key to lower-case and a secret key with at least one byte. */
  predicate CanSign(apiKey: Option<string>, secretKey: Option<string>) {
    apiKey.Some? && secretKey.Some? && secretKey.value != []
  }

  /**
   * execute(): the URL cannot be generated without an api key (toLowerCase on
   * null) and a non-empty secret key (the HMAC); the `finally` block then
   * dereferences the GetMethod that was never created, so the call fails with a
   * null pointer exception. Otherwise one round trip through the remote oracle.
   */
  function Send(apiUrl: string, apiKey: Option<string>, secretKey: Option<string>, command: string,
                params: map<string, string>, remote: Remote): (r: Result<Option<string>>)
    ensures !CanSign(apiKey, secretKey) ==> r == Failure(NullPointerException)
    ensures CanSign(apiKey, secretKey) ==> r == remote(ApiCall(apiUrl, apiKey.value, secretKey.value, command, params))
  {
    if !CanSign(apiKey, secretKey) then Failure(NullPointerException)
    else remote(ApiCall(apiUrl, apiKey.value, secretKey.value, command, params))
  }

  /** CloudStackApiClient: one command, its credentials and its parameter table. */
  class ApiRequest {
    var params: map<string, string>
    const command: string
    const apiKey: Option<string>
    const secretKey: Option<string>
    const apiUrl: string

    ghost predicate Valid()
      reads this
    {
      WellFormedParams(params)
    }

    constructor (command: string, apiKey: Option<string>, secretKey: Option<string>, apiUrl: string)
      ensures Valid() && params == map[]
      ensures this.command == command && this.apiKey == apiKey
      ensures this.secretKey == secretKey && this.apiUrl == apiUrl
    {
      this.command := command;
      this.apiKey := apiKey;
      this.secretKey := secretKey;
      this.apiUrl := apiUrl;
      params := map[];
    }

    method AddParam(field: string, value: Option<string>)
      requires Valid()
      modifies this
      ensures Valid()
      ensures params == Put(old(params), field, value)
    {
      PutMeaning(params, field, value);
      if value.Some? && |Trim(value.value)| != 0 {
        params := params[field := EncodeUrl(value).value];
      }
    }

    /** execute(): one round trip, or the failure to build the URL. */
    method Execute(remote: Remote) returns (r: Result<Option<string>>)
      ensures r == Send(apiUrl, apiKey, secretKey, command, params, remote)
    {
      if apiKey.None? || secretKey.None? || secretKey.value == [] {
        r := Failure(NullPointerException);
      } else {
        r := remote(ApiCall(apiUrl, apiKey.value, secretKey.value, command, params));
      }
    }

    /** generateRequestUrl, visiting the table in the given order. */
    method GenerateRequestUrl(order: seq<string>, hmac: Hmac) returns (r: Result<string>)
      requires IsEnumeration(order, params.Keys)
      ensures apiKey.None? ==> r == Failure(NullPointerException)
      ensures apiKey.Some? && secretKey.None? ==> r == Failure(HmacFailure)
      ensures apiKey.Some? && secretKey == Some([]) ==> r == Failure(EmptyKeyFailure)
      ensures CanSign(apiKey, secretKey) ==>
        r == Success(RequestUrl(apiUrl, apiKey.value, secretKey.value, command, params, order, hmac))
    {
      if apiKey.None? {
        return Failure(NullPointerException);
      }
      var key := apiKey.value;
      var query, table, fields := VisitParams(key, command, params, order);
      var signatureData := JoinSorted(Sort(fields), table);
      assert signatureData == SignatureBase(key, command, params, order);
      if secretKey.None? {
        return Failure(HmacFailure);
      }
      if secretKey.value == [] {
        return Failure(EmptyKeyFailure);
      }
      var signature := hmac(ToLower(signatureData), secretKey.value);
      var url := apiUrl + "apiKey=" + key + "&command=" + command + query + "&signature=" + EncodeUrl(Some(signature)).value;
      return Success(url);
    }
  }

  /** The three accumulators of the first loop after visiting the first `i` names of `order`. */
  predicate Visited(apiKey: string, command: string, params: map<string, string>, order: seq<string>, i: nat,
                    query: string, table: map<string, string>, fields: seq<string>)
    requires i <= |order| && forall k :: k in order ==> k in params
  {
    && query == QueryAlong(params, order[..i])
    && table == TableAlong(apiKey, command, params, order[..i])
    && fields == FieldsAlong(order[..i])
  }

  /** The first loop of generateRequestUrl: the query string, the lower-cased table and the unsorted field list. */
  method VisitParams(apiKey: string, command: string, params: map<string, string>, order: seq<string>)
    returns (query: string, table: map<string, string>, fields: seq<string>)
    requires forall k :: k in order ==> k in params
    ensures query == QueryAlong(params, order)
    ensures table == TableAlong(apiKey, command, params, order)
    ensures fields == FieldsAlong(order)
  {
    query := "";
    table := map["apikey" := ToLower(apiKey), "command" := ToLower(command)];
    fields := ["apikey", "command"];
    var i := 0;
    while i < |order|
      invariant 0 <= i <= |order|
      invariant Visited(apiKey, command, params, order, i, query, table, fields)
    {
      var field := order[i];
      var value := params[field];
      var query', table', fields' := query + "&" + EncodeUrl(Some(field)).value + "=" + value,
        table[ToLower(field) := ToLower(value)], fields + [ToLower(field)];
      VisitStep(apiKey, command, params, order, i, query, table, fields);
      query, table, fields := query', table', fields';
      i := i + 1;
    }
    assert order[..|order|] == order;
  }

  /** Visiting one more parameter extends the query, the table and the field list by that parameter. */
  lemma VisitStep(apiKey: string, command: string, params: map<string, string>, order: seq<string>, i: nat,
                  query: string, table: map<string, string>, fields: seq<string>)
    requires i < |order| && forall k :: k in order ==> k in params
    requires Visited(apiKey, command, params, order, i, query, table, fields)
    ensures var k := order[i];
      Visited(apiKey, command, params, order, i + 1,
              query + "&" + EncodeUrl(Some(k)).value + "=" + params[k],
              table[ToLower(k) := ToLower(params[k])], fields + [ToLower(k)])
  {
    assert order[..i + 1][..i] == order[..i];
  }

  /** The second loop of generateRequestUrl: `&` goes before every pair but the first. */
  method JoinSorted(fields: seq<string>, table: map<string, string>) returns (data: string)
    ensures data == JoinFields(fields, table)
  {
    data := "";
    var j := 0;
    while j < |fields|
      invariant 0 <= j <= |fields|
      invariant data == JoinFields(fields[..j], table)
      invariant j > 0 ==> |data| > 0
    {
      assert fields[..j + 1][..j] == fields[..j] && fields[..j + 1][j] == fields[j];
      if |data| != 0 {
        data := data + "&";
      }
      data := data + fields[j] + "=" + Lookup(table, fields[j]);
      j := j + 1;
    }
    assert fields[..|fields|] == fields;
  }

  // ---------------------------------------------------------------------------
  // The signature base string is already lower case

  lemma {:induction false} JoinFieldsIsLower(fields: seq<string>, table: map<string, string>)
    requires forall i :: 0 <= i < |fields| ==> IsLower(fields[i])
    requires forall x :: x in table ==> IsLower(table[x])
    ensures IsLower(JoinFields(fields, table))
    decreases |fields|
  {
    assert IsLower("=") && IsLower("&") && IsLower("null");
    if |fields| == 1 {
      IsLowerConcat(fields[0], "=");
      IsLowerConcat(fields[0] + "=", Lookup(table, fields[0]));
    } else if |fields| > 1 {
      var init := fields[..|fields| - 1];
      var f := fields[|fields| - 1];
      JoinFieldsIsLower(init, table);
      var j := JoinFields(init, table);
      IsLowerConcat(j, "&");
      IsLowerConcat(j + "&", f);
      IsLowerConcat(j + "&" + f, "=");
      IsLowerConcat(j + "&" + f + "=", Lookup(table, f));
    }
  }

  lemma {:induction false} TableAlongIsLower(apiKey: string, command: string, params: map<string, string>, order: seq<string>)
    requires forall k :: k in order ==> k in params
    ensures forall x :: x in TableAlong(apiKey, command, params, order) ==> IsLower(TableAlong(apiKey, command, params, order)[x])
    decreases |order|
  {
    if order == [] {
      ToLowerIsLower(apiKey);
      ToLowerIsLower(command);
    } else {
      TableAlongIsLower(apiKey, command, params, order[..|order| - 1]);
      ToLowerIsLower(params[order[|order| - 1]]);
    }
  }

  lemma FieldsAlongIsLower(order: seq<string>)
    ensures forall i :: 0 <= i < |FieldsAlong(order)| ==> IsLower(FieldsAlong(order)[i])
  {
    var f := FieldsAlong(order);
    forall i | 0 <= i < |f| ensures IsLower(f[i]) {
      if i >= 2 {
        ToLowerIsLower(order[i - 2]);
      }
    }
  }

  /** Sorting keeps every element, so it keeps "all lower case". */
  lemma SortKeepsLower(s: seq<string>)
    requires forall i :: 0 <= i < |s| ==> IsLower(s[i])
    ensures forall i :: 0 <= i < |Sort(s)| ==> IsLower(Sort(s)[i])
  {
    var r := Sort(s);
    forall i | 0 <= i < |r| ensures IsLower(r[i]) {
      assert r[i] in multiset(r);
      assert r[i] in multiset(s);
      var j :| 0 <= j < |s| && s[j] == r[i];
    }
  }

  /** Every name and value that goes into the base string was lower-cased already, so the final lower-casing changes nothing. */
  lemma SignatureBaseIsLower(apiKey: string, command: string, params: map<string, string>, order: seq<string>)
    requires forall k :: k in order ==> k in params
    ensures IsLower(SignatureBase(apiKey, command, params, order))
    ensures ToLower(SignatureBase(apiKey, command, params, order)) == SignatureBase(apiKey, command, params, order)
  {
    FieldsAlongIsLower(order);
    SortKeepsLower(FieldsAlong(order));
    TableAlongIsLower(apiKey, command, params, order);
    JoinFieldsIsLower(Sort(FieldsAlong(order)), TableAlong(apiKey, command, params, order));
    ToLowerIsLower(SignatureBase(apiKey, command, params, order));
  }

  // ---------------------------------------------------------------------------
  // The signature does not depend on the iteration order of the table

  /** Parameter names stay distinct after lower-casing and none collides with `apikey` or `command`. */
  predicate LowerDistinct(params: map<string, string>) {
    && (forall a, b :: a in params && b in params && ToLower(a) == ToLower(b) ==> a == b)
    && (forall k :: k in params ==> ToLower(k) != "apikey" && ToLower(k) != "command")
  }

  predicate Distinct(s: seq<string>) {
    forall i, j :: 0 <= i < j < |s| ==> s[i] != s[j]
  }

  /** The lower-cased names of the visited parameters. */
  function LowerNames(order: seq<string>): set<string> {
    set k | k in order :: ToLower(k)
  }

  lemma {:induction false} TableAlongContents(apiKey: string, command: string, params: map<string, string>, order: seq<string>)
    requires forall k :: k in order ==> k in params
    requires LowerDistinct(params)
    ensures TableAlong(apiKey, command, params, order).Keys == {"apikey", "command"} + LowerNames(order)
    ensures TableAlong(apiKey, command, params, order)["apikey"] == ToLower(apiKey)
    ensures TableAlong(apiKey, command, params, order)["command"] == ToLower(command)
    ensures forall k :: k in order ==> TableAlong(apiKey, command, params, order)[ToLower(k)] == ToLower(params[k])
    decreases |order|
  {
    if order != [] {
      var init := order[..|order| - 1];
      var last := order[|order| - 1];
      assert forall k :: k in order <==> k in init || k == last;
      TableAlongContents(apiKey, command, params, init);
      assert LowerNames(order) == LowerNames(init) + {ToLower(last)};
    }
  }

  lemma {:induction false} DistinctCounts(s: seq<string>)
    requires Distinct(s)
    ensures forall x :: multiset(s)[x] == if x in s then 1 else 0
    decreases |s|
  {
    if s != [] {
      assert s == [s[0]] + s[1..];
      DistinctCounts(s[1..]);
      assert s[0] !in s[1..];
    }
  }

  /** Two lists without repetitions that hold the same elements are permutations of each other. */
  lemma DistinctSameElements(a: seq<string>, b: seq<string>)
    requires Distinct(a) && Distinct(b)
    requires forall x :: x in a <==> x in b
    ensures multiset(a) == multiset(b)
  {
    DistinctCounts(a);
    DistinctCounts(b);
    assert forall x :: multiset(a)[x] == multiset(b)[x];
  }

  /**
   * Two iteration orders visit the same names, so the field lists are
   * permutations of each other, duplicates after lower-casing included.
   */
  lemma FieldsPermutation(params: map<string, string>, order1: seq<string>, order2: seq<string>)
    requires IsEnumeration(order1, params.Keys) && IsEnumeration(order2, params.Keys)
    ensures multiset(FieldsAlong(order1)) == multiset(FieldsAlong(order2))
  {
    DistinctSameElements(order1, order2);
    MappedPermutation(ToLower, order1, order2);
    FieldsAlongLowered(order1);
    FieldsAlongLowered(order2);
  }

  /** `f` applied to every element, in place. */
  function Mapped(f: string -> string, s: seq<string>): (r: seq<string>)
    ensures |r| == |s| && forall i :: 0 <= i < |s| ==> r[i] == f(s[i])
  {
    seq(|s|, i requires 0 <= i < |s| => f(s[i]))
  }

  lemma FieldsAlongLowered(order: seq<string>)
    ensures FieldsAlong(order) == ["apikey", "command"] + Mapped(ToLower, order)
  {
  }

  /** Mapping each element of two permutations of one another gives two permutations of one another. */
  lemma {:induction false} MappedPermutation(f: string -> string, s1: seq<string>, s2: seq<string>)
    requires multiset(s1) == multiset(s2)
    ensures multiset(Mapped(f, s1)) == multiset(Mapped(f, s2))
    decreases |s1|
  {
    if s1 == [] {
      assert |s2| == |multiset(s2)| == 0;
    } else {
      var j := Match(s1, s2);
      MappedPermutation(f, s1[1..], s2[..j] + s2[j + 1..]);
      MappedMatch(f, s1, s2, j);
    }
  }

  /** The first element of `s1` sits at some index `j` of its permutation `s2`, and the rests stay permutations. */
  lemma Match(s1: seq<string>, s2: seq<string>) returns (j: nat)
    requires s1 != [] && multiset(s1) == multiset(s2)
    ensures j < |s2| && s2[j] == s1[0]
    ensures multiset(s1[1..]) == multiset(s2[..j] + s2[j + 1..])
  {
    j := Find(s2, s1[0]);
    RemoveAt(s2, j);
    assert s1 == [s1[0]] + s1[1..];
  }

  lemma Find(s: seq<string>, x: string) returns (j: nat)
    requires x in multiset(s)
    ensures j < |s| && s[j] == x
  {
    assert x in s;
    j :| 0 <= j < |s| && s[j] == x;
  }

  /** Adding the matched element back on both sides keeps Mapped's multisets equal. */
  lemma MappedMatch(f: string -> string, s1: seq<string>, s2: seq<string>, j: nat)
    requires s1 != [] && j < |s2| && s2[j] == s1[0]
    requires multiset(Mapped(f, s1[1..])) == multiset(Mapped(f, s2[..j] + s2[j + 1..]))
    ensures multiset(Mapped(f, s1)) == multiset(Mapped(f, s2))
  {
    MappedRemoveAt(f, s1, 0);
    assert s1[..0] + s1[1..] == s1[1..];
    MappedRemoveAt(f, s2, j);
  }

  /** Taking out the element at `j` takes one copy of it out of the multiset. */
  lemma RemoveAt(s: seq<string>, j: nat)
    requires j < |s|
    ensures multiset(s[..j] + s[j + 1..]) == multiset(s) - multiset{s[j]}
  {
    assert s == s[..j] + [s[j]] + s[j + 1..];
  }

  /** Mapped of a list is its element at `j` mapped together with Mapped of the rest. */
  lemma MappedRemoveAt(f: string -> string, s: seq<string>, j: nat)
    requires j < |s|
    ensures multiset(Mapped(f, s)) == multiset{f(s[j])} + multiset(Mapped(f, s[..j] + s[j + 1..]))
  {
    var front, back := s[..j], s[j + 1..];
    assert s == front + ([s[j]] + back);
    MappedConcat(f, front, [s[j]] + back);
    MappedConcat(f, [s[j]], back);
    MappedConcat(f, front, back);
    assert Mapped(f, [s[j]]) == [f(s[j])];
  }

  lemma MappedConcat(f: string -> string, a: seq<string>, b: seq<string>)
    ensures Mapped(f, a + b) == Mapped(f, a) + Mapped(f, b)
  {
    assert forall i :: 0 <= i < |a + b| ==> Mapped(f, a + b)[i] == (Mapped(f, a) + Mapped(f, b))[i];
  }

  /** Two iteration orders build the same lower-cased table. */
  lemma TablesAgree(apiKey: string, command: string, params: map<string, string>, order1: seq<string>, order2: seq<string>)
    requires IsEnumeration(order1, params.Keys) && IsEnumeration(order2, params.Keys)
    requires LowerDistinct(params)
    ensures TableAlong(apiKey, command, params, order1) == TableAlong(apiKey, command, params, order2)
  {
    TableAlongContents(apiKey, command, params, order1);
    TableAlongContents(apiKey, command, params, order2);
    SameTables(TableAlong(apiKey, command, params, order1), TableAlong(apiKey, command, params, order2),
               apiKey, command, params, order1, order2);
  }

  /** What TableAlongContents says of a table built along `order`. */
  ghost predicate Tabulates(t: map<string, string>, apiKey: string, command: string, params: map<string, string>, order: seq<string>)
    requires forall k :: k in order ==> k in params
  {
    && t.Keys == {"apikey", "command"} + LowerNames(order)
    && t["apikey"] == ToLower(apiKey) && t["command"] == ToLower(command)
    && forall k :: k in order ==> t[ToLower(k)] == ToLower(params[k])
  }

  /** Two tables described by the same parameters along two enumerations of their names are equal. */
  lemma SameTables(t1: map<string, string>, t2: map<string, string>, apiKey: string, command: string,
                   params: map<string, string>, order1: seq<string>, order2: seq<string>)
    requires IsEnumeration(order1, params.Keys) && IsEnumeration(order2, params.Keys)
    requires Tabulates(t1, apiKey, command, params, order1) && Tabulates(t2, apiKey, command, params, order2)
    ensures t1 == t2
  {
    SameLowerNames(order1, order2, params.Keys);
    assert t1.Keys == t2.Keys;
    forall x | x in t1 ensures t1[x] == t2[x] {
      if x != "apikey" && x != "command" {
        var k :| k in order1 && ToLower(k) == x;
        assert k in order2;
      }
    }
  }

  /** Two orders over the same names lower-case to the same set. */
  lemma SameLowerNames(order1: seq<string>, order2: seq<string>, keys: set<string>)
    requires forall k :: k in order1 <==> k in keys
    requires forall k :: k in order2 <==> k in keys
    ensures LowerNames(order1) == LowerNames(order2)
  {
    forall x | x in LowerNames(order1) ensures x in LowerNames(order2) {
      var k :| k in order1 && ToLower(k) == x;
      assert k in order2;
    }
    forall x | x in LowerNames(order2) ensures x in LowerNames(order1) {
      var k :| k in order2 && ToLower(k) == x;
      assert k in order1;
    }
  }

  /** Two iteration orders of the same table give the same base string, hence the same signature. */
  lemma SignatureOrderIndependent(apiKey: string, secretKey: string, command: string, params: map<string, string>,
                                  order1: seq<string>, order2: seq<string>, hmac: Hmac)
    requires IsEnumeration(order1, params.Keys) && IsEnumeration(order2, params.Keys)
    requires LowerDistinct(params)
    ensures SignatureBase(apiKey, command, params, order1) == SignatureBase(apiKey, command, params, order2)
    ensures Signature(apiKey, secretKey, command, params, order1, hmac) == Signature(apiKey, secretKey, command, params, order2, hmac)
  {
    FieldsPermutation(params, order1, order2);
    SortPermutationInvariant(FieldsAlong(order1), FieldsAlong(order2));
    TablesAgree(apiKey, command, params, order1, order2);
  }

  /** Names that are already lower case and distinct from `apikey` and `command` meet LowerDistinct. */
  lemma LowerNamesAreDistinct(params: map<string, string>)
    requires forall k :: k in params ==> IsLower(k) && k != "apikey" && k != "command"
    ensures LowerDistinct(params)
  {
    forall k | k in params ensures ToLower(k) == k {
      ToLowerIsLower(k);
    }
  }
}
