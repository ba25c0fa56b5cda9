# CloudStack connector: a Dafny model

The AppDynamics CloudStack connector lets the controller's orchestrator create,
watch, reboot and terminate CloudStack virtual machines. This project models
the connector's logic that sits around the HTTP calls, and proves properties of
that model. It covers five pieces.

- **Request signer** (`CloudStackApiClient`, module `Signer`; with `UrlEncoding`,
  `Ordering` and `Text` for the Java library calls it relies on).
  - It keeps a parameter table that drops blank values and URL-encodes the rest.
  - It builds the sorted, lower-cased signature base string.
  - It lays out the signed request URL.
- **Compute facade** (`CloudStackClient`, module `CloudStackClient`; with `Xml`).
  - It recognises the `errortext` error envelope.
  - It reads `id`, `jobid`, `ipaddress`, `state` and `virtualmachine` from responses.
  - It makes the terminate and status decisions.
  - It builds the parameter list of `deployVirtualMachine`.
- **Property helpers** (`Utils`, module `Utils`).
  - Blank settings read as absent.
  - The endpoint loses one trailing `/`.
  - The ip/network pair list is parsed.
- **Client registry** (both `ClientLocator` classes, module `Registry`). It is a
  table of authenticated clients keyed by the concatenated credentials.
- **Connector** (`CloudStackConnector`, module `Connector`).
  - `refreshMachineState`: the STARTING/STOPPING state machine.
  - `createMachine`: rollback, with the orphan report.
  - `createServer`: the display-name counter.
  - `getIpAddress`, `terminateMachine` and `restartMachine`.

## Modelling choices

- **Java values.**
  - A Java `null` is `None`.
  - An exception is `Failure(message)`. A method call on null fails with the
    name of `NullPointerException`. An empty iterator's `next()` fails with
    `NoSuchElementException`.
  - `ConnectorException` results are `Outcome.Fail(message)` or `Created.Raised(message, cause)`.
    `createMachine` looks its client up before its `try` block, so an exception
    there escapes unwrapped: that result is `Created.Escaped(error)`.
    The message of a raised creation is a `Message`: either a plain text or the
    orphan report (`Orphan(type, server id)`), and `Rendered` spells the latter out.
- **Foreign code becomes parameters.**
  - The HTTP round trip is a function `Remote` from the logical request to a
    body or a failure. The remote is stateless: asking twice gives the same answer.
  - XML parsing is a partial function `Parser` to an element tree.
  - `Document.getElementsByTagName` is a document-order search.
  - HMAC-SHA1 with Base64 is a function `Hmac`.
- **Iteration order.** The parameter table and the ip map are `HashMap`s, so
  their iteration order is unspecified. Operations that visit them take that
  order as an explicit enumeration of the keys (`ipOrder`, `order`). The
  signature is proved to be the same for every such order when the table meets
  `LowerDistinct`: no two names meet after lower-casing, and none lower-cases
  to `apikey` or `command`. Without that, an entry of the lower-cased table
  could be overwritten by whichever name comes last. Every table the client
  sends meets the condition (`CloudStackClient.IdParamsLowerDistinct`,
  `CloudStackClient.DeployParamsLowerDistinct`). The field list is a
  permutation across orders for every table (`Signer.FieldsPermutation`).
- **Objects that change state.**
  - The registry's table is a `map` field of the `ClientLocator` class.
  - The machine record is a class whose `state` and `ipAddress` are updated in place.
  - The connector's static counter is a `Counter` object. Every connector of the
    process is given the same one, as it is given the locator.
  - The reboots and terminations sent are recorded in ghost logs.
- **One registry module for two files.** The two `ClientLocator` files hold the
  same logic in two packages, and each is its own singleton with its own table.
  One `Registry` module models both. A `CloudStackConnector` holds the locator
  instance of its own package.
- **Shared collaborators.** The connector imports `CloudStackClient` and `Utils`
  from packages other than the files modelled here. The model treats them as
  the classes modelled here.
- **Mirrored quirks.** The model reproduces these behaviours rather than correcting them.
  - `getName` reads the `Account` property (`Utils.GetNameReadsAccount`).
  - `deployVirtualMachine` sends the Size option under `securitygroupnames`
    (`CloudStackClient.DeploySizeQuirk`).
  - The registry key concatenates the three strings without a separator, so
    `("ab", "c")` and `("a", "bc")` share a client
    (`Registry.CollidingCredentialsShareClient`).
  - The display name `"AD_" + millis + count` has no separator, so names can
    meet when the clock gains a digit (`Connector.DisplayNamesMeetAcrossWidths`).
  - `rebootVirtualMachine` never looks at `errortext` (`CloudStackClient.RebootIgnoresErrorText`).
  - A running server seen by a machine with no recorded address raises a null
    pointer exception (`Connector.ReconcileNullRecordedIp`).

## Model

| member | source | states |
|---|---|---|
| Signer.PutMeaning | src/java/com/singularity/ee/cloudstack/CloudStackApiClient.java:37-43 | A null or blank value leaves the table unchanged. Otherwise the field maps to the encoding of the trimmed value, replacing any earlier value. The entry is non-empty and the table stays well formed. |
| Signer.ApiRequest.constructor | src/java/com/singularity/ee/cloudstack/CloudStackApiClient.java:29-35 | The request starts with an empty, well-formed table and the given command, credentials and API URL. |
| Signer.ApiRequest.AddParam | src/java/com/singularity/ee/cloudstack/CloudStackApiClient.java:37-43 | The table becomes `Put` of the old table; well-formedness is kept. |
| UrlEncoding.EncodeUrl | src/java/com/singularity/ee/cloudstack/CloudStackApiClient.java:45-62 | Null stays null. Otherwise the result is the percent-encoding of the trimmed value. It contains only encoded characters, so neither `+` nor a space, and it is empty exactly when the value is blank. |
| UrlEncoding.FormEncodeThenReplaceIsPercentEncode | src/java/com/singularity/ee/cloudstack/CloudStackApiClient.java:51 | Form-encoding followed by rewriting `+` as `%20` equals the reference percent-encoding. |
| UrlEncoding.PercentEncodeIsEncoded | src/java/com/singularity/ee/cloudstack/CloudStackApiClient.java:51 | Percent-encoding yields only unreserved characters and `%XY` triples, and it is empty only for the empty string. |
| UrlEncoding.DecodeEncodeRoundTrip | src/java/com/singularity/ee/cloudstack/CloudStackApiClient.java:51 | Percent-decoding the encoding gives back the UTF-8 bytes of the input, so no information is lost. |
| UrlEncoding.Utf8 | src/java/com/singularity/ee/cloudstack/CloudStackApiClient.java:51 | UTF-8 gives one to four bytes per character. ASCII maps to itself, and every other character maps to bytes of 0x80 and above. |
| Signer.Send | src/java/com/singularity/ee/cloudstack/CloudStackApiClient.java:66-93 | A null api key, a null secret key or an empty secret key fails with the NPE of the `finally` block, and no request is sent. With both keys and a non-empty secret the result is the remote's answer to exactly this request. |
| Signer.ApiRequest.Execute | src/java/com/singularity/ee/cloudstack/CloudStackApiClient.java:66-93 | `execute()` returns what `Send` gives for the request's command, credentials and table. |
| Signer.ApiRequest.GenerateRequestUrl | src/java/com/singularity/ee/cloudstack/CloudStackApiClient.java:95-168 | A null api key raises NPE. A null secret key raises the HMAC failure, and an empty one raises "Failed to generate HMAC : Empty key". Otherwise the URL is `apiUrl + "apiKey=" + key + "&command=" + command`, then each parameter in visit order with its name encoded and its stored value, then `&signature=` and the encoded signature. |
| Signer.VisitParams | src/java/com/singularity/ee/cloudstack/CloudStackApiClient.java:111-123 | The first loop builds the query string, the lower-cased table and the unsorted field list of the visited parameters. |
| Signer.JoinSorted | src/java/com/singularity/ee/cloudstack/CloudStackApiClient.java:127-137 | The second loop joins `name=value` pairs with `&` before every pair but the first. |
| Signer.FieldsAlong | src/java/com/singularity/ee/cloudstack/CloudStackApiClient.java:107-121 | The field list is `apikey`, `command`, then each visited name lower-cased, in visit order. |
| Signer.SignatureBaseIsLower | src/java/com/singularity/ee/cloudstack/CloudStackApiClient.java:103-139 | Every name and value is already lower case, so the final `toLowerCase` of the base string changes nothing. |
| Signer.TableAlongContents | src/java/com/singularity/ee/cloudstack/CloudStackApiClient.java:103-121 | When names stay distinct after lower-casing, the lower-cased table holds `apikey`, `command` and each lower-cased name, mapped to its lower-cased value. |
| Signer.FieldsPermutation | src/java/com/singularity/ee/cloudstack/CloudStackApiClient.java:107-121 | For any table, two iteration orders give field lists that are permutations of each other, names that meet after lower-casing included. |
| Signer.MappedPermutation | src/java/com/singularity/ee/cloudstack/CloudStackApiClient.java:120 | Lower-casing (any element-wise map) of two permutations of one another gives two permutations of one another. |
| Signer.TablesAgree | src/java/com/singularity/ee/cloudstack/CloudStackApiClient.java:103-121 | For a table meeting `LowerDistinct`, two iteration orders give the same lower-cased table. |
| Signer.SignatureOrderIndependent | src/java/com/singularity/ee/cloudstack/CloudStackApiClient.java:111-139 | For a table meeting `LowerDistinct`, the base string, and so the signature, is the same for every iteration order. |
| Signer.LowerNamesAreDistinct | src/java/com/singularity/ee/cloudstack/CloudStackApiClient.java:120-121 | Lower-case names other than `apikey` and `command` never collide after lower-casing. |
| CloudStackClient.IdParamsLowerDistinct | src/java/com/appdynamics/cloudstack/CloudStackClient.java:119 | The `id` table of a single-server command meets `LowerDistinct`, so its signature does not depend on iteration order. |
| CloudStackClient.DeployParamsLowerDistinct | src/java/com/appdynamics/cloudstack/CloudStackClient.java:66-99 | Every name `deployVirtualMachine` sends, fixed or `iptonetworklist[i].…`, is lower case and is neither `apikey` nor `command`, so the table meets `LowerDistinct`. |
| CloudStackClient.DeploySignatureOrderFree | src/java/com/appdynamics/cloudstack/CloudStackClient.java:66-113 | Every iteration order of the `deployVirtualMachine` table gives the same signature. |
| Ordering.Sort | src/java/com/singularity/ee/cloudstack/CloudStackApiClient.java:125 | `Collections.sort` returns a sorted permutation of its input. |
| Ordering.SortedUnique | src/java/com/singularity/ee/cloudstack/CloudStackApiClient.java:125 | Two sorted lists with the same elements are equal. |
| Ordering.SortPermutationInvariant | src/java/com/singularity/ee/cloudstack/CloudStackApiClient.java:125 | Sorting two permutations of a list gives the same list. |
| Ordering.BelowTotal | src/java/com/singularity/ee/cloudstack/CloudStackApiClient.java:125 | String comparison is total. |
| Ordering.BelowAntisymmetric | src/java/com/singularity/ee/cloudstack/CloudStackApiClient.java:125 | String comparison is antisymmetric. |
| Ordering.BelowTransitive | src/java/com/singularity/ee/cloudstack/CloudStackApiClient.java:125 | String comparison is transitive. |
| Text.Trim | src/java/com/singularity/ee/cloudstack/CloudStackApiClient.java:39 | `String.trim` leaves no trimmable character at either end. It is the identity on a string that is already trimmed. |
| Text.TrimIsInfix | src/java/com/singularity/ee/cloudstack/CloudStackApiClient.java:39 | The trimmed string is a contiguous piece of the input with only trimmable characters before and after it. |
| Text.TrimUnique | src/java/com/singularity/ee/cloudstack/CloudStackApiClient.java:39 | Any trimmed piece of the input with only trimmable characters around it is the result of `trim`, so the two lemmas together characterise `String.trim`. |
| Text.BlankIffAllTrimmable | src/java/com/singularity/ee/cloudstack/CloudStackApiClient.java:39 | A string trims to empty exactly when every character is trimmable. |
| Text.ToLowerIsLower | src/java/com/singularity/ee/cloudstack/CloudStackApiClient.java:104-121 | Lower-casing yields a lower-case string, and it is the identity exactly on lower-case strings. |
| Text.UpperOfLower | src/java/com/appdynamics/cloudstack/CloudStackClient.java:227 | Upper-casing a lower-cased string equals upper-casing the original. |
| Text.NatToStringRoundTrip | src/java/com/singularity/ee/connectors/cloudstack/CloudStackConnector.java:138 | The decimal rendering of a count reads back as the count. |
| Text.NatToStringInjective | src/java/com/singularity/ee/connectors/cloudstack/CloudStackConnector.java:138 | Different counts render differently. |
| Xml.ElementsByTagFinds | src/java/com/appdynamics/cloudstack/CloudStackClient.java:243 | The document-order search finds an element exactly when the tree holds one with that tag. |
| Xml.ElementsByTag | src/java/com/appdynamics/cloudstack/CloudStackClient.java:171 | Every element the search returns carries the requested tag. |
| CloudStackClient.ParseDocument | src/java/com/appdynamics/cloudstack/CloudStackClient.java:261-280 | Parsing succeeds exactly for a present body the parser accepts, and yields its tree. |
| CloudStackClient.ContainsErrorMessage | src/java/com/appdynamics/cloudstack/CloudStackClient.java:237-247 | A null or blank body counts as an error. Otherwise an unparseable body fails, and a parsed one is an error exactly when it holds an `errortext` element. |
| CloudStackClient.GetErrorMessage | src/java/com/appdynamics/cloudstack/CloudStackClient.java:249-259 | A blank body gives "Null response from server". Otherwise the result is the trimmed text of the first `errortext`, and it fails when the body does not parse or has no `errortext`. |
| CloudStackClient.ReplyKinds | src/java/com/appdynamics/cloudstack/CloudStackClient.java:237-247 | No reply is both an error and clean. A successful reply that is neither has a body that does not parse. |
| CloudStackClient.CleanReplyParses | src/java/com/appdynamics/cloudstack/CloudStackClient.java:237-247 | A clean reply has a non-blank body that parses and holds no `errortext`. |
| CloudStackClient.FirstText | src/java/com/appdynamics/cloudstack/CloudStackClient.java:109 | `item(0).getTextContent().trim()` fails on an empty list and otherwise gives the trimmed text of the first node. |
| CloudStackClient.VmIds | src/java/com/appdynamics/cloudstack/CloudStackClient.java:171-178 | A failure is the NPE of `item(0)` on an empty list. A success has one id per `virtualmachine` element. |
| CloudStackClient.GatherMeaning | src/java/com/appdynamics/cloudstack/CloudStackClient.java:173-178 | Collecting per-element results succeeds exactly when every one does, and then holds their values in order. A failure is the first failing element's error, with every earlier one successful. |
| CloudStackClient.VmIdsMeaning | src/java/com/appdynamics/cloudstack/CloudStackClient.java:171-178 | The ids succeed exactly when every `virtualmachine` element has an `id` descendant. The i-th id is then the trimmed text of the i-th element's first `id`. |
| CloudStackClient.ListingMeaning | src/java/com/appdynamics/cloudstack/CloudStackClient.java:160-182 | `listServerIds` succeeds exactly on a clean reply whose every `virtualmachine` has an `id`. It then gives one trimmed id per machine, in document order. |
| CloudStackClient.ListServerIds | src/java/com/appdynamics/cloudstack/CloudStackClient.java:160-182 | The method returns the listing of the reply to `listVirtualMachines`. |
| CloudStackClient.CollectVmIds | src/java/com/appdynamics/cloudstack/CloudStackClient.java:173-178 | The index loop collects exactly `VmIds` of the elements. |
| CloudStackClient.Authenticate | src/java/com/appdynamics/cloudstack/CloudStackClient.java:51-63 | Authentication succeeds only with both keys present and a clean reply to the listing request. |
| CloudStackClient.IdParams | src/java/com/appdynamics/cloudstack/CloudStackClient.java:119 | A non-blank id is sent encoded under `id`, and a blank id sends no parameter. |
| CloudStackClient.HasJob | src/java/com/appdynamics/cloudstack/CloudStackClient.java:122-123 | This fails unless the round trip succeeded and the body parses. It is true exactly when the document holds a `jobid`. |
| CloudStackClient.Reboot | src/java/com/appdynamics/cloudstack/CloudStackClient.java:116-124 | A reboot succeeds exactly when the reply parses, and it is true exactly when the reply holds a `jobid`. Missing credentials fail. |
| CloudStackClient.RebootIgnoresErrorText | src/java/com/appdynamics/cloudstack/CloudStackClient.java:116-124 | A reply with a `jobid` counts as a successful reboot even when it also carries `errortext`. |
| CloudStackClient.Terminate | src/java/com/appdynamics/cloudstack/CloudStackClient.java:126-149 | On an error reply the result is true exactly when the listing succeeds without the id, and it is never false. On any other reply a success means a clean reply. A clean reply gives true exactly when it holds a `jobid`, and false otherwise. |
| CloudStackClient.TerminateStillListedFails | src/java/com/appdynamics/cloudstack/CloudStackClient.java:132-139 | An error reply for an id that is still listed fails with "Error terminating instance with id:" + id + " Response:" + the error text. If the error text cannot be read, it fails with that failure. |
| CloudStackClient.GetServer | src/java/com/appdynamics/cloudstack/CloudStackClient.java:151-158 | With both keys and a non-blank id, the result is the remote's answer to `listVirtualMachines` with the encoded id. |
| CloudStackClient.GetServerBlankIdListsAll | src/java/com/appdynamics/cloudstack/CloudStackClient.java:151-158 | A blank id is dropped, so the query asks for every server. |
| CloudStackClient.Texts | src/java/com/appdynamics/cloudstack/CloudStackClient.java:198-201 | There is one trimmed text per node, in order. |
| CloudStackClient.IpAddresses | src/java/com/appdynamics/cloudstack/CloudStackClient.java:184-204 | This succeeds exactly on a clean reply, giving every `ipaddress` text trimmed and in order. An error reply fails with a message naming the id. |
| CloudStackClient.ListIpAddress | src/java/com/appdynamics/cloudstack/CloudStackClient.java:184-204 | The loop returns exactly `IpAddresses`. |
| CloudStackClient.ValueOf | src/java/com/appdynamics/cloudstack/CloudStackClient.java:225-232 | `valueOf` with the exception caught gives the constant of that exact name, or `UNKOWN`. |
| CloudStackClient.ValueOfName | src/java/com/appdynamics/cloudstack/CloudStackClient.java:227 | Every constant is found by its own name. |
| CloudStackClient.ValueOfUnknown | src/java/com/appdynamics/cloudstack/CloudStackClient.java:229-232 | A name that is no constant maps to `UNKOWN`. |
| CloudStackClient.StatusOf | src/java/com/appdynamics/cloudstack/CloudStackClient.java:227-232 | The mapping always yields a constant of the enum and never fails. |
| CloudStackClient.StatusOfIgnoresCase | src/java/com/appdynamics/cloudstack/CloudStackClient.java:227 | The state text is read without regard to case. |
| CloudStackClient.GetServerStatus | src/java/com/appdynamics/cloudstack/CloudStackClient.java:206-234 | On an error reply the result is null exactly when the listing succeeds without the id, and it is never a status. Null comes only from an error reply. An error reply for an id that is still listed fails with "Error retrieving instance status with id:" and the id. A clean reply without a `state` element raises the NullPointerException. A status comes from a clean reply's first `state` text. |
| CloudStackClient.StatusNeverFailsOnState | src/java/com/appdynamics/cloudstack/CloudStackClient.java:222-232 | A clean reply with a `state` element always yields a status, whatever its text. |
| CloudStackClient.FixedParams | src/java/com/appdynamics/cloudstack/CloudStackClient.java:70-90 | There are twenty fixed `addParam` calls in source order. |
| CloudStackClient.IpParamsFrom | src/java/com/appdynamics/cloudstack/CloudStackClient.java:92-99 | The ip loop makes two calls per remaining map entry. |
| CloudStackClient.PutAllConcat | src/java/com/appdynamics/cloudstack/CloudStackClient.java:70-99 | Two runs of `addParam` calls equal one run of both. |
| CloudStackClient.PutAllUnique | src/java/com/appdynamics/cloudstack/CloudStackClient.java:70-99 | The only call naming a field decides its entry: the encoded value, or the old entry when the value is blank. |
| CloudStackClient.IpKeysDistinct | src/java/com/appdynamics/cloudstack/CloudStackClient.java:96-97 | `iptonetworklist[i].ip` keys of different entries differ, and no ip key equals a network key. |
| CloudStackClient.IpParamsDistinct | src/java/com/appdynamics/cloudstack/CloudStackClient.java:92-99 | No two calls of the ip loop name the same field. |
| CloudStackClient.DeployFixedParam | src/java/com/appdynamics/cloudstack/CloudStackClient.java:70-90 | Each fixed option is sent, encoded, exactly when it is non-blank. |
| CloudStackClient.DeployTwinFields | src/java/com/appdynamics/cloudstack/CloudStackClient.java:70-90 | Two fixed fields with the same value are both sent or both omitted, with the same text. |
| CloudStackClient.DeployNameLikeAccount | src/java/com/appdynamics/cloudstack/CloudStackClient.java:73-84 | Equal Name and Account options go out alike under `name` and `account`. |
| CloudStackClient.DeploySizeQuirk | src/java/com/appdynamics/cloudstack/CloudStackClient.java:87-90 | `securitygroupnames` and `size` both carry the encoded Size option. The security group names option never changes the request. |
| CloudStackClient.DeployIpBlock | src/java/com/appdynamics/cloudstack/CloudStackClient.java:92-99 | Entry j of the visit order goes out under `iptonetworklist[j].ip` and `iptonetworklist[j].networkid`, each encoded unless blank. |
| CloudStackClient.DeployParamNames | src/java/com/appdynamics/cloudstack/CloudStackClient.java:70-99 | Every parameter sent is a fixed field or belongs to an entry j below the map's size, so the block has no gaps and nothing past its end. |
| CloudStackClient.DeployOutcome | src/java/com/appdynamics/cloudstack/CloudStackClient.java:101-113 | An error reply fails with "Error deploying virtual machine. Response: " + the error text, or with the failure to read that text. A result is a server exactly for a clean reply holding an `id`, and its id is the trimmed text of the first `id`. |
| CloudStackClient.Deploy | src/java/com/appdynamics/cloudstack/CloudStackClient.java:66-114 | `deployVirtualMachine` returns `DeployOutcome` of the remote's answer to `DeployParams`. |
| CloudStackClient.AddFixedParams | src/java/com/appdynamics/cloudstack/CloudStackClient.java:70-90 | The table becomes the old one after the twenty fixed calls. |
| CloudStackClient.AddPlacementParams | src/java/com/appdynamics/cloudstack/CloudStackClient.java:73-80 | The table becomes the old one after the `account`..`ipaddress` calls. |
| CloudStackClient.AddAccessParams | src/java/com/appdynamics/cloudstack/CloudStackClient.java:82-90 | The table becomes the old one after the `keyboard`..`size` calls. |
| CloudStackClient.AddIpParams | src/java/com/appdynamics/cloudstack/CloudStackClient.java:92-99 | The table becomes the old one after the ip loop's calls, the counter running from 0. |
| Utils.KeyInjective | src/java/com/appdynamics/connectors.cloudstack/Utils.java:19-43 | Different settings have different property names. |
| Utils.GetValue | src/java/com/appdynamics/connectors.cloudstack/Utils.java:188-191 | The result is null exactly for a null or blank value. Otherwise it is the trimmed value, non-empty and trimmed. |
| Utils.GetValueIdempotent | src/java/com/appdynamics/connectors.cloudstack/Utils.java:188-191 | Applying `getValue` twice equals applying it once. |
| Utils.KeyRead | src/java/com/appdynamics/connectors.cloudstack/Utils.java:74-186 | Every getter reads its own property, except `getName`, which reads `Account`. |
| Utils.GetReadsOwnProperty | src/java/com/appdynamics/connectors.cloudstack/Utils.java:74-186 | A getter other than `getName` is null exactly when its property is unset or blank, and otherwise gives the trimmed property. |
| Utils.GetNameReadsAccount | src/java/com/appdynamics/connectors.cloudstack/Utils.java:163-166 | `getName` equals `getAccount`, and setting the `Name` property does not change it. |
| Utils.GetEndPoint | src/java/com/appdynamics/connectors.cloudstack/Utils.java:139-151 | An unset endpoint raises NPE. Otherwise one trailing `/` is removed, and a URL without one is returned unchanged. |
| Utils.EndPointStripsOneSlash | src/java/com/appdynamics/connectors.cloudstack/Utils.java:143-146 | An endpoint ending in `//` keeps one trailing slash. |
| Utils.Pieces | src/java/com/appdynamics/connectors.cloudstack/Utils.java:56 | Splitting on `,` and `;` gives one more piece than there are separators, and no piece contains a separator. |
| Utils.PiecesRejoin | src/java/com/appdynamics/connectors.cloudstack/Utils.java:56 | Rejoining the pieces with their separators gives back the string. |
| Utils.DropTrailingEmpty | src/java/com/appdynamics/connectors.cloudstack/Utils.java:56 | `split` drops exactly the empty pieces at the end: a prefix is kept, and it is empty or ends in a non-empty piece. |
| Utils.OnlySeparatorsGiveEmptyList | src/java/com/appdynamics/connectors.cloudstack/Utils.java:56-61 | A value made only of separators splits into no pieces, so it passes the parity check. |
| Utils.GetIpToNetworkList | src/java/com/appdynamics/connectors.cloudstack/Utils.java:45-72 | An unset or blank value gives the empty map, and an odd piece count raises the pairs error. Otherwise the result is the pair map of the pieces. |
| Utils.PutPairs | src/java/com/appdynamics/connectors.cloudstack/Utils.java:63-69 | The while loop, which advances twice per pair, builds exactly `PairMap` of the list. |
| Utils.PairMapKeys | src/java/com/appdynamics/connectors.cloudstack/Utils.java:63-69 | The keys are exactly the even-indexed pieces. |
| Utils.PairMapLaterWins | src/java/com/appdynamics/connectors.cloudstack/Utils.java:67 | An ip maps to the piece after its last occurrence. |
| Utils.PairMapSize | src/java/com/appdynamics/connectors.cloudstack/Utils.java:63-69 | The map has at most half as many entries as pieces. |
| Registry.IdentifierCollides | src/java/com/appdynamics/connectors.cloudstack/ClientLocator.java:44 | `("ab", "c")` and `("a", "bc")` on one endpoint give the same key. |
| Registry.Locate | src/java/com/appdynamics/connectors.cloudstack/ClientLocator.java:40-65 | A cached key returns its client and leaves the table unchanged. A failure says "Invalid authentication credentials." and leaves the table unchanged. A success stores the client under its key, adds no other key and keeps every other entry. |
| Registry.LocateNew | src/java/com/appdynamics/connectors.cloudstack/ClientLocator.java:52-61 | For a new key the lookup succeeds exactly when the client built from (api key, secret key, endpoint) authenticates. It then returns that client and adds exactly that key. |
| Registry.LocateKeepsValid | src/java/com/singularity/ee/connectors/cloudstack/ClientLocator.java:45-54 | Every stored client sits under its own key and passed `authenticate`; the lookup keeps this. Whatever it hands out authenticates. |
| Registry.LocateTwice | src/java/com/singularity/ee/connectors/cloudstack/ClientLocator.java:39-42 | A second lookup after a success returns the same client and leaves the table as the first one left it. |
| Registry.CollidingCredentialsShareClient | src/java/com/singularity/ee/connectors/cloudstack/ClientLocator.java:37-42 | After `("ab", "c")` is stored, asking for `("a", "bc")` returns the `("ab", "c")` client. |
| Registry.LocateFromProps | src/java/com/appdynamics/connectors.cloudstack/ClientLocator.java:31-38 | An unset endpoint raises NPE. Otherwise the lookup is `Locate` with (secret key, api key, endpoint) read through `Utils`. |
| Registry.FromPropsKeepsRoles | src/java/com/singularity/ee/connectors/cloudstack/ClientLocator.java:24-31 | A client built from properties carries the api key as api key and the secret key as secret key. |
| Registry.ClientLocator.constructor | src/java/com/appdynamics/connectors.cloudstack/ClientLocator.java:20-22 | The locator starts with an empty, valid table. |
| Registry.ClientLocator.GetClient | src/java/com/singularity/ee/connectors/cloudstack/ClientLocator.java:33-58 | The result and the new table are those of `Locate` on the old table. The invariant is kept. |
| Registry.ClientLocator.GetClientFromProps | src/java/com/singularity/ee/connectors/cloudstack/ClientLocator.java:24-31 | The result and the new table are those of `LocateFromProps` on the old table. |
| Connector.StartingStep | src/java/com/singularity/ee/connectors/cloudstack/CloudStackConnector.java:182-212 | For a STARTING machine: exactly null or DESTROYED becomes STOPPED, and exactly ERROR or EXPUNGING becomes NOT_RESPONDING. STOPPED powers on, and RUNNING reads the ip. Every other status stays. |
| Connector.ReconcileStartingStatus | src/java/com/singularity/ee/connectors/cloudstack/CloudStackConnector.java:175-212 | With the client found and the status read, a STARTING refresh ends STOPPED exactly for null or DESTROYED, and NOT_RESPONDING exactly for ERROR or EXPUNGING. `UNKOWN` or an unlisted constant leaves it STARTING. In these cases it passes, keeps the address and sends no reboot. |
| Connector.StoppingStep | src/java/com/singularity/ee/connectors/cloudstack/CloudStackConnector.java:219-247 | For a STOPPING machine: a failed query, null, STOPPED, DESTROYED or `UNKOWN` gives STOPPED, and ERROR or EXPUNGING gives NOT_RESPONDING. RUNNING and the other constants leave it alone. |
| Connector.FirstIp | src/java/com/singularity/ee/connectors/cloudstack/CloudStackConnector.java:159-165 | The first listed address. An empty list raises NoSuchElementException, and a listing failure is passed on. |
| Connector.RecordIp | src/java/com/singularity/ee/connectors/cloudstack/CloudStackConnector.java:196-201 | A null recorded address raises NPE. Otherwise the recorded address becomes the one read. |
| Connector.ReconcileFailureKeepsMachine | src/java/com/singularity/ee/connectors/cloudstack/CloudStackConnector.java:170-253 | A refresh that raises leaves state and address unchanged. Its message starts with "Unable to retrieve Server Status. Error:". |
| Connector.ReconcileStarted | src/java/com/singularity/ee/connectors/cloudstack/CloudStackConnector.java:191-204 | Only a STARTING machine whose server is RUNNING becomes STARTED. It then has a non-empty address list and records its first address. |
| Connector.ReconcileStopping | src/java/com/singularity/ee/connectors/cloudstack/CloudStackConnector.java:214-248 | Once the client is found, a STOPPING refresh never raises. It ends STOPPING, STOPPED or NOT_RESPONDING, with the address untouched and no reboot. |
| Connector.ReconcileReboots | src/java/com/singularity/ee/connectors/cloudstack/CloudStackConnector.java:186-190 | A reboot goes out exactly for a STARTING machine whose server is STOPPED. The state then stays STARTING with the same address. |
| Connector.ReconcileNullRecordedIp | src/java/com/singularity/ee/connectors/cloudstack/CloudStackConnector.java:194-201 | A running server with an address, seen by a machine with no recorded address, raises NPE and changes nothing. |
| Connector.ReconcileIdle | src/java/com/singularity/ee/connectors/cloudstack/CloudStackConnector.java:173-248 | Any state but STARTING or STOPPING is left alone whatever the client and the remote say. |
| Connector.CloudStackConnector.GetIpAddress | src/java/com/singularity/ee/connectors/cloudstack/CloudStackConnector.java:159-165 | The result is `FirstIp` of the server's address listing. |
| Connector.CloudStackConnector.RefreshMachineState | src/java/com/singularity/ee/connectors/cloudstack/CloudStackConnector.java:167-254 | Outcome, new state, new address and the reboot log are those of `Reconcile`. The registry is consulted only for STARTING or STOPPING. |
| Connector.CloudStackConnector.RefreshStarting | src/java/com/singularity/ee/connectors/cloudstack/CloudStackConnector.java:175-213 | The STARTING branch, with the client found, agrees with `Reconcile`, the reboot log included. |
| Connector.CloudStackConnector.RefreshRunning | src/java/com/singularity/ee/connectors/cloudstack/CloudStackConnector.java:191-204 | The RUNNING branch. A listing failure or a null recorded address raises and changes nothing. Otherwise the machine becomes STARTED with the address `RecordIp` gives. |
| Connector.CloudStackConnector.RefreshStopping | src/java/com/singularity/ee/connectors/cloudstack/CloudStackConnector.java:214-248 | The STOPPING branch agrees with `Reconcile` and never reboots. |
| Connector.DisplayNamesDistinct | src/java/com/singularity/ee/connectors/cloudstack/CloudStackConnector.java:129-138 | At one clock width, different (clock, count) pairs give different display names. |
| Connector.DisplayNamesMeetAcrossWidths | src/java/com/singularity/ee/connectors/cloudstack/CloudStackConnector.java:138 | Clock 1 with count 23 and clock 12 with count 3 give the same display name. |
| Connector.ServerOptions | src/java/com/singularity/ee/connectors/cloudstack/CloudStackConnector.java:103-150 | The options' Name equals their Account. The display name, user data and ip map are the ones given. |
| Connector.ServerRequestNameIsAccount | src/java/com/singularity/ee/connectors/cloudstack/CloudStackConnector.java:106-135 | The deploy request sends the Account value under `name` whenever it sends it under `account`. |
| Connector.Counter.Next | src/java/com/singularity/ee/connectors/cloudstack/CloudStackConnector.java:127-130 | `count = counter++`: the old value is returned and the shared counter grows by one. |
| Connector.CloudStackConnector.CreateServer | src/java/com/singularity/ee/connectors/cloudstack/CloudStackConnector.java:100-157 | The result is `ServerFor` at the shared counter's old value. The counter grows by one exactly when the ip list parses. |
| Connector.CloudStackConnector.DeployNumbered | src/java/com/singularity/ee/connectors/cloudstack/CloudStackConnector.java:103-157 | Once a number is taken, the settings read and the deploy sent give `ServerFor` at that number. |
| Connector.Settle | src/java/com/singularity/ee/connectors/cloudstack/CloudStackConnector.java:75-96 | A registration gives the machine id. A registration failure is raised with itself as cause, and when the terminate also fails the message is the orphan message. |
| Connector.OrphanMessageNamesServer | src/java/com/singularity/ee/connectors/cloudstack/CloudStackConnector.java:90-93 | The orphan message holds the server id right after its fixed lead. |
| Connector.CreateRollsBack | src/java/com/singularity/ee/connectors/cloudstack/CloudStackConnector.java:43-96 | A server is terminated exactly when it was deployed and registering it failed, and then only that server, once. A machine is returned exactly when every step succeeds. Inside the `try` block no failure escapes unwrapped. |
| Connector.CreateReportsOrphan | src/java/com/singularity/ee/connectors/cloudstack/CloudStackConnector.java:82-94 | After a rollback the registration failure is the cause. A failed terminate gives the orphan message naming the server, and a successful one gives the original message. |
| Connector.CloudStackConnector.CreateMachine | src/java/com/singularity/ee/connectors/cloudstack/CloudStackConnector.java:39-98 | A failed lookup escapes unwrapped (`Escaped`) before anything else happens, with no terminate and the counter untouched. Otherwise result, termination log and counter follow `Create` over the steps' answers. |
| Connector.CloudStackConnector.Provision | src/java/com/singularity/ee/connectors/cloudstack/CloudStackConnector.java:49-96 | The try block of `createMachine` agrees with `Create`, including the terminations sent and the counter. |
| Connector.CloudStackConnector.Launch | src/java/com/singularity/ee/connectors/cloudstack/CloudStackConnector.java:63-96 | The result and the terminations sent are `Enlisted` of what `createServer` returns at the old counter. A failed `createServer` is raised with itself as cause and terminates nothing. When registration fails, that server and no other is terminated and the failure is settled as in `Settle`. |
| Connector.CreatingIsCreate | src/java/com/singularity/ee/connectors/cloudstack/CloudStackConnector.java:49-96 | What the try block does with a found client is `Create` over the answers of its steps. So the rollback lemmas about `Create` hold of `CreateMachine`. |
| Connector.EnlistedIsCreate | src/java/com/singularity/ee/connectors/cloudstack/CloudStackConnector.java:65-96 | Once the agent data is encoded, registering the server or rolling it back is `Create` over the server, its registration and its terminate. |
| Connector.CloudStackConnector.Enlist | src/java/com/singularity/ee/connectors/cloudstack/CloudStackConnector.java:63-96 | A failed `createServer` is raised with itself as cause and sends no terminate. A registered server gives the machine id and sends no terminate. A failed registration sends one terminate for that server and is reported as `Settle` reports it. `EnlistIsEnlisted` shows this is `Enlisted`. |
| Connector.CloudStackConnector.PowerOnStarting | src/java/com/singularity/ee/connectors/cloudstack/CloudStackConnector.java:186-190 | A STARTING machine whose server is STOPPED gets one reboot request. A failed reboot is raised with the server-status prefix. |
| Connector.CloudStackConnector.TerminateMachine | src/java/com/singularity/ee/connectors/cloudstack/CloudStackConnector.java:256-273 | Any failure is raised as "Error Terminating <type> Instance Id:<id>. Error:<message>". A terminate is sent for the server exactly when the client was found. |
| Connector.CloudStackConnector.RestartMachine | src/java/com/singularity/ee/connectors/cloudstack/CloudStackConnector.java:275-290 | Any failure is raised as "Error Rebooting <type> Instance Id:<name>. Error:<message>". A reboot is sent exactly when the client was found. |

## Left out

- HTTP transport in `execute()`: network I/O. The round trip is the `Remote` function. When the URL cannot be built, `get` is still null and the `finally` block's `releaseConnection` raises a null pointer exception that replaces the URL failure; `Send` returns that NPE.
- HMAC-SHA1 and Base64 in `calculateRFC2104HMAC`: foreign crypto libraries. The model uses the `Hmac` function parameter.
- XML parsing in `stringToXmlDocument` (JAXP): foreign library. The model uses the `Parser` function parameter; the exception text it appends is not modelled.
- `synchronized` blocks in both `ClientLocator` files and around the counter: concurrency. The registry and the counter are modelled sequentially. `volatile` has no sequential meaning.
- The clock, `System.getProperty`, `InetAddress`, `AgentResolutionEncoder`, and the controller's property lookup and `createMachineInstance`: environment and foreign collaborators. They are parameters: `millis`, the `userData` result, `register`, and property maps.
- Logging and `println`: no behaviour to state.
- The `validate` methods, which log and then call the registry; `getAgentPort`; `setControllerServices`; and the empty `configure`, `unconfigure`, `deleteImage` and `refreshImageState` bodies: they add no logic beyond `Registry.ClientLocator.GetClientFromProps`.
- Exception messages: a Java exception's `getMessage()` is rendered by the model as the message text, and for a null pointer or an empty iterator as the exception's class name (Java would give null).
- Unicode: `toLowerCase`/`toUpperCase` are modelled on ASCII letters only. String comparison is by code point, whereas Java compares UTF-16 units; they differ only above U+FFFF.
- Connector.CloudStackConnector.CreateServer: the counter is an unbounded natural number, so the 64-bit wrap-around of the `long` counter is not modelled.
- Connector.CloudStackConnector.CreateMachine: the agent resolution data is a value computed before `createServer`. In the source `encodeAgentResolutionInfo` runs inside `createServer` after the counter increment, so a failure there would also advance the counter; the model does not capture that case.
- Connector.RecordIp: the address read from the listing is never null in the model (the source's `ip != null` test is always true), because every listed address is a trimmed text.
- CloudStackClient.Authenticate: states the direction "authenticates only with both keys and a clean listing reply" as an `ensures`. The full equivalence with `listServerIds` raising nothing is stated by `CloudStackClient.ListingMeaning` together with the function's definition.
