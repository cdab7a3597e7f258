# contrail: firewall rules, generated decoders, the etcd transaction layer and the API HTTP client

This project models four parts of the contrail configuration service and proves properties of them.

- **Firewall-rule validation** (`FirewallRules.dfy`). This covers:
  - the check that a global rule only refers to global resources;
  - the check that a rule has exactly one of a service and service-group references;
  - the default match tag;
  - turning a protocol name or number into a protocol ID;
  - the FQName of a tag as seen from a rule.

  Pure checks are functions. `AddDefaultMatchTag` and `SetProtocolID` assign fields through the receiver pointer, so they are methods of a class `FirewallRuleObject` that holds the rule. Each is proved against a function giving the rule afterwards.
- **The generated models** (`GenRefs.dfy`, `GenFirewallRule.dfy`, `GenVpnGroup.dfy`). These are `MakeFirewallRule`, `MakeVPNGroup` and the `InterfaceTo*` decoders that turn a decoded JSON value (Go `interface{}`) into a model.
  - `Dynamic.Value` is that value. The `common.InterfaceTo*` helpers, whose code is not part of this model, are function-typed fields of `Dynamic.Converters`.
  - The five reference-list decoders are textually identical apart from the struct they build. They share one loop, `GenRefs.InterfaceToRefs`, which is proved against the reference definition `GenRefs.RefsOf`.
  - Nested property types whose generated code is not part of this model (IdPermsType, PermType2, …) are the free terms `Made(type)` and `Converted(type, value)`.
- **The transactional access layer of the etcd client** (`EtcdTxn.dfy`), as `pkg/db/etcd/client_test.go` exercises it:
  - a transaction handle `StmTxn` that buffers `Put`s and serves `Get`s from the buffer before the store;
  - a context that may carry a handle;
  - `DoInTransaction`, which reuses a handle already in the context and otherwise opens one and commits its buffer on success;
  - the non-transactional `Delete`.

  The operation passed to `DoInTransaction` is a script of steps, run by `Run` against the handle and proved against the function `Exec`. pkg/db/etcd/client.go is not part of this model, so the model pins down only what the test shows.
- **The API server HTTP client** (`HttpClient.dfy`). This covers:
  - `checkStatusCode`, `getURL` and the header rule of `prepareHTTPRequest`;
  - `Login` and `doHTTPRequestRetryingOn401`;
  - `Do`, its five verbs, `DoRequest` and `Batch`.

  The client is a class `HTTP` whose state is the token, plus the network modelled as an oracle. The oracle is `replies`, the replies the transport will give in order, and an empty queue means a transport error. `log` records every exchange the client puts on the wire. Every method is proved equal to a specification function applied to the state before the call (`LoginSpec`, `RetrySpec`, `DoSpec`, `BatchSpec`), and the properties are proved about those functions.

Go's nil slices are `Option<seq<_>>`, and `ModelTypes.Elements` is what a `range` loop sees. Go's `int64` is the newtype `Dynamic.int64`. A Go runtime panic (a nil dereference, or a slice bound out of range) is an explicit error `RuntimePanic`, not a precondition.

## Model

| member | source | states |
|---|---|---|
| GenRefs.RefsOfItems | pkg/models/gen_firewall_rule.go:77-89 | nil as soon as some element is not a map; otherwise exactly one Ref per element, same length and order, with UUID from key "uuid" and To from key "to" |
| GenRefs.RefsOf | pkg/models/gen_firewall_rule.go:71-90 | anything but a list gives nil; for a list, nil iff some element is not a map, otherwise the Refs of the elements in order |
| GenRefs.InterfaceToRefs | pkg/models/gen_vpn_group.go:63-82 | the append loop returns exactly RefsOf of its input |
| GenFirewallRule.MakeFirewallRule | pkg/models/gen_firewall_rule.go:12-32 | empty strings, empty FQName, version 0, service and match tags non-nil, all four reference lists nil |
| GenFirewallRule.InterfaceToFirewallRule | pkg/models/gen_firewall_rule.go:36-69 | nil iff the input is not a map; each reference list is RefsOf the value under its own key |
| GenFirewallRule.UnknownKeysIgnored | pkg/models/gen_firewall_rule.go:42-68 | a key outside the twenty schema keys does not change the decoded rule |
| GenFirewallRule.MissingKeyIsNil | pkg/models/gen_firewall_rule.go:44-67 | an absent key decodes exactly like a key holding nil |
| GenFirewallRule.InterfaceToFirewallRuleSecurityLoggingObjectRefs | pkg/models/gen_firewall_rule.go:71-90 | returns RefsOf its input |
| GenFirewallRule.InterfaceToFirewallRuleVirtualNetworkRefs | pkg/models/gen_firewall_rule.go:92-111 | returns RefsOf its input |
| GenFirewallRule.InterfaceToFirewallRuleServiceGroupRefs | pkg/models/gen_firewall_rule.go:113-132 | returns RefsOf its input |
| GenFirewallRule.InterfaceToFirewallRuleAddressGroupRefs | pkg/models/gen_firewall_rule.go:134-153 | returns RefsOf its input |
| GenFirewallRule.MakeFirewallRuleSlice | pkg/models/gen_firewall_rule.go:157-159 | an empty slice that is not nil |
| GenFirewallRule.InterfaceToFirewallRuleSlice | pkg/models/gen_firewall_rule.go:163-173 | nil iff InterfaceToInterfaceList gives nil; otherwise same length, entry k is the decoded element k, and an entry is nil iff its element is not a map |
| GenVpnGroup.MakeVPNGroup | pkg/models/gen_vpn_group.go:12-31 | empty strings, zero progress and version, empty FQName, nil location refs |
| GenVpnGroup.InterfaceToVPNGroup | pkg/models/gen_vpn_group.go:35-61 | nil iff the input is not a map; location refs are RefsOf the value under "location_refs" |
| GenVpnGroup.UnknownKeysIgnored | pkg/models/gen_vpn_group.go:41-60 | a key outside the schema keys does not change the decoded group |
| GenVpnGroup.InterfaceToVPNGroupLocationRefs | pkg/models/gen_vpn_group.go:63-82 | returns RefsOf its input |
| GenVpnGroup.MakeVPNGroupSlice | pkg/models/gen_vpn_group.go:86-88 | an empty slice that is not nil |
| GenVpnGroup.InterfaceToVPNGroupSlice | pkg/models/gen_vpn_group.go:92-102 | nil iff InterfaceToInterfaceList gives nil; otherwise same length, entry k is the decoded element k |
| FirewallRules.CheckRefInSameScope | pkg/models/firewall_rule.go:58-72 | passes iff the reference's FQName has two elements; otherwise a bad-request error naming that reference |
| FirewallRules.CheckRefsInSameScope | pkg/models/firewall_rule.go:37-41 | passes iff every reference is global; a failure names the first reference that is not |
| FirewallRules.CheckAssociatedRefsInSameScope | pkg/models/firewall_rule.go:26-56 | a rule whose FQName length is not 2 passes; a global rule passes iff all its address-group, service-group and virtual-network refs are global; otherwise the first offender of the first failing list, in that order, as bad request |
| FirewallRules.CheckServiceProperties | pkg/models/firewall_rule.go:75-90 | passes iff exactly one of "service defined" and "some service-group ref" holds; neither gives ServiceMissing, both gives ServiceConflict, both bad request |
| FirewallRules.WithDefaultMatchTag | pkg/models/firewall_rule.go:93-99 | match tags are defined afterwards: nil becomes ["application"], defined tags are kept, and no other field changes |
| FirewallRules.DefaultMatchTagIdempotent | pkg/models/firewall_rule.go:93-99 | adding the default match tag twice is the same as once |
| FirewallRules.FirewallRuleObject.AddDefaultMatchTag | pkg/models/firewall_rule.go:93-99 | the rule held afterwards is WithDefaultMatchTag of the rule before |
| FirewallRules.ParseInt | pkg/models/firewall_rule.go:104 | strconv.ParseInt base 10: a string is accepted only if it is digits, '+' then digits or '-' then digits, and then reads as that (signed) decimal value; each of these forms is accepted exactly when the value fits in an int64 |
| FirewallRules.DecimalParses | pkg/models/firewall_rule.go:104 | every n below 2^63 written in decimal parses as n |
| FirewallRules.GetProtocolID | pkg/models/firewall_rule.go:101-114 | a result is in 0..255; a decimal number is accepted iff it is in 0..255 and gives itself; otherwise "any"/"icmp"/"tcp"/"udp" give 0/1/6/17; everything else is InvalidProtocol, bad request |
| FirewallRules.DecimalValue | pkg/models/firewall_rule.go:104 | the digits of the decimal spelling of n read back as n (the round trip that ParseInt relies on) |
| FirewallRules.ProtocolNumberAccepted | pkg/models/firewall_rule.go:101-114 | each protocol number 0..255 written in decimal is accepted as exactly that ID |
| FirewallRules.NegativeProtocolRejected | pkg/models/firewall_rule.go:109-111 | a negative number is rejected, though it parses |
| FirewallRules.WithProtocolID | pkg/models/firewall_rule.go:116-121 | without a service it panics and nothing changes; otherwise only the service's protocol ID changes, to getProtocolID's value or 0 on error, and the error comes back iff getProtocolID failed |
| FirewallRules.FirewallRuleObject.SetProtocolID | pkg/models/firewall_rule.go:116-121 | the rule held afterwards and the error returned are exactly WithProtocolID of the rule before |
| FirewallRules.GetTagFQName | pkg/models/firewall_rule.go:146-171 | no "=" is not-found; the "global:" prefix gives the one-element name after the prefix; policy-management and project parents give the FQName without its last two or one elements, then the tag; other parents are bad request; a panic exactly when the FQName is too short to slice |
| FirewallRules.MadeRuleIsValid | pkg/models/gen_firewall_rule.go:12-32 | a freshly made rule passes both checks and already has match tags |
| EtcdTxn.StmTxn.Put | pkg/db/etcd/client_test.go:112-118 | the buffer maps the key to the new value, replacing an earlier one; other keys are untouched |
| EtcdTxn.StmTxn.Get | pkg/db/etcd/client_test.go:113-119 | the value of the key in the store as the transaction sees it, the buffered writes over the store: a buffered value wins; otherwise the store's value (empty if absent) |
| EtcdTxn.GetTxn | pkg/db/etcd/client_test.go:110 | a handle comes back iff the context carries one, and it is the handle attached by WithTxn |
| EtcdTxn.Run | pkg/db/etcd/client_test.go:109-124 | running an operation against the context's handle matches Exec: the same error and the same buffer afterwards |
| EtcdTxn.Client.Delete | pkg/db/etcd/client_test.go:135-138 | never an error, also for an absent key; the key is gone and nothing else changes |
| EtcdTxn.Client.DoInTransaction | pkg/db/etcd/client_test.go:94-105 | with a handle in the context, the operation's own result comes back unchanged and the store is untouched; otherwise it runs on a fresh handle over the store and its writes are committed iff it succeeds |
| EtcdTxn.OwnWritesSucceedFrom | pkg/db/etcd/client_test.go:109-124 | from a buffer holding the last puts so far, an operation that reads only its own writes succeeds and keeps that invariant |
| EtcdTxn.OwnWritesSucceed | pkg/db/etcd/client_test.go:109-124 | whatever the store holds, an operation that reads only keys it has written succeeds, and its buffer holds the last value put under each key |
| EtcdTxn.ReadAfterPut | pkg/db/etcd/client_test.go:112-116 | a Get right after a Put of the same key sees the value put |
| EtcdTxn.SecondPutOverwrites | pkg/db/etcd/client_test.go:112-119 | a second Put of a key replaces the first in the buffer |
| EtcdTxn.GetTheKeyTwiceCommits | pkg/db/etcd/client_test.go:106-125 | the test's "get the key twice" operation succeeds on any store and leaves only the newer value buffered |
| EtcdTxn.DoInTransactionCases | pkg/db/etcd/client_test.go:86-148 | the three cases of the test on any store: no error, the operation's own error, no error; every deferred Delete succeeds; the third case commits the newer value |
| HttpClient.Member | pkg/apisrv/client/http.go:131-135 | the loop finds the code iff it is in the list |
| HttpClient.CheckStatusCode | pkg/apisrv/client/http.go:130-137 | nil iff the actual code is one of the expected ones; otherwise an error carrying both |
| HttpClient.GetURL | pkg/apisrv/client/http.go:232-234 | the URL is the endpoint followed by the path |
| HttpClient.WithAuthToken | pkg/apisrv/client/http.go:226-228 | a non-empty token is set as X-Auth-Token; an empty one leaves the request unchanged; no other header or field changes |
| HttpClient.PrepareHTTPRequest | pkg/apisrv/client/http.go:204-230 | method, endpoint+path URL and body as given; Content-Type is application/json; X-Auth-Token is present iff the token is non-empty and then equals it; no other header |
| HttpClient.Transmit | pkg/apisrv/client/http.go:248 | one send logs the exchange and takes the next reply; with none left the transport fails |
| HttpClient.HTTP.Send | pkg/apisrv/client/http.go:248 | h.httpClient.Do on the client's network: reply and new state are Transmit of the state before |
| HttpClient.LoginSpec | pkg/apisrv/client/http.go:79-128 | no auth URL: no exchange, no error; otherwise one token request to authURL/auth/tokens that succeeds iff it gets 201 and a decodable body; the token changes only on success, to X-Subject-Token |
| HttpClient.HTTP.Login | pkg/apisrv/client/http.go:79-128 | the new state and the error are LoginSpec of the state before |
| HttpClient.RetrySpec | pkg/apisrv/client/http.go:236-274 | first send is the request as given; at most two API sends, with a login only between them and only after a first 401 whose body closed; a non-401 first answer is returned at once; a 401 is returned only from the second attempt, which carries the token after login; a response iff no error |
| HttpClient.RetryOutcomes | pkg/apisrv/client/http.go:246-273 | every exit of the loop: a first transport error gives IssuingFailed; after a first 401 a failing close gives ClosingFailed with no login, a login error is returned with no second send, and after a successful login the request with the new token is sent again and its reply, 401 included, is the answer, or its transport error IssuingFailed |
| HttpClient.RetryRefreshesExpiredToken | pkg/apisrv/client/http.go:252-270 | 401, then a successful login giving token t, then an answer: the answer is returned, the client holds t, and the retried request carries X-Auth-Token t |
| HttpClient.HTTP.DoHTTPRequestRetryingOn401 | pkg/apisrv/client/http.go:236-274 | the loop's result and new state are RetrySpec of the state before |
| HttpClient.DoSpec | pkg/apisrv/client/http.go:170-202 | the network effect is RetrySpec's on the prepared request; an error of the retry loop is returned with no response; otherwise the response is the loop's; no error implies an expected status; an unexpected status is reported with the response; with an expected status, success iff the method is DELETE or the body decodes |
| HttpClient.HTTP.Do | pkg/apisrv/client/http.go:170-202 | the result and new state are DoSpec of the state before |
| HttpClient.VerbAcceptance | pkg/apisrv/client/http.go:139-167 | Create accepts only 201, Read and Update only 200, Delete only 204, EnsureDeleted 204 or 404 |
| HttpClient.HTTP.Create | pkg/apisrv/client/http.go:140-143 | Do with POST and the expected code 201 |
| HttpClient.HTTP.Read | pkg/apisrv/client/http.go:146-149 | Do with GET, no body, expected code 200 |
| HttpClient.HTTP.Update | pkg/apisrv/client/http.go:152-155 | Do with PUT and the expected code 200 |
| HttpClient.HTTP.Delete | pkg/apisrv/client/http.go:158-161 | Do with DELETE, no body, expected code 204 |
| HttpClient.HTTP.EnsureDeleted | pkg/apisrv/client/http.go:164-167 | Do with DELETE, no body, expected codes 204 and 404 |
| HttpClient.HTTP.DoRequest | pkg/apisrv/client/http.go:277-279 | Do with the request's method, path, data and expected codes |
| HttpClient.BatchSpec | pkg/apisrv/client/http.go:282-290 | the requests in order; a failure reports an index within the list |
| HttpClient.BatchStopsAtFirstFailure | pkg/apisrv/client/http.go:283-288 | a failure at index i means every earlier request succeeded, request i failed with the reported cause from the state they left, and no later request was sent |
| HttpClient.BatchIgnoresRest | pkg/apisrv/client/http.go:283-288 | requests after a failing one change neither the outcome nor the network |
| HttpClient.HTTP.Batch | pkg/apisrv/client/http.go:282-290 | the loop's error and new state are BatchSpec of the state before |

## Left out

- FirewallRule.CheckEndpoints: it relies on ValidateEndpointType, whose code is not part of this model.
- FirewallRule.GetEndpoints: it only pairs pointers and has no logic.
- FirewallRule.GetTagRefs: it is a stub that always returns an empty list.
- Error message texts: only the error kind and its HTTP class (bad request, not found) are modelled.
- `getReferredKind` and the title-casing of it: the model carries the kind of the list being walked instead.
- FirewallServiceType: only the protocol and protocol ID are modelled; its other fields, such as ports, are not.
- SetProtocolID writes through the shared `Service` pointer. The model updates a value, so aliasing of that struct with other rules is not captured.
- The nested generated types (IdPermsType, KeyValuePairs, PermType2, FirewallRuleEndpointType, ActionListType, FirewallRuleMatchTagsTypeIdList) are free terms; their decoders are not part of this model.
- The common.InterfaceTo* helpers, InterfaceToFirewallServiceType and InterfaceToFirewallRuleMatchTagsType are left uninterpreted.
- EtcdTxn.Client.DoInTransaction: the real commit compares the revisions of every key read and retries on conflict. Here, concurrency, revisions and read sets are absent, so the commit is one atomic application of the buffered writes and never conflicts.
- Cancellation through the context and retry budgets are not modelled.
- EtcdTxn.StmTxn.Get: a key absent from both the buffer and the store reads as empty bytes. The store read path is not part of this model.
- NewClient and TestNewClient (the TLS configuration and the connection to etcd) need a running store and are not modelled.
- NewHTTP and Init: the TLS transport setup is configuration only.
- Debug logging and `httputil.DumpResponse` are not modelled.
- The JSON encoding of the keystone auth request and of request data is not modelled.
- The failure paths of `json.Marshal` and `http.NewRequest` in Login and prepareHTTPRequest are not modelled: the model cannot fail there.
- HttpClient.DoSpec: the response body is reduced to "decodes or not". The decoded output value is not modelled.
- The deferred `resp.Body.Close()` in Login and Do is not modelled, because its error is ignored.
- HttpClient.RetrySpec: the retried request is the same request value sent again. With net/http, a request body read by the first send is not rewound, so a retried Create, Update or DoRequest with data sends an exhausted body and can fail in the transport; the oracle does not constrain the second reply of a request with a body.
- HttpClient.RetrySpec: it is written out for the source's retryCount of 2; `DoHTTPRequestRetryingOn401` loops up to `RetryCount`, and its invariants also assume the value 2.
