# IReV HTTP client, modelled in Dafny

A model of `IrevHttpApi`, the typed client for INEC's IReV election-results
API (election types, elections, states, LGAs, wards, polling units and their
result documents). The client holds a pool of bearer tokens and a pool of API
hosts. Each call picks one of each at random and issues one authenticated GET
against `/api/v1`. It unwraps the `{success, data}` envelope or raises
`IrevApiError`. Two polling-unit endpoints also flatten a nested ward object
to its identifier.

Files:

- `wrappers.dfy`: `Option` and `Result`.
- `entities.dfy`: the record shapes of `src/core/entities.ts`. JSON `_id` is
  written `id`, and snake_case fields are written in camelCase. A polling
  unit's `ward` is a `WardRef`: the declared identifier, or the whole `Ward`
  object that two endpoints return.
- `irev_support.dfy`: `nonEmpty` with JavaScript truthiness, the default
  hosts and user agent, and `sample`. `Math.random()` is a `roll` in [0, 1),
  and the index taken is `Floor(roll * n)`.
- `irev_http.dfy`: the request and the response. This covers the URL
  `host + "/api/v1" + path + "?" + params`, the three headers, the query
  string, the decimal text of a number in a template string, and the
  classification of a response into `data`, `IrevApiError` or `TypeError`,
  including a `fetch` that rejects.
- `irev_api.dfy`: the endpoint paths, `flattenPollingUnitWard` and the class
  `IrevHttpApi`. The class has its configuration, `request` and the eight
  endpoints.

The network is not modelled as I/O. `fetch` is a parameter: a function from
the request sent to what it settles to, a response or a network failure. Each endpoint returns a `Call`,
which holds the request issued (if any) and what the call resolves to or
rejects with. The argument and configuration checks throw a plain JavaScript
`Error`, as the code does. Status, parse and `success` failures are
`IrevApiError`, and each carries the response it was raised for. Two of the `TypeError`
failures are modelled: a `fetch` that rejects, and an ok response whose body
is `null`, where reading `success` fails.

## Model

| member | source | states |
|---|---|---|
| `IrevSupport.NonEmpty` | src/services/irev_api/index.ts:14-24 | the value if it is truthy and (for an array) non-empty; otherwise the default if that is truthy; otherwise a thrown `Error` with the fixed message |
| `IrevSupport.NonEmptyWithUsableDefault` | src/services/irev_api/index.ts:14-24 | with a usable default, `nonEmpty` never throws and returns the value or the default, whichever is usable |
| `IrevSupport.NonEmptyWithoutDefault` | src/services/irev_api/index.ts:14-24 | with no default, `nonEmpty` succeeds exactly when the value is usable, and then returns it unchanged |
| `IrevSupport.SampleIndex` | src/services/irev_api/index.ts:26-28 | `Math.floor(Math.random() * n)` is an index in [0, n) |
| `IrevSupport.Sample` | src/services/irev_api/index.ts:26-28 | the sampled element is a member of the array |
| `IrevSupport.SampleReachesEvery` | src/services/irev_api/index.ts:26-28 | every element of the pool is chosen by some roll in [0, 1) |
| `IrevHttp.EncodeQuery` | src/services/irev_api/index.ts:150 | the query string is empty exactly when there are no parameters; one parameter gives `key=value` |
| `IrevHttp.Url` | src/services/irev_api/index.ts:153 | the URL starts with the host, then `/api/v1` and the path, then always a `?`, followed by exactly the encoded query (nothing when there are no parameters) |
| `IrevHttp.Headers` | src/services/irev_api/index.ts:154-158 | the headers are `Accept: application/json`, `Authorization: Bearer <token>` and `User-Agent: <agent>` |
| `IrevHttp.Classify` | src/services/irev_api/index.ts:162-175 | success exactly when the status is ok, the body parses to an envelope and `success` is truthy; the result is then `data`; an ok response with a `null` body fails with `TypeError`; every other failure is `IrevApiError` carrying the same response |
| `IrevHttp.Settle` | src/services/irev_api/index.ts:153-175 | a `fetch` that rejects fails the call with its `TypeError`, unwrapped; a received response is classified |
| `IrevHttp.DecimalString` | src/services/irev_api/index.ts:120 | the interpolated state number is a non-empty run of digits with no leading zero |
| `IrevHttp.DecimalRoundTrip` | src/services/irev_api/index.ts:120 | the decimal text of a number reads back as that number |
| `IrevHttp.DecimalStringInjective` | src/services/irev_api/index.ts:120 | different numbers give different decimal texts |
| `IrevApi.LgasByStatePathInjective` | src/services/irev_api/index.ts:120 | within one election, different state numbers give different `getLGAsByState` paths |
| `IrevApi.FlattenPollingUnitWard` | src/services/irev_api/index.ts:178-183 | the copy has the nested ward's `_id` as its ward and agrees with the input on every other field |
| `IrevApi.FlattenResult` | src/services/irev_api/index.ts:133 | one element after its `polling_unit` is replaced: the ward is flattened, and `document` and `old_documents` are unchanged |
| `IrevApi.FlattenWards` | src/services/irev_api/index.ts:132-134 | the `forEach` rewrites every element of the array in place to its flattened form, and changes nothing else |
| `IrevApi.IrevHttpApi.constructor` | src/services/irev_api/index.ts:87-91 | stores the three checked fields; the object satisfies `Valid()` |
| `IrevApi.IrevHttpApi.Create` | src/services/irev_api/index.ts:87-91 | construction throws exactly when the token list is empty; otherwise the tokens are kept, empty or missing hosts become the three default hosts, an empty or missing agent becomes the Safari agent, and all three are non-empty |
| `IrevApi.IrevHttpApi.IssuedHeaders` | src/services/irev_api/index.ts:148-158 | an issued request carries `Accept: application/json`, the configured agent and a bearer token from the pool; its URL starts with a pooled host and has `?` right after the path |
| `IrevApi.IrevHttpApi.Request` | src/services/irev_api/index.ts:147-176 | exactly one request is issued, to a pooled host with a pooled token, and the call settles as `fetch`'s outcome is settled |
| `IrevApi.IrevHttpApi.GetElectionTypes` | src/services/irev_api/index.ts:93-95 | one request to `/election-types` with no parameters, resolving to the envelope's data or rejecting with `IrevApiError` or a `TypeError` |
| `IrevApi.IrevHttpApi.GetElections` | src/services/irev_api/index.ts:97-99 | one request to `/elections?election_type=<type>`, resolving as `request` classifies |
| `IrevApi.IrevHttpApi.GetElection` | src/services/irev_api/index.ts:101-103 | one request to `/election-reports/election/<id>`, resolving as `request` classifies |
| `IrevApi.IrevHttpApi.GetElectionStats` | src/services/irev_api/index.ts:105-112 | one request to `/elections/<id>/result/stats`; on success `total` is the upstream `pus` and `submitted` is `documents`; a failure propagates unchanged |
| `IrevApi.IrevHttpApi.GetLgasByState` | src/services/irev_api/index.ts:114-121 | no request is issued, and a plain `Error` is thrown, exactly when the state number is below 1 or above 37; otherwise one request to `/elections/<election>/lga/state/<n>` |
| `IrevApi.IrevHttpApi.GetLga` | src/services/irev_api/index.ts:123-125 | one request to `/elections/<election>/lga/<lga>`, resolving as `request` classifies |
| `IrevApi.IrevHttpApi.GetPollingUnitsByWard` | src/services/irev_api/index.ts:127-137 | one request to `/elections/<election>/pus?ward=<ward>`; on success the result keeps the length and order of the data, and each element is that element with its ward flattened; a failure propagates unchanged |
| `IrevApi.IrevHttpApi.GetPollingUnit` | src/services/irev_api/index.ts:139-145 | one request to `/elections/<election>/pu/<id>`; on success the result is the data with its ward flattened; a failure propagates unchanged |

## Left out

- `fetch`, `response.json()` and the async/Promise machinery are network I/O. The response is an input value, and `fetch` is a function parameter. The parse result is one of three cases: unparsable, `null`, or an envelope. A body that parses to some other non-object value is not modelled. `keepalive: true` is kept only as a flag on the request.
- `IrevSupport.SampleIndex`: `Math.random()` is a real roll in [0, 1). Floating-point rounding of `roll * n` is not modelled, and neither is the uniform distribution of the choice.
- `IrevHttp.EncodeQuery`: `URLSearchParams` percent-encoding is not modelled. Keys and values are written as they are.
- `IrevApi.IrevHttpApi.GetLgasByState`: `state_id` is a JavaScript number, but the model takes integers. A fractional value or `NaN` also passes the source's guard, and the model does not represent such values.
- `getLGAsByState` throws synchronously, while the other failures reject the returned promise. The model does not tell these two apart.
- Raw responses of the two polling-unit endpoints are typed as carrying a whole ward object, as `flattenPollingUnitWard`'s parameter type declares. What happens when the server sends an identifier there instead is not modelled.
- IrevApi.IrevHttpApi.Create: the model stores copies of the token and host lists. The source keeps the caller's arrays by reference, so a caller that later empties one would make `sample` yield `undefined` (a `Bearer undefined` token or an `undefined` host). The model assumes callers never change the arrays they passed.
- The envelope's `data` is assumed to have the declared shape. The `TypeError`s that arise when it does not are not modelled: reading `pus` of a `null` or missing `data` in `getElectionStats`, calling `forEach` on a `data` that is not an array in `getPollingUnitsByWard`, reading `polling_unit` of a `null` `data` in `getPollingUnit`, and reading `ward._id` when `polling_unit` or its `ward` is `null` or missing in `flattenPollingUnitWard`.
- The `authTokens` property is required by the constructor's TypeScript type. Omitting it altogether is not modelled.
- The message of `IrevApiError` is a constant. The model keeps only the response it carries.
- JSON fields beyond the declared record shapes are not modelled. The `Status` enum of `src/core/entities.ts` is used by no code, so it is not modelled either.
- `src/index.ts` is a manual script that calls the client and writes the results to files. It has no logic of its own, and it is not part of this model.
