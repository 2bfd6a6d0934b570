/**
 * The IReV HTTP client `IrevHttpApi` (src/services/irev_api/index.ts): its
 * configuration, its eight endpoints and the ward fix-up two of them apply.
 *
 * Each endpoint takes the two `Math.random()` draws of its request (token,
 * then host) and the network as `fetch`, and yields a `Call`: the request it
 * issued and what it resolves to or rejects with.
 */
module IrevApi {
  import opened Wrappers
  import opened Entities
  import opened IrevSupport
  import opened IrevHttp

  const StateIdMessage: string := "State ID should be a number between 1 and 37 inclusive"

  /** The constructor's argument; `userAgent` and `hosts` may be omitted. */
  datatype Props = Props(authTokens: seq<string>, userAgent: Option<string>, hosts: Option<seq<string>>)

  /** One element of `getLGAsByState`, and the result of `getLGA`. */
  datatype LgaApiResult = LgaApiResult(wards: seq<Ward>, lga: Lga, state: State)

  /** A polling unit with its current and historical result documents. */
  datatype PUApiResult = PUApiResult(pollingUnit: PollingUnit, document: Document, oldDocuments: seq<Document>)

  /** The statistics as the upstream service names them. */
  datatype IrevStats = IrevStats(pus: int, documents: int)

  /** A polling unit as the two polling-unit endpoints return it: its ward is a whole object. */
  type RawPollingUnit = pu: PollingUnit | pu.ward.WardObject?
    witness PollingUnit("", "", "", "", "", 0, "", false, 0,
                        WardObject(Ward("", "", "", "", "", 0, "", "", 0, "", 0, "", 0, "", 0, "", 0)),
                        "", "", 0)

  type RawPUApiResult = r: PUApiResult | r.pollingUnit.ward.WardObject?
    witness PUApiResult(PollingUnit("", "", "", "", "", 0, "", false, 0,
                                    WardObject(Ward("", "", "", "", "", 0, "", "", 0, "", 0, "", 0, "", 0, "", 0)),
                                    "", "", 0),
                        Document(false, 0, "", 0, "", ""), [])

  // The endpoint paths. Identifiers are interpolated as they are, without escaping.

  const ElectionTypesPath: string := "/election-types"

  const ElectionsPath: string := "/elections"

  function ElectionPath(id: string): string {
    "/election-reports/election/" + id
  }

  function ElectionStatsPath(id: string): string {
    "/elections/" + id + "/result/stats"
  }

  function LgasByStatePrefix(election: string): string {
    "/elections/" + election + "/lga/state/"
  }

  function LgasByStatePath(election: string, stateId: nat): string {
    LgasByStatePrefix(election) + DecimalString(stateId)
  }

  function LgaPath(election: string, lga: string): string {
    "/elections/" + election + "/lga/" + lga
  }

  function PollingUnitsPath(election: string): string {
    "/elections/" + election + "/pus"
  }

  function PollingUnitPath(election: string, pollingUnit: string): string {
    "/elections/" + election + "/pu/" + pollingUnit
  }

  /** Within one election, the path of `getLGAsByState` names its state: different states, different paths. */
  lemma LgasByStatePathInjective(election: string, s: nat, t: nat)
    requires LgasByStatePath(election, s) == LgasByStatePath(election, t)
    ensures s == t
  {
    var prefix := LgasByStatePrefix(election);
    assert DecimalString(s) == LgasByStatePath(election, s)[|prefix|..];
    assert DecimalString(t) == LgasByStatePath(election, t)[|prefix|..];
    DecimalStringInjective(s, t);
  }

  /** Two polling units agree on every field except `ward`. */
  predicate SameExceptWard(a: PollingUnit, b: PollingUnit) {
    && a.id == b.id && a.createdAt == b.createdAt && a.updatedAt == b.updatedAt
    && a.name == b.name && a.code == b.code
    && a.pollingUnitId == b.pollingUnitId
    && a.oldName == b.oldName
    && a.isAccredited == b.isAccredited
    && a.wardId == b.wardId
    && a.puCode == b.puCode
    && a.puCodeString == b.puCodeString
    && a.batch == b.batch
  }

  /** `flattenPollingUnitWard`: a copy of the unit whose ward is the nested ward's identifier. */
  function FlattenPollingUnitWard(pu: RawPollingUnit): (r: PollingUnit)
    ensures r.ward == WardId(pu.ward.full.id)
    ensures SameExceptWard(pu, r)
  {
    pu.(ward := WardId(pu.ward.full.id))
  }

  /** One element after `data.polling_unit = this.flattenPollingUnitWard(data.polling_unit)`. */
  function FlattenResult(raw: RawPUApiResult): (r: PUApiResult)
    ensures r.pollingUnit.ward == WardId(raw.pollingUnit.ward.full.id)
    ensures SameExceptWard(raw.pollingUnit, r.pollingUnit)
    ensures r.document == raw.document && r.oldDocuments == raw.oldDocuments
  {
    raw.(pollingUnit := FlattenPollingUnitWard(raw.pollingUnit))
  }

  /** The `forEach` of `getPollingUnitsByWard`: flattens the ward of every element in place. */
  method FlattenWards(a: array<PUApiResult>)
    requires forall i :: 0 <= i < a.Length ==> a[i].pollingUnit.ward.WardObject?
    modifies a
    ensures forall i :: 0 <= i < a.Length ==> a[i] == FlattenResult(old(a[i]))
  {
    for i := 0 to a.Length
      invariant forall k :: 0 <= k < i ==> a[k] == FlattenResult(old(a[k]))
      invariant forall k :: i <= k < a.Length ==> a[k] == old(a[k])
    {
      a[i] := a[i].(pollingUnit := FlattenPollingUnitWard(a[i].pollingUnit));
    }
  }

  function StringsValue(o: Option<seq<string>>): Value {
    match o
    case None => Undefined
    case Some(items) => Strings(items)
  }

  function StringValue(o: Option<string>): Value {
    match o
    case None => Undefined
    case Some(text) => Str(text)
  }

  class IrevHttpApi {
    /** Bearer tokens, one chosen per request. */
    const authTokens: seq<string>
    /** The User-Agent of every request. */
    const userAgent: string
    /** API hosts, one chosen per request. */
    const hosts: seq<string>

    /** What construction guarantees: every pool and the agent are non-empty. */
    ghost predicate Valid() {
      |authTokens| > 0 && |hosts| > 0 && userAgent != ""
    }

    /** Stores fields that `Create` has already checked. */
    constructor (authTokens: seq<string>, hosts: seq<string>, userAgent: string)
      requires |authTokens| > 0 && |hosts| > 0 && userAgent != ""
      ensures Valid()
      ensures this.authTokens == authTokens && this.hosts == hosts && this.userAgent == userAgent
    {
      this.authTokens := authTokens;
      this.hosts := hosts;
      this.userAgent := userAgent;
    }

    /**
     * `new IrevHttpApi(props)`: the tokens are required, the hosts and the
     * agent fall back to their defaults when omitted or empty. Construction
     * throws exactly when there are no tokens.
     */
    static method Create(props: Props) returns (r: Result<IrevHttpApi, Error>)
      ensures r.Success? <==> |props.authTokens| > 0
      ensures r.Failure? ==> r.error == Error(NonEmptyMessage)
      ensures r.Success? ==> fresh(r.value) && r.value.Valid()
      ensures r.Success? ==> r.value.authTokens == props.authTokens
      ensures r.Success? ==>
                r.value.hosts == (if props.hosts.Some? && |props.hosts.value| > 0 then props.hosts.value else DefaultHosts)
      ensures r.Success? ==>
                r.value.userAgent == (if props.userAgent.Some? && props.userAgent.value != "" then props.userAgent.value else SafariBrowser)
    {
      var tokens := NonEmpty(Strings(props.authTokens), Undefined);
      if tokens.Failure? {
        return Failure(tokens.error);
      }
      NonEmptyWithUsableDefault(StringsValue(props.hosts), Strings(DefaultHosts));
      var hosts := NonEmpty(StringsValue(props.hosts), Strings(DefaultHosts));
      NonEmptyWithUsableDefault(StringValue(props.userAgent), Str(SafariBrowser));
      var userAgent := NonEmpty(StringValue(props.userAgent), Str(SafariBrowser));
      var api := new IrevHttpApi(tokens.value.items, hosts.value.items, userAgent.value.text);
      return Success(api);
    }

    /** A request went to `path` with query `q`, to a configured host, with a configured token. */
    ghost predicate IssuedTo(req: HttpRequest, path: string, q: Query) {
      && (exists host :: host in hosts && req.url == Url(host, path, q))
      && (exists token :: token in authTokens && req.headers == Headers(token, userAgent))
      && req.keepalive
    }

    /** A call issued its request to `path` and settles as `request` settles its response. */
    ghost predicate Forwards<D>(c: Call<D, D>, path: string, q: Query, fetch: HttpRequest -> Fetched<D>) {
      c.sent.Some? && IssuedTo(c.sent.value, path, q) && c.result == Settle(fetch(c.sent.value))
    }

    /**
     * An issued request asks for JSON, authenticates with a configured token,
     * sends the configured agent, and goes to a configured host with `?` right
     * after the path.
     */
    lemma IssuedHeaders(req: HttpRequest, path: string, q: Query)
      requires IssuedTo(req, path, q)
      ensures HeaderValue(req.headers, "Accept") == Some("application/json")
      ensures HeaderValue(req.headers, "User-Agent") == Some(userAgent)
      ensures exists token :: token in authTokens && HeaderValue(req.headers, "Authorization") == Some("Bearer " + token)
      ensures exists host :: host in hosts && |req.url| > |host| + |ApiPrefix| + |path|
                             && req.url[..|host|] == host && req.url[|host| + |ApiPrefix| + |path|] == '?'
    {
      var token :| token in authTokens && req.headers == Headers(token, userAgent);
      var host :| host in hosts && req.url == Url(host, path, q);
      assert HeaderValue(req.headers, "Authorization") == Some("Bearer " + token);
    }

    /** `request(path, queryParams)`: one GET to a sampled host with a sampled token, settled. */
    function Request<D>(path: string, q: Query, tokenRoll: real, hostRoll: real,
                        fetch: HttpRequest -> Fetched<D>): (c: Call<D, D>)
      requires Valid() && Roll(tokenRoll) && Roll(hostRoll)
      ensures Forwards(c, path, q, fetch)
    {
      var token := Sample(authTokens, tokenRoll);
      var host := Sample(hosts, hostRoll);
      var req := HttpRequest(Url(host, path, q), Headers(token, userAgent), true);
      Call(Some(req), Settle(fetch(req)))
    }

    /** `getElectionTypes()`: GET /election-types. */
    function GetElectionTypes(tokenRoll: real, hostRoll: real, fetch: HttpRequest -> Fetched<seq<ElectionType>>)
      : (c: Call<seq<ElectionType>, seq<ElectionType>>)
      requires Valid() && Roll(tokenRoll) && Roll(hostRoll)
      ensures Forwards(c, ElectionTypesPath, [], fetch)
    {
      Request(ElectionTypesPath, [], tokenRoll, hostRoll, fetch)
    }

    /** `getElections(election_type)`: GET /elections?election_type=... */
    function GetElections(electionType: string, tokenRoll: real, hostRoll: real,
                          fetch: HttpRequest -> Fetched<seq<Election>>)
      : (c: Call<seq<Election>, seq<Election>>)
      requires Valid() && Roll(tokenRoll) && Roll(hostRoll)
      ensures Forwards(c, ElectionsPath, [("election_type", electionType)], fetch)
    {
      Request(ElectionsPath, [("election_type", electionType)], tokenRoll, hostRoll, fetch)
    }

    /** `getElection(id)`: GET /election-reports/election/{id}. */
    function GetElection(id: string, tokenRoll: real, hostRoll: real, fetch: HttpRequest -> Fetched<Election>)
      : (c: Call<Election, Election>)
      requires Valid() && Roll(tokenRoll) && Roll(hostRoll)
      ensures Forwards(c, ElectionPath(id), [], fetch)
    {
      Request(ElectionPath(id), [], tokenRoll, hostRoll, fetch)
    }

    /** `getElectionStats(id)`: GET /elections/{id}/result/stats, with `pus` as `total` and `documents` as `submitted`. */
    function GetElectionStats(id: string, tokenRoll: real, hostRoll: real, fetch: HttpRequest -> Fetched<IrevStats>)
      : (c: Call<ElectionPollStats, IrevStats>)
      requires Valid() && Roll(tokenRoll) && Roll(hostRoll)
      ensures c.sent.Some? && IssuedTo(c.sent.value, ElectionStatsPath(id), [])
      ensures Settle(fetch(c.sent.value)).Failure? ==> c.result == Failure(Settle(fetch(c.sent.value)).error)
      ensures Settle(fetch(c.sent.value)).Success? ==>
                c.result.Success?
                && c.result.value.total == Settle(fetch(c.sent.value)).value.pus
                && c.result.value.submitted == Settle(fetch(c.sent.value)).value.documents
    {
      var call := Request(ElectionStatsPath(id), [], tokenRoll, hostRoll, fetch);
      match call.result
      case Failure(e) => Call(call.sent, Failure(e))
      case Success(irevStats) => Call(call.sent, Success(ElectionPollStats(irevStats.pus, irevStats.documents)))
    }

    /**
     * `getLGAsByState(election, state_id)`: throws a plain `Error`, before any
     * request, for a state outside 1..37 (36 states and the FCT); otherwise
     * GET /elections/{election}/lga/state/{state_id}.
     */
    function GetLgasByState(election: string, stateId: int, tokenRoll: real, hostRoll: real,
                            fetch: HttpRequest -> Fetched<seq<LgaApiResult>>)
      : (c: Call<seq<LgaApiResult>, seq<LgaApiResult>>)
      requires Valid() && Roll(tokenRoll) && Roll(hostRoll)
      ensures c.sent.None? <==> stateId < 1 || stateId > 37
      ensures c.sent.None? ==> c.result == Failure(Thrown(Error(StateIdMessage)))
      ensures 1 <= stateId <= 37 ==> Forwards(c, LgasByStatePath(election, stateId), [], fetch)
    {
      if stateId < 1 || stateId > 37 then
        Call(None, Failure(Thrown(Error(StateIdMessage))))
      else
        Request(LgasByStatePath(election, stateId), [], tokenRoll, hostRoll, fetch)
    }

    /** `getLGA(election, lga)`: GET /elections/{election}/lga/{lga}. */
    function GetLga(election: string, lga: string, tokenRoll: real, hostRoll: real,
                    fetch: HttpRequest -> Fetched<LgaApiResult>)
      : (c: Call<LgaApiResult, LgaApiResult>)
      requires Valid() && Roll(tokenRoll) && Roll(hostRoll)
      ensures Forwards(c, LgaPath(election, lga), [], fetch)
    {
      Request(LgaPath(election, lga), [], tokenRoll, hostRoll, fetch)
    }

    /**
     * `getPollingUnitsByWard(election, ward)`: GET /elections/{election}/pus?ward=...,
     * then the ward of every element is flattened in place.
     */
    method GetPollingUnitsByWard(election: string, ward: string, tokenRoll: real, hostRoll: real,
                                 fetch: HttpRequest -> Fetched<seq<RawPUApiResult>>)
      returns (c: Call<seq<PUApiResult>, seq<RawPUApiResult>>)
      requires Valid() && Roll(tokenRoll) && Roll(hostRoll)
      ensures c.sent.Some? && IssuedTo(c.sent.value, PollingUnitsPath(election), [("ward", ward)])
      ensures Settle(fetch(c.sent.value)).Failure? ==> c.result == Failure(Settle(fetch(c.sent.value)).error)
      ensures Settle(fetch(c.sent.value)).Success? ==>
                var raw := Settle(fetch(c.sent.value)).value;
                && c.result.Success?
                && |c.result.value| == |raw|
                && forall i :: 0 <= i < |raw| ==> c.result.value[i] == FlattenResult(raw[i])
    {
      var call := Request(PollingUnitsPath(election), [("ward", ward)], tokenRoll, hostRoll, fetch);
      match call.result {
        case Failure(e) =>
          c := Call(call.sent, Failure(e));
        case Success(data) =>
          var rawData := new PUApiResult[|data|](i requires 0 <= i < |data| => data[i]);
          FlattenWards(rawData);
          c := Call(call.sent, Success(rawData[..]));
      }
    }

    /**
     * `getPollingUnit(election, polling_unit)`: GET /elections/{election}/pu/{polling_unit},
     * then the result's ward is flattened.
     */
    method GetPollingUnit(election: string, pollingUnit: string, tokenRoll: real, hostRoll: real,
                          fetch: HttpRequest -> Fetched<RawPUApiResult>)
      returns (c: Call<PUApiResult, RawPUApiResult>)
      requires Valid() && Roll(tokenRoll) && Roll(hostRoll)
      ensures c.sent.Some? && IssuedTo(c.sent.value, PollingUnitPath(election, pollingUnit), [])
      ensures Settle(fetch(c.sent.value)).Failure? ==> c.result == Failure(Settle(fetch(c.sent.value)).error)
      ensures Settle(fetch(c.sent.value)).Success? ==>
                c.result == Success(FlattenResult(Settle(fetch(c.sent.value)).value))
    {
      var call := Request(PollingUnitPath(election, pollingUnit), [], tokenRoll, hostRoll, fetch);
      match call.result {
        case Failure(e) =>
          c := Call(call.sent, Failure(e));
        case Success(raw) =>
          var rawData: PUApiResult := raw;
          rawData := rawData.(pollingUnit := FlattenPollingUnitWard(raw.pollingUnit));
          c := Call(call.sent, Success(rawData));
      }
    }
  }
}
