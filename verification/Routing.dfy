/** Model routing: which endpoint serves which agent's model. */
module Routing {
  import opened Prelude
  import opened Sequences

  /** One entry of the endpoints dictionary. */
  datatype Endpoint = Endpoint(alias: string, apiKeyEnv: string, models: seq<string>)

  /** One agent's settings; validation fills in the alias. */
  class AgentModelConfig {
    const model: string
    var endpointAlias: string

    constructor (model: string)
      ensures this.model == model && endpointAlias == ""
    {
      this.model := model;
      endpointAlias := "";
    }
  }

  /** One entry of the agents dictionary. */
  datatype Agent = Agent(name: string, config: AgentModelConfig)

  datatype Outcome =
    | Valid
    | DuplicateModel(model: string)
    | UndeclaredModel(agent: string)

  // ------------------------------------------------------------ specification

  /** Every listing of every model, with multiplicity. */
  function Listings(endpoints: seq<Endpoint>): multiset<string> {
    if endpoints == [] then multiset{}
    else Listings(endpoints[..|endpoints| - 1]) + multiset(endpoints[|endpoints| - 1].models)
  }

  ghost predicate NoModelTwice(endpoints: seq<Endpoint>) {
    forall m | m in Listings(endpoints) :: Listings(endpoints)[m] == 1
  }

  ghost predicate Serves(endpoints: seq<Endpoint>, alias: string, model: string) {
    exists e | e in endpoints :: e.alias == alias && model in e.models
  }

  /** A dictionary has each key once. */
  ghost predicate DistinctAliases(endpoints: seq<Endpoint>) {
    forall i, j | 0 <= i < j < |endpoints| :: endpoints[i].alias != endpoints[j].alias
  }

  lemma {:induction false} ListedIsServed(endpoints: seq<Endpoint>, model: string)
    ensures model in Listings(endpoints) <==> exists e | e in endpoints :: model in e.models
  {
    if endpoints != [] {
      var before, last := endpoints[..|endpoints| - 1], endpoints[|endpoints| - 1];
      ListedIsServed(before, model);
      assert endpoints == before + [last];
      assert model in multiset(last.models) <==> model in last.models;
      if e :| e in endpoints && model in e.models {
        assert e in before || e == last;
      }
      if e :| e in before && model in e.models {
        assert e in endpoints;
      }
    }
  }

  lemma {:induction false} ListedPerEndpoint(endpoints: seq<Endpoint>, i: nat, model: string)
    requires i < |endpoints|
    ensures multiset(endpoints[i].models)[model] <= Listings(endpoints)[model]
  {
    var last := |endpoints| - 1;
    if i < last {
      ListedPerEndpoint(endpoints[..last], i, model);
    }
  }

  lemma {:induction false} ListedByTwo(endpoints: seq<Endpoint>, i: nat, j: nat, model: string)
    requires i < j < |endpoints| && model in endpoints[i].models && model in endpoints[j].models
    ensures Listings(endpoints)[model] >= 2
  {
    var before, last := endpoints[..|endpoints| - 1], endpoints[|endpoints| - 1];
    assert before[i] == endpoints[i];
    assert Listings(endpoints)[model] == Listings(before)[model] + multiset(last.models)[model];
    if j < |before| {
      assert before[j] == endpoints[j];
      ListedByTwo(before, i, j, model);
    } else {
      ListedPerEndpoint(before, i, model);
      assert model in multiset(endpoints[i].models) && model in multiset(last.models);
    }
  }

  /** With no model listed twice, the endpoint that serves a model is unique. */
  lemma ServedByOne(endpoints: seq<Endpoint>, a: string, b: string, model: string)
    requires NoModelTwice(endpoints) && Serves(endpoints, a, model) && Serves(endpoints, b, model)
    ensures a == b
  {
    var e :| e in endpoints && e.alias == a && model in e.models;
    var f :| f in endpoints && f.alias == b && model in f.models;
    var i :| 0 <= i < |endpoints| && endpoints[i] == e;
    var j :| 0 <= j < |endpoints| && endpoints[j] == f;
    ListedIsServed(endpoints, model);
    if i < j {
      ListedByTwo(endpoints, i, j, model);
    } else if j < i {
      ListedByTwo(endpoints, j, i, model);
    }
  }

  ghost predicate Declared(endpoints: seq<Endpoint>, model: string) {
    exists e | e in endpoints :: model in e.models
  }

  ghost predicate AllDeclared(endpoints: seq<Endpoint>, agents: seq<Agent>) {
    forall i | 0 <= i < |agents| :: Declared(endpoints, agents[i].config.model)
  }

  /** Every agent carries the alias of the one endpoint that serves its model. */
  ghost predicate Backfilled(endpoints: seq<Endpoint>, agents: seq<Agent>)
    reads set i | 0 <= i < |agents| :: agents[i].config
  {
    forall i | 0 <= i < |agents| ::
      && Serves(endpoints, agents[i].config.endpointAlias, agents[i].config.model)
      && forall b | Serves(endpoints, b, agents[i].config.model) :: b == agents[i].config.endpointAlias
  }

  // --------------------------------------------------------------- validation

  /** What the ownership map says after some of the endpoints. */
  ghost predicate Owns(endpoints: seq<Endpoint>, bag: multiset<string>, owners: map<string, string>) {
    && (forall m :: m in owners <==> m in bag)
    && (forall m | m in bag :: bag[m] == 1)
    && (forall m | m in owners :: Serves(endpoints, owners[m], m))
  }

  lemma OneMoreModel(endpoints: seq<Endpoint>, i: nat, p: nat, bag: multiset<string>,
                     owners: map<string, string>)
    requires i < |endpoints| && p < |endpoints[i].models|
    requires Owns(endpoints, bag, owners) && endpoints[i].models[p] !in owners
    ensures Owns(endpoints, bag + multiset{endpoints[i].models[p]},
                 owners[endpoints[i].models[p] := endpoints[i].alias])
  {
    assert endpoints[i] in endpoints && endpoints[i].models[p] in endpoints[i].models;
    assert Serves(endpoints, endpoints[i].alias, endpoints[i].models[p]);
  }

  lemma {:induction false} PrefixListings(endpoints: seq<Endpoint>, i: nat, model: string)
    requires i <= |endpoints|
    ensures Listings(endpoints[..i])[model] <= Listings(endpoints)[model]
  {
    if i < |endpoints| {
      assert endpoints[..|endpoints| - 1][..i] == endpoints[..i];
      PrefixListings(endpoints[..|endpoints| - 1], i, model);
    } else {
      assert endpoints[..i] == endpoints;
    }
  }

  lemma RepeatIsTwice(endpoints: seq<Endpoint>, i: nat, p: nat)
    requires i < |endpoints| && p < |endpoints[i].models|
    requires endpoints[i].models[p] in Listings(endpoints[..i]) + multiset(endpoints[i].models[..p])
    ensures !NoModelTwice(endpoints)
  {
    var m, models := endpoints[i].models[p], endpoints[i].models;
    assert models == models[..p] + [m] + models[p + 1..];
    assert multiset(models)[m] >= multiset(models[..p])[m] + 1;
    assert endpoints[..i + 1][..i] == endpoints[..i];
    assert Listings(endpoints[..i + 1])[m] >= 2;
    PrefixListings(endpoints, i + 1, m);
  }

  lemma EndpointListed(endpoints: seq<Endpoint>, i: nat)
    requires i < |endpoints|
    ensures Listings(endpoints[..i + 1]) == Listings(endpoints[..i]) + multiset(endpoints[i].models)
  {
    assert endpoints[..i + 1][..i] == endpoints[..i];
  }

  datatype Owners = Built(owners: map<string, string>) | Repeated(model: string)

  /** The inner loop: the models of one endpoint. */
  method CollectFrom(endpoints: seq<Endpoint>, i: nat, before: map<string, string>) returns (result: Owners)
    requires i < |endpoints| && Owns(endpoints, Listings(endpoints[..i]), before)
    ensures result.Built? ==> Owns(endpoints, Listings(endpoints[..i + 1]), result.owners)
    ensures result.Repeated? ==> !NoModelTwice(endpoints)
  {
    var models, owners := endpoints[i].models, before;
    var p := 0;
    while p < |models|
      invariant 0 <= p <= |models|
      invariant Owns(endpoints, Listings(endpoints[..i]) + multiset(models[..p]), owners)
    {
      if models[p] in owners {
        RepeatIsTwice(endpoints, i, p);
        return Repeated(models[p]);
      }
      OneMoreModel(endpoints, i, p, Listings(endpoints[..i]) + multiset(models[..p]), owners);
      assert models[..p + 1] == models[..p] + [models[p]];
      owners := owners[models[p] := endpoints[i].alias];
      p := p + 1;
    }
    assert models[..p] == models;
    EndpointListed(endpoints, i);
    result := Built(owners);
  }

  /** The first loop of the validator: who serves which model. */
  method CollectOwners(endpoints: seq<Endpoint>) returns (result: Owners)
    ensures result.Built? <==> NoModelTwice(endpoints)
    ensures result.Built? ==> Owns(endpoints, Listings(endpoints), result.owners)
  {
    result := Built(map[]);
    var i := 0;
    while i < |endpoints|
      invariant 0 <= i <= |endpoints|
      invariant result.Built? && Owns(endpoints, Listings(endpoints[..i]), result.owners)
    {
      result := CollectFrom(endpoints, i, result.owners);
      if result.Repeated? {
        return;
      }
      i := i + 1;
    }
    assert endpoints[..i] == endpoints;
  }

  /** What the finished map means for one model. */
  lemma OwnerIsServer(endpoints: seq<Endpoint>, owners: map<string, string>, model: string)
    requires Owns(endpoints, Listings(endpoints), owners)
    ensures NoModelTwice(endpoints)
    ensures model in owners <==> Declared(endpoints, model)
    ensures model in owners ==>
              && Serves(endpoints, owners[model], model)
              && forall b | Serves(endpoints, b, model) :: b == owners[model]
  {
    ListedIsServed(endpoints, model);
    if model in owners {
      forall b | Serves(endpoints, b, model)
        ensures b == owners[model]
      {
        ServedByOne(endpoints, b, owners[model], model);
      }
    }
  }

  /** The second loop of the validator. */
  method Backfill(endpoints: seq<Endpoint>, owners: map<string, string>, agents: seq<Agent>)
    returns (outcome: Outcome)
    requires Owns(endpoints, Listings(endpoints), owners)
    modifies set i | 0 <= i < |agents| :: agents[i].config
    ensures NoModelTwice(endpoints) && !outcome.DuplicateModel?
    ensures outcome.Valid? <==> AllDeclared(endpoints, agents)
    ensures outcome.UndeclaredModel? ==>
              exists i | 0 <= i < |agents| ::
                agents[i].name == outcome.agent && !Declared(endpoints, agents[i].config.model)
    ensures outcome.Valid? ==> Backfilled(endpoints, agents)
    ensures old(Backfilled(endpoints, agents)) ==>
              forall i | 0 <= i < |agents| ::
                agents[i].config.endpointAlias == old(agents[i].config.endpointAlias)
  {
    OwnerIsServer(endpoints, owners, "");
    var i := 0;
    while i < |agents|
      invariant 0 <= i <= |agents|
      invariant forall j | 0 <= j < i ::
                  && agents[j].config.model in owners
                  && agents[j].config.endpointAlias == owners[agents[j].config.model]
      invariant old(Backfilled(endpoints, agents)) ==>
                  forall j | 0 <= j < |agents| ::
                    agents[j].config.endpointAlias == old(agents[j].config.endpointAlias)
    {
      var config := agents[i].config;
      OwnerIsServer(endpoints, owners, config.model);
      if config.model !in owners {
        return UndeclaredModel(agents[i].name);
      }
      config.endpointAlias := owners[config.model];
      i := i + 1;
    }
    forall j | 0 <= j < |agents|
      ensures Serves(endpoints, agents[j].config.endpointAlias, agents[j].config.model)
      ensures forall b | Serves(endpoints, b, agents[j].config.model) :: b == agents[j].config.endpointAlias
      ensures Declared(endpoints, agents[j].config.model)
    {
      OwnerIsServer(endpoints, owners, agents[j].config.model);
    }
    outcome := Valid;
  }

  /** Build the ownership map, then give each agent its alias. Validation succeeds
      exactly when no model is listed twice and every agent's model is listed; then each
      alias is that of the one endpoint serving the model, and aliases that were already
      right stay as they are. */
  method Validate(endpoints: seq<Endpoint>, agents: seq<Agent>) returns (outcome: Outcome)
    modifies set i | 0 <= i < |agents| :: agents[i].config
    ensures outcome.Valid? <==> NoModelTwice(endpoints) && AllDeclared(endpoints, agents)
    ensures outcome.DuplicateModel? <==> !NoModelTwice(endpoints)
    ensures outcome.UndeclaredModel? ==>
              exists i | 0 <= i < |agents| ::
                agents[i].name == outcome.agent && !Declared(endpoints, agents[i].config.model)
    ensures outcome.Valid? ==> Backfilled(endpoints, agents)
    ensures old(Backfilled(endpoints, agents)) ==>
              forall i | 0 <= i < |agents| ::
                agents[i].config.endpointAlias == old(agents[i].config.endpointAlias)
  {
    var collected := CollectOwners(endpoints);
    match collected {
      case Repeated(model) => outcome := DuplicateModel(model);
      case Built(owners) => outcome := Backfill(endpoints, owners, agents);
    }
  }

  // -------------------------------------------------------- dictionary order

  lemma {:induction false} ListingsRemove(endpoints: seq<Endpoint>, i: nat)
    requires i < |endpoints|
    ensures Listings(endpoints)
         == Listings(endpoints[..i] + endpoints[i + 1..]) + multiset(endpoints[i].models)
  {
    var before, last := endpoints[..|endpoints| - 1], endpoints[|endpoints| - 1];
    var rest := endpoints[..i] + endpoints[i + 1..];
    if i == |before| {
      assert rest == before;
    } else {
      ListingsRemove(before, i);
      DropThenInit(endpoints, i);
      calc {
        Listings(endpoints);
        Listings(before) + multiset(last.models);
        Listings(rest[..|rest| - 1]) + multiset(endpoints[i].models) + multiset(last.models);
        Listings(rest) + multiset(endpoints[i].models);
      }
    }
  }

  lemma {:induction false} ListingsIgnoreOrder(x: seq<Endpoint>, y: seq<Endpoint>)
    requires multiset(x) == multiset(y)
    ensures Listings(x) == Listings(y)
    decreases |x|
  {
    assert |multiset(x)| == |x| && |multiset(y)| == |y|;
    if x != [] {
      var last := |x| - 1;
      assert x[last] in multiset(y);
      var j :| 0 <= j < |y| && y[j] == x[last];
      SameWithout(x, y, j);
      ListingsIgnoreOrder(x[..last], y[..j] + y[j + 1..]);
      ListingsRemove(y, j);
    }
  }

  /** Whether validation succeeds, and which alias a model gets, do not depend on the
      order of the endpoints. */
  lemma OrderIsMoot(x: seq<Endpoint>, y: seq<Endpoint>, alias: string, model: string)
    requires multiset(x) == multiset(y)
    ensures NoModelTwice(x) <==> NoModelTwice(y)
    ensures Declared(x, model) <==> Declared(y, model)
    ensures Serves(x, alias, model) <==> Serves(y, alias, model)
  {
    ListingsIgnoreOrder(x, y);
    forall e
      ensures e in x <==> e in y
    {
      assert e in x <==> e in multiset(x);
      assert e in y <==> e in multiset(y);
    }
  }

  // ------------------------------------------------------------------ lookup

  datatype BuildOutcome =
    | Client(alias: string, apiKey: string, model: string)
    | UnknownAgent
    | NoApiKey(env: string)
    | NoClient(alias: string)

  function FindEndpoint(endpoints: seq<Endpoint>, alias: string): Option<Endpoint> {
    if endpoints == [] then None
    else if endpoints[0].alias == alias then Some(endpoints[0])
    else FindEndpoint(endpoints[1..], alias)
  }

  lemma {:induction false} ServingIsFound(endpoints: seq<Endpoint>, alias: string, model: string)
    requires DistinctAliases(endpoints) && Serves(endpoints, alias, model)
    ensures FindEndpoint(endpoints, alias).Some?
    ensures FindEndpoint(endpoints, alias).value.alias == alias
    ensures model in FindEndpoint(endpoints, alias).value.models
  {
    var e :| e in endpoints && e.alias == alias && model in e.models;
    var i :| 0 <= i < |endpoints| && endpoints[i] == e;
    if i > 0 {
      assert endpoints[1..][i - 1] == e;
      ServingIsFound(endpoints[1..], alias, model);
    }
  }

  /** After a successful validation endpoints[alias] finds the endpoint of the model. */
  lemma LookupCannotFail(endpoints: seq<Endpoint>, agents: seq<Agent>, i: nat)
    requires DistinctAliases(endpoints) && Backfilled(endpoints, agents) && i < |agents|
    ensures var found := FindEndpoint(endpoints, agents[i].config.endpointAlias);
            && found.Some? && found.value.alias == agents[i].config.endpointAlias
            && agents[i].config.model in found.value.models
  {
    ServingIsFound(endpoints, agents[i].config.endpointAlias, agents[i].config.model);
  }

  const KNOWN_CLIENTS := ["ark", "glm"]

  /** The settings of the first agent of that name. */
  ghost predicate IsFirst(agents: seq<Agent>, name: string, i: nat) {
    i < |agents| && agents[i].name == name && forall j | 0 <= j < i :: agents[j].name != name
  }

  ghost predicate HasKey(endpoints: seq<Endpoint>, alias: string, environment: map<string, string>) {
    exists e | e in endpoints :: e.alias == alias && e.apiKeyEnv in environment && environment[e.apiKeyEnv] != ""
  }

  /** A client is refused exactly for an unknown agent, then for a missing key, then for an
      alias without a client, in this order; one that is built is the agent's alias, key and
      model. */
  method BuildClientForAgent(endpoints: seq<Endpoint>, agents: seq<Agent>, name: string,
                             environment: map<string, string>)
    returns (outcome: BuildOutcome)
    requires DistinctAliases(endpoints) && Backfilled(endpoints, agents)
    ensures outcome.UnknownAgent? <==> forall i | 0 <= i < |agents| :: agents[i].name != name
    ensures forall i: nat | IsFirst(agents, name, i) ::
              var alias := agents[i].config.endpointAlias;
              && (outcome.NoApiKey? <==> !HasKey(endpoints, alias, environment))
              && (outcome.NoClient? <==> HasKey(endpoints, alias, environment) && alias !in KNOWN_CLIENTS)
              && (outcome.Client? <==> HasKey(endpoints, alias, environment) && alias in KNOWN_CLIENTS)
              && (outcome.NoClient? || outcome.Client? ==> outcome.alias == alias)
              && (outcome.Client? ==> outcome.model == agents[i].config.model)
    ensures outcome.NoApiKey? || outcome.Client? ==>
              exists e, i: nat | e in endpoints && IsFirst(agents, name, i) ::
                && e.alias == agents[i].config.endpointAlias && agents[i].config.model in e.models
                && (outcome.NoApiKey? ==> outcome.env == e.apiKeyEnv)
                && (outcome.Client? ==>
                      e.apiKeyEnv in environment && outcome.apiKey == environment[e.apiKeyEnv] != "")
  {
    var i := 0;
    while i < |agents| && agents[i].name != name
      invariant 0 <= i <= |agents|
      invariant forall j | 0 <= j < i :: agents[j].name != name
    {
      i := i + 1;
    }
    if i == |agents| {
      return UnknownAgent;
    }
    var config := agents[i].config;
    LookupCannotFail(endpoints, agents, i);
    FoundIsListed(endpoints, config.endpointAlias);
    FirstIsUnique(agents, name, i);
    var endpoint := FindEndpoint(endpoints, config.endpointAlias).value;
    KeyIsItsOwn(endpoints, endpoint, environment);
    var key := if endpoint.apiKeyEnv in environment then environment[endpoint.apiKeyEnv] else "";
    if key == "" {
      return NoApiKey(endpoint.apiKeyEnv);
    }
    if config.endpointAlias !in KNOWN_CLIENTS {
      return NoClient(config.endpointAlias);
    }
    return Client(config.endpointAlias, key, config.model);
  }

  lemma FirstIsUnique(agents: seq<Agent>, name: string, i: nat)
    requires IsFirst(agents, name, i)
    ensures forall j: nat | IsFirst(agents, name, j) :: j == i
  {
  }

  lemma {:induction false} FoundIsListed(endpoints: seq<Endpoint>, alias: string)
    ensures FindEndpoint(endpoints, alias).Some? ==> FindEndpoint(endpoints, alias).value in endpoints
  {
    if endpoints != [] && endpoints[0].alias != alias {
      FoundIsListed(endpoints[1..], alias);
    }
  }

  /** Aliases are distinct, so an alias has a key if its endpoint has. */
  lemma KeyIsItsOwn(endpoints: seq<Endpoint>, endpoint: Endpoint, environment: map<string, string>)
    requires DistinctAliases(endpoints) && endpoint in endpoints
    ensures HasKey(endpoints, endpoint.alias, environment)
       <==> endpoint.apiKeyEnv in environment && environment[endpoint.apiKeyEnv] != ""
  {
    forall e | e in endpoints && e.alias == endpoint.alias
      ensures e == endpoint
    {
      var i :| 0 <= i < |endpoints| && endpoints[i] == e;
      var j :| 0 <= j < |endpoints| && endpoints[j] == endpoint;
      assert i == j;
    }
  }
}
