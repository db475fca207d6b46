/** The provider catalog, the routing table built from it, and resolving a request. */
module Catalog {
  import opened Llm

  datatype Protocol = OpenAI | Anthropic | Gemini | Unset | Unsupported(name: string)

  datatype Provider = Provider(id: string, protocol: Protocol, baseURL: string, enabled: bool)

  datatype RouteTarget = RouteTarget(providerID: string, model: string)

  datatype Snapshot = Snapshot(
    providers: seq<Provider>, defaults: map<Protocol, string>, routes: map<string, seq<RouteTarget>>)

  /** The string library, of which only this is used: which texts are blank, the empty one among them,
      and which are http or https addresses with a host. */
  datatype Texts = Texts(blank: string -> bool, address: string -> bool)

  ghost predicate Sensible(t: Texts) {
    t.blank("")
  }

  predicate Known(p: Protocol) {
    p == OpenAI || p == Anthropic || p == Gemini
  }

  // ---------------------------------------------------------------- validation

  predicate ProviderValid(t: Texts, p: Provider) {
    !t.blank(p.id) && Known(p.protocol) && t.address(p.baseURL)
  }

  ghost predicate Distinct(providers: seq<Provider>) {
    forall j, k :: 0 <= j < k < |providers| ==> providers[j].id != providers[k].id
  }

  predicate Has(providers: seq<Provider>, id: string) {
    exists k :: 0 <= k < |providers| && providers[k].id == id
  }

  /** An enabled provider of that name. */
  predicate Serves(providers: seq<Provider>, id: string) {
    exists k :: 0 <= k < |providers| && providers[k].id == id && providers[k].enabled
  }

  predicate ServesAs(providers: seq<Provider>, id: string, protocol: Protocol) {
    exists k :: 0 <= k < |providers| && providers[k].id == id && providers[k].enabled && providers[k].protocol == protocol
  }

  predicate RouteValid(t: Texts, providers: seq<Provider>, model: string, targets: seq<RouteTarget>) {
    && !t.blank(model) && targets != []
    && forall k :: 0 <= k < |targets| ==> Serves(providers, targets[k].providerID)
  }

  ghost predicate Valid(t: Texts, s: Snapshot) {
    && (forall k :: 0 <= k < |s.providers| ==> ProviderValid(t, s.providers[k]))
    && Distinct(s.providers)
    && (forall p :: p in s.defaults ==> Known(p) && ServesAs(s.providers, s.defaults[p], p))
    && (forall m :: m in s.routes ==> RouteValid(t, s.providers, m, s.routes[m]))
  }

  /** The lookup map that validation fills. */
  ghost predicate Indexes(lookup: map<string, Provider>, providers: seq<Provider>) {
    && (forall k :: 0 <= k < |providers| ==> providers[k].id in lookup && lookup[providers[k].id] == providers[k])
    && (forall id :: id in lookup ==> Has(providers, id))
  }

  method Validate(t: Texts, s: Snapshot) returns (ok: bool)
    ensures ok == Valid(t, s)
  {
    var lookup: map<string, Provider> := map[];
    for k := 0 to |s.providers|
      invariant forall j :: 0 <= j < k ==> ProviderValid(t, s.providers[j])
      invariant Distinct(s.providers[..k]) && Indexes(lookup, s.providers[..k])
    {
      var item := s.providers[k];
      if t.blank(item.id) || !Known(item.protocol) || !t.address(item.baseURL) { return false; }
      if item.id in lookup {
        var j :| 0 <= j < k && s.providers[..k][j].id == item.id;
        assert s.providers[j].id == s.providers[k].id;
        return false;
      }
      IndexOne(lookup, s.providers, k);
      lookup := lookup[item.id := item];
    }
    assert s.providers[..|s.providers|] == s.providers;
    var defaultsOk := ValidateDefaults(lookup, s);
    if !defaultsOk { return false; }
    ok := ValidateRoutes(t, lookup, s);
  }

  lemma IndexOne(lookup: map<string, Provider>, providers: seq<Provider>, k: nat)
    requires k < |providers| && Distinct(providers[..k]) && Indexes(lookup, providers[..k])
    requires providers[k].id !in lookup
    ensures Distinct(providers[..k + 1]) && Indexes(lookup[providers[k].id := providers[k]], providers[..k + 1])
  {}

  lemma LookupServes(lookup: map<string, Provider>, providers: seq<Provider>, id: string, protocol: Protocol)
    requires Indexes(lookup, providers)
    ensures Serves(providers, id) <==> id in lookup && lookup[id].enabled
    ensures ServesAs(providers, id, protocol) <==> id in lookup && lookup[id].enabled && lookup[id].protocol == protocol
  {}

  method ValidateDefaults(lookup: map<string, Provider>, s: Snapshot) returns (ok: bool)
    requires Indexes(lookup, s.providers)
    ensures ok <==> forall p :: p in s.defaults ==> Known(p) && ServesAs(s.providers, s.defaults[p], p)
  {
    var left := s.defaults.Keys;
    while left != {}
      invariant left <= s.defaults.Keys
      invariant forall p :: p in s.defaults && p !in left ==> Known(p) && ServesAs(s.providers, s.defaults[p], p)
      decreases |left|
    {
      var p :| p in left;
      var id := s.defaults[p];
      LookupServes(lookup, s.providers, id, p);
      if !Known(p) || id !in lookup || lookup[id].protocol != p || !lookup[id].enabled { return false; }
      left := left - {p};
    }
    return true;
  }

  method ValidateRoutes(t: Texts, lookup: map<string, Provider>, s: Snapshot) returns (ok: bool)
    requires Indexes(lookup, s.providers)
    ensures ok <==> forall m :: m in s.routes ==> RouteValid(t, s.providers, m, s.routes[m])
  {
    var left := s.routes.Keys;
    while left != {}
      invariant left <= s.routes.Keys
      invariant forall m :: m in s.routes && m !in left ==> RouteValid(t, s.providers, m, s.routes[m])
      decreases |left|
    {
      var m :| m in left;
      var targets := s.routes[m];
      if t.blank(m) || |targets| == 0 { return false; }
      for k := 0 to |targets|
        invariant forall j :: 0 <= j < k ==> Serves(s.providers, targets[j].providerID)
      {
        var id := targets[k].providerID;
        LookupServes(lookup, s.providers, id, OpenAI);
        if id !in lookup || !lookup[id].enabled { return false; }
      }
      left := left - {m};
    }
    return true;
  }

  // ---------------------------------------------------------------- the routing table

  datatype Target = Target(id: string, protocol: Protocol, baseURL: string, apiKey: string)

  datatype Table = Table(
    providers: map<string, Target>, defaults: map<Protocol, string>, routes: map<string, seq<RouteTarget>>)

  function KeyOf(keys: map<string, string>, id: string): string {
    if id in keys then keys[id] else ""
  }

  function TargetOf(p: Provider, keys: map<string, string>): Target {
    Target(p.id, p.protocol, p.baseURL, KeyOf(keys, p.id))
  }

  /** Disabled providers are left out. */
  function Targets(providers: seq<Provider>, keys: map<string, string>): seq<Target> {
    if providers == [] then []
    else
      var last := providers[|providers| - 1];
      Targets(providers[..|providers| - 1], keys) + if last.enabled then [TargetOf(last, keys)] else []
  }

  function Effective(p: Protocol): Protocol {
    if p == Unset then OpenAI else p
  }

  function BuildProviders(targets: seq<Target>): Option<map<string, Target>> {
    if targets == [] then Some(map[])
    else
      var last := targets[|targets| - 1];
      match BuildProviders(targets[..|targets| - 1])
      case None => None
      case Some(built) =>
        if last.id == "" || last.id in built || !Known(Effective(last.protocol)) then None
        else Some(built[last.id := last.(protocol := Effective(last.protocol))])
  }

  ghost predicate DefaultsFit(providers: map<string, Target>, defaults: map<Protocol, string>) {
    forall p :: p in defaults && defaults[p] != "" ==>
      Known(p) && defaults[p] in providers && providers[defaults[p]].protocol == p
  }

  ghost predicate RoutesFit(providers: map<string, Target>, routes: map<string, seq<RouteTarget>>) {
    forall m :: m in routes ==> m != "" && RouteFits(providers, routes[m])
  }

  ghost predicate RouteFits(providers: map<string, Target>, route: seq<RouteTarget>) {
    route != [] && forall k :: 0 <= k < |route| ==> route[k].providerID != "" && route[k].providerID in providers
  }

  ghost function Build(targets: seq<Target>, defaults: map<Protocol, string>, routes: map<string, seq<RouteTarget>>): Option<Table> {
    match BuildProviders(targets)
    case None => None
    case Some(providers) =>
      if !DefaultsFit(providers, defaults) || !RoutesFit(providers, routes) then None
      else Some(Table(providers, map p | p in defaults && defaults[p] != "" :: defaults[p], routes))
  }

  lemma {:induction false} FirstBadTargetStands(targets: seq<Target>, k: nat)
    requires k <= |targets| && BuildProviders(targets[..k]).None?
    ensures BuildProviders(targets).None?
  {
    if k < |targets| {
      assert targets[..|targets| - 1][..k] == targets[..k];
      FirstBadTargetStands(targets[..|targets| - 1], k);
    } else {
      assert targets[..k] == targets;
    }
  }

  method RoutingTargets(providers: seq<Provider>, keys: map<string, string>) returns (targets: seq<Target>)
    ensures targets == Targets(providers, keys)
  {
    targets := [];
    for k := 0 to |providers|
      invariant targets == Targets(providers[..k], keys)
    {
      assert providers[..k + 1][..k] == providers[..k];
      if providers[k].enabled {
        targets := targets + [TargetOf(providers[k], keys)];
      }
    }
    assert providers[..|providers|] == providers;
  }

  /** The router: a table that is replaced as a whole or not at all. */
  class Router {
    var table: Option<Table>

    constructor ()
      ensures table == None
    {
      table := None;
    }

    method ReplaceProtocols(targets: seq<Target>, defaults: map<Protocol, string>, routes: map<string, seq<RouteTarget>>)
      returns (ok: bool)
      modifies this
      ensures ok == Build(targets, defaults, routes).Some?
      ensures table == if ok then Build(targets, defaults, routes) else old(table)
    {
      var providers: map<string, Target> := map[];
      for k := 0 to |targets|
        invariant BuildProviders(targets[..k]) == Some(providers) && table == old(table)
      {
        assert targets[..k + 1][..k] == targets[..k];
        var target := targets[k].(protocol := Effective(targets[k].protocol));
        if target.id == "" || target.id in providers || !Known(target.protocol) {
          FirstBadTargetStands(targets, k + 1);
          return false;
        }
        providers := providers[target.id := target];
      }
      assert targets[..|targets|] == targets;
      var chosen;
      ok, chosen := TakeDefaults(providers, defaults);
      if !ok { return false; }
      ok := CheckRoutes(providers, routes);
      if !ok { return false; }
      table := Some(Table(providers, chosen, routes));
    }

    method TakeDefaults(providers: map<string, Target>, defaults: map<Protocol, string>)
      returns (ok: bool, chosen: map<Protocol, string>)
      ensures ok == DefaultsFit(providers, defaults)
      ensures ok ==> chosen == map p | p in defaults && defaults[p] != "" :: defaults[p]
    {
      var left := defaults.Keys;
      chosen := map[];
      while left != {}
        invariant left <= defaults.Keys
        invariant forall p :: p in chosen <==> p in defaults && p !in left && defaults[p] != ""
        invariant forall p :: p in chosen ==>
                    chosen[p] == defaults[p] && Known(p) && chosen[p] in providers && providers[chosen[p]].protocol == p
        decreases |left|
      {
        var p :| p in left;
        var id := defaults[p];
        if id != "" {
          if !Known(p) || id !in providers || providers[id].protocol != p { return false, map[]; }
          chosen := chosen[p := id];
        }
        left := left - {p};
      }
      return true, chosen;
    }

    method CheckRoutes(providers: map<string, Target>, routes: map<string, seq<RouteTarget>>) returns (ok: bool)
      ensures ok == RoutesFit(providers, routes)
    {
      var left := routes.Keys;
      while left != {}
        invariant left <= routes.Keys
        invariant forall m :: m in routes && m !in left ==> m != "" && RouteFits(providers, routes[m])
        decreases |left|
      {
        var m :| m in left;
        var route := routes[m];
        if m == "" || |route| == 0 { return false; }
        for k := 0 to |route|
          invariant forall j :: 0 <= j < k ==> route[j].providerID != "" && route[j].providerID in providers
        {
          if route[k].providerID == "" || route[k].providerID !in providers { return false; }
        }
        left := left - {m};
      }
      return true;
    }

    method Resolve(request: Request) returns (plan: Resolution)
      ensures plan == if table.None? then NoRoute else Resolved(table.value, request)
    {
      if table.None? { return NoRoute; }
      var current := table.value;
      if request.model != "" && request.model in current.routes {
        var route := current.routes[request.model];
        var attempts: seq<Attempt> := [];
        for k := 0 to |route|
          invariant Attempts(current, request.model, route[..k]) == Some(attempts)
        {
          assert route[..k + 1][..k] == route[..k];
          if route[k].providerID !in current.providers {
            UnknownStands(current, request.model, route, k);
            return UnknownProvider;
          }
          var model := if route[k].model == "" then request.model else route[k].model;
          attempts := attempts + [Attempt(current.providers[route[k].providerID], model)];
        }
        assert route[..|route|] == route;
        return Plan(request.model, attempts);
      }
      var protocol := Effective(request.protocol);
      if protocol !in current.defaults || current.defaults[protocol] == "" { return NoRoute; }
      var id := current.defaults[protocol];
      if id !in current.providers { return UnknownProvider; }
      return Plan(request.model, [Attempt(current.providers[id], request.model)]);
    }
  }

  // ---------------------------------------------------------------- resolving

  datatype Request = Request(protocol: Protocol, model: string)

  datatype Attempt = Attempt(target: Target, model: string)

  datatype Resolution = Plan(requested: string, attempts: seq<Attempt>) | NoRoute | UnknownProvider

  function Attempts(t: Table, model: string, route: seq<RouteTarget>): Option<seq<Attempt>> {
    if route == [] then Some([])
    else
      var last := route[|route| - 1];
      match Attempts(t, model, route[..|route| - 1])
      case None => None
      case Some(before) =>
        if last.providerID !in t.providers then None
        else Some(before + [Attempt(t.providers[last.providerID], if last.model == "" then model else last.model)])
  }

  function Resolved(t: Table, r: Request): Resolution {
    if r.model != "" && r.model in t.routes then
      match Attempts(t, r.model, t.routes[r.model])
      case None => UnknownProvider
      case Some(attempts) => Plan(r.model, attempts)
    else
      var protocol := Effective(r.protocol);
      if protocol !in t.defaults || t.defaults[protocol] == "" then NoRoute
      else if t.defaults[protocol] !in t.providers then UnknownProvider
      else Plan(r.model, [Attempt(t.providers[t.defaults[protocol]], r.model)])
  }

  lemma {:induction false} UnknownStands(t: Table, model: string, route: seq<RouteTarget>, k: nat)
    requires k < |route| && route[k].providerID !in t.providers
    ensures Attempts(t, model, route).None?
  {
    if k < |route| - 1 {
      UnknownStands(t, model, route[..|route| - 1], k);
    }
  }

  lemma {:induction false} AttemptsInOrder(t: Table, model: string, route: seq<RouteTarget>)
    requires forall k :: 0 <= k < |route| ==> route[k].providerID in t.providers
    ensures Attempts(t, model, route).Some? && |Attempts(t, model, route).value| == |route|
    ensures forall k :: 0 <= k < |route| ==>
              Attempts(t, model, route).value[k] ==
              Attempt(t.providers[route[k].providerID], if route[k].model == "" then model else route[k].model)
  {
    if route != [] {
      AttemptsInOrder(t, model, route[..|route| - 1]);
    }
  }

  /** On every table that could be built: resolving never meets an unknown provider, a routed model is
      tried on its targets in order, under its alias where there is one, and any other on the default of
      its protocol, under its own name. */
  lemma ResolveOnBuilt(targets: seq<Target>, defaults: map<Protocol, string>, routes: map<string, seq<RouteTarget>>, r: Request)
    requires Build(targets, defaults, routes).Some?
    ensures var t := Build(targets, defaults, routes).value;
            && Resolved(t, r) != UnknownProvider
            && (r.model != "" && r.model in routes ==>
                  && Resolved(t, r).Plan? && |Resolved(t, r).attempts| == |routes[r.model]| > 0
                  && forall k :: 0 <= k < |routes[r.model]| ==>
                       var target := routes[r.model][k];
                       && target.providerID in t.providers
                       && Resolved(t, r).attempts[k] ==
                          Attempt(t.providers[target.providerID], if target.model == "" then r.model else target.model))
            && (!(r.model != "" && r.model in routes) ==>
                  var p := if r.protocol == Unset then OpenAI else r.protocol;
                  && (Resolved(t, r).NoRoute? <==> p !in defaults || defaults[p] == "")
                  && (p in defaults && defaults[p] != "" ==>
                        && defaults[p] in t.providers && t.providers[defaults[p]].protocol == p
                        && Resolved(t, r) == Plan(r.model, [Attempt(t.providers[defaults[p]], r.model)])))
  {
    hide BuildProviders;
    var t := Build(targets, defaults, routes).value;
    if r.model != "" && r.model in routes {
      assert RouteFits(t.providers, routes[r.model]);
      AttemptsInOrder(t, r.model, routes[r.model]);
    }
  }

  // ---------------------------------------------------------------- when a table can be built

  predicate Acceptable(t: Target) {
    t.id != "" && t.protocol in {OpenAI, Anthropic, Gemini, Unset}
  }

  ghost predicate Named(targets: seq<Target>, id: string) {
    exists k :: 0 <= k < |targets| && targets[k].id == id
  }

  /** A provider of that name whose protocol it is, OpenAI being meant where none is said. */
  ghost predicate Speaks(targets: seq<Target>, id: string, p: Protocol) {
    exists k :: 0 <= k < |targets| && targets[k].id == id && p == if targets[k].protocol == Unset then OpenAI else targets[k].protocol
  }

  ghost predicate AllDiffer(targets: seq<Target>) {
    forall j, k :: 0 <= j < k < |targets| ==> targets[j].id != targets[k].id
  }

  /** The table has these providers and no others. */
  ghost predicate Lists(providers: map<string, Target>, targets: seq<Target>) {
    && (forall id :: id in providers ==> Named(targets, id))
    && (forall k :: 0 <= k < |targets| ==>
          var t := targets[k];
          t.id in providers && providers[t.id] == t.(protocol := if t.protocol == Unset then OpenAI else t.protocol))
  }

  predicate AllAcceptable(targets: seq<Target>) {
    forall k :: 0 <= k < |targets| ==> Acceptable(targets[k])
  }

  lemma {:induction false} ProvidersExactly(targets: seq<Target>)
    ensures BuildProviders(targets).Some? <==> AllAcceptable(targets) && AllDiffer(targets)
    ensures BuildProviders(targets).Some? ==> Lists(BuildProviders(targets).value, targets)
  {
    hide AllAcceptable, AllDiffer, Lists, Named;
    if targets == [] {
      NothingListed();
    } else {
      var init, last := targets[..|targets| - 1], targets[|targets| - 1];
      ProvidersExactly(init);
      OneMoreDiffers(targets);
      if BuildProviders(init).Some? {
        OneMoreListed(BuildProviders(init).value, targets);
      }
    }
  }

  lemma NothingListed()
    ensures AllAcceptable([]) && AllDiffer([]) && Lists(map[], [])
  {}

  lemma OneMoreDiffers(targets: seq<Target>)
    requires targets != []
    ensures var init, last := targets[..|targets| - 1], targets[|targets| - 1];
            && (AllDiffer(targets) <==> AllDiffer(init) && !Named(init, last.id))
            && (AllAcceptable(targets) <==>
                  AllAcceptable(init) && last.id != "" && Known(Effective(last.protocol)))
  {
    var init, last := targets[..|targets| - 1], targets[|targets| - 1];
    assert forall k :: 0 <= k < |init| ==> targets[k] == init[k];
    assert Acceptable(last) <==> last.id != "" && Known(Effective(last.protocol));
  }

  lemma OneMoreListed(built: map<string, Target>, targets: seq<Target>)
    requires targets != [] && Lists(built, targets[..|targets| - 1])
    ensures var init, last := targets[..|targets| - 1], targets[|targets| - 1];
            && (last.id in built <==> Named(init, last.id))
            && (last.id !in built ==> Lists(built[last.id := last.(protocol := Effective(last.protocol))], targets))
  {
    var init, last := targets[..|targets| - 1], targets[|targets| - 1];
    assert forall k :: 0 <= k < |init| ==> targets[k] == init[k];
    if last.id !in built {
      var more := built[last.id := last.(protocol := Effective(last.protocol))];
      forall id | id in more ensures Named(targets, id) {
        if id != last.id {
          assert Named(init, id);
        }
      }
    }
  }

  /** A table can be built exactly if its providers have different names and known protocols, each default is
      one of them that speaks the protocol it is for, and each route leads to some of them. It then says just
      that, a default without a name being none. */
  lemma BuildsExactly(targets: seq<Target>, defaults: map<Protocol, string>, routes: map<string, seq<RouteTarget>>)
    ensures Build(targets, defaults, routes).Some? <==>
            && AllAcceptable(targets) && AllDiffer(targets)
            && (forall p :: p in defaults && defaults[p] != "" ==> Speaks(targets, defaults[p], p))
            && (forall m :: m in routes ==>
                  m != "" && routes[m] != [] && forall k :: 0 <= k < |routes[m]| ==> Named(targets, routes[m][k].providerID))
    ensures Build(targets, defaults, routes).Some? ==>
              var t := Build(targets, defaults, routes).value;
              && Lists(t.providers, targets) && t.routes == routes
              && forall p :: (p in t.defaults <==> p in defaults && defaults[p] != "") && (p in t.defaults ==> t.defaults[p] == defaults[p])
  {
    hide BuildProviders;
    ProvidersExactly(targets);
    if BuildProviders(targets).Some? {
      var providers := BuildProviders(targets).value;
      forall p | p in defaults && defaults[p] != ""
        ensures Speaks(targets, defaults[p], p) <==>
                Known(p) && defaults[p] in providers && providers[defaults[p]].protocol == p
      {
        SpeaksExactly(targets, providers, defaults[p], p);
      }
      forall m | m in routes && routes[m] != []
        ensures RouteFits(providers, routes[m]) <==> forall k :: 0 <= k < |routes[m]| ==> Named(targets, routes[m][k].providerID)
      {
        RouteNamed(targets, providers, routes[m]);
      }
    }
  }

  lemma SpeaksExactly(targets: seq<Target>, providers: map<string, Target>, id: string, p: Protocol)
    requires Lists(providers, targets) && AllAcceptable(targets)
    ensures Speaks(targets, id, p) <==> Known(p) && id in providers && providers[id].protocol == p
  {
    if id in providers {
      var k :| 0 <= k < |targets| && targets[k].id == id;
    }
  }

  lemma RouteNamed(targets: seq<Target>, providers: map<string, Target>, route: seq<RouteTarget>)
    requires Lists(providers, targets) && route != [] && AllAcceptable(targets)
    ensures RouteFits(providers, route) <==> forall k :: 0 <= k < |route| ==> Named(targets, route[k].providerID)
  {
    forall k | 0 <= k < |route|
      ensures route[k].providerID != "" && route[k].providerID in providers <==> Named(targets, route[k].providerID)
    {
      if route[k].providerID in providers {
        var j :| 0 <= j < |targets| && targets[j].id == route[k].providerID;
      }
    }
  }

  // ---------------------------------------------------------------- from catalog to table

  /** The targets are the enabled providers with their keys. */
  ghost predicate Matches(providers: seq<Provider>, keys: map<string, string>, targets: map<string, Target>) {
    && (forall id :: id in targets <==> Serves(providers, id))
    && (forall k :: 0 <= k < |providers| && providers[k].enabled ==>
          var p := providers[k];
          p.id in targets && targets[p.id] == Target(p.id, p.protocol, p.baseURL, if p.id in keys then keys[p.id] else ""))
  }

  /** What the table must say for a catalog and its keys, without building anything. */
  ghost predicate Tabulates(s: Snapshot, keys: map<string, string>, t: Table) {
    Matches(s.providers, keys, t.providers) && t.defaults == s.defaults && t.routes == s.routes
  }

  lemma {:induction false} ProvidersBuild(t: Texts, providers: seq<Provider>, keys: map<string, string>)
    requires Sensible(t) && Distinct(providers) && forall k :: 0 <= k < |providers| ==> ProviderValid(t, providers[k])
    ensures BuildProviders(Targets(providers, keys)).Some?
    ensures Matches(providers, keys, BuildProviders(Targets(providers, keys)).value)
  {
    hide BuildProviders, Targets, Matches;
    if providers == [] {
      NothingBuilt(keys);
    } else {
      var init, last := providers[..|providers| - 1], providers[|providers| - 1];
      forall j, k | 0 <= j < k < |init| ensures init[j].id != init[k].id {
        assert providers[j].id != providers[k].id;
      }
      ProvidersBuild(t, init, keys);
      var built := BuildProviders(Targets(init, keys)).value;
      assert ProviderValid(t, last);
      OneMoreBuilt(providers, keys, built);
      OneMoreMatches(providers, keys, built);
    }
  }

  lemma NothingBuilt(keys: map<string, string>)
    ensures BuildProviders(Targets([], keys)).Some? && Matches([], keys, BuildProviders(Targets([], keys)).value)
  {
  }

  lemma OneMoreBuilt(providers: seq<Provider>, keys: map<string, string>, built: map<string, Target>)
    requires providers != [] && Distinct(providers)
    requires var last := providers[|providers| - 1]; last.id != "" && Known(last.protocol)
    requires BuildProviders(Targets(providers[..|providers| - 1], keys)) == Some(built)
    requires Matches(providers[..|providers| - 1], keys, built)
    ensures var last := providers[|providers| - 1];
            BuildProviders(Targets(providers, keys)) ==
            Some(if last.enabled then built[last.id := TargetOf(last, keys)] else built)
  {
    hide Matches, Serves, BuildProviders, Targets, Distinct;
    var init, last := providers[..|providers| - 1], providers[|providers| - 1];
    TargetsSnoc(providers, keys);
    if last.enabled {
      NewToBuilt(providers, keys, built);
      BuildSnoc(Targets(init, keys), TargetOf(last, keys));
    } else {
      assert Targets(init, keys) + [] == Targets(init, keys);
    }
  }

  lemma TargetsSnoc(providers: seq<Provider>, keys: map<string, string>)
    requires providers != []
    ensures var last := providers[|providers| - 1];
            Targets(providers, keys) ==
            Targets(providers[..|providers| - 1], keys) + if last.enabled then [TargetOf(last, keys)] else []
  {
  }

  lemma BuildSnoc(targets: seq<Target>, target: Target)
    requires BuildProviders(targets).Some?
    requires target.id != "" && target.id !in BuildProviders(targets).value && Known(target.protocol)
    ensures BuildProviders(targets + [target]) == Some(BuildProviders(targets).value[target.id := target])
  {}

  lemma NewToBuilt(providers: seq<Provider>, keys: map<string, string>, built: map<string, Target>)
    requires providers != [] && Distinct(providers) && Matches(providers[..|providers| - 1], keys, built)
    ensures providers[|providers| - 1].id !in built
  {}

  lemma OneMoreMatches(providers: seq<Provider>, keys: map<string, string>, built: map<string, Target>)
    requires providers != [] && Distinct(providers) && Matches(providers[..|providers| - 1], keys, built)
    ensures var last := providers[|providers| - 1];
            Matches(providers, keys, if last.enabled then built[last.id := TargetOf(last, keys)] else built)
  {}

  lemma DefaultServed(t: Texts, s: Snapshot, keys: map<string, string>, providers: map<string, Target>, p: Protocol)
    requires Sensible(t) && Valid(t, s) && Matches(s.providers, keys, providers) && p in s.defaults
    ensures s.defaults[p] != "" && s.defaults[p] in providers && providers[s.defaults[p]].protocol == p && Known(p)
  {}

  lemma RouteServed(t: Texts, s: Snapshot, keys: map<string, string>, providers: map<string, Target>, m: string)
    requires Sensible(t) && Valid(t, s) && Matches(s.providers, keys, providers) && m in s.routes
    ensures m != "" && RouteFits(providers, s.routes[m])
  {}

  /** Every valid catalog makes a table, whatever the keys, and the table says what the catalog says. */
  lemma ValidCatalogBuilds(t: Texts, s: Snapshot, keys: map<string, string>)
    requires Sensible(t) && Valid(t, s)
    ensures var built := Build(Targets(s.providers, keys), s.defaults, s.routes);
            built.Some? && Tabulates(s, keys, built.value)
  {
    hide BuildProviders, Targets, RouteFits, Serves, ServesAs, Valid, ProviderValid;
    ValidProviders(t, s);
    ProvidersBuild(t, s.providers, keys);
    var providers := BuildProviders(Targets(s.providers, keys)).value;
    forall p | p in s.defaults
      ensures s.defaults[p] != "" && s.defaults[p] in providers && providers[s.defaults[p]].protocol == p && Known(p)
    {
      DefaultServed(t, s, keys, providers, p);
    }
    forall m | m in s.routes ensures m != "" && RouteFits(providers, s.routes[m]) {
      RouteServed(t, s, keys, providers, m);
    }
    assert (map p | p in s.defaults && s.defaults[p] != "" :: s.defaults[p]) == s.defaults;
  }

  lemma ValidProviders(t: Texts, s: Snapshot)
    requires Valid(t, s)
    ensures Distinct(s.providers) && forall k :: 0 <= k < |s.providers| ==> ProviderValid(t, s.providers[k])
  {
  }

  /** The table is determined by what it must say. */
  lemma TableUnique(s: Snapshot, keys: map<string, string>, a: Table, b: Table)
    requires Tabulates(s, keys, a) && Tabulates(s, keys, b)
    ensures a == b
  {}
}
