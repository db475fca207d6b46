/**
 Administering a running gateway: the persisted catalog and keys, the keys in memory and the router,
 changed one operation at a time with rollback when a step fails.
 */
module Admin {
  import opened Llm
  import opened Catalog

  datatype Gateway = Gateway(
    catalog: Snapshot, stored: map<string, string>, values: map<string, string>, router: Option<Table>)

  /** Which of an operation's steps the environment lets fail. */
  datatype Faults = Faults(persist: bool, apply: bool, rollback: bool)

  // ---------------------------------------------------------------- steps

  /** Removing a provider removes its stored key. */
  function Restrict(stored: map<string, string>, s: Snapshot): map<string, string> {
    map id | id in stored && Has(s.providers, id) :: stored[id]
  }

  function Replace(g: Gateway, next: Snapshot): Gateway {
    g.(catalog := next, stored := Restrict(g.stored, next))
  }

  ghost function Apply(g: Gateway, s: Snapshot, fails: bool): Option<Gateway> {
    var table := Build(Targets(s.providers, g.values), s.defaults, s.routes);
    if fails || table.None? then None else Some(g.(router := table))
  }

  ghost function ApplyThenPersist(g: Gateway, next: Snapshot, f: Faults): (bool, Gateway) {
    match Apply(g, next, f.apply)
    case None => (false, g)
    case Some(a) =>
      if !f.persist then (true, Replace(a, next))
      else
        match Apply(a, g.catalog, f.rollback)
        case None => (false, a)
        case Some(b) => (false, b)
  }

  ghost function PersistThenApply(g: Gateway, next: Snapshot, f: Faults): (bool, Gateway) {
    if f.persist then (false, g)
    else
      var r := Replace(g, next);
      match Apply(r, next, f.apply)
      case Some(a) => (true, a)
      case None => (false, if f.rollback then r else Replace(r, g.catalog))
  }

  ghost function Update(t: Texts, g: Gateway, next: Option<Snapshot>, runtimeFirst: bool, f: Faults): (bool, Gateway) {
    if next.None? || !Valid(t, next.value) then (false, g)
    else if runtimeFirst then ApplyThenPersist(g, next.value, f)
    else PersistThenApply(g, next.value, f)
  }

  /** Storing a key for a provider that is not in the catalog violates a foreign key. */
  function Put(g: Gateway, id: string, value: string): Option<Gateway> {
    if Has(g.catalog.providers, id) then Some(g.(stored := g.stored[id := value])) else None
  }

  function Drop(g: Gateway, id: string): Gateway {
    g.(stored := g.stored - {id})
  }

  /** Back to what memory still holds. */
  function RollbackKey(g: Gateway, id: string): Gateway {
    if id !in g.values then Drop(g, id)
    else
      match Put(g, id, g.values[id])
      case None => g
      case Some(r) => r
  }

  ghost function UpdateKey(g: Gateway, id: string, value: Option<string>, f: Faults): (bool, Gateway) {
    var persisted := if f.persist then None else if value.None? then Some(Drop(g, id)) else Put(g, id, value.value);
    if persisted.None? then (false, g)
    else
      var p := persisted.value;
      var next := if value.None? then g.values - {id} else g.values[id := value.value];
      match Apply(p.(values := next), p.catalog, f.apply)
      case Some(a) => (true, a)
      case None => (false, if f.rollback then p else RollbackKey(p, id))
  }

  function Forget(g: Gateway, id: string): Gateway {
    g.(values := g.values - {id})
  }

  // ---------------------------------------------------------------- changes to the catalog

  function Position(providers: seq<Provider>, id: string): (k: nat)
    ensures k <= |providers| && (k < |providers| ==> providers[k].id == id)
    ensures k < |providers| <==> Has(providers, id)
    ensures forall j :: 0 <= j < k ==> providers[j].id != id
  {
    if providers == [] then 0
    else if providers[0].id == id then 0
    else
      assert forall k :: 0 < k < |providers| ==> providers[k] == providers[1..][k - 1];
      1 + Position(providers[1..], id)
  }

  predicate InUse(s: Snapshot, id: string) {
    || (exists p :: p in s.defaults && s.defaults[p] == id)
    || (exists m :: m in s.routes && Routes(s.routes[m], id))
  }

  predicate Routes(targets: seq<RouteTarget>, id: string) {
    exists k :: 0 <= k < |targets| && targets[k].providerID == id
  }

  datatype Change =
    | CreateProvider(item: Provider)
    | UpdateProvider(id: string, item: Provider)
    | DeleteProvider(id: string)
    | SetProviderEnabled(id: string, enabled: bool)
    | SetDefault(protocol: Protocol, id: string)
    | SetRoute(model: string, targets: seq<RouteTarget>)
    | DeleteRoute(model: string)

  function Changed(s: Snapshot, c: Change): Option<Snapshot> {
    match c
    case CreateProvider(item) => if Has(s.providers, item.id) then None else Some(s.(providers := s.providers + [item]))
    case UpdateProvider(id, item) =>
      var k := Position(s.providers, id);
      if k == |s.providers| then None else Some(s.(providers := s.providers[k := item.(id := id)]))
    case DeleteProvider(id) =>
      var k := Position(s.providers, id);
      if k == |s.providers| || InUse(s, id) then None
      else Some(s.(providers := s.providers[..k] + s.providers[k + 1..]))
    case SetProviderEnabled(id, enabled) =>
      var k := Position(s.providers, id);
      if k == |s.providers| then None else Some(s.(providers := s.providers[k := s.providers[k].(enabled := enabled)]))
    case SetDefault(protocol, id) =>
      Some(s.(defaults := if id == "" then s.defaults - {protocol} else s.defaults[protocol := id]))
    case SetRoute(model, targets) => Some(s.(routes := s.routes[model := targets]))
    case DeleteRoute(model) => Some(s.(routes := s.routes - {model}))
  }

  datatype Operation = Edit(change: Change) | SetKey(id: string, value: string) | DeleteKey(id: string)

  predicate Deletes(op: Operation) {
    op.Edit? && op.change.DeleteProvider?
  }

  /** A request of the admin interface, up to the end of the service call. */
  ghost function Operate(t: Texts, g: Gateway, op: Operation, f: Faults): (bool, Gateway) {
    match op
    case Edit(change) => Update(t, g, Changed(g.catalog, change), change.DeleteProvider?, f)
    case SetKey(id, value) =>
      if t.blank(id) || t.blank(value) then (false, g) else UpdateKey(g, id, Some(value), f)
    case DeleteKey(id) => if t.blank(id) then (false, g) else UpdateKey(g, id, None, f)
  }

  /** The whole request when no other comes between: deleting a provider then forgets its key in memory. */
  ghost function Finish(t: Texts, g: Gateway, op: Operation, f: Faults): (bool, Gateway) {
    var (ok, r) := Operate(t, g, op, f);
    (ok, if ok && Deletes(op) then Forget(r, op.change.id) else r)
  }

  /** The services as they run. `Faults` stands for the environment's choices during a call. */
  class Services {
    const texts: Texts
    const router: Router
    var catalog: Snapshot
    var stored: map<string, string>
    var values: map<string, string>

    constructor (texts: Texts, catalog: Snapshot, stored: map<string, string>)
      ensures fresh(router) && this.texts == texts && Abs() == Gateway(catalog, stored, stored, None)
    {
      this.texts := texts;
      this.catalog := catalog;
      this.stored := stored;
      values := stored;
      router := new Router();
    }

    function Abs(): Gateway
      reads this, router
    {
      Gateway(catalog, stored, values, router.table)
    }

    method Persist(next: Snapshot, fails: bool) returns (ok: bool)
      modifies this`catalog, this`stored
      ensures ok == !fails && Abs() == if ok then Replace(old(Abs()), next) else old(Abs())
    {
      if fails { return false; }
      catalog := next;
      stored := Restrict(stored, next);
      return true;
    }

    method ApplyRuntime(s: Snapshot, keys: map<string, string>, fails: bool) returns (ok: bool)
      modifies router
      ensures var r := Apply(old(Abs()).(values := keys), s, fails);
              ok == r.Some? && Abs() == if ok then r.value.(values := values) else old(Abs())
    {
      if fails { return false; }
      var targets := RoutingTargets(s.providers, keys);
      ok := router.ReplaceProtocols(targets, s.defaults, s.routes);
    }

    method UpdateCatalog(next: Option<Snapshot>, runtimeFirst: bool, f: Faults) returns (ok: bool)
      modifies this, router
      ensures (ok, Abs()) == Update(texts, old(Abs()), next, runtimeFirst, f)
    {
      hide Build, Targets, Valid, Restrict;
      if next.None? { return false; }
      var current := catalog;
      var valid := Validate(texts, next.value);
      if !valid { return false; }
      if runtimeFirst {
        ok := ApplyRuntime(next.value, values, f.apply);
        if !ok { return false; }
        ok := Persist(next.value, f.persist);
        if !ok {
          var undone := ApplyRuntime(current, values, f.rollback);
          return false;
        }
        return true;
      }
      ok := Persist(next.value, f.persist);
      if !ok { return false; }
      ok := ApplyRuntime(next.value, values, f.apply);
      if !ok {
        var undone := Persist(current, f.rollback);
        return false;
      }
      return true;
    }

    method UpdateAPIKey(id: string, value: Option<string>, f: Faults) returns (ok: bool)
      modifies this, router
      ensures (ok, Abs()) == UpdateKey(old(Abs()), id, value, f)
    {
      hide Build, Targets, Has;
      if f.persist { return false; }
      var next := values;
      if value.None? {
        next := next - {id};
        stored := stored - {id};
      } else {
        if !Has(catalog.providers, id) { return false; }
        next := next[id := value.value];
        stored := stored[id := value.value];
      }
      ok := ApplyRuntime(catalog, next, f.apply);
      if ok {
        values := next;
        return true;
      }
      if !f.rollback {
        if id !in values {
          stored := stored - {id};
        } else if Has(catalog.providers, id) {
          stored := stored[id := values[id]];
        }
      }
      return false;
    }

    method ForgetProvider(id: string)
      modifies this`values
      ensures Abs() == Forget(old(Abs()), id)
    {
      values := values - {id};
    }

    method Handle(op: Operation, f: Faults) returns (ok: bool)
      modifies this, router
      ensures (ok, Abs()) == Finish(texts, old(Abs()), op, f)
    {
      hide Update, UpdateKey, Changed;
      match op
      case Edit(change) =>
        var next := Changed(catalog, change);
        ok := UpdateCatalog(next, change.DeleteProvider?, f);
        if ok && change.DeleteProvider? {
          ForgetProvider(change.id);
        }
      case SetKey(id, value) =>
        if texts.blank(id) || texts.blank(value) { return false; }
        ok := UpdateAPIKey(id, Some(value), f);
      case DeleteKey(id) =>
        if texts.blank(id) { return false; }
        ok := UpdateAPIKey(id, None, f);
    }
  }

  // ---------------------------------------------------------------- coherence

  /** Router, catalog and keys tell the same story, as far as providers are in the catalog. */
  ghost predicate Agreeing(t: Texts, g: Gateway) {
    && Valid(t, g.catalog)
    && g.router.Some? && Tabulates(g.catalog, g.values, g.router.value)
    && Restrict(g.values, g.catalog) == g.stored
  }

  /** And no other key is in memory. */
  ghost predicate Coherent(t: Texts, g: Gateway) {
    Agreeing(t, g) && g.values == g.stored
  }

  lemma ApplySucceeds(t: Texts, g: Gateway, s: Snapshot)
    requires Sensible(t) && Valid(t, s)
    ensures Apply(g, s, false).Some?
    ensures var a := Apply(g, s, false).value;
            a == g.(router := a.router) && a.router.Some? && Tabulates(s, g.values, a.router.value)
  {
    hide Build, Targets, Valid, Tabulates;
    ValidCatalogBuilds(t, s, g.values);
  }

  predicate Creates(op: Operation) {
    op.Edit? && op.change.CreateProvider?
  }

  /** All changes but a deletion keep every provider, and only a creation adds one. */
  lemma ProvidersKept(s: Snapshot, c: Change, id: string)
    requires Changed(s, c).Some? && !c.DeleteProvider?
    ensures Has(Changed(s, c).value.providers, id) <==> Has(s.providers, id) || (c.CreateProvider? && c.item.id == id)
  {
    var next := Changed(s, c).value.providers;
    assert forall k :: 0 <= k < |s.providers| ==> next[k].id == s.providers[k].id;
    if c.CreateProvider? {
      assert next[|s.providers|].id == c.item.id;
    }
  }

  lemma DeletedIsGone(s: Snapshot, id: string, other: string)
    requires Changed(s, DeleteProvider(id)).Some? && Distinct(s.providers)
    ensures Has(Changed(s, DeleteProvider(id)).value.providers, other) <==> other != id && Has(s.providers, other)
  {
    var k := Position(s.providers, id);
    var next := Changed(s, DeleteProvider(id)).value.providers;
    if Has(next, other) {
      var j :| 0 <= j < |next| && next[j].id == other;
      assert next[j] == if j < k then s.providers[j] else s.providers[j + 1];
    }
    if other != id && Has(s.providers, other) {
      var j :| 0 <= j < |s.providers| && s.providers[j].id == other;
      assert next[if j < k then j else j - 1] == s.providers[j];
    }
  }

  lemma RestrictAll(stored: map<string, string>, s: Snapshot)
    requires forall id :: id in stored ==> Has(s.providers, id)
    ensures Restrict(stored, s) == stored
  {
  }

  lemma CatalogDistinct(t: Texts, s: Snapshot)
    requires Valid(t, s)
    ensures Distinct(s.providers)
  {
  }

  lemma SameTable(g: Gateway, a: Gateway)
    requires g.router.Some? && a.router.Some? && a == g.(router := a.router)
    requires Tabulates(g.catalog, g.values, g.router.value) && Tabulates(g.catalog, g.values, a.router.value)
    ensures a == g
  {
    hide Tabulates;
    TableUnique(g.catalog, g.values, g.router.value, a.router.value);
  }

  lemma ForgettingHarmless(s: Snapshot, values: map<string, string>, table: Table, id: string)
    requires Tabulates(s, values, table) && !Has(s.providers, id)
    ensures Tabulates(s, values - {id}, table)
  {}

  /** An edit that removes no provider. */
  lemma EditAgrees(t: Texts, g: Gateway, c: Change, f: Faults)
    requires Sensible(t) && Agreeing(t, g) && !f.rollback && !c.DeleteProvider?
    ensures var (ok, r) := Update(t, g, Changed(g.catalog, c), false, f);
            && (Agreeing(t, r) <==> !(ok && c.CreateProvider? && c.item.id in g.values))
            && (!ok ==> r == g)
            && (ok ==> Some(r.catalog) == Changed(g.catalog, c) && r.stored == g.stored && r.values == g.values)
  {
    hide Valid, Tabulates, Build, Targets, Changed, Has;
    var changed := Changed(g.catalog, c);
    if changed.Some? && Valid(t, changed.value) && !f.persist {
      var next := changed.value;
      forall id ensures Has(next.providers, id) <==> Has(g.catalog.providers, id) || (c.CreateProvider? && c.item.id == id) {
        ProvidersKept(g.catalog, c, id);
      }
      RestrictAll(g.stored, next);
      RestrictAll(g.stored, g.catalog);
      ApplySucceeds(t, Replace(g, next), next);
      if c.CreateProvider? {
        CreatedIsNew(g.catalog, c);
        assert c.item.id in g.values ==> c.item.id in Restrict(g.values, next) && c.item.id !in g.stored;
      }
      if !(c.CreateProvider? && c.item.id in g.values) {
        assert Restrict(g.values, next) == Restrict(g.values, g.catalog);
      }
    }
  }

  lemma CreatedIsNew(s: Snapshot, c: Change)
    requires c.CreateProvider? && Changed(s, c).Some?
    ensures !Has(s.providers, c.item.id)
  {
  }

  lemma RemovalAgrees(t: Texts, g: Gateway, id: string, f: Faults)
    requires Sensible(t) && Agreeing(t, g) && !f.rollback
    ensures var (ok, r) := Update(t, g, Changed(g.catalog, DeleteProvider(id)), true, f);
            && Agreeing(t, r) && (!ok ==> r == g)
            && (ok ==>
                  Some(r.catalog) == Changed(g.catalog, DeleteProvider(id)) && r.stored == g.stored - {id}
                  && r.values == g.values && !Has(r.catalog.providers, id))
  {
    hide Valid, Tabulates, Build, Targets, Changed, Has;
    var changed := Changed(g.catalog, DeleteProvider(id));
    if changed.Some? && Valid(t, changed.value) && !f.apply {
      var next := changed.value;
      ApplySucceeds(t, g, next);
      var a := Apply(g, next, false).value;
      if f.persist {
        ApplySucceeds(t, a, g.catalog);
        SameTable(g, Apply(a, g.catalog, false).value);
      } else {
        CatalogDistinct(t, g.catalog);
        DeletedIsGone(g.catalog, id, id);
        forall other ensures Has(next.providers, other) <==> other != id && Has(g.catalog.providers, other) {
          DeletedIsGone(g.catalog, id, other);
        }
        assert Restrict(g.stored, next) == g.stored - {id};
        assert Restrict(g.values, next) == g.stored - {id};
      }
    }
  }

  lemma KeyAgrees(t: Texts, g: Gateway, id: string, value: Option<string>, f: Faults)
    requires Sensible(t) && Agreeing(t, g) && !f.rollback
    ensures var (ok, r) := UpdateKey(g, id, value, f);
            && Agreeing(t, r) && (!ok ==> r == g)
            && (ok ==> r.catalog == g.catalog
                       && r.stored == (if value.None? then g.stored - {id} else g.stored[id := value.value])
                       && r.values == if value.None? then g.values - {id} else g.values[id := value.value])
  {
    hide Valid, Tabulates, Build, Targets, Has;
    var persisted := if value.None? then Some(Drop(g, id)) else Put(g, id, value.value);
    if !f.persist && persisted.Some? {
      var p := persisted.value;
      var next := if value.None? then g.values - {id} else g.values[id := value.value];
      ApplySucceeds(t, p.(values := next), p.catalog);
      assert Restrict(next, g.catalog) == p.stored;
      if f.apply {
        assert RollbackKey(p, id).stored == g.stored;
      }
    }
  }

  /** Every operation, whichever one of its steps fails, leaves router, catalog and keys in agreement, unless
      it creates a provider whose key is still in memory; a failed one leaves everything as it was, and a
      successful one did what was asked. */
  lemma OperationAgrees(t: Texts, g: Gateway, op: Operation, f: Faults)
    requires Sensible(t) && Agreeing(t, g) && !f.rollback
    ensures var (ok, r) := Operate(t, g, op, f);
            && (Agreeing(t, r) <==> !(ok && Creates(op) && op.change.item.id in g.values))
            && (!ok ==> r == g)
            && (ok ==>
                  match op
                  case Edit(change) =>
                    && Some(r.catalog) == Changed(g.catalog, change) && r.values == g.values
                    && (change.DeleteProvider? ==> r.stored == g.stored - {change.id} && !Has(r.catalog.providers, change.id))
                    && (!change.DeleteProvider? ==> r.stored == g.stored)
                  case SetKey(id, value) =>
                    r.catalog == g.catalog && r.stored == g.stored[id := value] && r.values == g.values[id := value]
                  case DeleteKey(id) =>
                    r.catalog == g.catalog && r.stored == g.stored - {id} && r.values == g.values - {id})
  {
    hide Agreeing, Update, UpdateKey, Changed, Has;
    match op
    case Edit(change) =>
      if change.DeleteProvider? {
        RemovalAgrees(t, g, change.id, f);
      } else {
        EditAgrees(t, g, change, f);
      }
    case SetKey(id, value) => KeyAgrees(t, g, id, Some(value), f);
    case DeleteKey(id) => KeyAgrees(t, g, id, None, f);
  }

  /** Forgetting a key in memory does no harm if and only if none is stored by then. */
  lemma ForgettingAgrees(t: Texts, g: Gateway, id: string)
    requires Agreeing(t, g)
    ensures Agreeing(t, Forget(g, id)) <==> id !in g.stored
  {
    hide Valid, Tabulates, Has;
    var after := Forget(g, id);
    if id in g.stored {
      assert id !in Restrict(after.values, g.catalog);
    } else if Has(g.catalog.providers, id) {
      assert id !in g.values by { assert id !in Restrict(g.values, g.catalog); }
      assert after.values == g.values;
    } else {
      ForgettingHarmless(g.catalog, g.values, g.router.value, id);
      assert Restrict(after.values, g.catalog) == Restrict(g.values, g.catalog);
    }
  }

  // ---------------------------------------------------------------- what was asked

  /** The default of one protocol, empty if there is none. */
  function DefaultOf(s: Snapshot, p: Protocol): string {
    if p in s.defaults then s.defaults[p] else ""
  }

  /** One provider is `after` where it was `before`; all others are in place. */
  predicate OnlyAt(s: Snapshot, n: Snapshot, id: string, after: Provider -> Provider) {
    && |n.providers| == |s.providers|
    && forall k :: 0 <= k < |s.providers| ==>
         n.providers[k] == if s.providers[k].id == id then after(s.providers[k]) else s.providers[k]
  }

  /** `n` is `s` after the change, and nothing else. */
  ghost predicate Does(s: Snapshot, n: Snapshot, c: Change) {
    match c
    case CreateProvider(item) =>
      !Has(s.providers, item.id) && n.defaults == s.defaults && n.routes == s.routes
      && |n.providers| == |s.providers| + 1 && n.providers[|s.providers|] == item
      && forall k :: 0 <= k < |s.providers| ==> n.providers[k] == s.providers[k]
    case UpdateProvider(id, item) =>
      Has(s.providers, id) && n.defaults == s.defaults && n.routes == s.routes
      && OnlyAt(s, n, id, (p: Provider) => Provider(id, item.protocol, item.baseURL, item.enabled))
    case SetProviderEnabled(id, enabled) =>
      Has(s.providers, id) && n.defaults == s.defaults && n.routes == s.routes
      && OnlyAt(s, n, id, (p: Provider) => Provider(id, p.protocol, p.baseURL, enabled))
    case DeleteProvider(id) =>
      Has(s.providers, id) && n.defaults == s.defaults && n.routes == s.routes
      && (forall p :: p in s.defaults ==> s.defaults[p] != id)
      && (forall m, k :: m in s.routes && 0 <= k < |s.routes[m]| ==> s.routes[m][k].providerID != id)
      && |n.providers| == |s.providers| - 1
      && exists k :: 0 <= k < |s.providers| && s.providers[k].id == id
           && forall j :: 0 <= j < |n.providers| ==> n.providers[j] == s.providers[if j < k then j else j + 1]
    case SetDefault(protocol, id) =>
      n.providers == s.providers && n.routes == s.routes
      && (protocol in n.defaults <==> id != "") && DefaultOf(n, protocol) == id
      && forall p :: p != protocol ==> (p in n.defaults <==> p in s.defaults) && DefaultOf(n, p) == DefaultOf(s, p)
    case SetRoute(model, targets) =>
      n.providers == s.providers && n.defaults == s.defaults
      && model in n.routes && n.routes[model] == targets && SameRoutesBut(s, n, model)
    case DeleteRoute(model) =>
      n.providers == s.providers && n.defaults == s.defaults && model !in n.routes && SameRoutesBut(s, n, model)
  }

  ghost predicate SameRoutesBut(s: Snapshot, n: Snapshot, model: string) {
    forall m :: m != model ==> (m in n.routes <==> m in s.routes) && (m in s.routes ==> n.routes[m] == s.routes[m])
  }

  /** The change can be made at all: what it names is there, or is not, and a deleted provider is not in use. */
  ghost predicate Applies(s: Snapshot, c: Change) {
    match c
    case CreateProvider(item) => !Has(s.providers, item.id)
    case UpdateProvider(id, _) => Has(s.providers, id)
    case SetProviderEnabled(id, _) => Has(s.providers, id)
    case DeleteProvider(id) =>
      && Has(s.providers, id) && (forall p :: p in s.defaults ==> s.defaults[p] != id)
      && (forall m, k :: m in s.routes && 0 <= k < |s.routes[m]| ==> s.routes[m][k].providerID != id)
    case _ => true
  }

  lemma ChangeDoes(s: Snapshot, c: Change)
    requires Distinct(s.providers)
    ensures Changed(s, c).Some? <==> Applies(s, c)
    ensures Changed(s, c).Some? ==> Does(s, Changed(s, c).value, c)
  {
    match c
    case DeleteProvider(id) => DeletionDoes(s, id);
    case _ =>
  }

  lemma DeletionDoes(s: Snapshot, id: string)
    ensures Changed(s, DeleteProvider(id)).Some? <==> Applies(s, DeleteProvider(id))
    ensures Changed(s, DeleteProvider(id)).Some? ==> Does(s, Changed(s, DeleteProvider(id)).value, DeleteProvider(id))
  {
    UsedExactly(s, id);
    if Changed(s, DeleteProvider(id)).Some? {
      var k := Position(s.providers, id);
      var n := Changed(s, DeleteProvider(id)).value;
      assert forall j :: 0 <= j < |n.providers| ==> n.providers[j] == s.providers[if j < k then j else j + 1];
    }
  }

  lemma UsedExactly(s: Snapshot, id: string)
    ensures InUse(s, id) <==>
            (exists p :: p in s.defaults && s.defaults[p] == id)
            || exists m, k :: m in s.routes && 0 <= k < |s.routes[m]| && s.routes[m][k].providerID == id
  {
    if m, k :| m in s.routes && 0 <= k < |s.routes[m]| && s.routes[m][k].providerID == id {
      assert Routes(s.routes[m], id);
    }
  }

  /** What a change does is determined. */
  lemma DoneOnce(s: Snapshot, a: Snapshot, b: Snapshot, c: Change)
    requires Distinct(s.providers) && Does(s, a, c) && Does(s, b, c)
    ensures a == b
  {
    match c
    case DeleteProvider(id) =>
      forall j | 0 <= j < |a.providers| ensures a.providers[j] == b.providers[j] {
      }
    case SetDefault(protocol, id) =>
      forall p ensures p in a.defaults <==> p in b.defaults {
        assert DefaultOf(a, p) == DefaultOf(b, p);
      }
      forall p | p in a.defaults ensures a.defaults[p] == b.defaults[p] {
        assert DefaultOf(a, p) == DefaultOf(b, p);
      }
      assert a.defaults == b.defaults;
    case SetRoute(model, targets) => SameRoutes(s, a, b, model);
    case DeleteRoute(model) => SameRoutes(s, a, b, model);
    case _ => assert a.providers == b.providers;
  }

  lemma SameRoutes(s: Snapshot, a: Snapshot, b: Snapshot, model: string)
    requires SameRoutesBut(s, a, model) && SameRoutesBut(s, b, model)
    requires model in a.routes <==> model in b.routes
    requires model in a.routes ==> a.routes[model] == b.routes[model]
    ensures a.routes == b.routes
  {
    assert forall m :: m in a.routes <==> m in b.routes;
    assert forall m :: m in a.routes ==> a.routes[m] == b.routes[m];
  }

  /** A change is made if and only if it can be, its outcome is a valid catalog, and no step fails. */
  lemma EditSucceeds(t: Texts, g: Gateway, c: Change, next: Snapshot, f: Faults)
    requires Sensible(t) && Agreeing(t, g) && !f.rollback
    requires Does(g.catalog, next, c) || !Applies(g.catalog, c)
    ensures var (ok, r) := Operate(t, g, Edit(c), f);
            && (ok <==> Applies(g.catalog, c) && Valid(t, next) && !f.persist && !f.apply)
            && (ok ==> r.catalog == next && r.router.Some? && Tabulates(next, g.values, r.router.value))
  {
    hide Valid, Tabulates, Build, Targets, Changed, Does, Applies, Has, Restrict;
    CatalogDistinct(t, g.catalog);
    ChangeDoes(g.catalog, c);
    var changed := Changed(g.catalog, c);
    if changed.Some? {
      DoneOnce(g.catalog, changed.value, next, c);
      if Valid(t, next) {
        ApplySucceeds(t, g, next);
        ApplySucceeds(t, Replace(g, next), next);
      }
    }
  }

  /** After a successful request the router serves exactly the enabled providers of the changed catalog, each
      as the catalog has it, and its defaults and routes are the catalog's. */
  lemma RouterFollows(t: Texts, g: Gateway, c: Change, next: Snapshot, f: Faults)
    requires Sensible(t) && Agreeing(t, g) && !f.rollback && Does(g.catalog, next, c)
    requires Operate(t, g, Edit(c), f).0
    ensures var r := Operate(t, g, Edit(c), f).1;
            && r.catalog == next && r.router.Some?
            && (forall id :: id in r.router.value.providers <==>
                  exists k :: 0 <= k < |next.providers| && next.providers[k].id == id && next.providers[k].enabled)
            && (forall k :: 0 <= k < |next.providers| && next.providers[k].enabled ==>
                  var p, target := next.providers[k], r.router.value.providers[next.providers[k].id];
                  && target.id == p.id && target.protocol == p.protocol && target.baseURL == p.baseURL
                  && target.apiKey == if p.id in g.values then g.values[p.id] else "")
            && r.router.value.defaults == next.defaults && r.router.value.routes == next.routes
  {
    hide Valid, Build, Targets, Changed, Does, Applies, Has, Restrict, Operate;
    EditSucceeds(t, g, c, next, f);
  }

  /** In particular: a provider is served exactly if it was last enabled. */
  lemma EnabledIsServed(t: Texts, g: Gateway, id: string, enabled: bool, f: Faults)
    requires Sensible(t) && Agreeing(t, g) && !f.rollback
    requires Operate(t, g, Edit(SetProviderEnabled(id, enabled)), f).0
    ensures var r := Operate(t, g, Edit(SetProviderEnabled(id, enabled)), f).1;
            r.router.Some? && (id in r.router.value.providers <==> enabled)
  {
    hide Valid, Build, Targets, Restrict, Operate, Agreeing, Tabulates;
    var c := SetProviderEnabled(id, enabled);
    OperationAgrees(t, g, Edit(c), f);
    AgreeingDistinct(t, g);
    ChangeDoes(g.catalog, c);
    var next := Changed(g.catalog, c).value;
    RouterFollows(t, g, c, next, f);
    var k := Position(g.catalog.providers, id);
    assert next.providers[k].id == id && next.providers[k].enabled == enabled;
    assert forall j :: 0 <= j < |next.providers| && next.providers[j].id == id ==> g.catalog.providers[j].id == id;
  }

  /** A key is set exactly if neither name nor key is blank, the provider is there and no step fails; removing
      one needs no provider. The router then uses the key that was set. */
  lemma KeySucceeds(t: Texts, g: Gateway, op: Operation, f: Faults)
    requires Sensible(t) && Agreeing(t, g) && !f.rollback && !op.Edit?
    ensures var (ok, r) := Operate(t, g, op, f);
            && (op.SetKey? ==>
                  (ok <==> !t.blank(op.id) && !t.blank(op.value) && Has(g.catalog.providers, op.id)
                           && !f.persist && !f.apply))
            && (op.DeleteKey? ==> (ok <==> !t.blank(op.id) && !f.persist && !f.apply))
            && (ok ==>
                  forall k :: 0 <= k < |g.catalog.providers| && g.catalog.providers[k].enabled ==>
                    var p := g.catalog.providers[k];
                    && r.router.Some? && p.id in r.router.value.providers
                    && r.router.value.providers[p.id].apiKey ==
                       if p.id == op.id then if op.SetKey? then op.value else ""
                       else if p.id in g.values then g.values[p.id] else "")
  {
    hide Valid, Build, Targets, Has;
    OperationAgrees(t, g, op, f);
    var value := if op.SetKey? then Some(op.value) else None;
    var persisted := if value.None? then Some(Drop(g, op.id)) else Put(g, op.id, value.value);
    if persisted.Some? {
      var next := if value.None? then g.values - {op.id} else g.values[op.id := value.value];
      ApplySucceeds(t, persisted.value.(values := next), g.catalog);
    }
  }

  lemma AgreeingDistinct(t: Texts, g: Gateway)
    requires Agreeing(t, g)
    ensures Distinct(g.catalog.providers)
  {
  }

  // ---------------------------------------------------------------- requests one after the other

  /** A request that is let finish keeps full coherence; a failed one leaves everything as it was, and a
      successful one did what was asked. */
  lemma OperationCoherent(t: Texts, g: Gateway, op: Operation, f: Faults)
    requires Sensible(t) && Coherent(t, g) && !f.rollback
    ensures var (ok, r) := Finish(t, g, op, f);
            && Coherent(t, r) && (!ok ==> r == g)
            && (ok ==>
                  match op
                  case Edit(change) => Some(r.catalog) == Changed(g.catalog, change)
                  case SetKey(id, value) => r.catalog == g.catalog && r.stored == g.stored[id := value]
                  case DeleteKey(id) => r.catalog == g.catalog && r.stored == g.stored - {id})
  {
    hide Operate, Agreeing, Changed, Has;
    OperationAgrees(t, g, op, f);
    var (ok, r) := Operate(t, g, op, f);
    if ok && Creates(op) {
      CreatedIsNew(g.catalog, op.change);
      KeysHaveProviders(t, g);
    }
    if ok && Deletes(op) {
      ForgettingAgrees(t, r, op.change.id);
    }
  }

  lemma KeysHaveProviders(t: Texts, g: Gateway)
    requires Agreeing(t, g)
    ensures forall id :: id in g.stored ==> Has(g.catalog.providers, id) && id in g.values
  {
    hide Valid, Tabulates, Has;
    assert forall id :: id in g.stored ==> id in Restrict(g.values, g.catalog);
  }

  datatype Asked = Asked(op: Operation, faults: Faults)

  ghost function Run(t: Texts, g: Gateway, requests: seq<Asked>): Gateway {
    if requests == [] then g
    else
      var last := requests[|requests| - 1];
      Finish(t, Run(t, g, requests[..|requests| - 1]), last.op, last.faults).1
  }

  /** Over any run of requests one after the other, deleting and re-creating providers included. */
  lemma {:induction false} RunCoherent(t: Texts, g: Gateway, requests: seq<Asked>)
    requires Sensible(t) && Coherent(t, g) && forall k :: 0 <= k < |requests| ==> !requests[k].faults.rollback
    ensures Coherent(t, Run(t, g, requests))
  {
    hide Coherent, Finish;
    if requests != [] {
      var last := requests[|requests| - 1];
      RunCoherent(t, g, requests[..|requests| - 1]);
      OperationCoherent(t, Run(t, g, requests[..|requests| - 1]), last.op, last.faults);
    }
  }

  // ---------------------------------------------------------------- requests that overlap

  /** `pending` holds the deleted providers whose keys are yet to be forgotten, once per request. */
  datatype Overlap = Overlap(gateway: Gateway, pending: multiset<string>)

  datatype Action = Call(asked: Asked) | Forgetting(id: string)

  /** One service call, or the forgetting of a key by a request whose deletion succeeded. */
  ghost function Step(t: Texts, s: Overlap, a: Action): Option<Overlap> {
    match a
    case Call(Asked(op, f)) =>
      var (ok, r) := Operate(t, s.gateway, op, f);
      Some(Overlap(r, if ok && Deletes(op) then s.pending + multiset{op.change.id} else s.pending))
    case Forgetting(id) =>
      if id !in s.pending then None else Some(Overlap(Forget(s.gateway, id), s.pending - multiset{id}))
  }

  ghost function Interleave(t: Texts, g: Gateway, actions: seq<Action>): Option<Overlap> {
    if actions == [] then Some(Overlap(g, multiset{}))
    else
      match Interleave(t, g, actions[..|actions| - 1])
      case None => None
      case Some(s) => Step(t, s, actions[|actions| - 1])
  }

  /** The two ways in which a deletion in progress does harm: its key is forgotten after another was
      stored, or the provider is created again while the old key is in memory. */
  ghost predicate Clean(t: Texts, g: Gateway, a: Action) {
    match a
    case Call(Asked(op, f)) => !(Creates(op) && Operate(t, g, op, f).0 && op.change.item.id in g.values)
    case Forgetting(id) => id !in g.stored
  }

  predicate RollbacksWork(actions: seq<Action>) {
    forall k :: 0 <= k < |actions| && actions[k].Call? ==> !actions[k].asked.faults.rollback
  }

  lemma StepAgrees(t: Texts, s: Overlap, a: Action)
    requires Sensible(t) && Agreeing(t, s.gateway) && Step(t, s, a).Some? && (a.Call? ==> !a.asked.faults.rollback)
    ensures Agreeing(t, Step(t, s, a).value.gateway) <==> Clean(t, s.gateway, a)
  {
    hide Agreeing, Operate;
    match a
    case Call(asked) => OperationAgrees(t, s.gateway, asked.op, asked.faults);
    case Forgetting(id) => ForgettingAgrees(t, s.gateway, id);
  }

  lemma {:induction false} InterleavedPrefix(t: Texts, g: Gateway, actions: seq<Action>, k: nat)
    requires k <= |actions| && Interleave(t, g, actions).Some?
    ensures Interleave(t, g, actions[..k]).Some?
  {
    hide Step;
    if k == |actions| {
      assert actions[..k] == actions;
    } else {
      InterleavedPrefix(t, g, actions[..|actions| - 1], k);
      assert actions[..|actions| - 1][..k] == actions[..k];
    }
  }

  /** The system after the first `k` actions. */
  ghost function After(t: Texts, g: Gateway, actions: seq<Action>, k: nat): Overlap
    requires k <= |actions| && Interleave(t, g, actions).Some?
  {
    InterleavedPrefix(t, g, actions, k);
    Interleave(t, g, actions[..k]).value
  }

  lemma AfterNext(t: Texts, g: Gateway, actions: seq<Action>, k: nat)
    requires k < |actions| && Interleave(t, g, actions).Some?
    ensures Step(t, After(t, g, actions, k), actions[k]) == Some(After(t, g, actions, k + 1))
  {
    InterleavedPrefix(t, g, actions, k + 1);
    assert actions[..k + 1][..k] == actions[..k];
  }

  /** However requests overlap: router, catalog and keys agree all along if and only if every action is clean
      at its moment. */
  lemma OverlappingAgrees(t: Texts, g: Gateway, actions: seq<Action>)
    requires Sensible(t) && Agreeing(t, g) && RollbacksWork(actions) && Interleave(t, g, actions).Some?
    ensures (forall k :: 0 <= k <= |actions| ==> Agreeing(t, After(t, g, actions, k).gateway))
            <==> forall k :: 0 <= k < |actions| ==> Clean(t, After(t, g, actions, k).gateway, actions[k])
  {
    hide Agreeing, Clean, Step, After;
    if forall k :: 0 <= k <= |actions| ==> Agreeing(t, After(t, g, actions, k).gateway) {
      forall k | 0 <= k < |actions| ensures Clean(t, After(t, g, actions, k).gateway, actions[k]) {
        AfterNext(t, g, actions, k);
        StepAgrees(t, After(t, g, actions, k), actions[k]);
      }
    }
    if forall k :: 0 <= k < |actions| ==> Clean(t, After(t, g, actions, k).gateway, actions[k]) {
      forall k | 0 <= k <= |actions| ensures Agreeing(t, After(t, g, actions, k).gateway) {
        CleanAgrees(t, g, actions, k);
      }
    }
  }

  lemma {:induction false} CleanAgrees(t: Texts, g: Gateway, actions: seq<Action>, k: nat)
    requires Sensible(t) && Agreeing(t, g) && RollbacksWork(actions) && Interleave(t, g, actions).Some? && k <= |actions|
    requires forall j :: 0 <= j < |actions| ==> Clean(t, After(t, g, actions, j).gateway, actions[j])
    ensures Agreeing(t, After(t, g, actions, k).gateway)
  {
    hide Agreeing, Clean, Step;
    if k > 0 {
      hide After;
      CleanAgrees(t, g, actions, k - 1);
      AfterNext(t, g, actions, k - 1);
      StepAgrees(t, After(t, g, actions, k - 1), actions[k - 1]);
    }
  }

  /** A provider that no deletion in progress is about. */
  ghost predicate Apart(s: Overlap, a: Action) {
    a.Call? && Creates(a.asked.op) ==> a.asked.op.change.item.id !in s.pending
  }

  /** What is in memory beyond the catalog is yet to be forgotten, and what is yet to be forgotten is not in
      the catalog. */
  ghost predicate Separated(s: Overlap) {
    && (forall id :: id in s.gateway.values ==> Has(s.gateway.catalog.providers, id) || id in s.pending)
    && (forall id :: id in s.pending ==> !Has(s.gateway.catalog.providers, id))
  }

  /** In particular all is clean when no provider is created again before its key is forgotten; and once
      nothing is left to forget, coherence is full. */
  lemma {:induction false} ApartCoherent(t: Texts, g: Gateway, actions: seq<Action>)
    requires Sensible(t) && Coherent(t, g) && RollbacksWork(actions) && Interleave(t, g, actions).Some?
    requires forall k :: 0 <= k < |actions| ==> Apart(After(t, g, actions, k), actions[k])
    ensures var s := Interleave(t, g, actions).value;
            Agreeing(t, s.gateway) && Separated(s) && (s.pending == multiset{} ==> Coherent(t, s.gateway))
  {
    hide Agreeing, Step, Has;
    if actions == [] {
      KeysHaveProviders(t, g);
    } else {
      var init, last := actions[..|actions| - 1], |actions| - 1;
      InterleavedPrefix(t, g, actions, last);
      forall k | 0 <= k < |init| ensures Apart(After(t, g, init, k), init[k]) {
        assert init[..k] == actions[..k];
        assert Apart(After(t, g, actions, k), actions[k]);
      }
      ApartCoherent(t, g, init);
      var s := Interleave(t, g, init).value;
      assert Apart(After(t, g, actions, last), actions[last]);
      SeparatedStep(t, s, actions[last]);
    }
    MemoryIsStored(t, Interleave(t, g, actions).value);
  }

  lemma MemoryIsStored(t: Texts, s: Overlap)
    requires Agreeing(t, s.gateway) && Separated(s)
    ensures s.pending == multiset{} ==> Coherent(t, s.gateway)
  {
    hide Valid, Tabulates, Has;
    if s.pending == multiset{} {
      assert Restrict(s.gateway.values, s.gateway.catalog) == s.gateway.values;
    }
  }

  lemma ProvidersFollow(t: Texts, g: Gateway, c: Change)
    requires Agreeing(t, g) && Changed(g.catalog, c).Some?
    ensures forall id :: Has(Changed(g.catalog, c).value.providers, id) <==>
                         if c.DeleteProvider? then id != c.id && Has(g.catalog.providers, id)
                         else Has(g.catalog.providers, id) || (c.CreateProvider? && c.item.id == id)
    ensures c.CreateProvider? ==> !Has(g.catalog.providers, c.item.id)
  {
    hide Tabulates, Changed, Has;
    CatalogDistinct(t, g.catalog);
    if c.CreateProvider? {
      CreatedIsNew(g.catalog, c);
    }
    forall id
      ensures Has(Changed(g.catalog, c).value.providers, id) <==>
              if c.DeleteProvider? then id != c.id && Has(g.catalog.providers, id)
              else Has(g.catalog.providers, id) || (c.CreateProvider? && c.item.id == id)
    {
      if c.DeleteProvider? {
        DeletedIsGone(g.catalog, c.id, id);
      } else {
        ProvidersKept(g.catalog, c, id);
      }
    }
  }

  lemma SeparatedStep(t: Texts, s: Overlap, a: Action)
    requires Sensible(t) && Agreeing(t, s.gateway) && Separated(s) && Step(t, s, a).Some? && Apart(s, a)
    requires a.Call? ==> !a.asked.faults.rollback
    ensures Agreeing(t, Step(t, s, a).value.gateway) && Separated(Step(t, s, a).value)
  {
    hide Agreeing, Operate, Changed, Has;
    KeysHaveProviders(t, s.gateway);
    StepAgrees(t, s, a);
    match a
    case Forgetting(id) =>
    case Call(asked) =>
      OperationAgrees(t, s.gateway, asked.op, asked.faults);
      var (ok, r) := Operate(t, s.gateway, asked.op, asked.faults);
      if ok {
        if asked.op.Edit? {
          ProvidersFollow(t, s.gateway, asked.op.change);
        }
        KeysHaveProviders(t, r);
      }
  }

  // ---------------------------------------------------------------- why the order matters

  /** Persisting a removal first would lose the provider's key when the runtime then refuses: the rollback
      restores the catalog but not the key. */
  lemma RemovalPersistedFirst(t: Texts, g: Gateway, id: string)
    requires Sensible(t) && Coherent(t, g) && id in g.stored
    requires Changed(g.catalog, DeleteProvider(id)).Some? && Valid(t, Changed(g.catalog, DeleteProvider(id)).value)
    ensures var (ok, r) := Update(t, g, Changed(g.catalog, DeleteProvider(id)), false, Faults(false, true, false));
            !ok && r.catalog == g.catalog && id !in r.stored && !Coherent(t, r)
  {
    hide Tabulates, Build, Targets, Changed;
    CatalogDistinct(t, g.catalog);
    DeletedIsGone(g.catalog, id, id);
  }

  const NO_FAULTS := Faults(false, false, false)

  lemma UpdateSucceeds(t: Texts, g: Gateway, next: Snapshot, runtimeFirst: bool)
    requires Sensible(t) && Valid(t, next)
    ensures var (ok, r) := Update(t, g, Some(next), runtimeFirst, NO_FAULTS);
            ok && r == Replace(g, next).(router := r.router) && r.router.Some? && Tabulates(next, g.values, r.router.value)
  {
    hide Valid, Tabulates, Build, Targets, Restrict;
    ApplySucceeds(t, g, next);
    ApplySucceeds(t, Replace(g, next), next);
  }

  lemma KeyingSucceeds(t: Texts, g: Gateway, id: string, value: string)
    requires Sensible(t) && Valid(t, g.catalog) && Has(g.catalog.providers, id)
    ensures var (ok, r) := UpdateKey(g, id, Some(value), NO_FAULTS);
            && ok && r.catalog == g.catalog && r.stored == g.stored[id := value] && r.values == g.values[id := value]
  {
    hide Valid, Tabulates, Build, Targets, Has;
    ApplySucceeds(t, g.(stored := g.stored[id := value], values := g.values[id := value]), g.catalog);
  }

  lemma Next(t: Texts, g: Gateway, actions: seq<Action>, s: Overlap, a: Action) returns (longer: seq<Action>, r: Overlap)
    requires Interleave(t, g, actions) == Some(s) && Step(t, s, a).Some?
    ensures longer == actions + [a] && Step(t, s, a) == Some(r) && Interleave(t, g, longer) == Some(r)
  {
    hide Step;
    longer, r := actions + [a], Step(t, s, a).value;
    assert longer[..|actions|] == actions;
  }

  /** The provider can be deleted, and created again as `item`. */
  ghost predicate Recreates(t: Texts, s: Snapshot, item: Provider) {
    var without := Changed(s, DeleteProvider(item.id));
    && without.Some? && Valid(t, without.value)
    && var again := Changed(without.value, CreateProvider(item)); again.Some? && Valid(t, again.value)
  }

  lemma DeletionSucceeds(t: Texts, g: Gateway, item: Provider)
    requires Sensible(t) && Agreeing(t, g) && Recreates(t, g.catalog, item)
    ensures var (ok, r) := Operate(t, g, Edit(DeleteProvider(item.id)), NO_FAULTS);
            && ok && Agreeing(t, r) && Some(r.catalog) == Changed(g.catalog, DeleteProvider(item.id))
            && r.stored == g.stored - {item.id} && r.values == g.values
  {
    hide Valid, Tabulates, Update, Has, Changed, Agreeing;
    UpdateSucceeds(t, g, Changed(g.catalog, DeleteProvider(item.id)).value, true);
    OperationAgrees(t, g, Edit(DeleteProvider(item.id)), NO_FAULTS);
  }

  lemma CreationSucceeds(t: Texts, g: Gateway, item: Provider)
    requires Sensible(t) && Agreeing(t, g)
    requires var again := Changed(g.catalog, CreateProvider(item)); again.Some? && Valid(t, again.value)
    ensures var (ok, r) := Operate(t, g, Edit(CreateProvider(item)), NO_FAULTS);
            && ok && Some(r.catalog) == Changed(g.catalog, CreateProvider(item))
            && r.stored == g.stored && r.values == g.values && Has(r.catalog.providers, item.id)
            && r.router.Some? && Tabulates(r.catalog, g.values, r.router.value)
  {
    hide Valid, Tabulates, Update, Has, Changed, Agreeing;
    UpdateSucceeds(t, g, Changed(g.catalog, CreateProvider(item)).value, false);
    OperationAgrees(t, g, Edit(CreateProvider(item)), NO_FAULTS);
    ProvidersFollow(t, g, CreateProvider(item));
  }

  lemma CreatedLast(s: Snapshot, item: Provider)
    requires Changed(s, CreateProvider(item)).Some?
    ensures var providers := Changed(s, CreateProvider(item)).value.providers;
            providers != [] && providers[|providers| - 1] == item
  {
  }

  /** A request has deleted a provider, but not yet forgotten its key, and another creates it again. */
  lemma CreatedAgain(t: Texts, g: Gateway, item: Provider) returns (actions: seq<Action>, s: Overlap)
    requires Sensible(t) && Agreeing(t, g) && Recreates(t, g.catalog, item)
    ensures Interleave(t, g, actions) == Some(s) && s.pending == multiset{item.id}
    ensures Valid(t, s.gateway.catalog) && Has(s.gateway.catalog.providers, item.id)
    ensures s.gateway.stored == g.stored - {item.id} && s.gateway.values == g.values
    ensures s.gateway.router.Some? && Tabulates(s.gateway.catalog, g.values, s.gateway.router.value)
    ensures s.gateway.catalog.providers != [] && s.gateway.catalog.providers[|s.gateway.catalog.providers| - 1] == item
  {
    hide Valid, Tabulates, Operate, Has, Changed, Agreeing;
    actions, s := [], Overlap(g, multiset{});
    DeletionSucceeds(t, g, item);
    actions, s := Next(t, g, actions, s, Call(Asked(Edit(DeleteProvider(item.id)), NO_FAULTS)));
    CreationSucceeds(t, s.gateway, item);
    CreatedLast(s.gateway.catalog, item);
    actions, s := Next(t, g, actions, s, Call(Asked(Edit(CreateProvider(item)), NO_FAULTS)));
  }

  /** The provider created again serves with the old key, which is stored no more. */
  lemma OldKeyInherited(t: Texts, g: Gateway, item: Provider) returns (actions: seq<Action>)
    requires Sensible(t) && Coherent(t, g) && Recreates(t, g.catalog, item)
    requires item.id in g.stored && item.enabled
    ensures Interleave(t, g, actions).Some?
    ensures var r := Interleave(t, g, actions).value.gateway;
            && item.id !in r.stored && !Agreeing(t, r)
            && r.router.Some? && item.id in r.router.value.providers
            && r.router.value.providers[item.id] == TargetOf(item, g.stored)
  {
    hide Recreates, Valid, Build, Targets;
    var s;
    actions, s := CreatedAgain(t, g, item);
    assert item.id in Restrict(s.gateway.values, s.gateway.catalog);
  }

  /** A deletion whose forgetting comes late, after the provider was created again and given a key, takes
      that key out of memory although it is stored. */
  lemma LateForgetting(t: Texts, g: Gateway, item: Provider, value: string) returns (actions: seq<Action>)
    requires Sensible(t) && Coherent(t, g) && !t.blank(item.id) && !t.blank(value)
    requires Recreates(t, g.catalog, item)
    ensures Interleave(t, g, actions).Some?
    ensures var r := Interleave(t, g, actions).value.gateway;
            item.id in r.stored && r.stored[item.id] == value && item.id !in r.values && !Agreeing(t, r)
  {
    hide Recreates, Valid, Tabulates, Has, UpdateKey;
    var s;
    actions, s := CreatedAgain(t, g, item);
    KeyingSucceeds(t, s.gateway, item.id, value);
    actions, s := Next(t, g, actions, s, Call(Asked(SetKey(item.id, value), NO_FAULTS)));
    actions, s := Next(t, g, actions, s, Forgetting(item.id));
    assert item.id !in Restrict(s.gateway.values, s.gateway.catalog);
  }
}
