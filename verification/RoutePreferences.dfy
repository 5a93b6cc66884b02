/** Which resources a project may use, and the guard that keeps at least one model route
    enabled: before a resource is disabled, the evaluation after the write is computed on the
    store as it is. */
module RoutePreferences {
  import opened Options

  datatype Resource =
    | Extension(id: string)
    | Skill(id: string)
    | Package(id: string)
    | ModelRoute(provider: string, model: string)

  datatype Scope = Global | Project(id: nat)

  datatype Key = Key(scope: Scope, resource: Resource)

  type Store = map<Key, bool>

  datatype Owner = Owner(extension: string, package: Option<string>)

  datatype Route = Route(provider: string, model: string, owner: Option<Owner>)

  /** `package` is the source of an extension that comes from a package; `registers` are the
      models it offers, by provider, once it is loaded. */
  datatype Found = Found(id: string, package: Option<string>, enabled: bool, registers: map<string, seq<string>>)

  /** What discovery reports for a project. */
  datatype Environment = Environment(routes: seq<Route>, extensions: seq<Found>, skills: seq<Found>,
      packages: seq<string>)

  /** What is installed for a project: the providers there are, the models offered without any
      extension, and the extensions in the order their registrations take effect. */
  datatype Setup = Setup(providers: seq<string>, builtin: map<string, seq<string>>, extensions: seq<Found>,
                         skills: seq<Found>, packages: seq<string>)

  /** A project, and whether discovery fails there. */
  datatype Place = Place(available: bool, fails: bool, setup: Setup)

  // ----- the real evaluator -----

  function Lookup(store: Store, scope: Scope, resource: Resource): Option<bool> {
    if Key(scope, resource) in store then Some(store[Key(scope, resource)]) else None
  }

  function Or(a: Option<bool>, b: Option<bool>): Option<bool> {
    if a.Some? then a else b
  }

  function Then(a: Option<bool>, default: bool): bool {
    if a.Some? then a.value else default
  }

  function LookupPackage(store: Store, scope: Scope, package: Option<string>): Option<bool> {
    if package.Some? then Lookup(store, scope, Package(package.value)) else None
  }

  /** The project's word on the resource, then on its package, then the global ones. */
  function Effective(store: Store, project: nat, resource: Resource, package: Option<string>, discovered: bool): bool {
    Then(Or(Lookup(store, Project(project), resource),
            Or(LookupPackage(store, Project(project), package),
               Or(Lookup(store, Global, resource), LookupPackage(store, Global, package)))),
         discovered)
  }

  function FindExtension(found: seq<Found>, id: string): Option<Found> {
    if found == [] then None else if found[0].id == id then Some(found[0]) else FindExtension(found[1..], id)
  }

  /** `None` when the snapshot contradicts itself. */
  function OwnerEnabled(store: Store, project: nat, owner: Owner, env: Environment): Option<bool> {
    var found := FindExtension(env.extensions, owner.extension);
    if found.None? || owner.package != found.value.package || (owner.package.Some?
        && owner.package.value !in env.packages) then None
    else Some(Effective(store, project, Extension(found.value.id), owner.package, found.value.enabled))
  }

  function RouteEnabled(store: Store, project: nat, route: Route, env: Environment): Option<bool> {
    var enabled := Effective(store, project, ModelRoute(route.provider, route.model), None, true);
    if route.owner.None? then Some(enabled)
    else match OwnerEnabled(store, project, route.owner.value, env)
      case None => None
      case Some(owner) => Some(enabled && owner)
  }

  /** Every route's owner is what the snapshot says it is. */
  ghost predicate Consistent(env: Environment) {
    forall r :: r in env.routes && r.owner.Some? ==>
      var found := FindExtension(env.extensions, r.owner.value.extension);
      && found.Some? && r.owner.value.package == found.value.package
      && (r.owner.value.package.Some? ==> r.owner.value.package.value in env.packages)
  }

  // ----- discovery -----

  /** Only enabled extensions are loaded. */
  predicate Loaded(store: Store, project: nat, found: Found) {
    Effective(store, project, Extension(found.id), found.package, found.enabled)
  }

  /** The last loaded extension that registers the provider decides what it offers. */
  function Registrant(store: Store, project: nat, extensions: seq<Found>, provider: string): (f: Option<Found>)
    ensures f.Some? ==> f.value in extensions && provider in f.value.registers && Loaded(store, project, f.value)
  {
    if extensions == [] then None
    else
      var last := extensions[|extensions| - 1];
      if Loaded(store, project, last) && provider in last.registers then Some(last)
      else Registrant(store, project, extensions[..|extensions| - 1], provider)
  }

  function Offered(setup: Setup, registrant: Option<Found>, provider: string): seq<string>
    requires registrant.Some? ==> provider in registrant.value.registers
  {
    if registrant.Some? then registrant.value.registers[provider]
    else if provider in setup.builtin then setup.builtin[provider] else []
  }

  function RoutesOf(provider: string, models: seq<string>, registrant: Option<Found>): seq<Route> {
    var owner := if registrant.Some? then Some(Owner(registrant.value.id, registrant.value.package)) else None;
    seq(|models|, i requires 0 <= i < |models| => Route(provider, models[i], owner))
  }

  function RoutesFrom(store: Store, project: nat, setup: Setup, providers: seq<string>): seq<Route> {
    if providers == [] then []
    else
      var registrant := Registrant(store, project, setup.extensions, providers[0]);
      RoutesOf(providers[0], Offered(setup, registrant, providers[0]), registrant)
      + RoutesFrom(store, project, setup, providers[1..])
  }

  function Discover(store: Store, project: nat, setup: Setup): Environment {
    Environment(RoutesFrom(store, project, setup, setup.providers), setup.extensions, setup.skills, setup.packages)
  }

  /** Extensions are told apart by their paths, and packages they come from are configured. */
  ghost predicate Sensible(setup: Setup) {
    && (forall i, j :: 0 <= i < j < |setup.extensions| ==> setup.extensions[i].id != setup.extensions[j].id)
    && (forall f :: f in setup.extensions && f.package.Some? ==> f.package.value in setup.packages)
  }

  ghost predicate HasRoute(store: Store, project: nat, setup: Setup) {
    var env := Discover(store, project, setup);
    exists r :: r in env.routes && RouteEnabled(store, project, r, env) == Some(true)
  }

  // ----- the hypothetical evaluator -----

  function LookupAfter(store: Store, scope: Scope, resource: Resource, changedGlobal: bool,
      target: Resource): Option<bool> {
    if (scope.Global? <==> changedGlobal) && resource == target then Some(false) else Lookup(store, scope, resource)
  }

  function PackageAfter(store: Store, scope: Scope, package: Option<string>, changedGlobal: bool,
      target: Resource): Option<bool> {
    if package.Some? then LookupAfter(store, scope, Package(package.value), changedGlobal, target) else None
  }

  function EffectiveAfter(store: Store, project: nat, resource: Resource, package: Option<string>, discovered: bool,
      changedGlobal: bool, target: Resource): bool {
    Then(Or(LookupAfter(store, Project(project), resource, changedGlobal, target),
            Or(PackageAfter(store, Project(project), package, changedGlobal, target),
               Or(LookupAfter(store, Global, resource, changedGlobal, target),
                  PackageAfter(store, Global, package, changedGlobal, target)))),
         discovered)
  }

  function RouteAfter(store: Store, project: nat, route: Route, env: Environment, changedGlobal: bool,
      target: Resource): Option<bool> {
    if !EffectiveAfter(store, project, ModelRoute(route.provider, route.model), None, true, changedGlobal, target)
        then Some(false)
    else if route.owner.None? then Some(true)
    else match FindExtension(env.extensions, route.owner.value.extension)
      case None => None
      case Some(found) =>
        Some(EffectiveAfter(store, project, Extension(route.owner.value.extension), route.owner.value.package,
            found.enabled, changedGlobal, target))
  }

  /** The first enabled route settles it; a route that cannot be evaluated before is an error. */
  function HasAfter(store: Store, project: nat, routes: seq<Route>, env: Environment, changedGlobal: bool,
      target: Resource): Option<bool> {
    if routes == [] then Some(false)
    else match RouteAfter(store, project, routes[0], env, changedGlobal, target)
      case None => None
      case Some(true) => Some(true)
      case Some(false) => HasAfter(store, project, routes[1..], env, changedGlobal, target)
  }

  // ----- which changes concern models -----

  predicate RouteConcerned(resource: Resource, route: Route) {
    match resource
    case ModelRoute(provider, model) => route.provider == provider && route.model == model
    case Extension(id) => route.owner.Some? && route.owner.value.extension == id
    case Package(id) => route.owner.Some? && route.owner.value.package == Some(id)
    case Skill(_) => false
  }

  predicate Affects(resource: Resource, env: Environment) {
    exists i :: 0 <= i < |env.routes| && RouteConcerned(resource, env.routes[i])
  }

  predicate CanAffect(global: bool, resource: Resource, env: Environment) {
    match resource
    case ModelRoute(_, _) => true
    case Skill(_) => false
    case _ => global || Affects(resource, env)
  }

  predicate Contains(env: Environment, resource: Resource) {
    match resource
    case ModelRoute(provider, model) => exists i ::
        0 <= i < |env.routes| && env.routes[i].provider == provider && env.routes[i].model == model
    case Extension(id) => exists i :: 0 <= i < |env.extensions| && env.extensions[i].id == id
    case Skill(id) => exists i :: 0 <= i < |env.skills| && env.skills[i].id == id
    case Package(id) => id in env.packages
  }

  // ----- the two evaluators agree -----

  function ScopeOf(global: bool, project: nat): Scope {
    if global then Global else Project(project)
  }

  function Set(store: Store, scope: Scope, resource: Resource, enabled: bool): Store {
    store[Key(scope, resource) := enabled]
  }

  lemma EffectiveAgrees(store: Store, project: nat, resource: Resource, package: Option<string>, discovered: bool,
      global: bool, target: Resource)
    ensures EffectiveAfter(store, project, resource, package, discovered, global, target)
            == Effective(Set(store, ScopeOf(global, project), target, false), project, resource, package, discovered)
  {
  }

  lemma {:induction false} FoundHasId(found: seq<Found>, id: string)
    ensures FindExtension(found, id).Some? ==> FindExtension(found, id).value.id == id
  {
    if found != [] && found[0].id != id { FoundHasId(found[1..], id); }
  }

  /** On a consistent snapshot the hypothetical evaluator says what the real one says after the write. */
  lemma RouteAgrees(store: Store, project: nat, route: Route, env: Environment, global: bool, target: Resource)
    requires Consistent(env) && route in env.routes
    ensures RouteAfter(store, project, route, env, global, target)
            == RouteEnabled(Set(store, ScopeOf(global, project), target, false), project, route, env)
  {
    hide Effective, EffectiveAfter;
    EffectiveAgrees(store, project, ModelRoute(route.provider, route.model), None, true, global, target);
    if route.owner.Some? {
      var owner := route.owner.value;
      FoundHasId(env.extensions, owner.extension);
      EffectiveAgrees(store, project, Extension(owner.extension), owner.package, FindExtension(env.extensions,
          owner.extension).value.enabled, global, target);
    }
  }

  lemma {:induction false} HasAgrees(store: Store, project: nat, routes: seq<Route>, env: Environment, global: bool,
      target: Resource)
    requires Consistent(env) && forall r :: r in routes ==> r in env.routes
    ensures HasAfter(store, project, routes, env, global, target)
            == Some(exists r :: r in routes && RouteEnabled(Set(store, ScopeOf(global, project), target, false),
                project, r, env) == Some(true))
  {
    hide RouteAfter, RouteEnabled;
    if routes != [] {
      RouteAgrees(store, project, routes[0], env, global, target);
      assert routes[0] in routes;
      assert forall r :: r in routes <==> r == routes[0] || r in routes[1..];
      EnabledTotal(Set(store, ScopeOf(global, project), target, false), project, routes[0], env);
      HasAgrees(store, project, routes[1..], env, global, target);
    }
  }

  lemma EnabledTotal(store: Store, project: nat, route: Route, env: Environment)
    requires Consistent(env) && route in env.routes
    ensures RouteEnabled(store, project, route, env).Some?
  {
    hide Effective;
  }

  /** Which word counts: the project's on the resource, else on its package, else the global one
      on the resource, else on its package, else what discovery found. */
  lemma EffectiveIs(store: Store, project: nat, resource: Resource, package: Option<string>, discovered: bool)
    ensures var own, all := Key(Project(project), resource), Key(Global, resource);
            var value := Effective(store, project, resource, package, discovered);
            && (own in store ==> value == store[own])
            && (own !in store && package.Some? && Key(Project(project), Package(package.value)) in store ==>
                  value == store[Key(Project(project), Package(package.value))])
            && (own !in store && !(package.Some? && Key(Project(project), Package(package.value)) in store) ==>
                  && (all in store ==> value == store[all])
                  && (all !in store && package.Some? && Key(Global, Package(package.value)) in store ==>
                        value == store[Key(Global, Package(package.value))])
                  && (all !in store && !(package.Some? && Key(Global, Package(package.value)) in store) ==>
                        value == discovered))
  {
  }

  // ----- what a write leaves alone -----

  /** A route the resource does not concern is enabled or not as before, whatever is written. */
  lemma UnconcernedSame(store: Store, scope: Scope, resource: Resource, enabled: bool, project: nat, route: Route,
      env: Environment)
    requires Consistent(env) && route in env.routes && !RouteConcerned(resource, route)
    ensures RouteEnabled(Set(store, scope, resource, enabled), project, route, env) ==
            RouteEnabled(store, project, route, env)
  {
    if route.owner.Some? { FoundHasId(env.extensions, route.owner.value.extension); }
  }

  /** A change that does not affect a project leaves its enabled routes alone. */
  lemma UnaffectedSame(store: Store, scope: Scope, resource: Resource, enabled: bool, project: nat, env: Environment)
    requires Consistent(env) && !Affects(resource, env)
    ensures forall r :: r in env.routes ==>
        RouteEnabled(Set(store, scope, resource, enabled), project, r, env) == RouteEnabled(store, project, r, env)
  {
    hide RouteEnabled;
    forall r | r in env.routes
      ensures RouteEnabled(Set(store, scope, resource, enabled), project, r, env) ==
              RouteEnabled(store, project, r, env)
    {
      UnconcernedSame(store, scope, resource, enabled, project, r, env);
    }
  }

  /** Another project's word is not asked. */
  lemma ElsewhereSame(store: Store, changed: nat, resource: Resource, enabled: bool, project: nat, route: Route,
      env: Environment)
    requires changed != project
    ensures RouteEnabled(Set(store, Project(changed), resource, enabled), project, route, env) == RouteEnabled(store,
        project, route, env)
  {
  }

  lemma EnablingEffective(store: Store, scope: Scope, resource: Resource, project: nat, asked: Resource,
      package: Option<string>, discovered: bool)
    ensures Effective(store, project, asked, package, discovered)
        ==> Effective(Set(store, scope, resource, true), project, asked, package, discovered)
  {
  }

  /** Enabling anything, anywhere, turns no route off. */
  lemma EnablingKeeps(store: Store, scope: Scope, resource: Resource, project: nat, route: Route, env: Environment)
    requires RouteEnabled(store, project, route, env) == Some(true)
    ensures RouteEnabled(Set(store, scope, resource, true), project, route, env) == Some(true)
  {
    hide Effective;
    EnablingEffective(store, scope, resource, project, ModelRoute(route.provider, route.model), None, true);
    if route.owner.Some? {
      var found := FindExtension(env.extensions, route.owner.value.extension);
      EnablingEffective(store, scope, resource, project, Extension(found.value.id), route.owner.value.package,
          found.value.enabled);
    }
  }

  // ----- the guard -----

  /** `project` would still have a route of those it has now, or is not concerned. */
  predicate Survives(store: Store, project: nat, setup: Setup, global: bool, target: Resource) {
    var env := Discover(store, project, setup);
    Affects(target, env) ==> HasAfter(store, project, env.routes, env, global, target) == Some(true)
  }

  predicate Other(places: map<nat, Place>, project: nat, p: nat) {
    p in places && p != project
  }

  predicate AffectsPlace(store: Store, project: nat, place: Place, target: Resource) {
    Affects(target, Discover(store, project, place.setup))
  }

  /** What a disable is accepted on. A global one is refused while discovery fails in another
      available project, and, if it matters to some project, while another is unavailable. */
  ghost predicate DisableAllowed(store: Store, places: map<nat, Place>, project: nat, global: bool, target: Resource)
    requires project in places
  {
    && Survives(store, project, places[project].setup, global, target)
    && (global ==>
          && (forall p :: Other(places, project, p) && places[p].available ==>
                !places[p].fails && Survives(store, p, places[p].setup, true, target))
          && ((exists p :: Other(places, project, p) && !places[p].available) ==>
                !AffectsPlace(store, project, places[project], target)
                && forall p ::
                    Other(places, project, p) && places[p].available ==> !AffectsPlace(store, p, places[p], target)))
  }

  ghost predicate Allowed(store: Store, places: map<nat, Place>, project: nat, global: bool, resource: Resource,
      enabled: bool)
    requires project in places
  {
    var env := Discover(store, project, places[project].setup);
    && !places[project].fails
    && Contains(env, resource)
    && (!enabled && CanAffect(global, resource, env) ==> DisableAllowed(store, places, project, global, resource))
  }

  datatype Checkpoint = Checkpoint(scope: Scope, resource: Resource, enabled: Option<bool>)

  class Preferences {
    var store: Store

    constructor (store: Store)
      ensures this.store == store
    {
      this.store := store;
    }

    method SetResourceEnabled(scope: Scope, resource: Resource, enabled: bool)
      modifies this
      ensures store == Set(old(store), scope, resource, enabled)
    {
      store := store[Key(scope, resource) := enabled];
    }

    method CheckpointResourceChange(scope: Scope, resource: Resource) returns (c: Checkpoint)
      ensures c == Checkpoint(scope, resource, Lookup(store, scope, resource))
    {
      c := Checkpoint(scope, resource, Lookup(store, scope, resource));
    }

    method RestoreResourceChange(c: Checkpoint)
      modifies this
      ensures store == Restored(old(store), c)
    {
      match c.enabled {
        case Some(enabled) => store := store[Key(c.scope, c.resource) := enabled];
        case None => store := store - {Key(c.scope, c.resource)};
      }
    }

    /** The projects in some order; the answer does not depend on it. */
    method OtherProjectsAllow(places: map<nat, Place>, project: nat, target: Resource) returns (ok: bool, affects: bool)
      ensures affects <==> exists p ::
          Other(places, project, p) && places[p].available && AffectsPlace(store, p, places[p], target)
      ensures ok <==> forall p :: Other(places, project, p) && places[p].available ==>
          !places[p].fails && Survives(store, p, places[p].setup, true, target)
    {
      hide Survives, AffectsPlace;
      ok, affects := true, false;
      var left := places.Keys - {project};
      while left != {}
        invariant left <= places.Keys - {project}
        invariant affects <==> exists p ::
            Other(places, project, p) && p !in left && places[p].available && AffectsPlace(store, p, places[p], target)
        invariant ok <==> forall p :: Other(places, project, p) && p !in left && places[p].available ==>
            !places[p].fails && Survives(store, p, places[p].setup, true, target)
        decreases left
      {
        var p :| p in left;
        assert Other(places, project, p);
        if places[p].available {
          if AffectsPlace(store, p, places[p], target) { affects := true; }
          if places[p].fails || !Survives(store, p, places[p].setup, true, target) { ok := false; }
        }
        left := left - {p};
      }
    }

    method ValidateResourceDisable(places: map<nat, Place>, project: nat, global: bool, target: Resource)
      returns (ok: bool)
      requires project in places
      ensures ok <==> DisableAllowed(store, places, project, global, target)
    {
      hide Survives, AffectsPlace;
      if !Survives(store, project, places[project].setup, global, target) { return false; }
      if !global { return true; }
      var unavailable := exists p :: p in places.Keys && Other(places, project, p) && !places[p].available;
      var others, affects := OtherProjectsAllow(places, project, target);
      if !others { return false; }
      ok := !(unavailable && (affects || AffectsPlace(store, project, places[project], target)));
    }

    method CommitResourceEnabled(places: map<nat, Place>, project: nat, global: bool, resource: Resource,
        enabled: bool)
      returns (commit: Option<Checkpoint>)
      requires project in places
      modifies this
      ensures commit.Some? <==> Allowed(old(store), places, project, global, resource, enabled)
      ensures commit.Some? ==> store == Set(old(store), ScopeOf(global, project), resource, enabled)
      ensures commit.Some? ==> Restored(store, commit.value) == old(store)
      ensures commit.None? ==> store == old(store)
    {
      hide Affects, DisableAllowed, Discover;
      if places[project].fails { return None; }
      var env := Discover(store, project, places[project].setup);
      if !Contains(env, resource) { return None; }
      if !enabled && CanAffect(global, resource, env) {
        var ok := ValidateResourceDisable(places, project, global, resource);
        if !ok { return None; }
      }
      var c := CheckpointResourceChange(ScopeOf(global, project), resource);
      SetResourceEnabled(ScopeOf(global, project), resource, enabled);
      RestoreUndoes(old(store), ScopeOf(global, project), resource, enabled);
      commit := Some(c);
    }

    method RollbackResourceChange(commit: Checkpoint)
      modifies this
      ensures store == Restored(old(store), commit)
    {
      RestoreResourceChange(commit);
    }
  }

  function Restored(store: Store, c: Checkpoint): Store {
    if c.enabled.Some? then store[Key(c.scope, c.resource) := c.enabled.value] else store - {Key(c.scope, c.resource)}
  }

  /** Rolling a change back gives the store from before it, a missing row included. */
  lemma RestoreUndoes(store: Store, scope: Scope, resource: Resource, enabled: bool)
    ensures var c := Checkpoint(scope, resource, Lookup(store, scope, resource));
            Restored(Set(store, scope, resource, enabled), c) == store
  {
  }

  // ----- what discovery lists before and after -----

  /** The extension whose routes a route is one of, or none. */
  function OwnerOf(registrant: Option<Found>): Option<Owner> {
    if registrant.Some? then Some(Owner(registrant.value.id, registrant.value.package)) else None
  }

  lemma {:induction false} Listed(store: Store, project: nat, setup: Setup, providers: seq<string>, r: Route)
    ensures r in RoutesFrom(store, project, setup, providers) <==>
              && r.provider in providers
              && var f := Registrant(store, project, setup.extensions, r.provider);
                 r.model in Offered(setup, f, r.provider) && r.owner == OwnerOf(f)
  {
    hide Registrant, Offered;
    if providers != [] {
      var p := providers[0];
      var f := Registrant(store, project, setup.extensions, p);
      Listed(store, project, setup, providers[1..], r);
      var models := Offered(setup, f, p);
      var first := RoutesOf(p, models, f);
      assert r in first <==> r.provider == p && r.model in models && r.owner == OwnerOf(f) by {
        if r.provider == p && r.model in models && r.owner == OwnerOf(f) {
          var i :| 0 <= i < |models| && models[i] == r.model;
          assert first[i] == r;
        }
      }
    }
  }

  /** What may be changed in a project: what is installed there, and the models that the last
      loaded extension registers for their provider, or that are offered without one. */
  lemma {:induction false} ContainsIff(store: Store, project: nat, setup: Setup, resource: Resource)
    ensures Contains(Discover(store, project, setup), resource) <==>
              match resource
              case Skill(id) => exists f :: f in setup.skills && f.id == id
              case Extension(id) => exists f :: f in setup.extensions && f.id == id
              case Package(id) => id in setup.packages
              case ModelRoute(provider, model) =>
                provider in setup.providers
                && match Registrant(store, project, setup.extensions, provider)
                   case Some(f) => model in f.registers[provider]
                   case None => provider in setup.builtin && model in setup.builtin[provider]
  {
    hide Registrant, RoutesFrom;
    match resource {
      case Skill(id) => IdsOf(setup.skills, id);
      case Extension(id) => IdsOf(setup.extensions, id);
      case Package(_) =>
      case ModelRoute(provider, model) =>
        var owner := OwnerOf(Registrant(store, project, setup.extensions, provider));
        var routes := RoutesFrom(store, project, setup, setup.providers);
        Listed(store, project, setup, setup.providers, Route(provider, model, owner));
        if i :| 0 <= i < |routes| && routes[i].provider == provider && routes[i].model == model {
          Listed(store, project, setup, setup.providers, routes[i]);
        }
    }
  }

  lemma {:induction false} IdsOf(found: seq<Found>, id: string)
    ensures (exists f :: f in found && f.id == id) <==> exists i :: 0 <= i < |found| && found[i].id == id
  {
    if f :| f in found && f.id == id {
      var i :| 0 <= i < |found| && found[i] == f;
      assert found[i].id == id;
    }
  }

  /** A skill is never refused for the sake of the routes: it can be switched either way
      wherever discovery succeeds and lists it. */
  lemma {:induction false} SkillAllowedIff(store: Store, places: map<nat, Place>, project: nat, global: bool,
      id: string, enabled: bool)
    requires project in places
    ensures Allowed(store, places, project, global, Skill(id), enabled) <==>
              !places[project].fails && exists f :: f in places[project].setup.skills && f.id == id
  {
    hide Discover, DisableAllowed, Contains;
    ContainsIff(store, project, places[project].setup, Skill(id));
  }

  lemma {:induction false} FoundOnce(found: seq<Found>, f: Found)
    requires f in found && forall i, j :: 0 <= i < j < |found| ==> found[i].id != found[j].id
    ensures FindExtension(found, f.id) == Some(f)
  {
    if found[0] != f {
      var i :| 0 <= i < |found| && found[i] == f;
      assert found[1..][i - 1] == f;
      FoundOnce(found[1..], f);
    }
  }

  /** A discovered route is enabled unless it is switched off itself: its owner is loaded. */
  lemma ListedEnabled(store: Store, project: nat, setup: Setup, r: Route)
    requires Sensible(setup) && r in Discover(store, project, setup).routes
    ensures RouteEnabled(store, project, r, Discover(store, project, setup))
            == Some(Effective(store, project, ModelRoute(r.provider, r.model), None, true))
    ensures r.owner.Some? ==>
              var found := FindExtension(setup.extensions, r.owner.value.extension);
              && found.Some? && r.owner.value.package == found.value.package
              && (r.owner.value.package.Some? ==> r.owner.value.package.value in setup.packages)
  {
    hide Effective, RoutesFrom, Offered;
    Listed(store, project, setup, setup.providers, r);
    var f := Registrant(store, project, setup.extensions, r.provider);
    if f.Some? { FoundOnce(setup.extensions, f.value); }
  }

  /** Discovery reports a consistent snapshot. */
  lemma DiscoverConsistent(store: Store, project: nat, setup: Setup)
    requires Sensible(setup)
    ensures Consistent(Discover(store, project, setup))
  {
    hide RoutesFrom, Sensible;
    var env := Discover(store, project, setup);
    forall r | r in env.routes && r.owner.Some?
      ensures var found := FindExtension(env.extensions, r.owner.value.extension);
              && found.Some? && r.owner.value.package == found.value.package
              && (r.owner.value.package.Some? ==> r.owner.value.package.value in env.packages)
    {
      ListedEnabled(store, project, setup, r);
    }
  }

  lemma DisablingEffective(store: Store, scope: Scope, resource: Resource, project: nat, asked: Resource,
      package: Option<string>, discovered: bool)
    ensures Effective(Set(store, scope, resource, false), project, asked, package, discovered)
        ==> Effective(store, project, asked, package, discovered)
  {
  }

  /** With less loaded, a provider whose registrant is still loaded keeps it. */
  lemma {:induction false} RegistrantKept(store: Store, after: Store, project: nat, extensions: seq<Found>,
      provider: string)
    requires forall f :: f in extensions && Loaded(after, project, f) ==> Loaded(store, project, f)
    requires var f := Registrant(store, project, extensions, provider); f.Some? ==> Loaded(after, project, f.value)
    ensures Registrant(after, project, extensions, provider) == Registrant(store, project, extensions, provider)
  {
    hide Loaded;
    if extensions != [] {
      var last := extensions[|extensions| - 1];
      assert last in extensions;
      if !(Loaded(store, project, last) && provider in last.registers) {
        RegistrantKept(store, after, project, extensions[..|extensions| - 1], provider);
      }
    }
  }

  /** A route that survives a disable on the snapshot from before it is discovered after it. */
  lemma SurvivorListed(store: Store, scope: Scope, target: Resource, project: nat, setup: Setup, r: Route)
    requires Sensible(setup) && r in Discover(store, project, setup).routes
    requires RouteEnabled(Set(store, scope, target, false), project, r, Discover(store, project, setup)) == Some(true)
    ensures r in Discover(Set(store, scope, target, false), project, setup).routes
    ensures HasRoute(Set(store, scope, target, false), project, setup)
  {
    hide Effective, RoutesFrom, Offered;
    var after := Set(store, scope, target, false);
    forall f | f in setup.extensions && Loaded(after, project, f)
      ensures Loaded(store, project, f)
    {
      DisablingEffective(store, scope, target, project, Extension(f.id), f.package, f.enabled);
    }
    Listed(store, project, setup, setup.providers, r);
    var f := Registrant(store, project, setup.extensions, r.provider);
    if f.Some? { FoundOnce(setup.extensions, f.value); }
    RegistrantKept(store, after, project, setup.extensions, r.provider);
    Listed(after, project, setup, setup.providers, r);
    assert RouteEnabled(after, project, r, Discover(after, project, setup)) == Some(true);
  }

  lemma {:induction false} RegistrantSame(store: Store, after: Store, project: nat, extensions: seq<Found>,
      provider: string)
    requires forall f :: f in extensions ==> Loaded(after, project, f) == Loaded(store, project, f)
    ensures Registrant(after, project, extensions, provider) == Registrant(store, project, extensions, provider)
  {
    hide Loaded;
    if extensions != [] {
      assert extensions[|extensions| - 1] in extensions;
      RegistrantSame(store, after, project, extensions[..|extensions| - 1], provider);
    }
  }

  lemma {:induction false} RoutesSame(store: Store, after: Store, project: nat, setup: Setup, providers: seq<string>)
    requires forall f :: f in setup.extensions ==> Loaded(after, project, f) == Loaded(store, project, f)
    ensures RoutesFrom(after, project, setup, providers) == RoutesFrom(store, project, setup, providers)
  {
    hide Loaded;
    if providers != [] {
      RegistrantSame(store, after, project, setup.extensions, providers[0]);
      RoutesSame(store, after, project, setup, providers[1..]);
    }
  }

  /** Another project discovers the same whatever a project overrides for itself. */
  lemma ElsewhereDiscovered(store: Store, changed: nat, resource: Resource, enabled: bool, project: nat, setup: Setup)
    requires changed != project
    ensures Discover(Set(store, Project(changed), resource, enabled), project, setup) == Discover(store, project, setup)
  {
    RoutesSame(store, Set(store, Project(changed), resource, enabled), project, setup, setup.providers);
  }

  // ----- enabling -----

  /** Whether a provider offers a model in the project that is not switched off. */
  predicate Offers(store: Store, project: nat, setup: Setup, provider: string, model: string) {
    && provider in setup.providers
    && model in Offered(setup, Registrant(store, project, setup.extensions, provider), provider)
    && Effective(store, project, ModelRoute(provider, model), None, true)
  }

  lemma HasRouteIff(store: Store, project: nat, setup: Setup)
    requires Sensible(setup)
    ensures HasRoute(store, project, setup) <==>
        exists provider, model :: Offers(store, project, setup, provider, model)
  {
    hide Effective, RoutesFrom, RouteEnabled, Sensible, Offered;
    var env := Discover(store, project, setup);
    if HasRoute(store, project, setup) {
      var r :| r in env.routes && RouteEnabled(store, project, r, env) == Some(true);
      ListedEnabled(store, project, setup, r);
      Listed(store, project, setup, setup.providers, r);
      assert Offers(store, project, setup, r.provider, r.model);
    }
    if provider, model :| Offers(store, project, setup, provider, model) {
      var r := Route(provider, model, OwnerOf(Registrant(store, project, setup.extensions, provider)));
      Listed(store, project, setup, setup.providers, r);
      ListedEnabled(store, project, setup, r);
      assert r in env.routes;
    }
  }

  /** Switching the resource on loads the extension, if it is not loaded yet: the row is the
      extension's own or its package's, and nothing more specific is said. */
  predicate Loads(store: Store, scope: Scope, resource: Resource, project: nat, f: Found) {
    && (scope == Project(project)
        || (scope == Global && Lookup(store, Project(project), Extension(f.id)).None?
            && LookupPackage(store, Project(project), f.package).None?))
    && (resource == Extension(f.id)
        || (f.package.Some? && resource == Package(f.package.value)
            && Lookup(store, scope, Extension(f.id)).None?))
  }

  lemma LoadedAfter(store: Store, scope: Scope, resource: Resource, project: nat, f: Found)
    ensures Loaded(Set(store, scope, resource, true), project, f)
            <==> Loaded(store, project, f) || Loads(store, scope, resource, project, f)
  {
  }

  /** The extension that takes the provider over when the resource is switched on: the last one
      that registers it, of those that are loaded or would be, if it is not loaded yet. */
  function Newcomer(store: Store, scope: Scope, resource: Resource, project: nat, extensions: seq<Found>,
      provider: string): (f: Option<Found>)
    ensures f.Some? ==>
              && f.value in extensions && provider in f.value.registers && !Loaded(store, project, f.value)
              && Loads(store, scope, resource, project, f.value)
  {
    if extensions == [] then None
    else
      var last := extensions[|extensions| - 1];
      if provider in last.registers && Loaded(store, project, last) then None
      else if provider in last.registers && Loads(store, scope, resource, project, last) then Some(last)
      else Newcomer(store, scope, resource, project, extensions[..|extensions| - 1], provider)
  }

  /** What decides a provider after the write, told on the store before it. */
  lemma {:induction false} RegistrantAfter(store: Store, scope: Scope, resource: Resource, project: nat,
      extensions: seq<Found>, provider: string)
    ensures var f := Newcomer(store, scope, resource, project, extensions, provider);
            Registrant(Set(store, scope, resource, true), project, extensions, provider)
            == if f.Some? then f else Registrant(store, project, extensions, provider)
  {
    hide Loaded, Loads;
    if extensions != [] {
      LoadedAfter(store, scope, resource, project, extensions[|extensions| - 1]);
      RegistrantAfter(store, scope, resource, project, extensions[..|extensions| - 1], provider);
    }
  }

  /** Enabling something turns off exactly the models of providers that a newcomer takes over
      without offering the model itself. */
  lemma EnablingLosesIff(store: Store, scope: Scope, resource: Resource, project: nat, setup: Setup, provider: string,
      model: string)
    requires Offers(store, project, setup, provider, model)
    ensures !Offers(Set(store, scope, resource, true), project, setup, provider, model) <==>
              Omitted(store, scope, resource, project, setup, provider, model)
  {
    hide Registrant, Newcomer, Effective, Loaded, Loads;
    EnablingEffective(store, scope, resource, project, ModelRoute(provider, model), None, true);
    RegistrantAfter(store, scope, resource, project, setup.extensions, provider);
  }

  predicate Omitted(store: Store, scope: Scope, resource: Resource, project: nat, setup: Setup, provider: string,
      model: string)
  {
    var f := Newcomer(store, scope, resource, project, setup.extensions, provider);
    f.Some? && model !in f.value.registers[provider]
  }

  /** A newcomer for a provider there is offers the model. */
  predicate Brought(store: Store, scope: Scope, resource: Resource, project: nat, setup: Setup, provider: string,
      model: string)
  {
    var f := Newcomer(store, scope, resource, project, setup.extensions, provider);
    provider in setup.providers && f.Some? && model in f.value.registers[provider]
  }

  /** Every model offered now belongs to a provider that a newcomer takes over without it, and
      every model a newcomer brings is switched off. */
  ghost predicate TakesAll(store: Store, scope: Scope, resource: Resource, project: nat, setup: Setup) {
    && (forall provider, model :: Offers(store, project, setup, provider, model) ==>
          Omitted(store, scope, resource, project, setup, provider, model))
    && (forall provider, model :: Brought(store, scope, resource, project, setup, provider, model) ==>
          !Effective(store, project, ModelRoute(provider, model), None, true))
  }

  /** Where there is a newcomer, the switch says nothing of models. */
  lemma NewcomerSwitch(store: Store, scope: Scope, resource: Resource, project: nat, setup: Setup, provider: string,
      asked: string, model: string)
    requires Newcomer(store, scope, resource, project, setup.extensions, provider).Some?
    ensures resource.Extension? || resource.Package?
    ensures Effective(Set(store, scope, resource, true), project, ModelRoute(asked, model), None, true)
            == Effective(store, project, ModelRoute(asked, model), None, true)
  {
    hide Newcomer, Loaded;
  }

  /** What is offered after the write was offered before or is brought. */
  lemma OfferedAfter(store: Store, scope: Scope, resource: Resource, project: nat, setup: Setup, provider: string,
      model: string)
    requires Effective(Set(store, scope, resource, true), project, ModelRoute(provider, model), None, true)
             == Effective(store, project, ModelRoute(provider, model), None, true)
    ensures Offers(Set(store, scope, resource, true), project, setup, provider, model) <==>
              || (Offers(store, project, setup, provider, model)
                  && Newcomer(store, scope, resource, project, setup.extensions, provider).None?)
              || (Brought(store, scope, resource, project, setup, provider, model)
                  && Effective(store, project, ModelRoute(provider, model), None, true))
  {
    hide Registrant, Newcomer, Effective, Loaded, Loads;
    RegistrantAfter(store, scope, resource, project, setup.extensions, provider);
  }

  /** A project that has a route loses its last one exactly then. */
  lemma EnablingLosesAllIff(store: Store, scope: Scope, resource: Resource, project: nat, setup: Setup)
    requires Sensible(setup) && HasRoute(store, project, setup)
    ensures !HasRoute(Set(store, scope, resource, true), project, setup)
            <==> TakesAll(store, scope, resource, project, setup)
  {
    hide HasRoute, Sensible, Registrant, Newcomer, Effective, Loaded, Loads;
    var after := Set(store, scope, resource, true);
    HasRouteIff(store, project, setup);
    HasRouteIff(after, project, setup);
    var provider0, model0 :| Offers(store, project, setup, provider0, model0);
    EnablingLosesIff(store, scope, resource, project, setup, provider0, model0);
    if TakesAll(store, scope, resource, project, setup) {
      forall provider, model
        ensures !Offers(after, project, setup, provider, model)
      {
        NewcomerSwitch(store, scope, resource, project, setup, provider0, provider, model);
        OfferedAfter(store, scope, resource, project, setup, provider, model);
      }
    } else if !HasRoute(after, project, setup) {
      forall provider, model | Offers(store, project, setup, provider, model)
        ensures Omitted(store, scope, resource, project, setup, provider, model)
      {
        EnablingLosesIff(store, scope, resource, project, setup, provider, model);
      }
      forall provider, model | Brought(store, scope, resource, project, setup, provider, model)
        ensures !Effective(store, project, ModelRoute(provider, model), None, true)
      {
        RegistrantAfter(store, scope, resource, project, setup.extensions, provider);
        NewcomerSwitch(store, scope, resource, project, setup, provider, provider, model);
        assert !Offers(after, project, setup, provider, model);
      }
      assert false;
    }
  }

  /** No change that is accepted is refused for what it enables: this one leaves the project
      without a route. */
  lemma EnablingLosesLast() returns (store: Store, setup: Setup)
    ensures Sensible(setup) && HasRoute(store, 0, setup)
    ensures Allowed(store, map[0 := Place(true, false, setup)], 0, true, Extension("e"), true)
    ensures !HasRoute(Set(store, Global, Extension("e"), true), 0, setup)
  {
    var e := Found("e", None, false, map["a" := []]);
    store, setup := map[], Setup(["a"], map["a" := ["m"]], [e], [], []);
    var after := Set(store, Global, Extension("e"), true);
    assert setup.extensions[..0] == [];
    assert Registrant(store, 0, setup.extensions, "a") == None;
    assert Registrant(after, 0, setup.extensions, "a") == Some(e);
    assert "m" in ["m"] && Offers(store, 0, setup, "a", "m");
    HasRouteIff(store, 0, setup);
    HasRouteIff(after, 0, setup);
    assert Discover(store, 0, setup).extensions[0].id == "e";
  }

  // ----- what is accepted -----

  /** A resource concerns a route exactly if switching it off can switch the route off: it does
      so where nothing else is said. */
  lemma ConcernedIff(global: bool, resource: Resource, project: nat, route: Route, env: Environment)
    requires Consistent(env) && route in env.routes && RouteEnabled(map[], project, route, env) == Some(true)
    ensures RouteConcerned(resource, route) <==>
              RouteEnabled(Set(map[], ScopeOf(global, project), resource, false), project, route, env) == Some(false)
  {
    if route.owner.Some? { FoundHasId(env.extensions, route.owner.value.extension); }
  }

  /** Some model of the project stays offered when the resource is switched off, if it concerns
      any. */
  ghost predicate LeavesRoute(store: Store, project: nat, setup: Setup, scope: Scope, resource: Resource) {
    var env := Discover(store, project, setup);
    (exists r :: r in env.routes && RouteConcerned(resource, r)) ==>
      exists r :: r in env.routes && RouteEnabled(Set(store, scope, resource, false), project, r, env) == Some(true)
  }

  ghost predicate ConcernsNone(store: Store, project: nat, setup: Setup, resource: Resource) {
    forall r :: r in Discover(store, project, setup).routes ==> !RouteConcerned(resource, r)
  }

  lemma SurvivesIff(store: Store, project: nat, setup: Setup, global: bool, changed: nat, resource: Resource)
    requires Sensible(setup) && (global || changed == project)
    ensures Survives(store, project, setup, global, resource) <==>
              LeavesRoute(store, project, setup, ScopeOf(global, changed), resource)
    ensures Affects(resource, Discover(store, project, setup)) <==> !ConcernsNone(store, project, setup, resource)
  {
    hide Discover, RouteEnabled, HasAfter, RouteConcerned, Consistent, Sensible;
    var env := Discover(store, project, setup);
    DiscoverConsistent(store, project, setup);
    HasAgrees(store, project, env.routes, env, global, resource);
    if r :| r in env.routes && RouteConcerned(resource, r) {
      var i :| 0 <= i < |env.routes| && env.routes[i] == r;
      assert RouteConcerned(resource, env.routes[i]);
    }
  }

  /** When a switch is accepted. Switching on takes no more than being there. Switching off for
      one project leaves that project a route. Switching off for all leaves one to each, asks
      that discovery succeeds in each, and while a project is out of reach it may concern none. */
  lemma AllowedIff(store: Store, places: map<nat, Place>, project: nat, global: bool, resource: Resource, enabled: bool)
    requires project in places && forall p :: p in places ==> Sensible(places[p].setup)
    ensures Allowed(store, places, project, global, resource, enabled) <==>
              && !places[project].fails && Contains(Discover(store, project, places[project].setup), resource)
              && (!enabled && !resource.Skill? ==>
                    && LeavesRoute(store, project, places[project].setup, ScopeOf(global, project), resource)
                    && (global ==>
                          && (forall p :: p in places && p != project && places[p].available ==>
                                !places[p].fails && LeavesRoute(store, p, places[p].setup, Global, resource))
                          && ((exists p :: p in places && p != project && !places[p].available) ==>
                                forall p :: p in places && (p == project || places[p].available) ==>
                                  ConcernsNone(store, p, places[p].setup, resource))))
  {
    hide Discover, Survives, Contains, Affects, LeavesRoute, ConcernsNone, Sensible;
    forall p | p in places && (global || p == project)
      ensures Survives(store, p, places[p].setup, global, resource) <==>
                LeavesRoute(store, p, places[p].setup, ScopeOf(global, project), resource)
      ensures AffectsPlace(store, p, places[p], resource) <==> !ConcernsNone(store, p, places[p].setup, resource)
    {
      SurvivesIff(store, p, places[p].setup, global, project, resource);
    }
    var env := Discover(store, project, places[project].setup);
    assert !Affects(resource, env) ==> Survives(store, project, places[project].setup, global, resource) by {
      UnconcernedSurvives(store, project, places[project].setup, global, resource);
    }
    assert forall p :: Other(places, project, p) <==> p in places && p != project;
  }

  lemma UnconcernedSurvives(store: Store, project: nat, setup: Setup, global: bool, resource: Resource)
    ensures !Affects(resource, Discover(store, project, setup)) ==> Survives(store, project, setup, global, resource)
  {
  }

  // ----- a route stays -----

  /** A project that has a model route keeps one, whatever is disabled, and exactly if what is
      enabled does not take them all. */
  lemma AllowedKeepsRoute(store: Store, places: map<nat, Place>, project: nat, global: bool, resource: Resource,
      enabled: bool, p: nat)
    requires project in places && places[project].available && p in places && places[p].available
    requires Sensible(places[p].setup) && HasRoute(store, p, places[p].setup)
    requires Allowed(store, places, project, global, resource, enabled)
    ensures !enabled ==> HasRoute(Set(store, ScopeOf(global, project), resource, false), p, places[p].setup)
    ensures enabled ==>
              (HasRoute(Set(store, ScopeOf(global, project), resource, true), p, places[p].setup)
               <==> !TakesAll(store, ScopeOf(global, project), resource, p, places[p].setup))
  {
    hide RouteEnabled, Affects, HasAfter, Consistent, Contains, Discover, Sensible, TakesAll;
    var setup := places[p].setup;
    var env := Discover(store, p, setup);
    DiscoverConsistent(store, p, setup);
    if enabled {
      EnablingLosesAllIff(store, ScopeOf(global, project), resource, p, setup);
    } else {
      var after := Set(store, ScopeOf(global, project), resource, false);
      var r :| r in env.routes && RouteEnabled(store, p, r, env) == Some(true);
      DiscoverExtensions(store, after, p, setup);
      if !global && p != project {
        ElsewhereSame(store, project, resource, false, p, r, env);
      } else if !Affects(resource, env) {
        UnaffectedSame(store, ScopeOf(global, project), resource, false, p, env);
      } else {
        assert CanAffect(global, resource, Discover(store, project, places[project].setup)) by {
          Concerned(resource, env, global, Discover(store, project, places[project].setup), p == project);
        }
        assert Survives(store, p, setup, global, resource) by { assert p != project ==> Other(places, project, p); }
        HasAgrees(store, p, env.routes, env, global, resource);
        r :| r in env.routes && RouteEnabled(after, p, r, env) == Some(true);
      }
      SurvivorListed(store, ScopeOf(global, project), resource, p, setup, r);
    }
  }

  lemma DiscoverExtensions(store: Store, after: Store, project: nat, setup: Setup)
    ensures Discover(store, project, setup).extensions == Discover(after, project, setup).extensions
    ensures Discover(store, project, setup).packages == Discover(after, project, setup).packages
  {
  }

  lemma Concerned(resource: Resource, env: Environment, global: bool, own: Environment, same: bool)
    requires Affects(resource, env) && (same ==> env == own) && (global || same)
    ensures CanAffect(global, resource, own)
  {
  }

  // ----- runs of changes -----

  datatype Change = Change(project: nat, global: bool, resource: Resource, enabled: bool, rolledBack: bool)

  ghost predicate AllAllowed(store: Store, places: map<nat, Place>, changes: seq<Change>)
    decreases |changes|
  {
    changes == [] ||
      (var c := changes[0];
       && c.project in places && places[c.project].available
       && Allowed(store, places, c.project, c.global, c.resource, c.enabled)
       && AllAllowed(AfterChange(store, c), places, changes[1..]))
  }

  function AfterChange(store: Store, c: Change): Store {
    if c.rolledBack then store else Set(store, ScopeOf(c.global, c.project), c.resource, c.enabled)
  }

  function AfterChanges(store: Store, changes: seq<Change>): Store
    decreases |changes|
  {
    if changes == [] then store else AfterChanges(AfterChange(store, changes[0]), changes[1..])
  }

  /** What a change enables does not take the project's routes away; told before the change. */
  ghost predicate LeavesOne(store: Store, c: Change, project: nat, setup: Setup) {
    c.enabled && !c.rolledBack ==> !TakesAll(store, ScopeOf(c.global, c.project), c.resource, project, setup)
  }

  ghost predicate AllLeaveOne(store: Store, changes: seq<Change>, project: nat, setup: Setup)
    decreases |changes|
  {
    changes == [] || (LeavesOne(store, changes[0], project, setup)
                      && AllLeaveOne(AfterChange(store, changes[0]), changes[1..], project, setup))
  }

  /** However many changes are accepted, an available project that had a model route has one
      after each of them, if and only if nothing they enable takes its last one away. */
  lemma {:induction false} AlwaysARoute(store: Store, places: map<nat, Place>, changes: seq<Change>, p: nat)
    requires AllAllowed(store, places, changes) && p in places && places[p].available
    requires Sensible(places[p].setup) && HasRoute(store, p, places[p].setup)
    ensures (forall n :: 0 <= n <= |changes| ==> HasRoute(AfterChanges(store, changes[..n]), p, places[p].setup))
            <==> AllLeaveOne(store, changes, p, places[p].setup)
    decreases |changes|
  {
    hide HasRoute, Sensible, Allowed, TakesAll;
    var setup := places[p].setup;
    if changes == [] {
      assert changes[..0] == [];
    } else {
      var c, rest := changes[0], changes[1..];
      var next := AfterChange(store, c);
      if !c.rolledBack {
        AllowedKeepsRoute(store, places, c.project, c.global, c.resource, c.enabled, p);
      }
      assert HasRoute(next, p, setup) <==> LeavesOne(store, c, p, setup);
      StepwiseRoutes(store, changes, p, setup);
      if HasRoute(next, p, setup) { AlwaysARoute(next, places, rest, p); }
    }
  }

  lemma StepwiseRoutes(store: Store, changes: seq<Change>, project: nat, setup: Setup)
    requires changes != [] && HasRoute(store, project, setup)
    ensures (forall n :: 0 <= n <= |changes| ==> HasRoute(AfterChanges(store, changes[..n]), project, setup))
            <==> forall n :: 0 <= n <= |changes| - 1 ==>
                   HasRoute(AfterChanges(AfterChange(store, changes[0]), changes[1..][..n]), project, setup)
    ensures (forall n :: 0 <= n <= |changes| - 1 ==>
               HasRoute(AfterChanges(AfterChange(store, changes[0]), changes[1..][..n]), project, setup))
            ==> HasRoute(AfterChange(store, changes[0]), project, setup)
  {
    hide HasRoute;
    var rest, next := changes[1..], AfterChange(store, changes[0]);
    forall n | 0 <= n <= |rest|
      ensures AfterChanges(store, changes[..n + 1]) == AfterChanges(next, rest[..n])
    {
      assert changes[..n + 1][1..] == rest[..n];
    }
    assert changes[..0] == [] && rest[..0] == [];
    assert AfterChanges(next, rest[..0]) == next;
    if forall n :: 0 <= n <= |rest| ==> HasRoute(AfterChanges(next, rest[..n]), project, setup) {
      forall n | 0 <= n <= |changes|
        ensures HasRoute(AfterChanges(store, changes[..n]), project, setup)
      {
        if n > 0 { assert AfterChanges(store, changes[..(n - 1) + 1]) == AfterChanges(next, rest[..n - 1]); }
      }
    }
    if forall n :: 0 <= n <= |changes| ==> HasRoute(AfterChanges(store, changes[..n]), project, setup) {
      forall n | 0 <= n <= |rest|
        ensures HasRoute(AfterChanges(next, rest[..n]), project, setup)
      {
        assert HasRoute(AfterChanges(store, changes[..n + 1]), project, setup);
      }
    }
  }

  /** A change that enables no extension and no package leaves what was offered. */
  lemma EnablingRouteLeavesOne(store: Store, c: Change, project: nat, setup: Setup)
    requires Sensible(setup) && HasRoute(store, project, setup)
    requires !c.resource.Extension? && !c.resource.Package?
    ensures LeavesOne(store, c, project, setup)
  {
    hide HasRoute, Sensible, Offers, Effective, Loaded;
    HasRouteIff(store, project, setup);
    var provider, model :| Offers(store, project, setup, provider, model);
  }
}
