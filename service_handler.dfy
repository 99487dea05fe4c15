/**
 * The service handlers over an in-memory store: catalog lifecycle, team
 * grants, instance creation and its credential fetch, bind, unbind, the
 * teardown helper and the listing. Each handler runs an ordered chain of
 * checks, returns the first failure, and otherwise updates the store.
 */
module ServiceHandler {
  import opened Wrappers
  import opened ServiceModel

  /** The argument of the teardown helper, which the source receives untyped. */
  datatype Argument = AnApp(name: string) | NotAnApp

  /** The remote API's answer to the credential fetch, for (endpoint URL, instance name). */
  type CredentialsApi = (string, string) -> map<string, string>

  /** The remote API's answer to a bind, for (endpoint URL, instance name, unit IP). */
  type BindApi = (string, string, string) -> map<string, string>

  /** The service `name`'s production endpoint, if the service exists and declares one. */
  function EndpointOf(services: map<string, Service>, name: string): (r: Option<string>)
    ensures r.Some? <==> name in services && Production in services[name].endpoint
    ensures r.Some? ==> r.value == services[name].endpoint[Production]
  {
    if name in services && Production in services[name].endpoint
    then Some(services[name].endpoint[Production])
    else None
  }

  /** An app's environment after a successful bind: the instance's credentials, then the remote bind's. */
  function BoundEnv(env: map<string, EnvVar>, instanceName: string, si: ServiceInstance,
                    endpoint: Option<string>, units: seq<Unit>, api: BindApi): map<string, EnvVar>
    requires endpoint.Some? ==> |units| > 0
  {
    var withInstance := MergeEnv(env, si.env, instanceName);
    if endpoint.Some?
    then MergeEnv(withInstance, api(endpoint.value, instanceName, units[0].ip), instanceName)
    else withInstance
  }

  /**
   * Unbinding undoes binding on the app's side: when neither the instance's
   * credentials nor the remote bind's collide with a variable the app had,
   * removing the instance's variables from the bound environment leaves what
   * the app had apart from that instance's variables.
   */
  lemma UnbindUndoesBindEnv(env: map<string, EnvVar>, instanceName: string, si: ServiceInstance,
                            endpoint: Option<string>, units: seq<Unit>, api: BindApi)
    requires endpoint.Some? ==> |units| > 0
    requires si.env.Keys !! env.Keys
    requires endpoint.Some? ==> api(endpoint.value, instanceName, units[0].ip).Keys !! env.Keys
    ensures UnmergeEnv(BoundEnv(env, instanceName, si, endpoint, units, api), instanceName) == UnmergeEnv(env, instanceName)
  {
  }

  class Store {
    var services: map<string, Service>
    var instances: map<string, ServiceInstance>
    var apps: map<string, App>
    var teams: seq<Team>

    constructor (services: map<string, Service>, instances: map<string, ServiceInstance>,
                 apps: map<string, App>, teams: seq<Team>)
      ensures this.services == services && this.instances == instances
      ensures this.apps == apps && this.teams == teams
    {
      this.services := services;
      this.instances := instances;
      this.apps := apps;
      this.teams := teams;
    }

    /** Every service keeps at least one team: the handlers never orphan one. */
    ghost predicate NoOrphanedServices()
      reads this
    {
      forall s :: s in services ==> |services[s].teams| > 0
    }

    /** No instance lists an app twice: binding twice is refused. */
    ghost predicate AppsDistinct()
      reads this
    {
      forall i :: i in instances ==> Distinct(instances[i].apps)
    }

    function UserTeams(user: string): seq<string>
      reads this
    {
      TeamsOf(teams, user)
    }

    predicate TeamExists(name: string)
      reads this
    {
      exists t :: t in teams && t.name == name
    }

    // ------------------------------------------------------ catalog lifecycle

    /** Registers the service a manifest describes, owned by every team of the user. */
    method CreateService(manifest: Manifest, user: string) returns (err: Option<Error>)
      modifies this`services
      ensures UserTeams(user) == [] ==>
        err == Some(Forbidden(NoTeamToCreate)) && services == old(services)
      ensures UserTeams(user) != [] && manifest.id in old(services) ==>
        err == Some(Conflict(ServiceExists(manifest.id))) && services == old(services)
      ensures UserTeams(user) != [] && manifest.id !in old(services) ==>
        err == None &&
        services == old(services)[manifest.id := Service(manifest.endpoint, manifest.bootstrap, UserTeams(user))]
      ensures err == None ==> HasAccess(UserTeams(user), services[manifest.id].teams)
      ensures old(NoOrphanedServices()) ==> NoOrphanedServices()
    {
      var mine := UserTeams(user);
      if mine == [] {
        return Some(Forbidden(NoTeamToCreate));
      }
      if manifest.id in services {
        return Some(Conflict(ServiceExists(manifest.id)));
      }
      services := services[manifest.id := Service(manifest.endpoint, manifest.bootstrap, mine)];
      assert mine[0] in mine;
      return None;
    }

    /** Removes a service the user has access to; its instances are left alone. */
    method DeleteService(name: string, user: string) returns (err: Option<Error>)
      modifies this`services
      ensures name !in old(services) ==>
        err == Some(NotFound(ServiceNotFound)) && services == old(services)
      ensures name in old(services) && !HasAccess(UserTeams(user), old(services)[name].teams) ==>
        err == Some(Forbidden(NoServiceAccess)) && services == old(services)
      ensures name in old(services) && HasAccess(UserTeams(user), old(services)[name].teams) ==>
        err == None && services == old(services) - {name}
      ensures err == None ==> name !in services
      ensures old(NoOrphanedServices()) ==> NoOrphanedServices()
    {
      if name !in services {
        return Some(NotFound(ServiceNotFound));
      }
      if !HasAccess(UserTeams(user), services[name].teams) {
        return Some(Forbidden(NoServiceAccess));
      }
      services := services - {name};
      return None;
    }

    /** Adds `team` to the teams of a service the user has access to. */
    method GrantAccessToTeam(serviceName: string, team: string, user: string) returns (err: Option<Error>)
      modifies this`services
      ensures serviceName !in old(services) ==>
        err == Some(NotFound(ServiceNotFound)) && services == old(services)
      ensures serviceName in old(services) ==>
        var s := old(services)[serviceName];
        if !HasAccess(UserTeams(user), s.teams) then
          err == Some(Forbidden(NoServiceAccess)) && services == old(services)
        else if !TeamExists(team) then
          err == Some(NotFound(TeamNotFound)) && services == old(services)
        else if team in s.teams then
          err == Some(Conflict(TeamAlreadyGranted)) && services == old(services)
        else
          err == None && services == old(services)[serviceName := s.(teams := s.teams + [team])]
      ensures old(NoOrphanedServices()) ==> NoOrphanedServices()
    {
      if serviceName !in services {
        return Some(NotFound(ServiceNotFound));
      }
      var s := services[serviceName];
      if !HasAccess(UserTeams(user), s.teams) {
        return Some(Forbidden(NoServiceAccess));
      }
      if !TeamExists(team) {
        return Some(NotFound(TeamNotFound));
      }
      if team in s.teams {
        return Some(Conflict(TeamAlreadyGranted));
      }
      services := services[serviceName := s.(teams := s.teams + [team])];
      return None;
    }

    /** Removes `team` from the teams of a service, unless it would leave the service without a team. */
    method RevokeAccessFromTeam(serviceName: string, team: string, user: string) returns (err: Option<Error>)
      modifies this`services
      ensures serviceName !in old(services) ==>
        err == Some(NotFound(ServiceNotFound)) && services == old(services)
      ensures serviceName in old(services) ==>
        var s := old(services)[serviceName];
        if !HasAccess(UserTeams(user), s.teams) then
          err == Some(Forbidden(NoServiceAccess)) && services == old(services)
        else if !TeamExists(team) then
          err == Some(NotFound(TeamNotFound)) && services == old(services)
        else if |s.teams| < 2 then
          err == Some(Forbidden(SoleTeam)) && services == old(services)
        else if team !in s.teams then
          err == Some(NotFound(TeamNotGranted)) && services == old(services)
        else
          err == None && services == old(services)[serviceName := s.(teams := RemoveFirst(s.teams, team))]
      ensures serviceName in services ==> |services[serviceName].teams| > 0 || services == old(services)
      ensures old(NoOrphanedServices()) ==> NoOrphanedServices()
    {
      if serviceName !in services {
        return Some(NotFound(ServiceNotFound));
      }
      var s := services[serviceName];
      if !HasAccess(UserTeams(user), s.teams) {
        return Some(Forbidden(NoServiceAccess));
      }
      if !TeamExists(team) {
        return Some(NotFound(TeamNotFound));
      }
      if |s.teams| < 2 {
        return Some(Forbidden(SoleTeam));
      }
      if team !in s.teams {
        return Some(NotFound(TeamNotGranted));
      }
      services := services[serviceName := s.(teams := RemoveFirst(s.teams, team))];
      return None;
    }

    // ------------------------------------------------------------ provisioning

    /**
     * Records a new, not yet ready instance of a service the user has access
     * to, usable by the user's teams that also manage the service.
     */
    method CreateInstance(name: string, serviceName: string, user: string) returns (err: Option<Error>)
      modifies this`instances
      ensures serviceName !in services ==>
        err == Some(NotFound(ServiceMissing(serviceName))) && instances == old(instances)
      ensures serviceName in services && !HasAccess(UserTeams(user), services[serviceName].teams) ==>
        err == Some(Forbidden(NoAccessToService(serviceName))) && instances == old(instances)
      ensures serviceName in services && HasAccess(UserTeams(user), services[serviceName].teams) ==>
        if name in old(instances) then
          err == Some(DuplicateKey(name)) && instances == old(instances)
        else
          err == None && instances == old(instances)[name :=
            ServiceInstance(serviceName, "", "", map[], Shared(UserTeams(user), services[serviceName].teams), [])]
      ensures err == None ==>
        HasAccess(UserTeams(user), instances[name].teams) &&
        forall t :: t in instances[name].teams <==> t in UserTeams(user) && t in services[serviceName].teams
      ensures old(AppsDistinct()) ==> AppsDistinct()
    {
      if serviceName !in services {
        return Some(NotFound(ServiceMissing(serviceName)));
      }
      var mine := UserTeams(user);
      if !HasAccess(mine, services[serviceName].teams) {
        return Some(Forbidden(NoAccessToService(serviceName)));
      }
      if name in instances {
        return Some(DuplicateKey(name));
      }
      var shared := Shared(mine, services[serviceName].teams);
      instances := instances[name := ServiceInstance(serviceName, "", "", map[], shared, [])];
      assert shared[0] in shared;
      return None;
    }

    /**
     * One round of the background credential fetch: once the instance runs and
     * its service declares an endpoint, the remote API's credentials are merged
     * into the instance's env. Until the instance runs nothing changes (the
     * source sleeps and polls again).
     */
    method CallServiceApi(serviceName: string, instanceName: string, api: CredentialsApi)
      returns (fetched: bool)
      modifies this`instances
      ensures fetched <==>
        instanceName in old(instances) && old(instances)[instanceName].state == Running &&
        EndpointOf(services, serviceName).Some?
      ensures fetched ==>
        var si := old(instances)[instanceName];
        instances == old(instances)[instanceName :=
          si.(env := si.env + api(EndpointOf(services, serviceName).value, instanceName))]
      ensures !fetched ==> instances == old(instances)
      ensures old(AppsDistinct()) ==> AppsDistinct()
    {
      fetched := false;
      if instanceName !in instances || instances[instanceName].state != Running {
        return;
      }
      var endpoint := EndpointOf(services, serviceName);
      if endpoint.None? {
        return;
      }
      var si := instances[instanceName];
      instances := instances[instanceName := si.(env := si.env + api(endpoint.value, instanceName))];
      fetched := true;
    }

    // ----------------------------------------------------------------- binding

    /**
     * Binds an app to a running instance: lists the app on the instance and
     * gives the app the instance's credentials, then those of the remote bind,
     * as private variables tagged with the instance.
     */
    method Bind(instanceName: string, appName: string, user: string, api: BindApi) returns (err: Option<Error>)
      modifies this`instances, this`apps
      ensures instanceName !in old(instances) ==> err == Some(NotFound(InstanceNotFound))
      ensures instanceName in old(instances) ==>
        var si := old(instances)[instanceName];
        var endpoint := EndpointOf(services, si.serviceName);
        if !HasAccess(UserTeams(user), si.teams) then err == Some(Forbidden(NoInstanceAccess))
        else if si.state != Running then err == Some(PreconditionFailed(InstanceNotReady))
        else if appName !in old(apps) then err == Some(NotFound(AppNotFound))
        else if !HasAccess(UserTeams(user), old(apps)[appName].teams) then err == Some(Forbidden(NoAppAccess))
        else if endpoint.Some? && |old(apps)[appName].units| == 0 then err == Some(PreconditionFailed(AppHasNoIp))
        else if appName in si.apps then err == Some(Conflict(AlreadyBound))
        else
          var a := old(apps)[appName];
          err == None &&
          instances == old(instances)[instanceName := si.(apps := si.apps + [appName])] &&
          apps == old(apps)[appName := a.(env := BoundEnv(a.env, instanceName, si, endpoint, a.units, api))]
      ensures err != None ==> instances == old(instances) && apps == old(apps)
      ensures old(AppsDistinct()) ==> AppsDistinct()
    {
      if instanceName !in instances {
        return Some(NotFound(InstanceNotFound));
      }
      var si := instances[instanceName];
      var mine := UserTeams(user);
      if !HasAccess(mine, si.teams) {
        return Some(Forbidden(NoInstanceAccess));
      }
      if si.state != Running {
        return Some(PreconditionFailed(InstanceNotReady));
      }
      if appName !in apps {
        return Some(NotFound(AppNotFound));
      }
      var a := apps[appName];
      if !HasAccess(mine, a.teams) {
        return Some(Forbidden(NoAppAccess));
      }
      var endpoint := EndpointOf(services, si.serviceName);
      if endpoint.Some? && |a.units| == 0 {
        return Some(PreconditionFailed(AppHasNoIp));
      }
      if appName in si.apps {
        return Some(Conflict(AlreadyBound));
      }
      ghost var before := instances;
      instances := instances[instanceName := si.(apps := si.apps + [appName])];
      apps := apps[appName := a.(env := BoundEnv(a.env, instanceName, si, endpoint, a.units, api))];
      if old(AppsDistinct()) {
        assert Distinct(before[instanceName].apps);
        AppendDistinct(si.apps, appName);
      }
      return None;
    }

    /**
     * Unbinds an app from an instance: takes the app off the instance's list
     * and removes from the app every variable tagged with the instance.
     */
    method Unbind(instanceName: string, appName: string, user: string) returns (err: Option<Error>)
      modifies this`instances, this`apps
      ensures instanceName !in old(instances) ==> err == Some(NotFound(InstanceNotFound))
      ensures instanceName in old(instances) ==>
        var si := old(instances)[instanceName];
        if !HasAccess(UserTeams(user), si.teams) then err == Some(Forbidden(NoInstanceAccess))
        else if appName !in old(apps) then err == Some(NotFound(AppNotFound))
        else if !HasAccess(UserTeams(user), old(apps)[appName].teams) then err == Some(Forbidden(NoAppAccess))
        else if appName !in si.apps then err == Some(PreconditionFailed(NotBound))
        else
          var a := old(apps)[appName];
          err == None &&
          instances == old(instances)[instanceName := si.(apps := RemoveFirst(si.apps, appName))] &&
          apps == old(apps)[appName := a.(env := UnmergeEnv(a.env, instanceName))]
      ensures err != None ==> instances == old(instances) && apps == old(apps)
      ensures err == None && old(AppsDistinct()) ==> appName !in instances[instanceName].apps
      ensures old(AppsDistinct()) ==> AppsDistinct()
    {
      if instanceName !in instances {
        return Some(NotFound(InstanceNotFound));
      }
      var si := instances[instanceName];
      var mine := UserTeams(user);
      if !HasAccess(mine, si.teams) {
        return Some(Forbidden(NoInstanceAccess));
      }
      if appName !in apps {
        return Some(NotFound(AppNotFound));
      }
      var a := apps[appName];
      if !HasAccess(mine, a.teams) {
        return Some(Forbidden(NoAppAccess));
      }
      if appName !in si.apps {
        return Some(PreconditionFailed(NotBound));
      }
      ghost var before := instances;
      instances := instances[instanceName := si.(apps := RemoveFirst(si.apps, appName))];
      apps := apps[appName := a.(env := UnmergeEnv(a.env, instanceName))];
      if old(AppsDistinct()) {
        assert Distinct(before[instanceName].apps);
        RemoveFirstDistinct(si.apps, appName);
      }
      return None;
    }

    /**
     * Called when an app is destroyed: takes the app off every instance that
     * lists it. Anything but an app is refused.
     */
    method UnbindServiceInstancesFromApp(arg: Argument) returns (err: Option<string>)
      modifies this`instances
      ensures arg.NotAnApp? ==> err == Some(NotAnAppMessage) && instances == old(instances)
      ensures arg.AnApp? ==>
        err == None && instances.Keys == old(instances).Keys &&
        forall i :: i in instances ==>
          instances[i] == old(instances)[i].(apps := RemoveFirst(old(instances)[i].apps, arg.name))
      ensures arg.AnApp? && old(AppsDistinct()) ==> forall i :: i in instances ==> arg.name !in instances[i].apps
      ensures old(AppsDistinct()) ==> AppsDistinct()
    {
      if arg.NotAnApp? {
        return Some(NotAnAppMessage);
      }
      var name := arg.name;
      var pending := set i | i in instances && name in instances[i].apps;
      while pending != {}
        invariant pending <= instances.Keys
        invariant instances.Keys == old(instances).Keys
        invariant forall i :: i in pending ==> instances[i] == old(instances)[i] && name in instances[i].apps
        invariant forall i :: i in instances && i !in pending ==>
          instances[i] == old(instances)[i].(apps := RemoveFirst(old(instances)[i].apps, name))
        decreases pending
      {
        var i :| i in pending;
        var si := instances[i];
        instances := instances[i := si.(apps := RemoveFirst(si.apps, name))];
        pending := pending - {i};
      }
      if old(AppsDistinct()) {
        forall i | i in instances
          ensures name !in instances[i].apps && Distinct(instances[i].apps)
        {
          assert Distinct(old(instances)[i].apps);
          RemoveFirstDistinct(old(instances)[i].apps, name);
        }
      }
      return None;
    }

    // ----------------------------------------------------------------- listing

    /** The instances the user can see, grouped by service: every accessible service, none other. */
    method ListServices(user: string) returns (r: map<string, set<string>>)
      ensures r == Grouping(services, instances, UserTeams(user))
    {
      var mine := UserTeams(user);
      ghost var accessible := set s | s in services && HasAccess(mine, services[s].teams);
      r := map[];
      var todo := services.Keys;
      while todo != {}
        invariant todo <= services.Keys
        invariant r.Keys == accessible - todo
        invariant forall s :: s in r ==> r[s] == {}
        decreases todo
      {
        var s :| s in todo;
        if HasAccess(mine, services[s].teams) {
          r := r[s := {}];
        }
        todo := todo - {s};
      }
      var rest := instances.Keys;
      while rest != {}
        invariant rest <= instances.Keys
        invariant r.Keys == accessible
        invariant forall s :: s in r ==>
          r[s] == set i | i in instances && i !in rest && instances[i].serviceName == s
        decreases rest
      {
        var i :| i in rest;
        var owner := instances[i].serviceName;
        if owner in r {
          r := r[owner := r[owner] + {i}];
        }
        rest := rest - {i};
      }
      forall s | s in r
        ensures r[s] == set i | i in instances && instances[i].serviceName == s
      {
        assert r[s] == set i | i in instances && i !in rest && instances[i].serviceName == s;
      }
      GroupingUnique(services, instances, mine, r);
    }
  }
}
