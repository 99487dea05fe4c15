/**
 * Records of the service catalog and binding engine, the errors its handlers
 * report, and the pure pieces the handlers are built from: team membership,
 * the access check, removal from a name list, the merge and unmerge of an
 * app's environment, and the grouping of instances by service.
 */
module ServiceModel {

  // ---------------------------------------------------------------- records

  /** A catalog entry; its name is its key in the store. */
  datatype Service = Service(
    endpoint: map<string, string>,   // environment tag -> base URL of the remote API
    bootstrap: map<string, string>,  // free-form configuration for the remote API
    teams: seq<string>)              // teams that manage this entry

  /** A provisioned instance of a service; its name is its key in the store. */
  datatype ServiceInstance = ServiceInstance(
    serviceName: string,
    host: string,
    state: string,                   // "" until ready, then "running"
    env: map<string, string>,        // credentials fetched from the remote API
    teams: seq<string>,              // teams that may use this instance
    apps: seq<string>)               // apps bound to this instance

  /** One variable of an app's environment. */
  datatype EnvVar = EnvVar(name: string, value: string, public: bool, instanceName: string)

  datatype Unit = Unit(ip: string)

  /** The fields of an app the handlers read or write; its name is its key in the store. */
  datatype App = App(teams: seq<string>, units: seq<Unit>, env: map<string, EnvVar>)

  datatype Team = Team(name: string, users: set<string>)

  /** A service manifest, already parsed. */
  datatype Manifest = Manifest(id: string, endpoint: map<string, string>, bootstrap: map<string, string>)

  const Running := "running"

  /** The environment tag whose endpoint the handlers talk to. */
  const Production := "production"

  // ----------------------------------------------------------------- errors

  /** A handler failure; the first four carry HTTP status 404, 403, 412 and 409. */
  datatype Error =
    | NotFound(message: string)
    | Forbidden(message: string)
    | PreconditionFailed(message: string)
    | Conflict(message: string)
    | DuplicateKey(key: string)      // the document store refused an insert whose key is taken

  const ServiceNotFound := "Service not found"
  const NoServiceAccess := "This user does not have access to this service"
  const TeamNotFound := "Team not found"
  const NoTeamToCreate := "In order to create a service, you should be member of at least one team"
  const TeamAlreadyGranted := "This team already has access to this service"
  const TeamNotGranted := "This team does not have access to this service"
  const SoleTeam := "You can not revoke the access from this team, because it is the unique team with access to this service, and a service can not be orphaned"
  const InstanceNotFound := "Instance not found"
  const NoInstanceAccess := "This user does not have access to this instance"
  const InstanceNotReady := "This service instance is not ready yet."
  const AppNotFound := "App not found"
  const NoAppAccess := "This user does not have access to this app"
  const AppHasNoIp := "This app does not have an IP yet."
  const AlreadyBound := "This app is already binded to this service instance."
  const NotBound := "This app is not binded to this service instance."
  const NotAnAppMessage := "app must have type app.App"

  function ServiceExists(name: string): string { "Service with name " + name + " already exists." }

  function ServiceMissing(name: string): string { "Service " + name + " does not exists." }

  function NoAccessToService(name: string): string { "You don't have access to service " + name }

  // ----------------------------------------------------- teams and access

  /** The names of the teams `user` belongs to, in store order. */
  function TeamsOf(teams: seq<Team>, user: string): (r: seq<string>)
    ensures forall t :: t in r <==> exists team :: team in teams && team.name == t && user in team.users
  {
    if teams == [] then []
    else
      var rest := TeamsOf(teams[1..], user);
      assert forall team :: team in teams[1..] ==> team in teams;
      assert forall team :: team in teams ==> team == teams[0] || team in teams[1..];
      if user in teams[0].users then [teams[0].name] + rest else rest
  }

  /** The access check: some team of the user is among the resource's teams. */
  predicate HasAccess(mine: seq<string>, resource: seq<string>): (b: bool)
    ensures b <==> exists i :: 0 <= i < |mine| && mine[i] in resource
  {
    exists t :: t in mine && t in resource
  }

  /** A user has access to a resource exactly when one of the teams the user belongs to is among its teams. */
  lemma AccessThroughMembership(teams: seq<Team>, user: string, resource: seq<string>)
    ensures HasAccess(TeamsOf(teams, user), resource) <==>
      exists team :: team in teams && user in team.users && team.name in resource
  {
    var mine := TeamsOf(teams, user);
    if HasAccess(mine, resource) {
      var t :| t in mine && t in resource;
      var team :| team in teams && team.name == t && user in team.users;
    }
    if exists team :: team in teams && user in team.users && team.name in resource {
      var team :| team in teams && user in team.users && team.name in resource;
      assert team.name in mine;
    }
  }

  /** The user's teams, in order, that are also among the resource's teams. */
  function Shared(mine: seq<string>, resource: seq<string>): (r: seq<string>)
    ensures forall t :: t in r <==> t in mine && t in resource
    ensures |r| > 0 <==> HasAccess(mine, resource)
  {
    if mine == [] then []
    else
      var rest := Shared(mine[1..], resource);
      assert forall t :: t in mine[1..] ==> t in mine;
      assert forall t :: t in mine ==> t == mine[0] || t in mine[1..];
      if mine[0] in resource then [mine[0]] + rest else rest
  }

  // ------------------------------------------------------------ name lists

  predicate Distinct(s: seq<string>)
  {
    forall i, j :: 0 <= i < j < |s| ==> s[i] != s[j]
  }

  /** `s` without its first occurrence of `x` (the Go idiom of cutting one index out of a slice). */
  function RemoveFirst(s: seq<string>, x: string): (r: seq<string>)
    ensures multiset(r) == multiset(s) - multiset{x}
    ensures x !in s ==> r == s
  {
    if s == [] then []
    else if s[0] == x then
      assert s == [x] + s[1..];
      s[1..]
    else
      assert s == [s[0]] + s[1..];
      [s[0]] + RemoveFirst(s[1..], x)
  }

  /** The tail of a list without repeats has none either, and does not hold the head. */
  lemma DistinctTail(s: seq<string>)
    requires s != [] && Distinct(s)
    ensures s[0] !in s[1..] && Distinct(s[1..])
  {
    assert forall j :: 0 <= j < |s[1..]| ==> s[1..][j] == s[j + 1];
  }

  /** Putting a name not yet listed in front keeps a list free of repeats. */
  lemma DistinctCons(y: string, t: seq<string>)
    requires Distinct(t) && y !in t
    ensures Distinct([y] + t)
  {
    assert forall j :: 0 < j <= |t| ==> ([y] + t)[j] == t[j - 1];
  }

  /** In a list without repeats, removing `x` leaves no `x` and still no repeats. */
  lemma {:induction false} RemoveFirstDistinct(s: seq<string>, x: string)
    requires Distinct(s)
    ensures x !in RemoveFirst(s, x)
    ensures Distinct(RemoveFirst(s, x))
  {
    if s != [] {
      DistinctTail(s);
      if s[0] != x {
        RemoveFirstDistinct(s[1..], x);
        var tail := RemoveFirst(s[1..], x);
        assert s[0] !in tail by {
          assert multiset(tail)[s[0]] <= multiset(s[1..])[s[0]];
        }
        DistinctCons(s[0], tail);
      }
    }
  }

  /** Appending a name that is not yet listed and then removing it gives the list back. */
  lemma {:induction false} RemoveFirstAppended(s: seq<string>, x: string)
    requires x !in s
    ensures RemoveFirst(s + [x], x) == s
  {
    if s != [] {
      assert (s + [x])[1..] == s[1..] + [x];
      RemoveFirstAppended(s[1..], x);
    }
  }

  /** Appending a name that is not yet listed keeps a list free of repeats. */
  lemma AppendDistinct(s: seq<string>, x: string)
    requires Distinct(s) && x !in s
    ensures Distinct(s + [x])
  {
  }

  // ------------------------------------------------------ app environment

  /** The variables the binding engine writes for `creds`: private, tagged with `instance`. */
  function Private(creds: map<string, string>, instance: string): map<string, EnvVar>
  {
    map k | k in creds :: EnvVar(k, creds[k], false, instance)
  }

  /**
   * Sets `creds` on an app's environment as private variables of `instance`:
   * every variable it does not overwrite is kept as it was.
   */
  function MergeEnv(env: map<string, EnvVar>, creds: map<string, string>, instance: string): (r: map<string, EnvVar>)
    ensures r.Keys == env.Keys + creds.Keys
    ensures forall k :: k in env && k !in creds ==> r[k] == env[k]
    ensures forall k :: k in creds ==> r[k] == EnvVar(k, creds[k], false, instance)
  {
    env + Private(creds, instance)
  }

  /** Drops from an app's environment exactly the variables tagged with `instance`; the others stay as they were. */
  function UnmergeEnv(env: map<string, EnvVar>, instance: string): (r: map<string, EnvVar>)
    ensures forall k :: k in r <==> k in env && env[k].instanceName != instance
    ensures forall k :: k in r ==> r[k] == env[k]
  {
    map k | k in env && env[k].instanceName != instance :: env[k]
  }

  /**
   * Unbinding undoes binding: when no credential collides with a variable the
   * app already had, removing the instance's variables after merging them
   * leaves what removing them before the merge leaves.
   */
  lemma UnmergeAfterMerge(env: map<string, EnvVar>, creds: map<string, string>, instance: string)
    requires creds.Keys !! env.Keys
    ensures UnmergeEnv(MergeEnv(env, creds, instance), instance) == UnmergeEnv(env, instance)
  {
  }

  // --------------------------------------------------------------- listing

  /**
   * The services `mine` gives access to, each with the names of its instances:
   * the groups partition the instances of the listed services, and an
   * instance of a service that is not listed is in no group.
   */
  function Grouping(services: map<string, Service>, instances: map<string, ServiceInstance>, mine: seq<string>)
    : (r: map<string, set<string>>)
    ensures forall s :: s in r <==> s in services && HasAccess(mine, services[s].teams)
    ensures forall s, i :: s in r && i in r[s] ==> i in instances && instances[i].serviceName == s
    ensures forall i :: i in instances && instances[i].serviceName in r ==> i in r[instances[i].serviceName]
  {
    map s | s in services && HasAccess(mine, services[s].teams) ::
      set i | i in instances && instances[i].serviceName == s
  }

  /** A map keyed by exactly the accessible services, each with exactly its instances, is the grouping. */
  lemma GroupingUnique(services: map<string, Service>, instances: map<string, ServiceInstance>, mine: seq<string>,
                       r: map<string, set<string>>)
    requires forall s :: s in r <==> s in services && HasAccess(mine, services[s].teams)
    requires forall s :: s in r ==> r[s] == set i | i in instances && instances[i].serviceName == s
    ensures r == Grouping(services, instances, mine)
  {
    var g := Grouping(services, instances, mine);
    assert r.Keys == g.Keys;
  }

  /** A user who can access no service gets an empty listing. */
  lemma GroupingWithoutAccess(services: map<string, Service>, instances: map<string, ServiceInstance>, mine: seq<string>)
    requires forall s :: s in services ==> !HasAccess(mine, services[s].teams)
    ensures Grouping(services, instances, mine) == map[]
  {
  }

  /**
   * The listing holds exactly the accessible services, an accessible service
   * without instances among them with an empty group.
   */
  lemma GroupingShowsAccessibleOnly(services: map<string, Service>, instances: map<string, ServiceInstance>,
                                    mine: seq<string>, s: string)
    ensures s in Grouping(services, instances, mine) <==> s in services && HasAccess(mine, services[s].teams)
    ensures s in services && HasAccess(mine, services[s].teams) &&
            (forall i :: i in instances ==> instances[i].serviceName != s) ==>
              Grouping(services, instances, mine)[s] == {}
  {
  }
}
