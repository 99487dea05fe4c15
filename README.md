# Service broker, command dispatcher and image digest, modelled in Dafny

This project models three independent parts of a multi-tenant platform, as their tests pin them down:

- **The service catalog and binding engine** (`service_model.dfy`, `service_handler.dfy`). A store holds services, service instances, apps and teams. The handlers create and delete services, grant and revoke team access, create instances, fetch their credentials, bind and unbind apps, unbind a destroyed app everywhere, and list instances by service. Each handler runs an ordered chain of checks and reports the first failure as NotFound (404), Forbidden (403), PreconditionFailed (412) or Conflict (409), each with its exact message. On success it updates the store. `Store` is a class whose fields are the four collections. Each handler is a method whose `modifies` clause names only the fields it writes. Its postcondition states the error precedence and the complete new state. Two store invariants are preserved by every handler:
  - `NoOrphanedServices`: a service never loses its last team;
  - `AppsDistinct`: an instance never lists an app twice.
- **The command manager** (`cmd.dfy`). A manager holds commands by name and refuses a second registration of a name. `Run` sends an argument list to a command or to one of its subcommands and appends to stdout and stderr. The help command prints usage text.
- **Image digest extraction** (`image_digest.dfy`). `GetImageDigest` finds the line of a pull's output that starts with `Digest: ` and returns `@` followed by the rest of that line. If there is no such line it returns an error.

`wrappers.dfy` holds the `Option` type the modules share.

Remote calls are parameters. The service API's credential fetch is a function from (endpoint URL, instance name) to a map of strings. The remote bind is a function from (endpoint URL, instance name, unit IP) to a map of strings. A service "declares an endpoint" when its endpoint map has the key `production`. The store is in memory; users are identified by e-mail, and a user's teams are the teams of the team list that have the user as a member.

Where the tests pin down an order or a value, the model follows them:

- Revoke checks the user's access to the service *before* it looks up the team. In `api/service/handler_test.go:1011-1027` a revoke names a team that was never stored and still gets 403, not "Team not found".
- A new instance's teams are the user's teams that also manage the service (`api/service/handler_test.go:199-216`), not all the user's teams.

Choices on points the tests leave open:

- Grant is given Revoke's order: access to the service, then the team lookup. No grant test separates the two checks. The test at `api/service/handler_test.go:931-946` fails the access check with a team that exists. The test at 948-963 names a missing team for a user who has access.
- Revoke refuses to remove a service's only team (`len < 2`, 403) *before* it checks that the team is granted at all. The test at `api/service/handler_test.go:1063-1080` gets 404 under either order. It lists the owning team twice, which suggests this order without pinning it.
- ListServices lists every instance of an accessible service, whatever the instance's own teams are. Every listing test gives each instance the user's team (`api/service/handler_test.go:1093`, 1163, 1171), so no test separates this from filtering instances by team.
- Teams and app lists are ordered lists, as in the source. No test says which occurrence a removal takes out; the model removes the first.
- CreateService checks team membership before name uniqueness.
- CreateInstance under a taken name fails as a duplicate-key insert.
- The grant conflict and the revoke not-granted messages are "This team already has access to this service" and "This team does not have access to this service".
- A service missing at bind or unbind time counts as declaring no endpoint.
- Help for an unregistered name fails with the unknown-command message.
- A run of a command that has no `Run` of its own ends in a crash (`crashed`).
- Unbind does not check that the instance is running, whereas Bind refuses an instance that is not ready with 412. Every unbind test uses a running instance (`api/service/handler_test.go:620-843`).

## Model

| member | source | states |
|---|---|---|
| `ServiceModel.TeamsOf` | api/service/handler_test.go:98-110 | a name is in the result iff some stored team with that name has the user as a member |
| `ServiceModel.HasAccess` | api/service/handler_test.go:480-498 | access holds iff some team of the user is among the resource's teams; this check is behind every 403 for a missing access |
| `ServiceModel.AccessThroughMembership` | api/service/handler_test.go:480-498 | a user has access to a resource iff some stored team that has the user as a member is among the resource's teams |
| `ServiceModel.Shared` | api/service/handler_test.go:199-216 | the user's teams that are also the resource's teams, exactly; non-empty iff the user has access to the resource |
| `ServiceModel.RemoveFirst` | api/service/handler_test.go:620-648 | one occurrence of the name fewer (as multisets), and the list is unchanged when the name is absent |
| `ServiceModel.RemoveFirstDistinct` | api/service/handler_test.go:860-897 | in a list without repeats, removing a name leaves no occurrence of it and still no repeats |
| `ServiceModel.RemoveFirstAppended` | api/service/handler_test.go:981-996 | appending a name not yet listed and then removing it gives the original list (grant then revoke, bind then unbind) |
| `ServiceModel.AppendDistinct` | api/service/handler_test.go:589-618 | appending an app that is not yet bound keeps an instance's app list free of repeats |
| `ServiceModel.MergeEnv` | api/service/handler_test.go:355-461 | the keys are the app's and the credentials'; a merge keeps every app variable it does not overwrite and writes each credential as a private variable tagged with the instance |
| `ServiceModel.UnmergeEnv` | api/service/handler_test.go:650-698 | an unmerge removes exactly the variables tagged with the instance and leaves the others, such as MY_VAR, as they were |
| `ServiceModel.UnmergeAfterMerge` | api/service/handler_test.go:650-698 | without key collisions, removing an instance's variables after merging its credentials leaves what removing them before would |
| `ServiceModel.Grouping` | api/service/handler_test.go:1144-1197 | the keys are exactly the services the user can access; a group holds only stored instances of its own service, and every instance of a listed service is in its group, so an inaccessible service's instances appear nowhere |
| `ServiceModel.GroupingWithoutAccess` | api/service/handler_test.go:1113-1142 | a user with access to no service gets an empty listing |
| `ServiceModel.GroupingShowsAccessibleOnly` | api/service/handler_test.go:1144-1197 | a service is listed iff the user has access to it, and an accessible service without instances has an empty group |
| `ServiceHandler.EndpointOf` | api/service/handler_test.go:560-618 | an endpoint iff the service exists and declares a `production` endpoint, and then it is that URL |
| `ServiceHandler.UnbindUndoesBindEnv` | api/service/handler_test.go:355-461 | on the app's side unbinding undoes binding: with no collisions, the instance's and the remote bind's variables are all removed again |
| `ServiceHandler.Store.CreateService` | api/service/handler_test.go:44-123 | 403 for a user in no team, then the exact already-exists message for a taken name; otherwise the manifest's id, endpoint and bootstrap are stored verbatim with the user's teams, who then have access; no service is orphaned |
| `ServiceHandler.Store.DeleteService` | api/service/handler_test.go:288-329 | 404 "Service not found", then 403 without access; otherwise exactly that service is removed |
| `ServiceHandler.Store.GrantAccessToTeam` | api/service/handler_test.go:899-979 | 404 service, 403 access, 404 team, 409 already granted, in that order; otherwise the team is appended and nothing else changes |
| `ServiceHandler.Store.RevokeAccessFromTeam` | api/service/handler_test.go:981-1080 | 404 service, 403 access, 404 team, 403 sole team, 404 not granted, in that order; otherwise the team is removed once; a service never loses its last team |
| `ServiceHandler.Store.CreateInstance` | api/service/handler_test.go:199-246 | "Service mysql does not exists." then "You don't have access to service mysql"; otherwise a not-ready instance with empty env and apps, whose teams are exactly the user's teams that manage the service |
| `ServiceHandler.Store.CallServiceApi` | api/service/handler_test.go:248-286 | fetches iff the instance is running and its service declares an endpoint; the remote credentials are then merged into the instance's env, else nothing changes |
| `ServiceHandler.Store.Bind` | api/service/handler_test.go:331-618 | the seven checks in order (404, 403, 412, 404, 403, 412 no IP, 409); on success the app is appended to the instance and gets the instance's then the remote bind's credentials as private tagged variables; on failure nothing changes |
| `ServiceHandler.Store.Unbind` | api/service/handler_test.go:620-843 | 404, 403, 404, 403, then 412 when not bound; on success the app leaves the instance and only its variables tagged with the instance are removed; on failure nothing changes |
| `ServiceHandler.Store.UnbindServiceInstancesFromApp` | api/service/handler_test.go:845-897 | "app must have type app.App" for a non-app; for an app every instance loses it; when no instance listed the app twice beforehand (`AppsDistinct`), no instance lists it afterwards |
| `ServiceHandler.Store.ListServices` | api/service/handler_test.go:1082-1197 | the result is the grouping of instance names by service over exactly the services the user can access |
| `Cmd.Manager.constructor` | cmd/cmd_test.go:148-153 | a new manager holds the help command and has written nothing |
| `Cmd.Manager.Register` | cmd/cmd_test.go:64-68 | "command already registered: foo" for a taken name, otherwise the command is added under its name |
| `Cmd.Manager.Run` | cmd/cmd_test.go:70-136 | stdout and stderr grow by exactly what the run writes, and a recording command stores the arguments passed to it |
| `Cmd.Outcome` | cmd/cmd_test.go:70-136 | for every command: a crashing run writes and records nothing, and a command records only a suffix of the argument list, which never includes the command's own name |
| `Cmd.Resolve` | cmd/cmd_test.go:124-136 | no command iff the first name is unregistered; a registered command followed by one of its subcommands' names picks that subcommand with the arguments after both names; otherwise the command itself runs with the arguments after its name |
| `Cmd.HelpText` | cmd/cmd_test.go:138-160 | no text iff a name is given that is unregistered; without arguments the text is "Usage: glb command [args]\n" |
| `Cmd.RunWithoutArgsShowsUsage` | cmd/cmd_test.go:155-160 | an empty argument list prints the general usage line and nothing else |
| `Cmd.UnknownCommandReported` | cmd/cmd_test.go:82-85 | an unregistered name writes exactly "command bar does not exist\n" to stderr |
| `Cmd.CommandErrorOnStderr` | cmd/cmd_test.go:70-74 | a command's error message reaches stderr verbatim, and what it wrote before failing reaches stdout |
| `Cmd.RegisteredCommandRuns` | cmd/cmd_test.go:76-80 | a registered name runs that command with the arguments after it |
| `Cmd.SubcommandGetsRemainingArgs` | cmd/cmd_test.go:124-136 | naming a subcommand runs it with the arguments after its name, unchanged |
| `Cmd.HelpDescribesCommand` | cmd/cmd_test.go:162-188 | help for a command or subcommand prints "Usage: " + usage + "\n\n" + desc + "\n" |
| `Fix.Lines` | provision/docker/fix/image_test.go:16-20 | at least one line, and no line contains a newline |
| `Fix.JoinLines` | provision/docker/fix/image_test.go:16-20 | joining the lines of a text gives the text back |
| `Fix.LinesJoin` | provision/docker/fix/image_test.go:16-20 | splitting joined newline-free lines gives the lines back |
| `Fix.LinesAppend` | provision/docker/fix/image_test.go:16-20 | the lines of `a + "\n" + b` are the lines of `a` followed by those of `b` |
| `Fix.LinesOfLine` | provision/docker/fix/image_test.go:16-20 | text without a newline is one line |
| `Fix.FirstDigest` | provision/docker/fix/image_test.go:15-24 | a result iff some line carries the label, and label + result is one of the lines |
| `Fix.FirstDigestAfter` | provision/docker/fix/image_test.go:16-20 | the first digest line decides the result, whatever lines follow it |
| `Fix.GetImageDigest` | provision/docker/fix/image_test.go:15-34 | a digest iff some line starts with "Digest: "; the digest is "@" followed by the rest of such a line, and contains no newline; otherwise an error |
| `Fix.DigestAmidOutput` | provision/docker/fix/image_test.go:15-24 | "Digest: x" between digest-free lines and any later text gives exactly "@x" |

## Left out

- HTTP plumbing is not modelled: requests, recorders, query-parameter extraction and status codes on the wire. Error kinds and messages are kept.
- The document store is not modelled. It becomes in-memory maps, and a list of teams in store order.
- Manifest YAML and the remote API's JSON are taken as already-parsed maps.
- The remote calls are function parameters. Their failures (network, decoding) are not modelled, and neither is the propagation of a failed synchronous bind call.
- The background readiness poll is not modelled: its sleeps and its lack of a timeout are timing and concurrency. `CallServiceApi` models one round of it, which changes nothing until the instance runs.
- The fire-and-forget DELETE that unbind sends to the remote API for each unit is not modelled. Its failures never reach the caller.
- The VM-bootstrap test reads an instance field that is not part of this model (`api/service/handler_test.go:125-156`).
- Concurrency between handlers is not modelled: each handler runs atomically on the store.
- CreateService's "success" response body is not modelled.
- `ServiceHandler.Store.ListServices`: groups are sets of instance names. The source's JSON lists have an order, and the model does not state it.
- `Cmd.Manager.Register`: the source panics on a duplicate name (`cmd/cmd_test.go:64-68`). The model has no panics, so it returns that message as an error and leaves the commands unchanged.
- `Cmd.Outcome`: a command's own run is a fixed output, an optional error and an optional recorder of its arguments. Output or errors that depend on the arguments or on the HTTP client are not modelled.
- `Cmd.Manager.Run`: the HTTP client passed to commands is not modelled. The source re-creates a container's subcommand objects on each lookup; here subcommands are fixed values.
- `Fix.GetImageDigest`: the error's message is not stated, because the tests only check that an error is returned.
