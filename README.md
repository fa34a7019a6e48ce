# MachineRegistration reconciliation handler, modelled in Dafny

This project models the reconciliation handler of the elemental-operator
`machine-registration` controller. For every MachineRegistration the handler
issues a stable random token. It derives a registration URL from the Rancher
`server-url` setting and that token. It then provisions the Kubernetes objects
an unregistered machine needs to authenticate:

- a Role;
- a ServiceAccount linked to a bearer-token Secret;
- the Secret itself;
- a RoleBinding from the ServiceAccount to the Role.

When the registration is removed, the handler tears the RoleBinding, Role and
ServiceAccount down again.

Files:

- `wrappers.dfy` (`Wrappers`): `Option` and `Result`.
- `kube.dfy` (`Kube`): the object records (Role, ServiceAccount, Secret,
  RoleBinding, with their metadata, references, rules, subjects and role
  references) and the CRUD client they are stored in.
  - `Cluster` is the store as a value: a map from (kind, namespace, name) to
    an object, plus a map of injected faults. A fault makes one operation on
    one identity fail with an opaque error.
  - `Create` fails with `AlreadyExists` on an existing identity.
  - `Get`, `Update` and `Delete` fail with `NotFound` on a missing identity.
  - `Client` is the same store as a class. Its operations update the object
    map in place.
- `settings.dfy` (`Settings`): the Rancher settings cache. A lookup returns a
  setting, `NotFound`, or the cache's own error.
- `registration.dfy` (`Registration`): the handler, in two forms.
  - `GetRancherServerURL`, the naming convention and the desired objects are
    pure functions.
  - `Reconcile` is the specification of `OnChange`. It is split into the
    provisioning steps `Provision`, `ProvisionServiceAccount`,
    `ProvisionSecret` and `ProvisionRoleBinding`, plus `EnsureServiceAccount`.
    `Teardown` is the specification of `OnRemove`.
  - `Handler.OnChange` and `Handler.OnRemove` are the handler itself, written
    as the source writes them: client calls one after another, reassignment
    of the local status, and early returns. Each is proved equal to its
    specification function.
- `properties.dfy` (`RegistrationProperties`): lemmas that relate several
  runs or single out one path:
  - the 1:1 naming convention;
  - the exact URL;
  - abort at the first failing step;
  - the ServiceAccount repair;
  - idempotence of `OnChange`, also over `n` runs;
  - token stability over any sequence of runs;
  - idempotence of `OnRemove`;
  - two worked examples.

Inputs that the source reads from outside become parameters:

- The token generator (`randomtoken.Generate`) is a `generated:
  Result<Token, string>` argument. It is the value the generator would
  return if called. `Token` is the non-empty string type.
- The settings cache is a `SettingCache` value. A `Handler` holds one fixed
  value, so one handler sees the same settings on every run. The source reads
  a live cache. `Reconcile` takes any cache, so the lemmas about several runs
  let the settings change between runs.
- The cluster is the `Client` object, or a `Cluster` value in the
  specification.

Behaviour of the source worth noting:

- An absent `server-url` setting is returned as the cache's own `NotFound`
  error.
- An update failure during the ServiceAccount repair is reported under the
  ServiceAccount's name.
- The informational log line about a new token is written only after a
  successful run. The event recorder fires only when token generation fails.
  Both are left out, see below.

## Model

| member | source | states |
|---|---|---|
| `Registration.GetRancherServerURL` | pkg/controllers/registration/registration.go:210-221 | Succeeds exactly when the cache lookup of `server-url` succeeds and its value is non-empty, and then returns that value. A cache error is returned as it is. An empty value gives "server-url is not set". |
| `Registration.EnsureServiceAccount` | pkg/controllers/registration/registration.go:100-137 | The ServiceAccount step succeeds exactly when its create does not fail with a non-AlreadyExists error and the repair update does not fail. It creates the account pre-linked to `<name>-token`. An existing, readable account with no link gains exactly that link. A failing create is returned as an API failure, and a failing repair update as `UpdateServiceAccountFailed` with the registration name. It adds at most that identity and changes no other object. |
| `Registration.Provision` | pkg/controllers/registration/registration.go:77-98 | The Role step, then the remaining steps. The run succeeds exactly when none of the four creates has an injected failure and the ServiceAccount repair does not fail. Success sets the ServiceAccount reference and the Ready condition, and all four identities exist afterwards. Objects are only added, only the registration's own, and only as desired. Existing objects other than the ServiceAccount are untouched. |
| `Registration.ProvisionServiceAccount` | pkg/controllers/registration/registration.go:100-137 | The same guarantees from the ServiceAccount step on. The ServiceAccount either stays as it was, or gains exactly the `<name>-token` link when it had none. |
| `Registration.ProvisionSecret` | pkg/controllers/registration/registration.go:138-153 | The Secret step, then the RoleBinding step. The Secret step fails exactly when its create has an injected failure, and then returns `AddSecretFailed` with the registration name and that error. Existing objects are never changed. |
| `Registration.ProvisionRoleBinding` | pkg/controllers/registration/registration.go:155-190 | The RoleBinding step. Success marks the status ready with the ServiceAccount reference. A failing create returns that error as an API failure, and the status is left unmarked. |
| `Registration.RegistrationURL` | pkg/controllers/registration/registration.go:75 | The URL starts with the server URL and ends with the token, and is exactly as long as server URL, registration path and token together. `RegistrationProperties.RegistrationURLParts` pins the middle part. |
| `Registration.SecretName` | pkg/controllers/registration/registration.go:100 | The Secret's name is the registration name followed by `-token`. |
| `Registration.RoleFor` | pkg/controllers/registration/registration.go:77-95 | The Role is stored under the registration's name and namespace, carries the managed label and has the registration rules. |
| `Registration.ServiceAccountFor` | pkg/controllers/registration/registration.go:101-114 | The ServiceAccount is stored under the registration's name and namespace, carries the managed label and links exactly to the `<name>-token` Secret. |
| `Registration.SecretFor` | pkg/controllers/registration/registration.go:138-150 | The Secret is `<name>-token` in the registration's namespace, is a service-account-token Secret, carries the managed label, and its only annotation names the ServiceAccount. |
| `Registration.RoleBindingFor` | pkg/controllers/registration/registration.go:155-173 | The RoleBinding is stored under the registration's name and namespace, carries the managed label, and binds the registration's ServiceAccount to the registration's Role. |
| `Registration.ServiceAccountRefFor` | pkg/controllers/registration/registration.go:178-182 | The status reference is of kind `ServiceAccount` and names the identity the ServiceAccount is stored under. |
| `Registration.SetReady` | pkg/controllers/registration/registration.go:188 | The Ready condition becomes true with the ready reason and no message. Every other condition and every other status field stays as it was. |
| `Kube.Client.constructor` | pkg/controllers/registration/registration.go:49 | Sets up the in-memory stand-in for the client the handler is given: it holds exactly the given well-formed store. |
| `Registration.Reconcile` | pkg/controllers/registration/registration.go:57-191 | Succeeds exactly when the server URL resolves, a token is at hand (kept or generated), and no provisioning step fails. Without a server URL, or when token generation fails on an empty token: the input status, the error, and an unchanged store. A non-empty token is kept. Token and URL `serverURL + "/elemental/registration/" + token` are set even on an error return. Success sets `ServiceAccountRef {ServiceAccount, ns, name}` and the Ready condition, and all four objects exist. On an error the reference and the conditions are unchanged. Only the registration's own identities are ever added. |
| `Registration.Teardown` | pkg/controllers/registration/registration.go:193-208 | Deletes RoleBinding, then Role, then ServiceAccount, and treats NotFound as success. It succeeds exactly when none of the three deletes has an injected failure. The first failing delete stops the later ones, and its error is the one returned. No other object is touched, the Secret included. |
| `Registration.Handler.OnChange` | pkg/controllers/registration/registration.go:57-191 | The imperative handler: its returned status, its error and the new store equal `Reconcile` of the old store. |
| `Registration.Handler.OnRemove` | pkg/controllers/registration/registration.go:193-208 | The imperative teardown: its error and the new store equal `Teardown` of the old store. |
| `Registration.Handler.constructor` | pkg/controllers/registration/registration.go:47-52 | A handler holds the client and the settings cache it is given. |
| `Settings.SettingCache.Get` | pkg/controllers/registration/registration.go:211 | A setting lookup succeeds exactly when the cache has no error and holds the name, and returns the stored setting. |
| `Kube.Cluster.Create` | pkg/controllers/registration/registration.go:77-98 | Create succeeds exactly when the identity is absent and not faulted, and then adds exactly that object. AlreadyExists is returned exactly for an existing, unfaulted identity. Existing objects never change. |
| `Kube.Cluster.Get` | pkg/controllers/registration/registration.go:120 | Get returns the stored object exactly when the identity is present and not faulted, and NotFound exactly when it is absent and not faulted. A faulted identity returns the injected error. |
| `Kube.Cluster.Update` | pkg/controllers/registration/registration.go:130 | Update replaces exactly one existing object and no other, or fails and changes nothing. |
| `Kube.Cluster.Delete` | pkg/controllers/registration/registration.go:194-205 | Delete removes exactly the identity unless faulted. NotFound is returned exactly for an absent, unfaulted identity. |
| `Kube.Client.Create` | pkg/controllers/registration/registration.go:77 | The in-place client create agrees with `Cluster.Create` and keeps the store well-formed. |
| `Kube.Client.Get` | pkg/controllers/registration/registration.go:120 | The client read agrees with `Cluster.Get`. |
| `Kube.Client.Update` | pkg/controllers/registration/registration.go:130 | The in-place client update agrees with `Cluster.Update`. |
| `Kube.Client.Delete` | pkg/controllers/registration/registration.go:194 | The in-place client delete agrees with `Cluster.Delete`. |
| `RegistrationProperties.DesiredNaming` | pkg/controllers/registration/registration.go:79-80 | Role, ServiceAccount and RoleBinding are named after the registration in its namespace. The Secret is `<name>-token` and is annotated with the ServiceAccount name. The account links to `<name>-token`. The binding's subject and roleRef both name the registration. All four carry the managed label. |
| `RegistrationProperties.ManagedKeysDisjoint` | pkg/controllers/registration/registration.go:100 | Two different registrations never share an object identity, the `-token` Secrets included. |
| `RegistrationProperties.RegistrationURLParts` | pkg/controllers/registration/registration.go:75 | The registration URL is exactly the server URL, then `/elemental/registration/`, then the token. |
| `RegistrationProperties.RegistrationURLInjective` | pkg/controllers/registration/registration.go:75 | For one server URL, different tokens give different registration URLs. |
| `RegistrationProperties.ProvisionCreatesDesired` | pkg/controllers/registration/registration.go:77-176 | Every object the run creates is exactly the desired object for its identity. |
| `RegistrationProperties.CreatedIsDesired` | pkg/controllers/registration/registration.go:77-176 | The four desired objects have pairwise different identities. |
| `RegistrationProperties.RoleFailureStops` | pkg/controllers/registration/registration.go:96-98 | A failing Role create returns that error with the status as stamped and an unchanged store. |
| `RegistrationProperties.ServiceAccountFailureStops` | pkg/controllers/registration/registration.go:115-118 | A failing ServiceAccount create returns that error. Nothing after the Role step happens. |
| `RegistrationProperties.SecretFailureStops` | pkg/controllers/registration/registration.go:151-153 | A failing Secret create returns it wrapped with the registration name. The RoleBinding is not attempted. |
| `RegistrationProperties.RoleBindingFailureStops` | pkg/controllers/registration/registration.go:174-176 | A failing RoleBinding create is returned, and the status is not marked ready. |
| `RegistrationProperties.ServiceAccountRepairLinksSecret` | pkg/controllers/registration/registration.go:119-133 | An existing ServiceAccount with no secret references ends with exactly one reference, named `<name>-token`. Nothing else about it changes. |
| `RegistrationProperties.ServiceAccountRepairKeepsLinks` | pkg/controllers/registration/registration.go:124 | An existing ServiceAccount that has secret references is left unchanged. |
| `RegistrationProperties.ServiceAccountRepairSkippedOnReadFailure` | pkg/controllers/registration/registration.go:120-123 | A failed read skips the repair. The account is unchanged, and success depends only on the four creates. |
| `RegistrationProperties.ServiceAccountRepairUpdateFailure` | pkg/controllers/registration/registration.go:130-133 | A failed repair update returns `update <name> ServiceAccount` with the cause. Nothing after the Role step happens. |
| `RegistrationProperties.TokenGeneratorNotConsulted` | pkg/controllers/registration/registration.go:66-73 | With a non-empty token in the status, the run does not depend on what the generator would return. |
| `RegistrationProperties.ProvisionSettles` | pkg/controllers/registration/registration.go:100-137 | After a successful run, all four objects exist. The ServiceAccount is linked, or cannot be read. |
| `RegistrationProperties.ProvisionOnSettled` | pkg/controllers/registration/registration.go:77-190 | On such a store, provisioning only marks the status ready and changes no object. |
| `RegistrationProperties.ReconcileIsProvision` | pkg/controllers/registration/registration.go:61-75 | Once the URL and token are resolved, the run is provisioning with the status carrying that token and URL. |
| `RegistrationProperties.ReconcileIdempotent` | pkg/controllers/registration/registration.go:57-191 | Re-running `OnChange` on its own successful result, with the same settings and no outside change, returns the same status and leaves the store unchanged. |
| `RegistrationProperties.ReadyStatusIdempotent` | pkg/controllers/registration/registration.go:178-188 | Setting the ServiceAccount reference and the Ready condition twice is the same as once. |
| `RegistrationProperties.ReconcileRepeatedIsFirst` | pkg/controllers/registration/registration.go:57-191 | Any number of runs after a first success yields that first result. |
| `RegistrationProperties.TokenStable` | pkg/controllers/registration/registration.go:66-73 | Once a status has a token, no sequence of runs replaces it. Runs may succeed or fail, and the store may change between them. |
| `RegistrationProperties.TeardownIdempotent` | pkg/controllers/registration/registration.go:193-208 | A second `OnRemove` after a successful one also succeeds and changes nothing. |
| `RegistrationProperties.TeardownLeavesSecret` | pkg/controllers/registration/registration.go:193-208 | After a successful `OnChange` and `OnRemove`, the only object of the registration left is its `-token` Secret. |
| `RegistrationProperties.NewRegistrationExample` | pkg/controllers/registration/registration.go:57-191 | A new registration `ns/reg1` with server URL `https://rancher.example` and an empty store succeeds. It gets the generated token and URL `https://rancher.example/elemental/registration/<token>`. It creates `ns/reg1` (Role, ServiceAccount, RoleBinding) and `ns/reg1-token` (Secret). |
| `RegistrationProperties.EmptyServerURLExample` | pkg/controllers/registration/registration.go:61-64 | An empty `server-url` setting returns "server-url is not set" with the input status and no objects. |

## Left out

- Hooking the handlers to the controllers in `Register` (registration.go:53-54) is framework wiring and is not modelled. The handler value built at registration.go:47-52 is `Handler`'s constructor, without the context and the event recorder. Also not modelled is what the generated status handler does with the returned status, such as persisting it or reverting it on error. `TokenStable` holds whichever status the controller keeps, since error returns keep the token as well.
- The internals of `randomtoken.Generate` are not modelled. Its outcome is a parameter: a non-empty token or an error.
- Logging (`logrus`) and the event recorder are fire-and-forget side effects and are not modelled.
- The Ready condition is modelled only as the `Ready` entry of the conditions: true, with the ready reason and an empty message. Its timestamps and the condition library's internals are left out.
- The values of the managed-secret label key and of the ready reason come from the API package, which is not part of this model. The model carries them as named constants whose text is not claimed.
- The RBAC rules are carried as a constant in the Role and never read back.
- `Registration.Handler.constructor`: the handler keeps one settings value, so a change to `server-url` while the handler is running is not seen by that handler. The source reads a live cache on every run. The lemmas about several runs go through `Reconcile`, which takes a new cache on each run.
- Context, cancellation and the controller's worker pool are not modelled. Each invocation runs sequentially.
- Kubernetes server behaviour beyond the client contract is not modelled: resource-version conflicts on Update, admission checks, and garbage collection by owner references. In particular, the model does not say whether the Secret is collected after teardown. It only proves that the handler never deletes it.
- Error strings are modelled as error constructors that carry the registration name and the cause. The source formats the update error with `%s`, so its cause is text there, not a wrapped error.
- `Handler.OnRemove` returns only the error. The source's first result is always `nil`.
- An "other" store error is modelled as a fault injected for one operation on one identity. The fault persists across runs.
