/**
 * The MachineRegistration reconciliation handler.
 *
 * `Reconcile` and `Teardown` are the specifications of the handler's two
 * entry points, as functions from the store and the registration's status
 * to the new status, the returned error and the new store. `Handler.OnChange`
 * and `Handler.OnRemove` are the entry points themselves, written as the
 * step-by-step sequence of client calls and status updates they are, and
 * proved equal to those functions.
 */
module Registration {
  import opened Wrappers
  import opened Kube
  import opened Settings

  /** A registration token: an opaque, non-empty, URL-safe string. */
  type Token = s: string | s != "" witness "0"

  /** The identity of a MachineRegistration; its spec is opaque to this handler. */
  datatype MachineRegistration = MachineRegistration(namespace: string, name: string)

  datatype ConditionStatus = ConditionTrue | ConditionFalse | ConditionUnknown

  datatype Condition = Condition(status: ConditionStatus, reason: string, message: string)

  /** The status the handler computes; conditions are keyed by their type. */
  datatype Status = Status(
    registrationToken: string,
    registrationURL: string,
    serviceAccountRef: Option<ObjectReference>,
    conditions: map<string, Condition>)

  /** The errors the handler returns. */
  datatype Error =
    | SettingLookupFailed(cause: ApiError)
    | ServerURLNotSet
    | TokenGenerationFailed(reason: string)
    | ApiFailure(cause: ApiError)
    | UpdateServiceAccountFailed(name: string, cause: ApiError)
    | AddSecretFailed(name: string, cause: ApiError)

  /** What one run of `OnChange` produces: its two results and the store afterwards. */
  datatype Outcome = Outcome(status: Status, err: Option<Error>, cluster: Cluster)

  /** The result of one provisioning step of the handler. */
  datatype Step = Step(err: Option<Error>, cluster: Cluster)

  const ServerURLSetting := "server-url"
  const RegistrationPath := "/elemental/registration/"
  const ManagedSecretLabel := "elemental.cattle.io/managed-secret"
  const ServiceAccountNameAnnotation := "kubernetes.io/service-account.name"
  const ServiceAccountTokenType := "kubernetes.io/service-account-token"
  const ReadyConditionType := "Ready"
  const ReadyReason := "MachineRegistrationReady"

  /** The rules of the registration Role: read/write secrets, read Rancher settings. */
  const RoleRules := [
    PolicyRule([""], ["get", "watch", "list", "update", "patch"], ["secrets"]),
    PolicyRule(["management.cattle.io"], ["get", "watch", "list"], ["settings"])
  ]

  // ---------------------------------------------------------------------------
  // Settings lookup

  /** The externally visible base URL: the `server-url` setting, which must be set. */
  function GetRancherServerURL(cache: SettingCache): (r: Result<string, Error>)
    ensures r.Success? <==>
      cache.fault.None? && ServerURLSetting in cache.settings && cache.settings[ServerURLSetting].value != ""
    ensures r.Success? ==> r.value == cache.settings[ServerURLSetting].value && r.value != ""
    ensures r == Failure(ServerURLNotSet) <==>
      cache.fault.None? && ServerURLSetting in cache.settings && cache.settings[ServerURLSetting].value == ""
    ensures cache.fault.Some? ==> r == Failure(SettingLookupFailed(Other(cache.fault.value)))
    ensures cache.fault.None? && ServerURLSetting !in cache.settings ==> r == Failure(SettingLookupFailed(NotFound))
  {
    match cache.Get(ServerURLSetting)
    case Failure(e) => Failure(SettingLookupFailed(e))
    case Success(setting) =>
      if setting.value == "" then Failure(ServerURLNotSet) else Success(setting.value)
  }

  // ---------------------------------------------------------------------------
  // Names and desired objects: every dependent object shares the registration's
  // name and namespace, except the Secret, which is named `<name>-token`.

  /** The URL a machine registers at: the server URL, the registration path, then the token. */
  function RegistrationURL(serverURL: string, token: string): (u: string)
    ensures |u| == |serverURL| + |RegistrationPath| + |token|
    ensures u[..|serverURL|] == serverURL && u[|u| - |token|..] == token
  {
    serverURL + RegistrationPath + token
  }

  function SecretName(obj: MachineRegistration): (n: string)
    ensures |n| == |obj.name| + 6 && n[..|obj.name|] == obj.name && n[|obj.name|..] == "-token"
  {
    obj.name + "-token"
  }

  function RoleKey(obj: MachineRegistration): Key {
    Key(RoleKind, obj.namespace, obj.name)
  }

  function ServiceAccountKey(obj: MachineRegistration): Key {
    Key(ServiceAccountKind, obj.namespace, obj.name)
  }

  function SecretKey(obj: MachineRegistration): Key {
    Key(SecretKind, obj.namespace, SecretName(obj))
  }

  function RoleBindingKey(obj: MachineRegistration): Key {
    Key(RoleBindingKind, obj.namespace, obj.name)
  }

  /** The identities of every object the handler may create for `obj`. */
  function ManagedKeys(obj: MachineRegistration): set<Key> {
    {RoleKey(obj), ServiceAccountKey(obj), SecretKey(obj), RoleBindingKey(obj)}
  }

  function ManagedMeta(name: string, namespace: string, annotations: map<string, string>): Meta {
    Meta(name, namespace, map[ManagedSecretLabel := "true"], annotations)
  }

  function RoleFor(obj: MachineRegistration): (r: Resource)
    ensures r.Role? && r.Id() == RoleKey(obj) && r.rules == RoleRules
    ensures r.meta.labels == map[ManagedSecretLabel := "true"]
  {
    Role(ManagedMeta(obj.name, obj.namespace, map[]), RoleRules)
  }

  /** The link from the ServiceAccount to its token Secret (a reference by name only). */
  function SecretRef(obj: MachineRegistration): ObjectReference {
    ObjectReference("", "", SecretName(obj))
  }

  function ServiceAccountFor(obj: MachineRegistration): (r: Resource)
    ensures r.ServiceAccount? && r.Id() == ServiceAccountKey(obj)
    ensures r.secrets == [ObjectReference("", "", obj.name + "-token")]
    ensures r.meta.labels == map[ManagedSecretLabel := "true"]
  {
    ServiceAccount(ManagedMeta(obj.name, obj.namespace, map[]), [SecretRef(obj)])
  }

  function SecretFor(obj: MachineRegistration): (r: Resource)
    ensures r.Secret? && r.Id() == SecretKey(obj) && r.secretType == ServiceAccountTokenType
    ensures r.meta.annotations == map[ServiceAccountNameAnnotation := obj.name]
    ensures r.meta.labels == map[ManagedSecretLabel := "true"]
  {
    Secret(ManagedMeta(SecretName(obj), obj.namespace, map[ServiceAccountNameAnnotation := obj.name]),
           ServiceAccountTokenType)
  }

  function RoleBindingFor(obj: MachineRegistration): (r: Resource)
    ensures r.RoleBinding? && r.Id() == RoleBindingKey(obj)
    // the registration's ServiceAccount is bound to the registration's Role
    ensures r.subjects == [Subject("ServiceAccount", ServiceAccountKey(obj).name, ServiceAccountKey(obj).namespace)]
    ensures r.roleRef.kind == "Role" && r.roleRef.name == RoleKey(obj).name
    ensures r.meta.labels == map[ManagedSecretLabel := "true"]
  {
    RoleBinding(ManagedMeta(obj.name, obj.namespace, map[]),
                [Subject("ServiceAccount", obj.name, obj.namespace)],
                RoleRef("Role", obj.name, "rbac.authorization.k8s.io"))
  }

  /** The objects the handler creates for `obj`, in creation order. */
  function Desired(obj: MachineRegistration): seq<Resource> {
    [RoleFor(obj), ServiceAccountFor(obj), SecretFor(obj), RoleBindingFor(obj)]
  }

  /** The status reference to the registration's ServiceAccount. */
  function ServiceAccountRefFor(obj: MachineRegistration): (r: ObjectReference)
    ensures r.kind == "ServiceAccount" && Key(ServiceAccountKind, r.namespace, r.name) == ServiceAccountKey(obj)
  {
    ObjectReference("ServiceAccount", obj.namespace, obj.name)
  }

  /** The Ready condition set with no error: true, with the ready reason and no message. */
  function SetReady(status: Status): (r: Status)
    ensures r.conditions.Keys == status.conditions.Keys + {ReadyConditionType}
    ensures r.conditions[ReadyConditionType] == Condition(ConditionTrue, ReadyReason, "")
    ensures forall t | t in status.conditions && t != ReadyConditionType :: r.conditions[t] == status.conditions[t]
    ensures r.(conditions := status.conditions) == status
  {
    status.(conditions := status.conditions[ReadyConditionType := Condition(ConditionTrue, ReadyReason, "")])
  }

  /** Whether a store error is absent or is the one class the caller absorbs. */
  predicate Absorbed(err: Option<ApiError>, absorbed: ApiError) {
    err.None? || err.value == absorbed
  }

  // ---------------------------------------------------------------------------
  // Specification of OnChange

  /**
   * The repair of an existing ServiceAccount fails: it exists, can be read,
   * has no secret link, and the update that adds the link fails.
   */
  predicate RepairFails(c: Cluster, obj: MachineRegistration) {
    var k := ServiceAccountKey(obj);
    && k in c.objects
    && !c.Fails(OpGet, k)
    && c.objects[k].ServiceAccount?
    && c.objects[k].secrets == []
    && c.Fails(OpUpdate, k)
  }

  /** No provisioning step fails: none of the four creates, nor the ServiceAccount repair. */
  predicate ProvisioningSucceeds(c: Cluster, obj: MachineRegistration) {
    && !c.Fails(OpCreate, RoleKey(obj))
    && !c.Fails(OpCreate, ServiceAccountKey(obj))
    && !RepairFails(c, obj)
    && !c.Fails(OpCreate, SecretKey(obj))
    && !c.Fails(OpCreate, RoleBindingKey(obj))
  }

  /** The object the ServiceAccount step leaves at `k`, given what was there. */
  predicate ServiceAccountStepped(before: Resource, after: Resource, obj: MachineRegistration) {
    || after == before
    || (before.ServiceAccount? && before.secrets == [] && after == before.(secrets := [SecretRef(obj)]))
  }

  /**
   * Create the ServiceAccount, pre-linked to its token Secret; if it already
   * exists, add the link when it has none. A failed read skips the repair.
   */
  function EnsureServiceAccount(c: Cluster, obj: MachineRegistration): (s: Step)
    requires c.Valid()
    ensures s.cluster.Valid() && s.cluster.faults == c.faults
    ensures s.err.None? <==> !c.Fails(OpCreate, ServiceAccountKey(obj)) && !RepairFails(c, obj)
    ensures s.cluster.objects.Keys == c.objects.Keys + {ServiceAccountKey(obj)}
      || (s.err.Some? && s.cluster == c)
    ensures forall k | k in c.objects && k != ServiceAccountKey(obj) :: s.cluster.objects[k] == c.objects[k]
    ensures ServiceAccountKey(obj) !in c.objects && s.err.None? ==>
      s.cluster.objects[ServiceAccountKey(obj)] == ServiceAccountFor(obj)
    ensures CreatedOnly(c, s.cluster, [ServiceAccountFor(obj)])
    ensures ServiceAccountKey(obj) in c.objects ==>
      ServiceAccountStepped(c.objects[ServiceAccountKey(obj)], s.cluster.objects[ServiceAccountKey(obj)], obj)
    // an existing, readable account with no link gains exactly the link
    ensures var k := ServiceAccountKey(obj);
      k in c.objects && c.objects[k].ServiceAccount? && c.objects[k].secrets == []
      && !c.Fails(OpCreate, k) && !c.Fails(OpGet, k) && !c.Fails(OpUpdate, k) ==>
      s.cluster.objects[k] == c.objects[k].(secrets := [SecretRef(obj)])
    // a failing create is returned as an API failure, a failing repair under the account's name
    ensures c.Fails(OpCreate, ServiceAccountKey(obj)) ==>
      s.err == Some(ApiFailure(Other(c.faults[Call(OpCreate, ServiceAccountKey(obj))])))
    ensures !c.Fails(OpCreate, ServiceAccountKey(obj)) && RepairFails(c, obj) ==>
      s.err == Some(UpdateServiceAccountFailed(obj.name, Other(c.faults[Call(OpUpdate, ServiceAccountKey(obj))])))
  {
    var created := c.Create(ServiceAccountFor(obj));
    if created.err.None? then Step(None, created.cluster)
    else if created.err.value != AlreadyExists then Step(Some(ApiFailure(created.err.value)), created.cluster)
    else
      match created.cluster.Get(ServiceAccountKey(obj))
      case Failure(_) => Step(None, created.cluster)
      case Success(sa) =>
        if |sa.secrets| == 0 then
          var updated := created.cluster.Update(sa.(secrets := [SecretRef(obj)]));
          if updated.err.Some? then Step(Some(UpdateServiceAccountFailed(obj.name, updated.err.value)), updated.cluster)
          else Step(None, updated.cluster)
        else Step(None, created.cluster)
  }

  /** The status with its token and the registration URL derived from it, before provisioning. */
  function Stamped(status: Status, serverURL: string, token: string): Status {
    status.(registrationToken := token, registrationURL := RegistrationURL(serverURL, token))
  }

  /** Every object in `after` that is not in `before` is one of `created`. */
  predicate CreatedOnly(before: Cluster, after: Cluster, created: seq<Resource>) {
    forall k | k in after.objects && k !in before.objects :: after.objects[k] in created
  }

  /** The status after every provisioning step succeeded. */
  function ReadyStatus(st: Status, obj: MachineRegistration): Status {
    SetReady(st.(serviceAccountRef := Some(ServiceAccountRefFor(obj))))
  }

  /**
   * The four provisioning steps in order (Role, ServiceAccount, Secret,
   * RoleBinding), each treating AlreadyExists as success; the first other
   * error is returned with the status as it was on entry. `Provision` runs
   * the Role step and hands over to the next step, and so on.
   */
  function Provision(c: Cluster, obj: MachineRegistration, st: Status): (o: Outcome)
    requires c.Valid()
    ensures o.cluster.Valid() && o.cluster.faults == c.faults
    ensures o.err.None? <==> ProvisioningSucceeds(c, obj)
    ensures o.status == if o.err.None? then ReadyStatus(st, obj) else st
    ensures o.err.None? ==> ManagedKeys(obj) <= o.cluster.objects.Keys
    ensures c.objects.Keys <= o.cluster.objects.Keys <= c.objects.Keys + ManagedKeys(obj)
    // existing objects are left as they are, except for the ServiceAccount's secret link
    ensures forall k | k in c.objects && k != ServiceAccountKey(obj) :: o.cluster.objects[k] == c.objects[k]
    ensures ServiceAccountKey(obj) in c.objects ==>
      ServiceAccountStepped(c.objects[ServiceAccountKey(obj)], o.cluster.objects[ServiceAccountKey(obj)], obj)
    ensures CreatedOnly(c, o.cluster, Desired(obj))
  {
    var role := c.Create(RoleFor(obj));
    if !Absorbed(role.err, AlreadyExists) then
      Outcome(st, Some(ApiFailure(role.err.value)), role.cluster)
    else
      ProvisionServiceAccount(role.cluster, obj, st)
  }

  function ProvisionServiceAccount(c: Cluster, obj: MachineRegistration, st: Status): (o: Outcome)
    requires c.Valid()
    ensures o.cluster.Valid() && o.cluster.faults == c.faults
    ensures o.err.None? <==>
      && !c.Fails(OpCreate, ServiceAccountKey(obj))
      && !RepairFails(c, obj)
      && !c.Fails(OpCreate, SecretKey(obj))
      && !c.Fails(OpCreate, RoleBindingKey(obj))
    ensures o.status == if o.err.None? then ReadyStatus(st, obj) else st
    ensures o.err.None? ==>
      ServiceAccountKey(obj) in o.cluster.objects && SecretKey(obj) in o.cluster.objects
      && RoleBindingKey(obj) in o.cluster.objects
    ensures c.objects.Keys <= o.cluster.objects.Keys <= c.objects.Keys + ManagedKeys(obj)
    // existing objects are left as they are, except for the ServiceAccount's secret link
    ensures forall k | k in c.objects && k != ServiceAccountKey(obj) :: o.cluster.objects[k] == c.objects[k]
    ensures ServiceAccountKey(obj) in c.objects ==>
      ServiceAccountStepped(c.objects[ServiceAccountKey(obj)], o.cluster.objects[ServiceAccountKey(obj)], obj)
    ensures CreatedOnly(c, o.cluster, Desired(obj))
  {
    var account := EnsureServiceAccount(c, obj);
    if account.err.Some? then
      Outcome(st, account.err, account.cluster)
    else
      ProvisionSecret(account.cluster, obj, st)
  }

  function ProvisionSecret(c: Cluster, obj: MachineRegistration, st: Status): (o: Outcome)
    requires c.Valid()
    ensures o.cluster.Valid() && o.cluster.faults == c.faults
    ensures o.err.None? <==> !c.Fails(OpCreate, SecretKey(obj)) && !c.Fails(OpCreate, RoleBindingKey(obj))
    ensures o.status == if o.err.None? then ReadyStatus(st, obj) else st
    ensures o.err.None? ==> SecretKey(obj) in o.cluster.objects && RoleBindingKey(obj) in o.cluster.objects
    ensures c.objects.Keys <= o.cluster.objects.Keys <= c.objects.Keys + {SecretKey(obj), RoleBindingKey(obj)}
    ensures CreatedOnly(c, o.cluster, [SecretFor(obj), RoleBindingFor(obj)])
    ensures forall k | k in c.objects :: o.cluster.objects[k] == c.objects[k]
    // a failing Secret create is returned wrapped with the registration name
    ensures c.Fails(OpCreate, SecretKey(obj)) ==>
      o.err == Some(AddSecretFailed(obj.name, Other(c.faults[Call(OpCreate, SecretKey(obj))])))
  {
    var secret := c.Create(SecretFor(obj));
    if !Absorbed(secret.err, AlreadyExists) then
      Outcome(st, Some(AddSecretFailed(obj.name, secret.err.value)), secret.cluster)
    else
      ProvisionRoleBinding(secret.cluster, obj, st)
  }

  function ProvisionRoleBinding(c: Cluster, obj: MachineRegistration, st: Status): (o: Outcome)
    requires c.Valid()
    ensures o.cluster.Valid() && o.cluster.faults == c.faults
    ensures o.err.None? <==> !c.Fails(OpCreate, RoleBindingKey(obj))
    ensures o.status == if o.err.None? then ReadyStatus(st, obj) else st
    ensures o.err.None? ==> RoleBindingKey(obj) in o.cluster.objects
    ensures c.objects.Keys <= o.cluster.objects.Keys <= c.objects.Keys + {RoleBindingKey(obj)}
    ensures CreatedOnly(c, o.cluster, [RoleBindingFor(obj)])
    ensures forall k | k in c.objects :: o.cluster.objects[k] == c.objects[k]
    // a failing RoleBinding create is returned as an API failure
    ensures c.Fails(OpCreate, RoleBindingKey(obj)) ==>
      o.err == Some(ApiFailure(Other(c.faults[Call(OpCreate, RoleBindingKey(obj))])))
  {
    var binding := c.Create(RoleBindingFor(obj));
    if !Absorbed(binding.err, AlreadyExists) then
      Outcome(st, Some(ApiFailure(binding.err.value)), binding.cluster)
    else
      Outcome(ReadyStatus(st, obj), None, binding.cluster)
  }

  /**
   * OnChange: resolve the server URL, issue a token when the status has none
   * (`generated` is what the token generator yields if it is called), derive
   * the registration URL, then provision.
   */
  function Reconcile(c: Cluster, cache: SettingCache, generated: Result<Token, string>,
                     obj: MachineRegistration, status: Status): (o: Outcome)
    requires c.Valid()
    ensures o.cluster.Valid() && o.cluster.faults == c.faults
    // a run succeeds exactly when the URL and a token are at hand and no step fails
    ensures o.err.None? <==>
      && GetRancherServerURL(cache).Success?
      && (status.registrationToken != "" || generated.Success?)
      && ProvisioningSucceeds(c, obj)
    // without a server URL nothing changes
    ensures GetRancherServerURL(cache).Failure? ==>
      o == Outcome(status, Some(GetRancherServerURL(cache).error), c)
    // a failed token generation changes nothing: the token stays empty
    ensures GetRancherServerURL(cache).Success? && status.registrationToken == "" && generated.Failure? ==>
      o == Outcome(status, Some(TokenGenerationFailed(generated.error)), c)
    // a token, once set, is never replaced
    ensures status.registrationToken != "" ==> o.status.registrationToken == status.registrationToken
    // token and URL are set before provisioning, so an error status carries them too
    ensures GetRancherServerURL(cache).Success? && (status.registrationToken != "" || generated.Success?) ==>
      && o.status.registrationToken == (if status.registrationToken == "" then generated.value else status.registrationToken)
      && o.status.registrationURL ==
         GetRancherServerURL(cache).value + "/elemental/registration/" + o.status.registrationToken
    // success: the account reference and Ready condition are set, all four objects exist
    ensures o.err.None? ==>
      && o.status.registrationToken != ""
      && o.status.serviceAccountRef == Some(ObjectReference("ServiceAccount", obj.namespace, obj.name))
      && o.status.conditions == status.conditions[ReadyConditionType := Condition(ConditionTrue, ReadyReason, "")]
      && ManagedKeys(obj) <= o.cluster.objects.Keys
    // error: the account reference and conditions are as they were
    ensures o.err.Some? ==>
      o.status.serviceAccountRef == status.serviceAccountRef && o.status.conditions == status.conditions
    ensures c.objects.Keys <= o.cluster.objects.Keys <= c.objects.Keys + ManagedKeys(obj)
  {
    match GetRancherServerURL(cache)
    case Failure(e) => Outcome(status, Some(e), c)
    case Success(serverURL) =>
      if status.registrationToken == "" && generated.Failure? then
        Outcome(status, Some(TokenGenerationFailed(generated.error)), c)
      else
        var token := if status.registrationToken == "" then generated.value else status.registrationToken;
        Provision(c, obj, Stamped(status, serverURL, token))
  }

  // ---------------------------------------------------------------------------
  // Specification of OnRemove

  /**
   * Delete the RoleBinding, the Role and the ServiceAccount, in that order,
   * treating NotFound as success; the first other error ends the run. The
   * Secret is never deleted.
   */
  function Teardown(c: Cluster, obj: MachineRegistration): (w: Write)
    requires c.Valid()
    ensures w.cluster.Valid() && w.cluster.faults == c.faults
    ensures w.err.None? <==>
      && !c.Fails(OpDelete, RoleBindingKey(obj))
      && !c.Fails(OpDelete, RoleKey(obj))
      && !c.Fails(OpDelete, ServiceAccountKey(obj))
    // the error returned is the one of the first delete that fails
    ensures c.Fails(OpDelete, RoleBindingKey(obj)) ==>
      w.err == Some(Other(c.faults[Call(OpDelete, RoleBindingKey(obj))]))
    ensures !c.Fails(OpDelete, RoleBindingKey(obj)) && c.Fails(OpDelete, RoleKey(obj)) ==>
      w.err == Some(Other(c.faults[Call(OpDelete, RoleKey(obj))]))
    ensures (!c.Fails(OpDelete, RoleBindingKey(obj)) && !c.Fails(OpDelete, RoleKey(obj))
             && c.Fails(OpDelete, ServiceAccountKey(obj))) ==>
      w.err == Some(Other(c.faults[Call(OpDelete, ServiceAccountKey(obj))]))
    ensures w.err.None? ==>
      w.cluster.objects == c.objects - {RoleBindingKey(obj), RoleKey(obj), ServiceAccountKey(obj)}
    ensures c.Fails(OpDelete, RoleBindingKey(obj)) ==> w.cluster == c
    ensures !c.Fails(OpDelete, RoleBindingKey(obj)) && c.Fails(OpDelete, RoleKey(obj)) ==>
      w.cluster.objects == c.objects - {RoleBindingKey(obj)}
    ensures (!c.Fails(OpDelete, RoleBindingKey(obj)) && !c.Fails(OpDelete, RoleKey(obj))
             && c.Fails(OpDelete, ServiceAccountKey(obj))) ==>
      w.cluster.objects == c.objects - {RoleBindingKey(obj), RoleKey(obj)}
    ensures forall k | k in c.objects && k !in {RoleBindingKey(obj), RoleKey(obj), ServiceAccountKey(obj)} ::
      k in w.cluster.objects && w.cluster.objects[k] == c.objects[k]
  {
    var binding := c.Delete(RoleBindingKey(obj));
    if !Absorbed(binding.err, NotFound) then Write(binding.err, binding.cluster)
    else
      var role := binding.cluster.Delete(RoleKey(obj));
      if !Absorbed(role.err, NotFound) then Write(role.err, role.cluster)
      else
        var account := role.cluster.Delete(ServiceAccountKey(obj));
        if !Absorbed(account.err, NotFound) then Write(account.err, account.cluster)
        else Write(None, account.cluster)
  }

  // ---------------------------------------------------------------------------
  // The handler

  class Handler {
    const client: Client
    const settingCache: SettingCache

    constructor (client: Client, settingCache: SettingCache)
      ensures this.client == client && this.settingCache == settingCache
    {
      this.client := client;
      this.settingCache := settingCache;
    }

    method OnChange(obj: MachineRegistration, status: Status, generated: Result<Token, string>)
      returns (newStatus: Status, err: Option<Error>)
      requires client.Valid()
      modifies client
      ensures client.Valid()
      ensures Outcome(newStatus, err, client.State())
           == Reconcile(old(client.State()), settingCache, generated, obj, status)
    {
      newStatus := status;
      var serverURL := GetRancherServerURL(settingCache);
      if serverURL.Failure? {
        return newStatus, Some(serverURL.error);
      }

      if newStatus.registrationToken == "" {
        if generated.Failure? {
          return newStatus, Some(TokenGenerationFailed(generated.error));
        }
        newStatus := newStatus.(registrationToken := generated.value);
      }

      newStatus := newStatus.(registrationURL := RegistrationURL(serverURL.value, newStatus.registrationToken));

      var e := client.Create(RoleFor(obj));
      if !Absorbed(e, AlreadyExists) {
        return newStatus, Some(ApiFailure(e.value));
      }

      e := client.Create(ServiceAccountFor(obj));
      if e.Some? {
        if e.value != AlreadyExists {
          return newStatus, Some(ApiFailure(e.value));
        }
        // ensure the ServiceAccount is linked to a Secret; a failed read skips this
        var got := client.Get(ServiceAccountKey(obj));
        if got.Success? {
          var sa := got.value;
          if |sa.secrets| == 0 {
            sa := sa.(secrets := [SecretRef(obj)]);
            var updateErr := client.Update(sa);
            if updateErr.Some? {
              return newStatus, Some(UpdateServiceAccountFailed(obj.name, updateErr.value));
            }
          }
        }
      }

      e := client.Create(SecretFor(obj));
      if !Absorbed(e, AlreadyExists) {
        return newStatus, Some(AddSecretFailed(obj.name, e.value));
      }

      e := client.Create(RoleBindingFor(obj));
      if !Absorbed(e, AlreadyExists) {
        return newStatus, Some(ApiFailure(e.value));
      }

      newStatus := newStatus.(serviceAccountRef := Some(ServiceAccountRefFor(obj)));
      newStatus := SetReady(newStatus);
      err := None;
    }

    method OnRemove(obj: MachineRegistration) returns (err: Option<ApiError>)
      requires client.Valid()
      modifies client
      ensures client.Valid()
      ensures Write(err, client.State()) == Teardown(old(client.State()), obj)
    {
      err := client.Delete(RoleBindingKey(obj));
      if !Absorbed(err, NotFound) {
        return err;
      }
      err := client.Delete(RoleKey(obj));
      if !Absorbed(err, NotFound) {
        return err;
      }
      err := client.Delete(ServiceAccountKey(obj));
      if !Absorbed(err, NotFound) {
        return err;
      }
      err := None;
    }
  }
}
