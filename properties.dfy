/**
 * Properties of the registration handler that relate several runs, or that
 * single out one path through a run: the 1:1 naming convention, the exact
 * registration URL, the ServiceAccount repair, abort-on-first-error,
 * idempotence of OnChange, token stability over any sequence of runs, and
 * idempotence of OnRemove.
 */
module RegistrationProperties {
  import opened Wrappers
  import opened Kube
  import opened Settings
  import opened Registration

  // ---------------------------------------------------------------------------
  // Naming and URL

  /** Every desired object is stored under the identity the handler looks it up by. */
  lemma DesiredNaming(obj: MachineRegistration)
    ensures RoleFor(obj).Id() == RoleKey(obj) == Key(RoleKind, obj.namespace, obj.name)
    ensures ServiceAccountFor(obj).Id() == ServiceAccountKey(obj) == Key(ServiceAccountKind, obj.namespace, obj.name)
    ensures SecretFor(obj).Id() == SecretKey(obj) == Key(SecretKind, obj.namespace, obj.name + "-token")
    ensures RoleBindingFor(obj).Id() == RoleBindingKey(obj) == Key(RoleBindingKind, obj.namespace, obj.name)
    ensures SecretFor(obj).meta.annotations[ServiceAccountNameAnnotation] == obj.name
    ensures ServiceAccountFor(obj).secrets == [ObjectReference("", "", obj.name + "-token")]
    ensures RoleBindingFor(obj).subjects == [Subject("ServiceAccount", obj.name, obj.namespace)]
    ensures RoleBindingFor(obj).roleRef.kind == "Role" && RoleBindingFor(obj).roleRef.name == obj.name
    ensures forall r | r in Desired(obj) :: r.Id() in ManagedKeys(obj) && r.meta.labels[ManagedSecretLabel] == "true"
  {
  }

  lemma {:induction false} AppendSuffixInjective(a: string, b: string, suffix: string)
    requires a + suffix == b + suffix
    ensures a == b
  {
    assert |a| == |b|;
    assert a == (a + suffix)[..|a|];
    assert b == (b + suffix)[..|b|];
  }

  /**
   * Two different registrations own disjoint sets of objects, so no two
   * registrations ever compete for one object.
   */
  lemma ManagedKeysDisjoint(a: MachineRegistration, b: MachineRegistration)
    requires a != b
    ensures ManagedKeys(a) !! ManagedKeys(b)
  {
    if SecretKey(a) == SecretKey(b) {
      AppendSuffixInjective(a.name, b.name, "-token");
      assert false;
    }
  }

  /** The registration URL is the server URL, the fixed path and the token, nothing else. */
  lemma RegistrationURLParts(serverURL: string, token: string)
    ensures var u := RegistrationURL(serverURL, token);
      && |u| == |serverURL| + |"/elemental/registration/"| + |token|
      && u[..|serverURL|] == serverURL
      && u[|serverURL|..|serverURL| + |"/elemental/registration/"|] == "/elemental/registration/"
      && u[|serverURL| + |"/elemental/registration/"|..] == token
  {
    var u := RegistrationURL(serverURL, token);
    var n := |serverURL| + |RegistrationPath|;
    assert u == (serverURL + RegistrationPath) + token;
    assert u[..n] == serverURL + RegistrationPath;
    assert u[n..] == token;
    assert u[..|serverURL|] == u[..n][..|serverURL|];
    assert u[|serverURL|..n] == u[..n][|serverURL|..];
  }

  /** For one server URL, distinct tokens give distinct registration URLs. */
  lemma RegistrationURLInjective(serverURL: string, t1: string, t2: string)
    requires RegistrationURL(serverURL, t1) == RegistrationURL(serverURL, t2)
    ensures t1 == t2
  {
    RegistrationURLParts(serverURL, t1);
    RegistrationURLParts(serverURL, t2);
  }

  // ---------------------------------------------------------------------------
  // One run of OnChange

  /** Objects the run creates are exactly the desired ones, each under its own identity. */
  lemma ProvisionCreatesDesired(c: Cluster, obj: MachineRegistration, st: Status)
    requires c.Valid()
    ensures var o := Provision(c, obj, st);
      forall r | r in Desired(obj) && r.Id() !in c.objects && r.Id() in o.cluster.objects ::
        o.cluster.objects[r.Id()] == r
  {
    var o := Provision(c, obj, st);
    assert o.cluster.Valid() && CreatedOnly(c, o.cluster, Desired(obj));
    forall r | r in Desired(obj) && r.Id() !in c.objects && r.Id() in o.cluster.objects
      ensures o.cluster.objects[r.Id()] == r
    {
      CreatedIsDesired(obj, r, o.cluster.objects[r.Id()]);
    }
  }

  /** Two desired objects with one identity are the same object. */
  lemma CreatedIsDesired(obj: MachineRegistration, r: Resource, x: Resource)
    requires r in Desired(obj) && x in Desired(obj) && x.Id() == r.Id()
    ensures x == r
  {
  }

  /** A failing Role creation ends the run at once: nothing is created. */
  lemma RoleFailureStops(c: Cluster, obj: MachineRegistration, st: Status)
    requires c.Valid()
    requires c.Fails(OpCreate, RoleKey(obj))
    ensures Provision(c, obj, st) == Outcome(st, Some(ApiFailure(Other(c.faults[Call(OpCreate, RoleKey(obj))]))), c)
  {
  }

  /** A failing ServiceAccount creation ends the run: the Secret and RoleBinding are not attempted. */
  lemma ServiceAccountFailureStops(c: Cluster, obj: MachineRegistration, st: Status)
    requires c.Valid()
    requires !c.Fails(OpCreate, RoleKey(obj)) && c.Fails(OpCreate, ServiceAccountKey(obj))
    ensures var o := Provision(c, obj, st);
      && o.err == Some(ApiFailure(Other(c.faults[Call(OpCreate, ServiceAccountKey(obj))])))
      && o.status == st
      && o.cluster == c.Create(RoleFor(obj)).cluster
  {
    var role := c.Create(RoleFor(obj));
    assert Provision(c, obj, st) == ProvisionServiceAccount(role.cluster, obj, st);
  }

  /** A failing Secret creation ends the run with a wrapped error: the RoleBinding is not attempted. */
  lemma SecretFailureStops(c: Cluster, obj: MachineRegistration, st: Status)
    requires c.Valid()
    requires !c.Fails(OpCreate, RoleKey(obj)) && !c.Fails(OpCreate, ServiceAccountKey(obj)) && !RepairFails(c, obj)
    requires c.Fails(OpCreate, SecretKey(obj))
    ensures var o := Provision(c, obj, st);
      && o.err == Some(AddSecretFailed(obj.name, Other(c.faults[Call(OpCreate, SecretKey(obj))])))
      && o.status == st
      && (RoleBindingKey(obj) in o.cluster.objects <==> RoleBindingKey(obj) in c.objects)
  {
    var role := c.Create(RoleFor(obj));
    var account := EnsureServiceAccount(role.cluster, obj);
    assert !RepairFails(role.cluster, obj);
    assert Provision(c, obj, st) == ProvisionSecret(account.cluster, obj, st);
  }

  /** A failing RoleBinding creation is returned as it is, and the status is not marked ready. */
  lemma RoleBindingFailureStops(c: Cluster, obj: MachineRegistration, st: Status)
    requires c.Valid()
    requires !c.Fails(OpCreate, RoleKey(obj)) && !c.Fails(OpCreate, ServiceAccountKey(obj)) && !RepairFails(c, obj)
    requires !c.Fails(OpCreate, SecretKey(obj)) && c.Fails(OpCreate, RoleBindingKey(obj))
    ensures var o := Provision(c, obj, st);
      && o.err == Some(ApiFailure(Other(c.faults[Call(OpCreate, RoleBindingKey(obj))])))
      && o.status == st
      && (RoleBindingKey(obj) in o.cluster.objects <==> RoleBindingKey(obj) in c.objects)
  {
    var role := c.Create(RoleFor(obj));
    assert Provision(c, obj, st) == ProvisionServiceAccount(role.cluster, obj, st);
    assert !RepairFails(role.cluster, obj);
    var account := EnsureServiceAccount(role.cluster, obj);
    assert account.err.None?;
    assert Provision(c, obj, st) == ProvisionSecret(account.cluster, obj, st);
    var secret := account.cluster.Create(SecretFor(obj));
    assert Absorbed(secret.err, AlreadyExists);
    assert Provision(c, obj, st) == ProvisionRoleBinding(secret.cluster, obj, st);
  }

  // ---------------------------------------------------------------------------
  // ServiceAccount repair

  /** An existing ServiceAccount with no secret link ends up linked to exactly `<name>-token`. */
  lemma ServiceAccountRepairLinksSecret(c: Cluster, obj: MachineRegistration, st: Status)
    requires c.Valid()
    requires ServiceAccountKey(obj) in c.objects
    requires c.objects[ServiceAccountKey(obj)].ServiceAccount? && c.objects[ServiceAccountKey(obj)].secrets == []
    requires !c.Fails(OpCreate, RoleKey(obj)) && !c.Fails(OpCreate, ServiceAccountKey(obj))
    requires !c.Fails(OpGet, ServiceAccountKey(obj)) && !c.Fails(OpUpdate, ServiceAccountKey(obj))
    ensures var sa := Provision(c, obj, st).cluster.objects[ServiceAccountKey(obj)];
      && sa == c.objects[ServiceAccountKey(obj)].(secrets := [SecretRef(obj)])
      && sa.secrets == [ObjectReference("", "", obj.name + "-token")]
  {
    var role := c.Create(RoleFor(obj));
    var account := EnsureServiceAccount(role.cluster, obj);
    assert account.cluster.objects[ServiceAccountKey(obj)] == c.objects[ServiceAccountKey(obj)].(secrets := [SecretRef(obj)]);
  }

  /** A ServiceAccount that already has a secret link is left exactly as it is. */
  lemma ServiceAccountRepairKeepsLinks(c: Cluster, obj: MachineRegistration, st: Status)
    requires c.Valid()
    requires ServiceAccountKey(obj) in c.objects
    requires c.objects[ServiceAccountKey(obj)].ServiceAccount? && c.objects[ServiceAccountKey(obj)].secrets != []
    ensures Provision(c, obj, st).cluster.objects[ServiceAccountKey(obj)] == c.objects[ServiceAccountKey(obj)]
  {
  }

  /**
   * A failed read of the existing ServiceAccount skips the repair: the
   * account is unchanged and the run goes on to the Secret and RoleBinding.
   */
  lemma ServiceAccountRepairSkippedOnReadFailure(c: Cluster, obj: MachineRegistration, st: Status)
    requires c.Valid()
    requires ServiceAccountKey(obj) in c.objects && c.Fails(OpGet, ServiceAccountKey(obj))
    ensures var o := Provision(c, obj, st);
      && o.cluster.objects[ServiceAccountKey(obj)] == c.objects[ServiceAccountKey(obj)]
      && (o.err.None? <==>
          !c.Fails(OpCreate, RoleKey(obj)) && !c.Fails(OpCreate, ServiceAccountKey(obj))
          && !c.Fails(OpCreate, SecretKey(obj)) && !c.Fails(OpCreate, RoleBindingKey(obj)))
  {
  }

  /** A failed update of the unlinked ServiceAccount ends the run with a wrapped error. */
  lemma ServiceAccountRepairUpdateFailure(c: Cluster, obj: MachineRegistration, st: Status)
    requires c.Valid()
    requires !c.Fails(OpCreate, RoleKey(obj)) && !c.Fails(OpCreate, ServiceAccountKey(obj))
    requires RepairFails(c, obj)
    ensures var o := Provision(c, obj, st);
      && o.err == Some(UpdateServiceAccountFailed(obj.name, Other(c.faults[Call(OpUpdate, ServiceAccountKey(obj))])))
      && o.status == st
      && o.cluster.objects - {RoleKey(obj)} == c.objects - {RoleKey(obj)}
  {
    var role := c.Create(RoleFor(obj));
    var account := EnsureServiceAccount(role.cluster, obj);
    assert account.cluster == role.cluster;
  }

  // ---------------------------------------------------------------------------
  // Several runs of OnChange

  /** If the status already has a token, the token generator is not consulted. */
  lemma TokenGeneratorNotConsulted(c: Cluster, cache: SettingCache, g1: Result<Token, string>,
                                   g2: Result<Token, string>, obj: MachineRegistration, status: Status)
    requires c.Valid()
    requires status.registrationToken != ""
    ensures Reconcile(c, cache, g1, obj, status) == Reconcile(c, cache, g2, obj, status)
  {
  }

  /**
   * A store in which a successful run left the registration's objects: all
   * four exist and the ServiceAccount is linked to a Secret, unless it cannot
   * be read (then the repair is skipped again).
   */
  predicate Settled(c: Cluster, obj: MachineRegistration) {
    && ManagedKeys(obj) <= c.objects.Keys
    && (c.Fails(OpGet, ServiceAccountKey(obj))
        || (c.objects[ServiceAccountKey(obj)].ServiceAccount? && c.objects[ServiceAccountKey(obj)].secrets != []))
  }

  lemma {:induction false} ProvisionSettles(c: Cluster, obj: MachineRegistration, st: Status)
    requires c.Valid() && ProvisioningSucceeds(c, obj)
    ensures Settled(Provision(c, obj, st).cluster, obj)
  {
    var o := Provision(c, obj, st);
    var k := ServiceAccountKey(obj);
    if !c.Fails(OpGet, k) {
      var role := c.Create(RoleFor(obj));
      var account := EnsureServiceAccount(role.cluster, obj);
      if k in c.objects {
        assert ServiceAccountStepped(c.objects[k], o.cluster.objects[k], obj);
        assert c.objects[k].Id() == k;
      } else {
        assert account.cluster.objects[k] == ServiceAccountFor(obj);
      }
    }
  }

  /** On a settled store with no faults on the creates, provisioning changes nothing. */
  lemma {:induction false} ProvisionOnSettled(c: Cluster, obj: MachineRegistration, st: Status)
    requires c.Valid() && Settled(c, obj)
    requires !c.Fails(OpCreate, RoleKey(obj)) && !c.Fails(OpCreate, ServiceAccountKey(obj))
    requires !c.Fails(OpCreate, SecretKey(obj)) && !c.Fails(OpCreate, RoleBindingKey(obj))
    ensures Provision(c, obj, st) == Outcome(ReadyStatus(st, obj), None, c)
  {
    var role := c.Create(RoleFor(obj));
    assert role.cluster == c;
    var account := EnsureServiceAccount(c, obj);
    assert account.cluster == c;
    var secret := c.Create(SecretFor(obj));
    assert secret.cluster == c;
  }

  /** Past the server URL and the token, a run of OnChange is provisioning with the stamped status. */
  lemma ReconcileIsProvision(c: Cluster, cache: SettingCache, generated: Result<Token, string>,
                             obj: MachineRegistration, status: Status)
    requires c.Valid()
    requires GetRancherServerURL(cache).Success?
    requires status.registrationToken != "" || generated.Success?
    ensures Reconcile(c, cache, generated, obj, status)
         == Provision(c, obj, Stamped(status, GetRancherServerURL(cache).value,
                                      if status.registrationToken == "" then generated.value else status.registrationToken))
  {
  }

  /**
   * Re-running OnChange on the status it returned, with the same settings
   * and no outside change to the store, returns the same status and leaves
   * the store as it is.
   */
  lemma {:induction false} ReconcileIdempotent(c: Cluster, cache: SettingCache, g1: Result<Token, string>,
                                               g2: Result<Token, string>, obj: MachineRegistration, status: Status)
    requires c.Valid()
    requires GetRancherServerURL(cache).Success?
    requires status.registrationToken != "" || g1.Success?
    requires ProvisioningSucceeds(c, obj)
    ensures var o := Reconcile(c, cache, g1, obj, status);
      o.err.None? && Reconcile(o.cluster, cache, g2, obj, o.status) == o
  {
    var o := Reconcile(c, cache, g1, obj, status);
    var serverURL := GetRancherServerURL(cache).value;
    var token := if status.registrationToken == "" then g1.value else status.registrationToken;
    var st := Stamped(status, serverURL, token);
    ReconcileIsProvision(c, cache, g1, obj, status);
    assert o == Provision(c, obj, st);
    ProvisionSettles(c, obj, st);
    assert o.status == ReadyStatus(st, obj);
    assert o.status.registrationToken == token != "";
    assert Stamped(o.status, serverURL, token) == o.status;
    ReconcileIsProvision(o.cluster, cache, g2, obj, o.status);
    assert o.cluster.faults == c.faults;
    ProvisionOnSettled(o.cluster, obj, o.status);
    ReadyStatusIdempotent(st, obj);
  }

  /** Marking a ready status ready again changes nothing. */
  lemma ReadyStatusIdempotent(st: Status, obj: MachineRegistration)
    ensures ReadyStatus(ReadyStatus(st, obj), obj) == ReadyStatus(st, obj)
  {
    var once := ReadyStatus(st, obj);
    assert once.conditions[ReadyConditionType := Condition(ConditionTrue, ReadyReason, "")] == once.conditions;
  }

  /** `n` runs of OnChange in a row, stopping at the first error. */
  function ReconcileTimes(n: nat, c: Cluster, cache: SettingCache, generated: Result<Token, string>,
                          obj: MachineRegistration, status: Status): Outcome
    requires c.Valid()
    decreases n
  {
    var first := Reconcile(c, cache, generated, obj, status);
    if n <= 1 || first.err.Some? then first
    else ReconcileTimes(n - 1, first.cluster, cache, generated, obj, first.status)
  }

  /** After a first success, any number of further runs yields the same status and store. */
  lemma {:induction false} ReconcileRepeatedIsFirst(n: nat, c: Cluster, cache: SettingCache,
                                                    generated: Result<Token, string>,
                                                    obj: MachineRegistration, status: Status)
    requires c.Valid() && n >= 1
    requires GetRancherServerURL(cache).Success?
    requires status.registrationToken != "" || generated.Success?
    requires ProvisioningSucceeds(c, obj)
    ensures ReconcileTimes(n, c, cache, generated, obj, status) == Reconcile(c, cache, generated, obj, status)
    decreases n
  {
    var first := Reconcile(c, cache, generated, obj, status);
    if n > 1 {
      ReconcileIdempotent(c, cache, generated, generated, obj, status);
      ReconcileRepeatedIsFirst(n - 1, first.cluster, cache, generated, obj, first.status);
    }
  }

  /**
   * One run of OnChange as the controller sees it: the store at that moment
   * (outside changes between runs allowed), the settings, and what the token
   * generator would yield.
   */
  datatype Run = Run(cluster: Cluster, cache: SettingCache, generated: Result<Token, string>)

  predicate ValidRuns(runs: seq<Run>) {
    forall i | 0 <= i < |runs| :: runs[i].cluster.Valid()
  }

  /** The status after a sequence of runs, each starting from the status the previous one returned. */
  function StatusAfter(runs: seq<Run>, obj: MachineRegistration, status: Status): Status
    requires ValidRuns(runs)
    decreases |runs|
  {
    if runs == [] then status
    else
      var r := runs[0];
      StatusAfter(runs[1..], obj, Reconcile(r.cluster, r.cache, r.generated, obj, status).status)
  }

  /** Once a token is set, no sequence of runs, successful or not, replaces it. */
  lemma {:induction false} TokenStable(runs: seq<Run>, obj: MachineRegistration, status: Status)
    requires ValidRuns(runs)
    requires status.registrationToken != ""
    ensures StatusAfter(runs, obj, status).registrationToken == status.registrationToken
    decreases |runs|
  {
    if runs != [] {
      var r := runs[0];
      var next := Reconcile(r.cluster, r.cache, r.generated, obj, status).status;
      assert ValidRuns(runs[1..]) by {
        forall i | 0 <= i < |runs[1..]| ensures runs[1..][i].cluster.Valid() {
          assert runs[1..][i] == runs[i + 1];
        }
      }
      TokenStable(runs[1..], obj, next);
    }
  }

  // ---------------------------------------------------------------------------
  // OnRemove

  /** A second OnRemove after a successful one succeeds and changes nothing. */
  lemma TeardownIdempotent(c: Cluster, obj: MachineRegistration)
    requires c.Valid()
    requires Teardown(c, obj).err.None?
    ensures Teardown(Teardown(c, obj).cluster, obj) == Teardown(c, obj)
  {
    var w := Teardown(c, obj);
    assert w.cluster.objects - {RoleBindingKey(obj), RoleKey(obj), ServiceAccountKey(obj)} == w.cluster.objects;
  }

  /**
   * OnRemove after a successful OnChange removes the RoleBinding, Role and
   * ServiceAccount and leaves the token Secret behind.
   */
  lemma TeardownLeavesSecret(c: Cluster, cache: SettingCache, generated: Result<Token, string>,
                             obj: MachineRegistration, status: Status)
    requires c.Valid()
    requires GetRancherServerURL(cache).Success?
    requires status.registrationToken != "" || generated.Success?
    requires ProvisioningSucceeds(c, obj)
    requires !c.Fails(OpDelete, RoleBindingKey(obj)) && !c.Fails(OpDelete, RoleKey(obj))
    requires !c.Fails(OpDelete, ServiceAccountKey(obj))
    ensures var w := Teardown(Reconcile(c, cache, generated, obj, status).cluster, obj);
      w.err.None? && ManagedKeys(obj) * w.cluster.objects.Keys == {SecretKey(obj)}
  {
  }

  // ---------------------------------------------------------------------------
  // A worked example: a new registration "reg1" in namespace "ns"

  lemma NewRegistrationExample(token: Token)
    ensures var obj := MachineRegistration("ns", "reg1");
      var cache := SettingCache(map["server-url" := Setting("https://rancher.example")], None);
      var o := Reconcile(Cluster(map[], map[]), cache, Success(token), obj, Status("", "", None, map[]));
      && o.err.None?
      && o.status.registrationToken == token
      && o.status.registrationURL == "https://rancher.example" + "/elemental/registration/" + token
      && o.cluster.objects.Keys == {
           Key(RoleKind, "ns", "reg1"), Key(ServiceAccountKind, "ns", "reg1"),
           Key(SecretKind, "ns", "reg1-token"), Key(RoleBindingKind, "ns", "reg1")}
  {
    var obj := MachineRegistration("ns", "reg1");
    var cache := SettingCache(map["server-url" := Setting("https://rancher.example")], None);
    assert GetRancherServerURL(cache) == Success("https://rancher.example");
    assert SecretName(obj) == "reg1-token";
    var c := Cluster(map[], map[]);
    var o := Reconcile(c, cache, Success(token), obj, Status("", "", None, map[]));
    assert o.cluster.faults == map[];
    assert !RepairFails(c, obj);
    assert o.err.None?;
    assert c.objects.Keys == {};
    assert o.cluster.objects.Keys == ManagedKeys(obj);
    assert ManagedKeys(obj) == {
           Key(RoleKind, "ns", "reg1"), Key(ServiceAccountKind, "ns", "reg1"),
           Key(SecretKind, "ns", "reg1-token"), Key(RoleBindingKind, "ns", "reg1")};
  }

  /** The same registration with an empty server URL setting: an error, and no objects. */
  lemma EmptyServerURLExample(generated: Result<Token, string>)
    ensures var cache := SettingCache(map["server-url" := Setting("")], None);
      var status := Status("", "", None, map[]);
      Reconcile(Cluster(map[], map[]), cache, generated, MachineRegistration("ns", "reg1"), status)
        == Outcome(status, Some(ServerURLNotSet), Cluster(map[], map[]))
  {
  }
}
