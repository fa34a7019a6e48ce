/**
 * The slice of the Kubernetes API the registration controller talks to:
 * the four kinds of dependent object it manages, and an in-memory store
 * standing in for the typed CRUD clients. A store operation fails with
 * `AlreadyExists` on a Create of an existing identity, with `NotFound` on a
 * Get, Update or Delete of a missing one, and with an opaque `Other` error
 * wherever a fault has been injected for that operation on that identity.
 */
module Kube {
  import opened Wrappers

  datatype Kind = RoleKind | ServiceAccountKind | SecretKind | RoleBindingKind

  /** The identity of a namespaced object of one kind. */
  datatype Key = Key(kind: Kind, namespace: string, name: string)

  datatype Meta = Meta(
    name: string,
    namespace: string,
    labels: map<string, string>,
    annotations: map<string, string>)

  datatype ObjectReference = ObjectReference(kind: string, namespace: string, name: string)

  datatype PolicyRule = PolicyRule(apiGroups: seq<string>, verbs: seq<string>, resources: seq<string>)

  datatype Subject = Subject(kind: string, name: string, namespace: string)

  datatype RoleRef = RoleRef(kind: string, name: string, apiGroup: string)

  datatype Resource =
    | Role(meta: Meta, rules: seq<PolicyRule>)
    | ServiceAccount(meta: Meta, secrets: seq<ObjectReference>)
    | Secret(meta: Meta, secretType: string)
    | RoleBinding(meta: Meta, subjects: seq<Subject>, roleRef: RoleRef)
  {
    function Kind(): Kind {
      match this
      case Role(_, _) => RoleKind
      case ServiceAccount(_, _) => ServiceAccountKind
      case Secret(_, _) => SecretKind
      case RoleBinding(_, _, _) => RoleBindingKind
    }

    /** The identity the object is stored under. */
    function Id(): Key {
      Key(Kind(), meta.namespace, meta.name)
    }
  }

  /** The error classes the handler distinguishes; everything else is `Other`. */
  datatype ApiError = NotFound | AlreadyExists | Other(reason: string)

  datatype Op = OpCreate | OpGet | OpUpdate | OpDelete

  /** One store operation on one identity, the unit a fault is injected for. */
  datatype Call = Call(op: Op, key: Key)

  /** The outcome of a write: the error, if any, and the store afterwards. */
  datatype Write = Write(err: Option<ApiError>, cluster: Cluster)

  /** The store as a value: objects by identity, and the injected faults. */
  datatype Cluster = Cluster(objects: map<Key, Resource>, faults: map<Call, string>)
  {
    /** Every object is stored under its own identity. */
    predicate Valid() {
      forall k | k in objects :: objects[k].Id() == k
    }

    predicate Fails(op: Op, k: Key) {
      Call(op, k) in faults
    }

    function Create(r: Resource): (w: Write)
      ensures w.cluster.faults == faults
      ensures Valid() ==> w.cluster.Valid()
      ensures w.err.None? <==> !Fails(OpCreate, r.Id()) && r.Id() !in objects
      ensures w.err.None? ==> w.cluster.objects == objects[r.Id() := r]
      ensures w.err.Some? ==> w.cluster == this
      ensures w.err == Some(AlreadyExists) <==> !Fails(OpCreate, r.Id()) && r.Id() in objects
      ensures forall k | k in objects :: k in w.cluster.objects && w.cluster.objects[k] == objects[k]
      ensures forall k | k in w.cluster.objects && k !in objects :: w.cluster.objects[k] == r
    {
      var call := Call(OpCreate, r.Id());
      if call in faults then Write(Some(Other(faults[call])), this)
      else if r.Id() in objects then Write(Some(AlreadyExists), this)
      else Write(None, this.(objects := objects[r.Id() := r]))
    }

    function Get(k: Key): (r: Result<Resource, ApiError>)
      ensures r.Success? <==> !Fails(OpGet, k) && k in objects
      ensures r.Success? ==> r.value == objects[k]
      ensures Valid() && r.Success? ==> r.value.Id() == k
      ensures r == Failure(NotFound) <==> !Fails(OpGet, k) && k !in objects
      ensures Fails(OpGet, k) ==> r == Failure(Other(faults[Call(OpGet, k)]))
    {
      var call := Call(OpGet, k);
      if call in faults then Failure(Other(faults[call]))
      else if k in objects then Success(objects[k])
      else Failure(NotFound)
    }

    /** Replaces the stored object with the same identity. */
    function Update(r: Resource): (w: Write)
      ensures w.cluster.faults == faults
      ensures Valid() ==> w.cluster.Valid()
      ensures w.err.None? <==> !Fails(OpUpdate, r.Id()) && r.Id() in objects
      ensures w.err.None? ==> w.cluster.objects == objects[r.Id() := r]
      ensures w.err.Some? ==> w.cluster == this
      ensures w.cluster.objects.Keys == objects.Keys
      ensures forall k | k in objects && k != r.Id() :: w.cluster.objects[k] == objects[k]
    {
      var call := Call(OpUpdate, r.Id());
      if call in faults then Write(Some(Other(faults[call])), this)
      else if r.Id() in objects then Write(None, this.(objects := objects[r.Id() := r]))
      else Write(Some(NotFound), this)
    }

    function Delete(k: Key): (w: Write)
      ensures w.cluster.faults == faults
      ensures Valid() ==> w.cluster.Valid()
      ensures w.err.None? <==> !Fails(OpDelete, k) && k in objects
      ensures w.err == Some(NotFound) <==> !Fails(OpDelete, k) && k !in objects
      ensures !Fails(OpDelete, k) ==> w.cluster.objects == objects - {k}
      ensures Fails(OpDelete, k) ==> w.cluster == this
    {
      var call := Call(OpDelete, k);
      if call in faults then Write(Some(Other(faults[call])), this)
      else if k in objects then Write(None, this.(objects := objects - {k}))
      else Write(Some(NotFound), this)
    }
  }

  /** The CRUD client: a store whose object map the operations update in place. */
  class Client {
    var objects: map<Key, Resource>
    const faults: map<Call, string>

    function State(): Cluster
      reads this
    {
      Cluster(objects, faults)
    }

    predicate Valid()
      reads this
    {
      State().Valid()
    }

    constructor (initial: Cluster)
      requires initial.Valid()
      ensures Valid() && State() == initial
    {
      objects := initial.objects;
      faults := initial.faults;
    }

    method Create(r: Resource) returns (err: Option<ApiError>)
      requires Valid()
      modifies this
      ensures Valid()
      ensures Write(err, State()) == old(State()).Create(r)
    {
      var call := Call(OpCreate, r.Id());
      if call in faults {
        err := Some(Other(faults[call]));
      } else if r.Id() in objects {
        err := Some(AlreadyExists);
      } else {
        objects := objects[r.Id() := r];
        err := None;
      }
    }

    method Get(k: Key) returns (r: Result<Resource, ApiError>)
      ensures r == State().Get(k)
    {
      var call := Call(OpGet, k);
      if call in faults {
        r := Failure(Other(faults[call]));
      } else if k in objects {
        r := Success(objects[k]);
      } else {
        r := Failure(NotFound);
      }
    }

    method Update(r: Resource) returns (err: Option<ApiError>)
      requires Valid()
      modifies this
      ensures Valid()
      ensures Write(err, State()) == old(State()).Update(r)
    {
      var call := Call(OpUpdate, r.Id());
      if call in faults {
        err := Some(Other(faults[call]));
      } else if r.Id() in objects {
        objects := objects[r.Id() := r];
        err := None;
      } else {
        err := Some(NotFound);
      }
    }

    method Delete(k: Key) returns (err: Option<ApiError>)
      requires Valid()
      modifies this
      ensures Valid()
      ensures Write(err, State()) == old(State()).Delete(k)
    {
      var call := Call(OpDelete, k);
      if call in faults {
        err := Some(Other(faults[call]));
      } else if k in objects {
        objects := objects - {k};
        err := None;
      } else {
        err := Some(NotFound);
      }
    }
  }
}
