/**
 The slice of cluster state the controller touches, and the API calls it
 makes against it. Each call takes an optional injected error standing for
 whatever the real API server or the informer cache may return instead
 (throttling, permission denied, a stale NotFound from the cache, an
 optimistic-concurrency conflict); with none injected the call follows the store.
 */
module Cluster {
  import opened Wrappers
  import opened Labels

  /** An object key: namespace and name. */
  datatype Key = Key(namespace: string, name: string)

  type Uid = string

  /** The identity of a ServiceRole, the only part of it the controller reads. */
  datatype ServiceRole = ServiceRole(namespace: string, name: string, uid: Uid)

  datatype OwnerRef = OwnerRef(
    apiVersion: string, kind: string, name: string, uid: Uid,
    controller: bool, blockOwnerDeletion: bool)

  /**
   A stored ServiceAccount. `labels == None` is a nil label map; `rest`
   stands for every other field of the object, which the controller never
   reads.
   */
  datatype ServiceAccount = ServiceAccount(
    labels: Option<LabelMap>, ownerRefs: seq<OwnerRef>, rest: map<string, string>)

  /** Stored ServiceRoles (by key, with their uid) and ServiceAccounts. */
  datatype State = State(roles: map<Key, Uid>, accounts: map<Key, ServiceAccount>)

  datatype ApiError = NotFound | AlreadyExists | Conflict | Forbidden | Other(reason: string)

  function GetRole(s: State, key: Key, injected: Option<ApiError>): Result<ServiceRole, ApiError>
  {
    if injected.Some? then Failure(injected.value)
    else if key in s.roles then Success(ServiceRole(key.namespace, key.name, s.roles[key]))
    else Failure(NotFound)
  }

  function GetAccount(s: State, key: Key, injected: Option<ApiError>): Result<ServiceAccount, ApiError>
  {
    if injected.Some? then Failure(injected.value)
    else if key in s.accounts then Success(s.accounts[key])
    else Failure(NotFound)
  }

  function CreateAccount(s: State, key: Key, sa: ServiceAccount, injected: Option<ApiError>): Result<State, ApiError>
  {
    if injected.Some? then Failure(injected.value)
    else if key in s.accounts then Failure(AlreadyExists)
    else Success(s.(accounts := s.accounts[key := sa]))
  }

  function UpdateAccount(s: State, key: Key, sa: ServiceAccount, injected: Option<ApiError>): Result<State, ApiError>
  {
    if injected.Some? then Failure(injected.value)
    else if key !in s.accounts then Failure(NotFound)
    else Success(s.(accounts := s.accounts[key := sa]))
  }
}
