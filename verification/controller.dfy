/**
 The ServiceRole reconciler: fetch the role, derive the account name, and
 ensure a labelled ServiceAccount exists (create it, merge labels into it, or
 leave it alone). One pass is a pure function from the cluster state, the
 request and the injected API outcomes to the new state, the writes issued
 and the result.
 */
module Controller {
  import opened Wrappers
  import opened Labels
  import opened Cluster

  const ManagedByKey: string := "app.kubernetes.io/managed-by"
  const ManagedByValue: string := "iam-operator"
  const ServiceRoleKey: string := "platform.io/servicerole"
  const AccountSuffix: string := "-sa"
  const OwnerApiVersion: string := "iam.craft-conf.com/v1alpha1"
  const OwnerKind: string := "ServiceRole"

  /**
   One iteration order of the desired label map. Go leaves map iteration
   order unspecified; `Labels.MergeOrderIrrelevant` shows the choice does
   not matter.
   */
  const LabelOrder: seq<string> := [ManagedByKey, ServiceRoleKey]

  /** A reconcile error: the role fetch error as returned, or an ensure step's error wrapped with what failed. */
  datatype ReconcileError =
    | RoleGetFailed(cause: ApiError)
    | OwnerRefFailed(reason: string)
    | AccountGetFailed(cause: ApiError)
    | CreateFailed(cause: ApiError)
    | UpdateFailed(cause: ApiError)

  /** A write call issued to the API, recorded whether or not it succeeded. */
  datatype Write = Create(key: Key, account: ServiceAccount) | Update(key: Key, account: ServiceAccount)

  /** What each API call of one pass returns instead of following the store, if anything. */
  datatype Injected = Injected(
    roleGet: Option<ApiError>, ownerRef: Option<string>,
    accountGet: Option<ApiError>, create: Option<ApiError>, update: Option<ApiError>)

  const NoFaults: Injected := Injected(None, None, None, None, None)

  /** `ctrl.Result`: the requeue request handed back to the work queue. */
  datatype CtrlResult = CtrlResult(requeue: bool, requeueAfter: nat)

  const NoRequeue: CtrlResult := CtrlResult(false, 0)

  /** The outcome of the ensure step. */
  datatype Pass = Pass(state: State, writes: seq<Write>, err: Option<ReconcileError>)

  /** The outcome of one reconcile. */
  datatype Step = Step(state: State, writes: seq<Write>, outcome: Result<CtrlResult, ReconcileError>)

  function AccountName(roleName: string): (n: string)
    ensures |n| == |roleName| + 3
    ensures n[..|roleName|] == roleName
    ensures n[|roleName|..] == "-sa"
  {
    roleName + AccountSuffix
  }

  /** Inverse of `AccountName`: the role an account name was derived from, if any. */
  function RoleNameOf(accountName: string): Option<string>
  {
    if |accountName| >= |AccountSuffix| && accountName[|accountName| - |AccountSuffix|..] == AccountSuffix
    then Some(accountName[..|accountName| - |AccountSuffix|])
    else None
  }

  /** Where the account for the role named by `req` lives. */
  function AccountKey(req: Key): Key
  {
    Key(req.namespace, AccountName(req.name))
  }

  function DesiredLabels(role: ServiceRole): (d: LabelMap)
    ensures d.Keys == {"app.kubernetes.io/managed-by", "platform.io/servicerole"}
    ensures d["app.kubernetes.io/managed-by"] == "iam-operator"
    ensures d["platform.io/servicerole"] == role.name
  {
    map[ManagedByKey := ManagedByValue, ServiceRoleKey := role.name]
  }

  /** The controller reference `SetControllerReference` records. */
  function ControllerRef(role: ServiceRole): (o: OwnerRef)
    ensures o.controller && o.blockOwnerDeletion
    ensures o.kind == "ServiceRole" && o.name == role.name && o.uid == role.uid
  {
    OwnerRef(OwnerApiVersion, OwnerKind, role.name, role.uid, true, true)
  }

  /** The account the controller would create. */
  function DesiredAccount(role: ServiceRole): (sa: ServiceAccount)
    // labelled with exactly the managed labels, owned by the role alone
    ensures sa.labels == Some(DesiredLabels(role))
    ensures sa.ownerRefs == [ControllerRef(role)]
    ensures sa.rest == map[]
  {
    ServiceAccount(Some(DesiredLabels(role)), [ControllerRef(role)], map[])
  }

  /** A stored account's labels, nil read as empty. */
  function LabelsOf(sa: ServiceAccount): (l: LabelMap)
    ensures sa.labels.Some? ==> l == sa.labels.value
    ensures sa.labels.None? ==> forall k :: Lookup(l, k) == ""
  {
    if sa.labels.Some? then sa.labels.value else map[]
  }

  /** Go's test: some managed key reads differently from its desired value. */
  predicate NeedsUpdate(sa: ServiceAccount, role: ServiceRole)
  {
    exists k | k in DesiredLabels(role) :: Lookup(LabelsOf(sa), k) != DesiredLabels(role)[k]
  }

  /** `sa` with the managed labels merged in and every other field as found. */
  function Relabelled(sa: ServiceAccount, role: ServiceRole): ServiceAccount
  {
    sa.(labels := Some(Merged(LabelsOf(sa), DesiredLabels(role))))
  }

  /** The account Get reports NotFound. */
  predicate SeesAbsent(s: State, key: Key, f: Injected)
  {
    f.accountGet == Some(NotFound) || (f.accountGet.None? && key !in s.accounts)
  }

  /** The account Get returns the stored account. */
  predicate SeesPresent(s: State, key: Key, f: Injected)
  {
    f.accountGet.None? && key in s.accounts
  }

  lemma LabelOrderEnumerates(role: ServiceRole)
    ensures Enumerates(DesiredLabels(role), LabelOrder)
  {
  }

  function EnsureServiceAccount(s: State, role: ServiceRole, name: string, f: Injected): (p: Pass)
    // the ensure step never touches roles, issues at most one write, and only
    // at the derived key
    ensures p.state.roles == s.roles
    ensures |p.writes| <= 1
    ensures forall w | w in p.writes :: w.key == Key(role.namespace, name)
    ensures p.state.accounts - {Key(role.namespace, name)} == s.accounts - {Key(role.namespace, name)}
    // a failed step leaves the state as it was; a changed state means one successful write
    ensures p.err.Some? ==> p.state == s
    ensures p.state != s ==> p.err.None? && |p.writes| == 1
    // SetControllerReference failing stops the step before any API call
    ensures f.ownerRef.Some? ==> p == Pass(s, [], Some(OwnerRefFailed(f.ownerRef.value)))
    // a Get error other than NotFound is wrapped and returned
    ensures f.ownerRef.None? && f.accountGet.Some? && f.accountGet.value != NotFound
            ==> p == Pass(s, [], Some(AccountGetFailed(f.accountGet.value)))
    // absent: exactly one Create of the desired account; every Create error is returned
    ensures f.ownerRef.None? && SeesAbsent(s, Key(role.namespace, name), f) ==>
              && p.writes == [Create(Key(role.namespace, name), DesiredAccount(role))]
              && (f.create.Some? ==> p.err == Some(CreateFailed(f.create.value)))
              && (f.create.None? && Key(role.namespace, name) in s.accounts ==> p.err == Some(CreateFailed(AlreadyExists)))
              && (f.create.None? && Key(role.namespace, name) !in s.accounts ==>
                    p == Pass(s.(accounts := s.accounts[Key(role.namespace, name) := DesiredAccount(role)]), p.writes, None))
    // present: Update issued iff a managed label reads differently, carrying only relabelled labels
    ensures f.ownerRef.None? && SeesPresent(s, Key(role.namespace, name), f) ==>
              var key := Key(role.namespace, name);
              var sa := s.accounts[key];
              && (p.writes != [] <==> NeedsUpdate(sa, role))
              && (!NeedsUpdate(sa, role) ==> p == Pass(s, [], None))
              && (NeedsUpdate(sa, role) ==>
                    && p.writes == [Update(key, Relabelled(sa, role))]
                    && (f.update.Some? ==> p.err == Some(UpdateFailed(f.update.value)))
                    && (f.update.None? ==> p == Pass(s.(accounts := s.accounts[key := Relabelled(sa, role)]), p.writes, None)))
  {
    var key := Key(role.namespace, name);
    var desired := DesiredAccount(role);
    if f.ownerRef.Some? then Pass(s, [], Some(OwnerRefFailed(f.ownerRef.value)))
    else match GetAccount(s, key, f.accountGet)
      case Failure(NotFound) =>
        (match CreateAccount(s, key, desired, f.create)
         case Failure(e) => Pass(s, [Create(key, desired)], Some(CreateFailed(e)))
         case Success(s') => Pass(s', [Create(key, desired)], None))
      case Failure(e) => Pass(s, [], Some(AccountGetFailed(e)))
      case Success(existing) =>
        LabelOrderEnumerates(role);
        var current := LabelsOf(existing);
        var m := MergeLoop(current, DesiredLabels(role), LabelOrder);
        MergeLoopComputesMerged(current, DesiredLabels(role), LabelOrder);
        if !m.updated then Pass(s, [], None)
        else
          var updated := existing.(labels := Some(m.labels));
          match UpdateAccount(s, key, updated, f.update)
          case Failure(e) => Pass(s, [Update(key, updated)], Some(UpdateFailed(e)))
          case Success(s') => Pass(s', [Update(key, updated)], None)
  }

  function Reconcile(s: State, req: Key, f: Injected): (r: Step)
    ensures r.state.roles == s.roles
    ensures |r.writes| <= 1
    ensures forall w | w in r.writes :: w.key == AccountKey(req)
    ensures r.state.accounts - {AccountKey(req)} == s.accounts - {AccountKey(req)}
    ensures r.outcome.Failure? ==> r.state == s
    ensures r.outcome.Success? ==> r.outcome.value == NoRequeue
    ensures r.state != s ==> r.outcome.Success? && |r.writes| == 1
    // role gone: success, no requeue, no writes
    ensures f.roleGet == Some(NotFound) || (f.roleGet.None? && req !in s.roles)
            ==> r == Step(s, [], Success(NoRequeue))
    // any other role fetch error is returned as it is, with no writes
    ensures f.roleGet.Some? && f.roleGet.value != NotFound
            ==> r == Step(s, [], Failure(RoleGetFailed(f.roleGet.value)))
  {
    match GetRole(s, req, f.roleGet)
    case Failure(NotFound) => Step(s, [], Success(NoRequeue))
    case Failure(e) => Step(s, [], Failure(RoleGetFailed(e)))
    case Success(role) =>
      var name := AccountName(role.name);
      var p := EnsureServiceAccount(s, role, name, f);
      if p.err.Some? then Step(p.state, p.writes, Failure(p.err.value))
      else Step(p.state, p.writes, Success(NoRequeue))
  }
}
