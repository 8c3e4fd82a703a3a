/**
 Properties of whole reconcile passes: the name derivation, what a pass does
 to an absent or an existing account, error reporting, convergence and
 idempotence, and concrete runs: creation from an empty cluster, repair of
 a drifted label, and relabelling of an account the role does not own.
 */
module Properties {
  import opened Wrappers
  import opened Labels
  import opened Cluster
  import opened Controller

  /** The role the controller fetches for `req` when the store holds it. */
  function RoleAt(s: State, req: Key): ServiceRole
    requires req in s.roles
  {
    ServiceRole(req.namespace, req.name, s.roles[req])
  }

  /** The cluster is at the controller's fixed point for `req`. */
  predicate Converged(s: State, req: Key)
  {
    req in s.roles ==>
      AccountKey(req) in s.accounts && !NeedsUpdate(s.accounts[AccountKey(req)], RoleAt(s, req))
  }

  // ---- name derivation ----

  /** The derived name is the role name followed by "-sa", and the role name can be read back. */
  lemma AccountNameRoundTrip(roleName: string)
    ensures AccountName(roleName) == roleName + "-sa"
    ensures RoleNameOf(AccountName(roleName)) == Some(roleName)
  {
  }

  /** Every name `RoleNameOf` accepts is the derived name of the role it returns. */
  lemma RoleNameOfInverts(accountName: string)
    ensures RoleNameOf(accountName).Some? ==> AccountName(RoleNameOf(accountName).value) == accountName
    ensures RoleNameOf(accountName).Some? <==> exists roleName :: AccountName(roleName) == accountName
  {
  }

  /** Distinct roles of one namespace never target the same account. */
  lemma AccountKeyInjective(a: Key, b: Key)
    requires AccountKey(a) == AccountKey(b)
    ensures a == b
  {
    AccountNameRoundTrip(a.name);
    AccountNameRoundTrip(b.name);
  }

  // ---- absent account ----

  /** An absent account is created once, labelled and owned exactly as the role demands. */
  lemma ReconcileCreatesAbsentAccount(s: State, req: Key, f: Injected)
    requires f.roleGet.None? && req in s.roles && f.ownerRef.None?
    requires SeesAbsent(s, AccountKey(req), f)
    ensures var created := ServiceAccount(
              Some(map["app.kubernetes.io/managed-by" := "iam-operator", "platform.io/servicerole" := req.name]),
              [OwnerRef("iam.craft-conf.com/v1alpha1", "ServiceRole", req.name, s.roles[req], true, true)],
              map[]);
            var r := Reconcile(s, req, f);
            && r.writes == [Create(Key(req.namespace, req.name + "-sa"), created)]
            && (f.create.None? && AccountKey(req) !in s.accounts ==>
                  r.outcome == Success(NoRequeue) && r.state.accounts == s.accounts[AccountKey(req) := created])
            && (f.create.Some? ==> r.outcome == Failure(CreateFailed(f.create.value)) && r.state == s)
            && (f.create.None? && AccountKey(req) in s.accounts ==>
                  r.outcome == Failure(CreateFailed(AlreadyExists)) && r.state == s)
  {
  }

  // ---- existing account ----

  /**
   On an existing account only labels change: both managed labels end up with
   their desired values, other labels keep theirs, none is removed, and the
   owner references and every other field stay as found, whoever owns it.
   */
  lemma ReconcileMergesExistingAccount(s: State, req: Key, f: Injected)
    requires f.roleGet.None? && req in s.roles && f.ownerRef.None?
    requires SeesPresent(s, AccountKey(req), f)
    ensures var sa := s.accounts[AccountKey(req)];
            var r := Reconcile(s, req, f);
            && (forall w | w in r.writes ::
                  && w.Update?
                  && w.account.ownerRefs == sa.ownerRefs
                  && w.account.rest == sa.rest)
            && (f.update.None? ==> r.outcome == Success(NoRequeue))
            && (f.update.Some? && r.writes != [] ==> r.outcome == Failure(UpdateFailed(f.update.value)) && r.state == s)
            && (r.outcome.Success? ==>
                  var after := r.state.accounts[AccountKey(req)];
                  var l := LabelsOf(after);
                  && after.ownerRefs == sa.ownerRefs
                  && after.rest == sa.rest
                  && Lookup(l, "app.kubernetes.io/managed-by") == "iam-operator"
                  && Lookup(l, "platform.io/servicerole") == req.name
                  && LabelsOf(sa).Keys <= l.Keys
                  && l.Keys <= LabelsOf(sa).Keys + {"app.kubernetes.io/managed-by", "platform.io/servicerole"}
                  && (forall k | k in LabelsOf(sa) && k != "app.kubernetes.io/managed-by" && k != "platform.io/servicerole"
                        :: l[k] == LabelsOf(sa)[k]))
  {
  }

  /**
   With a non-empty role name (every stored object has one), an Update is
   issued exactly when a managed key is missing or holds another value;
   otherwise the pass writes nothing and succeeds.
   */
  lemma UpdateIffMissingOrDifferent(s: State, req: Key, f: Injected)
    requires f.roleGet.None? && req in s.roles && f.ownerRef.None?
    requires SeesPresent(s, AccountKey(req), f)
    requires req.name != ""
    ensures var l := LabelsOf(s.accounts[AccountKey(req)]);
            var stale := || "app.kubernetes.io/managed-by" !in l
                         || l["app.kubernetes.io/managed-by"] != "iam-operator"
                         || "platform.io/servicerole" !in l
                         || l["platform.io/servicerole"] != req.name;
            var r := Reconcile(s, req, f);
            && (r.writes != [] <==> stale)
            && (!stale ==> r == Step(s, [], Success(NoRequeue)))
  {
  }

  /** A nil label map is read as empty: the Update carries exactly the managed labels. */
  lemma NilLabelsReadAsEmpty(s: State, req: Key, f: Injected)
    requires f.roleGet.None? && req in s.roles && f.ownerRef.None?
    requires SeesPresent(s, AccountKey(req), f)
    requires s.accounts[AccountKey(req)].labels.None?
    ensures var sa := s.accounts[AccountKey(req)];
            Reconcile(s, req, f).writes == [Update(AccountKey(req), sa.(labels := Some(
              if req.name == "" then map["app.kubernetes.io/managed-by" := "iam-operator"]
              else map["app.kubernetes.io/managed-by" := "iam-operator", "platform.io/servicerole" := req.name])))]
  {
    var role := RoleAt(s, req);
    var sa := s.accounts[AccountKey(req)];
    var m := Merged(map[], DesiredLabels(role));
    assert Lookup(LabelsOf(sa), ManagedByKey) != ManagedByValue;
    if req.name == "" {
      assert m == map[ManagedByKey := ManagedByValue];
    } else {
      assert m == DesiredLabels(role);
    }
  }

  // ---- errors ----

  /** Every API error after the role fetch makes the pass fail, and a failed pass changes nothing. */
  lemma ReconcileReportsApiErrors(s: State, req: Key, f: Injected)
    requires f.roleGet.None? && req in s.roles
    ensures var r := Reconcile(s, req, f);
            && (r.outcome.Failure? ==> r.state == s)
            && (f.ownerRef.Some? ==> r == Step(s, [], Failure(OwnerRefFailed(f.ownerRef.value))))
            && (f.ownerRef.None? && f.accountGet.Some? && f.accountGet.value != NotFound ==>
                  r == Step(s, [], Failure(AccountGetFailed(f.accountGet.value))))
            && (f.ownerRef.None? && SeesAbsent(s, AccountKey(req), f) && f.create.Some? ==>
                  r.outcome == Failure(CreateFailed(f.create.value)))
            && (f.ownerRef.None? && SeesPresent(s, AccountKey(req), f) && f.update.Some?
                && NeedsUpdate(s.accounts[AccountKey(req)], RoleAt(s, req)) ==>
                  r.outcome == Failure(UpdateFailed(f.update.value)))
  {
  }

  // ---- convergence and idempotence ----

  /** A successful pass that saw the stored role leaves the cluster converged for that role. */
  lemma ReconcileConverges(s: State, req: Key, f: Injected)
    requires f.roleGet.None?
    requires Reconcile(s, req, f).outcome.Success?
    ensures Converged(Reconcile(s, req, f).state, req)
  {
  }

  /** At the fixed point a pass issues no write and changes nothing, whatever else fails. */
  lemma ConvergedIsFixedPoint(s: State, req: Key, f: Injected)
    requires Converged(s, req)
    requires f.accountGet.None?
    ensures Reconcile(s, req, f).writes == []
    ensures Reconcile(s, req, f).state == s
    ensures f.ownerRef.None? && (f.roleGet.None? || f.roleGet == Some(NotFound))
            ==> Reconcile(s, req, f).outcome == Success(NoRequeue)
  {
  }

  /**
   Idempotence: after a successful pass, a second pass over the unchanged
   cluster issues no Create or Update and leaves the state as it is.
   */
  lemma ReconcileIdempotent(s: State, req: Key, f1: Injected, f2: Injected)
    requires f1.roleGet.None?
    requires Reconcile(s, req, f1).outcome.Success?
    requires f2.accountGet.None?
    ensures var s1 := Reconcile(s, req, f1).state;
            Reconcile(s1, req, f2).writes == [] && Reconcile(s1, req, f2).state == s1
  {
  }

  // ---- end-to-end scenarios ----

  lemma BillingAccountKey()
    ensures AccountKey(Key("team-a", "billing")) == Key("team-a", "billing-sa")
  {
  }

  /** Create from empty: role team-a/billing gets account billing-sa, labelled and owned. */
  lemma ScenarioCreateFromEmpty(uid: Uid)
    ensures var s := State(map[Key("team-a", "billing") := uid], map[]);
            var r := Reconcile(s, Key("team-a", "billing"), NoFaults);
            && r.outcome == Success(NoRequeue)
            && r.state.accounts == map[Key("team-a", "billing-sa") := ServiceAccount(
                 Some(map["app.kubernetes.io/managed-by" := "iam-operator", "platform.io/servicerole" := "billing"]),
                 [OwnerRef("iam.craft-conf.com/v1alpha1", "ServiceRole", "billing", uid, true, true)],
                 map[])]
  {
    var req := Key("team-a", "billing");
    var s := State(map[req := uid], map[]);
    BillingAccountKey();
    ReconcileCreatesAbsentAccount(s, req, NoFaults);
  }

  /** Label drift repair: a wrong servicerole label is restored in one Update; team: finance survives. */
  lemma ScenarioDriftRepair(uid: Uid, owners: seq<OwnerRef>)
    ensures var stale := ServiceAccount(
              Some(map["app.kubernetes.io/managed-by" := "iam-operator", "platform.io/servicerole" := "wrong", "team" := "finance"]),
              owners, map[]);
            var fixed := stale.(labels := Some(
              map["app.kubernetes.io/managed-by" := "iam-operator", "platform.io/servicerole" := "billing", "team" := "finance"]));
            var s := State(map[Key("team-a", "billing") := uid], map[Key("team-a", "billing-sa") := stale]);
            var r := Reconcile(s, Key("team-a", "billing"), NoFaults);
            && r.writes == [Update(Key("team-a", "billing-sa"), fixed)]
            && r.outcome == Success(NoRequeue)
            && r.state.accounts == map[Key("team-a", "billing-sa") := fixed]
  {
    var req := Key("team-a", "billing");
    BillingAccountKey();
    var stale := ServiceAccount(
      Some(map["app.kubernetes.io/managed-by" := "iam-operator", "platform.io/servicerole" := "wrong", "team" := "finance"]),
      owners, map[]);
    var role := ServiceRole("team-a", "billing", uid);
    assert Lookup(LabelsOf(stale), ServiceRoleKey) != role.name;
    assert Merged(LabelsOf(stale), DesiredLabels(role))
        == map["app.kubernetes.io/managed-by" := "iam-operator", "platform.io/servicerole" := "billing", "team" := "finance"];
  }

  /**
   An account of the derived name that the role does not own is relabelled
   and the pass succeeds; it stays unowned. No name-collision error exists.
   */
  lemma ScenarioForeignAccountRelabelled(uid: Uid)
    ensures var foreign := ServiceAccount(None, [], map[]);
            var s := State(map[Key("team-a", "billing") := uid], map[Key("team-a", "billing-sa") := foreign]);
            var r := Reconcile(s, Key("team-a", "billing"), NoFaults);
            && r.outcome == Success(NoRequeue)
            && r.writes == [Update(Key("team-a", "billing-sa"), ServiceAccount(
                 Some(map["app.kubernetes.io/managed-by" := "iam-operator", "platform.io/servicerole" := "billing"]),
                 [], map[]))]
            && r.state.accounts[Key("team-a", "billing-sa")].ownerRefs == []
            && r.state.accounts[Key("team-a", "billing-sa")].labels
               == Some(map["app.kubernetes.io/managed-by" := "iam-operator", "platform.io/servicerole" := "billing"])
  {
    var req := Key("team-a", "billing");
    var s := State(map[req := uid], map[Key("team-a", "billing-sa") := ServiceAccount(None, [], map[])]);
    BillingAccountKey();
    ReconcileMergesExistingAccount(s, req, NoFaults);
    NilLabelsReadAsEmpty(s, req, NoFaults);
  }
}
