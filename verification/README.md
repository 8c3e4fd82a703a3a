# ServiceRole controller model

A Dafny model of the reconcile step of the `ServiceRole` operator. A
`ServiceRole` is a namespaced custom resource. For every role the controller
keeps a `ServiceAccount` named `<role>-sa` in the role's namespace. The account
carries the labels `app.kubernetes.io/managed-by: iam-operator` and
`platform.io/servicerole: <role>`. When the controller creates the account, it
also gives it a controller owner reference to the role.

The cluster is an immutable `State`. It maps object keys (namespace, name) to
stored roles (their uid) and to stored accounts. An account is its label map,
its owner references, and an opaque record of every other field. One reconcile
is the pure function `Controller.Reconcile`. It takes the state, the request key
and the injected API outcomes (`Controller.Injected`). It returns the new
state, the Create/Update calls issued, and either `ctrl.Result{}` or an error.

Modules:

- `Wrappers`: `Option` and `Result`.
- `Labels`: Go's map read (`Lookup`: a missing key reads as `""`), the label
  merge loop `MergeLoop`, and its reference definition `Merged`.
- `Cluster`: keys, roles, accounts, the store and the four API calls (role
  Get, account Get, Create, Update). Each call may be given an error to return.
  Otherwise it follows the store (NotFound, AlreadyExists).
- `Controller`: the constants, name derivation, desired account,
  `EnsureServiceAccount` and `Reconcile`.
- `Properties`: lemmas about whole passes: creation, label merge, errors,
  convergence, idempotence, and concrete runs (creation from an empty
  cluster, repair of a drifted label, relabelling of an account the role does
  not own).

Behaviour of the code worth knowing, which the model keeps as written:

- An existing account with the derived name is never checked for ownership.
  Labels are merged into it, its owner references stay as found, and the pass
  succeeds (servicerole_controller.go:110-130). There is no name-collision
  error (`Properties.ScenarioForeignAccountRelabelled`).
- A Create error is never special-cased. AlreadyExists from a concurrent
  creation is wrapped and returned like every other Create error.
- `SetupWithManager` registers only the `ServiceRole` watch. It declares no
  owned-`ServiceAccount` watch, so drift on an account is not noticed until
  the role itself is reconciled again.
- The controller compares `existing.Labels[key] != value`, and Go reads a
  missing key as `""`. So a missing managed key whose desired value is `""`
  (a role named `""`) counts as correct and is not added. Stored objects
  always have non-empty names, so the lemmas that use the "missing or
  different" wording require a non-empty role name. The controller's
  functions themselves model the comparison as written.

## Model

| member | source | states |
|---|---|---|
| `Labels.MergeLoop` | part-two/internal/controller/servicerole_controller.go:116-122 | The loop over the desired labels, in any duplicate-free order of desired keys. `updated` holds iff some visited key reads differently from its desired value. Visited keys end up with their desired value, and are present unless missing with desired value `""`. Unvisited keys keep their presence and value. With no update the labels are unchanged. |
| `Labels.Merged` | part-two/internal/controller/servicerole_controller.go:112-122 | The reference merge. No label is removed and no key outside the existing and desired labels appears. Every desired key reads as its desired value. Every desired key with a non-empty value is present with it. Labels outside the desired set keep their values. |
| `Labels.MergeLoopComputesMerged` | part-two/internal/controller/servicerole_controller.go:116-122 | For every complete iteration order of the desired map, the loop yields the reference merge. Its `updated` flag holds iff some desired key reads differently. |
| `Labels.MergeOrderIrrelevant` | part-two/internal/controller/servicerole_controller.go:117 | Go's map iteration order is unspecified. Any two complete orders give the same labels and the same `updated` flag. |
| `Labels.MergeIdempotent` | part-two/internal/controller/servicerole_controller.go:116-122 | Merging an already merged label map finds no difference and returns it unchanged. |
| `Labels.Lookup` | part-two/internal/controller/servicerole_controller.go:118 | Go's `existing.Labels[key]`: a present key reads as its value, and a non-empty read implies the key is present (a missing key reads as `""`). |
| `Controller.AccountName` | part-two/internal/controller/servicerole_controller.go:68 | The account name is the role name followed by exactly the three characters `-sa`. |
| `Controller.DesiredLabels` | part-two/internal/controller/servicerole_controller.go:85-88 | The desired labels have exactly the keys `app.kubernetes.io/managed-by` and `platform.io/servicerole`, mapped to `iam-operator` and the role name. |
| `Controller.ControllerRef` | part-two/internal/controller/servicerole_controller.go:93 | The reference SetControllerReference records: kind `ServiceRole`, the role's name and uid, with controller and block-owner-deletion set. |
| `Controller.DesiredAccount` | part-two/internal/controller/servicerole_controller.go:81-95 | The desired account carries exactly the desired labels, a single controller reference to the role, and no other field set. |
| `Controller.LabelsOf` | part-two/internal/controller/servicerole_controller.go:112-114 | A non-nil label map is read as stored. A nil one reads as empty: every key reads as `""`. |
| `Controller.EnsureServiceAccount` | part-two/internal/controller/servicerole_controller.go:78-133 | Roles are untouched. At most one write is issued, only at the given key, and no other account changes. A failed step leaves the state as it was. A SetControllerReference failure stops before any call. A non-NotFound Get error is wrapped. An absent account gets exactly one Create of the desired account, and every Create error (AlreadyExists included) is returned wrapped. An existing account gets an Update iff a managed label reads differently. The Update carries the relabelled account with every other field as found, and its error is returned wrapped. |
| `Controller.Reconcile` | part-two/internal/controller/servicerole_controller.go:54-76 | Roles are untouched. There is at most one write, always at `(namespace, name + "-sa")` of the request, and no other account changes. A failed pass leaves the state unchanged. A successful pass returns `ctrl.Result{}`. A role NotFound gives success with no writes. Any other role fetch error is returned as it is, with no writes. |
| `Properties.AccountNameRoundTrip` | part-two/internal/controller/servicerole_controller.go:68 | The account name is the role name followed by `-sa`, and stripping the suffix gives the role name back. |
| `Properties.RoleNameOfInverts` | part-two/internal/controller/servicerole_controller.go:68 | Stripping `-sa` succeeds exactly on derived names, and re-deriving gives back the name. |
| `Properties.AccountKeyInjective` | part-two/internal/controller/servicerole_controller.go:83-84 | Two requests whose derived account keys are equal are the same request: distinct roles never target one account. |
| `Properties.ReconcileCreatesAbsentAccount` | part-two/internal/controller/servicerole_controller.go:81-106 | With the role present and the account seen absent, exactly one Create is issued at `<role>-sa`. It carries exactly the two managed labels and one controller owner reference (kind, name, uid, controller, block-owner-deletion) to the role. It succeeds and stores that account if the key is free. An injected Create error, or AlreadyExists, is returned and the state is unchanged. |
| `Properties.ReconcileMergesExistingAccount` | part-two/internal/controller/servicerole_controller.go:110-130 | With the account present, only Updates are issued, and they keep owner references and other fields as found, whoever the owner is. The pass succeeds unless the Update fails. After success both managed keys read as desired, no label is removed, no foreign key is added, and foreign labels keep their values. |
| `Properties.UpdateIffMissingOrDifferent` | part-two/internal/controller/servicerole_controller.go:112-129 | For a non-empty role name, a write is issued iff a managed key is missing or holds another value. Otherwise the pass is a successful no-op. |
| `Properties.NilLabelsReadAsEmpty` | part-two/internal/controller/servicerole_controller.go:112-114 | An account with nil labels is read as having none. The Update carries exactly the managed labels (only managed-by when the role name is `""`). |
| `Properties.ReconcileReportsApiErrors` | part-two/internal/controller/servicerole_controller.go:93-127 | After a successful role fetch, each of these fails the pass with its wrapped cause: a SetControllerReference failure, a non-NotFound account Get error, a Create error, or an Update error on a stale account. A failed pass leaves the state unchanged. |
| `Properties.ReconcileConverges` | part-two/internal/controller/servicerole_controller.go:99-130 | A successful pass that saw the stored role leaves that role's account present, with no managed label reading differently. |
| `Properties.ConvergedIsFixedPoint` | part-two/internal/controller/servicerole_controller.go:110-130 | On a converged cluster, a pass with a faithful account read issues no write and leaves the state unchanged. It also succeeds whenever SetControllerReference does not fail and the role fetch is faithful or reports NotFound. |
| `Properties.ReconcileIdempotent` | part-two/internal/controller/servicerole_controller.go:99-130 | Take a successful first pass whose role fetch followed the store (an injected NotFound can report success without converging). A second pass over the unchanged cluster, with a faithful account read, issues no Create or Update and leaves the state as it is. |
| `Properties.ScenarioCreateFromEmpty` | part-two/internal/controller/servicerole_controller.go:81-106 | Role `team-a/billing` in an empty cluster yields exactly the account `team-a/billing-sa`, labelled and owned by the role, and success. |
| `Properties.ScenarioDriftRepair` | part-two/internal/controller/servicerole_controller.go:116-129 | A wrong `servicerole` label is restored by one Update, and the unmanaged `team: finance` label survives. |
| `Properties.ScenarioForeignAccountRelabelled` | part-two/internal/controller/servicerole_controller.go:110-130 | An unowned account with nil labels at the derived name receives one Update carrying exactly the two managed labels. It stays unowned, is stored with exactly those labels, and the pass succeeds. |

## Left out

- Properties.UpdateIffMissingOrDifferent: requires a non-empty role name. The controller compares `existing.Labels[key] != value` (servicerole_controller.go:118), and a missing key reads as `""`. So for a role named `""` a missing `platform.io/servicerole` key is not "different" and triggers no Update. Stored objects always have non-empty names. The unrestricted behaviour is stated by `Controller.EnsureServiceAccount` through `NeedsUpdate`.
- Logging and `context.Context`: side effects only. Cancellation shows up as an injected API error.
- The `Scheme`, and `SetControllerReference` itself: the owner reference is built directly from the role's identity. The call's failure is an injected error (`Injected.ownerRef`).
- `SetupWithManager` and the RBAC markers: framework registration. No watch, queue or requeue machinery is modelled.
- `part-two/api/v1alpha1/servicerole_types.go`: only the role's namespace, name and uid are used. `Status.ServiceAccountName` is never written by the controller, so status is not modelled.
- Garbage collection of the account when its role is deleted: the orchestrator does it, not this code. Only the owner reference that drives it is modelled.
- Parallel workers, informer-cache staleness, resource versions and optimistic concurrency: framework behaviour. The API outcome of each call is an injected value. Without one, the call follows the store.
- The wording of the wrapped error messages (`failed to create ServiceAccount: ...`): each wrapper is a distinct `ReconcileError` constructor that carries its cause.
