# Verification of the kubeconfig operator

A Dafny model of the operator that turns `Kubeconfig` resources into signed and bound kubeconfig files, and
proofs about it. The operator is treated as what it is, a distributed protocol: two reconcilers share the API
server with a person who approves, the signer, garbage collection and everybody else, every API call is a step of
its own that may fail or lose its reply, and a worker may crash between any two calls.

`dafny verify dfyconfig.toml` checks everything.

## How it is built

| file | what it holds |
|---|---|
| `Wrappers.dfy`, `Credentials.dfy`, `Objects.dfy` | shared datatypes: bytes, key pairs, requests, certificates, the API objects |
| `Conditions.dfy` | condition lists, updated in place, and their meaning as maps and as approval flags |
| `Document.dfy` | the kubeconfig document, its printer and parser, and the cluster endpoint lookup |
| `Acceptance.dfy` | what the API server accepts of the objects the operator creates |
| `Resources.dfy` | what the protocol steps write, with `createKubeconfig` |
| `Admission.dfy` | the defaulting and validating webhooks and admission histories |
| `Protocol.dfy` | the state machine of one kubeconfig: API server, both workers, everybody else |
| `Safety.dfy` | the inductive invariant over every program point and the safety results |
| `Approval.dfy` | approval writes of a run: at most once, rightly, and where a finished kubeconfig comes from |
| `Drive.dfy` | one whole run of a reconciler as a function of a script of interference and failures |
| `WholeRun.dfy` | a failure-free run as one update, idempotence, one status write per run |
| `Convergence.dfy` | when the failure-free schedule ends, and from which starts any run can |
| `Progress.dfy` | the rank, and convergence amid noise |
| `StaleCertificate.dfy` | when the certificate in the secret may belong to an earlier key |
| `Keys.dfy` | which key pairs are in use, and that they were generated on the way |
| `Calls.dfy` | all objects in one API server by name, the calls of both reconcilers as requests and replies, and what a call can touch |
| `Projection.dfy` | the world of one kubeconfig inside that store; a call under its computed name is a protocol step on it |
| `FleetRuns.dfy` | runs of any number of kubeconfigs, and the results lifted to them |
| `Reconciler.dfy` | both `Reconcile` methods in their imperative form, the longer one cut into seven methods, proved equal to whole runs of the state machine |
| `SpecEdits.dfy` | the protocol while the spec is edited: the invariant, and by which spec a run finishes |
| `EditedOutcomes.dfy`, `EditedApproval.dfy` | under edits: whom the certificate names, whose the binding is, that the end is final, where the approval comes from |
| `FormerSpec.dfy` | the protocol between edits, its end when edits stop, and the edits that end with the former user's certificate or the former role |

A protocol state is a `System`; `Apply` performs one action and `Run` a sequence of them, so a statement about
`Run(s0, actions)` for every `Initial(s0)` and every `actions` is a statement about every reachable state of every
interleaving. An action that is not enabled changes nothing.

### What is assumed of the surroundings

- A read sees the current store. The source switches the cache off for Kubeconfig objects only (main.go:80), so for
  secrets and CSRs this is an assumption. There is one worker per kubeconfig, and a call that is not answered before
  a crash has either had its effect by then or never has one.
- Updates with a stale resource version fail. The approval subresource takes the conditions of the update; the
  status subresource refuses to add or remove Approved and Denied.
- Nobody else creates a CSR under the operator's name, or edits or deletes the secret or the binding. While their
  names are free, anybody may create a secret and a binding with any content. CSRs may be deleted, edited in their
  metadata, approved while pending, denied at any time, failed before a certificate is issued, and signed when
  approved and neither denied nor failed. Conditions are never removed.
- The secret and the binding may also exist with any content before the operator starts; the CSR may not. The status
  starts with anything that is neither finished nor in phase Done.
- A secret that was stored without data is read with a nil map, and writing an entry panics. A panic ends the run; it
  stops the process too, which is the crash of the other workers, possible at any time. An update of the data of an
  immutable secret is refused. A secret returned by a create has its StringData entries in Data, so the operator's own
  secrets have a map.
- A create under a free name is refused if a label is no label value (at most 63 letters, digits, `-`, `_` and `.`,
  with a letter or digit at both ends); the operator labels the secret, the CSR and the binding with the name of the
  kubeconfig and the username (controllers/utils.go:48-53). A cluster role binding is refused unless its subject has a
  name and it refers to a cluster role; an empty group of the role reference is defaulted. Nothing else is refused: the
  operator's namespace exists, and no quota or admission plugin stands in the way.
- Kubeconfigs are not deleted. The spec is frozen while the protocol runs, except in the modules on edits
  (`SpecEdits` to `FormerSpec`), where the webhooks let it change at any time, and in the admission histories.
- A key pair is a fresh number, a request names its key pair, a certificate names its request, and base64 (section
  4 of RFC 4648) is injective. YAML text carries the entry lists of a document without loss.

### Where the code and its documentation disagree

- api/v1alpha1/kubeconfig_types.go:36-39 calls `automaticApproval` immutable, enforced by the webhook. It is not:
  `Admission.AutoApprovalAndUsernameAreMutable`.

### Statements that had to be made exact

- The binding: one that is found is taken as it is, so it names the user and grants the role of the spec exactly when
  nobody put another one under its name while the name was free (`Safety.FinishedHasBinding`); any other binding is
  adopted by some run that finishes (`Convergence.ForeignBindingIsAdopted`). In a fleet the first kubeconfig of a
  username brings the role for all of them (`FleetRuns.FinishedHasBindingInFleet`).
- The secret's certificate may belong to an earlier key. Over all runs, a reachable state can lead there exactly when
  it is so already, or the kubeconfig is not terminal and there is no secret yet (then anybody may put one with any
  certificate), a CSR can be made, or a key can be generated beside a certificate that is there
  (`StaleCertificate.CanTurnStaleExactlyWhen`). If nobody brings certificates of his own, it takes the deletion of a
  CSR (`StaleCertificate.NoDeletionNoStaleCertificate`, `StaleCertificate.StaleNeedsDeletion`).
- Under edits of the spec: the certificate of a finished kubeconfig names the user of the spec if and only if the
  username still is the one its key pair was generated for (`EditedOutcomes.NamesUserExactlyWhen`); an edit before the
  approval ends with the certificate of the former user (`FormerSpec.CertificateMayNameFormerUser`). The binding grants
  the role of the spec if and only if its maker had that role (`EditedOutcomes.FinishesWithRoleExactlyWhen`); an edit
  between binding and status ends with the former role (`FormerSpec.BindingMayGrantFormerRole`).
- Convergence: the schedule ends in a terminal condition if and only if a condition that can be read off the state
  before holds (`Convergence.SettlesExactlyWhen`). Some run finishes if and only if the algorithm is known, the secret
  is absent or takes keys, both names are label values, and the binding is there, accepted, or put by somebody else
  (`Convergence.SomeRunFinishesExactlyWhen`). So a secret stored without data blocks every run
  (`Convergence.SecretWithoutDataBlocks`), and so does a mail address as a username
  (`Convergence.MailAddressNeverFinishes`).
- Idempotence: a second run changes nothing, except that a secret which takes no keys, or a name that is no label value
  beside somebody else's secret, makes every run generate another key pair (`WholeRun.ReconcileIsIdempotent`).
- Defaulting is stable under every later cluster-info except when the first one published an empty server name
  (`Admission.DefaultIsStable`, with such a cluster-info in `Admission.EmptyServerIsDefaultedAgain`).

## Model

| member | source | states |
|---|---|---|
| Safety.KeyMatchesRequest | controllers/kubeconfig_controller.go:139-179 | in every reachable state an existing CSR carries the request of the stored secret, the stored key pairs with it, it asks for the user, the algorithm and the subject fields of the spec, and a certificate in the CSR was signed for that request |
| Safety.NewCsrBears | controllers/resources.go:83-118 | a CSR is created by the reconciler only, undecided, with the request it was given, owned by its kubeconfig, and annotated "true" exactly under automatic approval |
| Safety.KnownAlgorithms | controllers/utils.go:126-135 | exactly ten algorithms are known, and each has the key label of its family |
| Safety.CsrHasPemLabels | controllers/utils.go:97-160 | the request in a CSR is a PEM block labelled CERTIFICATE REQUEST, and the stored key bears the label of the algorithm in the spec |
| Safety.FinishedIsSound | controllers/kubeconfig_controller.go:233-293 | persisted KubeconfigFinished=True means: status and secret hold the same kubeconfig, and following its references gives the server of the spec, a cluster CA that was published in the course of the run, the secret's key, and a certificate signed for that key, for the user, the algorithm and the subject fields of the spec, although CSRs may have been deleted and keys regenerated before |
| Keys.FinishedKeyIsFresh | controllers/kubeconfig_controller.go:145-163 | the key of a finished kubeconfig was generated in this run: none that was in the secret at the start or was put there by somebody else |
| Safety.FinishedHasBinding | controllers/kubeconfig_controller.go:267-284 | at that point the binding exists; it names the user, and it grants the role of the spec, name, kind and group, if and only if nobody put another binding under its name while the name was free, at the start or at any time before the operator's create; if nobody did, the API server accepts the operator's |
| Safety.StatusIsCoherent | controllers/kubeconfig_controller.go:200-293 | the persisted phase and conditions never contradict each other: Done iff finished, finished only after approval and a complete secret, failed only after a refusal |
| Safety.StatusRefersToOwnObjects | controllers/kubeconfig_controller.go:123-132 | references in the status are to the derived secret and CSR, and phase Awaiting Approval comes with CSRCreated=True and a reference to the CSR |
| Safety.AwaitingMeansCsrWasCreated | controllers/kubeconfig_controller.go:171-192 | phase Awaiting Approval is persisted only in runs in which a CSR was created |
| Safety.TerminalIsAbsorbing | controllers/utils.go:166-174 | after True or False nothing changes status, secret or an existing binding, no CSR appears, and operator steps, including those of an approver with an old copy, change nothing at all |
| Safety.DecidedCsrIsLeftAlone | controllers/csr_controller.go:87-99 | an approver that read the CSR while it was pending cannot write it once it is decided, whatever call it is about to make |
| Safety.RunKeepsInv | controllers/kubeconfig_controller.go:59-297 | the invariant, which has a clause for every program point of the reconciler and of the approver, is kept by every sequence of steps of all parties |
| Approval.OperatorApprovesOnceAndRightly | controllers/csr_controller.go:82-136 | for any CSR and any run with retries and lost replies, an operator approval hits a CSR that is at that moment owned by a Kubeconfig of this API version, annotated with the value "true", pending and parseable, and each CSR object gets at most one approval write |
| Approval.OperatorDecidesOnlyPending | controllers/csr_controller.go:110-121 | an operator step changes the conditions of a CSR only from pending to exactly approved, or to exactly failed if it does not parse |
| Approval.FinishedWasApproved | controllers/kubeconfig_controller.go:220-238 | a run that finishes contains a step that approved a CSR with exactly the final request, annotated if the operator did it |
| Approval.NoApprovalNoKubeconfig | controllers/resources.go:93-96 | with automatic approval off, no annotation edited in and no human approval, no run reaches KubeconfigFinished=True |
| Convergence.SettlesExactlyWhen | controllers/kubeconfig_controller.go:59-297 | from every reachable state the failure-free schedule ends terminal if and only if it was so already, the CSR was refused, or all of this: a CSR exists or can be made (known algorithm, secret absent or taking keys, names that are label values), somebody approves, the CA is published, and the binding exists or is accepted; False and True exactly in the second and third case |
| Convergence.AlwaysFinishes | controllers/kubeconfig_controller.go:59-297 | if a CSR can be made and the binding exists or is accepted, the CA is published and a person approves, the schedule always ends terminal |
| Progress.FinishesAmidNoise | controllers/kubeconfig_controller.go:59-297 | from every reachable state in which a CSR can be made the same holds when arbitrary steps of everybody, failures and crashes included, come between the good ones, as long as the CSR is not deleted |
| Progress.FinishesByItself | controllers/csr_controller.go:68-136 | the CSR reconciler takes the place of the person, amid the same noise, whenever it finds the CSR owned by a Kubeconfig and annotated |
| Progress.AutomaticApprovalAsks | controllers/resources.go:91-96 | with automatic approval the CSR is owned and annotated in every state, as long as nobody edits that out of it |
| Progress.RankNeverRises | controllers/kubeconfig_controller.go:200-293 | no step except the deletion of the CSR leads back: no CSR, pending, approved, answered, terminal |
| Progress.EachPartyMakesProgress | controllers/kubeconfig_controller.go:139-293 | each party lowers the rank when it is its turn: the reconciler exactly if it can make a CSR, or answer the decision on it (refused, or CA and binding can be had), a person, the CSR reconciler exactly if the CSR is owned and annotated, and the signer |
| Progress.CsrRunDecides | controllers/csr_controller.go:82-136 | a failure-free run on any CSR decides it if and only if it is pending, owned and annotated "true"; it approves it if the request is a PEM block of the right label, marks it failed if not, and changes nothing else of it |
| Convergence.NeverFinishesWithoutIssue | controllers/kubeconfig_controller.go:144-179 | with an unknown signature algorithm, a secret in the way that has no data map or is immutable, or a name that is no label value, no run ever creates a CSR or reaches a terminal condition |
| Convergence.SecretWithoutDataBlocks | controllers/kubeconfig_controller.go:160 | at a start with a secret stored without data every run of the reconciler generates a key pair and panics, and nothing ever finishes |
| Convergence.MailAddressNeverFinishes | controllers/utils.go:48-53 | in particular for every username that is a mail address |
| Convergence.LongNameNeverFinishes | controllers/utils.go:48-53 | and for every kubeconfig or user whose name has more than 63 characters |
| Convergence.SomeRunFinishesExactlyWhen | controllers/kubeconfig_controller.go:59-297 | from a start some run reaches KubeconfigFinished=True if and only if the algorithm is known, the secret is absent or takes keys, both names are label values and, unless somebody else may put one, the binding exists or is accepted |
| Convergence.NamespacedRoleNeverFinishes | controllers/resources.go:43-60 | with a reference to a role of a namespace, and no binding by somebody else, no run reaches KubeconfigFinished=True |
| Convergence.ForeignBindingIsAdopted | controllers/kubeconfig_controller.go:267-284 | from every start at which a CSR can be made: whatever binding is found, or put under the free name, some run finishes with exactly that binding |
| WholeRun.ReconcileIsIdempotent | controllers/kubeconfig_controller.go:59-297 | from every reachable state a second failure-free run changes nothing but resource versions, so it makes no second key pair, if and only if it is not stuck before somebody else's secret that takes no keys or whose CSR is refused |
| WholeRun.ReconcileIsOneUpdate | controllers/kubeconfig_controller.go:59-297 | the calls of a failure-free run add up to one update of the store that depends on the store alone |
| WholeRun.RunPersists | controllers/kubeconfig_controller.go:113-293 | from every reachable state a failure-free run leaves in the status exactly the conditions, references and phase that belong to the step it got to |
| WholeRun.StatusIsCommittedLast | controllers/kubeconfig_controller.go:113-121 | during a whole run, with any interference and failures, the status is the old one before every step including the last, so it is written at most once and last |
| StaleCertificate.SecretMayHoldStaleCertificate | controllers/kubeconfig_controller.go:141-168 | from every state that is not terminal and where a CSR can be made there is a run, by way of CSR deletions, after which the secret holds a certificate for another key |
| StaleCertificate.NoDeletionNoStaleCertificate | controllers/kubeconfig_controller.go:139-179 | from a start without a certificate, and if nobody puts one into a secret: as long as the CSR is not deleted, a certificate in the secret is the one for the secret's key, finished or not |
| StaleCertificate.CanTurnStaleExactlyWhen | controllers/kubeconfig_controller.go:139-246 | over all runs, a reachable state can lead to a stale certificate if and only if it has one, or it is not terminal and there is no secret, a CSR can be made, or a key pair can be written beside a certificate that is there |
| StaleCertificate.StaleNeedsDeletion | controllers/kubeconfig_controller.go:139-246 | from a start without a certificate, and over runs in which nobody puts one into a secret, some run leads to a stale one if and only if CSRs may be deleted and a CSR can be made |
| Drive.DriveIsRun | controllers/kubeconfig_controller.go:59-297 | a whole reconciler run under any script of interference is a run of the protocol and ends with the worker idle |
| Drive.DriveApproverIsRun | controllers/csr_controller.go:68-136 | the same for the CSR reconciler |
| Reconciler.ApiServer.Reconcile | controllers/kubeconfig_controller.go:59-79 | the imperative body leaves exactly the store, the other worker and the unused script that the state machine run gives, for every script; it keeps the invariant, and a finished kubeconfig gives access |
| Reconciler.ApiServer.ReconcileSecret | controllers/kubeconfig_controller.go:101-137 | the same from reading the secret on |
| Reconciler.ApiServer.ReconcileRequest | controllers/kubeconfig_controller.go:139-198 | the same from reading the CSR on |
| Reconciler.ApiServer.FollowRequest | controllers/kubeconfig_controller.go:200-240 | refuse, wait or go on by the conditions of the CSR, equal to the run of the state machine from the decision it takes on them |
| Reconciler.ApiServer.IssueRequest | controllers/kubeconfig_controller.go:160-194 | secret, then CSR, then status, equal to the run of the state machine from the first of these writes |
| Reconciler.ApiServer.FinishKubeconfig | controllers/kubeconfig_controller.go:239-265 | kubeconfig into the secret and then on to the binding, equal to the run of the state machine |
| Reconciler.ApiServer.BindRole | controllers/kubeconfig_controller.go:267-296 | binding found or created, then the final status, equal to the run of the state machine |
| Reconciler.ApiServer.ReconcileCsr | controllers/csr_controller.go:68-108 | the CSR reconciler equals a whole run of its state machine for every script, and keeps the invariant |
| Reconciler.ApiServer.ApproveCsr | controllers/csr_controller.go:110-136 | approves or marks failed the local copy, and says truly whether the caller has to write the copy to the status |
| FleetRuns.FleetRunsProject | controllers/kubeconfig_controller.go:101-140 | any interleaving of any number of kubeconfigs, also several for one username, is for each of them a run of its own protocol, in which the others at most move the counters, publish the CA, or put the shared binding |
| FleetRuns.FinishedHasBindingInFleet | controllers/kubeconfig_controller.go:267-284 | in any fleet a finished kubeconfig's binding grants its own role if and only if whoever came first brought that role: somebody else, or the operator for some kubeconfig of the same username; it names the user unless somebody else's names another |
| Projection.StepIsApply | controllers/kubeconfig_controller.go:101-106 | with every call site computing the name it asks for, the server going by that name and the reconciler by the reply alone, each step is the protocol step on the world those names make up |
| Calls.StepTouchesOnlyItsOwn | controllers/kubeconfig_controller.go:267-273 | no call made for one kubeconfig touches a secret, CSR, binding or kubeconfig under a name that is not derived from it |
| FleetRuns.DerivedNamesAreInjective | controllers/kubeconfig_controller.go:267-269 | derived secret names are equal iff the kubeconfig names are, derived binding names iff the usernames are |
| FleetRuns.SharedUsernameSharesBinding | controllers/kubeconfig_controller.go:267-279 | creating a binding that is accepted shows up in another kubeconfig's world exactly when the usernames are equal, and then with the creator's role |
| FleetRuns.FinishedIsSoundInFleet | controllers/kubeconfig_controller.go:233-293 | the soundness of KubeconfigFinished=True holds for every kubeconfig of any fleet |
| FleetRuns.KeysStayApart | controllers/utils.go:122-162 | in any fleet: if no two kubeconfigs share a key pair at the start and nobody puts a key into a secret from outside, none ever do, and every held key pair has been generated |
| FleetRuns.FinishedKeysDiffer | controllers/utils.go:122-162 | in any fleet, whatever keys are in the secrets at the start or are put there by others, two finished kubeconfigs hold different keys and different certificates |
| EndToEnd.NewKubeconfigIsDelivered | api/v1alpha1/kubeconfig_webhook.go:71-162 | every create request without existingCSR, whatever is missing and whatever updates follow, is defaulted into a spec from which the schedule delivers a usable kubeconfig if and only if the algorithm was known or left out, the API server accepts the operator's labels and binding, the CA is published, and a person approves or automatic approval is on in the end |
| EndToEnd.PlainRequestIsDelivered | api/v1alpha1/kubeconfig_webhook.go:71-162 | a create request with a username and nothing else, both names of letters and digits, is delivered once the CA is published and a person approves |
| EndToEnd.ListAndMapAgree | controllers/utils.go:166-174 | the terminal test on the stored condition list is the test on its map view, and setting a condition in the list sets it in the view |
| SpecEdits.FinishedThoughEdited | controllers/kubeconfig_controller.go:59-297 | whatever is edited and whenever, a finished kubeconfig holds a certificate signed for the key beside it, with the algorithm and subject fields of the spec and in the name of the user the key pair was generated for; its references lead there from the server of the spec it was written by, and that spec's user has a binding |
| SpecEdits.FinishesByStoredSpec | controllers/kubeconfig_controller.go:286-293 | a kubeconfig gets finished only in the form of the spec stored at that moment; a run overtaken by an edit cannot write the status |
| EditedOutcomes.TrustsPublishedThoughEdited | controllers/resources.go:126-143 | under edits the cluster CA in a finished kubeconfig is one that was published in the course of the run |
| EditedOutcomes.NamesUserExactlyWhen | controllers/utils.go:138-150 | over all runs with edits, the certificate of a finished kubeconfig names the user of the spec if and only if the username is the one the key pair was generated for |
| EditedOutcomes.NamesUserOfCsr | controllers/utils.go:138-150 | in terms of a CSR that is not deleted: if and only if the username is the one in the CSR |
| EditedOutcomes.FinishedHasBindingThoughEdited | controllers/kubeconfig_controller.go:267-284 | under edits a finished kubeconfig's user has a binding; it grants the role of the spec the kubeconfig was written by if and only if its maker had that role: somebody else, or the operator by the spec it went by then; it names the user unless somebody else's names another |
| EditedOutcomes.FinishesWithRoleExactlyWhen | controllers/kubeconfig_controller.go:267-293 | at the moment of finishing the same holds of the role of the stored spec |
| EditedOutcomes.TerminalThoughEdited | controllers/utils.go:166-174 | under edits too nothing changes status or secret after True or False, no CSR appears, and operator steps change nothing in the store |
| EditedApproval.FinishedWasApprovedThoughEdited | controllers/kubeconfig_controller.go:220-238 | under edits too a run that finishes contains a step that approved a pending CSR with exactly the final request, owned, annotated and parseable if the operator did it |
| EditedApproval.NoApprovalNoKubeconfigThoughEdited | controllers/resources.go:93-96 | with automatic approval off in every spec that is ever stored, no annotation edited in and no human approval, no run finishes |
| FormerSpec.UneditedRun | controllers/kubeconfig_controller.go:59-297 | as long as nobody edits the spec, the protocol with edits is the protocol as it stands, run for run |
| FormerSpec.SettlesThoughEdited | controllers/kubeconfig_controller.go:59-297 | from every state that edits have left, the failure-free schedule ends exactly as without edits, decided by the spec stored then, and is a run of the protocol with edits |
| FormerSpec.CertificateMayNameFormerUser | api/v1alpha1/kubeconfig_webhook.go:189-211 | from every start at which a CSR can be made and the binding is accepted, and for every other username that is a nonempty label value, an accepted update leads to KubeconfigFinished=True with a binding for the new user and the certificate of the former |
| FormerSpec.BindingMayGrantFormerRole | api/v1alpha1/kubeconfig_webhook.go:189-211 | from every such start where the user has no binding yet, and for every role, an accepted update leads to KubeconfigFinished=True for that role with the operator's own binding to the former one, nobody else making a binding |
| Conditions.ConditionList.SetStatusCondition | controllers/csr_controller.go:180-203 | the in-place update leaves exactly the list of Upsert, which the lemmas below characterise |
| Conditions.ConditionList.FindStatusCondition | controllers/csr_controller.go:206-214 | finds the first condition of the type, or none |
| Conditions.UpsertKeepsTheRest | controllers/csr_controller.go:180-203 | order, uniqueness and every other entry survive, and the list grows by one at the end exactly when the type was missing |
| Conditions.UpsertStores | controllers/csr_controller.go:193-202 | the entry holds the new status, reason and message; its transition time moves exactly when the status changes |
| Conditions.UpsertIsMapUpdate | controllers/csr_controller.go:180-203 | readers by type see a map update |
| Conditions.UpsertTwice | controllers/csr_controller.go:180-203 | setting the same condition again, at any later time, changes nothing |
| Conditions.UpsertSetsOneFlag | controllers/utils.go:82-95 | setting a condition raises exactly the approval flag of its type |
| Conditions.GetCertApprovalCondition | controllers/utils.go:82-95 | each flag is set if and only if a condition of that type is in the list |
| Document.Marshal | pkg/kubeconfig/types.go:75-110 | writes every map entry exactly once, in some order, under the fixed header |
| Document.Unmarshal | pkg/kubeconfig/types.go:112-143 | reads the lists into maps, the last entry of a name winning, or reports a malformed text |
| Document.RoundTrip | pkg/kubeconfig/types.go:75-143 | whatever order the printer chooses, the parser returns the configuration that was printed; and conversely a document with distinct names that parses to it is one the printer may write |
| Document.ReadWriteRead | pkg/kubeconfig/types.go:75-143 | parsing is a normal form: printing what was parsed and parsing again gives the same |
| Document.WritesAgree | pkg/kubeconfig/types.go:75-110 | two prints of one configuration differ at most by a permutation that the parser does not see |
| Document.LastWinsKeepsLast | pkg/kubeconfig/types.go:118-130 | a name is read if and only if it occurs, with the value of its last entry |
| Document.ParseKeepsLast | pkg/kubeconfig/types.go:112-143 | clusters, contexts and users alike: a name is read if and only if it occurs, with the value of its last entry |
| Document.EndpointIsLastNameless | pkg/utils/cluster_endpoint.go:32-54 | there is an endpoint if and only if the config map holds a document with a nameless cluster, and it is the server of the last such entry |
| Resources.CreateKubeconfig | controllers/resources.go:126-161 | fails exactly without the CA; otherwise the text is fully determined by spec, CA, key and certificate, although printing is not |
| Resources.ReferencesClose | controllers/resources.go:137-160 | the parsed text holds exactly one cluster, context and user, under the names of the spec and with the CA, certificate and key in their own fields, and following current-context reaches them |
| Admission.KubeconfigResource.Default | api/v1alpha1/kubeconfig_webhook.go:71-162 | the field-by-field assignments leave the defaulted spec, the completed condition list and phase Pending |
| Admission.DefaultKeepsWhatIsSet | api/v1alpha1/kubeconfig_webhook.go:74-109 | fields that were set stay, and afterwards every pointer the reconciler follows is set |
| Admission.DefaultServerIsPublished | api/v1alpha1/kubeconfig_webhook.go:78-85 | a spec without a server gets the one of the last nameless cluster in cluster-info, and https://localhost:6443 if and only if there is none |
| Admission.DefaultsAre | api/v1alpha1/kubeconfig_webhook.go:87-109 | the default cluster name, role, algorithm and subject fields |
| Admission.DefaultIsStable | api/v1alpha1/kubeconfig_webhook.go:74-109 | defaulting again under the same cluster-info changes nothing, and under another one only if the spec had no server, the first published an empty one and the second does not |
| Admission.EmptyServerIsDefaultedAgain | api/v1alpha1/kubeconfig_webhook.go:74-109 | a cluster-info with an empty server name, after which a second defaulting changes the spec |
| Admission.DefaultedConditions | api/v1alpha1/kubeconfig_webhook.go:111-158 | old conditions stay as a prefix, all five types are there exactly once, the added ones are Unknown as the webhook writes them and in its order, and a second pass adds nothing |
| Admission.FirstConditions | api/v1alpha1/kubeconfig_webhook.go:111-158 | from an empty list defaulting makes the five conditions in the order of the webhook, each Unknown with its reason, message and time |
| Admission.ValidateUpdate | api/v1alpha1/kubeconfig_webhook.go:189-211 | the update is accepted iff spec.csr and spec.existingCSR are unchanged, and the errors name exactly the fields that changed |
| Admission.CsrParametersAreImmutable | api/v1alpha1/kubeconfig_webhook.go:189-211 | over every admission history both fields stay as they were right after creation |
| Admission.RegeneratedRequestsAgree | controllers/utils.go:126-153 | requests regenerated at any two points of a history ask for the same algorithm and subject fields, and are for the same subject iff the username was not edited |
| Admission.AutoApprovalAndUsernameAreMutable | api/v1alpha1/kubeconfig_types.go:36-39 | from every stored spec an accepted update flips automatic approval and sets any username |

## Left out

- EndToEnd.NewKubeconfigIsDelivered: not for requests with `existingCSR`, since that branch is left out.
- The branch for `existingCSR` (controllers/kubeconfig_controller.go:83-99): it fetches a secret that is said to
  hold a key and a request, but the lines that follow overwrite both, so there is no promise to keep.
- Deletion of the kubeconfig (controllers/kubeconfig_controller.go:65-69) and garbage collection through owners.
- Failure of key generation, x509 and PEM encoding, YAML text and base64 text: library code, replaced by fresh
  numbers and injective constructors.
- Nil and empty states of lists, and of maps other than the data of a secret: a nil one is an empty one here, which
  matters only to `reflect.DeepEqual` on additionalFields.
- Reasons, messages and transition times of the conditions in the protocol; the condition list itself has them.
- The owner of the secret and the signer name and usages of the CSR: written, never read. Of the labels, their keys.
- Requeue delays and watch events: any reconciler may run at any time.
- Events, logging, manager setup, RBAC manifests and the controllers' registration.
- An immutability of username, roleRef or automaticApproval: the code does not check them.
- UserSecretCreated, CSRCreated and the references being set at the end: they live in memory until a status write
  whose error is ignored, so a crash loses them. What does hold is that a reference, if set, is right.
- The guard of `setStatusCondition` against a nil pointer to the list: every caller passes the address of a field.
