# A Dafny model of the DN42 control plane

A control server publishes *generations* of desired state for every node; a node agent fetches the
current one, plans, executes, reports, and only then says that it has applied it. This project models
the parts of both that hold the branching, the state and the arithmetic, and proves what each part
promises. `dafny verify dfyconfig.toml` checks everything.

| module | what it models |
|---|---|
| `Doorbell`, `LostUpdates`, `Watch`, `EventBus` | the notification protocol: commit, publish, bounded queues, `hello`, de-duplication, latest-wins bell, one consumer, and when an update is lost |
| `Progress`, `Session` | one reconcile round, the identity on disk, token healing, crashes |
| `FilePlan` | the pruned file plan and its execution |
| `Convergence` | which interface yields which files, and the hot convergence plan derived from file actions |
| `Namespace`, `Rounds`, `Residue` | what scripts do to links, one round and any run of rounds, and what stays on links that are never taken down |
| `ExitCodes`, `Repair` | when a round is reported as a success, and what retries, heals and restarts repair |
| `BirdConfig` | which configuration BIRD runs, over rounds, failed reloads, rebuilds and restarts |
| `ContainerPlan`, `Deploy` | the decisions from the inventory, dependency propagation, topological order |
| `DeployTrace`, `OldInstances`, `Executor`, `Redeploy` | the trace of container calls, its old instances, the executor, and whole histories of planned and aborted deploys |
| `Rpki` | the mask-and-bucket index against section 2 of RFC 6811 |
| `BirdSocket` | reply framing on the BIRD control socket |
| `SnapshotDiff` | the field-level difference of two snapshots |
| `Runtime`, `DesiredState`, `Validation` | the runtime checks and the four normalisation passes |
| `Generations` | publishing, trimming, rollback, and reading through the cache |
| `KeyPinning` | WireGuard key pinning and propagation across nodes |
| `RoutingAggregate`, `RoutingStore` | statistics of a routing table and the hash-gated store |
| `Backfill`, `BackfillResult` | grouping orphan interfaces and sessions into peerings |
| `Order`, `Graphs`, `Sublists`, `Wrappers`, `Samples` | Python's string order and `sorted`, walks and cycles, sublists, optional values and decimals, small states for concrete runs |

Code that rewrites state in place is a class or a method with its loops, proved against a
specification function or predicate; what the source promises is then proved about that, down to the
fields of the rows and documents involved, without reference to that function. Protocols are
labelled transition systems: a run is any sequence of enabled labels, so a theorem about runs speaks of
every interleaving. In specifications that copy a record, a field named `other` stands for everything
no branch looks at.

## Where the code and its documentation part

The code is modelled as it is; each point has a lemma with a concrete input and the exact condition.

- **Lost triggers.** A trigger may be missing whenever the queue overflowed, a round failed or a
  re-registration happened *since the last fetch*. "Since the last success" is not enough: a queue
  that overflows between a round's fetch and its success leaves the agent behind in silence
  (`Doorbell.OverflowOutlivesSuccess`). Whatever happened, the update is lost exactly if the agent is
  behind, its socket is up, the consumer is neither about to fetch nor holds the committed generation,
  and no frame under way rings both before and after the round in flight (`LostUpdates.LostIff`); so a
  dropped event may be harmless (`LostUpdates.DroppedEventIff`, `LostUpdates.OverflowMayBeHarmless`).
  The fallback timer repairs it (`Doorbell.FallbackRecovers`).
- **AS 0.** The index takes an AS 0 ROA for a match of origin 0; RFC 6811 never does
  (`Rpki.AgreesWithRfcIff`). A covered route without an origin gets no verdict where the RFC says
  invalid (`Rpki.UnknownOriginAgreesIff`). One entry shows both (`Rpki.DisavowedIsValid`).
- **Carriage returns.** Files are compared after a text-mode read, so a file that differs from its
  rendering only in line endings counts as equal (`FilePlan.ManagedEqualsRendered`,
  `FilePlan.HiddenReturnSurvives`), and a rendering with a carriage return never settles
  (`FilePlan.ReplanIsNoopIffClean`, `FilePlan.ReturnIsRewritten`).
- **Dangling containers.** `docker_api.py` says that no expected container refers to an orphan. An old
  instance may: it dangles exactly when the container it shares with is removed while it comes later
  or was passed over (`OldInstances.DoomedDanglesIff`, `OldInstances.OldSharerDangles`). Kept and new
  containers never dangle.
- **Lookups that fail.** `_remove_containers` passes over a container whose lookup raises. If that
  container is to be created anew, its creation is refused and the deploy stops
  (`DeployTrace.EveryCallIsAcceptedIff`). If the container it shares with was replaced by then, it
  stays with a namespace that is gone while its definition looks right, and every later plan keeps it
  until a liveness probe reports it
  (`Redeploy.EventKeepsIff`, `Redeploy.StaleSharerIsKept`, `Redeploy.SomePair`).
- **Addresses and routes pile up.** `convergence_plan.py:21` calls the scripts a hot update in place. They
  only add: `ip addr replace` and `ip route replace` take nothing away that left the state. A link that
  stays up holds whatever any state asked for since it was created (`Residue.HeldIsUnion`), and the hot
  path equals a rebuild exactly if nothing was dropped (`Residue.HotEqualsRebuildIff`). When the anycast
  address of a DNS group moves, the interface holds both (`Residue.AnycastKeepsOldAddress`).
- **A gateway rebuilt alone.** `convergence_plan.py:13` takes the tunnels for lost when wg-gateway or
  router-netns is rebuilt. The namespace goes with the container that owns it, which is router-netns
  where wg-gateway shares it; if the gateway alone is rebuilt, everything wanted is brought up and
  nothing is removed. Neither is `dn42-lo`, by any hot round. The links are those of the state exactly
  if every round is tidy (`Rounds.RunHoldsIff`, `Residue.GatewayRebuildForgets`,
  `Repair.LoopbackIsLeftOver`).
- **Rounds that fail for nothing.** Bringing everything up runs the loopback script even if the state has
  no loopback, and a conf that outlived its tunnel makes a later round remove the link again; both exit
  non-zero (`ExitCodes.RoundOkIff`, `Repair.DecommissionByRebuildFails`,
  `ExitCodes.FirstTunnelAgainFails`).
- **Failed convergence.** `orchestrator.py:294-296` expects the next round to replay a failed step. The
  files are written by then, so the next plan is empty: a hot retry changes nothing
  (`Repair.RetryHoldsIff`) and is a success, so an applied generation does not imply its links
  (`Repair.AppliedWithLinksIff`, `Repair.SuccessWithStaleLink`). The drift healer brings missing links
  back, and stale ones only in passing; a restart of the gateway runs all scripts; neither removes a
  link, and a script that keeps failing blocks those after it (`Repair.RepairedIff`,
  `Repair.FailingLoopbackBlocks`). So a tunnel whose new configuration failed to load keeps the old one
  whatever retries and heals follow, and one whose removal failed stays until its namespace goes
  (`Repair.StaleUpdateStays`, `Repair.FailedRemovalStays`). A failed `birdc configure` is not repeated
  either: BIRD keeps the old configuration until the router is rebuilt or starts anew
  (`BirdConfig.RetriesLoadIff`, `BirdConfig.RetryIsBlind`, `BirdConfig.BirdStaysStale`).
- **Disabled DNS service.** A *disabled* service of role dns suppresses the injected CoreDNS although
  DNS is on (`Validation.CoreDnsRunsIff`, `Validation.DisabledServiceSuppressesDns`).
- **Control socket.** The socket pass takes the first bird-router without looking at `enabled`, so a
  disabled one may keep the socket from the one that runs (`Validation.SocketsReachedIff`,
  `Validation.DisabledRouterKeepsSocket`).
- **Stranded sessions.** Validation is a fixed point of itself except when a BGP session is bound to
  `dns-anycast` while no anycast interface is announced: then the second validation, and with it every
  read and rollback of that snapshot, is refused (`Validation.RevalidationIffAnchored`,
  `Validation.StrandedSessionFailsAgain`, `Generations.RollbackReproduces`).
- **Backfill and peering patches publish nothing.** `peering_backfill.py:11-12` says that the
  materializer does not read `peering_id`; it does, to look up the peer's key. A backfill or a patched
  peering leaves the published key stale unless the snapshot happens to carry the right one
  (`KeyPinning.BackfillKeepsIff`, `KeyPinning.BackfillGoesStale`, `KeyPinning.PatchKeepsIff`,
  `KeyPinning.PatchGoesStale`).
- **Self-peering.** A node may peer with itself, and its first key report then publishes everyone but
  itself (`KeyPinning.ReportKeepsIff`, `KeyPinning.SelfPeeringGoesStale`). Without self-peerings that
  never happens (`KeyPinning.NoSelfNoneLeft`).

## Hypotheses

- Hot convergence: an interface name never changes its kind over a run, is not `all-wg` and contains no
  `/`; `dn42-lo`, where a state has it, is a dummy; no other rendered file is named like the conf or the
  script of an interface; something under `scripts/` is always rendered, and the rendering is clean (no
  carriage return, no path with two contents). A step that fails leaves its link alone, and a script's
  addresses and routes are its lines that begin with the four `replace` commands. BIRD reads the files
  under `bird/` when it starts and when it reconfigures, and keeps what it has if that fails.
- Deploy: every `network_mode: service:X` target is among the service's transitive `depends_on`, which is
  all the order looks at. That kept containers start out attached is not assumed but kept, from a
  world in which every container lives in the namespace its definition names (`Redeploy.HistoryKeeps`).
- Key pinning: what the database enforces, and that a write on one node touches only its own rows.
- Hashes are injective, so contents are compared in their place.

## Model

| member | source | states |
|---|---|---|
| Doorbell.InvStep | apps/node-agent/agent/watch.py:541-614 | every atomic step of server, socket, client and consumer keeps the invariant that ties what is applied, fetched, queued and rung to what is committed |
| Doorbell.InvRun | apps/control-server/app/api/v1/agent_ws.py:65-138 | the invariant holds after every legal run, whatever the interleaving |
| Doorbell.NoLostUpdate | apps/control-server/app/api/v1/agent_ws.py:89-98 | an agent behind the committed generation has a trigger outstanding, unless since its last fetch the queue overflowed, a round failed or re-registration reset it |
| Doorbell.QuietMeansConverged | apps/node-agent/agent/watch.py:582-614 | when nothing is in flight and no excuse is recorded, the agent has applied exactly the committed generation |
| Doorbell.AppliedNeverRegresses | apps/node-agent/agent/watch.py:541-579 | without a re-registration the applied generation never goes back |
| Doorbell.FallbackRecovers | apps/node-agent/agent/watch.py:599-604 | from every state the consumer alone can finish a round that applies the committed generation and clears every excuse |
| Doorbell.OverflowOutlivesSuccess | apps/control-server/app/core/events.py:47-57 | a run in which the queue overflows during a round and the round's success leaves the agent behind with no trigger |
| Doorbell.FailureIsNotRetriggered | apps/node-agent/agent/watch.py:582-614 | a run in which a failed round leaves the agent behind with no trigger |
| Doorbell.ResetIsNotRetriggered | apps/node-agent/agent/session.py:126-144 | a run in which re-registration leaves the agent behind with no trigger |
| LostUpdates.LostIff | apps/node-agent/agent/watch.py:541-614 | the running tasks can come to rest with the agent behind exactly if it is behind now and neither socket, bell, consumer nor a frame under way makes a fetch certain |
| LostUpdates.DroppedEventIff | apps/control-server/app/core/events.py:47-57 | a publication that a full queue drops loses the update exactly under that condition |
| LostUpdates.OverflowMayBeHarmless | apps/control-server/app/core/events.py:47-57 | a run in which the queue overflows and the update is not lost |
| Watch.Bell.Ring | apps/node-agent/agent/watch.py:80-83 | ringing adds its reason and sets the bell |
| Watch.Bell.Drain | apps/node-agent/agent/watch.py:84-91 | draining takes every reason rung so far and silences the bell |
| Watch.DispatchEvent | apps/node-agent/agent/watch.py:541-579 | a snapshot request always rings, an update unless its generation is applied already, a hello if its generation is ahead; the reason says which; as the protocol's dispatch step |
| EventBus.SubscriberQueue.PutNowait | apps/control-server/app/core/events.py:47-57 | a queue of 64 events drops the next and says so, any other appends it |
| EventBus.Bus.Register | apps/control-server/app/core/events.py:29-33 | a fresh empty queue joins the node's list and no other |
| EventBus.Bus.Unsubscribe | apps/control-server/app/core/events.py:35-45 | exactly this queue leaves, and an empty list goes with it |
| EventBus.Bus.Publish | apps/control-server/app/core/events.py:47-57 | every queue of the node is offered the event whatever the others did; the count is of those with room |
| Progress.InvStep | apps/node-agent/agent/orchestrator.py:148-227 | every step of a round, of the session, of a crash keeps applied generations backed by the log |
| Progress.CrashSafeProgress | apps/node-agent/agent/orchestrator.py:212-227 | at every point of every run, an applied generation on disk was executed by a round that then had snapshot, report and result acknowledged in this order, and the server has published it |
| Progress.SnapshotsNeverOverclaim | apps/node-agent/agent/orchestrator.py:186-201 | no acknowledged snapshot claims a generation that had not been executed before |
| Session.CallsNeverAdvance | apps/node-agent/agent/session.py:100-115 | whatever the server answers, calls leave the applied generation alone or forget it |
| Session.RoundAdvancesIff | apps/node-agent/agent/orchestrator.py:148-227 | a round sets the applied generation if all of it went well, and otherwise keeps or forgets it |
| Session.CallMeans | apps/node-agent/agent/session.py:100-115 | whether a call gets through and whether it registers, from its answers alone |
| Session.RoundMeans | apps/node-agent/agent/orchestrator.py:148-227 | whether a round finishes and what becomes of the applied generation, from the answers to its calls alone |
| Session.Session.Ensure | apps/node-agent/agent/session.py:61-72 | an identity with a token is kept; without one, registration writes a fresh identity with no applied generation; a run of the system |
| Session.Session.Invalidate | apps/node-agent/agent/session.py:74-83 | the token goes in memory and on disk, the applied generation stays |
| Session.Session.Call | apps/node-agent/agent/session.py:100-115 | the call gets through exactly if there is a token or one is granted, and the answer is good or, after a 401, a new token is granted and the second answer is good; what token is left, and that the applied generation is forgotten exactly if it registered; a run of the system |
| Session.Session.Publish | apps/node-agent/agent/orchestrator.py:391-429 | snapshot, report and result go out in this order, each only after the one before was acknowledged, and it succeeds exactly if the answers to all three let it |
| Session.ExecutePlan | apps/node-agent/agent/orchestrator.py:253-303 | a round succeeds exactly if it does more than plan, the files are written and, when it applies, the containers are deployed and convergence, if it is on, succeeds |
| Session.Session.RunOnce | apps/node-agent/agent/orchestrator.py:148-227 | a round finishes exactly if the answers let every call of its mode through; it sets the applied generation if it also succeeded, forgets it if it registered anew before it failed, and otherwise keeps it; one call that breaks, at once or on its second attempt, is enough to keep it from finishing; a run of the system |
| FilePlan.BuildFilePlan | packages/dn42_runtime/dn42_runtime/__init__.py:57-115 | every path is created, updated, left alone or, with `prune`, deleted exactly as the tree and the rendering say; the actions stand by path, and the counts are those of their kinds |
| FilePlan.PlannedAt | packages/dn42_runtime/dn42_runtime/__init__.py:57-115 | a path is created where it is missing, updated where a rendering of it does not read back, left alone where one does, and deleted when pruning where nothing renders it but something renders under its top segment |
| FilePlan.TempIff | packages/dn42_runtime/dn42_runtime/__init__.py:253-271 | left-overs of the atomic writer are the files whose name starts with a dot and has `.tmp.` in it, whatever their directory |
| FilePlan.LeftOversAreTemp | packages/dn42_runtime/dn42_runtime/__init__.py:203-217 | what the atomic writer leaves when it is interrupted is such a file |
| FilePlan.LastContent | packages/dn42_runtime/dn42_runtime/__init__.py:118-169 | of several renderings of a path the last one is written |
| FilePlan.ListOrphans | packages/dn42_runtime/dn42_runtime/__init__.py:253-271 | exactly the managed files that are neither rendered nor temporary, once each |
| FilePlan.ExecuteFilePlan | packages/dn42_runtime/dn42_runtime/__init__.py:118-169 | every action is applied or reported, an error does not stop the rest, and the tree is the plan's effect; a dry run reports all and touches nothing |
| FilePlan.ExecutionIsOrderFree | packages/dn42_runtime/dn42_runtime/__init__.py:57-169 | an error-free pruned plan leaves the same tree in whatever order its actions stand |
| FilePlan.ManagedEqualsRendered | packages/dn42_runtime/dn42_runtime/__init__.py:118-169 | afterwards the managed part is the rendered set and the rest is untouched, if and only if no settled file hides a carriage return |
| FilePlan.ReplanIsNoopIffClean | packages/dn42_runtime/dn42_runtime/__init__.py:57-115 | planning again gives only noops if and only if the rendering has no carriage return and no conflicting duplicates |
| FilePlan.HiddenReturnSurvives | packages/dn42_runtime/dn42_runtime/__init__.py:76-92 | a clean rendering and a tree that keeps another line ending for good |
| FilePlan.ReturnIsRewritten | packages/dn42_runtime/dn42_runtime/__init__.py:76-92 | a rendering that every round writes again, on any tree |
| FilePlan.ReadTextIsIdentity | packages/dn42_runtime/dn42_runtime/__init__.py:76-92 | a text-mode read returns a file as it is exactly when it has no carriage return |
| Convergence.RenderDesiredState | packages/dn42_templates/dn42_templates/desired_state.py:21-84 | which interface yields which file paths, each file once, the whole list sorted by path |
| Convergence.PathsOf | apps/node-agent/agent/planner/convergence_plan.py:276-305 | the path parsers recover a plain interface name from exactly the paths rendered for it |
| Convergence.ChangedWireGuard | apps/node-agent/agent/planner/convergence_plan.py:249-273 | the sorted names of tunnels to sync and to remove that the file actions call for |
| Convergence.ChangedDummies | apps/node-agent/agent/planner/convergence_plan.py:208-240 | the same for managed dummies, where a deleted conf of the name decides whose the script was |
| Convergence.BuildConvergencePlan | apps/node-agent/agent/planner/convergence_plan.py:75-171 | BIRD is reloaded, once and first, exactly if there is a router, it is not rebuilt and a file under `bird/` is created, updated or deleted; the loopback is synced exactly if the namespace is lost or its script is written; each other link is synced or removed exactly as the namespace and the files of its interface say; reload, loopback, syncs, removals |
| Convergence.UpdatedAt | apps/node-agent/agent/planner/convergence_plan.py:127-171 | of a hot plan: a tunnel is synced exactly if its conf or script is written, another dummy if its script is; a link is removed exactly if its conf is deleted, or its script is and no interface bears its name |
| Convergence.BroughtUpAt | apps/node-agent/agent/planner/convergence_plan.py:100-125 | of a plan for a lost namespace: exactly the tunnels and the dummies but the loopback are synced, and nothing is removed |
| BirdConfig.TouchIff | apps/node-agent/agent/planner/convergence_plan.py:243-246 | the file plan has an action under `bird/` that is no noop exactly if carrying it out changes the files there |
| Rounds.RoundConverges | apps/node-agent/agent/planner/convergence_plan.py:75-171 | a round in which no step fails gives every wanted link its script and conf, hot or not, namespace lost or not, and leaves exactly those links if and only if the plan removes every other one that is there |
| Rounds.RemovalIff | apps/node-agent/agent/planner/convergence_plan.py:208-273 | what leaves the state is removed by hot plans, the loopback by none |
| Rounds.RoundHoldsIff | apps/node-agent/agent/planner/convergence_plan.py:75-171 | from exactly the links of one state a round reaches exactly those of the next if and only if the namespace is lost, or whatever leaves leaves in a hot round and is not the loopback |
| Rounds.RunStaysInStep | apps/node-agent/agent/planner/reconcile_plan.py:36-69 | over any run in which no step fails, the links of the latest state are up with their scripts and confs |
| Rounds.RunHoldsIff | apps/node-agent/agent/planner/reconcile_plan.py:36-69 | over any such run the links are exactly those of the state after every round if and only if every round is tidy in that sense |
| Residue.HeldAfterRound | packages/dn42_templates/dn42_templates/scripts.py:127-158 | after a round a wanted link holds what it held and what its script asks for; any other is removed or untouched |
| Residue.HeldIsUnion | packages/dn42_templates/dn42_templates/scripts.py:127-158 | after any run a link is up if some state asked for it and it was not taken down since, and it holds exactly the addresses and routes that any state asked for from then on |
| Residue.RunIsExactIff | apps/node-agent/agent/planner/convergence_plan.py:75-171 | after any run links, scripts, confs, addresses and routes are exactly those of the state if and only if every link that stayed up is still wanted and none of its entries was dropped |
| Residue.HotEqualsRebuildIff | apps/node-agent/agent/planner/convergence_plan.py:75-171 | over any run the machine is the one that losing the namespace in the last round would have left if and only if nothing was dropped |
| Residue.HotEqualsRebuildByConfig | apps/node-agent/agent/planner/convergence_plan.py:75-171 | the planner's half: in names, scripts and confs of the wanted links the two always agree |
| Residue.DroppedStays | packages/dn42_templates/dn42_templates/scripts.py:127-158 | for any script that drops a line: the hot round leaves the address or route, a rebuild would not |
| Residue.AnycastKeepsOldAddress | packages/dn42_templates/dn42_templates/scripts.py:127-134 | a concrete change of the anycast address after which the interface holds both |
| Residue.GatewayRebuildForgets | apps/node-agent/agent/planner/convergence_plan.py:100-125 | a concrete round that rebuilds the gateway alone and keeps a tunnel that left the state |
| ExitCodes.RoundOkIff | apps/node-agent/agent/apply/convergence.py:54-62 | a round whose commands work is reported as a success exactly if it brings everything up and the state has a loopback, or it is hot and every tunnel it removes is there |
| ExitCodes.FirstTunnelAgainFails | apps/node-agent/agent/planner/convergence_plan.py:249-273 | a concrete run whose third round reaches its state and is reported as failed |
| Repair.FailedRoundHoldsIff | apps/node-agent/agent/planner/convergence_plan.py:75-171 | whatever steps fail, the links have the right names, scripts and confs exactly if every wanted one was synced or already right and every other one was removed |
| Repair.RetryHoldsIff | apps/node-agent/agent/orchestrator.py:292-297 | for every set of failing steps, the next round of the same state repairs nothing if it is hot, and all but lingering links in a surviving namespace if it brings everything up |
| Repair.RetryChangesNothing | apps/node-agent/agent/planner/reconcile_plan.py:36-69 | once the files are written, a hot retry has no step, leaves the machine as it is and is reported as a success |
| Repair.AppliedWithLinksIff | apps/node-agent/agent/orchestrator.py:212-227 | after a failed round an acknowledged hot retry sets the applied generation, and the links are right exactly if they were before |
| Repair.SuccessWithStaleLink | apps/node-agent/agent/orchestrator.py:292-297 | a concrete node on which such a retry succeeds over an old configuration |
| Repair.UntilMeans | packages/dn42_templates/dn42_templates/config-scripts/wg/apply-all-wg.sh.j2:1-9 | a script of the aggregate is run exactly if neither it nor one before it fails |
| Repair.HealHoldsIff | apps/node-agent/agent/l3_heal.py:95-162 | a heal leads to the links of the state exactly if they were right, or one was missing, none lingers and every link it does not reach was right |
| Repair.RepairedIff | apps/node-agent/agent/l3_heal.py:95-162 | over any sequence of retries, heals and gateway restarts with any scripts failing all the time, the links end up right exactly if none lingers or the namespace went, and each was right or settled and not lost afterwards |
| Repair.BlockedStaysMissing | apps/node-agent/agent/l3_heal.py:95-162 | a missing link behind a script that keeps failing stays missing through every heal and restart |
| Repair.FailingLoopbackBlocks | packages/dn42_templates/dn42_templates/config-scripts/wg/apply-all-wg.sh.j2:1-9 | a concrete node whose tunnel is behind a failing loopback script |
| Repair.StaleStays | apps/node-agent/agent/orchestrator.py:292-297 | a live tunnel whose changed configuration fails to load keeps the old one through every hot retry and heal if no other link was missing |
| Repair.RemovalStays | apps/node-agent/agent/orchestrator.py:292-297 | a link that left the state and whose removal fails stays up until its namespace goes |
| Repair.StaleUpdateStays | apps/node-agent/agent/orchestrator.py:292-297 | a concrete node for which the first happens |
| Repair.FailedRemovalStays | apps/node-agent/agent/orchestrator.py:292-297 | a concrete node for which the second happens |
| Repair.LoopbackIsLeftOver | apps/node-agent/agent/planner/convergence_plan.py:208-240 | a node that is decommissioned without a rebuild and keeps its loopback |
| Repair.DecommissionByRebuildFails | apps/node-agent/agent/planner/convergence_plan.py:100-125 | a node that is decommissioned by a rebuild, whose round is reported as failed |
| BirdConfig.RoundLoadsIff | apps/node-agent/agent/planner/convergence_plan.py:84-93 | from a BIRD that runs what is on disk a round leads to one that does exactly if the router is rebuilt, no file of it changed, or the reload works |
| BirdConfig.RunsTheRenderingIff | apps/node-agent/agent/planner/convergence_plan.py:84-93 | under the same condition it then runs exactly the rendered configuration |
| BirdConfig.InForce | apps/node-agent/agent/planner/convergence_plan.py:9-11 | over any history of rounds and restarts, what is in force is what lay on disk when BIRD last read it |
| BirdConfig.RunLoadsIff | apps/node-agent/agent/planner/convergence_plan.py:84-93 | BIRD runs what is on disk at every point of a history exactly if every round that changes its files reloads them or rebuilds the router |
| BirdConfig.RetriesLoadIff | apps/node-agent/agent/orchestrator.py:292-297 | over any sequence of rounds of a state whose files are written, and restarts, a BIRD that is behind catches up exactly if the router is rebuilt or starts anew |
| BirdConfig.RetryIsBlind | apps/node-agent/agent/orchestrator.py:292-297 | after any round a hot retry has an empty plan, which is a success, and changes nothing |
| BirdConfig.BirdStaysStale | apps/node-agent/agent/orchestrator.py:292-297 | a node whose reload fails once and that keeps the first configuration in force after a successful retry |
| ContainerPlan.Propagate | apps/node-agent/agent/planner/container_plan.py:157-188 | on every graph: nothing stays kept that lists, or lives in the namespace of, a service that is (re)created; a kept service is recreated only beside such a one, and exactly if a chain of such services leads to one that was to be (re)created to begin with; no other decision changes |
| ContainerPlan.PropagationIgnoresOrder | apps/node-agent/agent/planner/container_plan.py:157-188 | the result does not depend on the order of the services |
| ContainerPlan.FixpointIsPropagated | apps/node-agent/agent/planner/container_plan.py:157-188 | any justified fixpoint is that result |
| ContainerPlan.MustRebuildIff | apps/node-agent/agent/planner/container_plan.py:164-188 | a service reaches a rebuilt one along the edges exactly if a chain of services leads there, each listing the next or living in its namespace |
| ContainerPlan.DecideMeans | apps/node-agent/agent/planner/container_plan.py:191-213 | before propagation a service is created exactly if nothing bears its name, and kept exactly if the last container that does is up to date |
| ContainerPlan.BuildContainerPlan | apps/node-agent/agent/planner/container_plan.py:101-154 | an enabled service is created exactly if no container bears its name, and kept exactly if the last such container runs, is not reported unhealthy and was made as the service is now, and every service it depends on is kept; the orphans are the containers no enabled service claims, one for one in the order of the inventory |
| Deploy.TopologicallySorted | apps/node-agent/agent/apply/docker_api.py:205-224 | a permutation of the enabled services in which each stands after those it lists, refused if and only if some of them list one another in a circle |
| Deploy.CyclicIff | apps/node-agent/agent/apply/docker_api.py:208-213 | the graph the order is made from has a cycle exactly if enabled services list one another in a circle |
| Graphs.RespectedIsAcyclic | apps/node-agent/agent/apply/docker_api.py:205-224 | a graph that some order respects has no cycle |
| DeployTrace.DeployNeverDangles | apps/node-agent/agent/apply/docker_api.py:75-186 | at every point the trace reaches, an abort at any call included and whichever lookups fail, kept containers are untouched and attached, and every other desired container is attached and as defined or an old instance that waits for its removal or was passed over |
| DeployTrace.EveryCallIsAcceptedIff | apps/node-agent/agent/apply/docker_api.py:227-236 | the engine refuses no call exactly if no live container that is to be created was passed over |
| DeployTrace.CompleteDeploy | apps/node-agent/agent/apply/docker_api.py:75-186 | a deploy that ends leaves every service live, running, attached and as defined, the kept ones being the untouched ones, no orphan that was found, and nothing else changed |
| OldInstances.DoomedDanglesIff | apps/node-agent/agent/apply/docker_api.py:133-141 | the old instance of a recreated service dangles at some point exactly if the container it shares with is removed and it comes later itself or is passed over |
| OldInstances.OldSharerDangles | apps/node-agent/agent/apply/docker_api.py:133-141 | an old instance that dangles when an orphan goes |
| Executor.RemoveContainers | apps/node-agent/agent/apply/docker_api.py:227-236 | the names found go in order, those whose lookup raises are passed over, and a removal that raises ends it |
| Executor.DeployPlan | apps/node-agent/agent/apply/docker_api.py:75-186 | the deploy stops at a point the trace reaches, and succeeds exactly when the networks do and the engine serves and accepts every call |
| Redeploy.MakePlan | apps/node-agent/agent/planner/container_plan.py:101-154 | decisions, order, definitions and orphans made from one inventory, or a refusal exactly on a cycle |
| Redeploy.PlannedIsCoherent | apps/node-agent/agent/planner/container_plan.py:101-188 | propagated decisions in topological order satisfy what the deploy relies on |
| Redeploy.PlanFits | apps/node-agent/agent/planner/container_plan.py:191-209 | if every container lives in the namespace its definition names, a plan made from what is observed finds every kept container live, running, as defined and attached |
| Redeploy.ConsistentIff | apps/node-agent/agent/apply/docker_api.py:75-186 | wherever a deploy stops, that is so again exactly if no container was passed over whose namespace was created anew |
| Redeploy.EventKeepsIff | apps/node-agent/agent/apply/docker_api.py:227-236 | one deploy or one drift of the containers keeps the world consistent exactly if nothing was left behind |
| Redeploy.HistoryKeeps | apps/node-agent/agent/planner/container_plan.py:101-154 | and it stays so over any history of drift and of deploys that stop anywhere, of changing services, with nothing left behind |
| Redeploy.NextDeployRecovers | apps/node-agent/agent/apply/docker_api.py:75-186 | after such a history one deploy that is let through leaves exactly the enabled services, all running, as defined and attached |
| Redeploy.StaleSharerIsKept | apps/node-agent/agent/planner/container_plan.py:191-209 | for any service and another in its namespace, a changed definition of the first and a failed lookup of the second leave a dangling container that every later plan keeps, whatever the liveness probes say short of reporting one of the two as failing |
| Rpki.ScanMeans | apps/node-agent/agent/collectors/routing.py:253-275 | the scan of section 2.1 of RFC 6811 computes matched, else covered, else not found |
| Rpki.RpkiIndex.constructor | apps/node-agent/agent/collectors/routing.py:199-217 | the buckets hold exactly the given entries by version, length and masked address, with ascending lengths |
| Rpki.RpkiIndex.Covering | apps/node-agent/agent/collectors/routing.py:253-275 | masks and the early break find exactly the covering entries |
| Rpki.RpkiIndex.ClassifyNet | apps/node-agent/agent/collectors/routing.py:253-275 | the verdict equals that of a linear scan of all entries |
| Rpki.MaskFinds | apps/node-agent/agent/collectors/routing.py:177-181 | masking to a length finds a network exactly when the leading bits agree |
| Rpki.AgreesWithRfcIff | apps/node-agent/agent/collectors/routing.py:184-198 | with a known origin the verdict is that of RFC 6811 unless the origin is 0 and a long enough AS 0 entry covers |
| Rpki.UnknownOriginAgreesIff | apps/node-agent/agent/collectors/routing.py:253-275 | without an origin it is exactly on uncovered prefixes |
| Rpki.DisavowedIsValid | apps/node-agent/agent/collectors/routing.py:253-275 | an AS 0 entry that the code takes for a match of origin 0, and a covered route without an origin that gets no verdict |
| Rpki.AddingRoas | apps/node-agent/agent/collectors/routing.py:253-275 | further ROAs never take validity away and never yield a new not-found |
| BirdSocket.ReplyReader.FeedLine | apps/node-agent/agent/collectors/bird_socket.py:75-86 | a line ends the reply, with its code and error, or adds its text |
| BirdSocket.Framing.ReadReply | apps/node-agent/agent/collectors/bird_socket.py:104-118 | the reply and what is left pending are functions of the byte stream, however it is cut into chunks |
| BirdSocket.ReadReplies | apps/node-agent/agent/collectors/bird_socket.py:104-118 | successive reads give the replies of the stream |
| BirdSocket.MessageReads | apps/node-agent/agent/collectors/bird_socket.py:39-89 | a printed message reads back with texts, code and error flag, whatever follows it |
| BirdSocket.CutShort | apps/node-agent/agent/collectors/bird_socket.py:104-118 | if the peer closes before the last line, what came is kept, the rest stays pending, and the reply has neither code nor error |
| BirdSocket.OtherLines | apps/node-agent/agent/collectors/bird_socket.py:39-86 | a line of no known form is kept whole, and four digits alone are a code without text |
| BirdSocket.RoundTrip | apps/node-agent/agent/collectors/bird_socket.py:39-118 | so does any sequence of messages, leaving the bytes after them |
| SnapshotDiff.ReplayGivesNew | apps/control-server/app/services/generations.py:51-88 | replaying the change list on the old snapshot gives exactly the new one |
| SnapshotDiff.EmptyIffEqual | apps/control-server/app/services/generations.py:51-61 | the list is empty if and only if the two are equal |
| SnapshotDiff.SwapExchanges | apps/control-server/app/services/generations.py:64-88 | swapping the arguments keeps every path and exchanges added with removed and old with new |
| SnapshotDiff.DiffIsInside | apps/control-server/app/services/generations.py:64-88 | every change lies at or below the place that was compared |
| SnapshotDiff.DiffIsExact | apps/control-server/app/services/generations.py:64-88 | the recursion finds exactly the changes, told from the values at places of the two documents |
| SnapshotDiff.DiffInPlaceOrder | apps/control-server/app/services/generations.py:64-88 | it lists them field by field in the order of names and element by element, each place once |
| SnapshotDiff.PlacesAreApart | apps/control-server/app/services/generations.py:64-88 | no change lies at or within the place of another |
| SnapshotDiff.OneFieldDiffers | apps/control-server/app/services/generations.py:64-74 | one differing field gives one change, at the field |
| SnapshotDiff.DiffInto | apps/control-server/app/services/generations.py:64-88 | the recursion appends exactly the changes between the two values to the shared list, by their places |
| SnapshotDiff.DiffSnapshots | apps/control-server/app/services/generations.py:51-61 | a change is listed exactly if it is one: two different values at one place that are not both objects or both lists, or a place that only one side has while both have the object or list around it; in the order of places, none at or within the place of another; and replaying the list yields the new snapshot |
| Runtime.ValidateAddresses | packages/dn42_schemas/dn42_schemas/runtime.py:391-419 | accepts exactly when every resolved address is in the subnet, not the gateway and nobody else's |
| Runtime.ValidateServicePorts | packages/dn42_schemas/dn42_schemas/runtime.py:466-481 | accepts exactly when no two published rules take the same host port |
| Runtime.ValidateServices | packages/dn42_schemas/dn42_schemas/runtime.py:349-422 | accepts exactly the runtimes whose enabled services have the required roles, references, commands, mounts, published DNS ports, addresses and host ports, told from their fields |
| Runtime.ValidIffAcceptable | packages/dn42_schemas/dn42_schemas/runtime.py:349-481 | the checks and their helpers hold exactly of such runtimes |
| Runtime.ResolveMeans | packages/dn42_schemas/dn42_schemas/runtime.py:599-612 | a service's address is its own, that of the RPKI cache, or for router-netns the one after the gateway if it lies in the subnet |
| Runtime.ClaimsMean | packages/dn42_schemas/dn42_schemas/runtime.py:466-481 | a rule takes its host port or its range of them, on its address and protocol |
| DesiredState.Validated | packages/dn42_schemas/dn42_schemas/desired_state.py:81-123 | a validated state is settled for all four passes, has unique interface names, and differs from the input only in services, interfaces and dummies |
| DesiredState.SettledIsNormalised | packages/dn42_schemas/dn42_schemas/desired_state.py:119-123 | a settled state passes through the four passes unchanged |
| DesiredState.AfterPorts | packages/dn42_schemas/dn42_schemas/desired_state.py:126-211 | the first pass settles the ports, keeps the runtime valid and only extends services |
| DesiredState.AfterSocket | packages/dn42_schemas/dn42_schemas/desired_state.py:227-275 | the second settles the socket mount and undoes nothing of the first |
| DesiredState.AfterDns | packages/dn42_schemas/dn42_schemas/desired_state.py:278-340 | the third settles the DNS service and undoes nothing of the first two |
| DesiredState.NamesStayUnique | packages/dn42_schemas/dn42_schemas/desired_state.py:351-404 | the anycast interface never doubles a name |
| DesiredState.SortPorts | packages/dn42_schemas/dn42_schemas/desired_state.py:184-194 | the ports are a permutation in the order of the source's key |
| DesiredState.PortsAscend | packages/dn42_schemas/dn42_schemas/desired_state.py:184-194 | neighbours stand in order of host address, host ports, container ports and protocol, a missing end counting as the start |
| DesiredState.FirstWithMeans | packages/dn42_schemas/dn42_schemas/desired_state.py:236-312 | the service taken for a role is the first that has it, enabled or not |
| Validation.RevalidationIffAnchored | packages/dn42_schemas/dn42_schemas/desired_state.py:81-123 | validating again returns the state unchanged if no session hangs on a withdrawn anycast interface, and fails otherwise |
| Validation.GenerationIsFree | packages/dn42_schemas/dn42_schemas/desired_state.py:71-79 | changing the generation changes nothing else about validation |
| Validation.DnsIsAsAsked | packages/dn42_schemas/dn42_schemas/desired_state.py:278-404 | a DNS service, the anycast interface with exactly the bound addresses as host prefixes, and its registration are present exactly as the DNS section demands; every other interface and registration stays |
| Validation.CoreDnsRunsIff | packages/dn42_schemas/dn42_schemas/desired_state.py:288-340 | an enabled DNS service is there if and only if DNS is on and no disabled one stands in its place |
| Validation.CoreDnsIsWired | packages/dn42_schemas/dn42_schemas/desired_state.py:307-328 | an injected CoreDNS shares the namespace of a router-netns service, starts after it and sees the configuration |
| Validation.TunnelsAreReachable | packages/dn42_schemas/dn42_schemas/desired_state.py:147-211 | every listening port lies in the range and every router-netns service forwards the host port at the same place of the range to it |
| Validation.PlumbingIsThere | packages/dn42_schemas/dn42_schemas/desired_state.py:126-275 | the listening ports lie in the range and the managed port rule forwards it, and the first bird-router, enabled or not, has a writable control socket |
| Validation.SocketOf | packages/dn42_schemas/dn42_schemas/desired_state.py:227-275 | a bird-router ends up with a writable control socket exactly if it had one or is the first of its role |
| Validation.SocketsReachedIff | packages/dn42_schemas/dn42_schemas/desired_state.py:227-275 | every bird-router that runs has a writable control socket exactly if each had one or is the first of its role |
| Validation.DisabledRouterKeepsSocket | packages/dn42_schemas/dn42_schemas/desired_state.py:236-246 | a valid state whose running bird-router has no control socket |
| Validation.ServicesSurvive | packages/dn42_schemas/dn42_schemas/desired_state.py:126-340 | every service but DNS survives and gains nothing but ports and mounts, and none appears from nowhere |
| Validation.ServicesExactly | packages/dn42_schemas/dn42_schemas/desired_state.py:126-340 | the services of a validated state one by one: those of the input in order, router-netns with the one rule that publishes the range if it lacked it, the first bird-router with the one socket mount if it had none, all else as before; DNS services taken out if DNS is off; CoreDNS with its image, command, namespace, mount and dependencies at the end if none is there |
| Validation.AcceptedOnlyIf | packages/dn42_schemas/dn42_schemas/desired_state.py:81-275 | a state is accepted only if its runtime and references are in order, its tunnels listen on different ports within the range, and the first bird-router does not mount the socket read-only; what comes out passes the runtime checks |
| Validation.ReferencesIff | packages/dn42_schemas/dn42_schemas/desired_state.py:81-117 | the reference checks hold exactly if names are unique, sessions name interfaces that exist, external sessions that share an interface share their ASN, and the topology includes the node |
| Validation.DisabledServiceSuppressesDns | packages/dn42_schemas/dn42_schemas/desired_state.py:290-306 | a valid state with DNS on for which no CoreDNS will run |
| Validation.StrandedSessionFailsAgain | packages/dn42_schemas/dn42_schemas/desired_state.py:93-100 | a state that validates once and is refused the second time |
| Validation.Document.PublishWireguardPorts | packages/dn42_schemas/dn42_schemas/desired_state.py:126-211 | the first pass in place, with its port dictionary and its service loop |
| Validation.Document.ExposeControlSocket | packages/dn42_schemas/dn42_schemas/desired_state.py:227-275 | the second pass in place |
| Validation.Document.DeployCoreDns | packages/dn42_schemas/dn42_schemas/desired_state.py:278-340 | the third pass in place |
| Validation.Document.AnnounceAnycast | packages/dn42_schemas/dn42_schemas/desired_state.py:351-404 | the fourth pass in place |
| Validation.Document.ValidateReferences | packages/dn42_schemas/dn42_schemas/desired_state.py:81-123 | the checks and passes in order leave exactly the validated state, or report a failure |
| Validation.CollectListenPorts | packages/dn42_schemas/dn42_schemas/desired_state.py:127-141 | the set of listening ports, and whether two tunnels share one |
| Validation.PublishOn | packages/dn42_schemas/dn42_schemas/desired_state.py:172-202 | the rebuilt services, and whether any of them changed |
| Generations.RunKeeps | apps/control-server/app/services/materializer.py:58-99 | over any run the stored generations are exactly the last K up to the current one, the current one never goes back, and no stored snapshot changes |
| Generations.PublicationIsNext | apps/control-server/app/services/materializer.py:62-85 | a publication is the successor of the current generation and is stored under its own number |
| Generations.AdvanceMeans | apps/control-server/app/services/materializer.py:62-99 | after a publication the node has one generation more, the rows of exactly the last K with the others as they were, and the same cache |
| Generations.CacheIsInvisible | apps/control-server/app/services/desired_state.py:39-61 | after any run, whatever the cache lost, a cached read takes the snapshot an uncached one would |
| Generations.RollbackReproduces | apps/control-server/app/services/generations.py:108-145 | a rollback to a stored generation publishes its snapshot again, unchanged but for the generation, exactly when no session is stranded; otherwise nothing happens; a generation outside the window is not found |
| Generations.RollbackUndone | apps/control-server/app/services/generations.py:91-145 | rolling back to the generation before a rollback restores its content |
| Generations.Store.Materialize | apps/control-server/app/services/materializer.py:33-99 | the next generation of one node, numbered, validated and stored with the window before it unchanged, or a refusal that changes nothing |
| Generations.Store.RollbackTo | apps/control-server/app/services/generations.py:91-145 | the outcome and the new tables of a rollback, in every case |
| Generations.Store.Get | apps/control-server/app/services/desired_state.py:39-61 | returns the current published snapshot, refused exactly when a session is stranded, and leaves it in the cache |
| KeyPinning.KeysReachEveryPeer | apps/control-server/app/services/wireguard_keys.py:47-114 | in every run without rollback, peering patch and backfill, at every point, the current snapshot of every active node carries the remote node's recorded key on every enabled peered tunnel, if and only if no node that reports first has a published tunnel to itself that lacks the key |
| KeyPinning.StepKeepsIff | apps/control-server/app/services/materializer.py:227-262 | a write that publishes its node keeps that invariant exactly if it is not the first report of a node with such a tunnel |
| KeyPinning.ReportKeepsIff | apps/control-server/app/services/wireguard_keys.py:47-114 | a key report does exactly if the node has no published tunnel to itself that lacks the key |
| KeyPinning.KeyNeverChanges | apps/control-server/app/services/wireguard_keys.py:66-80 | a recorded key survives every run of every kind of write |
| KeyPinning.ReportPublishesSiblings | apps/control-server/app/services/wireguard_keys.py:90-114 | a first report publishes exactly the peers anew, in the same step; any other report publishes nothing |
| KeyPinning.NextGenerationIsPublished | apps/control-server/app/services/materializer.py:227-262 | whatever write other than a rollback gives a node its next generation, its snapshot then holds exactly its enabled WireGuard interfaces, none if it is retired, each with the non-empty key recorded for the peering's remote node or else the key of its spec |
| KeyPinning.KeyForMeans | apps/control-server/app/services/materializer.py:255-262 | the key handed out is the recorded one if there is one, else that of the spec |
| KeyPinning.SiblingsMean | apps/control-server/app/services/wireguard_keys.py:100-105 | the nodes to publish are those with a WireGuard interface on a peering towards the reporting node, itself excepted |
| KeyPinning.PatchKeepsIff | apps/control-server/app/api/v1/admin/peerings.py:158-177 | a patched peering keeps the invariant exactly when the affected snapshots already carry the new remote node's key |
| KeyPinning.BackfillKeepsIff | apps/control-server/app/services/peering_backfill.py:260-286 | a backfill does exactly when every linked tunnel's snapshot already carries its remote node's key |
| KeyPinning.RollbackKeepsIff | apps/control-server/app/services/generations.py:91-145 | a rollback does exactly when the old snapshot carries the keys recorded now |
| KeyPinning.BackfillGoesStale | apps/control-server/app/services/peering_backfill.py:260-286 | two nodes for which a backfill leaves a stale key published |
| KeyPinning.PatchGoesStale | apps/control-server/app/api/v1/admin/peerings.py:158-177 | two nodes for which a patch does |
| KeyPinning.SelfPeeringGoesStale | apps/control-server/app/services/wireguard_keys.py:100-105 | a node that peers with itself is left out of its own propagation |
| KeyPinning.ControlPlane.ApplyKeyReport | apps/control-server/app/services/wireguard_keys.py:47-87 | unknown node, first key, same key or another key decide the status; a rejection changes nothing, a match refreshes the escrow if one is given, a first report records key and escrow, and exactly the nodes with a tunnel towards the reporting one get their next generation, which is published from the tables |
| KeyPinning.ControlPlane.PropagateToPeers | apps/control-server/app/services/wireguard_keys.py:90-114 | exactly the nodes with a WireGuard interface on a peering towards the node, itself excepted, get one generation more, each published: its enabled WireGuard interfaces, none if it is retired, with the key recorded for the other end or else that of the spec; one after another equals all at once |
| RoutingAggregate.TableHoldsBest | apps/control-server/app/services/routing_aggregate.py:22-32 | every prefix once, with its last primary route or else its first route |
| RoutingAggregate.BestAreDistinct | apps/control-server/app/services/routing_aggregate.py:124-127 | as many best routes as distinct prefixes, and the same prefixes |
| RoutingAggregate.BestByPrefix | apps/control-server/app/services/routing_aggregate.py:22-32 | the dictionary loop computes them in first-seen order |
| RoutingAggregate.AggregateRoutes | apps/control-server/app/services/routing_aggregate.py:47-121 | every counter is the number of best routes with the property it stands for: family, prefix length, path length, origin, protocol, local or not, verdict; the total is the number of prefixes |
| RoutingAggregate.DescribedIsCounted | apps/control-server/app/services/routing_aggregate.py:63-98 | the tallies of the loop are the sizes of the sets of routes with each property |
| RoutingAggregate.PrefixReads | apps/control-server/app/services/routing_aggregate.py:18-69 | `address/length` has the length it spells and the family of its address, and an address alone has length 0 |
| RoutingAggregate.FirstSeen | apps/control-server/app/services/routing_aggregate.py:22-32 | the best routes stand in the order in which their prefixes are first seen |
| RoutingAggregate.ChurnBalances | apps/control-server/app/services/routing_aggregate.py:130-133 | announced less withdrawn is the change in size, and both are 0 exactly for equal sets |
| RoutingStore.GatedEqualsUngated | apps/control-server/app/services/routing.py:137-196 | after any run the hash-gated store is the ungated one, its entries read back as the dumps of the last observed table, the stored events add up to the number of prefixes held, which is the route count, and the stored statistics add up |
| RoutingStore.ReportKeeps | apps/control-server/app/services/routing.py:145-194 | one report, observed or not, keeps the row standing for the latest observed table; its event counts exactly the prefixes that came and those that went, and the latest 500 events are kept |
| RoutingStore.EntryRoundTripIff | apps/control-server/app/services/routing.py:37-70 | writing a route dictionary to its row and reading it back is the identity exactly if no key is missing, none with a default is null, and the origin is a number or null; what is read is always so |
| RoutingStore.RowRoundTripIff | apps/control-server/app/services/routing.py:37-70 | a row is rewritten as it is exactly if its family is that of its prefix and it has no NULL list |
| RoutingStore.TableReadsBack | apps/control-server/app/services/routing.py:37-70 | the dumps of observed routes read back from their rows unchanged, with the same prefixes |
| RoutingStore.GateIsInvisible | apps/control-server/app/services/routing.py:168-179 | where the hash gate holds back the rewriting, it would have written the same rows and counted no churn |
| RoutingStore.RunIsConsistent | apps/control-server/app/services/routing.py:160-167 | the stored statistics always add up to the stored count |
| RoutingStore.Store.RecordSnapshot | apps/control-server/app/services/routing.py:137-196 | the new row in every case, its entries, hash, statistics and event told from the reported routes and the table before; no other row changes |
| Backfill.UniqueName | apps/control-server/app/services/peering_backfill.py:110-118 | the base name or its first free numbered variant; the search ends |
| Backfill.DominantAsn | apps/control-server/app/services/peering_backfill.py:248-257 | the most frequent ASN, and of several such the one seen first |
| Backfill.AnchorMeans | apps/control-server/app/services/peering_backfill.py:72-91 | the first interface the session names, failing that the first that its neighbour is routed or allowed through or that bears its source address, and none only if there is neither |
| Backfill.ResolveMeans | apps/control-server/app/services/peering_backfill.py:94-107 | the remote node is the first other node that owns a neighbour or source address of the group, and there is none only if none does |
| Backfill.GroupSessions | apps/control-server/app/services/peering_backfill.py:166-185 | every valid session joins the group of its anchor or of its ASN, every other is skipped |
| Backfill.AnchorIff | apps/control-server/app/services/peering_backfill.py:72-91 | which interface a session goes by, told from names, routes, allowed addresses and its own addresses |
| Backfill.BackfillTakes | apps/control-server/app/services/peering_backfill.py:151-239 | every planned peering takes exactly the sessions that are its own, told from the fields of the rows |
| Backfill.GroupSeenAt | apps/control-server/app/services/peering_backfill.py:160-185 | ASN groups stand in the order in which they are first seen |
| Backfill.InSlotSplits | apps/control-server/app/services/peering_backfill.py:166-185 | a group keeps its sessions in the order of the rows |
| Backfill.BackfillPeerings | apps/control-server/app/services/peering_backfill.py:121-245 | the planned peerings are exactly the nonempty groups in order, each with its mode, a new name, whether one of its sessions is internal, its remote node, and exactly the valid sessions that go by its interface or, for a group without one, by no interface towards its ASN |
| BackfillResult.SessionsArePartitioned | apps/control-server/app/services/peering_backfill.py:166-239 | every orphan session is in exactly one planned peering, or is skipped because its spec is invalid |
| BackfillResult.InterfacesArePartitioned | apps/control-server/app/services/peering_backfill.py:151-223 | every orphan interface is in exactly one planned peering or is skipped |
| BackfillResult.NamesAreNew | apps/control-server/app/services/peering_backfill.py:187-239 | planned names are unused and pairwise distinct |
| BackfillResult.SecondRunCreatesNothing | apps/control-server/app/services/peering_backfill.py:10-15 | once the planned sessions are linked, another run creates nothing |
| BackfillResult.OrphansAfterApply | apps/control-server/app/services/peering_backfill.py:260-286 | applying links every valid session, so the orphans left are exactly the invalid ones |
| BackfillResult.Tables.ApplyPlans | apps/control-server/app/services/peering_backfill.py:260-286 | one new peering for each plan with its name, ASN, kind and remote node; a listed row that exists points at the last peering that lists it, and every other row is as before |
| Order.Sorted | apps/control-server/app/services/generations.py:66 | the members of a set of names in code-point order, each once |
| Order.LessMeans | apps/control-server/app/services/generations.py:66 | one string is before another exactly if at the first place where they part it ends or has the smaller code point |

## Left out

- FilePlan.ExecuteFilePlan: removing directories that a delete leaves empty, symbolic links and files where a directory is needed are not modelled; a write or delete either happens or fails.
- FilePlan.BuildFilePlan: hashes are not modelled, contents are compared in their place, and explicit managed prefixes, which no caller passes, are left out.
- Convergence.RenderDesiredState: template bodies are parameters of an interface; the other rendered files are a given list of paths outside `wireguard/` and the interface scripts.
- Convergence.BuildConvergencePlan: reason texts are not modelled.
- BirdConfig.RunLoadsIff: whether BIRD accepts a configuration is an outcome handed in, and the healer's restart of the daemon is a restart at any time.
- Executor.DeployPlan: image preparation and the two network steps are outcomes handed in, and a container is named by its service.
- Redeploy.HistoryKeeps: between deploys containers may stop, start and vanish, but no one else creates managed containers.
- ContainerPlan.BuildContainerPlan: a definition is the network mode and an opaque rest; how the rest is assembled (`definition.py`) is not part of this model.
- Repair.RepairedIff: the BIRD half of the healer and its circuit breaker are left out, and the failing scripts are the same all the time.
- Residue.HeldIsUnion: entries are kept per link, so a destination that `ip route replace` takes from one link for another is not modelled, nor is the MTU beyond the script it stands in; a script that fails halfway is taken to have done nothing.
- ContainerPlan.Propagate: reason texts are left out.
- BirdSocket.Framing.ReadReply: bytes are characters, code digits are ASCII, and UTF-8 decoding is not part of this model.
- Rpki.RpkiIndex.constructor: parsing ROA text is not part of this model, nor is the import-table aggregation beside it.
- SnapshotDiff.DiffSnapshots: paths are structured keys instead of text, and `True == 1` between JSON leaves is not modelled.
- DesiredState.Validated: field validators (name lengths, address syntax, string clean-up, filling of an open port range) are taken to have run.
- Validation.Document.ValidateReferences: error messages are not modelled, a failure is a failure.
- Generations.Store.Materialize: what the tables assemble is handed in; locks, transactions and deletion of nodes are not modelled.
- Generations.CacheIsInvisible: an entry may be lost at any time, which covers its lifetime; other keys of the cache are left out.
- KeyPinning.KeysReachEveryPeer: a materialisation that the schema refuses rolls its whole transaction back, which is a write that does not happen; link-local addresses and the rest of a snapshot are left out, as is deleting a node.
- Session.Session.RunOnce: the local-file and example sources and the race of background loops over one session are left out.
- Progress.CrashSafeProgress: a crash during the write of the identity file is before or after it, since that write is atomic.
- Doorbell.NoLostUpdate: a commit is published at some later time or the server's run ends; a lost publication leaves the commit unpublished.
- Doorbell.FallbackRecovers: the debounce delay, the back-off of the client task and the reading of a node without a generation row are not modelled.
- RoutingStore.Store.RecordSnapshot: the fleet and summary caches and the read queries are left out; the content hash is the content.
- RoutingAggregate.AggregateRoutes: the order in which counters are listed is left out, a prefix length that is not a plain number counts as 0, and the type checks that no dump of an observed route fails are left out.
- Backfill.BackfillPeerings: parsing of specs and addresses is an input; the order in which other nodes are looked at is that of the given list.
- Health derivation, heal circuits, address re-resolution, traffic rates, metrics and the loops around them.
- HTTP and WebSocket transport, the database and cache engines, the container engine's own calls, key derivation and encryption, the web interface, migrations and command line.
