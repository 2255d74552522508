# Tex: verified models of the enforcement, evidence and answer cores

Tex governs software agents. This project models the parts of it whose promises range over every run or every input, and proves those promises about the models with Dafny 4.11. `dafny verify dfyconfig.toml` checks everything.

| Component | Modules | Main result |
|---|---|---|
| Survival monitor and adaptive campaign | `Ville`, `Betting`, `Survival`, `Power`, `Attack`, `Depth`, `Campaign` | the monitor fires with probability at most alpha under every history-dependent adversary within the null, and breaches in a row always fire it; the search misses no chain its width and budget allow |
| Kernel egress floor and its agent | `Wire`, `Egress`, `Reconcile`, `LiveTick` | complete mediation; original-destination recovery through both byte-order conversions; caches follow the served set, key by key |
| Local-action enforcement | `LocalPep`, `Feed` | a denied inode is immutable over every run exactly when it was not mapped; every denial is authorised |
| Sealed-answer pipeline | `Spans`, `Templates`, `Gate`, `Phrasing`, `Floor`, `Drafter`, `Exhibits`, `Answer`, `Heard` | unique decomposition of sealed text; drafter noninterference; whatever is measured is spoken |
| Hash chains | `HashChain`, `Relink`, `LedgerRepair`, `SnapshotRepair`, `Seal` | repair converges; equal tips mean equal chains |
| Import graph | `Wiring` | reach is the least closed set; the defensive branch is dead |
| Governance matrix | `Governance` | counts are conserved; coverage does not depend on registry order |

The streams the Ville bound weighs are proved complete, distinct, of nonnegative weight and of total weight one (`Ville.StreamsComplete`, `Ville.StreamsDistinct`, `Ville.WeightNonnegative`, `Ville.CertainMass`), so the weight of a set of streams is its probability.

Code that updates state in place is a class or a method with loops, proved against a specification function; the theorems are lemmas about those functions.

How foreign parts enter: capital is a `real` product (or infinity at p0 = 0) in place of a log sum; scorers, mutation operators, shuffles, hashes, signers, the language model, string folding, window resolution and path-to-inode lookups are arbitrary functions. Hash injectivity is assumed only where a lemma says so. The numeric characters the lint forbids are an arbitrary class; `Phrasing.PlainLaw` says it holds the decimal digits and no letter, space, stop, colon or exclamation mark. The lint's lexicon is a parameter too; `Gate.NUMBER_WORDS` is the shipped one and `Floor.NumberWordsFloorFree` shows that it leaves the floor its words.

Where the code differs from its own description, the model follows the code:

- Datagrams of both families are meant for the UDP proxy; unconnected IPv6 ones go to the TCP proxy port (`Egress.DatagramPort`, `Egress.Sendmsg6MissesUdpPort`).
- The loop guard compares only addresses of its own family, so the IPv4 proxy in mapped form over an IPv6 socket is stashed as an original destination (`Egress.StashReadsAsProxyIff`, `Egress.RunReadsAsProxyIff`, `Egress.MappedProxyIsStashed`).
- The kill switch is said to leave the host ungoverned; the serve loop keeps polling and ignores its error. After a fault-free kill the host stays ungoverned exactly as long as no authentic, current set has a first known agent that resolves (`Feed.KillSwitchLasts`); a poll that fails part-way re-arms as well (`Feed.FailedPollRearms`), and an accepted one re-arms exactly the cgroups it names (`Feed.AcceptedPollRearms`).
- `computed_at` survives redaction although only handle, kind, unit and query are said to (`Drafter.RedactionShows`, `Drafter.ComputedAtIsHeard`).
- The vendored lint is called an exact mirror of the gate's; it looks for decimal digits only (`Gate.VendoredLintIsWeaker`, `Gate.VendoredLintDiffers`).
- The tenant view of the matrix counts only the band `HIGH` as high risk, the builder `HIGH` and `CRITICAL` (`Governance.TenantHighRiskUndercounts`, `Governance.TenantUngovernedUndercounts`, `Governance.CriticalIsMissed`).
- The attacker's objective is said to order by verdict; over a range of scores it does so exactly when the range is narrower than 2 (`Attack.OrdersByVerdictIffNarrow`).

## Model

| member | source | states |
|---|---|---|
| `Ville.Inequality` | src/tex/adversarial/completeness.py:180-218 | among all streams of any length, those on which a fair process started at capital 1 ever reaches 1/alpha weigh at most alpha |
| `Ville.FireBound` | src/tex/adversarial/completeness.py:227-267 | from an unfired history of capital k the fire probability within any horizon is at most alpha times k |
| `Ville.MassIsFireProbability` | src/tex/adversarial/completeness.py:247-267 | the weight of the firing streams is the horizon-recursive fire probability |
| `Survival.VilleBound` | src/tex/adversarial/completeness.py:196-267 | for every alpha, p0, horizon and history-dependent breach probability at most p0, the streams on which the shipped monitor fires weigh at most alpha |
| `Survival.SoundVilleBound` | src/tex/adversarial/completeness.py:227-267 | the same for a monitor with any sound strategy on its two counters |
| `Betting.PredictableVilleBound` | src/tex/adversarial/completeness.py:196-267 | the same for every predictable strategy: bets that depend on the whole history in any way, as long as they are nonnegative and cannot lose more than everything |
| `Betting.BetsAreFair` | src/tex/adversarial/completeness.py:227-267 | under the null such bets make capital a supermartingale at every history |
| `Survival.MonitorIsFair` | src/tex/adversarial/completeness.py:227-267 | under the null, the monitor's capital after any history does not grow in expectation |
| `Survival.ShippedIsSound` | src/tex/adversarial/completeness.py:227-245 | the plug-in bet is never negative and keeps both capital factors at one half or more |
| `Power.ShippedFactors` | src/tex/adversarial/completeness.py:227-245 | the shipped factors exactly: with rate (breaches + 1/2)/(n + 1), no bet while the rate is at most the null, the likelihood ratios rate/p0 and (1 - rate)/(1 - p0) up to halfway from the null to one, and a halving clean step beyond |
| `Power.BreachesFire` | src/tex/adversarial/completeness.py:227-267 | power: for every alpha and p0 and after every history, however clean, some number of further breaches in a row fires the shipped monitor |
| `Survival.SurvivalMonitor.Create` | src/tex/adversarial/completeness.py:196-225 | a monitor exists exactly for 0 < alpha < 1 and 0 <= p0 < 1 and starts fresh |
| `Survival.SurvivalMonitor.Observe` | src/tex/adversarial/completeness.py:247-267 | folds in one outcome; anything but 0 or 1 is refused and changes nothing |
| `Survival.SurvivalMonitor.ObserveAll` | src/tex/adversarial/completeness.py:505-507 | feeding a stream yields the run of that stream |
| `Survival.RunComputes` | src/tex/adversarial/completeness.py:247-309 | the streaming counters, capital, supremum and fired_at are those of the mathematical process |
| `Survival.RunTracksWealth` | src/tex/adversarial/completeness.py:247-309 | the recorded maximum is the supremum over all prefixes; fired_at is the first prefix that reaches 1/alpha |
| `Survival.FiredIffSignificant` | src/tex/adversarial/completeness.py:286-297 | p lies in [0, 1], and the monitor has fired exactly when p is at most alpha |
| `Survival.TrajectoryMonotone` | src/tex/adversarial/completeness.py:286-297 | over every continuation p only falls and a recorded firing never moves |
| `Survival.CleanStreamKeepsP` | src/tex/adversarial/completeness.py:227-289 | a clean stream keeps p at exactly 1 for every p0 and alpha |
| `Survival.FloorFiresAtFirstBreach` | src/tex/adversarial/completeness.py:247-267 | at p0 = 0 the first breach fires the monitor, at its own index |
| `Attack.ObjectiveOrdersByVerdict` | src/tex/adversarial/adaptive.py:76-91 | with scores less than 2 apart, as all in [0, 1] are, the objective orders by verdict first and then by lower score |
| `Attack.OrdersByVerdictIffNarrow` | src/tex/adversarial/adaptive.py:76-91 | over all scores of a range, a better verdict always has the larger objective if and only if the range is narrower than 2 |
| `Attack.WideScoresMisorder` | src/tex/adversarial/adaptive.py:76-91 | a forbidden candidate scored -5 outranks a permitted one scored 0 |
| `Attack.SortDescCorrect` | src/tex/adversarial/adaptive.py:281-284 | the beam sort is a permutation, best first, and stable within every objective value |
| `Attack.BeamKeepsBest` | src/tex/adversarial/adaptive.py:281-284 | nothing dropped from the beam beats anything kept |
| `Attack.BreachStreamRecorder.Score` | src/tex/adversarial/completeness.py:367-396 | forwards the inner score and appends exactly one breach indicator |
| `Attack.AdaptiveAttacker.TryOperator` | src/tex/adversarial/adaptive.py:264-278 | asks exactly the query of that operator on that entry, or none when it raises or changes nothing; log, stream and incumbent stay in step |
| `Attack.AdaptiveAttacker.Expand` | src/tex/adversarial/adaptive.py:263-278 | asks the operators' queries in the depth's order, cut only by budget or a bypass |
| `Attack.AdaptiveAttacker.Level` | src/tex/adversarial/adaptive.py:258-286 | one depth over the whole beam, in order, cut only by budget or a bypass |
| `Attack.AdaptiveAttacker.Attack` | src/tex/adversarial/adaptive.py:242-306 | the queries are exactly those of the specified level-by-level search, at most max(1, budget); a bypass ends it and is reported, otherwise the result is the earliest best over every query made |
| `Attack.CutIsCut` | src/tex/adversarial/adaptive.py:264-286 | a level's log is a prefix of its queue, within budget, shorter only by budget or a final bypass |
| `Attack.NextBeamIsBest` | src/tex/adversarial/adaptive.py:281-284 | the next beam is the first beamWidth candidates of the level by objective, ties in query order |
| `Depth.DeepBypassFound` | src/tex/adversarial/adaptive.py:256-288 | completeness in depth: with width at least n^maxDepth and budget above 1 + n + ... + n^maxDepth, every chain of at most maxDepth operators, each changing the content, that ends in PERMIT makes the seed bypassed under every shuffle |
| `Depth.OneStepFound` | src/tex/adversarial/adaptive.py:256-278 | with budget above the operator count any one-operator bypass is found, whatever the width and shuffle |
| `Attack.ReportIsHonest` | src/tex/adversarial/adaptive.py:290-306 | identifiers, static verdict, query count and bypass flag of a report are those of its search |
| `Attack.ReportedVerdictIsBest` | src/tex/adversarial/adaptive.py:242-306 | with scores in a range narrower than 2 no query of the search had a better verdict than the one reported |
| `Attack.ChainReproducesScore` | src/tex/adversarial/adaptive.py:290-306 | a reported mutation chain replayed on the seed scores as reported |
| `Campaign.StreamAccounts` | src/tex/adversarial/completeness.py:367-396 | the stream is as long as the summed queries, breaches once per bypassed seed, and is clean exactly when none was |
| `Campaign.ReportIsSegment` | src/tex/adversarial/adaptive.py:242-306 | the indicators of one seed's queries are all held but a final breach exactly when it was bypassed |
| `Campaign.FirstBreachPosition` | src/tex/adversarial/completeness.py:475-521 | the first breach sits at the summed query count through the first bypassed seed |
| `Campaign.FloorVerdict` | src/tex/adversarial/completeness.py:475-521 | at p0 = 0 the monitor fires exactly when some seed was bypassed, and at that count |
| `Campaign.RunAdaptiveCampaign` | src/tex/adversarial/adaptive.py:309-326 | one report per seed in order, and the recorded stream is the concatenation of their segments |
| `Campaign.MinQueries` | src/tex/adversarial/completeness.py:436-461 | the minimum over the reports |
| `Campaign.RunCertifiedCampaign` | src/tex/adversarial/completeness.py:475-521 | refused exactly for an empty corpus or an invalid level or null; otherwise monitor, coverage (budget, seeds, spend, attained minimum) and reports agree |
| `Campaign.RateIsShare` | src/tex/adversarial/adaptive.py:218-221 | the adaptive attack success rate is the bypassed share of the seeds, in [0, 1] |
| `Wire.HtonsInvolution` | pep/kernel/agent/main.go:59-59 | the port swap undoes itself |
| `Wire.HtonsSwaps` | pep/kernel/agent/main.go:59-59 | the swap exchanges the two bytes |
| `Wire.NetworkOrder` | pep/kernel/agent/main.go:59-70 | 127.0.0.1 packs to 0x0100007F and port 53 to 0x3500 |
| `Wire.PackUnpack` | pep/kernel/agent/main.go:61-88 | packing an unpacked word gives the word |
| `Wire.UnpackPack` | pep/kernel/agent/main.go:61-88 | unpacking packed bytes gives the bytes |
| `Wire.Words6RoundTrip` | pep/kernel/agent/main.go:72-96 | both directions of the 128-bit packing are inverse |
| `Wire.MappedRoundTrip` | pep/kernel/agent/main.go:84-96 | an IPv4 address survives its mapped form (section 2.5.5.2 of RFC 4291) |
| `Egress.KernelFloor.Connect4` | pep/kernel/bpf/tex_redirect.bpf.c:196-266 | the whole new context and maps, as mediation prescribes |
| `Egress.KernelFloor.Connect6` | pep/kernel/bpf/tex_redirect.bpf.c:268-356 | the same for IPv6 connects |
| `Egress.KernelFloor.Sendmsg4` | pep/kernel/bpf/tex_redirect.bpf.c:372-430 | the same for IPv4 datagrams, redirected to the UDP proxy port |
| `Egress.KernelFloor.Sendmsg6` | pep/kernel/bpf/tex_redirect.bpf.c:432-499 | the same for IPv6 datagrams, redirected to the TCP proxy port |
| `Egress.KernelFloor.SockOpsCallback` | pep/kernel/bpf/tex_redirect.bpf.c:510-546 | moves a pending cookie entry to the source tuple and consumes it |
| `Egress.CompleteMediation` | pep/kernel/bpf/tex_redirect.bpf.c:196-499 | refused exactly without configuration, on a cached FORBID that is not the proxy, or for a datagram no proxy takes; otherwise untouched (proxy or exempt DNS) or sent to the proxy address, a TCP connect at its TCP port and a datagram at the port its hook uses; a refusal changes nothing |
| `Egress.TcpPort` | pep/kernel/bpf/tex_redirect.bpf.c:253-264 | a redirected TCP connect goes to the proxy address at the TCP proxy port, whatever the UDP port is |
| `Egress.DatagramPort` | pep/kernel/bpf/tex_redirect.bpf.c:372-499 | a redirected datagram reaches the UDP proxy port exactly when it did not come through the IPv6 sendmsg hook, or the two ports are one |
| `Egress.Sendmsg6MissesUdpPort` | pep/kernel/bpf/tex_redirect.bpf.c:432-499 | under two different ports every redirected unconnected IPv6 datagram misses the UDP one |
| `Egress.HooksIdempotent` | pep/kernel/bpf/tex_redirect.bpf.c:196-499 | a hook run on its own output changes nothing more |
| `Egress.RunMediated` | pep/kernel/bpf/tex_redirect.bpf.c:196-546 | all of that at every step of every run |
| `Egress.ProxyNeverStashed` | pep/kernel/bpf/tex_redirect.bpf.c:196-499 | under a fixed configuration no run records the proxy, in the hook's own family, as an original destination |
| `Egress.PendingPersists` | pep/kernel/bpf/tex_redirect.bpf.c:253-264 | a pending cookie entry stays until re-stashed or consumed |
| `Egress.StashPersists` | pep/kernel/bpf/tex_redirect.bpf.c:510-546 | a source-tuple entry stays until re-keyed |
| `Egress.OriginalDestinationRecovered` | pep/kernel/bpf/tex_redirect.bpf.c:510-546 | after a redirected TCP connect, its established callback at s and no re-key of s, asking about s answers exactly the connect's address and port, and the cookie entry is gone |
| `Egress.DatagramDestinationRecovered` | pep/kernel/bpf/tex_redirect.bpf.c:372-499 | after a redirected datagram from a bound socket and no re-key of its source, asking about the sender answers exactly the datagram's address and port |
| `Egress.StashReadsAsProxyIff` | pep/kernel/bpf/tex_redirect.bpf.c:268-356 | a redirected destination reads back as the proxy exactly when it named it through the other family |
| `Egress.RunReadsAsProxyIff` | pep/kernel/bpf/tex_redirect.bpf.c:196-546 | over every run under a fixed configuration no map entry ever reads back as the proxy if and only if no redirected call that leaves a stash names it through the other family |
| `Egress.MappedProxyIsStashed` | pep/kernel/bpf/tex_redirect.bpf.c:268-356 | which happens for every proxy pair that is not one address in two forms |
| `Egress.AnswerPrintsEndpoint` | pep/kernel/agent/main.go:422-458 | the lookup prints a stashed endpoint as the address and port originally dialled |
| `Reconcile.PutAll` | pep/kernel/agent/main.go:275-281 | installs exactly the new keys as forbidden, leaving the others |
| `Reconcile.DeleteStale` | pep/kernel/agent/main.go:282-295 | removes exactly the keys installed before and not wanted now |
| `Reconcile.ReconcileCache` | pep/kernel/agent/main.go:275-297 | the cache is the old one with the agent's keys replaced by the new image |
| `Reconcile.NextKeys` | pep/kernel/agent/main.go:259-274 | the v4 and v6 images of the fetched set; unparsable addresses are skipped |
| `Reconcile.Agent.Warm` | pep/kernel/agent/main.go:248-300 | a whole tick leaves the caches reconciled and the memory updated; a failed fetch changes nothing |
| `Reconcile.CacheReconciled` | pep/kernel/agent/main.go:248-300 | after any ticks: current keys forbid, once-fetched keys are gone, never-fetched keys are untouched |
| `Reconcile.SystemEvolves` | pep/kernel/agent/main.go:248-300 | hooks interleaved with whole ticks leave the caches the evolution of the fetch history |
| `Reconcile.ServedIsCurrent` | pep/kernel/agent/main.go:248-300 | that evolution is at the image of the last successfully served set |
| `Reconcile.ListedIsRefused` | pep/kernel/bpf/tex_redirect.bpf.c:221-305 | between ticks, in every run, a served destination other than the proxy is refused by the v4 hooks and, mapped, by the v6 hooks |
| `Reconcile.ForbiddenIffListed` | pep/kernel/agent/main.go:248-300 | from empty caches, over every interleaving, a destination is forbidden exactly when an entry of the currently served set names it |
| `LiveTick.LiveRefines` | pep/kernel/agent/main.go:250-300 | ticks made of single map writes in any order, with traffic in between, refine whole ticks: at every moment the caches are those of the completed ticks up to the writes made so far |
| `LiveTick.RefusedThroughout` | pep/kernel/agent/main.go:275-297 | at every moment of every such run a served destination is refused until the tick deletes its own key, and a new one from the moment its key is put, by the v4 hooks and, mapped, by the v6 hooks |
| `LiveTick.KeptIsRefused` | pep/kernel/agent/main.go:275-297 | a destination in the served set and in the one being installed is refused at every moment of the tick |
| `LiveTick.WarmIsLegal` | pep/kernel/agent/main.go:250-300 | the agent's loops, visiting their keys in any order, are such a run and leave what the whole tick leaves |
| `LiveTick.DeletesComeLast` | pep/kernel/agent/main.go:275-295 | when the first stale key is deleted the whole fetched set is already in force |
| `LiveTick.EndsReconciled` | pep/kernel/agent/main.go:275-297 | once all writes are made the cache is what the whole tick leaves |
| `LocalPep.HooksAreExact` | pep/kernel/bpf/tex_lsm_local.bpf.c:81-246 | each hook denies exactly when an enrolled cgroup threatens an inode denied to it, else passes the earlier verdict on |
| `LocalPep.ForbiddenStepIsHarmless` | pep/kernel/bpf/tex_lsm_local.bpf.c:95-246 | an operation that would change a locked inode is refused by some hook it consults |
| `LocalPep.LockPersists` | pep/kernel/bpf/tex_lsm_local.bpf.c:214-246 | no step short of lifting the denial hands the cgroup a shared-writable mapping |
| `LocalPep.LockedThroughout` | pep/kernel/bpf/tex_lsm_local.bpf.c:81-246 | the lock holds after every run |
| `LocalPep.WholeRunImmutability` | pep/kernel/bpf/tex_lsm_local.bpf.c:81-246 | over every interleaving with other tasks and the loader, no step of the cgroup unlinks, renames, truncates, overwrites or executes the inode |
| `LocalPep.AloneItIsImmutable` | pep/kernel/bpf/tex_lsm_local.bpf.c:81-246 | with no other task acting, names and content end the run as they began |
| `LocalPep.ImmutableIffUnmapped` | pep/kernel/bpf/tex_lsm_local.bpf.c:81-246 | for a governed cgroup and an inode denied to it, the inode is immutable over every run if and only if the cgroup holds no shared-writable mapping of it at the start, and one step already tells |
| `LocalPep.MappingWrites` | pep/kernel/bpf/tex_lsm_local.bpf.c:178-246 | any such mapping lets the very next store change the inode |
| `LocalPep.EarlierMappingStillWrites` | pep/kernel/bpf/tex_lsm_local.bpf.c:228-246 | such a mapping can be there: a run that opens and maps the file, then enrols and denies, ends denied but not locked, and the next store writes, as the hook comments say |
| `LocalPep.DisarmedIsInert` | pep/kernel/bpf/tex_lsm_local.bpf.c:81-92 | with nothing enrolled every hook returns the verdict it was given |
| `LocalPep.ReenrollRestores` | pep/kernel/bpf/tex_lsm_local.bpf.c:81-92 | re-enrolling after the kill switch restores exactly the earlier denials |
| `Feed.Loader.Enroll` | pep/kernel/localpep/loader.go:78-87 | adds the resolved cgroup, or changes nothing |
| `Feed.Loader.Forbid` | pep/kernel/localpep/loader.go:91-93 | adds one pair, or changes nothing |
| `Feed.Loader.Unforbid` | pep/kernel/localpep/loader.go:96-102 | removes one pair; an absent one is no error |
| `Feed.Loader.Disarm` | pep/kernel/localpep/loader.go:121-139 | clears the enrolled set key by key, faults included, keeps the denials, and leaves exactly a kill turn of the serve loop |
| `Feed.Loader.ApplyFeed` | pep/kernel/localpep/feed.go:93-120 | applies entries in order, memoising enrolments, up to the first error |
| `Feed.Loader.PollFeed` | pep/kernel/localpep/feed.go:125-139 | fetch, verify, epoch check, apply; a refusal before applying leaves the maps alone, a failure while applying keeps what was applied |
| `Feed.ApplyAllAccounts` | pep/kernel/localpep/feed.go:93-120 | applying only adds, adds only what an entry asked for, and a success accounts for every entry as applied or skipped |
| `Feed.CountersCount` | pep/kernel/localpep/feed.go:93-120 | a successful apply counts as applied exactly the entries whose agent and inode resolve |
| `Feed.VerifiesIffAuthentic` | pep/kernel/localpep/feed.go:39-58 | verification yields a set exactly when the envelope has both fields, its signature is the MAC of its text under the secret, and the text parses as that set |
| `Feed.ServeStepSafe` | pep/kernel/localpep/cmd/tex-local-pep/main.go:96-128 | one turn of the serve loop: a poll without an authentic set of a current epoch changes nothing; epoch and deny map never shrink |
| `Feed.FeedSafety` | pep/kernel/localpep/feed.go:125-139 | over any polls and kill switches the epoch never falls and the deny map only grows |
| `Feed.DenialsAreAuthorised` | pep/kernel/localpep/feed.go:39-58 | every denial was there at the start or was asked for by an entry of a set whose signature is the MAC of its text under the secret and whose epoch was not stale |
| `Feed.ForgeriesDoNothing` | pep/kernel/localpep/feed.go:39-58 | in a run none of whose turns carries a matching signature, the deny map and the epoch never change and nothing is enrolled |
| `Feed.NoReplay` | pep/kernel/localpep/feed.go:125-139 | once a set of some epoch is accepted, no later turn that brings an older set changes anything |
| `Feed.KillSwitchLasts` | pep/kernel/localpep/cmd/tex-local-pep/main.go:96-128 | after a fault-free kill the host stays ungoverned over any turns if and only if none of them brings an authentic, current set whose first known agent resolves; while it does, every hook returns the verdict it was given |
| `Feed.DisarmedStep` | pep/kernel/localpep/feed.go:93-139 | from an ungoverned host one turn governs something exactly under that condition, whether the poll then succeeds or fails |
| `Feed.FailedPollRearms` | pep/kernel/localpep/feed.go:93-120 | an input: the first entry enrols its agent, the second stops the application, the poll reports failure and the cgroup is governed |
| `Feed.AcceptedPollRearms` | pep/kernel/localpep/feed.go:93-139 | after a kill switch and an accepted poll, governed are exactly the cgroups a faulted kill left and those the poll names |
| `Feed.AppliedEntryIsEnforced` | pep/kernel/localpep/feed.go:93-120 | after a successful poll every hook refuses what threatens an applied entry's inode |
| `Templates.WriteAfterRead` | src/tex/answers/gate.py:86-88 | writing a template's tokens back gives the template |
| `Templates.ReadAfterWrite` | src/tex/answers/gate.py:86-88 | reading what plain tokens write gives them back |
| `Templates.RenderInterleaves` | src/tex/answers/gate.py:190-196 | substitution is interleaving: prose as it stands, one value per slot, values not re-scanned |
| `Templates.WordsOfSegments` | src/tex/answers/gate.py:110-138 | the words of the blanked prose are exactly the words of its segments |
| `Templates.CharsOfSegments` | src/tex/answers/gate.py:110-134 | and so are its characters, spaces apart |
| `Gate.LintIsExact` | src/tex/answers/gate.py:116-145 | the lint accepts exactly the templates whose every prose segment is silent and whose every slot is known |
| `Gate.GateAll` | src/tex/answers/gate.py:264-290 | the survivors in input order, and whether any span died |
| `Gate.SurvivesIffDecomposes` | src/tex/answers/gate.py:228-253 | a span is sealed exactly when its text is its silent prose with each slot replaced by its exhibit's rendering |
| `Gate.DecompositionUnique` | src/tex/answers/gate.py:165-196 | such a decomposition is the template's own tokenization, so there is at most one |
| `Gate.GateDecomposition` | src/tex/answers/gate.py:264-290 | every survivor is SEALED, freshly anchored and decomposes in exactly one way |
| `Gate.GateIdempotent` | src/tex/answers/gate.py:264-290 | gating the survivors again returns them unchanged and nothing dies |
| `Gate.JudgeOrderFree` | src/tex/answers/gate.py:205-225 | with distinct handles the order of the exhibits changes neither the ruling nor the seal |
| `Gate.VendoredLintIsWeaker` | src/tex/answers/drafter.py:114-137 | what the gate's lint accepts the vendored lint accepts; they differ exactly on numeric characters that are no decimal digits |
| `Gate.VendoredLintDiffers` | src/tex/answers/drafter.py:61-62 | every such character tells them apart |
| `Gate.AnchorBinds` | src/tex/answers/gate.py:205-225 | under an injective digest sealed spans with one anchor are the same span and rest on the same exhibit anchors |
| `Gate.SealIsOver` | src/tex/answers/gate.py:205-225 | the digest is over template, slots, text and each non-empty anchor as often as exhibits the template names carry it |
| `Gate.SealFeelsNamed` | src/tex/answers/gate.py:214-218 | under an injective digest, changing one exhibit's anchor changes the seal exactly when the span names that exhibit |
| `Gate.VoiceIs` | src/tex/answers/gate.py:148-196 | a slot says its exhibit's spoken form, or the digits or text of a scalar; a structure has no raw voice; with repeated handles the last exhibit and slot speak |
| `Spans.DecimalRoundTrip` | src/tex/answers/gate.py:158-162 | a count's raw rendering is digits without a leading zero that read back as the count |
| `Floor.FloorFrameSilent` | src/tex/answers/drafter.py:239-383 | a floor sentence's prose speaks a quantity exactly when the noun it borrows from the exhibit does |
| `Floor.FloorLints` | src/tex/answers/drafter.py:239-411 | a floor template passes the lint when that noun is silent |
| `Floor.FloorLintsOnlyIf` | src/tex/answers/drafter.py:239-411 | and, without stray braces, only then |
| `Floor.NumberWordsFloorFree` | src/tex/answers/gate.py:35-79 | the shipped lexicon holds no word the floor uses |
| `Floor.DraftFloor` | src/tex/answers/drafter.py:393-411 | one proposal per exhibit in order, at most three |
| `Drafter.CleanSlots` | src/tex/answers/drafter.py:505-517 | the slot loop: the first slot that fails decides, an unhashable handle throws |
| `Drafter.ParseAndValidate` | src/tex/answers/drafter.py:475-521 | the span loop: the first failure decides, with its reason |
| `Drafter.ReplyIsExact` | src/tex/answers/drafter.py:475-521 | a reply yields proposals exactly when it is a non-empty list whose first three entries are well-formed spans carrying them |
| `Drafter.Draft` | src/tex/answers/drafter.py:524-571 | the proposals and the prompts shown, for any model or none |
| `Drafter.DraftContract` | src/tex/answers/drafter.py:524-571 | one to three proposals, at most two calls, redacted prompts, a retry only after a refusal and carrying its reason; the result is the floor or vetted in full |
| `Drafter.Noninterference` | src/tex/answers/drafter.py:421-468 | exhibits equal after redaction give the same drafts and the same prompts for every model |
| `Drafter.RedactionIsTheWholeView` | src/tex/answers/drafter.py:421-427 | exhibits that differ after redaction are told apart by some model |
| `Drafter.RedactionShows` | src/tex/answers/drafter.py:421-427 | what survives redaction is exactly handle, kind, unit, query and computed_at |
| `Drafter.ComputedAtIsHeard` | src/tex/answers/drafter.py:421-427 | so a difference in computed_at alone can change a draft |
| `Exhibits.MatchingRows` | src/tex/answers/exhibits.py:268-310 | durable rows if any, else the matching listing newest first, cut at the limit |
| `Exhibits.NewestIsExact` | src/tex/answers/exhibits.py:300-310 | exactly the matching rows, once per save, strictly from newest to oldest |
| `Exhibits.MatchesIs` | src/tex/answers/exhibits.py:98-103 | a row is selected exactly when its folded stamp is the tenant's or shared, its verdict is the one asked and it lies in the half-open window |
| `Exhibits.ForeignRowsDoNotMatter` | src/tex/answers/exhibits.py:98-103 | tenant isolation: what is selected is the same with and without every other tenant's rows |
| `Exhibits.AnswersAreIsolated` | src/tex/answers/exhibits.py:268-340 | so no count, list or latest record of a listed store depends on them |
| `Exhibits.VerdictAsked` | src/tex/answers/exhibits.py:117-131 | the four verdict words accepted, HELD meaning ABSTAIN |
| `Exhibits.CountRows` | src/tex/answers/exhibits.py:313-340 | the durable count, else the number of matching rows |
| `Exhibits.CountIsMatches` | src/tex/answers/exhibits.py:313-340 | without durable reads the count is the number of matching save positions |
| `Exhibits.AdjacentWindowsAdd` | src/tex/answers/exhibits.py:215-232 | half-open windows: a window's count is the sum over its two parts and the undated rows |
| `Exhibits.BoundedHasNoUndated` | src/tex/answers/exhibits.py:221-223 | only the doubly unbounded window holds undated rows |
| `Exhibits.HeldWaiting` | src/tex/answers/exhibits.py:625-641 | the held rows of the window that no human has sealed |
| `Exhibits.WaitingIsExact` | src/tex/answers/exhibits.py:592-641 | over a listed store a row waits exactly when it matches and is not resolved |
| `Exhibits.UnresolvedOfNone` | src/tex/answers/exhibits.py:592-622 | an unreadable resolution source hides no hold |
| `Exhibits.CountDecisions` | src/tex/answers/exhibits.py:382-423 | the count exhibit or the error of a missing tenant, unknown verdict or unusable store |
| `Exhibits.CountHeldWaiting` | src/tex/answers/exhibits.py:680-722 | the waiting-count exhibit, or the error |
| `Exhibits.HoldWiresAgree` | src/tex/answers/exhibits.py:680-782 | the waiting count and the waiting list succeed together and agree on zero, one and every cap |
| `Exhibits.RemainderIsHonest` | src/tex/answers/exhibits.py:426-442 | up to three names, and the spoken remainder is exactly the rest |
| `Exhibits.NamesAreJoined` | src/tex/answers/exhibits.py:426-442 | how one to four names are joined |
| `Exhibits.ListSaysNewest` | src/tex/answers/exhibits.py:445-495 | a list exhibit names the newest matching rows, as many as the limit |
| `Exhibits.RecordIsVisible` | src/tex/answers/exhibits.py:498-588 | a record by id or from the listing is one the tenant may see and of the verdict asked for; a durable read's is its first row for exactly that tenant and verdict |
| `Exhibits.RunningAgents` | src/tex/answers/exhibits.py:820-833 | the tenant's running agents in registry order |
| `Exhibits.RunningIsExact` | src/tex/answers/exhibits.py:820-833 | exactly the agents of this very tenant that are neither SLEEPING nor REVOKED |
| `Answer.OnlyTheLintKills` | src/tex/api/answer_routes.py:329-373 | a proposal turned into a span dies at the gate exactly when its template fails the lint |
| `Answer.BuildSpans` | src/tex/api/answer_routes.py:596-602 | the spans of the proposals that fill, in order |
| `Answer.FloorSurvives` | src/tex/api/answer_routes.py:596-608 | every floor sentence over speakable exhibits survives, in order, with its exhibit's value, and nothing dies |
| `Answer.DraftedNeverDies` | src/tex/answers/drafter.py:524-571 | whatever model drafts, the gate kills nothing drafted over speakable exhibits |
| `Answer.OverallTier` | src/tex/api/answer_routes.py:444-453 | the weakest tier among the spans, SEALED when there are none |
| `Answer.Respond` | src/tex/api/answer_routes.py:562-621 | the response for every gathered result, each abstention with its reason |
| `Answer.MeasuredIsSpoken` | src/tex/api/answer_routes.py:596-621 | for every store, registry, tenant and intent, a well-formed measured exhibit is spoken as one sealed sentence |
| `Answer.AbstainsIffUnmeasured` | src/tex/api/answer_routes.py:562-621 | the route abstains exactly when nothing well-formed was measured; gate_killed_all never happens |
| `Answer.CountSaysItsNumber` | src/tex/answers/drafter.py:239-324 | a count says "No ..." exactly at zero, otherwise its decimal followed by silent prose |
| `Heard.CountTellsWhatItCounts` | src/tex/answers/drafter.py:163-324 | of the verdict words a spoken count carries exactly the one of the verdict counted, and of the window words exactly the one of its window |
| `Answer.VoicedSaysItsSpoken` | src/tex/answers/drafter.py:327-383 | a list or record sentence is silent prose around exactly its exhibit's spoken form |
| `Answer.CountIsSpoken` | src/tex/api/answer_routes.py:596-621 | end to end for every count intent and store: the spoken text carries exactly the measured number |
| `Answer.GatheredCountIsTheCount` | src/tex/api/answer_routes.py:436-441 | that number is the store's count for the tenant, verdict and window |
| `Answer.GatherReaches` | src/tex/api/answer_routes.py:392-441 | every intent reaches its own tool |
| `Answer.HeldRecordIsHeld` | src/tex/api/answer_routes.py:417-428 | a record question with a held word is never answered with a row of another verdict |
| `HashChain.SameTipSameChain` | scripts/repair_discovery_ledger.py:86-101 | under an injective link hash two verifying chains with one tip are the same chain |
| `HashChain.AlteredChainChangesTip` | scripts/repair_discovery_ledger.py:86-101 | any altered verifying chain has another tip |
| `Relink.NothingToFixIffVerifies` | scripts/repair_discovery_ledger.py:64-110 | the plan is empty exactly when the table verifies |
| `Relink.ApplyPlanRelinks` | scripts/repair_discovery_ledger.py:64-110 | applying the planned updates by key gives the relinked table |
| `Relink.RepairConverges` | scripts/repair_discovery_ledger.py:64-110 | for every table with unique keys: verifies, re-plans to nothing, only hash columns changed, rows before the first divergence untouched |
| `Relink.StaleAppendIsOneBrokenRow` | scripts/repair_discovery_ledger.py:64-110 | an append off another tip is flagged alone, exactly when its columns differ |
| `LedgerRepair.Recompute` | scripts/repair_discovery_ledger.py:64-110 | the loop computes that plan, both tips and the first divergence |
| `LedgerRepair.FirstOfIsFirst` | scripts/repair_discovery_ledger.py:64-110 | the divergence named is the first row whose columns are wrong |
| `LedgerRepair.Repair` | scripts/repair_discovery_ledger.py:113-168 | applied, the table is relinked and exit is 0; the exit code tells the truth either way |
| `LedgerRepair.VerifyChain` | src/tex/stores/discovery_ledger.py:145-175 | true exactly for verifying tables |
| `LedgerRepair.StaleLedgerAppend` | scripts/repair_discovery_ledger.py:64-110 | a ledger append off a stale tip is one broken row that re-links to the true tip |
| `LedgerRepair.SplitBrainForks` | scripts/repair_discovery_ledger.py:64-110 | two writers on one tip leave exactly the second append broken |
| `LedgerRepair.SameTipSameLedger` | scripts/repair_discovery_ledger.py:86-101 | verifying ledgers with one tip agree in length, columns and payload digests |
| `SnapshotRepair.PlanFixes` | scripts/repair_governance_snapshots.py:79-97 | the loop computes the plan; a first row that links to something is refused |
| `SnapshotRepair.Repair` | scripts/repair_governance_snapshots.py:100-155 | what is committed verifies; nothing else is written; a roll-back never happens |
| `SnapshotRepair.VerifyWindow` | src/tex/stores/governance_snapshots.py:820-864 | whether the newest rows are intact among themselves, and the first break |
| `SnapshotRepair.RepairedWindowsIntact` | src/tex/stores/governance_snapshots.py:820-864 | every window of a verifying table is intact |
| `SnapshotRepair.FullWindowIsVerification` | src/tex/stores/governance_snapshots.py:820-864 | a whole-table window with a null first link is verification |
| `SnapshotRepair.SameTipSameSnapshots` | src/tex/stores/governance_snapshots.py:867-901 | under an injective hash two verifying snapshot tables with one tip hold the same snapshots |
| `Seal.SealCampaign` | src/tex/adversarial/seal.py:93-157 | always a verifying chain of n + 1 records, one per seed in order and the summary |
| `Seal.SealCertifiedCampaign` | src/tex/adversarial/completeness.py:527-642 | refused exactly for vacuous coverage, else seeds, summary and one certificate record in a verifying chain |
| `Seal.SummarySays` | src/tex/adversarial/seal.py:126-157 | the summary names every seed in order and the bypassed share |
| `Seal.SameTipSameBundle` | src/tex/adversarial/seal.py:73-90 | verifying bundles with one tip agree in length and payload digests |
| `Wiring.BuildGraph` | audit_tools/wiring.py:34-50 | forward and reverse edges are exactly the resolved imports |
| `Wiring.EdgesArePrefixes` | audit_tools/wiring.py:21-50 | an edge leads to exactly the other modules whose dotted name is a leading part of an import |
| `Wiring.Reach` | audit_tools/wiring.py:52-61 | terminates; the result holds the seeds, is closed under edges and is the least such set |
| `Wiring.ReachIsPaths` | audit_tools/wiring.py:52-61 | membership is being at the end of a path from a seed |
| `Wiring.Classify` | audit_tools/wiring.py:74-108 | every module labelled as its reachability says; the defensive branch is never taken |
| `Wiring.SelfAudit` | audit_tools/selfaudit.py:59-78 | the second search reaches every module labelled WIRED |
| `Governance.BuildIndex` | src/tex/api/agent_routes.py:766-812 | the dictionaries hold, per agent, observation, newest sighting and last provenance, and per unresolved key its entry |
| `Governance.Build` | src/tex/api/agent_routes.py:766-959 | one row per agent, then one per ghost key, and counters equal to an independent recount |
| `Governance.RowFromIndex` | src/tex/api/agent_routes.py:814-896 | a row read off the dictionaries is the row defined on the ledgers |
| `Governance.RecountConserves` | src/tex/api/agent_routes.py:863-910 | the four states partition the rows; derived counts are bounded by their parents |
| `Governance.Conservation` | src/tex/api/agent_routes.py:766-959 | row count is registry size plus distinct ghost keys, and the states sum to it |
| `Governance.StatesMean` | src/tex/api/agent_routes.py:717-728 | governed are the agents seen outside and decided, ungoverned those seen and never decided plus the ghost keys, partial those decided and never seen, unknown the rest |
| `Governance.GhostShowsNewest` | src/tex/api/agent_routes.py:791-812 | a ghost row speaks for the unresolved entry of its key with the newest sighting |
| `Governance.ProvenanceIsLast` | src/tex/api/agent_routes.py:782-790 | an agent's provenance is the last entry that resolved to it |
| `Governance.LastDecisionIsMaximum` | src/tex/api/agent_routes.py:830-834 | the last decision is the maximum over the agent's actions |
| `Governance.ForbidsCounted` | src/tex/api/agent_routes.py:829-829 | the forbid count is the number of FORBID actions, in any case |
| `Governance.GhostExists` | src/tex/api/agent_routes.py:766-812 | a ghost row exists exactly for keys of unresolved entries |
| `Governance.LastSeenIsMaximum` | src/tex/api/agent_routes.py:766-812 | last-seen is the maximum over the agent's entries |
| `Governance.CoverageOrderFree` | src/tex/api/agent_routes.py:766-959 | reordering the registry changes no coverage line |
| `Governance.TenantHighRiskUndercounts` | src/tex/api/agent_routes.py:1113-1146 | the tenant path never counts more high-risk rows, and as many exactly when every such row is literally HIGH |
| `Governance.TenantUngovernedUndercounts` | src/tex/api/agent_routes.py:1129-1131 | the same for its count of high-risk ungoverned rows |
| `Governance.CriticalIsMissed` | src/tex/api/agent_routes.py:1121-1121 | an input: a CRITICAL row counts for the builder and not for the tenant path |
| `Governance.ResolvedKeyMayStillHaunt` | src/tex/api/agent_routes.py:766-812 | a key resolved in one entry can still leave a ghost row from another |

## Left out

- Floating-point rounding, `log1p` and `exp` in the monitor: capital is exact and real.
- Campaign.RunCertifiedCampaign: does not state the residual attack-rate bound of the certificate, which `wsr_upper_bound` computes; that function is not part of this model.
- LRU eviction, map capacity and ignored map errors in the kernel floor: entries stay until overwritten or deleted by the modelled code.
- Egress.OriginalDestinationRecovered: speaks of the last redirected connect on the cookie; a refused or exempt connect stashes nothing.
- Egress.ProxyNeverStashed: compares addresses within the hook's own family only; `Egress.RunReadsAsProxyIff` gives the exact condition across families.
- `mprotect`, hard links, inode reuse and cgroup migration: outside the operations the nine hooks mediate; inode 0 is never denied.
- Socket, UDS, peer-credential and eBPF loading calls: foreign calls.
- SHA-256, HMAC and signatures: abstract functions.
- Building and texts of mutation operators, and ASR per defence class: arbitrary or derived easily from the reports.
- Record fields of sealed payloads beyond result, summary and certificate, and the readers of bundles: no further chain property.
- Blank-stripping of ledger metadata, advisory locks and SQL: tables are sequences of rows, writes are atomic.
- Import-name normalisation rules beyond the edges they produce, and the textual rules that name a parked module's label: word lists.
- Display sort of governance rows and the differing coverage payload shapes: presentation.
- Contents of list and record values and of the act-able rows: a list value carries its size, rows their ids, since the gate never speaks them.
- Resolution of window labels to UTC bounds, UUID parsing and agent metadata lookup: the resolved window, key and agent are inputs.
- Intent parsing, the LLM router, HTTP, DTOs and authentication: I/O plumbing and word lists.
- Case folding in the lint beyond ASCII: words are ASCII letters, so nothing else is folded.
- Floor.FloorLintsOnlyIf: assumes a unit without braces and a word-safe handle, since a unit that spells a slot could lint clean.
- The prompt text around question, redacted exhibits and retry reason: a prompt is those three.
- LedgerRepair.Repair: takes row keys as unique, as the table's primary key makes them.
- SnapshotRepair.Repair: the same for snapshot ids; `_compute_snapshot_hash` is taken to ignore the record's own stored hash columns, and snapshots to have no digest column.
