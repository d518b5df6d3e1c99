# Durable protocols of the portal

This project models the protocols that make the customer portal's slow work restartable, and proves what
they promise over every run.

* **Billing reports.** A report freezes a snapshot of everything it bills from, cuts its period into
  seven-day windows per metric and project, queries each window and bisects those that are too large,
  merges the checkpoints, renders rows, and delivers files with a checkpoint after each. `UsageDict`,
  `Gnocchi`, `Shards`, `ShardedUsage`, `Rendering`, `Packages`, `Printed`, `Billed`, `Artifacts` and
  `ReportRun` follow that path; `JobRuns` couples the scheduled runs to their reports, `Resizes` is the
  history that setup fees are read back from, and `SetupFees` follows them into the rows.
* **GitOps publication.** A preview merges the last published tree, the repository as it is and a new
  proposal; once approved it is committed on the head it was prepared against and pushed to a branch that
  others advance too. `Addresses`, `Manifests`, `Recognition` and `Fields` are the printer and
  recogniser of a cluster's tree; `Git`, `Preview` and `Convergence` the preparation; `Remotes` and
  `Publish` the remote and the publisher; `Operations` the queue of operations around them, `Lifecycle`
  what an undisturbed operation comes to, and `Workers` the queue and the remote together. `Example`
  shows that previews exist.
* **Credentials.** `Credentials` keeps a database pin and a versioned secret store in step without a
  shared transaction.
* **Rate limiting.** `RateLimiter` is the reentrant limiter of OpenStack calls.

Code that changes rows in place is a class whose methods are tied to a step function on values; whole
runs are sequences of steps, and a crash falls between two of them. Where the outside can answer, fail,
be late or lose a reply, the model takes that as given and quantifies over it. Timestamps are whole
seconds, decimals are exact reals with the final rounding modelled, and YAML is documents beside a
formatting style.

In one place the code does more than its documentation says, and the model follows the code. Package
pricing is described as extending beyond the largest package; the code extends from the largest package
to every count without a package of its own that is not below the smallest. So where an increment is
priced and the packages leave a gap, a count in the gap is priced by subtracting increments, and only
then (`Packages.IncrementOnlyBeyond`; `Packages.GapExample` is an instance).

## Model

| member | source | states |
|---|---|---|
| UsageDict.AccumulateMeaning | customer-portal/app/billing_reports.py:74-95 | grouping records into a dictionary keeps exactly the keys that occur, each once, with the sum of its records |
| UsageDict.AccumulateConserves | customer-portal/app/billing_runner.py:235-261 | grouping neither loses nor invents hours or size-months, whatever the keys |
| UsageDict.AccumulatePermutation | customer-portal/app/billing_reports.py:74-99 | the grouped map, and its records up to order, do not depend on the order of the input |
| UsageDict.AddGroup | customer-portal/app/billing_runner.py:1262-1277 | adding a resource's points one at a time or their sum at once leaves the same dictionary |
| Gnocchi.SumMeasures | customer-portal/app/billing_runner.py:1184-1260 | a group is accepted exactly when every point is hourly, aligned, in range, non-negative and, unless sizes are additive, unique; then the totals are the sums of one charge per point |
| Gnocchi.SteadyUsage | customer-portal/app/billing_runner.py:1240-1260 | a size held steadily for n hours is n hours and its share of the period; held for the whole period it is that many size-months |
| Gnocchi.RollUpGroup | customer-portal/app/billing_runner.py:1167-1277 | one group's usage joins the results exactly when its points are acceptable; too many points ask for a bisection |
| Gnocchi.RollUpProject | customer-portal/app/billing_runner.py:1106-1277 | one project's answer is rolled up exactly when it has a bounded number of complete groups from distinct sources, each acceptable; it asks for a bisection exactly when the first group that is not has too many points |
| Gnocchi.RollUpResponse | customer-portal/app/billing_runner.py:1088-1118 | one response adds its charges exactly when it is acceptable, and asks for a bisection exactly when it timed out, was oversized, or its first unacceptable group has too many points |
| Gnocchi.QueryUsage | customer-portal/app/billing_runner.py:1045-1298 | a query yields usage exactly when every project's answer is acceptable, and then the accumulation of one charge per point; it asks for a bisection exactly when the first unacceptable answer timed out, was oversized or has too many points, and fails otherwise |
| Shards.ReportShards.Windows | customer-portal/app/billing_reports.py:56-61 | the generator yields consecutive windows of at most seven days that make up the planned rows |
| Shards.ReportShards.CreateShards | customer-portal/app/billing_reports.py:287-309 | the first visit creates one pending row per metric, project and window, and they tile the period |
| Shards.PlannedWeekly | customer-portal/app/billing_reports.py:56-61 | each planned window begins a whole number of seven-day spans into the period and lasts seven days, the last one up to its end |
| Shards.PlannedInv | customer-portal/app/billing_reports.py:287-309 | planned windows tile the period per metric and project, on hour edges, without overlap |
| Shards.ReportShards.SplitShard | customer-portal/app/billing_reports.py:117-141 | a window longer than an hour is replaced by its two halves, a single hour is refused and nothing changes |
| Shards.SplitInv | customer-portal/app/billing_reports.py:117-141 | bisecting a pending window keeps the tiling, the hour edges and the laminar family of windows |
| Shards.StepInv | customer-portal/app/billing_reports.py:317-353 | every checkpoint of the loop keeps pending and successful windows tiling the period, and all rows laminar |
| Shards.ReplayInv | customer-portal/app/billing_reports.py:317-353 | so does every run of checkpoints, whatever queries answer and wherever crashes fall |
| Shards.WindowsDistinct | customer-portal/app/models.py:270-278 | no two rows of a reachable table share metric, project and window, so the unique-window constraint is never met |
| Shards.StepBound | customer-portal/app/billing_reports.py:117-141 | the sum over pending windows of 2h-1 drops by exactly one on a split, by the window's whole weight on success, and never otherwise |
| Shards.SplitDepth | customer-portal/app/billing_reports.py:117-141 | rows nest at most ceil(log2 h) deep below a window of h hours |
| Shards.CeilLog2Meaning | customer-portal/app/billing_reports.py:117-141 | the depth bound is the least power of two that covers the window |
| Shards.StepProgress | customer-portal/app/billing_reports.py:102-114 | a success raises the current count by one, a split raises the total by one, nothing lowers either |
| Shards.ProgressFull | customer-portal/app/billing_reports.py:102-114 | current never exceeds total, and equals it exactly when nothing is pending |
| Shards.ReportShards.Checkpoint | customer-portal/app/billing_reports.py:317-353 | one pass of the loop is one step of the table; when it raises, the table is unchanged |
| Shards.ReportShards.ProcessPending | customer-portal/app/billing_reports.py:317-353 | the loop ends with nothing pending or by raising, keeps the invariant, replays its answers, and spends no more queries than the bound of the table it resumed, plus the one that raised |
| ShardedUsage.MergeRecords | customer-portal/app/billing_reports.py:74-95 | the merge is the accumulation of the successful rows' records under metric, project and metadata |
| ShardedUsage.GroupByMetric | customer-portal/app/billing_reports.py:96-99 | the merged records are listed per metric in dictionary order |
| ShardedUsage.MergeUsage | customer-portal/app/billing_reports.py:74-99 | merging a table gives, for each metric, the grouped records of its successful rows only |
| ShardedUsage.FaithfulAnswer | customer-portal/app/billing_runner.py:1167-1277 | a faithfully answered window query checkpoints, per meter, exactly what the store holds for the window, normalised by the whole period |
| ShardedUsage.ReplayFaithful | customer-portal/app/billing_reports.py:317-353 | splits, crashes and retries never disturb what earlier checkpoints hold |
| ShardedUsage.WindowsHoldPeriod | customer-portal/app/billing_reports.py:311-353 | over a finished table the windows together hold every stored sample of the period exactly once |
| ShardedUsage.MergedFigures | customer-portal/app/billing_reports.py:362-369 | every merged figure is the store's figure for the whole period |
| ShardedUsage.ShardedEqualsUnsharded | customer-portal/app/billing_runner.py:1588-1610 | a finished table merges to the very records one query of the whole period yields, up to order |
| ShardedUsage.AnyRunMergesToWhole | customer-portal/app/billing_reports.py:311-369 | the same for every run of timeouts, splits, errors and resumes that ends with nothing pending |
| Rendering.RoundMeaning | customer-portal/app/billing_runner.py:1573 | the printed cost is the nearest integer, the even one at ties, and no other |
| Printed.ReportDrift | customer-portal/app/billing_runner.py:1510-1585 | in every report each printed cost is the rounded exact one, and for n rows the printed total is within n/2 of the exact total |
| Rendering.FirstSpecific | customer-portal/app/billing_runner.py:1301-1315 | the first price whose metadata match wins over every base price |
| Rendering.LastBase | customer-portal/app/billing_runner.py:1301-1315 | without a specific price the last base price is found, and none if there is none |
| Rendering.ContractPrice | customer-portal/app/billing_runner.py:1318-1336 | a contract pays its first override of a resource instead of the list price, less its first rebate, and the list price where it has neither |
| Rendering.CanonicalizeVolumeUsage | customer-portal/app/billing_runner.py:235-261 | volume usage is regrouped under resolved type names, and refused exactly when some type cannot be resolved |
| Rendering.RecodeMeaning | customer-portal/app/billing_runner.py:235-261 | a resolved record keeps its project, usage and other metadata and names a type of the catalogue; resolving it again changes nothing exactly when that name is no other type's id |
| Rendering.CanonicalConserves | customer-portal/app/billing_runner.py:235-261 | canonicalisation conserves total hours and total size-months |
| Rendering.CanonicalPermutation | customer-portal/app/billing_runner.py:235-261 | whether it succeeds, and its records up to order, do not depend on the order of usage |
| Rendering.LastProject | customer-portal/app/billing_runner.py:1527 | of several projects under one id the last listed counts, and only an unlisted id has none |
| Billed.ProductRows | customer-portal/app/billing_runner.py:1538-1575 | a product's rows are one for each record in scope, in order, or none exactly when one of them has no price; each bills what the product counts of its record at the unit and agreed price of the price found for it, in the name of its project |
| Billed.ProductQuantity | customer-portal/app/billing_runner.py:1550-1555 | the quantities of a product's rows add up to its scale times the size-months of its records in scope, or to their hours when it has no scale |
| Billed.ReportBills | customer-portal/app/billing_runner.py:1510-1585 | in every report each row costs its quantity at the price listed for its kind, as agreed with its contract; and a metric's quantities add up to what its products bill of the usage in scope |
| Billed.AddonRows | customer-portal/app/billing_runner.py:1482-1507 | addons are billed once each, in order, exactly as far as their contract is chosen and they have a price |
| Rendering.RenderRecord | customer-portal/app/billing_runner.py:1538-1575 | a record outside the chosen contracts is skipped before its price is looked up; inside, it is one row or an error |
| Rendering.RenderProduct | customer-portal/app/billing_runner.py:1538-1575 | a product's rows are the chosen lines of its records in order, or an error if one has no price |
| Rendering.RenderMetered | customer-portal/app/billing_runner.py:1531-1575 | the metered rows of the whole plan, or an error when a price or volume type is missing |
| Printed.ClusterRows | customer-portal/app/billing_runner.py:1381-1453 | a cluster without a package fee stops the report; otherwise it has one fee row at its agreed price and, in the period it was provisioned in and as far as priced, one controller and one worker setup row for its first groups, and nothing else |
| Rendering.RenderClusters | customer-portal/app/billing_runner.py:1381-1453 | the cluster rows of the chosen contracts |
| Rendering.RenderResizes | customer-portal/app/billing_runner.py:1455-1480 | the expansion rows of the chosen contracts, none without a setup price |
| Rendering.RenderAddons | customer-portal/app/billing_runner.py:1482-1507 | the addon rows of the chosen contracts, skipping unpriced addons |
| Rendering.RenderSynthetic | customer-portal/app/billing_runner.py:1373-1507 | clusters, expansions and addons in that order |
| Rendering.RenderBilling | customer-portal/app/billing_runner.py:1510-1585 | the writing loops produce exactly the chosen lines of the snapshot and usage, or nothing when generation fails |
| Packages.PackagesMeaning | customer-portal/app/billing_runner.py:1342-1352 | the package list is exactly the priced worker-group packages, sorted by group count |
| Packages.PackagesStable | customer-portal/app/billing_runner.py:1342-1352 | packages of one group count stay in the order of the price list |
| Packages.ParseDecimal | customer-portal/app/billing_runner.py:1342-1352 | a group count written in decimal is read back as itself |
| Packages.FeeMeaning | customer-portal/app/billing_runner.py:1339-1370 | a count with a package costs the first price listed for it; below all packages there is no fee; every other count is the largest package plus one increment per group of difference, also when that difference is negative |
| Packages.GaplessIff | customer-portal/app/billing_runner.py:1353-1360 | every count from the smallest to the largest package has its own if and only if consecutive packages differ by at most one group |
| Packages.IncrementOnlyBeyond | customer-portal/app/billing_runner.py:1339-1370 | every fee of a count up to the largest package is that of its own package, if and only if the packages leave no gap or no increment is priced |
| Packages.GapExample | customer-portal/app/billing_runner.py:1353-1370 | a concrete price list with a gap, where a smaller cluster is priced by subtracting an increment |
| Artifacts.SelectForContract | customer-portal/app/billing_reports.py:164-169 | choosing one contract keeps, in order, exactly that contract's rows of any larger choice |
| Artifacts.ReportPartition | customer-portal/app/billing_reports.py:144-187 | the combined report and the per-contract reports succeed together, and each of the latter is its contract's subsequence of the former |
| Artifacts.BothModesAgree | customer-portal/app/billing_reports.py:144-187 | per-contract files are written exactly when the combined file is and no filename repeats; together they then hold its rows, each as often, and its total cost |
| Artifacts.RenderPerContract | customer-portal/app/billing_reports.py:164-187 | files exactly when every contract renders, some contract has rows and no filename repeats; then one per contract with rows |
| Artifacts.RenderFiles | customer-portal/app/billing_reports.py:144-187 | either mode writes exactly the files the frozen input and usage determine, or none |
| Artifacts.ReportPermutation | customer-portal/app/billing_runner.py:1531-1575 | a report is determined, up to the order of rows, by the records of each metric |
| Artifacts.FilesPermutation | customer-portal/app/billing_reports.py:144-187 | the files of either mode are determined, names included and up to the order of rows, by the records of each metric |
| Artifacts.FinishedTableRows | customer-portal/app/billing_reports.py:362-370 | a finished table of faithful checkpoints renders the rows and the files the unsharded query renders |
| Artifacts.ShardingInvisible | customer-portal/app/billing_reports.py:311-370 | in every truthful run neither the multiset of rendered rows nor the files depend on how the period was split |
| ReportRun.StepKeepsSound | customer-portal/app/billing_reports.py:251-449 | every transaction keeps the shard table tiled, the outputs determined by input and checkpoints, the delivery accounts balanced, and the phases consistent |
| ReportRun.RunSound | customer-portal/app/billing_worker.py:69-144 | so does every run of transactions, with crashes between any two of them |
| ReportRun.PhaseMoves | customer-portal/app/billing_worker.py:30-143 | a report is claimed, succeeds once its outputs are there and sent if they are to be, fails, is queued again as it is, and expires keeping nothing; nothing else moves it |
| ReportRun.WorkMoves | customer-portal/app/billing_reports.py:251-449 | a running report captures once, plans once, steps its table, renders unsent outputs, and delivers the first that is not sent; a refused or lost delivery marks nothing |
| ReportRun.ConfigurationForgotten | customer-portal/app/billing_reports.py:433-449 | over every run a report that succeeded or expired no longer holds its delivery configuration |
| ReportRun.ScopeMeaning | customer-portal/app/billing_reports.py:287-309 | what is queried is the plan's metrics and the snapshot's projects over its period, in order |
| ReportRun.OutputsImmutable | customer-portal/app/billing_reports.py:355-400 | committed outputs never change name or content, and a sent one stays sent, until the report expires |
| ReportRun.SentOnce | customer-portal/app/billing_reports.py:406-432 | an output marked sent is never accepted again, however the run goes on |
| ReportRun.DeliveryGuarantee | customer-portal/app/billing_reports.py:402-449 | an output is accepted at most once more often than its checkpoint was lost; a succeeded delivery has every output sent |
| ReportRun.ExpiredForever | customer-portal/app/billing_worker.py:30-66 | an expired report is never resumed |
| ReportRun.SupplementFills | customer-portal/app/billing_runner.py:169-185 | a supplement before rendering adds every retired type that was missing, and a name the catalogue had stays |
| ReportRun.FrozenAs | customer-portal/app/billing_reports.py:256-285 | a visit leaves the captured input, or the frozen one whose catalogue keeps its types and, while volumes are billed and nothing is rendered, has every retired one |
| ReportRun.SnapshotFrozen | customer-portal/app/billing_runner.py:169-185 | once captured, the snapshot changes only by gaining missing volume types, only when volumes are billed and only before outputs exist |
| ReportRun.TableStaysFaithful | customer-portal/app/billing_reports.py:311-353 | over a run whose answered queries are truthful every checkpoint holds what the store holds for its window |
| ReportRun.DeliveredAsUnsharded | customer-portal/app/billing_reports.py:222-449 | from the queue to the files: over any run whose answered queries are truthful, the files of a succeeded report are what its frozen input renders, and the same files, up to the order of rows, as one query of the whole period gives |
| ReportRun.DurableReport.FreezeInput | customer-portal/app/billing_reports.py:256-285 | the first visit captures the snapshot, later visits only supplement volume types while no output exists; it raises exactly when the capture fails or a needed retired-type setting is malformed |
| ReportRun.DurableReport.FinishShards | customer-portal/app/billing_reports.py:287-353 | planning and querying is a run of the table that ends with every window successful, and otherwise only because some query was not answered |
| ReportRun.DurableReport.RenderOutputs | customer-portal/app/billing_reports.py:355-400 | outputs are rendered once, from the merged successful windows, and never over existing ones; this fails exactly when the frozen input renders nothing |
| ReportRun.DurableReport.DeliverOutputs | customer-portal/app/billing_reports.py:402-432 | every output not marked sent is delivered in order with a checkpoint after each; it stops only at one that is not checkpointed |
| ReportRun.DurableReport.ProcessReport | customer-portal/app/billing_reports.py:222-449 | one visit is a run of transactions from wherever an earlier one stopped, and returns exactly when the report succeeded; it raises only for an input that cannot be captured or supplemented, an unanswered query, nothing to render, a missing or undecipherable configuration, or a failed delivery |
| ReportRun.DurableReport.Claim | customer-portal/app/billing_worker.py:101-108 | only a queued report is claimed |
| ReportRun.DurableReport.Fail | customer-portal/app/billing_worker.py:116-143 | only a running report is marked failed |
| ReportRun.DurableReport.RequeueFailed | customer-portal/app/billing_report_state.py:9-36 | only a failed report is requeued, keeping its delivery checkpoints |
| ReportRun.DurableReport.Purge | customer-portal/app/billing_worker.py:30-66 | only a finished report expires, and loses input, checkpoints, outputs and configuration together |
| JobRuns.CoupledAlways | customer-portal/app/billing_worker.py:101-143 | in every run a job run is active exactly when its report is queued or processed, and at most one run of a job and period is active or can become so |
| JobRuns.RequeueNeverCollides | customer-portal/app/billing_report_state.py:9-36 | re-queuing a failed report never meets another active run of the job and period |
| JobRuns.FailureIsRetried | customer-portal/app/billing_runner.py:1905-1931 | executing a job whose failure can be retried always retries that run and starts none beside it |
| JobRuns.StepInv | customer-portal/app/models.py:178-188 | every transaction keeps runs and reports coupled, and an open run the last of its job and period |
| JobRuns.RowMoves | customer-portal/app/billing_worker.py:101-143 | a run and its report move together, in exactly these ways: claimed, finished, failed, queued again by whoever asks, and expired with the run as it ended |
| JobRuns.ExecuteAdds | customer-portal/app/billing_runner.py:1905-2037 | executing a job adds a run exactly when none of the job and period is active or can be retried; it is queued, or done at once if there is nothing to bill |
| JobRuns.JobTable.ExecuteJob | customer-portal/app/billing_runner.py:1894-2037 | executing a job returns its active run, or a finished one if there is nothing to bill |
| JobRuns.JobTable.RequeueFailed | customer-portal/app/billing_report_state.py:9-36 | requeuing reactivates report and run together |
| JobRuns.SettledForever | customer-portal/app/billing_worker.py:30-66 | no later event reopens a run that succeeded or whose report expired, or removes or reassigns a row |
| JobRuns.JobTable.ClaimReport | customer-portal/app/billing_worker.py:101-108 | exactly a queued report is claimed, and its run is active |
| JobRuns.JobTable.FinishReport | customer-portal/app/billing_worker.py:109-143 | a claimed report ends its run in success or error, together with itself |
| JobRuns.JobTable.PurgeExpired | customer-portal/app/billing_worker.py:30-66 | of the reports due exactly the finished ones expire, and their runs keep how they ended |
| Addresses.ParseText | customer-portal/app/repository_schemas.py:40-58 | printing a repository identity and parsing it gives it back |
| Addresses.CanonicalTwice | customer-portal/app/repository_schemas.py:20-58 | canonicalising an address twice is canonicalising it once, and two addresses share a canonical form exactly when they name one repository |
| Addresses.NamedIff | customer-portal/app/repository_schemas.py:40-58 | an address names a repository exactly when it is, in any letter case, its host, its port or a default left out, owner and name, with the suffix or not and with a closing slash or not |
| Manifests.UnescapeEscape | customer-portal/app/gitops_validate.py:138-141 | un-escaping the escaped interface pattern gives the interface back |
| Recognition.AcceptedIff | customer-portal/app/gitops_validate.py:124-162 | a tree is accepted with some inputs exactly when its paths are one whole cluster's and every file is, in meaning, the rendering of those inputs |
| Recognition.ValidateRendered | customer-portal/app/gitops_validate.py:124-162 | validating a rendered tree gives its inputs back, exactly when the repository address has a canonical form |
| Recognition.SameDocuments | customer-portal/app/gitops_validate.py:57-72 | files of one meaning hold the same documents, applications aside |
| Recognition.SameMeaningAccepted | customer-portal/app/gitops_validate.py:149-155 | acceptance, and the extracted inputs, depend on meaning alone |
| Recognition.CanonicalTreeLaws | customer-portal/app/gitops_validate.py:165-168 | canonicalising keeps the files and their meaning, is accepted with the same inputs, and changes nothing the second time |
| Recognition.CanonicalTreeUnique | customer-portal/app/gitops_validate.py:165-168 | trees of one meaning have one canonical form |
| Recognition.ExtractRendered | customer-portal/app/gitops_render.py:214-430 | the interface, VIP, hostname and contact of a rendered tree are found where the validator reads them |
| Fields.RenderedFields | customer-portal/app/gitops_render.py:214-487 | by field paths: the VIP is both ends of the pool and the Envoy address, the hostname that of both listeners, the certificate and both routes, the contact the issuer's and the interface the announcement's; every reference between the documents resolves, each application has its own directory and namespace, the kustomizations list what is there, and each namespace is created by exactly one application, synchronised before the others deployed to it |
| Fields.AcceptedFields | customer-portal/app/gitops_validate.py:124-162 | every accepted tree, however written, has those ingress fields and references for the inputs it is accepted with, so its files agree with each other |
| Fields.AcceptedApplications | customer-portal/app/gitops_validate.py:124-162 | each application of an accepted tree deploys its own directory to its own namespace |
| Recognition.ApplicationNormal | customer-portal/app/gitops_render.py:151-199 | an application has a comparable meaning exactly when its address names a repository |
| Preview.NeitherSideLost | customer-portal/app/customer_gitops.py:82-126 | a merged baselined file keeps whatever meaning either side changed |
| Preview.PrepareErrors | customer-portal/app/customer_gitops.py:168-292 | every error of a preparation but the merge's own is raised exactly when what it names is the first thing wrong |
| Preview.UnsafeIff | customer-portal/app/gitops_git.py:460-491 | a repository is refused as unsafe exactly when a managed path or a directory above one is something else, or the bases and their configuration are not the expected gitlink |
| Preview.RefusedIff | customer-portal/app/customer_gitops.py:109-125 | a baselined file is refused exactly when it was deleted, both sides changed it to different meanings, or a version it has to compare does not parse |
| Preview.UnreadableIff | customer-portal/app/customer_gitops.py:95-125 | a merge is refused as unreadable exactly when a version it has to compare does not parse |
| Preview.UnbaselinedIff | customer-portal/app/customer_gitops.py:95-108 | an existing file without a baseline is taken only under adoption and with equal meaning |
| Preview.Merge | customer-portal/app/customer_gitops.py:82-126 | the merge loop yields every file's choice, or the error of the first refused file in order |
| Convergence.DraftIsValid | customer-portal/app/customer_gitops.py:224-250 | every prepared preview passes validation again, with the approved inputs |
| Convergence.PreviewKeepsBoth | customer-portal/app/customer_gitops.py:208-250 | through the whole preparation, a change of meaning by the repository or the proposal is what the preview approves |
| Convergence.FirstPreviewSucceeds | customer-portal/app/customer_gitops.py:171-292 | a first preview of an empty repository succeeds, initialises it with exactly the generated tree, and every manifest is new |
| Example.Previews | customer-portal/app/customer_gitops.py:171-292 | a concrete cluster and repository for which a preview is prepared, so that the statements about previews speak of something |
| Convergence.PublishThenPreviewConverges | customer-portal/app/customer_gitops.py:171-292 | after a recorded publication an unchanged preview has an empty semantic diff, the same manifests and pin, and is a no-op exactly when main holds the generated text, also after a kept manual contact edit |
| Remotes.BuiltFrame | customer-portal/app/gitops_git.py:371-411 | the published tree equals the expected HEAD's tree outside the written files and the bases gitlink |
| Remotes.OtherClustersUntouched | customer-portal/app/customer_gitops.py:511-524 | other clusters' files, unmanaged files, existing READMEs and submodule configuration keep their entries |
| Remotes.RunKeeps | customer-portal/app/gitops_git.py:413-433 | nothing main ever held is lost, over every run |
| Remotes.AcceptedAtMostOnce | customer-portal/app/customer_gitops.py:516-534 | over any number of crashes, lost or late pushes and retries, at most one commit of an approved preview is ever accepted |
| Remotes.PushLands | customer-portal/app/gitops_git.py:413-458 | a pushed candidate becomes main exactly if main is at the preview's commit or behind it when it arrives, or has it already |
| Remotes.AcceptedMovesOn | customer-portal/app/customer_gitops.py:503-509 | once a commit was accepted, main is no longer the commit the preview was made on |
| Remotes.NoCandidateBefore | customer-portal/app/gitops_git.py:435-457 | a commit made on the preview HEAD is never an ancestor of it |
| Publish.PreparedIsValid | customer-portal/app/customer_gitops.py:295-334 | every preview that preparation returns passes the publisher's own validation |
| Publish.MatchesMeaning | customer-portal/app/customer_gitops.py:337-364 | a match is exactly the approved manifests and bases being held; an exact match implies it |
| Publish.BuiltHolds | customer-portal/app/customer_gitops.py:505-524 | the commit a publication makes carries the approved manifests and pin and stays safe to manage, for every valid preview; it holds the approved state exactly when the preview brings the submodule configuration or the repository has it |
| Publish.Open | customer-portal/app/gitops_git.py:210-239 | the branch read first is the branch cloned, and is main at that moment; undisturbed it succeeds |
| Publish.ConfirmOnce | customer-portal/app/customer_gitops.py:386-403 | one attempt confirms only what was main, and is the candidate or holds the approved state; undisturbed it confirms every such main |
| Publish.Confirm | customer-portal/app/customer_gitops.py:385-406 | whatever confirmation returns was main during the call and is the candidate or holds the approved state; undisturbed it never misses one |
| Publish.RecoverPreview | customer-portal/app/customer_gitops.py:416-464 | a recovered commit was main during the call and holds the approved state; undisturbed, one is recovered if and only if main is safe and holds it |
| Publish.OwnHead | customer-portal/app/customer_gitops.py:494-509 | on the head a preview was prepared on, publishing writes exactly when it would change the tree, be it only in formatting, and otherwise is a retry; it is never refused there |
| Publish.PreparedFromHead | customer-portal/app/customer_gitops.py:252-292 | a prepared preview records what its head holds, and brings only those other files that are missing there |
| Publish.DecideMeaning | customer-portal/app/customer_gitops.py:494-509 | a retry is recognised only where the approved state is held, and a write happens only on the preview's own HEAD and fulfils the preview |
| Publish.MovedBranch | customer-portal/app/customer_gitops.py:494-509 | on a branch that moved, a publication is a retry exactly when the branch holds the approved state, and never a write |
| Publish.FreshPreviewProceeds | customer-portal/app/customer_gitops.py:496-511 | on the branch a preview was prepared on, its publication is never refused |
| Publish.ConflictIff | customer-portal/app/customer_gitops.py:367-382 | a branch that moved is a conflict exactly when an approved file, the submodule configuration or the pin is no longer what the preview was prepared on, and otherwise stale |
| Publish.DiffIff | customer-portal/app/customer_gitops.py:129-159 | what an approver is shown: a manifest is in the diff exactly when it will mean something else than at HEAD, absence included, and in the formatting list exactly when it will mean the same in another text |
| Publish.ActionIff | customer-portal/app/customer_gitops.py:252-268 | a preview initialises an empty repository, adopts unpublished manifests, does nothing when the tree would stay, adds a cluster without manifests and updates one with them, each exactly then |
| Publish.NoopIffUnchanged | customer-portal/app/customer_gitops.py:252-268 | outside adoption, a preview says there is nothing to do exactly when publishing it would leave the tree as it is |
| Publish.PushIfCurrent | customer-portal/app/gitops_git.py:413-433 | a push happens only after main was read as the preview's HEAD; if it lands, main is the candidate |
| Publish.MakeCommit | customer-portal/app/gitops_git.py:371-411 | the index starts from HEAD, takes each file and the bases pin, and becomes a commit with exactly HEAD as parent |
| Publish.Write | customer-portal/app/customer_gitops.py:516-539 | a push is made only after main was read as the preview's HEAD and is confirmed whatever it was answered; if it lands, the candidate is returned also when the reply is lost |
| Publish.PublishPreview | customer-portal/app/customer_gitops.py:467-539 | for every valid preview a returned commit was main during the call and carries the approved manifests and pin, and with the submodule configuration holds the approved state, whatever other writers did; after one commit was accepted no further one is pushed; undisturbed it recovers, refuses or publishes as the branch it found calls for, and on the preview's own HEAD main ends with exactly the tree the preview stands for |
| Publish.LeadsKeeps | customer-portal/app/gitops_git.py:413-433 | a call, together with everything around it, loses nothing main held and keeps at most one accepted commit |
| Publish.PublishedThenNoop | customer-portal/app/gitops_worker.py:62-79 | a worker's preview, once published as the commit it makes and recorded, is followed by a no-op preview |
| Operations.StepInv | customer-portal/app/gitops_service.py:171-247 | every request and worker step keeps at most one active operation and one ready preview per cluster, and every publishable preview valid for the current address |
| Operations.RunInv | customer-portal/app/gitops_worker.py:159-224 | so does every run of them |
| Operations.OneAtATime | customer-portal/app/gitops_service.py:171-247 | the same read off a run: succeeded operations are approved publications with a recorded commit |
| Operations.PreviewNeverChanges | customer-portal/app/gitops_service.py:202-247 | a stored preview is never rewritten, and only the approval of a ready preview makes a publication |
| Operations.OnlyApprovedPublish | customer-portal/app/gitops_worker.py:141-153 | a commit is recorded only by executing an approved operation with a stored preview |
| Operations.RecordingSettles | customer-portal/app/gitops_worker.py:62-79 | recording a reachable publication never fails; its files become the baseline and, unless settings changed meanwhile, its contact the cluster's |
| Lifecycle.PreviewBecomesReady | customer-portal/app/gitops_worker.py:126-140 | a requested preview that is claimed and prepared from an unchanged configuration is stored as prepared, and supersedes an older one |
| Lifecycle.ApprovedIsRecorded | customer-portal/app/gitops_worker.py:141-153 | an approved current preview that is claimed and published ends as a success holding its commit, its files the next baseline and its contact the cluster's |
| Lifecycle.CycleConverges | customer-portal/app/gitops_worker.py:82-153 | preview, approval and publication followed by a preview of the tree generated with the contact then stored has an empty diff and nothing to do |
| Operations.VersionCounts | customer-portal/app/gitops_service.py:154-168 | every step that changes a cluster's contact raises its version by one, and no other step moves it |
| Operations.SameVersionSameContact | customer-portal/app/gitops_worker.py:66-75 | over any run the version only rises, and the same version means the same contact |
| Operations.ChangedSettingsRetire | customer-portal/app/gitops_service.py:228-232 | once a cluster's contact was changed no earlier operation is ever current again, and no earlier preview is ever approved |
| Operations.SavedIff | customer-portal/app/gitops_service.py:154-168 | settings are saved exactly when the caller saw the current version, and nothing else is touched |
| Operations.AddressChangesIff | customer-portal/app/repository_service.py:232-271 | the address changes exactly when nothing was published and no operation publishes, is active, ready or left a commit; the new one must get credentials and be validated before anything is requested or approved |
| Operations.RepositoryVersionCounts | customer-portal/app/repository_service.py:262-271 | the repository's version counts the changes of its address and of its credentials by one each |
| Operations.ChangedRepositoryRetires | customer-portal/app/gitops_service.py:228-232 | once the address or the credentials of the repository were changed no earlier operation is ever current again, and no earlier preview is ever approved |
| Operations.UnvalidatedWaits | customer-portal/app/gitops_worker.py:118-126 | while access is not validated no preview becomes ready, and nothing is recorded but what was read back |
| Operations.PublicationEnds | customer-portal/app/gitops_worker.py:38-41 | stale, manual conflict and the two adoption errors end a publication for good; every other error leaves it to be retried |
| Operations.PreviewEnds | customer-portal/app/gitops_worker.py:196-203 | the same errors, or a changed configuration, end a preview as a conflict, every other one as a failure |
| Operations.BrokenEnds | customer-portal/app/gitops_worker.py:82-100 | an error before any work on the repository ends an operation for good if the configuration disappeared or changed hands, and else leaves it to be retried |
| Operations.OutdatedEnds | customer-portal/app/gitops_worker.py:118-147 | a publication whose configuration or source changed ends for good, whatever publishing would have come to |
| Operations.ConflictForever | customer-portal/app/gitops_service.py:220-226 | an operation that ended in a conflict stays so in every run and is never approved again |
| Operations.FailedIsRetriable | customer-portal/app/gitops_service.py:210-226 | a failed publication may be retried exactly when nothing else of its cluster is active |
| Operations.OnlyCurrentReady | customer-portal/app/gitops_worker.py:126-140 | a preview becomes ready only as the preparation of its own request made it, under the configuration it was requested for |
| Operations.PublishedAddressStays | customer-portal/app/repository_service.py:241-260 | once any cluster was published the repository's address never changes, in any run |
| Operations.AddressInv | customer-portal/app/repository_service.py:232-271 | changing the address never orphans a preview that could still be published |
| Workers.ExecutePublication | customer-portal/app/gitops_worker.py:103-153 | a worker reads back first, publishes only under the unchanged configuration and source, and records a commit only if it was main during the call and fulfils the preview |
| Workers.SucceededWasPublished | customer-portal/app/gitops_worker.py:62-79 | over every run of such workers a succeeded operation is an approved publication whose recorded commit was main and fulfils its preview |
| Operations.OperationService.EnqueuePreview | customer-portal/app/gitops_service.py:171-199 | a request returns the cluster's active operation, or supersedes its ready preview and queues a new one |
| Operations.OperationService.EnqueuePublish | customer-portal/app/gitops_service.py:202-247 | an approved operation has a stored preview; anything else is refused |
| Operations.OperationService.RunOne | customer-portal/app/gitops_worker.py:159-224 | one visit claims or executes the oldest active operation |
| Operations.OperationService.SaveClusterSettings | customer-portal/app/gitops_service.py:154-168 | settings are saved under the version the caller saw, and the version counts real changes |
| Operations.OperationService.SaveRepositoryAddress | customer-portal/app/repository_service.py:241-271 | the address changes exactly when nothing is published, approved, active or ready |
| Credentials.StepInv | customer-portal/app/repository_service.py:311-407 | every operation keeps each pinned version existing, at most the latest, and held by the configured user and repository |
| Credentials.RunInv | customer-portal/app/repository_service.py:311-407 | so does every run, with write replies lost and commits failing anywhere |
| Credentials.WriterAlwaysReadable | customer-portal/app/repository_service.py:410-461 | reading a pinned writer in a reachable state never fails on identity or binding |
| Credentials.PinOnlyAdvances | customer-portal/app/repository_service.py:330-398 | a pin never disappears or goes back until the address changes; when it moves, it moves past every version there was |
| Credentials.VersionCounts | customer-portal/app/repository_service.py:262-271 | the configuration version counts every change of address, name or pin by one |
| Credentials.ValidationStored | customer-portal/app/repository_service.py:531-551 | a verdict is stored exactly when it is of the current configuration, the writer could be read and the commit succeeded; a valid unpinned writer is then pinned at the version read |
| Credentials.ChangesUnvalidate | customer-portal/app/repository_service.py:262-271 | whatever else changes the address, a name or a pin counts one version and leaves access to be validated again |
| Credentials.OriginKept | customer-portal/app/repository_service.py:208-240 | the address is always on the configured origin, and in canonical spelling once a save changed it |
| Credentials.AddressSavedIff | customer-portal/app/repository_service.py:208-271 | saving an address takes effect exactly when the caller saw the current version, the address is on the origin and no other customer's, and it names another repository than an unlocked saved one; the row then starts afresh without credentials, one version later |
| Credentials.FailureIsHarmless | customer-portal/app/openbao_client.py:204-234 | after a lost reply or failed commit the row is unchanged, every stored version is still there, and at most one was added |
| Credentials.AlwaysRecoverable | customer-portal/app/repository_service.py:330-355 | naming the latest version explicitly, a replacement succeeds whatever was lost before: a writer's always, a reader's exactly when it stays separate from the writer |
| Credentials.NoSilentOverwrite | customer-portal/app/repository_service.py:356-376 | without naming a version, a replacement takes effect only if the pin, or nothing, is the latest version |
| Credentials.ReplacementTakesEffectIff | customer-portal/app/repository_service.py:311-407 | a replacement takes effect exactly when the caller saw the current configuration, no other customer has the address, it builds on the latest stored version, and a reader is separate from the writer; otherwise nothing changes |
| Credentials.ReaderTokenDiffers | customer-portal/app/repository_service.py:347-353 | a reader that was just replaced never carries the token of the writer in use |
| Credentials.WriterMayTakeReaderToken | customer-portal/app/repository_service.py:318-323 | replacing the writer makes no such check: it can be given the reader's token, as the code's own comment says |
| Credentials.RepositoryService.WriteSecret | customer-portal/app/openbao_client.py:204-234 | a version is appended exactly when the caller names the latest one |
| Credentials.RepositoryService.CheckReplacement | customer-portal/app/repository_service.py:324-376 | the checks before the write are made in the order of the code, and pass on the version the write will name |
| Credentials.RepositoryService.ReplaceCredentials | customer-portal/app/repository_service.py:311-407 | a replacement that is answered and committed pins the version it wrote |
| Credentials.RepositoryService.SaveRepository | customer-portal/app/repository_service.py:208-271 | another spelling of the same repository changes nothing, a new repository clears every credential |
| Credentials.RepositoryService.ValidateRepository | customer-portal/app/repository_service.py:531-551 | a valid writer from before pinning is adopted at the version that was read |
| Resizes.ApplyInv | customer-portal/app/cluster_request_service.py:188-225 | applying a resize keeps every cluster's count equal to its initial count plus the stamped deltas |
| Resizes.RunInv | customer-portal/app/cluster_request_service.py:268-314 | so does every run of creations, provisionings, requests, applications, denials and decommissions |
| Resizes.SettledForever | customer-portal/app/cluster_request_service.py:188-225 | over every run counts only grow, a decommissioned cluster is never resized, and a request is decided once |
| Resizes.BilledIffAlive | customer-portal/app/billing_runner.py:499-513 | a cluster is billed for exactly the periods it was alive in at some moment |
| Resizes.CaptureResizes | customer-portal/app/billing_runner.py:514-564 | the scan fails exactly when a later resize cannot be read; otherwise it lists the period's growth and sums the later growth per cluster |
| Resizes.CaptureClusters | customer-portal/app/billing_runner.py:566-583 | each billed cluster's fact holds its reconstructed count, and capture fails exactly when one is not positive |
| Resizes.CountIsTrue | customer-portal/app/billing_runner.py:514-583 | for a reachable history capture never fails, and the count is what the cluster started with plus every resize applied before the end of the period |
| Resizes.AppliedIff | customer-portal/app/cluster_request_service.py:149-314 | a request is applied exactly when it is pending and readable, its cluster alive and ready for it, and the change a real one; a resize then sets the count and stamps the one it found, and nothing else changes |
| Resizes.EventMeaning | customer-portal/app/cluster_request_service.py:268-314 | clusters begin unprovisioned with the count they were created with and are provisioned and decommissioned once; requests begin pending, and only a pending one is denied |
| Resizes.CountedBack | customer-portal/app/billing_runner.py:514-583 | the count recovered after any later events is the count the cluster had before them |
| Resizes.CaptureTimeIrrelevant | customer-portal/app/billing_runner.py:514-583 | the captured count and growth do not depend on how long after the period they are captured |
| Resizes.ResizeRowsAddUp | customer-portal/app/billing_runner.py:557-564 | the expansion rows of a period add up to the growth of the period |
| Resizes.SetupTelescopes | customer-portal/app/billing_runner.py:1408-1480 | setup billed over consecutive periods telescopes to the span they cover |
| Resizes.EachGroupBilledOnce | customer-portal/app/billing_runner.py:1408-1480 | over consecutive periods each worker group's setup is billed exactly once: together they bill the current count |
| Resizes.SetupSettled | customer-portal/app/billing_runner.py:514-583 | what a period bills as setup does not depend on when after its end it is captured |
| SetupFees.ReportBillsSetup | customer-portal/app/billing_runner.py:1408-1480 | the rows of a report bill setup for exactly the worker groups the history says a cluster gained in the period |
| SetupFees.FeeForTrueCount | customer-portal/app/billing_runner.py:566-583 | the management fee in a captured snapshot is charged for a cluster that was alive in the period, by the count it had just before its end |
| SetupFees.RowsBillEachGroupOnce | customer-portal/app/billing_runner.py:1408-1480 | over consecutive periods, whenever after its end each was captured, the rows of the reports bill each worker group's setup exactly once |
| Resizes.RequestService.ApplyRequest | customer-portal/app/cluster_request_service.py:268-314 | a request is applied only while pending, readable and on a live cluster, and if its kind's own checks pass; a refused one changes nothing |
| Resizes.RequestService.ApplyAddon | customer-portal/app/cluster_request_service.py:149-185 | an addon is enabled only if it is not, and disabled only if it is |
| Resizes.RequestService.ApplyBackup | customer-portal/app/cluster_request_service.py:228-265 | a backup project is made only if there is none and the backend accepts it, and removed only if there is one |
| Resizes.RequestService.ApplyResize | customer-portal/app/cluster_request_service.py:188-225 | a resize is refused unless it grows a cluster that has a project and a backend; it stamps the count it found before growing the cluster |
| RateLimiter.StepInv | openstack-operator/src/ratelimit.py:56-85 | every thread step keeps free permits plus threads inside at the maximum, and grants an interval apart |
| RateLimiter.RunInv | openstack-operator/src/ratelimit.py:48-85 | so does every interleaving of nested acquisitions |
| RateLimiter.InsideNeverBlocks | openstack-operator/src/ratelimit.py:56-61 | a thread already inside never waits on the semaphore and takes no permit |
| RateLimiter.GrantedInTurn | openstack-operator/src/ratelimit.py:64-75 | a waiting call is granted at the first moment at least an interval after the call before it, plus what the sleep overshoots, and that moment is recorded |
| RateLimiter.NoDeadlock | openstack-operator/src/ratelimit.py:48-85 | while a thread is blocked another is inside, which is never blocked, and once that has left the blocked one can enter |
| RateLimiter.TimeAdvances | openstack-operator/src/ratelimit.py:64-72 | time and the record of calls only move forward, and a call is let through no earlier than it asked |
| RateLimiter.EnterLeave | openstack-operator/src/ratelimit.py:56-85 | an acquisition and its release undo each other on permits and nesting |
| RateLimiter.WindowBound | openstack-operator/src/ratelimit.py:64-72 | any window of length w holds at most floor(w / interval) + 1 grants |
| RateLimiter.Limiter.Enter | openstack-operator/src/ratelimit.py:56-61 | only an outermost acquisition takes a permit, and blocks exactly when none is free |
| RateLimiter.Limiter.Grant | openstack-operator/src/ratelimit.py:64-72 | a call is let through no earlier than an interval after the one before it |
| RateLimiter.Limiter.Leave | openstack-operator/src/ratelimit.py:80-85 | only leaving the outermost acquisition returns the permit |

## Left out

- Gnocchi.QueryUsage: HTTP, JSON types and response sizes are outcomes of a response, not bytes; responses are given in the order the projects are asked.
- Gnocchi.SumMeasures: decimals are exact, so the rounding inside a division to 28 digits is not modelled.
- Shards.ReportShards.ProcessPending: row ids are positions, so a database that handed out ids out of order is not modelled.
- ShardedUsage.ShardedEqualsUnsharded: the store of samples is fixed while a report is generated, and answers outside it are not faithful.
- Rendering.RenderBilling: CSV quoting, the customer name, the two-decimal quantity text and the byte-order mark are left out; a row keeps its exact cost beside the printed one.
- Artifacts.RenderFiles: the filename template and its sanitising are a given name per contract; ZIP bytes and hashes are left out.
- ReportRun.DurableReport.ProcessReport: the advisory locks are one worker at a time, and error texts and timestamps are left out.
- ReportRun.DeliveryGuarantee: an acceptance whose delivery call raised is counted as not accepted, as the program sees it.
- JobRuns.JobTable.ExecuteJob: each call is one transaction, runs are started in the order of their ids, and resolving which contracts to bill is an input.
- Resizes.CaptureResizes: the selected contracts are a set of clusters, and addon facts, which are a plain filter, are left out.
- Manifests.UnescapeEscape: proved for the characters an interface name may have; other strings are refused by the input check anyway.
- Recognition.AcceptedIff: YAML syntax, duplicate keys and aliases, file sizes and IPv6 hosts in addresses are left out; README texts stand for themselves by their title and the interface they name.
- Convergence.PublishThenPreviewConverges: the Kustomize build is a given answer, and the diff is the set of manifests it would show, not its text.
- Publish.PublishPreview: fingerprints, hashes and author checks are left out because a stored preview is an immutable value.
- Remotes.AcceptedAtMostOnce: the branch is never rewound or deleted, and no other writer forges the publisher's own commit object.
- Operations.OperationService.RunOne: environments, ownership checks and the operator's inventory are answers given with the step; credentials that cannot be read are one of them.
- Credentials.RepositoryService.ReplaceCredentials: token refresh, environments and the uniqueness of an address across customers are inputs; versions are never destroyed.
- RateLimiter.Limiter.Grant: sleeping and the lock around it are one step that moves the clock.
- `_emit_synthetic_cluster_lines`, `_find_price` and `_cluster_management_fee` duplicate the snapshot path.
- `validate_kustomize` and the checks of the pinned bases: builds are a given answer.
- Routers, authentication, configuration, audit, metrics, migrations and the browser code: one-branch facts.
- Quotas, OpenStack clients, handlers and the customer-cluster operator: linear formulas and thin wrappers.
