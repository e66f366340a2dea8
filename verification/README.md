# adguardhome-sync: the reconciliation engine

The program copies the configuration of one AdGuard Home instance, the origin, to any
number of replicas. A run reads the origin once, then for each replica computes what
differs and applies it call by call over the replica's HTTP API. Calls may fail, maps are
ranged over in any order, and comparing two configurations sorts them in place, including
the one origin in memory that all replicas share. This project models that engine and
proves what can be relied on.

## How the model is built

- `Sorting`, `Values`, `Configs`, `Objects`: the configuration. Values are datatypes; what
  the program changes in place (string slices, clients, access lists, blocked services,
  DNS and DHCP configurations) are arrays and classes whose methods are proved against
  functions on values.
- `Server`: an instance, the calls of its API, and `Effect`, what a call does when it
  succeeds. The server is not part of the repository, so `Effect` is an assumption:
  a call answered with success has its effect and any other call has none; lists are
  keyed (filters by URL within a list, leases by MAC, clients by name); a delete of a
  rewrite takes one copy (`Rewrites` says what changes if it takes all); an added filter
  gets whatever enabled flag the server likes; `/dns_config` sets the protection flag that
  the status reports.
- `Merging`: the merge functions. `Plans`: what every action plans to call after its read,
  and how a plan is executed when calls fail, as predicates on values.
- `NeverStale`, `Safety`, `Progress`, `Convergence`, `Repeats`, `Rewrites`, `Idempotence`,
  `Evolution`, `Ownership`, `Agreement`, `MapOrder`, `Determinism`: theorems about executed
  actions. `Syncing`: one replica's part of a run; `Success`, `HiddenFailures`, `Settling`,
  `ReplicaOrder`, `OrderExact`, `Existence`, `Freshness`: theorems about that and about runs.
- `Meanings`, `Sayings`, `Outright`, `Flags`, `Visits`, `EndToEnd`, `ListsEndToEnd`: the
  theorems said outright, on fields, flags, pairs of domain and answer, and the calls a
  replica gets, without the functions from which plans and agreement are built.
- `Api`, `Memory`, `Actions`, `ListActions`, `Perform`, `Working`, `Reading`, `Origins`,
  `Replicas`: the program's own methods. Any call may be answered in any way. Each method
  is proved to be a valid run in the sense of `Plans` and `Syncing` (`Outcomes`,
  `Chaining`, `WholeRun` are the links), so the theorems hold of it. `Guarantees` states
  them for whole runs. `Statistics` is the consolidation of the metrics.

## What turned out false

The code does not always do what one would expect of it. Each case has a lemma with the
exact condition.

- A client whose schedule has both a day and a time zone loses the time zone when it is
  compared. An update sends such a client without it, so that it differs again in the next
  run, and the order of the replicas matters (`ComparingSpoilsExactlyLossy`, `ClientsConverge`,
  `ClientsSecondRun`, `OrderExactly`).
- A filter URL or a lease MAC that the origin repeats is added again in every run, in a
  state in which that call no longer fits (`SliceDiffExact`, `FiltersQuiescent`,
  `LeasesQuiescent`, `StaleExactlyWithRepeats`, `AlwaysFreshExactly`).
- One run does not settle the filters: an added one keeps the flag the server gives it, and
  enabled and interval wait until the rules agree (`FiltersAfterOneRound`,
  `TwoSuccessesSettleFilters`).
- A profile that differs in its theme alone is never written (`ProfileReached`).
- Setting the DNS configuration also sets the protection flag, even when general settings
  are not synchronized (`ProtectionFollowsDns`).
- Under ContinueOnError a success may hide any number of failed changes of list entries and
  of TLS, and each leaves a difference (`SuccessIsAgreementExactly`,
  `AgreementGuaranteedExactly`, `SuccessMayHideEverything`).
- Blocked services are compared in order but written sorted, so they may be written in
  every run (`ServicesSecondRun`). DHCP configurations are compared with their leases but
  written without them, with the same effect (`DhcpSecondRun`).
- Rewrites are told apart by domain and answer with a # between them, so with a # in a
  domain one rewrite can stand for another (`HashCollides`, `SayingsConvergeExactly`), and
  user rules by their text with spaces between them (`SpacesHideRules`, `RenderTells`).
- If the server's delete takes every copy of a rewrite, deleting a copy of the first entry
  of a key takes that one with it until the next round (`DroppingConverges`).
- A series shorter than the total's is read out of range (`GuardAdmitsOneTooMany`,
  `TotalIsSum`).
- A host named "total" is counted twice, and the hosts visited before it not at all: unless
  nothing is counted some order of the hosts gives a wrong total, and some may break off
  (`NamedTotalRightExactly`, `NeverBreaksExactly`, `ReliableExactly`).

`Clients.Merge` names its results adds, removes, updates but returns adds, updates,
removes; the model follows what is returned and how the caller uses it.

## Model

| member | source | states |
|---|---|---|
| `Sorting.SortForgetsOrder` | internal/client/model/model-functions.go:139-142 | sorting in place keeps the multiset and nothing else: two lists sort to the same exactly when they are equal up to order, and sorting again changes nothing |
| `Sorting.LeqMeans` | internal/client/model/model-functions.go:139-142 | the order sorted by: a prefix comes first, otherwise the first character that differs decides |
| `Sorting.EqualsStringSlice` | internal/client/model/model-functions.go:128-152 | with sorting, true exactly when both are nil or both non-nil and equal up to order; both are then left sorted, and neither is touched when one is nil |
| `Configs.AccessList.Equals` | internal/client/model/model-functions.go:121-126 | equality up to order of all three lists, and exactly which lists a comparison leaves sorted on which side (it stops at the first difference) |
| `Values.AccessTouchedEq` | internal/client/model/model-functions.go:121-152 | whatever a comparison leaves behind of an access list is still equal to it |
| `Meanings.AccessEqMeans` | internal/client/model/model-functions.go:121-152 | access lists are equal exactly when each of the three is nil on both sides or holds the same strings as often on both |
| `Meanings.ComparedAccess` | internal/client/model/model-functions.go:121-152 | field by field what a comparison leaves: a list is sorted exactly when no earlier one differs and neither side of it is nil |
| `ReplicaOrder.AccessEqEquivalence` | internal/client/model/model-functions.go:121-126 | the comparison of access lists is reflexive, symmetric and transitive (an equal list can be put in either place) |
| `Values.DnsEqMeaning` | internal/client/model/model-functions.go:92-119 | with an upstream list, DNS configurations compare up to the order of the three lists; without one the order of the other two counts, because one guard covers all three sorts |
| `Meanings.SafeSearchEqMeans` | internal/client/model/model-functions.go:358-387 | safe search is equal exactly when the switch and six engines agree, absent counting as off; ecosia makes no difference |
| `Meanings.RenderTells` | internal/utils/ptr.go:9-14 | user rules without spaces count as equal exactly when they are, in number and order, but for a single empty rule; nil and empty lists differ |
| `Meanings.SpacesHideRules` | internal/utils/ptr.go:9-14 | rules with spaces do not: one rule and the two rules it splits into look the same |
| `Meanings.SameMeans` | internal/client/model/model-functions.go:337-346 | filters are compared by URL, name and flag, leases by MAC alone |
| `Configs.DnsConfig.Equals` | internal/client/model/model-functions.go:92-119 | the comparison decides DnsEq and, working on clones, leaves both sides as they were; needs the two other lists whenever there is an upstream list |
| `Configs.DhcpStatus.CleanAndEquals` | internal/client/model/model-functions.go:22-45 | both sides keep exactly their usable sections, as they are, and everything else; the result is equality of what is left, static leases included, where no list and an empty one differ |
| `Meanings.CleaningKeeps` | internal/client/model/model-functions.go:22-57 | cleaning keeps an IPv4 section exactly if its four addresses, and an IPv6 section if its range start, are there and not empty, and leaves the rest alone; a configuration counts as one exactly if it has such a section |
| `Configs.BlockedServices.ServicesString` | internal/client/model/model-functions.go:414-425 | rendering the services for the log sorts the ids in place |
| `Values.ClientEqMeaning` | internal/client/model/model-functions.go:154-203 | clients compare equal exactly when names, the rest, the four lists up to order, and the schedules agree, where a schedule without a day is compared without anything else |
| `Values.ComparingSpoilsExactlyLossy` | internal/client/model/model-functions.go:170-203 | being compared leaves a client equal to itself exactly when its schedule does not have both a day and a time zone; otherwise the time zone is lost |
| `Meanings.ProfileToWrite` | internal/client/model/model-functions.go:389-408 | a profile is written exactly when the replica has a name and the origin another, non-empty language; it has the replica's name, the origin's language, and the origin's theme only if that is synchronized and not empty |
| `Objects.PersistentClient.Equals` | internal/client/model/model-functions.go:189-203 | the in-place comparison decides ClientEq and leaves both objects as described, the deferred AfterDiff included |
| `Objects.MergeClients` | internal/client/model/model-functions.go:215-249 | adds, updates and removes (in the order returned, not the order named) are the three-way difference of the last clients per name, for every map order; the origin's clients are left exactly as the comparisons leave them |
| `Merging.MergeFilters` | internal/client/model/model-functions.go:303-334 | adds and updates in slice order and the removes in any map order, nil counting as empty |
| `Merging.MergeDhcpStaticLeases` | internal/client/model/model-functions.go:60-90 | the same for leases, compared by MAC only |
| `Merging.SliceDiffExact` | internal/client/model/model-functions.go:77-83 | the slice-driven adds are the missing entries, each once, if and only if the origin repeats no key |
| `Merging.DistinctSliceUpdates` | internal/client/model/model-functions.go:316-327 | with distinct origin keys the slice-driven updates are exactly the entries both sides have and that differ |
| `Merging.MapOrderIrrelevant` | internal/client/model/model-functions.go:233-246 | any two orders of ranging over the maps give the same multisets of adds, updates and removes |
| `Merging.MergeRewrites` | internal/client/model/model-functions.go:267-301 | exactly what the loops give for any lists with any repetitions: removes are the replica's further copies of a key, in order, then its first copies whose key the origin has not, in any order; adds are the origin's first copies whose key the replica has not, in order; duplicates are the origin's further copies, in order |
| `Merging.MergeIsDiff` | internal/client/model/model-functions.go:267-301 | so the removed keys are the replica's keys minus each origin key once, and the added keys each origin key once minus the replica's, as multisets |
| `Merging.DuplicatesAre` | internal/client/model/model-functions.go:290-293 | the skipped duplicates are exactly the origin's keys beyond their first copy |
| `Merging.RewriteConservation` | internal/client/model/model-functions.go:267-301 | replica keys minus removes plus adds is each distinct origin key exactly once, as multisets |
| `Meanings.KeyTells` | internal/client/model/model-functions.go:251-263 | the key by which rewrites are counted tells domain and answer apart, nil counting as empty, if no domain holds a # |
| `Meanings.HashCollides` | internal/client/model/model-functions.go:251-263 | ... and does not otherwise: two different rewrites with one key |
| `Plans.PlanOwned` | internal/sync/action-general.go:11-255 | every action plans only calls of its own |
| `NeverStale.NoCallIsStale` | internal/sync/action-general.go:72-255 | a difference computed once is never stale: whichever earlier calls failed, each call still fits the difference between origin and replica in the very state in which it is made, if the origin repeats no key in the lists merged in slice order |
| `Repeats.StaleExactlyWithRepeats` | internal/sync/action-general.go:72-300 | ... and in an error-free execution this holds if and only if the origin repeats no URL in a filter list and no MAC among the leases the action looks at |
| `Freshness.AlwaysFreshExactly` | internal/sync/action-general.go:72-300 | seen before the call: every execution, whatever fails in it, makes only fitting calls if and only if the origin repeats no such key |
| `NeverStale.RewritesTracked` | internal/client/client.go:203-223 | after any number of the planned deletes and adds the replica's rewrite keys are the initial ones minus the deleted plus the added ones |
| `Safety.ActionIsSafe` | internal/sync/action-general.go:72-300 | every call an action makes takes away nothing the origin wants and adds nothing it does not, whatever the origin repeats, also after earlier comparisons altered the origin in memory |
| `Syncing.SyncIsSafe` | internal/sync/sync.go:295-356 | in every intermediate state of a replica's part of a run, with any failures, either error policy and any repetitions in the origin, its keys contain all that origin and initial replica share and nothing neither has; a rewrite both hold never drops to zero copies |
| `Sayings.SayingsBetween` | internal/sync/sync.go:295-356 | for rewrites said in domains and answers, not keys: whatever fails, in every state of a visit a pair both sides share is there, and every pair there is one of the two sides had, if no domain holds a # |
| `Progress.GapStep` | internal/sync/action-general.go:72-300 | one successful add, delete or update strictly closes the gap; every other event leaves it |
| `Progress.WritesArePaidFor` | internal/sync/action-general.go:72-300 | successful list writes plus the remaining gap never exceed the gap at first |
| `Progress.GapOfSame` | internal/sync/sync.go:207-262 | the gap to the origin does not depend on the order in which its lists are read |
| `Syncing.ProgressOverRounds` | internal/sync/sync.go:295-356 | the same over any number of rounds with any failures, each with its own reading of the origin's entries in whatever order: all successful list writes together are bounded by the first gap; asks distinct keys, and for clients no day with a time zone, only of the features that are enabled |
| `Convergence.ClientsConverge` | internal/sync/action-general.go:127-163 | one error-free round makes the names the origin's, and the client lists agree if and only if no client to be updated has both a day and a time zone |
| `Convergence.ClientsQuiescent` | internal/sync/action-general.go:127-163 | the client plan is empty exactly when the lists agree |
| `Convergence.ClientsSecondRun` | internal/sync/action-general.go:127-163 | a second run makes no call after its read if and only if the first had no such update to make |
| `Convergence.FiltersConverge` | internal/sync/action-general.go:92-114 | from any replica, whatever flag the server gives an added filter, two error-free rounds make both lists agree in URL, name and enabled, and rules, enabled and interval too, even if the second reads the origin's filters in another order |
| `Convergence.FiltersQuiescent` | internal/sync/action-general.go:257-300 | the filter plan, refreshes included, is empty exactly when all that agrees and the origin repeats no URL within a list |
| `Convergence.FiltersStayQuiet` | internal/sync/action-general.go:92-114 | once they agree, no later round writes or refreshes, whether or not its read succeeds |
| `Outright.RefreshesFollowEntries` | internal/sync/action-general.go:294-298 | a filter list is refreshed, with its own flag, only after an add or an update of it, and in an execution without an error each of these is followed by a successful refresh |
| `Outright.CallsComeInStages` | internal/sync/action-general.go:72-300 | in every execution the read comes first and once; of each list the deletes before the adds, these before the updates and the refresh; blocking filters before allowing ones, and at the end one call at most for rules or for enabled and interval |
| `Repeats.KeysConverge` | internal/sync/action-general.go:127-300 | one error-free execution makes the keys of every list it works on the origin's, whatever the origin repeats |
| `Repeats.KeysAgreeExactly` | internal/sync/action-general.go:127-300 | whatever fails, a slot ends up as the origin wants it as to being filled if and only if it was so before or one call that touches it succeeded |
| `Repeats.LeasesConverge` | internal/sync/action-general.go:212-238 | one error-free round makes the MACs the origin's, also when the origin repeats one |
| `Repeats.LeasesAgreeExactly` | internal/sync/action-general.go:212-238 | whatever fails, the leases agree afterwards if and only if for every MAC that differed one of its calls succeeded |
| `Convergence.LeasesQuiescent` | internal/sync/action-general.go:212-238 | the lease plan is empty exactly when the MACs agree and the origin repeats none |
| `Convergence.RewritesConverge` | internal/sync/action-general.go:72-91 | one error-free round leaves each distinct origin key exactly once |
| `Sayings.SayingsConvergeExactly` | internal/sync/action-general.go:72-91 | an error-free round leaves exactly the origin's pairs of domain and answer, each once, if and only if every origin entry says what the first entry of its key says, replica before origin |
| `Sayings.PlainSayingsConverge` | internal/sync/action-general.go:72-91 | ... which is always so if no domain holds a #: the origin's pairs, each once, and no other |
| `Convergence.RewritesQuiescent` | internal/sync/action-general.go:72-91 | the rewrite plan is empty exactly when that is the case |
| `Rewrites.RewritesStopAtFirstFailure` | internal/client/client.go:203-223 | the executed calls are a prefix of removes then adds that ends at the first failure, whatever ContinueOnError says |
| `Rewrites.RewritesDetermined` | internal/sync/action-general.go:72-91 | the list of rewrites an error-free round leaves is the same entry by entry, whatever order the deletes take |
| `Rewrites.DroppingConverges` | internal/client/client.go:214-223 | if the server's delete takes every copy of an entry, one round converges if and only if no copy of the first entry of a key the origin has follows that entry on the replica |
| `Rewrites.DroppingTwiceConverges` | internal/client/client.go:214-223 | ... and two rounds always do |
| `Idempotence.SecondRunIsQuiet` | internal/sync/action-general.go:11-255 | after one error-free execution of any action but those for filters, services and DHCP configuration, an immediate second one writes nothing |
| `Idempotence.ServicesSecondRun` | internal/sync/action-general.go:116-126 | the services action, which compares in order but writes sorted, is quiet the second time exactly when it had nothing to do or the origin's ids are sorted |
| `Idempotence.DhcpSecondRun` | internal/sync/action-general.go:190-211 | after an error-free DHCP configuration execution a later one on what that left has nothing to do if and only if the origin has no valid section, or the replica had the origin's dynamic leases and reports the origin's list of static ones |
| `Agreement.ActionAgrees` | internal/sync/action-general.go:11-255 | what an error-free execution of each of the sixteen actions brings about: agreement under its own comparison, except that added filters keep the flag the server gave them and enabled and interval are settled only if the rules agreed before, services agree up to order, and DHCP agrees but for the leases |
| `Outright.DhcpReached` | internal/sync/action-general.go:190-211 | an error-free DHCP action leaves each section usable on the origin as the origin has it, no other usable one, and this replica's interface and switch; without a usable section everything as it was |
| `HiddenFailures.FiltersAfterOneRound` | internal/sync/action-general.go:92-114 | after one error-free round all that the filter action looks at agrees if and only if the server gave every filter that was missing the flag it is to have, and the rules or else enabled and interval agreed before |
| `HiddenFailures.ActionAgreesExactly` | internal/sync/action-general.go:11-300 | an execution without an error, for every action, has brought about what ActionAgrees promises if and only if every call of it succeeded |
| `HiddenFailures.AgreementGuaranteedExactly` | internal/sync/action-general.go:11-300 | seen before the call: every execution without an error brings it about if and only if ContinueOnError is off or there is no list entry and no TLS configuration to change |
| `HiddenFailures.FullAgreementGuaranteedExactly` | internal/sync/action-general.go:92-114 | for everything the filter action looks at, if and only if moreover no filter is missing and one write is enough for the rules and for enabled and interval |
| `Ownership.OnlyTheOwnerChanges` | internal/sync/action-general.go:11-255 | an action leaves the part of every other action alone, except that the DNS configuration carries the protection flag |
| `Ownership.RunKeepsFiled` | internal/sync/action-general.go:72-300 | whatever fails and whatever the origin repeats, every entry written is of its list's kind and under its own key |
| `Success.SuccessMeansAgreement` | internal/sync/sync.go:295-356 | a reported success means what ActionAgrees says of each enabled feature at the end of the run, later actions included; under ContinueOnError if no failure was hidden |
| `HiddenFailures.SuccessIsAgreementExactly` | internal/sync/sync.go:295-356 | ... and only if: at the end of a successful visit an enabled feature agrees exactly when no failure of its action was hidden |
| `Success.NoErrorMeans` | internal/sync/action-general.go:127-163 | only changes of list entries and of TLS can fail without an error, and only under ContinueOnError |
| `HiddenFailures.SuccessMayHideEverything` | internal/sync/action-general.go:127-163 | under ContinueOnError every action has, from every origin and replica, an execution without an error in which every change of a list entry and of TLS fails |
| `Success.DisabledIsUntouched` | internal/sync/action.go:11-77 | the part of a disabled feature is unchanged whatever fails; for the protection flag the DNS server configuration must be disabled too |
| `Flags.FlagsOff` | internal/sync/action.go:11-77 | flag by flag and field by field, whatever fails: with a flag off, the settings, lists and rewrites it stands for are as before; the protection flag with general settings and DNS both off |
| `Visits.CallsAreFlagged` | internal/sync/action.go:11-77 | no call, read or write, is made to a replica for a flag that is off |
| `Success.ProtectionFollowsDns` | internal/client/client.go:293-296 | with DNS enabled and general settings disabled a successful run leaves the protection flag alone if and only if the origin's DNS configuration carries the replica's own flag |
| `Success.ProfileReached` | internal/client/model/model-functions.go:389-408 | exactly when one error-free profile action reaches language and theme: a difference in theme alone is never written |
| `Outright.ProfileActionKeeps` | internal/sync/action-general.go:12-19 | whatever fails in a profile action: the name stays, without theme synchronization the theme too, and language and theme are the replica's own or the origin's non-empty ones |
| `Flags.VisitKeepsProfile` | internal/sync/sync.go:295-356 | the same from before a replica's visit to after it, by the configured theme flag |
| `EndToEnd.ThemeIsOptional` | internal/sync/sync.go:157-293 | ... and for every replica of a run, against the profile the origin server has, or the empty one after a 401 |
| `Success.EmptyProfileWritesNothing` | internal/client/model/model-functions.go:393-408 | corollary of the merge of profiles: an empty origin profile causes no write to any replica |
| `Evolution.OriginOnlyReordered` | internal/client/model/model-functions.go:154-203 | without a client that has both a day and a time zone, every action only reorders what is shared in memory |
| `Evolution.LossyClientIsSpoiled` | internal/client/model/model-functions.go:170-187 | with such a client, comparing it takes its time zone out of the shared origin |
| `Outright.MemoryAfter` | internal/sync/action-general.go:116-174 | whatever fails, an action leaves the configuration shared by all replicas as it is, but for what it has compared: the last client of a name the replica has is sorted and loses a time zone beside a day, ids are sorted exactly if services are written, access lists are only reordered |
| `ReplicaOrder.OrderDoesNotMatter` | internal/sync/sync.go:289-292 | in whatever order the replicas come and whatever happens to the others, a replica synchronized without error ends up the same up to list order, if client settings are off or there is no such client |
| `OrderExact.OrderExactly` | internal/sync/sync.go:289-292 | for whole runs in any two orders over any replicas: the order does not matter if and only if client settings are not synchronized or no client has both a day and a time zone |
| `ReplicaOrder.OrderMattersForLossyClients` | internal/sync/action-general.go:127-163 | for the client action alone: with such a client a replica that lacks it gets it differently from the origin in memory before and after another replica was compared |
| `Determinism.MapOrderIsInvisible` | internal/client/model/model-functions.go:233-246 | in whatever order maps are ranged over, two error-free executions from the same origin and replica with the same flags for added filters leave exactly the same replica and the same origin in memory, for every action but the DHCP configuration |
| `MapOrder.SliceListsAgree` | internal/sync/action-general.go:257-300 | for filters and leases entry by entry, whatever the origin repeats |
| `Settling.TwoSuccessesSettleFilters` | internal/sync/action-general.go:92-114 | two successful visits in a row, each with all its other actions between the two filter rounds and each with its own reading, bring everything about the filters into agreement |
| `Settling.SecondVisitIsQuiet` | internal/sync/sync.go:295-356 | after one success the whole trace of the next visit, however it fares, holds no write but of filters, services and the DHCP configuration, and a setup in the greeting where that is allowed |
| `Settling.ThirdRunIsQuiet` | internal/sync/sync.go:157-293 | when two runs that read the same server succeeded on a replica, the whole trace of a third there, whatever fails in it, holds no write but of services and the DHCP configuration, and a setup in the greeting where that is allowed |
| `Api.ApiClient.Do` | internal/client/client.go:203-223 | one call, answered in any way: it has its effect exactly when it succeeds, and is recorded |
| `Api.ApiClient.ApplyDiff` | internal/sync/action-general.go:135-160 | the three loops make exactly the planned calls, up to the first failure that is not tolerated |
| `Api.ApiClient.DeleteRewriteEntries` | internal/client/client.go:214-223 | the loop posts entry by entry and stops at the first error |
| `Api.ApiClient.AddRewriteEntries` | internal/client/client.go:203-212 | likewise for adds |
| `Actions.SyncProfile` | internal/sync/action-general.go:12-19 | the method is a valid run of the profile action: read, merge, at most one write, the error of either |
| `Actions.SyncProtection` | internal/sync/action-general.go:20-25 | a valid run of the protection action, comparing with the status the run started with |
| `Actions.SyncParental` | internal/sync/action-general.go:26-33 | a valid run of the parental action |
| `Actions.SyncSafeSearch` | internal/sync/action-general.go:34-41 | a valid run of the safe search action; needs the flag that the log line before the write dereferences |
| `Actions.SyncSafeBrowsing` | internal/sync/action-general.go:42-51 | a valid run of the safe browsing action |
| `Actions.SyncQueryLog` | internal/sync/action-general.go:52-61 | a valid run of the query log action; needs the three fields that the log line before the write dereferences |
| `Actions.SyncStats` | internal/sync/action-general.go:62-71 | a valid run of the statistics action |
| `Actions.SyncDns` | internal/sync/action-general.go:175-189 | a valid run of the DNS action that leaves the origin's DNS lists in memory as they are |
| `Actions.SyncServices` | internal/sync/action-general.go:116-126 | a valid run of the services action; the origin's ids in memory are sorted exactly when something was written |
| `Actions.SyncAccess` | internal/sync/action-general.go:165-174 | a valid run of the access list action with its effect on the origin's lists in memory |
| `Actions.SyncTls` | internal/sync/action-general.go:239-254 | a valid run of the TLS action, whose failed write is tolerated under ContinueOnError |
| `ListActions.SyncRewrites` | internal/sync/action-general.go:72-91 | a valid run of the rewrites action |
| `ListActions.SyncFilterType` | internal/sync/action-general.go:257-300 | one filter list: the planned calls and a refresh that ends the action when it fails |
| `ListActions.SyncFilters` | internal/sync/action-general.go:92-114 | a valid run of the filter action: both lists, then rules, then only if the rules agree enabled and interval |
| `ListActions.SyncClients` | internal/sync/action-general.go:127-163 | a valid run of the client action with its effect on the origin's clients in memory |
| `ListActions.SyncDhcp` | internal/sync/action-general.go:190-211 | a valid run of the DHCP action that does not change the origin's configuration in memory |
| `ListActions.SyncLeases` | internal/sync/action-general.go:212-238 | a valid run of the lease action |
| `Perform.RunAction` | internal/sync/action.go:69-71 | whatever the action, its method leads from the old origin, replica and trace to the new ones as a valid run; only the DNS action asks anything of the replica's DNS configuration |
| `Syncing.SetupActions` | internal/sync/action.go:11-77 | the list holds exactly the actions of the enabled features, each once, in the fixed order |
| `Flags.SetupOrder` | internal/sync/action.go:11-77 | the list written out: which flag stands for which actions, and in which order |
| `Working.StatusWithSetup` | internal/sync/sync.go:358-375 | a status, and only when it asks for setup and setup is allowed the setup and another status; nothing else changes |
| `Visits.VisitStarts` | internal/sync/sync.go:358-375 | of every visit's calls: the first is a status; one that asks for setup is followed by a setup exactly if that is allowed, a successful setup by another status; the first of these calls that fails otherwise is the last |
| `Visits.SetupOnlyWhenAsked` | internal/sync/sync.go:358-375 | a setup is made only as the second call, if allowed, after a status that asked for it |
| `Visits.NothingBeforeAStatus` | internal/sync/sync.go:317-331 | every other call comes after a status answered with success, the last one made, and of a version not too old |
| `Working.RunActions` | internal/sync/sync.go:347-355 | every action in order, stopping at the first failure without ContinueOnError; an error is remembered exactly when some action failed |
| `Visits.OutcomeExactly` | internal/sync/sync.go:295-356 | success is reported exactly when the status was answered, the version is not too old, and no call of an action failed except, under ContinueOnError, changes of list entries and of TLS |
| `Visits.StopsAtFirstFailure` | internal/sync/sync.go:347-355 | without ContinueOnError no call follows one that failed |
| `Visits.FlagsAreServed` | internal/sync/sync.go:347-355 | a visit that does not give up reads from the replica what each flag that is on is about; the DHCP configuration if the origin has a usable section |
| `Visits.NoSectionNoDhcp` | internal/sync/action-general.go:190-211 | if it has none, and leases are not synchronized, no DHCP configuration is read or written |
| `Working.Worker.Visit` | internal/sync/sync.go:295-356 | one replica: greeting, version gate, actions, and success exactly when all of it went well; a valid part of a run |
| `Working.Worker.SyncTo` | internal/sync/sync.go:295-356 | without a client nothing happens; otherwise the visit happens to this replica only and is reported once, failed or not |
| `Guarantees.GatedReplicaIsLeftAlone` | internal/sync/sync.go:317-331 | corollary of what Working.Worker.Visit is proved to do: without a status or below the minimum version a replica gets a status and possibly a setup, stays as it is, and counts as failed |
| `Existence.ErrorFreeRunExists` | internal/sync/action-general.go:11-255 | from every origin and every replica each action has an execution in which no call fails, so the theorems about executions are about something |
| `Existence.ErrorFreeSyncExists` | internal/sync/sync.go:295-356 | so has a replica's whole part of a run, for every set of features and a version that is new enough |
| `Reading.FetchProfile` | internal/sync/sync.go:190-202 | a 401 on the profile is tolerated only under ContinueOnError and leaves the profile empty |
| `Origins.ReadOrigin` | internal/sync/sync.go:164-284 | the reads are made in order up to the first that fails or a version that is too old; if all pass, memory holds a reading of the origin; the origin is not changed; asks the origin to report only what an enabled feature dereferences |
| `Origins.ReadsOnly` | internal/sync/sync.go:174-284 | corollary of what Origins.ReadOrigin is proved to do: the origin is never written |
| `Origins.ReadsExactly` | internal/sync/sync.go:164-284 | the reads one by one: the origin's parts in order, DHCP and TLS by their flags, up to the first not answered with success or, for the profile under ContinueOnError, 401; only the status if the version is too old; the run goes on exactly when all passed |
| `Origins.EnabledActionsAreRead` | internal/sync/sync.go:174-284 | when all reads passed, each enabled action's part of the origin was read with success; only the profile may be missing, by a 401 under ContinueOnError |
| `Origins.OptionalReadsAreNeeded` | internal/sync/sync.go:267-284 | the DHCP and the TLS configuration are read if and only if an enabled action works from them |
| `Origins.EnabledActionsAreReady` | internal/sync/sync.go:267-284 | corollary of what ReadOrigin leaves in memory: for every combination of features, each enabled action finds the nullable parts of the origin it dereferences; for the other parts see EnabledActionsAreRead |
| `Replicas.ReplicaConfig.UniqueReplicas` | internal/types/types.go:85-107 | the values of the deduplicated map, each once, in any order; the single replica's default path is filled in in place |
| `Replicas.UniqueReplicasMeans` | internal/types/types.go:85-107 | pairwise distinct keys, a URL and a path each; every configured instance with a URL is covered, the last of each key by itself; nothing else |
| `Replicas.UniqueReplicasTwice` | internal/types/types.go:85-107 | applied to its own result it gives the same set |
| `Replicas.ListBeatsSingle` | internal/types/types.go:87-100 | an instance of the list replaces the single replica with the same key |
| `Replicas.EachTargetOnce` | internal/types/types.go:85-107 | said in URLs and paths, not keys: every configured target once, an empty path meaning /control, of several instances for one target the last; no URL holds a # |
| `Working.Worker.Sync` | internal/sync/sync.go:157-293 | nothing happens while another run is going on; no replica is contacted and nothing reported unless the reads of the origin sufficed; then the unique replicas, the origin possibly among them, are visited one after another on one shared origin |
| `Guarantees.ReadingSuffices` | internal/sync/sync.go:164-284 | a reading of a server repeats no key and has one protection flag: all that the theorems ask of an origin besides clients without both a day and a time zone |
| `Guarantees.RunIsSafe` | internal/sync/sync.go:289-292 | the key safety of every intermediate state, for every replica of a whole run, whatever the origin repeats |
| `Guarantees.RunAgrees` | internal/sync/sync.go:289-356 | a replica reported as successful agrees, as ActionAgrees says, with what was read from the origin on every enabled feature |
| `ListsEndToEnd.FlagsOn` | internal/sync/sync.go:157-293 | flag by flag, field by field, from the server that is read to a replica none of whose calls failed: settings, profile, filters, rules, clients, leases, DHCP and, if no domain holds a #, rewrites agree in the way each predicate says, whatever happened to the replicas before |
| `EndToEnd.FlawlessExactly` | internal/sync/sync.go:347-355 | these visits are exactly the successes that hide no failure |
| `EndToEnd.RewritesOn` | internal/sync/sync.go:157-293 | for rewrites with the exact condition on the keys of the server and the replica before |
| `Guarantees.RunMakesProgress` | internal/sync/sync.go:289-292 | each visit of a whole run is paid for by the replica's gap to the origin as read |
| `Guarantees.RunsMakeProgress` | internal/sync/sync.go:157-293 | the bound over any number of whole runs, each with its own reads in whatever order: all successful list writes to a replica together never exceed its gap before the first, as long as the origin server's lists and rewrites stay the same; of clients only no day with a time zone is asked |
| `Guarantees.EachReplicaReportedOnce` | internal/sync/sync.go:289-312 | every unique replica for which a client can be created is visited and reported exactly once, whatever happens to the others |
| `Guarantees.NobodyElseIsContacted` | internal/sync/sync.go:289-292 | corollary of what Working.Worker.Sync is proved to do: an instance that is not a configured replica gets no call |
| `Guarantees.NoProfileAfter401` | internal/sync/sync.go:190-202 | after the tolerated 401 no profile is written anywhere |
| `Guarantees.DhcpNeverLeaks` | internal/sync/action-general.go:190-211 | whatever replicas came before, a DHCP configuration sent has exactly the usable sections of the origin as read, at least one, and only this replica's interface and enabled flag; the origin in memory is unchanged |
| `Statistics.SumUp` | internal/client/model/model-functions.go:479-492 | the sum slot by slot, and a run-time failure exactly when the total has no series or a longer one than the summand |
| `Statistics.GuardAdmitsOneTooMany` | internal/client/model/model-functions.go:484-488 | the reads the guard lets through are in range if and only if the summand is at least as long as the total; otherwise the read at its own length is not |
| `Statistics.Stats.Add` | internal/client/model/model-functions.go:459-477 | every counter and every slot grows by the other side's, absent counting as zero, also when an object is added to itself; it fails exactly when some series or counter does not fit |
| `Statistics.SumTakes` | internal/metrics/metrics.go:275-282 | a sum over hosts does not depend on which host is taken first |
| `Statistics.Consolidate` | internal/metrics/metrics.go:275-282 | for every order of the hosts, any names and any sharing of statistics objects: every host stays in place, the total is what the loop makes of them in that order, and it fails exactly when one of the additions does |
| `Statistics.TotalIsSum` | internal/metrics/metrics.go:275-282 | if no host is named total, the total is the sum over all hosts, and is reached if and only if no series of any host has fewer than 24 slots |
| `Statistics.TotalForgetsOrder` | internal/metrics/metrics.go:275-282 | ... whatever the order, and the same when the same hosts are consolidated again |
| `Statistics.NamedTotalIsSum` | internal/metrics/metrics.go:275-282 | for one order with a host named total, which takes the place of the total and is added to itself: a counter or an hour is the sum over all hosts if and only if that host counts as much as all hosts before it, or, for an hour its series do not reach, if the sum is nothing |
| `Statistics.NeverBreaksExactly` | internal/metrics/metrics.go:275-282 | seen before the call: no order breaks off if and only if no series of another host than total is too short, and every such host has only what a host named total has, in series at least as long as its |
| `Statistics.NamedTotalRightExactly` | internal/metrics/metrics.go:275-282 | with a host named total, and no order that breaks off, every order gives the sum of a counter or an hour if and only if no host counts anything there (for an hour that host does not reach, if the sum is nothing) |
| `Statistics.ReliableExactly` | internal/metrics/metrics.go:275-282 | both together: no order breaks off and all give all sums, exactly when every host fits and either none is named total or nothing is counted |

## Left out

- HTTP, cookies, redirects, TLS connections, JSON decoding and error texts: an answer is
  success, "setup needed", or a status code. Comparing as JSON is equality of values.
- The AdGuard Home server: `Server.Effect` and `Origins.Reports` are what is assumed of
  it. Different keys are different servers; the origin may be one of the replicas.
- Working.Worker.Sync: mutual exclusion of concurrent runs. The flag is tested and set without a lock, so
  the code does not guarantee it; the model is one run at a time.
- ListActions.SyncFilters: a server that omits enabled or interval of its filtering. Writing them
  would be a nil dereference, so the method asks for both where it would write them.
- Actions.SyncDns: a server with an upstream list but without the two other DNS lists, for the
  same reason.
- Actions.SyncQueryLog: a server that omits what the log line shows, for the same reason.
- Actions.SyncSafeSearch: the same for its log line.
- Objects.MergeClients: a client without a name, for the same reason.
- Determinism.MapOrderIsInvisible: does not cover the DHCP configuration, because whether it is sent
  depends on the order in which the replica reports its leases.
- Settling.ThirdRunIsQuiet: does not cover services and the DHCP configuration, for which
  `ServicesSecondRun` and `DhcpSecondRun` have the exact conditions.
- UserRules rendering: user rules are compared by their rendered text, as the program
  does, so agreement on them is agreement of that text (`RenderTells` says when it is more).
- SafeSearch: Ecosia is not compared by the program, so agreement does not include it.
- Statistics.ReliableExactly: hosts that share the statistics object of a host named "total";
  `Consolidate` says what they do, but each host's statistics are fetched on their own.
- UpdateInstances and the Prometheus gauges: a map update and calls into a library.
- Semantic version comparison: a predicate `tooOld` on versions that no theorem looks into.
- Cron, the web interface, configuration loading and masking, log history: I/O or easy members.
