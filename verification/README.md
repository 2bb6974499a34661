# State Vector Sync: a model of ndn-svs

This project models the ndn-svs library and proves what its protocol code promises. A node keeps a
version vector of sequence numbers, tells the others about it in Sync Interests, merges what it
hears, reports what it is missing, and keeps silent while others speak for it. Vectors too large for
one Interest are cut down by a selector with fourteen strategies, whose turn-taking and ageing are
meant to let every entry travel eventually.

The modules follow the files of the library.

- `Nodes`, `Names`, `NameOrder`, `Orders`, `Collections`, `Numbers`: identifiers, sorted lists and
  arithmetic.
  Names are sequences of components in canonical order; where only identity and order matter, nodes
  are numbers, and `NameOrder` shows that the names of any group can be numbered that way.
- `VersionVectors`, `Selection`, `Scoring`, `ClusterKeys`, `SelectionFacts`, `ScoringFacts`,
  `StrategyFacts`, `Selector`: the vector and `selectSubset`. `Selection` and `Scoring` say which keys a
  strategy chooses, `Selector` has the loops that choose them.
- `Ranks`, `Tradeoffs`, `ScoreLaws`, `ClusterLaws`, `Choices`: exactly who is selected, said without lists
  and scores, by who comes before whom and what one entry has on another.
- `Settings`, `Scheduler`, `Runs`, `Rotation`, `RoundRobinFairness`, `CursorFairness`,
  `ScoreFairness`: `getStateVectorLimit`, `buildSyncVector`, and who gets sent when. `Slots` and
  `BuildLaws` say how many entries and which ones, from the configuration.
- `Merging`, `Timing`, `TimingFacts`, `Core`, `CoreFacts`, `SyncNode`: one node. `Core` has its steps
  as functions of its state, `SyncNode` the class `SVSyncCore` with the fields and loops of the
  program, each method proved against those functions.
- `Reporting`, `Knowledge`, `Suppression`, `Spacing`, `TimerRuns`, `NodeRuns`, `NodeFairness`, `Stamps`,
  `Dues`, `TimerFigures`: what holds over all runs of a node, and how soon and how fast it sends. `StartedRuns` has runs from the construction of a node, `Starvation`
  those that never send some entry.
- `Group`, `GroupRuns`, `Publications`, `Publishing`: the group, with stores and a network that loses,
  duplicates and reorders, and what publishing is in it.
- `Tlv`, `VectorCodec`, `WireBytes`, `MappingCodec`, `MappingPath`: the wire formats, after "NDN Packet Format
  Specification v0.3", section "Type-Length-Value (TLV) Encoding", and the exchange of mappings.
- `Fetching`, `Completions`, `Retries`: the windowed fetcher, when it calls back, and how often it tries.

Some of what the library says about itself does not hold as it is worded. The model follows the code
and states what holds instead.

- The cursor is kept "to guarantee coverage" (ndn-svs/core.hpp:332). Under RoundRobin with the own
  entry in the vector it does so if and only if the number of slots does not divide the number of
  entries (`NodeFairness.NodeCoverageExactly`). With four entries and two slots one entry is never
  sent (`Starvation.FourthNeverSent`).
- "Eventual coverage" is promised of `selectSubset` in general (ndn-svs/version-vector.hpp:69-70), and
  fails for Hybrid, the default strategy, too: with eight entries, four slots and the default reserve
  of two, two entries are never sent (`Starvation.EighthNeverSent`). The strategies with a cursor do
  cover everything if the number of slots and the number of entries have no common divisor larger
  than the number of places the reserve serves (`NodeFairness.NodeCursorCoverage`).
- A callback for failed validation is documented (ndn-svs/svsync-base.hpp:137-138), but the `return`
  before it is unconditional (ndn-svs/fetcher.cpp:101). An Interest whose last validation fails ends
  without any callback (`Completions.FailsSilently`); every other one ends with exactly one
  (`Completions.CompletesOnce`).
- The additional mapping blocks given to `publish` (ndn-svs/svspubsub.hpp:110-111) are dropped if the
  value fits into one packet (ndn-svs/svspubsub.cpp:91, `Publishing.SVSPubSub.Publish`).
- Encoding from the back turns the pairs of a mapping list and the additional blocks of each pair
  around; the pairs go into a table, where order does not matter, but the blocks stay turned
  (`MappingPath.ExchangeTeaches`).

One configuration option has no effect of its own: as nothing ever changes the hot-spot score, a node
under AdaptiveRecentScore scores always or never while the entries of its vector stay the same,
whatever the length configured for a burst (`NodeFairness.NodeAlwaysOrNever`).

Real numbers stand for doubles. What comes from outside is a parameter: the two clocks, the result of
a shuffle, the random delays, and the URIs of nodes. A public call or a timer event
is one step, at one point in time.

## Model

| member | source | states |
|---|---|---|
| `Orders.ListingFacts` | ndn-svs/version-vector.cpp:157-173 | A sorted node list names every entry exactly once, in the order of the comparator |
| `Orders.ListingUnique` | ndn-svs/version-vector.cpp:167-173 | A sequence sorted by the comparator with these entries is unique, so any sorting algorithm gives the same list |
| `NameOrder.NumbersCompare` | ndn-svs/common.hpp:41 | Names of a group can be numbered so that numbers compare exactly as names do in canonical order and only the empty name gets the number of "no node" |
| `ClusterKeys.ClusterOfIndexedNode` | ndn-svs/version-vector.cpp:30-40 | A node named prefix/key_index belongs to the cluster "key", whatever the prefix and the index |
| `ClusterKeys.ClusterOfDashedNode` | ndn-svs/version-vector.cpp:30-44 | So does a node named prefix/key-index whose last segment has no underscore after its first character |
| `ClusterKeys.ClusterOfPlainNode` | ndn-svs/version-vector.cpp:30-47 | A node whose last segment has neither, except at its beginning, is in the cluster of the whole segment |
| `ClusterKeys.KeysSpread` | ndn-svs/version-vector.cpp:730-740 | In a group of nodes so named, the entries ClusterHybrid selects come from at least min(number of keys, s + min(cluster budget, maxEntries - s)) different keys |
| `VersionVectors.SizeIs` | ndn-svs/version-vector.hpp:92-95 | Iterating over a vector visits as many entries as it has |
| `Selector.AddEntry` | ndn-svs/version-vector.cpp:129-140 | Adds a node exactly when it is known and not selected yet, and says whether it did |
| `Selector.AddInOrder` | ndn-svs/version-vector.cpp:145-155 | The loop over a prepared list computes the greedy fill under budget and maximum |
| `Selector.AddFromCursor` | ndn-svs/version-vector.cpp:183-192 | The loop round from the cursor computes the same fill of the rotated list |
| `Selector.AddClusterRecentEntries` | ndn-svs/version-vector.cpp:465-496 | The walk over clusters, with its running set of clusters seen, computes the fill that takes the first node met of each new cluster and then tops up by recency |
| `Selector.BestRemaining` | ndn-svs/version-vector.cpp:525-555 | The scan over all nodes finds the first unselected node of the score order, bonus and ties included, or none exactly when none is left |
| `Selector.AddClusterScoreEntries` | ndn-svs/version-vector.cpp:498-567 | The greedy loop with its running cluster counts computes the repeated choice of the best remaining node |
| `Selector.SelectSubset` | ndn-svs/version-vector.cpp:103-760 | The whole selector, with all fourteen strategies, computes the specified subset and terminates |
| `SelectionFacts.FillExact` | ndn-svs/version-vector.cpp:188-191 | A fill takes an entry if and only if fewer than its room unselected entries precede it in the order |
| `SelectionFacts.FillWhole` | ndn-svs/version-vector.cpp:175-180 | A fill from an order that lists all unselected entries uses up its room |
| `SelectionFacts.SelectorContract` | ndn-svs/version-vector.cpp:569-757 | Every strategy, for all budgets and figures, selects exactly maxEntries known keys, the preferred node among them |
| `ScoringFacts.SubsetContract` | ndn-svs/version-vector.cpp:103-143 | The result carries known entries with unchanged numbers, has size min(maxEntries, n) unless the strategy is Full, and contains the preferred node whenever it is known and maxEntries is positive |
| `ScoringFacts.SubsetStamps` | ndn-svs/version-vector.cpp:129-140 | Whatever is selected keeps its time of update |
| `SelectionFacts.CursorEntrySelected` | ndn-svs/version-vector.cpp:638-751 | With a fairness reserve, every entry whose distance from the cursor is less than the reserve, and than the room the first pass leaves, is selected |
| `SelectionFacts.GreedyFillCounts` | ndn-svs/version-vector.cpp:520-566 | Throughout the greedy fill the running cluster counts equal the number of selected nodes of each cluster |
| `SelectionFacts.ClusterScoreCounts` | ndn-svs/version-vector.cpp:498-567 | So they do in every pass of ClusterScore, whatever was selected before it |
| `SelectionFacts.ClusterFillSpread` | ndn-svs/version-vector.cpp:478-492 | Room is spent on new clusters only, and none is left unless all clusters of the order are represented |
| `SelectionFacts.ClusterSpread` | ndn-svs/version-vector.cpp:730-740 | ClusterHybrid represents at least min(number of clusters, s + min(cluster budget, maxEntries - s)) clusters, and each cluster it adds by that budget by its most recently updated node |
| `ScoringFacts.ScoreSelectsPrefix` | ndn-svs/version-vector.cpp:317-330 | Under Score, whoever precedes a selected candidate in the score order is selected |
| `ScoringFacts.ScoreDominance` | ndn-svs/version-vector.cpp:238-331 | Under Score with any weights, a node that is no less active, has missed no fewer rounds and is more recent than a selected one is selected |
| `ScoringFacts.BoostIrrelevance` | ndn-svs/version-vector.cpp:142-143 | In no strategy does the result depend on the score boost of the preferred node |
| `StrategyFacts.StickyKept` | ndn-svs/version-vector.cpp:145-155 | StickyRecent selects at least min(sticky budget, free slots, number of previous entries still known) of the previous entries, whatever the list of them repeats |
| `StrategyFacts.QuotaKept` | ndn-svs/version-vector.cpp:582-612 | The quota strategies select at least min(quota budget, free slots, number of known entries listed) entries of their extra list |
| `StrategyFacts.NoveltyIs` | ndn-svs/version-vector.cpp:214-220 | The extra list of RecentNoveltyQuota is exactly what the previous selection did not contain |
| `StrategyFacts.HotEntriesSelected` | ndn-svs/version-vector.cpp:704-717 | Hybrid selects every entry that fewer than its hot share of unselected entries precede in recency |
| `StrategyFacts.RecentDominance` | ndn-svs/version-vector.cpp:162-181 | A pass by recency selects whoever is more recent than an entry it adds |
| `StrategyFacts.AgeDominance` | ndn-svs/version-vector.cpp:333-396 | A pass of AgeScore selects whoever is staler, no less active and no farther from the cursor than an entry it adds |
| `StrategyFacts.DeficitDominance` | ndn-svs/version-vector.cpp:398-463 | A pass of DeficitScore selects whoever lags at least as far, is more recent and no farther from the cursor than an entry it adds |
| `Ranks.PlaceIsCount` | ndn-svs/version-vector.cpp:157-173 | The rank of an entry in a sorted list is the number of entries before it |
| `Ranks.FirstAdded` | ndn-svs/version-vector.cpp:157-181 | A pass over sorted entries adds those of them not selected yet that fewer than its room precede |
| `Ranks.TurnAdded` | ndn-svs/version-vector.cpp:183-192 | A pass round the cursor adds those not selected yet that fewer than its room are nearer to the cursor |
| `Ranks.OffsetAt` | ndn-svs/version-vector.cpp:372 | The offset that scores count with is the distance from the cursor |
| `Tradeoffs.WeightedDifference` | ndn-svs/version-vector.cpp:252-312 | The scores of two candidates under Score differ by a positive multiple of the weighted sum of what one has on the other in activity, recency and waiting, each on its own scale; the weights are those configured, or .35, .45 and .20 if none is positive |
| `Tradeoffs.AgedDifference` | ndn-svs/version-vector.cpp:353-375 | Under AgeScore by .25 of the gap in activity, .60 of that in staleness and .15 of that in turn |
| `Tradeoffs.DeficitDifference` | ndn-svs/version-vector.cpp:418-442 | Under DeficitScore by .55 of the gap in lag, .25 of that in recency and .20 of that in turn |
| `Tradeoffs.ClusteredDifference` | ndn-svs/version-vector.cpp:525-544 | Under ClusterScore, but for the bonus, by .28 of the gap in activity, .42 of that in recency and .18 of that in turn |
| `Tradeoffs.ScoreExact` | ndn-svs/version-vector.cpp:238-331 | Score selects exactly the preferred node and each candidate that fewer others beat than there are slots left, where beating means a greater weighted sum of gaps, or an equal one and more recent |
| `Tradeoffs.AgeScoreAdded` | ndn-svs/version-vector.cpp:333-396 | A pass of AgeScore adds exactly the candidates that fewer others beat than it has room for, ties going to the staler |
| `Tradeoffs.DeficitScoreAdded` | ndn-svs/version-vector.cpp:398-463 | So does one of DeficitScore, ties going to the more recent |
| `Tradeoffs.MeasuresExist` | ndn-svs/version-vector.cpp:266-279 | The scales the gaps are measured by, the greatest number and the longest wait, exist for every vector |
| `ScoreLaws.BeatsSelected` | ndn-svs/version-vector.cpp:238-331 | Under Score, whoever beats a selected candidate is selected |
| `ScoreLaws.RecencyAlone` | ndn-svs/version-vector.cpp:310 | With a positive weight for recency only, Score selects whoever is more recent than a candidate it selects |
| `ScoreLaws.ActivityAlone` | ndn-svs/version-vector.cpp:310 | With one for activity only, whoever has a higher number |
| `ScoreLaws.RecencyOutweighs` | ndn-svs/version-vector.cpp:310 | Among candidates that waited as long, recency outweighs activity exactly as their weights say: if recentWeight times the share of ranks exceeds seqWeight times the share of numbers, the more recent one is selected with the other |
| `ClusterLaws.PickIsBest` | ndn-svs/version-vector.cpp:530-556 | Each pick of ClusterScore outdoes all other candidates, counting .30 for a node of a cluster of which nothing is selected, .10 after one, .02 after two and nothing from three on |
| `ClusterLaws.BestUnique` | ndn-svs/version-vector.cpp:530-556 | Only one candidate does |
| `ClusterLaws.ClusterScoreAdded` | ndn-svs/version-vector.cpp:498-567 | A pass of ClusterScore adds as many picks as it has room for, each the best one given what was selected before |
| `ClusterLaws.ClusterRecentAdded` | ndn-svs/version-vector.cpp:465-496 | A pass of ClusterHybrid adds the most recent representatives of clusters of which nothing is selected, and with the room left the most recent of the rest |
| `Choices.RecentExact` | ndn-svs/version-vector.cpp:570-580 | Recent and StickyRecent select as many of the previous entries as their budget allows, and the most recent others |
| `Choices.RoundRobinExact` | ndn-svs/version-vector.cpp:629-631 | RoundRobin selects the preferred node and those nearest to the cursor |
| `Choices.AdaptiveExact` | ndn-svs/version-vector.cpp:614-616 | AdaptiveRecentScore, asked for as such, selects the preferred node and the most recent ones |
| `Choices.NoveltyExact` | ndn-svs/version-vector.cpp:582-597 | RecentNoveltyQuota fills all but its quota by recency, the quota with the most recent of those not selected the last time, and what is left by recency |
| `Choices.ReservedExact` | ndn-svs/version-vector.cpp:638-751 | AgeScore, DeficitScore, ClusterScore, Hybrid and ClusterHybrid select exactly: what their scoring pass adds within the first slots, then those nearest to the cursor within the reserve, then what the scoring pass adds with the slots left |
| `Choices.HybridExact` | ndn-svs/version-vector.cpp:704-728 | For Hybrid these passes go by recency |
| `Runs.LimitMonotone` | ndn-svs/core.cpp:326-361 | A larger vector is never granted fewer slots |
| `Runs.LimitPositive` | ndn-svs/core.cpp:326-361 | At least one slot is granted to a non-empty vector unless the configured maximum is zero, and never more slots than entries |
| `Slots.LimitIs` | ndn-svs/core.cpp:326-361 | The number of slots is what is granted, but no more than configured nor than there are entries; granted is the least number no smaller than the configured share of the entries, or with a square of at least four times their number, and under coordination the least no smaller than that, or the floor, times one plus .22 times the pressure |
| `Slots.GrantedExists` | ndn-svs/core.cpp:335-357 | There is such a number |
| `Slots.WithoutCoordination` | ndn-svs/core.cpp:339-361 | Without a share and without coordination the limit is the number of entries, the maximum, or the least number not below that configured for recent entries whose square is at least four times the number of entries |
| `Slots.CoordinationAdds` | ndn-svs/core.cpp:346-357 | Coordination never takes slots away, and adds less than 22 percent and one slot to what is wanted or the floor |
| `Slots.ShareIs` | ndn-svs/core.cpp:445-467 | The slots kept for previous or new entries are the configured share of all slots rounded up, but no fewer than configured and never all |
| `Runs.BuildContract` | ndn-svs/core.cpp:363-375 | A built vector carries current numbers, exactly as many entries as the limit grants, the own entry among them |
| `Runs.CursorIs` | ndn-svs/core.cpp:493-494 | Over consecutive partial builds the cursor advances by the limit each time, modulo the number of entries |
| `BuildLaws.BurstRuns` | ndn-svs/core.cpp:390-410 | A burst of AdaptiveRecentScore scores for its whole length, and then is over |
| `BuildLaws.NoBurst` | ndn-svs/core.cpp:390-410 | Outside a burst the most recent entries are sent unless .55 of the share of entries left out, .25 of the loss rate and .20 for want of hot spots reach the threshold |
| `BuildLaws.AlwaysOrNever` | ndn-svs/core.hpp:337 | Since nothing ever changes the hot-spot score, such a node scores always or never while the entries of its vector stay the same, whatever the length of a burst |
| `BuildLaws.OtherStrategies` | ndn-svs/core.cpp:381-398 | With any other strategy configured, that one is used |
| `BuildLaws.ScoreBuild` | ndn-svs/core.cpp:431-487 | What a Score node sends: its own entry and each entry that fewer others beat than there are slots left, with the weights as coordination shifts them by heat, losses and distance |
| `BuildLaws.HybridBuild` | ndn-svs/core.cpp:418-487 | What a Hybrid node sends: its own entry and the most recent ones up to the hot share, those nearest to the cursor up to the reserve, and the most recent of the rest, with hot share and reserve as coordination shifts them |
| `BuildLaws.StickyHolds` | ndn-svs/core.cpp:445-454 | A StickyRecent node sends again at least its configured share of the entries it sent last, or all it still knows |
| `BuildLaws.NoveltyBrings` | ndn-svs/core.cpp:456-467 | A RecentNoveltyQuota node sends at least its configured share of entries it did not send last, or all there are |
| `Rotation.ServedFree` | ndn-svs/version-vector.cpp:183-192 | With nobody pinned, a build serves exactly the nodes at distance less than k from the cursor |
| `Rotation.ServedPinned` | ndn-svs/version-vector.cpp:142-192 | With the own node pinned, a build serves another node exactly when fewer than k - 1 competitors lie between it and the cursor |
| `RoundRobinFairness.FreeCoverage` | ndn-svs/core.cpp:476-494 | RoundRobin without an own entry sends every entry in any ceil(n/k) consecutive builds |
| `RoundRobinFairness.PinnedCoverage` | ndn-svs/core.cpp:476-494 | RoundRobin with the own entry pinned sends every entry in any 2*ceil(n/k) consecutive builds, if k does not divide n |
| `RoundRobinFairness.PinnedStarvation` | ndn-svs/core.hpp:332-333 | The coverage the cursor is said to guarantee fails when k divides n: some entry is in no build of the run, however long it is |
| `RoundRobinFairness.PinnedCoverageExactly` | ndn-svs/core.hpp:332-333 | Over any run of two tours or more, all entries are sent if and only if k does not divide n |
| `RoundRobinFairness.LastOfFourStarves` | ndn-svs/core.cpp:493-494 | Four entries, limit two, own node first, cursor at zero: the last entry is never sent |
| `Starvation.FreshRunIsSteady` | ndn-svs/core.cpp:363-531 | For every vector that does not fit, steady runs of any length from a fresh start exist |
| `StartedRuns.StartedIsSteady` | ndn-svs/core.cpp:315-375 | For any entries and any number of slots there are runs from the construction, with an update, two vectors heard and a start, that are steady and send in every step from the fourth on |
| `Starvation.FourthNeverSent` | ndn-svs/core.cpp:493-494 | Such runs of a RoundRobin node, with any number of Sync Interests, in none of which the fourth of four entries travels |
| `Starvation.EighthNeverSent` | ndn-svs/version-vector.cpp:629-751 | And of a node under Hybrid, the default: of eight entries, four at a time, the seventh and the eighth never travel |
| `RoundRobinFairness.Dissemination` | ndn-svs/core.cpp:894-914 | Merging all vectors of a tour in any order, with repetitions, makes the receiver dominate the vector of the sender as it was at the start of the tour, although its numbers grow meanwhile |
| `CursorFairness.PlacesSent` | ndn-svs/version-vector.cpp:629-751 | Every build of RoundRobin, AgeScore, DeficitScore, ClusterScore, Hybrid or ClusterHybrid with enough slots sends as many entries from the cursor on as the fairness reserve, or under RoundRobin the number of slots, provides, coordinated or not |
| `CursorFairness.CursorVisits` | ndn-svs/core.cpp:493-494 | Within n steps of length k the cursor comes to every place, or to within less than gcd(k, n) before it |
| `CursorFairness.CursorCoverage` | ndn-svs/core.cpp:476-494 | With those strategies every entry is sent within n builds if gcd(limit, n) is at most the number of places served from the cursor on |
| `ScoreFairness.WaitingBound` | ndn-svs/core.cpp:513-519 | In every run with compensation only, at most max(0, m - j*k) entries have missed j or more builds, also while the vector grows |
| `ScoreFairness.NobodyStarves` | ndn-svs/core.cpp:469-519 | No entry has ever missed ceil(m/k) builds in a row |
| `ScoreFairness.ScoreCoverage` | ndn-svs/core.cpp:469-519 | Every entry is sent at least once in any ceil(m/k) consecutive builds |
| `ScoreFairness.IdleRunGrows` | ndn-svs/core.cpp:326-361 | A node that keeps nobody waiting keeps leaving the k slots its next build leaves, because the limit is monotone |
| `NodeRuns.FireBuilds` | ndn-svs/core.cpp:782-834 | A timer that fires leaves the scheduler alone if nothing is sent, and otherwise performs exactly one build on the vector and the scheduler of that moment |
| `NodeRuns.RunExtends` | ndn-svs/core.cpp:894-968 | Along every run in which no number is lowered, the vector loses neither a number nor an entry |
| `NodeRuns.RoundsAreConsecutive` | ndn-svs/core.cpp:821-834 | The Sync Interests of such a run are those of consecutive builds, so all results about builds hold of what a node sends |
| `NodeFairness.NodeFreeCoverage` | ndn-svs/core.cpp:476-494 | Over any stretch of a run with ceil(n/k) Sync Interests a RoundRobin node without an own entry sends every entry, whatever it hears meanwhile |
| `NodeFairness.NodeCoverageExactly` | ndn-svs/core.hpp:332-333 | Over any stretch with two tours of Sync Interests or more, a RoundRobin node with an own entry sends every entry if and only if k does not divide n |
| `NodeFairness.NodeCursorCoverage` | ndn-svs/version-vector.hpp:66-71 | The eventual coverage promised: under those strategies every entry travels in any stretch with n Sync Interests, if gcd(limit, n) is at most the number of places served from the cursor on |
| `NodeFairness.NodeScoreCoverage` | ndn-svs/core.cpp:469-519 | From the construction of a Score node on, once its vector no longer fits, every entry is carried by one of any ceil(m/k) Sync Interests, also while the vector grows |
| `NodeFairness.NodeAlwaysOrNever` | ndn-svs/core.cpp:390-410 | So a node under AdaptiveRecentScore scores in every Sync Interest of such a stretch of its run or in none |
| `Merging.MergeAllIsMax` | ndn-svs/core.cpp:901-914 | After any series of merges each number is the greatest heard or known |
| `Merging.OrderIrrelevant` | ndn-svs/core.cpp:894-914 | Histories with the same vectors, in any order and number, lead to the same numbers |
| `Knowledge.KnowsMaximum` | ndn-svs/core.cpp:721-780 | Along every run the number known of a remote producer is the greatest one heard, or the one known at the start |
| `Knowledge.SameHeardSameKnown` | ndn-svs/core.cpp:721-780 | Two nodes that heard the same vectors since their construction, in any order and number, know the same of every producer remote to both, whatever else happened to them |
| `Merging.ReportIsGrowth` | ndn-svs/core.cpp:906-913 | A range is reported for a node exactly if its number grew, and it ends at the new number |
| `Merging.ReportedTotal` | ndn-svs/core.cpp:906-913 | The total length of the reported ranges is the growth of the sum of the vector |
| `Merging.MyVectorNewIff` | ndn-svs/core.cpp:916-930 | myVectorNew says whether some entry not updated within the suppression time is ahead of the other vector |
| `CoreFacts.HiddenMergeIdle` | ndn-svs/core.cpp:800-804 | The merge inside retxSyncInterest, whose report is dropped, changes nothing and reports nothing while the recorded vector is behind |
| `CoreFacts.StepKeepsBehind` | ndn-svs/core.cpp:742-804 | Every step keeps the recorded vector pointwise at most the own one, if updateSeqNo never lowers a number |
| `CoreFacts.RunKeepsBehind` | ndn-svs/core.cpp:1088-1118 | So does every run |
| `Reporting.StepReports` | ndn-svs/core.cpp:752-756 | A step reports of a remote producer exactly the numbers by which its entry grew |
| `Reporting.ReportedOnce` | ndn-svs/core.cpp:741-756 | Over any run the ranges reported of a remote producer follow each other without gap or overlap from the number known at the start to the number known at the end |
| `Reporting.ReportedFromOne` | ndn-svs/core.cpp:741-756 | From the construction on they cover exactly 1 to the number now known |
| `Reporting.TilesOnce` | ndn-svs/core.cpp:909-910 | What that means for one number: it lies in exactly one of the ranges |
| `Reporting.FacesReported` | ndn-svs/core.cpp:752-756 | Every range reported names the face its vector came in on |
| `Stamps.StepStamps` | ndn-svs/core.cpp:894-914 | A step stamps exactly the entries it sets, with the time of the system clock |
| `Stamps.StampsAre` | ndn-svs/core.cpp:894-968 | Throughout a run the stamp of an entry is the time of the last step that set it |
| `Suppression.RecordedIsMaximum` | ndn-svs/core.cpp:1088-1118 | The recorded vector always is the pointwise maximum of the vectors heard since suppression was entered |
| `Suppression.HearingSuppresses` | ndn-svs/core.cpp:766-774 | A vector leads to suppression if and only if the node, having merged it, may speak about an entry of which the vector knows less |
| `Suppression.FireDecides` | ndn-svs/core.cpp:800-804 | A timer that fires in suppression without deferral sends unless every settled entry is recorded at its number or higher |
| `Suppression.SilentIffAllCarried` | ndn-svs/core.cpp:758-805 | It stays silent if and only if every entry not updated within the suppression time was carried, at its number or higher, by a vector heard in the episode |
| `Spacing.StepPaced` | ndn-svs/core.cpp:782-819 | Every step keeps the timer and the activity in range and sends only the configured gap after the last transmission |
| `Spacing.TransmissionsSpaced` | ndn-svs/core.cpp:791-796 | Any two Sync Interests of a run are at least the configured interval apart |
| `Spacing.DeferredOnce` | ndn-svs/core.cpp:793-817 | A deferred transmission is re-armed for a time at which it is not deferred again |
| `Dues.StepDue` | ndn-svs/core.cpp:766-819 | Every step leaves the next Interest due as it should: after a timer has fired a period later, or when the gap allows it; after a vector heard at the reply delay if that is earlier, a period later, or as it was; after a raised number the local delay later |
| `Dues.AnswersSoon` | ndn-svs/core.cpp:770-779 | A node that entered suppression sends or decides not to after the reply delay it drew, or when it would have sent anyway if that is earlier, whatever it hears until then |
| `TimerRuns.PeriodInRange` | ndn-svs/core.cpp:533-629 | In every reachable state of a node the period lies between the current minimum and thirty seconds, the suppression time between 40 and 1200 ms, the minimum within five seconds, and the activity between 0 and 1 |
| `TimerRuns.HearingRespectsFloor` | ndn-svs/core.cpp:543-628 | A vector heard, unless just after an adjustment, leaves the period at or above the floor for the entries then known if and only if the strategy is not Full or there are at most 1588 of them |
| `TimingFacts.FloorRespected` | ndn-svs/core.cpp:588-628 | An adjustment respects the floor set by the size of the vector if and only if the floor does not exceed thirty seconds |
| `TimingFacts.FloorWithin` | ndn-svs/core.cpp:543-552 | That is the case unless the strategy is Full and the vector has 1589 entries or more |
| `TimerFigures.FloorByEntries` | ndn-svs/core.cpp:543-552 | The floor takes 18 milliseconds an entry on top of 1400 for a vector sent whole, otherwise 9 on top of 650, up to 64 entries |
| `TimerFigures.FloorIsGreater` | ndn-svs/core.cpp:543-552 | It is never below the least period |
| `TimingFacts.AdaptiveDirection` | ndn-svs/core.cpp:563-592 | An adaptive adjustment after a local update or a repair does not lengthen the period beyond the weighted floor, and one after a remote update or in quiet does not shorten it |
| `TimingFacts.Converges` | ndn-svs/core.cpp:595-628 | Without new feedback, r adjustments that are not rate-limited bring the period within 0.96^r times the first distance plus 12.5 ms of the feedback target |
| `TimerFigures.SettlesAtAim` | ndn-svs/core.cpp:595-628 | Without new feedback, r adjustments that are not rate-limited bring the period within 0.96^r times the first distance plus 13.5 ms of 3.0 times the delay plus 2.2 times the jitter plus 320 plus 220 times the loss rate, or of the floor or thirty seconds if that is nearer |
| `TimerFigures.OneAdjustment` | ndn-svs/core.cpp:603-628 | One adjustment goes 6 percent of the way there, or 16, 10, 7 or 4 percent after a repair, a local update, a remote update or in quiet, up to rounding |
| `TimerFigures.LimitedAdjustment` | ndn-svs/core.cpp:554-561 | Within 220 ms of an adjustment only a repair counts, and takes half of what the period has above the floor |
| `TimerFigures.ActivityTends` | ndn-svs/core.cpp:563-586 | An adaptive adjustment leaves .85, .75, .80 or .65 of the distance of the activity from 1.2, 1.2, 0.4 or 0, but the activity never exceeds one |
| `TimerFigures.PeriodPaces` | ndn-svs/core.cpp:563-592 | It shortens the period by an eighth or at least 200 ms, or a quarter or 350, and lengthens it by a sixteenth or 100, or a fifth or 400, within a floor that rises with the activity and thirty seconds |
| `TimerFigures.HearingAdjusts` | ndn-svs/core.cpp:738-750 | Hearing a vector takes in its echo and adjusts the timer by a repair if ranges are reported, by a remote update if the node may speak about more, and by quiet otherwise |
| `TimerFigures.FitsEstimates` | ndn-svs/core.cpp:1039-1067 | In every reachable state of a network-aware node the suppression time and the least period are those its current estimates call for, to half a millisecond |
| `TimerFigures.InitialEstimates` | ndn-svs/core.cpp:243-259 | Before the first observation the delay follows from the diameter of the network, and the jitter from the delay |
| `TimerFigures.InitialPeriod` | ndn-svs/core.cpp:246-259 | The period a node starts with is the one configured, within its least period and thirty seconds |
| `TimerFigures.RefreshKeepsPeriod` | ndn-svs/core.cpp:1060-1065 | When the least period changes the period is kept if it may be |
| `TimerFigures.FirstSample` | ndn-svs/core.cpp:1013-1016 | The first observation is taken as it is, its jitter as 15 percent of it or 15 ms |
| `TimerFigures.DelayTracks` | ndn-svs/core.cpp:1017-1022 | While the delay observed stays the same the estimate comes 18 percent closer to it each time |
| `TimerFigures.JitterTracks` | ndn-svs/core.cpp:1017-1022 | The jitter estimate comes 22 percent closer to how far the observation is from the estimate, but not below 10 ms |
| `TimerRuns.PendingStaysQueued` | ndn-svs/core.cpp:970-983 | In every reachable state of a node the pending numbers increase strictly and are at most 32 |
| `TimingFacts.NotesLatest` | ndn-svs/core.cpp:970-983 | A number that is new joins the pending ones last, and of the others the latest 31 stay |
| `TimingFacts.NotesNothing` | ndn-svs/core.cpp:970-983 | Any other number leaves them alone |
| `TimerRuns.ObservedIsRoundTrip` | ndn-svs/core.cpp:985-1013 | A delay is observed between a step of the run that sent a number of the own node and one that brings this number back, or a higher one |
| `TimingFacts.EchoConfirms` | ndn-svs/core.cpp:998-1003 | An echo removes exactly the numbers up to the one echoed |
| `TimingFacts.EchoUsesLargest` | ndn-svs/core.cpp:999-1003 | The sending time used is that of the largest number confirmed |
| `TimerRuns.EstimatesWithinObserved` | ndn-svs/core.cpp:1008-1023 | In every reachable state there are as many samples as delays observed in the run; once there is one, the delay estimate lies between the smallest and the largest, and the jitter estimate is at least 10 ms |
| `TimingFacts.GapIsConfigured` | ndn-svs/core.cpp:786-789 | With activity at most 1 the branch that halves the gap is never taken |
| `SyncNode.SVSyncCore.constructor` | ndn-svs/core.cpp:198-259 | A new node is in the initial state, its period clamped |
| `SyncNode.SVSyncCore.UpdateSyncInterval` | ndn-svs/core.cpp:533-629 | Adjusts the timer as specified, and nothing else |
| `SyncNode.SVSyncCore.RefreshNetworkAwareTimerState` | ndn-svs/core.cpp:1039-1067 | Recomputes suppression time and minimum period and clamps the period |
| `SyncNode.SVSyncCore.RecordPropagationFeedbackSend` | ndn-svs/core.cpp:970-983 | Queues a number only if it is new and larger than the last one, and keeps the last 32 |
| `SyncNode.SVSyncCore.DropConfirmed` | ndn-svs/core.cpp:999-1003 | Drops the confirmed prefix of the queue and returns the sending time of its last entry |
| `SyncNode.SVSyncCore.ObservePropagationFeedback` | ndn-svs/core.cpp:985-1026 | Updates queue, estimates and timer as specified |
| `SyncNode.TakeOverNews` | ndn-svs/core.cpp:900-914 | The loop over the other vector computes the pointwise maximum and the list of missing ranges |
| `SyncNode.SVSyncCore.MergeStateVector` | ndn-svs/core.cpp:894-933 | Leaves the merged vector and returns the specified report |
| `SyncNode.SVSyncCore.RecordVector` | ndn-svs/core.cpp:1088-1109 | Merges into the recorded vector if there is one |
| `SyncNode.SVSyncCore.EnterSuppressionState` | ndn-svs/core.cpp:1111-1118 | Records the vector unless one is recorded already |
| `SyncNode.CountMissed` | ndn-svs/core.cpp:513-519 | The loop over the vector resets the counters of the entries sent and raises all others |
| `SyncNode.SVSyncCore.BuildSyncVector` | ndn-svs/core.cpp:363-531 | Returns the specified vector and leaves cursor, counters, last selection and burst as specified |
| `SyncNode.SVSyncCore.SendSyncInterest` | ndn-svs/core.cpp:821-892 | Sends the built vector if initialized, and notes the transmission |
| `SyncNode.SVSyncCore.RetxSyncInterest` | ndn-svs/core.cpp:782-819 | Defers, sends or stays silent as specified, leaves suppression, and schedules the next attempt |
| `SyncNode.SVSyncCore.Initialize` | ndn-svs/core.cpp:315-324 | The event scheduled at the start: the node may send from now on, and its timer fires for the first time |
| `SyncNode.SVSyncCore.OnTimeout` | ndn-svs/core.cpp:808-818 | The event every scheduled attempt leads to |
| `SyncNode.SVSyncCore.OnSyncInterestValidated` | ndn-svs/core.cpp:721-780 | From the decoded vector on: feedback, merge, timer, report, suppression, in this order |
| `SyncNode.SVSyncCore.UpdateSeqNo` | ndn-svs/core.cpp:948-968 | Sets the number and, if it grew, adjusts the timer and schedules an early Interest |
| `SyncNode.SVSyncCore.GetSeqNo` | ndn-svs/core.cpp:940-946 | The number of a node, or the own one for the empty name |
| `Group.HonestKeepsSound` | ndn-svs/core.cpp:894-914 | A step of one node that takes over only published numbers keeps the whole group sound |
| `Group.StepKeepsSound` | ndn-svs/core.cpp:782-968 | So does every step of the group: storing, announcing, delivering, losing, duplicating, starting, timing out |
| `Group.AdvertisedIsStored` | ndn-svs/svsync-base.cpp:60-81 | If members announce only what is stored, then in every reachable state whatever number of a producer any vector held, recorded or in flight carries is at most the number of the producer, and its store holds the data |
| `GroupRuns.MemberRuns` | ndn-svs/core.cpp:721-968 | What happens to a member in any stretch of a history is a run of its node in which no number is lowered |
| `GroupRuns.TravelledIsKnown` | ndn-svs/core.cpp:721-780 | If all entries a member had travel in its Sync Interests and these are delivered, in any order, with repetitions and other traffic around, the receiver knows at least what the member knew |
| `GroupRuns.TruthStands` | ndn-svs/core.cpp:894-914 | While nobody announces, the own number of every producer stands, whatever is delivered, lost or repeated |
| `GroupRuns.KnowsTheTruth` | ndn-svs/core.cpp:721-780 | If nobody announces meanwhile, a member all others have so informed knows the number of every producer exactly |
| `GroupRuns.Agreement` | ndn-svs/core.cpp:721-780 | So all members that were informed agree on every producer |
| `GroupRuns.TourInforms` | ndn-svs/core.cpp:476-494 | A delivered tour of the Sync Interests of a RoundRobin member informs the receiver |
| `GroupRuns.TourReaches` | ndn-svs/core.cpp:476-494 | Delivering one tour of the Sync Interests of a RoundRobin member makes the receiver dominate the vector the member had at the start of the tour |
| `Publishing.SVSyncBase.PublishData` | ndn-svs/svsync-base.cpp:60-81 | Leaves the member with the packet stored under the next number and the number raised |
| `Publishing.SVSyncBase.InsertDataSegment` | ndn-svs/svsync-base.cpp:83-100 | Stores one segment and leaves the number alone |
| `Publishing.SVSPubSub.InsertMapping` | ndn-svs/svspubsub.cpp:104-130 | The mapping, with the timestamp if one is asked for, goes into the table under the number, and into the notification list if that is empty or of this node |
| `Publishing.SVSPubSub.PublishPacket` | ndn-svs/svspubsub.cpp:95-102 | Publishes under the prefix given, or under that of the node if it is empty, and inserts the mapping of the number published |
| `Publishing.SVSPubSub.Publish` | ndn-svs/svspubsub.cpp:49-93 | Leaves the member with all segments, or the one packet, of the value stored under the next number and the number raised, and with the mapping of that number; the additional blocks go along with a segmented value only |
| `Publishing.PublishingMaps` | ndn-svs/svspubsub.cpp:83-100 | Publishing keeps the mapping of every number announced in the table |
| `Publishing.AnnouncedIsAnswered` | ndn-svs/mapping-provider.cpp:115-142 | So a publisher can answer in full every query for numbers it has announced |
| `Publications.SegmentsJoin` | ndn-svs/svspubsub.cpp:58-72 | The segments of a value, joined, are the value |
| `Publications.PublishingIsAnnouncing` | ndn-svs/svsync-base.cpp:66-77 | What publishing leaves is what inserting its packets one by one and then announcing leaves, each of these enabled, exactly when the 64-bit number does not wrap; if it wraps, the number falls to zero |
| `Publications.PublishingKeepsSound` | ndn-svs/svspubsub.cpp:49-93 | Publishing a value of any size keeps the group sound unless the number wraps |
| `Publications.PublishedIsStored` | ndn-svs/svsync-base.cpp:60-81 | In every reachable state of a group whose members announce by publishing, whatever number any vector held, recorded or in flight carries was published, and all its packets are in the store of its producer |
| `Tlv.VarNumberInverse` | ndn-svs/version-vector.cpp:93-99 | Variable-size numbers of all widths are read back, whatever follows them |
| `Tlv.NonNegativeIntegerInverse` | ndn-svs/version-vector.cpp:88 | So are non-negative integers of all widths |
| `VectorCodec.Encode` | ndn-svs/version-vector.cpp:80-101 | The loop from the last entry to the first leaves the encoding of the map in name order, every length field counting the bytes that follow |
| `VectorCodec.VectorInverse` | ndn-svs/version-vector.cpp:61-78 | Decoding the encoding of any version vector gives the same map |
| `VectorCodec.WireInverse` | ndn-svs/version-vector.cpp:61-101 | The same from the bytes of a buffer, with nothing of what follows consumed |
| `VectorCodec.EncodingInjective` | ndn-svs/version-vector.cpp:80-101 | Equal bytes come from equal maps |
| `WireBytes.NumberLayout` | ndn-svs/version-vector.cpp:93-99 | Types and lengths take one byte below 253, otherwise a marker and two, four or eight bytes, the most significant first |
| `WireBytes.IntegerLayout` | ndn-svs/version-vector.cpp:88 | Sequence numbers take one, two, four or eight bytes, the most significant first |
| `WireBytes.EntryLayout` | ndn-svs/version-vector.cpp:83-96 | A short entry is 202, its length, the name of type 7 and the number of type 204 |
| `WireBytes.VectorLayout` | ndn-svs/version-vector.cpp:80-101 | A vector is 201, its length, and one entry after another |
| `WireBytes.ListLayout` | ndn-svs/mapping-provider.cpp:57-86 | A mapping list is 205, its length, the name of the node, and the pairs, the last one first |
| `WireBytes.PairLayout` | ndn-svs/mapping-provider.cpp:62-78 | A pair is 206, its length, the number of type 204, the name, and the additional blocks, the last one first |
| `WireBytes.OneTwo` | tests/unit-tests/version-vector.t.cpp:76-84 | The vector of the unit test is written with exactly the bytes given there |
| `MappingCodec.EncodeList` | ndn-svs/mapping-provider.cpp:57-86 | The loops leave the specified encoding of a mapping list |
| `MappingCodec.ListInverse` | ndn-svs/mapping-provider.cpp:29-86 | Decoding an encoded list gives the same node, the pairs reversed and the additional blocks of each pair reversed |
| `MappingCodec.TwoRoundTrips` | ndn-svs/mapping-provider.cpp:29-86 | Two round trips are the identity |
| `MappingPath.SplitRange` | ndn-svs/svspubsub.cpp:190-228 | The locally known prefix and the first ceil(rest/11) requests, of at most eleven numbers each, partition the missing range; there are no others unless the 64-bit counter passes its end after the last of them and wraps; the loop ends if and only if the range ends below 2^64 - 1 |
| `MappingPath.CounterReaches` | ndn-svs/svspubsub.cpp:213-228 | A 64-bit counter raised by eleven at a time takes every value, so a loop that can end at one value only does end there |
| `MappingPath.QueryInverse` | ndn-svs/mapping-provider.cpp:189-207 | Parsing a query name gives the query back |
| `MappingPath.KeyInjective` | ndn-svs/mapping-provider.cpp:103-113 | Different publications have different keys in the mapping table |
| `MappingPath.AnswerComplete` | ndn-svs/mapping-provider.cpp:121-131 | A query is answered if and only if every mapping asked for is known, and then with exactly these mappings, in order |
| `MappingPath.MappingProvider.OnMappingQuery` | ndn-svs/mapping-provider.cpp:115-142 | The loop gives that answer to a query that ends below 2^64 - 1; for one that ends there the counter wraps, and the query is never answered: the loop stops at a missing mapping, or goes on forever if there is none |
| `MappingPath.MappingProvider.LearnMappings` | ndn-svs/mapping-provider.cpp:169-176 | The loop inserts what is not known yet |
| `MappingPath.ExchangeTeaches` | ndn-svs/mapping-provider.cpp:115-187 | After a complete exchange the requester has, for every number it asked for and did not know, the mapping of the provider with its additional blocks reversed |
| `Fetching.Fetcher.ProcessQueue` | ndn-svs/fetcher.cpp:65-77 | The loop sends from the front of the queue until it is empty or the window is full |
| `Fetching.Fetcher.ExpressInterest` | ndn-svs/fetcher.cpp:29-49 | A new Interest gets the next id and joins the queue |
| `Fetching.Fetcher.HandleTimeout` | ndn-svs/fetcher.cpp:119-132 | A timeout frees the window and queues another try, or calls back if none is left |
| `Fetching.Fetcher.HandleNack` | ndn-svs/fetcher.cpp:111-117 | A Nack frees the window, is not retried, and calls back |
| `Fetching.Fetcher.HandleData` | ndn-svs/fetcher.cpp:79-109 | Data frees the window, and goes to the validator if there is one, otherwise to the callback |
| `Fetching.Fetcher.HandleValidated` | ndn-svs/fetcher.cpp:88-89 | A validated packet leaves the fetcher and goes to the callback |
| `Fetching.Fetcher.HandleValidationFailed` | ndn-svs/fetcher.cpp:91-105 | A failed validation waits for another try; if none is left the Interest has failed, and nothing is called |
| `Fetching.Fetcher.HandleRetry` | ndn-svs/fetcher.cpp:93-98 | The scheduled retry queues a copy with one try less |
| `Fetching.StepConsistent` | ndn-svs/fetcher.cpp:29-132 | Every event keeps ids in order, every request in one place and every Interest within its allowance |
| `Fetching.FetcherPromise` | ndn-svs/fetcher.hpp:59-82 | In every run: at most ten pending, the queue empty unless the window is full, dispatch in order of ids, one place per request, and at most 1 + nRetries + nRetriesOnValidationFail sendings |
| `Completions.StepTracked` | ndn-svs/fetcher.cpp:29-132 | Every event keeps this balance: an Interest asked for is live, or was called back about once, or failed, and just one of these |
| `Completions.CompletesOnce` | ndn-svs/fetcher.hpp:33-54 | In every run the callbacks about an Interest are at most one, none while a copy is live, and once none is live exactly one if and only if the Interest has not failed |
| `Completions.FailsSilently` | ndn-svs/fetcher.cpp:91-106 | An Interest has failed if and only if a validation of it failed with no retry left, and of no failure is the application ever told |
| `Retries.EndsExactly` | ndn-svs/fetcher.cpp:79-132 | An Interest asked for with nRetries is given up if and only if nRetries is not negative and exactly nRetries + 1 of its copies have timed out, and fails if and only if one more of its validations has failed than may be retried |
| `Retries.TriesAgain` | ndn-svs/fetcher.cpp:124-131 | A timeout that leaves tries, or one of an Interest with negative nRetries, leads to another copy and to no callback |
| `Retries.ValidatesAgain` | ndn-svs/fetcher.cpp:91-100 | A failed validation that leaves retries leads to a scheduled copy and to no callback |
| `Retries.StepCalls` | ndn-svs/fetcher.cpp:79-132 | An event calls back once or not at all, and data goes to the validator if there is one |
| `Retries.ToldExactly` | ndn-svs/fetcher.cpp:79-117 | In every run the application is told that an Interest is satisfied if and only if its data has come and, if there is a validator, turned out valid; and that it is nacked if and only if it was |

## Left out

- Face, Interest and Data transport, signing, validators and compression; a received vector enters after decoding, what is sent leaves before signing.
- Mutexes and interleavings of threads: a public call or a timer event is atomic, and reads the clocks once.
- Rounding of doubles and NaN: figures are exact reals.
- Widths of counters other than sequence numbers and TLV numbers: `long` and `size_t` are unbounded.
- `sampleSyncDelay` and `suppressionCurve`: the delays they draw are arbitrary values.
- `VersionVector` is a value type in the program, copied when stored or returned, and is modelled as one; `Selector.SelectSubset` therefore copies numbers and stamps once the keys are known, where the program copies each as it adds its key.
- The validator, retry and scheduler callbacks of the fetcher are explicit places of a request; that a callback is called is, what the application does in it is not modelled, nor is a callback that calls the fetcher again before it returns.
- TimingFacts.FloorRespected: `std::clamp` with a floor above the maximum is undefined in the standard; the model computes what the GNU library computes, min(max(x, lo), hi).
- Group.AdvertisedIsStored: stores never evict, each name has one owner, nodes do not restart, and a number that would wrap at 2^64 is not announced.
- Publications.PublishedIsStored: the same; the mapping tables of the members are not part of the group.
- CursorFairness.CursorCoverage: the condition is sufficient; with a larger common divisor entries may still be sent for other reasons than the cursor.
- `m_onUpdate` is called between the merge and `recordVector` (ndn-svs/core.cpp:752-759) and may call `updateSeqNo` before the step ends; in the model what it does comes after the step.
- NodeFairness.NodeCoverageExactly and the other results on what a node sends: updateSeqNo is only called to raise a number, and a shuffle permutes the entries of the vector.
- VectorCodec.VectorInverse and MappingCodec.ListInverse assume that the encoding fits into a buffer of less than 2^64 bytes; parsing of elements by ndn-cxx is modelled after the packet format, and accepts numbers that are not in shortest form.
- Fairness of the default-weight Score strategy and of the sticky, quota, Recent and Random strategies: the code gives none.
- `SVSPubSub` subscriptions, the fetch map, segment reassembly and the freshness of timestamps; what is done with the notification list when a Sync Interest is built (`onGetExtraData`) or received.
- Environment variables, strategy names, metrics output, examples and build files.
