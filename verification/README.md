# Outages, assets and exchange of an electricity network: a verified model

QuadranGIS keeps the map and the live state of an electricity distribution network: which switches are open, which
nodes are energised, which outages are running, which asset hangs under which, and what is exchanged with files and
with field crews. This project models its most intricate parts in Dafny and proves what they promise, over every input,
every run and every order in which a hash map may be visited.

- **Energisation** (`Network`, `Switching`, `Distances`, `Relaxing`, `Reseeding`, `Grid`). Hop distances from the
  sources, in full by breadth-first search, and brought up to date after a maneuver: relaxing outwards from what was
  closed, forgetting and refilling the cone below what was opened. Proved: the update gives exactly what the search
  would, *if and only if* the maneuver neither opens a source that is a switch nor closes one that power reaches from
  elsewhere.
- **Outage ledger** (`Isolation`, `Ledger`, `Accounts`, `ControlRoom`, `Witnesses`). Opening starts an outage over the
  nodes that went dark; closing ends the outages of the device and every active outage that holds a node now back on,
  and continues what stays off as one child outage per isolating device. The ledger is a transition system; the class
  `ControlRoom` carries maneuvers out step by step, on the graph above, and every accepted one is a step of that
  system, with the same exception. Proved: active outages are always disjoint and hold only dark nodes; a customer is
  in exactly one active outage precisely while it is off, *if and only if* no closing maneuver of the run drops it;
  over every run the recorded outage time is the time the customer was off, less exactly the time it was off in no
  active outage, plus a correction for reported times. `Witnesses` holds concrete runs in which the exceptions occur.
- **Restoration dashboard** (`Restoration`, `EventLog`). Counting affected, off and restored customers over outages and
  their continuations; merging one line per outage and object; pages.
- **Load allocation** (`LoadShare`).
- **Asset hierarchy** (`AssetGraph`, `AssetForest`, `AssetIndex`, `AssetBuild`, `AssetQueries`, `AssetLaws`). The index
  built from the grouped network is tied to one parent relation; descending, listing by level, locating a feature and
  the totals are proved about that relation.
- **Offline queue** (`Outbox`). Browser tabs, a network that loses messages, and a server that recognises resends, as
  interleaved events; and one flush of one tab as the loop it is.
- **GeoJSON exchange** (`Exchange`, `LineEdits`, `GeoImport`, `GeoLaws`). Attributes out to flat columns and back, line
  geometry, and the import with its report.
- **Geodatabase import job** (`ImportJob`), **event stream reader** (`EventStream`), **natural order of codes**
  (`NaturalOrder`).

`Listings` and `Orders` hold what the other modules share: lists without repetition, sums, lexicographic order, sorting.

## How the model is set up

- Database tables are maps and sequences; an outage's id is its place in the table. Table operations succeed.
- A loop over a Go map is a loop that picks the remaining keys in an order left open, so results hold for every order.
- Clocks, random ids, permissions, replies of the network and of the editor, and answers of the database are
  parameters. Time is an integer, loads and coordinates are exact real numbers.
- What may happen between two awaits, or outside a mutex, may happen between two events.
- Where the source mutates an object, the model has a class with the same fields and methods; each method is tied to a
  function or relation on values, and the laws are lemmas about those.

## Results worth knowing

- The update after a maneuver promises the distances of a search in full (`backend/internal/gis/graph_test.go:112`). A
  source that is a switch breaks it: opened, it keeps its distance 0 and counts as energised; closed while power
  reaches it from elsewhere, it is no source again. `Grid.UpdateIsSearchIff` and, over whole runs,
  `Grid.UpdatesAreSearchesIff` say that nothing else does; `Grid.OpenedSourceStaysOn` is the smallest case. The
  catalogue of component types has no such type (`backend/internal/database/migrations/002_seed.sql:6-22` and the later
  ones).
- A customer that stays off without an open *device* found upstream is dropped: closing a switch above it ends its
  outage and opens no continuation. It happens behind a cut line, behind an open way of a switch, and to a customer
  that is itself disconnected (`Witnesses.DetachedCustomerIsDropped` has one run for each), and, beside such a node, to
  one whose open device is missed through the order of the list. `Accounts.NothingDroppedIff` and
  `Accounts.NeverDroppedIff` say exactly when nothing is dropped; `Accounts.RecordedIsOffTimeIff` says that a
  customer's recorded time is right exactly when no maneuver drops that customer.
- The comment at `backend/internal/gis/flisr.go:633-634` promises the nearest open device. The code looks into its
  cache before it looks whether the node itself is open, so the result depends on the order of the list
  (`Isolation.OrderDecidesIsolator`), and an open device can even be missed (`Isolation.OrderLosesIsolator`). The model
  follows the code; `Isolation.IsolatorsNearestIff` says when the comment holds.
- Chains of continuations longer than 64 make a filtered dashboard count more customers off than affected
  (`Restoration.NeverClampedIff`). A run can make a chain of any length (`Witnesses.ChainsGrow`), so this happens
  (`Witnesses.FilterOutrunsGuard`).
- A cancellation of the import that passed its check before an `Apply` closes a job whose worker goes on
  (`ImportJob.LateCancelBreaks`). The break need not show at once (`ImportJob.LateCancelMayHide`), but three events are
  enough to make it show (`ImportJob.LateCancelShows`): what the import promises holds at every moment of a run and
  however the run could have gone on from there, exactly when no cancellation of it comes too late
  (`ImportJob.PromisesKeptIff`).
- A quick report with several photos queues all of them again when one of them fails, under fresh client ids
  (`frontend/components/field/Field.tsx:273-287`), so the server can hold one picture twice
  (`Outbox.PictureRecordedTwice`); no client id is ever recorded twice (`Outbox.NoDuplicates`).
- An attribute whose value is null or an empty text, or whose key is `p_` and a built-in column, comes back from an
  unedited file as a change (`Exchange.UnchangedIffClean`); after one import it no longer does.
- A distribution transformer on a feeder but in no distribution substation is located on a path that the hierarchy does
  not have (`AssetLaws.LocatedIsPath`); consistent networks have such transformers (`AssetLaws.StrayTrafoExists`).
- Section 9.2.6 of the WHATWG HTML Standard discards a message that is not ended by a blank line; this reader delivers
  it, and the model follows it.

## Model

| member | source | states |
|---|---|---|
| `Distances.Bfs` | backend/internal/gis/graph.go:624-665 | The search gives exactly the hop distances from the sources in service, and a distance to exactly the nodes joined to one by a path of closed devices and lines. |
| `Distances.ExactMeansHops` | backend/internal/gis/graph.go:624-665 | The distance of a node is the number of hops of a shortest way along which a source feeds it; what has a distance is what is energised. |
| `Distances.ExactIsUnique` | backend/internal/gis/graph.go:624-665 | There is one map of distances for given sources and positions. |
| `Network.LiveIsLeast` | backend/internal/gis/graph.go:624-665 | The energised nodes are the least set that holds the sources and is closed under feeding. |
| `Network.LiveMonotone` | backend/internal/gis/graph.go:985-1134 | Closing anything de-energises nothing, whatever else is open. |
| `Network.Place` | backend/internal/gis/graph.go:985-1134 | A maneuver changes the position of its target and of nothing else. |
| `Switching.PowerPasses` | backend/internal/gis/graph.go:624-665 | A source in service is energised; along a whole line whose ways are closed an energised node that is not open energises its neighbour, unless that is a disconnected object. |
| `Switching.CutIsGone` | backend/internal/gis/graph.go:624-665 | Cutting a line energises what the network without that line would. |
| `Switching.OpenWayIsCut` | backend/internal/gis/graph.go:624-665 | Opening a single way of a switch energises what cutting its line would. |
| `Switching.OpenIsCutOff` | backend/internal/gis/graph.go:624-665 | Opening a device takes from the others exactly what cutting all its lines would; a disconnected object is dark, an open switch is energised if and only if an energised neighbour reaches it. |
| `Relaxing.RelaxFrom` | backend/internal/gis/graph.go:1251-1311 | After a closing, relaxing from the seeds nearest first gives the exact distances and names every node whose distance changed, whatever the order of ties. |
| `Reseeding.FindCone` | backend/internal/gis/graph.go:1168-1201 | The cone holds the roots and is closed under steps that lead one hop further. |
| `Reseeding.OutsideIsLabelled` | backend/internal/gis/graph.go:1159-1163 | Outside the cone every node keeps its distance and a nearer neighbour that feeds it. |
| `Reseeding.ReseedCone` | backend/internal/gis/graph.go:1164-1249 | After an opening, forgetting the cone and refilling it from its neighbours nearest first gives the exact distances; nothing outside changes. |
| `Grid.Graph.RootsOf` | backend/internal/gis/graph.go:998-1075 | From the old distances, the roots found for each kind of target are enough for the cone. |
| `Grid.Graph.ClosingSeeds` | backend/internal/gis/graph.go:1077-1122 | Every step that a closing makes possible starts at one of its seeds or goes to one without a distance. |
| `Grid.Graph.ApplyEnergy` | backend/internal/gis/graph.go:1314-1358 | Nodes touched and the lines at them are brought up to date; exactly what came on and what went off is told, once; a line is energised if and only if both its ends are and it is not cut. |
| `Grid.Graph.Maneuver` | backend/internal/gis/graph.go:985-1134 | A maneuver is refused as the graph refuses it, or leaves exact distances and energised nodes at the new position, for the sources that count then; a line is energised exactly if both ends are and it is not cut; every line that lost an end, or was cut, is told as gone off. |
| `Grid.UpdateIsSearchIff` | backend/internal/gis/graph.go:982-1134 | The updated distances are those of a search in full if and only if the maneuver neither opens a source that is a switch nor closes one that power reaches from elsewhere. |
| `Grid.UpdatesAreSearchesIff` | backend/internal/gis/graph_test.go:112-158 | Throughout a run of maneuvers the distances are those of a search in full, and what is energised is what the sources reach, if and only if no maneuver of the run is of that kind. |
| `Grid.OpenedSourceStaysOn` | backend/internal/gis/graph.go:1063-1075 | A source that is a switch keeps its distance when it is opened, although nothing is energised then. |
| `Isolation.FindIsolator` | backend/internal/gis/flisr.go:650-669 | The upstream walk stops at the first cached node or open device, as the recursive search says. |
| `Isolation.StillOffByIsolator` | backend/internal/gis/flisr.go:635-671 | The nodes still off, of any list, are grouped by the device the search finds for each, in list order; repeated ids repeat and ids no longer in the graph are skipped. |
| `Isolation.IsolatorIsOpenUpstream` | backend/internal/gis/flisr.go:657-665 | A device found is open and strictly upstream of the node. |
| `Isolation.AllIsolatedIff` | backend/internal/gis/flisr.go:648-670 | Every node still off gets a device if and only if each of them has an open device strictly upstream. |
| `Isolation.IsolatorsNearestIff` | backend/internal/gis/flisr.go:633-670 | Every node gets its nearest open device if and only if no search stops at an open device listed before it. |
| `Isolation.OrderDecidesIsolator` | backend/internal/gis/flisr.go:649-668 | With two open switches above it, customer 4 is attributed to the farther one in one listing of the nodes still off and to the nearer one in the other. |
| `Isolation.OrderLosesIsolator` | backend/internal/gis/flisr.go:649-668 | At a position in which both listed nodes are off, a customer gets no device although one is open above it. |
| `Ledger.StepKeepsSound` | backend/internal/api/power_handlers.go:414-461 | After every maneuver active outages are pairwise disjoint, hold only dark nodes, and each continuation is part of an earlier, ended outage. |
| `Ledger.OpeningAdds` | backend/internal/api/power_handlers.go:416-431 | An opening that takes nothing off leaves the table; otherwise it adds one active outage with the category, target and time of the maneuver, over exactly the nodes that went off. |
| `Ledger.ClosingEnds` | backend/internal/gis/power.go:209-252 | Of the earlier outages a closing ends exactly the active ones whose cause is what is closed, be it a device, a line or a way, or that hold a node now on; never before their start, and nothing else about them changes. |
| `Ledger.ClosingAdds` | backend/internal/api/ops_handlers.go:968-1006 | Every outage a closing adds is active, starts now, has an open device as cause and continues an outage that the closing ended: same category, and only nodes of it that are still off. |
| `Accounts.RunIsSound` | backend/internal/api/power_handlers.go:289-461 | Every state of every run is sound. |
| `Accounts.RunCausesOpen` | backend/internal/api/power_handlers.go:393-461 | In every state of every run the cause of each active outage is open; so right after a closing no active outage is attributed to what was closed. |
| `Accounts.StepCoverageIff` | backend/internal/api/ops_handlers.go:968-1006 | One maneuver keeps an off customer in an active outage if and only if it does not drop it. |
| `Accounts.RunCoverageIff` | backend/internal/api/power_handlers.go:432-460 | Through a whole run a customer is in exactly one active outage while off and in none while on, if and only if no maneuver drops it. |
| `Accounts.EventIsolatedIff` | backend/internal/gis/flisr.go:648-670 | Within one ended outage every node still off gets a device if and only if each of them has an open device strictly upstream. |
| `Accounts.NothingDroppedIff` | backend/internal/api/ops_handlers.go:968-1006 | A closing maneuver drops no node if and only if every node that stays off in an outage it ends has an open device strictly upstream. |
| `Accounts.NeverDroppedIff` | backend/internal/api/power_handlers.go:432-460 | A run never drops a node if and only if that condition holds at each of its closing maneuvers. |
| `Accounts.RecordedAdvance` | backend/internal/gis/power.go:209-223 | While time passes a customer's recorded outage time grows by exactly that time if an active outage holds it, else not at all. |
| `Accounts.RecordedIsCoveredTime` | backend/internal/api/power_handlers.go:393-461 | Over any run, for any node, recorded time is the time active outages held it plus the corrections made by reported times. |
| `Accounts.AccountsBalance` | backend/internal/api/power_handlers.go:393-461 | Over any run, for any node and with any reported times, recorded time is the time it was off, less exactly the time it was off in no active outage, plus the corrections made by reported times. |
| `Accounts.RecordedIsOffTime` | backend/internal/api/ops_handlers.go:968-1006 | When maneuvers are recorded as they happen, over any run, recorded time is the time off less the time off in no active outage; a customer that is never dropped loses nothing. |
| `Accounts.RecordedIsOffTimeIff` | backend/internal/api/ops_handlers.go:968-1006 | When time passes between maneuvers as well, recorded time is the time off if and only if no maneuver of the run drops the customer. |
| `Accounts.CutOffAboveIsEnough` | backend/internal/api/ops_handlers.go:968-1006 | If at every closing maneuver all that stays off in an ended outage has an open device strictly upstream, every customer's recorded time is the time it was off. |
| `Accounts.RightIffCutOff` | backend/internal/gis/flisr.go:633-670 | Where no search stops at an open device listed earlier, a customer's recorded time is the time it was off if and only if, whenever its outage ends and it stays off, some device strictly above it is open. |
| `Witnesses.DetachedCustomerIsDropped` | backend/internal/api/ops_handlers.go:974-978 | For a cut line, an open way and a disconnected customer: a run of maneuvers the graph accepts, after which the customer is off and in no active outage. |
| `Witnesses.ChainsGrow` | backend/internal/api/ops_handlers.go:968-1006 | For every number some run ends with an active outage that has that many ancestors. |
| `ControlRoom.ControlRoom.constructor` | backend/internal/gis/graph.go:624-665 | A fresh control room with an empty ledger is sound. |
| `ControlRoom.ControlRoom.Maneuver` | backend/internal/gis/graph.go:985-1134 | Tells exactly the nodes that came on and those that went off; what is energised then is what the sources reach, if and only if the maneuver is not of the kind above. |
| `ControlRoom.ControlRoom.CloseOutages` | backend/internal/gis/power.go:211-223 | Ends exactly the active outages whose cause is the target, whatever its kind, never before their start; everything else of the table stays. |
| `ControlRoom.ControlRoom.ActiveOutagesTouching` | backend/internal/gis/power.go:225-235 | Lists exactly the active outages that hold one of the nodes. |
| `ControlRoom.ControlRoom.CloseOutageIDs` | backend/internal/gis/power.go:238-252 | Ends exactly those of the given outages that are still active. |
| `ControlRoom.ControlRoom.CloseAffected` | backend/internal/api/power_handlers.go:433-451 | The two updates together end exactly the active outages whose cause is the target or that hold a restored node, each once. |
| `ControlRoom.ControlRoom.ContinueEvent` | backend/internal/api/ops_handlers.go:970-1004 | One continuation for each device behind which nodes with customers stay off, with those nodes, whatever the order of devices. |
| `ControlRoom.ControlRoom.OpenContinuations` | backend/internal/api/ops_handlers.go:968-1006 | One continuation for each ended outage and device, and no other change of the table. |
| `ControlRoom.ControlRoom.Exec` | backend/internal/api/power_handlers.go:289-461 | A maneuver is refused with the first reason that applies and changes nothing, or moves exactly its target and is a step of the ledger, unless it is one of those on a source that is a switch: opening adds one outage over what went off, closing ends exactly what its target caused or what is back on, and continues the rest. |
| `ControlRoom.RefusalMeans` | backend/internal/api/power_handlers.go:289-345 | For each reason, exactly the requests that are refused for it; and exactly the requests that are accepted. |
| `Restoration.InfoSelection.constructor` | backend/internal/api/infographic.go:142-199 | From every row there is one way up through loaded parents, of at most 64 steps; the event at its end is what the row counts for, and the row is selected if and only if the category and number of that event pass the filter; rows stay in order. |
| `Restoration.BuildIndex` | backend/internal/api/infographic.go:152-154 | The index maps every id to its row. |
| `Restoration.WalkToRoot` | backend/internal/api/infographic.go:155-164 | The guarded walk follows loaded parents at most 64 times. |
| `Restoration.GuardedRootIff` | backend/internal/api/infographic.go:155-164 | The walk ends at the root outage if and only if the chain is no longer than the guard. |
| `Restoration.InfoCount.Add` | backend/internal/api/infographic.go:30-37 | A root adds to affected, an active outage to off. |
| `Restoration.InfoCount.Finish` | backend/internal/api/infographic.go:39-44 | Restored is the difference, or zero when it would be negative. |
| `Restoration.CountLevel` | backend/internal/api/infographic.go:614-638 | A level's figures are the sums over the selected roots and over the selected active outages. |
| `Restoration.OffWithinAffected` | backend/internal/api/infographic.go:614-638 | Whatever selection holds the roots of its active outages: what is off is at most what is affected. |
| `Restoration.NeverClampedIff` | backend/internal/api/infographic.go:39-44 | Under every filter restored plus off equals affected, if and only if no active outage that weighs anything has more than 64 loaded ancestors. |
| `Restoration.StoppedShort` | backend/internal/api/infographic.go:155-180 | For each longer chain, the filter that shows more off than affected. |
| `Restoration.UnfilteredNeverClamped` | backend/internal/api/infographic.go:169-181 | Without a filter the length of chains does not matter. |
| `Restoration.LoadedIsSound` | backend/internal/api/infographic.go:142-199 | Any loaded part of a sound ledger meets what the counting relies on. |
| `Restoration.DashboardAddsUp` | backend/internal/api/infographic.go:614-638 | In every state of every run, for any loaded part and any weight of nodes: affected is off plus restored without a filter, and under every filter if and only if no weighing chain of active outages is longer than the guard. |
| `Witnesses.FilterOutrunsGuard` | backend/internal/api/infographic.go:155-180 | A run, a loaded part and a filter for which affected is not off plus restored. |
| `EventLog.Merge` | backend/internal/api/infographic.go:204-265 | One line per root outage and object, in the order of the log: earliest start; active, without an end and lasting until now if some outage holding the object is open; else ended with the latest of them and lasting until then. |
| `EventLog.LogIsOrdered` | backend/internal/api/infographic.go:247-263 | A sorted log shows active lines first, then later starts, greater outages, smaller codes and smaller ids. |
| `EventLog.SummaryUnique` | backend/internal/api/infographic.go:208-246 | A line is determined by which rows there are, not by their order or number. |
| `EventLog.InsertSorts` | backend/internal/api/infographic.go:247-263 | Insertion keeps the list strictly ascending in the five-part order of the log. |
| `EventLog.LogIndependentOfRowOrder` | backend/internal/api/infographic.go:204-265 | Two readings of the same rows, in any order, give the same log. |
| `EventLog.PagesCoverList` | backend/internal/api/infographic.go:531-541 | The pages read one after the other are the whole list, nothing missing and nothing twice. |
| `EventLog.PageShape` | backend/internal/api/infographic.go:531-541 | Every page but the last is full, no page is empty unless the list is, a number out of range shows the nearest page, and a size out of range is 10. |
| `LoadShare.ClampFactor` | backend/internal/api/load_alloc.go:66-67 | A factor lies between 0.05 and 3 and is left alone if it does already. |
| `LoadShare.AllocateOne` | backend/internal/api/load_alloc.go:83-88 | One feeder's row, from its reference load when there is one, else from the estimate. |
| `LoadShare.Allocate` | backend/internal/api/load_alloc.go:72-97 | A row for each feeder with affected contract power, in order of id; the totals are the sums of the rows and the sources are counted. |
| `LoadShare.RowMeans` | backend/internal/api/load_alloc.go:78-93 | One row in full: the factors are the feeder's loads over its contract power, kept between 0.05 and 3, when all of these are known, else those of the estimate; the affected contract power is multiplied by them. |
| `LoadShare.AllocationMeans` | backend/internal/api/load_alloc.go:72-97 | A row for each feeder with affected contract power and no other, ascending; each total is the sum over the rows, and each source is counted once for each of its rows. |
| `LoadShare.AllocationUnique` | backend/internal/api/load_alloc.go:72-97 | The result depends only on what the maps hold. |
| `LoadShare.AllocationAdditive` | backend/internal/api/load_alloc.go:72-97 | Splitting the affected contract power between two events splits the allocated load. |
| `LoadShare.ShareBounds` | backend/internal/api/load_alloc.go:66-93 | A measured or profiled share is 0.05 to 3 times the contract power, and the feeder's load itself when all of it is affected and the factor is within bounds. |
| `AssetGraph.NeighbourOfType` | backend/internal/gis/assets.go:262-287 | Returns another node of the type at the least distance within the hops, 0 if there is none, on every graph. |
| `AssetGraph.Widen` | backend/internal/gis/assets.go:269-285 | One circle of the search sees exactly the nodes one hop further. |
| `AssetGraph.BallStep` | backend/internal/gis/assets.go:269-285 | One hop further are exactly the nodes already there and the other ends of the edges listed at them. |
| `AssetForest.Parent` | backend/internal/gis/assets.go:126-238 | Every asset has at most one parent, always at a higher level. |
| `AssetForest.AllReachedIff` | backend/internal/gis/assets.go:299-338 | Every feeder, distribution substation, transformer, route and customer lies below the root if and only if each has a place that exists. |
| `AssetForest.PathIsUnique` | backend/internal/gis/assets.go:299-338 | There is one path from the root to an asset. |
| `AssetIndex.FindRouteTrafo` | backend/internal/gis/assets.go:182-195 | A route's transformer is at its first end that is one, or that is a rack with one across one of its lines; else at its second such end; 0 if it has none. |
| `AssetIndex.PlacingHolds` | backend/internal/gis/assets.go:127-238 | Filing an asset in the list of its kind and that of its parent keeps the lists exact and free of repetition. |
| `AssetIndex.CreditedAmount` | backend/internal/gis/assets.go:206-246 | One customer raises each total by what it counts for there, and no other total. |
| `AssetBuild.Index.AddFeeder` | backend/internal/gis/assets.go:127-142 | A feeder is filed under its transformer, substation or the loose group; its transformer is filed when first met. |
| `AssetBuild.Index.AddLoneTrafo` | backend/internal/gis/assets.go:149-157 | A transformer without feeders is filed under the nearest substation within two hops, if there is one. |
| `AssetBuild.Index.AddNode` | backend/internal/gis/assets.go:144-172 | Each node is filed once, by its type. |
| `AssetBuild.Index.NoteRoute` | backend/internal/gis/assets.go:173-177 | A route keeps a distribution substation of one of its nodes, if any has one. |
| `AssetBuild.Index.AddRoute` | backend/internal/gis/assets.go:180-205 | A route is filed under its transformer, else its distribution substation, else the loose group. |
| `AssetBuild.Index.AddCustomer` | backend/internal/gis/assets.go:223-246 | A customer is filed under its lowest group and counted for every group upstream. |
| `AssetBuild.Index.Build` | backend/internal/gis/assets.go:107-260 | Whatever the order of the maps: the sorted lists hold exactly the assets under their parents, and every total is the sum of its credits. |
| `AssetQueries.AssetChildren` | backend/internal/gis/assets.go:299-338 | The children of an asset, each once and nothing else, by level and then by id: what refers to it, for each kind by the first reference that counts; the loose group comes last and only when something is in it. |
| `AssetQueries.Walk` | backend/internal/gis/assets.go:423-436 | The pruned descent finds each asset of the level below the scope exactly once. |
| `AssetQueries.AssetIDs` | backend/internal/gis/assets.go:398-448 | The strictly ascending list of exactly the assets of a level below the scope, or in the whole network. |
| `AssetQueries.SiblingsApart` | backend/internal/gis/assets.go:299-338 | Nothing lies below two children of one asset. |
| `AssetLaws.WriteOut` | backend/internal/gis/assets.go:596-624 | Pushing the upstream assets one by one gives the way in order, without gaps for missing ones and without the target twice. |
| `AssetLaws.AssetLocate` | backend/internal/gis/assets.go:542-625 | The way to a customer, a substation, a distribution substation, a transformer of one of them, the head of a feeder or a route ends with that asset; to any other node or line it ends with the group of the node, or of the end further downstream. On a consistent network it is the path from the root, if and only if its end is not a transformer on a feeder but in no distribution substation. |
| `AssetLaws.LocatedLeads` | backend/internal/gis/assets.go:451-625 | The way written from an asset's row ends with the asset, and is a path from the root with the same exception. |
| `AssetLaws.LocatedIff` | backend/internal/gis/assets.go:451-525 | The chain in an asset's row spells its path, with the same exception. |
| `AssetLaws.LocatedIsPath` | backend/internal/gis/assets.go:542-625 | That path starts below the root and goes from parent to child, with the same exception. |
| `AssetLaws.StrayTrafoExists` | backend/internal/gis/assets.go:542-625 | A consistent network with a transformer that is the exception. |
| `AssetLaws.ConsistentPlaces` | backend/internal/gis/assets.go:126-238 | On a consistent network every asset has a place that exists. |
| `AssetLaws.CustomerBelow` | backend/internal/gis/assets.go:223-246 | A customer lies below a group if and only if its own references, or its feeder's, name that group. |
| `AssetLaws.TotalsOfGroup` | backend/internal/gis/assets.go:206-247 | On a consistent network the totals of a substation, its transformer, a feeder, a distribution substation or its transformer are the sums over the customers below it. |
| `AssetLaws.TotalsOfRoute` | backend/internal/gis/assets.go:239 | The same for a route. |
| `AssetLaws.IndexedTotals` | backend/internal/gis/assets.go:107-260 | In every finished index of a consistent network the stored totals of an asset are the sums over the customers below it. |
| `AssetLaws.TotalOf` | backend/internal/gis/assets.go:398-448 | Build the index, list the customers below an asset, read its stored total: on a consistent network the total is the sum over the list, whatever the order of the maps. |
| `Outbox.NextKeeps` | frontend/lib/outbox.ts:139-177 | Whatever happens next in any tab, on the network or at the server keeps the invariant. |
| `Outbox.AttemptKeeps` | frontend/components/field/AssetPhotos.tsx:42-53 | A photo posted directly and queued under the same client id when no reply comes keeps the invariant; so does a report posted directly (`frontend/components/field/Field.tsx:278-301`). |
| `Outbox.PictureRecordedTwice` | frontend/components/field/Field.tsx:269-287 | A picture posted under one client id and queued again under another is recorded twice. |
| `Outbox.NoDuplicates` | backend/internal/gis/ops.go:356-375 | After any run the server holds no client id twice. |
| `Outbox.QueuedOrRecorded` | frontend/lib/outbox.ts:151-171 | After any run every well-formed item the user did not delete is still queued or recorded. |
| `Outbox.NoPhotoStranded` | frontend/lib/outbox.ts:153-163 | After any run a queued photo whose report is neither queued nor noted is one whose report the user deleted. |
| `Outbox.NotedIdIsRight` | backend/internal/gis/ops.go:356-375 | After any run the id noted for a report is the one under which the server holds that report. |
| `Outbox.PhotosOnRightReport` | frontend/lib/outbox.ts:156-161 | After any run a photo taken for a queued report is recorded only with the id the server gave that report. |
| `Outbox.LateInsert` | backend/internal/gis/field.go:161-175 | Of two requests with one client id that both found no record, the later to insert changes no table: a report is refused, a photo is answered with the record that is there. |
| `Outbox.Device.OutboxAdd` | frontend/lib/outbox.ts:74-77 | The item is stored over whatever is there under its id; with an id drawn for this item, anew or again, that is the event of queueing it. |
| `Outbox.Device.OutboxRemove` | frontend/lib/outbox.ts:88-91 | Removing an item is the event of deleting it. |
| `Outbox.Device.HandleReport` | backend/internal/api/ops_handlers.go:779-787 | A resent report gets the id of its record, a new one a new id; either way a record with its client id exists. |
| `Outbox.Device.HandlePhoto` | backend/internal/gis/field.go:161-175 | A resent photo gets its earlier record back. |
| `Outbox.Device.AcceptReport` | frontend/lib/outbox.ts:154-163 | The id is noted and the report removed, in that order. |
| `Outbox.Device.SendReport` | frontend/lib/outbox.ts:153-155 | Sending a report: gone and noted, back with one more try, or left alone, as the reply is. |
| `Outbox.Device.SendPhoto` | frontend/lib/outbox.ts:156-161 | A photo is posted if and only if its target is known by then. |
| `Outbox.Device.SendOne` | frontend/lib/outbox.ts:151-171 | What becomes of one item, and whether the flush goes on. |
| `Outbox.Device.FlushOutbox` | frontend/lib/outbox.ts:143-177 | A flush ends at the first lost connection; every item before it is gone, back with exactly one more try and otherwise as it was, or where it was, exactly as its request fared; the counters count them. |
| `Outbox.AllLeave` | frontend/lib/outbox.ts:149-163 | When every reply arrives and every photo has somewhere to go, each item of the list leaves. |
| `Outbox.FlushEmpties` | frontend/lib/outbox.ts:143-177 | Then one flush goes to the end and empties its list: the queue is what it was without the listed items, and all of them are counted as sent. |
| `Exchange.FlattenProps` | backend/internal/gis/exchange.go:91-106 | Every attribute has its column, and every column a value of an attribute with that column, whatever the order. |
| `Exchange.PropsFromFields` | backend/internal/gis/exchange.go:416-433 | An attribute is read back if and only if its column is there and not empty and its key shadows no renamed one. |
| `Exchange.ReadBackIsUnique` | backend/internal/gis/exchange.go:416-433 | What is read back does not depend on the order of the columns. |
| `Exchange.ColumnsAre` | backend/internal/gis/exchange.go:34-38 | An attribute named like one of the twelve built-in columns is written under another name and comes back under its own; another attribute comes back under its name unless it looks renamed. |
| `Exchange.PropsChanged` | backend/internal/gis/exchange.go:456-467 | Comparing sizes and one side's keys decides whether keys and values are the same. |
| `Exchange.UnchangedIffClean` | backend/internal/gis/exchange.go:91-106 | Out and back is judged unchanged if and only if no value is null or empty and no key is `p_` and a built-in column. |
| `Exchange.SecondTripIsStable` | backend/internal/gis/exchange.go:416-467 | Attributes that came from a file survive the next round trip. |
| `LineEdits.CoordsClose` | backend/internal/gis/exchange.go:469-501 | Two geometries are close if and only if they have the same kind and number of coordinates, each within 2e-7. |
| `LineEdits.LinesAreClose` | backend/internal/gis/exchange.go:478-499 | Lines with points of the same sizes are close if and only if every coordinate is within 2e-7 of its fellow. |
| `LineEdits.EdgeGeometryUpdate` | backend/internal/gis/exchange.go:515-540 | A line changes if and only if it differs between its ends; the new line has the current ends and the file's inside. |
| `LineEdits.EndsDoNotMatter` | backend/internal/gis/exchange.go:515-540 | A line that differs from the file in its ends only is not changed, when its inner points have two coordinates. |
| `LineEdits.SettlesIffWellFormed` | backend/internal/gis/exchange.go:519-540 | Once applied, even after rounding, the same file changes nothing more, if and only if its inner points have two coordinates. |
| `LineEdits.MovedEndsKeepVerdict` | backend/internal/gis/exchange.go:515-518 | Moving the ends changes neither the verdict nor the new inside. |
| `GeoImport.Decide` | backend/internal/gis/exchange.go:700-826 | What becomes of one feature. An update asks for the code and name of the columns, type and status of the columns or else the object's own, the attributes read back and the moved geometry, and names each of the six parts if and only if it differs; a creation asks for what the columns say; an error gives a reason that applies. |
| `GeoImport.StepMeans` | backend/internal/gis/exchange.go:700-826 | The same for every decision the relation allows, and which codes are known after it. |
| `GeoImport.MovedMeans` | backend/internal/gis/exchange.go:757-765 | A line keeps its ends and takes the inner points of the file if one of them moved or their number changed; any other geometry is replaced if one of its numbers moved. |
| `GeoImport.KindMeans` | backend/internal/gis/exchange.go:671-678 | A feature is about a node or an edge as its column says, else as its geometry looks. |
| `GeoImport.IdMeans` | backend/internal/gis/exchange.go:383-399 | A feature names the object whose positive id its column holds, as a whole number or as its text. |
| `GeoImport.DecideAll` | backend/internal/gis/exchange.go:698-826 | Every feature is decided, in order, knowing the codes met before. |
| `GeoImport.ImportReport.AddItem` | backend/internal/gis/exchange.go:628-650 | Every figure of the report is a figure about the lines added; the list shown is the first 5000 that are not unchanged. |
| `GeoImport.ApplyChanges` | backend/internal/gis/exchange.go:836-871 | Changes are made, or proposed, in order until the caller gives up; a refusal becomes an error line. |
| `GeoImport.ImportGeoJSON` | backend/internal/gis/exchange.go:610-873 | Each way an import ends: refused file, too many changes, preview, applied, cancelled; every decision tells what it asks for or why it asks for nothing; what was asked of the editor is a prefix of the changes, and the results are the ids of those made. |
| `GeoLaws.AppliedOnce` | backend/internal/gis/exchange.go:827-872 | In a completed import every feature of the file has exactly one line. |
| `GeoLaws.EveryChangeIsMeant` | backend/internal/gis/exchange.go:698-826 | Every change asked for comes from one feature of the file and says what its columns, and the object it names, say; changes come in the order of the file. |
| `GeoLaws.OutcomeIs` | backend/internal/gis/exchange.go:840-870 | The outcome of a change is its line as announced, with the new id if it created something; a refused change becomes an error and is otherwise as announced. |
| `GeoLaws.ResultsArePicked` | backend/internal/gis/exchange.go:864-868 | The results are the ids of the changes made, in order; the other changes were refused. |
| `GeoLaws.ReportShows` | backend/internal/gis/exchange.go:647-649 | A report shows the lines that are not unchanged, in order, the first 5000 of them. |
| `GeoLaws.TallyCounts` | backend/internal/gis/exchange.go:628-646 | A figure of the report is the number of lines that count for it. |
| `GeoLaws.PreviewedOnce` | backend/internal/gis/exchange.go:830-835 | The same for a preview. |
| `GeoLaws.CountersAddUp` | backend/internal/gis/exchange.go:637-646 | Updates, creations, unchanged and errors add up to the lines. |
| `GeoLaws.TableAddsUp` | backend/internal/gis/exchange.go:628-636 | Over its rows the table by type sums to each counter. |
| `GeoLaws.ReportAddsUp` | backend/internal/gis/exchange.go:628-650 | In every completed import and every preview, updates, creations, unchanged and errors add up to the features of the file, and so does the table by type. |
| `GeoLaws.OutcomesVersusPreviews` | backend/internal/gis/exchange.go:836-871 | Applying has one error more than the preview for each refused change, and as many changes less. |
| `GeoLaws.PreviewIsFaithful` | backend/internal/gis/exchange.go:830-872 | If no change is refused, applying gives the figures of the preview, by type as well. |
| `GeoLaws.NoCodeTwice` | backend/internal/gis/exchange.go:795-804 | No two new objects of one file share kind, type and code. |
| `GeoLaws.KeysCollideIff` | backend/internal/gis/exchange.go:795-804 | The keys of two new objects collide if and only if kind, type and code agree, for types without the separator. |
| `GeoLaws.ExportFeature` | backend/internal/gis/exchange.go:150-157 | The exported feature carries the object's attributes, the built-in columns, its state and, for edges, ends and length, and its geometry. |
| `GeoLaws.ExportedIsUnchangedIff` | backend/internal/gis/exchange.go:722-775 | An exported feature that was not edited is unchanged if and only if its attributes are clean; otherwise its attributes, and nothing else, are updated. |
| `GeoLaws.ReimportIsNoOpIff` | backend/internal/gis/exchange.go:610-612 | A file that was exported and not edited asks for no change if and only if the attributes of all its objects are clean. |
| `ImportJob.Manager.Start` | backend/internal/gdbimport/gdbimport.go:256-288 | A job is started unless one is live, with all eight steps still to do; one that cannot be recorded is taken back. |
| `ImportJob.Manager.Finish` | backend/internal/gdbimport/gdbimport.go:230-242 | Closing a job skips the steps not begun and changes no other. |
| `ImportJob.Manager.DoStep` | backend/internal/gdbimport/gdbimport.go:203-253 | A step ends, is skipped, or fails and closes the job; only the apply step writes. |
| `ImportJob.Manager.Run` | backend/internal/gdbimport/gdbimport.go:315-416 | The worker reaches the review, with four steps done and four to do, if and only if all four succeed; otherwise the first failing step is the failed one and all later ones are skipped; nothing is written. |
| `ImportJob.Manager.Apply` | backend/internal/gdbimport/gdbimport.go:418-430 | Applying is accepted only from review. |
| `ImportJob.Manager.ApplyRun` | backend/internal/gdbimport/gdbimport.go:432-508 | The job is done if and only if every step asked for succeeds, and then exactly the steps not asked for are skipped; otherwise the first failing step is the failed one and all later ones are skipped; what was written is what the apply step wrote. |
| `ImportJob.Manager.Cancel` | backend/internal/gdbimport/gdbimport.go:510-524 | With nothing between its two critical sections, a cancellation is accepted exactly in review, and then leaves a sound job. |
| `ImportJob.Manager.CheckCancel` | backend/internal/gdbimport/gdbimport.go:512-517 | The first critical section of a cancellation: it passes exactly in review and changes no job. |
| `ImportJob.Manager.CloseCancelled` | backend/internal/gdbimport/gdbimport.go:518-524 | The second one, whatever came between: it closes the job it finds, and leaves it sound if and only if it comes in time. |
| `ImportJob.NextKeepsIff` | backend/internal/gdbimport/gdbimport.go:203-524 | One event keeps the invariant if and only if it is not a cancellation that comes too late. |
| `ImportJob.RunKeepsIff` | backend/internal/gdbimport/gdbimport.go:203-524 | From any sound state, the invariant holds through a run if and only if no cancellation in it comes too late. |
| `ImportJob.EveryRunIsOrderly` | backend/internal/gdbimport/gdbimport.go:203-524 | In every state of every run whose cancellations come in time, the steps of a live job and of a closed job have the shapes below. |
| `ImportJob.DoesAsAsked` | backend/internal/gdbimport/gdbimport.go:432-508 | In every such run a job that is done has assigned units exactly if that was asked for, and removed the staging data exactly if it was not to be kept. |
| `ImportJob.WriterWasReviewed` | backend/internal/gdbimport/gdbimport.go:418-466 | In every such run, a job that changed the network was applied from review at some earlier event. |
| `ImportJob.LiveShape` | backend/internal/gdbimport/gdbimport.go:203-253 | While a job is live its steps are some over, at most one running or just failed, then some not begun. |
| `ImportJob.TerminalShape` | backend/internal/gdbimport/gdbimport.go:230-253 | A closed job has no step pending or running, and exactly one failed step if it failed, else none. |
| `ImportJob.LiveJobIsKept` | backend/internal/gdbimport/gdbimport.go:256-281 | A live job is never replaced; only its own start can take it back, when it could not be recorded. |
| `ImportJob.OnlyReviewedWrites` | backend/internal/gdbimport/gdbimport.go:418-466 | The network changes only in the apply step of a job that passed review. |
| `ImportJob.AppliedFromReview` | backend/internal/gdbimport/gdbimport.go:418-430 | A job passes review only by an `Apply` while it is in review. |
| `ImportJob.CancelledDidNotWrite` | backend/internal/gdbimport/gdbimport.go:510-524 | A cancelled job has not changed the network. |
| `ImportJob.LateCancelBreaks` | backend/internal/gdbimport/gdbimport.go:418-524 | From any review: check, apply, close leaves a cancelled job whose worker then writes. |
| `ImportJob.LateCancelShows` | backend/internal/gdbimport/gdbimport.go:230-253 | After any late cancellation, at most three more events, none of them a call of Cancel, make a promise fail. |
| `ImportJob.LateCancelMayHide` | backend/internal/gdbimport/gdbimport.go:418-524 | Check, apply, close before the worker begins: a late cancellation after which every promise still holds, until the worker begins. |
| `ImportJob.PromisesKeptIff` | backend/internal/gdbimport/gdbimport.go:203-524 | No crash, ordered steps, nothing written by a cancelled job, only reviewed jobs write: these hold at every moment of a run and of every way it could have gone on from there without another late cancellation, if and only if no cancellation of the run comes too late. |
| `EventStream.ReadSSE` | backend/internal/ai/ai.go:148-187 | The scanning loop delivers what the line-by-line reading says, and ends as it does. |
| `EventStream.IgnoredLinesDoNotMatter` | backend/internal/ai/ai.go:148-187 | Comments and unknown fields may stand anywhere without effect. |
| `EventStream.RoundTrip` | backend/internal/api/ai_handlers.go:213-219 | Recoverable messages come back in order and complete, with anything ignorable between the lines and with or without the final blank line. |
| `EventStream.FirstAnswerDecides` | backend/internal/ai/ai.go:154-172 | The first message that is not answered with going on is the last one delivered; reading ends as stopped or failed, as the answer says. |
| `EventStream.LastAnswerCounts` | backend/internal/ai/ai.go:183-187 | A last message without its blank line is delivered as well, and reading fails only if that message is refused. |
| `EventStream.LongLineEndsReading` | backend/internal/ai/ai.go:150-186 | A line of 4 MiB ends reading with an error: what was delivered stays, the message it breaks into is not delivered. |
| `EventStream.LongLine` | backend/internal/ai/ai.go:150-175 | A comment of 4 MiB ends reading, a shorter one does nothing. |
| `EventStream.EitherLineEnd` | backend/internal/ai/ai.go:167-168 | Lines may end in a carriage return and a line feed as well. |
| `EventStream.SpaceIsOptional` | backend/internal/ai/ai.go:178-182 | One space after `data:` makes no difference. |
| `EventStream.NamesAlone` | backend/internal/ai/ai.go:154-177 | A name without data is forgotten at the blank line, and of two names the later counts. |
| `EventStream.PaddedName` | backend/internal/ai/ai.go:176-177 | White space around a name is not part of it, white space within it is. |
| `EventStream.DeliveredShape` | backend/internal/ai/ai.go:148-187 | No text makes the reader deliver empty data, data that starts with a line break, or an untrimmed name. |
| `EventStream.CarriageReturnIsLost` | backend/internal/ai/ai.go:148-187 | A carriage return at the end of a line of data is lost. |
| `EventStream.OneMessageIff` | backend/internal/ai/ai.go:148-187 | A printed message is read back as it was if and only if it is recoverable. |
| `EventStream.AllMessagesIff` | backend/internal/ai/ai.go:148-187 | Printed messages are read back as they were, all and in order, if and only if each of them is recoverable. |
| `NaturalOrder.NaturalLess` | backend/internal/api/assets_handlers.go:109-138 | The loop compares the sequences of tokens: digit runs as numbers up to the 64-bit limit, other characters without case. |
| `NaturalOrder.NaturalIsStrictWeak` | backend/internal/api/assets_handlers.go:109-138 | The order is irreflexive, transitive and has transitive ties; ties are codes with the same tokens. |
| `NaturalOrder.KeysOfConcat` | backend/internal/api/assets_handlers.go:109-138 | The tokens of a code are those of its parts, when it is cut after a character that is no digit. |
| `NaturalOrder.NumberedCodes` | backend/internal/api/assets_handlers.go:109-110 | Codes with a common prefix and a number are ordered by the number. |
| `NaturalOrder.WrittenNumbers` | backend/internal/api/assets_handlers.go:109-128 | Codes with a common prefix that end in written numbers are ordered by these numbers, whatever leading zeros they have; all numbers from 2^63 - 1 on are alike. |
| `NaturalOrder.SingleBytes` | backend/internal/api/assets_handlers.go:129-135 | Codes of one byte are ordered as bytes, capital letters as small ones. |
| `NaturalOrder.CaseIsIgnored` | backend/internal/api/assets_handlers.go:129-133 | Codes that differ in the case of letters only are ties. |
| `Orders.SortedUnique` | backend/internal/api/infographic.go:247-263 | There is one way to list given elements in strictly ascending order. |

## Left out

- HTTP parsing, sessions, audit, notifications, message brokers, web sockets, translation and the text of messages.
- SQL, PostGIS and the staging scripts; geometry questions put to the database are parameters.
- Loading, editing and regrouping the graph, and the full rebuild after an edit; which feeder supplies a node now;
  power flow, fault location, tiles and reliability indices. Runs are maneuvers only; the weights of customers stay
  fixed during a run. The heap is known by what it removes next, and distances have no 32-bit limit.
- The level, summary, load figure and regions of an outage, notifications and the sequence-of-events records.
- The upstream walk's stop after 100000 steps; the model walks to the source.
- The category of a maneuver taken from a running outage, the folding of upper and lower case in requests, and the
  refusal of objects whose type has no place in the topology, which are refused as not found here.
- Database errors that the source ignores, and the five-minute limits on its writes.
- The load level of the dashboard, and its levels for substations, feeders and zones, whose lists are not additive over
  disjoint sets of nodes; the sorting of the list of customers.
- The cache of the asset index and its 15 seconds of staleness; names, type codes, state labels and counts of children
  in the rows of assets; transformers without a substation, which are listed but lie below nothing.
- Several tabs inside one flush of the class `Outbox.Device`: its other tabs stand still. They interleave freely in the
  events of `Outbox`.
- Clock, text, location and picture of queued items; the ticket numbers of reports.
- Outbox.Device.OutboxAdd: promises the invariant only for a client id that no other item had before, because ids are
  drawn at random and the server knows an item by its id alone; otherwise only that the item is stored.
- The direct post of a field page before it queues an item is an event of `Outbox`, not a method of `Outbox.Device`.
- The size limits of exports, the Esri export, and the building of Multi geometries; numbers are written and read back
  without loss.
- Failures of the database in the middle of an import, and the calls of the editor itself, which are replies here.
- The extraction, staging and comparison of a geodatabase; a step succeeds or fails. A second worker started beside one
  that a late cancellation left running.
- The time limits and the transport of the event stream.
- Rounding of floating point numbers; the time stamps of reference loads.
- ImportJob.Manager.Cancel: has nothing between its two critical sections. With something between them, the same call
  is `ImportJob.Manager.CheckCancel` and later `ImportJob.Manager.CloseCancelled`.
- ImportJob.Manager.CloseCancelled: requires that there is a job; without one the original crashes, as the event
  `CancelFinish` of `ImportJob.Next` says.
- ImportJob.Manager.Run: requires that no other call changes the job meanwhile, which `ImportJob.LiveJobIsKept` and
  `ImportJob.RunKeepsIff` justify.
