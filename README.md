# Payload computer of a search drone, in Dafny

This project models the decision logic of the payload computer of a search drone
(KonstantinDege/PayloadComputerDroneProjekt) and proves properties of it.
The model covers four parts:

- **Mission-plan arithmetic** (`mission_plan.dfy`, module `MissionPlan`).
  - A mission is a JSON action tree: `list`, `mov_multiple`, or a leaf action.
  - `count_actions` gives the number of progress units in a plan.
  - `action_with_count` cuts away the part of a plan that is already done.
  - `find_shortest_path` orders target positions by Manhattan distance from a start point.
- **The mission computer** (`mission_computer.dfy`, module `MissionControl`; properties in `mission_properties.dfy`, module `MissionProperties`).
  - A class whose fields are `progress`, `max_progress`, `running`, the loaded plan and the working directory.
  - The working directory is a map from file names to what `json.load` would make of each file.
  - `execute`, `execute_list` and `mov_multiple` count progress and persist it.
  - `initiate` decides whether a persisted progress record may be restored.
  - `_start` cuts the plan at the restored progress with `action_with_count` and runs the rest.
- **The observation journal** (`journal.dfy`, module `Journal`; grouping in `grouping.dfy`, module `Grouping`).
  - `DataHandler` keeps an append-only list of frame records with a `saved` watermark.
  - It appends the unsaved records to `__data__.json` on every exit from a `with` block.
  - It reads the journal back when it is constructed.
  - `_get_obj_tree`, `sort_list` and `get_mean` group detections by colour and shape, cluster them, and average each cluster.
- **Detection rules of the image analysis** (`perception.dfy`, module `Perception`; the per-frame routine in `image_analysis.dfy`, module `Analysis`).
  - The colour-range configuration.
  - Which approximated polygons become detections, and the record built for each.
  - How a shape is named from its vertex count, and when a code marker counts.
  - Which candidates `get_closest_element` keeps.
  - The quality and pose gating of `_image_sub_routine`.

Shared types live in `wrappers.dfy` (`Option`, `Result`) and `observation.dfy` (detections, polygons, frames).

Outside effects become inputs of the model:

- The drone's failing `mov` is the oracle `Env.movRaises`.
- The clock is a `now: real` parameter.
- The polygons OpenCV finds in each colour mask are a function `string -> seq<Polygon>`.
- The polygons of the shape mask inside a bounding box are a function `BoundBox -> seq<Polygon>`.
- The scipy clustering is a labelling function `(seq<LatLon>, real) -> seq<int>`.
- `add_lat_lon` with its pixel-to-world converter is a `Detection -> Option<LatLon>` function, where `None` means that it raises.
- The image quality is a `real` parameter.

Python exceptions become `Err` values that carry the exception's name, or a `raised` flag where the caller only records that it stopped.

The docstring of `action_with_count` (helper.py:78-79) says that a completed sub-plan yields the number of steps left over.
The code does not do this for a `list` node. The model follows the code: `ActionWithCount` is the cut, and `Started` and `MissionComputer.Start` use it as `_start` does. A corrected cut (`ResumeSubplan`) and a start that uses it (`ResumedStart`) are given beside them; see "## Findings".

## Model

| member | source | states |
|---|---|---|
| MissionPlan.Flatten | src/payloadcomputerdroneprojekt/mission_computer/helper.py:49-65 | the flattened step sequence of a plan has exactly count_actions(plan) steps: a list sums its children, mov_multiple counts its commands, any other tag counts 1 |
| MissionPlan.FlattenList | src/payloadcomputerdroneprojekt/mission_computer/helper.py:58-62 | the steps of a list's children number the sum of their counts |
| MissionPlan.SliceStart | src/payloadcomputerdroneprojekt/mission_computer/helper.py:99-104 | the slice start `commands[count:]` is count when 0 ≤ count ≤ len, and never past the end |
| MissionPlan.LeafWithCount | src/payloadcomputerdroneprojekt/mission_computer/helper.py:108-110 | a leaf with count 0 is returned unchanged; with count ≥ 1 the result is the integer count-1 |
| MissionPlan.MovMultipleWithCount | src/payloadcomputerdroneprojekt/mission_computer/helper.py:98-106 | a mov_multiple with count < len returns `commands[count:]`, whose count is len-count; with count 0 all commands; with count ≥ len the integer count-len |
| MissionPlan.FlatNodeAgrees | src/payloadcomputerdroneprojekt/mission_computer/helper.py:98-110 | on a leaf or mov_multiple the code as written and the corrected cut agree |
| MissionPlan.FlatListAgrees | src/payloadcomputerdroneprojekt/mission_computer/helper.py:88-97 | on a list of leaves and mov_multiples, the loop of the list branch agrees with the corrected cut |
| MissionPlan.FlatListPartial | src/payloadcomputerdroneprojekt/mission_computer/helper.py:88-97 | a flat list with 0 ≤ count < count_actions becomes a list whose steps are the original steps from count on; its first command is the partly done child, the rest are the untouched later children, and its count is the original minus count |
| MissionPlan.FlatListExactlyConsumed | src/payloadcomputerdroneprojekt/mission_computer/helper.py:88-110 | a flat list whose children consume the count exactly is returned whole, not as an integer |
| MissionPlan.FlatListOvershoot | src/payloadcomputerdroneprojekt/mission_computer/helper.py:88-110 | a flat list with a larger count yields count - total - 1: one unit too many is lost |
| MissionPlan.NestedListResumesTooEarly | src/payloadcomputerdroneprojekt/mission_computer/helper.py:88-110 | for the plan `[[a], b]` with one step done, the code returns the whole plan again, so the done step is repeated |
| MissionPlan.ResumeExact | src/payloadcomputerdroneprojekt/mission_computer/helper.py:74-110 | the corrected cut: below the count of a plan it yields a plan whose steps are exactly the steps that are not yet done; at or past it, the integer count - total |
| MissionPlan.ResumeListExact | src/payloadcomputerdroneprojekt/mission_computer/helper.py:88-97 | the same for a list, whose result keeps the untouched later children |
| MissionPlan.ResumeCount | src/payloadcomputerdroneprojekt/mission_computer/helper.py:74-110 | the corrected residual plan counts exactly count_actions(plan) - count |
| MissionPlan.SortProperties | src/payloadcomputerdroneprojekt/mission_computer/helper.py:34-37 | the insertion sort orders by Manhattan distance, is a permutation, and keeps the order of equidistant positions |
| MissionPlan.FindShortestPath | src/payloadcomputerdroneprojekt/mission_computer/helper.py:16-38 | empty input gives an empty list; otherwise it fails exactly when a position or the start has fewer than two coordinates, and it returns a permutation of the positions, ordered non-decreasingly and stably by distance |
| MissionControl.Finished | src/payloadcomputerdroneprojekt/mission_computer/mc_class.py:311-319 | the tail of execute clears `running`, keeps progress, deletes both mission files once progress reaches the maximum, and otherwise leaves the saved record |
| MissionControl.MovsDone | src/payloadcomputerdroneprojekt/mission_computer/mc_class.py:567-577 | the number of waypoints reached is the index of the first move that raises, or all of them: every earlier move succeeds and the move at that index raises |
| MissionControl.MissionComputer.constructor | src/payloadcomputerdroneprojekt/mission_computer/mc_class.py:147-176 | a new mission computer starts with progress 0, max_progress -1, not running |
| MissionControl.MissionComputer.SaveProgress | src/payloadcomputerdroneprojekt/mission_computer/mc_class.py:267-279 | the new state is `Saved`: the record `{progress, max_progress, time}` is written only while running |
| MissionControl.MissionComputer.Finish | src/payloadcomputerdroneprojekt/mission_computer/mc_class.py:311-319 | the new state is the execute tail `Finished` |
| MissionControl.MissionComputer.Execute | src/payloadcomputerdroneprojekt/mission_computer/mc_class.py:289-319 | the new state is `Executed(a, old state)`, the specification the lemmas of MissionProperties are about |
| MissionControl.MissionComputer.ExecuteList | src/payloadcomputerdroneprojekt/mission_computer/mc_class.py:551-559 | the new state is the children executed in order |
| MissionControl.MissionComputer.RunMovMultiple | src/payloadcomputerdroneprojekt/mission_computer/mc_class.py:567-577 | progress grows by one per waypoint reached, and the loop stops exactly at the first move that raises |
| MissionControl.MissionComputer.Initiate | src/payloadcomputerdroneprojekt/mission_computer/mc_class.py:190-245 | the new state, plan and raised flag are `Initiated(old state)`; a progress record at the mission path loads as a plan without "action" |
| MissionControl.MissionComputer.NewMission | src/payloadcomputerdroneprojekt/mission_computer/mc_class.py:390-409 | stops the mission, then initiates from the new file |
| MissionControl.MissionComputer.Start | src/payloadcomputerdroneprojekt/mission_computer/mc_class.py:355-381 | the new state is `Started`: the plan cut by `action_with_count` at the saved progress and run from there, or run whole from 0 when the cut yields an integer |
| MissionProperties.ExecBounds | src/payloadcomputerdroneprojekt/mission_computer/mc_class.py:289-319 | execute never lowers progress, adds at most count_actions(plan), and keeps max_progress |
| MissionProperties.ListBounds | src/payloadcomputerdroneprojekt/mission_computer/mc_class.py:551-559 | the same for execute_list and the sum of its children's counts |
| MissionProperties.MovsAllDone | src/payloadcomputerdroneprojekt/mission_computer/mc_class.py:567-577 | when no move raises, mov_multiple reaches every waypoint |
| MissionProperties.ExecCountsAll | src/payloadcomputerdroneprojekt/mission_computer/mc_class.py:289-319 | when every tag is known and no move raises, execute raises progress by exactly count_actions(plan) |
| MissionProperties.ListCountsAll | src/payloadcomputerdroneprojekt/mission_computer/mc_class.py:551-559 | the same for execute_list |
| MissionProperties.UnknownActionSkipped | src/payloadcomputerdroneprojekt/mission_computer/mc_class.py:297-303 | an unknown tag changes nothing but setting `running`: no progress, no save, no deletion |
| MissionProperties.KnownLeafCountsOne | src/payloadcomputerdroneprojekt/mission_computer/mc_class.py:304-319 | a known leaf adds exactly 1 to progress whether or not its handler raises, and below the maximum that progress is saved |
| MissionProperties.SavedOnlyWhileRunning | src/payloadcomputerdroneprojekt/mission_computer/mc_class.py:267-279 | the record is written only while running, holds progress, max_progress and time, and no other file appears or disappears |
| MissionProperties.ExecFinishes | src/payloadcomputerdroneprojekt/mission_computer/mc_class.py:311-319 | every known action ends not running, and once progress ≥ max_progress both mission files are gone (immediately with max -1) |
| MissionProperties.ExecFiles | src/payloadcomputerdroneprojekt/mission_computer/mc_class.py:289-319 | execute writes only the progress file and at most deletes the mission file |
| MissionProperties.ListFiles | src/payloadcomputerdroneprojekt/mission_computer/mc_class.py:551-559 | the same for execute_list |
| MissionProperties.SaveKeepsRecordBehind | src/payloadcomputerdroneprojekt/mission_computer/mc_class.py:267-279 | saving keeps the stored record at or behind the progress reached, for the same maximum |
| MissionProperties.ExecKeepsRecordBehind | src/payloadcomputerdroneprojekt/mission_computer/mc_class.py:289-319 | execute keeps the stored record at or behind the progress reached, so the record never counts an action that has not run |
| MissionProperties.ListKeepsRecordBehind | src/payloadcomputerdroneprojekt/mission_computer/mc_class.py:551-559 | the same for execute_list |
| MissionProperties.SaveThenRestore | src/payloadcomputerdroneprojekt/mission_computer/mc_class.py:197-242 | a record saved while running is restored exactly by initiate within the recovery window, with the same mission |
| MissionProperties.StaleRecordDiscarded | src/payloadcomputerdroneprojekt/mission_computer/mc_class.py:197-205 | a record older than `recouver_time` removes both files and leaves no mission: progress 0, max -1 |
| MissionProperties.UnreadableRecordStopsInitiate | src/payloadcomputerdroneprojekt/mission_computer/mc_class.py:206-210 | an unreadable record removes both files and returns with progress and max_progress untouched |
| MissionProperties.NewMissionLoaded | src/payloadcomputerdroneprojekt/mission_computer/mc_class.py:213-245 | a new mission file, with or without a fresh record present, is copied to the mission path, the progress file is deleted, progress is the file's `progress` (default 0) and max is its count |
| MissionProperties.NoMissionResets | src/payloadcomputerdroneprojekt/mission_computer/mc_class.py:212-228 | with no new mission file and nothing at the mission path, progress becomes 0 and max_progress -1, the progress file is deleted, and the plan is kept |
| MissionProperties.ProgressFileAsMission | src/payloadcomputerdroneprojekt/mission_computer/mc_class.py:212-245 | naming a fresh progress file as the new mission copies it to the mission path and deletes it; no plan is loaded, progress takes the record's `progress`, and count_actions raises |
| MissionProperties.MismatchedRecordIgnored | src/payloadcomputerdroneprojekt/mission_computer/mc_class.py:229-245 | a fresh record whose max_progress differs from the mission's action count is not restored: progress is the mission's own, max_progress its count, and the record stays on disk |
| MissionProperties.InitiateConsistent | src/payloadcomputerdroneprojekt/mission_computer/mc_class.py:190-245 | whenever initiate does not raise, max_progress is -1 or the action count of the plan it kept or loaded |
| MissionProperties.InitiateFiles | src/payloadcomputerdroneprojekt/mission_computer/mc_class.py:190-245 | initiate touches only the progress file and the mission file |
| MissionProperties.StartAgrees | src/payloadcomputerdroneprojekt/mission_computer/mc_class.py:364-378 | when progress is 0, the plan is not a list, or it is a list without nested lists whose count differs from the progress, `_start` with `action_with_count` ends in the same state as with the corrected cut |
| MissionProperties.StartCompletes | src/payloadcomputerdroneprojekt/mission_computer/mc_class.py:355-381 | in those cases, with the record's maximum matching the plan, known tags and no failing move, `_start` reaches exactly the maximum, stops, and deletes both files |
| MissionProperties.StartRepeatsNestedStep | src/payloadcomputerdroneprojekt/mission_computer/mc_class.py:364-378 | `_start` on `[[a], b]` with maximum 2 and progress 1 runs `a` again and ends at progress 3 |
| MissionProperties.StartRerunsConsumedList | src/payloadcomputerdroneprojekt/mission_computer/mc_class.py:364-378 | `_start` on a list of leaves whose progress equals its count runs the whole list again and ends at twice the count |
| MissionProperties.ResumedStartCompletes | src/payloadcomputerdroneprojekt/mission_computer/mc_class.py:355-381 | with the corrected cut, every plan, however nested, completes in the same way from any progress that is not negative |
| MissionProperties.StartFromScratch | src/payloadcomputerdroneprojekt/mission_computer/mc_class.py:367-374 | a plan run whole from progress 0 completes in the same way |
| Grouping.TreeBuckets | src/payloadcomputerdroneprojekt/image_analysis/data_handler.py:60-70 | the tree holds no empty bucket, and bucket colour → key holds exactly the objects of that colour and key, in order |
| Grouping.TreeKeys | src/payloadcomputerdroneprojekt/image_analysis/data_handler.py:60-70 | a colour and key are present exactly when some object has them |
| Grouping.InBucketMembers | src/payloadcomputerdroneprojekt/image_analysis/data_handler.py:64-69 | every member of a bucket has the bucket's colour and key (its shape if truthy, else "all") |
| Grouping.InOwnBucket | src/payloadcomputerdroneprojekt/image_analysis/data_handler.py:64-69 | every object lands in the bucket of its own colour and key |
| Grouping.StampedFromFrames | src/payloadcomputerdroneprojekt/image_analysis/data_handler.py:60-70 | every object in the tree is a frame's found object stamped with that frame's time |
| Grouping.ObjTree | src/payloadcomputerdroneprojekt/image_analysis/data_handler.py:60-70 | the nested setdefault loops build exactly the tree of all stamped objects |
| Grouping.PlaceFrame | src/payloadcomputerdroneprojekt/image_analysis/data_handler.py:63-69 | the inner loop files one record's stamped objects exactly as `Place` does, in order |
| Grouping.LatLons | src/payloadcomputerdroneprojekt/image_analysis/data_handler.py:98 | one position per group member, the i-th being the i-th member's `lat_lon` |
| Grouping.FindLabel | src/payloadcomputerdroneprojekt/image_analysis/data_handler.py:106-108 | finds the first cluster with a label, or none |
| Grouping.SelectEmpty | src/payloadcomputerdroneprojekt/image_analysis/data_handler.py:105-108 | a label no member carries selects nobody |
| Grouping.GroupedCovers | src/payloadcomputerdroneprojekt/image_analysis/data_handler.py:100-108 | every member's label has a cluster |
| Grouping.GroupedDistinct | src/payloadcomputerdroneprojekt/image_analysis/data_handler.py:100-108 | clusters have distinct labels |
| Grouping.GroupedMembers | src/payloadcomputerdroneprojekt/image_analysis/data_handler.py:100-108 | each cluster holds exactly the members with its label, in order, and none is empty |
| Grouping.GroupByLabel | src/payloadcomputerdroneprojekt/image_analysis/data_handler.py:105-108 | the enumerate loop builds exactly the label grouping |
| Grouping.ClusterGroup | src/payloadcomputerdroneprojekt/image_analysis/data_handler.py:96-107 | one shape group: KeyError when a member has no position, TypeError when the group is empty, otherwise its clusters (a single object is cluster 0) |
| Grouping.SortShapes | src/payloadcomputerdroneprojekt/image_analysis/data_handler.py:88-108 | succeeds exactly when every group has positions and none is empty; then each non-"all" shape group is the colour's "all" objects followed by that shape's, clustered; a group without positions raises KeyError, an empty one TypeError |
| Grouping.SortList | src/payloadcomputerdroneprojekt/image_analysis/data_handler.py:85-110 | the same for every colour of the tree |
| Grouping.BucketsGroupsNonEmpty | src/payloadcomputerdroneprojekt/image_analysis/data_handler.py:66-69 | a tree without empty buckets, as `_get_obj_tree` builds it, has no empty shape group, so its sort never meets the TypeError |
| Grouping.OnlyAllGivesEmpty | src/payloadcomputerdroneprojekt/image_analysis/data_handler.py:88-98 | a colour with only "all" objects yields an empty map |
| Grouping.ClustersPartition | src/payloadcomputerdroneprojekt/image_analysis/data_handler.py:100-108 | a one-object group is cluster 0; otherwise every member is in exactly one cluster, the one of its label, and no cluster is empty |
| Grouping.SumLatBounds | src/payloadcomputerdroneprojekt/image_analysis/data_handler.py:125-127 | the running latitude sum lies between n·min and n·max |
| Grouping.SumLonBounds | src/payloadcomputerdroneprojekt/image_analysis/data_handler.py:125-127 | the same for longitude |
| Grouping.MeanWithinBounds | src/payloadcomputerdroneprojekt/image_analysis/data_handler.py:119-136 | a cluster's mean position lies within the bounds of its members' positions |
| Grouping.MeanOfCoincident | src/payloadcomputerdroneprojekt/image_analysis/data_handler.py:119-136 | the mean of members at one point is that point |
| Grouping.Summarize | src/payloadcomputerdroneprojekt/image_analysis/data_handler.py:119-136 | succeeds exactly when every member has position, time and id and the cluster is not empty; then it is the arithmetic mean; a missing key is KeyError |
| Grouping.SummarizeAll | src/payloadcomputerdroneprojekt/image_analysis/data_handler.py:119-136 | the loop over clusters succeeds exactly when every cluster is summarizable, and yields their means |
| Grouping.MeanShapes | src/payloadcomputerdroneprojekt/image_analysis/data_handler.py:116-136 | the same for every shape of a colour |
| Grouping.GetMean | src/payloadcomputerdroneprojekt/image_analysis/data_handler.py:113-137 | the same for every colour |
| Grouping.SelectComplete | src/payloadcomputerdroneprojekt/image_analysis/data_handler.py:105-108 | a cluster of complete objects is complete |
| Grouping.ClustersSummarizable | src/payloadcomputerdroneprojekt/image_analysis/data_handler.py:100-136 | the clusters of a group of complete objects can all be averaged |
| Grouping.PipelineDefined | src/payloadcomputerdroneprojekt/image_analysis/data_handler.py:85-137 | a tree of complete objects passes sort_list and get_mean without error |
| Journal.AppendedWrites | src/payloadcomputerdroneprojekt/image_analysis/data_handler.py:72-76 | appending lines adds exactly those records to what the file holds |
| Journal.AppendedTwice | src/payloadcomputerdroneprojekt/image_analysis/data_handler.py:72-76 | appending a then b is appending a + b |
| Journal.DataHandler.Init | src/payloadcomputerdroneprojekt/image_analysis/data_handler.py:14-33 | a handler over a file holding exactly the given records, all of them saved, whose file and watermark agree |
| Journal.DataHandler.Open | src/payloadcomputerdroneprojekt/image_analysis/data_handler.py:14-33 | succeeds exactly when the file is missing or readable; the records are those read (one per line, or one JSON array), all counted as saved; otherwise JSONDecodeError |
| Journal.DataHandler.GetNewItem | src/payloadcomputerdroneprojekt/image_analysis/data_handler.py:35-39 | appends exactly one empty record, whose id is its index, and keeps the watermark valid |
| Journal.DataHandler.Update | src/payloadcomputerdroneprojekt/image_analysis/ia_class.py:160-188 | filling in an unsaved record changes only that record |
| Journal.DataHandler.Save | src/payloadcomputerdroneprojekt/image_analysis/data_handler.py:72-76 | appends `items[saved:]` in order, sets saved to the length, and keeps the file equal to the saved prefix |
| Journal.DataHandler.Enter | src/payloadcomputerdroneprojekt/image_analysis/data_handler.py:78-79 | entering a `with` block appends a new record |
| Journal.DataHandler.Exit | src/payloadcomputerdroneprojekt/image_analysis/data_handler.py:81-82 | leaving it always saves |
| Journal.DataHandler.GetFilteredItems | src/payloadcomputerdroneprojekt/image_analysis/data_handler.py:48-55 | succeeds exactly when the grouping pipeline is defined on the records, returns the cluster means, and stores them only then |
| Journal.SaveThenReopen | src/payloadcomputerdroneprojekt/image_analysis/data_handler.py:22-33 | a line journal, once saved, reads back as every record, so reloaded records are never appended again |
| Journal.ArrayThenLinesUnreadable | src/payloadcomputerdroneprojekt/image_analysis/data_handler.py:22-33 | appending lines to a journal in array form makes it unreadable on the next open |
| Journal.SaveNothing | src/payloadcomputerdroneprojekt/image_analysis/data_handler.py:72-76 | a save with nothing new leaves the file as it is |
| Journal.FramesComplete | src/payloadcomputerdroneprojekt/image_analysis/data_handler.py:60-70 | if every detection has position and id, every object in the tree is complete |
| Journal.FilteredDefined | src/payloadcomputerdroneprojekt/image_analysis/data_handler.py:48-55 | in that case get_filterd_items succeeds |
| Perception.FindColor | src/payloadcomputerdroneprojekt/image_analysis/ia_class.py:28-44 | finds the first table entry with a name |
| Perception.ColorsSpec | src/payloadcomputerdroneprojekt/image_analysis/ia_class.py:28-44 | the table builds exactly when every entry converts; names are distinct and each maps to its last entry's ranges (two when it has "upper_1") |
| Perception.LoadColors | src/payloadcomputerdroneprojekt/image_analysis/ia_class.py:28-44 | the loop builds exactly that table, or the first failure |
| Perception.SettingsOf | src/payloadcomputerdroneprojekt/image_analysis/ia_class.py:14-49 | the defaults min_diagonal 10, min_diagonal_shape 1, min_diagonal_code_element 1, threshold -1, and the colour table |
| Perception.DetectObj | src/payloadcomputerdroneprojekt/image_analysis/ia_class.py:211-251 | the earlier list is kept and the accepted polygons' records are appended in order |
| Perception.DetectedExactly | src/payloadcomputerdroneprojekt/image_analysis/ia_class.py:229-239 | a record is appended exactly for polygons with 4 vertices and w²+h² ≥ min_diagonal² |
| Perception.DetectedWellFormed | src/payloadcomputerdroneprojekt/image_analysis/ia_class.py:229-251 | every record has four vertices, a box of diagonal at least min_diagonal, and its centre inside its box |
| Perception.ComputeImage | src/payloadcomputerdroneprojekt/image_analysis/ia_class.py:190-209 | the detections of every colour, in the table's order |
| Perception.FirstNaming | src/payloadcomputerdroneprojekt/image_analysis/ia_class.py:276-289 | finds the first contour with at least 3 vertices and w²+h² ≥ min_diagonal_shape² |
| Perception.GetShape | src/payloadcomputerdroneprojekt/image_analysis/ia_class.py:253-289 | no qualifying contour gives False; otherwise the first one decides: 3 vertices "Dreieck", 4 "Rechteck", more "Kreis" |
| Perception.FindCode | src/payloadcomputerdroneprojekt/image_analysis/ia_class.py:291-322 | fewer than 3 qualifying squares give False and leave the object unchanged; exactly 3 set "code" and give True; more raise TypeError |
| Perception.CodeElementsExactly | src/payloadcomputerdroneprojekt/image_analysis/ia_class.py:303-318 | the code elements are exactly the qualifying quadrilaterals, in order, each with d = w²+h² |
| Perception.WithShapeExactly | src/payloadcomputerdroneprojekt/image_analysis/ia_class.py:517-522 | an object is kept exactly when its shape is the requested one |
| Perception.GetCorrectShape | src/payloadcomputerdroneprojekt/image_analysis/ia_class.py:517-522 | the loop keeps exactly those objects, in order |
| Perception.GetClosestCode | src/payloadcomputerdroneprojekt/image_analysis/ia_class.py:524-529 | the loop's result is `WithCode`: the objects whose find_code succeeds, in order, or the error of the first that raises |
| Perception.WithCodeHasCode | src/payloadcomputerdroneprojekt/image_analysis/ia_class.py:524-529 | every kept object carries a code of three elements, and no more objects are kept than given |
| Perception.WithCodeExactly | src/payloadcomputerdroneprojekt/image_analysis/ia_class.py:524-529 | the loop raises TypeError exactly when some object has more than three code elements, and otherwise keeps exactly the objects with three, each with its elements stored |
| Perception.GetClosestElement | src/payloadcomputerdroneprojekt/image_analysis/ia_class.py:487-515 | an undefined colour raises IndexError; a missing shape gives None; no candidate gives None; one candidate gives it; more raise TypeError |
| Perception.ClosestIsCandidate | src/payloadcomputerdroneprojekt/image_analysis/ia_class.py:487-522 | the one candidate returned is a detection of that colour with the requested shape |
| Analysis.FirstUnlocated | src/payloadcomputerdroneprojekt/image_analysis/ia_class.py:176-186 | the first detection whose position cannot be computed, if any |
| Analysis.ImageAnalysis.constructor | src/payloadcomputerdroneprojekt/image_analysis/ia_class.py:14-53 | the settings and the journal handler |
| Analysis.ImageAnalysis.Open | src/payloadcomputerdroneprojekt/image_analysis/ia_class.py:14-53 | succeeds exactly when the journal is readable and the colour configuration converts; the handler is valid |
| Analysis.ImageAnalysis.LocateObjects | src/payloadcomputerdroneprojekt/image_analysis/ia_class.py:176-186 | the objects before the first failure get shape and position, that one only its shape, the rest nothing; it fails exactly when some position raises |
| Analysis.ImageAnalysis.RecordFrame | src/payloadcomputerdroneprojekt/image_analysis/ia_class.py:161-188 | the record built step by step, and whether the routine raised, are `Recorded`: the routine's gating by quality, then latitude, then the converter, then each position |
| Analysis.ImageAnalysis.ImageSubRoutine | src/payloadcomputerdroneprojekt/image_analysis/ia_class.py:159-188 | exactly one record is appended and saved, whatever the routine raises, and it is `Recorded` |
| Analysis.LowQualityRecord | src/payloadcomputerdroneprojekt/image_analysis/ia_class.py:160-168 | quality below the threshold records pose, raw image, height and quality, and no objects |
| Analysis.ZeroLatitudeRecord | src/payloadcomputerdroneprojekt/image_analysis/ia_class.py:160-170 | a zero latitude records pose, raw image and height, and no objects |
| Analysis.NoConverterRecord | src/payloadcomputerdroneprojekt/image_analysis/ia_class.py:159-175 | for a frame past the quality and latitude guards with no coordinate converter, the routine raises after storing the bare detections of every colour, with no shape, no position and no annotated image |
| Analysis.CompleteRecord | src/payloadcomputerdroneprojekt/image_analysis/ia_class.py:159-188 | when every position is computed, every detection is stored with its shape and position, and the annotated image is stored |
| Analysis.FailedRecord | src/payloadcomputerdroneprojekt/image_analysis/ia_class.py:159-188 | when a position raises, the detections before it are complete, it has only its shape, the rest are as detected, and no annotated image is stored |

## Left out

- The link to the vehicle: MAVSDK calls, `status` messages and the drone's movements; a `status` call is taken not to raise.
- Leaf handlers of the mission computer: their effects on the drone are not modelled; their exceptions are caught at mc_class.py:304-309 and change nothing tracked.
- asyncio: the `_task` supervisor, the periodic `save_progress` loop, cancellation in `new_mission`, and the camera loop; one clock reading `now` serves a whole `execute`.
- `forever` never returns in the source (mc_class.py:613-622); here it is an ordinary leaf that counts one step. `land` returns (mc_class.py:486, 490, 497) and is an ordinary leaf as well.
- JSON parsing and `rec_serialize`: files hold already-parsed values, and a mission document that is not a mission makes `initiate` raise.
- `set_work_dir`, `get_items` and `get_filtered_storage`: plumbing with no decision in it.
- The file written by `get_filterd_items` is the handler's `filtered` field.
- OpenCV: colour masks, blurring, `findContours`, `approxPolyDP` and the quality measure are inputs (polygons with bounding boxes, a quality number); `filter_color`'s mask computation is not modelled, only its IndexError on an undefined colour.
- Image drawing: marks are recorded as a list instead of pixels, and the drawing onto the raw image (which the source also stores) is not modelled.
- Float geometry: `add_lat_lon`, the pixel-to-world conversion and the height estimates are the `Locator` parameter; positions are `real`, not floating point.
- scipy `fclusterdata` is the labelling parameter, required to give one label per point; an empty group reaches it as a one-dimensional array, which it rejects with TypeError.
- Frame records: the record class computes `int(time*100)` on the imported `datetime.time` class (data_item.py:8), which raises TypeError. So as written, `DataHandler.__init__` (data_handler.py:19) and `_get_new_item` (data_handler.py:36) always raise. The record class also stores its objects under "obj" (data_item.py:28) and starts with "found_obj" (data_item.py:9), while `_get_obj_tree` reads "found_objs" (data_handler.py:63), so `_get_obj_tree` raises KeyError on every record this code writes. And `_image_sub_routine` calls `add_image_position`, `add_height` and `add_quality` (ia_class.py:161, 163, 167), which the record class does not define. The records here are the `Frame` datatype: its one `foundObjs` field is both what the analysis writes and what the grouping reads, so the model joins a writer and a reader that the source keeps apart.
- Journal.DataHandler.Open and Journal.DataHandler.GetNewItem: they assume a record class that can be constructed, and do not model that TypeError.
- Coordinate converter: math_helper.py defines no `local_to_global`, so the call at ia_class.py:174 raises AttributeError on every frame that passes the quality and latitude guards; its `rotation_matrix` (math_helper.py:22-23) calls `np.array()` without an argument, which raises TypeError. As written, every such frame therefore takes the `toGlobal == None` branch of `Recorded` (stated by `Analysis.NoConverterRecord`); `Analysis.CompleteRecord` and `Analysis.FailedRecord` describe the routine with a converter that the repository does not contain.
- Diagonal settings: `min_diagonal`, `min_diagonal_shape` and `min_diagonal_code_element` are whole numbers in the model; a fractional value in the JSON configuration is not modelled.
- The height estimate `obj["h"]` that `_add_lat_lon` and its helper store (ia_class.py:458, 482) has no `Detection` field: it belongs to the float geometry of the `Locator` parameter.
- Grouping.ObjTree: the source also writes the time stamp into the stored records; the model stamps copies and leaves the journal's records as they are.
- Grouping.Summarize: no visible code sets a detection's `id`, so on real records `get_mean` raises KeyError; the model keeps `id` optional.
- Perception.FindCode and Perception.GetClosestElement: the branches that call `sorted` with a positional key raise TypeError in Python 3 and are modelled as that error, not as a selection of the best elements.
- The journal mixing an array file with appended lines is stated (`ArrayThenLinesUnreadable`), not corrected.

## Findings

| source | as written | input that shows it | evidently intended | confidence | as-written member | corrected member |
|---|---|---|---|---|---|---|
| src/payloadcomputerdroneprojekt/mission_computer/helper.py:88-110 | after its loop the `list` branch falls through to the leaf tail, which returns the plan when count is 0 and count-1 otherwise | plan `[[a], b]` with count 1: the inner list returns itself whole, so the resumed plan repeats `a` | a sub-plan that is fully done yields the count left over, and a partly done plan yields exactly the steps not yet done (the docstring at helper.py:78-79) | not executed | MissionPlan.ActionWithCount, MissionPlan.NestedListResumesTooEarly, MissionProperties.StartRepeatsNestedStep, MissionProperties.StartRerunsConsumedList | MissionPlan.ResumeSubplan, MissionPlan.ResumeExact, MissionControl.ResumedStart, MissionProperties.ResumedStartCompletes |
