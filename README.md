# simpl-modelservice scope graph, in Dafny

This project models the core of the simpl-modelservice: the in-memory graph of a game scope and its
child scopes, and the code that keeps that graph in sync and decides from it. It proves properties of
the model with Dafny.

Each source file is one module:

- `ScopeManager` is an insertion-ordered map with secondary index buckets (module `Managers`).
- The schema tables (`Constants`) and the exception taxonomy (`Exceptions`) are constants.
- Parent, run, world and runuser resolution (`Traversing`) and scope equality, routing, export and the
  scope tree (`Scopes`) are pure functions over the graph.
- `Games.Game` holds the scope lifecycle as a class over that graph:
  - adding and removing scopes;
  - webhook-driven adds, changes and deletes;
  - unloading a subtree;
  - runuser reconciliation;
  - presence;
  - restore with pagination;
  - phase stepping.

  Every method of `Games.Game` is proved equal to a pure specification function on the graph and its outbox of published events. Those functions live in `Lifecycle`, `Presence`, `Restoring` and `Phases`, and the lemmas are proved about them.
- The webhook dispatcher and registry are in `Webhooks`.
- The read-through cache and the save merge are in `Storages`.
- The guest component's authorization decisions are in `Guest`.
- The external authentication token check is in `ExternalAuth`.
- The method decorators and the registries are in `Decorators` and `Registries`.
- The game class tables are in `GameClasses`.
- The bus presence of a scope is in `Wamp`.
- The profiler's instruments are in `Instruments`.
- The profiler's worker bookkeeping is in `Worker`.
- Task discovery is in `Discovery`.
- Python's string built-ins that the code relies on are in `Strings`.
- JSON payload access is in `Payload`.

Publishing, bus registration and remote calls are not performed. Each becomes an entry in an outbox sequence or a
function parameter: the games API answers, the save answer, the HMAC, the clock, the bus's accept decision, and
the outcome of a profiling task.

## Model

| member | source | states |
|---|---|---|
| Exceptions.BaseIsRoot | modelservice/games/scopes/exceptions.py:9-14 | the exception hierarchy is at most two levels deep: a base class has no base of its own |
| Exceptions.ScopeHandlers | modelservice/games/scopes/exceptions.py:9-18 | `except ScopeNotFound` catches ParentScopeNotFound and does not catch MultipleScopesFound, ScopesNotLoaded, KeyError or AttributeError, and `except ParentScopeNotFound` does not catch ScopeNotFound. |
| Exceptions.ScopeClassesCatch | modelservice/games/scopes/exceptions.py:5-18 | `except ScopeNotFound` catches exactly ScopeNotFound and ParentScopeNotFound, and `except` on ParentScopeNotFound, ScopesNotLoaded or MultipleScopesFound catches exactly that class. |
| Exceptions.CatchesTransitive | modelservice/games/scopes/exceptions.py:13-14 | being an instance of a class is transitive along the hierarchy |
| Exceptions.ChangePhaseError | modelservice/games/scopes/exceptions.py:21-28 | ChangePhaseException is an ApplicationError carrying application.error.change_phase and the given arguments |
| Exceptions.FormValidationError | modelservice/games/scopes/exceptions.py:31-51 | FormError is an ApplicationError carrying application.error.validation_error, the form name and the errors |
| Exceptions.AppErrorUrisDistinct | modelservice/games/scopes/exceptions.py:21-31 | the two application errors have different URIs |
| Constants.NamesIdentifyKinds | modelservice/games/scopes/constants.py:5-15 | resource names and kinds are in one-to-one correspondence, and no name is empty or holds a dot |
| Constants.TablesAgree | modelservice/games/scopes/constants.py:5-28 | both tables cover every kind but the game, and every listed kind has at least one parent field |
| Constants.ParentsAreShallower | modelservice/games/scopes/constants.py:5-15 | every parent kind is exactly one level closer to the game |
| Constants.ParentGraphIsRooted | modelservice/games/scopes/constants.py:1-15 | every kind reaches the game through parent fields within its depth, which is at most five |
| Constants.FilterAttributesExtendParents | modelservice/games/scopes/constants.py:17-28 | the filter attributes are the parent fields, except that a runuser is also filtered by world |
| Constants.IndexNames | modelservice/games/scopes/managers.py:22-24 | get_indexes lists the resource names of the kind's filter attributes, in table order |
| Payload.Field | modelservice/games/scopes/managers.py:29-30 | payload[key] is the stored value when the key is present and KeyError otherwise |
| Strings.ReplaceAll | modelservice/crossbar/guest/__init__.py:146 | str.replace removes every occurrence of the pattern, left to right; a text without the pattern is unchanged |
| Strings.Split | modelservice/crossbar/guest/__init__.py:191 | str.split gives at least one part and no part holds the separator; Strings.SplitJoin and Strings.SplitNone pin down every part |
| Strings.SplitJoin | modelservice/crossbar/guest/__init__.py:191 | splitting `a + sep + b`, with no separator in `a`, gives `a` followed by the parts of `b` |
| Strings.RSplit | modelservice/webhooks.py:73-75 | str.rsplit gives at least one and at most maxsplit + 1 parts; Strings.RSplitJoin and Strings.RSplitNone pin down the cutting from the right |
| Strings.RSplitJoin | modelservice/webhooks.py:73-75 | rsplitting `a + sep + b`, with no separator in `b`, gives the parts of `a` with one split fewer, followed by `b` |
| Strings.IntRoundTrip | modelservice/crossbar/guest/__init__.py:203 | int(str(i)) == i for every integer |
| Strings.ParseIntNeedsDigit | modelservice/crossbar/guest/__init__.py:203 | a text with no digit at all, the empty text and a lone sign included, is never parsed as an integer |
| Managers.Members | modelservice/games/scopes/managers.py:162-163 | iterating a container yields the stored scope of each pk in insertion order |
| Managers.MemberPks | modelservice/games/scopes/managers.py:44-48 | each member is stored under its own pk, so the members' pks are the insertion order |
| Managers.MembersPkSeq | modelservice/games/scopes/managers.py:44-48 | the pk sequence of the members equals the recorded insertion order |
| Managers.AddToIndexesEffect | modelservice/games/scopes/managers.py:32-34 | indexing a scope adds its pk to exactly the buckets named by its filter attributes under its values, and touches no other bucket |
| Managers.AddOverwritesInPlace | modelservice/games/scopes/managers.py:44-48 | storing a pk already present overwrites its slot without moving it; a new pk is appended at the end |
| Managers.AddIndexesScope | modelservice/games/scopes/managers.py:44-48 | after a scope is added it is found in the bucket of each of its filter attribute values |
| Managers.ExtendAllOrder | modelservice/games/scopes/managers.py:44-48 | extending with scopes of fresh, pairwise distinct pks appends their pks in argument order |
| Managers.ExtendAllSlots | modelservice/games/scopes/managers.py:44-48 | extending stores each argument under its pk and leaves every other slot unchanged |
| Managers.BuildLists | modelservice/games/scopes/managers.py:16-19 | ScopeManager(*args) lists exactly args, in order, when their pks are distinct |
| Managers.BuildCount | modelservice/games/scopes/managers.py:137-138 | count() of ScopeManager(*args) is the number of distinct pks: smaller than len(args) exactly when two arguments share a pk |
| Managers.RemoveFromIndexesEffect | modelservice/games/scopes/managers.py:36-38 | removing a pk from buckets that all hold it drops it from exactly those buckets |
| Managers.RemoveDropsSlot | modelservice/games/scopes/managers.py:121-124 | a removal that succeeds drops exactly the scope's slot and keeps the order of the others |
| Managers.AddKeepsConsistent | modelservice/games/scopes/managers.py:44-48 | adding a new pk, or re-adding one with unchanged filter values, keeps every bucket equal to the set of stored pks having that value |
| Managers.AddToIndexesPresent | modelservice/games/scopes/managers.py:32-34 | indexing a pk that is already in its buckets changes nothing (set add is idempotent) |
| Managers.ReAddIsNoop | modelservice/games/scopes/managers.py:118-119 | re-adding the scope a consistent container already holds leaves the container unchanged |
| Managers.RemoveKeepsConsistent | modelservice/games/scopes/managers.py:121-124 | removing a stored scope whose filter values are unchanged succeeds and keeps the container well formed and its indexes consistent |
| Managers.SameIndexValuesConsistent | modelservice/games/scopes/managers.py:29-34 | indexes stay consistent when stored payloads change only outside the filter attributes |
| Managers.LookupMeaning | modelservice/games/scopes/managers.py:50-62 | _lookup answers true exactly when the payload has every criterion's value, false on the first mismatch |
| Managers.LookupRaises | modelservice/games/scopes/managers.py:56-61 | _lookup raises ValueError exactly when it reaches a key the payload lacks after every earlier criterion matched |
| Managers.ScanMeaning | modelservice/games/scopes/managers.py:76-79 | the scanning filter keeps exactly the matching members in order, unless a lookup raises, in which case the filter raises |
| Managers.ScanAll | modelservice/games/scopes/managers.py:76-79 | an empty criteria filter keeps every member |
| Managers.IndexedFilterMatchesScan | modelservice/games/scopes/managers.py:64-80 | with consistent indexes, the indexed branch of filter selects the same scopes as the scanning branch (in the model, whose buckets hold pks, also in the same order) |
| Managers.FilterWithin | modelservice/games/scopes/managers.py:64-80 | filter only returns members of the container |
| Managers.FilterByIndex | modelservice/games/scopes/managers.py:64-80 | filtering on a filter attribute that every stored scope carries succeeds and keeps exactly the members having that value |
| Managers.GetById | modelservice/games/scopes/managers.py:97-103 | get(id=pk) returns the stored scope of that pk, or raises ScopeNotFound |
| Managers.GetByFilter | modelservice/games/scopes/managers.py:105-110 | any other get answers by the number of filter results: none raises ScopeNotFound, several MultipleScopesFound, one is returned |
| Managers.GetMatches | modelservice/games/scopes/managers.py:105-110 | the scope a scanning get returns matches every criterion |
| Managers.At | modelservice/games/scopes/managers.py:159-160 | manager[i] is the i-th member in insertion order, counted from the end for a negative i, and IndexError outside the list |
| Managers.ExistsAndLast | modelservice/games/scopes/managers.py:126-135 | exists() raises MultipleScopesFound above one member and is true for exactly one; last() is the last inserted member or ScopeNotFound |
| Managers.ContainsAfterUpdates | modelservice/games/scopes/managers.py:168-169 | membership is by pk: an added scope is in, a removed one is out |
| Managers.EqualityAndRAdd | modelservice/games/scopes/managers.py:149-154 | a manager compares equal to the list of its members, and list + manager lists the list first, then the members |
| Managers.StaleIndexAfterReplace | modelservice/games/scopes/managers.py:64-80 | replacing a stored payload under a changed filter value leaves a stale bucket: an indexed filter on the new value misses the scope |
| Managers.StaleRemoveFails | modelservice/games/scopes/managers.py:36-38 | removing such a scope raises KeyError, because its pk is not in the bucket of its new value |
| Managers.ScopeManager.constructor | modelservice/games/scopes/managers.py:16-19 | the new container holds exactly the pure ScopeManager(*args) value |
| Managers.ScopeManager.Reset | modelservice/games/scopes/managers.py:40-42 | after reset the container is empty |
| Managers.ScopeManager.AddToIndexAttr | modelservice/games/scopes/managers.py:32-34 | one attribute's bucket gains the scope's pk |
| Managers.ScopeManager.AddOneScope | modelservice/games/scopes/managers.py:44-48 | one loop step of extends: the slot is set and the scope is indexed |
| Managers.ScopeManager.Extends | modelservice/games/scopes/managers.py:44-48 | the new state is the pure extension of the old state by args |
| Managers.ScopeManager.Append | modelservice/games/scopes/managers.py:112-116 | append has the same effect as extends |
| Managers.ScopeManager.Add | modelservice/games/scopes/managers.py:118-119 | add is append of one scope |
| Managers.ScopeManager.Plus | modelservice/games/scopes/managers.py:145-147 | self + other extends self with other and returns self |
| Managers.ScopeManager.Remove | modelservice/games/scopes/managers.py:121-124 | the buckets are emptied of the pk in turn, then the slot is popped; the first missing entry raises KeyError and leaves the earlier removals done |
| Scopes.Equal | modelservice/games/scopes/base.py:21-24 | two scopes are equal exactly when the other has both attributes and the resource names and pks agree |
| Scopes.NotEqual | modelservice/games/scopes/base.py:26-27 | `!=` is the negation of `==` |
| Scopes.EqualIsIdentity | modelservice/games/scopes/base.py:21-24 | scope equality is reflexive, symmetric and transitive, coincides with (kind, pk) identity, and is false against an object lacking the attributes |
| Scopes.EqualScopesHashAlike | modelservice/games/scopes/base.py:29-31 | equal scopes have the same hash key |
| Scopes.HashKeyDeterminesKind | modelservice/games/scopes/base.py:29-31 | the text of the hash key before its first colon is the resource name |
| Scopes.HashKeysCollide | modelservice/games/scopes/base.py:29-31 | the key does not determine the pk: ids 1 and "1" give the same key though the scopes are unequal |
| Scopes.RouteSegmentsWithPk | modelservice/games/scopes/base.py:246-251 | the topic of a scope with a pk, cut from the right, gives back the name, the pk and the kind part |
| Scopes.RouteSegmentsWithoutPk | modelservice/games/scopes/concrete.py:498-501 | the topic of the game, or of a scope without a pk, gives back the name and the kind |
| Scopes.RouteNamesDistinct | modelservice/games/scopes/base.py:246-251 | one scope's topics for different names differ |
| Scopes.ExportRoundTrip | modelservice/games/scopes/base.py:346-357 | the export carries the pk, the whole json and the resource name, so the scope can be rebuilt from it |
| Scopes.ScopeTree | modelservice/games/scopes/base.py:298-324 | the tree of a scope starts with its own export; its children are the trees of the visible child scopes |
| Scopes.TreesSpine | modelservice/games/scopes/base.py:321-323 | the children list of a group is the trees of its scopes one by one, in order |
| Scopes.GroupTreesSpine | modelservice/games/scopes/base.py:304-323 | the children of a tree are, group after group, the trees of the visible children |
| Scopes.ScopeTreeSpine | modelservice/games/scopes/base.py:298-324 | the tree of a scope is its export followed by one subtree per visible child, in child-kind order and then insertion order |
| Scopes.VisibleWithin | modelservice/games/scopes/base.py:309-320 | every visible child belongs to one of the groups, is of a kind not excluded and is accessible to the user |
| Scopes.VisibleChildrenMeaning | modelservice/games/scopes/base.py:298-324 | with consistent indexes, the children of a tree are exactly the scopes referencing this one, of child kinds not excluded, that the user may access |
| Scopes.GroupForUser | modelservice/games/scopes/base.py:317 | the group a tree walks is what for_user keeps of the child group |
| Scopes.GetPkSavesOnlyWhenMissing | modelservice/games/scopes/base.py:90-93 | the store is consulted only for a payload without an id, and the pk is json.get('id') afterwards |
| Traversing.Container | modelservice/games/scopes/concrete.py:503-508 | game.scopes[kind] is a container of scopes of that kind |
| Traversing.ContainerMembers | modelservice/games/scopes/concrete.py:503-508 | every member of a container is of the container's kind |
| Traversing.GetScope | modelservice/games/scopes/concrete.py:503-508 | get_scope(kind, pk) returns the loaded scope of that kind with that id, or raises ScopeNotFound |
| Traversing.Referenced | modelservice/games/scopes/concrete.py:74-84 | a reference property is None when the field is null, otherwise the referenced scope, and raises ScopeNotFound when it is not loaded |
| Traversing.FirstNonNull | modelservice/games/scopes/traversing.py:22-27 | the chosen parent field is the first one whose value is not null, the last one when all are null; a missing field raises KeyError |
| Traversing.FirstNonNullPicks | modelservice/games/scopes/traversing.py:22-27 | the chosen field follows only null fields and is not null, or is the last field when all of them are null |
| Traversing.FirstNonNullRaises | modelservice/games/scopes/traversing.py:25 | reaching a missing field after only null fields raises KeyError |
| Traversing.ParentOf | modelservice/games/scopes/traversing.py:17-38 | the parent is None for the game; the game itself for a `game` field with the game's pk; else the loaded scope, ParentScopeNotFound when it is missing |
| Traversing.ParentResolution | modelservice/games/scopes/traversing.py:29-38 | the parent of a non-game scope is the scope its first non-null field names, and a lookup miss surfaces as ParentScopeNotFound, never as a plain ScopeNotFound |
| Traversing.WalkToRun | modelservice/games/scopes/traversing.py:60-63 | the climb stops at a run or at a scope without a parent |
| Traversing.RunOf | modelservice/games/scopes/traversing.py:50-63 | run is None for the game, a phase and a role; a scenario without a world takes its runuser's run; anything else climbs |
| Traversing.WalkToWorld | modelservice/games/scopes/traversing.py:118-119 | the climb stops at a world or at a scope without a parent |
| Traversing.WorldOf | modelservice/games/scopes/traversing.py:105-124 | world is None above the world level, the own field for a runuser or scenario, and otherwise the world on the way up, or None when there is none |
| Traversing.WorldOfWorld | modelservice/games/scopes/traversing.py:116-124 | a world whose parent resolves is its own world |
| Traversing.RunOfRun | modelservice/games/scopes/traversing.py:60-63 | a run whose `game` field holds the game's pk is its own run |
| Traversing.WalkThroughWorld | modelservice/games/scopes/traversing.py:60-63 | the climb to the run passes through the world the climb to the world stops at |
| Traversing.RunOfBelowWorld | modelservice/games/scopes/traversing.py:50-124 | a period, decision or result below a world belongs to that world's run |
| Traversing.GetRunUsers | modelservice/games/scopes/traversing.py:126-169 | get_runusers: the game gives all runusers, a run those of its pk, a world its own with `leader is False` and otherwise its run's, a runuser itself; deeper kinds ask their world, else their run, else ValueError |
| Traversing.UserIds | modelservice/games/scopes/traversing.py:186 | the `user` field of each runuser, in order, or KeyError on the first runuser without one |
| Traversing.GetRunUsersOfRun | modelservice/games/scopes/traversing.py:135-138 | a game sees every runuser, a runuser only itself, a run exactly the runusers whose `run` is its pk |
| Traversing.RunUserFilter | modelservice/games/scopes/traversing.py:138-151 | filtering the runusers on run or world keeps exactly those with that value |
| Traversing.GetRunUsersOfWorld | modelservice/games/scopes/traversing.py:139-151 | with leader False a world sees the runusers whose world is its pk; with any other leader value, those of its parent run |
| Traversing.GetRunUsersDelegates | modelservice/games/scopes/traversing.py:154-169 | a scope below the world asks its world when it has one, else its run; a phase or a role raises ValueError |
| Traversing.UserIdsOfRunUsers | modelservice/games/scopes/traversing.py:171-187 | get_user_ids lists the user of each runuser get_runusers gives, in order |
| Traversing.RunUsersOfRunLevel | modelservice/games/scopes/traversing.py:65-74 | the runusers property of a run, a world or a runuser is the runusers of the owning run |
| Traversing.RunUsersOf | modelservice/games/scopes/traversing.py:65-103 | the runusers are None exactly for a phase and a role, and every scope listed is a runuser |
| Traversing.ScenarioOf | modelservice/games/scopes/traversing.py:86-103 | the scenario a scenario, period, decision or result reads its runusers from: the scenario itself, the period's parent, or the parent of the decision's or result's period; lookup failures raise KeyError or ParentScopeNotFound |
| Traversing.RunUsersOfScenario | modelservice/games/scopes/traversing.py:86-103 | a scenario, period, decision or result has the runusers of its scenario's world when the scenario has one, otherwise the scenario's runuser alone, otherwise AttributeError, and the error of any failed lookup on the way; phases and roles have None |
| Traversing.ChildParentInverse | modelservice/games/scopes/traversing.py:40-48 | the child kinds of a kind are exactly the kinds naming it as a candidate parent |
| Traversing.ChildGroups | modelservice/games/scopes/traversing.py:40-48 | child_scopes filters each child container by {own kind: own pk} |
| Traversing.ChildScopesShape | modelservice/games/scopes/traversing.py:40-48 | one group per child kind, in order, each of scopes of that kind |
| Traversing.ChildGroupMeaning | modelservice/games/scopes/traversing.py:45-47 | with consistent indexes, the group of a child kind holds exactly the scopes of that kind whose field for this kind is this pk |
| Traversing.ChildGroupsMeaning | modelservice/games/scopes/traversing.py:40-48 | the same holds of every group of child_scopes |
| Traversing.ForUserMeaning | modelservice/games/scopes/managers.py:82-91 | for_user keeps, in insertion order, exactly the members whose get_user_ids(leader=user.runuser.leader) contains the user's pk |
| Traversing.Traversal.Parent | modelservice/games/scopes/traversing.py:17-38 | the cached parent is computed on the first successful read and returned unchanged afterwards |
| Traversing.Traversal.Run | modelservice/games/scopes/traversing.py:50-63 | the climbing loop computes exactly RunOf |
| Traversing.Traversal.World | modelservice/games/scopes/traversing.py:105-124 | the climbing loop computes exactly WorldOf |
| Traversing.ParentIsMemoised | modelservice/games/scopes/traversing.py:17-18 | once read, the cached parent survives any later change to the game's containers |
| Games.CollectMembers | modelservice/games/scopes/concrete.py:477-479 | the start list of restore is the members of every container, container after container, in insertion order |
| Games.PayloadsListLoaded | modelservice/games/scopes/concrete.py:543-545 | get_phases lists one payload per loaded phase, in insertion order |
| Games.ListScopesMeaning | modelservice/games/scopes/concrete.py:551-560 | list_scopes lists every loaded scope under its kind and pk with its payload, and nothing else |
| Games.Game.constructor | modelservice/games/scopes/concrete.py:376-379 | a new game holds its payload and empty containers and has sent nothing |
| Games.Game.Store | modelservice/games/scopes/concrete.py:512 | the scope is added to the container of its kind |
| Games.Game.StoreAndStart | modelservice/games/scopes/concrete.py:511-513 | one pass of add_scopes: the scope is stored, then its start is sent |
| Games.Game.AddScopes | modelservice/games/scopes/concrete.py:510-513 | the containers and the outbox become the pure AddAll of the old graph, one start per scope in order |
| Games.Game.StopAndRemove | modelservice/games/scopes/concrete.py:516-518 | one pass of remove_scopes: the scope's stop is sent, then it is removed from its container |
| Games.Game.RemoveScopes | modelservice/games/scopes/concrete.py:515-518 | the new state is the pure RemoveScopes of the old one; the first removal that raises ends the loop with that error |
| Games.Game.Tell | modelservice/games/scopes/base.py:128-134 | each target publishes the notice about the scope, in order |
| Games.Game.Notify | modelservice/games/scopes/base.py:124-134 | the world hears the notice first when there is one, then every runuser |
| Games.Game.AddChildScope | modelservice/games/scopes/base.py:110-138 | the new state is the pure AddChildScope: the scope is added and started, then its world and runusers hear add_child |
| Games.Game.AddNewChildScope | modelservice/games/scopes/base.py:223-244 | the payload is stamped with the parent's pk, the child created and passed to add_child_scope |
| Games.Game.AddChildWebhook | modelservice/games/scopes/base.py:194-209 | nothing happens when the scope is loaded already, otherwise a new child is added |
| Games.Game.RemoveNotify | modelservice/games/scopes/base.py:148-164 | the notices remove sends, ParentScopeNotFound being swallowed in each block |
| Games.Game.Remove | modelservice/games/scopes/base.py:140-166 | the new state is the pure Remove: the notices, then remove_scopes(self) |
| Games.Game.UpdatePubsub | modelservice/games/scopes/concrete.py:281-289 | the notices of update_child; a run also tells each of its worlds |
| Games.Game.UpdateWebhook | modelservice/games/scopes/base.py:219-221 | the loaded object takes the payload, then update_pubsub runs |
| Games.Game.UnloadTree | modelservice/games/scopes/base.py:332-344 | each child group in turn, each child's subtree, then the scope itself is removed |
| Games.Game.UnloadChildGroups | modelservice/games/scopes/base.py:340-342 | the outer loop of _unload_scope_tree equals the pure UnloadGroups |
| Games.Game.UnloadMembers | modelservice/games/scopes/base.py:341-342 | the inner loop of _unload_scope_tree equals the pure UnloadList |
| Games.Game.ReplaceStoredRunUser | modelservice/games/scopes/concrete.py:191-195 | the loaded branch: remove, take the payload, add again |
| Games.Game.CreateRunUserScope | modelservice/games/scopes/concrete.py:203-224 | the ScopeNotFound branch: create, add and start the runuser, then re-create and start the scenarios naming it |
| Games.Game.AddOrUpdateRunUser | modelservice/games/scopes/concrete.py:187-224 | the new state is the pure corrected add_or_update_runuser |
| Games.Game.RunUserDeleted | modelservice/games/scopes/concrete.py:241-253 | the runuser is looked up and removed, with KeyError or ScopeNotFound when it cannot be |
| Games.Game.RunUserChanged | modelservice/games/scopes/concrete.py:255-278 | the id is read, KeyError when missing, then add_or_update_runuser as written |
| Games.Game.AddOrUpdateRunUserAsWritten | modelservice/games/scopes/concrete.py:187-224 | the new state is the pure as-written add_or_update_runuser, AttributeError included |
| Games.Game.Connected | modelservice/games/scopes/base.py:358-370 | the runuser goes online and the scope publishes update_child about it with online true |
| Games.Game.Disconnected | modelservice/games/scopes/base.py:372-392 | the runuser goes offline whether or not it was online, and the scope's world and run hear update_child with online false |
| Games.Game.GetActiveRunUsers | modelservice/games/scopes/base.py:414-425 | one export per runuser of get_runusers(leader): pk, resource name runuser and data whose online flag tells whether it is online; the flag is written into the listed object's payload too |
| Games.Game.StartScopes | modelservice/games/scopes/concrete.py:483-492 | the start loop of restore sends one start per collected scope, in order |
| Games.Game.Restore | modelservice/games/scopes/concrete.py:469-492 | each endpoint is restored in order and its container set; a failing endpoint ends restore with its error; then every scope is started |
| Games.Game.RestoreEndpoints | modelservice/games/scopes/concrete.py:470-474 | the containers loop of restore: each endpoint's container is set in turn as RestoreContainers says, the first failing endpoint ends it with its error, and nothing is sent on the bus |
| Games.Game.MovePhase | modelservice/games/scopes/concrete.py:336-347 | the neighbour phase's pk is written into json['phase'] and the saved payload taken back |
| Games.Game.AdvancePhase | modelservice/games/scopes/concrete.py:336-340 | the run moves to the phase of the next order, or raises what get_next_phase raises |
| Games.Game.RollbackPhase | modelservice/games/scopes/concrete.py:343-347 | as intended, with get_previous_phase awaited: the run moves to the phase of the previous order |
| Games.Game.RollbackPhaseAsWritten | modelservice/games/scopes/concrete.py:343-347 | as written: reading .pk of the un-awaited coroutine raises AttributeError and nothing changes |
| Lifecycle.SetContainer | modelservice/games/scopes/concrete.py:473-474 | setting a container replaces exactly that kind's container |
| Lifecycle.Put | modelservice/games/scopes/concrete.py:512 | add to the container of the scope's kind; no other container changes |
| Lifecycle.AddAll | modelservice/games/scopes/concrete.py:510-513 | the containers after add_scopes, with one start event per scope |
| Lifecycle.RemoveKeepsShape | modelservice/games/scopes/managers.py:121-124 | a failed removal keeps the primary map, a successful one drops the slot; either way the container keeps its shape |
| Lifecycle.RemoveScopes | modelservice/games/scopes/concrete.py:515-518 | each scope is stopped and then taken out of its container; the first removal that raises ends the loop |
| Lifecycle.AddChildScope | modelservice/games/scopes/base.py:110-138 | add and start the scope, then tell its world and runusers add_child |
| Lifecycle.AddNewChildScope | modelservice/games/scopes/base.py:223-244 | the payload stamped with the parent's pk becomes a new child scope |
| Lifecycle.AddChildWebhook | modelservice/games/scopes/base.py:194-209 | nothing when the scope is loaded, otherwise a new child; KeyError for a payload without id |
| Lifecycle.Remove | modelservice/games/scopes/base.py:140-166 | the notices, then remove_scopes(self) |
| Lifecycle.UpdateWebhook | modelservice/games/scopes/base.py:219-221 | the loaded object takes the payload without re-indexing, then update_pubsub |
| Lifecycle.Unload | modelservice/games/scopes/base.py:332-344 | each child group in turn, depth first, then the scope; nothing is published |
| Lifecycle.AddOrUpdateRunUser | modelservice/games/scopes/concrete.py:187-224 | corrected: a loaded runuser is removed, takes the payload and is added again; an unknown one is created and started and the loaded scenarios naming it are re-created from their payloads and started |
| Lifecycle.ReplaceRunUser | modelservice/games/scopes/concrete.py:191-195 | the loaded-runuser branch |
| Lifecycle.CreateRunUser | modelservice/games/scopes/concrete.py:203-224 | the ScopeNotFound branch |
| Lifecycle.AddOrUpdateRunUserAsWritten | modelservice/games/scopes/concrete.py:187-224 | as written: the scenario loop reads `.payload` of a scope object, which raises AttributeError |
| Lifecycle.RunUserDeleted | modelservice/games/scopes/concrete.py:241-253 | the runuser leaves and is removed, with no notice to anyone |
| Lifecycle.RunUserChanged | modelservice/games/scopes/concrete.py:255-278 | the id is read, KeyError when missing, then add_or_update_runuser as written |
| Lifecycle.NotifyTells | modelservice/games/scopes/base.py:124-134 | the notices go to the world first when there is one, then to every runuser, each about the scope; they complete exactly when both lookups succeed |
| Lifecycle.NewChildStamped | modelservice/games/scopes/base.py:234-242 | the child created from a payload with an id keeps that id and the payload, stamped with the parent's pk under the parent's kind |
| Lifecycle.AddChildWebhookEffect | modelservice/games/scopes/base.py:194-209 | a payload without id raises KeyError and changes nothing; a loaded (kind, id) changes nothing; otherwise the stamped child takes the slot of its id, no other container changes |
| Lifecycle.AddChildWebhookIdempotent | modelservice/games/scopes/base.py:194-209 | a second add_child_webhook of the same payload changes nothing |
| Lifecycle.SetContainerShrinks | modelservice/games/scopes/concrete.py:515-518 | replacing one container by one with fewer pks shrinks the graph |
| Lifecycle.RemoveScopesOne | modelservice/games/scopes/concrete.py:515-518 | remove_scopes of one scope: it leaves, and its container is the removal's result |
| Lifecycle.RemoveScopesEffect | modelservice/games/scopes/concrete.py:515-518 | only leave events, one per scope removed and in order; no container gains a pk; when every removal succeeds each scope's pk has left its container |
| Lifecycle.Leaves | modelservice/games/scopes/concrete.py:517 | one leave event per scope |
| Lifecycle.RemovePhaseOrRole | modelservice/games/scopes/base.py:156-161 | removing a phase or role raises TypeError iterating the missing runusers, before anything is removed |
| Lifecycle.RemoveEffect | modelservice/games/scopes/base.py:140-166 | the world and runusers hear remove_child before the scope leaves; a failing notice removes nothing; a completed removal takes exactly the scope's slot |
| Lifecycle.RemoveNoticesTell | modelservice/games/scopes/base.py:148-164 | every notice of remove is remove_child about the scope |
| Lifecycle.RemoveLoaded | modelservice/games/scopes/base.py:140-166 | with consistent indexes, removing a loaded scope whose notices go through succeeds and keeps the indexes consistent |
| Lifecycle.UpdateWebhookEffect | modelservice/games/scopes/base.py:219-221 | the loaded slot takes the payload while the order and every bucket stay (no re-indexing), no other container changes, and every event tells update_child about the new payload |
| Lifecycle.UpdatePubsubTells | modelservice/games/scopes/concrete.py:281-289 | update_pubsub tells only update_child; a scope other than a run sends just its notices; a run whose notices complete then tells each of its worlds after them, or raises the world filter's error |
| Lifecycle.UnloadEffect | modelservice/games/scopes/base.py:332-344 | _unload_scope_tree publishes nothing, never adds a pk, and when it completes the scope is gone from its container |
| Lifecycle.UnloadGroupsEffect | modelservice/games/scopes/base.py:340-342 | when every child group completes, every child in them is gone |
| Lifecycle.SetContainerConsistent | modelservice/games/scopes/concrete.py:473-474 | replacing a container by a consistent one keeps the graph consistent |
| Lifecycle.RunUserDeletedEffect | modelservice/games/scopes/concrete.py:241-253 | a payload without id raises KeyError and an unloaded runuser ScopeNotFound, changing nothing; nothing is published; on completion the runuser is gone and no other container changed |
| Lifecycle.AddOrUpdateExisting | modelservice/games/scopes/concrete.py:191-195 | a loaded runuser is removed and re-added with the new payload, so its run and world buckets follow the new values; nothing is sent and no other container changes |
| Lifecycle.ReAddWithPayload | modelservice/games/scopes/concrete.py:193-195 | removing a stored scope and adding one with the same pk and kind keeps a consistent container consistent and replaces the slot |
| Lifecycle.AddAllLoaded | modelservice/games/scopes/concrete.py:510-513 | re-adding scopes loaded as they are changes no container |
| Lifecycle.AddOrUpdateNew | modelservice/games/scopes/concrete.py:203-224 | corrected: an unknown runuser is added and started, and the scenarios re-created are exactly the loaded scenarios whose runuser is its pk, started after it |
| Lifecycle.AsWrittenFailsOnScenarios | modelservice/games/scopes/concrete.py:216-222 | as written, an unknown runuser named by one loaded scenario makes add_or_update_runuser fail with AttributeError after the runuser was added and started, while the corrected version completes |
| Presence.Marked | modelservice/games/scopes/base.py:364-368 | the runuser's payload with online set, as the presence notices carry it |
| Presence.DisconnectNoticesTell | modelservice/games/scopes/base.py:384-391 | every disconnection notice is update_child about the runuser with online false; the world hears first and the run last; both are told exactly when both lookups succeed |
| Presence.MarkOne | modelservice/games/scopes/base.py:420 | the payload write of get_active_runusers lands on the loaded runuser stored under that pk |
| Presence.MarkAll | modelservice/games/scopes/base.py:418-424 | the writes of the whole loop, in list order |
| Presence.MarkAllOnlyOnline | modelservice/games/scopes/base.py:414-425 | get_active_runusers changes nothing but online entries of loaded runusers: no scope is added or dropped and no bucket moves |
| Presence.OnlyOnlineKeepsConsistent | modelservice/games/scopes/constants.py:24 | online is not a filter attribute of a runuser, so graphs differing only there are equally consistent |
| Restoring.PagesBoundIrrelevant | modelservice/games/scopes/concrete.py:435-445 | the page bound only decides whether the chain is seen to end: a larger bound gives the same pages |
| Restoring.PagesOfLastPage | modelservice/games/scopes/concrete.py:439-445 | a page without a next link is the last one: its items are all |
| Restoring.FetchAll | modelservice/games/scopes/concrete.py:434-445 | the fetch loop accumulates the items of every page, following next links until there is none |
| Restoring.Created | modelservice/games/scopes/base.py:459-463 | scope_class.create(json=payload) gives a scope of that kind; a payload without id is replaced by the saved answer |
| Restoring.CreateScopes | modelservice/games/scopes/concrete.py:447-452 | the scope loop creates one scope per fetched payload, in order |
| Restoring.RestoredMeaning | modelservice/games/scopes/concrete.py:454-466 | corrected: restore_endpoint succeeds exactly when every payload makes an indexable scope and no two share an id; the manager then lists the created scopes in fetch order; a shared id raises ScopesNotLoaded |
| Restoring.AsWrittenRaisesTypeError | modelservice/games/scopes/concrete.py:460-466 | as written, a shared id raises TypeError, because ScopesNotLoaded refuses keyword arguments; on every other input the code and the corrected restore agree |
| Restoring.SharedIdRaisesTypeError | modelservice/games/scopes/concrete.py:460-466 | two fetched payloads with id 1 make the code raise TypeError where ScopesNotLoaded was meant |
| Restoring.RestoreEndpoint | modelservice/games/scopes/concrete.py:431-466 | corrected: the method computes exactly the pure corrected restore of the endpoint's pages |
| Restoring.EndpointsCoverKinds | modelservice/games/scopes/concrete.py:601-611 | every non-game kind has exactly one endpoint, named by its plural |
| Restoring.RestoreContainers | modelservice/games/scopes/concrete.py:470-474 | each endpoint's container is set in turn; the first failing endpoint raises and the earlier ones stay set |
| Restoring.RestoreContainersStatus | modelservice/games/scopes/concrete.py:470-474 | the containers loop raises exactly when some endpoint fails |
| Restoring.RestoreContainersOthers | modelservice/games/scopes/concrete.py:470-474 | a kind without an endpoint keeps its container |
| Restoring.RestoreContainersMembers | modelservice/games/scopes/concrete.py:470-474 | a successful restore leaves in each endpoint's container exactly the manager restored from its pages |
| Restoring.RestoreGame | modelservice/games/scopes/concrete.py:469-492 | the containers, then every restored scope started, container after container; nothing is started when an endpoint fails |
| Restoring.RestoreGameStatus | modelservice/games/scopes/concrete.py:469-492 | restore succeeds exactly when every endpoint restores, starts nothing when it fails, and never touches the game scope |
| Restoring.RestoreGameContents | modelservice/games/scopes/concrete.py:469-492 | a successful restore holds the restored manager in each endpoint's container and starts exactly the created scopes, endpoint after endpoint and in fetch order |
| Registries.RegisterThenLookup | modelservice/base.py:4-13 | a fresh key is stored and read back; every other key reads as before; a key already there raises ValueError and nothing changes |
| Registries.RegisterUnregisterRoundTrip | modelservice/base.py:4-10 | registering a fresh key and unregistering it gives the dictionary back, and the key can be registered again |
| Registries.UnregisterDropsKey | modelservice/base.py:9-10 | unregister drops exactly the key; a second unregister raises KeyError |
| Registries.WampEntry | modelservice/base.py:22-26 | the record stored is {func, options, name: key}, or TypeError when there is no options class to call |
| Registries.WampRegisterStores | modelservice/base.py:19-26 | a fresh key stores the record; a repeated key raises ValueError whatever the options class |
| Registries.Registry.Register | modelservice/base.py:4-7 | the dictionary becomes the pure registration of the key |
| Registries.Registry.Unregister | modelservice/base.py:9-10 | the dictionary loses the key, KeyError when it is absent |
| Registries.Registry.Get | modelservice/base.py:12-13 | the stored value, or KeyError |
| Registries.WampRegistry.Register | modelservice/base.py:19-26 | the dictionary becomes the pure wamp registration of the key |
| Registries.RegisterDecorator.Call | modelservice/base.py:37-40 | the decorator registers the function under its arguments and returns it unchanged |
| Registries.SharedKeyClash | modelservice/base.py:2 | the callee, pubsub and game registries share one class-level dictionary, so a key taken through one is refused through another |
| Webhooks.OwnDictionaryIsSeparate | modelservice/webhooks.py:15-22 | the webhook registry rebinds its own dictionary of lists: a key the games' registry refuses a second time with ValueError takes both handlers there, in registration order |
| Registries.MakeRegistration | modelservice/games/registry.py:8-12 | MethodRegistration raises TypeError when the method is not a function, the name not a string or the options not a dict |
| Registries.MethodRegistry.Add | modelservice/games/registry.py:15-18 | a valid registration is appended; an invalid one raises TypeError and the list is unchanged |
| Registries.ScopeRegistration.constructor | modelservice/games/registry.py:21-25 | three separate, empty method lists |
| GameClasses.LastOfKind | modelservice/games/scopes/concrete.py:597-598 | the last supplied class of a kind, if any |
| GameClasses.KeyedMeaning | modelservice/games/scopes/concrete.py:597-598 | every kind maps to the last class of that kind, or keeps its default entry |
| GameClasses.DefaultsCoverKinds | modelservice/games/scopes/concrete.py:622-632 | each default class serves its own kind, no two the same kind, none the game |
| GameClasses.LastOfDistinct | modelservice/games/scopes/concrete.py:597-598 | with distinct kinds, the last class of a kind is its only one |
| GameClasses.ClassTableMeaning | modelservice/games/scopes/concrete.py:594-600 | each kind is served by the last supplied class of that kind, or else by its default; the game has an entry only when a class for it is supplied |
| GameClasses.EndpointClasses | modelservice/games/scopes/concrete.py:602-612 | endpoint_to_classes lists the endpoints in their fixed order, each with the table's class for its kind |
| GameClasses.TableCoversEndpoints | modelservice/games/scopes/concrete.py:602-612 | every endpoint's kind has a class in any table register builds |
| GameClasses.GameClass.Register | modelservice/games/scopes/concrete.py:582-614 | both tables are written before the registry, so a refused slug still leaves them set |
| Phases.FirstWithPk | modelservice/games/scopes/concrete.py:180-185 | the first phase whose pk equals the value |
| Phases.CurrentPhaseMeaning | modelservice/games/scopes/concrete.py:180-185 | the current phase is the loaded phase the run's phase field names; there is none exactly when no phase has that pk |
| Phases.OrderMatches | modelservice/games/scopes/concrete.py:296-297 | every phase's order is read, so a phase without one raises KeyError |
| Phases.FirstMatchIsEarliest | modelservice/games/scopes/concrete.py:296-297 | the first match is the earliest phase of that order |
| Phases.GetPhaseMeaning | modelservice/games/scopes/concrete.py:291-297 | get_phase raises ValueError without a current phase, KeyError on a missing field, IndexError when no phase has the order, and otherwise returns the earliest phase of that order |
| Phases.NeighbourMeaning | modelservice/games/scopes/concrete.py:299-318 | the neighbour is a loaded phase whose order is the current order plus delta; with none the error is ValueError, never IndexError |
| Phases.NeighbourInverse | modelservice/games/scopes/concrete.py:299-318 | stepping by delta and then by -delta comes back to the starting phase when pks and orders are unique |
| Phases.Rewrite | modelservice/games/scopes/concrete.py:338 | a loaded scope takes a new payload in place: same slot, same buckets |
| Phases.Moved | modelservice/games/scopes/concrete.py:336-347 | the neighbour phase's pk goes into the run's phase field and the saved answer replaces the payload |
| Phases.MovedChangesOnlyTheRun | modelservice/games/scopes/concrete.py:336-347 | the phase change leaves every container but the runs' alone, and the runs' keeps its slots and buckets |
| Phases.RewriteTwice | modelservice/games/scopes/concrete.py:338-339 | of two rewrites of one scope only the second shows |
| Phases.RewriteSame | modelservice/games/scopes/concrete.py:338-339 | rewriting a scope with its own payload changes nothing |
| Phases.RewriteKeepsPhases | modelservice/games/scopes/concrete.py:338-339 | rewriting a run leaves the phases as they were |
| Phases.MovedByEcho | modelservice/games/scopes/concrete.py:336-340 | with a save that answers what it is sent, a move writes the neighbour's pk into the run's payload and nothing else |
| Phases.MovedBackByEcho | modelservice/games/scopes/concrete.py:343-347 | moving a rewritten run back to its previous payload gives the graph back |
| Phases.AdvanceThenRollback | modelservice/games/scopes/concrete.py:336-347 | advancing writes the next phase's pk and the intended rollback then restores the graph exactly |
| Phases.RollbackAsWrittenKeepsAdvance | modelservice/games/scopes/concrete.py:343-347 | after an advance the rollback as written fails and the run stays at the advanced phase, where the intended rollback would return |
| Webhooks.AppendedMeaning | modelservice/webhooks.py:20-22 | registering keeps the key's earlier handlers, adds the new one last and leaves other keys alone, so a key registered twice keeps both handlers |
| Webhooks.CallsMeaning | modelservice/webhooks.py:56-58 | one call per handler, each with the same payload |
| Webhooks.RegisterThenDispatch | modelservice/webhooks.py:20-58 | a handler registered for an event is called last when the event is dispatched, after the ones registered before it |
| Webhooks.Fields | modelservice/webhooks.py:44-46 | event, data and ref are read in that order, KeyError on the first missing one |
| Webhooks.WebhookRegistry.Register | modelservice/webhooks.py:20-22 | the handler is appended to its key's list |
| Webhooks.WebhookRegistry.Unregister | modelservice/base.py:9-10 | the whole list of the key is popped, KeyError when absent |
| Webhooks.WebhookRegistry.Get | modelservice/webhooks.py:18 | reading an absent key of the defaultdict inserts an empty list for it |
| Webhooks.Hook.Apply | modelservice/webhooks.py:157-158 | applying the hook decorator registers the function under the key and returns it |
| Webhooks.ParseEvent | modelservice/webhooks.py:72-75 | a user event is cut once from the right into exactly two parts; any other event must give three parts when cut twice from the right; otherwise ValueError |
| Webhooks.ParseScopeEvent | modelservice/webhooks.py:75 | an event prefix.resource.action not starting with user parses to (resource, action) whatever dots the prefix holds |
| Webhooks.ParseUserEvent | modelservice/webhooks.py:73 | a user event resource.action parses to (resource, action); one with a further dot raises ValueError |
| Webhooks.ParseShortEvent | modelservice/webhooks.py:75 | an event with fewer than two dots, not of a user, raises ValueError |
| Webhooks.RunUserForwarded | modelservice/webhooks.py:32-41 | the run named by data['run'] handles runuser_<action>; an unloaded run, or ScopeNotFound from the handler, ends quietly; a deleted body needs only its id and run |
| Webhooks.ParsedActionIsLastPart | modelservice/webhooks.py:38-39 | the action parsed from an event is its text after the last dot, the one forward_runuser dispatches on |
| Webhooks.RunUserCreatedEscapes | modelservice/webhooks.py:32-41 | the AttributeError of add_or_update_runuser escapes forward_runuser, after the new runuser was added and started |
| Webhooks.RunUsersForwarded | modelservice/webhooks.py:83-84 | forward_runuser for each runuser listed, in order; the first exception ends the loop |
| Webhooks.Acted | modelservice/webhooks.py:107-151 | one parent field's action: create under the game or the loaded parent, delete or change the loaded scope |
| Webhooks.ParentsForwarded | modelservice/webhooks.py:98-151 | a null parent field is skipped; otherwise the action runs, ScopeNotFound ends the forward quietly, any other exception propagates |
| Webhooks.Forwarded | modelservice/webhooks.py:60-151 | forward: parse the event; users and runusers are forwarded to their runs; a game event returns; then the parent loop |
| Webhooks.NullParentsDoNothing | modelservice/webhooks.py:99-102 | with every parent field null the loop does nothing, for any action |
| Webhooks.AbsentScopeIsIgnored | modelservice/webhooks.py:125-151 | a delete or change of a scope that is not loaded does nothing, so a repeated delete is harmless |
| Webhooks.MissingParentIsIgnored | modelservice/webhooks.py:107-123 | a create under a parent that is not loaded does nothing |
| Webhooks.OneParentLoop | modelservice/webhooks.py:98-151 | with one candidate parent, set, and an id, the loop is the action alone |
| Webhooks.ActDeleted | modelservice/webhooks.py:125-128 | deleted on a loaded scope is its remove() |
| Webhooks.ActChanged | modelservice/webhooks.py:139-142 | changed on a loaded scope is its update_webhook |
| Webhooks.DeleteThenRepeat | modelservice/webhooks.py:125-137 | deleting a loaded scope is remove(), after which the same event finds nothing to do |
| Webhooks.ChangeIsUpdate | modelservice/webhooks.py:139-142 | a change of a loaded scope of one candidate parent is update_webhook |
| Webhooks.CreateIsAddChild | modelservice/webhooks.py:107-113 | a create under a loaded parent, or the game, is add_child_webhook on that parent |
| Webhooks.GameEventIsIgnored | modelservice/webhooks.py:88-95 | a game event changes nothing |
| Webhooks.UserEventRaises | modelservice/webhooks.py:79-98 | a user event never completes: after its runusers are forwarded the parent table has no entry for user and KeyError is raised |
| Webhooks.ScopeEventIsParentLoop | modelservice/webhooks.py:97-98 | a scope event of an unknown resource raises KeyError and changes nothing; a known one is the parent loop |
| Webhooks.ForwardToLoadedRun | modelservice/webhooks.py:32-41 | under a loaded run, forward_runuser is the run's handler for the action |
| Webhooks.RunUserDeleteForwarded | modelservice/webhooks.py:85-86 | a runuser deleted under a loaded run is removed by runuser_deleted, and the parent loop after it does nothing more |
| Webhooks.CallbackDispatcher.Dispatch | modelservice/webhooks.py:43-58 | reads event, data and ref, then calls each handler of the event in order with the payload |
| Webhooks.CallbackDispatcher.ForwardRunUser | modelservice/webhooks.py:32-41 | the method's effect is RunUserForwarded |
| Webhooks.CallbackDispatcher.ForwardAll | modelservice/webhooks.py:83-84 | the loop's effect is RunUsersForwarded |
| Webhooks.CallbackDispatcher.Act | modelservice/webhooks.py:107-151 | one parent's action has the effect Acted |
| Webhooks.CallbackDispatcher.ActCreated | modelservice/webhooks.py:107-123 | a created scope is added under the game, or under the loaded parent its field names; a parent that is not loaded fails with ScopeNotFound |
| Webhooks.CallbackDispatcher.ActOnLoaded | modelservice/webhooks.py:125-151 | a delete removes, and a change updates, the loaded scope of the payload's id; a scope that is not loaded fails with ScopeNotFound |
| Webhooks.CallbackDispatcher.ParentLoop | modelservice/webhooks.py:98-151 | the loop's effect is ParentsForwarded |
| Webhooks.CallbackDispatcher.Forward | modelservice/webhooks.py:60-151 | the method's effect is Forwarded |
| Webhooks.CallbackDispatcher.WebhookForward | modelservice/games/scopes/concrete.py:570-577 | dispatch, then forward; a body dispatch cannot read is not forwarded |
| Storages.KeyRoundTrip | modelservice/games/storages.py:44-47 | a cache key gives back its endpoint, method and encoded lookup, whatever dots or colons the endpoint holds |
| Storages.GetAndFilterKeysDiffer | modelservice/games/storages.py:44-47 | a get and a filter never share a key |
| Storages.CachedGet | modelservice/games/storages.py:49-77 | a cached payload is returned as is; on a miss the remote is asked once and the answer stored with the timeout |
| Storages.CachedFilter | modelservice/games/storages.py:79-100 | the same for lists, which keep the remote order |
| Storages.CachedGetMeaning | modelservice/games/storages.py:49-77 | a hit asks nothing and leaves the cache alone; a miss asks once, stores exactly that answer, and the next get is a hit returning it |
| Storages.CachedFilterMeaning | modelservice/games/storages.py:79-100 | the same for filter, which never disturbs a get's entry |
| Storages.SaveRequestMeaning | modelservice/games/storages.py:102-109 | later sources win: the argument's fields, then the payload's, then the parent's pk; nothing else is sent |
| Storages.SavedMeaning | modelservice/games/storages.py:102-112 | a non-game scope whose parent resolves saves through its own endpoint with its parent's pk, its payload and the argument |
| Storages.EndpointKind | modelservice/games/storages.py:37 | the kind an endpoint name stands for |
| Storages.EndpointKindOfEndpoints | modelservice/games/scopes/concrete.py:602-612 | every endpoint restore walks names its own kind |
| Storages.ScopesOf | modelservice/games/storages.py:38-42 | one scope of the kind per payload, in order |
| Storages.JsonToScopeMeaning | modelservice/games/storages.py:36-42 | json_to_scope succeeds for an endpoint name whose items all index; the manager holds one slot per distinct id and lists the items in order when no id repeats |
| Storages.Storage.Get | modelservice/games/storages.py:49-77 | cache and remote log become those of CachedGet |
| Storages.Storage.Filter | modelservice/games/storages.py:79-100 | cache and remote log become those of CachedFilter |
| Storages.Storage.Load | modelservice/games/storages.py:114-120 | load is get on the scope's endpoint with timeout 1 |
| Storages.Storage.Save | modelservice/games/storages.py:102-112 | the request is the successive update of the parent's pk, the payload and the argument |
| Storages.Storage.GetUser | modelservice/games/storages.py:122-162 | the method's result and cache effect are UserLookup's |
| Storages.UserLookup | modelservice/games/storages.py:122-162 | the user is fetched through the cache; a scope with no run gets no runuser, a runuser scope its own payload, any other the loaded runuser of (user, run), fetched only when none is loaded |
| Storages.UserLookupMeaning | modelservice/games/storages.py:141-160 | a runuser is attached exactly when the scope has a run; a runuser scope attaches its own payload; the runusers endpoint is asked only when no loaded runuser matches |
| Guest.Pick | modelservice/games/scopes/managers.py:105-110 | get(**criteria) on a scan: the single match, ScopeNotFound for none, MultipleScopesFound for several |
| Guest.MeIn | modelservice/crossbar/guest/__init__.py:225 | game_run.runusers.get(email=authid): the caller's one runuser of that run, or the lookup error |
| Guest.MeMeaning | modelservice/crossbar/guest/__init__.py:223-231 | the runs without the caller are skipped and the one runuser found is answered otherwise |
| Guest.NextMeaning | modelservice/crossbar/guest/__init__.py:223-231 | one pass keeps what was collected and adds at most the runuser found, with its run |
| Guest.CollectedShape | modelservice/crossbar/guest/__init__.py:219-231 | the loop appends, in order, the runuser of every run that has one for the caller, paired with its run |
| Guest.CollectedComplete | modelservice/crossbar/guest/__init__.py:219-231 | every run in which the caller has a runuser is kept |
| Guest.CollectedLeader | modelservice/crossbar/guest/__init__.py:226-227 | the flag tells whether one of the runusers kept has leader True |
| Guest.LeaderAmongAgrees | modelservice/crossbar/guest/__init__.py:111-120 | where the authorize loop completes, _is_authid_leader gives the same answer as its flag |
| Guest.Authorize | modelservice/crossbar/guest/__init__.py:122-280 | the answer of authorize for the URI and action: allow and cache flags, or the error a lookup raises |
| Guest.InitAndErrorAllowed | modelservice/crossbar/guest/__init__.py:133-140 | the caller's own init and error URIs are allowed and cached before anything else is looked at |
| Guest.ChatIsLeaderOnly | modelservice/crossbar/guest/__init__.py:145-160 | because `or "check_user"` is always true, every chat URI is allowed exactly to a leader, and cached either way |
| Guest.ModelUriScreening | modelservice/crossbar/guest/__init__.py:190-216 | a non-chat URI: the game helpers and game calls are allowed, then any register is denied, then phases and roles are allowed, before runusers are looked at |
| Guest.RunUserCheckIgnoresPk | modelservice/crossbar/guest/__init__.py:248-254 | every runuser kept carries the caller's email, so the runuser check allows at its first one without comparing the pk |
| Guest.RunUserUriAllowsAnyPk | modelservice/crossbar/guest/__init__.py:248-258 | a runuser URI is allowed for every pk when the caller has a runuser in some run, and denied and cached otherwise |
| Guest.RunCheckMeaning | modelservice/crossbar/guest/__init__.py:234-245 | for a run URI the caller's first runuser in that run decides by its leader flag; with none, the final uncached deny |
| Guest.WorldUriMeaning | modelservice/crossbar/guest/__init__.py:261-280 | a world the caller is placed in is allowed; otherwise a leader is allowed exactly the worlds of the game's last run |
| Guest.Topics | modelservice/crossbar/guest/__init__.py:308-314 | a leader's topics are its runs, anyone else's its runusers and then its worlds |
| Guest.InitUserScopes | modelservice/crossbar/guest/__init__.py:282-319 | init_user_scopes answers the topics and the leader flag, or the error a lookup raises |
| Guest.ScopesStepMeaning | modelservice/crossbar/guest/__init__.py:291-305 | a pass adds the run's pk once the caller has led, otherwise the runuser's id and truthy world; a run without the caller changes nothing |
| Guest.LeaderCollectsRuns | modelservice/crossbar/guest/__init__.py:295-299 | once a leader is seen the runuser and world sets are frozen and every later run the caller is in adds its pk |
| Guest.NonLeaderCollectsRunUsers | modelservice/crossbar/guest/__init__.py:300-303 | a caller who leads nowhere gets no run topic; every run it is in adds its runuser's id, and its world when truthy |
| ExternalAuth.Hex | modelservice/auth.py:47 | hexdigest gives two lowercase digits per byte, high nibble first |
| ExternalAuth.UnhexHex | modelservice/auth.py:47 | reading the hex text back two digits at a time gives the digest again |
| ExternalAuth.HexInjective | modelservice/auth.py:47 | distinct digests never share a hex text |
| ExternalAuth.ExternalMatch | modelservice/auth.py:7 | the pattern matches the marker at the start and captures the rest of the line; `$` also matches before one final newline, which is not captured |
| ExternalAuth.NoMarkerIsRefused | modelservice/auth.py:31-35 | a value not starting with the marker is refused |
| ExternalAuth.ValidateMeaning | modelservice/auth.py:10-51 | the value is accepted exactly when it is the marker and the hex HMAC of the email, optionally followed by one newline |
| ExternalAuth.AcceptedSuffixIsDigest | modelservice/auth.py:37-47 | an accepted suffix is exactly 64 lowercase hex digits, so the bare marker is refused |
| ExternalAuth.TokenBindsEmail | modelservice/auth.py:40-47 | a token made for one email is accepted for another only when their MACs coincide |
| ExternalAuth.AuthenticateExternalMeaning | modelservice/crossbar/guest/__init__.py:83-96 | the browser role is granted to exactly the token of the authid, with at most one trailing newline, and the ticket becomes the secret |
| Decorators.Either | modelservice/games/decorators.py:12-21 | the caller attribute when the details have it, else the publisher attribute, AttributeError when neither exists |
| Decorators.UserDetails | modelservice/games/decorators.py:12-23 | get_user_details answers (user id, role) read that way, or the AttributeError |
| Decorators.MarkArgs | modelservice/games/decorators.py:26-38 | a callable first argument is the function, with the second argument as topic if any; otherwise the first argument is the topic; no argument raises IndexError |
| Decorators.Exposed | modelservice/games/decorators.py:70 | the exposed name is the topic when truthy, else the function's name |
| Decorators.RegistrationOptionsMeaning | modelservice/games/decorators.py:6-9 | the keyword arguments win; a default stands only where no keyword names it; nothing else appears |
| Decorators.Decorate | modelservice/games/decorators.py:40-81 | the wrapper carries the attribute and the options, and exactly one registration (wrapper, function name, options) is appended to the attribute's list, the other two lists unchanged |
| Decorators.Mark | modelservice/games/decorators.py:26-85 | applied to a function, mark returns the decorated wrapper; given a topic, it returns a decorator; no argument raises IndexError |
| Decorators.Subscribe | modelservice/games/decorators.py:88-89 | mark on the subscribed list: the wrapper exposes the topic or function name, and only the subscribed list grows |
| Decorators.Register | modelservice/games/decorators.py:92-93 | mark on the registered list, the same way |
| Decorators.Hook | modelservice/games/decorators.py:96-97 | mark on the hooked list, the same way |
| Decorators.DecorateAll | modelservice/games/decorators.py:75-79 | decorating methods in order leaves their registrations in declaration order |
| Decorators.ResolutionMeaning | modelservice/games/decorators.py:43-57 | the user is looked up only with details: a profiler's by the popped user_email, which the method then does not see, anyone else's by id when there is one |
| Decorators.WrapAttachesUser | modelservice/games/decorators.py:57-68 | the method always receives the resolved user and never a user of the caller's own, and each of its errors leaves with that user attached |
| Wamp.Kept | modelservice/games/scopes/wamp.py:32-47 | the handles the session grants, in attempt order, never more than were asked for |
| Wamp.KeptMeaning | modelservice/games/scopes/wamp.py:36-47 | a handle is kept exactly when it was requested and the session accepted it |
| Wamp.KeptAll | modelservice/games/scopes/wamp.py:36-47 | with every request accepted every handle is kept |
| Wamp.JoinLeaveIdempotent | modelservice/games/scopes/wamp.py:22-30 | a second join, or a second leave, changes nothing; join leaves the wamp started and leave stopped |
| Wamp.FirstCycle | modelservice/games/scopes/wamp.py:97-104 | from a fresh wamp, join asks for every callee, subscriber and hook in that order and leave releases exactly the granted ones, callees first, hooks with the subscriptions |
| Wamp.SecondCycleReleasesAgain | modelservice/games/scopes/wamp.py:12-30 | the handle lists are never cleared, so after a second join they hold the first join's handles twice and the next leave releases them again |
| Wamp.ScopeWamp.constructor | modelservice/games/scopes/wamp.py:12-20 | empty lists, not started |
| Wamp.ScopeWamp.RegisterCallees | modelservice/games/scopes/wamp.py:32-47 | every callee is attempted in order, granted ones appended, refused ones only logged |
| Wamp.ScopeWamp.SubscribeAll | modelservice/games/scopes/wamp.py:53-91 | every subscriber or hook topic is attempted in order, granted ones appended to the subscriptions |
| Wamp.ScopeWamp.ReleaseAll | modelservice/games/scopes/wamp.py:49-51 | every handle of the list is released, in order |
| Wamp.ScopeWamp.Join | modelservice/games/scopes/wamp.py:22-25 | the new state is Joined of the old one |
| Wamp.ScopeWamp.Leave | modelservice/games/scopes/wamp.py:27-30 | the new state is Left of the old one |
| Instruments.TimerStep | modelservice/utils/instruments.py:61-75 | start raises RuntimeWarning on a stopped timer; pause raises it unless running; stop sets the state before reading start_time, so stopping a timer never started leaves it stopped with AttributeError; elapsed grows by the interval |
| Instruments.ContextManagerTimesBlock | modelservice/utils/instruments.py:46-51 | a with-block is timed from entry to exit |
| Instruments.PauseExcludesInterval | modelservice/utils/instruments.py:28-37 | start at a, pause at b, start at c, stop at d measures (b - a) + (d - c) |
| Instruments.StoppedStaysStopped | modelservice/utils/instruments.py:61-63 | a stopped timer never runs again |
| Instruments.ElapsedNeverShrinks | modelservice/utils/instruments.py:71-75 | with a clock that never goes back, elapsed never shrinks |
| Instruments.Timer.constructor | modelservice/utils/instruments.py:41-44 | state new, elapsed zero |
| Instruments.Timer.Start | modelservice/utils/instruments.py:61-65 | the status and new record are TimerStep's for a start |
| Instruments.Timer.Pause | modelservice/utils/instruments.py:67-71 | the status and new record are TimerStep's for a pause |
| Instruments.Timer.Stop | modelservice/utils/instruments.py:73-75 | the status and new record are TimerStep's for a stop |
| Instruments.NewCounter | modelservice/utils/instruments.py:103-116 | ValueError when neither a duration nor a count is given; otherwise no clicks and no start or end time |
| Instruments.CounterStarted | modelservice/utils/instruments.py:118-122 | start records the time and, for a duration counter, the end time duration later |
| Instruments.OnStep | modelservice/utils/instruments.py:139-157 | on starts the counter on first use; a duration counter is on until its end time, a count counter while clicks < count; on counts a click; the first off records the end time and the duration |
| Instruments.CountModeClicks | modelservice/utils/instruments.py:94-98 | in count mode on is true exactly count - clicks more times and then false, ending with clicks == count |
| Instruments.CountModeAfterOff | modelservice/utils/instruments.py:153-156 | once a count counter has turned off it has a duration, so a later read is on exactly when it comes no later than the recorded end |
| Instruments.Counter.On | modelservice/utils/instruments.py:139-157 | the return value and new record are OnStep's |
| Instruments.MakeCounter | modelservice/utils/instruments.py:103-108 | ValueError unless a duration or a count is given, otherwise a counter in NewCounter's state |
| Instruments.ValueOf | modelservice/utils/instruments.py:208 | getattr(stat, attribute, stat): an object's numeric attribute is a number, its string attribute a text and its other attributes neither; an int's real, imag, numerator and denominator are numbers, its `__doc__` is a text and its methods and other attributes are neither; a stat without the attribute is itself |
| Instruments.Least | modelservice/utils/instruments.py:211-212 | the least number of a non-empty list: a member, no greater than any |
| Instruments.Greatest | modelservice/utils/instruments.py:215-216 | the greatest number of a non-empty list: a member, no less than any |
| Strings.LessTotal | modelservice/utils/instruments.py:211-216 | two texts are equal or ordered one way, never both ways, and no text comes before itself |
| Strings.LessTransitive | modelservice/utils/instruments.py:211-216 | the string order is transitive |
| Strings.PrefixComesFirst | modelservice/utils/instruments.py:211-216 | a text comes before any longer text it begins |
| Strings.FirstDifferenceDecides | modelservice/utils/instruments.py:211-216 | after a common prefix, the smaller character decides, whatever follows |
| Instruments.LeastText | modelservice/utils/instruments.py:211-212 | the least text of a non-empty list of texts: a member, no greater than any |
| Instruments.GreatestText | modelservice/utils/instruments.py:215-216 | the greatest text of a non-empty list of texts: a member, no less than any |
| Instruments.MinOf | modelservice/utils/instruments.py:211-212 | min raises ValueError when empty and returns the only value when there is one; with more it is the least number when all are numbers, the least text when all are texts, and raises TypeError otherwise |
| Instruments.MaxOf | modelservice/utils/instruments.py:215-216 | max in the same way, with the greatest number or text |
| Instruments.TotalOf | modelservice/utils/instruments.py:219-220 | sum is 0 when empty and raises TypeError once a non-number, a text included, is added |
| Instruments.TotalAppend | modelservice/utils/instruments.py:219-220 | adding one number to the values adds it to the total |
| Instruments.TimersTotal | modelservice/utils/instruments.py:77-79 | the total of timer stats is the sum of their elapsed times, and the count is how many were pushed |
| Instruments.StatAggregator.constructor | modelservice/utils/instruments.py:188-193 | no stats; the attribute defaults to `__value__` |
| Instruments.StatAggregator.Push | modelservice/utils/instruments.py:203-204 | the value is appended |
| Instruments.StatAggregator.Count | modelservice/utils/instruments.py:222-224 | the count is the number of stats pushed |
| Instruments.DefaultAttributeIsPlain | modelservice/utils/instruments.py:188-191 | the default attribute `__value__` is not an attribute of an int |
| Instruments.PlainNumbersAreValues | modelservice/utils/instruments.py:206-220 | under an attribute ints lack, such as the default `__value__`, plain numbers are their own values, so their min, max and total are those of the numbers pushed |
| Instruments.OtherAttributesOfNumbers | modelservice/utils/instruments.py:206-220 | under an int attribute that is neither a number nor a text, such as `bit_length`, every value is unordered, so sum raises TypeError and with two or more stats min and max raise TypeError |
| Instruments.DocOfNumbers | modelservice/utils/instruments.py:206-220 | under `__doc__` every int gives int's docstring, which is then the min and the max, while sum raises TypeError |
| Instruments.TimerMethodIsNotAValue | modelservice/utils/instruments.py:206-220 | two timers aggregated under their method `start` give two unordered values, and min, max and sum raise TypeError |
| Instruments.TimerStatesAreTexts | modelservice/utils/instruments.py:206-220 | two timers aggregated under `state` give their state names, min and max order them as strings, and sum raises TypeError |
| Instruments.NewAndRunningStates | modelservice/utils/instruments.py:206-216 | for a new timer and a running one, min of the states is 'new' and max is 'running' |
| Instruments.IntAttributesOfNumbers | modelservice/utils/instruments.py:206-220 | under an attribute ints have, numbers are not their own values: with `imag` the total is 0, with `denominator` it is the count |
| Worker.TaskTopicsDistinct | modelservice/crossbar/profiler/worker.py:27-36 | the three topics of a task differ, and each begins with its task name |
| Worker.Range | modelservice/crossbar/profiler/worker.py:115 | list(range(n)) is 0, 1, ..., n - 1 |
| Worker.JoinedGroups | modelservice/crossbar/profiler/worker.py:120-142 | the groups told to the session at position p: all of them for the first session or with one group, otherwise those from (p - 1) mod (N - 1) + 1 on |
| Worker.JoinersMeaning | modelservice/crossbar/profiler/worker.py:120-142 | a session is recorded in group k exactly when its position puts it there |
| Worker.FirstJoinsAll | modelservice/crossbar/profiler/worker.py:120-126 | the first session is in every group |
| Worker.SingleGroupHoldsAll | modelservice/crossbar/profiler/worker.py:128-134 | with one group every session joins it |
| Worker.GroupZeroIsSolo | modelservice/crossbar/profiler/worker.py:112-113 | with several groups, group 0 holds the first session only, when the sessions are distinct |
| Worker.LastGroupHoldsAll | modelservice/crossbar/profiler/worker.py:136-142 | every session joins the last group |
| Worker.GroupsGrow | modelservice/crossbar/profiler/worker.py:112 | a group holds every session of a lower group, so group sizes never decrease with the index |
| Worker.Recorded | modelservice/crossbar/profiler/worker.py:223-235 | task, session and group are read, KeyError when one is missing, and the session is appended to that task's group |
| Worker.StatReceived | modelservice/crossbar/profiler/worker.py:240-242 | setdefault creates the aggregator on the first value for (task, group, stat id) with that call's attribute; every value is pushed into it |
| Worker.SetdefaultKeepsFirst | modelservice/crossbar/profiler/worker.py:241 | a later call's attribute is ignored and the values pile up in order |
| Worker.WorkerComponent.AddToGroups | modelservice/crossbar/profiler/worker.py:125-126 | the session is added to each listed group and no other |
| Worker.WorkerComponent.BuildRoster | modelservice/crossbar/profiler/worker.py:107-142 | IndexError on an empty session list; otherwise every session is told its groups on its join topic, in order, and recorded in exactly those groups |
| Worker.WorkerComponent.JoinGroups | modelservice/crossbar/profiler/worker.py:186-187 | the worker's groups become the list given |
| Worker.WorkerComponent.StartTask | modelservice/crossbar/profiler/worker.py:189-221 | a message for a group the worker is not in is ignored; KeyError without workers; a failure publishes the error report and is re-raised; the done report is published either way |
| Worker.WorkerComponent.WorkerDone | modelservice/crossbar/profiler/worker.py:223-228 | done_tasks becomes Recorded of the message |
| Worker.WorkerComponent.WorkerError | modelservice/crossbar/profiler/worker.py:230-235 | error_tasks becomes Recorded of the message |
| Worker.WorkerComponent.ReceiveStat | modelservice/crossbar/profiler/worker.py:240-242 | stats becomes StatReceived of the call |
| Discovery.MethodPathParts | modelservice/crossbar/profiler/discovery.py:7-19 | the path cut from the right gives back module, class and method, when class and method carry no dot |
| Discovery.TaskMethod | modelservice/crossbar/profiler/discovery.py:22-23 | the named method when the case has it, AttributeError otherwise |
| Discovery.LeavesAreCases | modelservice/crossbar/profiler/discovery.py:36-41 | every pair collected is a test case under its own path |
| Discovery.LeavesOfAppend | modelservice/crossbar/profiler/discovery.py:36-41 | the leaves of two lists of nodes are the leaves of the first followed by those of the second |
| Discovery.NestingFlattens | modelservice/crossbar/profiler/discovery.py:39-40 | a suite nested in a suite contributes its leaves in place |
| Discovery.FlatSuite | modelservice/crossbar/profiler/discovery.py:36-38 | a suite of test cases alone yields each of them, in order |
| Discovery.Memo.Append | modelservice/crossbar/profiler/discovery.py:38 | the pair is appended |
| Discovery.PullTasks | modelservice/crossbar/profiler/discovery.py:26-41 | the leaves of the suite are appended to the given memo, which is returned, or to a new list; a case passed as suite raises AttributeError |

## Left out

- Network, HTTP and the bus. Remote get/filter/create_or_update, user fetches, `register`/`subscribe`/`publish` and bus errors become parameters or outbox entries.
- The `authenticate` password POST and all `chat_*` methods of the guest component are left out, because they are HTTP calls. The `disclose` flag of the authorization answers is not modelled; it is always true.
- Concurrency. The reader/writer locks of the storage are no-ops. The worker's session polling, leader election, `start_group` and `start_workers` (sleep loops), `onJoin` and `_fetch_sessions` are left out. `Worker.WorkerComponent.BuildRoster` takes the session list as a parameter.
- ExternalAuth.ValidateMeaning: HMAC-SHA256 (RFC 2104 over the SHA-256 of FIPS 180-4) is a function parameter, so the proof holds for any keyed MAC, not for SHA-256 in particular.
- Storages.KeyRoundTrip: `encode_dict` (base64 of `json.dumps`, section 4 of RFC 4648) is not computed; the encoded lookup is a parameter. The lemma requires it to hold no `:`, which base64 guarantees, and the method name to hold no dot.
- Storages.CachedGetMeaning: cache expiry by timeout is not modelled. The timeout is recorded with the entry, but no entry ever expires.
- Python's `1 == True` equality between integers and booleans is not modelled anywhere: in the model `Int(1)` and `Bool(true)` differ as manager keys, index bucket values, `_lookup` criteria, authorization comparisons and worker group numbers.
- Guest.Authorize: `int()` parsing of the pk accepts an optional sign and decimal digits only. `self.games[0]` is the graph parameter.
- Guest.InitUserScopes: the topic sets are Dafny sets, so the order of the topics within one set is not modelled.
- Restoring.FetchAll: the chain of `next` links is followed only up to a page bound given as a parameter; Restoring.PagesBoundIrrelevant shows that a larger bound changes nothing.
- Phases.Moved: the save's answer is a parameter, and it is required to keep every field it is sent and the run's id (`KeepsFields`). The source stores whatever the save answers without re-indexing; the model's containers keep every stored scope indexable and under its own pk, so an answer that drops a filter field or changes the id is outside the model. The round-trip lemmas further assume a save that answers with exactly what it is sent.
- Phases.MovedChangesOnlyTheRun: requires `KeepsFields(save)`, as Phases.Moved does.
- Games.Game.MovePhase: requires `KeepsFields(save)`, as Phases.Moved does.
- Games.Game.AdvancePhase: requires `KeepsFields(save)`, as Phases.Moved does.
- Games.Game.RollbackPhase: requires `KeepsFields(save)`, as Phases.Moved does.
- Lifecycle.AddChildWebhook: a webhook payload is required to be indexable, that is, to carry every filter attribute of its kind. A payload that is not indexable is outside the model, because `add_to_index` would raise KeyError in the middle of an add.
- Lifecycle.AddAll: the same indexability is required of every scope added by `add_scopes`, `add_child_scope` and `update_webhook`.
- The handlers `on_runuser_created`, `on_runuser_deleted`, `on_advance_phase`, `on_rollback_phase`, `onStart`, `onStop`, `onConnected` and `onDisconnected` are empty hooks for subclasses. The model treats them as doing nothing.
- `Game.load`, `Game.start`, `subscribe_webhook`, `hello_game`, `get_roles`, `ready` and `get_current_run_and_phase` are left out. They are remote loads, remote webhook subscriptions, logging, or a read that the pure functions already cover.
- Webhooks.Forwarded: the JSON decoding of the webhook body is left out; the body is taken as parsed. `forward` for a user event is given the runusers the games API lists as a parameter.
- The class-level state of the source is held by one object each, not by process-wide globals. This covers `Game.scopes` (one graph per process in the source, shared by every Game, so a second Game starts with the first one's containers), the `online_runusers` set, the `registered`, `subscribed` and `hooked` lists, the `_registry` dictionaries and the worker's tables. The registries share a dictionary by holding the same `Dict` object, as Registries.SharedKeyClash shows.
- `remove_child` and `remove_child_webhook` are left out. They only look the child up and call its `remove`, which is modelled.
- Decorators.WrapAttachesUser: the method does not receive `details`, which in Python stays among its keyword arguments. Functions are identified by name. The `getUser` lookup and the wrapped function are parameters. `e.user` is a field of the outcome value rather than an attribute set on an exception object.
- Wamp.ScopeWamp.Join: the `.format(scope)` over a URI is the identity, because a routing string holds no braces. Unregistering and unsubscribing never fail. The inspector's lists of decorated methods are a parameter, and so are the session's accept answers.
- Instruments.TimerStep: the clock is an integer parameter, not `time.time()`.
- Instruments.OnStep: Counter's `elapsed`, `rate`, `__str__`, `__value__` and its verbosity printing are left out, because they use floats and printing. The duration mode is modelled with the integer clock.
- Instruments.ValueOf: an int's attributes are those of Python 3.6. Later versions add `as_integer_ratio`, `bit_count`, `is_integer` and `__getstate__`, for which the model still gives the number. Any attribute of a value that is neither a number nor a modelled object is taken to be that value.
- Instruments.MinOf: comparing two objects without the attribute raises TypeError in the model. Python would compare them only if they defined an ordering; such objects are not modelled. Values other than ints and strs, such as floats, bools and tuples, are not modelled either.
- Instruments.DocOfNumbers: docstrings are abbreviated to their first line. Every int shares one docstring and every Timer another, so min and max still pick the shared one.
- Instruments.TimerSample: a timer's `name` is a text or None; Python allows any value there.
- Payload.Value: JSON values are null, booleans, integers and strings. Floats, lists and nested objects cannot be represented, so payloads are flat maps of scalars.
- The `statistics` aggregates of StatAggregator (`mean`, `harmonic_mean`, `median*`, `mode`, `pstdev`, `pvariance`, `stdev`, `variance`) are left out, because they use floats. So are its `fmt`-based `__str__` and the worker's `summary` and `publish_stat`.
- Worker.WorkerComponent.StartTask: running the profiler task is the `outcome` parameter. Its attribute assignments (`wamp`, `workers_count`, `group_name`, `publish_stat`) and the sleep before publishing are not modelled.
- `discover_tasks` is left out, because it loads a test suite from the file system. `pull_tasks` works on a suite tree given as a value.
- Restore progress logging and every `log.*` call are left out.
- Managers.Filter: an index bucket is a set of pks and the indexed branch returns the stored scopes in insertion order. In the source a bucket is a Python set of scope objects: it iterates in hash order, which depends on PYTHONHASHSEED, and after a pk is overwritten by a new object it still holds the old one. So neither the order of an indexed filter's result nor which object of a pk it returns is modelled. `child_scopes`, the scope tree and unloading go through this branch.
- Managers.IndexedFilterMatchesScan: same scopes, as pks; the equal order holds in the model only, as the Managers.Filter line says.
- Scopes.ScopeTreeSpine: within one child group the subtrees follow insertion order in the model and set order in the source, as the Managers.Filter line says.
- Traversing.RunUsersOf: a scenario-level scope whose scenario has neither a world nor a runuser raises AttributeError in the model. The source returns `[None]` there, and each of its consumers then fails on the None.
- Games.Game.Notify: the world and runusers told are recomputed from the current graph. The source climbs `my.parent`, a cached_property, so a scope whose world was removed after the scope was added still tells that removed world; the model tells no one there.
- Games.Game.RemoveNotify: the notice targets are recomputed from the current graph, as the Games.Game.Notify line says.
- Games.Game.UpdatePubsub: the notice targets are recomputed from the current graph, as the Games.Game.Notify line says.
- Restoring.RestoreContainers: composes the corrected restore of each endpoint (ScopesNotLoaded), not the code's TypeError; see Findings.
- Restoring.RestoreGame: composes the corrected restore of each endpoint, as the Restoring.RestoreContainers line says.
- Games.Game.Restore: composes the corrected restore of each endpoint, as the Restoring.RestoreContainers line says.
- Games.Game.constructor: the new game's containers are empty. In the source `Game.scopes` is a class-level dictionary, so this holds only for the first Game of the process.
- `GameRegistry.register` has the same body as `Registry.register`. It is modelled by `Registries.Registry.Register` on the shared dictionary.

## Findings

| source | as written | input that shows it | evidently intended | confidence | as-written member | corrected member |
|---|---|---|---|---|---|---|
| modelservice/games/scopes/concrete.py:220-221 | the scenario loop of add_or_update_runuser passes `scenario_resource.payload`, but the filter yields scope objects, which have `json` and no `payload`, so AttributeError is raised | a runuser-created webhook for a runuser not yet loaded, while a loaded scenario already names it under `runuser` | re-create each scenario from its `json` | likely, not executed | Lifecycle.AddOrUpdateRunUserAsWritten (with Lifecycle.AsWrittenFailsOnScenarios) | Lifecycle.AddOrUpdateRunUser (with Lifecycle.AddOrUpdateNew) |
| modelservice/games/scopes/concrete.py:461-466 | restore_endpoint raises `ScopesNotLoaded(..., mgr_count=..., result_count=..., scope_class=...)`, but ScopesNotLoaded is a plain Exception subclass, whose constructor refuses keyword arguments, so TypeError is raised instead | two fetched payloads of one endpoint with the same id | raise ScopesNotLoaded with a formatted message | high, not executed | Restoring.RestoredAsWritten (with Restoring.AsWrittenRaisesTypeError and Restoring.SharedIdRaisesTypeError) | Restoring.Restored (with Restoring.RestoredMeaning) |
| modelservice/games/scopes/concrete.py:344-345 | rollback_phase calls the coroutine `get_previous_phase()` without `await` and then reads `.pk` of the coroutine, so it always raises AttributeError | any run whose current phase has a predecessor | `previous_phase = await self.get_previous_phase()` | high, not executed | Games.Game.RollbackPhaseAsWritten (with Phases.RollbackAsWrittenKeepsAdvance) | Games.Game.RollbackPhase (with Phases.AdvanceThenRollback) |
