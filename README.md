# Prisma SD-WAN policy push, export and restore — a Dafny model

This project models the logic of a set of Prisma SD-WAN automation scripts.

The centre is the policy pusher (`push_policy_refactored_original-gemini.py`). It reads a YAML backup of the path, QoS, security, NAT and performance policies and reconciles the controller with it:

- it fills ID/name catalogs from the controller's inventories;
- it translates names to ids in rules, stacks and sets;
- for every desired set it creates, updates or skips the set, posts, updates and deletes its rules, and sends the rule order;
- it then reconciles the stacks and deletes orphaned stacks and sets.

The default policy objects are shielded from deletion in every domain except path.

Around the pusher sit:

- the two exporters (`pull_policy_master.py`, `sdwan_master_policy.py`), which produce the document the pusher reads;
- the simpler performance restores with a dry-run mode (`restore_policy_all.py`, `push_policy_refactored.py`);
- the metadata stripper of the resource and policy pulls;
- the restore launcher (`sdwan_restore.py`);
- the monitoring and provisioning scripts' helpers: site and device lookup by name, WAN-label display, site classification, health status, metrics payloads, machine-listing pagination, service-endpoint peer merging and sub-interface payloads.

Modules follow the scripts:

- `Json` (the decoded JSON/YAML value, with dicts as ordered field lists), `Text` and `Scan` hold the Python built-ins the scripts use.
- `Kinds`, `Catalog`, `Translate`, `Compare`, `Docs`, `Reconcile` and `SetSync` are the pusher's layers. `PathPush`, `QosPush`, `SecurityPush`, `NatPush` and `PerformancePush` are its per-domain reconcilers, and `Push` is its dispatch.
- `Remote` is the controller. It is a class whose stores the pusher writes through, and it keeps a log of every POST, PUT and DELETE.
- `Export`, `Restore` and `RestoreCli` are the companion scripts.
- `Inventory` holds the lookups the monitoring scripts share. The same `normalize_id_name`, `classify_sites` and `find_item` code appears in several scripts and is modelled once.
- The remaining modules are one per monitoring or provisioning script.

Exceptions the scripts raise are modelled as `Raise` results, and `sys.exit` paths as explicit outcomes. HTTP responses, file contents and clock readings are parameters.

## Model

| member | source | states |
|---|---|---|
| Kinds.DocKeysDistinct | pov-automation/02_policy_scripts/push_policy_refactored_original-gemini.py:190-208 | every stack, set and rule collection of every domain has its own resource name |
| Catalog.AddRows | pov-automation/02_policy_scripts/push_policy_refactored_original-gemini.py:233-238 | an inventory loop completes exactly when every item carries both its id key and its name key (a KeyError otherwise) |
| Catalog.AddRowsNameId | pov-automation/02_policy_scripts/push_policy_refactored_original-gemini.py:233-238 | after the loop a name carried by some item maps to the id of the last such item; every other name keeps its earlier entry |
| Catalog.AddRowsInverse | pov-automation/02_policy_scripts/push_policy_refactored_original-gemini.py:233-238 | when the inventory never gives one id two names or one name two ids, ID→name and name→ID stay mutual inverses |
| Catalog.AddLive | pov-automation/02_policy_scripts/push_policy_refactored_original-gemini.py:308-319 | the live stack loop completes exactly when every item has an id and a name |
| Catalog.AddRules | pov-automation/02_policy_scripts/push_policy_refactored_original-gemini.py:331-337 | a set's rule loop completes exactly when every rule has an id and a name |
| Catalog.AddRulesKeys | pov-automation/02_policy_scripts/push_policy_refactored_original-gemini.py:331-337 | every rule key the loop adds is keyed by the set it was read from; keys of other sets are untouched |
| Catalog.AddNamed | pov-automation/02_policy_scripts/push_policy_refactored_original-gemini.py:155-158 | the performance loop (objects stored by name) completes exactly when every item has a name |
| Catalog.LabelsSeeded | pov-automation/02_policy_scripts/push_policy_refactored_original-gemini.py:289-299 | the label table maps "Any Public" to public-\* and "Any Private" to private-\* unless a live label reuses one of those names |
| Catalog.AllPlanKeepsPerformance | pov-automation/02_policy_scripts/push_policy_refactored_original-gemini.py:229-618 | no block of the all-types loader reads the live performance sets or stacks |
| Catalog.AllModeKnowsNoPerformance | pov-automation/02_policy_scripts/push_policy_refactored_original-gemini.py:607-616 | with -PT all the loaded catalog knows no performance set and no performance stack, whatever the controller holds |
| Catalog.Catalog.FillIndex | pov-automation/02_policy_scripts/push_policy_refactored_original-gemini.py:233-238 | the inventory loop computes AddRows: ok exactly when no item lacks a key, and then the resulting maps |
| Catalog.Catalog.FillLive | pov-automation/02_policy_scripts/push_policy_refactored_original-gemini.py:308-319 | the live stack loop computes AddLive |
| Catalog.Catalog.FillRules | pov-automation/02_policy_scripts/push_policy_refactored_original-gemini.py:331-337 | the rule loop computes AddRules |
| Catalog.Catalog.FillSets | pov-automation/02_policy_scripts/push_policy_refactored_original-gemini.py:323-343 | the live set loop, reading each set's rules as it goes, computes AddSets |
| Catalog.Catalog.FillNamed | pov-automation/02_policy_scripts/push_policy_refactored_original-gemini.py:155-158 | the performance loop computes AddNamed |
| Catalog.Catalog.constructor | pov-automation/02_policy_scripts/push_policy_refactored_original-gemini.py:65-144 | the push engine starts with every global id/name/config dict empty |
| Catalog.Catalog.LoadOne | pov-automation/02_policy_scripts/push_policy_refactored_original-gemini.py:229-618 | one loader block updates the catalog to LoadBlock of the old catalog, or reports the crash |
| Catalog.Catalog.Load | pov-automation/02_policy_scripts/push_policy_refactored_original-gemini.py:229-618 | a loader runs its blocks in order and leaves the catalog at LoadPlan of the old one |
| Catalog.Catalog.RecordSet | pov-automation/02_policy_scripts/push_policy_refactored_original-gemini.py:2257 | a set created during the push is entered in its domain's set ID↔name maps and nothing else changes |
| Catalog.AddSet | pov-automation/02_policy_scripts/push_policy_refactored_original-gemini.py:323-343 | one live set is entered exactly when it has an id and a name and its rules can be read and entered; it is then in both id/name maps and in the config under its name, and every config name already there stays |
| Catalog.AddSets | pov-automation/02_policy_scripts/push_policy_refactored_original-gemini.py:323-343 | the live set loop completes only if every set has an id and a name; each set's name is then in the config, and the names already there stay |
| Catalog.SeedLabels | pov-automation/02_policy_scripts/push_policy_refactored_original-gemini.py:289-299 | the label tables gain "Any Public"↔public-\* and "Any Private"↔private-\* where those keys are not yet taken, and keep every other entry |
| Catalog.LoadBlock | pov-automation/02_policy_scripts/push_policy_refactored_original-gemini.py:229-618 | a block whose read fails is skipped and leaves the tables; a reference block completes exactly when every item has both keys; each block touches only the tables it loads |
| Catalog.LoadPlan | pov-automation/02_policy_scripts/push_policy_refactored_original-gemini.py:229-618 | a loader whose first block crashes gives no catalog |
| Catalog.LoadPlanFrames | pov-automation/02_policy_scripts/push_policy_refactored_original-gemini.py:229-618 | a completed loader changes the thresholds only through a threshold block, and a reference table only through its own block |
| Translate.Lookup | pov-automation/02_policy_scripts/push_policy_refactored_original-gemini.py:1081 | a membership test on a table: a known string is found with its entry, a list or dict raises (unhashable), any other value misses |
| Translate.MapScalar | pov-automation/02_policy_scripts/push_policy_refactored_original-gemini.py:1191-1193 | a known scalar reference is replaced by its table entry, an unknown one is left as it was; no other key changes; a list or dict value raises |
| Translate.MapPrefix | pov-automation/02_policy_scripts/push_policy_refactored_original-gemini.py:1198-1202 | a prefix reference is looked up in the global table first and the local table second; when neither knows it the rule is unchanged |
| Translate.Walk | pov-automation/02_policy_scripts/push_policy_refactored_original-gemini.py:1231-1241 | a list loop succeeds exactly when no item's step raises, and yields at most as many items as it read |
| Translate.WalkLoop | pov-automation/02_policy_scripts/push_policy_refactored_original-gemini.py:1231-1241 | the item-by-item list loop computes Walk |
| Translate.WalkMaps | pov-automation/02_policy_scripts/push_policy_refactored_original-gemini.py:1231-1241 | when every item is kept the loop keeps length and order, item i becoming the step's output for item i |
| Translate.WalkFrom | pov-automation/02_policy_scripts/push_policy_refactored_original-gemini.py:1573-1581 | every output item is the step's output for some input item |
| Translate.WalkAppend | pov-automation/02_policy_scripts/push_policy_refactored_original-gemini.py:1231-1241 | the loop over a concatenation is the loop over each part, outputs concatenated in order |
| Translate.AppStep | pov-automation/02_policy_scripts/push_policy_refactored_original-gemini.py:1233-1239 | a known app name is replaced by its id, an unknown one passes through unchanged (N2ID); in the id-to-name direction an unknown entry reads the rule name for its warning |
| Translate.KnownStep | pov-automation/02_policy_scripts/push_policy_refactored_original-gemini.py:1573-1581 | a security prefix or zone entry is kept, translated with the global table first, exactly when some table knows it; otherwise it is dropped |
| Translate.LabelStep | pov-automation/02_policy_scripts/push_policy_refactored_original-gemini.py:1254-1263 | every path entry must be a dict; a known label is replaced, an unknown one kept |
| Translate.OrderStep | pov-automation/02_policy_scripts/push_policy_refactored_original-gemini.py:1837-1841 | a rule-order entry is kept, as the rule's id, exactly when the catalog knows that rule under this set |
| Translate.RecordStep | pov-automation/02_policy_scripts/push_policy_refactored_original-gemini.py:2739-2741 | a rule-order name is kept, as the id recorded during the run, exactly when it was recorded |
| Translate.SwapStep | pov-automation/02_policy_scripts/push_policy_refactored_original-gemini.py:2933-2938 | a stack member that is a set id of this run becomes the id recorded for its name; anything else stays as it was |
| Translate.MapList | pov-automation/02_policy_scripts/push_policy_refactored_original-gemini.py:1121-1130 | an absent list is left alone; a present one must be iterable and is replaced by the loop's output |
| Translate.PathList | pov-automation/02_policy_scripts/push_policy_refactored_original-gemini.py:1254-1263 | a path list is written back as the loop's output, or `[]` when it was absent |
| Translate.PathsAllowed | pov-automation/02_policy_scripts/push_policy_refactored_original-gemini.py:1246-1295 | `paths_allowed` is always written back (None stays None); a non-dict raises; no other key changes |
| Translate.ServiceContext | pov-automation/02_policy_scripts/push_policy_refactored_original-gemini.py:1216-1226 | `service_context` is always written back (None stays None); a non-dict raises; no other key changes |
| Translate.Apps | pov-automation/02_policy_scripts/push_policy_refactored_original-gemini.py:1227-1241 | an absent app list leaves the rule as it was; only `app_def_ids` can change |
| Translate.PathRule | pov-automation/02_policy_scripts/push_policy_refactored_original-gemini.py:1187-1295 | a path rule that is not a dict raises; a dict runs the six field rewrites in order (see PathRuleFields) |
| Translate.QosRule | pov-automation/02_policy_scripts/push_policy_refactored_original-gemini.py:1344-1383 | a QoS rule that is not a dict raises; only the context, the two prefixes and the app list can change |
| Translate.SecurityRule | pov-automation/02_policy_scripts/push_policy_refactored_original-gemini.py:1566-1637 | a security rule that is not a dict raises; only the four prefix and zone lists and the app list can change |
| Translate.ScalarRoundTrip | pov-automation/02_policy_scripts/push_policy_refactored_original-gemini.py:1081-1193 | with inverse tables, a known name translated to an id reads back as the same rule |
| Translate.AppsPassThrough | pov-automation/02_policy_scripts/push_policy_refactored_original-gemini.py:1231-1241 | the app list keeps its length and order, known entries translated and the rest passed through |
| Translate.AppsRoundTrip | pov-automation/02_policy_scripts/push_policy_refactored_original-gemini.py:1123-1241 | with inverse tables, a list of known app names translated to ids and back is the original list |
| Translate.KnownFrom | pov-automation/02_policy_scripts/push_policy_refactored_original-gemini.py:1566-1622 | every entry of a translated security list comes from a catalogued input entry |
| Translate.KnownAllKept | pov-automation/02_policy_scripts/push_policy_refactored_original-gemini.py:1566-1622 | a security list whose entries are all catalogued keeps its length, each entry translated in place |
| Translate.UnknownDropped | pov-automation/02_policy_scripts/push_policy_refactored_original-gemini.py:1566-1622 | an uncatalogued entry never reaches the output, wherever it stands in the list |
| Translate.NatTypesInverse | pov-automation/02_policy_scripts/push_policy_refactored_original-gemini.py:210-227 | the two NAT action-type tables are each other's inverse |
| Translate.NatAction | pov-automation/02_policy_scripts/push_policy_refactored_original-gemini.py:1476-1486 | one NAT action completes exactly when it is a dict with a hashable pool and a known type, which is then translated; only pool and type change, and a bad type leaves the pool already translated |
| Translate.NatActions | pov-automation/02_policy_scripts/push_policy_refactored_original-gemini.py:1476-1486 | the NAT action loop keeps the list's length and completes exactly when every action does |
| Translate.NatActionsPartial | pov-automation/02_policy_scripts/push_policy_refactored_original-gemini.py:1476-1486 | after a failure the actions before it are translated, the failing one is half done, the rest untouched |
| Translate.NatActionsLoop | pov-automation/02_policy_scripts/push_policy_refactored_original-gemini.py:1476-1486 | the in-place action loop leaves the list and the completion flag NatActions describes |
| Translate.NatRule | pov-automation/02_policy_scripts/push_policy_refactored_original-gemini.py:1439-1486 | a NAT rule that is not a dict raises at once; on completion its `actions` are NatActions of its action list |
| Translate.NatTypeRoundTrip | pov-automation/02_policy_scripts/push_policy_refactored_original-gemini.py:210-227 | a NAT action type survives N2ID followed by ID2N |
| Translate.Stack | pov-automation/02_policy_scripts/push_policy_refactored_original-gemini.py:1642-1795 | Performance stacks and None are returned unchanged; other non-dicts raise; only the default set and the member list change |
| SetSync.StackDefault | pov-automation/02_policy_scripts/push_policy_refactored_original-gemini.py:1649-1652 | a default-set reference the table knows is replaced by the name or id it maps to |
| Translate.StackMembers | pov-automation/02_policy_scripts/push_policy_refactored_original-gemini.py:1665-1679 | the member list becomes `[]` when absent, else the catalogued sets translated in document order |
| Translate.Orders | pov-automation/02_policy_scripts/push_policy_refactored_original-gemini.py:1834-1841 | an absent order list is left alone; only that list can change |
| Translate.Set | pov-automation/02_policy_scripts/push_policy_refactored_original-gemini.py:1798-1887 | only NAT (both zone orders) and Security (`policyrule_order`) sets change, and only those keys |
| Translate.OrderKeepsOwnRules | pov-automation/02_policy_scripts/push_policy_refactored_original-gemini.py:1834-1841 | an order entry survives only if it names a rule of this very set |
| Translate.PathStep | pov-automation/02_policy_scripts/push_policy_refactored_original-gemini.py:1187-1295 | each of the six staged rewrites of a path rule touches only its own field and keeps the rule a dict |
| Staged.StagesFrame | pov-automation/02_policy_scripts/push_policy_refactored_original-gemini.py:1187-1295 | running the rewrite stages in order keeps the rule a dict, leaves every field that no stage owns as it was, and leaves the fields of stages not yet run as they were |
| Staged.StagesIndependent | pov-automation/02_policy_scripts/push_policy_refactored_original-gemini.py:1187-1295 | running the stages in order succeeds exactly when each stage applied alone to the original rule succeeds, and each owned field ends as that stage alone would leave it |
| Translate.PathStepLocal | pov-automation/02_policy_scripts/push_policy_refactored_original-gemini.py:1187-1295 | a rewrite stage's success and its output field depend only on its own input field (and, for the app list, on whether the rule has a name) |
| Translate.MapScalarLocal | pov-automation/02_policy_scripts/push_policy_refactored_original-gemini.py:1191-1193 | a scalar rewrite depends only on the rewritten field |
| Translate.MapPrefixLocal | pov-automation/02_policy_scripts/push_policy_refactored_original-gemini.py:1187-1295 | a prefix-list rewrite depends only on the rewritten field |
| Translate.ServiceContextLocal | pov-automation/02_policy_scripts/push_policy_refactored_original-gemini.py:1187-1295 | the service-context rewrite depends only on the service_context field |
| Translate.AppsLocal | pov-automation/02_policy_scripts/push_policy_refactored_original-gemini.py:1187-1295 | the app-list rewrite depends only on app_def_ids and on whether the rule has a name |
| Translate.PathsAllowedLocal | pov-automation/02_policy_scripts/push_policy_refactored_original-gemini.py:1187-1295 | the allowed-paths rewrite depends only on paths_allowed |
| Translate.PathRuleFields | pov-automation/02_policy_scripts/push_policy_refactored_original-gemini.py:1187-1295 | a dict path rule translates exactly when each of its six field rewrites succeeds on the original rule; each rewritten field is what its own rewrite produces and every other field is kept |
| Translate.PathKeysDistinct | pov-automation/02_policy_scripts/push_policy_refactored_original-gemini.py:1187-1295 | the six rewritten fields are pairwise distinct and none of them is the rule's name |
| Translate.Apply | pov-automation/02_policy_scripts/push_policy_refactored_original-gemini.py:1231-1241 | a lookup-only rewrite fails exactly on a list or dict value; the app, label and swap rewrites never skip |
| Translate.Table | pov-automation/02_policy_scripts/push_policy_refactored_original-gemini.py:1076-1081 | when the id and name indexes are inverse, every entry of the selected direction's table maps back through the other direction |
| Compare.Head | pov-automation/02_policy_scripts/restore_policy_all.py:70-77 | the restore variant takes a key only from a dotted path, never the empty key and never a key with a dot; the empty dotted path gives no key |
| Compare.ChangedKeys | pov-automation/02_policy_scripts/push_policy_refactored_original-gemini.py:1923-1943 | the changed keys carry no duplicates, are exactly the keys some reported item contributes, and are `[]` for an empty diff |
| Compare.ChangedKeysFirstAppearance | pov-automation/02_policy_scripts/push_policy_refactored_original-gemini.py:1923-1943 | keys come out in the order they are first reported |
| Compare.CompareConf | pov-automation/02_policy_scripts/push_policy_refactored_original-gemini.py:1923-1943 | the loop over the reported changes computes ChangedKeys for the push variant |
| Compare.PushNeverEmpty | pov-automation/02_policy_scripts/push_policy_refactored_original-gemini.py:1934-1936 | the push variant never reports the empty key unless a path itself starts with an empty key |
| Compare.RestoreIgnoresListPaths | pov-automation/02_policy_scripts/restore_policy_all.py:70-77 | every key the restore variant reports is non-empty and comes from a dotted path, never from a list path |
| Compare.VariantsAgreeOnDotted | pov-automation/02_policy_scripts/push_policy_refactored_original-gemini.py:1923-1943 | on diffs made only of dotted paths both variants report the same keys |
| Compare.KeyChanges | pov-automation/02_policy_scripts/push_policy_refactored_original-gemini.py:1924 | the stand-in diff reports nothing for keys with equal values, and a change at the key for every key whose values differ |
| Compare.Additions | pov-automation/02_policy_scripts/push_policy_refactored_original-gemini.py:1924 | additions of top-level keys are reported at the empty path |
| Compare.Diff | pov-automation/02_policy_scripts/push_policy_refactored_original-gemini.py:1924 | the stand-in diff of two equal values is empty |
| Compare.HeadOfKeyPath | pov-automation/02_policy_scripts/push_policy_refactored_original-gemini.py:1927-1938 | a top-level key is reported under its own name, except the empty key |
| Compare.ChangedKeysOfDiff | pov-automation/02_policy_scripts/push_policy_refactored_original-gemini.py:1923-1943 | compareconf(desired, live) reports exactly the non-empty top-level keys present on both sides with different values; keys only the live object has (`id`, `_etag`) never count |
| Compare.UnchangedWhenEqual | pov-automation/02_policy_scripts/push_policy_refactored_original-gemini.py:1923-1943 | identical objects never trigger an update |
| Docs.Unwrap | pov-automation/02_policy_scripts/push_policy_refactored_original-gemini.py:1956-1960 | a wrapper is unwrapped exactly when it is a non-empty dict whose first value is a dict; its body then gets `name` set to the first key |
| Docs.Collect | pov-automation/02_policy_scripts/push_policy_refactored_original-gemini.py:1956-1960 | the collected map has one entry per name and every body's `name` is its key |
| Docs.CollectLastWins | pov-automation/02_policy_scripts/push_policy_refactored_original-gemini.py:1956-1960 | a later wrapper with the same name replaces an earlier one, and names nobody uses are absent |
| Docs.StrictKeys | pov-automation/02_policy_scripts/push_policy_refactored_original-gemini.py:1946-2090 | every stack, set and rule collection of Path, QoS, NAT and Security has its own extraction branch |
| Docs.ExtractFromYaml | pov-automation/02_policy_scripts/push_policy_refactored_original-gemini.py:1946-2107 | a document without the key gives None; otherwise the result is name-keyed with unique names; a non-dict document raises |
| Docs.Overlay | pov-automation/02_policy_scripts/push_policy_refactored_original-gemini.py:2112-2116 | keys the source lacks keep the destination's value; the destination's keys stay first, in order; unique keys stay unique |
| Docs.OverlayRightBiased | pov-automation/02_policy_scripts/push_policy_refactored_original-gemini.py:2112-2116 | every source key gets the source's value |
| Docs.Payload | pov-automation/02_policy_scripts/push_policy_refactored_original-gemini.py:2112-2116 | update_payload succeeds exactly when both sides are dicts (or the source is empty), and is then the overlay |
| Docs.PayloadGets | pov-automation/02_policy_scripts/restore_policy_all.py:79-81 | every source key takes the source's value; every other key keeps the destination's |
| Docs.UpdatePayload | pov-automation/02_policy_scripts/push_policy_refactored_original-gemini.py:2112-2116 | the key-by-key loop computes Payload |
| Docs.NoneIfEmpty | pov-automation/02_policy_scripts/push_policy_refactored_original-gemini.py:2125-2133 | every empty path list becomes None, every other entry is kept, keys and order unchanged; an unsized entry raises |
| Docs.UpdateRule | pov-automation/02_policy_scripts/push_policy_refactored_original-gemini.py:2122-2135 | the copy differs from the rule only in `paths_allowed`, whose empty lists are None; a missing `paths_allowed` raises |
| Docs.UpdateRuleIdempotent | pov-automation/02_policy_scripts/push_policy_refactored_original-gemini.py:2122-2135 | normalising a rule twice gives the same as once |
| Docs.UpdateStack | pov-automation/02_policy_scripts/push_policy_refactored_original-gemini.py:2138-2144 | the copy differs only in `policyset_ids`, None when it was empty; a missing or unsized list raises |
| Docs.Without | pov-automation/02_policy_scripts/restore_policy_all.py:66-68 | the kept entries come from the dict, in order, and none has a deleted key |
| Docs.WithoutFind | pov-automation/02_policy_scripts/restore_policy_all.py:66-68 | a deleted key is gone and every other key keeps its value |
| Docs.Cleaned | pov-automation/02_policy_scripts/restore_policy_all.py:66-68 | cleandata returns non-dicts unchanged and a dict without the metadata keys, every other entry identical |
| Docs.DeleteEach | pov-automation/02_policy_scripts/push_policy_refactored_original-gemini.py:1053-1059 | deleting each listed key present in the dict, one by one, leaves Without |
| Docs.CleanData | pov-automation/02_policy_scripts/push_policy_refactored_original-gemini.py:1053-1059 | the push engine's cleandata raises on a non-dict and otherwise removes its key list (which also holds `name` and `id`) |
| Docs.CleanDataVariants | pov-automation/02_policy_scripts/push_policy_refactored_original-gemini.py:55-58 | the push engine's cleandata is the restore tool's followed by dropping `name` |
| Docs.StripClean | pov-automation/02_policy_scripts/pull_resources.py:23-29 | strip_metadata leaves no `_` key at any depth, and a clean document is its own stripping |
| Docs.StripIdempotent | pov-automation/02_policy_scripts/pull_policy.py:23-29 | stripping twice is stripping once |
| Docs.StripKeeps | pov-automation/02_policy_scripts/pull_resources.py:23-29 | a key without the `_` prefix keeps its (stripped) value |
| Docs.StripItemsAt | pov-automation/02_policy_scripts/pull_resources.py:26-27 | list items keep their positions, each stripped |
| Docs.ResourcesDoc | pov-automation/02_policy_scripts/pull_resources.py:31-34 | the resources document has exactly `sites` and `elements`, each stripped and free of metadata |
| Reconcile.Send | pov-automation/02_policy_scripts/push_policy_refactored_original-gemini.py:2170 | every write goes into the controller's log, in order; only a POST yields a created object |
| Reconcile.SendAll | pov-automation/02_policy_scripts/push_policy_refactored_original-gemini.py:2235-2243 | a batch of writes extends the log by exactly that batch |
| Reconcile.SendAllAppend | pov-automation/02_policy_scripts/push_policy_refactored_original-gemini.py:2235-2243 | sending two batches one after the other is sending their concatenation |
| Reconcile.Issue | pov-automation/02_policy_scripts/push_policy_refactored_original-gemini.py:2170 | one write through the session changes the controller as Send says |
| Reconcile.IssueAll | pov-automation/02_policy_scripts/push_policy_refactored_original-gemini.py:2235-2243 | a write loop leaves the controller at SendAll |
| Reconcile.Decide | pov-automation/02_policy_scripts/push_policy_refactored_original-gemini.py:2201-2230 | a missing object is POSTed as it is; an existing one is PUT with update_payload(desired, live) exactly when compareconf finds a change (or always, for the new-Security loop), else left with its live id; building the payload raises when either side is not a dict |
| Reconcile.DecideOne | pov-automation/02_policy_scripts/push_policy_refactored_original-gemini.py:2196-2230 | one loop body: a failed preparation fails, otherwise the decision for the prepared name and body |
| Reconcile.Decisions | pov-automation/02_policy_scripts/push_policy_refactored_original-gemini.py:2196-2230 | the live objects are read before the loop, so each decision depends only on its own desired object |
| Reconcile.Plan | pov-automation/02_policy_scripts/push_policy_refactored_original-gemini.py:2196-2230 | a reconcile loop runs to the end exactly when every object prepares and every payload can be built |
| Reconcile.PlanFrom | pov-automation/02_policy_scripts/push_policy_refactored_original-gemini.py:2196-2230 | every write a loop sends is one some decision calls for |
| Reconcile.PlanCovers | pov-automation/02_policy_scripts/push_policy_refactored_original-gemini.py:2196-2230 | in a loop that ran to the end every decision's writes were sent |
| Reconcile.MissingPosted | pov-automation/02_policy_scripts/push_policy_refactored_original-gemini.py:2221-2230 | a completed loop POSTs every desired object the controller lacks, as it is |
| Reconcile.PutOnlyWhenChanged | pov-automation/02_policy_scripts/push_policy_refactored_original-gemini.py:2203-2209 | a PUT is sent only for a live object compareconf finds different from the desired one |
| Reconcile.PutOverlays | pov-automation/02_policy_scripts/push_policy_refactored_original-gemini.py:2208-2209 | a PUT carries every field of the desired object and the live object's other fields |
| Reconcile.Carry | pov-automation/02_policy_scripts/push_policy_refactored_original-gemini.py:2884-2905 | one decision carried out sends its writes and records an id only under its own name |
| Reconcile.Loop | pov-automation/02_policy_scripts/push_policy_refactored_original-gemini.py:2884-2905 | the log of a reconcile loop grows by exactly the planned writes, whatever the controller answers |
| Reconcile.LoopRecordsOwnNames | pov-automation/02_policy_scripts/push_policy_refactored_original-gemini.py:2884-2905 | a loop records ids only under the names of the objects it was given |
| Reconcile.Sync | pov-automation/02_policy_scripts/push_policy_refactored_original-gemini.py:2196-2230 | the reconcile loop method leaves the controller and the recorded ids that Loop describes |
| Reconcile.DoomedMembers | pov-automation/02_policy_scripts/push_policy_refactored_original-gemini.py:2235-2243 | a cleanup deletes exactly the live objects the document does not name and no default flag shields |
| Reconcile.Deletes | pov-automation/02_policy_scripts/push_policy_refactored_original-gemini.py:2238 | one DELETE per doomed object, at its id |
| Reconcile.DoomedOnce | pov-automation/02_policy_scripts/push_policy_refactored_original-gemini.py:2235-2243 | over live objects with distinct names every unnamed, unshielded one is deleted exactly once and no other |
| Reconcile.Cleanup | pov-automation/02_policy_scripts/push_policy_refactored_original-gemini.py:2327-2348 | the delete loop sends the DELETEs of every doomed object in live order |
| Reconcile.LiveRulesUnique | pov-automation/02_policy_scripts/push_policy_refactored_original-gemini.py:2186-2191 | the rules read back by name carry distinct names |
| Reconcile.ReadRules | pov-automation/02_policy_scripts/push_policy_refactored_original-gemini.py:2186-2194 | the rule read returns the rules keyed by name (a later duplicate overwrites), empty when the read fails |
| Reconcile.ResolveOrder | pov-automation/02_policy_scripts/push_policy_refactored_original-gemini.py:2739-2741 | the order resolution computes `[rec[n] for n in order if n in rec]` |
| Reconcile.ResolveFrom | pov-automation/02_policy_scripts/push_policy_refactored_original-gemini.py:2739-2741 | every id of a resolved order is the recorded id of a rule the order names |
| Reconcile.ResolveAllRecorded | pov-automation/02_policy_scripts/push_policy_refactored_original-gemini.py:2739-2741 | when every named rule was recorded the order resolves entry for entry, same length and order |
| Reconcile.ResolveDropsUnrecorded | pov-automation/02_policy_scripts/push_policy_refactored_original-gemini.py:2739-2741 | a rule name without a recorded id drops out and leaves the rest in place |
| Reconcile.Recorded | pov-automation/02_policy_scripts/push_policy_refactored_original-gemini.py:2257-2258 | recording a created set changes only that domain's set maps, the name now mapping to the new id |
| SetSync.RulePrep | pov-automation/02_policy_scripts/push_policy_refactored_original-gemini.py:2197-2199 | a prepared rule keeps its document name; a Path, QoS or Security rule that is not a dict raises |
| SetSync.RulePreps | pov-automation/02_policy_scripts/push_policy_refactored_original-gemini.py:2196-2199 | the rules of a set are prepared in document order, one for one |
| SetSync.SyncRulesLog | pov-automation/02_policy_scripts/push_policy_refactored_original-gemini.py:2186-2243 | a completed rule sync sends the reconcile loop's writes and then one DELETE per live rule the document does not name; it fails exactly when the rules cannot be read, the set has no rules section, or a rule cannot be prepared |
| SetSync.SyncRulesOf | pov-automation/02_policy_scripts/push_policy_refactored_original-gemini.py:2186-2243 | the rule sync method leaves the controller that SyncRules describes |
| SetSync.PutChanged | pov-automation/02_policy_scripts/push_policy_refactored_original-gemini.py:2164-2175 | nothing is sent when compareconf finds no change; otherwise one PUT of update_payload at the payload's own id, unless building it raises |
| SetSync.PutIfChanged | pov-automation/02_policy_scripts/push_policy_refactored_original-gemini.py:2164-2175 | the set update method leaves the controller that PutChanged describes |
| SetSync.Updated | pov-automation/02_policy_scripts/push_policy_refactored_original-gemini.py:2112-2116 | the live record is the merged payload after a PUT and stays as it was when nothing changed or the payload cannot be built |
| SetSync.UpdatedId | pov-automation/02_policy_scripts/push_policy_refactored_original-gemini.py:2164-2187 | after a PUT the live record's `id` is the document's `id` when the document has one and its own otherwise; with no change it keeps its own id |
| SetSync.PinnedStack | pov-automation/02_policy_scripts/push_policy_refactored_original-gemini.py:2283-2290 | a prepared stack keeps its name |
| SetSync.PinnedToDefault | pov-automation/02_policy_scripts/push_policy_refactored_original-gemini.py:2286-2289 | a Path, QoS or Security stack points at the id of its expected default set whenever that set is known, whatever the document said |
| Reconcile.Doomed | pov-automation/02_policy_scripts/push_policy_refactored_original-gemini.py:2235-2243 | every object chosen for deletion is live, is not named by the document and is not a shielded default; no more are chosen than are live |
| Reconcile.Resolve | pov-automation/02_policy_scripts/push_policy_refactored_original-gemini.py:2739-2741 | an order that is not iterable raises TypeError; an iterable order resolves exactly when none of its items is a list or dict (unhashable), and never to more ids than it names |
| Reconcile.LiveRules | pov-automation/02_policy_scripts/push_policy_refactored_original-gemini.py:2186-2191 | an unreadable rule listing yields no live rules; a readable one yields the rules exactly when every item has a string name |
| SetSync.SyncRules | pov-automation/02_policy_scripts/push_policy_refactored_original-gemini.py:2186-2243 | when the live rules cannot be keyed or the document's rules are missing, nothing is sent and the set is not reported changed; otherwise the request log only grows |
| PathPush.PathSet | pov-automation/02_policy_scripts/push_policy_refactored_original-gemini.py:2155-2274 | one path set pushed: only the path tables change, the id maps of the run stay as they were, and a document whose rules cannot be extracted fails the run and changes nothing; an existing set's rules are synced under the id of the set record as `update_payload` left it (ChangedPathRulesUnderPutId) |
| PathPush.NewPathSetPostsRules | pov-automation/02_policy_scripts/push_policy_refactored_original-gemini.py:2249-2269 | after a new path set is created, every rule of its document is POSTed under the created set's id, translated against the tables that already record the new set |
| PathPush.ChangedPathRulesUnderPutId | pov-automation/02_policy_scripts/push_policy_refactored_original-gemini.py:2169-2245 | for a changed existing path set the PUT goes to the merged payload's `id`, and the rules are read, written and deleted under that same id |
| PathPush.PathSetStep | pov-automation/02_policy_scripts/push_policy_refactored_original-gemini.py:2155-2274 | the controller session and the catalogue end up where PathSet says, the rules of a changed set going under the id the set's PUT used |
| QosPush.QosSet | pov-automation/02_policy_scripts/push_policy_refactored_original-gemini.py:2360-2548 | one QoS set pushed: only the QoS tables change, the run's id maps stay, an unreadable rules document fails the run unchanged; an existing set's rules are synced under the id of the set record as `update_payload` left it (ChangedQosRulesUnderPutId) |
| QosPush.NewQosSet | pov-automation/02_policy_scripts/push_policy_refactored_original-gemini.py:2449-2548 | creating a QoS set changes only the QoS tables; a refused POST leaves the run and the tables as they were |
| QosPush.TemplateRulesPruned | pov-automation/02_policy_scripts/push_policy_refactored_original-gemini.py:2463-2529 | for a set created from a template the rules the controller seeded are reconciled against the document (changed ones written, missing ones added, the rest deleted); a set created without a template sends no DELETE |
| QosPush.ChangedQosRulesUnderPutId | pov-automation/02_policy_scripts/push_policy_refactored_original-gemini.py:2374-2392 | for a changed existing QoS set the PUT goes to the merged payload's `id`, and the rules are synced under that same id |
| QosPush.QosSetStep | pov-automation/02_policy_scripts/push_policy_refactored_original-gemini.py:2360-2548 | the controller session and the catalogue end up where QosSet says, the rules of a changed set going under the id the set's PUT used |
| SecurityPush.OrderPut | pov-automation/02_policy_scripts/push_policy_refactored_original-gemini.py:2739-2741 | the order update carries exactly the set's id and the resolved rule ids |
| SecurityPush.AttrsPut | pov-automation/02_policy_scripts/push_policy_refactored_original-gemini.py:2682-2692 | the set attributes are written at most once, only when they differ from the controller's copy, as the merged payload, without `policyrule_order` when the set is a default rule set |
| SecurityPush.PutAttrs | pov-automation/02_policy_scripts/push_policy_refactored_original-gemini.py:2682-2692 | the attribute update leaves the controller SecurityAttrs describes |
| SecurityPush.ExistingSecuritySet | pov-automation/02_policy_scripts/push_policy_refactored_original-gemini.py:2651-2692 | updating an existing security set leaves the catalogue and the id maps untouched |
| SecurityPush.PutOrder | pov-automation/02_policy_scripts/push_policy_refactored_original-gemini.py:2738-2741 | no order means no write; otherwise one PUT of the resolved ids, and the push fails unchanged when the order cannot be resolved |
| SecurityPush.NewSecuritySet | pov-automation/02_policy_scripts/push_policy_refactored_original-gemini.py:2693-2745 | creating a security set changes only the security tables and keeps the id maps |
| SecurityPush.SecuritySetAsWritten | pov-automation/02_policy_scripts/push_policy_refactored_original-gemini.py:2643-2745 | the security set push as the script runs it, with the order read back after it has been cleared; only the security tables change and an unreadable rules document fails the run |
| SecurityPush.SecuritySet | pov-automation/02_policy_scripts/push_policy_refactored_original-gemini.py:2643-2745 | the corrected security set push, with the document's order kept for the final PUT; only the security tables change and an unreadable rules document fails the run |
| SecurityPush.NoOrderRuleLevelOnly | pov-automation/02_policy_scripts/push_policy_refactored_original-gemini.py:2713-2741 | without an order the seeded-rule pass writes only rules, never the set |
| SecurityPush.AsWrittenNeverOrders | pov-automation/02_policy_scripts/push_policy_refactored_original-gemini.py:2695-2741 | as written, after the set's POST every write of a new security set is a rule write: the rule order is never sent |
| SecurityPush.SeededRulesOrder | pov-automation/02_policy_scripts/push_policy_refactored_original-gemini.py:2713-2741 | with an order, the rules are synchronised against those the controller seeded and then the set gets one PUT listing the ids recorded for the ordered names |
| SecurityPush.NewSetGetsOrder | pov-automation/02_policy_scripts/push_policy_refactored_original-gemini.py:2695-2741 | with the order kept, a created security set runs the seeded-rule pass with the document's `policyrule_order` |
| SecurityPush.OrderIdsRecorded | pov-automation/02_policy_scripts/push_policy_refactored_original-gemini.py:2739-2740 | every id in the order PUT belongs to a rule name listed in the order and handled by the rule pass |
| SecurityPush.SecuritySetStep | pov-automation/02_policy_scripts/push_policy_refactored_original-gemini.py:2643-2745 | the controller session and the catalogue end up where SecuritySetAsWritten says; the order PUT after a new set's rules is proved unreachable |
| PathPush.ExistingPathSet | pov-automation/02_policy_scripts/push_policy_refactored_original-gemini.py:2158-2245 | pushing an existing path set changes neither the run's id maps nor the catalogue tables; its rules are synced under the `id` of the live record after `update_payload` |
| PathPush.NewPathSet | pov-automation/02_policy_scripts/push_policy_refactored_original-gemini.py:2245-2274 | a failed POST of a new path set keeps the run except for the request log; a successful one records the new id under the set's name in the path tables only |
| SecurityPush.SecurityAttrs | pov-automation/02_policy_scripts/push_policy_refactored_original-gemini.py:2682-2692 | a set whose translation raises fails and writes nothing; an unchanged set succeeds and writes nothing; a changed one succeeds exactly when its merged payload can be built; a failure never writes |
| SecurityPush.SeededRules | pov-automation/02_policy_scripts/push_policy_refactored_original-gemini.py:2713-2741 | a new set whose seeded rules cannot be read, or whose document has no rules dict, fails and writes nothing; success needs both |
| NatPush.NatEntries | pov-automation/02_policy_scripts/push_policy_refactored_original-gemini.py:2809-2816 | rules given as a dict become one single-entry dict per rule, in document order; a list is taken as it is |
| NatPush.First | pov-automation/02_policy_scripts/push_policy_refactored_original-gemini.py:2874-2875 | an entry's rule name is its first key, paired with that key's value; an empty or non-dict entry fails |
| NatPush.MapEntriesRoundTrip | pov-automation/02_policy_scripts/push_policy_refactored_original-gemini.py:2813-2875 | splitting a rules dict into entries and reading each entry's first key gives back each rule's name and body |
| NatPush.NatPrep | pov-automation/02_policy_scripts/push_policy_refactored_original-gemini.py:2873-2882 | a NAT rule is prepared under its entry's name exactly when the entry has one; a failing translation leaves the rule as written |
| NatPush.NatPreps | pov-automation/02_policy_scripts/push_policy_refactored_original-gemini.py:2873-2882 | every entry is prepared, in order |
| NatPush.EntryNames | pov-automation/02_policy_scripts/push_policy_refactored_original-gemini.py:2871-2876 | the rule names the document lists, one per entry, in order |
| NatPush.NatOrderPut | pov-automation/02_policy_scripts/push_policy_refactored_original-gemini.py:2911-2915 | the order update carries exactly the set id and the two resolved id lists |
| NatPush.Side | pov-automation/02_policy_scripts/push_policy_refactored_original-gemini.py:2908-2909 | an empty order resolves to no ids, a given one to the ids recorded for its names |
| NatPush.NatOrder | pov-automation/02_policy_scripts/push_policy_refactored_original-gemini.py:2907-2915 | no write when both orders are empty; otherwise one PUT carrying both resolved lists, and a failure leaves the controller unchanged |
| NatPush.PutNatOrder | pov-automation/02_policy_scripts/push_policy_refactored_original-gemini.py:2907-2915 | the order method leaves the controller NatOrder describes |
| NatPush.NatFinish | pov-automation/02_policy_scripts/push_policy_refactored_original-gemini.py:2906-2921 | the order write, then one DELETE per controller rule the document does not name |
| NatPush.FinishNat | pov-automation/02_policy_scripts/push_policy_refactored_original-gemini.py:2906-2921 | the finishing method leaves the controller NatFinish describes |
| NatPush.NatRulesLog | pov-automation/02_policy_scripts/push_policy_refactored_original-gemini.py:2863-2921 | a successful rule pass sends the per-rule writes, then the order update, then the orphan DELETEs, against the rules read back from the controller |
| NatPush.SyncNatRules | pov-automation/02_policy_scripts/push_policy_refactored_original-gemini.py:2863-2921 | the rule method leaves the controller NatRules describes |
| NatPush.NatSetPut | pov-automation/02_policy_scripts/push_policy_refactored_original-gemini.py:2836-2843 | an unchanged set is not written; a changed one gets one PUT of the merged payload without either order key |
| NatPush.PutNatSet | pov-automation/02_policy_scripts/push_policy_refactored_original-gemini.py:2836-2843 | the set update method leaves the controller NatSetPut describes |
| NatPush.Cleared | pov-automation/02_policy_scripts/push_policy_refactored_original-gemini.py:2809-2825 | the body posted or compared has both orders and `clone_from` set to null and no rules; every other key is kept |
| NatPush.Learn | pov-automation/02_policy_scripts/push_policy_refactored_original-gemini.py:2832-2834 | the id handshake maps the set name to its id and the id back to the name, and nothing else |
| NatPush.NatSet | pov-automation/02_policy_scripts/push_policy_refactored_original-gemini.py:2807-2921 | one NAT set pushed leaves the catalogue as it was; a set body that is not a dict fails the run |
| NatPush.NatSetLearns | pov-automation/02_policy_scripts/push_policy_refactored_original-gemini.py:2827-2858 | an existing set teaches the handshake its catalogued id, a created one the id the POST returned; a refused POST only logs the attempt and learns nothing |
| NatPush.NatSetStep | pov-automation/02_policy_scripts/push_policy_refactored_original-gemini.py:2807-2921 | the per-set method leaves the controller and the id maps where NatSet says |
| NatPush.Swapped | pov-automation/02_policy_scripts/push_policy_refactored_original-gemini.py:2933-2938 | a stack without `policyset_ids` is kept; otherwise only `policyset_ids` changes |
| NatPush.NatStackPrep | pov-automation/02_policy_scripts/push_policy_refactored_original-gemini.py:2930-2944 | a NAT stack is prepared under its own name exactly when it is a dict whose members swap |
| NatPush.AllSkipped | pov-automation/02_policy_scripts/push_policy_refactored_original-gemini.py:1121-1130 | a list whose every item the translation skips becomes the empty list |
| NatPush.SwapLearnt | pov-automation/02_policy_scripts/push_policy_refactored_original-gemini.py:2933-2938 | members named by a learnt set become that set's fresh id, in order |
| NatPush.UncataloguedMembersDropped | pov-automation/02_policy_scripts/push_policy_refactored_original-gemini.py:2940-2942 | members the name-to-id translation does not know are all dropped and the stack's `policyset_ids` ends up null |
| NatPush.SwappedMembersDropped | pov-automation/02_policy_scripts/push_policy_refactored_original-gemini.py:2933-2944 | as written: a stack naming only sets pushed in this run, none of whose fresh ids is a catalogued set name, is sent with a null `policyset_ids` |
| NatPush.NatStackPrepIntended | pov-automation/02_policy_scripts/push_policy_refactored_original-gemini.py:2930-2944 | corrected: prepared exactly when the stack is a dict whose members swap, under its own name; a non-empty swapped member list is sent as it is |
| NatPush.SwappedMembersKept | pov-automation/02_policy_scripts/push_policy_refactored_original-gemini.py:2933-2938 | corrected: a stack naming only sets pushed in this run is sent with each member as that set's fresh id, in order |
| PerformancePush.PerfPrep | pov-automation/02_policy_scripts/push_policy_refactored_original-gemini.py:3051-3065 | the threshold profile name becomes its id when the catalogue knows it; every other key of the rule is kept; a rule without a profile is prepared as written |
| PerformancePush.PerfPreps | pov-automation/02_policy_scripts/push_policy_refactored_original-gemini.py:3051-3065 | every entry is prepared, in order |
| PerformancePush.PerfOrderPut | pov-automation/02_policy_scripts/push_policy_refactored_original-gemini.py:3091-3092 | the order update carries exactly the set id and the resolved ids |
| PerformancePush.PerfOrder | pov-automation/02_policy_scripts/push_policy_refactored_original-gemini.py:3089-3092 | no write for an empty order or a default set; otherwise one PUT of the resolved ids, and a failure leaves the controller unchanged |
| PerformancePush.PerfFinish | pov-automation/02_policy_scripts/push_policy_refactored_original-gemini.py:3089-3098 | the order write, then one DELETE per controller rule the document does not name |
| PerformancePush.FinishPerf | pov-automation/02_policy_scripts/push_policy_refactored_original-gemini.py:3089-3098 | the finishing method leaves the controller PerfFinish describes |
| PerformancePush.DefaultFinish | pov-automation/02_policy_scripts/push_policy_refactored_original-gemini.py:3089-3098 | on a default set the finish is just the orphan DELETEs |
| PerformancePush.DefaultSetKeepsOrder | pov-automation/02_policy_scripts/push_policy_refactored_original-gemini.py:3041-3098 | the rule pass of a default set writes only rules: its order is never sent |
| PerformancePush.SyncPerfRules | pov-automation/02_policy_scripts/push_policy_refactored_original-gemini.py:3041-3098 | the rule method leaves the controller PerfRules describes |
| PerformancePush.PerfSetPut | pov-automation/02_policy_scripts/push_policy_refactored_original-gemini.py:3016-3021 | an unchanged set is not written; a changed one gets one PUT of the merged payload, without the order when the payload says it is the default set |
| PerformancePush.PutPerfSet | pov-automation/02_policy_scripts/push_policy_refactored_original-gemini.py:3016-3021 | the set update method leaves the controller PerfSetPut describes |
| PerformancePush.PerfCleared | pov-automation/02_policy_scripts/push_policy_refactored_original-gemini.py:2996-3005 | the body posted or compared has the order and `clone_from` nulled and no rules; every other key is kept |
| PerformancePush.PerfSet | pov-automation/02_policy_scripts/push_policy_refactored_original-gemini.py:2992-3098 | one performance set pushed leaves the catalogue as it was; a body that is not a dict fails the run |
| PerformancePush.DefaultFromDocument | pov-automation/02_policy_scripts/push_policy_refactored_original-gemini.py:3090 | whether a set is the default set is read from its document, which clearing does not change |
| PerformancePush.PerfSetStep | pov-automation/02_policy_scripts/push_policy_refactored_original-gemini.py:2992-3098 | the per-set method leaves the controller and the id maps where PerfSet says |
| PerformancePush.PerfStackPrep | pov-automation/02_policy_scripts/push_policy_refactored_original-gemini.py:3107-3127 | a stack is prepared under its own name; its default set id becomes the fresh id of the shared default set whenever that set was pushed, and is kept otherwise |
| PerformancePush.PerfSwapKept | pov-automation/02_policy_scripts/push_policy_refactored_original-gemini.py:3115-3121 | members named by a learnt set become that set's fresh id, in order, in the prepared stack |
| NatPush.NatRules | pov-automation/02_policy_scripts/push_policy_refactored_original-gemini.py:2863-2921 | when the live NAT rules cannot be keyed or the set has no rule entries, nothing is sent and the set is not reported changed; otherwise the request log only grows |
| NatPush.ExistingNatSet | pov-automation/02_policy_scripts/push_policy_refactored_original-gemini.py:2827-2845 | an existing NAT set is learnt under its live id in both directions and the catalogue is unchanged |
| NatPush.NewNatSet | pov-automation/02_policy_scripts/push_policy_refactored_original-gemini.py:2845-2921 | a created NAT set is learnt under the id the POST returned, in both directions; a failed POST keeps the run except for the request log; the catalogue is unchanged |
| PerformancePush.PerfRules | pov-automation/02_policy_scripts/push_policy_refactored_original-gemini.py:3041-3098 | when the live performance rules cannot be keyed or the rule list is not iterable, nothing is sent and the set is not reported changed; otherwise the request log only grows |
| PerformancePush.ExistingPerfSet | pov-automation/02_policy_scripts/push_policy_refactored_original-gemini.py:3007-3023 | an existing performance set is learnt under its live id in both directions; the catalogue is unchanged and the request log only grows |
| PerformancePush.NewPerfSet | pov-automation/02_policy_scripts/push_policy_refactored_original-gemini.py:3023-3098 | a created performance set is learnt under the id the POST returned, in both directions; a failed POST keeps the run except for the request log; the catalogue is unchanged |
| NatPush.ExistingNatStep | pov-automation/02_policy_scripts/push_policy_refactored_original-gemini.py:2827-2921 | the existing-set method leaves the controller, the handshake maps and the outcome where ExistingNatSet describes |
| NatPush.NewNatStep | pov-automation/02_policy_scripts/push_policy_refactored_original-gemini.py:2845-2921 | the new-set method leaves the controller, the handshake maps and the outcome where NewNatSet describes |
| PerformancePush.ExistingPerfStep | pov-automation/02_policy_scripts/push_policy_refactored_original-gemini.py:3007-3098 | the existing-set method leaves the controller, the handshake maps and the outcome where ExistingPerfSet describes |
| PerformancePush.NewPerfStep | pov-automation/02_policy_scripts/push_policy_refactored_original-gemini.py:3023-3098 | the new-set method leaves the controller, the handshake maps and the outcome where NewPerfSet describes |
| Push.SetStep | pov-automation/02_policy_scripts/push_policy_refactored_original-gemini.py:2807-2921 | one set of any kind pushed: only that kind's tables change; NAT and performance keep the catalogue and feed the id handshake, the other kinds keep the handshake maps; the security step is the script as written (SecurityPush.SecuritySetAsWritten) |
| Push.SetsPass | pov-automation/02_policy_scripts/push_policy_refactored_original-gemini.py:2807-2921 | the set loop over a document changes only that kind's tables, and none for NAT and performance |
| Push.StackPrep | pov-automation/02_policy_scripts/push_policy_refactored_original-gemini.py:2930-2944 | a stack is prepared under its own name |
| Push.StackPreps | pov-automation/02_policy_scripts/push_policy_refactored_original-gemini.py:2930-2944 | every stack of the document is prepared, in order |
| Push.StacksPass | pov-automation/02_policy_scripts/push_policy_refactored_original-gemini.py:2930-2957 | the stack loop sends exactly the planned per-stack writes (POST a new stack, PUT a changed one) and touches neither the catalogue nor the handshake maps |
| Push.NoLiveStackAllPosted | pov-automation/02_policy_scripts/push_policy_refactored_original-gemini.py:2954-2957 | against a controller with no stacks every planned stack write is a POST |
| Push.Shield | pov-automation/02_policy_scripts/push_policy_refactored_original-gemini.py:2962-2970 | the orphan loops of every kind but path skip the controller's default stack or set; path shields nothing |
| Push.Section | pov-automation/02_policy_scripts/push_policy_refactored_original-gemini.py:2802-2805 | a section that cannot be read yields nothing; a missing section is empty for NAT and performance and stops the others; a present one is taken as it is |
| Push.Reconciled | pov-automation/02_policy_scripts/push_policy_refactored_original-gemini.py:2799-2957 | the set and stack passes of one kind change only that kind's tables, and succeed only when both sections were found |
| Push.DomainPush | pov-automation/02_policy_scripts/push_policy_refactored_original-gemini.py:2793-2975 | a kind's push is the reconciliation followed by the orphan stack DELETEs and then the orphan set DELETEs, judged against the catalogue read before the push |
| Push.DefaultsSpared | pov-automation/02_policy_scripts/push_policy_refactored_original-gemini.py:2962-2973 | for every kind but path each orphan DELETE is of a controller object the document does not name and that is not the default |
| Push.PathDeletesEveryOrphan | pov-automation/02_policy_scripts/push_policy_refactored_original-gemini.py:2327-2348 | the path push deletes every controller stack or set the document does not name, the default included |
| Push.Domains | pov-automation/02_policy_scripts/push_policy_refactored_original-gemini.py:3219-3254 | every mode but `all` pushes exactly one kind |
| Push.Pushes | pov-automation/02_policy_scripts/push_policy_refactored_original-gemini.py:3250-3254 | pushing a list of kinds never changes the stack tables and leaves the set tables of kinds not in the list alone |
| Push.PushesSnoc | pov-automation/02_policy_scripts/push_policy_refactored_original-gemini.py:3250-3254 | the kinds are pushed one after the other and the first failure stops the rest |
| Push.ModeOfTypeName | pov-automation/02_policy_scripts/push_policy_refactored_original-gemini.py:3219-3246 | each kind's own `-PT` name selects exactly that kind |
| Push.ModeOf | pov-automation/02_policy_scripts/push_policy_refactored_original-gemini.py:3199-3201 | exactly path, qos, nat, security, performance and all are accepted, and only `all` selects every kind |
| Push.Go | pov-automation/02_policy_scripts/push_policy_refactored_original-gemini.py:3194-3254 | an unsupported `-PT` or a catalogue that cannot be loaded stops the run without a write |
| Push.AllModePerformanceBlind | pov-automation/02_policy_scripts/push_policy_refactored_original-gemini.py:3247-3254 | in `all` mode the performance push runs after the other four against empty performance tables, because the `all` catalogue loads no performance sets or stacks |
| Push.PerformanceUntouched | pov-automation/02_policy_scripts/push_policy_refactored_original-gemini.py:3250-3253 | the first four pushes of `all` leave the performance tables as loaded |
| Push.GoAll | pov-automation/02_policy_scripts/push_policy_refactored_original-gemini.py:3247-3254 | `all` loads its own catalogue and pushes path, QoS, NAT, security and performance in that order |
| Push.BlindPushDeletesNothing | pov-automation/02_policy_scripts/push_policy_refactored_original-gemini.py:3142-3156 | a performance push against empty performance tables deletes no orphan |
| Push.SetsPassCons | pov-automation/02_policy_scripts/push_policy_refactored_original-gemini.py:2807-2921 | the set loop handles one set and goes on with the rest only when it succeeded |
| Push.PushesCons | pov-automation/02_policy_scripts/push_policy_refactored_original-gemini.py:3250-3254 | pushing from the i-th kind is that kind's push followed, on success, by the rest |
| Push.SetStepOf | pov-automation/02_policy_scripts/push_policy_refactored_original-gemini.py:2807-2921 | the per-set method leaves the controller, the catalogue and the id maps where SetStep says |
| Push.PushSets | pov-automation/02_policy_scripts/push_policy_refactored_original-gemini.py:2807-2921 | the set loop method leaves the controller, catalogue and id maps where SetsPass says, starting from empty handshake maps |
| Push.ReconcileDomain | pov-automation/02_policy_scripts/push_policy_refactored_original-gemini.py:2802-2958 | the sets pass then the stacks pass of one kind leave the controller and catalogue where Reconciled says, and report whether both ran to their end |
| Push.PushDomain | pov-automation/02_policy_scripts/push_policy_refactored_original-gemini.py:2793-2975 | one kind's push method leaves the controller and catalogue where DomainPush says |
| Push.PushAll | pov-automation/02_policy_scripts/push_policy_refactored_original-gemini.py:3250-3254 | the pushes of the selected kinds, run in order, leave the controller and catalogue where Pushes says, stopping at the first that fails |
| Push.GoPush | pov-automation/02_policy_scripts/push_policy_refactored_original-gemini.py:3161-3254 | the entry point leaves the controller where Go says |
| Push.Orphans | pov-automation/02_policy_scripts/push_policy_refactored_original-gemini.py:2962-2973 | one DELETE at the level's root per live object that the document does not name and the shield does not protect, and no other request; never more requests than live objects |
| Export.RenameAll | pov-automation/02_policy_scripts/pull_policy_master.py:57 | the app ids become display names where the table knows them and stay otherwise, one for one and in order; an unhashable id raises |
| Export.ExportRule | pov-automation/02_policy_scripts/pull_policy_master.py:49-58 | an exported rule is the rule without the volatile keys, with its threshold profile id named (performance only, when known) and its app ids renamed; every other key is kept |
| Export.RuleEntry | pov-automation/02_policy_scripts/pull_policy_master.py:82 | a rule is exported as a single-key wrapper under its own name holding its exported body, exactly when it has a hashable name and its body exports; a per-domain entry reads the name first (TypeError for a non-dict, KeyError without a name), a combined entry translates first and raises what that raises; an unhashable name is a TypeError |
| Export.StackEntry | pov-automation/02_policy_scripts/pull_policy_master.py:66-70 | a stack is exported under its own name, cleaned, with its member set ids named through the set table; every other key is kept; without a name it raises KeyError, with an unhashable name TypeError |
| Export.FirstsEach | pov-automation/02_policy_scripts/pull_policy_master.py:79-83 | an export loop fails exactly when one iteration fails; otherwise entry i is iteration i's value |
| Export.FirstsOk | pov-automation/02_policy_scripts/pull_policy_master.py:79-83 | a loop whose every iteration succeeded returns their values in order |
| Export.FirstsFail | pov-automation/02_policy_scripts/pull_policy_master.py:79-83 | a loop raises the error of its first failing iteration |
| Export.RuleResults | pov-automation/02_policy_scripts/pull_policy_master.py:79-83 | the rule loop runs one iteration per fetched rule |
| Export.ExportedRules | pov-automation/02_policy_scripts/pull_policy_master.py:79-83 | the rule list has one entry per fetched rule |
| Export.RulesEach | pov-automation/02_policy_scripts/pull_policy_master.py:79-83 | the rule loop fails exactly when some rule fails; otherwise entry i is the export of fetched rule i |
| Export.StackResults | pov-automation/02_policy_scripts/pull_policy_master.py:66-70 | the stack loop runs one iteration per listed stack |
| Export.ExportedStacks | pov-automation/02_policy_scripts/pull_policy_master.py:66-70 | the stack list has one entry per listed stack |
| Export.StacksEach | pov-automation/02_policy_scripts/pull_policy_master.py:66-70 | the stack loop fails exactly when some stack fails; otherwise entry i is the export of listed stack i |
| Export.Items | pov-automation/02_policy_scripts/pull_policy_master.py:65 | `get("items", [])` on a response body: a missing key gives no items, a list gives its items, a body that is not a dict raises |
| Export.Collapse | pov-automation/02_policy_scripts/sdwan_master_policy.py:86-87 | storing wrappers by name keeps each name once |
| Export.Unfold | pov-automation/02_policy_scripts/sdwan_master_policy.py:93-94 | a dict turned back into a list of single-key wrappers, one per key, in key order |
| Export.RulesWrapped | pov-automation/02_policy_scripts/pull_policy_master.py:82-83 | every exported rule is a wrapper |
| Export.SetEntry | pov-automation/02_policy_scripts/pull_policy_master.py:74-97 | a set is exported under its own hashable name, cleaned, with its fetched rules exported under the kind's rule key (`rules`, collapsed by name, for the combined exporter); a set without id or name raises, an unhashable name raises TypeError |
| Export.SetResults | pov-automation/02_policy_scripts/pull_policy_master.py:74-97 | the set loop runs one iteration per listed set |
| Export.ExportedSets | pov-automation/02_policy_scripts/pull_policy_master.py:74-97 | the set list has one entry per listed set |
| Export.SetsEach | pov-automation/02_policy_scripts/pull_policy_master.py:74-97 | the set loop fails exactly when some set fails; otherwise entry i is the export of listed set i |
| Export.PullGeneric | pov-automation/02_policy_scripts/pull_policy_master.py:60-108 | a per-kind document has exactly the kind's stack key and set key, holding the exported stacks and sets, and exists exactly when neither loop raised |
| Export.CollectWrapped | pov-automation/02_policy_scripts/push_policy_refactored_original-gemini.py:1956-1960 | the pusher's reading loop accepts any list of wrappers and finds every wrapper's name |
| Export.ReadsBack | pov-automation/02_policy_scripts/push_policy_refactored_original-gemini.py:1946-1960 | reading a section that is a list of wrappers finds every wrapper's name |
| Export.RuleNames | pov-automation/02_policy_scripts/pull_policy_master.py:82 | each fetched item's name as text |
| Export.RulesNamed | pov-automation/02_policy_scripts/pull_policy_master.py:82-83 | exported rules are wrappers named after their rules |
| Export.StacksNamed | pov-automation/02_policy_scripts/pull_policy_master.py:66-70 | exported stacks are wrappers named after their stacks |
| Export.SetsNamed | pov-automation/02_policy_scripts/pull_policy_master.py:74-97 | exported sets are wrappers named after their sets |
| Export.SetsReadBack | pov-automation/02_policy_scripts/pull_policy_master.py:60-108 | the pusher reading an exported document for its sets finds every listed set under its name |
| Export.StacksReadBack | pov-automation/02_policy_scripts/pull_policy_master.py:60-108 | the pusher reading an exported document for its stacks finds every listed stack under its name |
| Export.UnwrapKeeps | pov-automation/02_policy_scripts/push_policy_refactored_original-gemini.py:1956-1960 | unwrapping keeps every field of the body but `name` |
| Export.RulesListed | pov-automation/02_policy_scripts/pull_policy_master.py:88-96 | the body unwrapped from an exported set lists the set's rules under the kind's rule key |
| Export.RulesReadBack | pov-automation/02_policy_scripts/pull_policy_master.py:88-96 | for path, QoS, NAT and security, the pusher reading an exported set's rule key finds every fetched rule under its name |
| Export.NoContentNoRules | pov-automation/02_policy_scripts/pull_policy_master.py:77 | a rule fetch without `cgx_content` leaves the set with an empty rule list |
| Export.CollapseLastWins | pov-automation/02_policy_scripts/sdwan_master_policy.py:86-87 | rules sharing a name collapse to one, the last one's body, and no name twice |
| Export.CollapseWrapped | pov-automation/02_policy_scripts/sdwan_master_policy.py:90 | every body in the collapsed rules is a dict, so unfolding gives wrappers again |
| Export.CollapseNames | pov-automation/02_policy_scripts/sdwan_master_policy.py:86-87 | exactly the names of the entries are stored |
| Export.CollapseSnoc | pov-automation/02_policy_scripts/sdwan_master_policy.py:86-87 | storing one more entry is one dict assignment |
| Export.BareDictOnlyCombined | pov-automation/02_policy_scripts/sdwan_master_policy.py:79-84 | a fetch that returns a bare dict holding rules gives rules only to the combined exporter; the per-domain exporter lists none |
| Export.CombinedStacks | pov-automation/02_policy_scripts/sdwan_master_policy.py:66-71 | the combined stack loop succeeds exactly when the per-domain one does |
| Export.CombinedSets | pov-automation/02_policy_scripts/sdwan_master_policy.py:73-91 | the combined set loop succeeds exactly when the per-domain set loop of the combined exporter does |
| Export.CombinedRules | pov-automation/02_policy_scripts/sdwan_master_policy.py:86-87 | the combined rule loop succeeds exactly when the per-domain rule loop does |
| Export.Written | pov-automation/02_policy_scripts/sdwan_master_policy.py:93-94 | a finished pull writes only its two sections, each as the unfolded loop result; a pull that raised writes nothing |
| Export.SectionNamesDistinct | pov-automation/02_policy_scripts/sdwan_master_policy.py:121-128 | no two sections of the combined document share a name |
| Export.PulledSections | pov-automation/02_policy_scripts/sdwan_master_policy.py:130-136 | after every target was pulled, each target's two sections hold its own stacks and sets, whatever the other targets wrote |
| Export.PulledKeeps | pov-automation/02_policy_scripts/sdwan_master_policy.py:130-136 | a section no target writes keeps its value |
| Export.MasterPull.constructor | pov-automation/02_policy_scripts/sdwan_master_policy.py:28 | the combined document starts empty |
| Export.MasterPull.PullGenericPolicy | pov-automation/02_policy_scripts/sdwan_master_policy.py:62-94 | one combined pull succeeds exactly when both loops do and leaves the document as Written says |
| Export.MasterPull.PullTargets | pov-automation/02_policy_scripts/sdwan_master_policy.py:130-136 | pulling the targets leaves the document and the outcome Pulled describes |
| Export.Each | pov-automation/02_policy_scripts/pull_policy_master.py:79-83 | the iterations of a loop, one per item |
| Export.AppendLoop | pov-automation/02_policy_scripts/pull_policy_master.py:79-83 | the appending loop returns every iteration's value in order, or the first error |
| Export.StoreLoop | pov-automation/02_policy_scripts/sdwan_master_policy.py:86-87 | the storing loop fails as the appending loop would, and otherwise returns the collapsed wrappers |
| Export.RulesLoop | pov-automation/02_policy_scripts/pull_policy_master.py:79-83 | the rule loop method returns ExportedRules |
| Export.CollapseRulesLoop | pov-automation/02_policy_scripts/sdwan_master_policy.py:86-87 | the combined rule loop method returns CombinedRules |
| Export.StacksLoop | pov-automation/02_policy_scripts/pull_policy_master.py:66-70 | the stack loop method returns ExportedStacks |
| Export.CollapseStacksLoop | pov-automation/02_policy_scripts/sdwan_master_policy.py:66-71 | the combined stack loop method returns CombinedStacks |
| Export.SetEntryOf | pov-automation/02_policy_scripts/pull_policy_master.py:74-97 | one set iteration method returns SetEntry |
| Export.SetsLoop | pov-automation/02_policy_scripts/pull_policy_master.py:73-97 | the set loop method returns ExportedSets |
| Export.CollapseSetsLoop | pov-automation/02_policy_scripts/sdwan_master_policy.py:73-91 | the combined set loop method returns CombinedSets |
| Export.PullGenericPolicy | pov-automation/02_policy_scripts/pull_policy_master.py:60-108 | the per-kind pull method returns PullGeneric |
| Export.Renamed | pov-automation/02_policy_scripts/pull_policy_master.py:57 | an id the table does not know is kept; a known one becomes the name the table maps it to |
| Export.RenameApps | pov-automation/02_policy_scripts/pull_policy_master.py:55-57 | only app_def_ids changes; a falsy app list leaves the rule as it was; a truthy one is replaced by the names the table knows, one for one |
| Export.Pulled | pov-automation/02_policy_scripts/sdwan_master_policy.py:130-136 | the pull of all targets succeeds exactly when each target's stacks and sets can both be pulled |
| Restore.Dictionaries | pov-automation/02_policy_scripts/restore_policy_all.py:83-100 | the restore tool builds the app, context, threshold and zone name tables (the refactored variant only the threshold one) and fails exactly when one of those listings has an entry without its keys |
| Restore.ThresholdsLastWins | pov-automation/02_policy_scripts/restore_policy_all.py:94-95 | a threshold profile name maps to the id of the last profile listed under it |
| Restore.RestoreRule | pov-automation/02_policy_scripts/restore_policy_all.py:128-133 | a restored rule has its threshold profile name mapped to an id when known and its app names mapped to ids when `app_filters` holds some; every other key is kept; a rule that is not a dict or holds an unhashable value raises |
| Restore.RefactoredKeepsAppIds | pov-automation/02_policy_scripts/push_policy_refactored.py:48-111 | the refactored variant's app table is never filled, so its rules keep their application names |
| Restore.ThresholdRoundTrip | pov-automation/02_policy_scripts/restore_policy_all.py:129-130 | exporting a rule with a known profile and restoring it with the inverse table gives back the profile id |
| Restore.PostedRule | pov-automation/02_policy_scripts/restore_policy_all.py:125-136 | a rule is posted as the cleaned translation of the body of its wrapper's first key |
| Restore.PostedRules | pov-automation/02_policy_scripts/restore_policy_all.py:125-136 | every listed rule is prepared, in order |
| Restore.RulePosts | pov-automation/02_policy_scripts/restore_policy_all.py:136 | one rule POST per prepared body, under the set id, in order |
| Restore.RulesPosted | pov-automation/02_policy_scripts/restore_policy_all.py:125-136 | the rule loop succeeds exactly when every rule prepares; a dry run writes nothing; a live run posts every rule in order |
| Restore.Popped | pov-automation/02_policy_scripts/restore_policy_all.py:111 | popping `rules` returns them (an empty list by default) and leaves the set body without them and otherwise unchanged; a set that is not a dict raises |
| Restore.SetBody | pov-automation/02_policy_scripts/restore_policy_all.py:116 | the set written is the body without the volatile keys |
| Restore.SetWrittenWithoutRules | pov-automation/02_policy_scripts/restore_policy_all.py:111-122 | the written set never carries `rules` and keeps every other non-volatile key of the document |
| Restore.SetSync | pov-automation/02_policy_scripts/restore_policy_all.py:113-123 | a dry run writes nothing and uses the existing id or the placeholder id; a live run PUTs a set that exists by name and POSTs a new one, taking the id the POST returned (null when it was refused) |
| Restore.PerfSets | pov-automation/02_policy_scripts/push_policy_refactored.py:77-78 | the sets are read from `performance_sets`; the refactored variant stops quietly on an empty or missing value, a value that is not a list raises |
| Restore.RulesOnlyPost | pov-automation/02_policy_scripts/restore_policy_all.py:125-136 | the rule loop sends only performance rule POSTs |
| Restore.Extends | pov-automation/02_policy_scripts/restore_policy_all.py:103-136 | one restore step after another still only sends restore writes |
| Restore.SetSyncOnly | pov-automation/02_policy_scripts/restore_policy_all.py:113-123 | the set sync sends only performance set writes |
| Restore.SetsOnlyRestore | pov-automation/02_policy_scripts/restore_policy_all.py:108-136 | the set loop sends only performance set and rule writes |
| Restore.SetStepOnly | pov-automation/02_policy_scripts/restore_policy_all.py:108-136 | one set iteration sends only performance set and rule writes |
| Restore.RestoreOnlyWrites | pov-automation/02_policy_scripts/restore_policy_all.py:103-136 | the performance restore never deletes and never writes outside performance sets and rules |
| Restore.SetsDry | pov-automation/02_policy_scripts/restore_policy_all.py:113-135 | the set loop in dry-run mode leaves the controller unchanged |
| Restore.DryRunWritesNothing | pov-automation/02_policy_scripts/restore_policy_all.py:103-136 | a dry run leaves the controller unchanged |
| Restore.FalsySetsVariants | pov-automation/02_policy_scripts/push_policy_refactored.py:77-78 | on an empty or missing set list the refactored variant returns without a write, while `restore_policy_all.py` raises on an explicit null |
| Restore.ReadsCombinedExport | pov-automation/02_policy_scripts/restore_policy_all.py:108-111 | a set exported by the combined exporter is read back under its own name, with its `rules` a list of wrappers |
| Restore.SetRequests | pov-automation/02_policy_scripts/restore_policy_all.py:108-136 | a live set iteration sends the set's PUT or POST without `rules`, then one POST per rule under the set's id |
| Restore.CreateGlobalDicts | pov-automation/02_policy_scripts/restore_policy_all.py:83-100 | the dictionary method returns Dictionaries of the controller's listings |
| Restore.PushRules | pov-automation/02_policy_scripts/restore_policy_all.py:125-136 | the rule loop method leaves the controller RulesPushed describes |
| Restore.SyncSet | pov-automation/02_policy_scripts/restore_policy_all.py:113-123 | the set sync method leaves the controller SetSync describes |
| Restore.PushSet | pov-automation/02_policy_scripts/restore_policy_all.py:108-136 | one set iteration method leaves the controller SetStep describes |
| Restore.PushSets | pov-automation/02_policy_scripts/restore_policy_all.py:108-136 | the set loop method leaves the controller SetsPushed describes |
| Restore.PushPolicyPerformance | pov-automation/02_policy_scripts/restore_policy_all.py:103-136 | the restore method leaves the controller Restored describes |
| Restore.GoRun | pov-automation/02_policy_scripts/restore_policy_all.py:146-166 | only the performance and all modes write anything; the refactored tool fails without a write in any other mode, because its four other restores are not defined |
| Restore.Go | pov-automation/02_policy_scripts/restore_policy_all.py:146-166 | the entry point leaves the controller GoRun describes |
| Restore.RulesPushed | pov-automation/02_policy_scripts/restore_policy_all.py:125-136 | the request log only grows; a failed rule loop fails with the error of one of the rule bodies |
| Restore.SetStep | pov-automation/02_policy_scripts/restore_policy_all.py:113-136 | a set entry that is not a non-empty dict fails with that error before anything is sent; otherwise the request log only grows |
| Restore.SetsPushed | pov-automation/02_policy_scripts/restore_policy_all.py:113-136 | the request log only grows; a first entry that is not a non-empty dict stops the restore before any request |
| Restore.Existing | pov-automation/02_policy_scripts/restore_policy_all.py:105 | the name→id dict of the live performance sets is built exactly when every listed set has an id and a name; each name maps to the id of the last set carrying it |
| Restore.Restored | pov-automation/02_policy_scripts/restore_policy_all.py:103-136 | the restore only appends to the request log; a live set without id or name raises KeyError before anything is written; a failing read of the sets raises that error unwritten; no sets means success without writes |
| Topology.Tagged | scm_sdwan_topology.py:256-257 | every listed id is paired, as text, with the same state, in order |
| Topology.LabelDisplay | scm_sdwan_topology.py:199-202 | a label reads `name (code)` when both are set and differ, otherwise its name, else its code, else its id; a label with an id never reads as empty |
| Topology.LabelEntries | scm_sdwan_topology.py:197-203 | the lookup loop assigns only non-empty ids to non-empty displays |
| Topology.LabelEntriesCover | scm_sdwan_topology.py:197-203 | every label with an id makes its assignment |
| Topology.LabelLookup | scm_sdwan_topology.py:191-204 | the label lookup maps ids to non-empty displays and never the empty id; it raises exactly when a label is not a dict |
| Topology.LabelLookupLastWins | scm_sdwan_topology.py:197-203 | every label with an id is in the lookup and the last label with that id decides its display |
| Topology.AddLabel | scm_sdwan_topology.py:198-203 | one turn of the lookup loop performs that label's assignment, or none |
| Topology.GetWanLabelLookup | scm_sdwan_topology.py:191-204 | the lookup loop returns LabelLookup |
| Topology.LabelFor | scm_sdwan_topology.py:219 | a known label id reads as its display, an unknown one as `label_id:` and the id |
| Topology.WanPairs | scm_sdwan_topology.py:215-222 | a WAN interface without a label id contributes nothing; otherwise each of its interface ids gets its label's display; a non-dict or a non-iterable id list raises |
| Topology.AllPairsRaise | scm_sdwan_topology.py:215-222 | once a WAN interface raises, the whole scan raises the same way |
| Topology.LabelsOf | scm_sdwan_topology.py:220-222 | an interface's labels are at most the pairs there are |
| Topology.GroupedIsLabelsOf | scm_sdwan_topology.py:220-222 | an interface is in the map exactly when some pair names it, and its list holds its labels in the order they were met |
| Topology.InterfaceLabels | scm_sdwan_topology.py:206-223 | each mapped interface holds the non-empty list of its labels in order; the map raises exactly when the scan does |
| Topology.AppendLabel | scm_sdwan_topology.py:220-222 | the inner loop appends the display under each interface id |
| Topology.GetSiteInterfaceLabelsMap | scm_sdwan_topology.py:206-223 | the interface-label loop returns InterfaceLabels |
| Topology.WanLabels | scm_sdwan_topology.py:216-222 | one WAN interface appends its label under each of its interface ids, exactly the pairs WanPairs lists, or raises as WanPairs does |
| Topology.HealthWindow | scm_sdwan_topology.py:234-236 | both ends as given when both are set, otherwise the last six hours |
| Topology.HealthRequest | scm_sdwan_topology.py:238-244 | the health request carries the window and asks for good, fair and poor sites, with exactly its five keys in order |
| Topology.HealthBucket | scm_sdwan_topology.py:249-253 | the bucket is a `site_health` entry of the `data` list, and there is none exactly when the reply has no such list or no such entry |
| Topology.StatusIds | scm_sdwan_topology.py:255 | a missing or empty state lists no site, a listed one its `site_ids` |
| Topology.BucketPairs | scm_sdwan_topology.py:254-257 | the bucket only assigns good, fair or poor, and succeeds exactly when each state's ids can be read |
| Topology.BucketMap | scm_sdwan_topology.py:249-257 | the bucket map holds only the three states, and no bucket gives an empty map |
| Topology.Precedence | scm_sdwan_topology.py:254-257 | a site is mapped exactly when some state lists it, and it keeps the last of good, fair, poor that lists it |
| Topology.BucketPrecedence | scm_sdwan_topology.py:254-257 | the bucket gives each site the last state listing it and leaves unlisted sites out |
| Topology.AssignAll | scm_sdwan_topology.py:256-257 | the inner loop assigns the state to every listed site |
| Topology.BucketAssign | scm_sdwan_topology.py:254-257 | the bucket loop returns the assignments BucketPairs makes, or its error |
| Topology.WalkEntry | scm_sdwan_topology.py:261-267 | the walk assigns at a dict exactly when it has a site id and a health text that folds to good, fair or poor, and then assigns that state |
| Topology.WalkStep | scm_sdwan_topology.py:261-267 | the walk makes at most one assignment per dict, always a known state |
| Topology.WalkPairsAppend | scm_sdwan_topology.py:268-272 | the walk over two runs of dicts makes the first run's assignments and then the second's |
| Topology.HealthMap | scm_sdwan_topology.py:233-283 | the health map holds only good, fair or poor; it raises exactly when the bucket does; a non-empty bucket map is used as it is |
| Topology.WalkStatuses | scm_sdwan_topology.py:259-273 | the fallback walk only ever assigns good, fair or poor |
| Topology.WalkLastWins | scm_sdwan_topology.py:259-273 | without a usable bucket each site's state is the last one the walk finds for it |
| Topology.Walk | scm_sdwan_topology.py:260-272 | the recursive walk assigns exactly the walk's pairs, in order |
| Topology.WalkDict | scm_sdwan_topology.py:261-269 | walking a dict assigns its own entry (when it has a site id and a known health) and then the pairs of its values, in order |
| Topology.WalkFields | scm_sdwan_topology.py:268-269 | walking a dict's values assigns the pairs of each value in turn |
| Topology.WalkItems | scm_sdwan_topology.py:271-272 | walking a list assigns the pairs of each item in turn |
| Topology.GetAiopsSiteHealthMap | scm_sdwan_topology.py:246-283 | the health method returns HealthMap of the reply |
| Topology.HealthSuffix | scm_sdwan_topology.py:287-293 | nothing without a health map, `n/a` for an unmapped site, else the state capitalised |
| Topology.HealthSuffixOfMap | scm_sdwan_topology.py:287-293 | every site the health lookup mapped prints as Good, Fair or Poor |
| Topology.LinkSwitches | scm_sdwan_topology.py:519-520 | service links and stub links are each shown unless their `--no-` flag is given, whatever the positive flag says |
| Topology.AllPairs | scm_sdwan_topology.py:206-222 | collecting the interface labels succeeds exactly when every WAN interface item can be read |
| Topology.Grouped | scm_sdwan_topology.py:220-222 | every interface in the grouped map has at least one label and no more than there were pairs |
| Topology.WalkPairs | scm_sdwan_topology.py:260-272 | the walk yields at most one assignment per dict visited, each to a known health state |
| TopologyDetail.SiteNameToId | scm_sdwan_topology-detail_byname_plus2.py:164-174 | the first loop stops at the first site whose name is unreadable (not a dict, or a truthy non-string), raising AttributeError there, or whose trimmed, case-folded name equals the query, giving its id; when it runs through, the id of the first site whose name starts with the query; none only when every name is readable and none starts with it |
| TopologyDetail.ExactIsPrefix | scm_sdwan_topology-detail_byname_plus2.py:168-172 | an exact match is also a prefix match |
| TopologyDetail.UnresolvedIffNoPrefix | scm_sdwan_topology-detail_byname_plus2.py:164-174 | a name is unresolved exactly when every site name is readable and none starts with it |
| TopologyDetail.Pick | scm_sdwan_topology-detail_byname_plus2.py:273-278 | the first non-null value under the key, looking in status, then state, then info; null exactly when none holds one |
| TopologyDetail.OrNa | scm_sdwan_topology-detail_byname_plus2.py:297-299 | a falsy cipher reads `n/a`, any other value is kept |
| TopologyDetail.UnlessNone | scm_sdwan_topology-detail_byname_plus2.py:300-303 | only a missing keep-alive value reads `n/a`; zero is kept |
| TopologyDetail.Flags | scm_sdwan_topology-detail_byname_plus2.py:288-292 | one `key=yes/no` flag for each of active, usable, link_up whose picked value is a boolean, and no other |
| TopologyDetail.MergeVpnlinkMeta | scm_sdwan_topology-detail_byname_plus2.py:269-307 | each cipher and keep-alive field of the merged link is the picked value with its `n/a` default, and the flags are Flags of the three sources; each endpoint's site id is the picked value as text, or `""` when it is falsy |
| TopologyDetail.StatusWinsZeroKept | scm_sdwan_topology-detail_byname_plus2.py:273-303 | for any three documents, a zero keep-alive interval in the status wins over the other sources and is shown as zero, while an empty picked cipher falls back to `n/a` |
| TopologyDetail.NodeName | scm_sdwan_topology-detail_byname_plus2.py:311-319 | a node is shown by its name; without one a service endpoint reads ServiceEndpoint, the internet cloud Internet, anything else its id |
| TopologyDetail.AnynetIds | scm_sdwan_topology-detail_byname_plus2.py:331-333 | reading a link that is not a dict raises an AttributeError |
| TopologyDetail.PathTexts | scm_sdwan_topology-detail_byname_plus2.py:333 | each link's `path_id` as text, in order |
| TopologyDetail.AnynetIdsAre | scm_sdwan_topology-detail_byname_plus2.py:329-334 | the scan succeeds exactly when every link is a dict, and then gives the path ids of the public-anynet links with a path id, in link order |
| TopologyDetail.AnynetStep | scm_sdwan_topology-detail_byname_plus2.py:331-333 | one more link raises or adds its path id when it is a public-anynet link |
| TopologyDetail.LinksOf | scm_sdwan_topology-detail_byname_plus2.py:331 | a topology that is not a dict raises AttributeError; falsy links are none; a list of links is its items; truthy links that cannot be iterated raise TypeError, and nothing else raises |
| TopologyDetail.CollectAnynetPathIds | scm_sdwan_topology-detail_byname_plus2.py:329-334 | the collecting loop raises what reading the links raises, and otherwise returns AnynetIds of the links |
| TopologyDetail.OthersEnd | scm_sdwan_topology-detail_byname_plus2.py:337 | a run of disallowed characters ends at the next allowed character or at the end, and every character it covers is disallowed |
| TopologyDetail.ReplaceRuns | scm_sdwan_topology-detail_byname_plus2.py:337 | after replacing each run of disallowed characters by one `_`, only letters, digits, `-` and `_` remain; the result is empty only for an empty input, and a leading `_` comes from a disallowed first character |
| TopologyDetail.UnderscoresEnd | scm_sdwan_topology-detail_byname_plus2.py:338 | a leading run of underscores ends at the next other character or at the end, and covers only underscores |
| TopologyDetail.UnderscoresStart | scm_sdwan_topology-detail_byname_plus2.py:338 | a trailing run of underscores starts just after the last other character, and covers only underscores |
| TopologyDetail.CollapseUnderscores | scm_sdwan_topology-detail_byname_plus2.py:338 | collapsing runs of underscores keeps the first character and the character set, is empty only for an empty input, and leaves no double underscore |
| TopologyDetail.StripUnderscores | scm_sdwan_topology-detail_byname_plus2.py:338 | stripping underscores at both ends keeps the character set and the absence of double underscores |
| TopologyDetail.Reduced | scm_sdwan_topology-detail_byname_plus2.py:337-338 | after both substitutions and the strip, only file-name characters remain, no double underscore and no underscore at either end |
| TopologyDetail.SanitizeFilename | scm_sdwan_topology-detail_byname_plus2.py:336-339 | the file name is never empty, holds only letters, digits, `-` and `_`, has no double underscore and no underscore at either end; it keeps every letter, digit and `-` of the stripped name in order, and is `site` when there are none |
| TopologyDetail.ReplaceRunsKeeps | scm_sdwan_topology-detail_byname_plus2.py:337 | replacing runs of disallowed characters keeps the letters, digits and `-` in order |
| TopologyDetail.CollapseKeeps | scm_sdwan_topology-detail_byname_plus2.py:338 | collapsing runs of underscores keeps the letters, digits and `-` in order |
| TopologyDetail.ReducedKeeps | scm_sdwan_topology-detail_byname_plus2.py:337-338 | the reduced name keeps exactly the letters, digits and `-` of its input, in order |
| TopologyDetail.SanitizeKeepsPlainName | scm_sdwan_topology-detail_byname_plus2.py:336-339 | a stripped name already made of allowed characters with no double underscore and no underscore at either end is kept as it is |
| LabelsHealth.LabelDisplay | scm_sdwan_get-sites-elements-labels-health.py:284-294 | an unknown label reads `label_id:` and its id; a known one `name (code)` when the code is set and differs from the name, else the name, or the code when the name is empty |
| LabelsHealth.ListDisplays | scm_sdwan_get-sites-elements-labels-health.py:298-300 | a list of label ids gives at most one display per id |
| LabelsHealth.LabelStringsUnique | scm_sdwan_get-sites-elements-labels-health.py:276-319 | the labels of a WAN are non-empty and distinct, keep the order they were first met, and include every non-empty label collected from `label_id` and the link's `label_id` and `labels` |
| LabelsHealth.AddFieldLabels | scm_sdwan_get-sites-elements-labels-health.py:297-312 | one field's labels are appended to those collected so far |
| LabelsHealth.LabelStringsFromWan | scm_sdwan_get-sites-elements-labels-health.py:276-319 | the method returns LabelStrings of the WAN |
| LabelsHealth.CollectLabels | scm_sdwan_get-sites-elements-labels-health.py:296-312 | the collecting loops gather the WAN's own labels, then the link's |
| LabelsHealth.DedupLabels | scm_sdwan_get-sites-elements-labels-health.py:314-319 | the de-duplicating loop keeps the first occurrence of each non-empty label, in order |
| LabelsHealth.HealthItems | scm_sdwan_get-sites-elements-labels-health.py:331-344 | the items are the first list among items, data, sites and results; failing that, exactly the dicts nested anywhere in the response (itself included) that hold a site key, in pre-order; a list is taken as it is; anything else gives none |
| Json.DictsWithin | scm_sdwan_get-sites-elements-labels-health.py:323-330 | the flattening walk yields exactly the dicts found in the value itself, in its dict values and in its list items, at any depth |
| LabelsHealth.ExtractHealthStatus | scm_sdwan_get-sites-elements-labels-health.py:346-351 | the first non-empty text among status, site_health, state and health; none when there is none |
| LabelsHealth.HealthStrForSite | scm_sdwan_get-sites-elements-labels-health.py:408-421 | nothing without a health map, `n/a` for an unmapped site, the status alone when there is no score; a score (a float) is not modelled |
| Inventory.NameText | scm_sdwan_topology.py:199 | a falsy `name` reads as the empty text, a string name as itself |
| Inventory.IdStep | scm_sdwan_topology.py:126-130 | on a dict a missing `id` is copied from `site_id`, else `element_id`, and no other key changes; on a string or list it raises TypeError exactly when `id` is not found but `site_id` or `element_id` is, and otherwise changes nothing |
| Inventory.NameStep | scm_sdwan_topology.py:131-132 | on a dict a missing `name` is copied from `display_name`, and no other key changes; on a string or list it raises TypeError exactly when `name` is not found but `display_name` is, and otherwise changes nothing |
| Inventory.TextSearches | scm_sdwan_topology.py:126-132 | in a string, finding `site_id` or `element_id` means finding `id`, and finding `display_name` means finding `name`, so a string never reaches a copy |
| Inventory.Normalized | scm_sdwan_topology.py:125-133 | on a dict `id` is kept when present, else copied from `site_id`, else from `element_id`; `name` is kept, else copied from `display_name`; no other key changes and a dict stays a dict. An int, bool or None raises TypeError at `"id" not in o`; a string always comes back unchanged; a list raises TypeError exactly when a copy is called for (its string index), and is otherwise unchanged |
| Inventory.NormalizeIdempotent | scm_sdwan_topology.py:125-133 | normalising what normalised without raising gives the same again |
| Inventory.NormalizeAll | scm_sdwan_topology.py:139-143 | the in-place loop completes exactly when no entry raises, and then every entry is its own normalised old value; otherwise it raises the first failing entry's error, with the entries before it normalised and the rest untouched |
| Inventory.ItemsOf | scm_sdwan_sitebw_metrics.py:111-117 | a list body is the sites, a dict body its `items` list, anything else no sites |
| Inventory.ClassifyPartition | scm_sdwan_topology.py:180-187 | the split succeeds exactly when every site is a dict, and otherwise raises AttributeError (`s.get` on a non-dict); then the branches and the gateways together are a permutation of the sites, a site is a gateway exactly when its `branch_gateway` is truthy and a branch exactly when not |
| Inventory.ClassifySites | scm_sdwan_topology.py:180-187 | the loop returns exactly the branch and gateway lists of the classification, in site order, or AttributeError at the first site that is not a dict |
| Inventory.Probe | pov-automation/sdwan_add-sub-vlan.py:50-60 | one item of the loop: a match is a true match; only an unreadable field (not a dict, or a truthy non-string) raises, and it raises AttributeError |
| Inventory.ProbePassesOver | pov-automation/sdwan_add-sub-vlan.py:50-60 | an item is passed over exactly when every compared field is readable and none matches |
| Inventory.Search | pov-automation/sdwan_add-sub-vlan.py:50-60 | whatever the loop returns is one of the items and matches; what it raises is an AttributeError |
| Inventory.SearchExhausts | pov-automation/sdwan_add-sub-vlan.py:50-60 | the loop returns none exactly when every item is passed over |
| Inventory.SearchStopsAtFirst | pov-automation/sdwan_add-sub-vlan.py:50-60 | the loop ends at the first item not passed over: it returns it if it matches and raises if it cannot be read |
| Inventory.FindItem | pov-automation/sdwan_add-sub-vlan.py:50-60 | a found item is one of the items and matches the trimmed, lower-cased name; what it raises is an AttributeError |
| Inventory.ReadableNeverRaises | pov-automation/sdwan_add-sub-vlan.py:50-60 | over readable items nothing raises, and none (where the script exits) comes back exactly when no item matches |
| Inventory.ProbeReadable | pov-automation/sdwan_add-sub-vlan.py:50-60 | an item whose compared fields are all readable never raises |
| Inventory.ModelNameOnlyForVlan | pov-automation/sdwan_ion_shell_delete.py:50-58 | for example, a device known only by `model_name` is found by the sub-interface script's lookup and not by the shell remover's |
| SiteBandwidth.OptionTexts | scm_sdwan_sitebw_metrics.py:132 | one `name (id)` line per candidate site, in order |
| SiteBandwidth.ResolveSiteIdByName | scm_sdwan_sitebw_metrics.py:119-133 | an AttributeError exactly when some site is not a dict or has a truthy non-string name; otherwise a single exact (case-folded) name match wins; else a single substring match; no substring match gives the not-found message; otherwise the exact matches, or failing those the substring matches, at least two, are listed in the ambiguity message |
| SiteBandwidth.ExactIsContained | scm_sdwan_sitebw_metrics.py:122-126 | a site matching exactly also matches as a substring |
| SiteBandwidth.ResolvedIsCandidate | scm_sdwan_sitebw_metrics.py:119-128 | a resolved id is the id of a loaded site whose name contains the query |
| SiteBandwidth.BuildMetricsPayload | scm_sdwan_sitebw_metrics.py:135-161 | the six payload keys in order; a missing or empty end is now and a missing or empty start three hours ago; the interval as given; one metric holding the name, the one statistic and the unit; the view holding the individual and summary settings; the filter names only the site |
| CircuitMetrics.FilterOf | scm_monitor_circuit_metrics.py:109-118 | every key of the extra filter keeps its value; otherwise each of site, waninterface, path and direction is present exactly when given, lists for the first three and a string for direction; keys stay unique |
| CircuitMetrics.AddedWan | scm_monitor_circuit_metrics.py:111-112 | adding the WAN interface step keeps the filter equal to the selection with it |
| CircuitMetrics.AddedPath | scm_monitor_circuit_metrics.py:113-114 | adding the path step keeps the filter equal to the selection with it |
| CircuitMetrics.AddedDirection | scm_monitor_circuit_metrics.py:115-116 | adding the direction step keeps the filter equal to the selection with it |
| CircuitMetrics.BuildMetricsPayload | scm_monitor_circuit_metrics.py:84-120 | the six payload keys in order; start, end and interval as given, the metrics as given; a falsy view becomes an empty dict; the filter holds the extra filter's entries and, under other keys, exactly the given selections |
| CircuitMetrics.AllWanIdsHas | scm_monitor_circuit_metrics.py:217-221 | every WAN interface id of every item is gathered |
| CircuitMetrics.AllWanIdsFrom | scm_monitor_circuit_metrics.py:217-221 | every gathered id comes from some item's WAN interface ids |
| CircuitMetrics.GatheredIds | scm_monitor_circuit_metrics.py:217-225 | after de-duplication an id is kept exactly when some item lists it, and none is kept twice |
| CircuitMetrics.CollectWanIds | scm_monitor_circuit_metrics.py:217-225 | the loop raises AttributeError exactly when an item is not a dict, otherwise TypeError exactly when some gathered id is a list or dict, and otherwise returns the gathered ids de-duplicated in first-seen order |
| ElementStatus.ExtractMachineStatus | scm_get_element_status.py:121-125 | a machine that is not a dict raises AttributeError; otherwise the result holds exactly the eight machine fields in order, each the machine's value or null; `manufacture_id` falls back to `manufacturer_id` when it is null and the latter is present |
| ElementStatus.FieldsFind | scm_get_element_status.py:122 | looking up any machine field in the comprehension's dict yields the machine's value for it |
| ElementStatus.DigitsValueOfString | scm_get_element_status.py:114 | the decimal text of a count is all digits and reads back as that count |
| ElementStatus.DigitOf | scm_get_element_status.py:114 | each decimal digit character reads back as its digit |
| ElementStatus.PyInt | scm_get_element_status.py:114 | `int(total)` keeps an integer, maps booleans to 1 and 0, raises TypeError on null, lists and dicts, and ValueError on the empty text |
| ElementStatus.PyIntOfText | scm_get_element_status.py:114 | `int` of the decimal text of a count is that count |
| ElementStatus.PageNext | scm_get_element_status.py:106 | reading `next` under `page` raises AttributeError exactly when `page` is present, truthy and not a dict; otherwise it is that dict's `next`, or null |
| ElementStatus.NextToken | scm_get_element_status.py:106 | a truthy top-level `next` is the token; otherwise the token is what PageNext reads or raises |
| ElementStatus.Turn | scm_get_element_status.py:100-117 | a list body ends the loop with the items extended by it; a body that is neither list nor dict raises; for a dict the next token is read first, so an unreadable token raises AttributeError before a page that cannot be iterated raises TypeError, and otherwise the turn continues from the extended items with that token; the items only grow; a further request has limit 200 and exactly one of a truthy cursor or an offset equal to the items so far |
| ElementStatus.Continue | scm_get_element_status.py:111-117 | after a dict page the items are kept as they are; it continues by cursor with exactly the token when that is truthy, else by offset equal to the count so far when the total is not reached |
| ElementStatus.Listing | scm_get_element_status.py:89-119 | a listing that does not fail returns the items gathered before followed by what later pages add |
| ElementStatus.ListBodyIsLastPage | scm_get_element_status.py:100-103 | from any request and any items gathered so far, a 200 response whose body is a list ends the listing with that list appended |
| ElementStatus.ListBodyIsOnePage | scm_get_element_status.py:100-103 | in particular, a first 200 response whose body is a list is the whole listing |
| ElementStatus.TokenReadBeforeExtend | scm_get_element_status.py:105-109 | for example, a dict with an integer `items` and a non-zero integer `page` raises AttributeError (from the token), not TypeError (from the extend) |
| ElementStatus.Request | scm_get_element_status.py:95-98 | one request yields the turn its response stands for: a non-200 status raises a RuntimeError, a 200 body is read as a page |
| ElementStatus.ListMachines | scm_get_element_status.py:89-119 | the loop returns the listing of its requests from the first page (limit 200); a non-200 status fails |
| ServiceEndpoint.FindEndpointByName | scm_sdwan_update_endpoints.py:55-59 | the `id` of the first endpoint whose name equals the query exactly, null when none does; it raises exactly when an entry that is not a dict comes before any match |
| ServiceEndpoint.ReadLines | scm_sdwan_update_endpoints.py:69-74 | every kept line is non-empty and has no surrounding whitespace, and no more lines are kept than read |
| ServiceEndpoint.ReadLinesMembers | scm_sdwan_update_endpoints.py:69-74 | a text is kept exactly when it is non-empty and is some line stripped |
| ServiceEndpoint.ReadLinesOrder | scm_sdwan_update_endpoints.py:69-74 | reading one more line appends its stripped text when that is non-empty and nothing otherwise, so file order is kept |
| ServiceEndpoint.MergeUnique | scm_sdwan_update_endpoints.py:83-84 | the merge holds exactly the existing entries and the new strings, none twice; it raises exactly when the stored value is not a list or holds a list or dict |
| ServiceEndpoint.GetDefault | scm_sdwan_update_endpoints.py:80-82 | a present key gives its value, even null; an absent key gives the default |
| ServiceEndpoint.PeersOf | scm_sdwan_update_endpoints.py:87-90 | the new peers dict has exactly `ip_addresses` and `hostnames`, holding the merged lists |
| ServiceEndpoint.Rewritten | scm_sdwan_update_endpoints.py:86-90 | `_etag` and `service_link_peers` take the new values and every other key is untouched |
| ServiceEndpoint.UpdateServiceEndpoint | scm_sdwan_update_endpoints.py:77-90 | a non-dict payload or peers entry raises; otherwise it succeeds exactly when both merges do, and then `_etag` is the etag, the peers are exactly the two merged lists, and every other key is untouched |
| ServiceEndpoint.UpdateIdempotent | scm_sdwan_update_endpoints.py:77-90 | running the update again on its own result with the same lines succeeds and adds no address or hostname |
| ShellDelete.DeleteStatus | pov-automation/sdwan_ion_shell_delete.py:101-107 | 200 and 204 are success, 202 accepted, any other status failed with that status |
| ShellDelete.DeleteTarget | pov-automation/sdwan_ion_shell_delete.py:81-92 | the script exits at the site exactly when every site is passed over by the lookup; a site lookup that raises ends it with AttributeError, and so does a shell lookup that raises; a found site or shell without an id is a missing-id error; with a matching site it exits at the shell exactly when every shell is passed over; otherwise it deletes the ids of the matching site and shell |
| AddSub.FindIdByName | scm_api_sdwan_add-sub.py:50-55 | the text of the `id` of the first item whose name or display name equals the query exactly; none when no item does; it raises exactly when an entry that is not a dict comes before any match |
| AddSub.MissingIdIsFound | scm_api_sdwan_add-sub.py:50-55 | a match without an `id` resolves to the text `None`, which counts as found |
| AddSub.SiteElements | scm_api_sdwan_add-sub.py:78-80 | the kept elements are exactly those whose `site_id` text is the site id; it raises exactly when an element is not a dict |
| AddSub.Resolve | scm_api_sdwan_add-sub.py:70-92 | the three lookups run in order and the first one that raises ends the run with its error; a missing site, device or parent gives SiteMissing, DeviceMissing or ParentMissing; when all three find an id the run is Resolved with exactly those ids, and a Resolved run has come through the three lookups, all non-empty |
| AddSub.WithParent | scm_api_sdwan_add-sub.py:165 | `parent` is set to the resolved id and no other key changes; a body that is not a dict raises |
| AddSub.Eval | scm_api_sdwan_add-sub.py:98-164 | evaluating the request-body literal raises only a NameError; a bare name evaluates exactly when Python binds it (`None`, `True`, `False`), so `null`, `true` and `false` raise |
| AddSub.EntriesStopAt | scm_api_sdwan_add-sub.py:98-164 | a literal whose entries before position i all evaluate, and whose entry i raises, raises a NameError |
| AddSub.SubInterfaceBody | scm_api_sdwan_add-sub.py:57-168 | as written: a run stopped at a lookup posts nothing; a resolved run posts the literal with `parent` set to the resolved id, whatever the parameters file held |
| AddSub.ResolvedRunRaises | scm_api_sdwan_add-sub.py:98-106 | as written, every resolved run raises a NameError at the literal's first `null`, whatever follows it and whatever the parameters file held |
| AddSub.IntendedBody | scm_api_sdwan_add-sub.py:94-168 | corrected: a resolved run posts the loaded body with `parent` set to the resolved id and every other key unchanged, and fails exactly when that body is not a dict; a run stopped at a lookup posts nothing |
| RestoreCli.Targets | pov-automation/sdwan_restore.py:37 | `all` stands for the five kinds in the fixed order; any other value for itself alone |
| RestoreCli.AllCoversPolicyFiles | pov-automation/sdwan_restore.py:4-10 | the kinds `all` stands for are exactly those with a backup file |
| RestoreCli.PolicyPath | pov-automation/sdwan_restore.py:42-48 | without `-F` the kind's backup under `../`; with `-F` the file itself when it starts with `..` or `/`, else prefixed with `../` |
| RestoreCli.PolicyPathAnchored | pov-automation/sdwan_restore.py:42-48 | every chosen path starts with `..` or `/` |
| RestoreCli.PolicyPathIdempotent | pov-automation/sdwan_restore.py:42-48 | passing a chosen path back as `-F` chooses it again |
| RestoreCli.PolicyCommands | pov-automation/sdwan_restore.py:37-51 | at most one push per target |
| RestoreCli.PolicyCommandsMembers | pov-automation/sdwan_restore.py:37-51 | exactly the targets with a backup file get a push on their chosen path |
| RestoreCli.PolicyCommandsAppend | pov-automation/sdwan_restore.py:37-51 | the pushes of two target lists joined are the pushes of each, in order |
| RestoreCli.AllPoliciesPlan | pov-automation/sdwan_restore.py:37-51 | `-P all` without `-F` pushes nat, path, qos, security and performance from their backup files, in that order |
| RestoreCli.UnknownPolicySkipped | pov-automation/sdwan_restore.py:39 | a single kind without a backup file starts nothing |
| RestoreCli.ResourceCommand | pov-automation/sdwan_restore.py:31-34 | the resource push runs in the policy-script folder on `-F`, or on the latest resource backup |
| RestoreCli.SiteCommand | pov-automation/sdwan_restore.py:53-55 | the site push runs in the config-tool folder on `-F`, or on the site's own backup file |
| RestoreCli.Plan | pov-automation/sdwan_restore.py:31-55 | the commands are the resource push when `-R`, then the policy pushes when `-P` has a value, then the site push when `-S` has one; nothing when none is given |
| SubVlan.Description | pov-automation/sdwan_add-sub-vlan.py:117 | a non-empty `--desc` is the description, otherwise `subinterface vlan <vlan>` |
| SubVlan.Ipv4Config | pov-automation/sdwan_add-sub-vlan.py:130-140 | a static IPv4 configuration whose address is the given one |
| SubVlan.SubInterface | pov-automation/sdwan_add-sub-vlan.py:153-156 | the VLAN id is the given one and the VLAN is not native |
| SubVlan.SubInterfacePayload | pov-automation/sdwan_add-sub-vlan.py:106-185 | it raises exactly when the parent lacks `id` or `name`; otherwise the body has the fixed keys in order, `parent` is the parent's id, type `subinterface` used for `lan`, the chosen description, the VLAN id, the static address, and the parent's VRF (null when it has none) |
| SubVlan.DeviceRequest | pov-automation/sdwan_add-sub-vlan.py:90-191 | after the site: the script exits at the device exactly when every element is passed over; any other exit is at the interface; a POST carries the payload of a matching interface of a matching device |
| SubVlan.InterfaceRequest | pov-automation/sdwan_add-sub-vlan.py:97-191 | after the device: the script exits at the interface exactly when every interface is passed over, and at no other point; a POST carries the payload built from a matching interface |
| SubVlan.SubInterfaceRequest | pov-automation/sdwan_add-sub-vlan.py:84-191 | the script exits at the site exactly when every site is passed over by the lookup; a site lookup that raises ends it with AttributeError; a POST carries the payload built from an interface that matches, of a device that matches, at a site that matches |

## Left out

- PathPush.ExistingPathSet: `update_payload` overwrites the catalogued live record of the set in place. The model carries the merged record only into that set's rule sync (SetSync.Updated) and keeps the catalogue tables as they were. Later steps read only the records of sets the document does not name, so the difference cannot be observed. The same holds for QosPush.QosSet.
- Authentication, tokens, profile calls and every HTTP request are not modelled. The scripts' responses are parameters, and the pusher's controller is `Remote.Controller`.
- `Remote.Controller` is a deterministic stand-in for the controller's server side. It mints fresh ids, may refuse a write, may fail a listing, and may auto-create rules in a new set, all as fixed by its environment. Real server behaviour beyond these choices is not modelled.
- Compare.Diff: stands in for the `dictdiffer.diff` library. It reports a change for each top-level key whose two values differ structurally, and additions and removals at the root path. Nested dicts that hold the same pairs in a different key order count as different, and so do `True` and `1`. Python and dictdiffer treat both as equal, so the model can report an update the script would skip. `Compare.CompareConf` is proved for every diff list, so its own properties do not depend on this stand-in.
- YAML and JSON file reads and writes, `represent_none`, and all printing, CSV and Graphviz output are not modelled. Loaded documents are parameters, and written documents are results.
- Export.RuleEntry: names the wrapper key with the name's text (`Json.PyStr`), as do Export.StackEntry and Export.SetEntry. A numeric name becomes its decimal text here, while the script keeps an int key, so `yaml.safe_dump` would write `5:` where the model's document holds the key `'5'`, and the two reload as different types. The controller's names are strings, so this case does not arise from a real listing.
- Catalog.AddRows: reads ids and names as strings only, as do Catalog.AddSet, Catalog.AddLive, Catalog.AddRules, Catalog.AddNamed, Reconcile.LiveRules, Reconcile.ReadRules and Restore.Existing. An entry whose id or name is some other JSON value is treated like one without that key, where the script would use the value as it is; the controller always answers with string ids and names.
- `find_diff` in the pusher is not modelled because nothing calls it.
- `go` in `push_policy_refactored.py` is modelled by Restore.GoRun only as far as the script gets: for any policy type other than performance it calls reconcilers the file does not define, so it stops with a `NameError` before any write.
- The success or failure report of the sub-interface POST is not modelled.
- Wall-clock and timezone logic is not modelled. The default start and end times are parameters (`SiteBandwidth.BuildMetricsPayload` takes "now" and "three hours ago").
- Floating-point health scores, bandwidth and loss averaging, and score formatting are not modelled.
- LabelsHealth.HealthStrForSite: covers only the branches without a score, because the score is a float.
- RestoreCli.Plan: states which commands are started and in which order. Whether each `subprocess.run` succeeds is not modelled; the launcher only reports it and goes on.
- ServiceEndpoint.MergeUnique: states that the merged list holds exactly the old and new entries with no repeats, but not its order. `list(set(...))` order depends on Python's hashing.
- ServiceEndpoint.MergeUnique: treats `1` and `True` as different values, where a Python set would merge them.
- ServiceEndpoint.UpdateServiceEndpoint: returns the rewritten payload instead of mutating the fetched dict in place. The payload is not shared with anything else in the script, so the in-place update is not observable.
- ElementStatus.ListMachines: takes a bound on the number of requests. A controller that keeps answering with a next cursor ends the model as `Unfinished`, where the script would loop forever.
- ElementStatus.PyInt: accepts only plain digit strings. A signed or space-padded total, which Python's `int` would accept, raises ValueError in the model.
- The module-level caches of the monitoring scripts are not modelled. The cached lists are parameters.
- The scripts that only forward API calls are not modelled: reboot, ZTP, declaim, replacement, telemetry, events, tags, interface status, paths, inventory status, CPU and WAN metrics, ping drops, VirusTotal hashes, DNS resolution, and the SASE base client.
- CircuitMetrics.CollectWanIds: de-duplicates with Scan.Dedup, which compares JSON values structurally, so the ids `1` and `True` both stay where the script's `seen` set keeps only the first. The controller's WAN interface ids are strings, which compare the same way in both.
- Topology.LabelEntries: compares a label's name and code as text, where the script compares the raw values, so a name `5` with the code `"5"` reads `5` here and `5 (5)` in the script. Topology.LabelLookup and Topology.LabelLookupLastWins inherit this. The controller's label names and codes are strings, for which both agree.
- Text.Lower: lower-cases only the ASCII letters A to Z. Python's `str.lower` also folds other Unicode letters, so non-ASCII names compare differently.
- Text.Strip: strips only ASCII whitespace (space, tab, line feed, carriage return, vertical tab, form feed, and the separators U+001C to U+001F). Python's `str.strip` also strips other Unicode spaces.
- Text.Fold: inherits the ASCII-only limits of Text.Strip and Text.Lower.
- Inventory.FindItem: matches names through Text.Fold, so it is faithful for ASCII names only. The same holds for Inventory.Search and Inventory.Probe.
- ShellDelete.DeleteTarget: inherits the ASCII-only name folding of Inventory.FindItem.
- SubVlan.SubInterfaceRequest: inherits the ASCII-only name folding of Inventory.FindItem, as do SubVlan.DeviceRequest and SubVlan.InterfaceRequest.
- SiteBandwidth.ResolveSiteIdByName: folds site names with Text.Fold, so it is faithful for ASCII names only.
- TopologyDetail.SiteNameToId: folds site names with Text.Lower and Text.Strip, so it is faithful for ASCII names only.
- Topology.WalkEntry: folds the health text with Text.Fold, so it is faithful for ASCII status words only.
- TopologyDetail.SanitizeFilename: trims the name with Text.Strip, so a name padded with non-ASCII Unicode spaces keeps them (as `_`) where the script drops them.

## Findings

| source | as written | input that shows it | evidently intended | confidence | as-written member | corrected member |
|---|---|---|---|---|---|---|
| pov-automation/02_policy_scripts/push_policy_refactored_original-gemini.py:2696-2699 | for a new security set, `policyrule_order` is read a second time after the document's entry has been set to `None`, so it is always `None` and the final order PUT at 2739-2741 never happens | any security set absent from the controller whose document has a non-empty `policyrule_order` | keep the order read before the entry is cleared, and after creating the rules send the ids of the recorded rules in that order | not executed | SecurityPush.AsWrittenNeverOrders | SecurityPush.NewSetGetsOrder |
| pov-automation/02_policy_scripts/push_policy_refactored_original-gemini.py:2933-2944 | a NAT stack's member names are swapped for the ids recorded in `fresh_id_map` during this run (the new id of a created set, the live id of an existing one), and the stack is then translated name-to-id, which keeps only entries that are catalogued set names | a stack whose members are all sets created in this run, whose fresh ids are not themselves set names | send the swapped ids as the members | not executed | NatPush.SwappedMembersDropped | NatPush.SwappedMembersKept |
| scm_api_sdwan_add-sub.py:96-106 | after loading the parameters file, `payload` is rebound to an example dict literal written in JSON syntax, and Python evaluates its first `null` as an unbound name | any run in which the site, the device and the parent interface are all found | send the body loaded from the parameters file, with `parent` set to the resolved id | not executed | AddSub.ResolvedRunRaises | AddSub.IntendedBody |

`SecurityPush.SecuritySetAsWritten` models the code as written, and the loop method `SecurityPush.SecuritySetStep` and the whole push (`Push.SetStep` up to `Push.GoPush`) follow it, so they model what the script sends. `SecurityPush.SecuritySet` is the corrected step, and `SecurityPush.NewSetGetsOrder` and `SecurityPush.SeededRulesOrder` state what it sends. The NAT stack push (`NatPush.NatStackPrep`) and the sub-interface script (`AddSub.SubInterfaceBody`) also follow the code as written; `NatPush.NatStackPrepIntended` and `AddSub.IntendedBody` are the corrected definitions, and the lemmas named in the corrected column state what they send.
