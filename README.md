# weberist driver configuration, modelled in Dafny

weberist is a web-automation package built on Selenium. Before it starts a
browser it settles a driver's configuration:

- the argument list, made of command-line flags and dicts of experimental options;
- an options object;
- the capabilities;
- a driver service.

This project models that configuration policy. It also models the data it
draws on: the weighted user-agent and window-size pools with their
deterministic string hash, and the JSON-backed profile store.

Files and modules:

- `wrappers.dfy` (`Wrappers`): `Option`, `Result`, and the Python exceptions
  that the core raises.
- `text.dfy` (`Text`): the few string operations the core relies on.
  These are Python's `in` on strings, `split(c)[0]` and `split(c)[-1]`,
  `lower()` on ASCII, and decimal formatting and parsing.
- `values.dfy` (`Values`): Python values, and dicts as ordered key/value
  sequences with `d[k] = v`, `d.update(e)`, `d.get(k)` and `d.pop(k)`.
- `constants.dfy` (`Constants`): the default chrome flags, the default
  profile name and the default remote executor.
- `data.dfy` (`Data`), from `base/data.py`:
  - `hash_string`;
  - `delete_from_list`;
  - `BaseData` as the class `Pool`, with its shuffled cyclic view as a
    permutation `cycle` and a `cursor`;
  - `get_correct_agent`;
  - the two pool builders;
  - window-size formatting.
- `profiles.dfy` (`Profiles`): `JSONStorageBackend` and
  `ProfileStorageBackend` as the class `JsonStore`. The JSON file is the
  ghost map `disk`, and a ghost counter records how often it was written.
- `managers.dfy` (`Managers`), from `base/managers.py`:
  - `add_option`;
  - the options object, as a class with a ghost log of the calls it received;
  - `WebDrivers._configure_chrome`, `_configure` and `get`.
- `factory.dfy` (`Factory`): `WebDriverFactory._set_up`.

Code that updates state in place is modelled as classes and methods with
loops. Each such method is proved against a specification function, and the
specification functions carry the lemmas. The caller's argument list is an
`ArgList` object, because `_configure_chrome` and `_set_up` extend it in
place.

Several behaviours of the code are reproduced as written, and a lemma
exhibits each one:

- The scan looks for `windows-size`, so a caller's `--window-size=` flag is
  never found (`Managers.WindowSizeFlagMissed`).
- A dict argument mentioning a scanned key makes the scan raise
  (`Managers.DictMentionFails`).
- A list of extension paths builds a `--load-extension=` flag that is never
  used (`Managers.ApplyExtensions`).
- The remote branch looks for `--user-data-dir` in the options' arguments
  before any have been added, so the profile-directory injection never fires
  on the options `_configure` makes (`Managers.InjectionNeverFiresOnFreshOptions`,
  `Managers.ServicePlanFresh`).
- In `add_option`, a failing experimental option clears `proceed_argument`.
  `proceed_experimental` is never cleared, so the function never returns
  `None` (`Managers.AddOption`, `Managers.AddedFlagsCut`).
- `set_item` tests for `created_at` in the incoming value rather than in the
  stored record, so storing again replaces the first stamp
  (`Profiles.CreatedAtNotPreserved`).
- An id such as `_WebDrivers__chrome` (a name-mangled class attribute) finds
  chrome's classes but is not `chrome`. It therefore takes the generic
  branch of `_configure` (`Managers.WholeBrowserIds`,
  `Managers.MangledChromeClasses`).
- `remote_chrome` with no argument list fails on the first `append`
  (`Factory.SetUpWithoutList`).

There is one exception. `_configure_chrome` formats a pool window size by
calling a method that does not exist. The model records that failure under
"Findings" and otherwise uses the intended `"width,height"` text.

## Model

| member | source | states |
|---|---|---|
| Data.HashString | src/weberist/base/data.py:45-58 | the loop computes `Hash(text)`: one 32-bit step `(h*281 ^ ord(ch)*997) & 0xFFFFFFFF` per character, from 0, with wrap-around |
| Data.HashSnoc | src/weberist/base/data.py:55-58 | the empty string hashes to 0, and one more character applies exactly one step |
| Data.HashFromConcat | src/weberist/base/data.py:56-57 | hashing `a + b` continues from the hash of `a` |
| Data.HashStep | src/weberist/base/data.py:56-57 | one loop step: `(h * 281 ^ ord(ch) * 997) & 0xFFFFFFFF`, the mask being `bv32` wrap-around; it is a definition, and `HashString` and `HashSnoc` state what it does |
| Data.HashFrom | src/weberist/base/data.py:55-57 | the loop over `text` from a given accumulator; a definition, whose concatenation law is `HashFromConcat` |
| Data.Hash | src/weberist/base/data.py:45-58 | `hash_string`: the loop from 0; a definition, which `HashString` proves the loop method computes |
| Data.HashIsOrderSensitive | src/weberist/base/data.py:55-58 | the hash depends on character order: `"ab"` and `"ba"` differ |
| Data.DeleteFromList | src/weberist/base/data.py:25-36 | the item no longer occurs, and every other element keeps its count |
| Data.DeleteFromListConcat | src/weberist/base/data.py:36 | the filter distributes over concatenation, so the kept elements stay in their original order |
| Data.DeleteFromListAbsent | src/weberist/base/data.py:36 | deleting an absent item leaves the list unchanged |
| Data.Pool.constructor | src/weberist/base/data.py:62-65 | the pool holds the data; the cycle is a permutation of it, starting at its front |
| Data.Pool.HasItems | src/weberist/base/data.py:71-73 | on a valid pool, `has_items` holds exactly when the cycle is not empty |
| Data.Pool.SetData | src/weberist/base/data.py:75-79 | `data` is replaced; the new cycle is a permutation of it, starting at its front |
| Data.Pool.GetRandomCycled | src/weberist/base/data.py:81-83 | `None` on an empty pool; otherwise the element at the cursor, and the cursor advances modulo the length |
| Data.Pool.GetN | src/weberist/base/data.py:97-98 | `n` results, which are the next `n` draws of the cycle (all `None` when empty); the cursor advances by `n` |
| Data.Pool.GetHundred | src/weberist/base/data.py:100-101 | 100 results, which are the next 100 draws of the cycle; the cursor moves 100 places along it; an empty pool gives 100 `None`s |
| Data.Pool.GetRandom | src/weberist/base/data.py:85-86 | an element of the data, or `IndexError` exactly when the data is empty |
| Data.Pool.RemoveData | src/weberist/base/data.py:88-89 | the data becomes `delete_from_list(data, item)`, the item is gone, and the cycle is reset to a permutation of the new data |
| Data.Pool.GetHashed | src/weberist/base/data.py:91-95 | `ZeroDivisionError` exactly when the pool has no items, otherwise an element of its data, chosen as `HashedPick` chooses it |
| Data.HashedPick | src/weberist/base/data.py:91-95 | `ZeroDivisionError` exactly for an empty pool; otherwise an element of the pool |
| Data.HashedPickOfNone | src/weberist/base/data.py:92-93 | `None` is hashed as `"_"` |
| Data.Draws | src/weberist/base/data.py:97-98 | `k` draws from the cycle give `k` values; which value each draw is, is `DrawsCycleRound` |
| Data.DrawsSplit | src/weberist/base/data.py:97-98 | `a + b` draws are `a` draws followed by `b` draws from where the first ones stopped |
| Data.FullRoundIsRotation | src/weberist/base/data.py:79-83 | a full round of draws is the cycle rotated to the cursor, and it returns the cursor to its start |
| Data.FullRoundIsPermutation | src/weberist/base/data.py:77-83 | `len(data)` consecutive draws return exactly the data's multiset |
| Data.DrawsAt | src/weberist/base/data.py:81-83 | draw `q * len + p` from the start of the cycle is `cycle[p]`: every round repeats the cycle |
| Data.DrawsCycleRound | src/weberist/base/data.py:81-83 | the `j`-th draw from the start of the cycle is `cycle[j mod len]` |
| Data.AdvanceSplit | src/weberist/base/data.py:83 | advancing the cursor by `a + b` equals advancing by `a` and then by `b` |
| Data.RepeatShape | src/weberist/base/data.py:178 | `[x] * n` holds `n` copies of `x` and nothing else |
| Data.WeightedShape | src/weberist/base/data.py:178 | a weighted pool has the total weight as its length, and each value occurs as often as its weight |
| Data.WeightedSnoc | src/weberist/base/data.py:168-178 | extending the pool by one version's block builds the weighted pool entry by entry |
| Data.WeightOfDistinct | src/weberist/base/data.py:151-164 | with distinct keys, a key's weight is its own count |
| Data.WeightOfAbsent | src/weberist/base/data.py:151-164 | a value that is no key has weight 0 |
| Data.CorrectAgent | src/weberist/base/data.py:107-124 | the windows agent for `windows`, the mac agent for `darwin`, the linux agent for anything else (after lower-casing) |
| Data.UserAgentData | src/weberist/base/data.py:166-179 | the loop builds the weighted pool of the platform's agents, in version order |
| Data.AgentWeightsPlatform | src/weberist/base/data.py:168-177 | entry `i` is version `i`'s agent string for the platform, with the version's weight |
| Data.AgentWeights | src/weberist/base/data.py:166-177 | one (agent, weight) pair per version, in `versions` order; entry contents are `AgentWeightsPlatform` |
| Data.AgentString | src/weberist/base/data.py:136-149 | `user_agents[version]` with its platform replaced; a definition, whose injectivity is `AgentStringInjective` |
| Data.AgentStringInjective | src/weberist/base/data.py:136-149 | different versions give different agent strings |
| Data.UserAgentDataShape | src/weberist/base/data.py:151-179 | the user-agent pool has 100 entries, and each version's agent occurs exactly its weight's number of times |
| Data.UserAgentPoolSize | src/weberist/base/data.py:151-179 | the user-agent pool has 100 entries on every platform |
| Data.UserAgentCount | src/weberist/base/data.py:151-179 | version `i`'s agent occurs in the pool exactly `weight(i)` times |
| Data.AgentWeightsDistinct | src/weberist/base/data.py:136-178 | on any platform, the agents of different versions differ |
| Data.CountOfDistinct | src/weberist/base/data.py:178 | in a weighted pool whose values are pairwise different, each value occurs exactly its weight's number of times |
| Data.TotalWeightOfAgents | src/weberist/base/data.py:151-164 | the version weights sum to 100 |
| Data.SameWeights | src/weberist/base/data.py:168-178 | pools built with the same weights, entry by entry, have the same total |
| Data.WindowSizeDataShape | src/weberist/base/data.py:194-211 | the window-size pool has 100 entries in contiguous blocks of 35, 26, 16, 9, 9 and 5 for 1920×1080, 1366×768, 1536×864, 1280×720, 1440×900 and 1600×900 |
| Data.WindowSizeData | src/weberist/base/data.py:194-211 | `WindowSize.get_data`: the six blocks concatenated; a definition, whose shape is `WindowSizeDataShape` |
| Data.SizeString | src/weberist/base/data.py:213-215 | `"width,height"`; a definition, whose round trip is `SizeStringRoundTrip` |
| Data.SizeStringRoundTrip | src/weberist/base/data.py:213-215 | `"w,h"` splits at its comma back into digits that parse to `w` and `h` |
| Data.WindowSizeStringAsWritten | src/weberist/base/managers.py:347-349 | as written: text is kept, and a pair raises `AttributeError` |
| Data.PoolSizeFailsAsWritten | src/weberist/base/managers.py:337-349 | as written: every window size from the pool, hashed or drawn, raises `AttributeError` |
| Data.WindowSizeString | src/weberist/base/data.py:213-215 | as intended: text is kept, and a pair becomes text that parses back to its width and height |
| Values.AssignLookup | src/weberist/base/data.py:245-247 | after `d[k] = v`, `k` reads `v` and every other key reads as before |
| Values.UpdateLookup | src/weberist/base/managers.py:367 | after `d.update(e)`, a key of `e` reads as in `e` and any other key as in `d` |
| Values.RemoveLookup | src/weberist/base/managers.py:486-487 | after a pop, the key is gone and every other key reads as before |
| Profiles.StampedLookup | src/weberist/base/data.py:243-247 | `updated_at` is always the new stamp; `created_at` is new only when the value had none; other keys are unchanged |
| Profiles.Stamped | src/weberist/base/data.py:244-247 | the value after `set_item` adds its stamps; a definition, read back by `StampedLookup` |
| Profiles.StoredRecord | src/weberist/base/data.py:249 | `{"profile_id": key, **value}` of the stamped value; a definition, read back by `StoredRecordLookup` |
| Profiles.StoredRecordLookup | src/weberist/base/data.py:243-249 | the stored record reads: `updated_at` new; `created_at` new if absent; `profile_id` the key unless the value has its own; all else as in the value |
| Profiles.CreatedAtNotPreserved | src/weberist/base/data.py:244-245 | two stores of values without `created_at` give different `created_at` stamps: the first one is lost |
| Profiles.SetProfileStampOverwritten | src/weberist/base/data.py:271-273 | the stamp `set_profile` adds is overwritten by `set_item`'s, so the stored record is as if `set_item` were called directly |
| Profiles.JsonStore.constructor | src/weberist/base/data.py:220-231 | a missing file is first written with `{}`; memory then holds the file's content, and disk equals memory |
| Profiles.JsonStore.CommitToDisk | src/weberist/base/data.py:233-235 | the file takes memory's content; one write |
| Profiles.JsonStore.GetItem | src/weberist/base/data.py:237-238 | the stored record, or the default exactly when the key is absent |
| Profiles.JsonStore.SetItem | src/weberist/base/data.py:243-250 | the key maps to the stored record and nothing else changes; the caller's value is stamped; one write; disk equals memory |
| Profiles.JsonStore.RemoveItem | src/weberist/base/data.py:252-255 | the key is removed; an absent key writes nothing |
| Profiles.JsonStore.Clear | src/weberist/base/data.py:257-261 | the map is empty, so every `get_item` returns its default; disk equals memory; exactly one write |
| Profiles.JsonStore.GetProfile | src/weberist/base/data.py:268-269 | is `get_item` |
| Profiles.JsonStore.SetProfile | src/weberist/base/data.py:271-273 | stores the record of the data stamped twice, first with `updated_at` and then by `set_item` |
| Profiles.JsonStore.RemoveProfile | src/weberist/base/data.py:275-276 | is `remove_item` |
| Managers.Options.constructor | src/weberist/base/managers.py:411 | a fresh options object holds nothing and has received no call |
| Managers.Options.AddArgument | src/weberist/base/managers.py:92 | raises exactly when the class has no `add_argument`; otherwise it appends the flag and logs the call |
| Managers.Options.AddExperimentalOption | src/weberist/base/managers.py:101 | raises exactly when the class has no `add_experimental_option`; otherwise it assigns the option and logs the call |
| Managers.Options.AddExtension | src/weberist/base/managers.py:320 | appends the extension and logs the call |
| Managers.Options.SetCapability | src/weberist/base/managers.py:387 | assigns the capability and logs the call |
| Managers.AddExperimentalOptions | src/weberist/base/managers.py:99-108 | a dict's items go in order to `add_experimental_option`; the first failure ends the dict, and it raises only for a non-empty dict on a class without the method |
| Managers.AddOption | src/weberist/base/managers.py:85-111 | returns the option itself (never `None`); the flags added are `AddedFlags`; dict items are applied in order only when the browser name contains `chrome`; only argument and experimental calls are made |
| Managers.AddArguments | src/weberist/base/managers.py:89-110 | the loop never stops early, because `proceed_experimental` is never cleared; the flags it adds are `AddedFlags`, and the dicts are applied in order exactly when chrome is named and the class has `add_experimental_option` |
| Managers.AddOneArgument | src/weberist/base/managers.py:90-108 | a flag is added only while `proceed_argument` holds and the class has `add_argument`; a dict is applied only for chrome; `proceed_argument` is then as `AddedFlagsProceed` says |
| Managers.AddedFlags | src/weberist/base/managers.py:87-111 | the flags `add_option` adds, argument by argument with `proceed_argument`; a definition, whose properties are `AddedFlagsWithin`, `AddedFlagsStep` and `AddedFlagsCut` |
| Managers.AddedFlagsWithin | src/weberist/base/managers.py:87-111 | no more flags are added than there are arguments, each one a flag of the list, and none once `proceed_argument` is off or the class has no `add_argument` |
| Managers.AddedFlagsStopped | src/weberist/base/managers.py:89-96 | once `proceed_argument` is off, no further flag is added |
| Managers.AddedFlagsUnsupported | src/weberist/base/managers.py:89-96 | a class without `add_argument` gets no flag at all, and nothing raises |
| Managers.AddedFlagsCut | src/weberist/base/managers.py:87-111 | with `add_argument`, the flags are added in list order up to the first dict whose experimental options fail, and none after it |
| Managers.AddedFlagsAll | src/weberist/base/managers.py:85-111 | when no dict can fail, every flag is added in order |
| Managers.AddedFlagsStep | src/weberist/base/managers.py:89-108 | the flags added from a list are the first argument's flag (if it is taken) followed by those of the rest, under the `proceed_argument` the first argument leaves |
| Managers.FirstFailing | src/weberist/base/managers.py:97-108 | the position of the first dict whose experimental options fail: none fails before it |
| Managers.UpdateConcat | src/weberist/base/managers.py:99-101 | applying two dicts' items one after the other is one update by their concatenation |
| Managers.FirstMention | src/weberist/base/managers.py:326-335 | the first unskipped argument that mentions a key, as a substring of a flag or as a key of a dict |
| Managers.ScanResult | src/weberist/base/managers.py:326-335 | the scan's outcome; a definition, which `Scan` proves the loop computes |
| Managers.ScanResultOutcome | src/weberist/base/managers.py:326-335 | the scan fails only with `AttributeError`, and a list of flags alone never fails |
| Managers.Scan | src/weberist/base/managers.py:326-335 | the loop gives `ScanResult`: for user agent, `windows-size` and profile directory, the text after the last `=` of the first argument that mentions the key and was not taken by an earlier key; a dict at such a position is an `AttributeError` |
| Managers.ScanOne | src/weberist/base/managers.py:328-335 | one argument either makes the whole scan raise, or moves the scan state on to the marks and values of the one-longer prefix |
| Managers.ScanMarksExtend | src/weberist/base/managers.py:326-335 | one more argument sets each still-missing mark in the order of the `continue`s |
| Managers.ScanFailsAt | src/weberist/base/managers.py:328-333 | a dict marked in a prefix makes the whole scan fail |
| Managers.WindowSizeFlagMissed | src/weberist/base/managers.py:331 | a caller's `--window-size=w,h` flag is not found |
| Managers.DictMentionFails | src/weberist/base/managers.py:327-328 | a dict with a `user-agent` key, reached before any flag mentions it, makes the scan raise |
| Managers.ApplyExtensions | src/weberist/base/managers.py:313-320 | a list of paths changes nothing; any other list is passed to `add_extension` item by item, so the extensions grow by `AddedExtensions` |
| Managers.AddedExtensions | src/weberist/base/managers.py:313-320 | no extension for a list of paths; otherwise one per item, in order, each the item's text |
| Managers.ChosenValues | src/weberist/base/managers.py:337-348 | a found profile fixes both values by hash, whatever the caller's user agent and the draws; without one, the caller's value wins over the draw |
| Managers.ChooseValues | src/weberist/base/managers.py:337-348 | the draws come from the two pools, and the values are the chosen ones |
| Managers.AppendTrailingFlags | src/weberist/base/managers.py:350-361 | the caller's list is its old contents followed by exactly the five flags, in order |
| Managers.TrailingFlags | src/weberist/base/managers.py:350-361 | five flags, and each is a flag rather than a dict; what each reads back is `TrailingFlagsReadBack` |
| Managers.TrailingFlagsReadBack | src/weberist/base/managers.py:350-361 | each appended flag reads back its value after the last `=`: agent, size, host (`127.0.0.1` by default), port (`free_port()` for none or 0) and language |
| Managers.FirstUserDataDir | src/weberist/base/managers.py:368-369 | the first option naming `--user-data-dir`: none before it does |
| Managers.InjectedCapabilities | src/weberist/base/managers.py:366-375 | the remote branch's profile injection; a definition, which `InjectProfileDir` proves the loop computes |
| Managers.InjectedCapabilitiesOutcome | src/weberist/base/managers.py:366-375 | with no `--user-data-dir` option the capabilities are unchanged; a failure is a `KeyError` exactly when there are no selenoid options, and otherwise a `TypeError` |
| Managers.InjectionNeverFiresOnFreshOptions | src/weberist/base/managers.py:366-372 | with no option arguments, the capabilities are left as they are |
| Managers.InjectionSetsEnv | src/weberist/base/managers.py:369-372 | after an injection, the selenoid options carry `BROWSER_PROFILE_DIR=<dir>` and every other capability is unchanged |
| Managers.InjectProfileDir | src/weberist/base/managers.py:368-375 | the loop gives `InjectedCapabilities`: `KeyError` without selenoid options, `TypeError` when they are not a dict |
| Managers.SetCapabilities | src/weberist/base/managers.py:386-387 | the capabilities become the old ones updated with the dict; only capability calls are made |
| Managers.ServicePlanModes | src/weberist/base/managers.py:363-384 | remote mode builds no service; local mode never fails and builds one exactly when the manager has `install` |
| Managers.ServicePlanFresh | src/weberist/base/managers.py:363-373 | on fresh options, the remote capabilities are the caller's updated with the selenoid ones |
| Managers.ServicePlan | src/weberist/base/managers.py:363-384 | the service and capabilities of the remote and the local branch; a definition, whose properties are `ServicePlanModes` and `ServicePlanFresh` |
| Managers.PlanService | src/weberist/base/managers.py:363-384 | computes `ServicePlan` |
| Managers.FinishOptions | src/weberist/base/managers.py:386-389 | every capability is set before any argument is added; the options take `AddedFlags` of the list, the experimental options of its dicts when the class has `add_experimental_option`, and the extensions stay as they were |
| Managers.ConfigureChrome | src/weberist/base/managers.py:300-391 | a failed scan raises and leaves the arguments, experimental options, capabilities and list alone; otherwise the values are chosen from the pools or the found profile, the list gets the five flags, capabilities and service follow `ServicePlan`, the options take `AddedFlags` and the experimental options of the full list, the extensions grow by `AddedExtensions`, and no capability is set after an argument |
| Managers.ConfigureScanned | src/weberist/base/managers.py:337-391 | after a successful scan: the chosen values come from the pools or the found profile, the list gets the five trailing flags, a failed plan changes nothing on the options, and a successful one adds the flags and experimental options of the extended list |
| Managers.AttributeValue | src/weberist/base/managers.py:287 | a driver attribute yields its driver class |
| Managers.SplitBrowser | src/weberist/base/managers.py:401-405 | remote exactly when the id contains `remote`; the name is then the text before the first `_` (all of the id, or a prefix followed by `_`), and otherwise the whole id |
| Managers.ChromeRemoteId | src/weberist/base/managers.py:401-405 | `chrome_remote` is chrome in remote mode |
| Managers.MangledRemoteId | src/weberist/base/managers.py:403-405 | `_WebDrivers__chrome_remote` splits to an empty name |
| Managers.WholeBrowserIds | src/weberist/base/managers.py:401-414 | `chrome`, `firefox` and `_WebDrivers__chrome` are kept whole, so only `chrome` itself takes the chrome branch |
| Managers.DriverClasses | src/weberist/base/managers.py:407-409 | `AttributeError` exactly when one of the three class attributes is missing; otherwise the options kind, and whether the manager has `install` |
| Managers.ChromeClasses | src/weberist/base/managers.py:407-409 | chrome's classes are found, and its manager installs |
| Managers.SafariClasses | src/weberist/base/managers.py:407-409 | safari's classes are found, but its manager is `None` |
| Managers.MangledChromeClasses | src/weberist/base/managers.py:407-409 | the mangled name finds chrome's classes |
| Managers.EmptyNameClasses | src/weberist/base/managers.py:407 | the empty name finds no options class |
| Managers.ConfigureFreshChrome | src/weberist/base/managers.py:414-425 | fails exactly when the scan does, with `AttributeError`; otherwise the returned fresh options hold exactly the flags and experimental options of the extended list, the extensions, the base capabilities, and the service is `None` when remote and the installed one when local |
| Managers.ConfigureGeneric | src/weberist/base/managers.py:427-444 | `add_option` with the full id; a service exactly when the manager has `install` |
| Managers.Configure | src/weberist/base/managers.py:393-444 | a missing class is an `AttributeError`; the chrome branch is `ConfigureFreshChrome`'s outcome in full; the generic branch never fails, ignores extensions and capabilities, keeps the list, and returns options holding its flags; only a non-empty caller's list is extended |
| Managers.Get | src/weberist/base/managers.py:282-298 | an id that is no attribute is an `AttributeError`, and every failure is one; a success returns the attribute's value, and the options and service `Configure` gives for that id |
| Factory.WithExecutorLookup | src/weberist/base/managers.py:463-464 | a remote id without `command_executor` gets the local hub; no other key changes |
| Factory.SetUpResult | src/weberist/base/managers.py:450-489 | the list and kwargs `_set_up` settles on; a definition, which `SetUp` proves the method computes |
| Factory.SetUpResultFailure | src/weberist/base/managers.py:459-484 | only a chrome id can fail, and only with `AttributeError` |
| Factory.SetUpResultList | src/weberist/base/managers.py:459-484 | a success keeps the caller's list as a prefix, and for chrome ends it with the dict of experimental options |
| Factory.SetUpChromeArguments | src/weberist/base/managers.py:459-484 | for a chrome-family id, the list is the caller's arguments, then chrome's defaults, then the optional profile and user-data flags, then one dict |
| Factory.SetUpForcedExperimental | src/weberist/base/managers.py:477-484 | that dict has `excludeSwitches=["enable-automation"]` and `useAutomationExtension=False` over the caller's values, and the caller's other options |
| Factory.SetUpKwargs | src/weberist/base/managers.py:463-487 | `quit_on_failure` and `timeout` are gone; for chrome, `profile`, `localstorage` and `experimental_options` are gone too; other keys read as given |
| Factory.SetUpWithoutList | src/weberist/base/managers.py:459-484 | a chrome id outside the families with defaults, given no list, raises `AttributeError` |
| Factory.SetUpFirefox | src/weberist/base/managers.py:459-489 | `firefox` keeps its arguments and loses only the two driver keys |
| Factory.ExtendWithDefaults | src/weberist/base/managers.py:459-461 | for a family with defaults, the defaults are appended, and a new list is made exactly for a missing or empty one, which leaves the caller's list as it was; other ids keep the list |
| Factory.AddProfileFlags | src/weberist/base/managers.py:467-476 | a flag for each of `profile` and `localstorage`, each key popped; `AttributeError` when there is no list to append to |
| Factory.AddChromeArguments | src/weberist/base/managers.py:466-484 | after the profile flags, one dict of experimental options with the forced ones; experimental options that are not a dict raise `AttributeError` after the profile flags were added |
| Factory.SetUp | src/weberist/base/managers.py:450-489 | the list and kwargs are `SetUpResult`'s; the caller's list is the one returned whenever `arguments or []` keeps it, and is left as it was when a new list is made; on a failure it holds the defaults and profile flags already added |

## Left out

- `free_port`: opens a socket. The port it would pick is a parameter.
- The manager's `install()`: a network download. The executable path is a
  parameter, and whether the manager has `install` comes from the manager
  attribute.
- The service constructor: modelled as the value `Service(path, kwargs)`.
  `remove_cdc`, which patches the binary on disk, is not part of this model.
- `random.shuffle` and `random.choice`: modelled as an arbitrary permutation
  and an arbitrary element. Their distributions are not modelled.
- `datetime.now().isoformat()`: passed in as strings.
- `platform.system()`: passed in as the system name.
- The JSON file's reading and writing: the ghost map `disk` and a write
  counter stand in for them. File errors and JSON encoding are not modelled.
- `SELENOID_CAPABILITIES` is not defined in the constants module. It is a
  parameter.
- `WebDriverFactory.__new__`, the driver classes, and the `selenium_stealth`
  calls are foreign library code.
- The `cls_properties` reflection in `_set_up`: it reads class attributes,
  so it is not modelled.
- `JSONStorageBackend.items`: it only returns the map.
- The `WebDrivers` property getters: they are modelled only as the
  attribute table `getattr` reads.
- Dunder attribute names: they are left out of the attribute table. No
  dunder name can reach configuration either way.
- Logging: calls to the logger are left out.
- Arbitrary `**kwargs` passed to `_configure_chrome`: only `host`, `port` and
  `lang` are modelled, so an unknown keyword's `TypeError` is not.
- Selenium's own validation in `add_argument` and `add_extension`: an empty
  argument raising `ValueError`, or a missing extension file raising
  `OSError`, is not modelled.
- Aliasing of the caller's dicts: `capabilities`, a stored `value`, and
  `experimental_options` are changed in place in the source. The model
  returns the new dict instead. The stamped value is returned by
  `Profiles.JsonStore.SetItem` for this reason.
- Managers.ConfigureChrome: returns the service but not the options object.
  `add_option` always returns that same object, and the options are the
  method's first argument.
- Data.CorrectAgent: lower-cases ASCII letters only, where Python's `lower()`
  covers all of Unicode.
- Values.Render: writes lists and dicts as placeholders rather than Python's
  `repr`. They only reach an f-string when a caller passes such a value as a
  profile name.
- Extensions: modelled as a list of paths or texts. A plain string, which
  the source would iterate character by character, is not modelled.
- The `profile_name = DEFAULT_PROFILE` store in the remote branch: the
  variable is never read again, so storing to it changes nothing.
- The final `browser.split('_')[0]` in `get`: its result is never used.
- Docker, asyncio utilities, the `core` drivers and type aliases: not part
  of the configuration core.

## Findings

| source | as written | input that shows it | evidently intended | confidence | as-written member | corrected member |
|---|---|---|---|---|---|---|
| src/weberist/base/managers.py:347-349 | a window size that is not text is formatted with `windows_size.to_string(...)`, but `WindowSize` has no such method (only `window_size_to_string`, declared without `self` at data.py:213), so the call raises `AttributeError` | `_configure_chrome` with no `--windows-size` flag, or with a `--profile-directory=p` flag: the pool's `[1920, 1080]`-style list reaches the call | write the pair as `"width,height"`, as `window_size_to_string` does | not executed | Data.WindowSizeStringAsWritten | Data.WindowSizeString |
