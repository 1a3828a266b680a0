# Perfetto trace processor: track interning, query-result decoding, ETM names, protoc lookup

This project models four pieces of the Perfetto repository in Dafny and proves properties of them.

- **Track interning engine** (`TrackTracker`, `src/trace_processor/importers/common/track_tracker.cc`).
  - The engine maps a key to a track id. A key is a classification plus optional dimensions.
  - On a miss it creates exactly one track row. On a hit it returns the cached id.
  - Around the cache sit:
    - a name policy, with two legacy allow-lists;
    - a lazily filled slot array of umbrella "group" tracks;
    - two legacy create paths that bypass the cache;
    - the in-place naming of legacy Chrome async tracks.
  - The model has four layers:
    - `track_types.dfy`: the values.
    - `track_names.dfy`: the name policy and the group labels.
    - `track_store.dfy`: one function per entry point, from the state before the call to the state after it and the returned id, plus the invariant `ValidState`.
    - `track_tracker.dfy`: the class `TrackTracker`. Its methods update the cache map, the row sequence, the group slot array and the argument log in place. Each method is proved to produce exactly the outcome of its function.
  - `track_properties.dfy` proves how several calls relate:
    - idempotence and discrimination;
    - names that are part of the key;
    - retroactive naming;
    - the shared group track;
    - the uncached create paths.
- **Query-result decoder** (`QueryResultIterator`, `python/perfetto/common/query_result_iterator.py`), modelled in `query_result.dfy`.
  - It splits NUL-terminated string pools.
  - It validates result batches and distributes cell `i` to column `i % columnCount`, row `i / columnCount`. The columns are a two-dimensional array.
  - `Next` walks the rows.
- **ETM enum names** (`src/trace_processor/importers/etm/util.cc`), modelled in `etm_names.dfy`.
  - The six `ToString` tables.
  - Each has an inverse. Each has either an out-of-range failure or the `"UNKNOWN"` fallback.
- **Vendored protoc lookup** (`build.rs`), modelled in `protoc_path.dfy`.
  - `Arch::detect` and `protoc_bin_path`, parameterised on the target's OS and architecture strings.

`wrappers.dfy` holds `Option` and `Result`.

## Modelling decisions

- **String interning.** An interned string id is modelled as its text (`Interned(text)`), plus a distinct null id. So interning is injective, and `GetString` reads an id back. The null id reads as the empty text.
- **Track ids.** Every typed track table shares one id space, so a track id is a position in one row sequence. Each row records which table it went to (`RowKind`) and that table's columns.
- **Dimensions.** The model compares dimensions as facet sequences in call-site order. Whether the source's dimension equality ignores order is not modelled.
- **Debug checks.** The name-policy checks become preconditions (`NameAllowed`). On the paths that resolve the name only on a miss, the precondition applies only when the key is not cached. That covers `InternTrack`, `InternGpuCounterTrack` and the other lazy paths. `InternCpuCounterTrack` resolves the name before its lookup, so there it always applies. The fatal group sentinel is excluded by a precondition, and only on the path that reaches it.
- **Args callbacks.** A callback is an identifier. Running it appends `CallbackRun(id, callback)` to an argument log. The Chrome async path appends one `ChromeAsyncArgs` record.
- **Collaborators.** The name translation table and the CPU tracker are the functions `translateName` and `cpuOf` of a `Collaborators` value.
- **Python exceptions.** An exception becomes a `Failure`:
  - `MissingLastBatchFlag` and `CellCountNotDivisible` for the two explicit checks.
  - `DivisionByZero` when there are no columns but there are cells.
  - `IndexError(cell)` when a cell's pool has run out.
- **Behaviour of the source the model keeps** (all in `track_tracker.cc`):
  - Every group is interned under the one key (unknown classification, no dimensions), lines 570-582. So all groups share one umbrella track. `GroupsShareOneTrack` proves this.
  - That shared track carries the first group's label as its name only when no unknown-classification track without dimensions was interned before it, lines 577-579. Otherwise the group reuses that earlier track, which keeps its own name (the null id for an automatic name), because `InternTrack` returns a cached id without renaming it, lines 234-236.
  - `LegacyInternCpuIdleStateTrack` keys on the CPU idle-state classification, with the state and the ucpu as dimensions, lines 468-483.
  - `InternGpuCounterTrack` applies the name policy on a miss and then renames a GPU frequency row to "gpufreq", lines 502-527.
  - `LegacyCreateGpuCounterTrack` and `LegacyCreatePerfCounterTrack` neither read nor update the cache, lines 529-568.
  - `LegacyInternGlobalCounterTrack` stores its counter row without dimensions, although its key contains the name, lines 402-434.
  - `LegacyInternThreadCounterTrack` stores only the utid facet on its row, although its key also contains the name, lines 321-340.

## Model

| member | source | states |
|---|---|---|
| TrackNames.IsLegacyStringIdNameAllowed | src/trace_processor/importers/common/track_tracker.cc:68-75 | a classification on this list is not on the character-array list; the thread, CPU idle-state, GPU frequency and unlisted classifications are not on it |
| TrackNames.IsLegacyCharArrayNameAllowed | src/trace_processor/importers/common/track_tracker.cc:77-104 | unknown, thread, CPU idle-state, GPU frequency and unlisted classifications are not on this list |
| TrackNames.StringIdFromTrackName | src/trace_processor/importers/common/track_tracker.cc:641-658 | an automatic name stores the null id; a string-id name (legacy or from the trace) stores that id; a character-array name stores an interned id that reads back as the characters; the stored id is null exactly for an automatic name or a null id |
| TrackNames.AllowLists | src/trace_processor/importers/common/track_tracker.cc:68-104 | as the name policy applies the lists: automatic and trace names are allowed everywhere; a legacy string-id name exactly for the two energy breakdowns and unknown; no classification allows both legacy forms |
| TrackNames.GroupIndex | src/trace_processor/importers/common/track_tracker.cc:570-572 | every group except the sentinel has a slot below the group count |
| TrackNames.GetNameForGroup | src/trace_processor/importers/common/track_tracker.cc:42-66 | each group's label (including "Device State" and "Clock Freqeuncy") maps back to that group through the inverse table; the sentinel is excluded |
| TrackNames.GroupsDistinct | src/trace_processor/importers/common/track_tracker.cc:42-66 | distinct groups have distinct labels and distinct slots |
| TrackStore.CreateTrack | src/trace_processor/importers/common/track_tracker.cc:127-139 | appends exactly one plain row under the next id, with the policy name, the classification and the optional dimensions; cache, groups and args are unchanged; the invariant is kept |
| TrackStore.CreateCounterTrack | src/trace_processor/importers/common/track_tracker.cc:141-154 | appends one counter row with null unit and description; the cache is unchanged; the invariant is kept |
| TrackStore.CreateProcessTrack | src/trace_processor/importers/common/track_tracker.cc:156-172 | appends one process row for the upid, whose dimensions are the given ones or else the single upid facet; the cache is unchanged; the invariant is kept |
| TrackStore.CreateProcessCounterTrack | src/trace_processor/importers/common/track_tracker.cc:174-193 | as the process track, in the process counter table with null unit and description |
| TrackStore.CreateThreadTrack | src/trace_processor/importers/common/track_tracker.cc:195-209 | appends one thread row for the utid with the single utid facet; the cache is unchanged; the invariant is kept |
| TrackStore.CreateThreadCounterTrack | src/trace_processor/importers/common/track_tracker.cc:211-228 | appends one thread counter row for the utid with the single utid facet; the cache is unchanged |
| TrackStore.InternTrack | src/trace_processor/importers/common/track_tracker.cc:230-245 | afterwards the key maps to the returned id and earlier entries are kept; a hit returns the cached id and changes nothing, so no row is added and no callback runs; a miss appends exactly one row under the next id, binds the key to it and logs the callback once for that id; the invariant is kept and the id names a row of the requested classification |
| TrackStore.InternCounterTrack | src/trace_processor/importers/common/track_tracker.cc:247-257 | a hit returns the cached id and changes nothing; a miss appends exactly one counter row with the policy name, the classification, the given dimensions and null unit and description, binds the key to its id, and leaves groups and args unchanged; the invariant is kept |
| TrackStore.InternProcessTrack | src/trace_processor/importers/common/track_tracker.cc:259-272 | keyed on the classification and the upid facet; a hit changes nothing; a miss appends exactly one process row with the policy name and the key's dimensions, binds the key, and leaves groups and args unchanged; the invariant is kept |
| TrackStore.LegacyInternProcessCounterTrack | src/trace_processor/importers/common/track_tracker.cc:274-307 | keyed on unknown plus (upid, translated name); a miss appends a process counter row named by the translated name, with unit and description |
| TrackStore.InternThreadTrack | src/trace_processor/importers/common/track_tracker.cc:309-319 | keyed on the thread classification and the utid facet alone; a hit changes nothing; a miss appends one thread-track row |
| TrackStore.LegacyInternThreadCounterTrack | src/trace_processor/importers/common/track_tracker.cc:321-340 | keyed on unknown plus (utid, name); a miss appends a thread counter row carrying only the utid facet |
| TrackStore.InternCpuTrack | src/trace_processor/importers/common/track_tracker.cc:342-364 | keyed on the ucpu the CPU tracker assigns to the raw CPU; a miss appends one CPU row for that ucpu |
| TrackStore.InternGlobalTrack | src/trace_processor/importers/common/track_tracker.cc:366-370 | keyed on the classification with no dimensions; a hit changes nothing; a miss appends exactly one plain row with the policy name and no dimensions, binds the key, leaves groups unchanged and logs the callback once for the new id; the invariant is kept |
| TrackStore.LegacyInternGpuTrack | src/trace_processor/importers/common/track_tracker.cc:372-400 | keyed on unknown plus (gpu context or 0, scope when non-null, name); a miss appends the GPU row |
| TrackStore.FillGroup | src/trace_processor/importers/common/track_tracker.cc:577-581 | the empty slot takes the id cached for the shared group key, or, when that key is new, the id of exactly one appended plain row named by the group's label; only that slot changes; args are unchanged; the invariant is kept |
| TrackStore.InternTrackForGroup | src/trace_processor/importers/common/track_tracker.cc:570-582 | afterwards the group's slot holds the returned id; a filled slot is returned and nothing changes; an empty slot is filled as FillGroup fills it; the cache only grows and args are unchanged; the invariant is kept |
| TrackStore.LegacyInternGlobalCounterTrack | src/trace_processor/importers/common/track_tracker.cc:402-434 | a hit changes nothing; a miss appends a counter row without dimensions whose parent is the group's umbrella track and logs the callback once for the counter; the whole new state is given for each case: slot already filled (one row, one key), slot empty but group key cached (one row, one key, the slot takes the cached id), neither (the umbrella row then the counter row, both keys, the slot takes the umbrella id); other slots, keys and rows are unchanged |
| TrackStore.InternCpuCounterTrack | src/trace_processor/importers/common/track_tracker.cc:436-466 | the name is resolved before the lookup and is part of the key (ucpu, name); a miss appends a CPU counter row |
| TrackStore.LegacyInternCpuIdleStateTrack | src/trace_processor/importers/common/track_tracker.cc:468-500 | keyed on the CPU idle-state classification plus (state, ucpu); a miss appends a CPU counter row named "cpuidle." followed by the state's text |
| TrackStore.InternGpuCounterTrack | src/trace_processor/importers/common/track_tracker.cc:502-527 | keyed on the gpu facet; a hit changes nothing; a miss appends exactly one GPU counter row with the key's dimensions, named "gpufreq" for the GPU frequency classification and otherwise by the policy name, binds the key, and leaves groups and args unchanged; the invariant is kept |
| TrackStore.LegacyCreateGpuCounterTrack | src/trace_processor/importers/common/track_tracker.cc:529-544 | always appends one GPU counter row with the gpu facet, unit and description; the cache is not touched |
| TrackStore.LegacyCreatePerfCounterTrack | src/trace_processor/importers/common/track_tracker.cc:546-568 | always appends one perf counter row with facets (ucpu, perf session); the cache is not touched |
| TrackStore.LegacyInternLegacyChromeAsyncTrack | src/trace_processor/importers/common/track_tracker.cc:584-639 | keyed on unknown plus (scope, upid only if process-scoped, cookie); a hit changes at most the cached row's name, filling it only when the new name is non-null and the stored one null; a miss appends a process row and logs the Chrome async arguments once; the invariant is kept |
| TrackProperties.EmptyStateValid | src/trace_processor/importers/common/track_tracker.cc:108-125 | a new engine satisfies the invariant, with every group slot empty |
| TrackProperties.InternTrackIdempotent | src/trace_processor/importers/common/track_tracker.cc:234-236 | a second InternTrack with the same key, whatever its name or callback, returns the first id and changes nothing |
| TrackProperties.InternTrackDiscriminates | src/trace_processor/importers/common/track_tracker.cc:234-239 | two InternTrack calls return the same id exactly when their (classification, dimensions) keys are equal |
| TrackProperties.ThreadTrackOnce | src/trace_processor/importers/common/track_tracker.cc:309-319 | three InternThreadTrack calls for one utid return one id whatever the names; the thread-track rows for that utid grow by one exactly when the key was not cached |
| TrackProperties.ThreadTrackExample | src/trace_processor/importers/common/track_tracker.cc:309-319 | on a new engine, three calls for utid 5 give one id and exactly one thread-track row for utid 5 |
| TrackProperties.ThreadCounterNameInKey | src/trace_processor/importers/common/track_tracker.cc:321-340 | for one thread, two legacy thread counters share an id exactly when their names are equal |
| TrackProperties.ProcessCounterNameInKey | src/trace_processor/importers/common/track_tracker.cc:274-307 | for one process, two legacy process counters share an id exactly when their translated names are equal |
| TrackProperties.CpuCounterNameInKey | src/trace_processor/importers/common/track_tracker.cc:436-466 | for one CPU and classification, two counters share an id exactly when their resolved names are equal |
| TrackProperties.GpuFrequencyName | src/trace_processor/importers/common/track_tracker.cc:519-520 | a new GPU frequency counter reads back as "gpufreq" whatever name was passed |
| TrackProperties.CpuIdleStateName | src/trace_processor/importers/common/track_tracker.cc:485-489 | a new CPU idle-state track's name starts with "cpuidle." and the rest is the state's text |
| TrackProperties.ChromeAsyncNameNotInKey | src/trace_processor/importers/common/track_tracker.cc:590-604 | a second Chrome async call with the same scope, scoping and cookie returns the first id and adds no row and no key, whatever its name |
| TrackProperties.ChromeAsyncScoping | src/trace_processor/importers/common/track_tracker.cc:590-595 | two calls differing only in upid share an id exactly when the id is not process-scoped or the upids are equal |
| TrackProperties.ChromeAsyncKeepsName | src/trace_processor/importers/common/track_tracker.cc:604-616 | a hit on a row whose name is non-null changes nothing and returns the cached id |
| TrackProperties.ChromeAsyncLateName | src/trace_processor/importers/common/track_tracker.cc:604-638 | an unnamed first call followed by a named one gives one id and one new row, now carrying the second call's name, with earlier rows untouched and exactly one argument record |
| TrackProperties.RetroactiveNamingExample | src/trace_processor/importers/common/track_tracker.cc:604-616 | on a new engine, an unnamed call for scope "x", upid 3, cookie 7, then a call named "Foo" give one id, one row, and the name "Foo" |
| TrackProperties.GroupTrackStable | src/trace_processor/importers/common/track_tracker.cc:570-576 | a repeated InternTrackForGroup for a group returns the same id and changes nothing |
| TrackProperties.GroupsShareOneTrack | src/trace_processor/importers/common/track_tracker.cc:577-581 | after any group's track exists, another group's first call returns that id and adds no row and no key; a global unknown-classification track is that same track |
| TrackProperties.GlobalCounterParent | src/trace_processor/importers/common/track_tracker.cc:416-426 | a new legacy global counter's parent is the group's umbrella track, whose id then fills the group slot and differs from the counter's |
| TrackProperties.LegacyGpuCounterAlwaysNew | src/trace_processor/importers/common/track_tracker.cc:529-544 | two identical legacy GPU counter calls create two equal rows with different ids and leave the cache unchanged |
| TrackProperties.LegacyPerfCounterAlwaysNew | src/trace_processor/importers/common/track_tracker.cc:546-568 | two identical legacy perf counter calls create two equal rows with different ids and leave the cache unchanged |
| TrackEngine.TrackTracker.constructor | src/trace_processor/importers/common/track_tracker.cc:108-125 | a new engine has an empty cache, no rows, nine empty group slots and the invariant |
| TrackEngine.TrackTracker.CreateTrack | src/trace_processor/importers/common/track_tracker.cc:127-139 | the new state and id are those of TrackStore.CreateTrack on the old state; the invariant is kept |
| TrackEngine.TrackTracker.CreateCounterTrack | src/trace_processor/importers/common/track_tracker.cc:141-154 | new state and id as TrackStore.CreateCounterTrack; the invariant is kept |
| TrackEngine.TrackTracker.CreateProcessTrack | src/trace_processor/importers/common/track_tracker.cc:156-172 | new state and id as TrackStore.CreateProcessTrack; the invariant is kept |
| TrackEngine.TrackTracker.CreateProcessCounterTrack | src/trace_processor/importers/common/track_tracker.cc:174-193 | new state and id as TrackStore.CreateProcessCounterTrack; the invariant is kept |
| TrackEngine.TrackTracker.CreateThreadTrack | src/trace_processor/importers/common/track_tracker.cc:195-209 | new state and id as TrackStore.CreateThreadTrack; the invariant is kept |
| TrackEngine.TrackTracker.CreateThreadCounterTrack | src/trace_processor/importers/common/track_tracker.cc:211-228 | new state and id as TrackStore.CreateThreadCounterTrack; the invariant is kept |
| TrackEngine.TrackTracker.InternTrack | src/trace_processor/importers/common/track_tracker.cc:230-245 | the in-place lookup, insert, bind and callback leave the state and return the id of TrackStore.InternTrack; the invariant is kept |
| TrackEngine.TrackTracker.InternCounterTrack | src/trace_processor/importers/common/track_tracker.cc:247-257 | new state and id as TrackStore.InternCounterTrack; the invariant is kept |
| TrackEngine.TrackTracker.InternProcessTrack | src/trace_processor/importers/common/track_tracker.cc:259-272 | new state and id as TrackStore.InternProcessTrack; the invariant is kept |
| TrackEngine.TrackTracker.LegacyInternProcessCounterTrack | src/trace_processor/importers/common/track_tracker.cc:274-307 | new state and id as TrackStore.LegacyInternProcessCounterTrack; the invariant is kept |
| TrackEngine.TrackTracker.InternThreadTrack | src/trace_processor/importers/common/track_tracker.cc:309-319 | new state and id as TrackStore.InternThreadTrack; the invariant is kept |
| TrackEngine.TrackTracker.LegacyInternThreadCounterTrack | src/trace_processor/importers/common/track_tracker.cc:321-340 | new state and id as TrackStore.LegacyInternThreadCounterTrack; the invariant is kept |
| TrackEngine.TrackTracker.InternCpuTrack | src/trace_processor/importers/common/track_tracker.cc:342-364 | new state and id as TrackStore.InternCpuTrack; the invariant is kept |
| TrackEngine.TrackTracker.InternGlobalTrack | src/trace_processor/importers/common/track_tracker.cc:366-370 | new state and id as TrackStore.InternGlobalTrack; the invariant is kept |
| TrackEngine.TrackTracker.LegacyInternGpuTrack | src/trace_processor/importers/common/track_tracker.cc:372-400 | new state and id as TrackStore.LegacyInternGpuTrack; the invariant is kept |
| TrackEngine.TrackTracker.LegacyInternGlobalCounterTrack | src/trace_processor/importers/common/track_tracker.cc:402-434 | new state, including the group slot array, and id as TrackStore.LegacyInternGlobalCounterTrack; the invariant is kept |
| TrackEngine.TrackTracker.InternCpuCounterTrack | src/trace_processor/importers/common/track_tracker.cc:436-466 | new state and id as TrackStore.InternCpuCounterTrack; the invariant is kept |
| TrackEngine.TrackTracker.LegacyInternCpuIdleStateTrack | src/trace_processor/importers/common/track_tracker.cc:468-500 | new state and id as TrackStore.LegacyInternCpuIdleStateTrack; the invariant is kept |
| TrackEngine.TrackTracker.InternGpuCounterTrack | src/trace_processor/importers/common/track_tracker.cc:502-527 | new state and id as TrackStore.InternGpuCounterTrack; the invariant is kept |
| TrackEngine.TrackTracker.LegacyCreateGpuCounterTrack | src/trace_processor/importers/common/track_tracker.cc:529-544 | new state and id as TrackStore.LegacyCreateGpuCounterTrack; the invariant is kept |
| TrackEngine.TrackTracker.LegacyCreatePerfCounterTrack | src/trace_processor/importers/common/track_tracker.cc:546-568 | new state and id as TrackStore.LegacyCreatePerfCounterTrack; the invariant is kept |
| TrackEngine.TrackTracker.InternTrackForGroup | src/trace_processor/importers/common/track_tracker.cc:570-582 | the in-place slot update leaves the state and returns the id of TrackStore.InternTrackForGroup; the invariant is kept |
| TrackEngine.TrackTracker.LegacyInternLegacyChromeAsyncTrack | src/trace_processor/importers/common/track_tracker.cc:584-639 | the in-place name patch or insert leaves the state and returns the id of TrackStore.LegacyInternLegacyChromeAsyncTrack; the invariant is kept |
| QueryResult.Split | python/perfetto/common/query_result_iterator.py:52 | splitting on NUL gives one more piece than there are NULs, and no piece contains a NUL |
| QueryResult.SplitJoin | python/perfetto/common/query_result_iterator.py:52 | joining the pieces with NUL gives back the input |
| QueryResult.ExtractStrings | python/perfetto/common/query_result_iterator.py:41-55 | after dropping the last piece there is one string per NUL, and none contains a NUL |
| QueryResult.ExtractStringsRoundTrip | python/perfetto/common/query_result_iterator.py:41-55 | NUL-free strings, each NUL-terminated and concatenated, are extracted back exactly |
| QueryResult.ExtractStringsExamples | python/perfetto/common/query_result_iterator.py:52-55 | "a\0b\0" gives ["a", "b"] and "" gives [] |
| QueryResult.CellPools | python/perfetto/common/query_result_iterator.py:97-106 | six pools by cell type; the invalid and NULL pools are empty |
| QueryResult.CellRoundTrip | python/perfetto/common/query_result_iterator.py:110-111 | a cell index below rowCount*columnCount lands in a slot in range, which maps back to the index |
| QueryResult.SlotRoundTrip | python/perfetto/common/query_result_iterator.py:110-112 | every (row, column) slot in range is the slot of exactly one cell index below rowCount*columnCount |
| QueryResult.WholeRows | python/perfetto/common/query_result_iterator.py:81-88 | if every batch's cell count is a multiple of the column count, so is the total |
| QueryResult.ZipRow | python/perfetto/common/query_result_iterator.py:141-144 | a row has an attribute exactly for each column name |
| QueryResult.ZipRowLookup | python/perfetto/common/query_result_iterator.py:143-144 | an attribute holds the value of the last column with that name |
| QueryResult.Distribute | python/perfetto/common/query_result_iterator.py:107-114 | no columns but some cells is a division by zero; otherwise it succeeds exactly when every cell has a value in its pool, else it fails at the first cell whose pool has run out; on success, slot (row, column) holds the value of cell row*columnCount+column: that cell's type's k-th pool value, where k counts earlier cells of that type, or None for a NULL cell |
| QueryResult.CellValue | python/perfetto/common/query_result_iterator.py:107-114 | a NULL cell decodes to None; an INVALID cell (whose pool is empty) has no value; any other decoded value is drawn from its type's pool; there is no value past the last cell |
| QueryResult.Precheck | python/perfetto/common/query_result_iterator.py:78-86 | batches pass exactly when the last one carries the flag and, with columns, each holds whole rows; a rejection is one of the two raised errors; passing batches hold whole rows in total |
| QueryResult.RowCount | python/perfetto/common/query_result_iterator.py:88 | 0 without columns; with whole rows, the row count times the column count is the cell count |
| QueryResult.QueryResultIterator.CheckBatches | python/perfetto/common/query_result_iterator.py:78-86 | the result is the first rejection the constructor raises before decoding: a missing last-batch flag, else a batch whose cell count is not a multiple of the column count (reporting the total cell count); with no rejection and at least one column, every batch holds whole rows |
| QueryResult.QueryResultIterator.Decode | python/perfetto/common/query_result_iterator.py:74-116 | a non-empty batch list whose last batch lacks the flag fails; a batch whose cell count the columns do not divide fails; otherwise as Distribute over all cells; on success rowCount is the total cell count divided by the column count (0 without columns), and the index starts at 0 |
| QueryResult.QueryResultIterator.constructor | python/perfetto/common/query_result_iterator.py:74-76 | stores names, row count and columns, with the index at 0 |
| QueryResult.QueryResultIterator.Length | python/perfetto/common/query_result_iterator.py:133-134 | returns the row count, which is the length of every column |
| QueryResult.QueryResultIterator.Next | python/perfetto/common/query_result_iterator.py:139-146 | at index == rowCount it stops (None) and nothing changes; otherwise it returns the row at index, mapping each column name to its value, and the index goes up by one |
| EtmNames.TraceElemTypeName | src/trace_processor/importers/etm/util.cc:23-65 | each of the 19 element types has a name that maps back to it; a value outside the enumeration fails the check |
| EtmNames.TraceElemTypeNamesDistinct | src/trace_processor/importers/etm/util.cc:23-63 | distinct element types have distinct names |
| EtmNames.IsaName | src/trace_processor/importers/etm/util.cc:67-85 | each ISA has a name that maps back to it; an out-of-range value fails the check |
| EtmNames.InstrTypeName | src/trace_processor/importers/etm/util.cc:87-105 | each instruction type has a name that maps back to it; an out-of-range value fails the check |
| EtmNames.InstrSubtypeName | src/trace_processor/importers/etm/util.cc:107-121 | each instruction subtype has a name that maps back to it; an out-of-range value fails the check |
| EtmNames.CoreProfileName | src/trace_processor/importers/etm/util.cc:123-137 | each profile's name maps back to it; an out-of-range value reads "UNKNOWN", the name of the unknown profile |
| EtmNames.ArchVersionName | src/trace_processor/importers/etm/util.cc:139-155 | each version's name maps back to it; an out-of-range value reads "UNKNOWN", the name of the unknown version |
| EtmNames.NameTablesInjective | src/trace_processor/importers/etm/util.cc:67-155 | within each of the ISA, instruction type, subtype, profile and version tables, distinct in-range enumerators have distinct names |
| EtmNames.FallbackNames | src/trace_processor/importers/etm/util.cc:123-155 | any out-of-range profile or version value reads "UNKNOWN", the same name as the unknown enumerator |
| ProtocPath.Detect | build.rs:27-38 | windows with any architecture is Win32; a failure carries exactly the os and arch; any other success is on linux or macos |
| ProtocPath.DetectTable | build.rs:27-38 | detection succeeds exactly on windows and the six linux/macos pairs, each mapped to its named variant |
| ProtocPath.ArchPath | build.rs:45-55 | every path starts with "vendored_protoc/" and identifies its architecture |
| ProtocPath.ArchPathsDistinct | build.rs:46-54 | distinct architectures have distinct paths |
| ProtocPath.ProtocBinPath | build.rs:45-55 | fails exactly when detection fails, with the same error; otherwise the path is under "vendored_protoc/" and belongs to the detected architecture |
| ProtocPath.WindowsPath | build.rs:35 | windows resolves to "vendored_protoc/win32/protoc.exe" for any architecture |

## Left out

- Arg-set persistence, `DimensionsBuilder` and `SingleDimension` are not part of this model. A dimension set is compared as its facet sequence; whether the source treats differently ordered facets as equal is not modelled.
- The string pool's numbering is not modelled; an interned id is its text.
- The machine id, the constructor's pre-interned key strings and the classification column's interned text are not modelled. A row stores the classification value itself.
- The CPU tracker's own state is not modelled. `cpuOf` is a fixed function, so creating a CPU entry as a side effect is not captured.
- The translation table's contents are not modelled.
- What an args callback writes, and the keys of the Chrome async arguments, are not modelled. Only which track received which record is.
- In release builds the name-policy checks are compiled out and a forbidden name is stored anyway. The model takes the debug behaviour: a precondition.
- The other columns of a GPU track row that the caller passes, beyond name, scope and context id, are not modelled.
- `TrackTracker.Insert` is a helper standing for a table's insert. It is not an entry point of the source.
- `TrackStore.Miss`, `TrackTracker.AddTrack` and `TrackTracker.Bind` are helpers for the shared miss path and the cache update of the interning entry points. They are not entry points of the source.
- `QueryResult.Place` and `QueryResult.Filled` are helpers for one step of the distribution loop and its invariant. They are not entry points of the source.
- UTF-8 decoding of byte string pools is not modelled. A pool is already-decoded text.
- The numpy and pandas branches, `as_pandas_dataframe` and `Row.__str__`/`__repr__` are not modelled.
- Float64 cells are opaque 64-bit patterns.
- Cell-type values outside the six the protocol defines are not modelled.
- `Row` attributes are a map from column name to value.
- The numeric values of the OpenCSD enums are not part of this model. Each enum is a datatype with an out-of-range case.
- The `main` function of `build.rs` is not modelled: spawning `protoc`, reading its output and code generation.
