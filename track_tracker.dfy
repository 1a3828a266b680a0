/**
 * The track interning engine as an object: the key-to-id cache, the rows of the track
 * tables (one id space), the group slot array and the argument log are its state, and
 * every entry point updates them in place.
 *
 * Each method is proved to leave the object in the state, and to return the id, that the
 * entry point's function in `TrackStore` gives for the state before the call; the
 * properties proved about those functions therefore hold of the object.
 */
module TrackEngine {
  import opened Wrappers
  import opened TrackTypes
  import opened TrackNames
  import Store = TrackStore

  class TrackTracker {
    /** The cache from (classification, dimensions) to track id. */
    var tracks: map<TrackMapKey, TrackId>
    /** The rows of every track table; a row's id is its position. */
    var rows: seq<TrackRow>
    /** The argument side-table entries added for tracks, in order. */
    var args: seq<ArgsEvent>
    /** One slot per umbrella group, filled on first use. */
    const groupTrackIds: array<Option<TrackId>>
    /** The name translation table and the CPU tracker. */
    const env: Collaborators

    /** The object's state as a value. */
    function State(): TrackState
      reads this, groupTrackIds
    {
      TrackState(tracks, rows, groupTrackIds[..], args)
    }

    ghost predicate Valid()
      reads this, groupTrackIds
    {
      Store.ValidState(State())
    }

    /** An engine with an empty cache, no rows and every group slot empty. */
    constructor(env: Collaborators)
      ensures Valid() && State() == Store.EmptyState && this.env == env
    {
      tracks := map[];
      rows := [];
      args := [];
      groupTrackIds := new Option<TrackId>[GroupCount](_ => None);
      this.env := env;
      new;
      assert groupTrackIds[..] == seq(GroupCount, _ => None);
    }

    /** The table insert: appends `row` and returns its id. */
    method Insert(row: TrackRow) returns (id: TrackId)
      modifies this
      ensures rows == old(rows) + [row] && id == |old(rows)|
      ensures tracks == old(tracks) && args == old(args) && groupTrackIds[..] == old(groupTrackIds[..])
    {
      id := |rows|;
      rows := rows + [row];
    }

    /** The cache update `tracks_[key] = id`. */
    method Bind(key: TrackMapKey, id: TrackId)
      modifies this
      ensures State() == old(State()).(tracks := old(tracks)[key := id])
    {
      tracks := tracks[key := id];
    }

    /**
     * The miss path shared by the interning methods: inserts `row`, binds `key` to its id
     * and runs the args callback, if any, for the new track.
     */
    method AddTrack(key: TrackMapKey, row: TrackRow, callback: Option<CallbackId>) returns (id: TrackId)
      requires key !in tracks
      modifies this
      ensures Outcome(State(), id) == Store.Miss(old(State()), key, row, Store.CallbackEvents(|old(rows)|, callback))
    {
      id := Insert(row);
      tracks := tracks[key := id];
      if callback.Some? {
        args := args + [CallbackRun(id, callback.value)];
      }
    }

    method CreateTrack(c: TrackClassification, dims: Option<Dimensions>, name: TrackName)
      returns (id: TrackId)
      requires Valid() && NameAllowed(c, name)
      modifies this
      ensures Valid() && Outcome(State(), id) == Store.CreateTrack(old(State()), c, dims, name)
    {
      id := Insert(TrackRow(StringIdFromTrackName(c, name), c, dims, None, PlainTrack));
    }

    method CreateCounterTrack(c: TrackClassification, dims: Option<Dimensions>, name: TrackName)
      returns (id: TrackId)
      requires Valid() && NameAllowed(c, name)
      modifies this
      ensures Valid() && Outcome(State(), id) == Store.CreateCounterTrack(old(State()), c, dims, name)
    {
      id := Insert(TrackRow(StringIdFromTrackName(c, name), c, dims, None,
                            CounterTrack(NullStringId, NullStringId)));
    }

    method CreateProcessTrack(c: TrackClassification, upid: nat, dims: Option<Dimensions>,
                              name: TrackName) returns (id: TrackId)
      requires Valid() && NameAllowed(c, name)
      modifies this
      ensures Valid() && Outcome(State(), id) == Store.CreateProcessTrack(old(State()), c, upid, dims, name)
    {
      var d := if dims.Some? then dims.value else Dimensions([UpidFacet(upid)]);
      id := Insert(TrackRow(StringIdFromTrackName(c, name), c, Some(d), None, ProcessTrack(upid)));
    }

    method CreateProcessCounterTrack(c: TrackClassification, upid: nat, dims: Option<Dimensions>,
                                     name: TrackName) returns (id: TrackId)
      requires Valid() && NameAllowed(c, name)
      modifies this
      ensures Valid() &&
              Outcome(State(), id) == Store.CreateProcessCounterTrack(old(State()), c, upid, dims, name)
    {
      var d := if dims.Some? then dims.value else Dimensions([UpidFacet(upid)]);
      id := Insert(TrackRow(StringIdFromTrackName(c, name), c, Some(d), None,
                            ProcessCounterTrack(upid, NullStringId, NullStringId)));
    }

    method CreateThreadTrack(c: TrackClassification, utid: nat, name: TrackName)
      returns (id: TrackId)
      requires Valid() && NameAllowed(c, name)
      modifies this
      ensures Valid() && Outcome(State(), id) == Store.CreateThreadTrack(old(State()), c, utid, name)
    {
      id := Insert(TrackRow(StringIdFromTrackName(c, name), c, Some(Dimensions([UtidFacet(utid)])),
                            None, ThreadTrack(utid)));
    }

    method CreateThreadCounterTrack(c: TrackClassification, utid: nat, name: TrackName)
      returns (id: TrackId)
      requires Valid() && NameAllowed(c, name)
      modifies this
      ensures Valid() && Outcome(State(), id) == Store.CreateThreadCounterTrack(old(State()), c, utid, name)
    {
      id := Insert(TrackRow(StringIdFromTrackName(c, name), c, Some(Dimensions([UtidFacet(utid)])),
                            None, ThreadCounterTrack(utid)));
    }

    method InternTrack(c: TrackClassification, dims: Option<Dimensions>, name: TrackName,
                       callback: Option<CallbackId>) returns (id: TrackId)
      requires Valid() && (TrackMapKey(c, dims) in tracks || NameAllowed(c, name))
      modifies this
      ensures Valid() && Outcome(State(), id) == Store.InternTrack(old(State()), c, dims, name, callback)
    {
      ghost var s0 := State();
      ghost var expected := Store.InternTrack(s0, c, dims, name, callback);
      var key := TrackMapKey(c, dims);
      if key in tracks {
        return tracks[key];
      }
      id := CreateTrack(c, dims, name);
      tracks := tracks[key := id];
      if callback.Some? {
        args := args + [CallbackRun(id, callback.value)];
      }
      assert expected == Store.Miss(s0, key, TrackRow(StringIdFromTrackName(c, name), c, dims, None, PlainTrack),
                                    Store.CallbackEvents(|s0.rows|, callback));
      assert State() == expected.state;
    }

    method InternCounterTrack(c: TrackClassification, dims: Option<Dimensions>, name: TrackName)
      returns (id: TrackId)
      requires Valid() && (TrackMapKey(c, dims) in tracks || NameAllowed(c, name))
      modifies this
      ensures Valid() && Outcome(State(), id) == Store.InternCounterTrack(old(State()), c, dims, name)
    {
      ghost var s0 := State();
      ghost var expected := Store.InternCounterTrack(s0, c, dims, name);
      var key := TrackMapKey(c, dims);
      if key in tracks {
        return tracks[key];
      }
      id := CreateCounterTrack(c, dims, name);
      tracks := tracks[key := id];
      assert expected == Store.Miss(s0, key, TrackRow(StringIdFromTrackName(c, name), c, dims, None,
                                                      CounterTrack(NullStringId, NullStringId)), []);
      assert State() == expected.state;
    }

    method InternProcessTrack(c: TrackClassification, upid: nat, name: TrackName)
      returns (id: TrackId)
      requires Valid() && (Store.ProcessKey(c, upid) in tracks || NameAllowed(c, name))
      modifies this
      ensures Valid() && Outcome(State(), id) == Store.InternProcessTrack(old(State()), c, upid, name)
    {
      ghost var s0 := State();
      ghost var expected := Store.InternProcessTrack(s0, c, upid, name);
      var key := Store.ProcessKey(c, upid);
      if key in tracks {
        return tracks[key];
      }
      id := CreateProcessTrack(c, upid, None, name);
      tracks := tracks[key := id];
      assert expected == Store.Miss(s0, key, TrackRow(StringIdFromTrackName(c, name), c, key.dimensions, None,
                                                      ProcessTrack(upid)), []);
      assert State() == expected.state;
    }

    method LegacyInternProcessCounterTrack(rawName: StringId, upid: nat, unit: StringId,
                                           description: StringId) returns (id: TrackId)
      requires Valid()
      modifies this
      ensures Valid() &&
              Outcome(State(), id) ==
                Store.LegacyInternProcessCounterTrack(old(State()), env, rawName, upid, unit, description)
    {
      ghost var s0 := State();
      ghost var expected := Store.LegacyInternProcessCounterTrack(s0, env, rawName, upid, unit, description);
      var name := env.translateName(rawName);
      var key := Store.ProcessCounterKey(upid, name);
      if key in tracks {
        return tracks[key];
      }
      var row := TrackRow(name, Unknown, key.dimensions, None, ProcessCounterTrack(upid, unit, description));
      id := Insert(row);
      tracks := tracks[key := id];
      assert expected == Store.Miss(s0, key, row, []);
      assert State() == expected.state;
    }

    method InternThreadTrack(utid: nat, name: TrackName) returns (id: TrackId)
      requires Valid() && (Store.ThreadKey(utid) in tracks || NameAllowed(Thread, name))
      modifies this
      ensures Valid() && Outcome(State(), id) == Store.InternThreadTrack(old(State()), utid, name)
    {
      ghost var s0 := State();
      ghost var expected := Store.InternThreadTrack(s0, utid, name);
      var key := Store.ThreadKey(utid);
      if key in tracks {
        return tracks[key];
      }
      id := CreateThreadTrack(Thread, utid, name);
      tracks := tracks[key := id];
      assert expected == Store.Miss(s0, key, TrackRow(StringIdFromTrackName(Thread, name), Thread, key.dimensions,
                                                      None, ThreadTrack(utid)), []);
      assert State() == expected.state;
    }

    method LegacyInternThreadCounterTrack(name: StringId, utid: nat) returns (id: TrackId)
      requires Valid()
      modifies this
      ensures Valid() && Outcome(State(), id) == Store.LegacyInternThreadCounterTrack(old(State()), name, utid)
    {
      ghost var s0 := State();
      ghost var expected := Store.LegacyInternThreadCounterTrack(s0, name, utid);
      var key := Store.ThreadCounterKey(utid, name);
      if key in tracks {
        return tracks[key];
      }
      id := CreateThreadCounterTrack(Unknown, utid, LegacyStringIdName(name));
      Bind(key, id);
      assert expected == Store.Miss(s0, key, TrackRow(name, Unknown, Some(Dimensions([UtidFacet(utid)])), None,
                                                      ThreadCounterTrack(utid)), []);
    }

    method InternCpuTrack(c: TrackClassification, cpu: nat, name: TrackName) returns (id: TrackId)
      requires Valid() && (Store.CpuKey(c, env.cpuOf(cpu)) in tracks || NameAllowed(c, name))
      modifies this
      ensures Valid() && Outcome(State(), id) == Store.InternCpuTrack(old(State()), env, c, cpu, name)
    {
      ghost var s0 := State();
      ghost var expected := Store.InternCpuTrack(s0, env, c, cpu, name);
      var ucpu := env.cpuOf(cpu);
      var key := Store.CpuKey(c, ucpu);
      if key in tracks {
        return tracks[key];
      }
      var row := TrackRow(StringIdFromTrackName(c, name), c, key.dimensions, None, CpuTrack(ucpu));
      id := Insert(row);
      tracks := tracks[key := id];
      assert expected == Store.Miss(s0, key, row, []);
      assert State() == expected.state;
    }

    method InternGlobalTrack(c: TrackClassification, name: TrackName, callback: Option<CallbackId>)
      returns (id: TrackId)
      requires Valid() && (TrackMapKey(c, None) in tracks || NameAllowed(c, name))
      modifies this
      ensures Valid() && Outcome(State(), id) == Store.InternGlobalTrack(old(State()), c, name, callback)
    {
      id := InternTrack(c, None, name, callback);
    }

    method LegacyInternGpuTrack(input: GpuTrackInput) returns (id: TrackId)
      requires Valid()
      modifies this
      ensures Valid() && Outcome(State(), id) == Store.LegacyInternGpuTrack(old(State()), input)
    {
      ghost var s0 := State();
      ghost var expected := Store.LegacyInternGpuTrack(s0, input);
      var key := TrackMapKey(Unknown, Some(Store.GpuTrackDims(input)));
      if key in tracks {
        return tracks[key];
      }
      var row := TrackRow(input.name, Unknown, key.dimensions, None, GpuTrack(input.scope, input.contextId));
      id := Insert(row);
      tracks := tracks[key := id];
      assert expected == Store.Miss(s0, key, row, []);
      assert State() == expected.state;
    }

    method LegacyInternGlobalCounterTrack(g: Group, name: StringId, callback: Option<CallbackId>,
                                          unit: StringId, description: StringId) returns (id: TrackId)
      requires Valid() && (Store.GlobalCounterKey(name) in tracks || g != SizeSentinel)
      modifies this, groupTrackIds
      ensures Valid() &&
              Outcome(State(), id) ==
                Store.LegacyInternGlobalCounterTrack(old(State()), g, name, callback, unit, description)
    {
      ghost var s0 := State();
      ghost var expected := Store.LegacyInternGlobalCounterTrack(s0, g, name, callback, unit, description);
      var key := Store.GlobalCounterKey(name);
      if key in tracks {
        return tracks[key];
      }
      var parent := InternTrackForGroup(g);
      ghost var grouped := State();
      var row := TrackRow(name, Unknown, None, Some(parent), CounterTrack(unit, description));
      id := AddTrack(key, row, callback);
      assert expected == Store.Miss(grouped, key, row, Store.CallbackEvents(|grouped.rows|, callback));
    }

    method InternCpuCounterTrack(c: TrackClassification, cpu: nat, name: TrackName)
      returns (id: TrackId)
      requires Valid() && NameAllowed(c, name)
      modifies this
      ensures Valid() && Outcome(State(), id) == Store.InternCpuCounterTrack(old(State()), env, c, cpu, name)
    {
      ghost var s0 := State();
      ghost var expected := Store.InternCpuCounterTrack(s0, env, c, cpu, name);
      var ucpu := env.cpuOf(cpu);
      var nameId := StringIdFromTrackName(c, name);
      var key := Store.CpuCounterKey(c, ucpu, nameId);
      if key in tracks {
        return tracks[key];
      }
      var row := TrackRow(nameId, c, key.dimensions, None, CpuCounterTrack(ucpu));
      id := Insert(row);
      tracks := tracks[key := id];
      assert expected == Store.Miss(s0, key, row, []);
      assert State() == expected.state;
    }

    method LegacyInternCpuIdleStateTrack(cpu: nat, state: StringId) returns (id: TrackId)
      requires Valid()
      modifies this
      ensures Valid() && Outcome(State(), id) == Store.LegacyInternCpuIdleStateTrack(old(State()), env, cpu, state)
    {
      ghost var s0 := State();
      ghost var expected := Store.LegacyInternCpuIdleStateTrack(s0, env, cpu, state);
      var ucpu := env.cpuOf(cpu);
      var key := Store.CpuIdleStateKey(state, ucpu);
      if key in tracks {
        return tracks[key];
      }
      var name := "cpuidle." + GetString(state);
      var row := TrackRow(InternString(name), CpuIdleState, key.dimensions, None, CpuCounterTrack(ucpu));
      id := Insert(row);
      Bind(key, id);
      assert expected == Store.Miss(s0, key, row, []);
    }

    method InternGpuCounterTrack(c: TrackClassification, gpuId: nat, name: TrackName)
      returns (id: TrackId)
      requires Valid() && (Store.GpuCounterKey(c, gpuId) in tracks || NameAllowed(c, name))
      modifies this
      ensures Valid() && Outcome(State(), id) == Store.InternGpuCounterTrack(old(State()), c, gpuId, name)
    {
      ghost var s0 := State();
      ghost var expected := Store.InternGpuCounterTrack(s0, c, gpuId, name);
      var key := Store.GpuCounterKey(c, gpuId);
      if key in tracks {
        return tracks[key];
      }
      var row := TrackRow(StringIdFromTrackName(c, name), c, key.dimensions, None,
                          GpuCounterTrack(gpuId, NullStringId, NullStringId));
      if c == GpuFrequency {
        row := row.(name := InternString("gpufreq"));
      }
      id := Insert(row);
      tracks := tracks[key := id];
      assert expected == Store.Miss(s0, key, row, []);
      assert State() == expected.state;
    }

    method LegacyCreateGpuCounterTrack(name: StringId, gpuId: nat, description: StringId,
                                       unit: StringId) returns (id: TrackId)
      requires Valid()
      modifies this
      ensures Valid() &&
              Outcome(State(), id) == Store.LegacyCreateGpuCounterTrack(old(State()), name, gpuId, description, unit)
    {
      id := Insert(TrackRow(name, Unknown, Some(Dimensions([GpuFacet(gpuId)])), None,
                            GpuCounterTrack(gpuId, unit, description)));
    }

    method LegacyCreatePerfCounterTrack(name: StringId, perfSessionId: nat, cpu: nat,
                                        isTimebase: bool) returns (id: TrackId)
      requires Valid()
      modifies this
      ensures Valid() &&
              Outcome(State(), id) ==
                Store.LegacyCreatePerfCounterTrack(old(State()), env, name, perfSessionId, cpu, isTimebase)
    {
      var ucpu := env.cpuOf(cpu);
      var dims := Dimensions([UcpuFacet(ucpu), Facet("perf_session_id", IntDim(perfSessionId))]);
      id := Insert(TrackRow(name, Unknown, Some(dims), None, PerfCounterTrack(perfSessionId, cpu, isTimebase)));
    }

    method InternTrackForGroup(g: Group) returns (id: TrackId)
      requires Valid() && g != SizeSentinel
      modifies this, groupTrackIds
      ensures Valid() && Outcome(State(), id) == Store.InternTrackForGroup(old(State()), g)
    {
      ghost var expected := Store.InternTrackForGroup(State(), g);
      var i := GroupIndex(g);
      if groupTrackIds[i].Some? {
        return groupTrackIds[i].value;
      }
      var nameId := InternString(GetNameForGroup(g));
      id := InternTrack(Unknown, None, LegacyStringIdName(nameId), None);
      ghost var interned := State();
      groupTrackIds[i] := Some(id);
      assert groupTrackIds[..] == interned.groups[i := Some(id)];
      assert State() == expected.state;
    }

    method LegacyInternLegacyChromeAsyncTrack(rawName: StringId, upid: nat, traceId: int,
                                              processScoped: bool, sourceScope: StringId)
      returns (id: TrackId)
      requires Valid()
      modifies this
      ensures Valid() &&
              Outcome(State(), id) ==
                Store.LegacyInternLegacyChromeAsyncTrack(old(State()), env, rawName, upid, traceId,
                                                         processScoped, sourceScope)
    {
      ghost var s0 := State();
      var key := TrackMapKey(Unknown, Some(Store.ChromeAsyncDims(sourceScope, processScoped, upid, traceId)));
      var name := env.translateName(rawName);
      if key in tracks {
        id := tracks[key];
        if name != NullStringId && rows[id].name == NullStringId {
          rows := rows[id := rows[id].(name := name)];
        }
        return;
      }
      var row := TrackRow(name, Unknown, key.dimensions, None, ProcessTrack(upid));
      id := Insert(row);
      tracks := tracks[key := id];
      args := args + [ChromeAsyncArgs(id, traceId, processScoped, sourceScope)];
      assert State() == Store.Miss(s0, key, row, [ChromeAsyncArgs(|s0.rows|, traceId, processScoped, sourceScope)]).state;
    }
  }
}
