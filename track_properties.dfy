/**
 * Properties of the track interning engine that relate several calls: idempotence,
 * discrimination by key, names that are part of a key, the legacy Chrome async naming
 * rule, the shared umbrella group track and the uncached legacy create paths.
 */
module TrackProperties {
  import opened Wrappers
  import opened TrackTypes
  import opened TrackNames
  import opened TrackStore

  /** The freshly constructed engine satisfies the invariant. */
  lemma EmptyStateValid()
    ensures ValidState(EmptyState)
    ensures forall i | 0 <= i < GroupCount :: EmptyState.groups[i] == None
  {
  }

  /**
   * Two calls, the second after the first: they return the same id exactly when their
   * keys are equal. Cached ids never move and no two keys share an id.
   */
  lemma SameIdIffSameKey(s1: TrackState, id1: TrackId, k1: TrackMapKey,
                         s2: TrackState, id2: TrackId, k2: TrackMapKey)
    requires k1 in s1.tracks && s1.tracks[k1] == id1
    requires CacheGrows(s1, s2) && ValidState(s2)
    requires k2 in s2.tracks && s2.tracks[k2] == id2
    ensures id1 == id2 <==> k1 == k2
  {
    assert k1 in s2.tracks && s2.tracks[k1] == id1;
  }

  /**
   * Idempotence of `InternTrack`: a second call with the same key returns the first id
   * and changes nothing, whatever name and callback it passes.
   */
  lemma InternTrackIdempotent(s: TrackState, c: TrackClassification, dims: Option<Dimensions>,
                              name1: TrackName, callback1: Option<CallbackId>,
                              name2: TrackName, callback2: Option<CallbackId>)
    requires TrackMapKey(c, dims) in s.tracks || NameAllowed(c, name1)
    ensures var o1 := InternTrack(s, c, dims, name1, callback1);
            InternTrack(o1.state, c, dims, name2, callback2) == o1
  {
  }

  /**
   * Discrimination: two `InternTrack` calls return the same id exactly when their
   * (classification, dimensions) keys are equal.
   */
  lemma InternTrackDiscriminates(s: TrackState,
                                 c1: TrackClassification, dims1: Option<Dimensions>, name1: TrackName,
                                 callback1: Option<CallbackId>,
                                 c2: TrackClassification, dims2: Option<Dimensions>, name2: TrackName,
                                 callback2: Option<CallbackId>)
    requires ValidState(s)
    requires TrackMapKey(c1, dims1) in s.tracks || NameAllowed(c1, name1)
    requires TrackMapKey(c2, dims2) in s.tracks || TrackMapKey(c2, dims2) == TrackMapKey(c1, dims1) ||
             NameAllowed(c2, name2)
    ensures var o1 := InternTrack(s, c1, dims1, name1, callback1);
            var o2 := InternTrack(o1.state, c2, dims2, name2, callback2);
            o1.id == o2.id <==> (c1 == c2 && dims1 == dims2)
  {
    var o1 := InternTrack(s, c1, dims1, name1, callback1);
    var o2 := InternTrack(o1.state, c2, dims2, name2, callback2);
    SameIdIffSameKey(o1.state, o1.id, TrackMapKey(c1, dims1), o2.state, o2.id, TrackMapKey(c2, dims2));
  }

  // Proof helpers: counting the thread-track rows of a utid.

  /** Number of thread-track rows of `utid`. */
  function ThreadTrackRows(rows: seq<TrackRow>, utid: nat): (n: nat)
    ensures n <= |rows|
  {
    if rows == [] then 0
    else ThreadTrackRows(rows[..|rows| - 1], utid) + (if rows[|rows| - 1].kind == ThreadTrack(utid) then 1 else 0)
  }

  /** Appending a row adds one to the count exactly when it is a thread track of `utid`. */
  lemma ThreadTrackRowsAppend(rows: seq<TrackRow>, row: TrackRow, utid: nat)
    ensures ThreadTrackRows(rows + [row], utid) ==
              ThreadTrackRows(rows, utid) + (if row.kind == ThreadTrack(utid) then 1 else 0)
  {
    assert (rows + [row])[..|rows|] == rows;
  }

  /**
   * Three `InternThreadTrack` calls for the same thread return one id whatever the
   * names (only a call that creates the track checks its name), and add at most one
   * thread-track row for it: exactly one when the thread had no cached track.
   */
  lemma ThreadTrackOnce(s: TrackState, utid: nat, name1: TrackName, name2: TrackName, name3: TrackName)
    requires ThreadKey(utid) in s.tracks || NameAllowed(Thread, name1)
    ensures var o1 := InternThreadTrack(s, utid, name1);
            var o2 := InternThreadTrack(o1.state, utid, name2);
            var o3 := InternThreadTrack(o2.state, utid, name3);
            && o2.id == o1.id && o3.id == o1.id && o3.state == o1.state
            && ThreadTrackRows(o3.state.rows, utid) ==
                 ThreadTrackRows(s.rows, utid) + (if ThreadKey(utid) in s.tracks then 0 else 1)
  {
    var o1 := InternThreadTrack(s, utid, name1);
    if ThreadKey(utid) !in s.tracks {
      ThreadTrackRowsAppend(s.rows, o1.state.rows[o1.id], utid);
    }
  }

  /** A legacy thread counter is keyed on its name: different names, different tracks. */
  lemma ThreadCounterNameInKey(s: TrackState, utid: nat, name1: StringId, name2: StringId)
    requires ValidState(s)
    ensures var o1 := LegacyInternThreadCounterTrack(s, name1, utid);
            var o2 := LegacyInternThreadCounterTrack(o1.state, name2, utid);
            o1.id == o2.id <==> name1 == name2
  {
    var o1 := LegacyInternThreadCounterTrack(s, name1, utid);
    var o2 := LegacyInternThreadCounterTrack(o1.state, name2, utid);
    SameIdIffSameKey(o1.state, o1.id, ThreadCounterKey(utid, name1),
                     o2.state, o2.id, ThreadCounterKey(utid, name2));
  }

  /**
   * A legacy process counter is keyed on its translated name: two raw names give the
   * same track exactly when they translate to the same name.
   */
  lemma ProcessCounterNameInKey(s: TrackState, env: Collaborators, upid: nat,
                                raw1: StringId, unit1: StringId, description1: StringId,
                                raw2: StringId, unit2: StringId, description2: StringId)
    requires ValidState(s)
    ensures var o1 := LegacyInternProcessCounterTrack(s, env, raw1, upid, unit1, description1);
            var o2 := LegacyInternProcessCounterTrack(o1.state, env, raw2, upid, unit2, description2);
            o1.id == o2.id <==> env.translateName(raw1) == env.translateName(raw2)
  {
    var o1 := LegacyInternProcessCounterTrack(s, env, raw1, upid, unit1, description1);
    var o2 := LegacyInternProcessCounterTrack(o1.state, env, raw2, upid, unit2, description2);
    SameIdIffSameKey(o1.state, o1.id, ProcessCounterKey(upid, env.translateName(raw1)),
                     o2.state, o2.id, ProcessCounterKey(upid, env.translateName(raw2)));
  }

  /**
   * A CPU counter is keyed on its resolved name: on one CPU, two names give the same
   * track exactly when they resolve to the same string id.
   */
  lemma CpuCounterNameInKey(s: TrackState, env: Collaborators, c: TrackClassification, cpu: nat,
                            name1: TrackName, name2: TrackName)
    requires ValidState(s) && NameAllowed(c, name1) && NameAllowed(c, name2)
    ensures var o1 := InternCpuCounterTrack(s, env, c, cpu, name1);
            var o2 := InternCpuCounterTrack(o1.state, env, c, cpu, name2);
            o1.id == o2.id <==> StringIdFromTrackName(c, name1) == StringIdFromTrackName(c, name2)
  {
    var o1 := InternCpuCounterTrack(s, env, c, cpu, name1);
    var o2 := InternCpuCounterTrack(o1.state, env, c, cpu, name2);
    SameIdIffSameKey(o1.state, o1.id, CpuCounterKey(c, env.cpuOf(cpu), StringIdFromTrackName(c, name1)),
                     o2.state, o2.id, CpuCounterKey(c, env.cpuOf(cpu), StringIdFromTrackName(c, name2)));
  }

  /**
   * A new GPU frequency counter track is named "gpufreq" whatever name the caller
   * passed.
   */
  lemma GpuFrequencyName(s: TrackState, gpuId: nat, name: TrackName)
    requires GpuCounterKey(GpuFrequency, gpuId) !in s.tracks && NameAllowed(GpuFrequency, name)
    ensures var o := InternGpuCounterTrack(s, GpuFrequency, gpuId, name);
            GetString(o.state.rows[o.id].name) == "gpufreq"
  {
  }

  /**
   * A new CPU idle-state track is named "cpuidle." followed by the state's text, so the
   * state can be read back from the name.
   */
  lemma CpuIdleStateName(s: TrackState, env: Collaborators, cpu: nat, state: StringId)
    requires CpuIdleStateKey(state, env.cpuOf(cpu)) !in s.tracks
    ensures var o := LegacyInternCpuIdleStateTrack(s, env, cpu, state);
            var text := GetString(o.state.rows[o.id].name);
            |text| >= 8 && text[..8] == "cpuidle." && text[8..] == GetString(state)
  {
  }

  /**
   * The Chrome async key leaves the name out: a second call for the same scope, upid
   * scoping and cookie returns the first id and adds no row, whatever its name.
   */
  lemma ChromeAsyncNameNotInKey(s: TrackState, env: Collaborators, raw1: StringId, raw2: StringId,
                                upid: nat, traceId: int, processScoped: bool, sourceScope: StringId)
    requires ValidState(s)
    ensures var o1 := LegacyInternLegacyChromeAsyncTrack(s, env, raw1, upid, traceId, processScoped, sourceScope);
            var o2 := LegacyInternLegacyChromeAsyncTrack(o1.state, env, raw2, upid, traceId, processScoped, sourceScope);
            o2.id == o1.id && |o2.state.rows| == |o1.state.rows| && o2.state.tracks == o1.state.tracks
  {
  }

  /**
   * The upid is in the Chrome async key only when the id is process-scoped: globally
   * scoped ids share one track across processes, process-scoped ids get one per process.
   */
  lemma ChromeAsyncScoping(s: TrackState, env: Collaborators, raw1: StringId, raw2: StringId,
                           upid1: nat, upid2: nat, traceId: int, processScoped: bool,
                           sourceScope: StringId)
    requires ValidState(s)
    ensures var o1 := LegacyInternLegacyChromeAsyncTrack(s, env, raw1, upid1, traceId, processScoped, sourceScope);
            var o2 := LegacyInternLegacyChromeAsyncTrack(o1.state, env, raw2, upid2, traceId, processScoped, sourceScope);
            o1.id == o2.id <==> (!processScoped || upid1 == upid2)
  {
    var o1 := LegacyInternLegacyChromeAsyncTrack(s, env, raw1, upid1, traceId, processScoped, sourceScope);
    var o2 := LegacyInternLegacyChromeAsyncTrack(o1.state, env, raw2, upid2, traceId, processScoped, sourceScope);
    var k1 := TrackMapKey(Unknown, Some(ChromeAsyncDims(sourceScope, processScoped, upid1, traceId)));
    var k2 := TrackMapKey(Unknown, Some(ChromeAsyncDims(sourceScope, processScoped, upid2, traceId)));
    SameIdIffSameKey(o1.state, o1.id, k1, o2.state, o2.id, k2);
    if processScoped && k1 == k2 {
      assert k1.dimensions.value.facets[1] == UpidFacet(upid1);
    }
  }

  /** A stored non-null name is never overwritten by a later Chrome async call. */
  lemma ChromeAsyncKeepsName(s: TrackState, env: Collaborators, raw: StringId, upid: nat,
                             traceId: int, processScoped: bool, sourceScope: StringId)
    requires ValidState(s)
    requires var key := TrackMapKey(Unknown, Some(ChromeAsyncDims(sourceScope, processScoped, upid, traceId)));
             key in s.tracks && s.rows[s.tracks[key]].name != NullStringId
    ensures LegacyInternLegacyChromeAsyncTrack(s, env, raw, upid, traceId, processScoped, sourceScope) ==
              Outcome(s, s.tracks[TrackMapKey(Unknown, Some(ChromeAsyncDims(sourceScope, processScoped, upid, traceId)))])
  {
  }

  /**
   * Retroactive naming: a track first created without a name (an end event) takes the
   * name of the next call that has one, keeps its id, and gets no second row and no
   * second argument record.
   */
  lemma ChromeAsyncLateName(s: TrackState, env: Collaborators, rawEnd: StringId, rawBegin: StringId,
                            upid: nat, traceId: int, processScoped: bool, sourceScope: StringId)
    requires ValidState(s)
    requires TrackMapKey(Unknown, Some(ChromeAsyncDims(sourceScope, processScoped, upid, traceId))) !in s.tracks
    requires env.translateName(rawEnd) == NullStringId && env.translateName(rawBegin) != NullStringId
    ensures var o1 := LegacyInternLegacyChromeAsyncTrack(s, env, rawEnd, upid, traceId, processScoped, sourceScope);
            var o2 := LegacyInternLegacyChromeAsyncTrack(o1.state, env, rawBegin, upid, traceId, processScoped, sourceScope);
            && o2.id == o1.id && |o2.state.rows| == |s.rows| + 1
            && o2.state.rows[o2.id].name == env.translateName(rawBegin)
            && o2.state.rows[..|s.rows|] == s.rows
            && o2.state.args == s.args + [ChromeAsyncArgs(o1.id, traceId, processScoped, sourceScope)]
  {
    var o1 := LegacyInternLegacyChromeAsyncTrack(s, env, rawEnd, upid, traceId, processScoped, sourceScope);
    var o2 := LegacyInternLegacyChromeAsyncTrack(o1.state, env, rawBegin, upid, traceId, processScoped, sourceScope);
    assert o1.state.rows[o1.id].name == NullStringId;
    assert o2.state.rows[..|s.rows|] == o1.state.rows[..|s.rows|];
  }

  /** A group's umbrella track is interned once: a later call returns it and changes nothing. */
  lemma GroupTrackStable(s: TrackState, g: Group)
    requires g != SizeSentinel && |s.groups| == GroupCount
    ensures var o1 := InternTrackForGroup(s, g);
            InternTrackForGroup(o1.state, g) == o1
  {
  }

  /**
   * Every group is interned under the one key (unknown, no dimensions), so once any
   * group has its track, the first call for another group returns that same id and
   * creates no row; a global unknown-classification track is that track as well.
   */
  lemma GroupsShareOneTrack(s: TrackState, g1: Group, g2: Group, name: TrackName,
                            callback: Option<CallbackId>)
    requires ValidState(s) && g1 != SizeSentinel && g2 != SizeSentinel
    ensures var o1 := InternTrackForGroup(s, g1);
            var o2 := InternTrackForGroup(o1.state, g2);
            && o2.id == o1.id && o2.state.rows == o1.state.rows && o2.state.tracks == o1.state.tracks
            && InternGlobalTrack(o2.state, Unknown, name, callback) == o2
  {
    var o1 := InternTrackForGroup(s, g1);
    assert GroupKey in o1.state.tracks && o1.state.tracks[GroupKey] == o1.id;
  }

  /**
   * On a miss, a legacy global counter becomes a child of its group's umbrella track,
   * which the call interns first if needed.
   */
  lemma GlobalCounterParent(s: TrackState, g: Group, name: StringId, callback: Option<CallbackId>,
                            unit: StringId, description: StringId)
    requires ValidState(s) && g != SizeSentinel && GlobalCounterKey(name) !in s.tracks
    ensures var o := LegacyInternGlobalCounterTrack(s, g, name, callback, unit, description);
            var parent := InternTrackForGroup(s, g);
            && o.state.rows[o.id].parent == Some(parent.id)
            && o.state.groups[GroupIndex(g)] == Some(parent.id)
            && parent.id != o.id
  {
  }

  /**
   * The legacy GPU counter path never consults the cache: two identical calls create
   * two rows with different ids, and the cache is unchanged.
   */
  lemma LegacyGpuCounterAlwaysNew(s: TrackState, name: StringId, gpuId: nat, description: StringId,
                                  unit: StringId)
    ensures var o1 := LegacyCreateGpuCounterTrack(s, name, gpuId, description, unit);
            var o2 := LegacyCreateGpuCounterTrack(o1.state, name, gpuId, description, unit);
            && o1.id != o2.id && |o2.state.rows| == |s.rows| + 2
            && o2.state.rows[o1.id] == o2.state.rows[o2.id]
            && o2.state.tracks == s.tracks
  {
  }

  /**
   * The legacy perf counter path never consults the cache: two identical calls create
   * two rows with different ids, and the cache is unchanged.
   */
  lemma LegacyPerfCounterAlwaysNew(s: TrackState, env: Collaborators, name: StringId,
                                   perfSessionId: nat, cpu: nat, isTimebase: bool)
    ensures var o1 := LegacyCreatePerfCounterTrack(s, env, name, perfSessionId, cpu, isTimebase);
            var o2 := LegacyCreatePerfCounterTrack(o1.state, env, name, perfSessionId, cpu, isTimebase);
            && o1.id != o2.id && |o2.state.rows| == |s.rows| + 2
            && o2.state.rows[o1.id] == o2.state.rows[o2.id]
            && o2.state.tracks == s.tracks
  {
  }
  /**
   * A concrete run of retroactive naming on a fresh engine whose translation table is
   * the identity: an unnamed end event for scope "x", upid 3, cookie 7, then a begin
   * event named "Foo"; both return one id and the row reads back as "Foo".
   */
  lemma RetroactiveNamingExample(processScoped: bool)
    ensures var env := Collaborators(n => n, cpu => cpu);
            var o1 := LegacyInternLegacyChromeAsyncTrack(EmptyState, env, NullStringId, 3, 7, processScoped, InternString("x"));
            var o2 := LegacyInternLegacyChromeAsyncTrack(o1.state, env, InternString("Foo"), 3, 7, processScoped, InternString("x"));
            o2.id == o1.id && |o2.state.rows| == 1 && GetString(o2.state.rows[o2.id].name) == "Foo"
  {
    var env := Collaborators(n => n, cpu => cpu);
    EmptyStateValid();
    ChromeAsyncLateName(EmptyState, env, NullStringId, InternString("Foo"), 3, 7, processScoped, InternString("x"));
  }

  /**
   * On a fresh engine, interning the thread track of utid 5 three times gives one id and
   * exactly one thread-track row for that thread.
   */
  lemma ThreadTrackExample(name1: TrackName, name2: TrackName, name3: TrackName)
    requires NameAllowed(Thread, name1)
    ensures var o1 := InternThreadTrack(EmptyState, 5, name1);
            var o2 := InternThreadTrack(o1.state, 5, name2);
            var o3 := InternThreadTrack(o2.state, 5, name3);
            o2.id == o1.id && o3.id == o1.id && ThreadTrackRows(o3.state.rows, 5) == 1
  {
    ThreadTrackOnce(EmptyState, 5, name1, name2, name3);
  }
}
