/**
 * The track interning engine as a function of its state: one function per entry point,
 * taking the state before the call and returning the state after it with the id the call
 * returns.
 *
 * Every interning entry point looks its key up in the cache; on a hit it returns the
 * cached id, on a miss it appends one row, binds the key to the new id and, for some
 * entry points, records an argument event. The two legacy create paths bypass the cache.
 * `ValidState` is the invariant every entry point keeps.
 */
module TrackStore {
  import opened Wrappers
  import opened TrackTypes
  import opened TrackNames

  /** The key every umbrella group track is interned under. */
  const GroupKey: TrackMapKey := TrackMapKey(Unknown, None)

  /** A freshly constructed engine: no cached key, no row, every group slot empty. */
  const EmptyState: TrackState := TrackState(map[], [], seq(GroupCount, _ => None), [])

  /**
   * The invariant: one slot per group; every cached id names a row of the key's
   * classification; no two keys share an id; a filled group slot holds the id cached for
   * the shared group key.
   */
  ghost predicate ValidState(s: TrackState)
  {
    && |s.groups| == GroupCount
    && (forall k | k in s.tracks ::
          s.tracks[k] < |s.rows| && s.rows[s.tracks[k]].classification == k.classification)
    && (forall k1, k2 | k1 in s.tracks && k2 in s.tracks && s.tracks[k1] == s.tracks[k2] :: k1 == k2)
    && (forall i | 0 <= i < |s.groups| && s.groups[i].Some? ::
          GroupKey in s.tracks && s.groups[i].value == s.tracks[GroupKey])
  }

  /** Ids once cached stay cached and keep their value. */
  ghost predicate CacheGrows(s: TrackState, t: TrackState)
  {
    forall k | k in s.tracks :: k in t.tracks && t.tracks[k] == s.tracks[k]
  }

  /** The table insert: the row gets the next id of the shared id space. */
  function Append(s: TrackState, row: TrackRow): Outcome
  {
    Outcome(s.(rows := s.rows + [row]), |s.rows|)
  }

  /** Binds `key` to the id just returned. */
  function Record(o: Outcome, key: TrackMapKey): Outcome
  {
    Outcome(o.state.(tracks := o.state.tracks[key := o.id]), o.id)
  }

  /** The argument event of an args callback, if one was passed. */
  function CallbackEvents(id: TrackId, callback: Option<CallbackId>): seq<ArgsEvent>
  {
    if callback.Some? then [CallbackRun(id, callback.value)] else []
  }

  /** Binding a fresh key to a new row of the key's classification keeps the invariant. */
  lemma BindNewRow(t: TrackState, key: TrackMapKey, id: TrackId)
    ensures (&& ValidState(t) && key !in t.tracks && id < |t.rows|
             && t.rows[id].classification == key.classification
             && (forall k | k in t.tracks :: t.tracks[k] < id))
            ==> ValidState(t.(tracks := t.tracks[key := id]))
  {
    if && ValidState(t) && key !in t.tracks && id < |t.rows|
       && t.rows[id].classification == key.classification
       && (forall k | k in t.tracks :: t.tracks[k] < id)
    {
      var u := t.(tracks := t.tracks[key := id]);
      forall k1, k2 | k1 in u.tracks && k2 in u.tracks && u.tracks[k1] == u.tracks[k2]
        ensures k1 == k2
      {
      }
      forall i | 0 <= i < |u.groups| && u.groups[i].Some?
        ensures GroupKey in u.tracks && u.groups[i].value == u.tracks[GroupKey]
      {
        assert GroupKey in t.tracks;
      }
    }
  }

  /** A filled group slot names a row of the unknown classification. */
  lemma FilledGroupSlot(t: TrackState, i: nat)
    ensures (ValidState(t) && i < |t.groups| && t.groups[i].Some?) ==>
              t.groups[i].value < |t.rows| && t.rows[t.groups[i].value].classification == Unknown
  {
  }

  /** Filling a group slot with the id cached for the group key keeps the invariant. */
  lemma FillGroupSlot(t: TrackState, i: nat, id: TrackId)
    ensures (ValidState(t) && i < |t.groups| && GroupKey in t.tracks && t.tracks[GroupKey] == id)
            ==> ValidState(t.(groups := t.groups[i := Some(id)]))
  {
  }

  /**
   * The miss path every interning entry point shares: the row is inserted under the
   * next id, the key is bound to that id and the argument events are logged.
   */
  function Miss(s: TrackState, key: TrackMapKey, row: TrackRow, events: seq<ArgsEvent>): (r: Outcome)
    requires key !in s.tracks
    ensures r.id == |s.rows|
    ensures r.state == TrackState(s.tracks[key := r.id], s.rows + [row], s.groups, s.args + events)
    ensures CacheGrows(s, r.state)
    ensures ValidState(s) && row.classification == key.classification ==>
              ValidState(r.state) && r.id < |r.state.rows| && r.state.rows[r.id].classification == key.classification
  {
    var created := Append(s, row);
    BindNewRow(created.state, key, created.id);
    var bound := Record(created, key);
    Outcome(bound.state.(args := bound.state.args + events), bound.id)
  }

  // ---------------------------------------------------------------------------------
  // Create paths: one row, no cache access.

  /** `CreateTrack`: a plain track row named by the name policy. */
  function CreateTrack(s: TrackState, c: TrackClassification, dims: Option<Dimensions>,
                       name: TrackName): (r: Outcome)
    requires NameAllowed(c, name)
    ensures r.id == |s.rows|
    ensures r.state.rows == s.rows + [TrackRow(StringIdFromTrackName(c, name), c, dims, None, PlainTrack)]
    ensures r.state.tracks == s.tracks && r.state.groups == s.groups && r.state.args == s.args
    ensures ValidState(s) ==> ValidState(r.state)
  {
    Append(s, TrackRow(StringIdFromTrackName(c, name), c, dims, None, PlainTrack))
  }

  /** `CreateCounterTrack`: a counter row with no unit and no description. */
  function CreateCounterTrack(s: TrackState, c: TrackClassification, dims: Option<Dimensions>,
                              name: TrackName): (r: Outcome)
    requires NameAllowed(c, name)
    ensures r.id == |s.rows|
    ensures r.state.rows == s.rows + [
              TrackRow(StringIdFromTrackName(c, name), c, dims, None,
                       CounterTrack(NullStringId, NullStringId))]
    ensures r.state.tracks == s.tracks && r.state.groups == s.groups && r.state.args == s.args
    ensures ValidState(s) ==> ValidState(r.state)
  {
    Append(s, TrackRow(StringIdFromTrackName(c, name), c, dims, None,
                       CounterTrack(NullStringId, NullStringId)))
  }

  /** `CreateProcessTrack`: the dimensions default to the single upid facet. */
  function CreateProcessTrack(s: TrackState, c: TrackClassification, upid: nat,
                              dims: Option<Dimensions>, name: TrackName): (r: Outcome)
    requires NameAllowed(c, name)
    ensures r.id == |s.rows|
    ensures r.state.rows == s.rows + [
              TrackRow(StringIdFromTrackName(c, name), c,
                       Some(if dims.Some? then dims.value else Dimensions([UpidFacet(upid)])), None,
                       ProcessTrack(upid))]
    ensures r.state.tracks == s.tracks && r.state.groups == s.groups && r.state.args == s.args
    ensures ValidState(s) ==> ValidState(r.state)
  {
    var d := if dims.Some? then dims.value else Dimensions([UpidFacet(upid)]);
    Append(s, TrackRow(StringIdFromTrackName(c, name), c, Some(d), None, ProcessTrack(upid)))
  }

  /** `CreateProcessCounterTrack`: as the process track, in the process counter table. */
  function CreateProcessCounterTrack(s: TrackState, c: TrackClassification, upid: nat,
                                     dims: Option<Dimensions>, name: TrackName): (r: Outcome)
    requires NameAllowed(c, name)
    ensures r.id == |s.rows|
    ensures r.state.rows == s.rows + [
              TrackRow(StringIdFromTrackName(c, name), c,
                       Some(if dims.Some? then dims.value else Dimensions([UpidFacet(upid)])), None,
                       ProcessCounterTrack(upid, NullStringId, NullStringId))]
    ensures r.state.tracks == s.tracks && r.state.groups == s.groups && r.state.args == s.args
    ensures ValidState(s) ==> ValidState(r.state)
  {
    var d := if dims.Some? then dims.value else Dimensions([UpidFacet(upid)]);
    Append(s, TrackRow(StringIdFromTrackName(c, name), c, Some(d), None,
                       ProcessCounterTrack(upid, NullStringId, NullStringId)))
  }

  /** `CreateThreadTrack`: a thread track row with the single utid facet. */
  function CreateThreadTrack(s: TrackState, c: TrackClassification, utid: nat,
                             name: TrackName): (r: Outcome)
    requires NameAllowed(c, name)
    ensures r.id == |s.rows|
    ensures r.state.rows == s.rows + [
              TrackRow(StringIdFromTrackName(c, name), c, Some(Dimensions([UtidFacet(utid)])), None,
                       ThreadTrack(utid))]
    ensures r.state.tracks == s.tracks && r.state.groups == s.groups && r.state.args == s.args
    ensures ValidState(s) ==> ValidState(r.state)
  {
    Append(s, TrackRow(StringIdFromTrackName(c, name), c, Some(Dimensions([UtidFacet(utid)])),
                       None, ThreadTrack(utid)))
  }

  /** `CreateThreadCounterTrack`: a thread counter row with the single utid facet. */
  function CreateThreadCounterTrack(s: TrackState, c: TrackClassification, utid: nat,
                                    name: TrackName): (r: Outcome)
    requires NameAllowed(c, name)
    ensures r.id == |s.rows|
    ensures r.state.rows == s.rows + [
              TrackRow(StringIdFromTrackName(c, name), c, Some(Dimensions([UtidFacet(utid)])), None,
                       ThreadCounterTrack(utid))]
    ensures r.state.tracks == s.tracks && r.state.groups == s.groups && r.state.args == s.args
    ensures ValidState(s) ==> ValidState(r.state)
  {
    Append(s, TrackRow(StringIdFromTrackName(c, name), c, Some(Dimensions([UtidFacet(utid)])),
                       None, ThreadCounterTrack(utid)))
  }

  /** `LegacyCreateGpuCounterTrack`: always a new row, keyed on nothing. */
  function LegacyCreateGpuCounterTrack(s: TrackState, name: StringId, gpuId: nat,
                                       description: StringId, unit: StringId): (r: Outcome)
    ensures r.id == |s.rows|
    ensures r.state.rows == s.rows + [
              TrackRow(name, Unknown, Some(Dimensions([GpuFacet(gpuId)])), None,
                       GpuCounterTrack(gpuId, unit, description))]
    ensures r.state.tracks == s.tracks && r.state.groups == s.groups && r.state.args == s.args
    ensures ValidState(s) ==> ValidState(r.state)
  {
    Append(s, TrackRow(name, Unknown, Some(Dimensions([GpuFacet(gpuId)])), None,
                       GpuCounterTrack(gpuId, unit, description)))
  }

  /** Dimensions of a perf counter track: the CPU's ucpu, then the perf session. */
  function PerfCounterDims(ucpu: nat, perfSessionId: nat): Dimensions
  {
    Dimensions([UcpuFacet(ucpu), Facet("perf_session_id", IntDim(perfSessionId))])
  }

  /** `LegacyCreatePerfCounterTrack`: always a new row, keyed on nothing. */
  function LegacyCreatePerfCounterTrack(s: TrackState, env: Collaborators, name: StringId,
                                        perfSessionId: nat, cpu: nat, isTimebase: bool): (r: Outcome)
    ensures r.id == |s.rows|
    ensures r.state.rows == s.rows + [
              TrackRow(name, Unknown, Some(PerfCounterDims(env.cpuOf(cpu), perfSessionId)), None,
                       PerfCounterTrack(perfSessionId, cpu, isTimebase))]
    ensures r.state.tracks == s.tracks && r.state.groups == s.groups && r.state.args == s.args
    ensures ValidState(s) ==> ValidState(r.state)
  {
    var ucpu := env.cpuOf(cpu);
    Append(s, TrackRow(name, Unknown, Some(PerfCounterDims(ucpu, perfSessionId)), None,
                       PerfCounterTrack(perfSessionId, cpu, isTimebase)))
  }

  // ---------------------------------------------------------------------------------
  // Interning paths.

  /**
   * `InternTrack`: a hit returns the cached id and changes nothing (the callback does
   * not run); a miss appends one plain row, binds the key to it and runs the callback
   * once for the new id.
   */
  function InternTrack(s: TrackState, c: TrackClassification, dims: Option<Dimensions>,
                       name: TrackName, callback: Option<CallbackId>): (r: Outcome)
    requires TrackMapKey(c, dims) in s.tracks || NameAllowed(c, name)
    ensures CacheGrows(s, r.state)
    ensures TrackMapKey(c, dims) in r.state.tracks && r.state.tracks[TrackMapKey(c, dims)] == r.id
    ensures TrackMapKey(c, dims) in s.tracks ==> r == Outcome(s, s.tracks[TrackMapKey(c, dims)])
    ensures TrackMapKey(c, dims) !in s.tracks ==>
              && r.id == |s.rows| && r.state.tracks == s.tracks[TrackMapKey(c, dims) := r.id]
              && r.state.rows == s.rows + [TrackRow(StringIdFromTrackName(c, name), c, dims, None, PlainTrack)]
              && r.state.groups == s.groups
              && r.state.args == s.args + CallbackEvents(r.id, callback)
    ensures ValidState(s) ==>
              ValidState(r.state) && r.id < |r.state.rows| && r.state.rows[r.id].classification == c
  {
    var key := TrackMapKey(c, dims);
    if key in s.tracks then Outcome(s, s.tracks[key])
    else
      Miss(s, key, TrackRow(StringIdFromTrackName(c, name), c, dims, None, PlainTrack),
           CallbackEvents(|s.rows|, callback))
  }

  /** `InternCounterTrack`: as `InternTrack`, with a counter row and no callback. */
  function InternCounterTrack(s: TrackState, c: TrackClassification, dims: Option<Dimensions>,
                              name: TrackName): (r: Outcome)
    requires TrackMapKey(c, dims) in s.tracks || NameAllowed(c, name)
    ensures CacheGrows(s, r.state)
    ensures TrackMapKey(c, dims) in r.state.tracks && r.state.tracks[TrackMapKey(c, dims)] == r.id
    ensures TrackMapKey(c, dims) in s.tracks ==> r == Outcome(s, s.tracks[TrackMapKey(c, dims)])
    ensures TrackMapKey(c, dims) !in s.tracks ==>
              && r.id == |s.rows| && r.state.tracks == s.tracks[TrackMapKey(c, dims) := r.id]
              && r.state.rows == s.rows + [TrackRow(StringIdFromTrackName(c, name), c, dims, None,
                                                    CounterTrack(NullStringId, NullStringId))]
              && r.state.groups == s.groups && r.state.args == s.args
    ensures ValidState(s) ==>
              ValidState(r.state) && r.id < |r.state.rows| && r.state.rows[r.id].classification == c
  {
    var key := TrackMapKey(c, dims);
    if key in s.tracks then Outcome(s, s.tracks[key])
    else
      Miss(s, key, TrackRow(StringIdFromTrackName(c, name), c, dims, None,
                            CounterTrack(NullStringId, NullStringId)), [])
  }

  /** Key of the process track of `upid`. */
  function ProcessKey(c: TrackClassification, upid: nat): TrackMapKey
  {
    TrackMapKey(c, Some(Dimensions([UpidFacet(upid)])))
  }

  /** `InternProcessTrack`: keyed on the classification and the upid alone. */
  function InternProcessTrack(s: TrackState, c: TrackClassification, upid: nat,
                              name: TrackName): (r: Outcome)
    requires ProcessKey(c, upid) in s.tracks || NameAllowed(c, name)
    ensures CacheGrows(s, r.state)
    ensures ProcessKey(c, upid) in r.state.tracks && r.state.tracks[ProcessKey(c, upid)] == r.id
    ensures ProcessKey(c, upid) in s.tracks ==> r == Outcome(s, s.tracks[ProcessKey(c, upid)])
    ensures ProcessKey(c, upid) !in s.tracks ==>
              && r.id == |s.rows| && r.state.tracks == s.tracks[ProcessKey(c, upid) := r.id]
              && r.state.rows == s.rows + [TrackRow(StringIdFromTrackName(c, name), c,
                                                    ProcessKey(c, upid).dimensions, None, ProcessTrack(upid))]
              && r.state.groups == s.groups && r.state.args == s.args
    ensures ValidState(s) ==>
              ValidState(r.state) && r.id < |r.state.rows| && r.state.rows[r.id].classification == c
  {
    var key := ProcessKey(c, upid);
    if key in s.tracks then Outcome(s, s.tracks[key])
    else
      Miss(s, key, TrackRow(StringIdFromTrackName(c, name), c, key.dimensions, None,
                            ProcessTrack(upid)), [])
  }

  /** Key of a legacy process counter track: the upid, then the translated name. */
  function ProcessCounterKey(upid: nat, name: StringId): TrackMapKey
  {
    TrackMapKey(Unknown, Some(Dimensions([UpidFacet(upid), NameFacet(name)])))
  }

  /**
   * `LegacyInternProcessCounterTrack`: the raw name is translated first and the
   * translated name is part of the key; the new row carries unit and description.
   */
  function LegacyInternProcessCounterTrack(s: TrackState, env: Collaborators, rawName: StringId,
                                           upid: nat, unit: StringId, description: StringId): (r: Outcome)
    ensures var key := ProcessCounterKey(upid, env.translateName(rawName));
            && CacheGrows(s, r.state)
            && key in r.state.tracks && r.state.tracks[key] == r.id
            && (key in s.tracks ==> r == Outcome(s, s.tracks[key]))
            && (key !in s.tracks ==>
                  && r.id == |s.rows| && r.state.tracks == s.tracks[key := r.id]
                  && r.state.rows == s.rows + [TrackRow(env.translateName(rawName), Unknown, key.dimensions,
                                                        None, ProcessCounterTrack(upid, unit, description))]
                  && r.state.groups == s.groups && r.state.args == s.args)
    ensures ValidState(s) ==>
              ValidState(r.state) && r.id < |r.state.rows| && r.state.rows[r.id].classification == Unknown
  {
    var name := env.translateName(rawName);
    var key := ProcessCounterKey(upid, name);
    if key in s.tracks then Outcome(s, s.tracks[key])
    else
      Miss(s, key, TrackRow(name, Unknown, key.dimensions, None,
                            ProcessCounterTrack(upid, unit, description)), [])
  }

  /** Key of the thread track of `utid`. */
  function ThreadKey(utid: nat): TrackMapKey
  {
    TrackMapKey(Thread, Some(Dimensions([UtidFacet(utid)])))
  }

  /** `InternThreadTrack`: keyed on the thread classification and the utid alone. */
  function InternThreadTrack(s: TrackState, utid: nat, name: TrackName): (r: Outcome)
    requires ThreadKey(utid) in s.tracks || NameAllowed(Thread, name)
    ensures CacheGrows(s, r.state)
    ensures ThreadKey(utid) in r.state.tracks && r.state.tracks[ThreadKey(utid)] == r.id
    ensures ThreadKey(utid) in s.tracks ==> r == Outcome(s, s.tracks[ThreadKey(utid)])
    ensures ThreadKey(utid) !in s.tracks ==>
              && r.id == |s.rows| && r.state.tracks == s.tracks[ThreadKey(utid) := r.id]
              && r.state.rows == s.rows + [TrackRow(StringIdFromTrackName(Thread, name), Thread,
                                                    ThreadKey(utid).dimensions, None, ThreadTrack(utid))]
              && r.state.groups == s.groups && r.state.args == s.args
    ensures ValidState(s) ==>
              ValidState(r.state) && r.id < |r.state.rows| && r.state.rows[r.id].classification == Thread
  {
    var key := ThreadKey(utid);
    if key in s.tracks then Outcome(s, s.tracks[key])
    else
      Miss(s, key, TrackRow(StringIdFromTrackName(Thread, name), Thread, key.dimensions, None,
                            ThreadTrack(utid)), [])
  }

  /** Key of a legacy thread counter track: the utid, then the name. */
  function ThreadCounterKey(utid: nat, name: StringId): TrackMapKey
  {
    TrackMapKey(Unknown, Some(Dimensions([UtidFacet(utid), NameFacet(name)])))
  }

  /**
   * `LegacyInternThreadCounterTrack`: the name is part of the key, while the row it
   * creates carries the utid facet alone.
   */
  function LegacyInternThreadCounterTrack(s: TrackState, name: StringId, utid: nat): (r: Outcome)
    ensures CacheGrows(s, r.state)
    ensures ThreadCounterKey(utid, name) in r.state.tracks && r.state.tracks[ThreadCounterKey(utid, name)] == r.id
    ensures ThreadCounterKey(utid, name) in s.tracks ==> r == Outcome(s, s.tracks[ThreadCounterKey(utid, name)])
    ensures ThreadCounterKey(utid, name) !in s.tracks ==>
              && r.id == |s.rows| && r.state.tracks == s.tracks[ThreadCounterKey(utid, name) := r.id]
              && r.state.rows == s.rows + [TrackRow(name, Unknown, Some(Dimensions([UtidFacet(utid)])),
                                                    None, ThreadCounterTrack(utid))]
              && r.state.groups == s.groups && r.state.args == s.args
    ensures ValidState(s) ==>
              ValidState(r.state) && r.id < |r.state.rows| && r.state.rows[r.id].classification == Unknown
  {
    var key := ThreadCounterKey(utid, name);
    if key in s.tracks then Outcome(s, s.tracks[key])
    else
      Miss(s, key, TrackRow(name, Unknown, Some(Dimensions([UtidFacet(utid)])), None,
                            ThreadCounterTrack(utid)), [])
  }

  /** Key of the CPU track of a ucpu. */
  function CpuKey(c: TrackClassification, ucpu: nat): TrackMapKey
  {
    TrackMapKey(c, Some(Dimensions([UcpuFacet(ucpu)])))
  }

  /** `InternCpuTrack`: the raw CPU number is mapped to its ucpu, which is the key. */
  function InternCpuTrack(s: TrackState, env: Collaborators, c: TrackClassification, cpu: nat,
                          name: TrackName): (r: Outcome)
    requires CpuKey(c, env.cpuOf(cpu)) in s.tracks || NameAllowed(c, name)
    ensures var key := CpuKey(c, env.cpuOf(cpu));
            && CacheGrows(s, r.state)
            && key in r.state.tracks && r.state.tracks[key] == r.id
            && (key in s.tracks ==> r == Outcome(s, s.tracks[key]))
            && (key !in s.tracks ==>
                  && r.id == |s.rows| && r.state.tracks == s.tracks[key := r.id]
                  && r.state.rows == s.rows + [TrackRow(StringIdFromTrackName(c, name), c, key.dimensions,
                                                        None, CpuTrack(env.cpuOf(cpu)))]
                  && r.state.groups == s.groups && r.state.args == s.args)
    ensures ValidState(s) ==>
              ValidState(r.state) && r.id < |r.state.rows| && r.state.rows[r.id].classification == c
  {
    var ucpu := env.cpuOf(cpu);
    var key := CpuKey(c, ucpu);
    if key in s.tracks then Outcome(s, s.tracks[key])
    else
      Miss(s, key, TrackRow(StringIdFromTrackName(c, name), c, key.dimensions, None, CpuTrack(ucpu)), [])
  }

  /** `InternGlobalTrack`: `InternTrack` with no dimensions. */
  function InternGlobalTrack(s: TrackState, c: TrackClassification, name: TrackName,
                             callback: Option<CallbackId>): (r: Outcome)
    requires TrackMapKey(c, None) in s.tracks || NameAllowed(c, name)
    ensures CacheGrows(s, r.state)
    ensures TrackMapKey(c, None) in r.state.tracks && r.state.tracks[TrackMapKey(c, None)] == r.id
    ensures TrackMapKey(c, None) in s.tracks ==> r == Outcome(s, s.tracks[TrackMapKey(c, None)])
    ensures TrackMapKey(c, None) !in s.tracks ==>
              && r.id == |s.rows| && r.state.tracks == s.tracks[TrackMapKey(c, None) := r.id]
              && r.state.rows == s.rows + [TrackRow(StringIdFromTrackName(c, name), c, None, None, PlainTrack)]
              && r.state.groups == s.groups
              && r.state.args == s.args + CallbackEvents(r.id, callback)
    ensures ValidState(s) ==>
              ValidState(r.state) && r.id < |r.state.rows| && r.state.rows[r.id].classification == c
  {
    InternTrack(s, c, None, name, callback)
  }

  /** Dimensions of a legacy GPU track: gpu context, the scope if there is one, the name. */
  function GpuTrackDims(input: GpuTrackInput): Dimensions
  {
    var gpu := if input.contextId.Some? then input.contextId.value else 0;
    var scope := if input.scope != NullStringId then [Facet("scope", StrDim(input.scope))] else [];
    Dimensions([GpuFacet(gpu)] + scope + [NameFacet(input.name)])
  }

  /** `LegacyInternGpuTrack`: keyed on `GpuTrackDims` under the unknown classification. */
  function LegacyInternGpuTrack(s: TrackState, input: GpuTrackInput): (r: Outcome)
    ensures var key := TrackMapKey(Unknown, Some(GpuTrackDims(input)));
            && CacheGrows(s, r.state)
            && key in r.state.tracks && r.state.tracks[key] == r.id
            && (key in s.tracks ==> r == Outcome(s, s.tracks[key]))
            && (key !in s.tracks ==>
                  && r.id == |s.rows| && r.state.tracks == s.tracks[key := r.id]
                  && r.state.rows == s.rows + [TrackRow(input.name, Unknown, key.dimensions, None,
                                                        GpuTrack(input.scope, input.contextId))]
                  && r.state.groups == s.groups && r.state.args == s.args)
    ensures ValidState(s) ==>
              ValidState(r.state) && r.id < |r.state.rows| && r.state.rows[r.id].classification == Unknown
  {
    var key := TrackMapKey(Unknown, Some(GpuTrackDims(input)));
    if key in s.tracks then Outcome(s, s.tracks[key])
    else
      Miss(s, key, TrackRow(input.name, Unknown, key.dimensions, None,
                            GpuTrack(input.scope, input.contextId)), [])
  }

  /**
   * The empty-slot path of `InternTrackForGroup`: the track interned under `GroupKey`,
   * named by the group's label, fills the slot.
   */
  function FillGroup(s: TrackState, g: Group): (r: Outcome)
    requires g != SizeSentinel && |s.groups| == GroupCount && s.groups[GroupIndex(g)].None?
    ensures CacheGrows(s, r.state) && r.state.args == s.args
    ensures GroupKey in r.state.tracks && r.state.tracks[GroupKey] == r.id
    ensures r.state.groups == s.groups[GroupIndex(g) := Some(r.id)]
    ensures GroupKey in s.tracks ==> r.state.rows == s.rows && r.state.tracks == s.tracks
    ensures GroupKey !in s.tracks ==>
              r.id == |s.rows| && r.state.tracks == s.tracks[GroupKey := r.id] &&
              r.state.rows == s.rows + [TrackRow(InternString(GetNameForGroup(g)), Unknown, None,
                                                  None, PlainTrack)]
    ensures ValidState(s) ==>
              ValidState(r.state) && r.id < |r.state.rows| && r.state.rows[r.id].classification == Unknown
  {
    var i := GroupIndex(g);
    var o := InternTrack(s, Unknown, None, LegacyStringIdName(InternString(GetNameForGroup(g))), None);
    FillGroupSlot(o.state, i, o.id);
    Outcome(o.state.(groups := o.state.groups[i := Some(o.id)]), o.id)
  }

  /**
   * `InternTrackForGroup`: a filled slot is returned as it is and nothing changes; an
   * empty one is filled by `FillGroup`.
   */
  function InternTrackForGroup(s: TrackState, g: Group): (r: Outcome)
    requires g != SizeSentinel && |s.groups| == GroupCount
    ensures CacheGrows(s, r.state) && r.state.args == s.args
    ensures |r.state.groups| == GroupCount && r.state.groups[GroupIndex(g)] == Some(r.id)
    ensures s.groups[GroupIndex(g)].Some? ==> r == Outcome(s, s.groups[GroupIndex(g)].value)
    ensures s.groups[GroupIndex(g)].None? ==> r == FillGroup(s, g)
    ensures ValidState(s) ==>
              ValidState(r.state) && r.id < |r.state.rows| && r.state.rows[r.id].classification == Unknown
  {
    var i := GroupIndex(g);
    if s.groups[i].Some? then
      FilledGroupSlot(s, i);
      Outcome(s, s.groups[i].value)
    else FillGroup(s, g)
  }

  /** Key of a legacy global counter track: its name alone. */
  function GlobalCounterKey(name: StringId): TrackMapKey
  {
    TrackMapKey(Unknown, Some(Dimensions([NameFacet(name)])))
  }

  /**
   * `LegacyInternGlobalCounterTrack`: on a miss the group's umbrella track is interned
   * first and becomes the parent of the new counter row, which stores no dimensions;
   * the callback then runs once for the counter.
   */
  function LegacyInternGlobalCounterTrack(s: TrackState, g: Group, name: StringId,
                                          callback: Option<CallbackId>, unit: StringId,
                                          description: StringId): (r: Outcome)
    requires |s.groups| == GroupCount
    requires GlobalCounterKey(name) in s.tracks || g != SizeSentinel
    ensures CacheGrows(s, r.state) && |r.state.groups| == GroupCount
    ensures GlobalCounterKey(name) in r.state.tracks && r.state.tracks[GlobalCounterKey(name)] == r.id
    ensures GlobalCounterKey(name) in s.tracks ==> r == Outcome(s, s.tracks[GlobalCounterKey(name)])
    ensures GlobalCounterKey(name) !in s.tracks ==>
              && r.id == |r.state.rows| - 1
              && r.state.groups[GroupIndex(g)].Some?
              && r.state.rows[r.id] == TrackRow(name, Unknown, None, r.state.groups[GroupIndex(g)],
                                                CounterTrack(unit, description))
              && r.state.args == s.args + CallbackEvents(r.id, callback)
    // The group's umbrella track already fills its slot: only the counter row is added.
    ensures GlobalCounterKey(name) !in s.tracks && s.groups[GroupIndex(g)].Some? ==>
              && r.id == |s.rows| && r.state.tracks == s.tracks[GlobalCounterKey(name) := r.id]
              && r.state.rows == s.rows + [TrackRow(name, Unknown, None, s.groups[GroupIndex(g)],
                                                    CounterTrack(unit, description))]
              && r.state.groups == s.groups
    // The slot is empty but the shared group key is cached: the slot takes that track.
    ensures GlobalCounterKey(name) !in s.tracks && s.groups[GroupIndex(g)].None? && GroupKey in s.tracks ==>
              && r.id == |s.rows| && r.state.tracks == s.tracks[GlobalCounterKey(name) := r.id]
              && r.state.rows == s.rows + [TrackRow(name, Unknown, None, Some(s.tracks[GroupKey]),
                                                    CounterTrack(unit, description))]
              && r.state.groups == s.groups[GroupIndex(g) := Some(s.tracks[GroupKey])]
    // Neither exists: the umbrella row, then the counter row under it.
    ensures GlobalCounterKey(name) !in s.tracks && s.groups[GroupIndex(g)].None? && GroupKey !in s.tracks ==>
              && r.id == |s.rows| + 1
              && r.state.tracks == s.tracks[GroupKey := |s.rows|][GlobalCounterKey(name) := r.id]
              && r.state.rows == s.rows + [TrackRow(InternString(GetNameForGroup(g)), Unknown, None, None, PlainTrack),
                                           TrackRow(name, Unknown, None, Some(|s.rows|),
                                                    CounterTrack(unit, description))]
              && r.state.groups == s.groups[GroupIndex(g) := Some(|s.rows|)]
    ensures ValidState(s) ==>
              ValidState(r.state) && r.id < |r.state.rows| && r.state.rows[r.id].classification == Unknown
  {
    var key := GlobalCounterKey(name);
    if key in s.tracks then Outcome(s, s.tracks[key])
    else
      var parent := InternTrackForGroup(s, g);
      Miss(parent.state, key, TrackRow(name, Unknown, None, Some(parent.id), CounterTrack(unit, description)),
           CallbackEvents(|parent.state.rows|, callback))
  }

  /** Key of a CPU counter track: the ucpu, then the resolved name. */
  function CpuCounterKey(c: TrackClassification, ucpu: nat, name: StringId): TrackMapKey
  {
    TrackMapKey(c, Some(Dimensions([UcpuFacet(ucpu), NameFacet(name)])))
  }

  /**
   * `InternCpuCounterTrack`: the name is resolved before the lookup and is part of the
   * key, so the name policy applies on hits and misses alike.
   */
  function InternCpuCounterTrack(s: TrackState, env: Collaborators, c: TrackClassification,
                                 cpu: nat, name: TrackName): (r: Outcome)
    requires NameAllowed(c, name)
    ensures var key := CpuCounterKey(c, env.cpuOf(cpu), StringIdFromTrackName(c, name));
            && CacheGrows(s, r.state)
            && key in r.state.tracks && r.state.tracks[key] == r.id
            && (key in s.tracks ==> r == Outcome(s, s.tracks[key]))
            && (key !in s.tracks ==>
                  && r.id == |s.rows| && r.state.tracks == s.tracks[key := r.id]
                  && r.state.rows == s.rows + [TrackRow(StringIdFromTrackName(c, name), c, key.dimensions,
                                                        None, CpuCounterTrack(env.cpuOf(cpu)))]
                  && r.state.groups == s.groups && r.state.args == s.args)
    ensures ValidState(s) ==>
              ValidState(r.state) && r.id < |r.state.rows| && r.state.rows[r.id].classification == c
  {
    var ucpu := env.cpuOf(cpu);
    var nameId := StringIdFromTrackName(c, name);
    var key := CpuCounterKey(c, ucpu, nameId);
    if key in s.tracks then Outcome(s, s.tracks[key])
    else
      Miss(s, key, TrackRow(nameId, c, key.dimensions, None, CpuCounterTrack(ucpu)), [])
  }

  /** Key of a CPU idle-state track: the state, then the ucpu. */
  function CpuIdleStateKey(state: StringId, ucpu: nat): TrackMapKey
  {
    TrackMapKey(CpuIdleState, Some(Dimensions([Facet("cpu_idle_state", StrDim(state)), UcpuFacet(ucpu)])))
  }

  /** `LegacyInternCpuIdleStateTrack`: the new row is named "cpuidle." and the state. */
  function LegacyInternCpuIdleStateTrack(s: TrackState, env: Collaborators, cpu: nat,
                                         state: StringId): (r: Outcome)
    ensures var key := CpuIdleStateKey(state, env.cpuOf(cpu));
            && CacheGrows(s, r.state)
            && key in r.state.tracks && r.state.tracks[key] == r.id
            && (key in s.tracks ==> r == Outcome(s, s.tracks[key]))
            && (key !in s.tracks ==>
                  && r.id == |s.rows| && r.state.tracks == s.tracks[key := r.id]
                  && r.state.rows == s.rows + [TrackRow(InternString("cpuidle." + GetString(state)),
                                                        CpuIdleState, key.dimensions, None,
                                                        CpuCounterTrack(env.cpuOf(cpu)))]
                  && r.state.groups == s.groups && r.state.args == s.args)
    ensures ValidState(s) ==>
              ValidState(r.state) && r.id < |r.state.rows| && r.state.rows[r.id].classification == CpuIdleState
  {
    var ucpu := env.cpuOf(cpu);
    var key := CpuIdleStateKey(state, ucpu);
    if key in s.tracks then Outcome(s, s.tracks[key])
    else
      Miss(s, key, TrackRow(InternString("cpuidle." + GetString(state)), CpuIdleState,
                            key.dimensions, None, CpuCounterTrack(ucpu)), [])
  }

  /** Key of a GPU counter track: the gpu id alone. */
  function GpuCounterKey(c: TrackClassification, gpuId: nat): TrackMapKey
  {
    TrackMapKey(c, Some(Dimensions([GpuFacet(gpuId)])))
  }

  /**
   * `InternGpuCounterTrack`: the name policy applies on a miss, after which a GPU
   * frequency row is renamed "gpufreq".
   */
  function InternGpuCounterTrack(s: TrackState, c: TrackClassification, gpuId: nat,
                                 name: TrackName): (r: Outcome)
    requires GpuCounterKey(c, gpuId) in s.tracks || NameAllowed(c, name)
    ensures CacheGrows(s, r.state)
    ensures GpuCounterKey(c, gpuId) in r.state.tracks && r.state.tracks[GpuCounterKey(c, gpuId)] == r.id
    ensures GpuCounterKey(c, gpuId) in s.tracks ==> r == Outcome(s, s.tracks[GpuCounterKey(c, gpuId)])
    ensures GpuCounterKey(c, gpuId) !in s.tracks ==>
              && r.id == |s.rows| && r.state.tracks == s.tracks[GpuCounterKey(c, gpuId) := r.id]
              && r.state.rows == s.rows + [
                   TrackRow(if c == GpuFrequency then InternString("gpufreq") else StringIdFromTrackName(c, name),
                            c, GpuCounterKey(c, gpuId).dimensions, None,
                            GpuCounterTrack(gpuId, NullStringId, NullStringId))]
              && r.state.groups == s.groups && r.state.args == s.args
    ensures ValidState(s) ==>
              ValidState(r.state) && r.id < |r.state.rows| && r.state.rows[r.id].classification == c
  {
    var key := GpuCounterKey(c, gpuId);
    if key in s.tracks then Outcome(s, s.tracks[key])
    else
      var resolved := StringIdFromTrackName(c, name);
      var stored := if c == GpuFrequency then InternString("gpufreq") else resolved;
      Miss(s, key, TrackRow(stored, c, key.dimensions, None,
                            GpuCounterTrack(gpuId, NullStringId, NullStringId)), [])
  }

  /**
   * Dimensions of a legacy Chrome async track: the source scope, the upid only when the
   * id is process-scoped, then the cookie. The name is not among them.
   */
  function ChromeAsyncDims(sourceScope: StringId, processScoped: bool, upid: nat,
                           traceId: int): Dimensions
  {
    Dimensions([Facet("scope", StrDim(sourceScope))] +
               (if processScoped then [UpidFacet(upid)] else []) +
               [Facet("cookie", IntDim(traceId))])
  }

  /**
   * `LegacyInternLegacyChromeAsyncTrack`: a hit with a non-null translated name fills in
   * the cached row's name if it is still null, and never overwrites one; a miss creates
   * a process track row and records the Chrome async arguments for it.
   */
  function LegacyInternLegacyChromeAsyncTrack(s: TrackState, env: Collaborators, rawName: StringId,
                                              upid: nat, traceId: int, processScoped: bool,
                                              sourceScope: StringId): (r: Outcome)
    requires ValidState(s)
    ensures var key := TrackMapKey(Unknown, Some(ChromeAsyncDims(sourceScope, processScoped, upid, traceId)));
            && CacheGrows(s, r.state)
            && key in r.state.tracks && r.state.tracks[key] == r.id
            && (key in s.tracks ==>
                  && r.id == s.tracks[key]
                  && r.state.tracks == s.tracks && r.state.groups == s.groups && r.state.args == s.args
                  && |r.state.rows| == |s.rows|
                  && (forall j | 0 <= j < |s.rows| && j != r.id :: r.state.rows[j] == s.rows[j])
                  && r.state.rows[r.id] ==
                       (if env.translateName(rawName) != NullStringId && s.rows[r.id].name == NullStringId
                        then s.rows[r.id].(name := env.translateName(rawName))
                        else s.rows[r.id]))
            && (key !in s.tracks ==>
                  && r.id == |s.rows| && r.state.tracks == s.tracks[key := r.id]
                  && r.state.rows == s.rows + [TrackRow(env.translateName(rawName), Unknown, key.dimensions,
                                                        None, ProcessTrack(upid))]
                  && r.state.groups == s.groups
                  && r.state.args == s.args + [ChromeAsyncArgs(r.id, traceId, processScoped, sourceScope)])
    ensures ValidState(r.state) && r.id < |r.state.rows| && r.state.rows[r.id].classification == Unknown
  {
    var key := TrackMapKey(Unknown, Some(ChromeAsyncDims(sourceScope, processScoped, upid, traceId)));
    var name := env.translateName(rawName);
    if key in s.tracks then
      var id := s.tracks[key];
      if name != NullStringId && s.rows[id].name == NullStringId then
        Outcome(s.(rows := s.rows[id := s.rows[id].(name := name)]), id)
      else Outcome(s, id)
    else
      Miss(s, key, TrackRow(name, Unknown, key.dimensions, None, ProcessTrack(upid)),
           [ChromeAsyncArgs(|s.rows|, traceId, processScoped, sourceScope)])
  }
}
