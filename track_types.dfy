/**
 * Values shared by the track interning engine: string ids, classifications, name
 * descriptors, dimensions, cache keys, track rows and the engine's whole state.
 *
 * The string pool is abstracted as an injective naming: an interned id is its text, so
 * two ids are equal exactly when their texts are, which is what interning guarantees.
 * A track id is the row's position in the one id space that all the typed track tables
 * share.
 */
module TrackTypes {
  import opened Wrappers

  datatype StringId = NullStringId | Interned(text: string)

  /** The pool's `InternString`. */
  function InternString(s: string): StringId
  {
    Interned(s)
  }

  /** The pool's `GetString`; the null id reads as the empty text. */
  function GetString(id: StringId): (s: string)
    ensures id.Interned? ==> InternString(s) == id
  {
    match id
    case NullStringId => ""
    case Interned(t) => t
  }

  type TrackId = nat

  /**
   * The classifications this file refers to by name; every other value of the
   * enumeration is an `OtherClassification`, told apart by its ordinal.
   */
  datatype TrackClassification =
    | Unknown
    | Thread
    | AndroidEnergyEstimationBreakdown
    | AndroidEnergyEstimationBreakdownPerUid
    | Trigger
    | Interconnect
    | LinuxRuntimePowerManagement
    | IrqCpu
    | SoftirqCpu
    | NapiGroCpu
    | FuncgraphCpu
    | MaliIrqCpu
    | PkvmHypervisor
    | CpuFrequency
    | CpuFrequencyThrottle
    | CpuIdle
    | UserTime
    | SystemModeTime
    | CpuIdleTime
    | IoWaitTime
    | IrqTime
    | SoftIrqTime
    | IrqCounter
    | SoftirqCounter
    | CpuUtilization
    | CpuCapacity
    | CpuNumberRunning
    | CpuMaxFrequencyLimit
    | CpuMinFrequencyLimit
    | CpuIdleState
    | GpuFrequency
    | OtherClassification(ordinal: nat)

  /** The four ways a caller can name a track. */
  datatype TrackName =
    | AutoName
    | LegacyStringIdName(id: StringId)
    | LegacyCharArrayName(chars: string)
    | FromTraceName(id: StringId)

  /** A dimension value: an integer or a string id. */
  datatype DimValue = IntDim(i: int) | StrDim(s: StringId)

  datatype Facet = Facet(key: string, value: DimValue)

  /**
   * A built dimension set, compared as the sequence of facets in the order the call
   * site appended them.
   */
  datatype Dimensions = Dimensions(facets: seq<Facet>)

  function UpidFacet(upid: nat): Facet { Facet("upid", IntDim(upid)) }
  function UtidFacet(utid: nat): Facet { Facet("utid", IntDim(utid)) }
  function UcpuFacet(ucpu: nat): Facet { Facet("ucpu", IntDim(ucpu)) }
  function GpuFacet(gpu: int): Facet { Facet("gpu", IntDim(gpu)) }
  function NameFacet(name: StringId): Facet { Facet("name", StrDim(name)) }

  /** The cache key: a classification and, except for global tracks, dimensions. */
  datatype TrackMapKey = TrackMapKey(classification: TrackClassification, dimensions: Option<Dimensions>)

  /** Umbrella groups; `SizeSentinel` only marks the number of groups. */
  datatype Group =
    | Memory | Io | Virtio | Network | Power | DeviceState | Thermals | ClockFrequency
    | BatteryMitigation | SizeSentinel

  const GroupCount: nat := 9

  /** The table a row went to, with the columns particular to that table. */
  datatype RowKind =
    | PlainTrack
    | CounterTrack(unit: StringId, description: StringId)
    | ProcessTrack(upid: nat)
    | ProcessCounterTrack(upid: nat, unit: StringId, description: StringId)
    | ThreadTrack(utid: nat)
    | ThreadCounterTrack(utid: nat)
    | CpuTrack(ucpu: nat)
    | CpuCounterTrack(ucpu: nat)
    | GpuTrack(scope: StringId, contextId: Option<int>)
    | GpuCounterTrack(gpuId: nat, unit: StringId, description: StringId)
    | PerfCounterTrack(perfSessionId: nat, cpu: nat, isTimebase: bool)

  /** The columns every track row has, and its table-specific part. */
  datatype TrackRow = TrackRow(
    name: StringId,
    classification: TrackClassification,
    dimensions: Option<Dimensions>,
    parent: Option<TrackId>,
    kind: RowKind)

  /** The columns of a GPU track row that the legacy GPU path reads. */
  datatype GpuTrackInput = GpuTrackInput(name: StringId, scope: StringId, contextId: Option<int>)

  /** Identifies the args callback a caller passed. */
  type CallbackId = nat

  /** What was added to the argument side-table, and for which track. */
  datatype ArgsEvent =
    | CallbackRun(track: TrackId, callback: CallbackId)
    | ChromeAsyncArgs(track: TrackId, traceId: int, processScoped: bool, sourceScope: StringId)

  /** The whole state of the engine: cache, rows, group slots and argument log. */
  datatype TrackState = TrackState(
    tracks: map<TrackMapKey, TrackId>,
    rows: seq<TrackRow>,
    groups: seq<Option<TrackId>>,
    args: seq<ArgsEvent>)

  /** The state after an entry point, and the id it returned. */
  datatype Outcome = Outcome(state: TrackState, id: TrackId)

  /**
   * Collaborators outside this model: the process-track name translation table and the
   * CPU tracker's mapping from a raw CPU number to its unique CPU id.
   */
  datatype Collaborators = Collaborators(translateName: StringId -> StringId, cpuOf: nat -> nat)
}
