/**
 * The name policy of the track interning engine and the labels of the umbrella groups.
 *
 * A caller names a track with one of four descriptors; two of them are legacy forms that
 * are only permitted for fixed lists of classifications. In debug builds a forbidden
 * pairing is a fatal check; here it is the precondition `NameAllowed`.
 */
module TrackNames {
  import opened Wrappers
  import opened TrackTypes

  /**
   * Classifications that may still carry a `LegacyStringIdName`: the two energy
   * breakdowns and `Unknown`. No classification is on both legacy lists, and the
   * thread, CPU idle-state, GPU frequency and unlisted classifications are on neither.
   */
  predicate IsLegacyStringIdNameAllowed(c: TrackClassification): (allowed: bool)
    ensures allowed ==> !IsLegacyCharArrayNameAllowed(c)
    ensures c in {Thread, CpuIdleState, GpuFrequency} || c.OtherClassification? ==> !allowed
  {
    c == AndroidEnergyEstimationBreakdown || c == AndroidEnergyEstimationBreakdownPerUid ||
    c == Unknown
  }

  /**
   * Classifications that may still carry a `LegacyCharArrayName`. `Unknown`, the thread,
   * CPU idle-state, GPU frequency and unlisted classifications are not among them.
   */
  predicate IsLegacyCharArrayNameAllowed(c: TrackClassification): (allowed: bool)
    ensures c in {Unknown, Thread, CpuIdleState, GpuFrequency} || c.OtherClassification? ==> !allowed
  {
    c in {Trigger, Interconnect, LinuxRuntimePowerManagement, IrqCpu, SoftirqCpu, NapiGroCpu,
          FuncgraphCpu, MaliIrqCpu, PkvmHypervisor, CpuFrequency, CpuFrequencyThrottle, CpuIdle,
          UserTime, SystemModeTime, CpuIdleTime, IoWaitTime, IrqTime, SoftIrqTime, IrqCounter,
          SoftirqCounter, CpuUtilization, CpuCapacity, CpuNumberRunning, CpuMaxFrequencyLimit,
          CpuMinFrequencyLimit}
  }

  /** The debug checks of `StringIdFromTrackName`: may `name` be used with `c`? */
  predicate NameAllowed(c: TrackClassification, name: TrackName)
  {
    match name
    case AutoName => true
    case LegacyStringIdName(_) => IsLegacyStringIdNameAllowed(c)
    case LegacyCharArrayName(_) => IsLegacyCharArrayNameAllowed(c)
    case FromTraceName(_) => true
  }

  /**
   * The string id a track row stores for a name descriptor: an automatic name is the
   * null id, a string-id name (legacy or from the trace) is kept as it is, and a
   * character-array name is interned, so reading it back from the pool gives the
   * characters again. The result is null only for an automatic name or a null id.
   */
  function StringIdFromTrackName(c: TrackClassification, name: TrackName): (id: StringId)
    requires NameAllowed(c, name)
    ensures name.AutoName? ==> id == NullStringId
    ensures name.FromTraceName? || name.LegacyStringIdName? ==> id == name.id
    ensures name.LegacyCharArrayName? ==> id.Interned? && GetString(id) == name.chars
    ensures id == NullStringId <==>
              name.AutoName? || ((name.FromTraceName? || name.LegacyStringIdName?) && name.id == NullStringId)
  {
    match name
    case AutoName => NullStringId
    case LegacyStringIdName(id) => id
    case LegacyCharArrayName(chars) => InternString(chars)
    case FromTraceName(id) => id
  }

  /**
   * The allow-lists as the name policy applies them: automatic and trace-provided names
   * are accepted for every classification, a legacy string-id name exactly for the two
   * energy breakdowns and `Unknown`, and a legacy character-array name never together
   * with a legacy string-id name.
   */
  lemma AllowLists(c: TrackClassification, id: StringId, chars: string)
    ensures NameAllowed(c, AutoName) && NameAllowed(c, FromTraceName(id))
    ensures NameAllowed(c, LegacyStringIdName(id)) <==>
              c in {AndroidEnergyEstimationBreakdown, AndroidEnergyEstimationBreakdownPerUid, Unknown}
    ensures !(NameAllowed(c, LegacyStringIdName(id)) && NameAllowed(c, LegacyCharArrayName(chars)))
  {
  }

  /** Position of a group in the slot array. */
  function GroupIndex(g: Group): (i: nat)
    requires g != SizeSentinel
    ensures i < GroupCount
  {
    match g
    case Memory => 0
    case Io => 1
    case Virtio => 2
    case Network => 3
    case Power => 4
    case DeviceState => 5
    case Thermals => 6
    case ClockFrequency => 7
    case BatteryMitigation => 8
  }

  /**
   * The label of a group's umbrella track (the clock frequency label keeps its spelling
   * "Freqeuncy"). The sentinel is fatal and is excluded by the precondition. Every label
   * reads back as its group through `GroupOfName`.
   */
  function GetNameForGroup(g: Group): (text: string)
    requires g != SizeSentinel
    ensures GroupOfName(text) == Some(g)
  {
    match g
    case Memory => "Memory"
    case Io => "IO"
    case Virtio => "Virtio"
    case Network => "Network"
    case Power => "Power"
    case DeviceState => "Device State"
    case Thermals => "Thermals"
    case ClockFrequency => "Clock Freqeuncy"
    case BatteryMitigation => "Battery Mitigation"
  }

  /** Inverse of `GetNameForGroup`. */
  function GroupOfName(s: string): Option<Group>
  {
    match s
    case "Memory" => Some(Memory)
    case "IO" => Some(Io)
    case "Virtio" => Some(Virtio)
    case "Network" => Some(Network)
    case "Power" => Some(Power)
    case "Device State" => Some(DeviceState)
    case "Thermals" => Some(Thermals)
    case "Clock Freqeuncy" => Some(ClockFrequency)
    case "Battery Mitigation" => Some(BatteryMitigation)
    case _ => None
  }

  /** Distinct groups have distinct labels and distinct slots. */
  lemma GroupsDistinct(g: Group, h: Group)
    requires g != SizeSentinel && h != SizeSentinel
    ensures GetNameForGroup(g) == GetNameForGroup(h) ==> g == h
    ensures GroupIndex(g) == GroupIndex(h) ==> g == h
  {
  }
}
