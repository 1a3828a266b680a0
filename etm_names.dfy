/**
 * Display names of the OpenCSD (CoreSight trace decoder) enumerations used by the
 * ETM importer.
 *
 * Each enumeration is a datatype with one constructor per enumerator named in the
 * importer's switch, plus an `...OutOfRange(raw)` constructor standing for any other
 * value the underlying C enum can hold; the numeric values of the enumerators are
 * defined by the OpenCSD library and are not part of this model.
 *
 * Four overloads have no fallback: an out-of-range value fails a fatal check, which is
 * modelled as `None`. The core-profile and architecture-version overloads fall back to
 * "UNKNOWN". Each name table has an inverse (`...FromName`) that serves as its partner:
 * the round trip through it proves that the in-range enumerators have pairwise distinct
 * names.
 */
module EtmNames {
  import opened Wrappers

  // ---------------------------------------------------------------------------
  // ocsd_gen_trc_elem_t

  datatype TraceElemType =
    | ElemUnknown | ElemNoSync | ElemTraceOn | ElemEoTrace | ElemPeContext
    | ElemInstrRange | ElemIRangeNopath | ElemAddrNacc | ElemAddrUnknown
    | ElemException | ElemExceptionRet | ElemTimestamp | ElemCycleCount
    | ElemEvent | ElemSwtrace | ElemSyncMarker | ElemMemtrans
    | ElemInstrumentation | ElemCustom
    | ElemOutOfRange(raw: int)

  /** Name of a generic trace element type; `None` is the fatal check for a value outside the switch. */
  function TraceElemTypeName(t: TraceElemType): (r: Option<string>)
    ensures r.Some? <==> !t.ElemOutOfRange?
    ensures r.Some? ==> TraceElemTypeFromName(r.value) == Some(t)
  {
    match t
    case ElemUnknown => Some("UNKNOWN")
    case ElemNoSync => Some("NO_SYNC")
    case ElemTraceOn => Some("TRACE_ON")
    case ElemEoTrace => Some("EO_TRACE")
    case ElemPeContext => Some("PE_CONTEXT")
    case ElemInstrRange => Some("INSTR_RANGE")
    case ElemIRangeNopath => Some("I_RANGE_NOPATH")
    case ElemAddrNacc => Some("ADDR_NACC")
    case ElemAddrUnknown => Some("ADDR_UNKNOWN")
    case ElemException => Some("EXCEPTION")
    case ElemExceptionRet => Some("EXCEPTION_RET")
    case ElemTimestamp => Some("TIMESTAMP")
    case ElemCycleCount => Some("CYCLE_COUNT")
    case ElemEvent => Some("EVENT")
    case ElemSwtrace => Some("SWTRACE")
    case ElemSyncMarker => Some("SYNC_MARKER")
    case ElemMemtrans => Some("MEMTRANS")
    case ElemInstrumentation => Some("INSTRUMENTATION")
    case ElemCustom => Some("CUSTOM")
    case ElemOutOfRange(_) => None
  }

  /** Inverse of `TraceElemTypeName` on the names it produces. */
  function TraceElemTypeFromName(s: string): (r: Option<TraceElemType>)
    ensures r.Some? ==> !r.value.ElemOutOfRange?
  {
    match s
    case "UNKNOWN" => Some(ElemUnknown)
    case "NO_SYNC" => Some(ElemNoSync)
    case "TRACE_ON" => Some(ElemTraceOn)
    case "EO_TRACE" => Some(ElemEoTrace)
    case "PE_CONTEXT" => Some(ElemPeContext)
    case "INSTR_RANGE" => Some(ElemInstrRange)
    case "I_RANGE_NOPATH" => Some(ElemIRangeNopath)
    case "ADDR_NACC" => Some(ElemAddrNacc)
    case "ADDR_UNKNOWN" => Some(ElemAddrUnknown)
    case "EXCEPTION" => Some(ElemException)
    case "EXCEPTION_RET" => Some(ElemExceptionRet)
    case "TIMESTAMP" => Some(ElemTimestamp)
    case "CYCLE_COUNT" => Some(ElemCycleCount)
    case "EVENT" => Some(ElemEvent)
    case "SWTRACE" => Some(ElemSwtrace)
    case "SYNC_MARKER" => Some(ElemSyncMarker)
    case "MEMTRANS" => Some(ElemMemtrans)
    case "INSTRUMENTATION" => Some(ElemInstrumentation)
    case "CUSTOM" => Some(ElemCustom)
    case _ => None
  }

  /** The element-type table is injective on the 19 enumerators. */
  lemma TraceElemTypeNamesDistinct(a: TraceElemType, b: TraceElemType)
    requires !a.ElemOutOfRange? && !b.ElemOutOfRange?
    ensures TraceElemTypeName(a) == TraceElemTypeName(b) ==> a == b
  {
  }

  // ---------------------------------------------------------------------------
  // ocsd_isa

  datatype Isa =
    | IsaArm | IsaThumb2 | IsaAarch64 | IsaTee | IsaJazelle | IsaCustom | IsaUnknown
    | IsaOutOfRange(raw: int)

  /** Name of an instruction set; `None` is the fatal check for a value outside the switch. */
  function IsaName(isa: Isa): (r: Option<string>)
    ensures r.Some? <==> !isa.IsaOutOfRange?
    ensures r.Some? ==> IsaFromName(r.value) == Some(isa)
  {
    match isa
    case IsaArm => Some("ARM")
    case IsaThumb2 => Some("THUMB2")
    case IsaAarch64 => Some("AARCH64")
    case IsaTee => Some("TEE")
    case IsaJazelle => Some("JAZELLE")
    case IsaCustom => Some("CUSTOM")
    case IsaUnknown => Some("UNKNOWN")
    case IsaOutOfRange(_) => None
  }

  /** Inverse of `IsaName` on the names it produces. */
  function IsaFromName(s: string): (r: Option<Isa>)
    ensures r.Some? ==> !r.value.IsaOutOfRange?
  {
    match s
    case "ARM" => Some(IsaArm)
    case "THUMB2" => Some(IsaThumb2)
    case "AARCH64" => Some(IsaAarch64)
    case "TEE" => Some(IsaTee)
    case "JAZELLE" => Some(IsaJazelle)
    case "CUSTOM" => Some(IsaCustom)
    case "UNKNOWN" => Some(IsaUnknown)
    case _ => None
  }

  // ---------------------------------------------------------------------------
  // ocsd_instr_type

  datatype InstrType =
    | InstrOther | InstrBr | InstrBrIndirect | InstrIsb | InstrDsbDmb | InstrWfiWfe | InstrTstart
    | InstrOutOfRange(raw: int)

  /** Name of an instruction type; `None` is the fatal check for a value outside the switch. */
  function InstrTypeName(t: InstrType): (r: Option<string>)
    ensures r.Some? <==> !t.InstrOutOfRange?
    ensures r.Some? ==> InstrTypeFromName(r.value) == Some(t)
  {
    match t
    case InstrOther => Some("OTHER")
    case InstrBr => Some("BR")
    case InstrBrIndirect => Some("BR_INDIRECT")
    case InstrIsb => Some("ISB")
    case InstrDsbDmb => Some("DSB_DMB")
    case InstrWfiWfe => Some("WFI_WFE")
    case InstrTstart => Some("TSTART")
    case InstrOutOfRange(_) => None
  }

  /** Inverse of `InstrTypeName` on the names it produces. */
  function InstrTypeFromName(s: string): (r: Option<InstrType>)
    ensures r.Some? ==> !r.value.InstrOutOfRange?
  {
    match s
    case "OTHER" => Some(InstrOther)
    case "BR" => Some(InstrBr)
    case "BR_INDIRECT" => Some(InstrBrIndirect)
    case "ISB" => Some(InstrIsb)
    case "DSB_DMB" => Some(InstrDsbDmb)
    case "WFI_WFE" => Some(InstrWfiWfe)
    case "TSTART" => Some(InstrTstart)
    case _ => None
  }

  // ---------------------------------------------------------------------------
  // ocsd_instr_subtype

  datatype InstrSubtype =
    | SubtypeNone | SubtypeBrLink | SubtypeV8Ret | SubtypeV8Eret | SubtypeV7ImpliedRet
    | SubtypeOutOfRange(raw: int)

  /** Name of an instruction subtype; `None` is the fatal check for a value outside the switch. */
  function InstrSubtypeName(t: InstrSubtype): (r: Option<string>)
    ensures r.Some? <==> !t.SubtypeOutOfRange?
    ensures r.Some? ==> InstrSubtypeFromName(r.value) == Some(t)
  {
    match t
    case SubtypeNone => Some("NONE")
    case SubtypeBrLink => Some("BR_LINK")
    case SubtypeV8Ret => Some("V8_RET")
    case SubtypeV8Eret => Some("V8_ERET")
    case SubtypeV7ImpliedRet => Some("V7_IMPLIED_RET")
    case SubtypeOutOfRange(_) => None
  }

  /** Inverse of `InstrSubtypeName` on the names it produces. */
  function InstrSubtypeFromName(s: string): (r: Option<InstrSubtype>)
    ensures r.Some? ==> !r.value.SubtypeOutOfRange?
  {
    match s
    case "NONE" => Some(SubtypeNone)
    case "BR_LINK" => Some(SubtypeBrLink)
    case "V8_RET" => Some(SubtypeV8Ret)
    case "V8_ERET" => Some(SubtypeV8Eret)
    case "V7_IMPLIED_RET" => Some(SubtypeV7ImpliedRet)
    case _ => None
  }

  // ---------------------------------------------------------------------------
  // ocsd_core_profile_t

  datatype CoreProfile =
    | ProfileUnknown | ProfileCortexM | ProfileCortexR | ProfileCortexA | ProfileCustom
    | ProfileOutOfRange(raw: int)

  /**
   * Name of a core profile. Total: a value outside the switch falls back to "UNKNOWN",
   * so it reads back as `ProfileUnknown`.
   */
  function CoreProfileName(p: CoreProfile): (r: string)
    ensures CoreProfileFromName(r) == Some(if p.ProfileOutOfRange? then ProfileUnknown else p)
  {
    match p
    case ProfileUnknown => "UNKNOWN"
    case ProfileCortexM => "CORTEX_M"
    case ProfileCortexR => "CORTEX_R"
    case ProfileCortexA => "CORTEX_A"
    case ProfileCustom => "CUSTOM"
    case ProfileOutOfRange(_) => "UNKNOWN"
  }

  /** Inverse of `CoreProfileName` on the names it produces. */
  function CoreProfileFromName(s: string): (r: Option<CoreProfile>)
    ensures r.Some? ==> !r.value.ProfileOutOfRange?
  {
    match s
    case "UNKNOWN" => Some(ProfileUnknown)
    case "CORTEX_M" => Some(ProfileCortexM)
    case "CORTEX_R" => Some(ProfileCortexR)
    case "CORTEX_A" => Some(ProfileCortexA)
    case "CUSTOM" => Some(ProfileCustom)
    case _ => None
  }

  // ---------------------------------------------------------------------------
  // ocsd_arch_version_t

  datatype ArchVersion =
    | ArchUnknown | ArchCustom | ArchV7 | ArchV8 | ArchV8r3 | ArchAa64
    | ArchOutOfRange(raw: int)

  /**
   * Name of an architecture version. Total: a value outside the switch falls back to
   * "UNKNOWN", so it reads back as `ArchUnknown`.
   */
  function ArchVersionName(v: ArchVersion): (r: string)
    ensures ArchVersionFromName(r) == Some(if v.ArchOutOfRange? then ArchUnknown else v)
  {
    match v
    case ArchUnknown => "UNKNOWN"
    case ArchCustom => "CUSTOM"
    case ArchV7 => "V7"
    case ArchV8 => "V8"
    case ArchV8r3 => "V8_R3"
    case ArchAa64 => "AA64"
    case ArchOutOfRange(_) => "UNKNOWN"
  }

  /** Inverse of `ArchVersionName` on the names it produces. */
  function ArchVersionFromName(s: string): (r: Option<ArchVersion>)
    ensures r.Some? ==> !r.value.ArchOutOfRange?
  {
    match s
    case "UNKNOWN" => Some(ArchUnknown)
    case "CUSTOM" => Some(ArchCustom)
    case "V7" => Some(ArchV7)
    case "V8" => Some(ArchV8)
    case "V8_R3" => Some(ArchV8r3)
    case "AA64" => Some(ArchAa64)
    case _ => None
  }

  /**
   * The name tables are injective on their enumerators, and the two total tables
   * send every out-of-range value to the name of their "unknown" enumerator.
   */
  lemma NameTablesInjective(i1: Isa, i2: Isa, t1: InstrType, t2: InstrType,
                            s1: InstrSubtype, s2: InstrSubtype,
                            p1: CoreProfile, p2: CoreProfile, v1: ArchVersion, v2: ArchVersion)
    requires !i1.IsaOutOfRange? && !i2.IsaOutOfRange?
    requires !t1.InstrOutOfRange? && !t2.InstrOutOfRange?
    requires !s1.SubtypeOutOfRange? && !s2.SubtypeOutOfRange?
    requires !p1.ProfileOutOfRange? && !p2.ProfileOutOfRange?
    requires !v1.ArchOutOfRange? && !v2.ArchOutOfRange?
    ensures IsaName(i1) == IsaName(i2) ==> i1 == i2
    ensures InstrTypeName(t1) == InstrTypeName(t2) ==> t1 == t2
    ensures InstrSubtypeName(s1) == InstrSubtypeName(s2) ==> s1 == s2
    ensures CoreProfileName(p1) == CoreProfileName(p2) ==> p1 == p2
    ensures ArchVersionName(v1) == ArchVersionName(v2) ==> v1 == v2
  {
  }

  /** Out-of-range fallbacks of the two total tables. */
  lemma FallbackNames(raw: int)
    ensures CoreProfileName(ProfileOutOfRange(raw)) == CoreProfileName(ProfileUnknown) == "UNKNOWN"
    ensures ArchVersionName(ArchOutOfRange(raw)) == ArchVersionName(ArchUnknown) == "UNKNOWN"
  {
  }
}
