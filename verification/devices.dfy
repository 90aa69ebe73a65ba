/** The store → register → payment terminal → printer tree: one datatype per
    record type, with the two status vocabularies as enumerations. */
module Devices {
  import opened Wrappers
  import opened ArrayOps

  /** Status of a printer or a payment terminal. */
  datatype DeviceStatus = Connected | Disconnected

  /** Status of a register. */
  datatype RegisterStatus = Online | Offline | Maintenance

  datatype Printer = Printer(id: string, model: string, status: DeviceStatus)

  /** `attachedPrinters` is meant to hold at most one printer; nothing in the
      type enforces it (see `AtMostOnePrinter`). */
  datatype PaymentTerminal = PaymentTerminal(
    id: string,
    model: string,
    status: DeviceStatus,
    attachedPrinters: seq<Printer>)

  datatype Register = Register(
    id: string,
    name: string,
    status: RegisterStatus,
    lastActive: string,
    paymentTerminals: seq<PaymentTerminal>)

  datatype Store = Store(id: string, registers: seq<Register>)

  /** The string literal the source uses for each device status. */
  function DeviceStatusName(s: DeviceStatus): string
  {
    match s
    case Connected => "connected"
    case Disconnected => "disconnected"
  }

  /** Reads a device status literal; any other string is not a status. */
  function ParseDeviceStatus(s: string): (r: Option<DeviceStatus>)
    ensures r.Some? <==> s == "connected" || s == "disconnected"
    ensures r.Some? ==> DeviceStatusName(r.value) == s
  {
    if s == "connected" then Some(Connected)
    else if s == "disconnected" then Some(Disconnected)
    else None
  }

  /** The string literal the source uses for each register status. */
  function RegisterStatusName(s: RegisterStatus): string
  {
    match s
    case Online => "online"
    case Offline => "offline"
    case Maintenance => "maintenance"
  }

  /** Reads a register status literal; any other string is not a status. */
  function ParseRegisterStatus(s: string): (r: Option<RegisterStatus>)
    ensures r.Some? <==> s == "online" || s == "offline" || s == "maintenance"
    ensures r.Some? ==> RegisterStatusName(r.value) == s
  {
    if s == "online" then Some(Online)
    else if s == "offline" then Some(Offline)
    else if s == "maintenance" then Some(Maintenance)
    else None
  }

  /** Every device status has exactly one literal and reads back as itself. */
  lemma DeviceStatusRoundTrip(d: DeviceStatus)
    ensures ParseDeviceStatus(DeviceStatusName(d)) == Some(d)
    ensures forall e: DeviceStatus :: DeviceStatusName(e) == DeviceStatusName(d) ==> e == d
  {
  }

  /** Every register status has exactly one literal and reads back as itself. */
  lemma RegisterStatusRoundTrip(r: RegisterStatus)
    ensures ParseRegisterStatus(RegisterStatusName(r)) == Some(r)
    ensures forall e: RegisterStatus :: RegisterStatusName(e) == RegisterStatusName(r) ==> e == r
  {
  }

  // Projections, named so that they can be passed to the array operations.

  function RegisterId(r: Register): string { r.id }
  function TerminalId(t: PaymentTerminal): string { t.id }
  function PrinterId(p: Printer): string { p.id }
  function TerminalsOf(r: Register): seq<PaymentTerminal> { r.paymentTerminals }
  function PrintersOf(t: PaymentTerminal): seq<Printer> { t.attachedPrinters }

  /** Every terminal of the store, register by register. */
  function AllTerminals(s: Store): seq<PaymentTerminal>
  {
    FlatMap(s.registers, TerminalsOf)
  }

  /** Every printer of the store, terminal by terminal. */
  function AllPrinters(s: Store): seq<Printer>
  {
    FlatMap(AllTerminals(s), PrintersOf)
  }

  /** "At most one printer" per terminal, as the comment on
      `attachedPrinters` (src/data/mockStores.ts:11) says; the type leaves it
      unenforced. */
  predicate AtMostOnePrinter(s: Store)
  {
    forall i, j :: 0 <= i < |s.registers| && 0 <= j < |s.registers[i].paymentTerminals| ==>
      |s.registers[i].paymentTerminals[j].attachedPrinters| <= 1
  }

  /** Identifiers are unique within each parent's sequence. */
  predicate UniqueWithinParents(s: Store)
  {
    && DistinctBy(s.registers, RegisterId)
    && (forall i :: 0 <= i < |s.registers| ==> DistinctBy(s.registers[i].paymentTerminals, TerminalId))
    && (forall i, j :: 0 <= i < |s.registers| && 0 <= j < |s.registers[i].paymentTerminals| ==>
          DistinctBy(s.registers[i].paymentTerminals[j].attachedPrinters, PrinterId))
  }

  // "Same shape": the same identifiers, models, names and sequence lengths
  // throughout; only device statuses may differ.

  predicate SamePrinterShape(a: Printer, b: Printer)
  {
    a.id == b.id && a.model == b.model
  }

  predicate SameTerminalShape(a: PaymentTerminal, b: PaymentTerminal)
  {
    && a.id == b.id
    && a.model == b.model
    && |a.attachedPrinters| == |b.attachedPrinters|
    && forall k :: 0 <= k < |a.attachedPrinters| ==>
         SamePrinterShape(a.attachedPrinters[k], b.attachedPrinters[k])
  }

  /** The fields of a register other than its terminals are equal. */
  predicate SameRegisterHeader(a: Register, b: Register)
  {
    a.id == b.id && a.name == b.name && a.status == b.status && a.lastActive == b.lastActive
  }

  predicate SameRegisterShape(a: Register, b: Register)
  {
    && SameRegisterHeader(a, b)
    && |a.paymentTerminals| == |b.paymentTerminals|
    && forall k :: 0 <= k < |a.paymentTerminals| ==>
         SameTerminalShape(a.paymentTerminals[k], b.paymentTerminals[k])
  }

  predicate SameStoreShape(a: Store, b: Store)
  {
    && a.id == b.id
    && |a.registers| == |b.registers|
    && forall k :: 0 <= k < |a.registers| ==> SameRegisterShape(a.registers[k], b.registers[k])
  }

}
