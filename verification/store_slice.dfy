/** The `store` slice: the current store (or none) with loading and error
    flags, and the five reducers that edit the device tree. Each reducer is a
    pure function from the old state to the new one. */
module StoreSlice {
  import opened Wrappers
  import opened ArrayOps
  import opened Devices

  datatype StoreState = StoreState(currentStore: Option<Store>, loading: bool, error: Option<string>)

  /** No store loaded, not loading, no error. */
  const InitialState: StoreState := StoreState(None, false, None)

  /** The two flags no reducer touches. */
  predicate FlagsKept(before: StoreState, after: StoreState)
  {
    after.loading == before.loading && after.error == before.error
  }

  // First-match lookups by id (`findIndex` / `find` with an id test).

  function RegisterIndex(registers: seq<Register>, id: string): (i: int)
    ensures -1 <= i < |registers|
    ensures i == -1 <==> forall k :: 0 <= k < |registers| ==> registers[k].id != id
    ensures 0 <= i ==> registers[i].id == id && forall k :: 0 <= k < i ==> registers[k].id != id
  {
    FindIndex(registers, (r: Register) => r.id == id)
  }

  function TerminalIndex(terminals: seq<PaymentTerminal>, id: string): (i: int)
    ensures -1 <= i < |terminals|
    ensures i == -1 <==> forall k :: 0 <= k < |terminals| ==> terminals[k].id != id
    ensures 0 <= i ==> terminals[i].id == id && forall k :: 0 <= k < i ==> terminals[k].id != id
  {
    FindIndex(terminals, (t: PaymentTerminal) => t.id == id)
  }

  function PrinterIndex(printers: seq<Printer>, id: string): (i: int)
    ensures -1 <= i < |printers|
    ensures i == -1 <==> forall k :: 0 <= k < |printers| ==> printers[k].id != id
    ensures 0 <= i ==> printers[i].id == id && forall k :: 0 <= k < i ==> printers[k].id != id
  {
    FindIndex(printers, (p: Printer) => p.id == id)
  }

  /** JavaScript truthiness of the optional `printerId`: present and non-empty. */
  predicate Truthy(printerId: Option<string>)
  {
    printerId.Some? && printerId.value != ""
  }

  // What each store edit promises, stated as a relation between the store
  // before and the store after.

  /** `after` is `before` with its first register of id `register.id`
      replaced by `register`, or `before` itself when there is none. */
  predicate RegisterReplaced(before: Store, after: Store, register: Register)
  {
    var i := RegisterIndex(before.registers, register.id);
    && after.id == before.id
    && SameExceptAt(before.registers, after.registers, i)
    && (i == -1 ==> after == before)
    && (0 <= i ==> after.registers[i] == register)
  }

  /** `after` is `before` with `terminal` appended to the terminals of its
      first register of id `registerId`, or `before` itself when there is
      none. */
  predicate TerminalAdded(before: Store, after: Store, registerId: string, terminal: PaymentTerminal)
  {
    var i := RegisterIndex(before.registers, registerId);
    && after.id == before.id
    && SameExceptAt(before.registers, after.registers, i)
    && (i == -1 ==> after == before)
    && (0 <= i ==>
          && SameRegisterHeader(before.registers[i], after.registers[i])
          && AppendedWith(before.registers[i].paymentTerminals, after.registers[i].paymentTerminals, terminal))
  }

  /** `after` is `before` with `printer` appended to the printers of the
      first terminal of id `terminalId` in the first register of id
      `registerId`, or `before` itself when either lookup misses. */
  predicate PrinterAdded(before: Store, after: Store, registerId: string, terminalId: string, printer: Printer)
  {
    var i := RegisterIndex(before.registers, registerId);
    && after.id == before.id
    && SameExceptAt(before.registers, after.registers, i)
    && (i == -1 ==> after == before)
    && (0 <= i ==>
          var ts, ts' := before.registers[i].paymentTerminals, after.registers[i].paymentTerminals;
          var j := TerminalIndex(ts, terminalId);
          && SameRegisterHeader(before.registers[i], after.registers[i])
          && SameExceptAt(ts, ts', j)
          && (j == -1 ==> after == before)
          && (0 <= j ==>
                && ts'[j].id == ts[j].id && ts'[j].model == ts[j].model && ts'[j].status == ts[j].status
                && AppendedWith(ts[j].attachedPrinters, ts'[j].attachedPrinters, printer)))
  }

  /** `after` is `before` with one status set to `status`: that of the first
      matching printer when `printerId` is truthy, otherwise that of the
      first matching terminal; `before` itself on any lookup miss. */
  predicate StatusUpdated(before: Store, after: Store, registerId: string, terminalId: string,
                          printerId: Option<string>, status: DeviceStatus)
  {
    var i := RegisterIndex(before.registers, registerId);
    && after.id == before.id
    && SameExceptAt(before.registers, after.registers, i)
    && (i == -1 ==> after == before)
    && (0 <= i ==>
          var ts, ts' := before.registers[i].paymentTerminals, after.registers[i].paymentTerminals;
          var j := TerminalIndex(ts, terminalId);
          && SameRegisterHeader(before.registers[i], after.registers[i])
          && SameExceptAt(ts, ts', j)
          && (j == -1 ==> after == before)
          && (0 <= j ==>
                var ps, ps' := ts[j].attachedPrinters, ts'[j].attachedPrinters;
                && ts'[j].id == ts[j].id && ts'[j].model == ts[j].model
                && if Truthy(printerId) then
                     var k := PrinterIndex(ps, printerId.value);
                     && ts'[j].status == ts[j].status
                     && SameExceptAt(ps, ps', k)
                     && (k == -1 ==> after == before)
                     && (0 <= k ==> ps'[k].id == ps[k].id && ps'[k].model == ps[k].model && ps'[k].status == status)
                   else
                     ts'[j].status == status && ps' == ps))
  }

  // The reducers.

  /** `setStore`: the payload becomes the current store, whatever was there. */
  function SetStore(st: StoreState, store: Store): (r: StoreState)
    ensures r.currentStore == Some(store)
    ensures FlagsKept(st, r)
  {
    st.(currentStore := Some(store))
  }

  /** `updateRegister`: replaces the first register with the payload's id. */
  function UpdateRegister(st: StoreState, register: Register): (r: StoreState)
    ensures FlagsKept(st, r)
    ensures st.currentStore.None? ==> r == st
    ensures st.currentStore.Some? ==>
              r.currentStore.Some? && RegisterReplaced(st.currentStore.value, r.currentStore.value, register)
  {
    match st.currentStore
    case None => st
    case Some(s) =>
      var index := RegisterIndex(s.registers, register.id);
      if index == -1 then st
      else st.(currentStore := Some(s.(registers := s.registers[index := register])))
  }

  /** `addTerminal`: appends a terminal to the first register with the given id. */
  function AddTerminal(st: StoreState, registerId: string, terminal: PaymentTerminal): (r: StoreState)
    ensures FlagsKept(st, r)
    ensures st.currentStore.None? ==> r == st
    ensures st.currentStore.Some? ==>
              r.currentStore.Some? && TerminalAdded(st.currentStore.value, r.currentStore.value, registerId, terminal)
  {
    match st.currentStore
    case None => st
    case Some(s) =>
      var registerIndex := RegisterIndex(s.registers, registerId);
      if registerIndex == -1 then st
      else
        var reg := s.registers[registerIndex];
        var reg' := reg.(paymentTerminals := reg.paymentTerminals + [terminal]);
        st.(currentStore := Some(s.(registers := s.registers[registerIndex := reg'])))
  }

  /** `addPrinter`: appends a printer to the first matching terminal of the
      first matching register. Nothing limits the terminal to one printer. */
  function AddPrinter(st: StoreState, registerId: string, terminalId: string, printer: Printer): (r: StoreState)
    ensures FlagsKept(st, r)
    ensures st.currentStore.None? ==> r == st
    ensures st.currentStore.Some? ==>
              r.currentStore.Some? && PrinterAdded(st.currentStore.value, r.currentStore.value, registerId, terminalId, printer)
  {
    match st.currentStore
    case None => st
    case Some(s) =>
      var i := RegisterIndex(s.registers, registerId);
      if i == -1 then st
      else
        var reg := s.registers[i];
        var j := TerminalIndex(reg.paymentTerminals, terminalId);
        if j == -1 then st
        else
          var term := reg.paymentTerminals[j];
          var term' := term.(attachedPrinters := term.attachedPrinters + [printer]);
          var reg' := reg.(paymentTerminals := reg.paymentTerminals[j := term']);
          st.(currentStore := Some(s.(registers := s.registers[i := reg'])))
  }

  /** `updateDeviceStatus`: sets a printer's status when `printerId` is
      truthy, otherwise the terminal's. Only a status changes. */
  function UpdateDeviceStatus(st: StoreState, registerId: string, terminalId: string,
                              printerId: Option<string>, status: DeviceStatus): (r: StoreState)
    ensures FlagsKept(st, r)
    ensures st.currentStore.None? ==> r == st
    ensures st.currentStore.Some? ==>
              && r.currentStore.Some?
              && StatusUpdated(st.currentStore.value, r.currentStore.value, registerId, terminalId, printerId, status)
  {
    match st.currentStore
    case None => st
    case Some(s) =>
      var i := RegisterIndex(s.registers, registerId);
      if i == -1 then st
      else
        var reg := s.registers[i];
        var j := TerminalIndex(reg.paymentTerminals, terminalId);
        if j == -1 then st
        else
          var term := reg.paymentTerminals[j];
          if Truthy(printerId) then
            var k := PrinterIndex(term.attachedPrinters, printerId.value);
            if k == -1 then st
            else
              st.(currentStore := Some(SetPrinterStatusAt(s, i, j, k, status)))
          else
            var term' := term.(status := status);
            var reg' := reg.(paymentTerminals := reg.paymentTerminals[j := term']);
            st.(currentStore := Some(s.(registers := s.registers[i := reg'])))
  }

  /** The store with the status of printer `k` of terminal `j` of register
      `i` set to `status`: the printer edit of `updateDeviceStatus`. */
  function SetPrinterStatusAt(s: Store, i: int, j: int, k: int, status: DeviceStatus): Store
    requires 0 <= i < |s.registers|
    requires 0 <= j < |s.registers[i].paymentTerminals|
    requires 0 <= k < |s.registers[i].paymentTerminals[j].attachedPrinters|
  {
    var reg := s.registers[i];
    var term := reg.paymentTerminals[j];
    var term' := term.(attachedPrinters := term.attachedPrinters[k := term.attachedPrinters[k].(status := status)]);
    s.(registers := s.registers[i := reg.(paymentTerminals := reg.paymentTerminals[j := term'])])
  }

  /** The actions the slice accepts, one per reducer. */
  datatype Action =
    | SetStoreAction(store: Store)
    | UpdateRegisterAction(register: Register)
    | AddTerminalAction(registerId: string, terminal: PaymentTerminal)
    | AddPrinterAction(registerId: string, terminalId: string, printer: Printer)
    | UpdateDeviceStatusAction(registerId: string, terminalId: string, printerId: Option<string>, status: DeviceStatus)

  /** The slice reducer: dispatches an action to its case reducer. Only
      `setStore` can change the store's id or its number of registers, or
      bring a store where there was none. */
  function Reduce(st: StoreState, action: Action): (r: StoreState)
    ensures FlagsKept(st, r)
    ensures action.SetStoreAction? ==> r.currentStore == Some(action.store)
    ensures !action.SetStoreAction? ==> (r.currentStore.Some? <==> st.currentStore.Some?)
    ensures !action.SetStoreAction? && st.currentStore.Some? ==>
              && r.currentStore.value.id == st.currentStore.value.id
              && |r.currentStore.value.registers| == |st.currentStore.value.registers|
  {
    match action
    case SetStoreAction(store) => SetStore(st, store)
    case UpdateRegisterAction(register) => UpdateRegister(st, register)
    case AddTerminalAction(registerId, terminal) => AddTerminal(st, registerId, terminal)
    case AddPrinterAction(registerId, terminalId, printer) => AddPrinter(st, registerId, terminalId, printer)
    case UpdateDeviceStatusAction(registerId, terminalId, printerId, status) =>
      UpdateDeviceStatus(st, registerId, terminalId, printerId, status)
  }

  /** Dispatches the actions in order. */
  function ReduceAll(st: StoreState, actions: seq<Action>): StoreState
    decreases |actions|
  {
    if |actions| == 0 then st else ReduceAll(Reduce(st, actions[0]), actions[1..])
  }

}
