/** Properties of the store slice that relate several calls: reading back
    what a reducer wrote, sequences of actions, and the unenforced
    one-printer limit. */
module StoreSliceProperties {
  import opened Wrappers
  import opened Devices
  import opened StoreSlice
  import Fixture

  // The read side: `find` by id, as the reducers use it to reach a device.

  function FindRegister(s: Store, registerId: string): (r: Option<Register>)
    ensures r.None? <==> forall k :: 0 <= k < |s.registers| ==> s.registers[k].id != registerId
    ensures r.Some? ==> r.value.id == registerId && r.value in s.registers
    ensures r.Some? ==> r.value == s.registers[RegisterIndex(s.registers, registerId)]
  {
    var i := RegisterIndex(s.registers, registerId);
    if i == -1 then None else Some(s.registers[i])
  }

  function FindTerminal(s: Store, registerId: string, terminalId: string): (r: Option<PaymentTerminal>)
    ensures r.Some? ==> FindRegister(s, registerId).Some? && r.value.id == terminalId && r.value in FindRegister(s, registerId).value.paymentTerminals
    ensures FindRegister(s, registerId).None? ==> r.None?
    ensures FindRegister(s, registerId).Some? ==>
              var ts := FindRegister(s, registerId).value.paymentTerminals;
              && (r.None? <==> forall t :: t in ts ==> t.id != terminalId)
              && (r.Some? ==> r.value == ts[TerminalIndex(ts, terminalId)])
  {
    match FindRegister(s, registerId)
    case None => None
    case Some(reg) =>
      var j := TerminalIndex(reg.paymentTerminals, terminalId);
      if j == -1 then None else Some(reg.paymentTerminals[j])
  }

  function FindPrinter(s: Store, registerId: string, terminalId: string, printerId: string): (r: Option<Printer>)
    ensures r.Some? ==> FindTerminal(s, registerId, terminalId).Some? && r.value.id == printerId && r.value in FindTerminal(s, registerId, terminalId).value.attachedPrinters
    ensures FindTerminal(s, registerId, terminalId).None? ==> r.None?
    ensures FindTerminal(s, registerId, terminalId).Some? ==>
              var ps := FindTerminal(s, registerId, terminalId).value.attachedPrinters;
              && (r.None? <==> forall p :: p in ps ==> p.id != printerId)
              && (r.Some? ==> r.value == ps[PrinterIndex(ps, printerId)])
  {
    match FindTerminal(s, registerId, terminalId)
    case None => None
    case Some(term) =>
      var k := PrinterIndex(term.attachedPrinters, printerId);
      if k == -1 then None else Some(term.attachedPrinters[k])
  }

  /** If `after` keeps, at every position up to the first match `i` in
      `before`, the same ids, then the first match in `after` is `i` too. */
  lemma FirstRegisterKept(before: seq<Register>, after: seq<Register>, id: string)
    requires RegisterIndex(before, id) >= 0
    requires |after| == |before|
    requires forall k :: 0 <= k <= RegisterIndex(before, id) ==> after[k].id == before[k].id
    ensures RegisterIndex(after, id) == RegisterIndex(before, id)
  {
    var i := RegisterIndex(before, id);
    assert after[i].id == id;
  }

  lemma FirstTerminalKept(before: seq<PaymentTerminal>, after: seq<PaymentTerminal>, id: string)
    requires TerminalIndex(before, id) >= 0
    requires |after| == |before|
    requires forall k :: 0 <= k <= TerminalIndex(before, id) ==> after[k].id == before[k].id
    ensures TerminalIndex(after, id) == TerminalIndex(before, id)
  {
    var i := TerminalIndex(before, id);
    assert after[i].id == id;
  }

  lemma FirstPrinterKept(before: seq<Printer>, after: seq<Printer>, id: string)
    requires PrinterIndex(before, id) >= 0
    requires |after| == |before|
    requires forall k :: 0 <= k <= PrinterIndex(before, id) ==> after[k].id == before[k].id
    ensures PrinterIndex(after, id) == PrinterIndex(before, id)
  {
    var i := PrinterIndex(before, id);
    assert after[i].id == id;
  }

  /** After `updateRegister`, looking the register up by its id finds the
      payload, provided a register with that id was there. */
  lemma UpdateRegisterThenFind(st: StoreState, register: Register)
    requires st.currentStore.Some? && FindRegister(st.currentStore.value, register.id).Some?
    ensures var r := UpdateRegister(st, register).currentStore.value;
            FindRegister(r, register.id) == Some(register)
  {
  }

  /** After `addTerminal`, the register found by id is the old one with the
      terminal appended; if no terminal of that register had the new
      terminal's id, looking that id up finds the new terminal. */
  lemma AddTerminalThenFind(st: StoreState, registerId: string, terminal: PaymentTerminal)
    requires st.currentStore.Some? && FindRegister(st.currentStore.value, registerId).Some?
    ensures var reg := FindRegister(st.currentStore.value, registerId).value;
            var r := AddTerminal(st, registerId, terminal).currentStore.value;
            && FindRegister(r, registerId) == Some(reg.(paymentTerminals := reg.paymentTerminals + [terminal]))
            && ((forall t :: t in reg.paymentTerminals ==> t.id != terminal.id) ==>
                  FindTerminal(r, registerId, terminal.id) == Some(terminal))
  {
  }

  /** After `addPrinter`, the terminal found by the two ids is the old one
      with the printer appended. */
  lemma AddPrinterThenFind(st: StoreState, registerId: string, terminalId: string, printer: Printer)
    requires st.currentStore.Some? && FindTerminal(st.currentStore.value, registerId, terminalId).Some?
    ensures var term := FindTerminal(st.currentStore.value, registerId, terminalId).value;
            var r := AddPrinter(st, registerId, terminalId, printer).currentStore.value;
            FindTerminal(r, registerId, terminalId) == Some(term.(attachedPrinters := term.attachedPrinters + [printer]))
  {
  }

  /** With no truthy printer id, `updateDeviceStatus` sets the status of the
      terminal found by the two ids and nothing else about it. */
  lemma SetTerminalStatusThenFind(st: StoreState, registerId: string, terminalId: string,
                                  printerId: Option<string>, status: DeviceStatus)
    requires !Truthy(printerId)
    requires st.currentStore.Some? && FindTerminal(st.currentStore.value, registerId, terminalId).Some?
    ensures var term := FindTerminal(st.currentStore.value, registerId, terminalId).value;
            var r := UpdateDeviceStatus(st, registerId, terminalId, printerId, status).currentStore.value;
            FindTerminal(r, registerId, terminalId) == Some(term.(status := status))
  {
  }

  /** With a truthy printer id, `updateDeviceStatus` sets the status of the
      printer found by the three ids, and the terminal keeps its own status. */
  lemma SetPrinterStatusThenFind(st: StoreState, registerId: string, terminalId: string,
                                 printerId: string, status: DeviceStatus)
    requires printerId != ""
    requires st.currentStore.Some? && FindPrinter(st.currentStore.value, registerId, terminalId, printerId).Some?
    ensures var s := st.currentStore.value;
            var p := FindPrinter(s, registerId, terminalId, printerId).value;
            var r := UpdateDeviceStatus(st, registerId, terminalId, Some(printerId), status).currentStore.value;
            && FindPrinter(r, registerId, terminalId, printerId) == Some(p.(status := status))
            && FindTerminal(r, registerId, terminalId).value.status == FindTerminal(s, registerId, terminalId).value.status
  {
    var s := st.currentStore.value;
    var i := RegisterIndex(s.registers, registerId);
    var j := TerminalIndex(s.registers[i].paymentTerminals, terminalId);
    var k := PrinterIndex(s.registers[i].paymentTerminals[j].attachedPrinters, printerId);
    assert UpdateDeviceStatus(st, registerId, terminalId, Some(printerId), status).currentStore
      == Some(SetPrinterStatusAt(s, i, j, k, status));
    PrinterStatusSetThenFind(s, registerId, terminalId, printerId, status);
  }

  /** Setting the status of the printer found by the three ids makes the
      same lookup find it with the new status; its terminal keeps its own. */
  lemma PrinterStatusSetThenFind(s: Store, registerId: string, terminalId: string,
                                 printerId: string, status: DeviceStatus)
    requires FindPrinter(s, registerId, terminalId, printerId).Some?
    ensures var i := RegisterIndex(s.registers, registerId);
            var j := TerminalIndex(s.registers[i].paymentTerminals, terminalId);
            var k := PrinterIndex(s.registers[i].paymentTerminals[j].attachedPrinters, printerId);
            var p := FindPrinter(s, registerId, terminalId, printerId).value;
            var r := SetPrinterStatusAt(s, i, j, k, status);
            && FindPrinter(r, registerId, terminalId, printerId) == Some(p.(status := status))
            && FindTerminal(r, registerId, terminalId).value.status == FindTerminal(s, registerId, terminalId).value.status
  {
    var i := RegisterIndex(s.registers, registerId);
    var ts := s.registers[i].paymentTerminals;
    var j := TerminalIndex(ts, terminalId);
    var k := PrinterIndex(ts[j].attachedPrinters, printerId);
    var r := SetPrinterStatusAt(s, i, j, k, status);
    FirstRegisterKept(s.registers, r.registers, registerId);
    var ts' := r.registers[i].paymentTerminals;
    FirstTerminalKept(ts, ts', terminalId);
    FirstPrinterKept(ts[j].attachedPrinters, ts'[j].attachedPrinters, printerId);
  }

  /** A status update keeps every id, model, name and sequence length of
      the store: only device statuses change. */
  lemma StatusUpdateKeepsShape(before: Store, after: Store, registerId: string, terminalId: string,
                               printerId: Option<string>, status: DeviceStatus)
    requires StatusUpdated(before, after, registerId, terminalId, printerId, status)
    ensures SameStoreShape(before, after)
  {
  }

  /** No action changes the loading or error flags, over any sequence. */
  lemma {:induction false} ReduceAllKeepsFlags(st: StoreState, actions: seq<Action>)
    ensures FlagsKept(st, ReduceAll(st, actions))
    decreases |actions|
  {
    if |actions| > 0 {
      ReduceAllKeepsFlags(Reduce(st, actions[0]), actions[1..]);
    }
  }

  /** A sequence of actions without `setStore` keeps the store's presence,
      its id and its number of registers. */
  lemma {:induction false} ReduceAllKeepsStoreIdentity(st: StoreState, actions: seq<Action>)
    requires forall k :: 0 <= k < |actions| ==> !actions[k].SetStoreAction?
    ensures var r := ReduceAll(st, actions);
            && (r.currentStore.Some? <==> st.currentStore.Some?)
            && (st.currentStore.Some? ==>
                  && r.currentStore.value.id == st.currentStore.value.id
                  && |r.currentStore.value.registers| == |st.currentStore.value.registers|)
    decreases |actions|
  {
    if |actions| > 0 {
      ReduceAllKeepsStoreIdentity(Reduce(st, actions[0]), actions[1..]);
    }
  }

  /** Before any `setStore`, every action leaves the initial state alone. */
  lemma {:induction false} NothingHappensBeforeSetStore(actions: seq<Action>)
    requires forall k :: 0 <= k < |actions| ==> !actions[k].SetStoreAction?
    ensures ReduceAll(InitialState, actions) == InitialState
    decreases |actions|
  {
    if |actions| > 0 {
      assert Reduce(InitialState, actions[0]) == InitialState;
      NothingHappensBeforeSetStore(actions[1..]);
    }
  }

  /** `setStore` discards everything the earlier actions did. */
  lemma SetStoreForgetsHistory(st: StoreState, actions: seq<Action>, store: Store)
    ensures SetStore(ReduceAll(st, actions), store) == SetStore(st, store)
  {
    ReduceAllKeepsFlags(st, actions);
  }

  /** `addPrinter` does not enforce the one-printer limit: adding a second
      printer to T001 of the fixture leaves it with two. */
  lemma AddPrinterCanExceedOnePrinter()
    ensures var st := SetStore(InitialState, Fixture.Store001);
            var r := AddPrinter(st, "R001", "T001", Printer("P007", "EPSON TM-T88V", Connected));
            && AtMostOnePrinter(st.currentStore.value)
            && !AtMostOnePrinter(r.currentStore.value)
            && |r.currentStore.value.registers[0].paymentTerminals[0].attachedPrinters| == 2
  {
  }

}
