/** The `mockStores` fixture: a single store "001" with five registers. */
module Fixture {
  import opened ArrayOps
  import opened Devices

  const Register1: Register := Register("R001", "Register 1", Online, "2024-03-20 10:30", [
    PaymentTerminal("T001", "Verifone P400", Connected, [
      Printer("P001", "EPSON TM-T88V", Connected)])])

  const Register2: Register := Register("R002", "Register 2", Offline, "2024-03-20 09:15", [
    PaymentTerminal("T002", "Verifone P400", Disconnected, [
      Printer("P003", "EPSON TM-T88V", Disconnected)])])

  const Register3: Register := Register("R003", "Register 3", Online, "2024-03-20 10:45", [
    PaymentTerminal("T003", "Verifone P400", Connected, [
      Printer("P004", "EPSON TM-T88V", Connected)]),
    PaymentTerminal("T004", "Ingenico Lane 3000", Connected, [])])

  const Register4: Register := Register("R004", "Register 4", Maintenance, "2024-03-19 15:20", [
    PaymentTerminal("T005", "Verifone P400", Disconnected, [
      Printer("P005", "EPSON TM-T88V", Disconnected)])])

  const Register5: Register := Register("R005", "Register 5", Online, "2024-03-20 10:40", [
    PaymentTerminal("T006", "Ingenico Lane 3000", Connected, [
      Printer("P006", "EPSON TM-T88V", Connected)])])

  const Store001: Store := Store("001", [Register1, Register2, Register3, Register4, Register5])

  /** `mockStores`: store number to store. */
  const MockStores: map<string, Store> := map["001" := Store001]

  /** The fixture holds one store, under the key equal to its own id. */
  lemma MockStoresKeyedById()
    ensures MockStores.Keys == {"001"}
    ensures forall n :: n in MockStores ==> MockStores[n].id == n
  {
  }

  /** The fixture's six terminals, in display order. */
  const FixtureTerminals: seq<PaymentTerminal> := Register1.paymentTerminals + Register2.paymentTerminals
    + Register3.paymentTerminals + Register4.paymentTerminals + Register5.paymentTerminals

  /** Flattening the fixture keeps display order: six terminals and five
      printers (T004 contributes none). */
  lemma FixtureFlattened()
    ensures AllTerminals(Store001) == FixtureTerminals
    ensures |AllTerminals(Store001)| == 6
    ensures AllPrinters(Store001) == [
      Printer("P001", "EPSON TM-T88V", Connected), Printer("P003", "EPSON TM-T88V", Disconnected),
      Printer("P004", "EPSON TM-T88V", Connected), Printer("P005", "EPSON TM-T88V", Disconnected),
      Printer("P006", "EPSON TM-T88V", Connected)]
  {
    FlatMapOf5(Register1, Register2, Register3, Register4, Register5, TerminalsOf);
    var ts := FixtureTerminals;
    assert |ts| == 6;
    assert ts == [ts[0], ts[1], ts[2], ts[3], ts[4], ts[5]];
    FlatMapOf6(ts[0], ts[1], ts[2], ts[3], ts[4], ts[5], PrintersOf);
  }

  lemma FlatMapOf5<T, U>(a: T, b: T, c: T, d: T, e: T, f: T -> seq<U>)
    ensures FlatMap([a, b, c, d, e], f) == f(a) + f(b) + f(c) + f(d) + f(e)
  {
    FlatMapAppend([a], [b, c, d, e], f);
    FlatMapAppend([b], [c, d, e], f);
    FlatMapAppend([c], [d, e], f);
    FlatMapAppend([d], [e], f);
    FlatMapOne(a, f); FlatMapOne(b, f); FlatMapOne(c, f); FlatMapOne(d, f); FlatMapOne(e, f);
  }

  lemma FlatMapOf6<T, U>(a: T, b: T, c: T, d: T, e: T, g: T, f: T -> seq<U>)
    ensures FlatMap([a, b, c, d, e, g], f) == f(a) + f(b) + f(c) + f(d) + f(e) + f(g)
  {
    FlatMapAppend([a], [b, c, d, e, g], f);
    FlatMapOf5(b, c, d, e, g, f);
    FlatMapOne(a, f);
  }

  lemma FlatMapOne<T, U>(a: T, f: T -> seq<U>)
    ensures FlatMap([a], f) == f(a)
  {
    assert [a][1..] == [];
  }

  /** Register ids R001-R005 are pairwise distinct, and so are the ids
      within every register and every terminal. */
  lemma FixtureIdsUniqueWithinParents()
    ensures DistinctBy(Store001.registers, RegisterId)
    ensures UniqueWithinParents(Store001)
  {
  }

  /** Terminal ids T001-T006 are pairwise distinct across the whole fixture. */
  lemma FixtureTerminalIdsDistinct()
    ensures DistinctBy(AllTerminals(Store001), TerminalId)
  {
    FixtureFlattened();
    var ts := AllTerminals(Store001);
    assert forall k :: 0 <= k < 6 ==> ts[k].id == ["T001", "T002", "T003", "T004", "T005", "T006"][k];
  }

  /** Printer ids are pairwise distinct across the whole fixture. */
  lemma FixturePrinterIdsDistinct()
    ensures DistinctBy(AllPrinters(Store001), PrinterId)
  {
    FixtureFlattened();
    var ps := AllPrinters(Store001);
    assert forall k :: 0 <= k < 5 ==> ps[k].id == ["P001", "P003", "P004", "P005", "P006"][k];
  }

  /** Every fixture terminal has at most one printer. */
  lemma FixtureAtMostOnePrinter()
    ensures AtMostOnePrinter(Store001)
  {
  }

  /** Register R003 has two terminals, and its second, T004, has no printer. */
  lemma FixtureRegister3()
    ensures Store001.registers[2].id == "R003"
    ensures |Register3.paymentTerminals| == 2
    ensures Register3.paymentTerminals[1].id == "T004"
    ensures Register3.paymentTerminals[1].attachedPrinters == []
  {
  }

}
