/** `getDeviceSummary` of a register card: connected and total counts of the
    register's payment terminals and of the printers attached to them. */
module Summary {
  import opened ArrayOps
  import opened Devices
  import Fixture

  datatype Tally = Tally(total: nat, connected: nat)

  datatype DeviceSummary = DeviceSummary(terminals: Tally, printers: Tally)

  predicate IsConnectedTerminal(t: PaymentTerminal) { t.status == Connected }

  predicate IsConnectedPrinter(p: Printer) { p.status == Connected }

  /** Reference definition: the number of printers, summed terminal by
      terminal. */
  function PrinterTotal(ts: seq<PaymentTerminal>): nat
  {
    if |ts| == 0 then 0 else |ts[0].attachedPrinters| + PrinterTotal(ts[1..])
  }

  /** Reference definition: the number of connected printers, summed
      terminal by terminal, each terminal counting the positions of its
      connected printers. */
  function ConnectedPrinterTotal(ts: seq<PaymentTerminal>): nat
  {
    if |ts| == 0 then 0
    else |Indices(ts[0].attachedPrinters, IsConnectedPrinter)| + ConnectedPrinterTotal(ts[1..])
  }

  /** The summary shown on a register card: terminals filtered by status,
      printers flattened across terminals and then filtered by status. */
  function GetDeviceSummary(register: Register): (r: DeviceSummary)
    ensures r.terminals.total == |register.paymentTerminals|
    ensures r.terminals.connected == |Indices(register.paymentTerminals, IsConnectedTerminal)|
    ensures r.printers.total == PrinterTotal(register.paymentTerminals)
    ensures r.printers.connected == ConnectedPrinterTotal(register.paymentTerminals)
    ensures r.terminals.connected <= r.terminals.total
    ensures r.printers.connected <= r.printers.total
  {
    var terminals := register.paymentTerminals;
    var connectedTerminals := |Filter(terminals, IsConnectedTerminal)|;
    var allPrinters := FlatMap(terminals, PrintersOf);
    var connectedPrinters := |Filter(allPrinters, IsConnectedPrinter)|;
    FilterCountsIndices(terminals, IsConnectedTerminal);
    PrintersFlattened(terminals);
    DeviceSummary(Tally(|terminals|, connectedTerminals), Tally(|allPrinters|, connectedPrinters))
  }

  /** Flattening then filtering the printers agrees with the terminal-by-
      terminal reference counts. */
  lemma {:induction false} PrintersFlattened(ts: seq<PaymentTerminal>)
    ensures |FlatMap(ts, PrintersOf)| == PrinterTotal(ts)
    ensures |Filter(FlatMap(ts, PrintersOf), IsConnectedPrinter)| == ConnectedPrinterTotal(ts)
  {
    if |ts| > 0 {
      PrintersFlattened(ts[1..]);
      FilterAppend(ts[0].attachedPrinters, FlatMap(ts[1..], PrintersOf), IsConnectedPrinter);
      FilterCountsIndices(ts[0].attachedPrinters, IsConnectedPrinter);
    }
  }

  /** The summary reads only the register's terminals: its name, status and
      last-active time do not affect it. */
  lemma SummaryIgnoresRegisterHeader(a: Register, b: Register)
    requires a.paymentTerminals == b.paymentTerminals
    ensures GetDeviceSummary(a) == GetDeviceSummary(b)
  {
  }

  /** Appending a terminal adds one terminal (connected or not, as the new
      one is) and all of its printers to the summary. */
  lemma SummaryAfterAppendTerminal(register: Register, t: PaymentTerminal)
    ensures var before := GetDeviceSummary(register);
            var after := GetDeviceSummary(register.(paymentTerminals := register.paymentTerminals + [t]));
            && after.terminals.total == before.terminals.total + 1
            && after.terminals.connected == before.terminals.connected + (if t.status == Connected then 1 else 0)
            && after.printers.total == before.printers.total + |t.attachedPrinters|
            && after.printers.connected == before.printers.connected
                 + |Indices(t.attachedPrinters, IsConnectedPrinter)|
  {
    var ts := register.paymentTerminals;
    IndicesSnoc(ts, t, IsConnectedTerminal);
    PrinterTotalsAppend(ts, [t]);
    assert [t][1..] == [];
  }

  /** The reference counts add up over concatenation. */
  lemma {:induction false} PrinterTotalsAppend(a: seq<PaymentTerminal>, b: seq<PaymentTerminal>)
    ensures PrinterTotal(a + b) == PrinterTotal(a) + PrinterTotal(b)
    ensures ConnectedPrinterTotal(a + b) == ConnectedPrinterTotal(a) + ConnectedPrinterTotal(b)
  {
    if |a| == 0 {
      assert a + b == b;
    } else {
      assert (a + b)[0] == a[0];
      assert (a + b)[1..] == a[1..] + b;
      PrinterTotalsAppend(a[1..], b);
    }
  }

  /** Appending a printer to the terminal at position `j` adds one printer
      (connected or not, as the new one is) and leaves the terminal counts
      alone. */
  lemma SummaryAfterAppendPrinter(register: Register, j: int, p: Printer)
    requires 0 <= j < |register.paymentTerminals|
    ensures var ts := register.paymentTerminals;
            var t := ts[j];
            var before := GetDeviceSummary(register);
            var after := GetDeviceSummary(register.(paymentTerminals :=
              ts[j := t.(attachedPrinters := t.attachedPrinters + [p])]));
            && after.terminals == before.terminals
            && after.printers.total == before.printers.total + 1
            && after.printers.connected == before.printers.connected + (if p.status == Connected then 1 else 0)
  {
    var ts := register.paymentTerminals;
    var t := ts[j];
    var t' := t.(attachedPrinters := t.attachedPrinters + [p]);
    var ts' := ts[j := t'];
    assert ts == ts[..j] + [t] + ts[j + 1..];
    assert ts' == ts[..j] + [t'] + ts[j + 1..];
    PrinterTotalsAppend(ts[..j] + [t], ts[j + 1..]);
    PrinterTotalsAppend(ts[..j], [t]);
    PrinterTotalsAppend(ts[..j] + [t'], ts[j + 1..]);
    PrinterTotalsAppend(ts[..j], [t']);
    assert [t][1..] == [] && [t'][1..] == [];
    IndicesSnoc(t.attachedPrinters, p, IsConnectedPrinter);
    assert Indices(ts', IsConnectedTerminal) == Indices(ts, IsConnectedTerminal) by {
      assert forall k :: 0 <= k < |ts| ==> ts'[k].status == ts[k].status;
    }
  }

  /** A change of device statuses only, with the same shape, keeps both
      totals. */
  lemma {:induction false} SameShapeKeepsTotals(a: Register, b: Register)
    requires SameRegisterShape(a, b)
    ensures GetDeviceSummary(a).terminals.total == GetDeviceSummary(b).terminals.total
    ensures GetDeviceSummary(a).printers.total == GetDeviceSummary(b).printers.total
  {
    SameLengthsSamePrinterTotal(a.paymentTerminals, b.paymentTerminals);
  }

  lemma {:induction false} SameLengthsSamePrinterTotal(a: seq<PaymentTerminal>, b: seq<PaymentTerminal>)
    requires |a| == |b|
    requires forall k :: 0 <= k < |a| ==> |a[k].attachedPrinters| == |b[k].attachedPrinters|
    ensures PrinterTotal(a) == PrinterTotal(b)
  {
    if |a| > 0 {
      SameLengthsSamePrinterTotal(a[1..], b[1..]);
    }
  }

  /** Register R001 of the fixture summarises to terminals 1/1, printers 1/1. */
  lemma Register1Summary()
    ensures GetDeviceSummary(Fixture.Register1) == DeviceSummary(Tally(1, 1), Tally(1, 1))
  {
  }

  /** Register R003 of the fixture summarises to terminals 2/2, printers 1/1:
      its second terminal, T004, has no printer. */
  lemma Register3Summary()
    ensures GetDeviceSummary(Fixture.Register3) == DeviceSummary(Tally(2, 2), Tally(1, 1))
  {
  }

}
