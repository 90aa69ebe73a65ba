# Store management: device tree model

A Dafny model of the core of a small store-management web UI. A store holds
point-of-sale registers; each register holds payment terminals; each terminal
holds attached receipt printers. The model covers:

- the tree's record types and the `mockStores` fixture (`Devices`, `Fixture`);
- the Redux `store` slice: its state (`currentStore`, `loading`, `error`), its
  initial state, and the five reducers `setStore`, `updateRegister`,
  `addTerminal`, `addPrinter` and `updateDeviceStatus` (`StoreSlice`). Each
  reducer is written as a pure function from the old state to the new one, in
  place of the in-place draft mutation of the source;
- reading back what the reducers wrote, sequences of actions, and the
  unenforced one-printer limit (`StoreSliceProperties`);
- the register card's `getDeviceSummary` counts (`Summary`);
- the home page's `storeNumber`/`currentStore` state and its "Load Store"
  action (`Page`).

`ArrayOps` holds the JavaScript array operations the code uses (`findIndex`,
`filter`, `flatMap`) and facts about them. `Wrappers` holds `Option`, which
stands for `null`, `undefined` and optional fields.

Every reducer except `setStore` looks things up by id with a first-match
linear search. Any miss leaves the state unchanged, and so does a missing
current store. The model
states each reducer's effect as a relation between the store before and after:
`RegisterReplaced`, `TerminalAdded`, `PrinterAdded` and `StatusUpdated`. Each
relation says what changes, and that everything else is equal. Lemmas then
look the edited device up again and find exactly what was written.

On an unknown store number, the page's `handleLoadStore` sets `currentStore`
to null (src/app/page.tsx:20-23) rather than keeping the store loaded before;
the model does the same.

## Model

| member | source | states |
|---|---|---|
| ArrayOps.FindIndex | src/store/storeSlice.ts:30-32 | `findIndex` returns -1 exactly when no element matches; otherwise it returns a matching position with no match before it |
| ArrayOps.Filter | src/components/RegisterCard.tsx:39 | `filter` keeps only matching elements, never grows the sequence, and drops no matching element |
| ArrayOps.FilterCountsIndices | src/components/RegisterCard.tsx:39-42 | `filter(p).length` equals the number of positions where `p` holds |
| Devices.ParseDeviceStatus | src/data/mockStores.ts:4 | a device status is exactly one of "connected" and "disconnected"; parsing inverts the naming |
| Devices.ParseRegisterStatus | src/data/mockStores.ts:17 | a register status is exactly one of "online", "offline" and "maintenance"; parsing inverts the naming |
| Devices.DeviceStatusRoundTrip | src/data/mockStores.ts:10 | each device status reads back as itself, and distinct statuses have distinct literals |
| Devices.RegisterStatusRoundTrip | src/data/mockStores.ts:17 | each register status reads back as itself, and distinct statuses have distinct literals |
| Fixture.MockStoresKeyedById | src/data/mockStores.ts:27-29 | `mockStores` has the single key "001", and every store's id equals its key |
| Fixture.FixtureFlattened | src/data/mockStores.ts:31-116 | flattened in display order, the fixture has six terminals and the five printers P001, P003, P004, P005 and P006 |
| Fixture.FixtureIdsUniqueWithinParents | src/data/mockStores.ts:31-116 | register ids R001-R005 are pairwise distinct, and ids are unique within every register's terminals and every terminal's printers |
| Fixture.FixtureTerminalIdsDistinct | src/data/mockStores.ts:36-112 | terminal ids T001-T006 are pairwise distinct across the whole fixture |
| Fixture.FixturePrinterIdsDistinct | src/data/mockStores.ts:42-112 | printer ids are pairwise distinct across the whole fixture |
| Fixture.FixtureAtMostOnePrinter | src/data/mockStores.ts:11 | every terminal of the fixture has at most one attached printer |
| Fixture.FixtureRegister3 | src/data/mockStores.ts:63-84 | R003 has two terminals, and the second one, T004, has no printers |
| Summary.GetDeviceSummary | src/components/RegisterCard.tsx:37-54 | terminal total is the number of terminals; terminal connected count is the number of connected positions; printer totals equal the terminal-by-terminal sums; connected ≤ total for both |
| Summary.PrintersFlattened | src/components/RegisterCard.tsx:41-42 | the flatMap of printers has length equal to the per-terminal sum, and its connected count equals the per-terminal sum of connected printers |
| Summary.SummaryIgnoresRegisterHeader | src/components/RegisterCard.tsx:37-54 | the summary depends only on the payment terminals, not on the register's name, status or lastActive |
| Summary.SummaryAfterAppendTerminal | src/components/RegisterCard.tsx:37-54 | appending a terminal adds one to the terminal total and one to the connected count if it is connected; its printers are added to the printer counts |
| Summary.SummaryAfterAppendPrinter | src/components/RegisterCard.tsx:37-54 | appending a printer to a terminal adds one to the printer total and one to the connected count if it is connected; terminal counts are unchanged |
| Summary.SameShapeKeepsTotals | src/components/RegisterCard.tsx:46-50 | registers differing only in device statuses have equal terminal and printer totals |
| Summary.Register1Summary | src/components/RegisterCard.tsx:37-54 | the fixture's R001 summarises to terminals 1/1 and printers 1/1 |
| Summary.Register3Summary | src/components/RegisterCard.tsx:37-54 | the fixture's R003 summarises to terminals 2/2 and printers 1/1 |
| StoreSlice.RegisterIndex | src/store/storeSlice.ts:41-43 | the first register with the given id, or -1 when none has it |
| StoreSlice.TerminalIndex | src/store/storeSlice.ts:71-73 | the first terminal with the given id, or -1 when none has it |
| StoreSlice.PrinterIndex | src/store/storeSlice.ts:99-101 | the first printer with the given id, or -1 when none has it |
| StoreSlice.SetStore | src/store/storeSlice.ts:22-24 | the current store becomes the payload whatever it was before; the flags are kept |
| StoreSlice.UpdateRegister | src/store/storeSlice.ts:27-36 | only the first register with the payload's id is replaced; count, store id and all other registers are unchanged; no match or no store is a no-op |
| StoreSlice.AddTerminal | src/store/storeSlice.ts:38-57 | the first matching register gains the terminal at the end, with earlier terminals, name, status and lastActive kept; other registers are identical; a miss or no store is a no-op |
| StoreSlice.AddPrinter | src/store/storeSlice.ts:60-78 | the printer is appended to the first matching terminal of the first matching register; sibling terminals, other registers and the terminal's id, model and status are unchanged; any miss is a no-op |
| StoreSlice.UpdateDeviceStatus | src/store/storeSlice.ts:81-111 | a truthy printer id sets only that printer's status; otherwise only the terminal's status is set; the edited device keeps its id and model, and everything else is unchanged; any miss is a no-op |
| StoreSlice.Reduce | src/store/storeSlice.ts:17-113 | no action changes `loading` or `error`; only `setStore` can change the store's presence, its id or its number of registers |
| StoreSliceProperties.FindRegister | src/store/storeSlice.ts:67-69 | `find` yields the first register with the id when one exists, and nothing otherwise |
| StoreSliceProperties.FindTerminal | src/store/storeSlice.ts:71-73 | `find` yields the first terminal with the id in the found register, nothing when that register has no such terminal, and nothing if the register is missing |
| StoreSliceProperties.FindPrinter | src/store/storeSlice.ts:99-101 | `find` yields the first printer with the id in the found terminal, nothing when that terminal has no such printer, and nothing if the terminal is missing |
| StoreSliceProperties.UpdateRegisterThenFind | src/store/storeSlice.ts:27-36 | after `updateRegister` the payload is found under its id |
| StoreSliceProperties.AddTerminalThenFind | src/store/storeSlice.ts:38-57 | after `addTerminal` the register found is the old one plus the terminal; a terminal with a fresh id is then found by its id |
| StoreSliceProperties.AddPrinterThenFind | src/store/storeSlice.ts:60-78 | after `addPrinter` the terminal found is the old one plus the printer |
| StoreSliceProperties.SetTerminalStatusThenFind | src/store/storeSlice.ts:105-108 | without a truthy printer id, the terminal found afterwards is the old one with the new status |
| StoreSliceProperties.SetPrinterStatusThenFind | src/store/storeSlice.ts:97-104 | with a truthy printer id, the printer found afterwards has the new status and its terminal keeps its status |
| StoreSliceProperties.StatusUpdateKeepsShape | src/store/storeSlice.ts:81-111 | a status update keeps every id, model, name and sequence length of the store; only device statuses differ |
| StoreSliceProperties.ReduceAllKeepsFlags | src/store/storeSlice.ts:20-111 | no sequence of actions changes `loading` or `error` |
| StoreSliceProperties.ReduceAllKeepsStoreIdentity | src/store/storeSlice.ts:27-111 | actions other than `setStore` keep the store's presence, its id and its register count over any sequence |
| StoreSliceProperties.NothingHappensBeforeSetStore | src/store/storeSlice.ts:11-15 | from the initial state, every sequence of actions without `setStore` leaves the state as it is |
| StoreSliceProperties.SetStoreForgetsHistory | src/store/storeSlice.ts:22-24 | `setStore` after any actions gives the same state as `setStore` on its own |
| StoreSliceProperties.AddPrinterCanExceedOnePrinter | src/store/storeSlice.ts:75 | adding a printer to T001 of the fixture leaves it with two printers, breaking the at-most-one rule the fixture satisfies |
| Page.SetStoreNumber | src/app/page.tsx:40 | typing sets the store number and keeps the loaded store |
| Page.HandleLoadStore | src/app/page.tsx:16-24 | a known number loads its store, and that store's id is the number; an unknown number clears the store; the number itself is kept |
| Page.LoadIgnoresPriorStore | src/app/page.tsx:16-24 | the result does not depend on the previously loaded store, so loading twice is the same as loading once |
| Page.LoadOnlyStore001 | src/app/page.tsx:17-19 | exactly the number "001" loads a store, and it loads the fixture store |
| Page.LoadUnknownClears | src/app/page.tsx:13-23 | loading from the initial state gives the initial state; loading "999" discards a loaded store |

## Left out

- src/store/store.ts and src/store/api/storeApi.ts: Redux store wiring and the HTTP fetch of a store by id. This is network I/O and library middleware, and the model has no network.
- Transitions of `loading` and `error`: nothing in the source writes them, so they keep their initial values. The fetch keeps its own state under its own reducer path (src/store/store.ts:9), and the slice has no extra reducers.
- src/components/DeviceFormModal.tsx: form field state and dialog open/close. Its only check is the browser's `required` attribute.
- Routing a submitted form to `addTerminal` or `addPrinter`. The register card only forwards the data (src/components/RegisterCard.tsx:58-60), and the page never passes a handler.
- src/types/devices.ts and src/components/Header.tsx: type declarations and markup with no logic.
- Rendering, styling, the status colour maps, the expand toggle and the capitalised status text in RegisterCard.tsx.
- Object-prototype keys in `mockStores[storeNumber]`: a key such as "constructor" would be truthy in JavaScript. The model treats `mockStores` as a map, where only "001" is a key.
- Draft mutation and aliasing: the tree is treated as having no shared subtrees, so mutating the object that `find` returns is the same as updating the tree at the first-match position.
