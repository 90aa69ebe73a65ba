/** The home page's two pieces of local state and its "Load Store" action,
    which looks the typed store number up in the fixture. */
module Page {
  import opened Wrappers
  import opened Devices
  import Fixture

  datatype PageState = PageState(storeNumber: string, currentStore: Option<Store>)

  /** An empty store number and no store. */
  const InitialPage: PageState := PageState("", None)

  /** Typing in the store-number field replaces the number and nothing else. */
  function SetStoreNumber(ps: PageState, text: string): (r: PageState)
    ensures r.storeNumber == text && r.currentStore == ps.currentStore
  {
    ps.(storeNumber := text)
  }

  /** `handleLoadStore`: the store under the typed number, or none when the
      number is not a key; the loaded store always carries that number as
      its id. */
  function HandleLoadStore(ps: PageState): (r: PageState)
    ensures r.storeNumber == ps.storeNumber
    ensures r.currentStore.Some? <==> ps.storeNumber in Fixture.MockStores
    ensures r.currentStore.Some? ==> r.currentStore.value == Fixture.MockStores[ps.storeNumber]
    ensures r.currentStore.Some? ==> r.currentStore.value.id == ps.storeNumber
  {
    Fixture.MockStoresKeyedById();
    if ps.storeNumber in Fixture.MockStores then ps.(currentStore := Some(Fixture.MockStores[ps.storeNumber]))
    else ps.(currentStore := None)
  }

  /** The outcome does not depend on what was loaded before, so loading twice
      is the same as loading once. */
  lemma LoadIgnoresPriorStore(ps: PageState, prior: Option<Store>)
    ensures HandleLoadStore(ps.(currentStore := prior)) == HandleLoadStore(ps)
    ensures HandleLoadStore(HandleLoadStore(ps)) == HandleLoadStore(ps)
  {
  }

  /** Only "001" loads a store, and it loads the fixture's store. */
  lemma LoadOnlyStore001(ps: PageState)
    ensures HandleLoadStore(ps).currentStore.Some? <==> ps.storeNumber == "001"
    ensures ps.storeNumber == "001" ==> HandleLoadStore(ps).currentStore == Some(Fixture.Store001)
  {
  }

  /** Loading with the initial empty number yields the initial page again;
      loading an unknown number discards a previously loaded store. */
  lemma LoadUnknownClears(store: Store)
    ensures HandleLoadStore(InitialPage) == InitialPage
    ensures HandleLoadStore(PageState("999", Some(store))) == PageState("999", None)
  {
  }

}
