/** The `common` Redux slice of frontend/redux/common/CommonReducer.ts. Its reducers assign
    one field of a draft state each; the state is a class with those two fields. */
module CommonReducer {

  datatype Currency = USD | PHP {
    function Value(): string {
      match this
      case USD => "USD"
      case PHP => "PHP"
    }
  }

  lemma CurrencyValues()
    ensures forall c: Currency :: c.Value() == "USD" || c.Value() == "PHP"
    ensures USD.Value() != PHP.Value()
  {
  }

  class CommonState {
    var isAppDataFreshing: bool
    var selectedCurrency: Currency

    /** `initialState`: not refreshing, currency USD. */
    constructor ()
      ensures !isAppDataFreshing && selectedCurrency == USD
    {
      isAppDataFreshing := false;
      selectedCurrency := USD;
    }

    /** `setAppDataRefreshing`: sets the flag; the currency is unchanged. */
    method SetAppDataRefreshing(payload: bool)
      modifies this
      ensures isAppDataFreshing == payload && selectedCurrency == old(selectedCurrency)
    {
      isAppDataFreshing := payload;
    }

    /** `setCurrency`: sets the currency; the flag is unchanged. */
    method SetCurrency(payload: Currency)
      modifies this
      ensures selectedCurrency == payload && isAppDataFreshing == old(isAppDataFreshing)
    {
      selectedCurrency := payload;
    }
  }

  /** Dispatching `setAppDataRefreshing` twice with the same payload leaves the state one
      dispatch leaves: the flag is the payload and the currency is the one before. */
  method SetAppDataRefreshingTwice(state: CommonState, refreshing: bool)
    modifies state
    ensures state.isAppDataFreshing == refreshing && state.selectedCurrency == old(state.selectedCurrency)
  {
    state.SetAppDataRefreshing(refreshing);
    state.SetAppDataRefreshing(refreshing);
  }

  /** Dispatching `setCurrency` twice with the same payload leaves the state one dispatch
      leaves: the currency is the payload and the flag is the one before. */
  method SetCurrencyTwice(state: CommonState, currency: Currency)
    modifies state
    ensures state.selectedCurrency == currency && state.isAppDataFreshing == old(state.isAppDataFreshing)
  {
    state.SetCurrency(currency);
    state.SetCurrency(currency);
  }
}
