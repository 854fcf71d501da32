/**
 * `HomeViewModel` (ViewModels/HomeViewModel.swift): the home screen's flags and the two
 * stored search preferences.
 *
 * The preferences live in the app's key-value storage under "savedPriceLevel" and
 * "savedPlaceType"; every view that declares those keys reads and writes the same two
 * values, so the storage is one shared `PreferenceStore` object.
 */
module HomeModel {

  /** The two stored preferences, with the defaults they have before any write. */
  class PreferenceStore {
    var savedPriceLevel: int
    var savedPlaceType: string

    constructor ()
      ensures savedPriceLevel == 0 && savedPlaceType == ""
    {
      savedPriceLevel, savedPlaceType := 0, "";
    }
  }

  /** `HomeViewModel`. */
  class HomeViewModel {
    var showSearchForm: bool
    var showPlaceSelection: bool
    var selectedBudget: string
    var budgetSelected: bool
    var placeSelected: bool
    const storage: PreferenceStore

    /** Every flag starts false and the budget menu starts with its prompt. */
    constructor (storage: PreferenceStore)
      ensures this.storage == storage
      ensures !showSearchForm && !showPlaceSelection && !budgetSelected && !placeSelected
      ensures selectedBudget == "Take your pick!"
    {
      showSearchForm, showPlaceSelection := false, false;
      selectedBudget := "Take your pick!";
      budgetSelected, placeSelected := false, false;
      this.storage := storage;
    }

    /** `loadPreferences()`. */
    function LoadPreferences(): (r: (int, string))
      reads storage
      ensures r.0 == storage.savedPriceLevel && r.1 == storage.savedPlaceType
    {
      (storage.savedPriceLevel, storage.savedPlaceType)
    }

    /** `savePreferences(priceLevel:placeType:)`: the next load returns exactly this pair. */
    method SavePreferences(priceLevel: int, placeType: string)
      modifies storage
      ensures LoadPreferences() == (priceLevel, placeType)
    {
      storage.savedPriceLevel := priceLevel;
      storage.savedPlaceType := placeType;
    }
  }

  /** Loading right after two saves gives the second pair: the last write wins. */
  method SaveTwiceThenLoad(home: HomeViewModel, first: (int, string), second: (int, string))
    returns (loaded: (int, string))
    modifies home.storage
    ensures loaded == second
  {
    home.SavePreferences(first.0, first.1);
    home.SavePreferences(second.0, second.1);
    loaded := home.LoadPreferences();
  }

  /** With fresh storage, loading before any save gives the defaults (0, ""). */
  method LoadBeforeSave() returns (loaded: (int, string))
    ensures loaded == (0, "")
  {
    var storage := new PreferenceStore();
    var home := new HomeViewModel(storage);
    loaded := home.LoadPreferences();
  }
}
