/** The settings record of `CurrencyMonitor`, how it is restored from the
    stored record, and how user input is validated before it is written. */
module SettingsStore {
  import opened Wrappers
  import Calculator

  /** The settings object. `None` is JavaScript's `null`. */
  datatype Settings = Settings(
    saleDate: Option<string>,
    usdAmount: Option<real>,
    saleDateRate: Option<real>,
    commission: Option<real>)

  /** One key of a stored JSON record: absent, or present with a value that
      may itself be `null`. */
  datatype Slot<T> = Missing | Stored(value: Option<T>)

  /** The record kept in the browser's storage slot, as parsed back. */
  datatype SavedRecord = SavedRecord(
    saleDate: Slot<string>,
    usdAmount: Slot<real>,
    saleDateRate: Slot<real>,
    commission: Slot<real>)

  /** The settings before anything was saved: all `null`, commission 2%. */
  function Defaults(): Settings
  {
    Settings(None, None, None, Some(2.0))
  }

  /** Object spread for one key: the saved value wins when the key is there. */
  function Overlay<T>(default: Option<T>, slot: Slot<T>): Option<T>
  {
    match slot
    case Missing => default
    case Stored(v) => v
  }

  /** `{...defaults, ...saved}`, or the defaults when nothing is saved:
      each key takes the saved value when the saved record has it, and the
      default otherwise, so a record without a commission yields 2%. */
  function LoadSettings(saved: Option<SavedRecord>): (s: Settings)
    ensures saved.None? ==> s == Defaults()
    ensures saved.Some? ==>
              var r := saved.value;
              && (r.saleDate.Stored? ==> s.saleDate == r.saleDate.value)
              && (r.usdAmount.Stored? ==> s.usdAmount == r.usdAmount.value)
              && (r.saleDateRate.Stored? ==> s.saleDateRate == r.saleDateRate.value)
              && (r.commission.Stored? ==> s.commission == r.commission.value)
              && (r.saleDate.Missing? ==> s.saleDate == Defaults().saleDate)
              && (r.usdAmount.Missing? ==> s.usdAmount == Defaults().usdAmount)
              && (r.saleDateRate.Missing? ==> s.saleDateRate == Defaults().saleDateRate)
              && (r.commission.Missing? ==> s.commission == Some(2.0))
  {
    match saved
    case None => Defaults()
    case Some(r) =>
      Settings(
        Overlay(None, r.saleDate),
        Overlay(None, r.usdAmount),
        Overlay(None, r.saleDateRate),
        Overlay(Some(2.0), r.commission))
  }

  /** What serialising the settings writes: every key, `null` ones included. */
  function Save(s: Settings): (r: SavedRecord)
    ensures r.saleDate.Stored? && r.usdAmount.Stored? && r.saleDateRate.Stored? && r.commission.Stored?
  {
    SavedRecord(Stored(s.saleDate), Stored(s.usdAmount), Stored(s.saleDateRate), Stored(s.commission))
  }

  /** Loading what was saved gives back the same settings. */
  lemma SaveLoadRoundTrip(s: Settings)
    ensures LoadSettings(Some(Save(s))) == s
  {
  }

  /** An empty saved record and no saved record load the same settings. */
  lemma EmptyRecordLoadsDefaults()
    ensures LoadSettings(Some(SavedRecord(Missing, Missing, Missing, Missing))) == LoadSettings(None)
  {
  }

  /** Why `updateSettings` refuses its input, one reason per alert. */
  datatype Rejection = InvalidDateOrAmount | InvalidCommission

  /** JavaScript falsiness of a parsed number: NaN (`None`) or zero. */
  predicate Falsy(n: Option<real>)
  {
    n.None? || n.value == 0.0
  }

  /** What the validator accepts, stated on its own: a non-empty date, a
      positive amount, and a commission from 0 to 100 inclusive. */
  predicate AcceptedInput(saleDate: string, usdAmount: Option<real>, commission: Option<real>)
  {
    && |saleDate| > 0
    && usdAmount.Some? && usdAmount.value > 0.0
    && commission.Some? && 0.0 <= commission.value <= 100.0
  }

  /** The two checks of `updateSettings`, in their order; `None` accepts.
      Numbers are what `parseFloat` gave, `None` for NaN. */
  function ValidateInput(saleDate: string, usdAmount: Option<real>, commission: Option<real>): (r: Option<Rejection>)
    ensures r.None? <==> AcceptedInput(saleDate, usdAmount, commission)
    ensures r == Some(InvalidDateOrAmount) <==> saleDate == [] || usdAmount.None? || usdAmount.value <= 0.0
  {
    if saleDate == "" || Falsy(usdAmount) || usdAmount.value <= 0.0 then Some(InvalidDateOrAmount)
    else if commission.None? || commission.value < 0.0 || commission.value > 100.0 then Some(InvalidCommission)
    else None
  }

  /** Accepted input keeps the commission multiplier within [0, 1]. */
  lemma AcceptedMultiplierInUnitInterval(saleDate: string, usdAmount: Option<real>, commission: Option<real>)
    requires ValidateInput(saleDate, usdAmount, commission).None?
    ensures 0.0 <= Calculator.CommissionMultiplier(commission.value) <= 1.0
  {
  }

  /** The validator accepts a 100% commission, for which the multiplier is
      zero and the source's breakeven rate divides by zero. */
  lemma FullCommissionAccepted(saleDate: string, usdAmount: real, saleDateRate: real)
    requires saleDate != [] && usdAmount > 0.0
    ensures ValidateInput(saleDate, Some(usdAmount), Some(100.0)).None?
    ensures Calculator.CommissionMultiplier(100.0) == 0.0
    ensures Calculator.BreakevenRate(saleDateRate, 100.0).None?
  {
  }

  /** Below 100%, every accepted commission has a breakeven rate, and the
      delta there is zero. */
  lemma AcceptedBelowFullHasBreakeven(saleDate: string, usdAmount: Option<real>, commission: Option<real>, saleDateRate: real)
    requires ValidateInput(saleDate, usdAmount, commission).None? && commission.value != 100.0
    ensures Calculator.BreakevenRate(saleDateRate, commission.value).Some?
    ensures Calculator.Delta(usdAmount.value, saleDateRate, commission.value,
                             Calculator.BreakevenRate(saleDateRate, commission.value).value) == 0.0
  {
    Calculator.DeltaZeroAtBreakeven(usdAmount.value, saleDateRate, commission.value);
  }
}
