/** The `CurrencyMonitor` object: its settings, the storage slot they are
    saved to, and the operations that read or write them. Fetched rates are
    parameters (`None` when the fetch failed); what is rendered is returned. */
module Monitor {
  import opened Wrappers
  import Calculator
  import opened SettingsStore
  import opened ChartSeries

  /** JavaScript's coercion of a settings number in arithmetic: `null` is 0. */
  function NumberOf(n: Option<real>): real
  {
    if n.None? then 0.0 else n.value
  }

  /** What `updateSettings` ends with. */
  datatype UpdateOutcome = Rejected(reason: Rejection) | FetchFailed | Updated

  class CurrencyMonitor {
    var settings: Settings
    /** The browser storage slot holding the saved settings record. */
    var storage: Option<SavedRecord>

    /** The guard of `updateCurrentData` and `updateCharts`: a sale date, an
        amount and a sale-date rate that are all truthy. */
    predicate Configured()
      reads this
    {
      && settings.saleDate.Some? && settings.saleDate.value != ""
      && settings.usdAmount.Some? && settings.usdAmount.value != 0.0
      && settings.saleDateRate.Some? && settings.saleDateRate.value != 0.0
    }

    /** Starts from what the storage slot holds. */
    constructor(stored: Option<SavedRecord>)
      ensures settings == LoadSettings(stored)
      ensures storage == stored
    {
      settings := LoadSettings(stored);
      storage := stored;
    }

    /** Validates the input, writes the three user fields, then records the
        fetched sale-date rate and saves. An invalid input changes nothing;
        a failed fetch leaves the new fields written but the rate and the
        stored record as they were. */
    method UpdateSettings(saleDate: string, usdAmount: Option<real>, commission: Option<real>,
                          fetchedRate: Option<real>)
      returns (outcome: UpdateOutcome)
      modifies this
      ensures outcome.Rejected? <==> !AcceptedInput(saleDate, usdAmount, commission)
      ensures outcome.Rejected? ==>
                && Some(outcome.reason) == ValidateInput(saleDate, usdAmount, commission)
                && settings == old(settings) && storage == old(storage)
      ensures !outcome.Rejected? ==>
                && settings.saleDate == Some(saleDate)
                && settings.usdAmount == usdAmount
                && settings.commission == commission
      ensures outcome == FetchFailed <==> AcceptedInput(saleDate, usdAmount, commission) && fetchedRate.None?
      ensures outcome == FetchFailed ==>
                settings.saleDateRate == old(settings.saleDateRate) && storage == old(storage)
      ensures outcome == Updated ==>
                && settings.saleDateRate == fetchedRate
                && storage == Some(Save(settings))
                && LoadSettings(storage) == settings
      ensures outcome == Updated && fetchedRate.value != 0.0 ==> Configured()
    {
      var rejection := ValidateInput(saleDate, usdAmount, commission);
      if rejection.Some? {
        return Rejected(rejection.value);
      }

      settings := settings.(saleDate := Some(saleDate));
      settings := settings.(usdAmount := usdAmount);
      settings := settings.(commission := commission);

      if fetchedRate.None? {
        return FetchFailed;
      }
      settings := settings.(saleDateRate := fetchedRate);
      storage := Some(Save(settings));
      SaveLoadRoundTrip(settings);
      outcome := Updated;
    }

    /** The figures `updateCurrentData` shows for the fetched current rate,
        or `None` when it returns early or the fetch failed. */
    method UpdateCurrentData(currentRate: Option<real>) returns (figures: Option<Calculator.Figures>)
      ensures figures.Some? <==> Configured() && currentRate.Some?
      ensures figures.Some? ==>
                figures.value == Calculator.CurrentFigures(
                  settings.usdAmount.value, settings.saleDateRate.value,
                  NumberOf(settings.commission), currentRate.value)
      ensures figures.Some? && settings.usdAmount.value > 0.0 && NumberOf(settings.commission) < 100.0 ==>
                (figures.value.safeToConvert <==>
                   currentRate.value >= Calculator.BreakevenRate(settings.saleDateRate.value,
                                                                 NumberOf(settings.commission)).value)
    {
      if !Configured() || currentRate.None? {
        return None;
      }
      figures := Some(Calculator.CurrentFigures(
                        settings.usdAmount.value, settings.saleDateRate.value,
                        NumberOf(settings.commission), currentRate.value));
    }

    /** The series `updateCharts` renders, given the fetched current rate and
        date and the fetched historical rates; `None` when it returns early
        or a fetch failed. */
    method UpdateCharts(current: Option<(real, string)>, rates: Option<map<string, real>>)
      returns (series: Option<seq<Point>>)
      ensures series.Some? <==> Configured() && current.Some? && rates.Some?
      ensures series.Some? ==>
                IsSeries(series.value, settings.saleDate.value, settings.saleDateRate.value,
                         rates.value, current.value.1, current.value.0,
                         settings.usdAmount.value, NumberOf(settings.commission))
    {
      if !Configured() || current.None? || rates.None? {
        return None;
      }
      var (currentRate, todayDate) := current.value;
      var points := AssembleSeries(settings.saleDate.value, settings.saleDateRate.value, rates.value,
                                   todayDate, currentRate,
                                   settings.usdAmount.value, NumberOf(settings.commission));
      series := Some(points);
    }

    /** The breakeven rate drawn on the rate chart; `None` for a 100%
        commission, where it does not exist. */
    method GetBreakevenRate() returns (rate: Option<real>)
      ensures rate == Calculator.BreakevenRate(NumberOf(settings.saleDateRate), NumberOf(settings.commission))
      ensures rate.None? <==> NumberOf(settings.commission) == 100.0
      ensures rate.Some? ==>
                Calculator.Delta(NumberOf(settings.usdAmount), NumberOf(settings.saleDateRate),
                                 NumberOf(settings.commission), rate.value) == 0.0
    {
      rate := Calculator.BreakevenRate(NumberOf(settings.saleDateRate), NumberOf(settings.commission));
      if rate.Some? {
        Calculator.DeltaZeroAtBreakeven(NumberOf(settings.usdAmount), NumberOf(settings.saleDateRate),
                                        NumberOf(settings.commission));
      }
    }
  }
}
