/**
 * The 24-hour forecast as the weather source returns it once parsed:
 * the condition enumeration, the fixed list of rain-bearing conditions,
 * and the record fields the dispatch cycle reads.
 */
module WeatherSchema {
  import opened Wrappers
  import opened Time

  /** `ForecastTextEnum`: the condition categories of the forecast. */
  datatype ForecastText =
    | Fair | FairDay | FairNight | FairAndWarm
    | PartlyCloudy | PartlyCloudyDay | PartlyCloudyNight
    | Cloudy | Hazy | SlightlyHazy | Windy | Mist | Fog
    | LightRain | ModerateRain | HeavyRain
    | PassingShowers | LightShowers | Showers | HeavyShowers
    | ThunderyShowers | HeavyThunderyShowers | HeavyThunderyShowersWithGustyWinds

  /** The enumeration member's string value, as it appears in the JSON. */
  function Value(t: ForecastText): string
  {
    match t
    case Fair => "Fair"
    case FairDay => "Fair (Day)"
    case FairNight => "Fair (Night)"
    case FairAndWarm => "Fair and Warm"
    case PartlyCloudy => "Partly Cloudy"
    case PartlyCloudyDay => "Partly Cloudy (Day)"
    case PartlyCloudyNight => "Partly Cloudy (Night)"
    case Cloudy => "Cloudy"
    case Hazy => "Hazy"
    case SlightlyHazy => "Slightly Hazy"
    case Windy => "Windy"
    case Mist => "Mist"
    case Fog => "Fog"
    case LightRain => "Light Rain"
    case ModerateRain => "Moderate Rain"
    case HeavyRain => "Heavy Rain"
    case PassingShowers => "Passing Showers"
    case LightShowers => "Light Showers"
    case Showers => "Showers"
    case HeavyShowers => "Heavy Showers"
    case ThunderyShowers => "Thundery Showers"
    case HeavyThunderyShowers => "Heavy Thundery Showers"
    case HeavyThunderyShowersWithGustyWinds => "Heavy Thundery Showers with Gusty Winds"
  }

  /**
   * Looking a text up among the enumeration's values, as the record
   * validation does: an unknown text has no member.
   */
  function FromValue(s: string): (r: Option<ForecastText>)
    ensures r.Some? ==> Value(r.value) == s
  {
    match s
    case "Fair" => Some(Fair)
    case "Fair (Day)" => Some(FairDay)
    case "Fair (Night)" => Some(FairNight)
    case "Fair and Warm" => Some(FairAndWarm)
    case "Partly Cloudy" => Some(PartlyCloudy)
    case "Partly Cloudy (Day)" => Some(PartlyCloudyDay)
    case "Partly Cloudy (Night)" => Some(PartlyCloudyNight)
    case "Cloudy" => Some(Cloudy)
    case "Hazy" => Some(Hazy)
    case "Slightly Hazy" => Some(SlightlyHazy)
    case "Windy" => Some(Windy)
    case "Mist" => Some(Mist)
    case "Fog" => Some(Fog)
    case "Light Rain" => Some(LightRain)
    case "Moderate Rain" => Some(ModerateRain)
    case "Heavy Rain" => Some(HeavyRain)
    case "Passing Showers" => Some(PassingShowers)
    case "Light Showers" => Some(LightShowers)
    case "Showers" => Some(Showers)
    case "Heavy Showers" => Some(HeavyShowers)
    case "Thundery Showers" => Some(ThunderyShowers)
    case "Heavy Thundery Showers" => Some(HeavyThunderyShowers)
    case "Heavy Thundery Showers with Gusty Winds" => Some(HeavyThunderyShowersWithGustyWinds)
    case _ => None
  }

  /** Every member is found again from its own value. */
  lemma {:induction false} FromValueOfValue(t: ForecastText)
    ensures FromValue(Value(t)) == Some(t)
  {
    match t
    case Fair =>
    case FairDay =>
    case FairNight =>
    case FairAndWarm =>
    case PartlyCloudy =>
    case PartlyCloudyDay =>
    case PartlyCloudyNight =>
    case Cloudy =>
    case Hazy =>
    case SlightlyHazy =>
    case Windy =>
    case Mist =>
    case Fog =>
    case LightRain =>
    case ModerateRain =>
    case HeavyRain =>
    case PassingShowers =>
    case LightShowers =>
    case Showers =>
    case HeavyShowers =>
    case ThunderyShowers =>
    case HeavyThunderyShowers =>
    case HeavyThunderyShowersWithGustyWinds =>
  }

  /** The enumeration's values are pairwise distinct strings. */
  lemma ValueInjective(a: ForecastText, b: ForecastText)
    requires Value(a) == Value(b)
    ensures a == b
  {
    FromValueOfValue(a);
    FromValueOfValue(b);
  }

  /** `rain_forecast_list`. */
  const RainForecastList: seq<ForecastText> := [
    LightRain, ModerateRain, HeavyRain,
    PassingShowers, LightShowers, Showers, HeavyShowers,
    ThunderyShowers, HeavyThunderyShowers, HeavyThunderyShowersWithGustyWinds
  ]

  /** Membership of a condition in `rain_forecast_list`. */
  predicate IsRainLike(t: ForecastText)
  {
    t in RainForecastList
  }

  /**
   * The rain list holds ten distinct members, Light Rain through Heavy Thundery
   * Showers with Gusty Winds, and no fair, cloudy, hazy, windy, mist or fog value.
   */
  lemma RainListExactly()
    ensures |RainForecastList| == 10
    ensures forall i, j :: 0 <= i < j < |RainForecastList| ==> RainForecastList[i] != RainForecastList[j]
    ensures forall t :: IsRainLike(t) <==>
      t in {LightRain, ModerateRain, HeavyRain, PassingShowers, LightShowers, Showers,
            HeavyShowers, ThunderyShowers, HeavyThunderyShowers, HeavyThunderyShowersWithGustyWinds}
    ensures forall t :: t in {Fair, FairDay, FairNight, FairAndWarm, PartlyCloudy, PartlyCloudyDay,
                              PartlyCloudyNight, Cloudy, Hazy, SlightlyHazy, Windy, Mist, Fog}
                        ==> !IsRainLike(t)
  {
  }

  // ---- the record shape (only the fields the core reads) ----

  datatype Temperature = Temperature(low: int, high: int, unit: string)

  datatype Forecast = Forecast(text: ForecastText, code: string)

  datatype ValidPeriod = ValidPeriod(start: Timestamp, end: Timestamp, text: string)

  datatype General = General(temperature: Temperature, forecast: Forecast, validPeriod: ValidPeriod)

  /** `RecordSchema`: the guard reads `updatedTimestamp` and `general.forecast.text`. */
  datatype Record = Record(date: Date, updatedTimestamp: Timestamp, general: General, timestamp: Timestamp)

  datatype ListRecord = ListRecord(records: seq<Record>)

  /** `TwentyFourHourSchema`. */
  datatype TwentyFourHour = TwentyFourHour(code: int, data: ListRecord, errorMsg: Option<string>)

  /** The condition a record reports. */
  function ConditionOf(r: Record): ForecastText
  {
    r.general.forecast.text
  }

  /** The example response's record (updated 2025-03-02 11:40:55 +08:00). */
  const ExampleRecord: Record :=
    Record(
      DateOf(1740886855 + 8 * 3600),
      1740886855,
      General(
        Temperature(25, 34, "Degrees Celsius"),
        Forecast(ThunderyShowers, "TL"),
        ValidPeriod(1740888000, 1740974400, "12 PM 2 Mar to 12 PM 3 Mar")),
      1740886620)

  /** "Thundery Showers", the example record's condition, parses and is rain-like. */
  lemma ExampleRecordIsRainLike()
    ensures FromValue("Thundery Showers") == Some(ConditionOf(ExampleRecord))
    ensures IsRainLike(ConditionOf(ExampleRecord))
  {
    FromValueOfValue(ThunderyShowers);
  }

}
