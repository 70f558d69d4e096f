/** The widget's presentation mappers: temperature advice, condition advice
    and the condition icon. Each is a pure function of its arguments. */
module Advice {
  import opened Text

  /** The five temperature advice sentences, coldest first. */
  datatype Band = Freezing | Cold | Cool | Pleasant | ExtremeHeat

  /** What getTemperatureMessage produces, before the number is formatted:
      one of the five advice sentences for a Celsius reading, or the bare
      reading followed by its unit for any other unit. */
  datatype TemperatureMessage =
    | Advice(band: Band, temperature: real)
    | Bare(temperature: real, unit: string)

  /** Position of a band in the cold-to-hot order. */
  function Rank(b: Band): nat {
    match b
    case Freezing => 0
    case Cold => 1
    case Cool => 2
    case Pleasant => 3
    case ExtremeHeat => 4
  }

  /** The temperature range each advice sentence is written for, stated
      band by band; Classify is checked against it. */
  predicate InBand(t: real, b: Band) {
    match b
    case Freezing => t < 0.0
    case Cold => 0.0 <= t < 10.0
    case Cool => 10.0 <= t < 20.0
    case Pleasant => 20.0 <= t < 30.0
    case ExtremeHeat => 30.0 <= t
  }

  /** The if-chain of getTemperatureMessage for unit "C": the first
      threshold the reading is below decides the sentence. */
  function Classify(t: real): (b: Band)
    ensures InBand(t, b)
  {
    if t < 0.0 then Freezing
    else if t < 10.0 then Cold
    else if t < 20.0 then Cool
    else if t < 30.0 then Pleasant
    else ExtremeHeat
  }

  /** getTemperatureMessage: advice for "C", the bare reading otherwise;
      the reading itself is always carried through unchanged. */
  function TemperatureMessageFor(temperature: real, unit: string): (m: TemperatureMessage)
    ensures m.temperature == temperature
    ensures m.Advice? <==> unit == "C"
    ensures m.Bare? ==> m.unit == unit
  {
    if unit == "C" then Advice(Classify(temperature), temperature)
    else Bare(temperature, unit)
  }

  /** Exactly one band applies to each reading, and it is the one the
      if-chain picks: the bands are exhaustive and mutually exclusive. */
  lemma ClassifyExact(t: real, b: Band)
    ensures Classify(t) == b <==> InBand(t, b)
  {
  }

  /** A warmer reading never gets a colder sentence. */
  lemma ClassifyMonotone(t1: real, t2: real)
    requires t1 <= t2
    ensures Rank(Classify(t1)) <= Rank(Classify(t2))
  {
  }

  /** For unit "C" the message is the advice sentence of the reading's band. */
  lemma CelsiusMessageBand(t: real)
    ensures TemperatureMessageFor(t, "C") == Advice(Classify(t), t)
    ensures InBand(t, TemperatureMessageFor(t, "C").band)
  {
    ClassifyExact(t, Classify(t));
  }

  const SunnyText: string := "Sunny and bright. Wear sunglasses and sunscreen!"
  const RainText: string := "Rainy day. Don't forget your umbrella and a waterproof jacket."

  /** What getWeatherMessage produces: one of the two advisories, or the
      provider's description passed through unchanged. */
  datatype ConditionMessage = SunnyAdvice | RainAdvice | Verbatim(description: string)

  /** getWeatherMessage: the lower-cased description is matched against
      "sunny" and "rain"; anything else is shown as it came. */
  function WeatherMessage(description: string): (m: ConditionMessage)
    ensures m == SunnyAdvice <==> Lower(description) == "sunny"
    ensures m == RainAdvice <==> Lower(description) == "rain"
    ensures m.Verbatim? ==> m.description == description
  {
    var key := Lower(description);
    if key == "sunny" then SunnyAdvice
    else if key == "rain" then RainAdvice
    else Verbatim(description)
  }

  /** The sentence the widget shows for a condition message. */
  function MessageText(m: ConditionMessage): string {
    match m
    case SunnyAdvice => SunnyText
    case RainAdvice => RainText
    case Verbatim(d) => d
  }

  /** The glyph getAnimation shows under the summary. */
  datatype Icon = SunIcon | UmbrellaIcon | NoIcon

  /** getAnimation: the same case-insensitive match as WeatherMessage,
      yielding a glyph or none. */
  function Animation(description: string): (i: Icon)
    ensures i == SunIcon <==> Lower(description) == "sunny"
    ensures i == UmbrellaIcon <==> Lower(description) == "rain"
  {
    var key := Lower(description);
    if key == "sunny" then SunIcon
    else if key == "rain" then UmbrellaIcon
    else NoIcon
  }

  /** The icon and the advisory always agree: the sun glyph exactly with
      the sunny advisory, the umbrella exactly with the rain advisory, and
      no glyph exactly when the description is passed through. */
  lemma AnimationMatchesMessage(description: string)
    ensures Animation(description) == SunIcon <==> WeatherMessage(description) == SunnyAdvice
    ensures Animation(description) == UmbrellaIcon <==> WeatherMessage(description) == RainAdvice
    ensures Animation(description) == NoIcon <==> WeatherMessage(description).Verbatim?
  {
  }

  /** Both selectors look only at the lower-cased description: two
      descriptions that fold alike get the same icon and the same kind of
      message, and the same advisory whenever one applies. */
  lemma SelectorsIgnoreCase(d1: string, d2: string)
    requires Lower(d1) == Lower(d2)
    ensures Animation(d1) == Animation(d2)
    ensures WeatherMessage(d1).Verbatim? == WeatherMessage(d2).Verbatim?
    ensures !WeatherMessage(d1).Verbatim? ==> WeatherMessage(d1) == WeatherMessage(d2)
  {
  }

  /** "Rain" in any mix of cases gets the umbrella advisory and glyph. */
  lemma RainInAnyCase(d: string)
    requires |d| == 4
    requires d[0] in "rR" && d[1] in "aA" && d[2] in "iI" && d[3] in "nN"
    ensures WeatherMessage(d) == RainAdvice && Animation(d) == UmbrellaIcon
  {
    LowerMatchesLiteral(d, "rain");
  }

  /** "Sunny" in any mix of cases gets the sunny advisory and glyph. */
  lemma SunnyInAnyCase(d: string)
    requires |d| == 5
    requires d[0] in "sS" && d[1] in "uU" && d[2] in "nN" && d[3] in "nN" && d[4] in "yY"
    ensures WeatherMessage(d) == SunnyAdvice && Animation(d) == SunIcon
  {
    LowerMatchesLiteral(d, "sunny");
  }

  /** At the level of the shown sentence the match is not an "iff": a
      description that already reads like the advisory passes through
      verbatim and shows the same sentence. */
  lemma ShownSunnyText(description: string)
    ensures MessageText(WeatherMessage(description)) == SunnyText
            <==> Lower(description) == "sunny" || description == SunnyText
  {
    if description == SunnyText {
      assert |Lower(description)| == |SunnyText|;
    }
  }

  lemma ShownRainText(description: string)
    ensures MessageText(WeatherMessage(description)) == RainText
            <==> Lower(description) == "rain" || description == RainText
  {
    if description == RainText {
      assert |Lower(description)| == |RainText|;
    }
  }
}
