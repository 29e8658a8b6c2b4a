/**
 * The PM2.5 health label that `renderLivability` in static/js/map.js shows beside
 * the live AQI: the sentinel "N/A" gives "Unknown", a number is classified by the
 * ascending, inclusive breakpoints 12, 35.4, 55.4 and 150.4.
 */
module AirQuality {
  import opened Payloads

  datatype Health = Unknown | Good | Moderate | SensitiveGroups | Unhealthy | Hazardous

  /** The label text the page shows. */
  function HealthText(h: Health): string
  {
    match h
    case Unknown => "Unknown"
    case Good => "Good air quality"
    case Moderate => "Moderate air quality"
    case SensitiveGroups => "Unhealthy for sensitive groups"
    case Unhealthy => "Unhealthy"
    case Hazardous => "Very unhealthy or hazardous"
  }

  /** Severity of a classified label, from 1 (good) to 5 (hazardous); "Unknown" has none. */
  function Severity(h: Health): nat
  {
    match h
    case Unknown => 0
    case Good => 1
    case Moderate => 2
    case SensitiveGroups => 3
    case Unhealthy => 4
    case Hazardous => 5
  }

  const GoodMax: real := 12.0
  const ModerateMax: real := 35.4
  const SensitiveMax: real := 55.4
  const UnhealthyMax: real := 150.4

  function Pm25Health(p: Pm25): (h: Health)
    ensures h == Unknown <==> p.NotAvailable?
    ensures p.Reading? ==> (h == Good <==> p.value <= GoodMax)
    ensures p.Reading? ==> (h == Moderate <==> GoodMax < p.value <= ModerateMax)
    ensures p.Reading? ==> (h == SensitiveGroups <==> ModerateMax < p.value <= SensitiveMax)
    ensures p.Reading? ==> (h == Unhealthy <==> SensitiveMax < p.value <= UnhealthyMax)
    ensures p.Reading? ==> (h == Hazardous <==> UnhealthyMax < p.value)
  {
    match p
    case NotAvailable => Unknown
    case Reading(v) =>
      if v <= GoodMax then Good
      else if v <= ModerateMax then Moderate
      else if v <= SensitiveMax then SensitiveGroups
      else if v <= UnhealthyMax then Unhealthy
      else Hazardous
  }

  /** A reading always gets one of the five classified labels, each with its own text. */
  lemma ReadingIsClassified(v: real)
    ensures 1 <= Severity(Pm25Health(Reading(v))) <= 5
    ensures HealthText(Pm25Health(Reading(v))) != "Unknown"
  {
  }

  /** A larger reading never gets a less severe label. */
  lemma HealthMonotone(v: real, w: real)
    requires v <= w
    ensures Severity(Pm25Health(Reading(v))) <= Severity(Pm25Health(Reading(w)))
  {
  }
}
