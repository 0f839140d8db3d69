/** The daily records returned by the weather provider, and the errors the API raises. */
module Observations {
  import opened Wrappers

  /** A reading (degrees Celsius, millimetres or micrograms per cubic metre). The service
      only copies readings around, so no arithmetic on them is modelled. */
  type Reading = real

  /** The provider's `datetime` field. It is an ISO calendar date "YYYY-MM-DD"; for strings
      of that form lexicographic order is calendar order, so a day number stands for it. */
  type Date = int

  /** One element of the provider's `days` list. The four weather fields are always present;
      either pollutant field may be missing. */
  datatype Day = Day(
    datetime: Date,
    temp: Reading,
    tempmin: Reading,
    tempmax: Reading,
    precip: Reading,
    pm2p5: Option<Reading>,
    pm10: Option<Reading>)

  /** The two pollutants the service predicts. */
  datatype Pollutant = PM2p5 | PM10 {
    /** The JSON key of the pollutant, which is also the accepted `pm_type` query value. */
    function Key(): string {
      match this
      case PM2p5 => "pm2p5"
      case PM10 => "pm10"
    }
  }

  /** `entry[pollutant]` when `pollutant in entry`, and None otherwise. */
  function Get(d: Day, p: Pollutant): Option<Reading> {
    match p
    case PM2p5 => d.pm2p5
    case PM10 => d.pm10
  }

  /** `pollutant in entry`. */
  predicate Has(d: Day, p: Pollutant) {
    Get(d, p).Some?
  }

  /** The four weather readings of a day, in the order the feature builder appends them. */
  function Weather(d: Day): seq<Reading> {
    [d.temp, d.tempmin, d.tempmax, d.precip]
  }

  /** What a request can fail with: an HTTPException carrying a status code, or an
      uncaught IndexError (which the web framework turns into status 500). */
  datatype Failure = Http(status: nat) | IndexError
}
