/** The forecast provider as the resolver and dispatcher see it: a service
    that, given the configuration and a saved location, returns a forecast or
    an error. The HTTP fetch and the display of the result are not modelled. */
module Weather {
  import opened Common
  import opened Configuration

  /** The forecast a provider returns; only its city name is kept, since it is only displayed. */
  datatype WeatherData = WeatherData(city: string)

  /** A `WeatherService` whose answers are fixed by `respond`, with a log of the locations asked for. */
  class WeatherService {
    const respond: (ConfigData, Location) -> Result<WeatherData>
    ghost var requests: seq<Location>

    constructor (respond: (ConfigData, Location) -> Result<WeatherData>)
      ensures this.respond == respond && requests == []
    {
      this.respond := respond;
      requests := [];
    }

    /** `GetWeatherForecast(cfg, location)`. */
    method GetWeatherForecast(cfg: Config, loc: Location) returns (r: Result<WeatherData>)
      modifies this`requests
      ensures r == respond(cfg.Value(), loc)
      ensures requests == old(requests) + [loc]
    {
      r := respond(cfg.Value(), loc);
      requests := requests + [loc];
    }
  }
}
