/**
 * The handler `get_surf_forecast` of main.py for `GET /surf/{playa}`. The two
 * `requests.get(url).json()` calls are the parameter `fetch`, a function from
 * URL to parsed body, and Python's printing of a float in an f-string is the
 * parameter `show`. The response records which URLs were requested.
 */
module Forecast {
  import opened Wrappers
  import opened Registry
  import Ascii
  import Direction
  import Query
  import Upstream

  /** A JSON scalar as the providers send it in `current`. */
  datatype Value = Null | Num(x: real) | Text(s: string)

  /** An upstream body; only its optional `current` object is read. */
  datatype Body = Body(current: Option<map<string, Value>>)

  datatype Olas = Olas(alturaMetros: Value, direccionGrados: Value, direccionTexto: string, periodoSegundos: Value)
  datatype Viento = Viento(velocidadKmh: Value, direccionGrados: Value, direccionTexto: string)
  datatype Prevision = Prevision(olas: Olas, viento: Viento, momentoLectura: Value)

  /** The returned dictionary. */
  datatype Forecast = Forecast(playa: string, latitud: real, longitud: real, previsionActual: Prevision)

  /**
   * Ok is the 200 body; NotFound the HTTPException with status 404; Uncaught the
   * TypeError Python raises when a direction is a string (`str + float`).
   */
  datatype Outcome = Ok(forecast: Forecast) | NotFound(detail: string) | Uncaught

  /** The outcome and the URLs requested on the way, in order. */
  datatype Response = Response(requested: seq<string>, outcome: Outcome)

  const NotFoundDetail: string := "Playa no encontrada"

  /** `d.get(key)`: None (JSON null) when the key is missing. */
  function Get(d: map<string, Value>, key: string): Value
  {
    if key in d then d[key] else Null
  }

  /** `response.get("current", {})`. */
  function Current(b: Body): map<string, Value>
  {
    b.current.GetOr(map[])
  }

  /** A JSON value as the mapper's optional bearing; a string is no bearing. */
  function Bearing(v: Value): Option<real>
  {
    if v.Num? then Some(v.x) else None
  }

  /** `transformar_grados_a_direccion(v)`; None where Python raises a TypeError. */
  function DirectionText(v: Value): Option<string>
  {
    match v
    case Null => Some(Direction.ToCardinal(None))
    case Num(x) => Some(Direction.ToCardinal(Some(x)))
    case Text(_) => None
  }

  /** The part after the two requests: read both `current` objects and build the result. */
  function Assemble(coords: Beach, respuestaOlas: Body, respuestaViento: Body): (r: Outcome)
    ensures !r.NotFound?
    ensures r.Uncaught? <==>
      Get(Current(respuestaOlas), "wave_direction").Text? || Get(Current(respuestaViento), "wind_direction_10m").Text?
    ensures r.Ok? ==>
      && r.forecast.playa == coords.nombre
      && r.forecast.latitud == coords.lat
      && r.forecast.longitud == coords.long
    ensures r.Ok? ==> var p := r.forecast.previsionActual;
      && p.olas.direccionTexto == Direction.ToCardinal(Bearing(p.olas.direccionGrados))
      && p.viento.direccionTexto == Direction.ToCardinal(Bearing(p.viento.direccionGrados))
    ensures r.Ok? ==> var p := r.forecast.previsionActual; var olas := Current(respuestaOlas);
      && p.olas.alturaMetros == Get(olas, "wave_height")
      && p.olas.direccionGrados == Get(olas, "wave_direction")
      && p.olas.periodoSegundos == Get(olas, "wave_period")
      && p.momentoLectura == Get(olas, "time")
    ensures r.Ok? ==> var p := r.forecast.previsionActual; var viento := Current(respuestaViento);
      && p.viento.velocidadKmh == Get(viento, "wind_speed_10m")
      && p.viento.direccionGrados == Get(viento, "wind_direction_10m")
    ensures r.Ok? && respuestaOlas.current.None? ==>
      r.forecast.previsionActual.olas == Olas(Null, Null, Direction.NotAvailable, Null)
      && r.forecast.previsionActual.momentoLectura == Null
    ensures r.Ok? && respuestaViento.current.None? ==>
      r.forecast.previsionActual.viento == Viento(Null, Null, Direction.NotAvailable)
  {
    var datosOlas := Current(respuestaOlas);
    var datosViento := Current(respuestaViento);
    match (DirectionText(Get(datosOlas, "wave_direction")), DirectionText(Get(datosViento, "wind_direction_10m")))
    case (Some(dirOlasTxt), Some(dirVientoTxt)) =>
      Ok(Forecast(
        coords.nombre, coords.lat, coords.long,
        Prevision(
          Olas(Get(datosOlas, "wave_height"), Get(datosOlas, "wave_direction"), dirOlasTxt, Get(datosOlas, "wave_period")),
          Viento(Get(datosViento, "wind_speed_10m"), Get(datosViento, "wind_direction_10m"), dirVientoTxt),
          Get(datosOlas, "time"))))
    case _ => Uncaught
  }

  /** The handler: lower-case the id, look it up (404 when absent), request both providers, assemble. */
  function GetSurfForecast(playa: string, playas: seq<Entry>, show: real -> string, fetch: string -> Body): (r: Response)
    ensures Lookup(playas, Ascii.Lower(playa)).None? <==> r.outcome.NotFound?
    ensures r.outcome.NotFound? ==> r.outcome.detail == NotFoundDetail && r.requested == []
    ensures Lookup(playas, Ascii.Lower(playa)).Some? ==>
      var coords := Lookup(playas, Ascii.Lower(playa)).value;
      && r.requested == [Upstream.MarineUrl(show(coords.lat), show(coords.long)),
                         Upstream.WindUrl(show(coords.lat), show(coords.long))]
      && r.outcome == Assemble(coords, fetch(r.requested[0]), fetch(r.requested[1]))
  {
    var playaId := Ascii.Lower(playa);
    match Lookup(playas, playaId)
    case None => Response([], NotFound(NotFoundDetail))
    case Some(coords) =>
      var urlOlas := Upstream.MarineUrl(show(coords.lat), show(coords.long));
      var urlViento := Upstream.WindUrl(show(coords.lat), show(coords.long));
      Response([urlOlas, urlViento], Assemble(coords, fetch(urlOlas), fetch(urlViento)))
  }

  /** Ids that differ only in the case of ASCII letters get the same response. */
  lemma CaseInsensitive(a: string, b: string, playas: seq<Entry>, show: real -> string, fetch: string -> Body)
    requires Ascii.EqualIgnoringCase(a, b)
    ensures GetSurfForecast(a, playas, show, fetch) == GetSurfForecast(b, playas, show, fetch)
  {
    Ascii.LowerEqualIff(a, b);
  }

  /**
   * When the lower-cased id is an item of the registry, the response names that
   * item's beach and coordinates, and both requests carry the same coordinates,
   * their provider's field list and `timezone=auto`.
   */
  lemma FoundItem(playa: string, playas: seq<Entry>, show: real -> string, fetch: string -> Body, coords: Beach)
    requires UniqueIds(playas) && Entry(Ascii.Lower(playa), coords) in playas
    requires '&' !in show(coords.lat) && '&' !in show(coords.long)
    ensures var r := GetSurfForecast(playa, playas, show, fetch);
      && |r.requested| == 2
      && Query.ParseUrl(r.requested[0])
         == (Upstream.MarineEndpoint, Upstream.Params(show(coords.lat), show(coords.long), Upstream.MarineFields))
      && Query.ParseUrl(r.requested[1])
         == (Upstream.WindEndpoint, Upstream.Params(show(coords.lat), show(coords.long), Upstream.WindFields))
      && (r.outcome.Ok? ==>
            r.outcome.forecast.playa == coords.nombre
            && r.outcome.forecast.latitud == coords.lat
            && r.outcome.forecast.longitud == coords.long)
  {
    LookupFindsItem(playas, Ascii.Lower(playa), coords);
    Upstream.UrlsReadBack(show(coords.lat), show(coords.long));
  }
}
