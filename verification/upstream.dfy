/**
 * The two Open-Meteo requests of `get_surf_forecast`: the marine API for the
 * waves and the forecast API for the wind, both for the beach's coordinates
 * (as Python prints them) and with the provider's local time zone.
 */
module Upstream {
  import opened Query

  const MarineEndpoint: string := "https://marine-api.open-meteo.com/v1/marine"
  const WindEndpoint: string := "https://api.open-meteo.com/v1/forecast"
  const MarineFields: string := "wave_height,wave_direction,wave_period"
  const WindFields: string := "wind_speed_10m,wind_direction_10m"

  /** latitude, longitude, the `current` field list and `timezone=auto`, in that order. */
  function Params(lat: string, long: string, fields: string): seq<Param>
  {
    [Param("latitude", lat), Param("longitude", long), Param("current", fields), Param("timezone", "auto")]
  }

  /** `url_olas`. */
  function MarineUrl(lat: string, long: string): string
  {
    BuildUrl(MarineEndpoint, Params(lat, long, MarineFields))
  }

  /** `url_viento`. */
  function WindUrl(lat: string, long: string): string
  {
    BuildUrl(WindEndpoint, Params(lat, long, WindFields))
  }

  lemma RenderFour(a: Param, b: Param, c: Param, d: Param)
    ensures RenderParams([a, b, c, d])
         == RenderParam(a) + "&" + RenderParam(b) + "&" + RenderParam(c) + "&" + RenderParam(d)
  {
    var ra, rb, rc, rd := RenderParam(a), RenderParam(b), RenderParam(c), RenderParam(d);
    assert [a, b, c, d][1..] == [b, c, d] && [b, c, d][1..] == [c, d] && [c, d][1..] == [d];
    assert RenderParams([c, d]) == rc + "&" + rd;
    assert RenderParams([b, c, d]) == rb + "&" + (rc + "&" + rd);
    assert rb + "&" + (rc + "&" + rd) == rb + "&" + rc + "&" + rd;
    assert RenderParams([a, b, c, d]) == ra + "&" + (rb + "&" + rc + "&" + rd);
  }

  lemma UrlAsWritten(endpoint: string, lat: string, long: string, fields: string)
    ensures BuildUrl(endpoint, Params(lat, long, fields))
         == endpoint + "?" + "latitude" + "=" + lat + "&" + "longitude" + "=" + long
          + "&" + "current" + "=" + fields + "&" + "timezone" + "=" + "auto"
  {
    RenderFour(Param("latitude", lat), Param("longitude", long), Param("current", fields), Param("timezone", "auto"));
  }

  /** The two URLs are exactly the concatenations written in the handler. */
  lemma UrlsAsWritten(lat: string, long: string)
    ensures MarineUrl(lat, long)
         == MarineEndpoint + "?" + "latitude" + "=" + lat + "&" + "longitude" + "=" + long
          + "&" + "current" + "=" + MarineFields + "&" + "timezone" + "=" + "auto"
    ensures WindUrl(lat, long)
         == WindEndpoint + "?" + "latitude" + "=" + lat + "&" + "longitude" + "=" + long
          + "&" + "current" + "=" + WindFields + "&" + "timezone" + "=" + "auto"
  {
    UrlAsWritten(MarineEndpoint, lat, long, MarineFields);
    UrlAsWritten(WindEndpoint, lat, long, WindFields);
  }

  lemma MarineConstantsPlain()
    ensures '?' !in MarineEndpoint && '&' !in MarineFields
  {
  }

  lemma WindConstantsPlain()
    ensures '?' !in WindEndpoint && '&' !in WindFields
  {
  }

  lemma KeysPlain()
    ensures forall k :: k in ["latitude", "longitude", "current", "timezone"] ==> '&' !in k && '=' !in k
    ensures '&' !in "auto"
  {
  }

  /**
   * Read back, both requests carry the same latitude and longitude, their fixed
   * field list and `timezone=auto`, each to its own endpoint.
   */
  lemma UrlsReadBack(lat: string, long: string)
    requires '&' !in lat && '&' !in long
    ensures ParseUrl(MarineUrl(lat, long)) == (MarineEndpoint, Params(lat, long, MarineFields))
    ensures ParseUrl(WindUrl(lat, long)) == (WindEndpoint, Params(lat, long, WindFields))
  {
    MarineConstantsPlain();
    WindConstantsPlain();
    KeysPlain();
    assert Plain(Params(lat, long, MarineFields));
    assert Plain(Params(lat, long, WindFields));
    ParseBuildUrl(MarineEndpoint, Params(lat, long, MarineFields));
    ParseBuildUrl(WindEndpoint, Params(lat, long, WindFields));
  }
}
