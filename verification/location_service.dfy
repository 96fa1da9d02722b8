/**
 The location search: both providers' candidates in provider order, a
 provider that failed contributing none, and two synthesised candidates
 when nothing was found at all. A provider call (request plus decoding) is
 an input `Outcome`.
 */
module LocationService {
  import opened JavaLang
  import opened Models

  /** `createLocation`: a candidate with every field set. */
  function CreateLocation(id: string, name: string, country: string, lat: real, lon: real, source: string): (c: Candidate)
    ensures c.id == Some(id) && c.name == name && c.country == country && c.source == source
    ensures c.lat == Some(lat) && c.lon == Some(lon)
  {
    Candidate(Some(id), name, country, Some(lat), Some(lon), source)
  }

  /** `createFallbackLocations`: the two candidates offered for any query
      when the providers found nothing. */
  function FallbackLocations(query: string): (r: seq<Candidate>)
    ensures |r| == 2
    ensures r[0].id == Some("1") && r[1].id == Some("2")
    ensures r[0].country == "US" && r[1].country == "UK"
    ensures r[0].lat == Some(40.7128) && r[0].lon == Some(-74.0060)
    ensures r[1].lat == Some(51.5074) && r[1].lon == Some(-0.1278)
    ensures forall i :: 0 <= i < |r| ==> r[i].name == query && r[i].source == FallbackLabel
  {
    [CreateLocation("1", query, "US", 40.7128, -74.0060, FallbackLabel),
     CreateLocation("2", query, "UK", 51.5074, -0.1278, FallbackLabel)]
  }

  /** One search result as a provider's loop builds it: no id, the
      provider's label as source. */
  function ToCandidate(hit: GeoHit, source: string): Candidate {
    Candidate(None, hit.name, hit.country, Some(hit.lat), Some(hit.lon), source)
  }

  /** The candidates a provider's loop builds from its decoded answer, in
      its order. */
  function CandidatesOf(hits: seq<GeoHit>, source: string): (r: seq<Candidate>)
    ensures |r| == |hits|
    ensures forall i :: 0 <= i < |r| ==>
              && r[i].id.None?
              && r[i].source == source
              && r[i].name == hits[i].name
              && r[i].country == hits[i].country
              && r[i].lat == Some(hits[i].lat)
              && r[i].lon == Some(hits[i].lon)
  {
    if |hits| == 0 then [] else [ToCandidate(hits[0], source)] + CandidatesOf(hits[1..], source)
  }

  /** What one provider adds to the merged list: nothing when its call
      threw. */
  function Contribution(fetched: Outcome<seq<GeoHit>>, source: string): seq<Candidate> {
    match fetched
    case Returned(hits) => CandidatesOf(hits, source)
    case Threw(_) => []
  }

  /** A provider that failed or found nothing. */
  predicate FoundNothing(fetched: Outcome<seq<GeoHit>>) {
    fetched.Threw? || |fetched.value| == 0
  }

  /** `searchLocations`: the first provider's candidates, then the
      second's; the fallback pair only when both lists are empty; and a
      count that is the list's length. */
  function SearchLocations(query: string, openWeather: Outcome<seq<GeoHit>>,
                           weatherApi: Outcome<seq<GeoHit>>): (r: LocationData)
    ensures r.count == |r.locations|
    ensures |r.locations| > 0
    ensures var merged := Contribution(openWeather, OpenWeatherMapLabel) + Contribution(weatherApi, WeatherApiLabel);
            && (|merged| > 0 ==> r.locations == merged)
            && (|merged| == 0 ==> r.locations == FallbackLocations(query))
  {
    var merged := Contribution(openWeather, OpenWeatherMapLabel) + Contribution(weatherApi, WeatherApiLabel);
    var locations := if |merged| == 0 then FallbackLocations(query) else merged;
    LocationData(locations, |locations|)
  }

  /** The fallback candidates appear exactly when neither provider found
      anything; otherwise every candidate is a provider's, without an id. */
  lemma FallbackIffNothingFound(query: string, openWeather: Outcome<seq<GeoHit>>, weatherApi: Outcome<seq<GeoHit>>)
    ensures var r := SearchLocations(query, openWeather, weatherApi).locations;
            && ((exists i :: 0 <= i < |r| && r[i].source == FallbackLabel)
                <==> FoundNothing(openWeather) && FoundNothing(weatherApi))
            && (!(FoundNothing(openWeather) && FoundNothing(weatherApi)) ==>
                  forall i :: 0 <= i < |r| ==>
                    r[i].id.None? && (r[i].source == OpenWeatherMapLabel || r[i].source == WeatherApiLabel))
  {
  }

  /** A provider that failed takes nothing away from the other: its
      candidates are the whole list, in its order. */
  lemma FailedProviderContributesNothing(query: string, message: string, hits: seq<GeoHit>)
    requires |hits| > 0
    ensures SearchLocations(query, Threw(message), Returned(hits)).locations == CandidatesOf(hits, WeatherApiLabel)
    ensures SearchLocations(query, Returned(hits), Threw(message)).locations == CandidatesOf(hits, OpenWeatherMapLabel)
  {
  }

  /** When both providers answer, the first provider's candidates come
      first, then the second's, each in provider order. */
  lemma ProviderOrder(query: string, first: seq<GeoHit>, second: seq<GeoHit>)
    requires |first| + |second| > 0
    ensures var r := SearchLocations(query, Returned(first), Returned(second)).locations;
            && |r| == |first| + |second|
            && (forall i :: 0 <= i < |first| ==>
                  r[i].name == first[i].name && r[i].source == OpenWeatherMapLabel)
            && (forall i :: 0 <= i < |second| ==>
                  r[|first| + i].name == second[i].name && r[|first| + i].source == WeatherApiLabel)
  {
  }
}
