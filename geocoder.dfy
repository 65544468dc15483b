/**
 * geocoordinates/utils.py: parsing of the provider's answer, the distance
 * guards, and get_coordinates over an injected coordinate cache.
 */
module Geocoder {
  import opened Wrappers
  import opened GeoModels

  /** `str.split(sep)` with an explicit separator: every occurrence splits, empty parts included. */
  function Split(s: string, sep: char): (parts: seq<string>)
    ensures |parts| >= 1
    ensures forall i :: 0 <= i < |parts| ==> sep !in parts[i]
  {
    if s == [] then [""]
    else
      var rest := Split(s[1..], sep);
      if s[0] == sep then [""] + rest
      else [[s[0]] + rest[0]] + rest[1..]
  }

  function Join(parts: seq<string>, sep: char): string
    requires |parts| >= 1
  {
    if |parts| == 1 then parts[0] else parts[0] + [sep] + Join(parts[1..], sep)
  }

  /** Splitting loses nothing: joining the parts back gives the input. */
  lemma {:induction false} JoinSplit(s: string, sep: char)
    ensures Join(Split(s, sep), sep) == s
  {
    if s != [] {
      JoinSplit(s[1..], sep);
      var rest := Split(s[1..], sep);
      if s[0] != sep {
        if |rest| == 1 {
        } else {
          assert rest == [rest[0]] + rest[1..];
          assert ([[s[0]] + rest[0]] + rest[1..])[1..] == rest[1..];
        }
      }
    }
  }

  lemma {:induction false} SplitWithoutSeparator(s: string, sep: char)
    requires sep !in s
    ensures Split(s, sep) == [s]
  {
    if s != [] {
      SplitWithoutSeparator(s[1..], sep);
      assert s == [s[0]] + s[1..];
    }
  }

  lemma {:induction false} SplitAtFirstSeparator(a: string, b: string, sep: char)
    requires sep !in a
    ensures Split(a + [sep] + b, sep) == [a] + Split(b, sep)
  {
    var s := a + [sep] + b;
    if a == [] {
      assert s == [sep] + b;
      assert s[1..] == b;
    } else {
      SplitAtFirstSeparator(a[1..], b, sep);
      assert s[1..] == a[1..] + [sep] + b;
      assert a == [a[0]] + a[1..];
    }
  }

  datatype FetchError = RequestException | ValueError

  /**
   * `lon, lat = pos.split(" ")` followed by `return lat, lon`: the position
   * must split into exactly two parts (otherwise unpacking raises
   * ValueError), and the axes are swapped.
   */
  function ParsePos(pos: string): (r: Result<LatLon, FetchError>)
    ensures r.Success? ==> pos == r.value.lon + " " + r.value.lat
    ensures r.Success? ==> ' ' !in r.value.lon && ' ' !in r.value.lat
    ensures r.Failure? ==> r.error == ValueError
  {
    var parts := Split(pos, ' ');
    JoinSplit(pos, ' ');
    if |parts| == 2 then
      assert parts[1..] == [parts[1]];
      Success(LatLon(parts[1], parts[0]))
    else Failure(ValueError)
  }

  /** A "lon lat" position parses to (lat, lon). */
  lemma ParsePosSwapsAxes(lon: string, lat: string)
    requires ' ' !in lon && ' ' !in lat
    ensures ParsePos(lon + " " + lat) == Success(LatLon(lat, lon))
  {
    SplitAtFirstSeparator(lon, lat, ' ');
    SplitWithoutSeparator(lat, ' ');
    assert lon + " " + lat == lon + [' '] + lat;
  }

  lemma ParsePosMoscow()
    ensures ParsePos("37.6173 55.7558") == Success(LatLon("55.7558", "37.6173"))
  {
    var lon, lat := "37.6173", "55.7558";
    assert forall i :: 0 <= i < |lon| ==> lon[i] != ' ';
    assert forall i :: 0 <= i < |lat| ==> lat[i] != ' ';
    ParsePosSwapsAxes(lon, lat);
    assert lon + " " + lat == "37.6173 55.7558";
  }

  /**
   * What the geocoding provider answers: a failed request (network error or
   * an error status, which `raise_for_status` turns into a RequestException),
   * or the `pos` strings of the found places, most relevant first.
   */
  datatype ProviderReply = HttpFailure | Collection(positions: seq<string>)

  /**
   * fetch_coordinates: None for an empty collection, otherwise only the first
   * place is parsed.
   */
  function FetchCoordinates(reply: ProviderReply): (r: Result<Option<LatLon>, FetchError>)
    ensures r == Failure(RequestException) <==> reply.HttpFailure?
    ensures r.Success? && r.value.Some? ==>
              reply.Collection? && |reply.positions| > 0
              && reply.positions[0] == r.value.value.lon + " " + r.value.value.lat
  {
    match reply
    case HttpFailure => Failure(RequestException)
    case Collection(positions) =>
      if |positions| == 0 then Success(None)
      else
        match ParsePos(positions[0])
        case Success(c) => Success(Some(c))
        case Failure(e) => Failure(e)
  }

  /** Only the most relevant place matters; the rest of the collection is ignored. */
  lemma FetchUsesFirstPlace(first: string, rest: seq<string>, lon: string, lat: string)
    requires first == lon + " " + lat && ' ' !in lon && ' ' !in lat
    ensures FetchCoordinates(Collection([first] + rest)) == Success(Some(LatLon(lat, lon)))
  {
    ParsePosSwapsAxes(lon, lat);
  }

  lemma FetchEmptyCollection()
    ensures FetchCoordinates(Collection([])) == Success(None)
  {
  }

  /**
   * calculate_distance: unknown when either side is missing; otherwise the
   * rounded geodesic distance, where `geodesic` returns None for the
   * ValueError and TypeError the source catches.
   */
  function CalculateDistance(a: Option<LatLon>, b: Option<LatLon>, geodesic: (LatLon, LatLon) -> Option<nat>): Option<nat>
  {
    if a.None? || b.None? then None else geodesic(a.value, b.value)
  }

  lemma DistanceNeedsBothSides(a: Option<LatLon>, b: Option<LatLon>, geodesic: (LatLon, LatLon) -> Option<nat>)
    ensures CalculateDistance(a, b, geodesic).Some? ==> a.Some? && b.Some? && geodesic(a.value, b.value).Some?
    ensures a.None? || b.None? ==> CalculateDistance(a, b, geodesic) == None
  {
  }

  lemma DistanceSymmetric(a: Option<LatLon>, b: Option<LatLon>, geodesic: (LatLon, LatLon) -> Option<nat>)
    requires forall x, y :: geodesic(x, y) == geodesic(y, x)
    ensures CalculateDistance(a, b, geodesic) == CalculateDistance(b, a, geodesic)
  {
  }

  /** One call of get_coordinates: what it returns, the table after it, and whether it asked the provider. */
  datatype LookupStep = LookupStep(result: Result<Option<LatLon>, FetchError>, rows: map<string, PlaceCoordinates>, fetched: bool)

  /**
   * get_coordinates: disabled without an API key; a fresh row answers without
   * a request; otherwise fetch, upsert the row for `address` on success, and
   * answer None on no result or a RequestException (the stale row is not
   * used). A ValueError from parsing is not caught.
   */
  function Lookup(rows: map<string, PlaceCoordinates>, address: string, now: int, keyConfigured: bool, reply: ProviderReply): (r: LookupStep)
    ensures r.fetched <==> keyConfigured && (address !in rows || IsExpired(rows[address], now))
    ensures !r.fetched ==> r.rows == rows
    ensures r.result.Failure? ==> r.result.error == ValueError && r.rows == rows
    ensures r.rows.Keys <= rows.Keys + {address}
    ensures forall a :: a in rows && a != address ==> a in r.rows && r.rows[a] == rows[a]
  {
    if !keyConfigured then LookupStep(Success(None), rows, false)
    else if address in rows && !IsExpired(rows[address], now) then
      LookupStep(Success(Some(CoordinatesOf(rows[address]))), rows, false)
    else
      match FetchCoordinates(reply)
      case Success(Some(c)) => LookupStep(Success(Some(c)), rows[address := Saved(address, c, now)], true)
      case Success(None) => LookupStep(Success(None), rows, true)
      case Failure(RequestException) => LookupStep(Success(None), rows, true)
      case Failure(ValueError) => LookupStep(Failure(ValueError), rows, true)
  }

  /** Without an API key nothing is read or written, even for a cached address. */
  lemma LookupWithoutKey(rows: map<string, PlaceCoordinates>, address: string, now: int, reply: ProviderReply)
    ensures Lookup(rows, address, now, false, reply) == LookupStep(Success(None), rows, false)
  {
  }

  /** A fresh row is answered from the table, whatever the provider would say. */
  lemma LookupFreshHit(rows: map<string, PlaceCoordinates>, address: string, now: int, reply: ProviderReply)
    requires address in rows && !IsExpired(rows[address], now)
    ensures Lookup(rows, address, now, true, reply)
         == LookupStep(Success(Some(CoordinatesOf(rows[address]))), rows, false)
  {
  }

  /** A missing or expired row is fetched; a found place is upserted under `address`, fresh, and returned. */
  lemma LookupRefreshes(rows: map<string, PlaceCoordinates>, address: string, now: int, reply: ProviderReply, c: LatLon)
    requires address !in rows || IsExpired(rows[address], now)
    requires FetchCoordinates(reply) == Success(Some(c))
    ensures var step := Lookup(rows, address, now, true, reply);
      && step.result == Success(Some(c)) && step.fetched
      && step.rows.Keys == rows.Keys + {address}
      && step.rows[address].address == address && CoordinatesOf(step.rows[address]) == c
      && !IsExpired(step.rows[address], now)
      && forall a :: a in rows && a != address ==> step.rows[a] == rows[a]
  {
  }

  /**
   * No place found, or a RequestException: the answer is None and the table
   * is unchanged; an expired row is not returned as a fallback.
   */
  lemma LookupFailsSoft(rows: map<string, PlaceCoordinates>, address: string, now: int, reply: ProviderReply)
    requires address !in rows || IsExpired(rows[address], now)
    requires FetchCoordinates(reply) == Success(None) || FetchCoordinates(reply) == Failure(RequestException)
    ensures Lookup(rows, address, now, true, reply) == LookupStep(Success(None), rows, true)
  {
  }

  /** A provider error (for example status 500) for an unknown address: None, no row written. */
  lemma LookupHttpFailure(rows: map<string, PlaceCoordinates>, address: string, now: int)
    requires address !in rows
    ensures Lookup(rows, address, now, true, HttpFailure) == LookupStep(Success(None), rows, true)
  {
  }

  /** Every lookup keeps one row per address. */
  lemma LookupKeepsAddressesUnique(rows: map<string, PlaceCoordinates>, address: string, now: int, keyConfigured: bool, reply: ProviderReply)
    requires UniqueAddresses(rows)
    ensures UniqueAddresses(Lookup(rows, address, now, keyConfigured, reply).rows)
  {
  }

  /** Two consecutive lookups of an address that resolved agree, and the second asks no one. */
  lemma LookupIdempotent(rows: map<string, PlaceCoordinates>, address: string, now: int, reply: ProviderReply, reply2: ProviderReply)
    requires Lookup(rows, address, now, true, reply).result.Success?
    requires Lookup(rows, address, now, true, reply).result.value.Some?
    ensures var first := Lookup(rows, address, now, true, reply);
      Lookup(first.rows, address, now, true, reply2) == LookupStep(first.result, first.rows, false)
  {
  }

  /**
   * The coordinate cache that get_coordinates reads and upserts
   * (PlaceCoordinates.objects), injected instead of global.
   */
  class CoordinateCache {
    var rows: map<string, PlaceCoordinates>

    ghost predicate Valid()
      reads this
    {
      UniqueAddresses(rows)
    }

    constructor ()
      ensures Valid() && rows == map[]
    {
      rows := map[];
    }

    /**
     * get_coordinates(address) at time `now`; `provider` is the geocoding
     * service, asked only when `fetched` is true.
     */
    method GetCoordinates(address: string, now: int, keyConfigured: bool, provider: string -> ProviderReply)
      returns (coords: Result<Option<LatLon>, FetchError>, fetched: bool)
      requires Valid()
      modifies this
      ensures Valid()
      ensures LookupStep(coords, rows, fetched) == Lookup(old(rows), address, now, keyConfigured, provider(address))
    {
      fetched := false;
      if !keyConfigured {
        return Success(None), fetched;
      }
      if address in rows {
        var place := rows[address];
        if !IsExpired(place, now) {
          return Success(Some(CoordinatesOf(place))), fetched;
        }
      }
      fetched := true;
      var answer := FetchCoordinates(provider(address));
      match answer {
        case Success(Some(c)) =>
          rows := rows[address := Saved(address, c, now)];
          coords := Success(Some(c));
        case Success(None) =>
          coords := Success(None);
        case Failure(RequestException) =>
          coords := Success(None);
        case Failure(ValueError) =>
          coords := Failure(ValueError);
      }
    }
  }
}
