/**
 * PlaceCoordinates (backend/geocoordinates/models.py): one cached geocode
 * per address, with a 30-day freshness window. Time is in whole seconds.
 */
module GeoModels {

  /** A coordinate pair, kept as the decimal text the provider sent. */
  datatype LatLon = LatLon(lat: string, lon: string)

  datatype PlaceCoordinates = PlaceCoordinates(address: string, lat: string, lon: string, updatedAt: int)

  const ThirtyDays: int := 30 * 24 * 60 * 60

  /** `now - updated_at > timedelta(days=30)`: strictly older than 30 days. */
  predicate IsExpired(place: PlaceCoordinates, now: int)
  {
    now - place.updatedAt > ThirtyDays
  }

  function CoordinatesOf(place: PlaceCoordinates): LatLon
  {
    LatLon(place.lat, place.lon)
  }

  /** A row as saved at time `now`: `updated_at` has auto_now, so every save stamps it. */
  function Saved(address: string, c: LatLon, now: int): (place: PlaceCoordinates)
    ensures place.address == address && CoordinatesOf(place) == c
    ensures !IsExpired(place, now)
  {
    PlaceCoordinates(address, c.lat, c.lon, now)
  }

  /** The table: at most one row per address (`unique=True`), and the key is the row's address. */
  ghost predicate UniqueAddresses(rows: map<string, PlaceCoordinates>)
  {
    forall a :: a in rows ==> rows[a].address == a
  }

  /** Exactly 30 days old is still fresh; one second more is expired. */
  lemma ExpiryBoundary(place: PlaceCoordinates)
    ensures !IsExpired(place, place.updatedAt + ThirtyDays - 1)
    ensures !IsExpired(place, place.updatedAt + ThirtyDays)
    ensures IsExpired(place, place.updatedAt + ThirtyDays + 1)
  {
  }

  /** Once expired, a row stays expired as time goes on (until it is saved again). */
  lemma ExpiryMonotone(place: PlaceCoordinates, now: int, later: int)
    requires now <= later
    requires IsExpired(place, now)
    ensures IsExpired(place, later)
  {
  }
}
