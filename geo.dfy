/** A point on the map, as the device and the geocoder report it. */
module Geo {
  datatype Coordinates = Coordinates(latitude: real, longitude: real)
}
