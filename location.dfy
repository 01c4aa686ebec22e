/** A map point: a latitude/longitude pair or a free-text address (Location.php). */
module Locations {
  import opened Php

  /** A PHP float after the (float) cast in the setters, carried by the text PHP's
      float-to-string conversion gives it. The cast and the conversion are not modelled. */
  datatype Float = Float(text: string)

  class Location {
    var address: Option<string>
    var latitude: Option<Float>
    var longitude: Option<Float>

    /** new Location($params): applies, in the order address, latitude, longitude, the setter of
        each key that is present (isset: given and not null). */
    constructor (address: Option<string>, latitude: Option<Float>, longitude: Option<Float>)
      ensures this.address == address && this.latitude == latitude && this.longitude == longitude
    {
      this.address := None;
      this.latitude := None;
      this.longitude := None;
      new;
      if address.Some? {
        SetAddress(address.value);
      }
      if latitude.Some? {
        SetLatitude(latitude.value);
      }
      if longitude.Some? {
        SetLongitude(longitude.value);
      }
    }

    method SetAddress(address: string)
      modifies this`address
      ensures this.address == Some(address)
    {
      this.address := Some(address);
    }

    method SetLatitude(latitude: Float)
      modifies this`latitude
      ensures this.latitude == Some(latitude)
    {
      this.latitude := Some(latitude);
    }

    method SetLongitude(longitude: Float)
      modifies this`longitude
      ensures this.longitude == Some(longitude)
    {
      this.longitude := Some(longitude);
    }

    /** "lat,lng" when both coordinates are set, null otherwise; never PHP-empty when present. */
    function BuildPoint(): (r: Option<string>)
      reads this
      ensures r.Some? <==> latitude.Some? && longitude.Some?
      ensures r.Some? ==> !IsEmpty(r.value) && latitude.value.text <= r.value
      ensures r.Some? ==> r.value == latitude.value.text + "," + longitude.value.text
    {
      if latitude.None? || longitude.None? then None
      else
        var p := latitude.value.text + "," + longitude.value.text;
        assert p[|latitude.value.text|] == ',';
        Some(p)
    }

    /** The address, unless it is PHP-empty ("", "0" or unset). */
    function BuildAddress(): (r: Option<string>)
      reads this
      ensures r.Some? <==> !IsEmptyOpt(address)
      ensures r.Some? ==> r == address
    {
      if IsEmptyOpt(address) then None else address
    }

    /** The location's URL fragment (not URL-encoded): the coordinates win over the address,
        the address is the fallback, and "" is what is left when neither is usable. */
    function Build(): (r: string)
      reads this
      ensures latitude.Some? && longitude.Some? ==>
                r == latitude.value.text + "," + longitude.value.text
      ensures latitude.None? || longitude.None? ==>
                r == (if IsEmptyOpt(address) then "" else address.value)
      ensures r == "" <==> (latitude.None? || longitude.None?) && IsEmptyOpt(address)
    {
      var point := BuildPoint();
      if !IsEmptyOpt(point) then point.value
      else
        var address := BuildAddress();
        if !IsEmptyOpt(address) then address.value else ""
    }
  }
}
