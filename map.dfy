/** The static map itself: validated map options, a center, marker sets, and the URL that
    puts them together (Map.php). */
module StaticMaps {
  import opened Php
  import opened UrlEncoding
  import Locations
  import MarkerSets
  import CustomIcons

  /** The template URL up to its '%s': the query string is what follows. */
  const TemplatePrefix: string := "http://maps.googleapis.com/maps/api/staticmap?"

  const ParameterSeparator: char := '&'
  const MarkerSeparator: char := '&'

  /** Zoom levels 0 (the world) to 21 (single buildings). */
  const ZoomLevels: set<int> := set z | 0 <= z <= 21

  /** The default image size, the largest one scale 1 allows. */
  const DefaultSize: seq<int> := [640, 640]

  const Scales: set<int> := {1, 2}

  const Formats: set<string> := {"png", "png8", "png32", "gif", "jpg", "jpg-baseline"}

  const MapTypes: set<string> := {"roadmap", "satellite", "hybrid", "terrain"}

  /** The listed languages ('eu' is listed twice in the source; a set keeps it once). The
      list is written in two halves only to keep membership proofs small. */
  const Languages: set<string> := LanguagesToLt + LanguagesFromLv

  const LanguagesToLt: set<string> :=
    {"eu", "bg", "bn", "ca", "cs", "da", "de", "el", "en", "en-AU", "en-GB",
     "es", "fa", "fi", "fil", "fr", "gl", "gu", "hi", "hr", "hu", "id",
     "it", "iw", "ja", "kn", "ko", "lt"}

  const LanguagesFromLv: set<string> :=
    {"lv", "ml", "mr", "nl", "nn", "no",
     "or", "pl", "pt", "pt-BR", "pt-PT", "rm", "ro", "ru", "sk", "sl", "sr",
     "sv", "tl", "ta", "te", "th", "tr", "uk", "vi", "zh-CN", "zh-TW"}

  /** What the setters let in: a two-entry size and only listed option values. */
  predicate ValidOptions(size: seq<int>, zoom: Option<int>, scale: Option<int>, format: Option<string>,
                         mapType: Option<string>, language: Option<string>)
  {
    && |size| == 2
    && (zoom.Some? ==> zoom.value in ZoomLevels)
    && (scale.Some? ==> scale.value in Scales)
    && (format.Some? ==> format.value in Formats)
    && (mapType.Some? ==> mapType.value in MapTypes)
    && (language.Some? ==> language.value in Languages)
  }

  /** The objects the marker sets' fragments are built from. */
  ghost function MarkersFootprint(ms: seq<MarkerSets.MarkerSet>): (r: set<object>)
    reads ms
    ensures forall i :: 0 <= i < |ms| ==> ms[i].Footprint() <= r
    decreases |ms|
  {
    if ms == [] then {} else ms[0].Footprint() + MarkersFootprint(ms[1..])
  }

  /** One `markers=` entry per marker set, in order, each carrying the set's urlencoded
      fragment; a set whose fragment is "" still gives a bare "markers=". */
  function MarkerEntries(ms: seq<MarkerSets.MarkerSet>): (r: seq<string>)
    reads ms, MarkersFootprint(ms)
    ensures |r| == |ms|
    ensures forall i :: 0 <= i < |ms| ==> r[i] == "markers=" + UrlEncode(ms[i].Build())
    decreases |ms|
  {
    if ms == [] then [] else ["markers=" + UrlEncode(ms[0].Build())] + MarkerEntries(ms[1..])
  }

  /** Each width and height cast to a string. */
  function SizeStrings(size: seq<int>): (r: seq<string>)
    ensures |r| == |size| && forall i :: 0 <= i < |size| ==> r[i] == IntToString(size[i])
  {
    seq(|size|, i requires 0 <= i < |size| => IntToString(size[i]))
  }

  /** A two-entry size is rendered as width 'x' height. */
  lemma SizeJoin(size: seq<int>)
    requires |size| == 2
    ensures Join(SizeStrings(size), 'x') == IntToString(size[0]) + "x" + IntToString(size[1])
  {
    var strings := SizeStrings(size);
    assert strings == [strings[0], strings[1]];
    JoinPair(strings[0], strings[1], 'x');
  }

  /** The (string) cast of a value that may be null: null gives "". */
  function OrEmpty(s: Option<string>): string {
    if s.None? then "" else s.value
  }

  function IntOrEmpty(i: Option<int>): string {
    if i.None? then "" else IntToString(i.value)
  }

  /** One query parameter as `key=value`. */
  datatype Param = Param(key: string, value: string)

  function Render(p: Param): string {
    p.key + "=" + p.value
  }

  function Rendered(ps: seq<Param>): (r: seq<string>)
    ensures |r| == |ps| && forall i :: 0 <= i < |ps| ==> r[i] == Render(ps[i])
  {
    seq(|ps|, i requires 0 <= i < |ps| => Render(ps[i]))
  }

  /** What each marker set contributes to the query: its own `markers` parameter. */
  function MarkerParams(ms: seq<MarkerSets.MarkerSet>): (r: seq<Param>)
    reads ms, MarkersFootprint(ms)
    ensures |r| == |ms|
    ensures forall i :: 0 <= i < |ms| ==> r[i] == Param("markers", UrlEncode(ms[i].Build()))
    decreases |ms|
  {
    if ms == [] then [] else [Param("markers", UrlEncode(ms[0].Build()))] + MarkerParams(ms[1..])
  }

  class Map {
    var center: Locations.Location?
    var zoom: Option<int>
    var size: seq<int>
    var visualRefresh: Option<bool>
    var scale: Option<int>
    var format: Option<string>
    var mapType: Option<string>
    var language: Option<string>
    var region: Option<string>
    var markers: seq<MarkerSets.MarkerSet>
    var sensor: bool

    /** The setters' invariant over this map's fields. */
    predicate Valid()
      reads this
    {
      ValidOptions(size, zoom, scale, format, mapType, language)
    }

    /** Every object the URL is built from. */
    ghost function Footprint(): (r: set<object>)
      reads this, markers
      ensures this in r && MarkersFootprint(markers) <= r
      ensures center != null ==> center in r
    {
      {this} + (if center == null then {} else {center}) + MarkersFootprint(markers)
    }

    /** new Map($params): the state the setters of the keys present (isset: given and not
        null) leave behind, starting from no center, no zoom, size 640x640, no options, no
        marker sets and sensor false. Each setter touches its own field only, so the order in
        which they are applied does not matter. */
    constructor (center: Locations.Location?, zoom: Option<int>, size: Option<seq<int>>,
                 visualRefresh: Value, scale: Option<int>, format: Option<string>,
                 mapType: Option<string>, language: Option<string>, region: Option<string>,
                 marker: MarkerSets.MarkerSet?, sensor: Value)
      ensures Valid()
      ensures this.center == center
      ensures this.zoom == (if zoom.Some? && zoom.value in ZoomLevels then zoom else None)
      ensures this.size == (if size.Some? && |size.value| == 2 then size.value else DefaultSize)
      ensures this.visualRefresh == (if visualRefresh.Null? then None else Some(ToBool(visualRefresh)))
      ensures this.scale == (if scale.Some? && scale.value in Scales then scale else None)
      ensures this.format == (if format.Some? && format.value in Formats then format else None)
      ensures this.mapType == (if mapType.Some? && mapType.value in MapTypes then mapType else None)
      ensures this.language == (if language.Some? && language.value in Languages then language else None)
      ensures this.region == region
      ensures this.markers == (if marker == null then [] else [marker])
      ensures this.sensor == (!sensor.Null? && ToBool(sensor))
    {
      var z := if zoom.Some? && zoom.value in ZoomLevels then zoom else None;
      var sz := if size.Some? && |size.value| == 2 then size.value else DefaultSize;
      var sc := if scale.Some? && scale.value in Scales then scale else None;
      var f := if format.Some? && format.value in Formats then format else None;
      var t := if mapType.Some? && mapType.value in MapTypes then mapType else None;
      var l := if language.Some? && language.value in Languages then language else None;
      assert ValidOptions(sz, z, sc, f, t, l);
      this.center, this.zoom, this.size := center, z, sz;
      this.visualRefresh := if visualRefresh.Null? then None else Some(ToBool(visualRefresh));
      this.scale, this.format, this.mapType, this.language := sc, f, t, l;
      this.region := region;
      this.markers := if marker == null then [] else [marker];
      this.sensor := !sensor.Null? && ToBool(sensor);
    }

    /** Replaces the center. */
    method SetCenter(location: Locations.Location)
      modifies this`center
      ensures center == location
    {
      center := location;
    }

    /** Stores a zoom level 0..21; any other value leaves the zoom as it was. */
    method SetZoom(zoomLevel: int)
      requires Valid()
      modifies this`zoom
      ensures Valid()
      ensures zoom == if zoomLevel in ZoomLevels then Some(zoomLevel) else old(zoom)
    {
      if zoomLevel in ZoomLevels {
        zoom := Some(zoomLevel);
      }
    }

    /** Replaces the size only with a list of exactly two entries. */
    method SetSize(s: seq<int>)
      requires Valid()
      modifies this`size
      ensures Valid()
      ensures size == if |s| == 2 then s else old(size)
    {
      if |s| == 2 {
        size := s;
      }
    }

    /** Stores the argument cast to a boolean. */
    method SetVisualRefresh(flag: Value)
      modifies this`visualRefresh
      ensures visualRefresh == Some(ToBool(flag))
    {
      visualRefresh := Some(ToBool(flag));
    }

    /** Stores scale 1 or 2; any other value leaves the scale as it was. */
    method SetScale(s: int)
      requires Valid()
      modifies this`scale
      ensures Valid()
      ensures scale == if s in Scales then Some(s) else old(scale)
    {
      if s in Scales {
        scale := Some(s);
      }
    }

    /** Stores one of the six image formats; any other value leaves the format as it was. */
    method SetFormat(f: string)
      requires Valid()
      modifies this`format
      ensures Valid()
      ensures format == if f in Formats then Some(f) else old(format)
    {
      if f in Formats {
        format := Some(f);
      }
    }

    /** Stores one of the four map types; any other value leaves the map type as it was. */
    method SetMapType(t: string)
      requires Valid()
      modifies this`mapType
      ensures Valid()
      ensures mapType == if t in MapTypes then Some(t) else old(mapType)
    {
      if t in MapTypes {
        mapType := Some(t);
      }
    }

    /** Stores one of the listed languages; any other value leaves the language as it was. */
    method SetLanguage(l: string)
      requires Valid()
      modifies this`language
      ensures Valid()
      ensures language == if l in Languages then Some(l) else old(language)
    {
      if l in Languages {
        language := Some(l);
      }
    }

    /** Stores any region, unchecked. */
    method SetRegion(r: string)
      modifies this`region
      ensures region == Some(r)
    {
      region := Some(r);
    }

    /** Appends one marker set; nothing already there is removed. */
    method SetMarker(marker: MarkerSets.MarkerSet)
      modifies this`markers
      ensures markers == old(markers) + [marker]
    {
      markers := markers + [marker];
    }

    /** Appends each marker set of `ms` in order. */
    method SetMarkers(ms: seq<MarkerSets.MarkerSet>)
      modifies this`markers
      ensures markers == old(markers) + ms
    {
      var i := 0;
      while i < |ms|
        invariant 0 <= i <= |ms|
        invariant markers == old(markers) + ms[..i]
      {
        SetMarker(ms[i]);
        assert ms[..i + 1] == ms[..i] + [ms[i]];
        i := i + 1;
      }
      assert ms[..|ms|] == ms;
    }

    /** Stores the argument cast to a boolean. */
    method SetSensor(flag: Value)
      modifies this`sensor
      ensures sensor == ToBool(flag)
    {
      sensor := ToBool(flag);
    }

    /** `center=` and the urlencoded location string, or null without a center. A center that
        builds to "" still gives "center=". */
    function BuildCenter(): (r: Option<string>)
      reads this, center
      ensures r.Some? <==> center != null
      ensures r.Some? ==> r.value == "center=" + UrlEncode(center.Build()) && '&' !in r.value
    {
      if center == null then None else Some("center=" + UrlEncode(center.Build()))
    }

    /** `zoom=` and the level, or null without a zoom. */
    function BuildZoom(): (r: Option<string>)
      reads this
      ensures r.Some? <==> zoom.Some?
      ensures r.Some? ==> "zoom=" <= r.value && IsDecimal(r.value[5..]) && ParseInt(r.value[5..]) == zoom.value
    {
      if zoom.None? then None
      else
        var r := "zoom=" + IntToString(zoom.value);
        assert r[5..] == IntToString(zoom.value);
        IntStringRoundTrip(zoom.value);
        Some(r)
    }

    /** `size=` and the entries joined by 'x', or null when the size list is empty. */
    function BuildSize(): (r: Option<string>)
      reads this
      ensures r.Some? <==> size != []
      ensures r.Some? ==> "size=" <= r.value
      ensures |size| == 2 ==> r == Some("size=" + (IntToString(size[0]) + "x" + IntToString(size[1])))
    {
      if size == [] then None
      else if |size| == 2 then
        SizeJoin(size);
        Some("size=" + Join(SizeStrings(size), 'x'))
      else Some("size=" + Join(SizeStrings(size), 'x'))
    }

    /** `visual_refresh=true|false` once set, false included; null only when never set. */
    function BuildVisualRefresh(): (r: Option<string>)
      reads this
      ensures r.None? <==> visualRefresh.None?
      ensures visualRefresh == Some(true) ==> r == Some("visual_refresh=true")
      ensures visualRefresh == Some(false) ==> r == Some("visual_refresh=false")
    {
      if visualRefresh.None? then None
      else if visualRefresh.value then Some("visual_refresh=true")
      else Some("visual_refresh=false")
    }

    /** `scale=` and the scale; never null: an unset scale gives a bare "scale=". */
    function BuildScale(): (r: string)
      reads this
      ensures scale.None? ==> r == "scale="
      ensures scale.Some? ==> "scale=" <= r && IsDecimal(r[6..]) && ParseInt(r[6..]) == scale.value
    {
      var r := "scale=" + IntOrEmpty(scale);
      if scale.None? then r
      else
        assert r[6..] == IntToString(scale.value);
        IntStringRoundTrip(scale.value);
        r
    }

    /** `format=` and the format; a bare "format=" when unset. */
    function BuildFormat(): (r: string)
      reads this
      ensures format.None? ==> r == "format="
      ensures format.Some? ==> "format=" <= r && r[7..] == format.value
    {
      "format=" + OrEmpty(format)
    }

    /** `mapType=` and the map type; a bare "mapType=" when unset. */
    function BuildMapType(): (r: string)
      reads this
      ensures mapType.None? ==> r == "mapType="
      ensures mapType.Some? ==> "mapType=" <= r && r[8..] == mapType.value
    {
      "mapType=" + OrEmpty(mapType)
    }

    /** `language=` and the language; a bare "language=" when unset. */
    function BuildLanguage(): (r: string)
      reads this
      ensures language.None? ==> r == "language="
      ensures language.Some? ==> "language=" <= r && r[9..] == language.value
    {
      "language=" + OrEmpty(language)
    }

    /** `region=` and the region as stored; a bare "region=" when unset. */
    function BuildRegion(): (r: string)
      reads this
      ensures region.None? ==> r == "region="
      ensures region.Some? ==> "region=" <= r && r[7..] == region.value
    {
      "region=" + OrEmpty(region)
    }

    /** The `markers=` entries of all marker sets joined by '&', or null without marker sets. */
    function BuildMarkers(): (r: Option<string>)
      reads this, markers, MarkersFootprint(markers)
      ensures r.None? <==> markers == []
      ensures r.Some? ==> "markers=" <= r.value
      ensures r.Some? ==> r.value == Join(MarkerEntries(markers), MarkerSeparator)
    {
      if markers == [] then None else Some(Join(MarkerEntries(markers), MarkerSeparator))
    }

    /** `sensor=true|false`: the sensor is a boolean from the start, so this is never null. */
    function BuildSensor(): (r: string)
      reads this
      ensures r == (if sensor then "sensor=true" else "sensor=false")
    {
      if sensor then "sensor=true" else "sensor=false"
    }

    /** The location parameters: center, zoom. */
    function LocationEntries(): seq<Option<string>>
      reads this, center
    {
      [BuildCenter(), BuildZoom()]
    }

    /** The map parameters: size, visual_refresh, scale, format, mapType, language, region. */
    function MapEntries(): seq<Option<string>>
      reads this
    {
      [BuildSize(), BuildVisualRefresh(), Some(BuildScale()), Some(BuildFormat()),
       Some(BuildMapType()), Some(BuildLanguage()), Some(BuildRegion())]
    }

    /** The map URL: "" when there are no marker sets and the center or the zoom is missing,
        or when the size list is empty; otherwise the template URL followed by the non-null
        parameters joined by '&', in the fixed order location, map, markers, sensor. */
    function Build(): (r: string)
      reads Footprint()
      ensures r == "" <==> (markers == [] && (center == null || zoom.None?)) || size == []
      ensures r != "" ==> TemplatePrefix <= r
    {
      var markers := BuildMarkers();
      var center := BuildCenter();
      var zoom := BuildZoom();
      if markers.None? && (center.None? || zoom.None?) then ""
      else
        var size := BuildSize();
        if size.None? then ""
        else
          var sensor := BuildSensor();
          var params := FilterTrim(LocationEntries() + MapEntries() + [markers] + [Some(sensor)]);
          TemplatePrefix + Join(params, ParameterSeparator)
    }

    /** The parameters the URL is meant to carry, key by key: center and zoom when set, the
        size, visual_refresh when set, scale, format, mapType, language and region always
        (with an empty value when unset), one `markers` per marker set, and sensor last. */
    function Parameters(): seq<Param>
      reads Footprint()
    {
      LocationParams() + MapParams() + MarkerParams(markers)
      + [Param("sensor", CustomIcons.BoolText(sensor))]
    }

    function LocationParams(): seq<Param>
      reads this, center
    {
      (if center == null then [] else [Param("center", UrlEncode(center.Build()))])
      + (if zoom.None? then [] else [Param("zoom", IntToString(zoom.value))])
    }

    function MapParams(): seq<Param>
      reads this
    {
      (if size == [] then [] else [Param("size", Join(SizeStrings(size), 'x'))])
      + (if visualRefresh.None? then [] else [Param("visual_refresh", CustomIcons.BoolText(visualRefresh.value))])
      + [Param("scale", IntOrEmpty(scale)), Param("format", OrEmpty(format)),
         Param("mapType", OrEmpty(mapType)), Param("language", OrEmpty(language)),
         Param("region", OrEmpty(region))]
    }
  }

  /** No option value the setters let in holds the parameter separator. */
  lemma FormatsWithoutSeparator()
    ensures forall f :: f in Formats ==> ParameterSeparator !in f
  {
  }

  lemma MapTypesWithoutSeparator()
    ensures forall t :: t in MapTypes ==> ParameterSeparator !in t
  {
  }

  lemma LanguagesWithoutSeparator()
    ensures forall l :: l in Languages ==> ParameterSeparator !in l
  {
    EarlyLanguagesWithoutSeparator();
    LateLanguagesWithoutSeparator();
  }

  lemma EarlyLanguagesWithoutSeparator()
    ensures forall l :: l in LanguagesToLt ==> ParameterSeparator !in l
  {
  }

  lemma LateLanguagesWithoutSeparator()
    ensures forall l :: l in LanguagesFromLv ==> ParameterSeparator !in l
  {
  }

  /** Neither the key nor the value holds the parameter separator. */
  predicate NoSeparator(p: Param) {
    ParameterSeparator !in p.key && ParameterSeparator !in p.value
  }

  /** Such a parameter renders without the separator too: '=' is not '&'. */
  lemma RenderWithoutSeparator(p: Param)
    requires NoSeparator(p)
    ensures ParameterSeparator !in Render(p)
  {
    assert Render(p) == p.key + "=" + p.value;
  }

  /** With a region free of '&', no parameter holds a '&' in its key or in its value: the
      urlencoded center and marker fragments, the digits of zoom, size and scale, the listed
      options and the booleans cannot. */
  lemma ParametersWithoutSeparator(m: Map)
    requires m.Valid()
    requires m.region.Some? ==> ParameterSeparator !in m.region.value
    ensures forall i :: 0 <= i < |m.Parameters()| ==> NoSeparator(m.Parameters()[i])
  {
    var a, b, c := m.LocationParams(), m.MapParams(), MarkerParams(m.markers);
    var d := [Param("sensor", CustomIcons.BoolText(m.sensor))];
    LocationParamsWithoutSeparator(m);
    MapParamsWithoutSeparator(m);
    MarkerParamsWithoutSeparator(m.markers);
    SensorParamWithoutSeparator(m.sensor);
    AllWithoutSeparator(a, b, c, d);
    assert m.Parameters() == a + b + c + d;
  }

  lemma SensorParamWithoutSeparator(sensor: bool)
    ensures NoSeparator(Param("sensor", CustomIcons.BoolText(sensor)))
  {
    assert Render(Param("sensor", CustomIcons.BoolText(sensor))) == "sensor=" + CustomIcons.BoolText(sensor);
  }

  lemma AllWithoutSeparator(a: seq<Param>, b: seq<Param>, c: seq<Param>, d: seq<Param>)
    requires forall i :: 0 <= i < |a| ==> NoSeparator(a[i])
    requires forall i :: 0 <= i < |b| ==> NoSeparator(b[i])
    requires forall i :: 0 <= i < |c| ==> NoSeparator(c[i])
    requires forall i :: 0 <= i < |d| ==> NoSeparator(d[i])
    ensures forall i :: 0 <= i < |a + b + c + d| ==> NoSeparator((a + b + c + d)[i])
  {
    var ps := a + b + c + d;
    forall i | 0 <= i < |ps| ensures NoSeparator(ps[i]) {
      if i < |a| {
        assert ps[i] == a[i];
      } else if i < |a| + |b| {
        assert ps[i] == b[i - |a|];
      } else if i < |a| + |b| + |c| {
        assert ps[i] == c[i - |a| - |b|];
      } else {
        assert ps[i] == d[i - |a| - |b| - |c|];
      }
    }
  }

  lemma MarkerParamsWithoutSeparator(ms: seq<MarkerSets.MarkerSet>)
    ensures forall i :: 0 <= i < |MarkerParams(ms)| ==> NoSeparator(MarkerParams(ms)[i])
  {
    var ps := MarkerParams(ms);
    forall i | 0 <= i < |ps| ensures NoSeparator(ps[i]) {
      MarkerParamWithoutSeparator(ms, i);
    }
  }

  lemma MarkerParamWithoutSeparator(ms: seq<MarkerSets.MarkerSet>, i: int)
    requires 0 <= i < |ms|
    ensures NoSeparator(MarkerParams(ms)[i])
  {
    var ps := MarkerParams(ms);
    var e := ms[i].Build();
    MarkersParamWithoutSeparator(ps[i], e);
  }

  lemma MarkersParamWithoutSeparator(p: Param, fragment: string)
    requires p == Param("markers", UrlEncode(fragment))
    ensures NoSeparator(p)
  {
    EncodedParamWithoutSeparator(p, "markers", fragment);
  }

  /** A parameter whose value is urlencoded holds no '&' beyond its key's. */
  lemma EncodedParamWithoutSeparator(p: Param, key: string, value: string)
    requires p == Param(key, UrlEncode(value)) && ParameterSeparator !in key
    ensures NoSeparator(p)
  {
    assert Render(p) == key + "=" + UrlEncode(value);
  }

  lemma LocationParamsWithoutSeparator(m: Map)
    ensures forall i :: 0 <= i < |m.LocationParams()| ==> NoSeparator(m.LocationParams()[i])
  {
    if m.center != null {
      EncodedParamWithoutSeparator(m.LocationParams()[0], "center", m.center.Build());
    }
  }

  lemma MapParamsWithoutSeparator(m: Map)
    requires m.Valid()
    requires m.region.Some? ==> ParameterSeparator !in m.region.value
    ensures forall i :: 0 <= i < |m.MapParams()| ==> NoSeparator(m.MapParams()[i])
  {
    MapValuesWithoutSeparator(m.MapParams(), m.size, m.visualRefresh, m.scale, m.format,
                              m.mapType, m.language, m.region);
  }

  /** The map parameters, given the field values they are made of. */
  lemma MapValuesWithoutSeparator(ps: seq<Param>, size: seq<int>, visualRefresh: Option<bool>,
                                  scale: Option<int>, format: Option<string>,
                                  mapType: Option<string>, language: Option<string>,
                                  region: Option<string>)
    requires ps == (if size == [] then [] else [Param("size", Join(SizeStrings(size), 'x'))])
                   + (if visualRefresh.None? then []
                      else [Param("visual_refresh", CustomIcons.BoolText(visualRefresh.value))])
                   + [Param("scale", IntOrEmpty(scale)), Param("format", OrEmpty(format)),
                      Param("mapType", OrEmpty(mapType)), Param("language", OrEmpty(language)),
                      Param("region", OrEmpty(region))]
    requires format.Some? ==> format.value in Formats
    requires mapType.Some? ==> mapType.value in MapTypes
    requires language.Some? ==> language.value in Languages
    requires region.Some? ==> ParameterSeparator !in region.value
    ensures forall i :: 0 <= i < |ps| ==> NoSeparator(ps[i])
  {
    var sp := if size == [] then [] else [Param("size", Join(SizeStrings(size), 'x'))];
    var vp := if visualRefresh.None? then []
              else [Param("visual_refresh", CustomIcons.BoolText(visualRefresh.value))];
    var rp := [Param("scale", IntOrEmpty(scale)), Param("format", OrEmpty(format)),
               Param("mapType", OrEmpty(mapType)), Param("language", OrEmpty(language)),
               Param("region", OrEmpty(region))];
    if size != [] {
      SizeParamWithoutSeparator(size);
    }
    if visualRefresh.Some? {
      FlagParamWithoutSeparator(vp[0], "visual_refresh", visualRefresh.value);
    }
    OptionParamsWithoutSeparator(rp, scale, format, mapType, language, region);
    ThreeWithoutSeparator(ps, sp, vp, rp);
  }

  lemma FlagParamWithoutSeparator(p: Param, key: string, flag: bool)
    requires p == Param(key, CustomIcons.BoolText(flag)) && ParameterSeparator !in key
    ensures NoSeparator(p)
  {
    assert Render(p) == key + "=" + CustomIcons.BoolText(flag);
  }

  lemma ThreeWithoutSeparator(ps: seq<Param>, a: seq<Param>, b: seq<Param>, c: seq<Param>)
    requires ps == a + b + c
    requires forall i :: 0 <= i < |a| ==> NoSeparator(a[i])
    requires forall i :: 0 <= i < |b| ==> NoSeparator(b[i])
    requires forall i :: 0 <= i < |c| ==> NoSeparator(c[i])
    ensures forall i :: 0 <= i < |ps| ==> NoSeparator(ps[i])
  {
    AllWithoutSeparator(a, b, c, []);
    assert a + b + c + [] == ps;
  }

  lemma SizeParamWithoutSeparator(size: seq<int>)
    requires size != []
    ensures NoSeparator(Param("size", Join(SizeStrings(size), 'x')))
  {
    JoinWithout(SizeStrings(size), 'x', ParameterSeparator);
  }

  lemma OptionParamsWithoutSeparator(rp: seq<Param>, scale: Option<int>, format: Option<string>,
                                     mapType: Option<string>, language: Option<string>,
                                     region: Option<string>)
    requires rp == [Param("scale", IntOrEmpty(scale)), Param("format", OrEmpty(format)),
                    Param("mapType", OrEmpty(mapType)), Param("language", OrEmpty(language)),
                    Param("region", OrEmpty(region))]
    requires format.Some? ==> format.value in Formats
    requires mapType.Some? ==> mapType.value in MapTypes
    requires language.Some? ==> language.value in Languages
    requires region.Some? ==> ParameterSeparator !in region.value
    ensures forall i :: 0 <= i < |rp| ==> NoSeparator(rp[i])
  {
    if format.Some? {
      FormatWithoutSeparator(format.value);
    }
    if mapType.Some? {
      MapTypeWithoutSeparator(mapType.value);
    }
    if language.Some? {
      LanguageWithoutSeparator(language.value);
    }
    ScaleWithoutSeparator(scale);
    FiveWithoutSeparator(rp, IntOrEmpty(scale), OrEmpty(format), OrEmpty(mapType),
                         OrEmpty(language), OrEmpty(region));
  }

  lemma FiveWithoutSeparator(rp: seq<Param>, scale: string, format: string, mapType: string,
                             language: string, region: string)
    requires rp == [Param("scale", scale), Param("format", format), Param("mapType", mapType),
                    Param("language", language), Param("region", region)]
    requires ParameterSeparator !in scale && ParameterSeparator !in format
    requires ParameterSeparator !in mapType && ParameterSeparator !in language
    requires ParameterSeparator !in region
    ensures forall i :: 0 <= i < |rp| ==> NoSeparator(rp[i])
  {
  }

  lemma ScaleWithoutSeparator(scale: Option<int>)
    ensures ParameterSeparator !in IntOrEmpty(scale)
  {
  }

  lemma FormatWithoutSeparator(f: string)
    requires f in Formats
    ensures ParameterSeparator !in f
  {
    FormatsWithoutSeparator();
  }

  lemma MapTypeWithoutSeparator(t: string)
    requires t in MapTypes
    ensures ParameterSeparator !in t
  {
    MapTypesWithoutSeparator();
  }

  lemma LanguageWithoutSeparator(l: string)
    requires l in Languages
    ensures ParameterSeparator !in l
  {
    LanguagesWithoutSeparator();
  }

  lemma RenderedAppend(a: seq<Param>, b: seq<Param>)
    ensures Rendered(a + b) == Rendered(a) + Rendered(b)
  {
    assert forall i :: 0 <= i < |a + b| ==> Rendered(a + b)[i] == (Rendered(a) + Rendered(b))[i] by {
      forall i | 0 <= i < |a + b| ensures Rendered(a + b)[i] == (Rendered(a) + Rendered(b))[i] {
        if i < |a| {
          assert (a + b)[i] == a[i];
        } else {
          assert (a + b)[i] == b[i - |a|];
        }
      }
    }
  }

  /** Each marker set's `markers=` entry is its rendered `markers` parameter. */
  lemma MarkerEntriesRendered(ms: seq<MarkerSets.MarkerSet>)
    ensures MarkerEntries(ms) == Rendered(MarkerParams(ms))
  {
    var ps := MarkerParams(ms);
    var es := MarkerEntries(ms);
    var rs := Rendered(ps);
    forall i | 0 <= i < |ms| ensures es[i] == rs[i] {
      MarkerEntryRendered(es[i], ps[i], ms[i].Build());
    }
  }

  lemma MarkerEntryRendered(entry: string, p: Param, fragment: string)
    requires entry == "markers=" + UrlEncode(fragment) && p == Param("markers", UrlEncode(fragment))
    ensures entry == Render(p)
  {
    assert "markers" + "=" == "markers=";
  }

  /** `key` then '=' then the value. */
  lemma RenderKeyed(key: string, value: string)
    ensures Render(Param(key, value)) == key + "=" + value
  {
  }

  /** The non-null location entries are the rendered location parameters. */
  lemma LocationEntriesRendered(m: Map)
    ensures Present(m.LocationEntries()) == Rendered(m.LocationParams())
  {
    var cv := if m.center == null then None else Some(UrlEncode(m.center.Build()));
    var zv := if m.zoom.None? then None else Some(IntToString(m.zoom.value));
    assert "center" + "=" == "center=" && "zoom" + "=" == "zoom=";
    assert m.LocationEntries() == [Entry("center", cv), Entry("zoom", zv)];
    assert m.LocationParams() == Optional("center", cv) + Optional("zoom", zv);
    OptionalPairRendered("center", cv, "zoom", zv);
  }

  /** The `key=value` entry of a value that may be null. */
  function Entry(key: string, value: Option<string>): Option<string> {
    if value.None? then None else Some(key + "=" + value.value)
  }

  /** The parameter of a value that may be null: none when it is null. */
  function Optional(key: string, value: Option<string>): seq<Param> {
    if value.None? then [] else [Param(key, value.value)]
  }

  lemma OptionalPairRendered(k1: string, v1: Option<string>, k2: string, v2: Option<string>)
    ensures Present([Entry(k1, v1), Entry(k2, v2)]) == Rendered(Optional(k1, v1) + Optional(k2, v2))
  {
    PresentAppend([Entry(k1, v1)], [Entry(k2, v2)]);
    assert [Entry(k1, v1), Entry(k2, v2)] == [Entry(k1, v1)] + [Entry(k2, v2)];
    RenderedAppend(Optional(k1, v1), Optional(k2, v2));
    OptionalRendered(k1, v1);
    OptionalRendered(k2, v2);
  }

  lemma OptionalRendered(key: string, value: Option<string>)
    ensures Present([Entry(key, value)]) == Rendered(Optional(key, value))
  {
    assert [Entry(key, value)][1..] == [];
  }

  /** The non-null map entries are the rendered map parameters. */
  lemma MapEntriesRendered(m: Map)
    ensures Present(m.MapEntries()) == Rendered(m.MapParams())
  {
    var sz, v := m.BuildSize(), m.BuildVisualRefresh();
    var rest := [Some(m.BuildScale()), Some(m.BuildFormat()), Some(m.BuildMapType()),
                 Some(m.BuildLanguage()), Some(m.BuildRegion())];
    assert m.MapEntries() == [sz] + [v] + rest;
    PresentAppend([sz] + [v], rest);
    PresentAppend([sz], [v]);
    var sp := if m.size == [] then [] else [Param("size", Join(SizeStrings(m.size), 'x'))];
    var vp := if m.visualRefresh.None? then [] else [Param("visual_refresh", CustomIcons.BoolText(m.visualRefresh.value))];
    var rp := [Param("scale", IntOrEmpty(m.scale)), Param("format", OrEmpty(m.format)),
               Param("mapType", OrEmpty(m.mapType)), Param("language", OrEmpty(m.language)),
               Param("region", OrEmpty(m.region))];
    assert m.MapParams() == sp + vp + rp;
    RenderedAppend(sp + vp, rp);
    RenderedAppend(sp, vp);
    SizeRendered(m.size);
    VisualRefreshRendered(m.visualRefresh);
    OptionsRendered(m.scale, m.format, m.mapType, m.language, m.region);
  }

  lemma SizeRendered(size: seq<int>)
    ensures var e := if size == [] then None else Some("size=" + Join(SizeStrings(size), 'x'));
            var p := if size == [] then [] else [Param("size", Join(SizeStrings(size), 'x'))];
            Present([e]) == Rendered(p)
  {
    var e := if size == [] then None else Some("size=" + Join(SizeStrings(size), 'x'));
    assert [e][1..] == [];
    assert "size" + "=" == "size=";
  }

  lemma VisualRefreshRendered(flag: Option<bool>)
    ensures var e := if flag.None? then None
                     else if flag.value then Some("visual_refresh=true")
                     else Some("visual_refresh=false");
            var p := if flag.None? then [] else [Param("visual_refresh", CustomIcons.BoolText(flag.value))];
            Present([e]) == Rendered(p)
  {
    var e := if flag.None? then None
             else if flag.value then Some("visual_refresh=true")
             else Some("visual_refresh=false");
    assert [e][1..] == [];
    assert "visual_refresh" + "=" + "true" == "visual_refresh=true";
    assert "visual_refresh" + "=" + "false" == "visual_refresh=false";
  }

  lemma OptionsRendered(scale: Option<int>, format: Option<string>, mapType: Option<string>,
                        language: Option<string>, region: Option<string>)
    ensures Present([Some("scale=" + IntOrEmpty(scale)), Some("format=" + OrEmpty(format)),
                     Some("mapType=" + OrEmpty(mapType)), Some("language=" + OrEmpty(language)),
                     Some("region=" + OrEmpty(region))])
         == Rendered([Param("scale", IntOrEmpty(scale)), Param("format", OrEmpty(format)),
                      Param("mapType", OrEmpty(mapType)), Param("language", OrEmpty(language)),
                      Param("region", OrEmpty(region))])
  {
    var xs := [Some("scale=" + IntOrEmpty(scale)), Some("format=" + OrEmpty(format)),
               Some("mapType=" + OrEmpty(mapType)), Some("language=" + OrEmpty(language)),
               Some("region=" + OrEmpty(region))];
    PresentAllSome(xs);
    assert "scale" + "=" == "scale=" && "format" + "=" == "format=" && "mapType" + "=" == "mapType=";
    assert "language" + "=" == "language=" && "region" + "=" == "region=";
  }

  /** The parameter list `build` filters: location, map, marker and reporting entries. */
  lemma EntriesKeyed(m: Map)
    ensures Keyed(m.LocationEntries() + m.MapEntries() + [m.BuildMarkers()] + [Some(m.BuildSensor())])
  {
    var l, mp, b, s := m.LocationEntries(), m.MapEntries(), [m.BuildMarkers()], [Some(m.BuildSensor())];
    LocationEntriesKeyed(m);
    MapEntriesKeyed(m);
    assert Keyed(b) by {
      var r := m.BuildMarkers();
      assert r.Some? ==> r.value[0] == 'm';
    }
    assert Keyed(s) by {
      assert m.BuildSensor()[0] == 's';
    }
    KeyedAppend(l, mp);
    KeyedAppend(l + mp, b);
    KeyedAppend(l + mp + b, s);
  }

  lemma LocationEntriesKeyed(m: Map)
    ensures Keyed(m.LocationEntries())
  {
    var c, z := m.BuildCenter(), m.BuildZoom();
    assert c.Some? ==> c.value[0] == 'c';
    assert z.Some? ==> z.value[0] == 'z';
  }

  lemma MapEntriesKeyed(m: Map)
    ensures Keyed(m.MapEntries())
  {
    var sz, v := m.BuildSize(), m.BuildVisualRefresh();
    var sc, f, t := m.BuildScale(), m.BuildFormat(), m.BuildMapType();
    var l, r := m.BuildLanguage(), m.BuildRegion();
    assert sz.Some? ==> sz.value[0] == 's';
    assert v.Some? ==> v.value[0] == 'v';
    assert sc[0] == 's' && f[0] == 'f' && t[0] == 'm' && l[0] == 'l' && r[0] == 'r';
    SevenKeyed(sz, v, sc, f, t, l, r);
  }

  lemma SevenKeyed(a: Option<string>, b: Option<string>, c: string, d: string, e: string,
                   f: string, g: string)
    requires a.Some? ==> |a.value| > 0 && IsAsciiLetter(a.value[0])
    requires b.Some? ==> |b.value| > 0 && IsAsciiLetter(b.value[0])
    requires |c| > 0 && IsAsciiLetter(c[0]) && |d| > 0 && IsAsciiLetter(d[0])
    requires |e| > 0 && IsAsciiLetter(e[0]) && |f| > 0 && IsAsciiLetter(f[0])
    requires |g| > 0 && IsAsciiLetter(g[0])
    ensures Keyed([a, b, Some(c), Some(d), Some(e), Some(f), Some(g)])
  {
  }

  /** Putting the groups together: the marker group enters the filtered list as one entry
      already joined by '&', which joins like its entries would one by one. */
  lemma AssembleQuery(l: seq<Option<string>>, e: seq<Option<string>>, b: Option<string>, sensor: string,
                      lp: seq<Param>, ep: seq<Param>, kp: seq<Param>, sp: seq<Param>)
    requires Present(l) == Rendered(lp) && Present(e) == Rendered(ep) && [sensor] == Rendered(sp)
    requires ep != []
    requires (kp == [] && b.None?) || (kp != [] && b == Some(Join(Rendered(kp), ParameterSeparator)))
    ensures Join(Present(l + e + [b] + [Some(sensor)]), ParameterSeparator)
         == Join(Rendered(lp + ep + kp + sp), ParameterSeparator)
  {
    PresentAppend(l + e + [b], [Some(sensor)]);
    PresentAppend(l + e, [b]);
    PresentAppend(l, e);
    RenderedAppend(lp + ep + kp, sp);
    RenderedAppend(lp + ep, kp);
    RenderedAppend(lp, ep);
    assert [Some(sensor)][1..] == [] && [b][1..] == [];
    var head := Rendered(lp) + Rendered(ep);
    if kp == [] {
      assert Present([b]) == [];
      assert Rendered(kp) == [];
      assert Present(l + e + [b] + [Some(sensor)]) == head + [sensor];
      assert Rendered(lp + ep + kp + sp) == head + [sensor];
    } else {
      var joined := Join(Rendered(kp), ParameterSeparator);
      assert Present([b]) == [joined];
      assert Present(l + e + [b] + [Some(sensor)]) == head + [joined] + [sensor];
      assert Rendered(lp + ep + kp + sp) == head + Rendered(kp) + [sensor];
      assert |head| >= |Rendered(ep)| > 0;
      JoinFlatten(head, Rendered(kp), [sensor], ParameterSeparator);
    }
  }

  /** The URL is the template followed by the rendered parameters joined by '&', whenever the
      gate lets a URL through. */
  lemma BuildRendersParameters(m: Map)
    requires m.size != [] && (m.markers != [] || (m.center != null && m.zoom.Some?))
    ensures m.Build() == TemplatePrefix + Join(Rendered(m.Parameters()), ParameterSeparator)
  {
    var l, e, b, s := m.LocationEntries(), m.MapEntries(), m.BuildMarkers(), m.BuildSensor();
    EntriesKeyed(m);
    FilterTrimKeyed(l + e + [b] + [Some(s)]);
    assert m.Build() == TemplatePrefix + Join(FilterTrim(l + e + [b] + [Some(s)]), ParameterSeparator);
    var lp, ep, kp := m.LocationParams(), m.MapParams(), MarkerParams(m.markers);
    var sp := [Param("sensor", CustomIcons.BoolText(m.sensor))];
    LocationEntriesRendered(m);
    MapEntriesRendered(m);
    MarkerEntriesRendered(m.markers);
    SensorRendered(m.sensor);
    assert m.Parameters() == lp + ep + kp + sp;
    AssembleQuery(l, e, b, s, lp, ep, kp, sp);
  }

  lemma SensorRendered(sensor: bool)
    ensures [if sensor then "sensor=true" else "sensor=false"]
         == Rendered([Param("sensor", CustomIcons.BoolText(sensor))])
  {
    assert "sensor" + "=" + "true" == "sensor=true";
    assert "sensor" + "=" + "false" == "sensor=false";
  }

  /** Splitting the query string on '&' gives back every parameter, rendered as `key=value`,
      in the fixed order, each marker set in its own `markers=` entry; this holds whenever the
      gate lets a URL through and the unchecked region holds no '&'. */
  lemma QueryParameters(m: Map)
    requires m.Valid()
    requires m.region.Some? ==> ParameterSeparator !in m.region.value
    requires m.markers != [] || (m.center != null && m.zoom.Some?)
    ensures m.Build() != "" && TemplatePrefix <= m.Build()
    ensures Split(m.Build()[|TemplatePrefix|..], ParameterSeparator) == Rendered(m.Parameters())
  {
    BuildRendersParameters(m);
    ParametersWithoutSeparator(m);
    var ps := m.Parameters();
    var rs := Rendered(ps);
    forall i | 0 <= i < |rs| ensures ParameterSeparator !in rs[i] {
      RenderWithoutSeparator(ps[i]);
    }
    assert |rs| > 0;
    assert m.Build()[|TemplatePrefix|..] == Join(rs, ParameterSeparator);
    SplitJoin(rs, ParameterSeparator);
  }

  /** urldecode of a marker entry's value gives back the bytes of that marker set's fragment. */
  lemma MarkerEntryDecodes(ms: seq<MarkerSets.MarkerSet>, i: int)
    requires 0 <= i < |ms|
    ensures var entry := MarkerEntries(ms)[i];
            "markers=" <= entry && UrlDecode(entry[8..]) == Utf8Bytes(ms[i].Build())
  {
    var fragment := ms[i].Build();
    assert MarkerEntries(ms)[i][8..] == UrlEncode(fragment);
    UrlRoundTrip(fragment);
  }

  /** urldecode of the center entry's value gives back the bytes of the center's location
      string. */
  lemma CenterDecodes(m: Map)
    requires m.center != null
    ensures var entry := m.BuildCenter().value;
            "center=" <= entry && UrlDecode(entry[7..]) == Utf8Bytes(m.center.Build())
  {
    var location := m.center.Build();
    assert m.BuildCenter().value[7..] == UrlEncode(location);
    UrlRoundTrip(location);
  }

  /** A map with only a center and a zoom: the default size, every option emitted with an
      empty value, no visual_refresh, and the default sensor=false last. */
  lemma CenterAndZoomOnly(m: Map)
    requires m.center != null && m.zoom.Some? && m.size == DefaultSize && m.markers == []
    requires m.visualRefresh.None? && m.scale.None? && m.format.None? && m.mapType.None?
    requires m.language.None? && m.region.None? && !m.sensor
    ensures m.Build() == TemplatePrefix + Join(["center=" + UrlEncode(m.center.Build()),
                                                "zoom=" + IntToString(m.zoom.value)]
                                               + DefaultTailParts, ParameterSeparator)
  {
    BuildRendersParameters(m);
    CenterAndZoomOnlyParameters(m);
  }

  lemma CenterAndZoomOnlyParameters(m: Map)
    requires m.center != null && m.zoom.Some? && m.size == DefaultSize && m.markers == []
    requires m.visualRefresh.None? && m.scale.None? && m.format.None? && m.mapType.None?
    requires m.language.None? && m.region.None? && !m.sensor
    ensures Rendered(m.Parameters()) == ["center=" + UrlEncode(m.center.Build()),
                                          "zoom=" + IntToString(m.zoom.value)] + DefaultTailParts
  {
    var lp, ep := m.LocationParams(), m.MapParams();
    var sp := [Param("sensor", CustomIcons.BoolText(m.sensor))];
    assert m.Parameters() == lp + ep + [] + sp;
    RenderedAppend(lp + ep, sp);
    RenderedAppend(lp, ep);
    LocationParamsRendered(m);
    DefaultMapParams(m);
    SensorRendered(false);
    assert DefaultTailParts == DefaultTailParts[..6] + ["sensor=false"];
  }

  /** The parameters after center and zoom when nothing else is set. */
  const DefaultTailParts: seq<string> :=
    ["size=640x640", "scale=", "format=", "mapType=", "language=", "region=", "sensor=false"]

  lemma DefaultMapParams(m: Map)
    requires m.size == DefaultSize && m.visualRefresh.None? && m.scale.None? && m.format.None?
    requires m.mapType.None? && m.language.None? && m.region.None?
    ensures Rendered(m.MapParams()) == DefaultTailParts[..6]
  {
    SizeJoin(m.size);
    DefaultSizeText();
    assert m.MapParams() == [Param("size", "640x640"), Param("scale", ""), Param("format", ""),
                             Param("mapType", ""), Param("language", ""), Param("region", "")];
    DefaultParamsRendered();
  }

  lemma DefaultParamsRendered()
    ensures Rendered([Param("size", "640x640"), Param("scale", ""), Param("format", ""),
                      Param("mapType", ""), Param("language", ""), Param("region", "")])
         == DefaultTailParts[..6]
  {
    assert "size" + "=" + "640x640" == "size=640x640";
    assert "scale" + "=" + "" == "scale=" && "format" + "=" + "" == "format=";
    assert "mapType" + "=" + "" == "mapType=" && "language" + "=" + "" == "language=";
    assert "region" + "=" + "" == "region=";
  }

  lemma DefaultSizeText()
    ensures IntToString(640) + "x" + IntToString(640) == "640x640"
  {
    assert NatToString(6) == "6";
    assert NatToString(64) == "64";
    assert NatToString(640) == "640";
  }

  lemma LocationParamsRendered(m: Map)
    requires m.center != null && m.zoom.Some?
    ensures Rendered(m.LocationParams()) == ["center=" + UrlEncode(m.center.Build()),
                                              "zoom=" + IntToString(m.zoom.value)]
  {
    RenderKeyed("center", UrlEncode(m.center.Build()));
    RenderKeyed("zoom", IntToString(m.zoom.value));
    assert "center" + "=" == "center=" && "zoom" + "=" == "zoom=";
  }

  /** With the setters' invariant the size is never empty, so the only way to get "" is a map
      without marker sets that lacks its center or its zoom. */
  lemma EmptyExactlyWithoutMarkersOrCenterAndZoom(m: Map)
    requires m.Valid()
    ensures m.Build() == "" <==> m.markers == [] && (m.center == null || m.zoom.None?)
  {
  }

  /** The sensor parameter always comes last. */
  lemma SensorLast(m: Map)
    requires m.size != [] && (m.markers != [] || (m.center != null && m.zoom.Some?))
    ensures IsSuffix(if m.sensor then "&sensor=true" else "&sensor=false", m.Build())
  {
    BuildRendersParameters(m);
    ParametersEndWithSensor(m);
    SensorRendered(m.sensor);
    LastJoined(TemplatePrefix, Rendered(m.Parameters()), if m.sensor then "sensor=true" else "sensor=false");
    SensorSuffixText(m.sensor);
  }

  lemma ParametersEndWithSensor(m: Map)
    ensures |m.Parameters()| >= 6
    ensures m.Parameters()[|m.Parameters()| - 1] == Param("sensor", CustomIcons.BoolText(m.sensor))
  {
    var lp, ep, kp := m.LocationParams(), m.MapParams(), MarkerParams(m.markers);
    assert |ep| >= 5;
    assert m.Parameters() == lp + ep + kp + [Param("sensor", CustomIcons.BoolText(m.sensor))];
  }

  lemma LastJoined(prefix: string, parts: seq<string>, last: string)
    requires |parts| >= 2 && parts[|parts| - 1] == last
    ensures IsSuffix([ParameterSeparator] + last, prefix + Join(parts, ParameterSeparator))
  {
    var q := Join(parts, ParameterSeparator);
    var t := [ParameterSeparator] + last;
    JoinEnds(parts, ParameterSeparator);
    assert IsSuffix(t, q);
    assert (prefix + q)[|prefix + q| - |t|..] == q[|q| - |t|..];
  }

  lemma SensorSuffixText(sensor: bool)
    ensures [ParameterSeparator] + (if sensor then "sensor=true" else "sensor=false")
         == (if sensor then "&sensor=true" else "&sensor=false")
  {
    if sensor {
      assert [ParameterSeparator] + "sensor=true" == "&sensor=true";
    } else {
      assert [ParameterSeparator] + "sensor=false" == "&sensor=false";
    }
  }
}
