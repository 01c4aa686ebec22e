# Google Static Maps URL builder, modelled in Dafny

The PHP library builds request URLs for the Google Static Maps API. Five classes each turn
their fields into a URL fragment, and each parent puts its children's fragments together:

- a `Location` is a point, written `lat,lng`, or a free-text address;
- `MarkerStyles` keeps a validated size, a validated colour and an upper-cased label, and
  renders `size:…|color:…|label:…`;
- `MarkerCustomIcon` renders `icon:<url>|shadow:true|false`;
- a `MarkerSet` picks the custom icon over the styles and joins it with its locations by `|`;
- `Map` validates zoom, size, scale, format, map type and language. It lets a URL through only
  when it has marker sets, or both a center and a zoom. It then writes a fixed-order query
  string, joined by `&`, after the template `http://maps.googleapis.com/maps/api/staticmap?`.
  The empty string is its only failure signal.

Each PHP class is a Dafny `class` with the same fields. The setters are methods whose
`modifies` clause names only the field they write. The `build*` methods are functions that
read the fields; they never change them. The PHP built-ins the code relies on are modelled in
module `Php`:
- `empty()`, which holds for `""` and `"0"`;
- `trim()` with its default characters;
- `array_filter(…, 'trim')`;
- `implode` and `explode` with a one-character separator;
- the `(string)` cast of an integer and the `(bool)` cast;
- ASCII upper-casing.

`urlencode` and `urldecode` over UTF-8 bytes are in module `UrlEncoding`.

The query string is also given as a list of `key=value` parameters (`StaticMaps.Map.Parameters`).
That list is written from the documented parameter order, independently of `build`. The main
theorem, `QueryParameters`, proves that splitting the built URL's query on `&` gives exactly
that list. It holds for a map in the state its constructor and setters keep (`Map.Valid()`),
whenever the gate lets a URL through and the unchecked region holds no `&`.

## Model

| member | source | states |
|---|---|---|
| Locations.Location.constructor | Google/StaticMaps/Location.php:36-48 | applying the setters of the keys present leaves exactly the given address and coordinates |
| Locations.Location.SetAddress | Google/StaticMaps/Location.php:65-69 | stores the address; only the address field may change |
| Locations.Location.SetLatitude | Google/StaticMaps/Location.php:86-90 | stores the latitude; only that field may change |
| Locations.Location.SetLongitude | Google/StaticMaps/Location.php:107-111 | stores the longitude; only that field may change |
| Locations.Location.BuildPoint | Google/StaticMaps/Location.php:127-135 | a point exists exactly when both coordinates are set; it is never PHP-empty and is exactly the latitude, a comma and the longitude |
| Locations.Location.BuildAddress | Google/StaticMaps/Location.php:142-149 | the address is returned exactly when it is not PHP-empty ("" or "0") |
| Locations.Location.Build | Google/StaticMaps/Location.php:161-173 | `lat,lng` whatever the address when both coordinates are set; otherwise the address when it is not PHP-empty; "" exactly when neither is usable |
| MarkerStyling.MarkerStyles.constructor | Google/StaticMaps/MarkerStyles.php:79-91 | the setters of the keys present, in the order size, colour, label: only valid values are kept, and the label is upper-cased |
| MarkerStyling.MarkerStyles.SetSize | Google/StaticMaps/MarkerStyles.php:108-121 | stores tiny, small, mid or normal; any other value leaves the size unchanged; keeps the invariant |
| MarkerStyling.MarkerStyles.SetColor | Google/StaticMaps/MarkerStyles.php:139-158 | stores one of the ten colours; any other value leaves the colour unchanged |
| MarkerStyling.MarkerStyles.SetLabel | Google/StaticMaps/MarkerStyles.php:175-181 | stores the whole input upper-cased and at full length exactly when it holds an ASCII letter or digit; otherwise the label is unchanged |
| MarkerStyling.MarkerStyles.Build | Google/StaticMaps/MarkerStyles.php:200-223 | "" exactly when size, colour and label are all PHP-empty; otherwise exactly the present entries `size:…`, `color:…`, `label:…`, in that order, joined by a bar, with the PHP-empty ones left out (one case per combination) |
| MarkerStyling.StyleEntriesJoined | Google/StaticMaps/MarkerStyles.php:200-222 | joining the entries gives each of the seven non-empty combinations exactly, and there are no entries exactly when all three values are PHP-empty |
| MarkerStyling.StylesSplitBack | Google/StaticMaps/MarkerStyles.php:200-222 | for styles the setters produced and a label without a bar, splitting the fragment on a bar gives back exactly the present entries, in order |
| MarkerStyling.ZeroLabelDropped | Google/StaticMaps/MarkerStyles.php:213-216 | a stored label "0" is dropped by build, because `empty("0")` holds |
| CustomIcons.MarkerCustomIcon.constructor | GoogleStaticMaps/MarkerCustomIcon.php:34-42 | the icon as given; the shadow cast to a boolean when given |
| CustomIcons.MarkerCustomIcon.SetIcon | GoogleStaticMaps/MarkerCustomIcon.php:59-63 | stores the URL verbatim, with no validation |
| CustomIcons.MarkerCustomIcon.SetShadow | GoogleStaticMaps/MarkerCustomIcon.php:80-84 | stores the argument cast to a boolean |
| CustomIcons.MarkerCustomIcon.BuildIcon | GoogleStaticMaps/MarkerCustomIcon.php:101-108 | the URL verbatim exactly when it is not PHP-empty |
| CustomIcons.MarkerCustomIcon.BuildShadow | GoogleStaticMaps/MarkerCustomIcon.php:115-122 | null exactly when the shadow is unset; "false" for a false shadow, "true" for a true one |
| CustomIcons.MarkerCustomIcon.Build | GoogleStaticMaps/MarkerCustomIcon.php:132-150 | "" exactly when the icon is PHP-empty and the shadow is unset; otherwise `icon:<url>` first, then `shadow:true` or `shadow:false`, joined by a bar, one case per combination |
| CustomIcons.IconEntriesJoined | GoogleStaticMaps/MarkerCustomIcon.php:132-150 | joining the entries gives each of the three non-empty combinations, and a non-empty result starts with a lower-case key |
| MarkerSets.MarkerSet.constructor | GoogleStaticMaps/MarkerSet.php:42-54 | the custom icon, the styles and the locations given, in that order |
| MarkerSets.MarkerSet.SetCustomIcon | GoogleStaticMaps/MarkerSet.php:71-81 | replaces the custom icon; nothing else changes |
| MarkerSets.MarkerSet.SetStyles | GoogleStaticMaps/MarkerSet.php:98-108 | replaces the styles; nothing else changes |
| MarkerSets.MarkerSet.SetLocation | GoogleStaticMaps/MarkerSet.php:125-135 | appends the location at the end; nothing is removed |
| MarkerSets.MarkerSet.SetLocations | GoogleStaticMaps/MarkerSet.php:143-151 | appends every location in order (a loop proved against the append) |
| MarkerSets.MarkerSet.BuildCustomIcon | GoogleStaticMaps/MarkerSet.php:186-194 | null exactly when there is no custom icon; otherwise that icon's fragment, which starts with a lower-case key when it is not "" |
| MarkerSets.MarkerSet.BuildStyles | GoogleStaticMaps/MarkerSet.php:201-209 | null exactly when there are no styles; otherwise those styles' fragment, which starts with a lower-case key when it is not "" |
| MarkerSets.MarkerSet.BuildIcon | GoogleStaticMaps/MarkerSet.php:169-179 | the custom icon when it builds to a non-empty fragment; otherwise the styles' fragment when non-empty; otherwise null; never blank |
| MarkerSets.MarkerSet.BuildLocations | GoogleStaticMaps/MarkerSet.php:216-228 | null exactly without locations; otherwise starts with the first location's string |
| MarkerSets.MarkerSet.Build | GoogleStaticMaps/MarkerSet.php:238-252 | "" without locations or with PHP-empty joined locations; otherwise the icon or style (when present), then a bar, then the locations; joined locations that trim to "" or "0" (such as a lone address " 0") are dropped by the trim filter |
| MarkerSets.LocationsSplitBack | GoogleStaticMaps/MarkerSet.php:216-228 | splitting the joined locations on a bar gives every location's string back, in insertion order, empty ones included |
| MarkerSets.CustomIconOverStyles | GoogleStaticMaps/MarkerSet.php:169-179 | a non-empty custom icon hides the styles: the fragment is icon, a bar, locations |
| MarkerSets.EmptySegments | GoogleStaticMaps/MarkerSet.php:216-228 | two locations that build to "" still give a lone bar as the segment |
| MarkerSets.SeparatorOnlyKept | GoogleStaticMaps/MarkerSet.php:238-252 | such a lone bar is kept by build, after the icon when there is one |
| StaticMaps.Map.constructor | Google/StaticMaps/Map.php:260-310 | the state the setters of the given keys leave: invalid options dropped, size 640x640 unless a two-entry size is given, sensor false unless given |
| StaticMaps.Map.SetCenter | Google/StaticMaps/Map.php:327-337 | replaces the center; nothing else changes |
| StaticMaps.Map.SetZoom | Google/StaticMaps/Map.php:354-385 | stores a level 0..21; any other value leaves the zoom unchanged |
| StaticMaps.Map.SetSize | Google/StaticMaps/Map.php:403-409 | replaces the size only with a two-entry list |
| StaticMaps.Map.SetVisualRefresh | Google/StaticMaps/Map.php:426-430 | stores the argument cast to a boolean |
| StaticMaps.Map.SetScale | Google/StaticMaps/Map.php:447-458 | stores 1 or 2; anything else is a no-op |
| StaticMaps.Map.SetFormat | Google/StaticMaps/Map.php:475-490 | stores one of the six formats; anything else is a no-op |
| StaticMaps.Map.SetMapType | Google/StaticMaps/Map.php:507-520 | stores one of the four map types; anything else is a no-op |
| StaticMaps.Map.SetLanguage | Google/StaticMaps/Map.php:538-552 | stores one of the listed languages; anything else is a no-op |
| StaticMaps.Map.SetRegion | Google/StaticMaps/Map.php:570-574 | stores any region, unchecked |
| StaticMaps.Map.SetMarker | Google/StaticMaps/Map.php:591-601 | appends the marker set at the end |
| StaticMaps.Map.SetMarkers | Google/StaticMaps/Map.php:609-617 | appends every marker set in order (a loop proved against the append) |
| StaticMaps.Map.SetSensor | Google/StaticMaps/Map.php:634-638 | stores the argument cast to a boolean |
| StaticMaps.Map.BuildCenter | Google/StaticMaps/Map.php:654-661 | present exactly with a center: `center=` and the urlencoded location, holding no `&` |
| StaticMaps.Map.BuildZoom | Google/StaticMaps/Map.php:668-675 | present exactly with a zoom; the digits after `zoom=` parse back to the zoom |
| StaticMaps.Map.BuildSize | Google/StaticMaps/Map.php:682-689 | null exactly for an empty size; a two-entry size gives `size=WxH` |
| StaticMaps.Map.BuildVisualRefresh | Google/StaticMaps/Map.php:696-703 | null only when unset; `visual_refresh=false` for false |
| StaticMaps.Map.BuildScale | Google/StaticMaps/Map.php:710-714 | never null: a bare `scale=` when unset, otherwise digits that parse back to the scale |
| StaticMaps.Map.BuildFormat | Google/StaticMaps/Map.php:721-725 | a bare `format=` when unset, otherwise the format after the key |
| StaticMaps.Map.BuildMapType | Google/StaticMaps/Map.php:732-736 | a bare `mapType=` when unset, otherwise the map type after the key |
| StaticMaps.Map.BuildLanguage | Google/StaticMaps/Map.php:743-747 | a bare `language=` when unset, otherwise the language after the key |
| StaticMaps.Map.BuildRegion | Google/StaticMaps/Map.php:754-758 | a bare `region=` when unset, otherwise the region as stored |
| StaticMaps.Map.BuildMarkers | Google/StaticMaps/Map.php:767-778 | null exactly without marker sets; otherwise the `markers=` entries of every set, in order, each carrying that set's urlencoded fragment, joined by `&` |
| StaticMaps.Map.BuildSensor | Google/StaticMaps/Map.php:785-792 | `sensor=true` or `sensor=false`, never null |
| StaticMaps.Map.Build | Google/StaticMaps/Map.php:801-854 | "" exactly when there are no marker sets and the center or the zoom is missing, or the size is empty; otherwise starts with the template URL |
| StaticMaps.MarkerEntries | Google/StaticMaps/Map.php:767-778 | one `markers=` entry per marker set, in order, carrying its urlencoded fragment; a set that builds to "" still gives `markers=` |
| StaticMaps.SizeJoin | Google/StaticMaps/Map.php:682-689 | a two-entry size is rendered as width `x` height |
| StaticMaps.EmptyExactlyWithoutMarkersOrCenterAndZoom | Google/StaticMaps/Map.php:801-821 | under the setters' invariant, "" exactly when there are no marker sets and the center or zoom is missing |
| StaticMaps.BuildRendersParameters | Google/StaticMaps/Map.php:823-853 | past the gate, the URL is the template followed by the rendered parameter list joined by `&` |
| StaticMaps.QueryParameters | Google/StaticMaps/Map.php:823-853 | splitting the query on `&` gives exactly the parameter list: center, zoom, size, visual_refresh, scale, format, mapType, language, region, one `markers` per set, sensor |
| StaticMaps.ParametersWithoutSeparator | Google/StaticMaps/Map.php:654-792 | for a map in the state its constructor and setters keep (`Map.Valid()`) and a region free of `&`, no parameter key or value holds `&` |
| StaticMaps.MarkerEntriesRendered | Google/StaticMaps/Map.php:767-778 | each set's `markers=` entry is its rendered `markers` parameter |
| StaticMaps.LocationEntriesRendered | Google/StaticMaps/Map.php:823-826 | the non-null center and zoom entries are the rendered location parameters |
| StaticMaps.MapEntriesRendered | Google/StaticMaps/Map.php:828-836 | the non-null map entries are the rendered map parameters; scale, format, mapType, language and region are always present |
| StaticMaps.EntriesKeyed | Google/StaticMaps/Map.php:849 | every non-null entry is non-empty and starts with an ASCII letter, so the trim filter drops only the nulls |
| StaticMaps.MarkerEntryDecodes | Google/StaticMaps/Map.php:773-775 | urldecoding a `markers=` entry's value gives back the bytes of that set's fragment |
| StaticMaps.CenterDecodes | Google/StaticMaps/Map.php:654-661 | urldecoding the center entry's value gives back the bytes of the location string |
| StaticMaps.CenterAndZoomOnly | Google/StaticMaps/Map.php:823-853 | a map with only a center and zoom gives center, zoom, `size=640x640`, the five bare option keys and `sensor=false` |
| StaticMaps.SensorLast | Google/StaticMaps/Map.php:845-853 | past the gate, the URL ends with `&sensor=true` or `&sensor=false` |
| Php.TrimFacts | Google/StaticMaps/Map.php:849 | trim gives "" exactly for strings made of trim characters; otherwise it starts and ends with kept characters |
| Php.FilterTrimKeyed | Google/StaticMaps/Map.php:849 | when every non-null entry starts with a letter, the trim filter drops exactly the nulls |
| Php.FilterTrimPair | GoogleStaticMaps/MarkerSet.php:246 | filtering `[icon, locations]`: the icon is kept when present, the locations only when not blank |
| Php.JoinSplit | GoogleStaticMaps/MarkerSet.php:227 | implode undoes explode |
| Php.SplitJoin | Google/StaticMaps/Map.php:853 | explode undoes implode when no part holds the separator |
| Php.IntStringRoundTrip | Google/StaticMaps/Map.php:674 | the `(string)` cast of an integer parses back to it |
| UrlEncoding.UrlEncode | Google/StaticMaps/Map.php:660 | urlencode output holds only unreserved characters, `+` and `%`; never `&`, `=` or a bar |
| UrlEncoding.UrlRoundTrip | Google/StaticMaps/Map.php:774 | urldecode of urlencode gives the string's UTF-8 bytes |
| UrlEncoding.UrlEncodeUnreserved | Google/StaticMaps/Map.php:660 | a string of letters, digits and `-_.` is left unchanged |

## Left out

- The `(float)` casts of the coordinates and PHP's float-to-string conversion are not modelled. A coordinate is carried as the text that conversion gives.
- `Map::$builtParams`, the static debugging copy of the last parameters, is process-wide state outside the URL. It is not modelled.
- PHP's dynamic typing is not modelled: the loose `in_array` comparisons (`"5"` matching `5`) and the `is_array`/`instanceof` coercions. Arguments are typed, so a setter given the wrong kind of value cannot be expressed.
- `SetLabel` models `mb_strtoupper` on ASCII letters only. Other characters are kept as they are.
- `MAX_URL_LENGTH` is never enforced by the code, so no check is invented. The `MAP_STYLE_*` constants and the commented-out path, visible and style features are left out for the same reason.
- `__toString` and the getters only return `build()` or a field; they are not modelled separately.
- Setters return `$this` for chaining. The Dafny methods return nothing.
- The two PHP namespaces (`GoogleStaticMaps` and `Google\StaticMaps`) are treated as one hierarchy.
- `StaticMaps.Map.constructor` states the state the setters of the given keys leave, rather than calling them one by one. Each setter writes only its own field, so the order does not change that state.
- `StaticMaps.Map.BuildSensor` has no null branch, and `Build` has no sensor gate: the sensor is a boolean from the start, so both are unreachable in the source too.
- A `Php.Value` for the `(bool)` casts covers null, booleans, integers and strings; floats and arrays are left out.
- The map size is a list of integers, and the icon and region are plain strings.
- Strings are Unicode text, and `urlencode` works on their UTF-8 bytes. A PHP byte string that is not valid UTF-8 cannot be expressed.
- `build` is a function of the fields, so two builds in a row give the same URL, and the fields are never changed by it.
