/** A group of locations that share one icon or one style (MarkerSet.php). */
module MarkerSets {
  import opened Php
  import Locations
  import MarkerStyling
  import CustomIcons

  const Separator: char := '|'

  /** Every location cast to its string, in order (the array_walk in buildLocations). */
  function LocationStrings(ls: seq<Locations.Location>): (r: seq<string>)
    reads ls
    ensures |r| == |ls| && forall i :: 0 <= i < |ls| ==> r[i] == ls[i].Build()
  {
    if ls == [] then [] else [ls[0].Build()] + LocationStrings(ls[1..])
  }

  class MarkerSet {
    var customIcon: CustomIcons.MarkerCustomIcon?
    var styles: MarkerStyling.MarkerStyles?
    var locations: seq<Locations.Location>

    /** new MarkerSet($params): the custom icon, then the styles, then the locations, each
        when present. */
    constructor (customIcon: CustomIcons.MarkerCustomIcon?, styles: MarkerStyling.MarkerStyles?,
                 locations: seq<Locations.Location>)
      ensures this.customIcon == customIcon && this.styles == styles
      ensures this.locations == locations
    {
      this.customIcon := null;
      this.styles := null;
      this.locations := [];
      new;
      if customIcon != null {
        SetCustomIcon(customIcon);
      }
      if styles != null {
        SetStyles(styles);
      }
      SetLocations(locations);
    }

    /** Replaces the custom icon. */
    method SetCustomIcon(icon: CustomIcons.MarkerCustomIcon)
      modifies this`customIcon
      ensures customIcon == icon
    {
      customIcon := icon;
    }

    /** Replaces the styles. */
    method SetStyles(style: MarkerStyling.MarkerStyles)
      modifies this`styles
      ensures styles == style
    {
      styles := style;
    }

    /** Appends one location; nothing already there is removed. */
    method SetLocation(location: Locations.Location)
      modifies this`locations
      ensures locations == old(locations) + [location]
    {
      locations := locations + [location];
    }

    /** Appends each location of `ls` in order. */
    method SetLocations(ls: seq<Locations.Location>)
      modifies this`locations
      ensures locations == old(locations) + ls
    {
      var i := 0;
      while i < |ls|
        invariant 0 <= i <= |ls|
        invariant locations == old(locations) + ls[..i]
      {
        SetLocation(ls[i]);
        assert ls[..i + 1] == ls[..i] + [ls[i]];
        i := i + 1;
      }
      assert ls[..|ls|] == ls;
    }

    /** The objects `Build` reads: this set, its custom icon and styles, and its locations. */
    ghost function Footprint(): (r: set<object>)
      reads this
      ensures this in r && forall l :: l in locations ==> l in r
      ensures customIcon != null ==> customIcon in r
      ensures styles != null ==> styles in r
    {
      {this} + (if customIcon == null then {} else {customIcon})
      + (if styles == null then {} else {styles}) + set l | l in locations
    }

    /** The custom icon's fragment, or null when there is no custom icon. */
    function BuildCustomIcon(): (r: Option<string>)
      reads this, customIcon
      ensures r.None? <==> customIcon == null
      ensures r.Some? ==> r.value == customIcon.Build()
      ensures r.Some? && r.value != "" ==> IsLowerAscii(r.value[0])
    {
      if customIcon == null then None else Some(customIcon.Build())
    }

    /** The styles' fragment, or null when there are no styles. */
    function BuildStyles(): (r: Option<string>)
      reads this, styles
      ensures r.None? <==> styles == null
      ensures r.Some? ==> r.value == styles.Build()
      ensures r.Some? && r.value != "" ==> IsLowerAscii(r.value[0])
    {
      if styles == null then None else Some(styles.Build())
    }

    /** The custom icon when it builds to a non-empty fragment, and only otherwise the styles;
        null when neither gives one. */
    function BuildIcon(): (r: Option<string>)
      reads this, customIcon, styles
      ensures r.Some? ==> !IsEmpty(r.value) && IsAsciiLetter(r.value[0])
      ensures customIcon != null && !IsEmpty(customIcon.Build()) ==> r == Some(customIcon.Build())
      ensures customIcon == null || IsEmpty(customIcon.Build()) ==>
                r == (if styles == null || IsEmpty(styles.Build()) then None else Some(styles.Build()))
    {
      var custom := BuildCustomIcon();
      if !IsEmptyOpt(custom) then custom
      else
        var style := BuildStyles();
        if !IsEmptyOpt(style) then style else None
    }

    /** The location strings joined by '|' in insertion order, empty ones included; null when
        there are no locations. */
    function BuildLocations(): (r: Option<string>)
      reads this, locations
      ensures r.None? <==> locations == []
      ensures r.Some? ==> locations[0].Build() <= r.value
    {
      if locations == [] then None
      else
        JoinEnds(LocationStrings(locations), Separator);
        Some(Join(LocationStrings(locations), Separator))
    }

    /** The marker fragment (not URL-encoded): "" unless the joined locations are PHP-non-empty;
        then the icon or style (when there is one) and the locations, joined by '|', where
        array_filter with 'trim' drops a joined-locations string that trims to "" or "0". */
    function Build(): (r: string)
      reads this, customIcon, styles, locations
      ensures locations == [] ==> r == ""
      ensures BuildLocations().Some? && IsEmpty(BuildLocations().value) ==> r == ""
      ensures var l := BuildLocations(); var icon := BuildIcon();
              l.Some? && !IsEmpty(l.value) && !IsEmpty(Trim(l.value)) ==>
                r == (if icon.Some? then icon.value + "|" + l.value else l.value)
      ensures var l := BuildLocations(); var icon := BuildIcon();
              l.Some? && !IsEmpty(l.value) && IsEmpty(Trim(l.value)) ==>
                r == (if icon.Some? then icon.value else "")
    {
      var locs := BuildLocations();
      if IsEmptyOpt(locs) then ""
      else
        var icon := BuildIcon();
        FilterTrimPair(icon, locs.value);
        var markerSet := FilterTrim([icon, locs]);
        if markerSet == [] then ""
        else
          JoinPair(if icon.Some? then icon.value else "", locs.value, Separator);
          Join(markerSet, Separator)
    }
  }

  /** When no location string holds a '|', splitting the joined locations on '|' gives back
      every location's string, in insertion order, empty ones included. */
  lemma LocationsSplitBack(m: MarkerSet)
    requires m.locations != []
    requires forall i :: 0 <= i < |m.locations| ==> Separator !in m.locations[i].Build()
    ensures Split(m.BuildLocations().value, Separator) == LocationStrings(m.locations)
  {
    SplitJoin(LocationStrings(m.locations), Separator);
  }

  /** A custom icon that builds to a non-empty fragment hides the styles entirely. */
  lemma CustomIconOverStyles(m: MarkerSet)
    requires m.customIcon != null && !IsEmpty(m.customIcon.Build())
    requires m.BuildLocations().Some? && !IsEmpty(Trim(m.BuildLocations().value))
    ensures m.Build() == m.customIcon.Build() + "|" + m.BuildLocations().value
  {
    assert !IsEmpty(m.BuildLocations().value);
  }

  /** Locations that build to "" still leave their separators: two of them give "|". */
  lemma EmptySegments(m: MarkerSet)
    requires |m.locations| == 2 && m.locations[0].Build() == "" && m.locations[1].Build() == ""
    ensures m.BuildLocations() == Some("|")
  {
    assert LocationStrings(m.locations) == ["", ""];
    JoinPair("", "", Separator);
    assert "" + [Separator] + "" == "|";
  }

  /** A lone "|" is not blank to trim(). */
  lemma SeparatorNotBlank()
    ensures !IsEmpty("|") && !IsEmpty(Trim("|"))
  {
    TrimFacts("|");
    assert Trim("|")[0] == '|';
  }

  /** A lone "|" of locations is therefore kept, after the icon or style when there is one. */
  lemma SeparatorOnlyKept(m: MarkerSet)
    requires m.BuildLocations() == Some("|")
    ensures m.BuildIcon().Some? ==> m.Build() == m.BuildIcon().value + "|" + "|"
    ensures m.BuildIcon().None? ==> m.Build() == "|"
  {
    SeparatorNotBlank();
  }
}
