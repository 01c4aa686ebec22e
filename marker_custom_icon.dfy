/** A custom marker icon URL and its shadow flag (MarkerCustomIcon.php). */
module CustomIcons {
  import opened Php

  const Separator: char := '|'

  function BoolText(b: bool): string {
    if b then "true" else "false"
  }

  class MarkerCustomIcon {
    var icon: Option<string>
    var shadow: Option<bool>

    /** new MarkerCustomIcon($params): the setters of the keys present (isset: given and not
        null), icon first. */
    constructor (icon: Option<string>, shadow: Value)
      ensures this.icon == icon
      ensures this.shadow == if shadow.Null? then None else Some(ToBool(shadow))
    {
      this.icon := None;
      this.shadow := None;
      new;
      if icon.Some? {
        SetIcon(icon.value);
      }
      if !shadow.Null? {
        SetShadow(shadow);
      }
    }

    /** Stores the URL as it is: no check of its form. */
    method SetIcon(url: string)
      modifies this`icon
      ensures icon == Some(url)
    {
      icon := Some(url);
    }

    /** Stores the argument cast to a boolean. */
    method SetShadow(flag: Value)
      modifies this`shadow
      ensures shadow == Some(ToBool(flag))
    {
      shadow := Some(ToBool(flag));
    }

    /** The icon URL, verbatim, unless it is PHP-empty. */
    function BuildIcon(): (r: Option<string>)
      reads this
      ensures r.Some? <==> !IsEmptyOpt(icon)
      ensures r.Some? ==> r == icon
    {
      if IsEmptyOpt(icon) then None else icon
    }

    /** "true" or "false" whenever the shadow is set, false included; null only when unset. */
    function BuildShadow(): (r: Option<string>)
      reads this
      ensures r.None? <==> shadow.None?
      ensures shadow == Some(false) ==> r == Some("false")
      ensures shadow == Some(true) ==> r == Some("true")
    {
      if shadow.None? then None else Some(BoolText(shadow.value))
    }

    /** The custom icon fragment (not URL-encoded): icon:<url> when the URL is not PHP-empty,
        then shadow:true|false when the flag is set, joined by '|'. */
    function Build(): (r: string)
      reads this
      ensures r == "" <==> IsEmptyOpt(icon) && shadow.None?
      ensures r != "" ==> IsLowerAscii(r[0])
      ensures !IsEmptyOpt(icon) && shadow.Some? ==>
                r == "icon:" + icon.value + "|shadow:" + BoolText(shadow.value)
      ensures IsEmptyOpt(icon) && shadow.Some? ==> r == "shadow:" + BoolText(shadow.value)
      ensures !IsEmptyOpt(icon) && shadow.None? ==> r == "icon:" + icon.value
    {
      var iconUrl := BuildIcon();
      var shadowText := BuildShadow();
      var customIcon := IconEntries(iconUrl, shadowText);
      IconEntriesJoined(iconUrl, shadowText);
      if customIcon == [] then "" else Join(customIcon, Separator)
    }
  }

  /** The entries of the fragment: icon:<url> when the URL is not PHP-empty, then
      shadow:<text> when the shadow text is set. */
  function IconEntries(iconUrl: Option<string>, shadowText: Option<string>): seq<string> {
    var withIcon := if IsEmptyOpt(iconUrl) then [] else ["icon:" + iconUrl.value];
    if shadowText.None? then withIcon else withIcon + ["shadow:" + shadowText.value]
  }

  /** The entries joined by '|': what each combination of icon and shadow gives. */
  lemma IconEntriesJoined(iconUrl: Option<string>, shadowText: Option<string>)
    ensures IconEntries(iconUrl, shadowText) == [] <==> IsEmptyOpt(iconUrl) && shadowText.None?
    ensures IconEntries(iconUrl, shadowText) != [] ==>
              var r := Join(IconEntries(iconUrl, shadowText), Separator); r != "" && IsLowerAscii(r[0])
    ensures !IsEmptyOpt(iconUrl) && shadowText.Some? ==>
              Join(IconEntries(iconUrl, shadowText), Separator)
              == "icon:" + iconUrl.value + "|shadow:" + shadowText.value
    ensures IsEmptyOpt(iconUrl) && shadowText.Some? ==>
              Join(IconEntries(iconUrl, shadowText), Separator) == "shadow:" + shadowText.value
    ensures !IsEmptyOpt(iconUrl) && shadowText.None? ==>
              Join(IconEntries(iconUrl, shadowText), Separator) == "icon:" + iconUrl.value
  {
    var e := IconEntries(iconUrl, shadowText);
    if e != [] {
      JoinEnds(e, Separator);
      assert e[0] != "" && IsLowerAscii(e[0][0]);
    }
    if !IsEmptyOpt(iconUrl) && shadowText.Some? {
      var a, b := "icon:" + iconUrl.value, "shadow:" + shadowText.value;
      assert e == [a, b];
      JoinPair(a, b, Separator);
      assert a + [Separator] + b == "icon:" + iconUrl.value + "|shadow:" + shadowText.value;
    }
  }
}
