/** Size, colour and label of a group of markers (MarkerStyles.php). */
module MarkerStyling {
  import opened Php

  const Separator: char := '|'

  const Sizes: set<string> := {"tiny", "small", "mid", "normal"}

  const Colors: set<string> :=
    {"black", "brown", "green", "purple", "yellow", "blue", "gray", "orange", "red", "white"}

  /** A stored label: it held an ASCII letter or digit when it was set, and it is upper case. */
  predicate IsStoredLabel(labelText: string) {
    HasAsciiAlnum(labelText) && forall i :: 0 <= i < |labelText| ==> !IsLowerAscii(labelText[i])
  }

  class MarkerStyles {
    var size: Option<string>
    var color: Option<string>
    var labelText: Option<string>

    /** What the setters let in. */
    predicate Valid()
      reads this
    {
      && (size.Some? ==> size.value in Sizes)
      && (color.Some? ==> color.value in Colors)
      && (labelText.Some? ==> IsStoredLabel(labelText.value))
    }

    /** new MarkerStyles($params): the setters of the keys present, in the order size, colour,
        label. */
    constructor (size: Option<string>, color: Option<string>, labelText: Option<string>)
      ensures Valid()
      ensures this.size == (if size.Some? && size.value in Sizes then size else None)
      ensures this.color == (if color.Some? && color.value in Colors then color else None)
      ensures this.labelText ==
                (if labelText.Some? && HasAsciiAlnum(labelText.value) then Some(ToUpper(labelText.value)) else None)
    {
      this.size := None;
      this.color := None;
      this.labelText := None;
      new;
      if size.Some? {
        SetSize(size.value);
      }
      if color.Some? {
        SetColor(color.value);
      }
      if labelText.Some? {
        SetLabel(labelText.value);
      }
    }

    /** Stores one of tiny, small, mid, normal; any other value leaves the size as it was. */
    method SetSize(size: string)
      requires Valid()
      modifies this`size
      ensures Valid()
      ensures this.size == if size in Sizes then Some(size) else old(this.size)
    {
      if size in Sizes {
        this.size := Some(size);
      }
    }

    /** Stores one of the ten named colours; any other value leaves the colour as it was. */
    method SetColor(color: string)
      requires Valid()
      modifies this`color
      ensures Valid()
      ensures this.color == if color in Colors then Some(color) else old(this.color)
    {
      if color in Colors {
        this.color := Some(color);
      }
    }

    /** Stores the whole input, upper-cased and not truncated, when it holds an ASCII letter or
        digit anywhere; otherwise the label stays as it was. */
    method SetLabel(text: string)
      requires Valid()
      modifies this`labelText
      ensures Valid()
      ensures labelText == if HasAsciiAlnum(text) then Some(ToUpper(text)) else old(labelText)
      ensures labelText != old(labelText) ==> |labelText.value| == |text|
    {
      if HasAsciiAlnum(text) {
        labelText := Some(ToUpper(text));
      }
    }

    /** The style fragment (not URL-encoded): size:, color: and label:, in that order, each
        left out when its value is PHP-empty, joined by '|'; "" when all three are left out. */
    function Build(): (r: string)
      reads this
      ensures r == "" <==> IsEmptyOpt(size) && IsEmptyOpt(color) && IsEmptyOpt(labelText)
      ensures r != "" ==> IsLowerAscii(r[0])
      ensures !IsEmptyOpt(size) && !IsEmptyOpt(color) && !IsEmptyOpt(labelText) ==>
                r == "size:" + size.value + "|color:" + color.value + "|label:" + labelText.value
      ensures !IsEmptyOpt(size) && !IsEmptyOpt(color) && IsEmptyOpt(labelText) ==>
                r == "size:" + size.value + "|color:" + color.value
      ensures !IsEmptyOpt(size) && IsEmptyOpt(color) && !IsEmptyOpt(labelText) ==>
                r == "size:" + size.value + "|label:" + labelText.value
      ensures IsEmptyOpt(size) && !IsEmptyOpt(color) && !IsEmptyOpt(labelText) ==>
                r == "color:" + color.value + "|label:" + labelText.value
      ensures !IsEmptyOpt(size) && IsEmptyOpt(color) && IsEmptyOpt(labelText) ==> r == "size:" + size.value
      ensures IsEmptyOpt(size) && !IsEmptyOpt(color) && IsEmptyOpt(labelText) ==> r == "color:" + color.value
      ensures IsEmptyOpt(size) && IsEmptyOpt(color) && !IsEmptyOpt(labelText) ==> r == "label:" + labelText.value
    {
      var styles := StyleEntries(size, color, labelText);
      StyleEntriesShape(size, color, labelText);
      StyleEntriesJoined(size, color, labelText);
      if styles == [] then ""
      else
        JoinEnds(styles, Separator);
        Join(styles, Separator)
    }
  }

  /** The entries the style fragment is made of: size:, color: and label:, in that order,
      each left out when its value is PHP-empty. */
  function StyleEntries(size: Option<string>, color: Option<string>, labelText: Option<string>): seq<string> {
    var withSize := if IsEmptyOpt(size) then [] else ["size:" + size.value];
    var withColor := if IsEmptyOpt(color) then withSize else withSize + ["color:" + color.value];
    if IsEmptyOpt(labelText) then withColor else withColor + ["label:" + labelText.value]
  }

  /** The entries: none exactly when all three values are PHP-empty, one when only one value
      is set, and each starts with a lower-case key. */
  lemma StyleEntriesShape(size: Option<string>, color: Option<string>, labelText: Option<string>)
    ensures StyleEntries(size, color, labelText) == [] <==>
              IsEmptyOpt(size) && IsEmptyOpt(color) && IsEmptyOpt(labelText)
    ensures forall i :: 0 <= i < |StyleEntries(size, color, labelText)| ==>
              StyleEntries(size, color, labelText)[i] != "" && IsLowerAscii(StyleEntries(size, color, labelText)[i][0])
    ensures !IsEmptyOpt(size) && IsEmptyOpt(color) && IsEmptyOpt(labelText) ==>
              StyleEntries(size, color, labelText) == ["size:" + size.value]
    ensures IsEmptyOpt(size) && !IsEmptyOpt(color) && IsEmptyOpt(labelText) ==>
              StyleEntries(size, color, labelText) == ["color:" + color.value]
    ensures IsEmptyOpt(size) && IsEmptyOpt(color) && !IsEmptyOpt(labelText) ==>
              StyleEntries(size, color, labelText) == ["label:" + labelText.value]
  {
  }

  /** The entries joined by '|': what each combination of two or three values gives. */
  lemma StyleEntriesJoined(size: Option<string>, color: Option<string>, labelText: Option<string>)
    ensures !IsEmptyOpt(size) && !IsEmptyOpt(color) && !IsEmptyOpt(labelText) ==>
              Join(StyleEntries(size, color, labelText), Separator)
              == "size:" + size.value + "|color:" + color.value + "|label:" + labelText.value
    ensures !IsEmptyOpt(size) && !IsEmptyOpt(color) && IsEmptyOpt(labelText) ==>
              Join(StyleEntries(size, color, labelText), Separator) == "size:" + size.value + "|color:" + color.value
    ensures !IsEmptyOpt(size) && IsEmptyOpt(color) && !IsEmptyOpt(labelText) ==>
              Join(StyleEntries(size, color, labelText), Separator) == "size:" + size.value + "|label:" + labelText.value
    ensures IsEmptyOpt(size) && !IsEmptyOpt(color) && !IsEmptyOpt(labelText) ==>
              Join(StyleEntries(size, color, labelText), Separator) == "color:" + color.value + "|label:" + labelText.value
  {
    if !IsEmptyOpt(size) && !IsEmptyOpt(color) && !IsEmptyOpt(labelText) {
      AllThreeJoined(size.value, color.value, labelText.value);
    } else if !IsEmptyOpt(size) && !IsEmptyOpt(color) {
      SizeColorJoined(size.value, color.value, labelText);
    } else if !IsEmptyOpt(size) && !IsEmptyOpt(labelText) {
      SizeLabelJoined(size.value, color, labelText.value);
    } else if !IsEmptyOpt(color) && !IsEmptyOpt(labelText) {
      ColorLabelJoined(size, color.value, labelText.value);
    }
  }

  lemma AllThreeJoined(size: string, color: string, labelText: string)
    requires !IsEmpty(size) && !IsEmpty(color) && !IsEmpty(labelText)
    ensures Join(StyleEntries(Some(size), Some(color), Some(labelText)), Separator)
            == "size:" + size + "|color:" + color + "|label:" + labelText
  {
    var sz, co, la := "size:" + size, "color:" + color, "label:" + labelText;
    assert StyleEntries(Some(size), Some(color), Some(labelText)) == [sz, co, la];
    JoinTriple(sz, co, la, Separator);
  }

  lemma SizeColorJoined(size: string, color: string, labelText: Option<string>)
    requires !IsEmpty(size) && !IsEmpty(color) && IsEmptyOpt(labelText)
    ensures Join(StyleEntries(Some(size), Some(color), labelText), Separator) == "size:" + size + "|color:" + color
  {
    var sz, co := "size:" + size, "color:" + color;
    assert StyleEntries(Some(size), Some(color), labelText) == [sz, co];
    JoinPair(sz, co, Separator);
  }

  lemma SizeLabelJoined(size: string, color: Option<string>, labelText: string)
    requires !IsEmpty(size) && IsEmptyOpt(color) && !IsEmpty(labelText)
    ensures Join(StyleEntries(Some(size), color, Some(labelText)), Separator) == "size:" + size + "|label:" + labelText
  {
    var sz, la := "size:" + size, "label:" + labelText;
    assert StyleEntries(Some(size), color, Some(labelText)) == [sz, la];
    JoinPair(sz, la, Separator);
  }

  lemma ColorLabelJoined(size: Option<string>, color: string, labelText: string)
    requires IsEmptyOpt(size) && !IsEmpty(color) && !IsEmpty(labelText)
    ensures Join(StyleEntries(size, Some(color), Some(labelText)), Separator) == "color:" + color + "|label:" + labelText
  {
    var co, la := "color:" + color, "label:" + labelText;
    assert StyleEntries(size, Some(color), Some(labelText)) == [co, la];
    JoinPair(co, la, Separator);
  }

  /** No size or colour the setters accept holds the separator. */
  lemma ValidWithoutSeparator(size: Option<string>, color: Option<string>)
    requires size.Some? ==> size.value in Sizes
    requires color.Some? ==> color.value in Colors
    ensures size.Some? ==> Separator !in "size:" + size.value
    ensures color.Some? ==> Separator !in "color:" + color.value
  {
  }

  /** With the setters' invariant and a label without a bar, explode('|', build()) gives back
      exactly the size:, color: and label: entries that are present, in that order. */
  lemma StylesSplitBack(s: MarkerStyles)
    requires s.Valid()
    requires s.labelText.Some? ==> Separator !in s.labelText.value
    requires s.Build() != ""
    ensures Split(s.Build(), Separator) == StyleEntries(s.size, s.color, s.labelText)
  {
    var e := StyleEntries(s.size, s.color, s.labelText);
    StyleEntriesShape(s.size, s.color, s.labelText);
    ValidWithoutSeparator(s.size, s.color);
    assert s.labelText.Some? ==> Separator !in "label:" + s.labelText.value;
    assert forall i :: 0 <= i < |e| ==> Separator !in e[i];
    SplitJoin(e, Separator);
  }

  /** A "0" label passes SetLabel but build drops it, because empty("0") holds: the fragment
      then ends with the colour, or the size, or is "". */
  lemma ZeroLabelDropped(s: MarkerStyles)
    requires s.labelText == Some("0")
    ensures StyleEntries(s.size, s.color, s.labelText) == (if IsEmptyOpt(s.size) then [] else ["size:" + s.size.value])
                           + (if IsEmptyOpt(s.color) then [] else ["color:" + s.color.value])
    ensures !IsEmptyOpt(s.color) ==> IsSuffix("color:" + s.color.value, s.Build())
    ensures IsEmptyOpt(s.color) && !IsEmptyOpt(s.size) ==> s.Build() == "size:" + s.size.value
    ensures IsEmptyOpt(s.color) && IsEmptyOpt(s.size) ==> s.Build() == ""
  {
    var e := StyleEntries(s.size, s.color, s.labelText);
    if !IsEmptyOpt(s.color) {
      assert e[|e| - 1] == "color:" + s.color.value;
      JoinEnds(e, Separator);
    }
  }
}
