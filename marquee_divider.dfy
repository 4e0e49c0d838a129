/**
 * The scrolling divider (src/components/ui/marquee-divider.tsx): each item's
 * text followed by a coloured star, the whole run shown twice so the marquee
 * loops, at one of three speeds.
 *
 * The palette is the caller's colours, falling back to the four splash colours.
 * As written, an empty list of colours does not fall back, and the stars then
 * get no colour at all; `StarColorsAsWritten` keeps that behaviour and
 * `StarColors` is the corrected palette the divider uses.
 */
module MarqueeDivider {
  import opened Wrappers
  import opened Text

  const SplashColors: seq<string> := ["#E8A08A", "#B1D353", "#C9B08E", "#A2B29F"]

  datatype Speed = Slow | Normal | Fast

  /** The CSS variable that sets one marquee cycle's duration. */
  function SpeedClass(speed: Speed): (r: string)
    ensures speed == Slow ==> r == "[--marquee-duration:40s]"
    ensures speed == Normal ==> r == "[--marquee-duration:20s]"
    ensures speed == Fast ==> r == "[--marquee-duration:10s]"
  {
    match speed
    case Slow => "[--marquee-duration:40s]"
    case Normal => "[--marquee-duration:20s]"
    case Fast => "[--marquee-duration:10s]"
  }

  /** The three settings give three different cycle durations. */
  lemma SpeedsAreDistinct()
    ensures SpeedClass(Slow) != SpeedClass(Normal) && SpeedClass(Normal) != SpeedClass(Fast) && SpeedClass(Slow) != SpeedClass(Fast)
  {
    assert SpeedClass(Slow)[20] == '4';
    assert SpeedClass(Normal)[20] == '2';
    assert SpeedClass(Fast)[20] == '1';
  }

  /** One rendered entry; a star's colour is missing when the palette lookup yields `undefined`. */
  datatype Entry =
    | TextEntry(key: string, text: string)
    | StarEntry(key: string, color: Option<string>)

  // ---------------------------------------------------------------------------
  // The palette
  // ---------------------------------------------------------------------------

  /** `colors || SPLASH_COLORS` as written: any given list, even an empty one, replaces the defaults. */
  function StarColorsAsWritten(colors: Option<seq<string>>): (r: seq<string>)
    ensures colors.None? ==> r == SplashColors
    ensures colors.Some? ==> r == colors.value
  {
    if colors.Some? then colors.value else SplashColors
  }

  /** The palette as intended: the caller's colours when there are any, else the splash colours. */
  function StarColors(colors: Option<seq<string>>): (r: seq<string>)
    ensures |r| > 0
    ensures colors.Some? && |colors.value| > 0 ==> r == colors.value
    ensures colors.None? || |colors.value| == 0 ==> r == SplashColors
  {
    if colors.Some? && |colors.value| > 0 then colors.value else SplashColors
  }

  /** `starColors[index % starColors.length]`: with no colours the index is not a number and the lookup is undefined. */
  function ColorAt(palette: seq<string>, index: nat): (r: Option<string>)
    ensures r.Some? <==> |palette| > 0
    ensures r.Some? ==> r.value == palette[index % |palette|] && r.value in palette
  {
    if |palette| == 0 then None else Some(palette[index % |palette|])
  }

  // ---------------------------------------------------------------------------
  // The content
  // ---------------------------------------------------------------------------

  /** `renderMarqueeContent`: for each item, its text and then a star in the palette's next colour. */
  method RenderMarqueeContent(items: seq<string>, palette: seq<string>) returns (content: seq<Entry>)
    ensures |content| == 2 * |items|
    ensures forall i | 0 <= i < |items| ::
      && content[2 * i] == TextEntry("text-" + NatToString(i), items[i])
      && content[2 * i + 1] == StarEntry("star-" + NatToString(i), ColorAt(palette, i))
  {
    content := [];
    var index := 0;
    while index < |items|
      invariant 0 <= index <= |items|
      invariant |content| == 2 * index
      invariant forall i | 0 <= i < index ::
        && content[2 * i] == TextEntry("text-" + NatToString(i), items[i])
        && content[2 * i + 1] == StarEntry("star-" + NatToString(i), ColorAt(palette, i))
    {
      var starColor := ColorAt(palette, index);
      content := content + [TextEntry("text-" + NatToString(index), items[index])];
      content := content + [StarEntry("star-" + NatToString(index), starColor)];
      index := index + 1;
    }
  }

  /** The first stars take the palette's colours in order. */
  lemma FirstStarsFollowPalette(palette: seq<string>, i: nat)
    requires i < |palette|
    ensures ColorAt(palette, i) == Some(palette[i])
  {
  }

  /** The marquee track: the content twice in a row, so the animation loops seamlessly. */
  function Track(content: seq<Entry>): (r: seq<Entry>)
    ensures |r| == 2 * |content|
    ensures r[..|content|] == content && r[|content|..] == content
  {
    content + content
  }

  // ---------------------------------------------------------------------------
  // The component
  // ---------------------------------------------------------------------------

  datatype MarqueeProps = MarqueeProps(
    items: seq<string>,
    className: Option<string>,
    speed: Option<Speed>,
    backgroundColor: Option<string>,
    colors: Option<seq<string>>)

  datatype Rendered = Rendered(containerClass: string, backgroundColor: string, track: seq<Entry>)

  /** The whole divider: the defaults filled in, the content built from the corrected palette, shown twice. */
  method Render(props: MarqueeProps) returns (r: Rendered)
    ensures r.backgroundColor == props.backgroundColor.GetOr("#c3a3d6")
    ensures r.containerClass == "relative w-full overflow-hidden select-none pointer-events-none "
      + SpeedClass(props.speed.GetOr(Normal)) + " " + props.className.GetOr("")
    ensures |r.track| == 4 * |props.items|
    ensures forall i | 0 <= i < |props.items| ::
      && r.track[2 * i].TextEntry? && r.track[2 * i].text == props.items[i]
      && r.track[2 * i + 1].StarEntry?
      && r.track[2 * i + 1].color.Some?
      && r.track[2 * i + 1].color.value in StarColors(props.colors)
      && r.track[2 * |props.items| + 2 * i] == r.track[2 * i]
    ensures forall i | 0 <= i < |props.items| ::
      && r.track[2 * i] == TextEntry("text-" + NatToString(i), props.items[i])
      && r.track[2 * i + 1] == StarEntry("star-" + NatToString(i), ColorAt(StarColors(props.colors), i))
    ensures r.track[..2 * |props.items|] == r.track[2 * |props.items|..]
  {
    var content := RenderMarqueeContent(props.items, StarColors(props.colors));
    var speedClass := SpeedClass(props.speed.GetOr(Normal));
    var track := Track(content);
    forall i | 0 <= i < |props.items|
      ensures track[2 * i] == content[2 * i] && track[2 * i + 1] == content[2 * i + 1]
      ensures track[2 * |props.items| + 2 * i] == content[2 * i]
      ensures ColorAt(StarColors(props.colors), i).Some?
      ensures ColorAt(StarColors(props.colors), i).value in StarColors(props.colors)
    {
      assert track[|content|..][2 * i] == content[2 * i];
      StarsAlwaysColoured(props.colors, i);
    }
    r := Rendered(
      "relative w-full overflow-hidden select-none pointer-events-none " + speedClass + " " + props.className.GetOr(""),
      props.backgroundColor.GetOr("#c3a3d6"),
      track);
  }

  // ---------------------------------------------------------------------------
  // The empty palette
  // ---------------------------------------------------------------------------

  /** As written, passing an empty list of colours leaves the first star without a colour. */
  lemma EmptyColorsLeaveStarUncoloured()
    ensures ColorAt(StarColorsAsWritten(Some([])), 0) == None
  {
  }

  /** Corrected, every star has a colour from the palette, whatever colours are passed. */
  lemma StarsAlwaysColoured(colors: Option<seq<string>>, i: nat)
    ensures ColorAt(StarColors(colors), i).Some?
    ensures ColorAt(StarColors(colors), i).value in StarColors(colors)
  {
  }

  /** The two palettes differ only on an empty list of colours. */
  lemma PalettesAgreeOtherwise(colors: Option<seq<string>>)
    ensures StarColors(colors) == StarColorsAsWritten(colors) <==> colors.None? || |colors.value| > 0
  {
  }
}
