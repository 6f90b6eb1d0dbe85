/** The per-channel heatmap strip: each channel's intensity grid is drawn
    upside down (Plotly puts row 0 at the bottom) with a five-stop
    colorscale, derived from the channel's colour when one is known and a
    fixed viridis-like ramp otherwise. */
module HeatmapColors {
  import opened Common
  import opened Assoc

  /** An `rgba(r, g, b, a)` colour, kept as its four numbers. */
  datatype Rgba = Rgba(r: real, g: real, b: real, a: real)

  /** A colorscale entry `[position, colour]`. */
  datatype Stop = Stop(position: real, color: Rgba)

  const Transparent: Rgba := Rgba(0.0, 0.0, 0.0, 0.0)

  /** `rgbToColorscale([r, g, b])`. */
  function RgbToColorscale(r: real, g: real, b: real): seq<Stop> {
    [ Stop(0.0, Transparent),
      Stop(0.1, Rgba(r / 2.0, g / 2.0, b / 2.0, 0.4)),
      Stop(0.3, Rgba(r / 1.5, g / 1.5, b / 1.5, 0.6)),
      Stop(0.6, Rgba(r / 1.2, g / 1.2, b / 1.2, 0.8)),
      Stop(1.0, Rgba(r, g, b, 1.0)) ]
  }

  /** The scale used for a channel without a known colour. */
  const FallbackScale: seq<Stop> := [
    Stop(0.0, Transparent),
    Stop(0.1, Rgba(68.0, 1.0, 84.0, 0.4)),
    Stop(0.3, Rgba(59.0, 82.0, 139.0, 0.6)),
    Stop(0.6, Rgba(33.0, 145.0, 140.0, 0.8)),
    Stop(1.0, Rgba(94.0, 201.0, 98.0, 1.0)) ]

  const StopPositions: seq<real> := [0.0, 0.1, 0.3, 0.6, 1.0]

  ghost predicate PositionsIncrease(s: seq<Stop>) {
    forall i, j :: 0 <= i < j < |s| ==> s[i].position < s[j].position
  }

  /** Every channel and the alpha grow (weakly) from stop to stop. */
  ghost predicate ColorsGrow(s: seq<Stop>) {
    forall i, j :: 0 <= i < j < |s| ==>
      s[i].color.r <= s[j].color.r && s[i].color.g <= s[j].color.g &&
      s[i].color.b <= s[j].color.b && s[i].color.a <= s[j].color.a
  }

  /** Five stops at 0, 0.1, 0.3, 0.6 and 1: transparent black first, the
      colour itself at full alpha last, and in between the colour divided by
      2, 1.5 and 1.2 at alphas 0.4, 0.6 and 0.8. */
  lemma ColorscaleStops(r: real, g: real, b: real)
    ensures var s := RgbToColorscale(r, g, b);
      && |s| == 5
      && (forall i :: 0 <= i < 5 ==> s[i].position == StopPositions[i])
      && PositionsIncrease(s)
      && s[0].color == Transparent
      && s[4].color == Rgba(r, g, b, 1.0)
      && s[1].color == Rgba(r / 2.0, g / 2.0, b / 2.0, 0.4)
      && s[2].color == Rgba(r / 1.5, g / 1.5, b / 1.5, 0.6)
      && s[3].color == Rgba(r / 1.2, g / 1.2, b / 1.2, 0.8)
  {
  }

  /** For a colour with non-negative components the ramp brightens and
      becomes more opaque from stop to stop. */
  lemma ColorscaleGrows(r: real, g: real, b: real)
    requires r >= 0.0 && g >= 0.0 && b >= 0.0
    ensures ColorsGrow(RgbToColorscale(r, g, b))
  {
  }

  /** The fallback has the same positions and alphas, and starts transparent. */
  lemma FallbackStops()
    ensures |FallbackScale| == 5
    ensures forall i :: 0 <= i < 5 ==> FallbackScale[i].position == StopPositions[i]
    ensures PositionsIncrease(FallbackScale)
    ensures FallbackScale[0].color == Transparent
    ensures forall i :: 0 <= i < 5 ==> FallbackScale[i].color.a == RgbToColorscale(0.0, 0.0, 0.0)[i].color.a
  {
  }

  /** `imageChannels[channelName].color`, an `[r, g, b]` triple. */
  datatype ChannelInfo = ChannelInfo(color: (real, real, real))

  type Grid = seq<seq<real>>

  /** `heatmapResults`: `channelHeatmaps` is `None` when the property is absent. */
  datatype Results = Results(channelHeatmaps: Option<AList<Grid>>)

  datatype ChannelPlot = ChannelPlot(title: string, z: Grid, colorscale: seq<Stop>)

  function ChannelColorscale(imageChannels: Option<AList<ChannelInfo>>, name: string): seq<Stop> {
    if imageChannels.Some? && Lookup(imageChannels.value, name).Some? then
      var c := Lookup(imageChannels.value, name).value.color;
      RgbToColorscale(c.0, c.1, c.2)
    else FallbackScale
  }

  /** One plot per channel entry, in entry order. */
  function Plots(entries: AList<Grid>, imageChannels: Option<AList<ChannelInfo>>): seq<ChannelPlot> {
    seq(|entries|, i requires 0 <= i < |entries| =>
      ChannelPlot(entries[i].0, Reverse(entries[i].1), ChannelColorscale(imageChannels, entries[i].0)))
  }

  /** What the component draws: nothing at all for a missing result (`None`),
      otherwise the close button and the plots, of which there are none when
      the result has no non-empty `channelHeatmaps`. */
  function HeatmapPlots(results: Option<Results>, imageChannels: Option<AList<ChannelInfo>>): Option<seq<ChannelPlot>> {
    if results.None? then None
    else if results.value.channelHeatmaps.None? || results.value.channelHeatmaps.value == [] then Some([])
    else Some(Plots(results.value.channelHeatmaps.value, imageChannels))
  }

  /** Each channel gets one plot, titled by the channel, whose rows are the
      channel's rows bottom-up (so the original rows read back by reversing
      again), coloured from the channel's colour when known and by the
      fallback otherwise. */
  lemma HeatmapPlotsFacts(results: Option<Results>, imageChannels: Option<AList<ChannelInfo>>)
    ensures HeatmapPlots(results, imageChannels).None? <==> results.None?
    ensures results.Some? && results.value.channelHeatmaps.Some? ==>
      var es := results.value.channelHeatmaps.value; var ps := HeatmapPlots(results, imageChannels).value;
      && |ps| == |es|
      && forall i :: 0 <= i < |es| ==>
           && ps[i].title == es[i].0
           && ps[i].z == Reverse(es[i].1)
           && Reverse(ps[i].z) == es[i].1
           && (forall k :: 0 <= k < |es[i].1| ==> ps[i].z[k] == es[i].1[|es[i].1| - 1 - k])
           && (imageChannels.None? || Lookup(imageChannels.value, es[i].0).None? ==> ps[i].colorscale == FallbackScale)
           && (imageChannels.Some? && Lookup(imageChannels.value, es[i].0).Some? ==>
                 var c := Lookup(imageChannels.value, es[i].0).value.color;
                 ps[i].colorscale == RgbToColorscale(c.0, c.1, c.2))
  {
    if results.Some? && results.value.channelHeatmaps.Some? {
      var es := results.value.channelHeatmaps.value;
      var ps := HeatmapPlots(results, imageChannels).value;
      forall i | 0 <= i < |es|
        ensures Reverse(ps[i].z) == es[i].1
        ensures forall k :: 0 <= k < |es[i].1| ==> ps[i].z[k] == es[i].1[|es[i].1| - 1 - k]
      {
        ReverseInvolutive(es[i].1);
        forall k | 0 <= k < |es[i].1| ensures ps[i].z[k] == es[i].1[|es[i].1| - 1 - k] {
          ReverseAt(es[i].1, k);
        }
      }
    }
  }

  /** The main view renders the component without `imageChannels`, so every
      channel is drawn with the fallback scale. */
  function AppHeatmapPlots(results: Option<Results>): Option<seq<ChannelPlot>> {
    HeatmapPlots(results, None)
  }

  lemma AppUsesFallback(results: Option<Results>)
    ensures AppHeatmapPlots(results).Some? ==>
      forall p :: p in AppHeatmapPlots(results).value ==> p.colorscale == FallbackScale
  {
  }
}
