/** The view-model derivation of the HLAC feature bar chart.

    GraphComponent receives a feature vector and an "is computing" flag and
    builds a declarative chart description for the chart engine: a bar
    series (labels, values, colours), a value-axis range, and one mask-image
    annotation per bar. This module models that derivation as pure functions
    and states what the component promises about it as lemmas.
 */
module Graph {
  import opened Decimal

  datatype Option<T> = None | Some(value: T)

  /** Number of HLAC mask dimensions the chart is laid out for. */
  const FeatureCount: nat := 25

  /** Values above this make the value axis auto-fit. */
  const FixedAxisTop: int := 100

  const PositiveColor: string := "#2196F3"
  const NeutralColor: string := "#E0E0E0"
  const OutlineColor: string := "#1976D2"
  const OutlineWidth: nat := 1

  /** Location of the mask images, relative to the deployment base path. */
  const MaskDirectory: string := "bin/hlac_mask/"
  const MaskExtension: string := ".png"

  /** The fixed window of the x axis, whatever the vector length. */
  const XRange: (real, real) := (0.5, 25.5)

  /** One image annotation of the chart layout. */
  datatype ImageAnnotation = ImageAnnotation(
    source: string,
    xref: string,
    yref: string,
    x: int,
    y: real,
    sizex: real,
    sizey: real,
    xanchor: string,
    yanchor: string,
    layer: string,
    sizing: string)

  /** The single bar trace handed to the chart engine. */
  datatype BarSeries = BarSeries(
    x: seq<string>,
    y: seq<real>,
    colors: seq<string>,
    outlineColor: string,
    outlineWidth: nat)

  /** The data-dependent part of the chart layout. */
  datatype Layout = Layout(
    xRange: (real, real),
    yRange: Option<(int, int)>,
    images: seq<ImageAnnotation>)

  datatype ChartSpec = ChartSpec(series: BarSeries, layout: Layout)

  /** What one render pass produces: the chart and whether the busy overlay is drawn. */
  datatype RenderOutput = RenderOutput(chart: ChartSpec, showOverlay: bool)

  // ---------------------------------------------------------------------
  // Derivation steps
  // ---------------------------------------------------------------------

  /** The placeholder shown before any features exist: 25 zeros. */
  function DefaultFeatures(): (d: seq<real>)
    ensures |d| == FeatureCount
    ensures forall i :: 0 <= i < |d| ==> d[i] == 0.0
  {
    seq(FeatureCount, _ => 0.0)
  }

  /** The vector actually charted: the input, or the placeholder when the input is empty. */
  function DisplayFeatures(features: seq<real>): (d: seq<real>)
    ensures |d| > 0
    ensures |features| > 0 ==> d == features
    ensures |features| == 0 ==> |d| == FeatureCount && forall i :: 0 <= i < |d| ==> d[i] == 0.0
  {
    if |features| > 0 then features else DefaultFeatures()
  }

  /** Math.max over a non-empty vector: an element that no element exceeds. */
  function Max(s: seq<real>): (m: real)
    requires |s| > 0
    ensures m in s
    ensures forall i :: 0 <= i < |s| ==> s[i] <= m
  {
    if |s| == 1 then
      s[0]
    else
      var rest := Max(s[1..]);
      assert rest in s;
      if s[0] > rest then s[0] else rest
  }

  /** The value-axis range: auto-fit (None) once the maximum exceeds 100, else [0, 100].
      Either way the axis never starts below zero. */
  function YAxisRange(maxValue: real): (r: Option<(int, int)>)
    ensures r.Some? ==> 0 <= r.value.0 < r.value.1
  {
    if maxValue > FixedAxisTop as real then None else Some((0, FixedAxisTop))
  }

  /** The x labels: bar i is labelled with the decimal text of i + 1. */
  function XLabels(d: seq<real>): (labels: seq<string>)
    ensures |labels| == |d|
    ensures forall i :: 0 <= i < |d| ==> IsCanonical(labels[i]) && Value(labels[i]) == i + 1
  {
    seq(|d|, i requires 0 <= i < |d| => NatToString(i + 1))
  }

  /** The colour of one bar: positive exactly for a value above zero. */
  function BarColor(value: real): (color: string)
    ensures color == PositiveColor <==> value > 0.0
    ensures color == NeutralColor <==> value <= 0.0
  {
    if value > 0.0 then PositiveColor else NeutralColor
  }

  /** One colour per bar: positive exactly for values above zero, neutral otherwise. */
  function BarColors(d: seq<real>): (colors: seq<string>)
    ensures |colors| == |d|
    ensures forall i :: 0 <= i < |d| ==> (colors[i] == PositiveColor <==> d[i] > 0.0)
    ensures forall i :: 0 <= i < |d| ==> (colors[i] == NeutralColor <==> d[i] <= 0.0)
  {
    seq(|d|, i requires 0 <= i < |d| => BarColor(d[i]))
  }

  /** The image path of mask `index`, under the deployment base path. */
  function MaskPath(base: string, index: nat): (path: string)
    ensures ParseMaskPath(base, path) == Some(index)
  {
    base + MaskDirectory + NatToString(index) + MaskExtension
  }

  /** Recovers the mask index from an image path, if it is one of base's mask paths. */
  function ParseMaskPath(base: string, path: string): Option<nat> {
    var prefix := base + MaskDirectory;
    if |path| >= |prefix| + |MaskExtension|
       && path[..|prefix|] == prefix
       && path[|path| - |MaskExtension|..] == MaskExtension
       && IsCanonical(path[|prefix|..|path| - |MaskExtension|])
    then
      Some(Value(path[|prefix|..|path| - |MaskExtension|]))
    else
      None
  }

  /** The annotation placing mask `index` centred under the bar at x = index + 1:
      positioned along the x axis in data units and vertically in paper units,
      just below the plot area, and drawn beneath the bars. */
  function MaskAnnotation(base: string, index: nat): (a: ImageAnnotation)
    ensures ParseMaskPath(base, a.source) == Some(index) && a.x == index + 1
    ensures a.xref == "x" && a.yref == "paper" && a.y < 0.0
    ensures a.xanchor == "center" && a.layer == "below"
  {
    ImageAnnotation(
      source := MaskPath(base, index),
      xref := "x",
      yref := "paper",
      x := index + 1,
      y := -0.06,
      sizex := 0.9,
      sizey := 0.5,
      xanchor := "center",
      yanchor := "middle",
      layer := "below",
      sizing := "contain")
  }

  /** One annotation per bar; annotation i shows mask i at x = i + 1. */
  function MaskAnnotations(base: string, d: seq<real>): (images: seq<ImageAnnotation>)
    ensures |images| == |d|
    ensures forall i :: 0 <= i < |d| ==>
      ParseMaskPath(base, images[i].source) == Some(i) && images[i].x == i + 1
  {
    seq(|d|, i requires 0 <= i < |d| => MaskAnnotation(base, i))
  }

  /** The chart description for a feature vector, given the deployment base path. */
  function DeriveChart(features: seq<real>, base: string): (chart: ChartSpec)
    ensures chart.series.y == DisplayFeatures(features)
    ensures |chart.series.x| == |chart.series.y|
    ensures |chart.series.colors| == |chart.series.y|
    ensures |chart.layout.images| == |chart.series.y|
    ensures chart.series.outlineColor == OutlineColor && chart.series.outlineWidth == OutlineWidth
  {
    var d := DisplayFeatures(features);
    ChartSpec(
      BarSeries(XLabels(d), d, BarColors(d), OutlineColor, OutlineWidth),
      Layout(XRange, YAxisRange(Max(d)), MaskAnnotations(base, d)))
  }

  /** One render pass: the chart, with the busy overlay drawn iff the component is loading. */
  function Render(features: seq<real>, isLoading: bool, base: string): (out: RenderOutput)
    ensures out.chart == DeriveChart(features, base)
    ensures out.showOverlay == isLoading
  {
    RenderOutput(DeriveChart(features, base), isLoading)
  }

  // ---------------------------------------------------------------------
  // Properties
  // ---------------------------------------------------------------------

  /** An empty input charts 25 zero bars, all neutral, on the fixed [0, 100] axis. */
  lemma EmptyInputChartsDefault(base: string)
    ensures var chart := DeriveChart([], base);
      && |chart.series.y| == FeatureCount
      && (forall i :: 0 <= i < FeatureCount ==> chart.series.y[i] == 0.0)
      && (forall i :: 0 <= i < FeatureCount ==> chart.series.colors[i] == NeutralColor)
      && chart.layout.yRange == Some((0, 100))
  {
  }

  /** A non-empty input is charted unchanged, whatever its length. */
  lemma NonEmptyInputChartedAsIs(features: seq<real>, base: string)
    requires |features| > 0
    ensures DeriveChart(features, base).series.y == features
  {
  }

  /** Values, labels, colours and annotations correspond one to one. */
  lemma LengthCorrespondence(features: seq<real>, base: string)
    ensures var chart := DeriveChart(features, base);
      var n := if |features| == 0 then FeatureCount else |features|;
      && |chart.series.y| == n
      && |chart.series.x| == n
      && |chart.series.colors| == n
      && |chart.layout.images| == n
  {
  }

  /** The axis is fixed at [0, 100] exactly when no charted value exceeds 100,
      and auto-fits exactly when some charted value does. */
  lemma AxisRangeRule(features: seq<real>, base: string)
    ensures var chart := DeriveChart(features, base);
      var d := chart.series.y;
      && (chart.layout.yRange == Some((0, 100)) <==> forall i :: 0 <= i < |d| ==> d[i] <= 100.0)
      && (chart.layout.yRange == None <==> exists i :: 0 <= i < |d| && d[i] > 100.0)
  {
  }

  /** The threshold is strict: a maximum of exactly 100 keeps the fixed axis,
      a maximum of 101 makes it auto-fit. */
  lemma AxisRangeBoundary(features: seq<real>, base: string)
    ensures var d := DisplayFeatures(features);
      var r := DeriveChart(features, base).layout.yRange;
      && (Max(d) == 100.0 ==> r == Some((0, 100)))
      && (Max(d) == 101.0 ==> r == None)
  {
  }

  /** Bar i is labelled with the decimal text of i + 1, so labels are 1-based
      and strictly increasing in value. */
  lemma LabelsAreOneBased(features: seq<real>, base: string)
    ensures var x := DeriveChart(features, base).series.x;
      && (forall i :: 0 <= i < |x| ==> x[i] == NatToString(i + 1))
      && (forall i, j :: 0 <= i < j < |x| ==> Value(x[i]) < Value(x[j]))
  {
  }

  /** Bar i is coloured positive exactly when its value is above zero;
      zero and negative values get the neutral colour. */
  lemma ColorRule(features: seq<real>, base: string)
    ensures var s := DeriveChart(features, base).series;
      forall i :: 0 <= i < |s.y| ==>
        && (s.colors[i] == PositiveColor <==> s.y[i] > 0.0)
        && (s.colors[i] == NeutralColor <==> s.y[i] <= 0.0)
  {
  }

  /** A path is base's path of mask i exactly when it parses back to i. */
  lemma MaskPathParse(base: string, path: string, i: nat)
    ensures ParseMaskPath(base, path) == Some(i) <==> path == MaskPath(base, i)
  {
    var prefix := base + MaskDirectory;
    var digits := NatToString(i);
    if path == MaskPath(base, i) {
      assert path == prefix + digits + MaskExtension;
      assert path[..|prefix|] == prefix;
      assert path[|path| - |MaskExtension|..] == MaskExtension;
      assert path[|prefix|..|path| - |MaskExtension|] == digits;
    }
    if ParseMaskPath(base, path) == Some(i) {
      var middle := path[|prefix|..|path| - |MaskExtension|];
      CanonicalRoundTrip(middle);
      assert middle == digits;
      assert path == path[..|prefix|] + middle + path[|path| - |MaskExtension|..];
    }
  }

  /** Annotation i shows mask i, sits at the x position bar i's label names,
      and carries the fixed placement below the axis: it depends on the index only. */
  lemma AnnotationsFollowIndex(features: seq<real>, base: string)
    ensures var chart := DeriveChart(features, base);
      var images := chart.layout.images;
      forall i :: 0 <= i < |images| ==>
        && ParseMaskPath(base, images[i].source) == Some(i)
        && images[i].x == Value(chart.series.x[i])
        && images[i] == MaskAnnotation(base, i)
  {
  }

  /** The strip of mask images is uniform: two annotations differ only in
      the image they show and their x position; every other field (paper-unit
      offset below the axis, size, anchors, layer under the bars, sizing) is
      the same for every index. */
  lemma AnnotationsUniform(base: string, i: nat, j: nat)
    ensures var a, b := MaskAnnotation(base, i), MaskAnnotation(base, j);
      && a.(source := "", x := 0) == b.(source := "", x := 0)
      && a.yref == "paper" && a.y < 0.0
      && a.xanchor == "center" && a.layer == "below"
  {
  }

  /** Distinct bars get distinct mask images. */
  lemma MaskPathsDistinct(base: string, i: nat, j: nat)
    ensures MaskPath(base, i) == MaskPath(base, j) <==> i == j
  {
  }

  /** Two vectors of the same charted length get the same annotations: the values never matter. */
  lemma AnnotationsIgnoreValues(f1: seq<real>, f2: seq<real>, base: string)
    requires |DisplayFeatures(f1)| == |DisplayFeatures(f2)|
    ensures DeriveChart(f1, base).layout.images == DeriveChart(f2, base).layout.images
  {
  }

  /** The x window is [0.5, 25.5] for every input, so bar i is inside it
      exactly when i < 25; bars beyond the 25th fall outside the window.
      A bar's position is taken to be the number its label names: this is how
      the chart engine places numeric label strings, an assumption about that
      engine rather than something this code decides. */
  lemma BarVisibleIffWithinFeatureCount(features: seq<real>, base: string, i: nat)
    requires i < |DisplayFeatures(features)|
    ensures var chart := DeriveChart(features, base);
      && chart.layout.xRange == (0.5, 25.5)
      && (chart.layout.xRange.0 <= Value(chart.series.x[i]) as real <= chart.layout.xRange.1
          <==> i < FeatureCount)
  {
  }

  /** The loading flag only gates the overlay: the chart is the same either way. */
  lemma LoadingOnlyGatesOverlay(features: seq<real>, base: string)
    ensures Render(features, true, base).chart == Render(features, false, base).chart
    ensures Render(features, true, base).showOverlay
    ensures !Render(features, false, base).showOverlay
  {
  }

  /** Example: [150, 0, ..., 0] while loading charts bar 1 positive at 150,
      auto-fits the axis and shows the overlay. */
  lemma LoadingExample(base: string)
    ensures var features := [150.0] + seq(FeatureCount - 1, _ => 0.0);
      var out := Render(features, true, base);
      && |out.chart.series.y| == FeatureCount
      && out.chart.series.y[0] == 150.0
      && out.chart.series.colors[0] == PositiveColor
      && out.chart.series.x[0] == "1"
      && out.chart.layout.yRange == None
      && out.showOverlay
  {
  }
}
