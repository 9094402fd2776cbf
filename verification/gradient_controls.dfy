/** The pure updates of components/GradientControls.tsx: setting one endpoint
    colour, swapping the two, editing one entry of the layer list, and the
    colour list the live preview draws. */
module GradientControls {

  /** `{ foreground, background }`, each a hex colour string. */
  datatype GradientColors = GradientColors(foreground: string, background: string)

  datatype ColorSlot = Foreground | Background

  datatype Mode = Simple | Layers | Advanced

  /** An entry of the `layerColors` array; writing past its end leaves holes,
      which read as `undefined`. */
  datatype LayerEntry = Undefined | Defined(hex: string)

  /** The component's initial layer state. */
  const InitialLayerColors: seq<LayerEntry> := [Defined("#FF0000"), Defined("#FFFF00"), Defined("#0000FF")]
  const InitialLayerCount: nat := 3

  /** `updateColor(type, color)`: `{ ...colors, [type]: color }`. */
  function UpdateColor(colors: GradientColors, slot: ColorSlot, color: string): (r: GradientColors)
    ensures slot == Foreground ==> r.foreground == color && r.background == colors.background
    ensures slot == Background ==> r.background == color && r.foreground == colors.foreground
  {
    match slot
    case Foreground => colors.(foreground := color)
    case Background => colors.(background := color)
  }

  /** `invertGradient`: the two endpoints change places. */
  function InvertGradient(colors: GradientColors): (r: GradientColors)
    ensures r.foreground == colors.background && r.background == colors.foreground
  {
    GradientColors(colors.background, colors.foreground)
  }

  /** Inverting twice gives back the original pair. */
  lemma InvertInvolution(colors: GradientColors)
    ensures InvertGradient(InvertGradient(colors)) == colors
  {
  }

  function Other(slot: ColorSlot): ColorSlot
  {
    match slot
    case Foreground => Background
    case Background => Foreground
  }

  /** Setting one endpoint after an inversion is the inversion of setting the
      other endpoint. */
  lemma UpdateAfterInvert(colors: GradientColors, slot: ColorSlot, color: string)
    ensures UpdateColor(InvertGradient(colors), slot, color) == InvertGradient(UpdateColor(colors, Other(slot), color))
  {
  }

  /** `updateLayerColor(index, color)`: a copy of the list with slot `index`
      set; an index past the end lengthens the copy, leaving holes between. */
  function UpdateLayerColor(layers: seq<LayerEntry>, index: nat, color: string): (r: seq<LayerEntry>)
    ensures |r| == if index < |layers| then |layers| else index + 1
    ensures r[index] == Defined(color)
    ensures forall j | 0 <= j < |layers| && j != index :: r[j] == layers[j]
    ensures forall j | |layers| <= j < index :: r[j] == Undefined
  {
    if index < |layers| then layers[index := Defined(color)]
    else layers + seq(index - |layers|, _ => Undefined) + [Defined(color)]
  }

  /** The colour a layer picker shows: `layerColors[i] || '#FFFFFF'`; never
      empty, and either white or the entry stored at `i`. */
  function ShownLayerColor(layers: seq<LayerEntry>, i: nat): (r: string)
    ensures r != ""
    ensures r == "#FFFFFF" || (i < |layers| && layers[i] == Defined(r))
  {
    if i < |layers| && layers[i].Defined? && layers[i].hex != "" then layers[i].hex else "#FFFFFF"
  }

  /** A layer beyond the list, or a hole, is shown as white. */
  lemma MissingLayerShownWhite(layers: seq<LayerEntry>, i: nat)
    requires i >= |layers| || layers[i] == Undefined
    ensures ShownLayerColor(layers, i) == "#FFFFFF"
  {
  }

  /** After a layer is set to a colour its picker shows that colour, and every
      other picker that showed a colour still shows it. */
  lemma {:induction false} ShownAfterUpdate(layers: seq<LayerEntry>, index: nat, color: string, j: nat)
    requires color != ""
    ensures ShownLayerColor(UpdateLayerColor(layers, index, color), index) == color
    ensures j != index ==> ShownLayerColor(UpdateLayerColor(layers, index, color), j) == ShownLayerColor(layers, j)
  {
    var r := UpdateLayerColor(layers, index, color);
    if j != index && j < |r| && j >= |layers| {
      assert r[j] == Undefined;
    }
  }

  /** The list `renderGradientPreview` draws. `slice(0, n)` stops at the end:
      in layers mode a prefix of the layers, `layerCount` long unless the
      list is shorter; otherwise background then foreground. */
  function PreviewColors(mode: Mode, colors: GradientColors, layers: seq<LayerEntry>, layerCount: nat): (r: seq<LayerEntry>)
    ensures mode == Layers ==> r <= layers && |r| <= layerCount && (|r| == layerCount || r == layers)
    ensures mode != Layers ==> |r| == 2 && r[0] == Defined(colors.background) && r[1] == Defined(colors.foreground)
  {
    match mode
    case Simple => [Defined(colors.background), Defined(colors.foreground)]
    case Layers => layers[..if layerCount <= |layers| then layerCount else |layers|]
    case Advanced => [Defined(colors.background), Defined(colors.foreground)]
  }

  /** In simple and advanced mode the preview is background then foreground;
      in layers mode it is the first `layerCount` layers (all of them when
      there are fewer). */
  lemma PreviewContents(colors: GradientColors, layers: seq<LayerEntry>, layerCount: nat)
    ensures PreviewColors(Simple, colors, layers, layerCount) == [Defined(colors.background), Defined(colors.foreground)]
    ensures PreviewColors(Advanced, colors, layers, layerCount) == [Defined(colors.background), Defined(colors.foreground)]
    ensures layerCount <= |layers| ==> |PreviewColors(Layers, colors, layers, layerCount)| == layerCount
    ensures layerCount > |layers| ==> PreviewColors(Layers, colors, layers, layerCount) == layers
    ensures forall i | 0 <= i < |PreviewColors(Layers, colors, layers, layerCount)| ::
              PreviewColors(Layers, colors, layers, layerCount)[i] == layers[i]
  {
  }

  /** Before any edit, the layers preview draws the three initial colours,
      red, yellow and blue, and each of the three pickers shows its own. */
  lemma InitialLayersPreview(colors: GradientColors)
    ensures PreviewColors(Layers, colors, InitialLayerColors, InitialLayerCount)
            == [Defined("#FF0000"), Defined("#FFFF00"), Defined("#0000FF")]
    ensures forall i | 0 <= i < InitialLayerCount ::
              Defined(ShownLayerColor(InitialLayerColors, i)) == InitialLayerColors[i]
  {
  }

  /** Inverting reverses the two-colour preview. */
  lemma InvertReversesPreview(mode: Mode, colors: GradientColors, layers: seq<LayerEntry>, layerCount: nat)
    requires mode != Layers
    ensures var p := PreviewColors(mode, InvertGradient(colors), layers, layerCount);
            var q := PreviewColors(mode, colors, layers, layerCount);
            |p| == |q| == 2 && p[0] == q[1] && p[1] == q[0]
  {
  }
}
