/** The `App` component of app/index.tsx as a state machine: it owns the
    selected image, the derived depth map and coloured image, and the
    settings that drive them, and its handlers replace, regenerate and
    recolour those artifacts. Images are modelled as decoded RGBA buffers;
    decoding, canvas drawing and data-URL encoding are identities here. */
module Pipeline {
  import opened Uint8
  import opened MethodParams
  import opened ColorUtils
  import DepthEstimator
  import Colorizer
  import GradientControls

  datatype Option<T> = None | Some(value: T)

  /** `edgeSettings`: stored, never used by the pixel passes. */
  datatype EdgeSettings = EdgeSettings(enabled: bool, color: string, thickness: real)

  /** What a press of the generate button reports (the alerts of the source). */
  datatype GenerateOutcome = ValidationError | Generated | GenerationFailed

  /** A decoded RGBA8 raster, row-major, four bytes per pixel. */
  type Raster = seq<Byte>

  predicate WholePixels(r: Raster)
  {
    |r| % 4 == 0
  }

  /** The settings the user edits, which the handlers below only read
      unless they are the one being set. */
  datatype Settings = Settings(
    selectedTool: string,
    selectedMethod: string,
    methodParams: Params,
    gradientColors: GradientControls.GradientColors,
    edgeSettings: EdgeSettings,
    enhancementSettings: Colorizer.Enhancement,
    showBottomSheet: bool,
    bottomSheetContent: string)

  /** A copy of a raster in a fresh buffer, as `getImageData` gives. */
  method CopyToBuffer(r: Raster) returns (data: array<Byte>)
    ensures fresh(data) && data[..] == r
  {
    data := new Byte[|r|](i requires 0 <= i < |r| => r[i]);
  }

  class App {
    var selectedImage: Option<Raster>
    var selectedTool: string
    var selectedMethod: string
    var methodParams: Params
    var depthMap: Option<Raster>
    var coloredImage: Option<Raster>
    var gradientColors: GradientControls.GradientColors
    var edgeSettings: EdgeSettings
    var enhancementSettings: Colorizer.Enhancement
    var isGenerating: bool
    var showBottomSheet: bool
    var bottomSheetContent: string
    /** Every value written to `isGenerating`, oldest first. */
    ghost var busyLog: seq<bool>

    /** Artifacts match their inputs: a depth map exists only for a selected
        image, has its size and alpha and is gray; a coloured image exists
        only beside a depth map and has its size and alpha. */
    ghost predicate Valid()
      reads this
    {
      && (selectedImage.Some? ==> WholePixels(selectedImage.value))
      && (depthMap.Some? ==>
            && selectedImage.Some?
            && |depthMap.value| == |selectedImage.value|
            && DepthEstimator.Monochrome(depthMap.value)
            && DepthEstimator.SameAlpha(depthMap.value, selectedImage.value))
      && (coloredImage.Some? ==>
            && depthMap.Some?
            && |coloredImage.value| == |depthMap.value|
            && DepthEstimator.SameAlpha(coloredImage.value, depthMap.value))
    }

    ghost function CurrentSettings(): Settings
      reads this
    {
      Settings(selectedTool, selectedMethod, methodParams, gradientColors, edgeSettings,
               enhancementSettings, showBottomSheet, bottomSheetContent)
    }

    /** The colouring of a depth buffer under the current colours and settings. */
    ghost function ColoredFrom(d: Raster): Raster
      reads this
      requires WholePixels(d)
    {
      Colorizer.Colorize(d, HexToRgb(gradientColors.foreground), HexToRgb(gradientColors.background),
                         enhancementSettings)
    }

    /** The initial `useState` values. */
    constructor ()
      ensures Valid()
      ensures selectedImage == None && depthMap == None && coloredImage == None
      ensures selectedTool == "" && selectedMethod == "" && methodParams == map[]
      ensures gradientColors == GradientControls.GradientColors("#FF0000", "#0000FF")
      ensures edgeSettings == EdgeSettings(true, "#000000", 2.0)
      ensures enhancementSettings == Colorizer.DefaultEnhancement
      ensures !isGenerating && !showBottomSheet && bottomSheetContent == "" && busyLog == []
    {
      selectedImage, selectedTool, selectedMethod, methodParams := None, "", "", map[];
      depthMap, coloredImage := None, None;
      gradientColors := GradientControls.GradientColors("#FF0000", "#0000FF");
      edgeSettings := EdgeSettings(true, "#000000", 2.0);
      enhancementSettings := Colorizer.DefaultEnhancement;
      isGenerating, showBottomSheet, bottomSheetContent := false, false, "";
      busyLog := [];
    }

    /** `handleImageSelect`: a new image clears both artifacts and the tool. */
    method HandleImageSelect(image: Raster)
      requires Valid() && WholePixels(image)
      modifies this
      ensures Valid()
      ensures selectedImage == Some(image) && depthMap == None && coloredImage == None
      ensures CurrentSettings() == old(CurrentSettings()).(selectedTool := "")
      ensures isGenerating == old(isGenerating) && busyLog == old(busyLog)
    {
      selectedImage := Some(image);
      depthMap := None;
      coloredImage := None;
      selectedTool := "";
    }

    /** `handleToolSelect`: opens the bottom sheet on a tool. */
    method HandleToolSelect(toolId: string)
      requires Valid()
      modifies this
      ensures Valid()
      ensures CurrentSettings() == old(CurrentSettings()).(selectedTool := toolId, bottomSheetContent := toolId, showBottomSheet := true)
      ensures selectedImage == old(selectedImage) && depthMap == old(depthMap) && coloredImage == old(coloredImage)
      ensures isGenerating == old(isGenerating) && busyLog == old(busyLog)
    {
      selectedTool := toolId;
      bottomSheetContent := toolId;
      showBottomSheet := true;
    }

    /** `setSelectedMethod` from the method selector; nothing is recomputed. */
    method SetSelectedMethod(depthMethod: string)
      requires Valid()
      modifies this
      ensures Valid()
      ensures CurrentSettings() == old(CurrentSettings()).(selectedMethod := depthMethod)
      ensures selectedImage == old(selectedImage) && depthMap == old(depthMap) && coloredImage == old(coloredImage)
      ensures isGenerating == old(isGenerating) && busyLog == old(busyLog)
    {
      selectedMethod := depthMethod;
    }

    /** `setMethodParams` from the method controls; nothing is recomputed. */
    method SetMethodParams(params: Params)
      requires Valid()
      modifies this
      ensures Valid()
      ensures CurrentSettings() == old(CurrentSettings()).(methodParams := params)
      ensures selectedImage == old(selectedImage) && depthMap == old(depthMap) && coloredImage == old(coloredImage)
      ensures isGenerating == old(isGenerating) && busyLog == old(busyLog)
    {
      methodParams := params;
    }

    /** `applyColorsToDepthMap`: without a depth map nothing happens;
        otherwise the coloured image becomes the colouring of the depth map
        under the current colours and enhancement settings. */
    method ApplyColorsToDepthMap()
      requires Valid()
      modifies this
      ensures Valid()
      ensures old(depthMap).None? ==> coloredImage == old(coloredImage)
      ensures old(depthMap).Some? ==> WholePixels(old(depthMap).value) && coloredImage == Some(ColoredFrom(old(depthMap).value))
      ensures CurrentSettings() == old(CurrentSettings())
      ensures selectedImage == old(selectedImage) && depthMap == old(depthMap)
      ensures isGenerating == old(isGenerating) && busyLog == old(busyLog)
    {
      if depthMap.None? {
        return;
      }
      var fgColor := HexToRgb(gradientColors.foreground);
      var bgColor := HexToRgb(gradientColors.background);
      var data := CopyToBuffer(depthMap.value);
      Colorizer.ApplyColors(data, fgColor, bgColor, enhancementSettings);
      Colorizer.ColorizeShape(depthMap.value, fgColor, bgColor, enhancementSettings);
      coloredImage := Some(data[..]);
    }

    /** The `useEffect` on gradient, enhancement and edge settings: recolour
        only when a depth map exists. */
    method SettingsChanged()
      requires Valid()
      modifies this
      ensures Valid()
      ensures old(depthMap).None? ==> coloredImage == old(coloredImage)
      ensures old(depthMap).Some? ==> WholePixels(old(depthMap).value) && coloredImage == Some(ColoredFrom(old(depthMap).value))
      ensures CurrentSettings() == old(CurrentSettings())
      ensures selectedImage == old(selectedImage) && depthMap == old(depthMap)
      ensures isGenerating == old(isGenerating) && busyLog == old(busyLog)
    {
      if depthMap.Some? {
        ApplyColorsToDepthMap();
      }
    }

    /** `setGradientColors` followed by the effect it triggers. */
    method SetGradientColors(colors: GradientControls.GradientColors)
      requires Valid()
      modifies this
      ensures Valid()
      ensures CurrentSettings() == old(CurrentSettings()).(gradientColors := colors)
      ensures old(depthMap).None? ==> coloredImage == old(coloredImage)
      ensures old(depthMap).Some? ==> WholePixels(old(depthMap).value) && coloredImage == Some(ColoredFrom(old(depthMap).value))
      ensures selectedImage == old(selectedImage) && depthMap == old(depthMap)
      ensures isGenerating == old(isGenerating) && busyLog == old(busyLog)
    {
      gradientColors := colors;
      SettingsChanged();
    }

    /** `setEnhancementSettings` followed by the effect it triggers. */
    method SetEnhancementSettings(enh: Colorizer.Enhancement)
      requires Valid()
      modifies this
      ensures Valid()
      ensures CurrentSettings() == old(CurrentSettings()).(enhancementSettings := enh)
      ensures old(depthMap).None? ==> coloredImage == old(coloredImage)
      ensures old(depthMap).Some? ==> WholePixels(old(depthMap).value) && coloredImage == Some(ColoredFrom(old(depthMap).value))
      ensures selectedImage == old(selectedImage) && depthMap == old(depthMap)
      ensures isGenerating == old(isGenerating) && busyLog == old(busyLog)
    {
      enhancementSettings := enh;
      SettingsChanged();
    }

    /** `setEdgeSettings` followed by the effect it triggers; the edge
        settings themselves do not change the pixels. */
    method SetEdgeSettings(edge: EdgeSettings)
      requires Valid()
      modifies this
      ensures Valid()
      ensures CurrentSettings() == old(CurrentSettings()).(edgeSettings := edge)
      ensures old(depthMap).None? ==> coloredImage == old(coloredImage)
      ensures old(depthMap).Some? ==> WholePixels(old(depthMap).value) && coloredImage == Some(ColoredFrom(old(depthMap).value))
      ensures selectedImage == old(selectedImage) && depthMap == old(depthMap)
      ensures isGenerating == old(isGenerating) && busyLog == old(busyLog)
    {
      edgeSettings := edge;
      SettingsChanged();
    }

    /** `generateDepthMap` as one step. Without an image or a method it
        reports a validation error and changes nothing. Otherwise it raises
        `isGenerating`, runs (its loading steps succeed or fail as `succeeds`
        says), stores the depth map of the selected image on success, keeps
        the old one on failure, and lowers `isGenerating` in either case.
        The coloured image is not recomputed: the depth map is not among the
        effect's dependencies. `pow` stands for `Math.pow(_, 1.2)`. */
    method GenerateDepthMap(pow: real -> real, succeeds: bool) returns (outcome: GenerateOutcome)
      requires Valid()
      modifies this
      ensures Valid()
      ensures outcome == ValidationError <==> old(selectedImage).None? || old(selectedMethod) == ""
      ensures outcome == Generated <==> outcome != ValidationError && succeeds
      ensures outcome == ValidationError ==> isGenerating == old(isGenerating) && busyLog == old(busyLog)
      ensures outcome != ValidationError ==> !isGenerating && busyLog == old(busyLog) + [true, false]
      ensures outcome == Generated ==>
                WholePixels(old(selectedImage).value)
                && depthMap == Some(DepthEstimator.DepthMap(old(selectedImage).value, old(selectedMethod), old(methodParams), pow))
      ensures outcome != Generated ==> depthMap == old(depthMap)
      ensures CurrentSettings() == old(CurrentSettings())
      ensures selectedImage == old(selectedImage) && coloredImage == old(coloredImage)
    {
      if selectedImage.None? || selectedMethod == "" {
        return ValidationError;
      }
      isGenerating := true;
      busyLog := busyLog + [true];
      if succeeds {
        var source := selectedImage.value;
        var data := CopyToBuffer(source);
        DepthEstimator.EstimateDepth(data, selectedMethod, methodParams, pow);
        DepthEstimator.DepthMapShape(source, selectedMethod, methodParams, pow);
        depthMap := Some(data[..]);
        outcome := Generated;
      } else {
        outcome := GenerationFailed;
      }
      isGenerating := false;
      busyLog := busyLog + [false];
    }

    /** The bottom sheet's Apply: regenerate on the depth tool, recolour on
        the gradient tool, nothing else on other tools; the sheet closes. */
    method BottomSheetApply(pow: real -> real, succeeds: bool) returns (outcome: Option<GenerateOutcome>)
      requires Valid()
      modifies this
      ensures Valid()
      ensures outcome.Some? <==> old(selectedTool) == "depth"
      ensures old(selectedTool) == "depth" ==>
                (outcome.value == ValidationError <==> old(selectedImage).None? || old(selectedMethod) == "")
      ensures old(selectedTool) == "depth" ==>
                (outcome.value == Generated <==> outcome.value != ValidationError && succeeds)
      ensures old(selectedTool) == "depth" && outcome.value == ValidationError ==>
                isGenerating == old(isGenerating) && busyLog == old(busyLog)
      ensures old(selectedTool) == "depth" && outcome.value != ValidationError ==>
                !isGenerating && busyLog == old(busyLog) + [true, false]
      ensures old(selectedTool) == "depth" ==> outcome.value == Generated ==>
                old(selectedImage).Some? && WholePixels(old(selectedImage).value)
                && depthMap == Some(DepthEstimator.DepthMap(old(selectedImage).value, old(selectedMethod), old(methodParams), pow))
      ensures old(selectedTool) == "depth" ==> outcome.value != Generated ==> depthMap == old(depthMap)
      ensures old(selectedTool) == "depth" ==> coloredImage == old(coloredImage)
      ensures old(selectedTool) == "gradient" && old(depthMap).Some? ==>
                WholePixels(old(depthMap).value) && coloredImage == Some(ColoredFrom(old(depthMap).value))
      ensures old(selectedTool) != "depth" ==>
                depthMap == old(depthMap) && isGenerating == old(isGenerating) && busyLog == old(busyLog)
      ensures old(selectedTool) != "depth" && (old(selectedTool) != "gradient" || old(depthMap).None?) ==>
                coloredImage == old(coloredImage)
      ensures CurrentSettings() == old(CurrentSettings()).(showBottomSheet := false)
      ensures selectedImage == old(selectedImage)
    {
      if selectedTool == "depth" {
        var o := GenerateDepthMap(pow, succeeds);
        outcome := Some(o);
      } else if selectedTool == "gradient" {
        ApplyColorsToDepthMap();
        outcome := None;
      } else {
        outcome := None;
      }
      showBottomSheet := false;
    }

    /** The bottom sheet's close button: only hides the sheet. */
    method CloseBottomSheet()
      requires Valid()
      modifies this
      ensures Valid()
      ensures CurrentSettings() == old(CurrentSettings()).(showBottomSheet := false)
      ensures selectedImage == old(selectedImage) && depthMap == old(depthMap) && coloredImage == old(coloredImage)
      ensures isGenerating == old(isGenerating) && busyLog == old(busyLog)
    {
      showBottomSheet := false;
    }

    /** The bottom sheet's Revert: on the enhance tool, restore the default
        enhancement settings (which triggers the recolour effect). */
    method BottomSheetRevert()
      requires Valid()
      modifies this
      ensures Valid()
      ensures old(selectedTool) == "enhance" ==>
                CurrentSettings() == old(CurrentSettings()).(enhancementSettings := Colorizer.DefaultEnhancement)
      ensures old(selectedTool) == "enhance" && old(depthMap).Some? ==>
                WholePixels(old(depthMap).value) && coloredImage == Some(ColoredFrom(old(depthMap).value))
      ensures old(selectedTool) != "enhance" ==> CurrentSettings() == old(CurrentSettings())
      ensures old(selectedTool) != "enhance" || old(depthMap).None? ==> coloredImage == old(coloredImage)
      ensures selectedImage == old(selectedImage) && depthMap == old(depthMap)
      ensures isGenerating == old(isGenerating) && busyLog == old(busyLog)
    {
      if selectedTool == "enhance" {
        SetEnhancementSettings(Colorizer.DefaultEnhancement);
      }
    }
  }
}
