/** components/MethodControls.tsx: the sliders shown for each depth method,
    the value each displays (`params.key || default`) and the update each
    makes (`{ ...params, [key]: value }`). */
module MethodControls {
  import opened MethodParams
  import DepthEstimator
  import opened Uint8

  /** One `CustomSlider`: the parameter it edits, the default it displays
      when that parameter is falsy, and its range and step. */
  datatype Slider = Slider(key: string, fallback: real, min: real, max: real, step: real)

  /** `updateParam(key, value)`. */
  function UpdateParam(params: Params, key: string, value: real): (r: Params)
    ensures r.Keys == params.Keys + {key}
    ensures r[key] == Num(value)
    ensures forall k | k in params && k != key :: r[k] == params[k]
  {
    params[key := Num(value)]
  }

  /** The sliders `renderControls` shows for a method: three for each known
      method, none for an unknown one. */
  function Controls(depthMethod: string): (r: seq<Slider>)
    ensures KnownMethod(depthMethod) ==> |r| == 3
    ensures !KnownMethod(depthMethod) ==> r == []
  {
    if depthMethod == "depth-anything-v2" then
      [ Slider("resolution", 768.0, 384.0, 1024.0, 64.0),
        Slider("confidence", 0.5, 0.1, 1.0, 0.1),
        Slider("quality", 1.0, 0.0, 2.0, 1.0) ]
    else if depthMethod == "midas" then
      [ Slider("resolution", 384.0, 256.0, 768.0, 64.0),
        Slider("alpha", 0.6, 0.1, 1.0, 0.1),
        Slider("smoothing", 0.5, 0.0, 1.0, 0.1) ]
    else if depthMethod == "marigold" then
      [ Slider("steps", 10.0, 4.0, 50.0, 2.0),
        Slider("ensemble", 4.0, 1.0, 10.0, 1.0),
        Slider("resolution", 768.0, 512.0, 1024.0, 64.0) ]
    else if depthMethod == "tfjs-depth" then
      [ Slider("segmentation", 0.7, 0.3, 1.0, 0.1),
        Slider("smoothing", 0.5, 0.1, 1.0, 0.1),
        Slider("focus", 0.8, 0.0, 1.0, 0.1) ]
    else if depthMethod == "depth-pro" then
      [ Slider("sharpness", 1.0, 0.5, 2.0, 0.1),
        Slider("scale", 1.0, 0.5, 2.0, 0.1),
        Slider("quality", 1.0, 0.0, 2.0, 1.0) ]
    else
      []
  }

  /** The value a slider displays: `params[key] || default`; the stored
      number when it is truthy, the default otherwise, so never 0 when the
      default is not. */
  function DisplayedValue(params: Params, s: Slider): (r: real)
    ensures r == s.fallback || (Truthy(params, s.key) && r == params[s.key].v)
    ensures s.fallback != 0.0 ==> r != 0.0
  {
    ParamOr(params, s.key, s.fallback)
  }

  predicate KnownMethod(depthMethod: string)
  {
    depthMethod in {"depth-anything-v2", "midas", "marigold", "tfjs-depth", "depth-pro"}
  }

  /** Every slider has a non-empty range containing its default, a positive
      step, and a non-zero (truthy) default. */
  lemma SlidersWellFormed(depthMethod: string, i: nat)
    requires i < |Controls(depthMethod)|
    ensures var s := Controls(depthMethod)[i];
            s.min < s.max && s.min <= s.fallback <= s.max && s.step > 0.0 && s.fallback != 0.0
  {
  }

  /** A slider displays the stored number when it is truthy and its default
      otherwise; so a slider never displays 0, and it displays an in-range
      number whenever the stored one is in range or falsy. */
  lemma {:induction false} DisplayedValueRange(params: Params, depthMethod: string, i: nat)
    requires i < |Controls(depthMethod)|
    ensures var s := Controls(depthMethod)[i];
            DisplayedValue(params, s) != 0.0
            && (Truthy(params, s.key) ==> DisplayedValue(params, s) == params[s.key].v)
            && (!Truthy(params, s.key) ==> DisplayedValue(params, s) == s.fallback)
            && ((!Truthy(params, s.key) || s.min <= params[s.key].v <= s.max)
                ==> s.min <= DisplayedValue(params, s) <= s.max)
  {
    SlidersWellFormed(depthMethod, i);
  }

  /** Which slider of a known method edits the parameter the depth pass reads. */
  function ScaleSlider(depthMethod: string): nat
  {
    if depthMethod == "depth-pro" then 0
    else if depthMethod == "tfjs-depth" then 2
    else 1
  }

  /** What a method's scale slider displays is what the depth pass computes
      with: storing the displayed number explicitly changes no gray level.
      In particular the displayed defaults (confidence 0.5, alpha 0.6,
      ensemble 4, focus 0.8, sharpness 1.0) are the estimator's own. */
  lemma {:induction false} DisplayedIsComputed(depthMethod: string, params: Params, pow: real -> real, r: Byte, g: Byte, b: Byte)
    requires KnownMethod(depthMethod)
    ensures ScaleSlider(depthMethod) < |Controls(depthMethod)|
    ensures var s := Controls(depthMethod)[ScaleSlider(depthMethod)];
            DepthEstimator.RawGray(depthMethod, UpdateParam(params, s.key, DisplayedValue(params, s)), pow, r, g, b)
            == DepthEstimator.RawGray(depthMethod, params, pow, r, g, b)
  {
    var s := Controls(depthMethod)[ScaleSlider(depthMethod)];
    var params' := UpdateParam(params, s.key, DisplayedValue(params, s));
    if depthMethod == "depth-anything-v2" {
      assert s.key == "confidence" && s.fallback == 0.5;
      ParamOrWriteBack(params, "confidence", 0.5, 0.5);
    } else if depthMethod == "midas" {
      assert s.key == "alpha" && s.fallback == 0.6;
      ParamOrWriteBack(params, "alpha", 0.6, 0.6);
    } else if depthMethod == "marigold" {
      assert s.key == "ensemble" && s.fallback == 4.0;
      ParamOrWriteBack(params, "ensemble", 4.0, 4.0);
    } else if depthMethod == "tfjs-depth" {
      assert s.key == "focus" && s.fallback == 0.8;
      ParamOrWriteBack(params, "focus", 0.8, 0.8);
    } else {
      assert s.key == "sharpness" && s.fallback == 1.0;
      ParamOrWriteBack(params, "sharpness", 1.0, 1.0);
    }
  }

  /** The focus slider lets the user pick 0, but a stored 0 is displayed as
      0.8 and the depth pass also scales by 0.8. */
  lemma ChosenZeroFocus(params: Params, pow: real -> real, r: Byte, g: Byte, b: Byte)
    ensures Controls("tfjs-depth")[2].min == 0.0
    ensures DisplayedValue(UpdateParam(params, "focus", 0.0), Controls("tfjs-depth")[2]) == 0.8
    ensures DepthEstimator.RawGray("tfjs-depth", UpdateParam(params, "focus", 0.0), pow, r, g, b)
            == (r as real * 0.1 + g as real * 0.8 + b as real * 0.1) * 0.8
  {
  }
}
