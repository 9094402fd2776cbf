/** The untyped parameter bag `methodParams` shared by the depth estimator
    and the method controls, and the `params.key || fallback` reads both
    make of it. */
module MethodParams {

  /** A JavaScript number as the sliders can produce it. */
  datatype JsNumber = Num(v: real) | NaN

  /** `methodParams`: parameter name to number; a missing key is `undefined`. */
  type Params = map<string, JsNumber>

  /** JavaScript truthiness of `params[key]`: present, not 0 and not NaN. */
  predicate Truthy(params: Params, key: string)
  {
    key in params && params[key].Num? && params[key].v != 0.0
  }

  /** `params[key] || fallback`: either the fallback or a stored non-zero
      number, and never 0 unless the fallback is. */
  function ParamOr(params: Params, key: string, fallback: real): (v: real)
    ensures v == fallback || (key in params && params[key] == Num(v) && v != 0.0)
    ensures fallback != 0.0 ==> v != 0.0
  {
    if Truthy(params, key) then params[key].v else fallback
  }

  /** The fallback is taken exactly when the value is missing, 0 or NaN;
      otherwise the stored number is used. */
  lemma ParamOrFallback(params: Params, key: string, fallback: real)
    ensures (key !in params || params[key] == Num(0.0) || params[key] == NaN)
            ==> ParamOr(params, key, fallback) == fallback
    ensures (key in params && params[key].Num? && params[key].v != 0.0)
            ==> ParamOr(params, key, fallback) == params[key].v
  {
  }

  /** Writing back what `params[key] || fallback` read, with a non-zero
      fallback, reads the same again: the value is truthy either way. */
  lemma {:induction false} ParamOrWriteBack(params: Params, key: string, fallback: real, other: real)
    requires fallback != 0.0
    ensures ParamOr(params[key := Num(ParamOr(params, key, fallback))], key, other)
            == ParamOr(params, key, fallback)
  {
    var v := ParamOr(params, key, fallback);
    assert v != 0.0;
    assert Truthy(params[key := Num(v)], key);
  }
}
