/**
 * The colour operations of rio_color/operations.py: the guards of `gamma`,
 * `sigmoidal` and `saturation` around numeric kernels kept abstract, the
 * copy-on-write transform that `_op_factory` builds for one parsed clause, the
 * sequential fold a caller runs over the parsed clauses, and the composite
 * `simple_atmo`.
 *
 * A pixel buffer is band-major: a sequence of bands, each band the sequence of
 * its pixel values. Element-wise operations do not depend on the rows x columns
 * shape of a band, so that shape is not tracked. A numpy array handed to
 * `gamma` or `sigmoidal` is modelled by its elements in storage order.
 */
module Operations {
  import opened Wrappers
  import opened Floats

  /** The pixel values of one band, row after row. */
  type Band = seq<real>

  /** The bands a band-wise clause may select: the parser admits 1, 2 and 3 only. */
  type BandSet = s: set<int> | s <= {1, 2, 3}

  datatype OpName = Gamma | Sigmoidal | Saturation {
    /** The lower-case name the DSL uses, also the compiled function's `__name__`. */
    function Name(): string
    {
      match this
      case Gamma => "gamma"
      case Sigmoidal => "sigmoidal"
      case Saturation => "saturation"
    }

    /** The keyword parameters that positional arguments are bound to, in order. */
    function Params(): seq<string>
    {
      match this
      case Gamma => ["g"]
      case Sigmoidal => ["contrast", "bias"]
      case Saturation => ["proportion"]
    }

    /** Operations that work on the first three bands jointly, as RGB. */
    predicate RgbOp()
    {
      this == Saturation
    }
  }

  /** The exceptions the code raises, one constructor per distinguishable cause. */
  datatype Error =
    | EmptyArray                            // numpy's max() of a zero-size array
    | InputOutOfRange                       // "Input array must have float values between 0 and 1"
    | BiasOutOfRange                        // "bias must be a scalar float between 0 and 1"
    | GammaNotPositive                      // "gamma must be greater than 0"
    | NotThreeBands                         // "saturation requires a 3-band array"
    | MissingArgument(op: OpName)           // TypeError: a parameter left without an argument
    | BandIndexOutOfBounds(band: int)       // IndexError: the buffer has no band `band` (1-based)
    | MissingBandSpec                       // IndexError: a clause of one token has no parts[1]
    | NotAValidOperation(name: string)      // "<name> is not a valid operation"
    | UnknownBand(c: char)                  // KeyError: a band character that is no digit and not r/g/b
    | BandOutOfRange(op: OpName, count: int) // "<op> BAND must be between 1 and <count>"
    | NotANumber(text: string)              // ValueError from float(text)

  /**
   * The numeric kernels, left uninterpreted: `x ** (1.0 / g)`, the forward
   * sigmoid (contrast > 0) and its inverse (every other contrast), each taking
   * the pixel, the bias after the zero substitution and the contrast, and the
   * compiled RGB -> LCH -> RGB saturation of colorspace.pyx.
   */
  datatype Kernels = Kernels(
    power: (real, Float) -> real,
    sigmoidForward: (real, Float, Float) -> real,
    sigmoidInverse: (real, Float, Float) -> real,
    saturateRgb: (Band, Band, Band, Float) -> (Band, Band, Band))

  type Outcome<T> = Result<T, Error>

  /** Every value within [0 - epsilon, 1 + epsilon]. */
  predicate InUnitRange(xs: seq<real>)
  {
    forall i :: 0 <= i < |xs| ==> -Epsilon <= xs[i] <= 1.0 + Epsilon
  }

  /** The input check `arr.max() > 1 + eps or arr.min() < 0 - eps`; numpy's
      reductions raise first on an empty array. */
  function CheckInput(arr: seq<real>): (r: Option<Error>)
    ensures r == None <==> |arr| > 0 && InUnitRange(arr)
    ensures r != None ==> r.value == (if |arr| == 0 then EmptyArray else InputOutOfRange)
  {
    if |arr| == 0 then Some(EmptyArray)
    else if !InUnitRange(arr) then Some(InputOutOfRange)
    else None
  }

  /** `g <= 0 or np.isnan(g)`. */
  predicate GammaRejects(g: Float)
  {
    AtMost(g, 0.0) || g == NaN
  }

  /** `gamma(arr, g)`: the input check, then the exponent check, then x ** (1 / g). */
  function GammaOp(k: Kernels, arr: seq<real>, g: Float): (r: Outcome<seq<real>>)
    ensures r.Ok? <==> |arr| > 0 && InUnitRange(arr) && !GammaRejects(g)
    ensures r.Err? ==> r.error == (if CheckInput(arr) != None then CheckInput(arr).value else GammaNotPositive)
    ensures r.Ok? ==> |r.value| == |arr| && forall i :: 0 <= i < |arr| ==> r.value[i] == k.power(arr[i], g)
  {
    if CheckInput(arr) != None then Err(CheckInput(arr).value)
    else if GammaRejects(g) then Err(GammaNotPositive)
    else Ok(seq(|arr|, i requires 0 <= i < |arr| => k.power(arr[i], g)))
  }

  /** `bias > 1 + eps or bias < 0 - eps`; a NaN bias passes. */
  predicate BiasRejected(bias: Float)
  {
    Greater(bias, 1.0 + Epsilon) || Less(bias, -Epsilon)
  }

  /** The sigmoid of one pixel for a contrast that is not zero. */
  function SigmoidPixel(k: Kernels, x: real, alpha: Float, beta: Float): real
  {
    if Greater(beta, 0.0) then k.sigmoidForward(x, alpha, beta) else k.sigmoidInverse(x, alpha, beta)
  }

  /** The bias the kernels see: a zero bias becomes epsilon. */
  function EffectiveBias(bias: Float): (alpha: Float)
    ensures !IsZero(alpha)
  {
    if IsZero(bias) then Finite(Epsilon) else bias
  }

  /** `sigmoidal(arr, contrast, bias)`. */
  function SigmoidalOp(k: Kernels, arr: seq<real>, contrast: Float, bias: Float): (r: Outcome<seq<real>>)
    ensures r.Ok? <==> |arr| > 0 && InUnitRange(arr) && !BiasRejected(bias)
    ensures r.Err? ==> r.error == (if CheckInput(arr) != None then CheckInput(arr).value else BiasOutOfRange)
    ensures r.Ok? ==> |r.value| == |arr|
    ensures r.Ok? && IsZero(contrast) ==> r.value == arr
    ensures r.Ok? && !IsZero(contrast) ==>
      forall i :: 0 <= i < |arr| ==> r.value[i] == SigmoidPixel(k, arr[i], EffectiveBias(bias), contrast)
  {
    if CheckInput(arr) != None then Err(CheckInput(arr).value)
    else if BiasRejected(bias) then Err(BiasOutOfRange)
    else
      var alpha := EffectiveBias(bias);
      if IsZero(contrast) then Ok(arr)
      else Ok(seq(|arr|, i requires 0 <= i < |arr| => SigmoidPixel(k, arr[i], alpha, contrast)))
  }

  /** `saturation(arr, proportion)`: exactly three bands, or an error. */
  function SaturationOp(k: Kernels, arr: seq<Band>, proportion: Float): (r: Outcome<seq<Band>>)
    ensures r.Ok? <==> |arr| == 3
    ensures r.Err? ==> r.error == NotThreeBands
    ensures r.Ok? ==> var out := k.saturateRgb(arr[0], arr[1], arr[2], proportion);
      r.value == [out.0, out.1, out.2]
  {
    if |arr| != 3 then Err(NotThreeBands)
    else
      var out := k.saturateRgb(arr[0], arr[1], arr[2], proportion);
      Ok([out.0, out.1, out.2])
  }

  /** A zero bias is the same as a bias of epsilon. */
  lemma SigmoidalZeroBias(k: Kernels, arr: seq<real>, contrast: Float)
    ensures SigmoidalOp(k, arr, contrast, Finite(0.0)) == SigmoidalOp(k, arr, contrast, Finite(Epsilon))
  {
  }

  lemma {:induction false} UnitRangeConcat(a: seq<real>, b: seq<real>)
    ensures InUnitRange(a + b) <==> InUnitRange(a) && InUnitRange(b)
  {
    if InUnitRange(a + b) {
      forall i | 0 <= i < |a| ensures -Epsilon <= a[i] <= 1.0 + Epsilon {
        assert a[i] == (a + b)[i];
      }
      forall i | 0 <= i < |b| ensures -Epsilon <= b[i] <= 1.0 + Epsilon {
        assert b[i] == (a + b)[|a| + i];
      }
    }
    if InUnitRange(a) && InUnitRange(b) {
      forall i | 0 <= i < |a + b| ensures -Epsilon <= (a + b)[i] <= 1.0 + Epsilon {
        if i >= |a| {
          assert (a + b)[i] == b[i - |a|];
        }
      }
    }
  }

  /** Sigmoidal contrast on two non-empty parts together is sigmoidal contrast on
      each: same acceptance, and the result is the two results concatenated. */
  lemma {:induction false} SigmoidalConcat(k: Kernels, a: seq<real>, b: seq<real>, contrast: Float, bias: Float)
    requires |a| > 0 && |b| > 0
    ensures SigmoidalOp(k, a + b, contrast, bias).Ok? <==>
      SigmoidalOp(k, a, contrast, bias).Ok? && SigmoidalOp(k, b, contrast, bias).Ok?
    ensures SigmoidalOp(k, a + b, contrast, bias).Ok? ==>
      SigmoidalOp(k, a + b, contrast, bias).value ==
      SigmoidalOp(k, a, contrast, bias).value + SigmoidalOp(k, b, contrast, bias).value
  {
    UnitRangeConcat(a, b);
    var whole := SigmoidalOp(k, a + b, contrast, bias);
    if whole.Ok? {
      var left := SigmoidalOp(k, a, contrast, bias).value;
      var right := SigmoidalOp(k, b, contrast, bias).value;
      assert whole.value == left + right by {
        forall i | 0 <= i < |a + b| ensures whole.value[i] == (left + right)[i] {
          if i >= |a| && !IsZero(contrast) {
            assert (a + b)[i] == b[i - |a|];
          }
        }
      }
    }
  }

  /** One compiled clause (the closure `_op_factory` returns): the operation,
      its bound keyword arguments in parameter order, and the selected bands. */
  datatype Stage = Stage(op: OpName, kwargs: seq<Float>, bands: BandSet)

  /** `func(arr[b - 1], **kwargs)` for a band-wise clause: reading the band
      comes first, then the call's keyword binding, then the operation. */
  function BandCall(k: Kernels, s: Stage, buf: seq<Band>, b: int): (r: Outcome<Band>)
    requires !s.op.RgbOp() && 1 <= b <= 3
  {
    if b > |buf| then Err(BandIndexOutOfBounds(b))
    else if |s.kwargs| < |s.op.Params()| then Err(MissingArgument(s.op))
    else if s.op == Gamma then GammaOp(k, buf[b - 1], s.kwargs[0])
    else SigmoidalOp(k, buf[b - 1], s.kwargs[0], s.kwargs[1])
  }

  /** Reading a missing band raises IndexError, and on a present band only an
      unbound parameter raises TypeError; a result keeps the band's size. */
  lemma BandCallErrors(k: Kernels, s: Stage, buf: seq<Band>, b: int)
    requires !s.op.RgbOp() && 1 <= b <= 3
    ensures var r := BandCall(k, s, buf, b);
      && (r == Err(BandIndexOutOfBounds(b)) <==> b > |buf|)
      && (b <= |buf| ==> (r == Err(MissingArgument(s.op)) <==> |s.kwargs| < |s.op.Params()|))
      && (r.Ok? ==> |r.value| == |buf[b - 1]|)
  {
  }

  /** `func(newarr[0:3], **kwargs)` for the RGB clause. */
  function RgbCall(k: Kernels, s: Stage, buf: seq<Band>): (r: Outcome<seq<Band>>)
    requires s.op.RgbOp()
    ensures r.Ok? <==> |s.kwargs| >= 1 && |buf| >= 3
    ensures r.Err? ==> r.error == if |s.kwargs| < 1 then MissingArgument(s.op) else NotThreeBands
    ensures r.Ok? ==> r == SaturationOp(k, buf[..3], s.kwargs[0])
  {
    if |s.kwargs| < 1 then Err(MissingArgument(s.op))
    else SaturationOp(k, buf[..if |buf| < 3 then |buf| else 3], s.kwargs[0])
  }

  /** Whether the clause writes band index `i` (0-based). */
  predicate Writes(s: Stage, i: int)
  {
    if s.op.RgbOp() then 0 <= i < 3 else i + 1 in s.bands
  }

  /** The error of the first selected band, from band `b` upwards, whose call fails. */
  function FirstFailure(k: Kernels, s: Stage, buf: seq<Band>, b: int): (r: Option<Error>)
    requires !s.op.RgbOp() && 1 <= b <= 4
    ensures r == None <==> forall c :: b <= c <= 3 && c in s.bands ==> BandCall(k, s, buf, c).Ok?
    decreases 4 - b
  {
    if b == 4 then None
    else if b in s.bands && BandCall(k, s, buf, b).Err? then Some(BandCall(k, s, buf, b).error)
    else FirstFailure(k, s, buf, b + 1)
  }

  /**
   * What the compiled clause does to a buffer. A band-wise clause succeeds when
   * every selected band's call does, writes each selected band with that call's
   * result and keeps every other band; the RGB clause rewrites bands 1..3 and
   * keeps the rest. The band count never changes.
   */
  function ApplySpec(k: Kernels, s: Stage, buf: seq<Band>): (r: Outcome<seq<Band>>)
    ensures r.Ok? ==> |r.value| == |buf|
    ensures r.Ok? ==> forall i :: 0 <= i < |buf| && !Writes(s, i) ==> r.value[i] == buf[i]
    ensures !s.op.RgbOp() ==> (r.Ok? <==> forall b :: b in s.bands ==> BandCall(k, s, buf, b).Ok?)
    ensures !s.op.RgbOp() && r.Ok? ==> forall b :: b in s.bands ==> BandCall(k, s, buf, b) == Ok(r.value[b - 1])
    ensures s.op.RgbOp() ==> (r.Ok? <==> RgbCall(k, s, buf).Ok?)
    ensures s.op.RgbOp() && r.Ok? ==> r.value[..3] == RgbCall(k, s, buf).value
  {
    if s.op.RgbOp() then
      match RgbCall(k, s, buf)
      case Err(e) => Err(e)
      case Ok(rgb) => Ok(rgb + buf[3..])
    else
      match FirstFailure(k, s, buf, 1)
      case Some(e) => Err(e)
      case None => Ok(Overwritten(k, s, buf))
  }

  /** Each selected band replaced by its call's result, the others kept. */
  function Overwritten(k: Kernels, s: Stage, buf: seq<Band>): (r: seq<Band>)
    requires !s.op.RgbOp() && FirstFailure(k, s, buf, 1) == None
    ensures |r| == |buf|
  {
    seq(|buf|, i requires 0 <= i < |buf| =>
      if i + 1 in s.bands then BandCall(k, s, buf, i + 1).value else buf[i])
  }

  /** The error a failing clause reports is that of its first failing band. */
  lemma FirstBandErrorWins(k: Kernels, s: Stage, buf: seq<Band>)
    requires !s.op.RgbOp()
    ensures ApplySpec(k, s, buf).Err? ==> FirstFailure(k, s, buf, 1) == Some(ApplySpec(k, s, buf).error)
  {
  }

  /** `arr.copy()`. */
  method CopyBuffer(arr: array<Band>) returns (c: array<Band>)
    ensures fresh(c) && c[..] == arr[..]
  {
    c := new Band[arr.Length];
    forall i | 0 <= i < arr.Length {
      c[i] := arr[i];
    }
  }

  /**
   * The compiled clause as the closure runs it: copy the caller's buffer, then
   * write the selected bands of the copy (ascending, as CPython iterates a set
   * of small integers) from the caller's bands, or the first three bands for
   * the RGB clause. The caller's array is never written.
   */
  method Apply(k: Kernels, s: Stage, arr: array<Band>) returns (r: Outcome<array<Band>>)
    ensures r.Ok? ==> fresh(r.value) && ApplySpec(k, s, arr[..]) == Ok(r.value[..])
    ensures r.Err? ==> ApplySpec(k, s, arr[..]) == Err(r.error)
  {
    var newarr := CopyBuffer(arr);
    var done: Outcome<()>;
    if s.op.RgbOp() {
      done := WriteRgb(k, s, newarr);
    } else {
      done := WriteBands(k, s, arr[..], newarr);
    }
    if done.Err? {
      return Err(done.error);
    }
    return Ok(newarr);
  }

  /** `newarr[0:3] = func(newarr[0:3], **kwargs)`. */
  method WriteRgb(k: Kernels, s: Stage, newarr: array<Band>) returns (r: Outcome<()>)
    requires s.op.RgbOp()
    modifies newarr
    ensures r.Ok? ==> ApplySpec(k, s, old(newarr[..])) == Ok(newarr[..])
    ensures r.Err? ==> ApplySpec(k, s, old(newarr[..])) == Err(r.error)
  {
    var out := RgbCall(k, s, newarr[..]);
    if out.Err? {
      return Err(out.error);
    }
    ghost var orig := newarr[..];
    newarr[0], newarr[1], newarr[2] := out.value[0], out.value[1], out.value[2];
    assert newarr[..] == out.value + orig[3..];
    return Ok(());
  }

  /** `for b in bands: newarr[b - 1] = func(arr[b - 1], **kwargs)`, over a copy of `orig`. */
  method WriteBands(k: Kernels, s: Stage, orig: seq<Band>, newarr: array<Band>) returns (r: Outcome<()>)
    requires !s.op.RgbOp() && newarr[..] == orig
    modifies newarr
    ensures r.Ok? ==> ApplySpec(k, s, orig) == Ok(newarr[..])
    ensures r.Err? ==> ApplySpec(k, s, orig) == Err(r.error)
  {
    for b := 1 to 4
      invariant newarr.Length == |orig|
      invariant CallsSucceedBelow(k, s, orig, b)
      invariant forall i :: 0 <= i < |orig| ==> newarr[i] == PartlyWritten(k, s, orig, b, i)
    {
      if b in s.bands {
        var out := if b > newarr.Length then Err(BandIndexOutOfBounds(b)) else BandCall(k, s, orig, b);
        if out.Err? {
          FailureAt(k, s, orig, b);
          return Err(out.error);
        }
        newarr[b - 1] := out.value;
      }
    }
    WrittenAll(k, s, orig, newarr[..]);
    return Ok(());
  }

  /** Every selected band below `b` has a successful call. */
  predicate CallsSucceedBelow(k: Kernels, s: Stage, buf: seq<Band>, b: int)
    requires !s.op.RgbOp()
  {
    forall c :: 1 <= c < b && c <= 3 && c in s.bands ==> BandCall(k, s, buf, c).Ok?
  }

  /** Band index `i` once the selected bands below `b` have been written. */
  function PartlyWritten(k: Kernels, s: Stage, buf: seq<Band>, b: int, i: int): Band
    requires !s.op.RgbOp() && 0 <= i < |buf| && CallsSucceedBelow(k, s, buf, b)
  {
    if i + 1 in s.bands && i + 1 < b then BandCall(k, s, buf, i + 1).value else buf[i]
  }

  /** When the calls below `b` succeed, the first failure is found from `b` on. */
  lemma {:induction false} FailureFrom(k: Kernels, s: Stage, buf: seq<Band>, b: int)
    requires !s.op.RgbOp() && 1 <= b <= 4 && CallsSucceedBelow(k, s, buf, b)
    ensures FirstFailure(k, s, buf, 1) == FirstFailure(k, s, buf, b)
    decreases b
  {
    if b > 1 {
      FailureFrom(k, s, buf, b - 1);
    }
  }

  /** The loop's early exit: the first failing selected band decides the clause. */
  lemma FailureAt(k: Kernels, s: Stage, buf: seq<Band>, b: int)
    requires !s.op.RgbOp() && 1 <= b <= 3 && b in s.bands && CallsSucceedBelow(k, s, buf, b)
    requires BandCall(k, s, buf, b).Err?
    ensures ApplySpec(k, s, buf) == Err(BandCall(k, s, buf, b).error)
  {
    FailureFrom(k, s, buf, b);
  }

  /** The loop's normal exit: every selected band written is the clause's result. */
  lemma WrittenAll(k: Kernels, s: Stage, buf: seq<Band>, a: seq<Band>)
    requires !s.op.RgbOp() && CallsSucceedBelow(k, s, buf, 4) && |a| == |buf|
    requires forall i :: 0 <= i < |buf| ==> a[i] == PartlyWritten(k, s, buf, 4, i)
    ensures ApplySpec(k, s, buf) == Ok(a)
  {
    FailureFrom(k, s, buf, 4);
    assert a == Overwritten(k, s, buf);
  }

  /** Folding a buffer through the compiled clauses in order, as the colour
      worker does; the first failing clause ends the fold. */
  function RunAll(k: Kernels, stages: seq<Stage>, buf: seq<Band>): (r: Outcome<seq<Band>>)
    ensures r.Ok? ==> |r.value| == |buf|
    ensures r.Ok? ==> forall i :: 3 <= i < |buf| ==> r.value[i] == buf[i]
  {
    if stages == [] then Ok(buf)
    else
      match ApplySpec(k, stages[0], buf)
      case Err(e) => Err(e)
      case Ok(next) => RunAll(k, stages[1..], next)
  }

  /** A clause selecting one band rewrites that band and nothing else. */
  lemma SingleBand(k: Kernels, op: OpName, kwargs: seq<Float>, b: int, buf: seq<Band>)
    requires !op.RgbOp() && 1 <= b <= 3
    ensures ApplySpec(k, Stage(op, kwargs, {b}), buf) ==
      match BandCall(k, Stage(op, kwargs, {b}), buf, b)
      case Err(e) => Err(e)
      case Ok(v) => Ok(buf[b - 1 := v])
  {
    var s := Stage(op, kwargs, {b});
    var r := ApplySpec(k, s, buf);
    if r.Ok? {
      assert r.value == buf[b - 1 := BandCall(k, s, buf, b).value];
    } else {
      assert FirstFailure(k, s, buf, 1) == Some(r.error);
      assert FirstFailure(k, s, buf, 1) == Some(BandCall(k, s, buf, b).error) by {
        assert forall c :: 1 <= c <= 3 && c != b ==> c !in s.bands;
      }
    }
  }

  /** The haze-derived exponents: 1 - haze/3 for green, 1 - haze for blue. */
  function GammaGreen(haze: Float): (g: Float)
    ensures haze.Finite? ==> g == Finite(1.0 - haze.value / 3.0)
    ensures haze == NaN <==> g == NaN
  {
    OneMinus(DividedBy(haze, 3.0))
  }

  function GammaBlue(haze: Float): (g: Float)
    ensures haze.Finite? ==> g == Finite(1.0 - haze.value)
    ensures haze == NaN <==> g == NaN
  {
    OneMinus(haze)
  }

  /** A non-negative finite haze corrects blue at least as strongly as green,
      and neither exponent exceeds 1. */
  lemma AtmoExponents(haze: Float)
    requires haze.Finite? && haze.value >= 0.0
    ensures GammaBlue(haze).value <= GammaGreen(haze).value <= 1.0
    ensures GammaGreen(haze).value - GammaBlue(haze).value == 2.0 * haze.value / 3.0
  {
  }

  /** The intermediate three-band array of `simple_atmo`: red as it is, green
      and blue gamma-corrected; reading a missing band raises IndexError. */
  function AtmoGammaSpec(k: Kernels, rgb: seq<Band>, haze: Float): (r: Outcome<seq<Band>>)
    ensures r.Ok? ==> |rgb| >= 3 && |r.value| == 3 && r.value[0] == rgb[0]
  {
    if |rgb| < 1 then Err(BandIndexOutOfBounds(1))
    else if |rgb| < 2 then Err(BandIndexOutOfBounds(2))
    else
      match GammaOp(k, rgb[1], GammaGreen(haze))
      case Err(e) => Err(e)
      case Ok(green) =>
        if |rgb| < 3 then Err(BandIndexOutOfBounds(3))
        else
          match GammaOp(k, rgb[2], GammaBlue(haze))
          case Err(e) => Err(e)
          case Ok(blue) => Ok([rgb[0], green, blue])
  }

  /**
   * `simple_atmo(rgb, haze, contrast, bias)`: sigmoidal contrast over the
   * intermediate array as a whole, written over bands 1..3 of a copy of `rgb`.
   */
  function SimpleAtmoSpec(k: Kernels, rgb: seq<Band>, haze: Float, contrast: Float, bias: Float): (r: Outcome<seq<Band>>)
    ensures r.Ok? ==> |rgb| >= 3 && |r.value| == |rgb| && r.value[3..] == rgb[3..]
  {
    match AtmoGammaSpec(k, rgb, haze)
    case Err(e) => Err(e)
    case Ok(arr) =>
      match SigmoidalOp(k, arr[0] + arr[1] + arr[2], contrast, bias)
      case Err(e) => Err(e)
      case Ok(out) =>
        var n0, n1 := |arr[0]|, |arr[0]| + |arr[1]|;
        Ok([out[..n0], out[n0..n1], out[n1..]] + rgb[3..])
  }

  /** The recipe succeeds exactly when the input has three bands and each of the
      three calls succeeds. */
  lemma SimpleAtmoSucceeds(k: Kernels, rgb: seq<Band>, haze: Float, contrast: Float, bias: Float)
    ensures var r := SimpleAtmoSpec(k, rgb, haze, contrast, bias);
      r.Ok? <==>
        |rgb| >= 3 && GammaOp(k, rgb[1], GammaGreen(haze)).Ok? && GammaOp(k, rgb[2], GammaBlue(haze)).Ok? &&
        SigmoidalOp(k, rgb[0] + GammaOp(k, rgb[1], GammaGreen(haze)).value + GammaOp(k, rgb[2], GammaBlue(haze)).value,
                    contrast, bias).Ok?
  {
  }

  /** `gamma_b`, `gamma_g`, `arr = np.empty(...)` and the three band assignments. */
  method AtmoGamma(k: Kernels, rgb: array<Band>, haze: Float) returns (r: Outcome<array<Band>>)
    ensures r.Ok? ==> fresh(r.value) && AtmoGammaSpec(k, rgb[..], haze) == Ok(r.value[..])
    ensures r.Err? ==> AtmoGammaSpec(k, rgb[..], haze) == Err(r.error)
  {
    var gammaB := OneMinus(haze);
    var gammaG := OneMinus(DividedBy(haze, 3.0));
    var arr := new Band[3];
    if rgb.Length < 1 {
      return Err(BandIndexOutOfBounds(1));
    }
    arr[0] := rgb[0];
    if rgb.Length < 2 {
      return Err(BandIndexOutOfBounds(2));
    }
    var green := GammaOp(k, rgb[1], gammaG);
    if green.Err? {
      return Err(green.error);
    }
    arr[1] := green.value;
    if rgb.Length < 3 {
      return Err(BandIndexOutOfBounds(3));
    }
    var blue := GammaOp(k, rgb[2], gammaB);
    if blue.Err? {
      return Err(blue.error);
    }
    arr[2] := blue.value;
    assert arr[..] == [rgb[0], green.value, blue.value];
    return Ok(arr);
  }

  method SimpleAtmo(k: Kernels, rgb: array<Band>, haze: Float, contrast: Float, bias: Float)
    returns (r: Outcome<array<Band>>)
    ensures r.Ok? ==> fresh(r.value) && SimpleAtmoSpec(k, rgb[..], haze, contrast, bias) == Ok(r.value[..])
    ensures r.Err? ==> SimpleAtmoSpec(k, rgb[..], haze, contrast, bias) == Err(r.error)
  {
    var gammas := AtmoGamma(k, rgb, haze);
    if gammas.Err? {
      return Err(gammas.error);
    }
    var arr := gammas.value;
    var output := CopyBuffer(rgb);
    var out := SigmoidalOp(k, arr[0] + arr[1] + arr[2], contrast, bias);
    if out.Err? {
      return Err(out.error);
    }
    var n0, n1 := |arr[0]|, |arr[0]| + |arr[1]|;
    ghost var orig := output[..];
    output[0], output[1], output[2] := out.value[..n0], out.value[n0..n1], out.value[n1..];
    assert output[..] == [out.value[..n0], out.value[n0..n1], out.value[n1..]] + orig[3..];
    return Ok(output);
  }

  /** The clauses that the recipe string of `simple_atmo_opstring` compiles to. */
  function AtmoStages(haze: Float, contrast: Float, bias: Float): (r: seq<Stage>)
  {
    [Stage(Gamma, [GammaGreen(haze)], {2}),
     Stage(Gamma, [GammaBlue(haze)], {3}),
     Stage(Sigmoidal, [contrast, bias], {1, 2, 3})]
  }

  /** Every recipe clause is band-wise and binds one argument per parameter. */
  lemma AtmoStagesBound(haze: Float, contrast: Float, bias: Float)
    ensures var r := AtmoStages(haze, contrast, bias);
      && |r| == 3
      && forall i :: 0 <= i < |r| ==> !r[i].op.RgbOp() && |r[i].kwargs| == |r[i].op.Params()|
  {
  }

  /** The three-band sigmoidal clause on a buffer of at least three bands. */
  lemma SigmoidalRgbStage(k: Kernels, contrast: Float, bias: Float, buf: seq<Band>)
    requires |buf| >= 3 && |buf[0]| > 0 && |buf[1]| > 0 && |buf[2]| > 0
    ensures ApplySpec(k, Stage(Sigmoidal, [contrast, bias], {1, 2, 3}), buf).Ok? <==>
      SigmoidalOp(k, buf[0] + buf[1] + buf[2], contrast, bias).Ok?
    ensures ApplySpec(k, Stage(Sigmoidal, [contrast, bias], {1, 2, 3}), buf).Ok? ==>
      var out := SigmoidalOp(k, buf[0] + buf[1] + buf[2], contrast, bias).value;
      var n0, n1 := |buf[0]|, |buf[0]| + |buf[1]|;
      ApplySpec(k, Stage(Sigmoidal, [contrast, bias], {1, 2, 3}), buf).value ==
        [out[..n0], out[n0..n1], out[n1..]] + buf[3..]
  {
    var s := Stage(Sigmoidal, [contrast, bias], {1, 2, 3});
    SigmoidalConcat(k, buf[0], buf[1], contrast, bias);
    SigmoidalConcat(k, buf[0] + buf[1], buf[2], contrast, bias);
    assert BandCall(k, s, buf, 1) == SigmoidalOp(k, buf[0], contrast, bias);
    assert BandCall(k, s, buf, 2) == SigmoidalOp(k, buf[1], contrast, bias);
    assert BandCall(k, s, buf, 3) == SigmoidalOp(k, buf[2], contrast, bias);
    var r := ApplySpec(k, s, buf);
    if r.Ok? {
      var out := SigmoidalOp(k, buf[0] + buf[1] + buf[2], contrast, bias).value;
      var n0, n1 := |buf[0]|, |buf[0]| + |buf[1]|;
      var v0, v1, v2 := r.value[0], r.value[1], r.value[2];
      assert out == v0 + v1 + v2;
      assert out[..n0] == v0 && out[n0..n1] == v1 && out[n1..] == v2;
      assert r.value == [v0, v1, v2] + buf[3..];
    }
  }

  /**
   * The composite recipe and its DSL form agree: on a buffer whose bands all
   * hold the same number of pixels, `simple_atmo` succeeds exactly when the fold
   * of the three recipe clauses does, and then both give the same buffer.
   */
  lemma {:induction false} SimpleAtmoMatchesStages(k: Kernels, rgb: seq<Band>, haze: Float, contrast: Float, bias: Float)
    requires forall i :: 0 <= i < |rgb| ==> |rgb[i]| == |rgb[0]|
    ensures SimpleAtmoSpec(k, rgb, haze, contrast, bias).Ok? <==> RunAll(k, AtmoStages(haze, contrast, bias), rgb).Ok?
    ensures SimpleAtmoSpec(k, rgb, haze, contrast, bias).Ok? ==>
      SimpleAtmoSpec(k, rgb, haze, contrast, bias) == RunAll(k, AtmoStages(haze, contrast, bias), rgb)
  {
    var stages := AtmoStages(haze, contrast, bias);
    var gg, gb := GammaGreen(haze), GammaBlue(haze);
    RunAllThree(k, stages[0], stages[1], stages[2], rgb);
    SingleBand(k, Gamma, [gg], 2, rgb);
    var first := ApplySpec(k, stages[0], rgb);
    if first.Ok? {
      var buf1 := first.value;
      assert buf1 == rgb[1 := GammaOp(k, rgb[1], gg).value];
      SingleBand(k, Gamma, [gb], 3, buf1);
      var second := ApplySpec(k, stages[1], buf1);
      if second.Ok? {
        var buf2 := second.value;
        assert buf2 == buf1[2 := GammaOp(k, rgb[2], gb).value];
        SigmoidalRgbStage(k, contrast, bias, buf2);
        assert buf2[0] == rgb[0] && buf2[3..] == rgb[3..];
      }
    }
  }

  /** Folding through three clauses is applying them one after the other. */
  lemma RunAllThree(k: Kernels, s0: Stage, s1: Stage, s2: Stage, buf: seq<Band>)
    ensures RunAll(k, [s0, s1, s2], buf) ==
      match ApplySpec(k, s0, buf)
      case Err(e) => Err(e)
      case Ok(b1) =>
        match ApplySpec(k, s1, b1)
        case Err(e) => Err(e)
        case Ok(b2) => ApplySpec(k, s2, b2)
  {
    var stages := [s0, s1, s2];
    assert stages[1..] == [s1, s2] && stages[1..][1..] == [s2] && stages[1..][1..][1..] == [];
    var first := ApplySpec(k, s0, buf);
    if first.Ok? {
      var second := ApplySpec(k, s1, first.value);
      if second.Ok? {
        var third := ApplySpec(k, s2, second.value);
        assert RunAll(k, [s2], second.value) == third;
      }
    }
  }
}
