/**
 * rio_color/utils.py: the linear scaling between a raster's unsigned integer
 * values and the unit interval the operations work in, and the translator
 * from a small subset of ImageMagick `convert` options to an operations
 * string in the language of `parse_operations`.
 *
 * `float(text)` and `str(float)` are parameters (`parse`, `render`); the
 * arithmetic on the parsed proportion is exact.
 */
module Utils {
  import opened Wrappers
  import opened Floats
  import opened Text
  import Operations

  // ---------------------------------------------------------------------
  // Scaling between integer dtypes and 0..1

  /** The unsigned integer dtypes of the rasters the tool reads. */
  datatype Dtype = Uint8 | Uint16 {
    /** `numpy.iinfo(dtype).max`. */
    function Max(): nat
    {
      match this
      case Uint8 => 255
      case Uint16 => 65535
    }
  }

  /** Every value is representable in the dtype. */
  predicate InRange(pixels: seq<int>, dtype: Dtype)
  {
    forall i :: 0 <= i < |pixels| ==> 0 <= pixels[i] <= dtype.Max()
  }

  /** `to_math_type`: each value is the fraction of the dtype maximum it stands for. */
  function ToMathType(pixels: seq<int>, dtype: Dtype): (r: seq<real>)
    ensures |r| == |pixels|
    ensures forall i :: 0 <= i < |r| ==> r[i] * dtype.Max() as real == pixels[i] as real
    ensures InRange(pixels, dtype) ==> forall i :: 0 <= i < |r| ==> 0.0 <= r[i] <= 1.0
  {
    seq(|pixels|, i requires 0 <= i < |pixels| => pixels[i] as real / dtype.Max() as real)
  }

  /** `astype` from a float to an integer dtype truncates toward zero. */
  function Truncate(x: real): (r: int)
    ensures x >= 0.0 ==> r as real <= x < r as real + 1.0
    ensures x < 0.0 ==> r as real - 1.0 < x <= r as real
  {
    if x >= 0.0 then x.Floor else -((-x).Floor)
  }

  /** `scale_dtype`: each value times the dtype maximum, truncated; 0.0 becomes
      0 and 1.0 becomes the maximum. */
  function ScaleDtype(values: seq<real>, dtype: Dtype): (r: seq<int>)
    ensures |r| == |values|
    ensures forall i :: 0 <= i < |r| && 0.0 <= values[i] ==>
      r[i] as real <= values[i] * dtype.Max() as real < r[i] as real + 1.0
    ensures forall i :: 0 <= i < |r| && 0.0 <= values[i] <= 1.0 ==> 0 <= r[i] <= dtype.Max()
    ensures forall i :: 0 <= i < |r| && values[i] == 0.0 ==> r[i] == 0
    ensures forall i :: 0 <= i < |r| && values[i] == 1.0 ==> r[i] == dtype.Max()
  {
    seq(|values|, i requires 0 <= i < |values| => Truncate(values[i] * dtype.Max() as real))
  }

  /** Scaling a raster down and back up gives it back. */
  lemma ScaleRoundTrip(pixels: seq<int>, dtype: Dtype)
    requires InRange(pixels, dtype)
    ensures ScaleDtype(ToMathType(pixels, dtype), dtype) == pixels
  {
    var x := ToMathType(pixels, dtype);
    forall i | 0 <= i < |pixels|
      ensures ScaleDtype(x, dtype)[i] == pixels[i]
    {
      assert x[i] * dtype.Max() as real == pixels[i] as real;
      assert (pixels[i] as real).Floor == pixels[i];
    }
  }

  // ---------------------------------------------------------------------
  // magick_to_rio

  /** The flag whose argument the next token is (`nextf`). */
  datatype Pending = NoFlag | ChannelFlag | SigmoidalFlag | GammaFlag | ModulateFlag

  /** The translator between two tokens: the channel selector (the
      module-level `bands`), the pending flag, and the operations emitted. */
  datatype Translator = Translator(bands: string, pending: Pending, ops: seq<string>)

  /** The exceptions the argument handlers raise. */
  datatype MagickError =
    | IndexError           // fewer fields than the handler reads
    | ValueError(text: string)  // `float(text)` of a field that is not a number

  /** `re.split("[,x]+", arg)`: the characters separating the fields of an argument. */
  const Separators: set<char> := {',', 'x'}

  predicate IsFlag(part: string)
  {
    part == "-channel" || part == "+channel" || part == "-sigmoidal-contrast"
    || part == "-gamma" || part == "-modulate"
  }

  /** `set_band(x)`: the selector becomes `x.upper()`. */
  function SetBand(x: string): (r: string)
    ensures SameIgnoringCase(r, x)
    ensures forall i :: 0 <= i < |r| ==> !('a' <= r[i] <= 'z')
  {
    Upper(x)
  }

  /** The text `"sigmoidal {} {} {}".format(bands, contrast, bias)`. */
  function SigmoidalText(bands: string, contrast: string, bias: string): string
  {
    "sigmoidal " + (bands + " " + contrast + " " + bias)
  }

  /** `append_sig(arg)`: one field is the contrast with bias 0.5; two fields are
      contrast and a percentage bias, `%` removed and divided by 100; from
      three fields on, the first two are used verbatim. */
  function AppendSig(bands: string, arg: string, parse: string -> Option<Float>, render: Float -> string)
    : (r: Result<string, MagickError>)
    ensures var args := Fields(arg, Separators);
      && (r == Err(IndexError) <==> |args| == 0)
      && (r.Err? && |args| > 0 ==> |args| == 2 && r.error == ValueError(Remove(args[1], '%')))
      && (r.Ok? ==> StartsWith(r.value, "sigmoidal " + bands + " " + args[0] + " "))
  {
    var args := Fields(arg, Separators);
    if |args| == 0 then Err(IndexError)
    else if |args| == 1 then Ok(SigmoidalText(bands, args[0], render(Finite(0.5))))
    else if |args| == 2 then
      var text := Remove(args[1], '%');
      match parse(text)
      case None => Err(ValueError(text))
      case Some(p) => Ok(SigmoidalText(bands, args[0], render(DividedBy(p, 100.0))))
    else Ok(SigmoidalText(bands, args[0], args[1]))
  }

  /** `append_gamma(arg)`: the argument is copied verbatim. */
  function AppendGamma(bands: string, arg: string): (r: string)
    ensures |r| == |bands| + |arg| + 7
    ensures r[..6] == "gamma " && r[6..6 + |bands|] == bands && r[6 + |bands|] == ' '
    ensures r[7 + |bands|..] == arg
  {
    "gamma " + (bands + " " + arg)
  }

  /** `append_sat(arg)`: the first field is ignored, the second is a percentage. */
  function AppendSat(arg: string, parse: string -> Option<Float>, render: Float -> string)
    : (r: Result<string, MagickError>)
    ensures var args := Fields(arg, Separators);
      && (r == Err(IndexError) <==> |args| < 2)
      && (r.Err? && |args| >= 2 ==> r.error == ValueError(args[1]))
      && (r.Ok? ==> StartsWith(r.value, "saturation "))
  {
    var args := Fields(arg, Separators);
    if |args| < 2 then Err(IndexError)
    else
      match parse(args[1])
      case None => Err(ValueError(args[1]))
      case Some(p) => Ok("saturation " + render(DividedBy(p, 100.0)))
  }

  /** One token of the loop body: a flag sets or resets, any other token is
      the argument of the pending flag, if there is one, and clears it. */
  function Step(st: Translator, part: string, parse: string -> Option<Float>, render: Float -> string)
    : (r: Result<Translator, MagickError>)
  {
    if part == "-channel" then Ok(st.(pending := ChannelFlag))
    else if part == "+channel" then Ok(st.(bands := SetBand("RGB"), pending := NoFlag))
    else if part == "-sigmoidal-contrast" then Ok(st.(pending := SigmoidalFlag))
    else if part == "-gamma" then Ok(st.(pending := GammaFlag))
    else if part == "-modulate" then Ok(st.(pending := ModulateFlag))
    else
      match st.pending
      case NoFlag => Ok(st)
      case ChannelFlag => Ok(st.(bands := SetBand(part), pending := NoFlag))
      case SigmoidalFlag =>
        (match AppendSig(st.bands, part, parse, render)
         case Err(e) => Err(e)
         case Ok(op) => Ok(st.(pending := NoFlag, ops := st.ops + [op])))
      case GammaFlag => Ok(st.(pending := NoFlag, ops := st.ops + [AppendGamma(st.bands, part)]))
      case ModulateFlag =>
        (match AppendSat(part, parse, render)
         case Err(e) => Err(e)
         case Ok(op) => Ok(st.(pending := NoFlag, ops := st.ops + [op])))
  }

  /** A flag never fails and emits nothing; only a pending sigmoidal or modulate
      handler raises; any other token clears the pending flag; and a sigmoidal or
      modulate flag is pending only right after its own token. */
  lemma StepFlags(st: Translator, part: string, parse: string -> Option<Float>, render: Float -> string)
    ensures var r := Step(st, part, parse, render);
      && (IsFlag(part) ==> r.Ok? && r.value.ops == st.ops)
      && (r.Err? ==> !IsFlag(part) && (st.pending == SigmoidalFlag || st.pending == ModulateFlag))
      && (r.Ok? && !IsFlag(part) ==> r.value.pending == NoFlag)
      && (r.Ok? && r.value.pending == SigmoidalFlag ==> part == "-sigmoidal-contrast")
      && (r.Ok? && r.value.pending == ModulateFlag ==> part == "-modulate")
  {
  }

  /** Neither a sigmoidal nor a modulate argument is pending or follows: the
      only handlers that raise are never reached. */
  predicate NoFailingFlag(st: Translator, parts: seq<string>)
  {
    && st.pending != SigmoidalFlag && st.pending != ModulateFlag
    && forall i :: 0 <= i < |parts| ==> parts[i] != "-sigmoidal-contrast" && parts[i] != "-modulate"
  }

  /** Without `-sigmoidal-contrast` and `-modulate`, the translation never raises. */
  lemma {:induction false} TranslateSucceeds(st: Translator, parts: seq<string>,
                                             parse: string -> Option<Float>, render: Float -> string)
    requires NoFailingFlag(st, parts)
    ensures Translate(st, parts, parse, render).Ok?
    decreases |parts|
  {
    if parts != [] {
      StepFlags(st, parts[0], parse, render);
      var next := Step(st, parts[0], parse, render).value;
      assert forall i :: 0 <= i < |parts[1..]| ==> parts[1..][i] == parts[i + 1];
      TranslateSucceeds(next, parts[1..], parse, render);
    }
  }

  /** `magick_to_rio` of options without `-sigmoidal-contrast` and `-modulate`
      returns a string: no exception is raised. */
  lemma TranslationSucceeds(convertOpts: string, parse: string -> Option<Float>, render: Float -> string)
    requires NoFailingFlag(Start, Split(Strip(convertOpts), ' '))
    ensures Translation(convertOpts, parse, render).Ok?
  {
    TranslateSucceeds(Start, Split(Strip(convertOpts), ' '), parse, render);
  }

  /** The loop over the tokens, stopping at the first exception. */
  function Translate(st: Translator, parts: seq<string>, parse: string -> Option<Float>, render: Float -> string)
    : (r: Result<Translator, MagickError>)
    decreases |parts|
  {
    if parts == [] then Ok(st)
    else
      match Step(st, parts[0], parse, render)
      case Err(e) => Err(e)
      case Ok(next) => Translate(next, parts[1..], parse, render)
  }

  lemma TranslateUnfold(st: Translator, parts: seq<string>, i: nat, parse: string -> Option<Float>, render: Float -> string)
    requires i < |parts|
    ensures Translate(st, parts[i..], parse, render) ==
      match Step(st, parts[i], parse, render)
      case Err(e) => Err(e)
      case Ok(next) => Translate(next, parts[i + 1..], parse, render)
  {
    assert parts[i..][0] == parts[i] && parts[i..][1..] == parts[i + 1..];
  }

  /** The state before the first token: selector "RGB", nothing pending. */
  const Start: Translator := Translator("RGB", NoFlag, [])

  /** `magick_to_rio`: the tokens are the stripped options split on single
      spaces; the emitted operations are joined by single spaces. */
  function Translation(convertOpts: string, parse: string -> Option<Float>, render: Float -> string)
    : (r: Result<string, MagickError>)
  {
    match Translate(Start, Split(Strip(convertOpts), ' '), parse, render)
    case Err(e) => Err(e)
    case Ok(st) => Ok(Join(st.ops, ' '))
  }

  /** The body of `magick_to_rio`'s loop for one token, on the selector
      `bands`, the pending flag `nextf` and the operations `ops` so far. */
  method Advance(bands: string, nextf: Pending, ops: seq<string>, part: string,
                 parse: string -> Option<Float>, render: Float -> string)
    returns (r: Result<Translator, MagickError>)
    ensures r == Step(Translator(bands, nextf, ops), part, parse, render)
  {
    if part == "-channel" {
      return Ok(Translator(bands, ChannelFlag, ops));
    } else if part == "+channel" {
      return Ok(Translator(SetBand("RGB"), NoFlag, ops));
    } else if part == "-sigmoidal-contrast" {
      return Ok(Translator(bands, SigmoidalFlag, ops));
    } else if part == "-gamma" {
      return Ok(Translator(bands, GammaFlag, ops));
    } else if part == "-modulate" {
      return Ok(Translator(bands, ModulateFlag, ops));
    }
    var newBands := bands;
    var newOps := ops;
    match nextf {
      case NoFlag =>
      case ChannelFlag =>
        newBands := SetBand(part);
      case SigmoidalFlag =>
        var op := AppendSig(bands, part, parse, render);
        if op.Err? {
          return Err(op.error);
        }
        newOps := ops + [op.value];
      case GammaFlag =>
        newOps := ops + [AppendGamma(bands, part)];
      case ModulateFlag =>
        var op := AppendSat(part, parse, render);
        if op.Err? {
          return Err(op.error);
        }
        newOps := ops + [op.value];
    }
    return Ok(Translator(newBands, NoFlag, newOps));
  }

  /** `magick_to_rio`: the loop over the tokens, with the first exception
      ending it, and the operations joined by spaces. */
  method MagickToRio(convertOpts: string, parse: string -> Option<Float>, render: Float -> string)
    returns (r: Result<string, MagickError>)
    ensures r == Translation(convertOpts, parse, render)
  {
    var parts := Split(Strip(convertOpts), ' ');
    ghost var whole := Translate(Start, parts, parse, render);
    var bands := SetBand("RGB");
    StartBands();
    var nextf := NoFlag;
    var ops: seq<string> := [];
    for i := 0 to |parts|
      invariant whole == Translate(Translator(bands, nextf, ops), parts[i..], parse, render)
    {
      TranslateUnfold(Translator(bands, nextf, ops), parts, i, parse, render);
      var next := Advance(bands, nextf, ops, parts[i], parse, render);
      if next.Err? {
        assert whole == Err(next.error);
        return Err(next.error);
      }
      bands, nextf, ops := next.value.bands, next.value.pending, next.value.ops;
    }
    assert whole == Ok(Translator(bands, nextf, ops));
    return Ok(Join(ops, ' '));
  }

  /** `set_band("RGB")` leaves the selector as it is. */
  lemma StartBands()
    ensures SetBand("RGB") == "RGB"
  {
  }

  // ---------------------------------------------------------------------
  // Properties of the translator

  /** Running two token lists one after the other. */
  lemma {:induction false} TranslateConcat(st: Translator, a: seq<string>, b: seq<string>,
                                           parse: string -> Option<Float>, render: Float -> string)
    ensures Translate(st, a + b, parse, render) ==
      match Translate(st, a, parse, render)
      case Err(e) => Err(e)
      case Ok(mid) => Translate(mid, b, parse, render)
    decreases |a|
  {
    if a == [] {
      assert a + b == b;
    } else {
      assert (a + b)[0] == a[0] && (a + b)[1..] == a[1..] + b;
      match Step(st, a[0], parse, render)
      case Err(e) =>
      case Ok(next) => TranslateConcat(next, a[1..], b, parse, render);
    }
  }

  predicate StartsWith(s: string, prefix: string)
  {
    |prefix| <= |s| && s[..|prefix|] == prefix
  }

  /** The texts the translator emits: each starts with the name of an
      operation of the operations language and a space. */
  predicate Emitted(op: string)
  {
    StartsWith(op, Operations.OpName.Gamma.Name() + " ")
    || StartsWith(op, Operations.OpName.Sigmoidal.Name() + " ")
    || StartsWith(op, Operations.OpName.Saturation.Name() + " ")
  }

  lemma PrefixStartsWith(prefix: string, rest: string)
    ensures StartsWith(prefix + rest, prefix)
  {
    assert (prefix + rest)[..|prefix|] == prefix;
  }

  /** One token keeps the operations already emitted and adds at most one, of
      the emitted form. */
  lemma StepEmits(st: Translator, part: string, parse: string -> Option<Float>, render: Float -> string)
    ensures Step(st, part, parse, render).Ok? ==>
      var ops := Step(st, part, parse, render).value.ops;
      ops == st.ops || (|ops| == |st.ops| + 1 && ops[..|st.ops|] == st.ops && Emitted(ops[|st.ops|]))
  {
    var bands := st.bands;
    var r := Step(st, part, parse, render);
    if r.Ok? && r.value.ops != st.ops {
      var op := r.value.ops[|st.ops|];
      assert r.value.ops == st.ops + [op];
      if st.pending == SigmoidalFlag {
        var args := Fields(part, Separators);
        var tail := if |args| == 1 then render(Finite(0.5))
                    else if |args| == 2 then render(DividedBy(parse(Remove(args[1], '%')).value, 100.0))
                    else args[1];
        assert op == "sigmoidal " + (bands + " " + args[0] + " " + tail);
        PrefixStartsWith("sigmoidal ", bands + " " + args[0] + " " + tail);
      } else if st.pending == GammaFlag {
        PrefixStartsWith("gamma ", bands + " " + part);
      } else {
        PrefixStartsWith("saturation ", render(DividedBy(parse(Fields(part, Separators)[1]).value, 100.0)));
      }
    }
  }

  /** The translator only appends, and everything it appends is of the emitted form. */
  lemma {:induction false} OnlyAppendsEmitted(st: Translator, parts: seq<string>,
                                              parse: string -> Option<Float>, render: Float -> string)
    ensures Translate(st, parts, parse, render).Ok? ==>
      var ops := Translate(st, parts, parse, render).value.ops;
      |st.ops| <= |ops| && ops[..|st.ops|] == st.ops
      && forall i :: |st.ops| <= i < |ops| ==> Emitted(ops[i])
    decreases |parts|
  {
    if parts != [] {
      StepEmits(st, parts[0], parse, render);
      var r := Step(st, parts[0], parse, render);
      if r.Ok? {
        OnlyAppendsEmitted(r.value, parts[1..], parse, render);
      }
    }
  }

  /** `-channel x` makes `x.upper()` the selector. */
  lemma ChannelSetsBands(st: Translator, x: string, rest: seq<string>,
                         parse: string -> Option<Float>, render: Float -> string)
    requires !IsFlag(x)
    ensures Translate(st, ["-channel", x] + rest, parse, render) ==
      Translate(st.(bands := Upper(x), pending := NoFlag), rest, parse, render)
  {
    var parts := ["-channel", x] + rest;
    TranslateUnfold(st, parts, 0, parse, render);
    TranslateUnfold(st.(pending := ChannelFlag), parts, 1, parse, render);
    assert parts[0..] == parts && parts[2..] == rest;
  }

  /** `+channel` makes "RGB" the selector again and cancels a pending flag. */
  lemma PlusChannelResets(st: Translator, rest: seq<string>, parse: string -> Option<Float>, render: Float -> string)
    ensures Translate(st, ["+channel"] + rest, parse, render) ==
      Translate(st.(bands := "RGB", pending := NoFlag), rest, parse, render)
  {
    var parts := ["+channel"] + rest;
    TranslateUnfold(st, parts, 0, parse, render);
    assert parts[0..] == parts && parts[1..] == rest;
    assert Upper("RGB") == "RGB";
  }

  /** A token that is neither a flag nor a flag's argument changes nothing. */
  lemma UnflaggedIgnored(st: Translator, t: string, rest: seq<string>,
                         parse: string -> Option<Float>, render: Float -> string)
    requires st.pending == NoFlag && !IsFlag(t)
    ensures Translate(st, [t] + rest, parse, render) == Translate(st, rest, parse, render)
  {
    var parts := [t] + rest;
    TranslateUnfold(st, parts, 0, parse, render);
    assert parts[0..] == parts && parts[1..] == rest;
  }

  /** A flag directly followed by another flag takes no argument: only the
      second one counts. */
  lemma FlagSuperseded(st: Translator, f: string, g: string, rest: seq<string>,
                       parse: string -> Option<Float>, render: Float -> string)
    requires IsFlag(f) && f != "+channel" && IsFlag(g)
    ensures Translate(st, [f, g] + rest, parse, render) == Translate(st, [g] + rest, parse, render)
  {
    var parts := [f, g] + rest;
    TranslateUnfold(st, parts, 0, parse, render);
    var mid := Step(st, f, parse, render).value;
    TranslateUnfold(mid, parts, 1, parse, render);
    TranslateUnfold(st, [g] + rest, 0, parse, render);
    assert parts[0..] == parts && parts[2..] == rest && parts[1..] == [g] + rest;
    assert ([g] + rest)[0..] == [g] + rest && ([g] + rest)[1..] == rest;
    assert mid.bands == st.bands && mid.ops == st.ops;
  }

  /** `-gamma v` emits "gamma <bands> v" with `v` as written. */
  lemma GammaVerbatim(st: Translator, v: string, rest: seq<string>,
                      parse: string -> Option<Float>, render: Float -> string)
    requires !IsFlag(v)
    ensures Translate(st, ["-gamma", v] + rest, parse, render) ==
      Translate(Translator(st.bands, NoFlag, st.ops + ["gamma " + st.bands + " " + v]), rest, parse, render)
  {
    var parts := ["-gamma", v] + rest;
    TranslateUnfold(st, parts, 0, parse, render);
    TranslateUnfold(st.(pending := GammaFlag), parts, 1, parse, render);
    assert parts[0..] == parts && parts[2..] == rest;
    assert "gamma " + (st.bands + " " + v) == "gamma " + st.bands + " " + v;
  }

  predicate Plain(w: string)
  {
    w != [] && forall j :: 0 <= j < |w| ==> w[j] !in Separators
  }

  /** `-sigmoidal-contrast a` emits "sigmoidal <bands> a 0.5". */
  lemma SigmoidalContrast(st: Translator, a: string, rest: seq<string>,
                          parse: string -> Option<Float>, render: Float -> string)
    requires Plain(a) && !IsFlag(a)
    ensures Translate(st, ["-sigmoidal-contrast", a] + rest, parse, render) ==
      Translate(Translator(st.bands, NoFlag, st.ops + ["sigmoidal " + st.bands + " " + a + " " + render(Finite(0.5))]),
                rest, parse, render)
  {
    var parts := ["-sigmoidal-contrast", a] + rest;
    TranslateUnfold(st, parts, 0, parse, render);
    TranslateUnfold(st.(pending := SigmoidalFlag), parts, 1, parse, render);
    assert parts[0..] == parts && parts[2..] == rest;
    SigmoidalOneField(st.bands, a, parse, render);
  }

  /** The handler on one field: the contrast with bias 0.5. */
  lemma SigmoidalOneField(bands: string, a: string, parse: string -> Option<Float>, render: Float -> string)
    requires Plain(a)
    ensures AppendSig(bands, a, parse, render) == Ok("sigmoidal " + bands + " " + a + " " + render(Finite(0.5)))
  {
    FieldsOne(a, Separators);
    assert "sigmoidal " + (bands + " " + a + " " + render(Finite(0.5)))
        == "sigmoidal " + bands + " " + a + " " + render(Finite(0.5));
  }

  /** `-sigmoidal-contrast a,p%` (or `axp%`) emits "sigmoidal <bands> a <p/100>",
      and fails when `p` without `%` is not a number. */
  lemma SigmoidalBias(st: Translator, a: string, c: char, p: string, rest: seq<string>,
                      parse: string -> Option<Float>, render: Float -> string)
    requires Plain(a) && c in Separators && Plain(p) && !IsFlag(a + [c] + p)
    ensures Translate(st, ["-sigmoidal-contrast", a + [c] + p] + rest, parse, render) ==
      match parse(Remove(p, '%'))
      case None => Err(ValueError(Remove(p, '%')))
      case Some(x) =>
        Translate(Translator(st.bands, NoFlag, st.ops + ["sigmoidal " + st.bands + " " + a + " " + render(DividedBy(x, 100.0))]),
                  rest, parse, render)
  {
    var parts := ["-sigmoidal-contrast", a + [c] + p] + rest;
    TranslateUnfold(st, parts, 0, parse, render);
    TranslateUnfold(st.(pending := SigmoidalFlag), parts, 1, parse, render);
    assert parts[0..] == parts && parts[2..] == rest;
    SigmoidalTwoFields(st.bands, a, c, p, parse, render);
  }

  lemma SigmoidalTwoFields(bands: string, a: string, c: char, p: string,
                           parse: string -> Option<Float>, render: Float -> string)
    requires Plain(a) && c in Separators && Plain(p)
    ensures AppendSig(bands, a + [c] + p, parse, render) ==
      match parse(Remove(p, '%'))
      case None => Err(ValueError(Remove(p, '%')))
      case Some(x) => Ok("sigmoidal " + bands + " " + a + " " + render(DividedBy(x, 100.0)))
  {
    FieldsSeparated(a, c, p, Separators);
    FieldsOne(p, Separators);
    assert Fields(a + [c] + p, Separators) == [a, p];
    if parse(Remove(p, '%')).Some? {
      var b := render(DividedBy(parse(Remove(p, '%')).value, 100.0));
      assert "sigmoidal " + (bands + " " + a + " " + b) == "sigmoidal " + bands + " " + a + " " + b;
    }
  }

  /** `-modulate a,p` (or `axp`) ignores `a` and emits "saturation <p/100>",
      and fails when `p` is not a number. */
  lemma ModulateSaturation(st: Translator, a: string, c: char, p: string, rest: seq<string>,
                           parse: string -> Option<Float>, render: Float -> string)
    requires Plain(a) && c in Separators && Plain(p) && !IsFlag(a + [c] + p)
    ensures Translate(st, ["-modulate", a + [c] + p] + rest, parse, render) ==
      match parse(p)
      case None => Err(ValueError(p))
      case Some(x) =>
        Translate(Translator(st.bands, NoFlag, st.ops + ["saturation " + render(DividedBy(x, 100.0))]), rest, parse, render)
  {
    var parts := ["-modulate", a + [c] + p] + rest;
    TranslateUnfold(st, parts, 0, parse, render);
    TranslateUnfold(st.(pending := ModulateFlag), parts, 1, parse, render);
    assert parts[0..] == parts && parts[2..] == rest;
    FieldsSeparated(a, c, p, Separators);
    FieldsOne(p, Separators);
    assert Fields(a + [c] + p, Separators) == [a, p];
  }

  /** `-modulate` with a single field has no proportion: `IndexError`. */
  lemma ModulateNeedsProportion(st: Translator, a: string, rest: seq<string>,
                                parse: string -> Option<Float>, render: Float -> string)
    requires Plain(a) && !IsFlag(a)
    ensures Translate(st, ["-modulate", a] + rest, parse, render) == Err(IndexError)
  {
    var parts := ["-modulate", a] + rest;
    TranslateUnfold(st, parts, 0, parse, render);
    TranslateUnfold(st.(pending := ModulateFlag), parts, 1, parse, render);
    assert parts[0..] == parts;
    FieldsOne(a, Separators);
  }

  /** `-sigmoidal-contrast` followed by an empty token (two spaces in a row)
      has no contrast: `IndexError`. */
  lemma SigmoidalNeedsContrast(st: Translator, rest: seq<string>,
                               parse: string -> Option<Float>, render: Float -> string)
    ensures Translate(st, ["-sigmoidal-contrast", ""] + rest, parse, render) == Err(IndexError)
  {
    var parts := ["-sigmoidal-contrast", ""] + rest;
    TranslateUnfold(st, parts, 0, parse, render);
    TranslateUnfold(st.(pending := SigmoidalFlag), parts, 1, parse, render);
    assert parts[0..] == parts;
  }
}
