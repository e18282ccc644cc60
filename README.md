# rio-color core in Dafny

This project models the sequential core of rio-color, rasterio's colour
correction package, and proves properties of the model. It covers three parts.

- **Operations library and DSL compiler** (`rio_color/operations.py`).
  - It models the guards of `gamma`, `sigmoidal` and `saturation`. Their numeric
    kernels (`x ** (1/g)`, the forward and inverse sigmoid, the LCH saturation of
    the compiled colorspace extension) are uninterpreted function fields of a
    `Kernels` value.
  - The `_op_factory` closure is modelled as a `Stage` and a method `Apply` on an
    `array<Band>`. `Apply` copies the buffer and then rewrites the selected bands,
    or the first three for the RGB operation.
  - The fold over compiled clauses that the colour worker runs is `RunAll`.
  - Also modelled: the composite recipe `simple_atmo`, its DSL form
    `simple_atmo_opstring`, and `parse_operations`. The parser covers comma
    removal, single-space splitting, clause grouping, band-spec resolution,
    `float` conversion of the arguments and positional binding.
- **ImageMagick translator and scaling** (`rio_color/utils.py`).
  - `magick_to_rio` is a left-to-right state machine over the option tokens. Its
    state is the channel selector (the module-level `bands`), the pending flag
    (`nextf`) and the operations emitted so far.
  - `to_math_type` and `scale_dtype` are modelled over exact reals for `uint8`
    and `uint16`.
- **Two helpers of the optimisation script** (`scripts/optimize_color.py`).
  - `time_string` rounds, then uses `divmod` and `'%2i:%02i:%02i'` formatting.
  - `calc_downsample` divides the shorter side by the target size.

`MagickToRio`, `ParseOperations`, `GroupTokens`, `ResolveBands`,
`CompileClauses`, `Apply`, `WriteBands`, `SimpleAtmo` and `AtmoGamma` are
imperative, as their source is. Each is proved equal to a specification
function (`Translation`, `ParseSpec`, `Clauses`, `Bands`, `CompileAll`,
`ApplySpec`, `SimpleAtmoSpec`, `AtmoGammaSpec`). The lemmas state what the
source promises about those functions.

Python exceptions are error values: `Outcome` for the operations and
`MagickError` for the translator. Python's `float(text)` is a parameter
`parse: string -> Option<Float>`. `str`/`format` of a float is a parameter
`fmt` or `render`. A float is `Finite(real)`, `Infinite(negative)` or `NaN`, so
that the comparisons in the guards behave as IEEE comparisons do.

Modules:
- `Wrappers`: `Option`, `Result`.
- `Floats`: the float values and comparisons.
- `Text`: Python string operations: `lower`/`upper` on ASCII, `strip` over Python's whitespace characters, `replace` of one character, `split(" ")`, `re.split` with empty fields dropped, `'%i'` and `'%0Ni'`.
- `Operations`, `OperationsDsl`, `Utils`, `OptimizeColor`.
- `ParseExamples` and `MagickExamples`: the repository's test vectors.

## Model

| member | source | states |
|---|---|---|
| Operations.CheckInput | rio_color/operations.py:52-53 | None exactly when the array is non-empty and every value lies in [-eps, 1+eps]; an empty array fails as numpy's `max()` does |
| Operations.GammaOp | rio_color/operations.py:118-123 | succeeds iff the input is in range and g is neither <= 0 nor NaN; the input error comes before the exponent error; on success every pixel is the power kernel of that pixel |
| Operations.EffectiveBias | rio_color/operations.py:61-62 | the bias the kernels see is never zero |
| Operations.SigmoidalOp | rio_color/operations.py:52-97 | succeeds iff the input is in range and the bias is not outside [-eps, 1+eps] (NaN passes); contrast 0 returns the input unchanged; otherwise each pixel goes through the forward (contrast > 0) or inverse sigmoid with the zero-substituted bias |
| Operations.SaturationOp | rio_color/operations.py:139-141 | succeeds iff there are exactly three bands, otherwise "requires a 3-band array"; on success the three bands are the LCH saturation kernel applied to the three input bands with the proportion |
| Operations.SigmoidalZeroBias | rio_color/operations.py:61-62 | a bias of 0 behaves exactly as a bias of epsilon |
| Operations.UnitRangeConcat | rio_color/operations.py:52 | the range check on two parts together holds iff it holds on each |
| Operations.SigmoidalConcat | rio_color/operations.py:52-97 | sigmoidal contrast on a concatenation accepts iff it accepts each part, and its result is the two results concatenated |
| Operations.RgbCall | rio_color/operations.py:196 | the RGB call succeeds iff the clause has its argument and the buffer has at least three bands; a missing argument is reported before a short buffer; on success it is saturation of the first three bands |
| Operations.BandCallErrors | rio_color/operations.py:200 | the call on band b fails with IndexError iff b exceeds the band count, and otherwise with a missing argument iff the clause binds fewer arguments than the operation has parameters; a result has the size of the band |
| Operations.FirstFailure | rio_color/operations.py:199-200 | no error iff every selected band from b on has a successful call |
| Operations.ApplySpec | rio_color/operations.py:190-201 | the band count is kept and every band the clause does not select is unchanged (such as a 4th alpha band); a band-wise clause succeeds iff every selected band's call does and writes each selected band with that call's result; the RGB clause succeeds iff its call does and writes bands 1..3 with it |
| Operations.Overwritten | rio_color/operations.py:199-200 | the written buffer has the band count of the input |
| Operations.FirstBandErrorWins | rio_color/operations.py:199-200 | a failing clause reports the error of its first failing selected band, in ascending band order |
| Operations.CopyBuffer | rio_color/operations.py:192 | a fresh array with the caller's bands |
| Operations.Apply | rio_color/operations.py:190-201 | the closure returns a fresh array equal to ApplySpec of the caller's buffer, or ApplySpec's error; the caller's array is not modified |
| Operations.WriteRgb | rio_color/operations.py:196 | after the write, the copy is ApplySpec of its old contents, or the error is ApplySpec's |
| Operations.WriteBands | rio_color/operations.py:199-200 | the band loop leaves the copy equal to ApplySpec of the original, or stops with ApplySpec's error |
| Operations.FailureFrom | rio_color/operations.py:199-200 | when the calls below b succeed, the first failure from band 1 is the first failure from b |
| Operations.FailureAt | rio_color/operations.py:199-200 | the loop's early exit at a failing band is the clause's error |
| Operations.WrittenAll | rio_color/operations.py:199-200 | the buffer after the whole loop is the clause's result |
| Operations.RunAll | rio_color/workers.py:27-28 | folding a buffer through the clauses keeps its band count and every band from the 4th on |
| Operations.RunAllThree | rio_color/workers.py:27-28 | folding three clauses applies them one after another and stops at the first error |
| Operations.SingleBand | rio_color/operations.py:199-200 | a clause selecting one band replaces that band with its call's result and nothing else, or fails with that call's error |
| Operations.GammaBlue | rio_color/operations.py:170 | the blue exponent is 1 - haze, NaN exactly for a NaN haze |
| Operations.GammaGreen | rio_color/operations.py:171 | the green exponent is 1 - haze/3, NaN exactly for a NaN haze |
| Operations.AtmoExponents | rio_color/operations.py:170-171 | for a finite haze >= 0 the blue exponent is at most the green one, which is at most 1, and they differ by 2/3 of the haze |
| Operations.AtmoGammaSpec | rio_color/operations.py:170-176 | on success there are three bands and the first is red unchanged |
| Operations.AtmoGamma | rio_color/operations.py:170-176 | the filled intermediate array equals AtmoGammaSpec, or the error is its error |
| Operations.SimpleAtmoSpec | rio_color/operations.py:170-181 | on success the input had at least three bands, the band count is kept and every band from the 4th on is unchanged |
| Operations.SimpleAtmoSucceeds | rio_color/operations.py:170-181 | the recipe succeeds iff there are three bands, both gamma calls succeed and sigmoidal succeeds on red followed by the two gamma results |
| Operations.SimpleAtmo | rio_color/operations.py:170-181 | the returned fresh array equals SimpleAtmoSpec of the input, or the error is its error |
| Operations.SigmoidalRgbStage | rio_color/operations.py:199-200 | the band-wise sigmoidal clause on bands 1,2,3 accepts iff sigmoidal accepts the three bands together, and then writes the three slices of that joint result |
| Operations.AtmoStagesBound | rio_color/operations.py:144-151 | the recipe is three band-wise clauses, each binding one value per parameter |
| Operations.SimpleAtmoMatchesStages | rio_color/operations.py:144-181 | on bands of equal size, simple_atmo succeeds iff the fold of the three recipe clauses does, and then both give the same buffer |
| OperationsDsl.OpNamed | rio_color/operations.py:247-250 | a token names an operation exactly when it is that operation's lower-case name |
| OperationsDsl.Tokens | rio_color/operations.py:229 | tokenising yields at least one token, even for an empty string |
| OperationsDsl.Words | rio_color/operations.py:229 | splitting on single spaces and stripping gives at least one word, and no word begins or ends with whitespace |
| OperationsDsl.LowerAll | rio_color/operations.py:233-237 | each token is replaced, in order, by the lower-case text equal to it ignoring ASCII case; a replaced token names an operation exactly when the original spells that operation's name in any mix of cases |
| Text.LowerIgnoringCase | rio_color/operations.py:233 | lower-casing t gives the lower-case u exactly when t equals u ignoring ASCII case |
| OperationsDsl.ClausesConcat | rio_color/operations.py:230-239 | `Clauses` holds all the tokens, in order |
| OperationsDsl.ClausesShape | rio_color/operations.py:230-239 | no clause of `Clauses` is empty; the first begins with the first token; every later clause begins with an operation name and no other token in any clause is one; so leading non-operation tokens form a clause of their own |
| OperationsDsl.GroupTokens | rio_color/operations.py:229-239 | the grouping loop returns the Clauses of the lower-cased tokens |
| OperationsDsl.ClauseRun | rio_color/operations.py:232-239 | a word, then words naming no operation, then nothing or an operation name, form one clause |
| OperationsDsl.BandOf | rio_color/operations.py:261-269 | a resolved band character is a band between 1 and 3 |
| OperationsDsl.BandsShape | rio_color/operations.py:259-270 | a band spec resolves iff every character does; the set then holds exactly the bands of the characters, with repeats collapsed; a failure is that of some character |
| OperationsDsl.BandsFirstFailure | rio_color/operations.py:259-270 | a failing band spec reports the error of its first character that does not resolve, and every character before it resolves |
| OperationsDsl.ResolveBands | rio_color/operations.py:259-270 | the `bands.add` loop returns Bands of the spec |
| OperationsDsl.ParseFloats | rio_color/operations.py:273 | conversion succeeds iff every argument converts, and gives their values in order; otherwise the error names an argument that does not convert |
| OperationsDsl.Bind | rio_color/operations.py:274 | the bound arguments are the first min(#args, #params) arguments: surplus ones dropped, missing ones unbound |
| OperationsDsl.CompileClauseSpec | rio_color/operations.py:242-283 | a compiled clause had at least two tokens and its stage carries the clause head as its name |
| OperationsDsl.CompileClause | rio_color/operations.py:242-284 | the per-clause body returns CompileClauseSpec |
| OperationsDsl.CompileAllShape | rio_color/operations.py:241-286 | `CompileAll` succeeds iff every clause compiles, and then yields one stage per clause, its own, in order |
| OperationsDsl.CompileClauses | rio_color/operations.py:241-286 | the compiling loop returns CompileAll of the clauses |
| OperationsDsl.ParseSpec | rio_color/operations.py:207-286 | a successful parse yields at least one stage |
| OperationsDsl.ParseOperations | rio_color/operations.py:207-286 | `parse_operations` returns ParseSpec of its string |
| OperationsDsl.ParsedStagesFollowClauses | rio_color/operations.py:229-286 | there is always at least one clause; a parsed string gives one stage per clause, each named by its clause's lower-cased head (the `__name__` of the closure) |
| OperationsDsl.TokensOfJoin | rio_color/operations.py:229 | whitespace-free words joined by single spaces tokenise into the words with their commas dropped |
| OperationsDsl.ParseJoin | rio_color/operations.py:229-286 | parsing such a string is grouping and compiling those tokens, lower-cased |
| OperationsDsl.AtmoBands | rio_color/operations.py:259-270 | the band specs "g", "b" and "rgb" resolve to {2}, {3} and {1,2,3} |
| OperationsDsl.SimpleAtmoOpstring | rio_color/operations.py:144-151 | when the four rendered numbers hold no comma and no whitespace, the recipe string tokenises into `gamma g` with 1 - haze/3, `gamma b` with 1 - haze, then `sigmoidal rgb` with the contrast and the bias |
| OperationsDsl.SimpleAtmoOpstringParses | rio_color/operations.py:144-151 | when each number renders as a token that reads back, parsing the recipe string gives gamma on {2} with 1-h/3, gamma on {3} with 1-h, then sigmoidal on {1,2,3} |
| ParseExamples.ParseUnknownHead | rio_color/operations.py:247-250 | a clause whose head names no operation is rejected, naming that head |
| ParseExamples.ParseRgbClause | rio_color/operations.py:252-256 | saturation takes the next token as its argument and always the bands 1,2,3 |
| ParseExamples.ParseBandClause | rio_color/operations.py:257-274 | for a band-wise operation the band spec's outcome decides first, then the argument's conversion |
| ParseExamples.CommasDropped | rio_color/operations.py:229 | strings whose words agree once commas are dropped parse alike |
| ParseExamples.NameIsOpName | rio_color/operations.py:217 | each operation's name is recognised as that operation |
| ParseExamples.ParseRgbThenBand | rio_color/operations.py:230-284 | an RGB clause then a band-wise clause give two stages, in that order |
| ParseExamples.UnknownOperation | tests/test_operations.py:175-177 | "foob 123" is rejected as not a valid operation |
| ParseExamples.SaturationClause | tests/test_operations.py:142-144 | "saturation 1.25" is saturation with proportion 1.25 on bands 1,2,3 |
| ParseExamples.TestBandSets | tests/test_operations.py:180-186 | "12" and "rg" resolve to {1,2}; "789" is out of range 1..3 |
| ParseExamples.SameBandsParseAlike | tests/test_operations.py:180-183 | "gamma 1,2 0.95" and "gamma Rg 0.95" parse to the same result |
| ParseExamples.BandBeyondThird | tests/test_operations.py:185-186 | "gamma 7,8,9 1.05" is rejected at parse time |
| ParseExamples.CommaSeparatedBands | tests/test_operations.py:134-139 | "gamma r,g,b 0.95, sigmoidal r,g,b 35 0.13" parses as "gamma rgb 0.95 sigmoidal rgb 35 0.13" |
| ParseExamples.SaturationThenGamma | tests/test_operations.py:189-197 | "saturation 1.25 gamma rgb 0.95" is saturation then gamma on {1,2,3}, named in that order |
| Utils.ToMathType | rio_color/utils.py:15-20 | each value times the dtype maximum is the integer it came from; in-range integers map into [0,1] |
| Utils.Truncate | rio_color/utils.py:27 | the float-to-integer cast truncates toward zero |
| Utils.ScaleDtype | rio_color/utils.py:23-27 | each result is the truncation of value x max; [0,1] maps into [0, max], 0.0 maps to 0 and 1.0 to the maximum (255 or 65535) |
| Utils.ScaleRoundTrip | rio_color/utils.py:15-27 | scaling an in-range raster down and back up gives it back |
| Utils.SetBand | rio_color/utils.py:45-49 | the selector equals x ignoring ASCII case and holds no lower-case letter |
| Utils.AppendSig | rio_color/utils.py:53-60 | IndexError exactly when the argument has no field; any other exception is the ValueError of the `%`-free second of exactly two fields; success emits "sigmoidal", the selector and the first field |
| Utils.SigmoidalOneField | rio_color/utils.py:55-60 | a single field a emits "sigmoidal <bands> a" followed by the rendering of 0.5 |
| Utils.AppendGamma | rio_color/utils.py:62-64 | the emitted text is "gamma ", the selector, a space and the argument as written |
| Utils.AppendSat | rio_color/utils.py:66-71 | IndexError exactly when the argument has fewer than two fields; any other exception is the ValueError of the second field; success emits text starting "saturation " |
| Utils.StepFlags | rio_color/utils.py:75-89 | a flag never raises and emits nothing; only a non-flag token after `-sigmoidal-contrast` or `-modulate` can raise; any other non-flag token clears the pending flag; a pending sigmoidal or modulate flag comes from that very token |
| Utils.TranslateSucceeds | rio_color/utils.py:73-89 | tokens without `-sigmoidal-contrast` and `-modulate`, from a state with neither pending, never raise |
| Utils.TranslationSucceeds | rio_color/utils.py:73-91 | an option string whose tokens hold neither `-sigmoidal-contrast` nor `-modulate` always translates |
| Utils.Advance | rio_color/utils.py:75-89 | the loop body for one token gives the translator's Step |
| Utils.MagickToRio | rio_color/utils.py:73-91 | the loop returns Translation of the options: the emitted operations joined by spaces, or the first exception |
| Utils.StartBands | rio_color/utils.py:51 | the selector starts as "RGB" |
| Utils.TranslateConcat | rio_color/utils.py:74-89 | running two token lists one after the other is running their concatenation |
| Utils.StepEmits | rio_color/utils.py:53-89 | one token keeps the operations emitted and adds at most one, starting with an operation name |
| Utils.OnlyAppendsEmitted | rio_color/utils.py:73-89 | the translator only appends, and everything appended starts with "gamma ", "sigmoidal " or "saturation " |
| Utils.ChannelSetsBands | rio_color/utils.py:45-49 | `-channel x` makes x.upper() the selector and clears the pending flag |
| Utils.PlusChannelResets | rio_color/utils.py:77-79 | `+channel` makes "RGB" the selector and cancels a pending flag |
| Utils.UnflaggedIgnored | rio_color/utils.py:86-89 | a non-flag token with no pending flag changes nothing |
| Utils.FlagSuperseded | rio_color/utils.py:75-85 | a flag followed directly by another flag takes no argument |
| Utils.GammaVerbatim | rio_color/utils.py:62-64 | `-gamma v` emits "gamma <bands> v" with v as written |
| Utils.SigmoidalContrast | rio_color/utils.py:53-60 | `-sigmoidal-contrast a` emits "sigmoidal <bands> a 0.5" |
| Utils.SigmoidalBias | rio_color/utils.py:53-60 | `a,p%` or `axp%` emits the bias p/100 with `%` dropped, or fails with ValueError on p |
| Utils.SigmoidalTwoFields | rio_color/utils.py:55-60 | the handler on two fields: bias p/100 from the `%`-free second field, or ValueError |
| Utils.ModulateSaturation | rio_color/utils.py:66-71 | `-modulate a,p` ignores a and emits "saturation <p/100>", or fails with ValueError on p |
| Utils.ModulateNeedsProportion | rio_color/utils.py:67-70 | `-modulate` with one field raises IndexError |
| Utils.SigmoidalNeedsContrast | rio_color/utils.py:55-60 | `-sigmoidal-contrast` followed by an empty token raises IndexError |
| MagickExamples.TokensOfSpaced | rio_color/utils.py:74 | words joined by single spaces plus a trailing space split back into the words |
| MagickExamples.TestTranslated | tests/test_utils.py:40-62 | the test's tokens translate to the eight expected operations, with the selector back at "RGB" |
| MagickExamples.MagickToRioExample | tests/test_utils.py:40-62 | the test's option string translates to the expected operations joined by spaces |
| OptimizeColor.Round | scripts/optimize_color.py:22 | the result is within 1/2 of x, and even on a tie |
| OptimizeColor.Clock | scripts/optimize_color.py:23-24 | h*3600 + m*60 + s equals the total, with 0 <= m, s < 60 |
| OptimizeColor.ClockUnique | scripts/optimize_color.py:23-24 | these are the only such h, m, s |
| OptimizeColor.TwoDigits | scripts/optimize_color.py:25 | `'%02i'` of 0..99 is two digits that read back as the number |
| OptimizeColor.Hours | scripts/optimize_color.py:25 | `'%2i'` is at least two characters wide |
| OptimizeColor.HoursField | scripts/optimize_color.py:25 | a space before a single digit, the plain digits from 10 up, exactly two characters iff -10 < h < 100 |
| OptimizeColor.Clockface | scripts/optimize_color.py:25 | the rendering is at least eight characters long |
| OptimizeColor.ClockfaceLayout | scripts/optimize_color.py:25 | hours field, `:`, two-digit minutes, `:`, two-digit seconds, at fixed distances from the end |
| OptimizeColor.ClockfaceFields | scripts/optimize_color.py:25 | the rendering is the hours field, then two colon-led fields of two digits each that read back as the minutes and the seconds |
| OptimizeColor.TimeString | scripts/optimize_color.py:20-25 | the rendering is at least eight characters long |
| OptimizeColor.TimeStringFields | scripts/optimize_color.py:20-25 | the rendering reads back as the rounded seconds: the hours field, then two-digit minutes and seconds equal to those `Clock` splits the rounded total into, so that h*3600 + m*60 + s is that total |
| OptimizeColor.TimeStringTie | scripts/optimize_color.py:20-25 | 3599.5 seconds round to the even 3600 and render as " 1:00:00" |
| OptimizeColor.CalcDownsample | scripts/optimize_color.py:185-190 | None (ZeroDivisionError) iff the target is 0; otherwise the ratio times the target is the shorter side |
| OptimizeColor.DownsampleSymmetric | scripts/optimize_color.py:185-190 | the ratio does not depend on which side is the width |
| OptimizeColor.DownsampleReachesTarget | scripts/optimize_color.py:185-190 | the shorter side divided by the ratio is the target |
| Text.Split | rio_color/operations.py:229 | `split(sep)` gives at least one piece and no piece holds the separator |
| Text.SplitJoin | rio_color/operations.py:229 | `split(sep)` undoes a join by `sep` of separator-free pieces |
| Text.Fields | rio_color/utils.py:55 | every field of `re.split("[,x]+")` with empty ones filtered out is non-empty and separator-free |
| Text.FieldsKeep | rio_color/utils.py:55 | the fields, one after another, are exactly the non-separator characters in order |
| Text.FieldsSeparated | rio_color/utils.py:55 | a run of separators ends the field in front of it |
| Text.DigitsRoundTrip | scripts/optimize_color.py:25 | the decimal digits of n read back as n |

## Left out

- rio_color/colorspace.py and the compiled colorspace extension: saturation in LCH space is the uninterpreted `saturateRgb` kernel.
- The numeric bodies of `gamma` and `sigmoidal` (`exp`, `**`, division): uninterpreted kernels. Their float results, and NaN arising inside them, are not modelled.
- Float text: `float(text)` and `str`/`format` of a float are parameters. The model does not fix how Python spells a float, so `MagickExamples` pins the renderings and parses the test needs in its requires.
- Bands are flat sequences of exact reals. The rows x columns shape, float64 rounding and numpy broadcasting are not tracked.
- Lower- and upper-casing cover ASCII letters only; Python's Unicode case mapping is not modelled.
- Digits in band specs are ASCII only: Python's `int` also reads any Unicode decimal digit ('٣' or '３' selects band 3), where the model reports an unknown band.
- Utils.MagickToRio: the module-level `bands` that `set_band` assigns through `global` is a field of the translator state; sharing it between calls or threads is not modelled.
- Utils.ScaleDtype: an out-of-range value cast to an unsigned dtype wraps or saturates depending on numpy; the contract speaks only of values in [0, 1] and non-negative products.
- OptimizeColor.Round: models Python 3's `round` (ties to even). Under Python 2, which the script also supports, ties round away from zero, so 0.5 gives 1 instead of 0.
- OptimizeColor.TimeString: NaN and infinite seconds, on which `int(round(...))` raises, are not modelled; seconds are exact reals.
- rio_color/workers.py apart from its fold over the compiled clauses (`RunAll`), rio_color/scripts/cli.py, rio_color/__init__.py, setup.py and the rest of scripts/optimize_color.py are not part of this model: raster I/O, parallel tiling, an older revision of the operations, packaging, simulated annealing and plotting.
- Behaviour of the code worth noting:
  - gamma and sigmoidal check only their inputs and parameters, not the range of their output;
  - tokens before the first operation name form a clause that is rejected, not discarded;
  - the band range 1..3 is checked when parsing, not when applying;
  - a missing argument is a `TypeError` raised only when a selected band is processed;
  - surplus arguments are dropped silently, after each has been converted with `float`.
