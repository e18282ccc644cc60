/**
 * The parser's behaviour on the operation strings of tests/test_operations.py.
 * Each string is written as its space-separated words joined with `Join`; the
 * float conversion stays a parameter, so agreement between two strings holds
 * for every conversion. Each example instantiates a lemma about words in
 * general, so that the verifier need not evaluate the parser on a whole text.
 */
module ParseExamples {
  import opened Wrappers
  import opened Floats
  import opened Text
  import opened Operations
  import opened OperationsDsl

  /** `raw` is a whitespace-free word that the tokenizer turns into `word`. */
  predicate Normal(raw: string, word: string)
  {
    NoSpace(raw) && Lower(Remove(raw, ',')) == word
  }

  /** Word by word normalisation gives the token list. */
  lemma NormalWords(raw: seq<string>, words: seq<string>)
    requires |raw| == |words|
    requires forall i :: 0 <= i < |raw| ==> Normal(raw[i], words[i])
    ensures Spaceless(raw) && LowerAll(RemoveEach(raw, ',')) == words
  {
  }

  /** A word that is already a token. */
  lemma PlainWord(w: string)
    requires NoSpace(w) && ',' !in w && Lower(w) == w
    ensures Normal(w, w)
  {
    RemoveSpec(w, ',');
  }

  lemma ClauseOfTwo(h: string, x: string, rest: seq<string>)
    requires !IsOpName(x)
    requires rest == [] || IsOpName(rest[0])
    ensures Clauses([h, x] + rest) == [[h, x]] + Clauses(rest)
  {
    ClauseRun(h, [x], rest);
    assert [h] + [x] == [h, x];
  }

  /** Two words, the second naming no operation, make one clause. */
  lemma ParseTwo(parse: string -> Option<Float>, r0: string, r1: string, w0: string, w1: string)
    requires Normal(r0, w0) && Normal(r1, w1) && !IsOpName(w1)
    ensures ParseSpec(parse, Join([r0, r1], ' ')) == CompileAll(parse, [[w0, w1]])
  {
    NormalWords([r0, r1], [w0, w1]);
    ClauseOfTwo(w0, w1, []);
    assert [w0, w1] + [] == [w0, w1] && Clauses([]) == [];
    assert [[w0, w1]] + [] == [[w0, w1]];
    ParseJoin(parse, [r0, r1], [[w0, w1]], CompileAll(parse, [[w0, w1]]));
  }

  /** Three words, the last two naming no operation, make one clause. */
  lemma ParseThree(parse: string -> Option<Float>, r0: string, r1: string, r2: string,
                   w0: string, w1: string, w2: string)
    requires Normal(r0, w0) && Normal(r1, w1) && Normal(r2, w2)
    requires !IsOpName(w1) && !IsOpName(w2)
    ensures ParseSpec(parse, Join([r0, r1, r2], ' ')) == CompileAll(parse, [[w0, w1, w2]])
  {
    NormalWords([r0, r1, r2], [w0, w1, w2]);
    ClauseOfThree(w0, w1, w2, []);
    assert [w0, w1, w2] + [] == [w0, w1, w2] && Clauses([]) == [];
    assert [[w0, w1, w2]] + [] == [[w0, w1, w2]];
    ParseJoin(parse, [r0, r1, r2], [[w0, w1, w2]], CompileAll(parse, [[w0, w1, w2]]));
  }

  /** A clause whose head names no operation is rejected, naming that head. */
  lemma ParseUnknownHead(parse: string -> Option<Float>, r0: string, r1: string, w0: string, w1: string)
    requires Normal(r0, w0) && Normal(r1, w1) && !IsOpName(w0) && !IsOpName(w1)
    ensures ParseSpec(parse, Join([r0, r1], ' ')) == Err(NotAValidOperation(w0))
  {
    assert CompileAll(parse, [[w0, w1]]) == Err(NotAValidOperation(w0)) by {
      assert CompileClauseSpec(parse, [w0, w1]) == Err(NotAValidOperation(w0));
    }
    ParseTwo(parse, r0, r1, w0, w1);
  }

  /** The RGB operation with one argument: the argument is the proportion and the
      bands are always 1, 2, 3. */
  lemma ParseRgbClause(parse: string -> Option<Float>, r0: string, r1: string, op: OpName, w1: string, x: Float)
    requires op.RgbOp() && Normal(r0, op.Name()) && Normal(r1, w1) && !IsOpName(w1)
    requires parse(w1) == Some(x)
    ensures ParseSpec(parse, Join([r0, r1], ' ')) == Ok([Stage(op, [x], {1, 2, 3})])
  {
    var c := [op.Name(), w1];
    var st := Stage(op, [x], {1, 2, 3});
    assert CompileClauseSpec(parse, c) == Ok(st) by {
      assert c[1..] == [w1];
      ParseOne(parse, w1, x);
    }
    assert CompileAll(parse, [c]) == Ok([st]) by {
      CompileOne(parse, c);
    }
    ParseTwo(parse, r0, r1, op.Name(), w1);
  }

  /** A band-wise operation with a band spec and one argument: the band spec's
      outcome, then the argument's conversion, decide the result. */
  lemma ParseBandClause(parse: string -> Option<Float>, r0: string, r1: string, r2: string,
                        op: OpName, w1: string, w2: string)
    requires !op.RgbOp() && Normal(r0, op.Name()) && Normal(r1, w1) && Normal(r2, w2)
    requires !IsOpName(w1) && !IsOpName(w2)
    ensures ParseSpec(parse, Join([r0, r1, r2], ' ')) ==
      match Bands(op, w1)
      case Err(e) => Err(e)
      case Ok(bs) =>
        match parse(w2)
        case None => Err(NotANumber(w2))
        case Some(x) => Ok([Stage(op, [x], bs)])
  {
    var c := [op.Name(), w1, w2];
    assert CompileAll(parse, [c]) ==
      match Bands(op, w1)
      case Err(e) => Err(e)
      case Ok(bs) =>
        match parse(w2)
        case None => Err(NotANumber(w2))
        case Some(x) => Ok([Stage(op, [x], bs)])
    by {
      CompileOne(parse, c);
      assert c[2..] == [w2];
      assert ParseFloats(parse, [w2]) == if parse(w2).None? then Err(NotANumber(w2)) else Ok([parse(w2).value]) by {
        if parse(w2).Some? {
          ParseOne(parse, w2, parse(w2).value);
        }
      }
    }
    ParseThree(parse, r0, r1, r2, op.Name(), w1, w2);
  }

  /** Strings whose words agree once their commas are dropped parse alike. */
  lemma CommasDropped(parse: string -> Option<Float>, a: seq<string>, b: seq<string>)
    requires |a| == |b|
    requires forall i :: 0 <= i < |a| ==> Remove(a[i], ',') == Remove(b[i], ',')
    ensures ParseSpec(parse, Join(a, ' ')) == ParseSpec(parse, Join(b, ' '))
  {
    RemoveJoin(a, ' ', ',');
    RemoveJoin(b, ' ', ',');
    assert RemoveEach(a, ',') == RemoveEach(b, ',');
  }

  /** The operation names are operation names. */
  lemma NameIsOpName(op: OpName)
    ensures IsOpName(op.Name()) && OpNamed(op.Name()) == Some(op)
  {
  }

  /** Two clauses compiled are a two-stage result. */
  lemma CompileTwo(parse: string -> Option<Float>, c0: seq<string>, c1: seq<string>, s0: Stage, s1: Stage)
    requires CompileClauseSpec(parse, c0) == Ok(s0) && CompileClauseSpec(parse, c1) == Ok(s1)
    ensures CompileAll(parse, [c0, c1]) == Ok([s0, s1])
  {
    CompileOne(parse, c1);
    CompileAllCons(parse, c0, [c1], s0, [s1]);
    assert [c0] + [c1] == [c0, c1] && [s0] + [s1] == [s0, s1];
  }

  /** A band-wise clause whose band spec resolves and whose arguments convert. */
  lemma BandClauseOk(parse: string -> Option<Float>, op: OpName, spec: string, args: seq<string>,
                     bands: BandSet, vals: seq<Float>)
    requires !op.RgbOp() && Bands(op, spec) == Ok(bands) && ParseFloats(parse, args) == Ok(vals)
    ensures CompileClauseSpec(parse, [op.Name(), spec] + args) == Ok(Stage(op, Bind(op, vals), bands))
  {
    BandClause(parse, op, spec, args, bands, vals);
  }

  /** Five words grouped as a two-word clause then a three-word clause. */
  lemma TwoThenThree(h: string, x: string, op: OpName, y: string, z: string)
    requires !IsOpName(x) && !IsOpName(y) && !IsOpName(z)
    ensures Clauses([h, x, op.Name(), y, z]) == [[h, x], [op.Name(), y, z]]
  {
    var c0, c1 := [h, x], [op.Name(), y, z];
    NameIsOpName(op);
    ClauseOfThree(op.Name(), y, z, []);
    assert c1 + [] == c1 && Clauses([]) == [] && [c1] + [] == [c1];
    ClauseOfTwo(h, x, c1);
    assert c0 + c1 == [h, x, op.Name(), y, z] && [c0] + [c1] == [c0, c1];
  }

  /** The RGB operation with its argument, then a band-wise operation with its
      band spec and argument: two stages in that order. */
  lemma ParseRgbThenBand(parse: string -> Option<Float>, r0: string, r1: string, r2: string, r3: string, r4: string,
                         rgbOp: OpName, w1: string, x: Float, op: OpName, w3: string, w4: string, bands: BandSet, y: Float)
    requires rgbOp.RgbOp() && !op.RgbOp()
    requires Normal(r0, rgbOp.Name()) && Normal(r1, w1) && Normal(r2, op.Name()) && Normal(r3, w3) && Normal(r4, w4)
    requires !IsOpName(w1) && !IsOpName(w3) && !IsOpName(w4)
    requires parse(w1) == Some(x) && Bands(op, w3) == Ok(bands) && parse(w4) == Some(y)
    ensures ParseSpec(parse, Join([r0, r1, r2, r3, r4], ' ')) ==
      Ok([Stage(rgbOp, [x], {1, 2, 3}), Stage(op, Bind(op, [y]), bands)])
  {
    var words := [rgbOp.Name(), w1, op.Name(), w3, w4];
    var c0, c1 := [rgbOp.Name(), w1], [op.Name(), w3, w4];
    var st0, st1 := Stage(rgbOp, [x], {1, 2, 3}), Stage(op, Bind(op, [y]), bands);
    TwoThenThree(rgbOp.Name(), w1, op, w3, w4);
    assert CompileAll(parse, [c0, c1]) == Ok([st0, st1]) by {
      assert CompileClauseSpec(parse, c0) == Ok(st0) by {
        NameIsOpName(rgbOp);
        assert c0[1..] == [w1];
        ParseOne(parse, w1, x);
      }
      assert CompileClauseSpec(parse, c1) == Ok(st1) by {
        ParseOne(parse, w4, y);
        BandClauseOk(parse, op, w3, [w4], bands, [y]);
        assert [op.Name(), w3] + [w4] == c1;
      }
      CompileTwo(parse, c0, c1, st0, st1);
    }
    NormalWords([r0, r1, r2, r3, r4], words);
    ParseJoin(parse, [r0, r1, r2, r3, r4], [c0, c1], Ok([st0, st1]));
  }

  /** One clause compiled is a one-stage result. */
  lemma CompileOne(parse: string -> Option<Float>, c: seq<string>)
    ensures CompileAll(parse, [c]) == match CompileClauseSpec(parse, c)
      case Err(e) => Err(e)
      case Ok(st) => Ok([st])
  {
    assert CompileAll(parse, [c][1..]) == Ok([]);
    if CompileClauseSpec(parse, c).Ok? {
      assert [CompileClauseSpec(parse, c).value] + [] == [CompileClauseSpec(parse, c).value];
    }
  }

  lemma ParseOne(parse: string -> Option<Float>, t: string, x: Float)
    requires parse(t) == Some(x)
    ensures ParseFloats(parse, [t]) == Ok([x])
  {
    ParseFloatsCons(parse, t, [], x, []);
    assert [t] + [] == [t] && [x] + [] == [x];
  }

  /** Commas between single characters are dropped. */
  lemma DropCommas(x: char, y: char, z: char)
    requires x != ',' && y != ',' && z != ','
    ensures Remove([x, ',', y], ',') == [x, y]
    ensures Remove([x, ',', y, ',', z], ',') == [x, y, z]
  {
    DropComma(x, y);
    DropComma(y, z);
    assert [x, ',', y, ',', z] == [x, ','] + [y, ',', z];
    RemoveConcat([x, ','], [y, ',', z], ',');
  }

  /** One comma between two characters is dropped. */
  lemma DropComma(x: char, y: char)
    requires x != ',' && y != ','
    ensures Remove([x, ','], ',') == [x]
    ensures Remove([x, ',', y], ',') == [x, y]
  {
    assert Remove([y], ',') == [y] by {
      assert [y][1..] == [];
    }
    assert Remove([','], ',') == [] by {
      assert [','][1..] == [];
    }
    assert Remove([',', y], ',') == [y] by {
      assert [',', y][1..] == [y];
    }
    assert Remove([x, ','], ',') == [x] by {
      assert [x, ','][1..] == [','];
    }
    assert [x, ',', y][1..] == [',', y];
  }

  /** A trailing comma is dropped. */
  lemma DropTrailingComma(w: string)
    requires ',' !in w
    ensures Remove(w + ",", ',') == w
  {
    RemoveConcat(w, ",", ',');
    RemoveSpec(w, ',');
    assert Remove(",", ',') == [] by {
      assert ","[1..] == [];
    }
    assert w + [] == w;
  }

  /** "foob 123" names no operation (test_parse_bad_op). */
  lemma UnknownOperation(parse: string -> Option<Float>, w0: string, w1: string)
    requires w0 == "foob" && w1 == "123"
    ensures ParseSpec(parse, Join([w0, w1], ' ')) == Err(NotAValidOperation("foob"))
  {
    PlainWord(w0);
    PlainWord(w1);
    assert !IsOpName(w0) && !IsOpName(w1);
    ParseUnknownHead(parse, w0, w1, w0, w1);
  }

  /** "saturation 1.25": the number is the proportion and the bands are 1, 2, 3
      (test_parse_saturation_rgb). */
  lemma SaturationClause(parse: string -> Option<Float>, p: Float, w0: string, w1: string)
    requires w0 == "saturation" && w1 == "1.25" && parse(w1) == Some(p)
    ensures ParseSpec(parse, Join([w0, w1], ' ')) == Ok([Stage(Saturation, [p], {1, 2, 3})])
  {
    PlainWord(w0);
    PlainWord(w1);
    assert !IsOpName(w1);
    ParseRgbClause(parse, w0, w1, Saturation, w1, p);
  }

  /** The words of the band tests as the tokenizer leaves them. */
  lemma GammaWord()
    ensures Normal("gamma", Gamma.Name())
  {
    PlainWord("gamma");
  }

  lemma NumberWord(w: string)
    requires w == "0.95" || w == "1.05"
    ensures Normal(w, w) && !IsOpName(w)
  {
    PlainWord(w);
  }

  lemma DigitSpecs()
    ensures Normal("1,2", "12") && !IsOpName("12")
    ensures Normal("7,8,9", "789") && !IsOpName("789")
  {
    DropCommas('1', '2', '3');
    assert "1,2" == ['1', ',', '2'];
    DropCommas('7', '8', '9');
    assert "7,8,9" == ['7', ',', '8', ',', '9'];
  }

  lemma LetterSpec()
    ensures Normal("Rg", "rg") && !IsOpName("rg")
  {
    RemoveSpec("Rg", ',');
  }

  /** The band sets of the specs "12", "rg" and "789". */
  lemma TestBandSets()
    ensures Bands(Gamma, "12") == Ok({1, 2}) == Bands(Gamma, "rg")
    ensures Bands(Gamma, "789") == Err(BandOutOfRange(Gamma, 3))
  {
    assert "12"[1..] == "2" && "rg"[1..] == "g" && "2"[1..] == [] && "g"[1..] == [];
    assert {1} + ({2} + {}) == {1, 2};
    assert DigitValue('7') == 7;
  }

  /** "gamma 1,2 0.95" and "gamma Rg 0.95" select the same bands and so parse
      alike (test_parse_bands). */
  lemma SameBandsParseAlike(parse: string -> Option<Float>, op: string, digits: string, letters: string, g: string)
    requires op == "gamma" && digits == "1,2" && letters == "Rg" && g == "0.95"
    ensures ParseSpec(parse, Join([op, digits, g], ' ')) == ParseSpec(parse, Join([op, letters, g], ' '))
  {
    GammaWord();
    NumberWord(g);
    DigitSpecs();
    LetterSpec();
    TestBandSets();
    ParseBandClause(parse, op, digits, g, Gamma, "12", g);
    ParseBandClause(parse, op, letters, g, Gamma, "rg", g);
  }

  /** "gamma 7,8,9 1.05" names bands beyond the third (test_parse_bands). */
  lemma BandBeyondThird(parse: string -> Option<Float>, op: string, spec: string, g: string)
    requires op == "gamma" && spec == "7,8,9" && g == "1.05"
    ensures ParseSpec(parse, Join([op, spec, g], ' ')) == Err(BandOutOfRange(Gamma, 3))
  {
    GammaWord();
    NumberWord(g);
    DigitSpecs();
    TestBandSets();
    ParseBandClause(parse, op, spec, g, Gamma, "789", g);
  }

  /** Commas are optional: "gamma r,g,b 0.95, sigmoidal r,g,b 35 0.13" parses as
      "gamma rgb 0.95 sigmoidal rgb 35 0.13" does (test_parse_comma). */
  lemma CommaSeparatedBands(parse: string -> Option<Float>, gamma: string, sigmoidal: string,
                            commaBands: string, bands: string, commaG: string, g: string, c: string, b: string)
    requires gamma == "gamma" && sigmoidal == "sigmoidal" && commaBands == "r,g,b" && bands == "rgb"
    requires commaG == "0.95," && g == "0.95" && c == "35" && b == "0.13"
    ensures ParseSpec(parse, Join([gamma, commaBands, commaG, sigmoidal, commaBands, c, b], ' '))
      == ParseSpec(parse, Join([gamma, bands, g, sigmoidal, bands, c, b], ' '))
  {
    assert Remove(commaBands, ',') == Remove(bands, ',') by {
      DropCommas('r', 'g', 'b');
      assert commaBands == ['r', ',', 'g', ',', 'b'];
      RemoveSpec(bands, ',');
    }
    assert Remove(commaG, ',') == Remove(g, ',') by {
      DropTrailingComma(g);
      assert commaG == g + ",";
      RemoveSpec(g, ',');
    }
    CommasDropped(parse, [gamma, commaBands, commaG, sigmoidal, commaBands, c, b], [gamma, bands, g, sigmoidal, bands, c, b]);
  }

  /** "saturation 1.25 gamma rgb 0.95": saturation, then gamma on the three bands
      (test_parse_multi_saturation_first, test_parse_multi_name). */
  lemma SaturationThenGamma(parse: string -> Option<Float>, p: Float, g: Float,
                            sat: string, prop: string, gamma: string, rgb: string, exp: string)
    requires sat == "saturation" && prop == "1.25" && gamma == "gamma" && rgb == "rgb" && exp == "0.95"
    requires parse(prop) == Some(p) && parse(exp) == Some(g)
    ensures ParseSpec(parse, Join([sat, prop, gamma, rgb, exp], ' ')) ==
      Ok([Stage(Saturation, [p], {1, 2, 3}), Stage(Gamma, [g], {1, 2, 3})])
  {
    SaturationWords(sat, prop, gamma, rgb, exp);
    RgbWord(rgb);
    assert Bind(Gamma, [g]) == [g];
    ParseRgbThenBand(parse, sat, prop, gamma, rgb, exp, Saturation, prop, p, Gamma, rgb, exp, {1, 2, 3}, g);
  }

  lemma SaturationWords(sat: string, prop: string, gamma: string, rgb: string, exp: string)
    requires sat == "saturation" && prop == "1.25" && gamma == "gamma" && rgb == "rgb" && exp == "0.95"
    ensures Normal(sat, Saturation.Name()) && Normal(prop, prop) && Normal(gamma, Gamma.Name())
    ensures Normal(rgb, rgb) && Normal(exp, exp)
    ensures !IsOpName(prop) && !IsOpName(rgb) && !IsOpName(exp)
  {
    SaturationWord(sat);
    ProportionWord(prop);
    GammaWord();
    RgbWord(rgb);
    NumberWord(exp);
  }

  lemma SaturationWord(w: string)
    requires w == "saturation"
    ensures Normal(w, Saturation.Name())
  {
    PlainWord(w);
  }

  lemma ProportionWord(w: string)
    requires w == "1.25"
    ensures Normal(w, w) && !IsOpName(w)
  {
    PlainWord(w);
  }

  lemma RgbWord(w: string)
    requires w == "rgb"
    ensures Normal(w, w) && !IsOpName(w)
    ensures Bands(Gamma, w) == Ok({1, 2, 3})
  {
    PlainWord(w);
    AtmoBands(Gamma);
  }
}
