/**
 * test_magick_to_rio of tests/test_utils.py, line by line of its option
 * string. `float` and `str` of the few numbers involved
 * are pinned by preconditions; every other step is the translator's own.
 */
module MagickExamples {
  import opened Wrappers
  import opened Floats
  import opened Text
  import opened Utils

  /** Options written as words separated by single spaces, with a trailing
      space, come back as those words. */
  lemma {:induction false} TokensOfSpaced(parts: seq<string>)
    requires |parts| >= 1
    requires forall i :: 0 <= i < |parts| ==> parts[i] != [] && NoSpace(parts[i])
    ensures Split(Strip(Join(parts, ' ') + " "), ' ') == parts
  {
    JoinEnds(parts, ' ');
    var s := Join(parts, ' ');
    assert !IsSpace(s[0]) && !IsSpace(s[|s| - 1]) by {
      assert NoSpace(parts[0]) && NoSpace(parts[|parts| - 1]);
    }
    StripTrailing(s, " ");
    assert forall i :: 0 <= i < |parts| ==> ' ' !in parts[i] by {
      forall i | 0 <= i < |parts|
        ensures ' ' !in parts[i]
      {
        assert IsSpace(' ');
      }
    }
    SplitJoin(parts, ' ');
  }

  /** "-channel b -sigmoidal-contrast c -gamma g", as on line 42 of the test. */
  lemma ChannelSigmoidalGamma(st: Translator, b: string, c: string, g: string, rest: seq<string>,
                              parse: string -> Option<Float>, render: Float -> string)
    requires !IsFlag(b) && Plain(c) && !IsFlag(c) && !IsFlag(g)
    ensures Translate(st, ["-channel", b, "-sigmoidal-contrast", c, "-gamma", g] + rest, parse, render) ==
      Translate(Translator(Upper(b), NoFlag, st.ops + ["sigmoidal " + Upper(b) + " " + c + " " + render(Finite(0.5)),
                                                      "gamma " + Upper(b) + " " + g]), rest, parse, render)
  {
    var r2 := ["-gamma", g] + rest;
    var r1 := ["-sigmoidal-contrast", c] + r2;
    var st1 := Translator(Upper(b), NoFlag, st.ops);
    var st2 := Translator(Upper(b), NoFlag, st.ops + ["sigmoidal " + Upper(b) + " " + c + " " + render(Finite(0.5))]);
    assert ["-channel", b, "-sigmoidal-contrast", c, "-gamma", g] + rest == ["-channel", b] + r1;
    ChannelSetsBands(st, b, r1, parse, render);
    SigmoidalContrast(st1, c, r2, parse, render);
    GammaVerbatim(st2, g, rest, parse, render);
    assert st2.ops + ["gamma " + Upper(b) + " " + g] ==
      st.ops + ["sigmoidal " + Upper(b) + " " + c + " " + render(Finite(0.5)), "gamma " + Upper(b) + " " + g];
  }

  /** "-channel b -gamma g", as on lines 43 and 45 of the test. */
  lemma ChannelGamma(st: Translator, b: string, g: string, rest: seq<string>,
                     parse: string -> Option<Float>, render: Float -> string)
    requires !IsFlag(b) && !IsFlag(g)
    ensures Translate(st, ["-channel", b, "-gamma", g] + rest, parse, render) ==
      Translate(Translator(Upper(b), NoFlag, st.ops + ["gamma " + Upper(b) + " " + g]), rest, parse, render)
  {
    var r1 := ["-gamma", g] + rest;
    assert ["-channel", b, "-gamma", g] + rest == ["-channel", b] + r1;
    ChannelSetsBands(st, b, r1, parse, render);
    GammaVerbatim(Translator(Upper(b), NoFlag, st.ops), g, rest, parse, render);
  }

  /** "-channel b -sigmoidal-contrast a<c>p", as on line 44 of the test. */
  lemma ChannelSigmoidalBias(st: Translator, b: string, a: string, c: char, p: string, x: Float, rest: seq<string>,
                             parse: string -> Option<Float>, render: Float -> string)
    requires !IsFlag(b) && Plain(a) && c in Separators && Plain(p) && !IsFlag(a + [c] + p)
    requires parse(Remove(p, '%')) == Some(x)
    ensures Translate(st, ["-channel", b, "-sigmoidal-contrast", a + [c] + p] + rest, parse, render) ==
      Translate(Translator(Upper(b), NoFlag, st.ops + ["sigmoidal " + Upper(b) + " " + a + " " + render(DividedBy(x, 100.0))]),
                rest, parse, render)
  {
    var r1 := ["-sigmoidal-contrast", a + [c] + p] + rest;
    assert ["-channel", b, "-sigmoidal-contrast", a + [c] + p] + rest == ["-channel", b] + r1;
    ChannelSetsBands(st, b, r1, parse, render);
    SigmoidalBias(Translator(Upper(b), NoFlag, st.ops), a, c, p, rest, parse, render);
  }

  /** "+channel -sigmoidal-contrast a<c>p", as on line 47 of the test. */
  lemma ResetSigmoidalBias(st: Translator, a: string, c: char, p: string, x: Float, rest: seq<string>,
                           parse: string -> Option<Float>, render: Float -> string)
    requires Plain(a) && c in Separators && Plain(p) && !IsFlag(a + [c] + p)
    requires parse(Remove(p, '%')) == Some(x)
    ensures Translate(st, ["+channel", "-sigmoidal-contrast", a + [c] + p] + rest, parse, render) ==
      Translate(Translator("RGB", NoFlag, st.ops + ["sigmoidal RGB " + a + " " + render(DividedBy(x, 100.0))]),
                rest, parse, render)
  {
    var r1 := ["-sigmoidal-contrast", a + [c] + p] + rest;
    assert ["+channel", "-sigmoidal-contrast", a + [c] + p] + rest == ["+channel"] + r1;
    PlusChannelResets(st, r1, parse, render);
    SigmoidalBias(Translator("RGB", NoFlag, st.ops), a, c, p, rest, parse, render);
    assert "sigmoidal " + "RGB" + " " + a == "sigmoidal RGB " + a;
  }

  /** Dropping a character that only ends the string. */
  lemma RemoveTrailing(w: string, c: char)
    requires c !in w
    ensures Remove(w + [c], c) == w
  {
    RemoveConcat(w, [c], c);
    RemoveSpec(w, c);
    assert Remove([c], c) == [] by {
      assert [c][1..] == [];
    }
    assert w + [] == w;
  }

  /** The words of a line: non-empty and free of whitespace. */
  predicate Words(line: seq<string>)
  {
    forall i :: 0 <= i < |line| ==> line[i] != [] && NoSpace(line[i])
  }

  /** Every word non-empty printable ASCII without spaces. */
  lemma VisibleWords(line: seq<string>)
    requires forall i :: 0 <= i < |line| ==> line[i] != [] && Visible(line[i])
    ensures Words(line)
  {
    forall i | 0 <= i < |line| ensures NoSpace(line[i]) {
      VisibleNoSpace(line[i]);
    }
  }

  lemma WordsConcat(a: seq<string>, b: seq<string>)
    requires Words(a) && Words(b)
    ensures Words(a + b)
  {
    assert forall i :: |a| <= i < |a + b| ==> (a + b)[i] == b[i - |a|];
  }

  /** Line 42 of the test: "-channel B -sigmoidal-contrast 4 -gamma 0.95". */
  lemma Line42(st: Translator, rest: seq<string>, b: string, c: string, g: string,
               parse: string -> Option<Float>, render: Float -> string)
    requires b == "B" && c == "4" && g == "0.95"
    requires render(Finite(0.5)) == "0.5"
    ensures Translate(st, ["-channel", b, "-sigmoidal-contrast", c, "-gamma", g] + rest, parse, render) ==
      Translate(Translator("B", NoFlag, st.ops + ["sigmoidal B 4 0.5", "gamma B 0.95"]), rest, parse, render)
  {
    assert Plain(c);
    ChannelSigmoidalGamma(st, b, c, g, rest, parse, render);
    Line42Text(b, c, g, render(Finite(0.5)));
  }

  lemma Line42Text(b: string, c: string, g: string, t: string)
    requires b == "B" && c == "4" && g == "0.95" && t == "0.5"
    ensures Upper(b) == "B"
    ensures "sigmoidal " + Upper(b) + " " + c + " " + t == "sigmoidal B 4 0.5"
    ensures "gamma " + Upper(b) + " " + g == "gamma B 0.95"
  {
    assert Upper(b) == "B";
  }

  /** Lines 43 and 45 of the test: "-channel r -gamma 1.10", "-channel G -gamma 0.9". */
  lemma GammaLine(st: Translator, rest: seq<string>, b: string, g: string, bands: string, op: string,
                  parse: string -> Option<Float>, render: Float -> string)
    requires (b == "r" && g == "1.10" && bands == "R" && op == "gamma R 1.10")
          || (b == "G" && g == "0.9" && bands == "G" && op == "gamma G 0.9")
    ensures Translate(st, ["-channel", b, "-gamma", g] + rest, parse, render) ==
      Translate(Translator(bands, NoFlag, st.ops + [op]), rest, parse, render)
  {
    ChannelGamma(st, b, g, rest, parse, render);
    assert Upper(b) == bands;
    assert "gamma " + Upper(b) + " " + g == op;
  }

  /** Line 44 of the test: "-channel rgb -sigmoidal-contrast 1x55%". */
  lemma Line44(st: Translator, rest: seq<string>, b: string, a: string, q: string,
               parse: string -> Option<Float>, render: Float -> string)
    requires b == "rgb" && a == "1" && q == "55"
    requires parse(q) == Some(Finite(55.0)) && render(Finite(0.55)) == "0.55"
    ensures Translate(st, ["-channel", b, "-sigmoidal-contrast", a + "x" + q + "%"] + rest, parse, render) ==
      Translate(Translator("RGB", NoFlag, st.ops + ["sigmoidal RGB 1 0.55"]), rest, parse, render)
  {
    var p := q + "%";
    assert a + "x" + q + "%" == a + ['x'] + p;
    RemoveTrailing(q, '%');
    assert Plain(a) && Plain(p);
    ChannelSigmoidalBias(st, b, a, 'x', p, Finite(55.0), rest, parse, render);
    assert DividedBy(Finite(55.0), 100.0) == Finite(0.55);
    Line44Text(b, a, render(Finite(0.55)));
  }

  lemma Line44Text(b: string, a: string, t: string)
    requires b == "rgb" && a == "1" && t == "0.55"
    ensures Upper(b) == "RGB"
    ensures "sigmoidal " + Upper(b) + " " + a + " " + t == "sigmoidal RGB 1 0.55"
  {
    assert Upper(b) == "RGB";
  }

  /** Lines 46 and 48 of the test: "-modulate 100,125", "-modulate 222,135". */
  lemma ModulateLine(st: Translator, rest: seq<string>, a: string, p: string, x: real, op: string,
               parse: string -> Option<Float>, render: Float -> string)
    requires (a == "100" && p == "125" && x == 125.0 && op == "saturation 1.25")
          || (a == "222" && p == "135" && x == 135.0 && op == "saturation 1.35")
    requires parse(p) == Some(Finite(x)) && render(Finite(x / 100.0)) == op[11..]
    ensures Translate(st, ["-modulate", a + "," + p] + rest, parse, render) ==
      Translate(Translator(st.bands, NoFlag, st.ops + [op]), rest, parse, render)
  {
    assert Plain(a) && Plain(p);
    ModulateSaturation(st, a, ',', p, rest, parse, render);
    assert "saturation " + render(DividedBy(Finite(x), 100.0)) == op;
  }

  /** Line 47 of the test: "+channel -sigmoidal-contrast 3,40%". */
  lemma Line47(st: Translator, rest: seq<string>, a: string, q: string,
               parse: string -> Option<Float>, render: Float -> string)
    requires a == "3" && q == "40"
    requires parse(q) == Some(Finite(40.0)) && render(Finite(0.4)) == "0.4"
    ensures Translate(st, ["+channel", "-sigmoidal-contrast", a + "," + q + "%"] + rest, parse, render) ==
      Translate(Translator("RGB", NoFlag, st.ops + ["sigmoidal RGB 3 0.4"]), rest, parse, render)
  {
    var p := q + "%";
    assert a + "," + q + "%" == a + [','] + p;
    RemoveTrailing(q, '%');
    assert Plain(a) && Plain(p);
    ResetSigmoidalBias(st, a, ',', p, Finite(40.0), rest, parse, render);
    assert DividedBy(Finite(40.0), 100.0) == Finite(0.4);
    assert "sigmoidal RGB " + a + " " + render(Finite(0.4)) == "sigmoidal RGB 3 0.4";
  }

  /** The words of the option string of the test, line by line. */
  function Line42Words(): seq<string> { ["-channel", "B", "-sigmoidal-contrast", "4", "-gamma", "0.95"] }
  function Line43Words(): seq<string> { ["-channel", "r", "-gamma", "1.10"] }
  function Line44Words(): seq<string> { ["-channel", "rgb", "-sigmoidal-contrast", "1x55%"] }
  function Line45Words(): seq<string> { ["-channel", "G", "-gamma", "0.9"] }
  function Line46Words(): seq<string> { ["-modulate", "100,125"] }
  function Line47Words(): seq<string> { ["+channel", "-sigmoidal-contrast", "3,40%"] }
  function Line48Words(): seq<string> { ["-modulate", "222,135"] }

  predicate TestWords(words: seq<string>)
  {
    words == Line42Words() + Line43Words() + Line44Words() + Line45Words()
             + Line46Words() + Line47Words() + Line48Words()
  }

  lemma Line42Spaced() ensures Words(Line42Words()) { VisibleWords(Line42Words()); }
  lemma Line43Spaced() ensures Words(Line43Words()) { VisibleWords(Line43Words()); }
  lemma Line44Spaced() ensures Words(Line44Words()) { VisibleWords(Line44Words()); }
  lemma Line45Spaced() ensures Words(Line45Words()) { VisibleWords(Line45Words()); }
  lemma Line46Spaced() ensures Words(Line46Words()) { VisibleWords(Line46Words()); }
  lemma Line47Spaced() ensures Words(Line47Words()) { VisibleWords(Line47Words()); }
  lemma Line48Spaced() ensures Words(Line48Words()) { VisibleWords(Line48Words()); }

  lemma TestWordsSpaced(words: seq<string>)
    requires TestWords(words)
    ensures Words(words)
  {
    Line42Spaced();
    Line43Spaced();
    Line44Spaced();
    Line45Spaced();
    Line46Spaced();
    Line47Spaced();
    Line48Spaced();
    WordsConcat(Line42Words(), Line43Words());
    WordsConcat(Line42Words() + Line43Words(), Line44Words());
    WordsConcat(Line42Words() + Line43Words() + Line44Words(), Line45Words());
    WordsConcat(Line42Words() + Line43Words() + Line44Words() + Line45Words(), Line46Words());
    WordsConcat(Line42Words() + Line43Words() + Line44Words() + Line45Words() + Line46Words(), Line47Words());
    WordsConcat(Line42Words() + Line43Words() + Line44Words() + Line45Words() + Line46Words() + Line47Words(),
                Line48Words());
  }

  /** The arguments with separators, spelled out. */
  lemma Spelled(a: string, c: string, q: string, t: string, w: string)
    requires (a, c, q, t, w) == ("1", "x", "55", "%", "1x55%") || (a, c, q, t, w) == ("100", ",", "125", "", "100,125")
          || (a, c, q, t, w) == ("3", ",", "40", "%", "3,40%") || (a, c, q, t, w) == ("222", ",", "135", "", "222,135")
    ensures a + c + q + t == w
  {
  }

  /** Lines 42 to 44 of the test. */
  lemma EarlyLines(st: Translator, rest: seq<string>, b1: string, c1: string, g1: string, b2: string, g2: string,
                   b3: string, a3: string, q3: string, parse: string -> Option<Float>, render: Float -> string)
    requires b1 == "B" && c1 == "4" && g1 == "0.95" && b2 == "r" && g2 == "1.10"
    requires b3 == "rgb" && a3 == "1" && q3 == "55"
    requires render(Finite(0.5)) == "0.5"
    requires parse("55") == Some(Finite(55.0)) && render(Finite(0.55)) == "0.55"
    ensures Translate(st, ["-channel", b1, "-sigmoidal-contrast", c1, "-gamma", g1,
                           "-channel", b2, "-gamma", g2,
                           "-channel", b3, "-sigmoidal-contrast", a3 + "x" + q3 + "%"] + rest, parse, render) ==
      Translate(Translator("RGB", NoFlag, st.ops + ["sigmoidal B 4 0.5", "gamma B 0.95", "gamma R 1.10",
                                                   "sigmoidal RGB 1 0.55"]), rest, parse, render)
  {
    var r2 := ["-channel", b3, "-sigmoidal-contrast", a3 + "x" + q3 + "%"] + rest;
    var r1 := ["-channel", b2, "-gamma", g2] + r2;
    var s1 := Translator("B", NoFlag, st.ops + ["sigmoidal B 4 0.5", "gamma B 0.95"]);
    var s2 := Translator("R", NoFlag, s1.ops + ["gamma R 1.10"]);
    var s3 := Translator("RGB", NoFlag, s2.ops + ["sigmoidal RGB 1 0.55"]);
    assert ["-channel", b1, "-sigmoidal-contrast", c1, "-gamma", g1,
            "-channel", b2, "-gamma", g2,
            "-channel", b3, "-sigmoidal-contrast", a3 + "x" + q3 + "%"] + rest
        == ["-channel", b1, "-sigmoidal-contrast", c1, "-gamma", g1] + r1;
    assert Translate(st, ["-channel", b1, "-sigmoidal-contrast", c1, "-gamma", g1] + r1, parse, render)
        == Translate(s1, r1, parse, render) by {
      Line42(st, r1, b1, c1, g1, parse, render);
    }
    assert Translate(s1, r1, parse, render) == Translate(s2, r2, parse, render) by {
      GammaLine(s1, r2, b2, g2, "R", "gamma R 1.10", parse, render);
    }
    assert Translate(s2, r2, parse, render) == Translate(s3, rest, parse, render) by {
      Line44(s2, rest, b3, a3, q3, parse, render);
    }
    assert s3.ops == st.ops + ["sigmoidal B 4 0.5", "gamma B 0.95", "gamma R 1.10", "sigmoidal RGB 1 0.55"];
  }

  /** Lines 45 to 48 of the test. */
  lemma LateLines(st: Translator, b4: string, g4: string, a5: string, p5: string, a6: string, q6: string,
                  a7: string, p7: string, parse: string -> Option<Float>, render: Float -> string)
    requires b4 == "G" && g4 == "0.9" && a5 == "100" && p5 == "125" && a6 == "3" && q6 == "40"
    requires a7 == "222" && p7 == "135"
    requires parse("125") == Some(Finite(125.0)) && render(Finite(1.25)) == "1.25"
    requires parse("40") == Some(Finite(40.0)) && render(Finite(0.4)) == "0.4"
    requires parse("135") == Some(Finite(135.0)) && render(Finite(1.35)) == "1.35"
    ensures Translate(st, ["-channel", b4, "-gamma", g4, "-modulate", a5 + "," + p5,
                           "+channel", "-sigmoidal-contrast", a6 + "," + q6 + "%", "-modulate", a7 + "," + p7],
                      parse, render) ==
      Ok(Translator("RGB", NoFlag, st.ops + ["gamma G 0.9", "saturation 1.25", "sigmoidal RGB 3 0.4",
                                            "saturation 1.35"]))
  {
    var r2 := ["+channel", "-sigmoidal-contrast", a6 + "," + q6 + "%", "-modulate", a7 + "," + p7];
    var r1 := ["-modulate", a5 + "," + p5] + r2;
    var s1 := Translator("G", NoFlag, st.ops + ["gamma G 0.9"]);
    var s2 := Translator("G", NoFlag, s1.ops + ["saturation 1.25"]);
    var s4 := Translator("RGB", NoFlag, s2.ops + ["sigmoidal RGB 3 0.4", "saturation 1.35"]);
    assert ["-channel", b4, "-gamma", g4, "-modulate", a5 + "," + p5,
            "+channel", "-sigmoidal-contrast", a6 + "," + q6 + "%", "-modulate", a7 + "," + p7]
        == ["-channel", b4, "-gamma", g4] + r1;
    assert Translate(st, ["-channel", b4, "-gamma", g4] + r1, parse, render) == Translate(s1, r1, parse, render) by {
      GammaLine(st, r1, b4, g4, "G", "gamma G 0.9", parse, render);
    }
    assert Translate(s1, r1, parse, render) == Translate(s2, r2, parse, render) by {
      ModulateLine(s1, r2, a5, p5, 125.0, "saturation 1.25", parse, render);
    }
    assert Translate(s2, r2, parse, render) == Ok(s4) by {
      LastLines(s2, a6, q6, a7, p7, parse, render);
    }
    assert s4.ops == st.ops + ["gamma G 0.9", "saturation 1.25", "sigmoidal RGB 3 0.4", "saturation 1.35"];
  }

  /** Lines 47 and 48 of the test. */
  lemma LastLines(st: Translator, a6: string, q6: string, a7: string, p7: string,
                  parse: string -> Option<Float>, render: Float -> string)
    requires a6 == "3" && q6 == "40" && a7 == "222" && p7 == "135"
    requires parse("40") == Some(Finite(40.0)) && render(Finite(0.4)) == "0.4"
    requires parse("135") == Some(Finite(135.0)) && render(Finite(1.35)) == "1.35"
    ensures Translate(st, ["+channel", "-sigmoidal-contrast", a6 + "," + q6 + "%", "-modulate", a7 + "," + p7],
                      parse, render) ==
      Ok(Translator("RGB", NoFlag, st.ops + ["sigmoidal RGB 3 0.4", "saturation 1.35"]))
  {
    var r3 := ["-modulate", a7 + "," + p7];
    var s3 := Translator("RGB", NoFlag, st.ops + ["sigmoidal RGB 3 0.4"]);
    var s4 := Translator("RGB", NoFlag, s3.ops + ["saturation 1.35"]);
    assert ["+channel", "-sigmoidal-contrast", a6 + "," + q6 + "%", "-modulate", a7 + "," + p7]
        == ["+channel", "-sigmoidal-contrast", a6 + "," + q6 + "%"] + r3;
    assert Translate(st, ["+channel", "-sigmoidal-contrast", a6 + "," + q6 + "%"] + r3, parse, render)
        == Translate(s3, r3, parse, render) by {
      Line47(st, r3, a6, q6, parse, render);
    }
    assert Translate(s3, r3, parse, render) == Ok(s4) by {
      ModulateLine(s3, [], a7, p7, 135.0, "saturation 1.35", parse, render);
      assert r3 + [] == r3;
    }
    assert s4.ops == st.ops + ["sigmoidal RGB 3 0.4", "saturation 1.35"];
  }

  /** The loop over the words of the test emits the eight operations. */
  lemma TestTranslated(parse: string -> Option<Float>, render: Float -> string,
                       words: seq<string>, expected: seq<string>)
    requires TestWords(words)
    requires expected == ["sigmoidal B 4 0.5", "gamma B 0.95", "gamma R 1.10", "sigmoidal RGB 1 0.55",
                          "gamma G 0.9", "saturation 1.25", "sigmoidal RGB 3 0.4", "saturation 1.35"]
    requires parse("55") == Some(Finite(55.0)) && parse("125") == Some(Finite(125.0))
    requires parse("40") == Some(Finite(40.0)) && parse("135") == Some(Finite(135.0))
    requires render(Finite(0.5)) == "0.5" && render(Finite(0.55)) == "0.55" && render(Finite(1.25)) == "1.25"
    requires render(Finite(0.4)) == "0.4" && render(Finite(1.35)) == "1.35"
    ensures Translate(Start, words, parse, render) == Ok(Translator("RGB", NoFlag, expected))
  {
    var b1, c1, g1 := "B", "4", "0.95";
    var b2, g2 := "r", "1.10";
    var b3, a3, q3 := "rgb", "1", "55";
    var b4, g4 := "G", "0.9";
    var a5, p5 := "100", "125";
    var a6, q6 := "3", "40";
    var a7, p7 := "222", "135";
    var late := ["-channel", b4, "-gamma", g4, "-modulate", a5 + "," + p5,
                 "+channel", "-sigmoidal-contrast", a6 + "," + q6 + "%", "-modulate", a7 + "," + p7];
    var early := ["-channel", b1, "-sigmoidal-contrast", c1, "-gamma", g1,
                  "-channel", b2, "-gamma", g2,
                  "-channel", b3, "-sigmoidal-contrast", a3 + "x" + q3 + "%"];
    assert words == early + late by {
      Spelled(a3, "x", q3, "%", "1x55%");
      Spelled(a5, ",", p5, "", "100,125");
      Spelled(a6, ",", q6, "%", "3,40%");
      Spelled(a7, ",", p7, "", "222,135");
      assert a5 + "," + p5 + "" == a5 + "," + p5 && a7 + "," + p7 + "" == a7 + "," + p7;
    }
    EarlyLines(Start, late, b1, c1, g1, b2, g2, b3, a3, q3, parse, render);
    var mid := Translator("RGB", NoFlag, Start.ops + ["sigmoidal B 4 0.5", "gamma B 0.95", "gamma R 1.10",
                                                     "sigmoidal RGB 1 0.55"]);
    LateLines(mid, b4, g4, a5, p5, a6, q6, a7, p7, parse, render);
    assert mid.ops + ["gamma G 0.9", "saturation 1.25", "sigmoidal RGB 3 0.4", "saturation 1.35"] == expected;
  }

  /**
   * test_magick_to_rio: the option string, whose words are each followed by
   * one space, translates to the eight operations joined by spaces, given
   * how `float` reads and `str` writes the five numbers involved.
   */
  lemma MagickToRioExample(parse: string -> Option<Float>, render: Float -> string,
                           words: seq<string>, expected: seq<string>)
    requires TestWords(words)
    requires expected == ["sigmoidal B 4 0.5", "gamma B 0.95", "gamma R 1.10", "sigmoidal RGB 1 0.55",
                          "gamma G 0.9", "saturation 1.25", "sigmoidal RGB 3 0.4", "saturation 1.35"]
    requires parse("55") == Some(Finite(55.0)) && parse("125") == Some(Finite(125.0))
    requires parse("40") == Some(Finite(40.0)) && parse("135") == Some(Finite(135.0))
    requires render(Finite(0.5)) == "0.5" && render(Finite(0.55)) == "0.55" && render(Finite(1.25)) == "1.25"
    requires render(Finite(0.4)) == "0.4" && render(Finite(1.35)) == "1.35"
    ensures Translation(Join(words, ' ') + " ", parse, render) == Ok(Join(expected, ' '))
  {
    TestWordsSpaced(words);
    TokensOfSpaced(words);
    TestTranslated(parse, render, words, expected);
  }
}
