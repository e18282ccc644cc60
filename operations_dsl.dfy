/**
 * The operation DSL of rio_color/operations.py: `parse_operations`, which cuts an
 * operation string into clauses and compiles each into a Stage, and
 * `simple_atmo_opstring`, which writes the atmospheric recipe in that DSL.
 *
 * Python's `float(text)` and the `str.format` rendering of a float are opaque
 * here: the parser takes the conversion as a parameter, the recipe writer the
 * rendering.
 */
module OperationsDsl {
  import opened Wrappers
  import opened Floats
  import opened Text
  import opened Operations

  /** `len(band_lookup)`: the largest band number the parser admits. */
  const BandCount: int := 3

  /** The operation a lower-case token names, if any (`opfuncs[token]`). */
  function OpNamed(t: string): (r: Option<OpName>)
    ensures r.Some? ==> r.value.Name() == t
    ensures r.None? ==> forall op: OpName :: op.Name() != t
  {
    if t == "gamma" then Some(Gamma)
    else if t == "sigmoidal" then Some(Sigmoidal)
    else if t == "saturation" then Some(Saturation)
    else None
  }

  predicate IsOpName(t: string)
  {
    OpNamed(t).Some?
  }

  /** `[x.strip() for x in ops_string.replace(",", "").split(" ")]`. */
  function Tokens(s: string): (r: seq<string>)
    ensures |r| >= 1
  {
    Words(Remove(s, ','))
  }

  /** `[x.strip() for x in t.split(" ")]`. */
  function Words(t: string): (r: seq<string>)
    ensures |r| >= 1
    ensures forall i :: 0 <= i < |r| ==> Stripped(r[i])
  {
    var pieces := Split(t, ' ');
    StripAll(pieces);
    seq(|pieces|, i requires 0 <= i < |pieces| => Strip(pieces[i]))
  }

  /** Every token lower-cased, as the grouping loop stores them: each is the
      token in lower case, and names an operation exactly when the token spells
      that operation's name in any mix of cases. */
  function LowerAll(toks: seq<string>): (r: seq<string>)
    ensures |r| == |toks| && forall i :: 0 <= i < |toks| ==> r[i] == Lower(toks[i])
    ensures forall i :: 0 <= i < |toks| ==> SameIgnoringCase(r[i], toks[i]) && Lower(r[i]) == r[i]
    ensures forall i, op: OpName :: 0 <= i < |toks| ==>
      (OpNamed(r[i]) == Some(op) <==> SameIgnoringCase(toks[i], op.Name()))
  {
    LowerAllFacts(toks);
    seq(|toks|, i requires 0 <= i < |toks| => Lower(toks[i]))
  }

  /** Each operation's name is written in lower case. */
  lemma NameLower(op: OpName)
    ensures Lower(op.Name()) == op.Name()
  {
    match op {
      case Gamma => assert Lower("gamma") == "gamma";
      case Sigmoidal => assert Lower("sigmoidal") == "sigmoidal";
      case Saturation => assert Lower("saturation") == "saturation";
    }
  }

  /** A lower-cased token is lower case, equal to the token up to case, and names
      an operation exactly when the token spells its name in any case. */
  lemma LowerFacts(t: string)
    ensures SameIgnoringCase(Lower(t), t) && Lower(Lower(t)) == Lower(t)
    ensures forall op: OpName :: OpNamed(Lower(t)) == Some(op) <==> SameIgnoringCase(t, op.Name())
  {
    forall op: OpName ensures OpNamed(Lower(t)) == Some(op) <==> SameIgnoringCase(t, op.Name()) {
      NameLower(op);
      LowerIgnoringCase(t, op.Name());
    }
  }

  lemma LowerAllFacts(toks: seq<string>)
    ensures forall i :: 0 <= i < |toks| ==>
      SameIgnoringCase(Lower(toks[i]), toks[i]) && Lower(Lower(toks[i])) == Lower(toks[i])
    ensures forall i, op: OpName :: 0 <= i < |toks| ==>
      (OpNamed(Lower(toks[i])) == Some(op) <==> SameIgnoringCase(toks[i], op.Name()))
  {
    forall i | 0 <= i < |toks| {
      LowerFacts(toks[i]);
    }
  }

  /** The clause `cur` followed by the clauses `cs`: `cur` absorbs the first of
      them unless that one starts with an operation name. */
  function Glue(cur: seq<string>, cs: seq<seq<string>>): seq<seq<string>>
  {
    if cur == [] then cs
    else if cs == [] || cs[0] == [] || IsOpName(cs[0][0]) then [cur] + cs
    else [cur + cs[0]] + cs[1..]
  }

  /**
   * The clauses of a token list: a new clause starts at every token that names an
   * operation, and the tokens before the first such token form a clause of their
   * own. The clauses hold all the tokens, in order.
   */
  function Clauses(toks: seq<string>): seq<seq<string>>
  {
    if toks == [] then [] else Glue([toks[0]], Clauses(toks[1..]))
  }

  /** The clauses hold all the tokens, in order. */
  lemma {:induction false} ClausesConcat(toks: seq<string>)
    ensures Concat(Clauses(toks)) == toks
  {
    if toks != [] {
      ClausesConcat(toks[1..]);
      var rest := Clauses(toks[1..]);
      assert toks == [toks[0]] + toks[1..];
      if rest == [] || rest[0] == [] || IsOpName(rest[0][0]) {
        assert Concat([[toks[0]]] + rest) == [toks[0]] + Concat(rest);
      } else {
        var r := [[toks[0]] + rest[0]] + rest[1..];
        assert Concat(r) == [toks[0]] + rest[0] + Concat(rest[1..]);
        assert Concat(rest) == rest[0] + Concat(rest[1..]);
      }
    }
  }

  /** No clause is empty, the first starts with the first token, every clause
      after the first starts with an operation name, and no other token is one. */
  lemma {:induction false} ClausesShape(toks: seq<string>)
    ensures var r := Clauses(toks);
      && (toks != [] ==> r != [] && r[0] != [] && r[0][0] == toks[0])
      && (forall i :: 0 <= i < |r| ==> r[i] != [])
      && (forall i :: 0 < i < |r| ==> IsOpName(r[i][0]))
      && (forall i, j :: 0 <= i < |r| && 0 < j < |r[i]| ==> !IsOpName(r[i][j]))
  {
    if toks != [] {
      ClausesShape(toks[1..]);
      var rest := Clauses(toks[1..]);
      if rest != [] && !IsOpName(rest[0][0]) {
        var r := [[toks[0]] + rest[0]] + rest[1..];
        assert forall j :: 1 < j < |r[0]| ==> r[0][j] == rest[0][j - 1];
        assert forall i :: 1 < i < |r| ==> r[i] == rest[i];
      }
    }
  }

  /** Gluing a clause and then a token onto the rest is gluing the extended clause,
      unless the token begins a clause of its own. */
  lemma GlueToken(cur: seq<string>, t: string, rest: seq<seq<string>>)
    requires cur != [] && !IsOpName(t)
    ensures Glue(cur, Glue([t], rest)) == Glue(cur + [t], rest)
  {
    if rest != [] && rest[0] != [] && !IsOpName(rest[0][0]) {
      assert cur + ([t] + rest[0]) == cur + [t] + rest[0];
    }
  }

  /** An operation name closes the clause before it. */
  lemma GlueOpToken(cur: seq<string>, t: string, rest: seq<seq<string>>)
    requires cur != [] && IsOpName(t)
    ensures Glue(cur, Glue([t], rest)) == [cur] + Glue([t], rest)
  {
  }

  lemma ClausesStep(toks: seq<string>, i: int)
    requires 0 <= i < |toks|
    ensures Clauses(toks[i..]) == Glue([toks[i]], Clauses(toks[i + 1..]))
  {
    assert toks[i..][1..] == toks[i + 1..];
  }

  /** The grouping loop of `parse_operations`. */
  method GroupTokens(tokens: seq<string>) returns (operations: seq<seq<string>>)
    ensures operations == Clauses(LowerAll(tokens))
  {
    var low := LowerAll(tokens);
    operations := [];
    var current: seq<string> := [];
    assert low[0..] == low;
    for i := 0 to |tokens|
      invariant i == 0 ==> current == [] && operations == []
      invariant 0 < i ==> current != []
      invariant Clauses(low) == operations + Glue(current, Clauses(low[i..]))
    {
      var token := Lower(tokens[i]);
      ClausesStep(low, i);
      ghost var rest := Clauses(low[i + 1..]);
      assert Clauses(low) == operations + Glue(current, Glue([token], rest));
      if IsOpName(token) {
        if |current| > 0 {
          GlueOpToken(current, token, rest);
          assert operations + ([current] + Glue([token], rest)) == operations + [current] + Glue([token], rest);
          operations := operations + [current];
          current := [];
        }
        assert current + [token] == [token];
      } else if current != [] {
        GlueToken(current, token, rest);
      } else {
        assert current + [token] == [token];
      }
      current := current + [token];
      assert Clauses(low) == operations + Glue(current, rest);
    }
    assert Clauses(low) == operations + Glue(current, []);
    assert low[|tokens|..] == [];
    if |current| > 0 {
      operations := operations + [current];
    }
  }

  /** One character of a band spec: a digit from 1 to 3, or r, g, b in either case. */
  function BandOf(op: OpName, c: char): (r: Outcome<int>)
    ensures r.Ok? ==> 1 <= r.value <= BandCount
  {
    if IsDigit(c) then
      var d := DigitValue(c);
      if d < 1 || d > BandCount then Err(BandOutOfRange(op, BandCount)) else Ok(d)
    else if LowerChar(c) == 'r' then Ok(1)
    else if LowerChar(c) == 'g' then Ok(2)
    else if LowerChar(c) == 'b' then Ok(3)
    else Err(UnknownBand(c))
  }

  /** The band set of a band spec, the characters read left to right. */
  function Bands(op: OpName, spec: string): Outcome<BandSet>
  {
    if spec == [] then Ok({})
    else
      match BandOf(op, spec[0])
      case Err(e) => Err(e)
      case Ok(b) =>
        match Bands(op, spec[1..])
        case Err(e) => Err(e)
        case Ok(rest) => Ok({b} + rest)
  }

  /**
   * A band spec resolves exactly when every character names a band; the set then
   * holds the band of each character and nothing else (repeats collapse), and a
   * failure is that of an offending character.
   */
  lemma {:induction false} BandsShape(op: OpName, spec: string)
    ensures var r := Bands(op, spec);
      && (r.Ok? <==> forall i :: 0 <= i < |spec| ==> BandOf(op, spec[i]).Ok?)
      && (r.Ok? ==> forall i :: 0 <= i < |spec| ==> BandOf(op, spec[i]).value in r.value)
      && (r.Ok? ==> forall x :: x in r.value ==> exists i :: 0 <= i < |spec| && BandOf(op, spec[i]) == Ok(x))
      && (r.Err? ==> exists i :: 0 <= i < |spec| && BandOf(op, spec[i]) == Err(r.error))
  {
    if spec != [] {
      BandsShape(op, spec[1..]);
      assert forall i :: 0 < i < |spec| ==> spec[i] == spec[1..][i - 1];
      var r := Bands(op, spec);
      var head := BandOf(op, spec[0]);
      if r.Ok? {
        forall x | x in r.value ensures exists i :: 0 <= i < |spec| && BandOf(op, spec[i]) == Ok(x) {
          if x != head.value {
            var j :| 0 <= j < |spec[1..]| && BandOf(op, spec[1..][j]) == Ok(x);
            assert BandOf(op, spec[j + 1]) == Ok(x);
          }
        }
      } else if head.Ok? {
        var j :| 0 <= j < |spec[1..]| && BandOf(op, spec[1..][j]) == Err(r.error);
        assert BandOf(op, spec[j + 1]) == Err(r.error);
      }
    }
  }

  /** A band spec that fails reports its first offending character: every
      character before it names a band. */
  lemma {:induction false} BandsFirstFailure(op: OpName, spec: string)
    ensures Bands(op, spec).Err? ==>
      exists i :: 0 <= i < |spec| && BandOf(op, spec[i]) == Err(Bands(op, spec).error) &&
                  forall j :: 0 <= j < i ==> BandOf(op, spec[j]).Ok?
  {
    var r := Bands(op, spec);
    if spec != [] && r.Err? && BandOf(op, spec[0]).Ok? {
      BandsFirstFailure(op, spec[1..]);
      var i :| 0 <= i < |spec[1..]| && BandOf(op, spec[1..][i]) == Err(r.error) &&
               forall j :: 0 <= j < i ==> BandOf(op, spec[1..][j]).Ok?;
      assert BandOf(op, spec[i + 1]) == Err(r.error);
      forall j | 0 <= j < i + 1 ensures BandOf(op, spec[j]).Ok? {
        if j > 0 {
          assert spec[j] == spec[1..][j - 1];
        }
      }
    }
  }

  /** The bands gathered so far joined with the outcome for the rest. */
  function Resumed(bands: BandSet, rest: Outcome<BandSet>): Outcome<BandSet>
  {
    match rest
    case Err(e) => Err(e)
    case Ok(more) => Ok(bands + more)
  }

  lemma ResumedAdd(bands: BandSet, b: int, rest: Outcome<BandSet>)
    requires 1 <= b <= 3
    ensures Resumed(bands, Resumed({b}, rest)) == Resumed(bands + {b}, rest)
  {
    if rest.Ok? {
      assert bands + ({b} + rest.value) == bands + {b} + rest.value;
    }
  }

  lemma BandsStep(op: OpName, spec: string, i: int)
    requires 0 <= i < |spec|
    ensures Bands(op, spec[i..]) == match BandOf(op, spec[i])
      case Err(e) => Err(e)
      case Ok(b) => Resumed({b}, Bands(op, spec[i + 1..]))
  {
    assert spec[i..][1..] == spec[i + 1..];
  }

  /** The band loop of `parse_operations`: `bands.add(band)` for each character. */
  method ResolveBands(op: OpName, spec: string) returns (r: Outcome<BandSet>)
    ensures r == Bands(op, spec)
  {
    var bands: BandSet := {};
    assert spec[0..] == spec;
    assert forall rest: set<int> :: bands + rest == rest;
    for i := 0 to |spec|
      invariant Bands(op, spec) == Resumed(bands, Bands(op, spec[i..]))
    {
      BandsStep(op, spec, i);
      var band := BandOf(op, spec[i]);
      if band.Err? {
        return Err(band.error);
      }
      ResumedAdd(bands, band.value, Bands(op, spec[i + 1..]));
      bands := bands + {band.value};
    }
    assert spec[|spec|..] == [];
    return Ok(bands);
  }

  /** `[float(arg) for arg in args]`: the first text that does not convert fails. */
  function ParseFloats(parse: string -> Option<Float>, args: seq<string>): (r: Outcome<seq<Float>>)
    ensures r.Ok? <==> forall i :: 0 <= i < |args| ==> parse(args[i]).Some?
    ensures r.Ok? ==> |r.value| == |args| && forall i :: 0 <= i < |args| ==> Some(r.value[i]) == parse(args[i])
    ensures r.Err? ==> exists i :: 0 <= i < |args| && parse(args[i]).None? && r.error == NotANumber(args[i])
  {
    if args == [] then Ok([])
    else
      match parse(args[0])
      case None => Err(NotANumber(args[0]))
      case Some(x) =>
        match ParseFloats(parse, args[1..])
        case Err(e) => Err(e)
        case Ok(xs) => Ok([x] + xs)
  }

  /** `dict(zip(opkwargs[opname], args))`: arguments bound to the parameters by
      position; surplus arguments are dropped, missing ones stay unbound. */
  function Bind(op: OpName, args: seq<Float>): (r: seq<Float>)
    ensures |r| == if |args| < |op.Params()| then |args| else |op.Params()|
    ensures r == args[..|r|]
  {
    args[..if |args| < |op.Params()| then |args| else |op.Params()|]
  }

  /**
   * One clause (lower-cased tokens) compiled: the head must name an operation;
   * saturation takes the next token as its first argument and always the bands
   * 1, 2, 3; the other operations take the next token as their band spec. Every
   * remaining token must convert to a float.
   */
  function CompileClauseSpec(parse: string -> Option<Float>, parts: seq<string>): (r: Outcome<Stage>)
    ensures r.Ok? ==> |parts| >= 2 && r.value.op.Name() == parts[0]
  {
    if |parts| < 2 then Err(MissingBandSpec)
    else
      match OpNamed(parts[0])
      case None => Err(NotAValidOperation(parts[0]))
      case Some(op) =>
        var bands := if op.RgbOp() then Ok({1, 2, 3}) else Bands(op, parts[1]);
        var args := if op.RgbOp() then parts[1..] else parts[2..];
        match bands
        case Err(e) => Err(e)
        case Ok(bs) =>
          match ParseFloats(parse, args)
          case Err(e) => Err(e)
          case Ok(vals) => Ok(Stage(op, Bind(op, vals), bs))
  }

  method CompileClause(parse: string -> Option<Float>, parts: seq<string>) returns (r: Outcome<Stage>)
    ensures r == CompileClauseSpec(parse, parts)
  {
    if |parts| < 2 {
      return Err(MissingBandSpec);
    }
    var opname, bandstr, args := parts[0], parts[1], parts[2..];
    var op := OpNamed(opname);
    if op.None? {
      return Err(NotAValidOperation(opname));
    }
    var bands: BandSet;
    if op.value.RgbOp() {
      args := [bandstr] + args;
      assert args == parts[1..];
      bands := {1, 2, 3};
    } else {
      var resolved := ResolveBands(op.value, bandstr);
      if resolved.Err? {
        return Err(resolved.error);
      }
      bands := resolved.value;
    }
    var vals := ParseFloats(parse, args);
    if vals.Err? {
      return Err(vals.error);
    }
    return Ok(Stage(op.value, Bind(op.value, vals.value), bands));
  }

  /** All clauses compiled in order; the first that fails decides the error. */
  function CompileAll(parse: string -> Option<Float>, clauses: seq<seq<string>>): Outcome<seq<Stage>>
  {
    if clauses == [] then Ok([])
    else
      match CompileClauseSpec(parse, clauses[0])
      case Err(e) => Err(e)
      case Ok(st) => PrefixedBy([st], CompileAll(parse, clauses[1..]))
  }

  /** The stages compiled so far followed by the outcome for the rest. */
  function PrefixedBy(done: seq<Stage>, rest: Outcome<seq<Stage>>): Outcome<seq<Stage>>
  {
    match rest
    case Err(e) => Err(e)
    case Ok(more) => Ok(done + more)
  }

  /** Compiling succeeds exactly when every clause compiles, and then yields one
      stage per clause, namely that clause's. */
  lemma {:induction false} CompileAllShape(parse: string -> Option<Float>, clauses: seq<seq<string>>)
    ensures var r := CompileAll(parse, clauses);
      && (r.Ok? <==> forall i :: 0 <= i < |clauses| ==> CompileClauseSpec(parse, clauses[i]).Ok?)
      && (r.Ok? ==> |r.value| == |clauses|)
      && (r.Ok? ==> forall i :: 0 <= i < |clauses| ==> CompileClauseSpec(parse, clauses[i]) == Ok(r.value[i]))
  {
    if clauses != [] {
      CompileAllShape(parse, clauses[1..]);
      assert forall i :: 0 < i < |clauses| ==> clauses[i] == clauses[1..][i - 1];
    }
  }

  /** What `parse_operations(ops_string)` returns or raises. */
  function ParseSpec(parse: string -> Option<Float>, opsString: string): (r: Outcome<seq<Stage>>)
    ensures r.Ok? ==> |r.value| >= 1
  {
    var cs := Clauses(LowerAll(Tokens(opsString)));
    StagesFollowClauses(parse, cs);
    CompileAll(parse, cs)
  }

  method ParseOperations(parse: string -> Option<Float>, opsString: string) returns (r: Outcome<seq<Stage>>)
    ensures r == ParseSpec(parse, opsString)
  {
    var tokens := Tokens(opsString);
    var operations := GroupTokens(tokens);
    r := CompileClauses(parse, operations);
  }

  /** The compiling loop of `parse_operations`. */
  method CompileClauses(parse: string -> Option<Float>, operations: seq<seq<string>>) returns (r: Outcome<seq<Stage>>)
    ensures r == CompileAll(parse, operations)
  {
    var result: seq<Stage> := [];
    assert operations[0..] == operations;
    assert forall rest: seq<Stage> :: result + rest == rest;
    for i := 0 to |operations|
      invariant CompileAll(parse, operations) == PrefixedBy(result, CompileAll(parse, operations[i..]))
    {
      assert operations[i..][1..] == operations[i + 1..];
      var f := CompileClause(parse, operations[i]);
      if f.Err? {
        return Err(f.error);
      }
      PrefixedAppend(result, f.value, CompileAll(parse, operations[i + 1..]));
      result := result + [f.value];
    }
    assert operations[|operations|..] == [];
    assert result + [] == result;
    return Ok(result);
  }

  lemma PrefixedAppend(done: seq<Stage>, st: Stage, rest: Outcome<seq<Stage>>)
    ensures PrefixedBy(done, PrefixedBy([st], rest)) == PrefixedBy(done + [st], rest)
  {
    if rest.Ok? {
      assert done + ([st] + rest.value) == done + [st] + rest.value;
    }
  }

  /** A parsed string has at least one clause, and the stages follow the clauses
      in order, each named by the lower-cased head of its clause. */
  lemma ParsedStagesFollowClauses(parse: string -> Option<Float>, opsString: string)
    ensures var cs := Clauses(LowerAll(Tokens(opsString)));
      var r := ParseSpec(parse, opsString);
      && |cs| >= 1
      && (r.Ok? ==> |r.value| == |cs|)
      && (r.Ok? ==> forall i :: 0 <= i < |cs| ==> |cs[i]| >= 2 && r.value[i].op.Name() == cs[i][0])
  {
    var toks := LowerAll(Tokens(opsString));
    var cs := Clauses(toks);
    assert |cs| >= 1;
    StagesFollowClauses(parse, cs);
  }

  lemma StagesFollowClauses(parse: string -> Option<Float>, cs: seq<seq<string>>)
    ensures var r := CompileAll(parse, cs);
      r.Ok? ==> |r.value| == |cs| && forall i :: 0 <= i < |cs| ==> |cs[i]| >= 2 && r.value[i].op.Name() == cs[i][0]
  {
    CompileAllShape(parse, cs);
    var r := CompileAll(parse, cs);
    if r.Ok? {
      forall i | 0 <= i < |cs| ensures |cs[i]| >= 2 && r.value[i].op.Name() == cs[i][0] {
        assert CompileClauseSpec(parse, cs[i]) == Ok(r.value[i]);
      }
    }
  }

  /** `simple_atmo_opstring`: the recipe's format string, with each number rendered
      by `fmt` (Python's `str.format` of a float). */
  function SimpleAtmoOpstring(fmt: Float -> string, haze: Float, contrast: Float, bias: Float): (r: string)
    ensures var A, B, C, D := fmt(GammaGreen(haze)), fmt(GammaBlue(haze)), fmt(contrast), fmt(bias);
      (',' !in A && ',' !in B && ',' !in C && ',' !in D && NoSpace(A) && NoSpace(B) && NoSpace(C) && NoSpace(D))
      ==> Tokens(r) == ["gamma", "g", A, "gamma", "b", B, "sigmoidal", "rgb", C, D]
  {
    var A, B, C, D := fmt(GammaGreen(haze)), fmt(GammaBlue(haze)), fmt(contrast), fmt(bias);
    var text := "gamma g " + A + ", gamma b " + B + ", sigmoidal rgb " + C + " " + D;
    if ',' !in A && ',' !in B && ',' !in C && ',' !in D && NoSpace(A) && NoSpace(B) && NoSpace(C) && NoSpace(D) then
      AtmoTokens(A, B, C, D); text
    else text
  }

  /** The rendering of `x` is one token that the parser reads back as `x`: not
      empty, without spaces or commas, not an operation name, and converted back
      to `x` once lower-cased. */
  predicate RendersAsToken(parse: string -> Option<Float>, fmt: Float -> string, x: Float)
  {
    var t := fmt(x);
    && t != []
    && NoSpace(t)
    && ',' !in t
    && !IsOpName(Lower(t))
    && parse(Lower(t)) == Some(x)
  }

  lemma {:induction false} JoinNoChar(parts: seq<string>, sep: char, c: char)
    requires c != sep
    requires forall i :: 0 <= i < |parts| ==> c !in parts[i]
    ensures c !in Join(parts, sep)
  {
    if |parts| > 1 {
      JoinNoChar(parts[..|parts| - 1], sep, c);
    }
  }

  /** Splitting words that hold no whitespace, joined by single spaces, gives the words. */
  lemma WordsOfJoin(parts: seq<string>)
    requires |parts| >= 1
    requires forall i :: 0 <= i < |parts| ==> NoSpace(parts[i])
    ensures Words(Join(parts, ' ')) == parts
  {
    assert IsSpace(' ');
    SplitJoin(parts, ' ');
  }

  /** Every piece free of whitespace. */
  predicate Spaceless(parts: seq<string>)
  {
    forall i :: 0 <= i < |parts| ==> NoSpace(parts[i])
  }

  /** Whitespace-free words joined by single spaces tokenize into the words with
      their commas dropped. */
  lemma TokensOfJoin(parts: seq<string>)
    requires |parts| >= 1 && Spaceless(parts)
    ensures Tokens(Join(parts, ' ')) == RemoveEach(parts, ',')
  {
    RemoveJoin(parts, ' ', ',');
    forall i | 0 <= i < |parts| ensures NoSpace(RemoveEach(parts, ',')[i]) {
      NoSpaceRemove(parts[i], ',');
    }
    WordsOfJoin(RemoveEach(parts, ','));
  }

  /** Parsing such a string is grouping and compiling those tokens, lower-cased. */
  lemma ParseJoin(parse: string -> Option<Float>, parts: seq<string>, clauses: seq<seq<string>>, r: Outcome<seq<Stage>>)
    requires |parts| >= 1 && Spaceless(parts)
    requires Clauses(LowerAll(RemoveEach(parts, ','))) == clauses
    requires CompileAll(parse, clauses) == r
    ensures ParseSpec(parse, Join(parts, ' ')) == r
  {
    TokensOfJoin(parts);
  }

  /** Dropping the commas of text, a space and a comma-free word. */
  lemma RemoveSpaced(t: string, w: string)
    requires ',' !in w
    ensures Remove(t + " " + w, ',') == Remove(t, ',') + " " + w
  {
    RemoveConcat(t + " ", w, ',');
    RemoveConcat(t, " ", ',');
    assert Remove(" ", ',') == " ";
    RemoveSpec(w, ',');
  }

  /** The same with a comma before the space, which is dropped. */
  lemma RemoveCommaSpaced(t: string, w: string)
    requires ',' !in w
    ensures Remove(t + ", " + w, ',') == Remove(t, ',') + " " + w
  {
    RemoveConcat(t + ", ", w, ',');
    RemoveConcat(t, ", ", ',');
    assert Remove(", ", ',') == " ";
    RemoveSpec(w, ',');
  }

  /** Dropping the commas of ten comma-free words separated by spaces, with a
      comma after the third and the sixth, leaves them separated by single spaces. */
  lemma RemoveRecipeCommas(w0: string, w1: string, w2: string, w3: string, w4: string,
                           w5: string, w6: string, w7: string, w8: string, w9: string)
    requires forall w | w in [w0, w1, w2, w3, w4, w5, w6, w7, w8, w9] :: ',' !in w
    ensures Remove(w0 + " " + w1 + " " + w2 + ", " + w3 + " " + w4 + " " + w5 + ", " + w6 + " " + w7 + " " + w8 + " " + w9, ',')
      == w0 + " " + w1 + " " + w2 + " " + w3 + " " + w4 + " " + w5 + " " + w6 + " " + w7 + " " + w8 + " " + w9
  {
    assert ',' !in w1 && ',' !in w2 && ',' !in w3 && ',' !in w4 && ',' !in w5;
    assert ',' !in w6 && ',' !in w7 && ',' !in w8 && ',' !in w9;
    RemoveSpec(w0, ',');
    var t, u := w0, w0;
    RemoveSpaced(t, w1); t, u := t + " " + w1, u + " " + w1;
    RemoveSpaced(t, w2); t, u := t + " " + w2, u + " " + w2;
    RemoveCommaSpaced(t, w3); t, u := t + ", " + w3, u + " " + w3;
    RemoveSpaced(t, w4); t, u := t + " " + w4, u + " " + w4;
    RemoveSpaced(t, w5); t, u := t + " " + w5, u + " " + w5;
    RemoveCommaSpaced(t, w6); t, u := t + ", " + w6, u + " " + w6;
    RemoveSpaced(t, w7); t, u := t + " " + w7, u + " " + w7;
    RemoveSpaced(t, w8); t, u := t + " " + w8, u + " " + w8;
    RemoveSpaced(t, w9); t, u := t + " " + w9, u + " " + w9;
  }

  /** Ten words joined by single spaces. */
  lemma JoinTen(w0: string, w1: string, w2: string, w3: string, w4: string,
                w5: string, w6: string, w7: string, w8: string, w9: string)
    ensures Join([w0, w1, w2, w3, w4, w5, w6, w7, w8, w9], ' ')
      == w0 + " " + w1 + " " + w2 + " " + w3 + " " + w4 + " " + w5 + " " + w6 + " " + w7 + " " + w8 + " " + w9
  {
    var l, j := [w0], w0;
    JoinSnoc(l, w1, ' '); l, j := l + [w1], j + " " + w1;
    JoinSnoc(l, w2, ' '); l, j := l + [w2], j + " " + w2;
    JoinSnoc(l, w3, ' '); l, j := l + [w3], j + " " + w3;
    JoinSnoc(l, w4, ' '); l, j := l + [w4], j + " " + w4;
    JoinSnoc(l, w5, ' '); l, j := l + [w5], j + " " + w5;
    JoinSnoc(l, w6, ' '); l, j := l + [w6], j + " " + w6;
    JoinSnoc(l, w7, ' '); l, j := l + [w7], j + " " + w7;
    JoinSnoc(l, w8, ' '); l, j := l + [w8], j + " " + w8;
    JoinSnoc(l, w9, ' '); l, j := l + [w9], j + " " + w9;
    assert l == [w0, w1, w2, w3, w4, w5, w6, w7, w8, w9];
  }

  /** The tokens of the recipe's shape: ten words, commas dropped. */
  lemma RecipeTokens(w0: string, w1: string, w2: string, w3: string, w4: string,
                     w5: string, w6: string, w7: string, w8: string, w9: string)
    requires forall w | w in [w0, w1, w2, w3, w4, w5, w6, w7, w8, w9] :: ',' !in w && NoSpace(w)
    ensures Tokens(w0 + " " + w1 + " " + w2 + ", " + w3 + " " + w4 + " " + w5 + ", " + w6 + " " + w7 + " " + w8 + " " + w9)
      == [w0, w1, w2, w3, w4, w5, w6, w7, w8, w9]
  {
    var words := [w0, w1, w2, w3, w4, w5, w6, w7, w8, w9];
    RemoveRecipeCommas(w0, w1, w2, w3, w4, w5, w6, w7, w8, w9);
    JoinTen(w0, w1, w2, w3, w4, w5, w6, w7, w8, w9);
    assert forall i | 0 <= i < |words| :: words[i] in words;
    WordsOfJoin(words);
  }

  lemma ClausesCons(t: string, rest: seq<string>)
    ensures Clauses([t] + rest) == Glue([t], Clauses(rest))
  {
    assert ([t] + rest)[1..] == rest;
  }

  /** A word followed by nothing or by an operation name is a clause by itself. */
  lemma ClauseEnd(h: string, rest: seq<string>)
    requires rest == [] || IsOpName(rest[0])
    ensures Clauses([h] + rest) == [[h]] + Clauses(rest)
  {
    ClausesCons(h, rest);
    if rest != [] {
      ClausesCons(rest[0], rest[1..]);
      assert rest == [rest[0]] + rest[1..];
    }
  }

  /** A word followed by words that name no operation, then either nothing or
      an operation name, forms one clause. */
  lemma {:induction false} ClauseRun(h: string, args: seq<string>, rest: seq<string>)
    requires forall i :: 0 <= i < |args| ==> !IsOpName(args[i])
    requires rest == [] || IsOpName(rest[0])
    ensures Clauses([h] + args + rest) == [[h] + args] + Clauses(rest)
    decreases |args|
  {
    if args == [] {
      ClauseEnd(h, rest);
      assert [h] + args + rest == [h] + rest;
      assert [h] + args == [h];
    } else {
      var tail := args + rest;
      assert [h] + args + rest == [h] + tail;
      ClausesCons(h, tail);
      ClauseRun(args[0], args[1..], rest);
      assert [args[0]] + args[1..] + rest == tail;
      assert [h] + ([args[0]] + args[1..]) == [h] + args;
    }
  }

  /** The band specs of the recipe. */
  lemma AtmoBands(op: OpName)
    ensures Bands(op, "g") == Ok({2})
    ensures Bands(op, "b") == Ok({3})
    ensures Bands(op, "rgb") == Ok({1, 2, 3})
  {
    assert BandOf(op, 'r') == Ok(1) && BandOf(op, 'g') == Ok(2) && BandOf(op, 'b') == Ok(3);
    assert "g"[1..] == [] && "b"[1..] == [];
    assert {2} + {} == {2} && {3} + {} == {3};
    assert "rgb"[1..] == "gb" && "gb"[1..] == "b";
    assert {2} + {3} == {2, 3} && {1} + {2, 3} == {1, 2, 3};
  }

  /** A clause naming a per-band operation, a band spec and its arguments. */
  lemma BandClause(parse: string -> Option<Float>, op: OpName, spec: string, args: seq<string>,
                   bands: BandSet, vals: seq<Float>)
    requires !op.RgbOp()
    requires Bands(op, spec) == Ok(bands)
    requires ParseFloats(parse, args) == Ok(vals)
    ensures CompileClauseSpec(parse, [op.Name(), spec] + args) == Ok(Stage(op, Bind(op, vals), bands))
  {
    var parts := [op.Name(), spec] + args;
    assert parts[0] == op.Name() && parts[1] == spec && parts[2..] == args;
    assert OpNamed(op.Name()) == Some(op);
  }

  lemma CompileAllCons(parse: string -> Option<Float>, c: seq<string>, cs: seq<seq<string>>, st: Stage, sts: seq<Stage>)
    requires CompileClauseSpec(parse, c) == Ok(st)
    requires CompileAll(parse, cs) == Ok(sts)
    ensures CompileAll(parse, [c] + cs) == Ok([st] + sts)
  {
    assert ([c] + cs)[1..] == cs;
  }

  lemma ParseFloatsCons(parse: string -> Option<Float>, t: string, ts: seq<string>, x: Float, xs: seq<Float>)
    requires parse(t) == Some(x) && ParseFloats(parse, ts) == Ok(xs)
    ensures ParseFloats(parse, [t] + ts) == Ok([x] + xs)
  {
    assert ([t] + ts)[1..] == ts;
  }

  /** Three clauses that compile one by one compile together, in order. */
  lemma CompileThree(parse: string -> Option<Float>, c0: seq<string>, c1: seq<string>, c2: seq<string>,
                     s0: Stage, s1: Stage, s2: Stage)
    requires CompileClauseSpec(parse, c0) == Ok(s0)
    requires CompileClauseSpec(parse, c1) == Ok(s1)
    requires CompileClauseSpec(parse, c2) == Ok(s2)
    ensures CompileAll(parse, [c0, c1, c2]) == Ok([s0, s1, s2])
  {
    assert CompileAll(parse, [c2]) == Ok([s2]) by {
      CompileAllCons(parse, c2, [], s2, []);
      assert [c2] + [] == [c2];
      assert [s2] + [] == [s2];
    }
    assert CompileAll(parse, [c1, c2]) == Ok([s1, s2]) by {
      CompileAllCons(parse, c1, [c2], s1, [s2]);
      assert [c1] + [c2] == [c1, c2];
      assert [s1] + [s2] == [s1, s2];
    }
    CompileAllCons(parse, c0, [c1, c2], s0, [s1, s2]);
    assert [c0] + [c1, c2] == [c0, c1, c2];
    assert [s0] + [s1, s2] == [s0, s1, s2];
  }

  lemma SigmoidalClause(parse: string -> Option<Float>, c: string, d: string, contrast: Float, bias: Float)
    requires parse(c) == Some(contrast) && parse(d) == Some(bias)
    ensures CompileClauseSpec(parse, ["sigmoidal", "rgb", c, d]) == Ok(Stage(Sigmoidal, [contrast, bias], {1, 2, 3}))
  {
    ParseFloatsCons(parse, d, [], bias, []);
    assert [d] + [] == [d] && [bias] + [] == [bias];
    ParseFloatsCons(parse, c, [d], contrast, [bias]);
    assert [c] + [d] == [c, d] && [contrast] + [bias] == [contrast, bias];
    AtmoBands(Sigmoidal);
    BandClause(parse, Sigmoidal, "rgb", [c, d], {1, 2, 3}, [contrast, bias]);
    assert Bind(Sigmoidal, [contrast, bias]) == [contrast, bias];
    assert ["sigmoidal", "rgb"] + [c, d] == ["sigmoidal", "rgb", c, d];
  }

  /** The recipe's clauses compile to the atmospheric stages. */
  lemma AtmoCompile(parse: string -> Option<Float>, a: string, b: string, c: string, d: string,
                    gg: Float, gb: Float, contrast: Float, bias: Float)
    requires parse(a) == Some(gg) && parse(b) == Some(gb)
    requires parse(c) == Some(contrast) && parse(d) == Some(bias)
    ensures CompileAll(parse, [["gamma", "g", a], ["gamma", "b", b], ["sigmoidal", "rgb", c, d]])
      == Ok([Stage(Gamma, [gg], {2}), Stage(Gamma, [gb], {3}), Stage(Sigmoidal, [contrast, bias], {1, 2, 3})])
  {
    assert CompileClauseSpec(parse, ["gamma", "g", a]) == Ok(Stage(Gamma, [gg], {2})) by {
      ParseFloatsCons(parse, a, [], gg, []);
      assert [a] + [] == [a] && [gg] + [] == [gg];
      AtmoBands(Gamma);
      BandClause(parse, Gamma, "g", [a], {2}, [gg]);
      assert ["gamma", "g"] + [a] == ["gamma", "g", a];
    }
    assert CompileClauseSpec(parse, ["gamma", "b", b]) == Ok(Stage(Gamma, [gb], {3})) by {
      ParseFloatsCons(parse, b, [], gb, []);
      assert [b] + [] == [b] && [gb] + [] == [gb];
      AtmoBands(Gamma);
      BandClause(parse, Gamma, "b", [b], {3}, [gb]);
      assert ["gamma", "b"] + [b] == ["gamma", "b", b];
    }
    SigmoidalClause(parse, c, d, contrast, bias);
    CompileThree(parse, ["gamma", "g", a], ["gamma", "b", b], ["sigmoidal", "rgb", c, d],
      Stage(Gamma, [gg], {2}), Stage(Gamma, [gb], {3}), Stage(Sigmoidal, [contrast, bias], {1, 2, 3}));
  }

  /** The recipe's tokens: six words and the four rendered numbers. */
  lemma AtmoTokens(A: string, B: string, C: string, D: string)
    requires ',' !in A && ',' !in B && ',' !in C && ',' !in D
    requires NoSpace(A) && NoSpace(B) && NoSpace(C) && NoSpace(D)
    ensures Tokens("gamma g " + A + ", gamma b " + B + ", sigmoidal rgb " + C + " " + D)
      == ["gamma", "g", A, "gamma", "b", B, "sigmoidal", "rgb", C, D]
  {
    AtmoSpelled(A, B, C, D);
    assert ',' !in "gamma" && ',' !in "g" && ',' !in "b" && ',' !in "sigmoidal" && ',' !in "rgb";
    assert NoSpace("gamma") && NoSpace("g") && NoSpace("b") && NoSpace("sigmoidal") && NoSpace("rgb");
    RecipeTokens("gamma", "g", A, "gamma", "b", B, "sigmoidal", "rgb", C, D);
  }

  /** The recipe's text cut at its spaces and commas. */
  lemma AtmoSpelled(A: string, B: string, C: string, D: string)
    ensures "gamma g " + A + ", gamma b " + B + ", sigmoidal rgb " + C + " " + D
      == "gamma" + " " + "g" + " " + A + ", " + "gamma" + " " + "b" + " " + B + ", "
         + "sigmoidal" + " " + "rgb" + " " + C + " " + D
  {
  }

  lemma AtmoLower(A: string, B: string, C: string, D: string)
    ensures LowerAll(["gamma", "g", A, "gamma", "b", B, "sigmoidal", "rgb", C, D])
      == ["gamma", "g", Lower(A), "gamma", "b", Lower(B), "sigmoidal", "rgb", Lower(C), Lower(D)]
  {
    assert Lower("gamma") == "gamma" && Lower("g") == "g" && Lower("b") == "b";
    assert Lower("sigmoidal") == "sigmoidal" && Lower("rgb") == "rgb";
  }

  /** A clause of three tokens ahead of nothing or of an operation name. */
  lemma ClauseOfThree(h: string, x: string, y: string, rest: seq<string>)
    requires !IsOpName(x) && !IsOpName(y)
    requires rest == [] || IsOpName(rest[0])
    ensures Clauses([h, x, y] + rest) == [[h, x, y]] + Clauses(rest)
  {
    ClauseRun(h, [x, y], rest);
    assert [h] + [x, y] == [h, x, y];
  }

  /** A last clause of four tokens. */
  lemma ClauseOfFour(h: string, x: string, y: string, z: string)
    requires !IsOpName(x) && !IsOpName(y) && !IsOpName(z)
    ensures Clauses([h, x, y, z]) == [[h, x, y, z]]
  {
    ClauseRun(h, [x, y, z], []);
    assert [h] + [x, y, z] + [] == [h, x, y, z];
    assert [h] + [x, y, z] == [h, x, y, z];
    assert Clauses([]) == [];
  }

  /** Ten tokens of the recipe's shape: three clauses, with operation names
      heading the second and third and nowhere else after the first token. */
  lemma RecipeClauses(h0: string, x0: string, y0: string, h1: string, x1: string, y1: string,
                      h2: string, x2: string, y2: string, z2: string)
    requires IsOpName(h1) && IsOpName(h2)
    requires !IsOpName(x0) && !IsOpName(y0) && !IsOpName(x1) && !IsOpName(y1)
    requires !IsOpName(x2) && !IsOpName(y2) && !IsOpName(z2)
    ensures Clauses([h0, x0, y0, h1, x1, y1, h2, x2, y2, z2])
      == [[h0, x0, y0], [h1, x1, y1], [h2, x2, y2, z2]]
  {
    var first, second, third := [h0, x0, y0], [h1, x1, y1], [h2, x2, y2, z2];
    ClauseOfFour(h2, x2, y2, z2);
    ClauseOfThree(h1, x1, y1, third);
    assert [second] + [third] == [second, third];
    ClauseOfThree(h0, x0, y0, second + third);
    assert [first] + [second, third] == [first, second, third];
    assert first + (second + third) == [h0, x0, y0, h1, x1, y1, h2, x2, y2, z2];
  }

  /** The recipe's lower-cased tokens group into its three clauses. */
  lemma AtmoClauses(a: string, b: string, c: string, d: string)
    requires !IsOpName(a) && !IsOpName(b) && !IsOpName(c) && !IsOpName(d)
    ensures Clauses(["gamma", "g", a, "gamma", "b", b, "sigmoidal", "rgb", c, d])
      == [["gamma", "g", a], ["gamma", "b", b], ["sigmoidal", "rgb", c, d]]
  {
    assert IsOpName("gamma") && IsOpName("sigmoidal");
    assert !IsOpName("g") && !IsOpName("b") && !IsOpName("rgb");
    RecipeClauses("gamma", "g", a, "gamma", "b", b, "sigmoidal", "rgb", c, d);
  }

  /**
   * The recipe round-trips through the parser: when every number renders as a
   * token that converts back, `parse_operations(simple_atmo_opstring(...))`
   * yields exactly the three stages that SimpleAtmoMatchesStages relates to
   * `simple_atmo`.
   */
  lemma SimpleAtmoOpstringParses(parse: string -> Option<Float>, fmt: Float -> string,
                                 haze: Float, contrast: Float, bias: Float)
    requires RendersAsToken(parse, fmt, GammaGreen(haze))
    requires RendersAsToken(parse, fmt, GammaBlue(haze))
    requires RendersAsToken(parse, fmt, contrast)
    requires RendersAsToken(parse, fmt, bias)
    ensures ParseSpec(parse, SimpleAtmoOpstring(fmt, haze, contrast, bias)) == Ok(AtmoStages(haze, contrast, bias))
  {
    var gg, gb := GammaGreen(haze), GammaBlue(haze);
    var A, B, C, D := fmt(gg), fmt(gb), fmt(contrast), fmt(bias);
    AtmoTokens(A, B, C, D);
    AtmoLower(A, B, C, D);
    AtmoClauses(Lower(A), Lower(B), Lower(C), Lower(D));
    AtmoCompile(parse, Lower(A), Lower(B), Lower(C), Lower(D), gg, gb, contrast, bias);
  }
}
