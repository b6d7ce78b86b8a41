/**
 * The Python back end of the decision-theory app: `process_input` turns the flat list of
 * answers typed into the console into alternatives, `calculate_expected_utility` sets each
 * alternative's expected utility, and `find_best_alternative` picks the best one.
 *
 * The answers are tokens. For each one the model holds its text together with the results
 * Python's `int()` and `float()` give for it, with None wherever that call raises ValueError.
 * An exception becomes `Err` and carries the exception's class.
 */
module DecisionTheory {
  import opened Base
  import opened Text
  import opened Expectation

  datatype PyError = IndexError | ValueError | ZeroDivisionError | KeyError

  /** One element of `input_data`. */
  datatype Token = Token(text: string, asInt: Option<int>, asFloat: Option<real>)

  /**
   * The dictionary built for one alternative. Its "expected_utility" key exists only after
   * `calculate_expected_utility` has run, so the model keeps it as an Option.
   */
  datatype Alternative = Alternative(
    name: string,
    probabilities: seq<real>,
    utilities: seq<real>,
    expectedUtility: Option<real>)

  /** The outcome lists read so far and the index of the next token. */
  datatype Outcomes = Outcomes(probabilities: seq<real>, utilities: seq<real>, next: nat)

  /** The alternatives read so far and the index of the next token. */
  datatype Parsed = Parsed(soa: seq<Alternative>, next: nat)

  /** `range(n)` runs `max(0, n)` times. */
  function RangeLength(n: int): nat
  {
    if n < 0 then 0 else n
  }

  /** `int(input_data[at])`. */
  function ReadInt(input: seq<Token>, at: nat): Result<int, PyError>
  {
    if at >= |input| then Err(IndexError)
    else if input[at].asInt.None? then Err(ValueError)
    else Ok(input[at].asInt.value)
  }

  /** `float(input_data[at])`. */
  function ReadFloat(input: seq<Token>, at: nat): Result<real, PyError>
  {
    if at >= |input| then Err(IndexError)
    else if input[at].asFloat.None? then Err(ValueError)
    else Ok(input[at].asFloat.value)
  }

  /**
   * The inner `for j in range(num_outcomes)` loop from token `at` on, with `remaining`
   * iterations left and the lists `ps` and `us` built so far. With probabilities each
   * outcome takes two tokens, a probability and then a utility; without, one.
   */
  function ReadOutcomes(input: seq<Token>, at: nat, remaining: nat, hasProbabilities: bool,
                        ps: seq<real>, us: seq<real>): Result<Outcomes, PyError>
    decreases remaining
  {
    if remaining == 0 then Ok(Outcomes(ps, us, at))
    else if hasProbabilities then
      match ReadFloat(input, at)
      case Err(e) => Err(e)
      case Ok(p) =>
        match ReadFloat(input, at + 1)
        case Err(e) => Err(e)
        case Ok(u) => ReadOutcomes(input, at + 2, remaining - 1, hasProbabilities, ps + [p], us + [u])
    else
      match ReadFloat(input, at)
      case Err(e) => Err(e)
      case Ok(u) => ReadOutcomes(input, at + 1, remaining - 1, hasProbabilities, ps, us + [u])
  }

  /** The inner loop carried on from the lists and the cursor in `o`, with `remaining` iterations left. */
  function ContinueOutcomes(input: seq<Token>, hasProbabilities: bool, remaining: nat, o: Outcomes): Result<Outcomes, PyError>
  {
    ReadOutcomes(input, o.next, remaining, hasProbabilities, o.probabilities, o.utilities)
  }

  /**
   * One iteration of the outer loop, from token `at`: the name, the number of outcomes,
   * the outcomes, and without probabilities `[1/num_outcomes] * num_outcomes`, which
   * raises ZeroDivisionError for zero outcomes and is empty for a negative count.
   */
  function ReadAlternative(input: seq<Token>, at: nat, hasProbabilities: bool): Result<(Alternative, nat), PyError>
  {
    if at >= |input| then Err(IndexError)
    else
      match ReadInt(input, at + 1)
      case Err(e) => Err(e)
      case Ok(m) =>
        match ContinueOutcomes(input, hasProbabilities, RangeLength(m), Outcomes([], [], at + 2))
        case Err(e) => Err(e)
        case Ok(o) =>
          if !hasProbabilities && m == 0 then Err(ZeroDivisionError)
          else
            var ps := if hasProbabilities then o.probabilities else Uniform(RangeLength(m), 1.0 / (m as real));
            Ok((Alternative(input[at].text, ps, o.utilities, None), o.next))
  }

  /** The outer `for i in range(num_alternatives)` loop with `remaining` iterations left; each is `AlternativesRound`. */
  function ReadAlternatives(input: seq<Token>, at: nat, remaining: nat, hasProbabilities: bool,
                            soa: seq<Alternative>): Result<Parsed, PyError>
    decreases remaining, 1
  {
    if remaining == 0 then Ok(Parsed(soa, at))
    else AlternativesRound(input, at, remaining, hasProbabilities, soa)
  }

  /** One iteration of the outer loop, which appends the alternative it reads, then the rest of the loop. */
  function AlternativesRound(input: seq<Token>, at: nat, remaining: nat, hasProbabilities: bool,
                             soa: seq<Alternative>): Result<Parsed, PyError>
    requires remaining > 0
    decreases remaining, 0
  {
    match ReadAlternative(input, at, hasProbabilities)
    case Err(e) => Err(e)
    case Ok((a, next)) => ReadAlternatives(input, next, remaining - 1, hasProbabilities, soa + [a])
  }

  /** The outer loop carried on from the alternatives and the cursor in `p`, with `remaining` iterations left. */
  function ContinueAlternatives(input: seq<Token>, hasProbabilities: bool, remaining: nat, p: Parsed): Result<Parsed, PyError>
  {
    ReadAlternatives(input, p.next, remaining, hasProbabilities, p.soa)
  }

  /**
   * `process_input` as a whole: the number of alternatives, the probability flag
   * (`input_data[1].lower() == 's'`) and the alternatives from token 2 on. Tokens left
   * over at the end are ignored.
   */
  function ParseInput(input: seq<Token>): Result<(seq<Alternative>, bool), PyError>
  {
    match ReadInt(input, 0)
    case Err(e) => Err(e)
    case Ok(n) =>
      if |input| < 2 then Err(IndexError)
      else
        var hasProbabilities := IsYes(input[1].text);
        match ContinueAlternatives(input, hasProbabilities, RangeLength(n), Parsed([], 2))
        case Err(e) => Err(e)
        case Ok(p) => Ok((p.soa, hasProbabilities))
  }

  /** `process_input`: the two nested loops over a cursor into `input_data`. */
  method ProcessInput(input: seq<Token>) returns (r: Result<(seq<Alternative>, bool), PyError>)
    ensures r == ParseInput(input)
  {
    if |input| == 0 {
      return Err(IndexError);
    }
    if input[0].asInt.None? {
      return Err(ValueError);
    }
    var numAlternatives := input[0].asInt.value;
    if |input| < 2 {
      return Err(IndexError);
    }
    var hasProbabilities := IsYes(input[1].text);
    var soa: seq<Alternative> := [];
    var current: nat := 2;
    var i := 0;
    var count := RangeLength(numAlternatives);
    while i < count
      invariant 0 <= i <= count
      invariant ContinueAlternatives(input, hasProbabilities, count - i, Parsed(soa, current))
             == ContinueAlternatives(input, hasProbabilities, count, Parsed([], 2))
    {
      AlternativesRoundNext(input, current, count - i, hasProbabilities, soa);
      var start := current;
      if current >= |input| {
        return Err(IndexError);
      }
      var name := input[current].text;
      current := current + 1;
      if current >= |input| {
        return Err(IndexError);
      }
      if input[current].asInt.None? {
        return Err(ValueError);
      }
      var numOutcomes := input[current].asInt.value;
      current := current + 1;
      var probabilities: seq<real> := [];
      var utilities: seq<real> := [];
      var j := 0;
      var outcomes := RangeLength(numOutcomes);
      while j < outcomes
        invariant 0 <= j <= outcomes
        invariant ContinueOutcomes(input, hasProbabilities, outcomes - j, Outcomes(probabilities, utilities, current))
               == ContinueOutcomes(input, hasProbabilities, outcomes, Outcomes([], [], start + 2))
      {
        if hasProbabilities {
          if current >= |input| {
            return Err(IndexError);
          }
          if input[current].asFloat.None? {
            return Err(ValueError);
          }
          probabilities := probabilities + [input[current].asFloat.value];
          current := current + 1;
        }
        if current >= |input| {
          return Err(IndexError);
        }
        if input[current].asFloat.None? {
          return Err(ValueError);
        }
        utilities := utilities + [input[current].asFloat.value];
        current := current + 1;
        j := j + 1;
      }
      if !hasProbabilities {
        if numOutcomes == 0 {
          return Err(ZeroDivisionError);
        }
        probabilities := Uniform(outcomes, 1.0 / (numOutcomes as real));
      }
      soa := soa + [Alternative(name, probabilities, utilities, None)];
      i := i + 1;
    }
    return Ok((soa, hasProbabilities));
  }

  // ---------------------------------------------------------------- what process_input returns

  /** The number of tokens one outcome takes: a probability and a utility, or the utility alone. */
  function Width(hasProbabilities: bool): nat
  {
    if hasProbabilities then 2 else 1
  }

  /** What one parsed alternative looks like. */
  predicate WellShaped(a: Alternative, hasProbabilities: bool)
  {
    && a.expectedUtility.None?
    && (hasProbabilities ==> |a.probabilities| == |a.utilities|)
    && (!hasProbabilities ==> a.probabilities == LaplaceWeights(|a.utilities|))
  }

  lemma {:induction false} ReadOutcomesShape(input: seq<Token>, at: nat, remaining: nat, hasProbabilities: bool,
                                             ps: seq<real>, us: seq<real>)
    requires at <= |input|
    requires hasProbabilities ==> |ps| == |us|
    requires !hasProbabilities ==> ps == []
    ensures var r := ReadOutcomes(input, at, remaining, hasProbabilities, ps, us);
      r.Ok? ==>
        && |r.value.utilities| == |us| + remaining
        && (hasProbabilities ==> |r.value.probabilities| == |r.value.utilities|)
        && (!hasProbabilities ==> r.value.probabilities == [])
        && r.value.next == at + remaining * Width(hasProbabilities)
        && r.value.next <= |input|
    decreases remaining
  {
    if remaining > 0 {
      if hasProbabilities {
        if at + 1 < |input| && input[at].asFloat.Some? && input[at + 1].asFloat.Some? {
          ReadOutcomesShape(input, at + 2, remaining - 1, hasProbabilities,
                            ps + [input[at].asFloat.value], us + [input[at + 1].asFloat.value]);
        }
      } else if at < |input| && input[at].asFloat.Some? {
        ReadOutcomesShape(input, at + 1, remaining - 1, hasProbabilities, ps, us + [input[at].asFloat.value]);
      }
    }
  }

  lemma ReadAlternativeShape(input: seq<Token>, at: nat, hasProbabilities: bool)
    ensures var r := ReadAlternative(input, at, hasProbabilities);
      r.Ok? ==>
        && at + 1 < |input| && input[at + 1].asInt.Some?
        && var m := RangeLength(input[at + 1].asInt.value);
        && WellShaped(r.value.0, hasProbabilities) && r.value.0.name == input[at].text
        && |r.value.0.utilities| == m
        && r.value.1 == at + 2 + m * Width(hasProbabilities)
        && r.value.1 <= |input|
  {
    if at < |input| && ReadInt(input, at + 1).Ok? {
      var m := input[at + 1].asInt.value;
      ReadOutcomesShape(input, at + 2, RangeLength(m), hasProbabilities, [], []);
    }
  }

  lemma {:induction false} ReadAlternativesShape(input: seq<Token>, at: nat, remaining: nat, hasProbabilities: bool,
                                                 soa: seq<Alternative>)
    requires forall k :: 0 <= k < |soa| ==> WellShaped(soa[k], hasProbabilities)
    ensures var r := ReadAlternatives(input, at, remaining, hasProbabilities, soa);
      r.Ok? ==>
        && |r.value.soa| == |soa| + remaining
        && r.value.soa[..|soa|] == soa
        && (forall k :: 0 <= k < |r.value.soa| ==> WellShaped(r.value.soa[k], hasProbabilities))
        && at <= r.value.next
    decreases remaining
  {
    if remaining > 0 {
      ReadAlternativeShape(input, at, hasProbabilities);
      var r := ReadAlternative(input, at, hasProbabilities);
      if r.Ok? {
        var (a, next) := r.value;
        ReadAlternativesShape(input, next, remaining - 1, hasProbabilities, soa + [a]);
        var t := ReadAlternatives(input, next, remaining - 1, hasProbabilities, soa + [a]);
        if t.Ok? {
          assert t.value.soa[..|soa|] == (t.value.soa[..|soa| + 1])[..|soa|];
        }
      }
    }
  }

  /**
   * When `process_input` returns: one alternative per iteration of `range(num_alternatives)`,
   * the flag is `input_data[1].lower() == 's'`, every alternative has as many
   * probabilities as utilities when probabilities are known, and otherwise the Laplace
   * weights `1/n`, which sum to 1 whenever there is an outcome. No key "expected_utility"
   * exists yet.
   */
  lemma ParsedShape(input: seq<Token>)
    requires ParseInput(input).Ok?
    ensures |input| >= 2 && input[0].asInt.Some?
    ensures var (soa, hasProbabilities) := ParseInput(input).value;
      && |soa| == RangeLength(input[0].asInt.value)
      && hasProbabilities == IsYes(input[1].text)
      && (forall k :: 0 <= k < |soa| ==> WellShaped(soa[k], hasProbabilities))
      && (forall k :: 0 <= k < |soa| && !hasProbabilities && |soa[k].utilities| > 0 ==>
            Sum(soa[k].probabilities) == 1.0)
  {
    var n := input[0].asInt.value;
    ReadAlternativesShape(input, 2, RangeLength(n), IsYes(input[1].text), []);
    var (soa, hasProbabilities) := ParseInput(input).value;
    forall k | 0 <= k < |soa| && !hasProbabilities && |soa[k].utilities| > 0
      ensures Sum(soa[k].probabilities) == 1.0
    {
      LaplaceWeightsSumToOne(|soa[k].utilities|);
    }
  }

  /** The errors raised before any alternative is read, and the empty result for a count of at most 0. */
  lemma ParseInputHeader(input: seq<Token>)
    ensures |input| == 0 ==> ParseInput(input) == Err(IndexError)
    ensures |input| > 0 && input[0].asInt.None? ==> ParseInput(input) == Err(ValueError)
    ensures |input| == 1 && input[0].asInt.Some? ==> ParseInput(input) == Err(IndexError)
    ensures |input| >= 2 && input[0].asInt.Some? && input[0].asInt.value <= 0 ==>
      ParseInput(input) == Ok(([], IsYes(input[1].text)))
  {
  }

  // ---------------------------------------------------------------- the console layout, written out

  /** The token for a typed integer. The model never reads a number token's text. */
  function IntToken(n: int): Token
  {
    Token("", Some(n), Some(n as real))
  }

  /** The token for a typed decimal that `int()` rejects. */
  function FloatToken(x: real): Token
  {
    Token("", None, Some(x))
  }

  /** An alternative's outcomes as typed: probability then utility, or the utility alone. */
  function OutcomeTokens(ps: seq<real>, us: seq<real>, hasProbabilities: bool): (r: seq<Token>)
    requires hasProbabilities ==> |ps| == |us|
    ensures hasProbabilities ==> |r| == 2 * |us|
    ensures !hasProbabilities ==> |r| == |us|
    decreases |us|
  {
    if us == [] then []
    else if hasProbabilities then [FloatToken(ps[0]), FloatToken(us[0])] + OutcomeTokens(ps[1..], us[1..], hasProbabilities)
    else [FloatToken(us[0])] + OutcomeTokens(ps, us[1..], hasProbabilities)
  }

  /** Whether an alternative can be typed in and read back: without probabilities it needs an outcome. */
  predicate Typable(a: Alternative, hasProbabilities: bool)
  {
    if hasProbabilities then |a.probabilities| == |a.utilities| else |a.utilities| > 0
  }

  /** Every alternative of the list is typable. */
  predicate AllTypable(soa: seq<Alternative>, hasProbabilities: bool)
  {
    soa == [] || (Typable(soa[0], hasProbabilities) && AllTypable(soa[1..], hasProbabilities))
  }

  lemma {:induction false} AllTypableFromEach(soa: seq<Alternative>, hasProbabilities: bool)
    requires forall k :: 0 <= k < |soa| ==> Typable(soa[k], hasProbabilities)
    ensures AllTypable(soa, hasProbabilities)
    decreases |soa|
  {
    if soa != [] {
      assert forall k :: 0 <= k < |soa[1..]| ==> soa[1..][k] == soa[k + 1];
      AllTypableFromEach(soa[1..], hasProbabilities);
    }
  }

  function AlternativeTokens(a: Alternative, hasProbabilities: bool): seq<Token>
    requires Typable(a, hasProbabilities)
  {
    [Token(a.name, None, None), IntToken(|a.utilities|)] + OutcomeTokens(a.probabilities, a.utilities, hasProbabilities)
  }

  function AlternativesTokens(soa: seq<Alternative>, hasProbabilities: bool): seq<Token>
    requires AllTypable(soa, hasProbabilities)
  {
    if soa == [] then []
    else AlternativeTokens(soa[0], hasProbabilities) + AlternativesTokens(soa[1..], hasProbabilities)
  }

  /** The whole console session for `soa`: the count, "s" or "n", and each alternative in turn. */
  function Transcript(soa: seq<Alternative>, hasProbabilities: bool): seq<Token>
    requires AllTypable(soa, hasProbabilities)
  {
    [IntToken(|soa|), Token(if hasProbabilities then "s" else "n", None, None)] + AlternativesTokens(soa, hasProbabilities)
  }

  /** What `process_input` makes of a typed alternative: Laplace weights replace any probabilities when they are unknown. */
  function AsParsed(a: Alternative, hasProbabilities: bool): Alternative
  {
    Alternative(a.name, if hasProbabilities then a.probabilities else LaplaceWeights(|a.utilities|), a.utilities, None)
  }

  /** `AsParsed` on every alternative, in order. */
  function AllAsParsed(soa: seq<Alternative>, hasProbabilities: bool): (r: seq<Alternative>)
    ensures |r| == |soa| && forall k :: 0 <= k < |soa| ==> r[k] == AsParsed(soa[k], hasProbabilities)
  {
    if soa == [] then [] else [AsParsed(soa[0], hasProbabilities)] + AllAsParsed(soa[1..], hasProbabilities)
  }

  /** With probabilities, an iteration reads a probability and then a utility. */
  lemma OutcomeWithProbability(input: seq<Token>, at: nat, remaining: nat, ps: seq<real>, us: seq<real>, p: real, u: real)
    requires remaining > 0 && at + 1 < |input| && input[at].asFloat == Some(p) && input[at + 1].asFloat == Some(u)
    ensures ContinueOutcomes(input, true, remaining, Outcomes(ps, us, at))
         == ContinueOutcomes(input, true, remaining - 1, Outcomes(ps + [p], us + [u], at + 2))
  {
  }

  /** Without probabilities, an iteration reads a utility alone. */
  lemma OutcomeWithoutProbability(input: seq<Token>, at: nat, remaining: nat, ps: seq<real>, us: seq<real>, u: real)
    requires remaining > 0 && at < |input| && input[at].asFloat == Some(u)
    ensures ContinueOutcomes(input, false, remaining, Outcomes(ps, us, at))
         == ContinueOutcomes(input, false, remaining - 1, Outcomes(ps, us + [u], at + 1))
  {
  }

  /** With probabilities, the typed pairs are read back as they were typed. */
  lemma {:induction false} ReadPairTokens(input: seq<Token>, at: nat, ps: seq<real>, us: seq<real>,
                                          accP: seq<real>, accU: seq<real>)
    requires |ps| == |us| && at + 2 * |us| <= |input|
    requires input[at..at + 2 * |us|] == OutcomeTokens(ps, us, true)
    ensures ContinueOutcomes(input, true, |us|, Outcomes(accP, accU, at)) == Ok(Outcomes(accP + ps, accU + us, at + 2 * |us|))
    decreases |us|
  {
    if us != [] {
      var t := OutcomeTokens(ps, us, true);
      var rest := OutcomeTokens(ps[1..], us[1..], true);
      assert t == [FloatToken(ps[0]), FloatToken(us[0])] + rest;
      assert input[at] == t[0] && input[at + 1] == t[1] by {
        assert input[at..at + |t|][0] == input[at] && input[at..at + |t|][1] == input[at + 1];
      }
      assert input[at + 2..at + 2 + 2 * |us[1..]|] == rest by {
        assert input[at + 2..at + 2 + 2 * |us[1..]|] == input[at..at + |t|][2..];
      }
      OutcomeWithProbability(input, at, |us|, accP, accU, ps[0], us[0]);
      ReadPairTokens(input, at + 2, ps[1..], us[1..], accP + [ps[0]], accU + [us[0]]);
      assert accP + [ps[0]] + ps[1..] == accP + ps;
      assert accU + [us[0]] + us[1..] == accU + us;
    } else {
      assert accP + ps == accP && accU + us == accU;
    }
  }

  /** Without probabilities, the typed utilities are read back as they were typed. */
  lemma {:induction false} ReadUtilityTokens(input: seq<Token>, at: nat, ps: seq<real>, us: seq<real>,
                                             accP: seq<real>, accU: seq<real>)
    requires at + |us| <= |input|
    requires input[at..at + |us|] == OutcomeTokens(ps, us, false)
    ensures ContinueOutcomes(input, false, |us|, Outcomes(accP, accU, at)) == Ok(Outcomes(accP, accU + us, at + |us|))
    decreases |us|
  {
    if us != [] {
      var t := OutcomeTokens(ps, us, false);
      var rest := OutcomeTokens(ps, us[1..], false);
      assert t == [FloatToken(us[0])] + rest;
      assert input[at] == t[0] by { assert input[at..at + |t|][0] == input[at]; }
      assert input[at + 1..at + 1 + |us[1..]|] == rest by {
        assert input[at + 1..at + 1 + |us[1..]|] == input[at..at + |t|][1..];
      }
      OutcomeWithoutProbability(input, at, |us|, accP, accU, us[0]);
      ReadUtilityTokens(input, at + 1, ps, us[1..], accP, accU + [us[0]]);
      assert accU + [us[0]] + us[1..] == accU + us;
    } else {
      assert accU + us == accU;
    }
  }

  /** The typed outcomes are read back as they were typed, and the cursor moves past them. */
  lemma ReadOutcomeTokens(input: seq<Token>, at: nat, ps: seq<real>, us: seq<real>, hasProbabilities: bool,
                          accP: seq<real>, accU: seq<real>)
    requires hasProbabilities ==> |ps| == |us|
    requires at + |OutcomeTokens(ps, us, hasProbabilities)| <= |input|
    requires input[at..at + |OutcomeTokens(ps, us, hasProbabilities)|] == OutcomeTokens(ps, us, hasProbabilities)
    ensures ContinueOutcomes(input, hasProbabilities, |us|, Outcomes(accP, accU, at))
         == Ok(Outcomes(if hasProbabilities then accP + ps else accP, accU + us, at + |OutcomeTokens(ps, us, hasProbabilities)|))
  {
    if hasProbabilities {
      ReadPairTokens(input, at, ps, us, accP, accU);
    } else {
      ReadUtilityTokens(input, at, ps, us, accP, accU);
    }
  }

  /** A typed alternative is read back as parsed: its name, its utilities and its (or the Laplace) probabilities. */
  lemma ReadAlternativeTokens(input: seq<Token>, at: nat, a: Alternative, hasProbabilities: bool)
    requires Typable(a, hasProbabilities)
    requires at + |AlternativeTokens(a, hasProbabilities)| <= |input|
    requires input[at..at + |AlternativeTokens(a, hasProbabilities)|] == AlternativeTokens(a, hasProbabilities)
    ensures ReadAlternative(input, at, hasProbabilities)
         == Ok((AsParsed(a, hasProbabilities), at + |AlternativeTokens(a, hasProbabilities)|))
  {
    var t := AlternativeTokens(a, hasProbabilities);
    var o := OutcomeTokens(a.probabilities, a.utilities, hasProbabilities);
    assert input[at] == t[0] by { assert input[at..at + |t|][0] == input[at]; }
    assert input[at + 1] == t[1] by { assert input[at..at + |t|][1] == input[at + 1]; }
    assert input[at + 2..at + 2 + |o|] == o by {
      assert input[at + 2..at + 2 + |o|] == input[at..at + |t|][2..];
    }
    ReadOutcomeTokens(input, at + 2, a.probabilities, a.utilities, hasProbabilities, [], []);
    assert [] + a.probabilities == a.probabilities && [] + a.utilities == a.utilities;
    var m := |a.utilities|;
    if !hasProbabilities {
      assert Uniform(RangeLength(m), 1.0 / (m as real)) == LaplaceWeights(m);
    }
  }

  /** A slice holding `x + y` holds `x` and then `y`. */
  lemma SliceSplits<T>(s: seq<T>, at: nat, x: seq<T>, y: seq<T>)
    requires at + |x| + |y| <= |s| && s[at..at + |x| + |y|] == x + y
    ensures s[at..at + |x|] == x
    ensures s[at + |x|..at + |x| + |y|] == y
  {
    assert s[at..at + |x|] == s[at..at + |x| + |y|][..|x|];
    assert s[at + |x|..at + |x| + |y|] == s[at..at + |x| + |y|][|x|..];
  }

  lemma AppendAssociates<T>(a: seq<T>, b: seq<T>, c: seq<T>)
    ensures a + b + c == a + (b + c)
  {
  }

  /** One iteration of the outer loop, once the alternative it reads is known. */
  lemma ReadAlternativesStep(input: seq<Token>, at: nat, remaining: nat, hasProbabilities: bool,
                             acc: seq<Alternative>, a: Alternative, next: nat)
    requires remaining > 0 && ReadAlternative(input, at, hasProbabilities) == Ok((a, next))
    ensures ContinueAlternatives(input, hasProbabilities, remaining, Parsed(acc, at))
         == ContinueAlternatives(input, hasProbabilities, remaining - 1, Parsed(acc + [a], next))
  {
    AlternativesRoundNext(input, at, remaining, hasProbabilities, acc);
  }

  /** With iterations left, carrying on the outer loop runs one iteration. */
  lemma AlternativesRoundNext(input: seq<Token>, at: nat, remaining: nat, hasProbabilities: bool, acc: seq<Alternative>)
    requires remaining > 0
    ensures ContinueAlternatives(input, hasProbabilities, remaining, Parsed(acc, at))
         == AlternativesRound(input, at, remaining, hasProbabilities, acc)
  {
  }

  /** An iteration of the outer loop over a typed alternative appends it as parsed and moves past its tokens. */
  lemma TypedAlternativeStep(input: seq<Token>, at: nat, a: Alternative, hasProbabilities: bool, remaining: nat, acc: seq<Alternative>)
    requires Typable(a, hasProbabilities) && remaining > 0
    requires at + |AlternativeTokens(a, hasProbabilities)| <= |input|
    requires input[at..at + |AlternativeTokens(a, hasProbabilities)|] == AlternativeTokens(a, hasProbabilities)
    ensures ContinueAlternatives(input, hasProbabilities, remaining, Parsed(acc, at))
         == ContinueAlternatives(input, hasProbabilities, remaining - 1,
                                 Parsed(acc + [AsParsed(a, hasProbabilities)], at + |AlternativeTokens(a, hasProbabilities)|))
  {
    ReadAlternativeTokens(input, at, a, hasProbabilities);
    ReadAlternativesStep(input, at, remaining, hasProbabilities, acc, AsParsed(a, hasProbabilities),
                         at + |AlternativeTokens(a, hasProbabilities)|);
  }

  lemma {:induction false} ReadAlternativesTokens(input: seq<Token>, at: nat, soa: seq<Alternative>,
                                                  hasProbabilities: bool, acc: seq<Alternative>)
    requires AllTypable(soa, hasProbabilities)
    requires at + |AlternativesTokens(soa, hasProbabilities)| <= |input|
    requires input[at..at + |AlternativesTokens(soa, hasProbabilities)|] == AlternativesTokens(soa, hasProbabilities)
    ensures ContinueAlternatives(input, hasProbabilities, |soa|, Parsed(acc, at))
         == Ok(Parsed(acc + AllAsParsed(soa, hasProbabilities), at + |AlternativesTokens(soa, hasProbabilities)|))
    decreases |soa|
  {
    if soa != [] {
      var a := AsParsed(soa[0], hasProbabilities);
      var next := at + |AlternativeTokens(soa[0], hasProbabilities)|;
      var rest := AlternativesTokens(soa[1..], hasProbabilities);
      assert AlternativesTokens(soa, hasProbabilities) == AlternativeTokens(soa[0], hasProbabilities) + rest;
      SliceSplits(input, at, AlternativeTokens(soa[0], hasProbabilities), rest);
      TypedAlternativeStep(input, at, soa[0], hasProbabilities, |soa|, acc);
      ReadAlternativesTokens(input, next, soa[1..], hasProbabilities, acc + [a]);
      AppendAssociates(acc, [a], AllAsParsed(soa[1..], hasProbabilities));
      assert AllAsParsed(soa, hasProbabilities) == [a] + AllAsParsed(soa[1..], hasProbabilities);
    } else {
      assert acc + AllAsParsed(soa, hasProbabilities) == acc;
    }
  }

  /**
   * Typing in a decision problem and reading it back: `process_input` on the transcript of
   * `soa` returns every alternative with its name, utilities and probabilities (the Laplace
   * weights when probabilities are unknown), in order, and the flag.
   */
  lemma ProcessInputReadsTranscript(soa: seq<Alternative>, hasProbabilities: bool)
    requires forall k :: 0 <= k < |soa| ==> Typable(soa[k], hasProbabilities)
    ensures AllTypable(soa, hasProbabilities)
    ensures ParseInput(Transcript(soa, hasProbabilities)) == Ok((AllAsParsed(soa, hasProbabilities), hasProbabilities))
  {
    AllTypableFromEach(soa, hasProbabilities);
    var input := Transcript(soa, hasProbabilities);
    var body := AlternativesTokens(soa, hasProbabilities);
    assert input[2..2 + |body|] == body;
    assert ReadInt(input, 0) == Ok(|soa|);
    assert IsYes(input[1].text) == hasProbabilities by { assert IsYes("s") && !IsYes("n"); }
    assert RangeLength(|soa|) == |soa|;
    ReadAlternativesTokens(input, 2, soa, hasProbabilities, []);
    assert [] + AllAsParsed(soa, hasProbabilities) == AllAsParsed(soa, hasProbabilities);
  }

  // ---------------------------------------------------------------- calculate_expected_utility

  /** The dictionary after `alt["expected_utility"] = sum(p * u for p, u in zip(...))`. */
  function WithExpectedUtility(a: Alternative): Alternative
  {
    a.(expectedUtility := Some(ZipDot(a.probabilities, a.utilities)))
  }

  /** `calculate_expected_utility`: the loop over `soa` setting each alternative's key in turn. */
  method CalculateExpectedUtility(soa: seq<Alternative>) returns (r: seq<Alternative>)
    ensures |r| == |soa|
    ensures forall k :: 0 <= k < |soa| ==> r[k] == WithExpectedUtility(soa[k])
  {
    r := soa;
    var i := 0;
    while i < |r|
      invariant 0 <= i <= |r| == |soa|
      invariant forall k :: 0 <= k < i ==> r[k] == WithExpectedUtility(soa[k])
      invariant forall k :: i <= k < |soa| ==> r[k] == soa[k]
    {
      var alt := r[i];
      r := r[i := alt.(expectedUtility := Some(ZipDot(alt.probabilities, alt.utilities)))];
      i := i + 1;
    }
  }

  /**
   * On what `process_input` returns, the expected utility is the dot product of the
   * entered probabilities and utilities, or the mean utility with the Laplace weights
   * (0 for an alternative without outcomes). Setting it again changes nothing.
   */
  lemma ParsedExpectedUtility(a: Alternative, hasProbabilities: bool)
    requires WellShaped(a, hasProbabilities)
    ensures WithExpectedUtility(a).expectedUtility.value
         == if hasProbabilities then Dot(a.probabilities, a.utilities)
            else if a.utilities == [] then 0.0 else Mean(a.utilities)
    ensures WithExpectedUtility(WithExpectedUtility(a)) == WithExpectedUtility(a)
    ensures WithExpectedUtility(a).name == a.name && WithExpectedUtility(a).probabilities == a.probabilities
         && WithExpectedUtility(a).utilities == a.utilities
  {
    ZipDotOfEqualLengths(a.probabilities, a.utilities);
    if !hasProbabilities && a.utilities != [] {
      LaplaceDotIsMean(a.utilities);
    }
  }

  // ---------------------------------------------------------------- find_best_alternative

  predicate AllScored(soa: seq<Alternative>)
  {
    forall k :: 0 <= k < |soa| ==> soa[k].expectedUtility.Some?
  }

  /** The keys `max` compares, one per alternative in order. */
  function Scores(soa: seq<Alternative>): seq<real>
    requires AllScored(soa)
  {
    seq(|soa|, k requires 0 <= k < |soa| => soa[k].expectedUtility.value)
  }

  /**
   * `max(soa, key=lambda x: x['expected_utility'])`: ValueError on an empty list, KeyError
   * when some alternative has no expected utility, and otherwise the first alternative whose
   * expected utility is largest.
   */
  function FindBestAlternative(soa: seq<Alternative>): (r: Result<Alternative, PyError>)
    ensures r == Err(ValueError) <==> soa == []
    ensures r == Err(KeyError) <==> soa != [] && !AllScored(soa)
    ensures r.Ok? ==> AllScored(soa) && exists k :: 0 <= k < |soa| && soa[k] == r.value && IsFirstMax(Scores(soa), k)
  {
    if soa == [] then Err(ValueError)
    else if !AllScored(soa) then Err(KeyError)
    else Ok(soa[FirstMax(Scores(soa))])
  }

  /**
   * The console's pipeline: after `process_input` has read at least one alternative,
   * `calculate_expected_utility` followed by `find_best_alternative` always yields an
   * alternative, the first one with the largest expected utility.
   */
  lemma PipelineFindsBest(input: seq<Token>, scored: seq<Alternative>)
    requires ParseInput(input).Ok? && ParseInput(input).value.0 != []
    requires |scored| == |ParseInput(input).value.0|
    requires forall k :: 0 <= k < |scored| ==> scored[k] == WithExpectedUtility(ParseInput(input).value.0[k])
    ensures FindBestAlternative(scored).Ok?
    ensures FindBestAlternative(scored) == Ok(scored[FirstMax(Scores(scored))])
  {
    assert AllScored(scored);
  }

  // ---------------------------------------------------------------- sessions

  /**
   * An alternative whose count is 0: without probabilities `[1/0] * 0` raises
   * ZeroDivisionError; with probabilities the loop runs no iteration and the lists stay empty.
   */
  lemma ZeroOutcomesDivideByZero(input: seq<Token>, at: nat)
    requires at + 1 < |input| && input[at + 1].asInt == Some(0)
    ensures ReadAlternative(input, at, false) == Err(ZeroDivisionError)
    ensures ReadAlternative(input, at, true) == Ok((Alternative(input[at].text, [], [], None), at + 2))
  {
  }

  /**
   * The inner loop reads nothing past its last token: on the input cut at `cut` it does
   * what it does on the whole input when it ends by then, and raises IndexError otherwise.
   */
  lemma {:induction false} OutcomesOnPrefix(input: seq<Token>, cut: nat, at: nat, remaining: nat, hasProbabilities: bool,
                                            ps: seq<real>, us: seq<real>)
    requires at <= cut <= |input|
    requires hasProbabilities ==> |ps| == |us|
    requires !hasProbabilities ==> ps == []
    requires ReadOutcomes(input, at, remaining, hasProbabilities, ps, us).Ok?
    ensures var r := ReadOutcomes(input, at, remaining, hasProbabilities, ps, us);
      ReadOutcomes(input[..cut], at, remaining, hasProbabilities, ps, us)
        == if r.value.next <= cut then r else Err(IndexError)
    decreases remaining
  {
    var short := input[..cut];
    if remaining > 0 {
      ReadOutcomesShape(input, at, remaining, hasProbabilities, ps, us);
      if hasProbabilities {
        var p := input[at].asFloat.value;
        var u := input[at + 1].asFloat.value;
        if at + 2 <= cut {
          assert short[at] == input[at] && short[at + 1] == input[at + 1];
          OutcomesOnPrefix(input, cut, at + 2, remaining - 1, hasProbabilities, ps + [p], us + [u]);
        } else if at < cut {
          assert short[at] == input[at];
        }
      } else {
        var u := input[at].asFloat.value;
        if at + 1 <= cut {
          assert short[at] == input[at];
          OutcomesOnPrefix(input, cut, at + 1, remaining - 1, hasProbabilities, ps, us + [u]);
        }
      }
    }
  }

  /** One iteration of the outer loop on the cut input: as on the whole input if it ends by `cut`, else IndexError. */
  lemma AlternativeOnPrefix(input: seq<Token>, cut: nat, at: nat, hasProbabilities: bool)
    requires at <= cut <= |input|
    requires ReadAlternative(input, at, hasProbabilities).Ok?
    ensures var r := ReadAlternative(input, at, hasProbabilities);
      ReadAlternative(input[..cut], at, hasProbabilities) == if r.value.1 <= cut then r else Err(IndexError)
  {
    var short := input[..cut];
    ReadAlternativeShape(input, at, hasProbabilities);
    var m := input[at + 1].asInt.value;
    if at + 2 <= cut {
      assert short[at] == input[at] && short[at + 1] == input[at + 1];
      OutcomesOnPrefix(input, cut, at + 2, RangeLength(m), hasProbabilities, [], []);
    } else if at < cut {
      assert short[at] == input[at];
    }
  }

  /** The outer loop on the cut input: as on the whole input if it ends by `cut`, else IndexError. */
  lemma {:induction false} AlternativesOnPrefix(input: seq<Token>, cut: nat, at: nat, remaining: nat, hasProbabilities: bool,
                                                soa: seq<Alternative>)
    requires at <= cut <= |input|
    requires forall k :: 0 <= k < |soa| ==> WellShaped(soa[k], hasProbabilities)
    requires ReadAlternatives(input, at, remaining, hasProbabilities, soa).Ok?
    ensures var r := ReadAlternatives(input, at, remaining, hasProbabilities, soa);
      ReadAlternatives(input[..cut], at, remaining, hasProbabilities, soa)
        == if r.value.next <= cut then r else Err(IndexError)
    decreases remaining
  {
    if remaining > 0 {
      var (a, next) := ReadAlternative(input, at, hasProbabilities).value;
      ReadAlternativeShape(input, at, hasProbabilities);
      AlternativeOnPrefix(input, cut, at, hasProbabilities);
      ReadAlternativesShape(input, next, remaining - 1, hasProbabilities, soa + [a]);
      if next <= cut {
        AlternativesOnPrefix(input, cut, next, remaining - 1, hasProbabilities, soa + [a]);
      }
    }
  }

  /**
   * A console session that stops early: every proper prefix of the answers typed for a
   * decision problem raises IndexError, whichever answer it stops before.
   */
  lemma EarlyEndIsIndexError(soa: seq<Alternative>, hasProbabilities: bool, cut: nat)
    requires AllTypable(soa, hasProbabilities)
    requires cut < |Transcript(soa, hasProbabilities)|
    ensures ParseInput(Transcript(soa, hasProbabilities)[..cut]) == Err(IndexError)
  {
    var input := Transcript(soa, hasProbabilities);
    var body := AlternativesTokens(soa, hasProbabilities);
    var short := input[..cut];
    assert input[2..2 + |body|] == body;
    assert ReadInt(input, 0) == Ok(|soa|);
    assert RangeLength(|soa|) == |soa|;
    ReadAlternativesTokens(input, 2, soa, hasProbabilities, []);
    if cut >= 2 {
      assert short[0] == input[0] && short[1] == input[1];
      AlternativesOnPrefix(input, cut, 2, |soa|, hasProbabilities, []);
    }
  }

  /** Probabilities are taken as typed: 0.5 and 0.3 are accepted although they sum to 0.8. */
  lemma UncheckedProbabilities()
    ensures ParseInput([IntToken(1), Token("S", None, None), Token("A", None, None), IntToken(2),
                        FloatToken(0.5), FloatToken(10.0), FloatToken(0.3), FloatToken(20.0)])
         == Ok(([Alternative("A", [0.5, 0.3], [10.0, 20.0], None)], true))
  {
    assert IsYes("S");
    var input := [IntToken(1), Token("S", None, None), Token("A", None, None), IntToken(2),
                  FloatToken(0.5), FloatToken(10.0), FloatToken(0.3), FloatToken(20.0)];
    assert ReadOutcomes(input, 8, 0, true, [0.5, 0.3], [10.0, 20.0]) == Ok(Outcomes([0.5, 0.3], [10.0, 20.0], 8));
    assert [0.5] + [0.3] == [0.5, 0.3] && [10.0] + [20.0] == [10.0, 20.0];
    assert [] + [0.5] == [0.5] && [] + [10.0] == [10.0];
    assert ReadOutcomes(input, 6, 1, true, [0.5], [10.0]) == Ok(Outcomes([0.5, 0.3], [10.0, 20.0], 8));
    assert ReadOutcomes(input, 4, 2, true, [], []) == Ok(Outcomes([0.5, 0.3], [10.0, 20.0], 8));
    var a := Alternative("A", [0.5, 0.3], [10.0, 20.0], None);
    assert ReadAlternative(input, 2, true) == Ok((a, 8));
    assert [] + [a] == [a];
    assert ReadAlternatives(input, 8, 0, true, [a]) == Ok(Parsed([a], 8));
    assert ReadAlternatives(input, 2, 1, true, []) == Ok(Parsed([a], 8));
  }
}
