/**
 * The browser front end of the Flask app (the prompt-driven script): the session in
 * `getDecisionMakerInput`, which asks with `prompt` and `confirm`, `getFloatInput`, the
 * expected utility, the best alternative and the node and edge lists of the decision tree.
 *
 * The host's dialogs become two finite lists: the answers typed into `prompt`, each with
 * the results of `parseInt` and `parseFloat` (None for NaN), and the buttons pressed on
 * `confirm`. Running out of either ends the session with `OutOfAnswers`.
 */
module PromptFront {
  import opened Base
  import opened Text
  import opened Expectation

  /** One answer typed into `prompt`. */
  datatype Reply = Reply(text: string, asInt: Option<int>, asFloat: Option<real>)

  /** The thrown errors, and the end of the recorded answers. */
  datatype InputError = BadAlternativeCount | BadOutcomeCount | OutOfAnswers

  /** An alternative object; `expectedUtility` is undefined (None) until it is computed, and NaN is None too. */
  datatype Alternative = Alternative(
    name: string,
    probabilities: seq<real>,
    utilities: seq<real>,
    expectedUtility: Option<real>)

  /** The bounds of `getFloatInput`; None stands for the default -Infinity or Infinity. */
  predicate InRange(x: real, lo: Option<real>, hi: Option<real>)
  {
    (lo.None? || lo.value <= x) && (hi.None? || x <= hi.value)
  }

  /** The sum of the probabilities raises no warning when it lies in [0.99, 1.01]. */
  predicate InBand(s: real)
  {
    0.99 <= s <= 1.01
  }

  // ---------------------------------------------------------------- getFloatInput as written

  /**
   * A necessary condition for `parseFloat` to give a number: after leading white space
   * the text starts with a digit, a sign, a point or the "I" of "Infinity".
   */
  predicate CanBeginNumber(s: string)
  {
    var t := TrimStart(s);
    t != [] && t[0] in "0123456789+-.I"
  }

  /**
   * `getFloatInput(prompt, minValue, maxValue)` as written: it parses its own argument, the
   * message, whose parse is `parsed`, in a `while (true)` loop that changes nothing. So it
   * returns the parsed value at once when it lies in range, and otherwise never returns
   * (None).
   */
  function GetFloatInput(message: string, parsed: Option<real>, lo: Option<real>, hi: Option<real>): (r: Option<real>)
    requires !CanBeginNumber(message) ==> parsed.None?
    ensures r.Some? ==> r == parsed && InRange(r.value, lo, hi)
    ensures r.None? <==> parsed.None? || !InRange(parsed.value, lo, hi)
  {
    if parsed.Some? && InRange(parsed.value, lo, hi) then parsed else None
  }

  /**
   * The messages the session passes ("Probabilidade do outcome …", "Utilidade do
   * outcome …") begin with a letter that cannot begin a number, so as written no outcome
   * prompt ever returns.
   */
  lemma OutcomePromptsNeverReturn(message: string, parsed: Option<real>, lo: Option<real>, hi: Option<real>)
    requires |message| > 0 && (message[0] == 'P' || message[0] == 'U')
    requires !CanBeginNumber(message) ==> parsed.None?
    ensures !CanBeginNumber(message)
    ensures GetFloatInput(message, parsed, lo, hi) == None
  {
    var a := TrimStartSlice(message);
    assert !IsJsSpace(message[0]);
    assert a == 0;
  }

  // ---------------------------------------------------------------- the session, read from the answers

  /**
   * `getFloatInput` as the message means it: ask again until the answer is a number in range.
   * The result is the value and the position of the next answer.
   */
  function NextFloat(answers: seq<Reply>, pos: nat, lo: Option<real>, hi: Option<real>): (r: Result<(real, nat), InputError>)
    ensures r.Ok? ==> (pos < r.value.1 <= |answers| && InRange(r.value.0, lo, hi)
                       && answers[r.value.1 - 1].asFloat == Some(r.value.0))
    ensures r.Err? ==> r.error == OutOfAnswers
    decreases |answers| - pos
  {
    if pos >= |answers| then Err(OutOfAnswers)
    else if answers[pos].asFloat.Some? && InRange(answers[pos].asFloat.value, lo, hi) then Ok((answers[pos].asFloat.value, pos + 1))
    else NextFloat(answers, pos + 1, lo, hi)
  }

  /** An answer `getFloatInput` accepts: a number within the bounds given. */
  predicate Acceptable(reply: Reply, lo: Option<real>, hi: Option<real>)
  {
    reply.asFloat.Some? && InRange(reply.asFloat.value, lo, hi)
  }

  /**
   * The asking loop takes the first acceptable answer: every answer it skipped was refused,
   * and it runs out of answers only when none from `pos` on is acceptable.
   */
  lemma {:induction false} NextFloatFirstAcceptable(answers: seq<Reply>, pos: nat, lo: Option<real>, hi: Option<real>)
    ensures var r := NextFloat(answers, pos, lo, hi);
      && (r.Ok? ==> forall k :: pos <= k < r.value.1 - 1 ==> !Acceptable(answers[k], lo, hi))
      && (r.Err? ==> forall k :: pos <= k < |answers| ==> !Acceptable(answers[k], lo, hi))
    decreases |answers| - pos
  {
    if pos < |answers| && !Acceptable(answers[pos], lo, hi) {
      NextFloatFirstAcceptable(answers, pos + 1, lo, hi);
    }
  }

  /** The name loop: ask again while the trimmed answer is empty. */
  function NextName(answers: seq<Reply>, pos: nat): (r: Result<(string, nat), InputError>)
    ensures r.Ok? ==> pos < r.value.1 <= |answers|
    ensures r.Err? ==> r.error == OutOfAnswers
    decreases |answers| - pos
  {
    if pos >= |answers| then Err(OutOfAnswers)
    else if Trim(answers[pos].text) == "" then NextName(answers, pos + 1)
    else Ok((Trim(answers[pos].text), pos + 1))
  }

  /**
   * The name loop takes the first answer that is not blank: every answer it skipped trims
   * to "", and it runs out of answers only when all from `pos` on do.
   */
  lemma {:induction false} NextNameFirstNonBlank(answers: seq<Reply>, pos: nat)
    ensures var r := NextName(answers, pos);
      && (r.Ok? ==> forall k :: pos <= k < r.value.1 - 1 ==> Trim(answers[k].text) == "")
      && (r.Err? ==> forall k :: pos <= k < |answers| ==> Trim(answers[k].text) == "")
    decreases |answers| - pos
  {
    if pos < |answers| && Trim(answers[pos].text) == "" {
      NextNameFirstNonBlank(answers, pos + 1);
    }
  }

  /** The outcome lists read so far and the position of the next answer. */
  datatype Outcomes = Outcomes(probabilities: seq<real>, utilities: seq<real>, next: nat)

  /** The loop over the outcomes, with `remaining` of them still to read. */
  function NextOutcomes(answers: seq<Reply>, pos: nat, remaining: nat, hasProbabilities: bool,
                        ps: seq<real>, us: seq<real>): (r: Result<Outcomes, InputError>)
    ensures r.Ok? ==> pos <= r.value.next && (remaining > 0 ==> r.value.next <= |answers|)
    decreases remaining
  {
    if remaining == 0 then Ok(Outcomes(ps, us, pos))
    else if hasProbabilities then
      match NextFloat(answers, pos, Some(0.0), Some(1.0))
      case Err(e) => Err(e)
      case Ok((p, afterP)) =>
        match NextFloat(answers, afterP, None, None)
        case Err(e) => Err(e)
        case Ok((u, afterU)) => NextOutcomes(answers, afterU, remaining - 1, hasProbabilities, ps + [p], us + [u])
    else
      match NextFloat(answers, pos, None, None)
      case Err(e) => Err(e)
      case Ok((u, afterU)) => NextOutcomes(answers, afterU, remaining - 1, hasProbabilities, ps, us + [u])
  }

  /** The outcomes of one alternative: `m` of them read from `pos` on. */
  function OutcomesAt(answers: seq<Reply>, pos: nat, m: nat, hasProbabilities: bool): Result<Outcomes, InputError>
  {
    NextOutcomes(answers, pos, m, hasProbabilities, [], [])
  }

  /** What one pass of the alternatives loop leaves behind. */
  datatype Round = Round(alternative: Alternative, cursor: nat, confirmCursor: nat, appended: bool)

  /**
   * One pass of the body of the loop over the alternatives: the name, the positive number
   * of outcomes (otherwise the error is thrown), the outcomes, and without probabilities
   * the Laplace weights `1/n`.
   */
  function NextAlternative(answers: seq<Reply>, pos: nat, hasProbabilities: bool): (r: Result<(Alternative, nat), InputError>)
    ensures r.Ok? ==> pos < r.value.1 <= |answers|
  {
    match NextName(answers, pos)
    case Err(e) => Err(e)
    case Ok((name, afterName)) =>
      if afterName >= |answers| then Err(OutOfAnswers)
      else if answers[afterName].asInt.None? || answers[afterName].asInt.value <= 0 then Err(BadOutcomeCount)
      else
        var m := answers[afterName].asInt.value;
        match OutcomesAt(answers, afterName + 1, m, hasProbabilities)
        case Err(e) => Err(e)
        case Ok(o) =>
          Ok((Alternative(name, if hasProbabilities then o.probabilities else LaplaceWeights(m), o.utilities, None), o.next))
  }

  /**
   * The loop over the alternatives with `remaining` left to append; each pass is
   * `AlternativeRound`.
   */
  function NextAlternatives(answers: seq<Reply>, pos: nat, confirms: seq<bool>, cpos: nat, remaining: nat,
                            hasProbabilities: bool, soa: seq<Alternative>): Result<seq<Alternative>, InputError>
    decreases |answers| - pos, 1
  {
    if remaining == 0 then Ok(soa)
    else AlternativeRound(answers, pos, confirms, cpos, remaining, hasProbabilities, soa)
  }

  /**
   * One pass of the loop over the alternatives, then the rest of the loop. With
   * probabilities, a sum outside [0.99, 1.01] asks for confirmation: yes appends the
   * alternative, no discards it and asks for the same alternative again (the `i--` retry).
   */
  function AlternativeRound(answers: seq<Reply>, pos: nat, confirms: seq<bool>, cpos: nat, remaining: nat,
                            hasProbabilities: bool, soa: seq<Alternative>): Result<seq<Alternative>, InputError>
    requires remaining > 0
    decreases |answers| - pos, 0
  {
    match NextAlternative(answers, pos, hasProbabilities)
    case Err(e) => Err(e)
    case Ok((a, next)) =>
      if hasProbabilities && !InBand(Sum(a.probabilities)) then
        if cpos >= |confirms| then Err(OutOfAnswers)
        else if confirms[cpos] then NextAlternatives(answers, next, confirms, cpos + 1, remaining - 1, hasProbabilities, soa + [a])
        else NextAlternatives(answers, next, confirms, cpos + 1, remaining, hasProbabilities, soa)
      else NextAlternatives(answers, next, confirms, cpos, remaining - 1, hasProbabilities, soa + [a])
  }

  /**
   * Where the loop over the alternatives stands: the next answer, the next confirm, how
   * many alternatives are still to be appended and those appended so far.
   */
  datatype Cursor = Cursor(pos: nat, cpos: nat, remaining: nat, soa: seq<Alternative>)

  /** What the loop over the alternatives returns when it carries on from `c`. */
  function Resume(answers: seq<Reply>, confirms: seq<bool>, hasProbabilities: bool, c: Cursor): Result<seq<Alternative>, InputError>
  {
    NextAlternatives(answers, c.pos, confirms, c.cpos, c.remaining, hasProbabilities, c.soa)
  }

  /** The whole session: the positive number of alternatives, the probability confirm, then the alternatives. */
  function DecisionMakerInput(answers: seq<Reply>, confirms: seq<bool>): Result<(seq<Alternative>, bool), InputError>
  {
    if |answers| == 0 then Err(OutOfAnswers)
    else if answers[0].asInt.None? || answers[0].asInt.value <= 0 then Err(BadAlternativeCount)
    else if |confirms| == 0 then Err(OutOfAnswers)
    else
      match Resume(answers, confirms, confirms[0], Cursor(1, 1, answers[0].asInt.value, []))
      case Err(e) => Err(e)
      case Ok(soa) => Ok((soa, confirms[0]))
  }

  /** `getFloatInput` reading the user's answers: the loop asking until a number in range is typed. */
  method ReadFloat(answers: seq<Reply>, pos: nat, lo: Option<real>, hi: Option<real>) returns (r: Result<(real, nat), InputError>)
    ensures r == NextFloat(answers, pos, lo, hi)
  {
    var at := pos;
    while at < |answers|
      invariant pos <= at
      invariant NextFloat(answers, at, lo, hi) == NextFloat(answers, pos, lo, hi)
      decreases |answers| - at
    {
      var value := answers[at].asFloat;
      if value.Some? && InRange(value.value, lo, hi) {
        return Ok((value.value, at + 1));
      }
      at := at + 1;
    }
    return Err(OutOfAnswers);
  }

  /** The name loop of `getDecisionMakerInput`: prompt again while the trimmed name is empty. */
  method ReadName(answers: seq<Reply>, pos: nat) returns (r: Result<(string, nat), InputError>)
    ensures r == NextName(answers, pos)
  {
    if pos >= |answers| {
      return Err(OutOfAnswers);
    }
    var altName := Trim(answers[pos].text);
    var at := pos + 1;
    while altName == ""
      invariant pos < at <= |answers|
      invariant NextName(answers, pos) == if altName == "" then NextName(answers, at) else Ok((altName, at))
      decreases |answers| - at
    {
      if at >= |answers| {
        return Err(OutOfAnswers);
      }
      altName := Trim(answers[at].text);
      at := at + 1;
    }
    return Ok((altName, at));
  }

  /** The outcome loop of `getDecisionMakerInput`: a probability (with probabilities) and a utility per outcome. */
  method ReadOutcomes(answers: seq<Reply>, pos: nat, numOutcomes: nat, hasProbabilities: bool)
    returns (r: Result<Outcomes, InputError>)
    ensures r == OutcomesAt(answers, pos, numOutcomes, hasProbabilities)
  {
    var at := pos;
    var probabilities: seq<real> := [];
    var utilities: seq<real> := [];
    var j := 0;
    while j < numOutcomes
      invariant 0 <= j <= numOutcomes && pos <= at
      invariant NextOutcomes(answers, at, numOutcomes - j, hasProbabilities, probabilities, utilities)
             == NextOutcomes(answers, pos, numOutcomes, hasProbabilities, [], [])
    {
      if hasProbabilities {
        var prob := ReadFloat(answers, at, Some(0.0), Some(1.0));
        if prob.Err? {
          return Err(prob.error);
        }
        probabilities := probabilities + [prob.value.0];
        at := prob.value.1;
      }
      var util := ReadFloat(answers, at, None, None);
      if util.Err? {
        return Err(util.error);
      }
      utilities := utilities + [util.value.0];
      at := util.value.1;
      j := j + 1;
    }
    return Ok(Outcomes(probabilities, utilities, at));
  }

  /**
   * The part of the loop body of `getDecisionMakerInput` before the sum check: the name,
   * the number of outcomes, the outcomes and, without probabilities, the Laplace weights.
   */
  method ReadAlternative(answers: seq<Reply>, pos: nat, hasProbabilities: bool) returns (r: Result<(Alternative, nat), InputError>)
    ensures r == NextAlternative(answers, pos, hasProbabilities)
  {
    var name := ReadName(answers, pos);
    if name.Err? {
      return Err(name.error);
    }
    var (altName, at) := name.value;
    if at >= |answers| {
      return Err(OutOfAnswers);
    }
    if answers[at].asInt.None? || answers[at].asInt.value <= 0 {
      return Err(BadOutcomeCount);
    }
    var numOutcomes := answers[at].asInt.value;
    var outcomes := ReadOutcomes(answers, at + 1, numOutcomes, hasProbabilities);
    if outcomes.Err? {
      return Err(outcomes.error);
    }
    var probabilities := outcomes.value.probabilities;
    if !hasProbabilities {
      probabilities := LaplaceWeights(numOutcomes);
    }
    return Ok((Alternative(altName, probabilities, outcomes.value.utilities, None), outcomes.value.next));
  }

  /**
   * One pass of the body of the loop over the alternatives: read an alternative and, when
   * its probabilities sum outside the band, ask the confirm. `appended` is false when the
   * answer was no (the `i--` retry); `cursor` and `confirmCursor` are where reading resumes.
   */
  method AskAlternative(answers: seq<Reply>, pos: nat, confirms: seq<bool>, cpos: nat, remaining: nat,
                        hasProbabilities: bool, soa: seq<Alternative>)
    returns (r: Result<Round, InputError>)
    requires remaining > 0
    ensures r.Err? ==> Resume(answers, confirms, hasProbabilities, Cursor(pos, cpos, remaining, soa)) == Err(r.error)
    ensures r.Ok? ==> pos < r.value.cursor <= |answers| && cpos <= r.value.confirmCursor
    ensures r.Ok? && r.value.appended ==>
      Resume(answers, confirms, hasProbabilities, Cursor(pos, cpos, remaining, soa))
      == Resume(answers, confirms, hasProbabilities,
                Cursor(r.value.cursor, r.value.confirmCursor, remaining - 1, soa + [r.value.alternative]))
    ensures r.Ok? && !r.value.appended ==>
      Resume(answers, confirms, hasProbabilities, Cursor(pos, cpos, remaining, soa))
      == Resume(answers, confirms, hasProbabilities, Cursor(r.value.cursor, r.value.confirmCursor, remaining, soa))
  {
    var step := ReadAlternative(answers, pos, hasProbabilities);
    if step.Err? {
      UnreadableAlternativeEnds(answers, pos, confirms, cpos, remaining, hasProbabilities, soa, step.error);
      return Err(step.error);
    }
    var (alt, next) := step.value;
    if hasProbabilities {
      var sumProb := Sum(alt.probabilities);
      if sumProb < 0.99 || sumProb > 1.01 {
        if cpos >= |confirms| {
          WarningWithoutAnswerEnds(answers, pos, confirms, cpos, remaining, soa, alt, next);
          return Err(OutOfAnswers);
        }
        var goOn := confirms[cpos];
        if !goOn {
          DeclinedAlternativeReentered(answers, pos, confirms, cpos, remaining, soa, alt, next);
          return Ok(Round(alt, next, cpos + 1, false));
        }
        ConfirmedAlternativeAppended(answers, pos, confirms, cpos, remaining, soa, alt, next);
        return Ok(Round(alt, next, cpos + 1, true));
      }
    }
    InBandAlternativeAppended(answers, pos, confirms, cpos, remaining, hasProbabilities, soa, alt, next);
    return Ok(Round(alt, next, cpos, true));
  }

  /** `getDecisionMakerInput`: the count, the probability confirm and the loop over the alternatives with its `i--` retry. */
  method GetDecisionMakerInput(answers: seq<Reply>, confirms: seq<bool>) returns (r: Result<(seq<Alternative>, bool), InputError>)
    ensures r == DecisionMakerInput(answers, confirms)
  {
    if |answers| == 0 {
      return Err(OutOfAnswers);
    }
    if answers[0].asInt.None? || answers[0].asInt.value <= 0 {
      return Err(BadAlternativeCount);
    }
    var numAlternatives := answers[0].asInt.value;
    if |confirms| == 0 {
      return Err(OutOfAnswers);
    }
    var hasProbabilities := confirms[0];
    var soa: seq<Alternative> := [];
    var pos: nat := 1;
    var cpos: nat := 1;
    var i := 0;
    while i < numAlternatives
      invariant 0 <= i <= numAlternatives
      invariant Resume(answers, confirms, hasProbabilities, Cursor(pos, cpos, numAlternatives - i, soa))
             == Resume(answers, confirms, hasProbabilities, Cursor(1, 1, numAlternatives, []))
      decreases |answers| - pos
    {
      var round := AskAlternative(answers, pos, confirms, cpos, numAlternatives - i, hasProbabilities, soa);
      if round.Err? {
        return Err(round.error);
      }
      pos, cpos := round.value.cursor, round.value.confirmCursor;
      // A declined warning is the source's `i--`: the loop's `i++` then asks for the same alternative again.
      if round.value.appended {
        soa := soa + [round.value.alternative];
        i := i + 1;
      }
    }
    return Ok((soa, hasProbabilities));
  }

  // ---------------------------------------------------------------- what the session returns

  /** What one alternative of a finished session looks like. */
  predicate WellFormed(a: Alternative, hasProbabilities: bool)
  {
    && a.name != "" && Trim(a.name) == a.name
    && |a.utilities| > 0
    && a.expectedUtility.None?
    && (hasProbabilities ==> |a.probabilities| == |a.utilities| && AllProbabilities(a.probabilities))
    && (!hasProbabilities ==> a.probabilities == LaplaceWeights(|a.utilities|))
  }

  lemma {:induction false} NextOutcomesShape(answers: seq<Reply>, pos: nat, remaining: nat, hasProbabilities: bool,
                                             ps: seq<real>, us: seq<real>)
    requires hasProbabilities ==> |ps| == |us| && AllProbabilities(ps)
    requires !hasProbabilities ==> ps == []
    ensures var r := NextOutcomes(answers, pos, remaining, hasProbabilities, ps, us);
      r.Ok? ==>
        && |r.value.utilities| == |us| + remaining
        && (hasProbabilities ==> |r.value.probabilities| == |r.value.utilities| && AllProbabilities(r.value.probabilities))
        && (!hasProbabilities ==> r.value.probabilities == [])
    decreases remaining
  {
    if remaining > 0 {
      if hasProbabilities {
        var p := NextFloat(answers, pos, Some(0.0), Some(1.0));
        if p.Ok? {
          var u := NextFloat(answers, p.value.1, None, None);
          if u.Ok? {
            NextOutcomesShape(answers, u.value.1, remaining - 1, hasProbabilities, ps + [p.value.0], us + [u.value.0]);
          }
        }
      } else {
        var u := NextFloat(answers, pos, None, None);
        if u.Ok? {
          NextOutcomesShape(answers, u.value.1, remaining - 1, hasProbabilities, ps, us + [u.value.0]);
        }
      }
    }
  }

  /** The name loop returns the trimmed text of the last answer it read, which is not empty and is trimmed already. */
  lemma {:induction false} NameTrimmed(answers: seq<Reply>, pos: nat)
    ensures var r := NextName(answers, pos);
      r.Ok? ==> r.value.0 == Trim(answers[r.value.1 - 1].text) && r.value.0 != "" && Trim(r.value.0) == r.value.0
    decreases |answers| - pos
  {
    if pos < |answers| {
      if Trim(answers[pos].text) == "" {
        NameTrimmed(answers, pos + 1);
      } else {
        TrimIdempotent(answers[pos].text);
      }
    }
  }

  lemma NextAlternativeShape(answers: seq<Reply>, pos: nat, hasProbabilities: bool)
    ensures var r := NextAlternative(answers, pos, hasProbabilities);
      r.Ok? ==> WellFormed(r.value.0, hasProbabilities)
  {
    var n := NextName(answers, pos);
    if n.Ok? {
      NameTrimmed(answers, pos);
      var afterName := n.value.1;
      if afterName < |answers| && answers[afterName].asInt.Some? && answers[afterName].asInt.value > 0 {
        NextOutcomesShape(answers, afterName + 1, answers[afterName].asInt.value, hasProbabilities, [], []);
      }
    }
  }

  lemma {:induction false} NextAlternativesShape(answers: seq<Reply>, pos: nat, confirms: seq<bool>, cpos: nat,
                                                 remaining: nat, hasProbabilities: bool, soa: seq<Alternative>)
    requires forall k :: 0 <= k < |soa| ==> WellFormed(soa[k], hasProbabilities)
    ensures var r := Resume(answers, confirms, hasProbabilities, Cursor(pos, cpos, remaining, soa));
      r.Ok? ==>
        && |r.value| == |soa| + remaining
        && r.value[..|soa|] == soa
        && forall k :: 0 <= k < |r.value| ==> WellFormed(r.value[k], hasProbabilities)
    decreases |answers| - pos
  {
    if remaining > 0 {
      var step := NextAlternative(answers, pos, hasProbabilities);
      if step.Err? {
        UnreadableAlternativeEnds(answers, pos, confirms, cpos, remaining, hasProbabilities, soa, step.error);
        return;
      }
      NextAlternativeShape(answers, pos, hasProbabilities);
      var (a, next) := step.value;
      if hasProbabilities && !InBand(Sum(a.probabilities)) {
        if cpos >= |confirms| {
          WarningWithoutAnswerEnds(answers, pos, confirms, cpos, remaining, soa, a, next);
        } else if confirms[cpos] {
          ConfirmedAlternativeAppended(answers, pos, confirms, cpos, remaining, soa, a, next);
          NextAlternativesShape(answers, next, confirms, cpos + 1, remaining - 1, true, soa + [a]);
          PrefixOfLonger(Resume(answers, confirms, true, Cursor(next, cpos + 1, remaining - 1, soa + [a])), soa, a);
        } else {
          DeclinedAlternativeReentered(answers, pos, confirms, cpos, remaining, soa, a, next);
          NextAlternativesShape(answers, next, confirms, cpos + 1, remaining, true, soa);
        }
      } else {
        InBandAlternativeAppended(answers, pos, confirms, cpos, remaining, hasProbabilities, soa, a, next);
        NextAlternativesShape(answers, next, confirms, cpos, remaining - 1, hasProbabilities, soa + [a]);
        PrefixOfLonger(Resume(answers, confirms, hasProbabilities, Cursor(next, cpos, remaining - 1, soa + [a])), soa, a);
      }
    }
  }

  lemma PrefixOfLonger(r: Result<seq<Alternative>, InputError>, soa: seq<Alternative>, a: Alternative)
    requires r.Ok? ==> |r.value| >= |soa| + 1 && r.value[..|soa| + 1] == soa + [a]
    ensures r.Ok? ==> r.value[..|soa|] == soa
  {
    if r.Ok? {
      assert r.value[..|soa|] == r.value[..|soa| + 1][..|soa|];
    }
  }

  /**
   * A finished session has exactly the number of alternatives asked for, the flag from the
   * first confirm, and alternatives whose names are trimmed and non-empty, with at least
   * one outcome each; with probabilities each lies in [0, 1] and there is one per utility;
   * without, the Laplace weights, which sum to 1.
   */
  lemma SessionShape(answers: seq<Reply>, confirms: seq<bool>)
    requires DecisionMakerInput(answers, confirms).Ok?
    ensures |answers| > 0 && answers[0].asInt.Some? && |confirms| > 0
    ensures var (soa, hasProbabilities) := DecisionMakerInput(answers, confirms).value;
      && |soa| == answers[0].asInt.value
      && hasProbabilities == confirms[0]
      && (forall k :: 0 <= k < |soa| ==> WellFormed(soa[k], hasProbabilities))
      && (forall k :: 0 <= k < |soa| && !hasProbabilities ==> Sum(soa[k].probabilities) == 1.0)
  {
    NextAlternativesShape(answers, 1, confirms, 1, answers[0].asInt.value, confirms[0], []);
    var (soa, hasProbabilities) := DecisionMakerInput(answers, confirms).value;
    forall k | 0 <= k < |soa| && !hasProbabilities
      ensures Sum(soa[k].probabilities) == 1.0
    {
      LaplaceWeightsSumToOne(|soa[k].utilities|);
    }
  }

  /** The checks before any alternative is read. */
  lemma SessionHeader(answers: seq<Reply>, confirms: seq<bool>)
    ensures |answers| == 0 ==> DecisionMakerInput(answers, confirms) == Err(OutOfAnswers)
    ensures |answers| > 0 && (answers[0].asInt.None? || answers[0].asInt.value <= 0) ==>
      DecisionMakerInput(answers, confirms) == Err(BadAlternativeCount)
  {
  }

  /** Resuming the loop with alternatives still to come runs one round. */
  lemma ResumeRound(answers: seq<Reply>, pos: nat, confirms: seq<bool>, cpos: nat, remaining: nat,
                    hasProbabilities: bool, soa: seq<Alternative>)
    requires remaining > 0
    ensures Resume(answers, confirms, hasProbabilities, Cursor(pos, cpos, remaining, soa))
         == AlternativeRound(answers, pos, confirms, cpos, remaining, hasProbabilities, soa)
  {
  }

  /** An alternative that cannot be read ends the session with its error. */
  lemma UnreadableAlternativeEnds(answers: seq<Reply>, pos: nat, confirms: seq<bool>, cpos: nat, remaining: nat,
                                  hasProbabilities: bool, soa: seq<Alternative>, e: InputError)
    requires remaining > 0 && NextAlternative(answers, pos, hasProbabilities) == Err(e)
    ensures Resume(answers, confirms, hasProbabilities, Cursor(pos, cpos, remaining, soa)) == Err(e)
  {
    ResumeRound(answers, pos, confirms, cpos, remaining, hasProbabilities, soa);
  }

  /** An alternative whose sum needs no warning, or that has no probabilities, is appended and counts. */
  lemma InBandAlternativeAppended(answers: seq<Reply>, pos: nat, confirms: seq<bool>, cpos: nat, remaining: nat,
                                  hasProbabilities: bool, soa: seq<Alternative>, a: Alternative, next: nat)
    requires remaining > 0 && NextAlternative(answers, pos, hasProbabilities) == Ok((a, next))
    requires hasProbabilities ==> InBand(Sum(a.probabilities))
    ensures Resume(answers, confirms, hasProbabilities, Cursor(pos, cpos, remaining, soa))
         == Resume(answers, confirms, hasProbabilities, Cursor(next, cpos, remaining - 1, soa + [a]))
  {
    ResumeRound(answers, pos, confirms, cpos, remaining, hasProbabilities, soa);
  }

  /** A warning with no confirm answer left ends the session. */
  lemma WarningWithoutAnswerEnds(answers: seq<Reply>, pos: nat, confirms: seq<bool>, cpos: nat, remaining: nat,
                                 soa: seq<Alternative>, a: Alternative, next: nat)
    requires remaining > 0 && NextAlternative(answers, pos, true) == Ok((a, next))
    requires !InBand(Sum(a.probabilities)) && cpos >= |confirms|
    ensures Resume(answers, confirms, true, Cursor(pos, cpos, remaining, soa)) == Err(OutOfAnswers)
  {
    ResumeRound(answers, pos, confirms, cpos, remaining, true, soa);
  }

  /** Confirming the warning appends the alternative as entered. */
  lemma ConfirmedAlternativeAppended(answers: seq<Reply>, pos: nat, confirms: seq<bool>, cpos: nat, remaining: nat,
                                     soa: seq<Alternative>, a: Alternative, next: nat)
    requires remaining > 0 && NextAlternative(answers, pos, true) == Ok((a, next))
    requires !InBand(Sum(a.probabilities)) && cpos < |confirms| && confirms[cpos]
    ensures Resume(answers, confirms, true, Cursor(pos, cpos, remaining, soa))
         == Resume(answers, confirms, true, Cursor(next, cpos + 1, remaining - 1, soa + [a]))
  {
    ResumeRound(answers, pos, confirms, cpos, remaining, true, soa);
  }

  /** Declining the warning appends nothing and the same number of alternatives is still to come. */
  lemma DeclinedAlternativeReentered(answers: seq<Reply>, pos: nat, confirms: seq<bool>, cpos: nat, remaining: nat,
                                     soa: seq<Alternative>, a: Alternative, next: nat)
    requires remaining > 0 && NextAlternative(answers, pos, true) == Ok((a, next))
    requires !InBand(Sum(a.probabilities)) && cpos < |confirms| && !confirms[cpos]
    ensures Resume(answers, confirms, true, Cursor(pos, cpos, remaining, soa))
         == Resume(answers, confirms, true, Cursor(next, cpos + 1, remaining, soa))
  {
    ResumeRound(answers, pos, confirms, cpos, remaining, true, soa);
  }

  function Num(x: real): Reply
  {
    Reply("", None, Some(x))
  }

  function Count(n: int): Reply
  {
    Reply("", Some(n), Some(n as real))
  }

  /** Two outcomes read with probabilities. */
  lemma TwoOutcomes(answers: seq<Reply>, pos: nat, p0: real, u0: real, p1: real, u1: real)
    requires pos + 4 <= |answers|
    requires answers[pos] == Num(p0) && answers[pos + 1] == Num(u0) && answers[pos + 2] == Num(p1) && answers[pos + 3] == Num(u1)
    requires 0.0 <= p0 <= 1.0 && 0.0 <= p1 <= 1.0
    ensures OutcomesAt(answers, pos, 2, true) == Ok(Outcomes([p0, p1], [u0, u1], pos + 4))
  {
    assert [] + [p0] == [p0] && [p0] + [p1] == [p0, p1];
    assert [] + [u0] == [u0] && [u0] + [u1] == [u0, u1];
    assert NextOutcomes(answers, pos + 4, 0, true, [p0, p1], [u0, u1]) == Ok(Outcomes([p0, p1], [u0, u1], pos + 4));
    assert NextOutcomes(answers, pos + 2, 1, true, [p0], [u0]) == Ok(Outcomes([p0, p1], [u0, u1], pos + 4));
  }

  /** A named alternative with two outcomes read with probabilities. */
  lemma TwoOutcomeAlternative(answers: seq<Reply>, pos: nat, name: string, at: nat, p0: real, u0: real, p1: real, u1: real)
    requires NextName(answers, pos) == Ok((name, at))
    requires at + 5 <= |answers| && answers[at] == Count(2)
    requires answers[at + 1] == Num(p0) && answers[at + 2] == Num(u0) && answers[at + 3] == Num(p1) && answers[at + 4] == Num(u1)
    requires 0.0 <= p0 <= 1.0 && 0.0 <= p1 <= 1.0
    ensures NextAlternative(answers, pos, true) == Ok((Alternative(name, [p0, p1], [u0, u1], None), at + 5))
  {
    TwoOutcomes(answers, at + 1, p0, u0, p1, u1);
  }

  /** A name typed at `pos`, possibly after one blank answer. */
  lemma NameRead(answers: seq<Reply>, pos: nat, name: string, at: nat)
    requires pos <= at < |answers| && at <= pos + 1 && name != ""
    requires at == pos + 1 ==> Trim(answers[pos].text) == ""
    requires Trim(answers[at].text) == name
    ensures NextName(answers, pos) == Ok((name, at + 1))
  {
  }

  /** The first entry of the declined-warning session: "A" with 0.5 and 0.3, whose sum 0.8 draws the warning, declined. */
  lemma DeclinedFirstEntry(answers: seq<Reply>, confirms: seq<bool>)
    requires |answers| >= 7 && answers[1] == Reply(" A ", None, None) && answers[2] == Count(2)
    requires answers[3] == Num(0.5) && answers[4] == Num(10.0) && answers[5] == Num(0.3) && answers[6] == Num(20.0)
    requires |confirms| >= 2 && !confirms[1]
    ensures Resume(answers, confirms, true, Cursor(1, 1, 1, [])) == Resume(answers, confirms, true, Cursor(7, 2, 1, []))
  {
    assert Trim(" A ") == "A";
    assert Sum([0.5, 0.3]) == 0.8 by { assert [0.5, 0.3][..1] == [0.5]; }
    NameRead(answers, 1, "A", 1);
    TwoOutcomeAlternative(answers, 1, "A", 2, 0.5, 10.0, 0.3, 20.0);
    DeclinedAlternativeReentered(answers, 1, confirms, 1, 1, [], Alternative("A", [0.5, 0.3], [10.0, 20.0], None), 7);
  }

  /** The second entry: a blank name asked again, then "B" with 0.5 and 0.5, kept without a warning. */
  lemma DeclinedSecondEntry(answers: seq<Reply>, confirms: seq<bool>)
    requires |answers| == 14 && answers[7] == Reply("  ", None, None) && answers[8] == Reply("B", None, None)
    requires answers[9] == Count(2) && answers[10] == Num(0.5) && answers[11] == Num(1.0)
    requires answers[12] == Num(0.5) && answers[13] == Num(3.0)
    ensures Resume(answers, confirms, true, Cursor(7, 2, 1, [])) == Ok([Alternative("B", [0.5, 0.5], [1.0, 3.0], None)])
  {
    var second := Alternative("B", [0.5, 0.5], [1.0, 3.0], None);
    assert Trim("  ") == "" && Trim("B") == "B";
    assert Sum([0.5, 0.5]) == 1.0 by { assert [0.5, 0.5][..1] == [0.5]; }
    NameRead(answers, 7, "B", 8);
    TwoOutcomeAlternative(answers, 7, "B", 9, 0.5, 1.0, 0.5, 3.0);
    InBandAlternativeAppended(answers, 7, confirms, 2, 1, true, [], second, 14);
    assert [] + [second] == [second];
  }

  /**
   * One alternative with two outcomes entered as 0.5 and 0.3, whose sum 0.8 draws the
   * warning. Declining it discards the entry; the blank name is asked again, and the
   * second entry, 0.5 and 0.5, is the one kept.
   */
  lemma DeclinedWarningScenario(answers: seq<Reply>, confirms: seq<bool>)
    requires answers == [Count(1), Reply(" A ", None, None), Count(2), Num(0.5), Num(10.0), Num(0.3), Num(20.0),
                         Reply("  ", None, None), Reply("B", None, None), Count(2), Num(0.5), Num(1.0), Num(0.5), Num(3.0)]
    requires confirms == [true, false]
    ensures DecisionMakerInput(answers, confirms) == Ok(([Alternative("B", [0.5, 0.5], [1.0, 3.0], None)], true))
  {
    DeclinedFirstEntry(answers, confirms);
    DeclinedSecondEntry(answers, confirms);
  }

  /** Confirming the warning keeps the entry with its sum of 0.8. */
  lemma ConfirmedWarningScenario(answers: seq<Reply>, confirms: seq<bool>)
    requires answers == [Count(1), Reply("A", None, None), Count(2), Num(0.5), Num(10.0), Num(0.3), Num(20.0)]
    requires confirms == [true, true]
    ensures DecisionMakerInput(answers, confirms) == Ok(([Alternative("A", [0.5, 0.3], [10.0, 20.0], None)], true))
  {
    var first := Alternative("A", [0.5, 0.3], [10.0, 20.0], None);
    assert Trim("A") == "A";
    assert Sum([0.5, 0.3]) == 0.8 by { assert [0.5, 0.3][..1] == [0.5]; }
    NameRead(answers, 1, "A", 1);
    TwoOutcomeAlternative(answers, 1, "A", 2, 0.5, 10.0, 0.3, 20.0);
    ConfirmedAlternativeAppended(answers, 1, confirms, 1, 1, [], first, 7);
    assert [] + [first] == [first];
  }

  // ---------------------------------------------------------------- the Laplace step as written

  /** `xs.fill(v, start, end)`: the indices from `start` up to `end` that exist are set; the length never changes. */
  function Fill(xs: seq<real>, v: real, start: nat, end: nat): seq<real>
  {
    seq(|xs|, i requires 0 <= i < |xs| => if start <= i < end then v else xs[i])
  }

  /** The Laplace step as written: `fill` on the empty array leaves it empty, whatever the count. */
  lemma LaplaceFillAsWritten(n: nat, u: seq<real>)
    requires n > 0
    ensures Fill([], 1.0 / (n as real), 0, n) == []
    ensures AlternativeScore(Alternative("", Fill([], 1.0 / (n as real), 0, n), u, None)) == Some(0.0)
  {
  }

  /**
   * A session without probabilities and utilities 3 and 5: the as-written empty
   * probabilities score 0, the Laplace weights score the mean, 4.
   */
  lemma LaplaceFillScenario()
    ensures AlternativeScore(Alternative("A", Fill([], 1.0 / 2.0, 0, 2), [3.0, 5.0], None)) == Some(0.0)
    ensures AlternativeScore(Alternative("A", LaplaceWeights(2), [3.0, 5.0], None)) == Some(4.0)
  {
    LaplaceDotIsMean([3.0, 5.0]);
    assert [3.0, 5.0][..1] == [3.0];
  }

  // ---------------------------------------------------------------- calculateExpectedUtility

  /**
   * `alt.probabilities.reduce((sum, prob, i) => sum + prob * alt.utilities[i], 0)`: the sum
   * runs over the indices of the probabilities; a missing utility is undefined and makes the
   * total NaN (None).
   */
  function AlternativeScore(a: Alternative): (r: Option<real>)
    ensures r.Some? <==> |a.probabilities| <= |a.utilities|
    ensures r.Some? ==> r.value == ZipDot(a.probabilities, a.utilities)
  {
    assert a.probabilities[..|a.probabilities|] == a.probabilities;
    if |a.probabilities| <= |a.utilities| then Some(Dot(a.probabilities, a.utilities)) else None
  }

  /** `calculateExpectedUtility`: `map` over `soa`, setting each alternative's expected utility. */
  function CalculateExpectedUtility(soa: seq<Alternative>): (r: seq<Alternative>)
    ensures |r| == |soa|
    ensures forall k :: 0 <= k < |soa| ==>
      && r[k].name == soa[k].name && r[k].probabilities == soa[k].probabilities
      && r[k].utilities == soa[k].utilities
      && (r[k].expectedUtility.Some? <==> |soa[k].probabilities| <= |soa[k].utilities|)
      && (r[k].expectedUtility.Some? ==> r[k].expectedUtility.value == ZipDot(soa[k].probabilities, soa[k].utilities))
  {
    seq(|soa|, k requires 0 <= k < |soa| => soa[k].(expectedUtility := AlternativeScore(soa[k])))
  }

  /** Scoring keeps names and arrays, and scoring twice gives what scoring once gives. */
  lemma CalculateExpectedUtilityIdempotent(soa: seq<Alternative>)
    ensures CalculateExpectedUtility(CalculateExpectedUtility(soa)) == CalculateExpectedUtility(soa)
    ensures forall k :: 0 <= k < |soa| ==>
      var r := CalculateExpectedUtility(soa)[k];
      r.name == soa[k].name && r.probabilities == soa[k].probabilities && r.utilities == soa[k].utilities
  {
  }

  /**
   * On a finished session every alternative gets a score: the dot product with the entered
   * probabilities, or the mean utility with the Laplace weights.
   */
  lemma SessionScores(answers: seq<Reply>, confirms: seq<bool>)
    requires DecisionMakerInput(answers, confirms).Ok?
    ensures var (soa, hasProbabilities) := DecisionMakerInput(answers, confirms).value;
      var r := CalculateExpectedUtility(soa);
      forall k :: 0 <= k < |soa| ==>
        && |soa[k].probabilities| == |soa[k].utilities| > 0
        && r[k].expectedUtility == Some(if hasProbabilities then Dot(soa[k].probabilities, soa[k].utilities)
                                     else Mean(soa[k].utilities))
  {
    SessionShape(answers, confirms);
    var (soa, hasProbabilities) := DecisionMakerInput(answers, confirms).value;
    forall k | 0 <= k < |soa| && !hasProbabilities
      ensures Dot(soa[k].probabilities, soa[k].utilities) == Mean(soa[k].utilities)
    {
      LaplaceDotIsMean(soa[k].utilities);
    }
  }

  // ---------------------------------------------------------------- findBestAlternative

  /** `current.expectedUtility > best.expectedUtility`: any comparison with undefined or NaN is false. */
  predicate Beats(current: Option<real>, best: Option<real>)
  {
    current.Some? && best.Some? && current.value > best.value
  }

  /** The index `reduce` ends on: the left fold keeping the best so far unless beaten. */
  function BestIndex(soa: seq<Alternative>): (k: nat)
    requires |soa| > 0
    ensures k < |soa|
  {
    if |soa| == 1 then 0
    else
      var b := BestIndex(soa[..|soa| - 1]);
      if Beats(soa[|soa| - 1].expectedUtility, soa[b].expectedUtility) then |soa| - 1 else b
  }

  /** `findBestAlternative`: `reduce` without a start value throws on an empty `soa` (None). */
  function FindBestAlternative(soa: seq<Alternative>): (r: Option<Alternative>)
    ensures r.None? <==> soa == []
    ensures r.Some? ==> exists k :: 0 <= k < |soa| && soa[k] == r.value
  {
    if soa == [] then None else Some(soa[BestIndex(soa)])
  }

  predicate AllScored(soa: seq<Alternative>)
  {
    forall k :: 0 <= k < |soa| ==> soa[k].expectedUtility.Some?
  }

  /** The scores the reduce compares, one per alternative in order. */
  function Scores(soa: seq<Alternative>): seq<real>
    requires AllScored(soa)
  {
    seq(|soa|, k requires 0 <= k < |soa| => soa[k].expectedUtility.value)
  }

  /** Once every alternative has a score, the fold finds the first maximum. */
  lemma {:induction false} BestIndexIsFirstMax(soa: seq<Alternative>)
    requires |soa| > 0 && AllScored(soa)
    ensures BestIndex(soa) == FirstMax(Scores(soa))
    decreases |soa|
  {
    if |soa| > 1 {
      var init := soa[..|soa| - 1];
      BestIndexIsFirstMax(init);
      assert Scores(init) == Scores(soa)[..|soa| - 1];
    }
  }

  /** On a finished session with scores, `findBestAlternative` returns the first alternative with the largest expected utility. */
  lemma SessionBest(answers: seq<Reply>, confirms: seq<bool>)
    requires DecisionMakerInput(answers, confirms).Ok?
    ensures var r := CalculateExpectedUtility(DecisionMakerInput(answers, confirms).value.0);
      && AllScored(r) && |r| > 0
      && FindBestAlternative(r) == Some(r[FirstMax(Scores(r))])
  {
    SessionShape(answers, confirms);
    var r := CalculateExpectedUtility(DecisionMakerInput(answers, confirms).value.0);
    BestIndexIsFirstMax(r);
  }

  // ---------------------------------------------------------------- visualizeDecisionTree

  datatype Label = Decision | AltLabel(index: nat, name: string) | OutcomeLabel(index: nat, probability: real, utility: real)
  datatype Node = Node(id: nat, caption: Label)
  datatype Edge = Edge(from: nat, to: nat)

  /** The number of outcome nodes of the first `i` alternatives: one per probability. */
  function OutcomesBefore(soa: seq<Alternative>, i: nat): nat
    requires i <= |soa|
  {
    if i == 0 then 0 else OutcomesBefore(soa, i - 1) + |soa[i - 1].probabilities|
  }

  /** The id the counter gives alternative `i`: after the root, the earlier alternatives and their outcomes. */
  function AltId(soa: seq<Alternative>, i: nat): nat
    requires i <= |soa|
  {
    1 + i + OutcomesBefore(soa, i)
  }

  /** Alternatives' subtrees follow each other: each starts after the previous one's outcomes. */
  lemma {:induction false} AltIdsIncrease(soa: seq<Alternative>, i: nat, k: nat)
    requires i < k <= |soa|
    ensures AltId(soa, i) + |soa[i].probabilities| < AltId(soa, k)
    decreases k - i
  {
    if i + 1 < k {
      AltIdsIncrease(soa, i + 1, k);
    }
  }

  /**
   * The inner loop of `visualizeDecisionTree`: one node per outcome of `alt`, each linked
   * from the alternative's node `altNodeId`, with ids continuing the counter.
   */
  method OutcomeNodes(alt: Alternative, altNodeId: nat, nodes0: seq<Node>, edges0: seq<Edge>)
    returns (nodes: seq<Node>, edges: seq<Edge>)
    requires |alt.probabilities| <= |alt.utilities|
    requires |nodes0| == altNodeId + 1 && |edges0| == altNodeId
    requires forall k :: 0 <= k < |nodes0| ==> nodes0[k].id == k
    requires forall k :: 0 <= k < |edges0| ==> edges0[k].to == k + 1 && edges0[k].from <= k
    ensures |nodes| == |nodes0| + |alt.probabilities| && |edges| == |edges0| + |alt.probabilities|
    ensures forall k :: 0 <= k < |nodes| ==> nodes[k].id == k
    ensures forall k :: 0 <= k < |edges| ==> edges[k].to == k + 1 && edges[k].from <= k
    ensures forall k :: 0 <= k < |nodes0| ==> nodes[k] == nodes0[k]
    ensures forall k :: 0 <= k < |edges0| ==> edges[k] == edges0[k]
    ensures forall k :: altNodeId < k < |nodes| ==>
      nodes[k] == Node(k, OutcomeLabel(k - altNodeId - 1, alt.probabilities[k - altNodeId - 1], alt.utilities[k - altNodeId - 1]))
    ensures forall k :: altNodeId <= k < |edges| ==> edges[k] == Edge(altNodeId, k + 1)
  {
    nodes, edges := nodes0, edges0;
    var nodeId := altNodeId + 1;
    var j := 0;
    while j < |alt.probabilities|
      invariant 0 <= j <= |alt.probabilities|
      invariant nodeId == altNodeId + 1 + j == |nodes| && |edges| == nodeId - 1
      invariant forall k :: 0 <= k < |nodes0| ==> nodes[k] == nodes0[k]
      invariant forall k :: 0 <= k < |edges0| ==> edges[k] == edges0[k]
      invariant forall k :: 0 <= k < |nodes| ==> nodes[k].id == k
      invariant forall k :: 0 <= k < |edges| ==> edges[k].to == k + 1 && edges[k].from <= k
      invariant forall k :: altNodeId < k < |nodes| ==>
        nodes[k] == Node(k, OutcomeLabel(k - altNodeId - 1, alt.probabilities[k - altNodeId - 1], alt.utilities[k - altNodeId - 1]))
      invariant forall k :: altNodeId <= k < |edges| ==> edges[k] == Edge(altNodeId, k + 1)
    {
      var outcomeNodeId := nodeId;
      nodeId := nodeId + 1;
      nodes := nodes + [Node(outcomeNodeId, OutcomeLabel(j, alt.probabilities[j], alt.utilities[j]))];
      edges := edges + [Edge(altNodeId, outcomeNodeId)];
      j := j + 1;
    }
  }

  /** Alternative `a` has its node at its id, labelled with its index and name and linked from the root. */
  predicate AltNodePlaced(soa: seq<Alternative>, nodes: seq<Node>, edges: seq<Edge>, a: nat)
    requires a < |soa|
  {
    0 < AltId(soa, a) < |nodes| && AltId(soa, a) <= |edges|
    && nodes[AltId(soa, a)].caption == AltLabel(a, soa[a].name) && edges[AltId(soa, a) - 1].from == 0
  }

  /** Outcome `j` of alternative `a` has its node right after the alternative's, linked from it. */
  predicate OutcomeNodePlaced(soa: seq<Alternative>, nodes: seq<Node>, edges: seq<Edge>, a: nat, j: nat)
    requires a < |soa| && j < |soa[a].probabilities| <= |soa[a].utilities|
  {
    AltId(soa, a) + 1 + j < |nodes| && AltId(soa, a) + j < |edges|
    && nodes[AltId(soa, a) + 1 + j].caption == OutcomeLabel(j, soa[a].probabilities[j], soa[a].utilities[j])
    && edges[AltId(soa, a) + j].from == AltId(soa, a)
  }

  /** Appending to the lists keeps the alternatives and outcomes placed before. */
  lemma PlacedKept(soa: seq<Alternative>, i: nat, nodes0: seq<Node>, edges0: seq<Edge>, nodes: seq<Node>, edges: seq<Edge>)
    requires i <= |soa| && forall a :: 0 <= a < |soa| ==> |soa[a].probabilities| <= |soa[a].utilities|
    requires |nodes0| <= |nodes| && |edges0| <= |edges|
    requires forall k :: 0 <= k < |nodes0| ==> nodes[k] == nodes0[k]
    requires forall k :: 0 <= k < |edges0| ==> edges[k] == edges0[k]
    requires forall a :: 0 <= a < i ==> AltNodePlaced(soa, nodes0, edges0, a)
    requires forall a, j :: 0 <= a < i && 0 <= j < |soa[a].probabilities| ==> OutcomeNodePlaced(soa, nodes0, edges0, a, j)
    ensures forall a :: 0 <= a < i ==> AltNodePlaced(soa, nodes, edges, a)
    ensures forall a, j :: 0 <= a < i && 0 <= j < |soa[a].probabilities| ==> OutcomeNodePlaced(soa, nodes, edges, a, j)
  {
    forall a | 0 <= a < i
      ensures AltNodePlaced(soa, nodes, edges, a)
    {
      assert AltNodePlaced(soa, nodes0, edges0, a);
    }
    forall a, j | 0 <= a < i && 0 <= j < |soa[a].probabilities|
      ensures OutcomeNodePlaced(soa, nodes, edges, a, j)
    {
      assert OutcomeNodePlaced(soa, nodes0, edges0, a, j);
    }
  }

  /** The nodes and edges `OutcomeNodes` leaves after alternative `i`'s node place it and its outcomes. */
  lemma PlacedNew(soa: seq<Alternative>, i: nat, id: nat, nodes: seq<Node>, edges: seq<Edge>)
    requires i < |soa| && |soa[i].probabilities| <= |soa[i].utilities| && id == AltId(soa, i)
    requires |nodes| == id + 1 + |soa[i].probabilities| && |edges| == id + |soa[i].probabilities|
    requires nodes[id] == Node(id, AltLabel(i, soa[i].name)) && edges[id - 1] == Edge(0, id)
    requires forall k :: id < k < |nodes| ==>
      nodes[k] == Node(k, OutcomeLabel(k - id - 1, soa[i].probabilities[k - id - 1], soa[i].utilities[k - id - 1]))
    requires forall k :: id <= k < |edges| ==> edges[k] == Edge(id, k + 1)
    ensures AltNodePlaced(soa, nodes, edges, i)
    ensures forall j :: 0 <= j < |soa[i].probabilities| ==> OutcomeNodePlaced(soa, nodes, edges, i, j)
  {
  }

  /**
   * The node and edge lists of `visualizeDecisionTree`: the root 0, then for each
   * alternative its node, linked from the root, followed by one node per outcome, linked
   * from the alternative. Ids come from one counter, so node `k` has id `k` and edge `k`
   * leads to node `k + 1`.
   */
  method DecisionTree(soa: seq<Alternative>) returns (nodes: seq<Node>, edges: seq<Edge>)
    requires forall i :: 0 <= i < |soa| ==> |soa[i].probabilities| <= |soa[i].utilities|
    ensures |nodes| == AltId(soa, |soa|) == 1 + |soa| + OutcomesBefore(soa, |soa|)
    ensures forall k :: 0 <= k < |nodes| ==> nodes[k].id == k
    ensures |edges| == |nodes| - 1
    ensures forall k :: 0 <= k < |edges| ==> edges[k].to == k + 1 && edges[k].from <= k
    ensures nodes[0].caption == Decision
    ensures forall i :: 0 <= i < |soa| ==> AltNodePlaced(soa, nodes, edges, i)
    ensures forall i, j :: 0 <= i < |soa| && 0 <= j < |soa[i].probabilities| ==> OutcomeNodePlaced(soa, nodes, edges, i, j)
  {
    nodes := [Node(0, Decision)];
    edges := [];
    var nodeId := 1;
    var i := 0;
    while i < |soa|
      invariant 0 <= i <= |soa|
      invariant nodeId == AltId(soa, i) == |nodes| && |edges| == nodeId - 1
      invariant forall k :: 0 <= k < |nodes| ==> nodes[k].id == k
      invariant forall k :: 0 <= k < |edges| ==> edges[k].to == k + 1 && edges[k].from <= k
      invariant nodes[0].caption == Decision
      invariant forall a :: 0 <= a < i ==> AltNodePlaced(soa, nodes, edges, a)
      invariant forall a, j :: 0 <= a < i && 0 <= j < |soa[a].probabilities| ==> OutcomeNodePlaced(soa, nodes, edges, a, j)
    {
      ghost var nodes0, edges0 := nodes, edges;
      var alt := soa[i];
      var altNodeId := nodeId;
      nodeId := nodeId + 1;
      nodes := nodes + [Node(altNodeId, AltLabel(i, alt.name))];
      edges := edges + [Edge(0, altNodeId)];
      ghost var nodes1, edges1 := nodes, edges;
      nodes, edges := OutcomeNodes(alt, altNodeId, nodes, edges);
      nodeId := nodeId + |alt.probabilities|;
      assert forall k :: 0 <= k < |nodes0| ==> nodes[k] == nodes1[k] == nodes0[k];
      assert forall k :: 0 <= k < |edges0| ==> edges[k] == edges1[k] == edges0[k];
      PlacedKept(soa, i, nodes0, edges0, nodes, edges);
      PlacedNew(soa, i, altNodeId, nodes, edges);
      assert AltId(soa, i + 1) == AltId(soa, i) + 1 + |alt.probabilities|;
      i := i + 1;
    }
  }
}
