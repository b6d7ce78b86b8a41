/**
 * The paginated entry wizard of the new front end (app/new-app/script.js).
 *
 * The page keeps its state in module-level variables (`soa`, `hasProbabilities`,
 * `currentStep`, `numAlternatives`, `currentAlternative`, `currentOutcome`) that the
 * "next" and "back" buttons update. The class `Wizard` holds those variables as
 * fields; `WizardState` is their value, and the functions `Answer` and `Back` say what
 * one press of each button does to it. The steps are
 *   0 number of alternatives, 1 probabilities known?, 2 alternative name,
 *   3 number of outcomes, 4 one outcome (probability and utility).
 * Typed text reaches the model already parsed: `asInt` is parseInt's result and
 * `asFloat` is parseFloat's, with None standing for NaN.
 */
module NewApp {
  import opened Base
  import opened Text
  import opened Expectation

  /** An entry of `soa` as the wizard pushes it at step 2. */
  datatype Alternative = Alternative(
    name: string,
    probabilities: seq<real>,
    utilities: seq<real>,
    numOutcomes: int,
    expectedUtility: real)

  /** The contents of the input box, with what parseInt and parseFloat make of it. */
  datatype Input = Input(text: string, asInt: Option<int>, asFloat: Option<real>)

  /** The page's module-level variables. */
  datatype WizardState = WizardState(
    soa: seq<Alternative>,
    hasProbabilities: bool,
    currentStep: int,
    numAlternatives: Option<int>,
    currentAlternative: int,
    currentOutcome: int)

  /** The variables as the script declares them. */
  const Initial: WizardState := WizardState([], false, 0, Some(0), 0, 0)

  /** The last probability of an alternative is refused when the sum is further than this from 1. */
  const SumTolerance: real := 0.001

  /** `Math.abs(sumProb - 1) > 0.001` is the refusal; this is its negation. */
  predicate SumAccepted(ps: seq<real>)
  {
    Abs(Sum(ps) - 1.0) <= SumTolerance
  }

  /** What the expected-utility formula needs to be defined (with fewer values it yields NaN). */
  predicate Scorable(a: Alternative, hasProbabilities: bool)
  {
    && (hasProbabilities ==> |a.probabilities| <= |a.utilities|)
    && (!hasProbabilities ==> |a.utilities| > 0)
  }

  /** The score of one alternative: the dot product with probabilities, the mean utility without. */
  function ExpectedUtility(a: Alternative, hasProbabilities: bool): real
    requires Scorable(a, hasProbabilities)
  {
    if hasProbabilities then Dot(a.probabilities, a.utilities) else Mean(a.utilities)
  }

  /** `soa` after every alternative's `expectedUtility` has been set. */
  function Scored(soa: seq<Alternative>, hasProbabilities: bool): seq<Alternative>
    requires forall k :: 0 <= k < |soa| ==> Scorable(soa[k], hasProbabilities)
  {
    seq(|soa|, k requires 0 <= k < |soa| =>
      soa[k].(expectedUtility := ExpectedUtility(soa[k], hasProbabilities)))
  }

  /** An alternative whose outcomes have all been entered. */
  predicate Complete(a: Alternative)
  {
    && !IsBlank(a.name)
    && a.numOutcomes >= 1
    && |a.utilities| == a.numOutcomes
    && (|| a.probabilities == []
        || (|a.probabilities| == a.numOutcomes && AllProbabilities(a.probabilities) && SumAccepted(a.probabilities)))
  }

  /** An alternative just named: nothing entered for its outcomes yet. */
  predicate Named(a: Alternative)
  {
    !IsBlank(a.name) && a.probabilities == [] && a.utilities == []
  }

  /** An alternative waiting for the outcome numbered `outcome` (from 0). */
  predicate InProgress(a: Alternative, outcome: int, hasProbabilities: bool)
  {
    && !IsBlank(a.name)
    && 0 <= outcome < a.numOutcomes
    && |a.utilities| == outcome
    && (if hasProbabilities then |a.probabilities| == outcome && AllProbabilities(a.probabilities)
        else a.probabilities == [])
  }

  /** All alternatives have been entered and the results page has replaced the input controls. */
  predicate Finished(s: WizardState)
  {
    s.currentStep == 4 && s.currentAlternative == |s.soa|
  }

  /** The states the wizard can reach by pressing its buttons. */
  predicate Inv(s: WizardState)
  {
    && 0 <= s.currentStep <= 4
    && 0 <= s.currentAlternative
    && (s.currentStep >= 1 ==> s.numAlternatives.Some? && s.numAlternatives.value > 0)
    && (s.currentStep != 4 ==> s.currentOutcome == 0)
    && (s.currentStep <= 2 ==> |s.soa| == s.currentAlternative)
    && (s.currentStep >= 3 ==> s.currentAlternative <= |s.soa| <= s.currentAlternative + 1)
    && (forall k :: 0 <= k < s.currentAlternative && k < |s.soa| ==> Complete(s.soa[k]))
    && (s.currentStep == 3 ==> |s.soa| == s.currentAlternative + 1 && Named(s.soa[s.currentAlternative]))
    && (s.currentStep == 4 && |s.soa| == s.currentAlternative + 1 ==>
          InProgress(s.soa[s.currentAlternative], s.currentOutcome, s.hasProbabilities))
    && (Finished(s) ==>
          s.currentOutcome == 0 &&
          forall k :: 0 <= k < |s.soa| ==> s.soa[k].expectedUtility == ExpectedUtility(s.soa[k], s.hasProbabilities))
  }

  // ---------------------------------------------------------------- processAnswer, steps 0 to 3

  /** Step 0: `numAlternatives = parseInt(userInput)`, then advance only on a positive count. */
  function CountEntry(s: WizardState, input: Input): WizardState
  {
    var n := input.asInt;
    s.(numAlternatives := n, currentStep := if n.Some? && n.value > 0 then s.currentStep + 1 else s.currentStep)
  }

  /** Step 1: probabilities are known exactly when the answer is "s". */
  function ProbabilityFlagEntry(s: WizardState, input: Input): WizardState
  {
    s.(hasProbabilities := IsYes(input.text), currentStep := s.currentStep + 1)
  }

  /** Step 2: a blank name is refused; otherwise a new alternative with no outcomes is pushed. */
  function NameEntry(s: WizardState, input: Input): WizardState
  {
    if IsBlank(input.text) then s
    else s.(soa := s.soa + [Alternative(input.text, [], [], 0, 0.0)], currentStep := s.currentStep + 1)
  }

  /**
   * Step 3: a count that is NaN or not positive is refused; otherwise it is stored in the
   * current alternative. When `soa[currentAlternative]` does not exist the assignment throws
   * a TypeError and nothing changes.
   */
  function OutcomeCountEntry(s: WizardState, input: Input): WizardState
  {
    var n := input.asInt;
    if n.None? || n.value <= 0 then s
    else if !(0 <= s.currentAlternative < |s.soa|) then s
    else
      var k := s.currentAlternative;
      s.(soa := s.soa[k := s.soa[k].(numOutcomes := n.value)], currentStep := s.currentStep + 1)
  }

  /**
   * `processAnswer` as the script is written: its `switch` has labels for steps 0 to 3
   * only, so the outcome block after the step-3 `break` can never run and an answer at
   * step 4 does nothing.
   */
  function AnswerAsWritten(s: WizardState, input: Input): WizardState
  {
    if s.currentStep == 0 then CountEntry(s, input)
    else if s.currentStep == 1 then ProbabilityFlagEntry(s, input)
    else if s.currentStep == 2 then NameEntry(s, input)
    else if s.currentStep == 3 then OutcomeCountEntry(s, input)
    else s
  }

  // ---------------------------------------------------------------- step 4 and processUtility

  /** The state in which `processUtility` is called: the current outcome's probability, if any, is in. */
  predicate UtilityReady(s: WizardState)
  {
    && s.currentStep == 4
    && 0 <= s.currentAlternative
    && |s.soa| == s.currentAlternative + 1
    && s.numAlternatives.Some? && s.numAlternatives.value > 0
    && (forall k :: 0 <= k < s.currentAlternative ==> Complete(s.soa[k]))
    && var a := s.soa[s.currentAlternative];
       && !IsBlank(a.name)
       && 0 <= s.currentOutcome < a.numOutcomes
       && |a.utilities| == s.currentOutcome
       && (if s.hasProbabilities then
             && |a.probabilities| == s.currentOutcome + 1
             && AllProbabilities(a.probabilities)
             && (s.currentOutcome == a.numOutcomes - 1 ==> SumAccepted(a.probabilities))
           else a.probabilities == [])
  }

  lemma ReadyAlternativesScorable(s: WizardState, u: real)
    requires UtilityReady(s)
    requires s.currentOutcome + 1 == s.soa[s.currentAlternative].numOutcomes
    ensures var k := s.currentAlternative;
            var soa := s.soa[k := s.soa[k].(utilities := s.soa[k].utilities + [u])];
            forall j :: 0 <= j < |soa| ==> Complete(soa[j]) && Scorable(soa[j], s.hasProbabilities)
  {
  }

  /**
   * `processUtility`: a NaN utility is refused; otherwise it is pushed and the outcome
   * counter advances. After the last outcome the counter returns to 0 and the next
   * alternative is asked for, or, after the last alternative, `finishAnalysis` sets every
   * expected utility.
   */
  function RecordUtility(s: WizardState, input: Input): WizardState
    requires UtilityReady(s)
  {
    if input.asFloat.None? then s
    else
      var k := s.currentAlternative;
      var a := s.soa[k].(utilities := s.soa[k].utilities + [input.asFloat.value]);
      var s1 := s.(soa := s.soa[k := a], currentOutcome := s.currentOutcome + 1);
      if s1.currentOutcome < a.numOutcomes then s1
      else
        var s2 := s1.(currentOutcome := 0, currentAlternative := k + 1);
        if s2.numAlternatives.Some? && s2.currentAlternative < s2.numAlternatives.value then
          s2.(currentStep := 2)
        else
          ReadyAlternativesScorable(s, input.asFloat.value);
          s2.(soa := Scored(s2.soa, s2.hasProbabilities))
  }

  /**
   * The outcome block at lines 132-151, with the probability read from the answer `prob`
   * and the value handed to `processUtility` read from the answer `util`. With
   * probabilities, the probability must lie in [0, 1]; on the last outcome a sum further
   * than 0.001 from 1 makes the script push and pop it again, so the state is as before.
   * Without probabilities only `util` is read.
   */
  function OutcomePair(s: WizardState, prob: Input, util: Input): WizardState
    requires Inv(s) && s.currentStep == 4 && !Finished(s)
  {
    var k := s.currentAlternative;
    var a := s.soa[k];
    if s.hasProbabilities then
      var p := prob.asFloat;
      if p.None? || !IsProbability(p.value) then s
      else
        var ps := a.probabilities + [p.value];
        if s.currentOutcome == a.numOutcomes - 1 && !SumAccepted(ps) then s
        else RecordUtility(s.(soa := s.soa[k := a.(probabilities := ps)]), util)
    else RecordUtility(s, util)
  }

  /**
   * The outcome block as the script runs it, as the step-4 branch that the step-4 prompt
   * implies: the one typed value is both the probability and, handed to `processUtility`,
   * the utility.
   */
  function OutcomeEntry(s: WizardState, input: Input): WizardState
    requires Inv(s) && s.currentStep == 4 && !Finished(s)
  {
    OutcomePair(s, input, input)
  }

  /**
   * One press of "next" (or Enter): `processAnswer` with the step-4 branch restored. Once
   * the results page is shown there is no input box, so nothing happens.
   */
  function Answer(s: WizardState, input: Input): WizardState
    requires Inv(s)
  {
    if Finished(s) then s
    else if s.currentStep == 4 then OutcomeEntry(s, input)
    else AnswerAsWritten(s, input)
  }

  // ---------------------------------------------------------------- goBack

  function Pop<T>(xs: seq<T>): seq<T>
  {
    if xs == [] then [] else xs[..|xs| - 1]
  }

  /**
   * One press of "back": `goBack` with the step-2 case corrected. The step is decremented
   * (not below 0); landing on step 1 resets the probability flag, landing on step 2 drops
   * the alternative just named, and landing on step 3 or 4 clears the current alternative's
   * outcomes. Landing on step 2 the script also decrements `currentAlternative`; here it is
   * left alone (see `BackAsWritten`).
   */
  function Back(s: WizardState): WizardState
  {
    if s.currentStep <= 0 || Finished(s) then s
    else
      var step := s.currentStep - 1;
      if step == 1 then s.(currentStep := step, hasProbabilities := false)
      else if step == 2 then s.(currentStep := step, soa := Pop(s.soa))
      else if step == 3 || step == 4 then
        var t := s.(currentStep := step, currentOutcome := 0);
        var k := t.currentAlternative;
        if 0 <= k < |t.soa| then t.(soa := t.soa[k := t.soa[k].(probabilities := [], utilities := [])])
        else t
      else s.(currentStep := step)
  }

  /** `goBack` as written: landing on step 2 it pops `soa` and also decrements `currentAlternative`. */
  function BackAsWritten(s: WizardState): WizardState
  {
    if s.currentStep == 3 && !Finished(s) then
      s.(currentStep := 2, currentAlternative := s.currentAlternative - 1, soa := Pop(s.soa))
    else Back(s)
  }

  // ---------------------------------------------------------------- calculateExpectedUtility, findBestAlternative

  /** `calculateExpectedUtility`: the map that writes each alternative's `expectedUtility`. */
  method CalculateExpectedUtility(soa: seq<Alternative>, hasProbabilities: bool) returns (scored: seq<Alternative>)
    requires forall k :: 0 <= k < |soa| ==> Scorable(soa[k], hasProbabilities)
    ensures |scored| == |soa|
    ensures forall k :: 0 <= k < |soa| ==>
      scored[k] == soa[k].(expectedUtility := ExpectedUtility(soa[k], hasProbabilities))
  {
    scored := soa;
    var i := 0;
    while i < |scored|
      invariant 0 <= i <= |scored| == |soa|
      invariant forall k :: 0 <= k < i ==>
        scored[k] == soa[k].(expectedUtility := ExpectedUtility(soa[k], hasProbabilities))
      invariant forall k :: i <= k < |soa| ==> scored[k] == soa[k]
    {
      var alt := scored[i];
      if hasProbabilities {
        alt := alt.(expectedUtility := Dot(alt.probabilities, alt.utilities));
      } else {
        alt := alt.(expectedUtility := Sum(alt.utilities) / (|alt.utilities| as real));
      }
      scored := scored[i := alt];
      i := i + 1;
    }
  }

  /** `findBestAlternative`: the reduce with strict `>`; on an empty `soa` reduce throws (None). */
  function FindBestAlternative(soa: seq<Alternative>): (r: Option<Alternative>)
    ensures r.None? <==> soa == []
    ensures r.Some? ==> exists k :: 0 <= k < |soa| && soa[k] == r.value && IsFirstMax(Scores(soa), k)
  {
    if soa == [] then None else Some(soa[FirstMax(Scores(soa))])
  }

  /** The scores the reduce compares, one per alternative in order. */
  function Scores(soa: seq<Alternative>): seq<real>
  {
    seq(|soa|, k requires 0 <= k < |soa| => soa[k].expectedUtility)
  }

  // ---------------------------------------------------------------- the page's variables

  class Wizard {
    var soa: seq<Alternative>
    var hasProbabilities: bool
    var currentStep: int
    var numAlternatives: Option<int>
    var currentAlternative: int
    var currentOutcome: int

    function State(): WizardState
      reads this
    {
      WizardState(soa, hasProbabilities, currentStep, numAlternatives, currentAlternative, currentOutcome)
    }

    predicate Valid()
      reads this
    {
      Inv(State())
    }

    constructor ()
      ensures Valid() && State() == Initial
    {
      soa := [];
      hasProbabilities := false;
      currentStep := 0;
      numAlternatives := Some(0);
      currentAlternative := 0;
      currentOutcome := 0;
    }

    method ProcessAnswer(input: Input)
      requires Valid()
      modifies this
      ensures Valid() && State() == Answer(old(State()), input)
    {
      AnswerKeepsInvariant(State(), input);
      if Finished(State()) {
        return;
      }
      if currentStep == 0 {
        numAlternatives := input.asInt;
        if numAlternatives.None? || numAlternatives.value <= 0 {
          return;
        }
        currentStep := currentStep + 1;
      } else if currentStep == 1 {
        hasProbabilities := IsYes(input.text);
        currentStep := currentStep + 1;
      } else if currentStep == 2 {
        if IsBlank(input.text) {
          return;
        }
        soa := soa + [Alternative(input.text, [], [], 0, 0.0)];
        currentStep := currentStep + 1;
      } else if currentStep == 3 {
        var numOutcomes := input.asInt;
        if numOutcomes.None? || numOutcomes.value <= 0 {
          return;
        }
        soa := soa[currentAlternative := soa[currentAlternative].(numOutcomes := numOutcomes.value)];
        currentStep := currentStep + 1;
      } else {
        ProcessOutcome(input);
      }
    }

    /** The outcome block of `processAnswer`, run at step 4 before the results page is shown. */
    method ProcessOutcome(input: Input)
      requires Inv(State()) && currentStep == 4 && !Finished(State())
      modifies this
      ensures State() == OutcomePair(old(State()), input, input)
    {
      ghost var s := State();
      if hasProbabilities {
        var prob := input.asFloat;
        if prob.None? || !IsProbability(prob.value) {
          return;
        }
        var k := currentAlternative;
        ghost var before := soa;
        soa := soa[k := soa[k].(probabilities := soa[k].probabilities + [prob.value])];
        if currentOutcome == soa[k].numOutcomes - 1 {
          var sumProb := Sum(soa[k].probabilities);
          if Abs(sumProb - 1.0) > SumTolerance {
            var ps := soa[k].probabilities;
            soa := soa[k := soa[k].(probabilities := ps[..|ps| - 1])];
            assert soa[k] == before[k];
            assert soa == before;
            return;
          }
        }
      }
      OutcomeReady(s, input, input);
      ProcessUtility(input);
    }

    method ProcessUtility(input: Input)
      requires UtilityReady(State())
      modifies this
      ensures State() == RecordUtility(old(State()), input)
    {
      var util := input.asFloat;
      if util.None? {
        return;
      }
      ghost var s := State();
      var k := currentAlternative;
      soa := soa[k := soa[k].(utilities := soa[k].utilities + [util.value])];
      currentOutcome := currentOutcome + 1;
      if currentOutcome < soa[k].numOutcomes {
        return;
      }
      currentOutcome := 0;
      currentAlternative := currentAlternative + 1;
      if numAlternatives.Some? && currentAlternative < numAlternatives.value {
        currentStep := 2;
      } else {
        ReadyAlternativesScorable(s, util.value);
        soa := CalculateExpectedUtility(soa, hasProbabilities);
      }
    }

    method GoBack()
      requires Valid()
      modifies this
      ensures Valid() && State() == Back(old(State()))
    {
      BackKeepsInvariant(State());
      if currentStep > 0 && !Finished(State()) {
        currentStep := currentStep - 1;
        if currentStep == 1 {
          hasProbabilities := false;
        } else if currentStep == 2 {
          soa := Pop(soa);
        } else if currentStep == 3 || currentStep == 4 {
          currentOutcome := 0;
          if 0 <= currentAlternative < |soa| {
            soa := soa[currentAlternative := soa[currentAlternative].(probabilities := [], utilities := [])];
          }
        }
      }
    }
  }

  // ---------------------------------------------------------------- properties

  lemma InitialIsValid()
    ensures Inv(Initial)
  {
  }

  /** When step 4 accepts the probability, `processUtility` is called in a ready state. */
  lemma OutcomeReady(s: WizardState, prob: Input, util: Input)
    requires Inv(s) && s.currentStep == 4 && !Finished(s)
    requires s.hasProbabilities ==> prob.asFloat.Some? && OutcomeAccepted(s, prob.asFloat.value)
    ensures var k := s.currentAlternative;
      var r := if s.hasProbabilities
               then s.(soa := s.soa[k := s.soa[k].(probabilities := s.soa[k].probabilities + [prob.asFloat.value])])
               else s;
      UtilityReady(r) && OutcomePair(s, prob, util) == RecordUtility(r, util)
  {
  }

  /** Every answer keeps the wizard among its reachable states. */
  lemma AnswerKeepsInvariant(s: WizardState, input: Input)
    requires Inv(s)
    ensures Inv(Answer(s, input))
  {
    if !Finished(s) && s.currentStep == 4 {
      var k := s.currentAlternative;
      var a := s.soa[k];
      if s.hasProbabilities {
        var p := input.asFloat;
        if p.Some? && IsProbability(p.value) {
          var ps := a.probabilities + [p.value];
          if !(s.currentOutcome == a.numOutcomes - 1 && !SumAccepted(ps)) {
            var s' := s.(soa := s.soa[k := a.(probabilities := ps)]);
            assert UtilityReady(s');
            RecordUtilityKeepsInvariant(s', input);
          }
        }
      } else {
        RecordUtilityKeepsInvariant(s, input);
      }
    }
  }

  lemma RecordUtilityKeepsInvariant(s: WizardState, input: Input)
    requires UtilityReady(s)
    requires s.hasProbabilities ==> input.asFloat.Some?
    ensures Inv(RecordUtility(s, input))
  {
    if input.asFloat.Some? {
      var k := s.currentAlternative;
      var u := input.asFloat.value;
      var a := s.soa[k].(utilities := s.soa[k].utilities + [u]);
      if s.currentOutcome + 1 >= a.numOutcomes {
        ReadyAlternativesScorable(s, u);
      }
    }
  }

  /** Every press of "back" keeps the wizard among its reachable states. */
  lemma BackKeepsInvariant(s: WizardState)
    requires Inv(s)
    ensures Inv(Back(s))
  {
  }

  /** Step 0: a count that is NaN or not positive is stored but leaves the wizard at step 0. */
  lemma CountEntryOutcome(s: WizardState, input: Input)
    requires Inv(s) && s.currentStep == 0
    ensures var t := Answer(s, input);
      && t.numAlternatives == input.asInt
      && (t.currentStep == 1 <==> input.asInt.Some? && input.asInt.value > 0)
      && (t.currentStep == 0 <==> !(input.asInt.Some? && input.asInt.value > 0))
      && t.soa == s.soa && t.hasProbabilities == s.hasProbabilities
      && t.currentAlternative == s.currentAlternative && t.currentOutcome == s.currentOutcome
  {
  }

  /** Step 1 always advances, and probabilities are known exactly when the answer is "s" or "S". */
  lemma ProbabilityFlagOutcome(s: WizardState, input: Input)
    requires Inv(s) && s.currentStep == 1
    ensures var t := Answer(s, input);
      && t.currentStep == 2
      && (t.hasProbabilities <==> IsYes(input.text))
      && t.soa == s.soa && t.numAlternatives == s.numAlternatives
  {
  }

  /** Step 2: a blank name changes nothing; otherwise exactly one empty alternative is appended. */
  lemma NameEntryOutcome(s: WizardState, input: Input)
    requires Inv(s) && s.currentStep == 2
    ensures IsBlank(input.text) ==> Answer(s, input) == s
    ensures !IsBlank(input.text) ==>
      var t := Answer(s, input);
      && t.soa == s.soa + [Alternative(input.text, [], [], 0, 0.0)]
      && t.currentStep == 3
      && t.currentAlternative == s.currentAlternative && t.hasProbabilities == s.hasProbabilities
  {
  }

  /** Step 3: a bad count changes nothing; a good one is stored and nothing else in `soa` changes. */
  lemma OutcomeCountOutcome(s: WizardState, input: Input)
    requires Inv(s) && s.currentStep == 3
    ensures !(input.asInt.Some? && input.asInt.value > 0) ==> Answer(s, input) == s
    ensures input.asInt.Some? && input.asInt.value > 0 ==>
      var t := Answer(s, input);
      var k := s.currentAlternative;
      && t.currentStep == 4
      && |t.soa| == |s.soa|
      && t.soa[k] == s.soa[k].(numOutcomes := input.asInt.value)
      && (forall j :: 0 <= j < |s.soa| && j != k ==> t.soa[j] == s.soa[j])
      && t.currentOutcome == 0 && t.currentAlternative == k
  {
  }

  /** Step 4 with probabilities: a value outside [0, 1] (or NaN) appends nothing. */
  lemma ProbabilityOutOfRangeRefused(s: WizardState, input: Input)
    requires Inv(s) && s.currentStep == 4 && !Finished(s) && s.hasProbabilities
    requires input.asFloat.None? || !IsProbability(input.asFloat.value)
    ensures Answer(s, input) == s
  {
  }

  /**
   * Step 4 with probabilities, last outcome: when the sum would be further than 0.001
   * from 1, the value pushed is popped again and the state is exactly as before.
   */
  lemma ProbabilitySumRollback(s: WizardState, input: Input)
    requires Inv(s) && s.currentStep == 4 && !Finished(s) && s.hasProbabilities
    requires input.asFloat.Some? && IsProbability(input.asFloat.value)
    requires var a := s.soa[s.currentAlternative];
      s.currentOutcome == a.numOutcomes - 1 && !SumAccepted(a.probabilities + [input.asFloat.value])
    ensures Answer(s, input) == s
  {
  }

  /** Step 4 without probabilities: a NaN utility is refused. */
  lemma UtilityNaNRefused(s: WizardState, input: Input)
    requires Inv(s) && s.currentStep == 4 && !Finished(s) && !s.hasProbabilities
    requires input.asFloat.None?
    ensures Answer(s, input) == s
  {
  }

  /** The conditions under which step 4 accepts the typed value `u`. */
  predicate OutcomeAccepted(s: WizardState, u: real)
    requires Inv(s) && s.currentStep == 4 && !Finished(s)
  {
    var a := s.soa[s.currentAlternative];
    s.hasProbabilities ==>
      IsProbability(u) && (s.currentOutcome == a.numOutcomes - 1 ==> SumAccepted(a.probabilities + [u]))
  }

  /**
   * `processUtility` after an accepted value: one utility is appended and the outcome
   * counter advances; after the last outcome the counter returns to 0 and
   * `currentAlternative` advances, the wizard goes back to step 2 while alternatives
   * remain, and otherwise finishes with every expected utility set.
   */
  lemma UtilityAccepted(s: WizardState, input: Input)
    requires Inv(s) && s.currentStep == 4 && !Finished(s)
    requires input.asFloat.Some? && OutcomeAccepted(s, input.asFloat.value)
    ensures var t := Answer(s, input);
      var k := s.currentAlternative;
      var a := s.soa[k];
      var u := input.asFloat.value;
      && |t.soa| == |s.soa|
      && t.soa[k].utilities == a.utilities + [u]
      && t.soa[k].probabilities == (if s.hasProbabilities then a.probabilities + [u] else a.probabilities)
      && t.soa[k].name == a.name && t.soa[k].numOutcomes == a.numOutcomes
      && (forall j :: 0 <= j < k ==>
            t.soa[j].name == s.soa[j].name && t.soa[j].probabilities == s.soa[j].probabilities
            && t.soa[j].utilities == s.soa[j].utilities)
      && (s.currentOutcome + 1 < a.numOutcomes ==>
            t.currentStep == 4 && t.currentOutcome == s.currentOutcome + 1 && t.currentAlternative == k)
      && (s.currentOutcome + 1 == a.numOutcomes ==>
            && t.currentOutcome == 0 && t.currentAlternative == k + 1
            && (k + 1 < s.numAlternatives.value ==> t.currentStep == 2)
            && (k + 1 >= s.numAlternatives.value ==>
                  Finished(t) &&
                  forall j :: 0 <= j < |t.soa| ==> t.soa[j].expectedUtility == ExpectedUtility(t.soa[j], t.hasProbabilities)))
  {
    AnswerKeepsInvariant(s, input);
  }

  /**
   * With probabilities, step 4 reads one typed value and stores it both as the outcome's
   * probability and as its utility: the two last entries are always equal.
   */
  lemma StepFourFeedsOneValueToBoth(s: WizardState, input: Input)
    requires Inv(s) && s.currentStep == 4 && !Finished(s) && s.hasProbabilities
    requires input.asFloat.Some? && OutcomeAccepted(s, input.asFloat.value)
    ensures var t := Answer(s, input).soa[s.currentAlternative];
      |t.probabilities| == |t.utilities| > 0
      && t.probabilities[|t.probabilities| - 1] == t.utilities[|t.utilities| - 1] == input.asFloat.value
  {
    UtilityAccepted(s, input);
  }

  /**
   * The step the utility prompt is missing for: with the probability and the utility read
   * from two answers, an accepted probability and a numeric utility are stored each in its
   * own list, and nothing else of the alternative changes.
   */
  lemma SeparateUtilityAnswer(s: WizardState, prob: Input, util: Input)
    requires Inv(s) && s.currentStep == 4 && !Finished(s) && s.hasProbabilities
    requires prob.asFloat.Some? && OutcomeAccepted(s, prob.asFloat.value) && util.asFloat.Some?
    ensures var k := s.currentAlternative;
      var a := s.soa[k];
      var t := OutcomePair(s, prob, util);
      && |t.soa| == |s.soa|
      && t.soa[k].probabilities == a.probabilities + [prob.asFloat.value]
      && t.soa[k].utilities == a.utilities + [util.asFloat.value]
      && t.soa[k].name == a.name && t.soa[k].numOutcomes == a.numOutcomes
  {
  }

  /** `goBack` at step 0 does nothing. */
  lemma BackAtStart(s: WizardState)
    requires s.currentStep == 0
    ensures Back(s) == s
  {
  }

  /** Landing on step 1 resets `hasProbabilities`; `soa` is kept. */
  lemma BackToProbabilityFlag(s: WizardState)
    requires Inv(s) && s.currentStep == 2
    ensures Back(s) == s.(currentStep := 1, hasProbabilities := false)
  {
  }

  /** Landing on step 2 drops the alternative just named and keeps its index for the new name. */
  lemma BackToName(s: WizardState)
    requires Inv(s) && s.currentStep == 3
    ensures var t := Back(s);
      && t.currentStep == 2
      && t.soa == s.soa[..|s.soa| - 1]
      && t.currentAlternative == s.currentAlternative == |t.soa|
  {
  }

  /** Landing on step 3 clears the current alternative's outcomes and restarts the outcome counter. */
  lemma BackToOutcomeCount(s: WizardState)
    requires Inv(s) && s.currentStep == 4 && !Finished(s)
    ensures var t := Back(s);
      var k := s.currentAlternative;
      && t.currentStep == 3 && t.currentOutcome == 0
      && |t.soa| == |s.soa|
      && t.soa[k] == s.soa[k].(probabilities := [], utilities := [])
      && (forall j :: 0 <= j < |s.soa| && j != k ==> t.soa[j] == s.soa[j])
  {
  }

  /** Setting the expected utilities keeps order, length, names and outcome arrays, and doing it twice changes nothing more. */
  lemma ScoredKeepsEntries(soa: seq<Alternative>, hasProbabilities: bool)
    requires forall k :: 0 <= k < |soa| ==> Scorable(soa[k], hasProbabilities)
    ensures var r := Scored(soa, hasProbabilities);
      && |r| == |soa|
      && (forall k :: 0 <= k < |soa| ==>
            r[k].name == soa[k].name && r[k].probabilities == soa[k].probabilities
            && r[k].utilities == soa[k].utilities && r[k].numOutcomes == soa[k].numOutcomes)
      && (forall k :: 0 <= k < |soa| ==> Scorable(r[k], hasProbabilities))
      && Scored(r, hasProbabilities) == r
  {
  }

  /**
   * When the results are shown, every alternative has all its outcomes, its probabilities
   * (if entered) lie in [0, 1] and sum to within 0.001 of 1, and its expected utility is
   * the dot product or, without probabilities, the mean utility.
   */
  lemma FinishedAlternativesAreSound(s: WizardState)
    requires Inv(s) && Finished(s)
    ensures forall k :: 0 <= k < |s.soa| ==>
      var a := s.soa[k];
      && 1 <= a.numOutcomes == |a.utilities|
      && (a.probabilities != [] ==>
            |a.probabilities| == |a.utilities| && AllProbabilities(a.probabilities)
            && Abs(Sum(a.probabilities) - 1.0) <= 0.001)
      && a.expectedUtility == (if s.hasProbabilities then Dot(a.probabilities, a.utilities) else Mean(a.utilities))
  {
  }

  // ---------------------------------------------------------------- findings

  /** As written, an answer at step 4 never changes anything: the wizard cannot record an outcome. */
  lemma AsWrittenStepFourIgnoresAnswers(s: WizardState, input: Input)
    requires s.currentStep == 4
    ensures AnswerAsWritten(s, input) == s
  {
  }

  // Typed answers used by the scenarios below.
  const TypedOne: Input := Input("1", Some(1), Some(1.0))
  const TypedTwo: Input := Input("2", Some(2), Some(2.0))
  const TypedThree: Input := Input("3", Some(3), Some(3.0))
  const TypedFive: Input := Input("5", Some(5), Some(5.0))
  const TypedS: Input := Input("s", None, None)
  const TypedN: Input := Input("n", None, None)
  const TypedA: Input := Input("A", None, None)
  const TypedB: Input := Input("B", None, None)

  /** One alternative "A" with two outcomes, no probabilities, waiting for its first outcome. */
  const AwaitingOutcomes: WizardState := WizardState([Alternative("A", [], [], 2, 0.0)], false, 4, Some(1), 0, 0)

  /**
   * "1", "n", "A", "2" bring the wizard as written to step 4, where it then stays
   * whatever is typed: the analysis can never finish.
   */
  lemma MissingStepFourScenario()
    ensures AnswerAsWritten(AnswerAsWritten(AnswerAsWritten(AnswerAsWritten(Initial,
              TypedOne), TypedN), TypedA), TypedTwo) == AwaitingOutcomes
    ensures Inv(AwaitingOutcomes) && !Finished(AwaitingOutcomes)
    ensures AnswerAsWritten(AwaitingOutcomes, TypedThree) == AwaitingOutcomes
  {
    var s1 := AnswerAsWritten(Initial, TypedOne);
    assert s1 == WizardState([], false, 1, Some(1), 0, 0);
    var s2 := AnswerAsWritten(s1, TypedN);
    assert !IsYes("n");
    assert s2 == WizardState([], false, 2, Some(1), 0, 0);
    var s3 := AnswerAsWritten(s2, TypedA);
    assert !IsBlank("A");
    assert s3 == WizardState([Alternative("A", [], [], 0, 0.0)], false, 3, Some(1), 0, 0);
  }

  /** With the step-4 branch, the utilities 3 and 5 finish the same session with expected utility 4. */
  lemma StepFourScenario()
    ensures Inv(AwaitingOutcomes) && !Finished(AwaitingOutcomes)
    ensures var t := Answer(AwaitingOutcomes, TypedThree);
      && t == WizardState([Alternative("A", [], [3.0], 2, 0.0)], false, 4, Some(1), 0, 1)
      && Inv(t)
      && Answer(t, TypedFive) == WizardState([Alternative("A", [], [3.0, 5.0], 2, 4.0)], false, 4, Some(1), 1, 0)
      && Finished(Answer(t, TypedFive))
  {
    assert !IsBlank("A");
    assert Inv(AwaitingOutcomes) && UtilityReady(AwaitingOutcomes);
    var first := Alternative("A", [], [3.0], 2, 0.0);
    assert AwaitingOutcomes.soa[0 := first] == [first];
    assert AwaitingOutcomes.soa[0].(utilities := AwaitingOutcomes.soa[0].utilities + [3.0]) == first;
    var t := WizardState([first], false, 4, Some(1), 0, 1);
    assert RecordUtility(AwaitingOutcomes, TypedThree) == t;
    assert Inv(t) && UtilityReady(t);
    var done := Alternative("A", [], [3.0, 5.0], 2, 0.0);
    assert t.soa[0 := done] == [done];
    assert t.soa[0].(utilities := t.soa[0].utilities + [5.0]) == done;
    assert [3.0, 5.0][..1] == [3.0];
    assert Mean([3.0, 5.0]) == 4.0;
    assert Scored([done], false) == [done.(expectedUtility := 4.0)];
    assert RecordUtility(t, TypedFive) == WizardState([done.(expectedUtility := 4.0)], false, 4, Some(1), 1, 0);
  }

  /** "1", "s", "A": the wizard waits at step 3 for the outcome count of "A". */
  const AwaitingCount: WizardState := WizardState([Alternative("A", [], [], 0, 0.0)], true, 3, Some(1), 0, 0)

  /** "1", "s", "A" lead to `AwaitingCount`. */
  lemma NamedFirstAlternative()
    ensures AnswerAsWritten(AnswerAsWritten(AnswerAsWritten(Initial, TypedOne), TypedS), TypedA) == AwaitingCount
    ensures Inv(AwaitingCount)
  {
    var s1 := AnswerAsWritten(Initial, TypedOne);
    assert s1 == WizardState([], false, 1, Some(1), 0, 0);
    var s2 := AnswerAsWritten(s1, TypedS);
    assert IsYes("s");
    assert s2 == WizardState([], true, 2, Some(1), 0, 0);
    assert !IsBlank("A");
  }

  /**
   * From `AwaitingCount`, back and "B": as written `currentAlternative` becomes -1, a state
   * outside the reachable ones, and the count "2" then writes to `soa[-1]`, which does not
   * exist, so the wizard can never leave step 3.
   */
  lemma BackDecrementScenario()
    ensures BackAsWritten(AwaitingCount) == WizardState([], true, 2, Some(1), -1, 0)
    ensures var w := AnswerAsWritten(BackAsWritten(AwaitingCount), TypedB);
      && w == WizardState([Alternative("B", [], [], 0, 0.0)], true, 3, Some(1), -1, 0)
      && !Inv(w)
      && AnswerAsWritten(w, TypedTwo) == w
  {
    assert !IsBlank("B");
  }

  /** With `Back`, the same presses store the count in alternative "B" and move to step 4. */
  lemma BackScenario()
    ensures Inv(AwaitingCount) && Back(AwaitingCount) == WizardState([], true, 2, Some(1), 0, 0)
    ensures var c := Answer(Back(AwaitingCount), TypedB);
      && c == WizardState([Alternative("B", [], [], 0, 0.0)], true, 3, Some(1), 0, 0)
      && Inv(c)
      && Answer(c, TypedTwo) == WizardState([Alternative("B", [], [], 2, 0.0)], true, 4, Some(1), 0, 0)
  {
    assert !IsBlank("A") && !IsBlank("B");
    var c := WizardState([Alternative("B", [], [], 0, 0.0)], true, 3, Some(1), 0, 0);
    assert Answer(Back(AwaitingCount), TypedB) == c;
    assert Inv(c);
  }

  /** "1", "s", "A", "2": one alternative "A" with two outcomes and probabilities, waiting for its first outcome. */
  const AwaitingRisk: WizardState := WizardState([Alternative("A", [], [], 2, 0.0)], true, 4, Some(1), 0, 0)

  const TypedPoint4: Input := Input("0.4", Some(0), Some(0.4))
  const TypedPoint6: Input := Input("0.6", Some(0), Some(0.6))
  const TypedTen: Input := Input("10", Some(10), Some(10.0))
  const TypedTwenty: Input := Input("20", Some(20), Some(20.0))

  /** At `AwaitingRisk`, the probability 0.4 with any numeric utility answer records the first outcome. */
  lemma RiskFirstOutcome(util: Input)
    requires util.asFloat.Some?
    ensures Inv(AwaitingRisk) && !Finished(AwaitingRisk)
    ensures OutcomePair(AwaitingRisk, TypedPoint4, util)
         == WizardState([Alternative("A", [0.4], [util.asFloat.value], 2, 0.0)], true, 4, Some(1), 0, 1)
  {
    assert !IsBlank("A");
    OutcomeReady(AwaitingRisk, TypedPoint4, util);
    var s1 := AwaitingRisk.(soa := [Alternative("A", [0.4], [], 2, 0.0)]);
    assert [] + [0.4] == [0.4];
    assert AwaitingRisk.(soa := AwaitingRisk.soa[0 := AwaitingRisk.soa[0].(probabilities := [] + [0.4])]) == s1;
    var first := Alternative("A", [0.4], [util.asFloat.value], 2, 0.0);
    assert s1.soa[0].(utilities := s1.soa[0].utilities + [util.asFloat.value]) == first;
    assert s1.soa[0 := first] == [first];
  }

  /** After the first outcome, the probability 0.6 with a numeric utility answer finishes the analysis. */
  lemma RiskSecondOutcome(u: real, util: Input)
    requires util.asFloat.Some?
    ensures var t := WizardState([Alternative("A", [0.4], [u], 2, 0.0)], true, 4, Some(1), 0, 1);
      && Inv(t) && !Finished(t)
      && OutcomePair(t, TypedPoint6, util)
           == WizardState([Alternative("A", [0.4, 0.6], [u, util.asFloat.value], 2, 0.4 * u + 0.6 * util.asFloat.value)],
                          true, 4, Some(1), 1, 0)
  {
    assert !IsBlank("A");
    var t := WizardState([Alternative("A", [0.4], [u], 2, 0.0)], true, 4, Some(1), 0, 1);
    assert [0.4, 0.6][..1] == [0.4];
    assert Sum([0.4, 0.6]) == 1.0;
    assert Inv(t);
    OutcomeReady(t, TypedPoint6, util);
    var v := util.asFloat.value;
    var s2 := t.(soa := [Alternative("A", [0.4, 0.6], [u], 2, 0.0)]);
    assert [0.4] + [0.6] == [0.4, 0.6];
    assert t.(soa := t.soa[0 := t.soa[0].(probabilities := t.soa[0].probabilities + [0.6])]) == s2;
    var done := Alternative("A", [0.4, 0.6], [u, v], 2, 0.0);
    assert s2.soa[0].(utilities := s2.soa[0].utilities + [v]) == done;
    assert s2.soa[0 := done] == [done];
    assert [u, v][..1] == [u];
    assert [0.4][..0] == [];
    assert Dot([0.4], [u, v]) == 0.4 * u;
    assert Dot([0.4, 0.6], [u, v]) == 0.4 * u + 0.6 * v;
    assert Scored([done], true) == [done.(expectedUtility := 0.4 * u + 0.6 * v)];
  }

  /**
   * From `AwaitingRisk`, the answers "0.4" and "0.6" finish the analysis as written: each
   * is stored as probability and as utility, so the score is 0.4 * 0.4 + 0.6 * 0.6 = 0.52.
   */
  lemma OneValueScenario()
    ensures Answer(AwaitingCount, TypedTwo) == AwaitingRisk
    ensures Inv(AwaitingRisk) && !Finished(AwaitingRisk)
    ensures var t := Answer(AwaitingRisk, TypedPoint4);
      && t == WizardState([Alternative("A", [0.4], [0.4], 2, 0.0)], true, 4, Some(1), 0, 1)
      && Inv(t)
      && Answer(t, TypedPoint6) == WizardState([Alternative("A", [0.4, 0.6], [0.4, 0.6], 2, 0.52)], true, 4, Some(1), 1, 0)
  {
    assert !IsBlank("A");
    RiskFirstOutcome(TypedPoint4);
    RiskSecondOutcome(0.4, TypedPoint6);
  }

  /**
   * With the probability and the utility read from separate answers, "0.4", "10", "0.6",
   * "20" finish the same alternative with the score 0.4 * 10 + 0.6 * 20 = 16.
   */
  lemma TwoAnswerScenario()
    ensures Inv(AwaitingRisk) && !Finished(AwaitingRisk)
    ensures var t := OutcomePair(AwaitingRisk, TypedPoint4, TypedTen);
      && t == WizardState([Alternative("A", [0.4], [10.0], 2, 0.0)], true, 4, Some(1), 0, 1)
      && Inv(t)
      && OutcomePair(t, TypedPoint6, TypedTwenty)
           == WizardState([Alternative("A", [0.4, 0.6], [10.0, 20.0], 2, 16.0)], true, 4, Some(1), 1, 0)
  {
    RiskFirstOutcome(TypedTen);
    RiskSecondOutcome(10.0, TypedTwenty);
  }

  /**
   * Two outcomes with probabilities 0.5 and 0.3: the sum 0.8 is refused on the last
   * outcome and the state stays as it was after the first outcome.
   */
  lemma SumErrorScenario()
    ensures var s := WizardState([Alternative("A", [0.5], [0.5], 2, 0.0)], true, 4, Some(1), 0, 1);
      Inv(s) && Answer(s, Input("0.3", Some(0), Some(0.3))) == s
  {
    assert !IsBlank("A");
    assert [0.5, 0.3][..1] == [0.5];
    assert Sum([0.5]) == 0.5;
    assert Sum([0.5, 0.3]) == 0.8;
    var s := WizardState([Alternative("A", [0.5], [0.5], 2, 0.0)], true, 4, Some(1), 0, 1);
    assert Inv(s);
  }
}
