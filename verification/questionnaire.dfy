/**
 * The five-question intake stepper. Its state is the index of the question on
 * screen and the answers recorded so far, keyed by question id; choosing an
 * option records it and moves forward, or, on the last question, hands the
 * answers to the completion callback.
 */
module Questionnaire {
  import opened Wrappers

  /** The ids the questions carry: 1 to 5. */
  type QuestionId = x: int | 1 <= x <= 5 witness 1

  /** The answers record, question id to chosen option. */
  type Answers = map<QuestionId, string>

  datatype Question = Question(id: QuestionId, question: string, options: seq<string>)

  /** `QUESTIONS`, in display order. */
  const Questions: seq<Question> := [
    Question(1, "Você já possui um site?",
      ["Sim, quero melhorar", "Não, quero um do zero", "Tenho um, mas está desativado"]),
    Question(2, "Qual o objetivo principal do seu novo site?",
      ["Vendas Diretas", "Autoridade e Credibilidade", "Portfólio de Projetos", "Institucional / Informativo", "Outros"]),
    Question(3, "Você já tem uma identidade visual (logo, cores)?",
      ["Sim, completa", "Apenas a logo", "Não, preciso criar tudo do zero"]),
    Question(4, "Qual o seu prazo para o lançamento?",
      ["O mais rápido possível", "15 a 30 dias", "Mais de 30 dias", "Estou apenas pesquisando"]),
    Question(5, "Qual a maior dor que você sente hoje no seu negócio digital?",
      ["Pouca visibilidade", "Site atual é lento/antigo", "Não consigo passar confiança", "Dificuldade em captar leads", "Nenhuma das anteriores"])
  ]

  /** The question at index `i` carries id `i + 1`. */
  lemma QuestionIdsFollowIndex(i: int)
    requires 0 <= i < |Questions|
    ensures |Questions| == 5 && Questions[i].id == i + 1
  {
  }

  /** `option` is one of the buttons drawn for question `id`. */
  predicate Offers(id: QuestionId, option: string) {
    option in Questions[id - 1].options
  }

  /** Every question has an answer. */
  predicate AllAnswered(m: Answers) {
    forall id: QuestionId :: id in m
  }

  /** Every question answered, each with one of its own options. */
  predicate Complete(m: Answers) {
    AllAnswered(m) && forall id :: id in m ==> Offers(id, m[id])
  }

  datatype StepperState = StepperState(currentStep: int, answers: Answers)

  /** The state a freshly mounted questionnaire starts in. */
  const Start := StepperState(0, map[])

  /**
   * What the stepper keeps true: the index stays on a question, every
   * recorded answer is an option of its question, and every question before
   * the current one has been answered.
   */
  predicate Valid(s: StepperState) {
    && 0 <= s.currentStep < |Questions|
    && (forall id :: id in s.answers ==> Offers(id, s.answers[id]))
    && (forall id: QuestionId :: id <= s.currentStep ==> id in s.answers)
  }

  /** The stepper starts valid: on the first question, with nothing to have answered yet. */
  lemma StartValid()
    ensures Valid(Start)
  {
  }

  /**
   * `handleOptionSelect(option)`: records `option` under the current
   * question's id and either advances or, on the last question, yields the
   * updated answers for `onComplete`.
   */
  function SelectOption(s: StepperState, option: string): (r: (StepperState, Option<Answers>))
    requires 0 <= s.currentStep < |Questions|
    ensures 0 <= r.0.currentStep < |Questions|
    ensures var id := Questions[s.currentStep].id;
      && id in r.0.answers && r.0.answers[id] == option
      && (forall other :: other != id ==> (other in r.0.answers <==> other in s.answers))
      && (forall other :: other != id && other in s.answers ==> r.0.answers[other] == s.answers[other])
    ensures s.currentStep < |Questions| - 1 ==> r.0.currentStep == s.currentStep + 1 && r.1.None?
    ensures s.currentStep == |Questions| - 1 ==> r.0.currentStep == s.currentStep && r.1 == Some(r.0.answers)
  {
    var newAnswers := s.answers[Questions[s.currentStep].id := option];
    if s.currentStep < |Questions| - 1 then
      (StepperState(s.currentStep + 1, newAnswers), None)
    else
      (StepperState(s.currentStep, newAnswers), Some(newAnswers))
  }

  /** `handleBack()`: one question back, never below the first; answers are kept. */
  function GoBack(s: StepperState): (r: StepperState)
    requires 0 <= s.currentStep < |Questions|
    ensures 0 <= r.currentStep < |Questions|
    ensures r.answers == s.answers
    ensures s.currentStep > 0 ==> r.currentStep == s.currentStep - 1
    ensures s.currentStep == 0 ==> r == s
  {
    if s.currentStep > 0 then StepperState(s.currentStep - 1, s.answers) else s
  }

  /** Choosing an offered option keeps the stepper valid, and a completion carries every answer. */
  lemma SelectOptionKeepsValid(s: StepperState, option: string)
    requires Valid(s)
    requires Offers(Questions[s.currentStep].id, option)
    ensures Valid(SelectOption(s, option).0)
    ensures SelectOption(s, option).1.Some? ==> Complete(SelectOption(s, option).1.value)
  {
    var r := SelectOption(s, option);
    var id := Questions[s.currentStep].id;
    assert id == s.currentStep + 1;
    forall other: QuestionId | other <= r.0.currentStep ensures other in r.0.answers {
      if other != id { assert other <= s.currentStep; }
    }
    if r.1.Some? {
      forall other: QuestionId ensures other in r.1.value {
        if other != id { assert other <= s.currentStep; }
      }
    }
  }

  /** Going back keeps the stepper valid. */
  lemma GoBackKeepsValid(s: StepperState)
    requires Valid(s)
    ensures Valid(GoBack(s))
  {
  }

  // ---------------------------------------------------------------------------
  // Sequences of clicks
  // ---------------------------------------------------------------------------

  /** A click on the questionnaire: an option button, or the back arrow. */
  datatype Input = Choose(option: string) | Back

  /** The clicks of `inputs`, from `s`, each only ever choosing an option drawn for the question on screen. */
  predicate Admissible(s: StepperState, inputs: seq<Input>)
    requires 0 <= s.currentStep < |Questions|
    decreases |inputs|
  {
    inputs != [] ==>
      match inputs[0]
      case Choose(option) =>
        Offers(Questions[s.currentStep].id, option) && Admissible(SelectOption(s, option).0, inputs[1..])
      case Back =>
        Admissible(GoBack(s), inputs[1..])
  }

  /** The state after `inputs`, and every answers record handed to `onComplete` on the way, in order. */
  function Run(s: StepperState, inputs: seq<Input>): (r: (StepperState, seq<Answers>))
    requires 0 <= s.currentStep < |Questions|
    ensures 0 <= r.0.currentStep < |Questions|
    decreases |inputs|
  {
    if inputs == [] then (s, [])
    else
      match inputs[0]
      case Choose(option) =>
        var (next, done) := SelectOption(s, option);
        var (last, later) := Run(next, inputs[1..]);
        (last, (if done.Some? then [done.value] else []) + later)
      case Back =>
        Run(GoBack(s), inputs[1..])
  }

  /** How many option buttons `inputs` clicks. */
  function Chooses(inputs: seq<Input>): nat {
    if inputs == [] then 0 else (if inputs[0].Choose? then 1 else 0) + Chooses(inputs[1..])
  }

  /**
   * Any run of offered clicks keeps the stepper valid, and every record it
   * hands to `onComplete` answers all five questions with their own options.
   */
  lemma {:induction false} RunKeepsValid(s: StepperState, inputs: seq<Input>)
    requires Valid(s)
    requires Admissible(s, inputs)
    ensures Valid(Run(s, inputs).0)
    ensures forall i :: 0 <= i < |Run(s, inputs).1| ==> Complete(Run(s, inputs).1[i])
    decreases |inputs|
  {
    if inputs != [] {
      match inputs[0]
      case Choose(option) =>
        SelectOptionKeepsValid(s, option);
        RunKeepsValid(SelectOption(s, option).0, inputs[1..]);
      case Back =>
        GoBackKeepsValid(s);
        RunKeepsValid(GoBack(s), inputs[1..]);
    }
  }

  /**
   * No question can be skipped: each click moves at most one question
   * forward, so the index never runs ahead of the number of options chosen,
   * and the first completion from the start needs at least five choices.
   */
  lemma {:induction false} StepBoundedByChoices(s: StepperState, inputs: seq<Input>)
    requires 0 <= s.currentStep < |Questions|
    ensures Run(s, inputs).0.currentStep <= s.currentStep + Chooses(inputs)
    ensures Run(s, inputs).1 != [] ==> s.currentStep + Chooses(inputs) >= |Questions|
    decreases |inputs|
  {
    if inputs != [] {
      match inputs[0]
      case Choose(option) =>
        StepBoundedByChoices(SelectOption(s, option).0, inputs[1..]);
      case Back =>
        StepBoundedByChoices(GoBack(s), inputs[1..]);
    }
  }

  /** The imperative component: `currentStep` and `answers` are its state. */
  class Stepper {
    var currentStep: int
    var answers: Answers

    function State(): StepperState
      reads this
    {
      StepperState(currentStep, answers)
    }

    constructor ()
      ensures State() == Start
    {
      currentStep := 0;
      answers := map[];
    }

    /** `handleOptionSelect`; the returned record is the argument of the `onComplete` call, if one is made. */
    method HandleOptionSelect(option: string) returns (completed: Option<Answers>)
      requires 0 <= currentStep < |Questions|
      modifies this
      ensures (State(), completed) == SelectOption(old(State()), option)
    {
      var newAnswers := answers[Questions[currentStep].id := option];
      answers := newAnswers;
      if currentStep < |Questions| - 1 {
        currentStep := currentStep + 1;
        completed := None;
      } else {
        completed := Some(newAnswers);
      }
    }

    /** `handleBack`. */
    method HandleBack()
      requires 0 <= currentStep < |Questions|
      modifies this
      ensures State() == GoBack(old(State()))
    {
      if currentStep > 0 {
        currentStep := currentStep - 1;
      }
    }

    /** The progress bar's width in percent, `(currentStep + 1) / QUESTIONS.length * 100`. */
    function Progress(): (p: int)
      reads this
      requires 0 <= currentStep < |Questions|
      ensures p == (currentStep + 1) * 20
      ensures 20 <= p <= 100
      ensures p == 100 <==> currentStep == |Questions| - 1
    {
      (currentStep + 1) * 100 / |Questions|
    }
  }
}
