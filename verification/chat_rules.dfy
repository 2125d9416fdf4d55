/**
 * The pure rules of the chatbot: the package recommendation drawn from the
 * questionnaire answers, the bullet summary of those answers, and the text and
 * link of the WhatsApp hand-off.
 */
module ChatRules {
  import opened Wrappers
  import opened Catalog
  import opened Questionnaire
  import Js

  // ---------------------------------------------------------------------------
  // Recommendation
  // ---------------------------------------------------------------------------

  /** `data[id]`: the answer recorded for `id`, or `undefined`. */
  function Get(m: Answers, id: QuestionId): Option<string> {
    if id in m then Some(m[id]) else None
  }

  const Objective: QuestionId := 2
  const Pain: QuestionId := 5

  /**
   * `suggestPackage(data)`: no suggestion without data; otherwise the first
   * rule that matches the objective (answer 2) or the biggest pain (answer 5),
   * falling back to the basic package.
   */
  function SuggestPackage(data: Option<Answers>): (r: Option<string>)
    ensures r.None? <==> data.None?
    ensures r.Some? ==> IsPackageName(r.value)
  {
    match data
    case None => None
    case Some(m) =>
      var objective := Get(m, Objective);
      var pain := Get(m, Pain);
      if pain == Some("Site atual é lento/antigo") || objective == Some("Vendas Diretas") then
        Some("Pacote React")
      else if objective == Some("Portfólio de Projetos") || objective == Some("Institucional / Informativo") then
        Some("Pacote Completo")
      else if objective == Some("Autoridade e Credibilidade") then
        Some("Pacote Profissional")
      else
        Some("Pacote Básico")
  }

  /** One row of the recommendation table: when answer `id` is `answer`, suggest `package`. */
  datatype Rule = Rule(id: QuestionId, answer: string, package: string)

  /** The recommendation table, highest precedence first. */
  const Rules: seq<Rule> := [
    Rule(Pain, "Site atual é lento/antigo", "Pacote React"),
    Rule(Objective, "Vendas Diretas", "Pacote React"),
    Rule(Objective, "Portfólio de Projetos", "Pacote Completo"),
    Rule(Objective, "Institucional / Informativo", "Pacote Completo"),
    Rule(Objective, "Autoridade e Credibilidade", "Pacote Profissional")
  ]

  const Fallback := "Pacote Básico"

  /** The package of the first row of `rules` that `m` matches, or the fallback. */
  function FirstMatch(rules: seq<Rule>, m: Answers): string {
    if rules == [] then Fallback
    else if Get(m, rules[0].id) == Some(rules[0].answer) then rules[0].package
    else FirstMatch(rules[1..], m)
  }

  /** `suggestPackage` is the first-match reading of the recommendation table. */
  lemma SuggestionIsFirstMatchingRule(m: Answers)
    ensures SuggestPackage(Some(m)) == Some(FirstMatch(Rules, m))
  {
    var objective, pain := Get(m, Objective), Get(m, Pain);
    var r4 := [Rule(Objective, "Autoridade e Credibilidade", "Pacote Profissional")];
    var r3 := [Rule(Objective, "Institucional / Informativo", "Pacote Completo")] + r4;
    var r2 := [Rule(Objective, "Portfólio de Projetos", "Pacote Completo")] + r3;
    var r1 := [Rule(Objective, "Vendas Diretas", "Pacote React")] + r2;
    assert Rules == [Rule(Pain, "Site atual é lento/antigo", "Pacote React")] + r1;
    assert FirstMatch(r4[1..], m) == Fallback;
    assert FirstMatch(r4, m) == if objective == Some("Autoridade e Credibilidade") then "Pacote Profissional" else Fallback;
    assert FirstMatch(r3, m) == if objective == Some("Institucional / Informativo") then "Pacote Completo" else FirstMatch(r4, m) by {
      assert r3[1..] == r4;
    }
    assert FirstMatch(r2, m) == if objective == Some("Portfólio de Projetos") then "Pacote Completo" else FirstMatch(r3, m) by {
      assert r2[1..] == r3;
    }
    assert FirstMatch(r1, m) == if objective == Some("Vendas Diretas") then "Pacote React" else FirstMatch(r2, m) by {
      assert r1[1..] == r2;
    }
    assert FirstMatch(Rules, m) == if pain == Some("Site atual é lento/antigo") then "Pacote React" else FirstMatch(r1, m) by {
      assert Rules[1..] == r1;
    }
  }

  /** The suggestion reads answers 2 and 5 and nothing else. */
  lemma SuggestionReadsOnlyObjectiveAndPain(m1: Answers, m2: Answers)
    requires Get(m1, Objective) == Get(m2, Objective)
    requires Get(m1, Pain) == Get(m2, Pain)
    ensures SuggestPackage(Some(m1)) == SuggestPackage(Some(m2))
  {
  }

  // ---------------------------------------------------------------------------
  // Answer summary
  // ---------------------------------------------------------------------------

  /** The label shown for answer `id`: `['Possui site', ...][parseInt(id) - 1]`. */
  function AnswerLabel(id: QuestionId): string {
    ["Possui site", "Objetivo", "Identidade", "Prazo", "Maior dor"][id - 1]
  }

  /**
   * `Object.entries(data)` restricted to the ids from `from` on: every
   * recorded answer exactly once, paired with its value, in ascending id order.
   */
  function EntriesFrom(m: Answers, from: int): (entries: seq<(QuestionId, string)>)
    requires 1 <= from <= 6
    ensures forall i :: 0 <= i < |entries| ==> from <= entries[i].0
    ensures forall i :: 0 <= i < |entries| ==> entries[i].0 in m && m[entries[i].0] == entries[i].1
    ensures forall i, j :: 0 <= i < j < |entries| ==> entries[i].0 < entries[j].0
    decreases 6 - from
  {
    if from == 6 then []
    else
      var id: QuestionId := from;
      var rest := EntriesFrom(m, from + 1);
      if id in m then [(id, m[id])] + rest else rest
  }

  ghost predicate Listed(entries: seq<(QuestionId, string)>, id: QuestionId) {
    exists i :: 0 <= i < |entries| && entries[i].0 == id
  }

  /** No recorded answer is left out of `EntriesFrom(m, from)`. */
  lemma {:induction false} EntriesFromListEveryAnswer(m: Answers, from: QuestionId, id: QuestionId)
    requires from <= id && id in m
    ensures Listed(EntriesFrom(m, from), id)
    decreases 6 - from
  {
    var entries := EntriesFrom(m, from);
    if from == id {
      EntriesFromAnswered(m, from);
      assert entries[0].0 == id;
    } else {
      var next: QuestionId := from + 1;
      var rest := EntriesFrom(m, next);
      EntriesFromListEveryAnswer(m, next, id);
      var i :| 0 <= i < |rest| && rest[i].0 == id;
      if from in m {
        EntriesFromAnswered(m, from);
        assert entries == [(from, m[from])] + rest;
        assert entries[i + 1].0 == id;
      } else {
        assert entries == rest;
        assert entries[i].0 == id;
      }
    }
  }

  /** One unfolding of `EntriesFrom` for a recorded answer. */
  lemma EntriesFromAnswered(m: Answers, from: QuestionId)
    requires from in m
    ensures EntriesFrom(m, from) == [(from, m[from])] + EntriesFrom(m, from + 1)
  {
  }

  /** `Object.entries(data)`: every answer once, ascending by question id. */
  function Entries(m: Answers): seq<(QuestionId, string)> {
    EntriesFrom(m, 1)
  }

  /** `• label: answer`. */
  function AnswerLine(id: QuestionId, answer: string): string {
    "• " + AnswerLabel(id) + ": " + answer
  }

  /**
   * `lines` are the bullet lines of the answers in `m` taken in the order
   * `ids`: every id in `ids` is answered, the ids ascend, and no answer of
   * `m` is missing.
   */
  ghost predicate LinesFollowAnswers(m: Answers, ids: seq<QuestionId>, lines: seq<string>) {
    && |ids| == |lines|
    && (forall i :: 0 <= i < |ids| ==> ids[i] in m && lines[i] == AnswerLine(ids[i], m[ids[i]]))
    && (forall i, j :: 0 <= i < j < |ids| ==> ids[i] < ids[j])
    && (forall id :: id in m ==> id in ids)
  }

  /** One bullet line per recorded answer, in id order. */
  function AnswerLines(m: Answers): (lines: seq<string>)
    ensures |lines| == |Entries(m)|
    ensures forall i :: 0 <= i < |lines| ==> lines[i] == AnswerLine(Entries(m)[i].0, Entries(m)[i].1)
    ensures exists ids: seq<QuestionId> :: LinesFollowAnswers(m, ids, lines)
  {
    var entries := Entries(m);
    var lines := seq(|entries|, i requires 0 <= i < |entries| => AnswerLine(entries[i].0, entries[i].1));
    EntriesListEveryAnswer(m);
    LinesOfEntriesFollowAnswers(m, entries, lines);
    lines
  }

  /** `Object.entries(data)` lists every recorded answer. */
  lemma EntriesListEveryAnswer(m: Answers)
    ensures forall id :: id in m ==> Listed(Entries(m), id)
  {
    forall id | id in m
      ensures Listed(Entries(m), id)
    {
      EntriesFromListEveryAnswer(m, 1, id);
    }
  }

  /**
   * Bullet lines made one per entry, from entries that are recorded answers in
   * ascending id order and list every answer, follow the answers of `m`.
   */
  lemma LinesOfEntriesFollowAnswers(m: Answers, entries: seq<(QuestionId, string)>, lines: seq<string>)
    requires forall i :: 0 <= i < |entries| ==> entries[i].0 in m && m[entries[i].0] == entries[i].1
    requires forall i, j :: 0 <= i < j < |entries| ==> entries[i].0 < entries[j].0
    requires forall id :: id in m ==> Listed(entries, id)
    requires |lines| == |entries|
    requires forall i :: 0 <= i < |lines| ==> lines[i] == AnswerLine(entries[i].0, entries[i].1)
    ensures exists ids: seq<QuestionId> :: LinesFollowAnswers(m, ids, lines)
  {
    var ids := seq(|entries|, i requires 0 <= i < |entries| => entries[i].0);
    forall id | id in m
      ensures id in ids
    {
      var i :| 0 <= i < |entries| && entries[i].0 == id;
      assert ids[i] == id;
    }
    assert LinesFollowAnswers(m, ids, lines);
  }

  /** The summary message: the bullet lines joined by newlines. */
  function AnswerSummary(m: Answers): string {
    Js.Join(AnswerLines(m), "\n")
  }

  /** With every question answered, the entries are the five answers in id order. */
  lemma AllAnsweredEntries(m: Answers)
    requires AllAnswered(m)
    ensures Entries(m) == [(1, m[1]), (2, m[2]), (3, m[3]), (4, m[4]), (5, m[5])]
  {
    assert 5 in m && 4 in m && 3 in m && 2 in m && 1 in m;
    EntriesFromAnswered(m, 5);
    EntriesFromAnswered(m, 4);
    EntriesFromAnswered(m, 3);
    EntriesFromAnswered(m, 2);
    EntriesFromAnswered(m, 1);
  }

  /** A fully answered questionnaire is summarised as five lines, one per question, in order. */
  lemma AllAnsweredSummary(m: Answers)
    requires AllAnswered(m)
    ensures AnswerLines(m) == [
      "• " + "Possui site" + ": " + m[1], "• " + "Objetivo" + ": " + m[2], "• " + "Identidade" + ": " + m[3],
      "• " + "Prazo" + ": " + m[4], "• " + "Maior dor" + ": " + m[5]]
  {
    AllAnsweredEntries(m);
    var lines := AnswerLines(m);
    assert |lines| == 5;
    assert lines[0] == AnswerLine(1, m[1]);
    assert lines[1] == AnswerLine(2, m[2]);
    assert lines[2] == AnswerLine(3, m[3]);
    assert lines[3] == AnswerLine(4, m[4]);
    assert lines[4] == AnswerLine(5, m[5]);
  }

  // ---------------------------------------------------------------------------
  // Hand-off
  // ---------------------------------------------------------------------------

  const WhatsAppNumber := "5515996901137"
  const IntroPrefix := "Olá Nexus Dev! Represento a empresa *"
  const FormHeader := "\n\r*Respostas do Formulário:* \n"
  const AddOnLabel := " + Sistema de Agendamento"

  /** `questionnaireInfo`: empty without data, else the header and the answer lines. */
  function FormBlock(data: Option<Answers>): string {
    match data
    case None => ""
    case Some(m) => FormHeader + AnswerSummary(m)
  }

  /** The chosen package, with the add-on's name when it is on. */
  function PackageChoice(service: string, addExtra: bool): string {
    "*Pacote Escolhido:* " + service + (if addExtra then AddOnLabel else "")
  }

  /** The closing line with the amount as the host formats it. */
  function InvestmentLine(amount: string): string {
    "\n*Investimento:* R$ " + amount + "."
  }

  /**
   * The WhatsApp message `handleAction('buy')` composes. `formatAmount`
   * stands for `toLocaleString('pt-BR')`, which the model does not interpret.
   */
  function HandoffText(companyName: string, service: string, addExtra: bool,
                       data: Option<Answers>, formatAmount: nat -> string): string
    requires IsPackageName(service)
  {
    var total := TotalPrice(Lookup(service).value, addExtra);
    IntroPrefix + companyName + "*.\n" + FormBlock(data) + "\n\n" + PackageChoice(service, addExtra)
      + InvestmentLine(formatAmount(total))
  }

  /** The link opened in a new tab; `encode` stands for `encodeURIComponent`. */
  function DeepLink(text: string, encode: string -> string): (url: string)
    ensures Js.StartsWith(url, "https://wa.me/5515996901137?text=")
    ensures url[|"https://wa.me/5515996901137?text="|..] == encode(text)
  {
    "https://wa.me/" + WhatsAppNumber + "?text=" + encode(text)
  }

  /** Without the add-on, the package line of a catalog package does not end in the add-on's name. */
  lemma PackageChoiceWithoutAddOn(service: string)
    requires IsPackageName(service)
    ensures !Js.EndsWith(PackageChoice(service, false), AddOnLabel)
  {
    var line := PackageChoice(service, false);
    assert Js.EndsWith(line, service);
    if Js.EndsWith(line, AddOnLabel) {
      // The two suffixes disagree at one of the last three positions.
      var k := if service == "Pacote Profissional" || service == "Pacote React" then 1
               else if service == "Pacote Básico" then 2 else 3;
      Js.EndsWithCharAt(line, service, k);
      Js.EndsWithCharAt(line, AddOnLabel, k);
      assert false;
    }
  }

  /** The hand-off message opens by introducing the company. */
  lemma HandoffOpensWithCompany(companyName: string, service: string, addExtra: bool,
                                data: Option<Answers>, formatAmount: nat -> string)
    requires IsPackageName(service)
    ensures Js.StartsWith(HandoffText(companyName, service, addExtra, data, formatAmount), IntroPrefix + companyName)
  {
    var head := IntroPrefix + companyName;
    var total := TotalPrice(Lookup(service).value, addExtra);
    var a := head + "*.\n";
    var b := a + FormBlock(data);
    var c := b + "\n\n";
    var d := c + PackageChoice(service, addExtra);
    Js.StartsWithAppend(head, "*.\n", head);
    Js.StartsWithAppend(a, FormBlock(data), head);
    Js.StartsWithAppend(b, "\n\n", head);
    Js.StartsWithAppend(c, PackageChoice(service, addExtra), head);
    Js.StartsWithAppend(d, InvestmentLine(formatAmount(total)), head);
  }

  /**
   * The hand-off message closes with the investment, the total price of the
   * package with or without the add-on; just before it the package is named,
   * followed by the add-on's name exactly when the add-on is on.
   */
  lemma HandoffClosesWithChoiceAndTotal(companyName: string, service: string, addExtra: bool,
                                        data: Option<Answers>, formatAmount: nat -> string)
    requires IsPackageName(service)
    ensures var text := HandoffText(companyName, service, addExtra, data, formatAmount);
      var closing := InvestmentLine(formatAmount(TotalPrice(Lookup(service).value, addExtra)));
      && Js.EndsWith(text, closing)
      && Js.EndsWith(text[..|text| - |closing|], PackageChoice(service, addExtra))
      && (addExtra <==> Js.EndsWith(text[..|text| - |closing|], AddOnLabel))
  {
    var text := HandoffText(companyName, service, addExtra, data, formatAmount);
    var closing := InvestmentLine(formatAmount(TotalPrice(Lookup(service).value, addExtra)));
    var prefix := IntroPrefix + companyName + "*.\n" + FormBlock(data) + "\n\n";
    var choice := PackageChoice(service, addExtra);
    var body := prefix + choice;
    assert text == body + closing;
    Js.EndsWithPrepend(body, closing, closing);
    assert text[..|text| - |closing|] == body;
    Js.EndsWithPrepend(prefix, choice, choice);
    if addExtra {
      Js.EndsWithPrepend("*Pacote Escolhido:* " + service, AddOnLabel, AddOnLabel);
      Js.EndsWithTransitive(body, choice, AddOnLabel);
    } else if Js.EndsWith(body, AddOnLabel) {
      Js.EndsWithShorter(body, choice, AddOnLabel);
      PackageChoiceWithoutAddOn(service);
      assert false;
    }
  }

  /** With the form block present, the text starts with the header and then with the whole block. */
  lemma FormBlockLeads(head: string, header: string, summary: string, gap: string,
                       choice: string, closing: string)
    ensures Js.StartsWith(head + (header + summary) + gap + choice + closing, head + header)
    ensures Js.StartsWith(head + (header + summary) + gap + choice + closing, head + header + summary + gap)
  {
    var opening := head + header + summary + gap;
    assert head + (header + summary) + gap + choice + closing == opening + (choice + closing);
    Js.StartsWithAppend(head + header, summary + gap, head + header);
    assert opening == head + header + (summary + gap);
    Js.StartsWithAppend(opening, choice + closing, head + header);
    Js.StartsWithAppend(opening, choice + closing, opening);
  }

  /** With the block empty, the gap follows the head, so a header that differs from it cannot. */
  lemma EmptyBlockExcludesHeader(head: string, header: string, gap: string,
                                 choice: string, closing: string)
    requires 1 < |gap| && 1 < |header| && gap[1] != header[1]
    ensures !Js.StartsWith(head + "" + gap + choice + closing, head + header)
  {
    var opening := head + gap;
    assert head + "" + gap + choice + closing == opening + (choice + closing);
    Js.StartsWithAppend(opening, choice + closing, opening);
    Js.PrefixesDisagree(opening + (choice + closing), opening, head + header, |head| + 1);
  }

  /**
   * The form answers follow the introduction exactly when questionnaire data
   * is present, and then they are the header, one line per answer and a
   * blank line.
   */
  lemma HandoffCarriesFormIffData(companyName: string, service: string, addExtra: bool,
                                  data: Option<Answers>, formatAmount: nat -> string)
    requires IsPackageName(service)
    ensures Js.StartsWith(HandoffText(companyName, service, addExtra, data, formatAmount),
                          IntroPrefix + companyName + "*.\n" + FormHeader)
            <==> data.Some?
    ensures data.Some? ==>
      Js.StartsWith(HandoffText(companyName, service, addExtra, data, formatAmount),
                    IntroPrefix + companyName + "*.\n" + FormHeader + AnswerSummary(data.value) + "\n\n")
  {
    var head := IntroPrefix + companyName + "*.\n";
    var closing := InvestmentLine(formatAmount(TotalPrice(Lookup(service).value, addExtra)));
    match data
    case None =>
      EmptyBlockExcludesHeader(head, FormHeader, "\n\n", PackageChoice(service, addExtra), closing);
    case Some(m) =>
      FormBlockLeads(head, FormHeader, AnswerSummary(m), "\n\n", PackageChoice(service, addExtra), closing);
  }
}
