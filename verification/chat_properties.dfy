/**
 * What the chatbot session guarantees over whole conversations: the history
 * only grows until the panel is closed, a chosen service is always a catalog
 * package, the four opening routes end where they should, and the
 * questionnaire's answers always lead to a catalog recommendation.
 */
module ChatProperties {
  import opened Wrappers
  import opened Catalog
  import opened Questionnaire
  import opened ChatRules
  import opened ChatMachine
  import Js

  // ---------------------------------------------------------------------------
  // The history is append-only
  // ---------------------------------------------------------------------------

  predicate IsPrefix(a: seq<Message>, b: seq<Message>) {
    |a| <= |b| && b[..|a|] == a
  }

  /** Every event but closing the panel keeps the history and can only add to its end. */
  lemma ApplyExtendsHistory(s: ChatState, e: Event)
    requires !e.Close?
    ensures IsPrefix(s.messages, Apply(s, e).messages)
  {
    match e
    case OpenPanel(isOpen, initialPackage, data) =>
      if isOpen && s.messages == [] {
        assert s.messages == Apply(s, e).messages[..0];
      }
    case SubmitNameEvent =>
    case ChooseService(service) =>
      var r := Apply(s, e);
      assert r.messages[..|s.messages|] == s.messages;
    case _ =>
  }

  /** Until the panel is closed, messages are only ever appended. */
  lemma {:induction false} MessagesOnlyGrow(s: ChatState, events: seq<Event>)
    requires forall i :: 0 <= i < |events| ==> !events[i].Close?
    ensures IsPrefix(s.messages, RunChat(s, events).messages)
    decreases |events|
  {
    if events != [] {
      var next := Apply(s, events[0]);
      ApplyExtendsHistory(s, events[0]);
      MessagesOnlyGrow(next, events[1..]);
      var final := RunChat(next, events[1..]).messages;
      assert final[..|s.messages|] == final[..|next.messages|][..|s.messages|];
    }
  }

  /** Closing the panel wipes the session, whatever it held. */
  lemma CloseForgetsEverything(s: ChatState, events: seq<Event>)
    ensures RunChat(s, [Close] + events) == RunChat(Initial, events)
  {
    assert ([Close] + events)[0] == Close;
    assert ([Close] + events)[1..] == events;
  }

  // ---------------------------------------------------------------------------
  // The chosen service is a catalog package
  // ---------------------------------------------------------------------------

  /** A preselection the package cards can send: none, one of the four keys, or the add-on sentinel. */
  predicate CatalogPreselection(initialPackage: Option<string>) {
    !Preselected(initialPackage) || initialPackage.value == ExtraSentinel || IsPackageName(initialPackage.value)
  }

  /** An event the page can produce: preselections from the package cards and choices from the package list. */
  predicate FromPage(e: Event) {
    match e
    case OpenPanel(_, initialPackage, _) => CatalogPreselection(initialPackage)
    case ChooseService(service) => IsPackageName(service)
    case _ => true
  }

  /**
   * The session invariant: the two unused steps are never entered, the
   * chosen service is empty or a catalog key, and the details step always
   * has a service to show.
   */
  predicate Consistent(s: ChatState) {
    && s.step != Summary && s.step != Redirecting
    && (s.selectedService == "" || IsPackageName(s.selectedService))
    && (s.step == PackageDetails ==> s.selectedService != "")
  }

  lemma InitialConsistent()
    ensures Consistent(Initial)
  {
  }

  lemma ApplyKeepsConsistent(s: ChatState, e: Event)
    requires Consistent(s) && FromPage(e)
    ensures Consistent(Apply(s, e))
  {
    match e
    case SubmitNameEvent =>
    case _ =>
  }

  lemma {:induction false} RunKeepsConsistent(s: ChatState, events: seq<Event>)
    requires Consistent(s)
    requires forall i :: 0 <= i < |events| ==> FromPage(events[i])
    ensures Consistent(RunChat(s, events))
    decreases |events|
  {
    if events != [] {
      ApplyKeepsConsistent(s, events[0]);
      RunKeepsConsistent(Apply(s, events[0]), events[1..]);
    }
  }

  /** In the details step the service is a catalog key and the details panel is drawn. */
  predicate DetailsDrawnWhenShown(s: ChatState) {
    s.step == PackageDetails ==> IsPackageName(s.selectedService) && Details(s).Drawn?
  }

  /**
   * On any conversation the page can produce, from the initial session or any
   * other consistent one (`InitialConsistent`), the details step always finds
   * its package, so the details panel is drawn and `handleAction('buy')` has
   * a package to price.
   */
  lemma DetailsStepAlwaysHasPackage(start: ChatState, events: seq<Event>)
    requires Consistent(start)
    requires forall i :: 0 <= i < |events| ==> FromPage(events[i])
    ensures DetailsDrawnWhenShown(RunChat(start, events))
  {
    RunKeepsConsistent(start, events);
    ConsistentDetailsDrawn(RunChat(start, events));
  }

  /** In a consistent session the details step has a catalog key, so its panel is drawn. */
  lemma ConsistentDetailsDrawn(s: ChatState)
    requires Consistent(s)
    ensures DetailsDrawnWhenShown(s)
  {
    if s.step == PackageDetails {
      assert s.selectedService != "";
    }
  }

  /**
   * The hand-off quotes the total the details panel shows, and names the
   * add-on exactly when the panel counts it.
   */
  lemma HandoffQuotesDetailsTotal(s: ChatState, data: Option<Answers>, formatAmount: nat -> string)
    requires IsPackageName(s.selectedService)
    ensures var text := HandoffText(s.companyName, s.selectedService, s.addExtra, data, formatAmount);
      var closing := InvestmentLine(formatAmount(Details(s).view.totalPrice));
      && Js.EndsWith(text, closing)
      && (Details(s).view.totalPrice > Details(s).view.pkg.price
          <==> Js.EndsWith(text[..|text| - |closing|], AddOnLabel))
  {
    HandoffClosesWithChoiceAndTotal(s.companyName, s.selectedService, s.addExtra, data, formatAmount);
  }

  // ---------------------------------------------------------------------------
  // Name submission and the add-on toggle
  // ---------------------------------------------------------------------------

  /** Submitting leaves the session untouched exactly when the name trims to nothing. */
  lemma SubmitIgnoresNamesThatTrimToEmpty(s: ChatState)
    ensures SubmitName(s) == s <==> Js.Trim(s.companyName) == ""
  {
    Js.BlankIffTrimEmpty(s.companyName);
  }

  /** Flipping the add-on twice restores the session. */
  lemma ToggleTwiceRestores(s: ChatState)
    ensures ToggleExtra(ToggleExtra(s)) == s
  {
  }

  /** Going back to the plans drops the add-on, so a later choice is priced without it. */
  lemma BackThenChooseIsPricedWithoutAddOn(s: ChatState, service: string)
    requires IsPackageName(service)
    ensures var r := SelectService(BackToPlans(s), service);
      Details(r).Drawn? && Details(r).view.totalPrice == Lookup(service).value.price
      && Details(r).view.totalMaint == Lookup(service).value.maint
  {
  }

  // ---------------------------------------------------------------------------
  // The four routes through a conversation
  // ---------------------------------------------------------------------------

  /** Running two event sequences one after the other is running their concatenation. */
  lemma {:induction false} RunChatAppend(s: ChatState, first: seq<Event>, second: seq<Event>)
    ensures RunChat(s, first + second) == RunChat(RunChat(s, first), second)
    decreases |first|
  {
    if first == [] {
      assert first + second == second;
    } else {
      assert (first + second)[1..] == first[1..] + second;
      RunChatAppend(Apply(s, first[0]), first[1..], second);
    }
  }

  /** One more event at the end of a run is one more application. */
  lemma RunChatSnoc(s: ChatState, events: seq<Event>, e: Event)
    ensures RunChat(s, events + [e]) == Apply(RunChat(s, events), e)
  {
    RunChatAppend(s, events, [e]);
    assert [e][1..] == [];
  }

  /** A run of three events, applied one at a time. */
  lemma RunChatThree(s: ChatState, a: Event, b: Event, c: Event)
    ensures RunChat(s, [a, b, c]) == Apply(Apply(Apply(s, a), b), c)
  {
    RunChatSnoc(s, [], a);
    assert [] + [a] == [a];
    RunChatSnoc(s, [a], b);
    assert [a] + [b] == [a, b];
    RunChatSnoc(s, [a, b], c);
    assert [a, b] + [c] == [a, b, c];
  }

  /**
   * Cold start up to the name: greeting, the question for the name, the name
   * and the invitation to pick a package from the list.
   */
  lemma ColdStartNamed(name: string)
    requires !Js.IsBlank(name)
    ensures RunChat(Initial, [OpenPanel(true, None, None), TypeName(name), SubmitNameEvent])
      == Initial.(step := ChoosingService, companyName := name, messages := [
           Message(Bot, Greeting), Message(Bot, AskNameColdStart), Message(User, Typed(name)),
           Message(Bot, NiceToMeet(name))])
  {
    RunChatThree(Initial, OpenPanel(true, None, None), TypeName(name), SubmitNameEvent);
    var s1 := OpenCold(Initial);
    assert Open(Initial, true, None, None) == s1;
    var s2 := EditName(s1, name);
    SubmitNameCases(s2);
  }

  /**
   * Cold start: greeting, the question for the name, the name, the invitation
   * to pick a package, then the choice with its two replies; the details show
   * the package at its own price, the add-on off.
   */
  lemma ColdStartRoute(name: string, service: string)
    requires !Js.IsBlank(name) && IsPackageName(service)
    ensures var s := RunChat(Initial, [OpenPanel(true, None, None), TypeName(name), SubmitNameEvent, ChooseService(service)]);
      && s.step == PackageDetails && s.selectedService == service && !s.addExtra
      && s.messages == [
           Message(Bot, Greeting), Message(Bot, AskNameColdStart), Message(User, Typed(name)),
           Message(Bot, NiceToMeet(name)), Message(User, ServiceEcho(service)),
           Message(Bot, GreatChoice(service)), Message(Bot, Preparing)]
      && Details(s) == Drawn(DetailsView(Lookup(service).value, Lookup(service).value.price,
                                        Lookup(service).value.maint, service != "Pacote React"))
  {
    var opening := [OpenPanel(true, None, None), TypeName(name), SubmitNameEvent];
    RunChatSnoc(Initial, opening, ChooseService(service));
    assert opening + [ChooseService(service)]
        == [OpenPanel(true, None, None), TypeName(name), SubmitNameEvent, ChooseService(service)];
    ColdStartNamed(name);
  }

  /**
   * A package card: the details come right after the name, without passing
   * through the package list. Any preselected name but the add-on sentinel
   * takes this route, whether or not the catalog knows it.
   */
  lemma PreselectedPackageRoute(pkg: string, name: string)
    requires pkg != "" && pkg != ExtraSentinel && !Js.IsBlank(name)
    ensures var s := RunChat(Initial, [OpenPanel(true, Some(pkg), None), TypeName(name), SubmitNameEvent]);
      && s.step == PackageDetails && s.selectedService == pkg && !s.addExtra
      && s.messages == [
           Message(Bot, Greeting), Message(Bot, PackageInterest(pkg)), Message(Bot, AskNameAfterPreselection),
           Message(User, Typed(name)), Message(Bot, ExcellentChoice(name)), Message(Bot, DetailsIntro)]
  {
    CardThenName(pkg, name);
    SubmitNameCases(EditName(OpenWithPreselection(Initial, pkg), name));
  }

  /** A package card, then a name, then its submission: the card's opening, edited and submitted. */
  lemma CardThenName(pkg: string, name: string)
    requires pkg != ""
    ensures RunChat(Initial, [OpenPanel(true, Some(pkg), None), TypeName(name), SubmitNameEvent])
      == SubmitName(EditName(OpenWithPreselection(Initial, pkg), name))
  {
    RunChatThree(Initial, OpenPanel(true, Some(pkg), None), TypeName(name), SubmitNameEvent);
    assert Apply(Initial, OpenPanel(true, Some(pkg), None)) == OpenWithPreselection(Initial, pkg);
  }

  /**
   * The add-on card: the add-on is switched on, and after the name the bot
   * asks which base package to attach it to.
   */
  lemma AddOnCardRoute(name: string)
    requires !Js.IsBlank(name)
    ensures var s := RunChat(Initial, [OpenPanel(true, Some(ExtraSentinel), None), TypeName(name), SubmitNameEvent]);
      && s.step == ChoosingService && s.selectedService == "" && s.addExtra
      && s.messages == [
           Message(Bot, Greeting), Message(Bot, AddOnInterest), Message(Bot, AskNameAfterPreselection),
           Message(User, Typed(name)), Message(Bot, ExcellentChoice(name)), Message(Bot, DetailsIntro),
           Message(Bot, AskBasePackage)]
  {
    CardThenName(ExtraSentinel, name);
    var s2 := EditName(OpenWithPreselection(Initial, ExtraSentinel), name);
    assert s2.selectedService == "" && s2.addExtra && s2.companyName == name;
    SubmitNameCases(s2);
  }

  /**
   * The add-on card followed by the React package: the add-on stays on
   * although the React details offer no toggle, and the total is 3500 + 500.
   */
  lemma AddOnCardThenReactKeepsAddOn(name: string)
    requires !Js.IsBlank(name)
    ensures var s := RunChat(Initial, [OpenPanel(true, Some(ExtraSentinel), None), TypeName(name), SubmitNameEvent,
                                   ChooseService("Pacote React")]);
      && s.step == PackageDetails && s.addExtra
      && Details(s) == Drawn(DetailsView(ReactPackage, 4000, 700, false))
  {
    var opening := [OpenPanel(true, Some(ExtraSentinel), None), TypeName(name), SubmitNameEvent];
    RunChatSnoc(Initial, opening, ChooseService("Pacote React"));
    assert opening + [ChooseService("Pacote React")]
        == [OpenPanel(true, Some(ExtraSentinel), None), TypeName(name), SubmitNameEvent, ChooseService("Pacote React")];
    AddOnCardRoute(name);
    var s3 := RunChat(Initial, opening);
    var s4 := SelectService(s3, "Pacote React");
    assert s4.selectedService == PackageNames[3] && s4.addExtra;
    ToggleOfferedForKey("Pacote React");
  }

  /**
   * A preselected name outside the catalog is kept as the chosen service,
   * and the details step is entered without a panel: nothing is drawn for an
   * unknown name, and the render throws for an inherited one such as
   * `'constructor'`.
   */
  lemma UnknownPreselectionIsKept(pkg: string, name: string)
    requires pkg != "" && pkg != ExtraSentinel && !IsPackageName(pkg) && !Js.IsBlank(name)
    ensures var s := RunChat(Initial, [OpenPanel(true, Some(pkg), None), TypeName(name), SubmitNameEvent]);
      && s.step == PackageDetails && s.selectedService == pkg
      && Details(s) == (if IsInheritedName(pkg) then RenderFails else NoPanel)
  {
    PreselectedPackageRoute(pkg, name);
  }

  /**
   * Questionnaire answers: the bot recaps them, names its recommendation and
   * asks for the name, but chooses nothing; after the name the full package
   * list is shown. A preselection passed alongside the answers is ignored.
   */
  lemma QuestionnaireRoute(initialPackage: Option<string>, m: Answers, name: string)
    requires !Js.IsBlank(name)
    ensures var s := RunChat(Initial, [OpenPanel(true, initialPackage, Some(m)), TypeName(name), SubmitNameEvent]);
      && s.step == ChoosingService && s.selectedService == "" && !s.addExtra
      && |s.messages| == 7
      && s.messages[2] == Message(Bot, FormSummary(m))
      && s.messages[3] == Message(Bot, Suggestion(FirstMatch(Rules, m)))
      && IsPackageName(FirstMatch(Rules, m))
  {
    RunChatThree(Initial, OpenPanel(true, initialPackage, Some(m)), TypeName(name), SubmitNameEvent);
    SuggestionIsFirstMatchingRule(m);
    var s1 := Open(Initial, true, initialPackage, Some(m));
    assert s1.messages == [Message(Bot, Greeting), Message(Bot, FormReceived), Message(Bot, FormSummary(m)),
                           Message(Bot, Suggestion(FirstMatch(Rules, m))), Message(Bot, AskNameAfterForm)];
  }

  // ---------------------------------------------------------------------------
  // From the questionnaire to the chatbot
  // ---------------------------------------------------------------------------

  /**
   * Every record the questionnaire hands over is summarised as the five
   * labelled answers in question order, and leads to a catalog package.
   */
  lemma QuestionnaireRecordsFeedTheChat(s: StepperState, inputs: seq<Input>)
    requires Valid(s) && Admissible(s, inputs)
    ensures forall i :: 0 <= i < |Questionnaire.Run(s, inputs).1| ==>
      var m := Questionnaire.Run(s, inputs).1[i];
      && Complete(m)
      && IsPackageName(SuggestPackage(Some(m)).value)
      && AnswerLines(m) == [
           "• " + "Possui site" + ": " + m[1], "• " + "Objetivo" + ": " + m[2], "• " + "Identidade" + ": " + m[3],
           "• " + "Prazo" + ": " + m[4], "• " + "Maior dor" + ": " + m[5]]
  {
    RunKeepsValid(s, inputs);
    forall i | 0 <= i < |Questionnaire.Run(s, inputs).1|
      ensures AnswerLines(Questionnaire.Run(s, inputs).1[i]) == [
        "• " + "Possui site" + ": " + Questionnaire.Run(s, inputs).1[i][1], "• " + "Objetivo" + ": " + Questionnaire.Run(s, inputs).1[i][2],
        "• " + "Identidade" + ": " + Questionnaire.Run(s, inputs).1[i][3], "• " + "Prazo" + ": " + Questionnaire.Run(s, inputs).1[i][4],
        "• " + "Maior dor" + ": " + Questionnaire.Run(s, inputs).1[i][5]]
    {
      AllAnsweredSummary(Questionnaire.Run(s, inputs).1[i]);
    }
  }

  /** A complete set of answers with the given objective and an uneventful rest. */
  function Profile(objective: string): Answers {
    map[1 := "Sim, quero melhorar", 2 := objective, 3 := "Sim, completa", 4 := "15 a 30 dias", 5 := "Pouca visibilidade"]
  }

  lemma ProfileComplete(objective: string)
    requires Offers(2, objective)
    ensures Complete(Profile(objective))
  {
    var m := Profile(objective);
    assert Offers(1, m[1]) by { assert Questions[0].options[0] == m[1]; }
    assert Offers(3, m[3]) by { assert Questions[2].options[0] == m[3]; }
    assert Offers(4, m[4]) by { assert Questions[3].options[1] == m[4]; }
    assert Offers(5, m[5]) by { assert Questions[4].options[0] == m[5]; }
    forall id: QuestionId ensures id in m && Offers(id, m[id]) {
    }
  }

  /** The profile with the given objective is complete and gets the given suggestion. */
  lemma ProfileRecommends(objective: string, option: nat, pkg: string)
    requires option < |Questions[1].options| && Questions[1].options[option] == objective
    requires SuggestPackage(Some(Profile(objective))) == Some(pkg)
    ensures exists m :: Complete(m) && SuggestPackage(Some(m)) == Some(pkg)
  {
    ProfileComplete(objective);
  }

  /** Each of the four packages is what some complete questionnaire recommends. */
  lemma EveryPackageIsRecommendable(pkg: string)
    requires IsPackageName(pkg)
    ensures exists m :: Complete(m) && SuggestPackage(Some(m)) == Some(pkg)
  {
    if pkg == "Pacote React" {
      assert SuggestPackage(Some(Profile("Vendas Diretas"))) == Some(pkg);
      ProfileRecommends("Vendas Diretas", 0, pkg);
    } else if pkg == "Pacote Completo" {
      assert SuggestPackage(Some(Profile("Portfólio de Projetos"))) == Some(pkg);
      ProfileRecommends("Portfólio de Projetos", 2, pkg);
    } else if pkg == "Pacote Profissional" {
      assert SuggestPackage(Some(Profile("Autoridade e Credibilidade"))) == Some(pkg);
      ProfileRecommends("Autoridade e Credibilidade", 1, pkg);
    } else {
      assert SuggestPackage(Some(Profile("Outros"))) == Some(pkg);
      ProfileRecommends("Outros", 4, pkg);
    }
  }
}
