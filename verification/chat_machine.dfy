/**
 * The chatbot session as a pure state machine: one function per handler of
 * the `Chatbot` component, each taking the five pieces of session state to
 * their values once the handler's deferred updates have all run.
 */
module ChatMachine {
  import opened Wrappers
  import opened Catalog
  import opened Questionnaire
  import opened ChatRules
  import Js

  /** `ChatStep`; only the first four are ever entered. */
  datatype ChatStep = Welcome | ChoosingService | EnteringName | PackageDetails | Summary | Redirecting

  datatype Sender = Bot | User

  /**
   * The lines of the conversation. Every bot message is a line of the fixed
   * script, and the user's messages are the typed company name and the echo
   * of a chosen package; `Text` gives each line's exact wording.
   */
  datatype Line =
    | Greeting
    | FormReceived
    | FormSummary(answers: Answers)
    | Suggestion(pkg: string)
    | AskNameAfterForm
    | AddOnInterest
    | PackageInterest(pkg: string)
    | AskNameAfterPreselection
    | AskNameColdStart
    | Typed(name: string)
    | ExcellentChoice(name: string)
    | DetailsIntro
    | AskBasePackage
    | NiceToMeet(name: string)
    | ServiceEcho(service: string)
    | GreatChoice(service: string)
    | Preparing

  /** `{ sender, text }`, with the text given by its line of the script. */
  datatype Message = Message(sender: Sender, line: Line)

  /** The text the component shows for each line. */
  function Text(line: Line): string {
    match line
    case Greeting => "Olá! Sou o assistente de negócios da Nexus Dev. 🚀"
    case FormReceived => "Recebi suas respostas do formulário! Elas nos ajudam muito a entender seu projeto:"
    case FormSummary(answers) => AnswerSummary(answers)
    case Suggestion(pkg) =>
      "💡 Com base no seu perfil, acreditamos que o **" + pkg + "** seja a melhor escolha para o seu momento atual!"
    case AskNameAfterForm => "Para continuarmos com sua proposta personalizada, qual o nome da sua empresa?"
    case AddOnInterest => "Vi que sua empresa se interessou pelo Módulo de Agendamento Automático!"
    case PackageInterest(pkg) => "Vi que sua empresa se interessou pelo " + pkg + "!"
    case AskNameAfterPreselection => "Antes de vermos os detalhes e valores, qual o nome da sua empresa?"
    case AskNameColdStart => "Qual o nome da sua empresa para começarmos o atendimento corporativo?"
    case Typed(name) => name
    case ExcellentChoice(name) =>
      "Excelente escolha, " + name + "! Nossos especialistas analisaram seu perfil e temos a solução ideal."
    case DetailsIntro =>
      "Aqui estão os detalhes técnicos e o investimento necessário para transformarmos sua presença digital:"
    case AskBasePackage => "A qual desses pacotes base você gostaria de integrar o agendamento?"
    case NiceToMeet(name) =>
      "Prazer em conhecer a " + name + "! Com base no que você busca, qual dessas soluções digitais parece mais interessante para vocês hoje?"
    case ServiceEcho(service) => "Me interessei pelo " + service
    case GreatChoice(service) =>
      "Ótima escolha! O " + service + " é um dos nossos modelos mais solicitados pela sua eficiência."
    case Preparing => "Estamos preparando os detalhes exclusivos para você..."
  }

  /** The user's bubbles show exactly the typed name, and quote the chosen package. */
  lemma UserLinesEchoInput(x: string)
    ensures Text(Typed(x)) == x
    ensures Js.Includes(Text(ServiceEcho(x)), x)
  {
    Js.IncludesEnd("Me interessei pelo ", x);
  }

  /** The reply to a name with a package in view addresses the company by it. */
  lemma ExcellentChoiceQuotesName(x: string)
    ensures Js.Includes(Text(ExcellentChoice(x)), x)
  {
    Js.IncludesMiddle("Excelente escolha, ", x, "! Nossos especialistas analisaram seu perfil e temos a solução ideal.");
  }

  /** The reply to a name on a cold start addresses the company by it. */
  lemma NiceToMeetQuotesName(x: string)
    ensures Js.Includes(Text(NiceToMeet(x)), x)
  {
    Js.IncludesMiddle("Prazer em conhecer a ", x,
      "! Com base no que você busca, qual dessas soluções digitais parece mais interessante para vocês hoje?");
  }

  /** The recommendation names the suggested package. */
  lemma SuggestionQuotesPackage(x: string)
    ensures Js.Includes(Text(Suggestion(x)), x)
  {
    Js.IncludesMiddle("💡 Com base no seu perfil, acreditamos que o **", x, "** seja a melhor escolha para o seu momento atual!");
  }

  /** The greeting after a package card names the package. */
  lemma PackageInterestQuotesPackage(x: string)
    ensures Js.Includes(Text(PackageInterest(x)), x)
  {
    Js.IncludesMiddle("Vi que sua empresa se interessou pelo ", x, "!");
  }

  /** The reply to a choice from the list names the package. */
  lemma GreatChoiceQuotesPackage(x: string)
    ensures Js.Includes(Text(GreatChoice(x)), x)
  {
    Js.IncludesMiddle("Ótima escolha! O ", x, " é um dos nossos modelos mais solicitados pela sua eficiência.");
  }

  /** `step`, `messages`, `companyName`, `selectedService` (`""` for none) and `addExtra`. */
  datatype ChatState = ChatState(
    step: ChatStep,
    messages: seq<Message>,
    companyName: string,
    selectedService: string,
    addExtra: bool)

  /** The state every `useState` starts from, and the one `resetChat` restores. */
  const Initial := ChatState(Welcome, [], "", "", false)

  /** The preselection sentinel that stands for the scheduling add-on. */
  const ExtraSentinel := "Extra"

  // ---------------------------------------------------------------------------
  // Handlers
  // ---------------------------------------------------------------------------

  /** `addMessage(sender, text)`: append one message at the end. */
  function AddMessage(s: ChatState, sender: Sender, line: Line): (r: ChatState)
    ensures |r.messages| == |s.messages| + 1
    ensures r.messages[..|s.messages|] == s.messages && r.messages[|s.messages|] == Message(sender, line)
    ensures r.(messages := s.messages) == s
  {
    s.(messages := s.messages + [Message(sender, line)])
  }

  /** `initialPackage` is truthy: present and not the empty string. */
  predicate Preselected(initialPackage: Option<string>) {
    initialPackage.Some? && initialPackage.value != ""
  }

  /** Every message is from the bot. */
  predicate BotOnly(messages: seq<Message>) {
    forall i :: 0 <= i < |messages| ==> messages[i].sender == Bot
  }

  /** The questionnaire route of the opening: greet, recap the answers, suggest a package, ask for the name. */
  function OpenWithAnswers(s: ChatState, m: Answers): (r: ChatState)
    requires s.messages == []
    ensures r.messages == [Message(Bot, Greeting), Message(Bot, FormReceived), Message(Bot, FormSummary(m)),
                           Message(Bot, Suggestion(SuggestPackage(Some(m)).value)), Message(Bot, AskNameAfterForm)]
    ensures r == s.(step := EnteringName, messages := r.messages)
    ensures |r.messages| >= 2 && r.messages[0] == Message(Bot, Greeting) && BotOnly(r.messages)
    ensures r.messages[|r.messages| - 1].line == AskNameAfterForm
  {
    // `suggestPackage` never returns null for present data, so the branch
    // that asks for the name without a suggestion cannot run.
    var suggestion := SuggestPackage(Some(m)).value;
    var told := AddMessage(AddMessage(AddMessage(s, Bot, Greeting), Bot, FormReceived), Bot, FormSummary(m));
    AddMessage(AddMessage(told, Bot, Suggestion(suggestion)), Bot, AskNameAfterForm).(step := EnteringName)
  }

  /** The package-card route of the opening: greet, note the card, ask for the name. */
  function OpenWithPreselection(s: ChatState, pkg: string): (r: ChatState)
    requires s.messages == []
    ensures pkg == ExtraSentinel ==>
      && r.messages == [Message(Bot, Greeting), Message(Bot, AddOnInterest), Message(Bot, AskNameAfterPreselection)]
      && r == s.(step := EnteringName, messages := r.messages, addExtra := true)
    ensures pkg != ExtraSentinel ==>
      && r.messages == [Message(Bot, Greeting), Message(Bot, PackageInterest(pkg)), Message(Bot, AskNameAfterPreselection)]
      && r == s.(step := EnteringName, messages := r.messages, selectedService := pkg)
    ensures |r.messages| >= 2 && r.messages[0] == Message(Bot, Greeting) && BotOnly(r.messages)
    ensures r.messages[|r.messages| - 1].line == AskNameAfterPreselection
  {
    var greeted := AddMessage(s, Bot, Greeting);
    var noticed :=
      if pkg == ExtraSentinel then AddMessage(greeted, Bot, AddOnInterest).(addExtra := true)
      else AddMessage(greeted, Bot, PackageInterest(pkg)).(selectedService := pkg);
    AddMessage(noticed, Bot, AskNameAfterPreselection).(step := EnteringName)
  }

  /** The cold start: greet and ask for the name. */
  function OpenCold(s: ChatState): (r: ChatState)
    requires s.messages == []
    ensures r.messages == [Message(Bot, Greeting), Message(Bot, AskNameColdStart)]
    ensures r == s.(step := EnteringName, messages := r.messages)
    ensures |r.messages| >= 2 && r.messages[0] == Message(Bot, Greeting) && BotOnly(r.messages)
    ensures r.messages[|r.messages| - 1].line == AskNameColdStart
  {
    AddMessage(AddMessage(s, Bot, Greeting), Bot, AskNameColdStart).(step := EnteringName)
  }

  /**
   * The opening effect, given the `isOpen`, `initialPackage` and
   * `questionnaireData` props: it runs only on an open panel with no messages,
   * greets, follows the questionnaire, the preselection or the cold start, and
   * always ends asking for the company name.
   */
  function Open(s: ChatState, isOpen: bool, initialPackage: Option<string>, data: Option<Answers>): (r: ChatState)
    ensures !(isOpen && s.messages == []) ==> r == s
    ensures isOpen && s.messages == [] ==>
      && r.step == EnteringName
      && |r.messages| >= 2
      && r.messages[0] == Message(Bot, Greeting)
      && BotOnly(r.messages)
      && r.companyName == s.companyName
      && (r.messages[|r.messages| - 1].line
          == if data.Some? then AskNameAfterForm
             else if Preselected(initialPackage) then AskNameAfterPreselection
             else AskNameColdStart)
    ensures isOpen && s.messages == [] ==>
      && (data.None? && Preselected(initialPackage) && initialPackage.value == ExtraSentinel
          ==> r.addExtra && r.selectedService == s.selectedService)
      && (data.None? && Preselected(initialPackage) && initialPackage.value != ExtraSentinel
          ==> r.selectedService == initialPackage.value && r.addExtra == s.addExtra)
      && (data.Some? || !Preselected(initialPackage)
          ==> r.selectedService == s.selectedService && r.addExtra == s.addExtra)
  {
    if !(isOpen && s.messages == []) then s
    else if data.Some? then OpenWithAnswers(s, data.value)
    else if Preselected(initialPackage) then OpenWithPreselection(s, initialPackage.value)
    else OpenCold(s)
  }

  /** The name input's `onChange`: `setCompanyName(value)`. */
  function EditName(s: ChatState, value: string): (r: ChatState)
    ensures r.companyName == value && r.(companyName := s.companyName) == s
  {
    s.(companyName := value)
  }

  /**
   * `handleCompanySubmit`: a blank name changes nothing; otherwise the name is
   * echoed as the user's message and the bot answers, moving to the package
   * details when a package is chosen and to the package list when not.
   */
  function SubmitName(s: ChatState): (r: ChatState)
    ensures Js.IsBlank(s.companyName) ==> r == s
    ensures !Js.IsBlank(s.companyName) ==>
      && |r.messages| > |s.messages| + 1
      && r.messages[..|s.messages|] == s.messages
      && r.messages[|s.messages|] == Message(User, Typed(s.companyName))
      && (forall i :: |s.messages| < i < |r.messages| ==> r.messages[i].sender == Bot)
      && (r.step == PackageDetails <==> s.selectedService != "")
      && (r.step != PackageDetails ==> r.step == ChoosingService)
      && r.(step := s.step, messages := s.messages) == s
  {
    if Js.IsBlank(s.companyName) then s
    else
      var echoed := AddMessage(s, User, Typed(s.companyName));
      if s.selectedService != "" || s.addExtra then
        var praised := AddMessage(echoed, Bot, ExcellentChoice(s.companyName));
        var briefed := AddMessage(praised, Bot, DetailsIntro);
        if s.addExtra && s.selectedService == "" then
          var r := AddMessage(briefed.(step := ChoosingService), Bot, AskBasePackage);
          assert r.messages == s.messages + [Message(User, Typed(s.companyName)), Message(Bot, ExcellentChoice(s.companyName)), Message(Bot, DetailsIntro), Message(Bot, AskBasePackage)];
          r
        else
          var r := briefed.(step := PackageDetails);
          assert r.messages == s.messages + [Message(User, Typed(s.companyName)), Message(Bot, ExcellentChoice(s.companyName)), Message(Bot, DetailsIntro)];
          r
      else
        var r := AddMessage(echoed, Bot, NiceToMeet(s.companyName)).(step := ChoosingService);
        assert r.messages == s.messages + [Message(User, Typed(s.companyName)), Message(Bot, NiceToMeet(s.companyName))];
        r
  }

  /**
   * The bot's reply to a submitted name, case by case: the package list after
   * a plain greeting, the details for a chosen package, and the question for
   * a base package when only the add-on is chosen.
   */
  lemma SubmitNameCases(s: ChatState)
    requires !Js.IsBlank(s.companyName)
    ensures s.selectedService == "" && !s.addExtra ==>
      SubmitName(s) == s.(step := ChoosingService, messages := s.messages + [
        Message(User, Typed(s.companyName)), Message(Bot, NiceToMeet(s.companyName))])
    ensures s.selectedService != "" ==>
      SubmitName(s) == s.(step := PackageDetails, messages := s.messages + [
        Message(User, Typed(s.companyName)), Message(Bot, ExcellentChoice(s.companyName)), Message(Bot, DetailsIntro)])
    ensures s.selectedService == "" && s.addExtra ==>
      SubmitName(s) == s.(step := ChoosingService, messages := s.messages + [
        Message(User, Typed(s.companyName)), Message(Bot, ExcellentChoice(s.companyName)), Message(Bot, DetailsIntro),
        Message(Bot, AskBasePackage)])
  {
  }

  /**
   * `handleServiceSelect(service)`: record the choice, echo it, answer with two
   * bot messages and show the details. The add-on flag is left as it was.
   */
  function SelectService(s: ChatState, service: string): (r: ChatState)
    ensures r.step == PackageDetails && r.selectedService == service
    ensures r.addExtra == s.addExtra && r.companyName == s.companyName
    ensures r.messages == s.messages + [Message(User, ServiceEcho(service)), Message(Bot, GreatChoice(service)), Message(Bot, Preparing)]
  {
    s.(step := PackageDetails,
       selectedService := service,
       messages := s.messages + [Message(User, ServiceEcho(service)), Message(Bot, GreatChoice(service)), Message(Bot, Preparing)])
  }

  /** `handleAction('back')`: back to the package list, add-on dropped. */
  function BackToPlans(s: ChatState): (r: ChatState)
    ensures r.step == ChoosingService && !r.addExtra
    ensures r.messages == s.messages && r.companyName == s.companyName && r.selectedService == s.selectedService
  {
    s.(step := ChoosingService, addExtra := false)
  }

  /** The add-on button: `setAddExtra(!addExtra)`. */
  function ToggleExtra(s: ChatState): (r: ChatState)
    ensures r.addExtra != s.addExtra && r.(addExtra := s.addExtra) == s
  {
    s.(addExtra := !s.addExtra)
  }

  /** `resetChat`, run when the panel is closed. */
  function Reset(s: ChatState): (r: ChatState)
    ensures r.step == Welcome && r.messages == [] && r.companyName == "" && r.selectedService == "" && !r.addExtra
  {
    Initial
  }

  // ---------------------------------------------------------------------------
  // Details panel and hand-off
  // ---------------------------------------------------------------------------

  /** What `renderDetails` shows: the package, both totals and whether the add-on toggle is offered. */
  datatype DetailsView = DetailsView(pkg: Package, totalPrice: nat, totalMaint: nat, toggleOffered: bool)

  /**
   * The outcome of `renderDetails`: no panel when the lookup is falsy, the
   * panel, or a render that throws, because an inherited property passes the
   * `!pkg` guard but has no `bullets` to map over.
   */
  datatype Panel = NoPanel | Drawn(view: DetailsView) | RenderFails

  /**
   * `renderDetails`. A catalog key draws its package with its price and
   * maintenance, each raised by the add-on's exactly when the add-on is on,
   * and the toggle unless the service is React. An inherited name fails to
   * render. Any other name draws nothing.
   */
  function Details(s: ChatState): (r: Panel)
    ensures r.Drawn? <==> IsPackageName(s.selectedService)
    ensures r.RenderFails? <==> IsInheritedName(s.selectedService)
    ensures r.Drawn? ==>
      && r.view.pkg == Lookup(s.selectedService).value
      && r.view.totalPrice == r.view.pkg.price + (if s.addExtra then Extra.price else 0)
      && r.view.totalMaint == r.view.pkg.maint + (if s.addExtra then Extra.maint else 0)
      && (r.view.toggleOffered <==> s.selectedService != "Pacote React")
  {
    OwnAndInheritedDisjoint(s.selectedService);
    match Lookup(s.selectedService)
    case None => if IsInheritedName(s.selectedService) then RenderFails else NoPanel
    case Some(pkg) =>
      ToggleOfferedForKey(s.selectedService);
      Drawn(DetailsView(pkg, TotalPrice(pkg, s.addExtra), TotalMaint(pkg, s.addExtra), ToggleOffered(s.selectedService)))
  }

  /**
   * `handleAction('buy')`: the WhatsApp link for the session. The source reads
   * the package without checking it, so the service must be in the catalog.
   */
  function BuyLink(s: ChatState, data: Option<Answers>, formatAmount: nat -> string, encode: string -> string): (url: string)
    requires IsPackageName(s.selectedService)
    ensures Js.StartsWith(url, "https://wa.me/5515996901137?text=")
    ensures url[|"https://wa.me/5515996901137?text="|..]
            == encode(HandoffText(s.companyName, s.selectedService, s.addExtra, data, formatAmount))
  {
    DeepLink(HandoffText(s.companyName, s.selectedService, s.addExtra, data, formatAmount), encode)
  }

  // ---------------------------------------------------------------------------
  // Runs
  // ---------------------------------------------------------------------------

  /** Everything that can happen to a session. `Close` is the close button: `setIsOpen(false); resetChat()`. */
  datatype Event =
    | OpenPanel(isOpen: bool, initialPackage: Option<string>, data: Option<Answers>)
    | TypeName(value: string)
    | SubmitNameEvent
    | ChooseService(service: string)
    | BackEvent
    | ToggleEvent
    | Close

  function Apply(s: ChatState, e: Event): ChatState {
    match e
    case OpenPanel(isOpen, initialPackage, data) => Open(s, isOpen, initialPackage, data)
    case TypeName(value) => EditName(s, value)
    case SubmitNameEvent => SubmitName(s)
    case ChooseService(service) => SelectService(s, service)
    case BackEvent => BackToPlans(s)
    case ToggleEvent => ToggleExtra(s)
    case Close => Reset(s)
  }

  function RunChat(s: ChatState, events: seq<Event>): ChatState
    decreases |events|
  {
    if events == [] then s else RunChat(Apply(s, events[0]), events[1..])
  }
}
