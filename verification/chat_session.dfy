/**
 * The `Chatbot` component's session state and handlers, updating the five
 * fields step by step as the component's setters do. Each handler is proved
 * to land on the state the pure machine in `ChatMachine` prescribes.
 */
module ChatSession {
  import opened Wrappers
  import opened Catalog
  import opened Questionnaire
  import opened ChatRules
  import opened ChatMachine
  import Js

  class Session {
    var step: ChatStep
    var messages: seq<Message>
    var companyName: string
    var selectedService: string
    var addExtra: bool

    /** The session as a value of the pure machine. */
    function State(): ChatState
      reads this
    {
      ChatState(step, messages, companyName, selectedService, addExtra)
    }

    constructor()
      ensures State() == Initial
    {
      step := Welcome;
      messages := [];
      companyName := "";
      selectedService := "";
      addExtra := false;
    }

    /** `addMessage`: append at the end of the history; nothing else changes. */
    method AddMessage(sender: Sender, line: Line)
      modifies this
      ensures State() == ChatMachine.AddMessage(old(State()), sender, line)
    {
      messages := messages + [Message(sender, line)];
    }

    /** The opening effect, with its timers run to completion. */
    method OnOpen(isOpen: bool, initialPackage: Option<string>, data: Option<Answers>)
      modifies this
      ensures State() == Open(old(State()), isOpen, initialPackage, data)
    {
      if isOpen && |messages| == 0 {
        if data.Some? {
          GreetWithAnswers(data.value);
        } else if Preselected(initialPackage) {
          GreetAfterCard(initialPackage.value);
        } else {
          GreetCold();
        }
      }
    }

    /** The opening with questionnaire answers: recap them and recommend a package. */
    method GreetWithAnswers(m: Answers)
      requires messages == []
      modifies this
      ensures State() == OpenWithAnswers(old(State()), m)
    {
      AddMessage(Bot, Greeting);
      var suggestion := SuggestPackage(Some(m));
      AddMessage(Bot, FormReceived);
      AddMessage(Bot, FormSummary(m));
      if suggestion.Some? {
        AddMessage(Bot, Suggestion(suggestion.value));
        AddMessage(Bot, AskNameAfterForm);
        step := EnteringName;
        assert messages == [Message(Bot, Greeting), Message(Bot, FormReceived), Message(Bot, FormSummary(m)),
                            Message(Bot, Suggestion(suggestion.value)), Message(Bot, AskNameAfterForm)];
        assert State() == old(State()).(step := EnteringName, messages := messages);
      } else {
        // Present data always yields a suggestion.
        assert false;
      }
    }

    /** The opening after a package card: note the card, then ask for the name. */
    method GreetAfterCard(pkg: string)
      requires messages == []
      modifies this
      ensures State() == OpenWithPreselection(old(State()), pkg)
    {
      AddMessage(Bot, Greeting);
      if pkg == ExtraSentinel {
        AddMessage(Bot, AddOnInterest);
        addExtra := true;
      } else {
        AddMessage(Bot, PackageInterest(pkg));
        selectedService := pkg;
      }
      AddMessage(Bot, AskNameAfterPreselection);
      step := EnteringName;
      assert messages == [Message(Bot, Greeting),
                          Message(Bot, if pkg == ExtraSentinel then AddOnInterest else PackageInterest(pkg)),
                          Message(Bot, AskNameAfterPreselection)];
    }

    /** The opening without answers or a card: ask for the name straight away. */
    method GreetCold()
      requires messages == []
      modifies this
      ensures State() == OpenCold(old(State()))
    {
      AddMessage(Bot, Greeting);
      AddMessage(Bot, AskNameColdStart);
      step := EnteringName;
      assert messages == [Message(Bot, Greeting), Message(Bot, AskNameColdStart)];
    }

    /** The name input's `onChange`. */
    method OnNameInput(value: string)
      modifies this
      ensures State() == EditName(old(State()), value)
    {
      companyName := value;
    }

    /** `handleCompanySubmit`, with its timer run to completion. */
    method HandleCompanySubmit()
      modifies this
      ensures State() == SubmitName(old(State()))
    {
      if Js.IsBlank(companyName) {
        return;
      }
      AddMessage(User, Typed(companyName));
      if selectedService != "" || addExtra {
        AddMessage(Bot, ExcellentChoice(companyName));
        AddMessage(Bot, DetailsIntro);
        if addExtra && selectedService == "" {
          step := ChoosingService;
          AddMessage(Bot, AskBasePackage);
        } else {
          step := PackageDetails;
        }
      } else {
        AddMessage(Bot, NiceToMeet(companyName));
        step := ChoosingService;
      }
    }

    /** `handleServiceSelect(service)`, with its timers run to completion. */
    method HandleServiceSelect(service: string)
      modifies this
      ensures State() == SelectService(old(State()), service)
    {
      selectedService := service;
      AddMessage(User, ServiceEcho(service));
      AddMessage(Bot, GreatChoice(service));
      AddMessage(Bot, Preparing);
      step := PackageDetails;
    }

    /** `handleAction('back')`. */
    method HandleBack()
      modifies this
      ensures State() == BackToPlans(old(State()))
    {
      step := ChoosingService;
      addExtra := false;
    }

    /** The add-on button's `onClick`. */
    method ToggleExtra()
      modifies this
      ensures State() == ChatMachine.ToggleExtra(old(State()))
    {
      addExtra := !addExtra;
    }

    /** `resetChat`. */
    method ResetChat()
      modifies this
      ensures State() == Reset(old(State()))
    {
      messages := [];
      step := Welcome;
      companyName := "";
      selectedService := "";
      addExtra := false;
    }

    /**
     * `handleAction('buy')`: the link handed to `window.open`. The session is
     * left as it is. The body builds the total, the form block, the text and
     * the link step by step, as the handler does; `ChatMachine.BuyLink`, built
     * from `ChatRules.HandoffText` and `ChatRules.DeepLink`, is the pure
     * specification it is proved equal to.
     */
    method Buy(data: Option<Answers>, formatAmount: nat -> string, encode: string -> string) returns (url: string)
      requires IsPackageName(selectedService)
      ensures url == BuyLink(State(), data, formatAmount, encode)
    {
      var pkg := Lookup(selectedService).value;
      var totalInvest := if addExtra then pkg.price + Extra.price else pkg.price;
      var questionnaireInfo := "";
      if data.Some? {
        questionnaireInfo := FormHeader + AnswerSummary(data.value);
      }
      var text := IntroPrefix + companyName + "*.\n" + questionnaireInfo + "\n\n"
        + PackageChoice(selectedService, addExtra) + InvestmentLine(formatAmount(totalInvest));
      url := "https://wa.me/" + WhatsAppNumber + "?text=" + encode(text);
    }
  }
}
