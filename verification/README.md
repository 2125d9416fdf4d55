# Nexus Dev sales assistant — a verified model

Nexus Dev's site has a scripted sales assistant (`components/Chatbot.tsx`)
and a five-question intake questionnaire (`components/Questionnaire.tsx`).
The assistant greets the visitor and asks for the company name. It then
either shows the package list or goes straight to a package's details:
price, monthly maintenance and an optional scheduling add-on. At the end it
hands the conversation over to WhatsApp with a pre-filled message. The
questionnaire collects five answers, and from those the assistant recommends
one of the four packages.

The model is in Dafny, one module per concern:

- `Js` (`js.dfy`): the JavaScript built-ins the component relies on. These
  are `includes`, `trim` with the full ECMAScript whitespace set, and `join`.
- `Catalog` (`catalog.dfy`): `PACKAGE_INFO` and `EXTRA_INFO` with every
  text and price, the key lookup, the price and maintenance totals, and the
  rule for when the add-on toggle is drawn.
- `Questionnaire` (`questionnaire.dfy`): the `QUESTIONS` table and a pure
  stepper. It includes runs over click sequences and the `Stepper` class,
  whose `currentStep` and `answers` fields are updated in place as the
  component's state setters do.
- `ChatRules` (`chat_rules.dfy`): `suggestPackage` and its rule table, the
  `Object.entries` summary of the answers, and the WhatsApp hand-off text
  and link.
- `ChatMachine` (`chat_machine.dfy`): the session as a pure state machine
  over `step`, `messages`, `companyName`, `selectedService` and `addExtra`.
  There is one function per handler, plus event runs. Bot messages are lines
  of a fixed script; `Text` gives each line's exact wording.
- `ChatSession` (`chat_session.dfy`): the `Session` class. Its handlers
  update the five fields step by step through `AddMessage`, and each is
  proved to reach the state the pure machine prescribes.
- `ChatProperties` (`chat_properties.dfy`): whole-conversation properties:
  - the history is append-only;
  - on the page, the chosen service is always a catalog key;
  - the four opening routes;
  - the React add-on quirk;
  - the questionnaire-to-assistant coupling.

Two behaviours of the component are modelled as written:

- The add-on flag survives a package choice. So the add-on card followed by
  "Pacote React" prices the session at 3500 + 500 = 4000, although the
  React details draw no toggle (`ChatProperties.AddOnCardThenReactKeepsAddOn`).
- A preselected name outside the catalog is stored as the chosen service.
  A natural reading would fall back to the cold start, but the component
  keeps the name, and the model follows the component. The session then
  reaches the details step without a package: for a name that is not a
  property of `PACKAGE_INFO` at all the panel draws nothing, and for a name
  inherited from `Object.prototype` (`constructor`, `toString`, ...) the
  render throws at `pkg.bullets.map` (`components/Chatbot.tsx:254`)
  (`ChatProperties.UnknownPreselectionIsKept`). The package cards only ever
  send catalog keys or `'Extra'` (`components/Services.tsx:106`). For the
  events the page can produce, `ChatProperties.DetailsStepAlwaysHasPackage`
  shows that the details step always has its package.

## Model

| member | source | states |
|---|---|---|
| `Js.Includes` | components/Chatbot.tsx:261 | `s.includes(t)` holds exactly when `t` occurs in `s` at some position |
| `Js.TrimStart` | components/Chatbot.tsx:168 | the result is a suffix of the input; every character dropped before it is whitespace, and it does not start with whitespace |
| `Js.TrimEnd` | components/Chatbot.tsx:168 | the result is a prefix of the input; every character dropped after it is whitespace, and it does not end with whitespace |
| `Js.Trim` | components/Chatbot.tsx:168 | `s.trim()`: the result is a slice of `s` with only whitespace before and after it, and neither end of a non-empty result is whitespace; `Js.BlankIffTrimEmpty` says when it is empty |
| `Js.TrimKeepsSlice` | components/Chatbot.tsx:168 | trimming both ends leaves the slice of `s` that starts where the leading whitespace ends, with only whitespace around it |
| `Js.BlankIffTrimEmpty` | components/Chatbot.tsx:168 | `trim()` gives `''` exactly when every character is ECMAScript whitespace |
| `Js.Join` | components/Chatbot.tsx:121 | `items.join(sep)`; it has no contract of its own, and `ChatRules.AllAnsweredSummary` states the joined lines of a full record |
| `Catalog.Lookup` | components/Chatbot.tsx:12-49 | `PACKAGE_INFO[name]` as an own key: defined exactly for the four keys, each giving its own package |
| `Catalog.OwnAndInheritedDisjoint` | components/Chatbot.tsx:12-49 | no package key is also one of the twelve names every object inherits from `Object.prototype` |
| `Catalog.TotalPrice` | components/Chatbot.tsx:208-209 | the investment; no contract of its own, and `Catalog.TotalsWithAndWithoutExtra` and `Catalog.PriceTable` state its values |
| `Catalog.TotalMaint` | components/Chatbot.tsx:244 | the monthly maintenance; no contract of its own, and `Catalog.TotalsWithAndWithoutExtra` states its values |
| `Catalog.ToggleOffered` | components/Chatbot.tsx:261 | `!selectedService.includes('React')`; no contract of its own, and `Catalog.ToggleOfferedForKey` states when it holds |
| `Catalog.TotalsWithAndWithoutExtra` | components/Chatbot.tsx:209 | with the add-on, the price rises by exactly 500 and the maintenance by 200; without it, both are the package's own |
| `Catalog.PriceTable` | components/Chatbot.tsx:12-56 | the price with and without the add-on for each of the four packages (500/1000, 900/1400, 1500/2000, 3500/4000); maintenance rises by 200 |
| `Catalog.ToggleOfferedExactlyBelowReact` | components/Chatbot.tsx:261 | among the four keys, the toggle is drawn for every key except `'Pacote React'` |
| `Catalog.ToggleOfferedForKey` | components/Chatbot.tsx:261 | for a catalog key, the toggle is drawn exactly when the key is not `'Pacote React'` |
| `Catalog.PackageNamesDistinct` | components/Chatbot.tsx:365 | the package list offers four distinct choices |
| `Questionnaire.StartValid` | components/Questionnaire.tsx:41-42 | the initial stepper, on question 0 with no answers, satisfies the stepper invariant that `RunKeepsValid` assumes |
| `Questionnaire.QuestionIdsFollowIndex` | components/Questionnaire.tsx:12-38 | the five questions carry ids 1..5 in display order, so `QUESTIONS[i].id == i + 1` |
| `Questionnaire.SelectOption` | components/Questionnaire.tsx:45-54 | the current question's answer becomes the option and every other answer is kept; before the last question the step advances by one with no completion; on the last question the step stays and the updated answers are handed over |
| `Questionnaire.GoBack` | components/Questionnaire.tsx:56-60 | the step drops by one when above 0, and is unchanged at 0; the answers are never touched |
| `Questionnaire.SelectOptionKeepsValid` | components/Questionnaire.tsx:45-54 | an offered option keeps the step in 0..4, every answer one of its question's options and ids 1..step+1 answered; a completion answers all five questions |
| `Questionnaire.GoBackKeepsValid` | components/Questionnaire.tsx:56-60 | going back keeps the stepper valid |
| `Questionnaire.Run` | components/Questionnaire.tsx:45-60 | a run of clicks keeps `currentStep` within 0..4 |
| `Questionnaire.RunKeepsValid` | components/Questionnaire.tsx:133-136 | any run of offered clicks keeps the stepper valid, and every record handed to `onComplete` answers all five questions, each with one of its own options |
| `Questionnaire.StepBoundedByChoices` | components/Questionnaire.tsx:49-50 | the step never runs ahead of the options chosen, so the first completion needs at least five choices |
| `Questionnaire.Stepper.constructor` | components/Questionnaire.tsx:41-42 | a fresh stepper is on question 0 with no answers |
| `Questionnaire.Stepper.HandleOptionSelect` | components/Questionnaire.tsx:45-54 | updates the fields, and returns the completion, as `SelectOption` prescribes |
| `Questionnaire.Stepper.HandleBack` | components/Questionnaire.tsx:56-60 | updates the step as `GoBack` prescribes |
| `Questionnaire.Stepper.Progress` | components/Questionnaire.tsx:64 | progress is (step + 1) * 20, lies in 20..100 and is 100 exactly on the last question |
| `ChatRules.SuggestPackage` | components/Chatbot.tsx:83-98 | no suggestion exactly when there is no data; any suggestion is a catalog key |
| `ChatRules.SuggestionIsFirstMatchingRule` | components/Chatbot.tsx:88-97 | the suggestion is the package of the first matching row of the rule table, in order: slow site or direct sales gives React; portfolio or institutional gives Completo; authority gives Profissional; otherwise Básico |
| `ChatRules.SuggestionReadsOnlyObjectiveAndPain` | components/Chatbot.tsx:85-86 | two answer records that agree on answers 2 and 5 get the same suggestion |
| `ChatRules.EntriesFrom` | components/Chatbot.tsx:112 | every listed entry is a recorded answer with its value, and the ids strictly ascend |
| `ChatRules.EntriesFromListEveryAnswer` | components/Chatbot.tsx:112 | no recorded answer is left out of the entries |
| `ChatRules.AnswerLines` | components/Chatbot.tsx:112-121 | one `• label: answer` line for each recorded answer of `m`, with its own label and value, in ascending question-id order, and no recorded answer left out |
| `ChatRules.AllAnsweredEntries` | components/Chatbot.tsx:112 | with all five answered, the entries are the five answers in id order |
| `ChatRules.AllAnsweredSummary` | components/Chatbot.tsx:112-121 | with all five answered, the summary lines are the five labelled answers, `Possui site` to `Maior dor` |
| `ChatRules.AnswerSummary` | components/Chatbot.tsx:112-121 | the summary text; no contract of its own, and `ChatRules.AnswerLines` and `ChatRules.AllAnsweredSummary` state its lines |
| `ChatRules.FormBlock` | components/Chatbot.tsx:210-223 | `questionnaireInfo`; no contract of its own, and `ChatRules.HandoffCarriesFormIffData` states where it sits in the hand-off |
| `ChatRules.HandoffText` | components/Chatbot.tsx:225 | the WhatsApp message; no contract of its own, and the three `Handoff…` lemmas below state how it opens, what it carries and how it closes |
| `ChatRules.PackageChoiceWithoutAddOn` | components/Chatbot.tsx:225 | without the add-on, the package line of a catalog key never ends in ` + Sistema de Agendamento` |
| `ChatRules.HandoffOpensWithCompany` | components/Chatbot.tsx:225 | the hand-off text starts by introducing `*companyName` |
| `ChatRules.HandoffClosesWithChoiceAndTotal` | components/Chatbot.tsx:209-225 | the text ends with the investment line for the total price; before that line it names the package; the add-on label is there exactly when the add-on is on |
| `ChatRules.HandoffCarriesFormIffData` | components/Chatbot.tsx:211-225 | the form-answers header follows the introduction exactly when questionnaire data is present; it is then followed by the answer lines and a blank line |
| `ChatRules.DeepLink` | components/Chatbot.tsx:227 | the link is `https://wa.me/5515996901137?text=` followed by the encoded text |
| `ChatMachine.Text` | components/Chatbot.tsx:108-194 | the exact wording of each message; no contract of its own, and the six lemmas below state what the lines quote |
| `ChatMachine.UserLinesEchoInput` | components/Chatbot.tsx:169-190 | the user's name bubble is exactly the typed name, and the choice bubble quotes the chosen package |
| `ChatMachine.ExcellentChoiceQuotesName` | components/Chatbot.tsx:173 | the reply to a name when a package is already in view addresses the company by that name |
| `ChatMachine.NiceToMeetQuotesName` | components/Chatbot.tsx:182 | the cold-start reply to a name addresses the company by that name |
| `ChatMachine.SuggestionQuotesPackage` | components/Chatbot.tsx:131 | the recommendation quotes the suggested package |
| `ChatMachine.PackageInterestQuotesPackage` | components/Chatbot.tsx:145 | the greeting after a package card quotes the package |
| `ChatMachine.GreatChoiceQuotesPackage` | components/Chatbot.tsx:193 | the reply to a choice from the list quotes the package |
| `ChatMachine.AddMessage` | components/Chatbot.tsx:162-164 | one message is appended at the end; the old history is a prefix; nothing else changes |
| `ChatMachine.Open` | components/Chatbot.tsx:106-160 | runs only when open with no messages; all messages are bot messages, the greeting comes first and the route's name question comes last; the step is ENTERING_NAME and the name is kept; `'Extra'` turns the add-on on, another preselection becomes the service, and data or no preselection touches neither |
| `ChatMachine.OpenWithAnswers` | components/Chatbot.tsx:108-139 | with answers: greeting, receipt, recap, the suggestion of `suggestPackage` and the name question, all from the bot; the step is ENTERING_NAME and nothing else changes |
| `ChatMachine.OpenWithPreselection` | components/Chatbot.tsx:140-152 | after a card: greeting, interest line and name question; `'Extra'` turns the add-on on, and any other name becomes the service |
| `ChatMachine.OpenCold` | components/Chatbot.tsx:153-157 | cold start: greeting and name question; the step is ENTERING_NAME and nothing else changes |
| `ChatMachine.EditName` | components/Chatbot.tsx:387 | only the company name changes |
| `ChatMachine.SubmitName` | components/Chatbot.tsx:166-186 | a blank name changes nothing; otherwise the user's name message comes first, followed only by bot messages; the step is PACKAGE_DETAILS exactly when a service is chosen, and CHOOSING_SERVICE otherwise; name, service and add-on are kept |
| `ChatMachine.SubmitNameCases` | components/Chatbot.tsx:169-184 | the exact reply to a submitted name in each of the three cases: package list, details, or the base-package question for the add-on alone |
| `ChatMachine.SelectService` | components/Chatbot.tsx:188-199 | the service is recorded; one user message and two bot messages are appended; the step is PACKAGE_DETAILS; the add-on and the name are kept |
| `ChatMachine.BackToPlans` | components/Chatbot.tsx:202-206 | the step is CHOOSING_SERVICE and the add-on is off; history, name and service are kept |
| `ChatMachine.ToggleExtra` | components/Chatbot.tsx:270 | only the add-on flag changes, and it flips |
| `ChatMachine.Reset` | components/Chatbot.tsx:230-237 | every field is back to its initial value |
| `ChatMachine.Details` | components/Chatbot.tsx:239-261 | a panel is drawn exactly for a catalog key, with its package, totals raised by 500 and 200 exactly when the add-on is on, and the toggle exactly when the service is not React; the render fails exactly for an inherited `Object.prototype` name; any other name draws nothing |
| `ChatMachine.BuyLink` | components/Chatbot.tsx:201-228 | the buy link carries the encoded hand-off text for the session's name, service and add-on |
| `ChatSession.Session.constructor` | components/Chatbot.tsx:73-77 | a new session is in the initial state |
| `ChatSession.Session.AddMessage` | components/Chatbot.tsx:162-164 | the field update that `ChatMachine.AddMessage` prescribes |
| `ChatSession.Session.OnOpen` | components/Chatbot.tsx:106-160 | the field updates that `ChatMachine.Open` prescribes |
| `ChatSession.Session.GreetWithAnswers` | components/Chatbot.tsx:108-139 | the field updates of the opening with answers, as `ChatMachine.OpenWithAnswers` prescribes |
| `ChatSession.Session.GreetAfterCard` | components/Chatbot.tsx:140-152 | the field updates of the opening after a card, as `ChatMachine.OpenWithPreselection` prescribes |
| `ChatSession.Session.GreetCold` | components/Chatbot.tsx:153-157 | the field updates of the cold opening, as `ChatMachine.OpenCold` prescribes |
| `ChatSession.Session.OnNameInput` | components/Chatbot.tsx:387 | the field update that `ChatMachine.EditName` prescribes |
| `ChatSession.Session.HandleCompanySubmit` | components/Chatbot.tsx:166-186 | the field updates that `ChatMachine.SubmitName` prescribes |
| `ChatSession.Session.HandleServiceSelect` | components/Chatbot.tsx:188-199 | the field updates that `ChatMachine.SelectService` prescribes |
| `ChatSession.Session.HandleBack` | components/Chatbot.tsx:202-206 | the field updates that `ChatMachine.BackToPlans` prescribes |
| `ChatSession.Session.ToggleExtra` | components/Chatbot.tsx:270 | the field update that `ChatMachine.ToggleExtra` prescribes |
| `ChatSession.Session.ResetChat` | components/Chatbot.tsx:230-237 | the field updates that `ChatMachine.Reset` prescribes |
| `ChatSession.Session.Buy` | components/Chatbot.tsx:208-227 | the assembled link is `ChatMachine.BuyLink` of the session; the session is left as it is |
| `ChatProperties.ApplyExtendsHistory` | components/Chatbot.tsx:162-164 | every event except closing keeps the history as a prefix |
| `ChatProperties.MessagesOnlyGrow` | components/Chatbot.tsx:162-164 | until the panel is closed, messages are only ever appended at the end |
| `ChatProperties.CloseForgetsEverything` | components/Chatbot.tsx:340 | after closing, a conversation goes exactly as from a fresh session |
| `ChatProperties.InitialConsistent` | components/Chatbot.tsx:73-77 | the initial session satisfies the session invariant |
| `ChatProperties.ApplyKeepsConsistent` | components/Chatbot.tsx:365-368 | the events the page can produce keep three things: SUMMARY and REDIRECTING are never entered, the service is empty or a catalog key, and the details step has a service |
| `ChatProperties.RunKeepsConsistent` | components/Chatbot.tsx:365-368 | the invariant holds after any run of such events |
| `ChatProperties.DetailsStepAlwaysHasPackage` | components/Chatbot.tsx:239-241 | from any consistent session, the initial one included, page events never reach the details step without its package: the service is a catalog key and the panel is drawn |
| `ChatProperties.HandoffQuotesDetailsTotal` | components/Chatbot.tsx:209-225 | the hand-off ends with the total the details panel shows; the add-on label is there exactly when that total exceeds the package price |
| `ChatProperties.SubmitIgnoresNamesThatTrimToEmpty` | components/Chatbot.tsx:168 | submitting changes nothing exactly when `companyName.trim()` is empty |
| `ChatProperties.ToggleTwiceRestores` | components/Chatbot.tsx:270 | toggling the add-on twice restores the session |
| `ChatProperties.BackThenChooseIsPricedWithoutAddOn` | components/Chatbot.tsx:202-206 | after going back, a chosen package is priced without the add-on |
| `ChatProperties.RunChatAppend` | components/Chatbot.tsx:166-199 | a helper for composing runs of the handlers: running two event sequences in turn is running their concatenation |
| `ChatProperties.ColdStartNamed` | components/Chatbot.tsx:153-184 | cold start up to the name: the exact four-message history, and the package list is shown |
| `ChatProperties.ColdStartRoute` | components/Chatbot.tsx:153-157 | cold start, name, package: the exact seven-message history; details at the package's own price, add-on off |
| `ChatProperties.PreselectedPackageRoute` | components/Chatbot.tsx:144-152 | a preselected package goes from the name straight to its details, with the exact six-message history |
| `ChatProperties.AddOnCardRoute` | components/Chatbot.tsx:141-143 | the add-on card turns the add-on on; after the name, the bot asks which base package to attach it to |
| `ChatProperties.AddOnCardThenReactKeepsAddOn` | components/Chatbot.tsx:188-199 | the add-on card followed by React keeps the add-on: total 4000, maintenance 700, no toggle drawn |
| `ChatProperties.UnknownPreselectionIsKept` | components/Chatbot.tsx:145-146 | a preselected name outside the catalog becomes the service, and the details step is reached without a panel: the render fails for an inherited name and draws nothing for any other |
| `ChatProperties.QuestionnaireRoute` | components/Chatbot.tsx:110-139 | with answers, the bot recaps them and names the first-match suggestion, a catalog key; it chooses nothing, so the name leads to the package list; a preselection alongside the answers is ignored |
| `ChatProperties.QuestionnaireRecordsFeedTheChat` | components/Questionnaire.tsx:52 | every record the questionnaire hands over is complete, is recapped as the five labelled answers, and leads to a catalog suggestion |
| `ChatProperties.EveryPackageIsRecommendable` | components/Chatbot.tsx:83-98 | each of the four packages is recommended for some complete set of answers |

## Left out

- Rendering, animation, scrolling and dragging are presentational and not
  modelled. This covers the JSX, `framer-motion` and the auto-scroll effect.
- The `setTimeout` delays are not modelled. Each handler's deferred updates
  run as one atomic step. The model therefore does not cover timers that
  fire after the panel was reset, which is an interleaving concern.
- `window.open` is I/O and is not modelled; the model only builds the link.
- `encodeURIComponent` and `toLocaleString('pt-BR')` are host functions.
  They appear as uninterpreted function parameters (`encode`, `formatAmount`).
- `setIsOpen` and `setInitialPackage(null)` update the parent's state. The
  props `isOpen`, `initialPackage` and `questionnaireData` are parameters of
  the opening event, so closing only resets the five session fields.
- The opening effect re-runs when its props change. It is modelled as an
  event carrying the props, which does nothing unless the panel is open with
  an empty history.
- The `else` branch at `components/Chatbot.tsx:135-138` cannot run:
  `suggestPackage` returns a package for any present data. `ChatMachine.Open`
  leaves it out, and `Session.OnOpen` marks it unreachable.
- `questionnaireData` is typed `any`. It is modelled as an optional map from
  question ids 1..5 to strings. Other keys, non-string answers and
  `Object.entries` ordering for non-integer keys are not modelled.
- `ChatSession.Session.Buy` requires the service to be a catalog key. For a
  name that is not a property at all, the component would throw while
  reading `pkg.price`. For an inherited name `pkg.price` is `undefined`:
  without the add-on `totalInvest` is `undefined` and the call to
  `toLocaleString` throws (`components/Chatbot.tsx:209`,
  `components/Chatbot.tsx:225`); with the add-on `undefined + 500` is `NaN`
  and the message would quote `NaN`. Neither case is modelled. The buy button sits in the details panel, which is drawn
  only for a catalog key.
- `Catalog.Lookup` reads own keys only. For an inherited `Object.prototype`
  name the value would be a function or an object. The model does not
  represent that value. `ChatMachine.Details` instead records the outcome,
  which is a render that throws at `pkg.bullets.map`
  (`components/Chatbot.tsx:254`).
- The component draws each control only in its own step. The name form
  appears in ENTERING_NAME (`components/Chatbot.tsx:382`). The package
  buttons appear in CHOOSING_SERVICE (`components/Chatbot.tsx:362`). Back
  and the add-on toggle appear in the details panel
  (`components/Chatbot.tsx:261`, `components/Chatbot.tsx:296`), which is
  drawn only in PACKAGE_DETAILS (`components/Chatbot.tsx:378`).
  `ChatMachine.Apply` does not model these step guards: it accepts every
  event in every step. The lemmas about runs therefore hold over a larger
  set of runs than the page can produce.
- The SUMMARY and REDIRECTING steps are declared but never entered.
  `ChatProperties.Consistent` records this.
