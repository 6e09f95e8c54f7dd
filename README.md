# Rozkvit Temple site script: a Dafny model

This project models the interactive core of the Rozkvit Temple web page
script (`script.js`):

- **Responder**: the AI teacher's reply selector, `generateAIResponse`. It
  lower-cases the message, walks a fixed, ordered keyword table, answers
  from the first entry whose keyword occurs in the message, and otherwise
  answers from the default replies. The reply is picked at random with
  `Math.floor(Math.random() * n)`.
- **Chat**: the chat shell around the selector, as a `ChatSession` class.
  It covers the input box, the send button's enabled state, the transcript
  of user and AI bubbles, the typing indicator, and the replies still
  waiting on their timers. Its operations are `initAITeacher` (the
  constructor), the input, click and key-press listeners, `sendMessage`,
  `askQuickQuestion`, and the reply timer firing.
- **Forms**: the contact, booking and event submit handlers. They cover the
  required-field presence checks, the notices, and the submit button's
  loading state.
- **Navigation**: the highlighting of the nav link for the section being
  read, and the hamburger menu toggle.
- **Text**: the string primitives these rely on: `trim`, `toLowerCase` and
  `includes`.
- **ResponderScenarios**: example messages, showing which table entry
  answers each one.

Calls into the browser are modelled as follows:

- `Math.random()` is a parameter `r`, a real number in [0, 1).
- A timer firing is an explicit operation: `DeliverReply` for the chat, and
  `SubmitButton.Finish` for the forms.
- The DOM elements the code mutates are class fields: the send button's
  `disabled`, the input's `value`, a link's `active` class, and the
  hamburger's and menu's `active` classes.

The selector takes its table as a parameter. The widget's own table is the
constant `Responder.Table`, seven entries of three replies each, keyed
`Responder.Keywords`. The default replies are `Responder.DefaultReplies`.
A `ChatSession` is built with the table it answers from. `BuiltInTable`
shows that the widget's table meets the constructor's requirements.

Replies can arrive out of order. `sendMessage` sets a timer with a random
delay of 1 to 3 seconds, so an earlier question can be answered after a
later one. The session therefore keeps the unanswered questions in
`pending`, and `DeliverReply(k, r)` answers any one of them.

## Model

| member | source | states |
|---|---|---|
| Text.StartOfText | script.js:603 | the first position from `i` on that is not whitespace; everything skipped is whitespace |
| Text.EndOfText | script.js:603 | the position after the last non-whitespace character of the range; everything dropped after it is whitespace |
| Text.TrimIsInnerSlice | script.js:603 | `trim` returns a contiguous slice of its input with only whitespace outside it, and the slice neither starts nor ends with whitespace |
| Text.TrimEmptyIff | script.js:594 | a value trims to the empty string exactly when it is made of whitespace only, the empty value included |
| Text.TrimIdempotent | script.js:603 | trimming twice equals trimming once |
| Text.TrimTrimmed | script.js:603 | `trim` leaves a trimmed string unchanged |
| Text.LowerCharAlphabet | script.js:735 | each capital letter becomes the small letter at the same place in the alphabet; every other character is unchanged |
| Text.ToLowerIdempotent | script.js:735 | lower-casing an already lower-cased string changes nothing |
| Text.SameIgnoringCaseIff | script.js:735 | two strings lower-case to the same string exactly when they agree character by character up to letter case |
| Text.IncludesLowered | script.js:735-739 | if a message contains a word in any letter case, its lower-cased form contains the lower-cased word |
| Text.MissingCharExcludes | script.js:739 | a message lacking one of a keyword's characters, in any case, does not contain the keyword once lower-cased |
| Text.MissingCharInWindow | script.js:739 | the same holds when the character is missing only from the positions where it could fall in an occurrence |
| Text.MissingPairExcludes | script.js:739 | a message lacking two adjacent characters of a keyword does not contain the keyword once lower-cased |
| Text.LowerCaseFixed | script.js:735 | a string without upper-case ASCII letters is its own lower-case form |
| Responder.BuiltInTable | script.js:683-754 | the widget's table has seven entries in the declared keyword order, each with three replies, and there are eight default replies |
| Responder.KeywordsLowerCase | script.js:685-727 | every keyword is already lower case, so the match ignores letter case |
| Responder.ChooseIndex | script.js:740 | `Math.floor(r * n)` for `r` in [0, 1) is a valid index below `n` |
| Responder.EveryIndexReachable | script.js:740 | every index below `n` is chosen for some random value in [0, 1) |
| Responder.Pick | script.js:740 | the picked reply is one of the entry's replies |
| Responder.FirstMatch | script.js:738-741 | the result is the smallest index whose keyword the message contains, and it is `None` exactly when no keyword occurs |
| Responder.Reply | script.js:682-757 | the reply belongs to the first matching entry's replies, or to the default replies when nothing matches |
| Responder.GenerateAIResponse | script.js:682-757 | the loop's result equals `Reply`: the earlier entries are all checked and missed, and the first hit answers |
| Responder.FirstMatchWins | script.js:738-741 | when entry `i` is the first whose keyword occurs, the replies are entry `i`'s, even if later keywords occur earlier in the message |
| Responder.NoMatchUsesDefaults | script.js:745-756 | a message with no keyword, the empty message included, is answered from the default replies |
| Responder.CaseInsensitive | script.js:735 | messages equal up to letter case are answered from the same replies |
| Responder.KeywordInAnyCase | script.js:735-740 | a keyword typed in any letter case selects its entry, provided no earlier keyword occurs |
| Responder.SelectedAnswers | script.js:683-756 | the widget answers from the entry named by `Selected`, or from the defaults when there is none |
| Responder.MeditationAlwaysWins | script.js:685-740 | any message containing "meditation" in any case is answered from the meditation entry, the first in the table |
| ResponderScenarios.FoundAt | script.js:735-739 | a word in any case at a known position is found by the lower-cased match |
| ResponderScenarios.SelectedIs | script.js:738-741 | entry `i` answers when its keyword occurs and no earlier keyword does |
| ResponderScenarios.StressOnly | script.js:683-741 | a message with "stress" at a known position, no d, k or p in any case, no v at the positions where "soul activation" could put one, and no y at those where "energy healing" could, is answered from the stress entry |
| ResponderScenarios.StressMessage | script.js:720-741 | "I've been feeling so much stress lately" is answered from the stress entry |
| ResponderScenarios.UpperChakraOnly | script.js:699-741 | a message with "CHAKRA" at a known position and no d or v in any case is answered from the chakra entry |
| ResponderScenarios.ChakraMessage | script.js:699-741 | "Tell me about CHAKRA balancing" is answered from the chakra entry, despite the upper case |
| ResponderScenarios.NoKeyword | script.js:683-756 | a message lacking the letters c, d, p, v and y and the pair "ss" gets a default reply |
| ResponderScenarios.WeatherMessage | script.js:738-756 | "What's the weather like" gets a default reply |
| ResponderScenarios.EmptyMessage | script.js:738-756 | the empty message gets a default reply |
| ResponderScenarios.PurposeOnly | script.js:713-741 | a message starting with "purpose" without c, d, n or v is answered from the purpose entry |
| ResponderScenarios.PurposefulMessage | script.js:713-741 | "purposeful" is answered from the purpose entry: matching is by substring, not by word |
| ResponderScenarios.ChakraAndMeditation | script.js:685-741 | a message containing both "chakra" and "meditation" is answered from the meditation entry, in either order |
| ResponderScenarios.ChakraThenMeditationMessage | script.js:685-741 | in "Is chakra work part of meditation?" the chakra keyword is found, yet the meditation entry answers |
| ResponderScenarios.AnsweredFrom | script.js:738-740 | a message the widget answers from entry `i` gets one of that entry's replies, for every random value |
| ResponderScenarios.AnsweredByDefault | script.js:745-756 | a message no keyword selects gets one of the default replies, for every random value |
| ResponderScenarios.StressReply | script.js:720-740 | "I've been feeling so much stress lately" gets one of the three stress replies |
| ResponderScenarios.ChakraReply | script.js:699-740 | "Tell me about CHAKRA balancing" gets one of the three chakra replies |
| ResponderScenarios.WeatherReply | script.js:738-756 | "What's the weather like" gets one of the eight default replies |
| ResponderScenarios.EmptyReply | script.js:738-756 | the empty message gets one of the eight default replies |
| ResponderScenarios.ChakraThenMeditationReply | script.js:685-740 | "Is chakra work part of meditation?" gets one of the three meditation replies |
| Chat.Count | script.js:608-621 | the count of a sender's messages is at most the transcript length, and zero exactly when the sender wrote none |
| Chat.CountAppend | script.js:608-621 | appending a bubble adds one to its sender's count and leaves the other count unchanged |
| Chat.Outgoing | script.js:603-605 | the text sent is trimmed and no longer than the input |
| Chat.OutgoingEmptyIff | script.js:594-605 | nothing is sent exactly when the input is whitespace only |
| Chat.ConsistentAfterSend | script.js:603-615 | posting a non-blank trimmed question and scheduling its reply keeps each user bubble matched by an AI bubble or a pending reply |
| Chat.ConsistentAfterReply | script.js:618-622 | posting the reply to one pending question and dropping that question keeps the conversation consistent |
| Chat.ChatSession.constructor | script.js:571-599 | the send button starts disabled; the transcript, the input and the pending replies are taken to start empty |
| Chat.ChatSession.OnInput | script.js:593-595 | the button is disabled exactly when the new value is blank; nothing else changes |
| Chat.ChatSession.AskQuickQuestion | script.js:759-766 | the input holds the question and the button is enabled, even for a blank question |
| Chat.ChatSession.SendMessage | script.js:601-623 | blank input changes nothing; otherwise the trimmed text is posted as a user bubble, the input is cleared, the button is disabled, the indicator is shown and a reply is pending; the button stays in step with the input |
| Chat.ChatSession.ClickSend | script.js:580-582 | a disabled button, or an enabled one over a blank input, changes nothing; an enabled button over a non-blank input posts the trimmed text, clears the input, disables the button, shows the indicator and schedules the reply |
| Chat.ChatSession.KeyPress | script.js:585-590 | Enter without Shift over a non-blank input sends, even when the button is disabled, with the same new state as `SendMessage`; any other key, or Enter over a blank input, changes nothing |
| Chat.ChatSession.DeliverReply | script.js:618-622 | the reply chosen for that pending question is posted as an AI bubble; it is one of the question's candidate replies; the question leaves `pending`; the indicator is hidden |
| Forms.AllFilled | script.js:219 | every listed field is present and not the empty string |
| Forms.BookingIncompleteIff | script.js:219-222 | the booking guard rejects exactly when one of its six required fields is missing or empty |
| Forms.EventIncompleteIff | script.js:246-249 | the event guard rejects exactly when one of its four required fields is missing or empty |
| Forms.BlankBookingAccepted | script.js:219 | required fields holding only a space pass: the check is for presence, not content |
| Forms.FormsIndependent | script.js:219-249 | dropping a field neither form requires changes neither guard |
| Forms.SubmitButton.StartLoading | script.js:199-202 | the button shows the progress label, is disabled, and the original label and the form's success notice are kept |
| Forms.SubmitButton.Finish | script.js:205-210 | the button gets its original label back, is enabled, and the notice the started submission carries is shown |
| Forms.HandleContactForm | script.js:194-211 | no field is checked; the button shows "Sending..." and is disabled, and completion shows "Message sent successfully! ..." |
| Forms.HandleBookingForm | script.js:214-238 | rejected, with the error notice and the button untouched, exactly when a required field is empty; otherwise the button shows "Submitting..." and is disabled, and completion shows "Booking request submitted! ..." |
| Forms.HandleEventForm | script.js:241-265 | rejected, with the error notice and the button untouched, exactly when a required field is empty; otherwise the button shows "Registering..." and is disabled, and completion shows "Event registration successful! ..." |
| Navigation.LastReached | script.js:107-114 | the result is the last section whose top minus 200 is at or above the scroll position, and it is `None` exactly when no section is reached |
| Navigation.ActiveSectionId | script.js:107-114 | the loop's `current` is the id of the last reached section, or "" when none is reached |
| Navigation.LastReachedMonotone | script.js:107-114 | scrolling further down never moves the current section to an earlier one |
| Navigation.CurrentIsBand | script.js:107-114 | with sections in offset order, the current section is the one whose band holds the scroll position |
| Navigation.UpdateActiveLinks | script.js:116-121 | exactly the links whose `href` is `#` plus the current id are active afterwards |
| Navigation.OnScroll | script.js:103-122 | exactly the links pointing at the current section are active; with no section reached, exactly the links whose `href` is `#` are active |
| Navigation.Menu.Toggle | script.js:77-80 | a hamburger click flips both `active` classes, so a button and menu that agreed still agree |
| Navigation.Menu.LinkClicked | script.js:83-88 | a link click closes both the button and the menu |

## Left out

- `toLowerCase` is modelled for ASCII letters only. Other scripts' case mappings are not modelled, and neither are mappings that change length. One of them matters for matching: KELVIN SIGN (U+212A) lower-cases to the ASCII `k`, so "CHA\u212ARA" matches `chakra` in the script but not in the model.
- `Math.random()` is a real number in [0, 1), not a double. Double rounding of `r * n` is not modelled: for the double nearest 1/3 and `n` = 3, the script's product rounds to 1.0 and picks index 1, while the model's exact product picks index 0. What both share, and what the model proves, is that the index is always below `n` and that every index below `n` can be chosen.
- Scroll positions and offsets are whole pixels. A fractional `window.scrollY` is not modelled.
- `initAITeacher` returns early when the input, the button or the container is missing. The model always has all three.
- Chat.ChatSession.constructor: `initAITeacher` only disables the send button. It neither clears the input nor inspects the chat container. The model assumes the page starts with an empty chat container and an empty input, and the consistency invariant relies on that empty start.
- `initAITeacher` is not called from `script.js` itself. The page is expected to call it.
- Timers are not modelled as time. The 1 to 3 second reply delay is replaced by an explicit `DeliverReply` call, in any order. The forms' 2 second submission is replaced by `SubmitButton.Finish`.
- The typing indicator's 300 ms delayed removal of `show` is not modelled. Neither is its fade animation. The indicator is shown on send and hidden when a reply arrives.
- The animations of new chat bubbles, the auto-scroll of the chat container, and the avatar markup are not modelled.
- `form.reset()` and `closeModal` in the form timers are not modelled. `showNotification`'s rendering is not modelled either: a notice is returned as a value.
- Chat.ChatSession.constructor: it does not register the event listeners. The listeners are the methods `OnInput`, `ClickSend` and `KeyPress`.
- The navbar's scroll style (lines 91-100) is not modelled, because it only sets colours and shadows. The same goes for video handling, counters, parallax, the debounced scroll handler, smooth scrolling, modals and other page animations.
- The image and font analysis helpers and the emoji fetch script are not part of this model.
