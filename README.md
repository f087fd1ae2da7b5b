# WhatsApp appointment-booking bot — Dafny model

This project models the decision logic of a Flask webhook for the WhatsApp
Business Platform that books appointments in a fixed four-turn dialogue:

- `AppointmentBookingBot` keeps a dictionary `user_states` from phone number to
  `{step, details{name, date, time}}`.
- `get_next_message` asks for a name, then offers three date buttons (today,
  tomorrow, the day after), then asks for a time, then confirms.
- Confirmation uploads a PDF, sends it with the caption
  `Thank you, {name}! Your appointment is scheduled for {date} at {time}.`, and
  forgets the number once both requests succeeded.
- `handle_message` routes each inbound event: a status callback is
  acknowledged; the `book_appt` button starts booking; other button replies and
  plain messages are dialogue turns only for numbers with a conversation; a
  button reply from any other number is acknowledged and ignored; a message
  missing a nested field ends in 500; every other event goes to an external
  validator.
- `verify` answers the webhook subscription handshake.

Modules:

- `Wrappers` (`wrappers.dfy`): `Option`, for Python's `None`.
- `Calendar` (`calendar.dfy`): proleptic Gregorian dates as
  `datetime.date` has them, and the day after a date. It also holds the
  `%Y-%m-%d` rendering, proved to be inverted by `Parse` and to order dates the
  way Python orders the strings.
- `Messages` (`messages.dfy`): the outbound payloads
  (`TextPrompt | ButtonPrompt | Document`), the three prompt composers and the
  confirmation caption.
- `Booking` (`booking.dfy`): the per-user state, the pure transition `Step`, and
  `Advance`, which specifies `get_next_message`. It also holds the class
  `BookingBot`, whose `userStates: map<string, UserState>` field the methods
  `InitializeUser`, `GetNextMessage` and `ConfirmAppointment` update in place.
  Each method is proved equal to the pure specification.
- `Webhook` (`webhook.dfy`): the inbound event, `Classify` (the routing
  decision), `Handle` (the specification of `handle_message`), the method
  `HandleMessage` over a `BookingBot`, and `Verify`.

External collaborators become parameters and results:

- "Today" (`datetime.now().date()`) is a `Date` parameter.
- The provider's answers to the media upload and the document send are a
  `Provider` value: a media id or none, and whether the send was accepted.
- The external check `is_valid_whatsapp_message` is a boolean input.
- Every outbound request is returned, in order, as an `Effect`:
  - `UploadMedia` is the upload;
  - `Send` is a message the core composes (the acknowledgement text, the
    document);
  - `Forward` is `send_message` applied to what `get_next_message` returned;
  - `Delegated` is `process_whatsapp_message`.

Behaviour of the code that the model keeps on purpose:

- The entry is deleted inside `confirm_appointment`, not by the dispatcher.
- An interactive message that is not a button reply goes to the external
  validator. It is not classified as unrecognised.
- A missing nested field raises. The framework then answers 500; the event is
  not classified as unrecognised.
- A non-interactive message from a number in conversation is a turn whatever
  its `type`, as long as `text.body` is present. The type is never compared
  with `"text"`.
- A failed upload or send leaves the step advanced. The step does not stay
  where it was.

## Model

| member | source | states |
|---|---|---|
| `Calendar.NextDay` | app/views.py:73 | `d + timedelta(days=1)` is a valid date strictly after `d`, and no valid date lies between them |
| `Calendar.Upcoming` | app/views.py:73 | the three dates offered are today and its next two successors, in that order, all valid |
| `Calendar.Format` | app/views.py:75 | `%Y-%m-%d` is ten characters: four digits, `-`, two digits, `-`, two digits |
| `Calendar.Parse` | app/views.py:75 | reading a `%Y-%m-%d` string back yields only valid dates |
| `Calendar.ParseFormat` | app/views.py:75 | reading a rendered date back gives the same date |
| `Calendar.FormatParse` | app/views.py:75 | every string that reads back as a date is that date's rendering, so the rendering is a bijection onto well-formed strings |
| `Calendar.FormatInjective` | app/views.py:75 | distinct dates render to distinct strings, so the date buttons have distinct ids |
| `Calendar.FormatOrderReflectsTime` | app/views.py:75 | two rendered dates compare as strings exactly as the dates compare in time, in both directions |
| `Calendar.FormatMonotone` | app/views.py:75 | an earlier date renders to a string that is smaller under Python's string order |
| `Messages.AskName` | app/views.py:58-67 | the name question is a text message to the user with the fixed body, and differs from the time question |
| `Messages.AskTime` | app/views.py:114-123 | the time question is a text message to the user with the fixed body |
| `Messages.AskDate` | app/views.py:69-103 | the date picker is a button prompt to the user with the fixed header, body and footer and exactly three buttons |
| `Messages.DateButtons` | app/views.py:78-80 | one reply button per date, in order, whose id and title are both that date's rendering |
| `Messages.AskDateOffersNextThreeDays` | app/views.py:69-103 | the date prompt is a button prompt for the user. It has exactly 3 buttons, each with id equal to title. They are the renderings of today, today+1 and today+2 in that order; they read back as those dates, increase as strings, and never equal `book_appt` |
| `Messages.ConfirmationText` | app/views.py:126-129 | the caption is as long as the fixed phrases and the three rendered details together, plus the final full stop |
| `Messages.ConfirmationTextLayout` | app/views.py:126-129 | the caption has name, date and time verbatim in their places between the fixed phrases, with `None` rendered as "None" |
| `Booking.Step` | app/views.py:39-55 | below step 4 a turn moves the step on by exactly one; at step 4 or more it changes nothing; the well-formedness of an entry is kept |
| `Booking.ConfirmEffects` | app/views.py:131-157 | confirmation always attempts the upload first. When a media id came back, the only other request is the document, addressed to the user with the caption; otherwise the upload is the only request |
| `Booking.ConfirmReply` | app/views.py:141-175 | the result is success exactly when upload and send both succeeded. A failed upload is reported as "Failed to upload media", a refused send after a successful upload as "Failed to send message"; the result is never a prompt |
| `Booking.Advance` | app/views.py:31-175 | only the user's entry changes. It is removed exactly when a confirmation was attempted (step 3 or more) and delivered; otherwise it takes one `Step`. Well-formed dictionaries stay well formed |
| `Booking.FirstContactAsksName` | app/views.py:31-41 | an unknown number gets step 1 with no details and the ask-name prompt, with no request sent, whatever the response |
| `Booking.CollectingStepStoresResponse` | app/views.py:42-53 | at steps 1, 2 and 3 the response is stored verbatim in name, date and time respectively, the step rises by one, and the other two details are unchanged |
| `Booking.CollectingStepPrompts` | app/views.py:39-49 | a stored entry at step 0 (as `initialize_user` leaves it) answers with the name prompt, step 1 with the date prompt, step 2 with the time prompt, and none of them sends any request |
| `Booking.ConfirmationOutcome` | app/views.py:50-170 | from step 3 on every turn attempts the confirmation. On delivery the entry is gone. Otherwise a failure is returned and the entry stays; its step goes from 3 to 4, or stays where it was. At step 4 or more a failed attempt leaves the dictionary unchanged |
| `Booking.JaneDoeCaption` | app/views.py:126-129 | the caption for Jane Doe at 10:00 AM is the literal text "Thank you, Jane Doe! Your appointment is scheduled for {date} at 10:00 AM." |
| `Booking.JaneDoeConfirmation` | app/views.py:125-175 | answering "10:00 AM" at step 3 with both requests succeeding uploads the PDF, then sends it with that caption; the entry is removed and success is returned |
| `Booking.FinalStepIsStable` | app/views.py:54-55 | once at step 4, any number of further turns leave the entry unchanged |
| `Booking.ScriptCollectsResponses` | app/views.py:39-55 | a fresh entry taken through four or more turns ends at step 4 holding exactly the second, third and fourth responses as name, date and time |
| `Booking.BookingBot.constructor` | app/views.py:18-19 | the bot starts with no conversations |
| `Booking.BookingBot.InitializeUser` | app/views.py:21-29 | the number's entry is overwritten with step 0 and no details; nothing else changes |
| `Booking.BookingBot.GetNextMessage` | app/views.py:31-55 | the dictionary, the returned value and the requests sent are exactly those of `Advance`; every entry stays well formed |
| `Booking.BookingBot.ConfirmAppointment` | app/views.py:125-175 | returns `ConfirmReply` and sends `ConfirmEffects`; the number is removed exactly on success, and nothing else changes |
| `Webhook.Classify` | app/views.py:203-255 | each route holds exactly under its condition. A status callback holds before any message is inspected. A `book_appt` button reply holds whoever sends it. Another button reply is a turn only for a number in conversation, with the button's title. A non-interactive message is a turn only for such a number, with its `text.body`. A non-button interactive message or a stranger's message goes to the validator |
| `Webhook.Handle` | app/views.py:199-255 | the answer is 200, 404 or 500, only the sender's entry can change, and well-formed dictionaries stay well formed |
| `Webhook.Dispatch` | app/views.py:227-255 | only the booking trigger and the two turn routes change the dictionary; each answers 200 and ends by forwarding the bot's reply, and the trigger sends the acknowledgement first. 500 is answered exactly for a malformed event, 404 exactly when the validator rejects, and the only delegation is the validator accepting |
| `Webhook.HandleMessage` | app/views.py:199-255 | the status code, the bot's dictionary and the requests sent are exactly those of `Handle` |
| `Webhook.TakeTurn` | app/views.py:235-237 | a turn with the received response leaves the bot's dictionary as `Advance` leaves it and sends that turn's requests followed by its reply |
| `Webhook.StartBooking` | app/views.py:227-233 | the sender is added only if absent, the acknowledgement text is sent first, then one `Advance` with no response runs and its reply is forwarded |
| `Webhook.StatusCallbackShortCircuits` | app/views.py:203-210 | a payload with a non-empty `statuses` answers 200, changes nothing and sends nothing, whatever its messages |
| `Webhook.BookingTriggerKeepsProgress` | app/views.py:227-233 | `book_appt` initialises only an absent number, so progress is kept. The outcome is the acknowledgement text, then one `Advance` with no response, then forwarding its reply |
| `Webhook.BookingTriggerMidDialogueStoresNone` | app/views.py:227-233 | pressing `book_appt` at step 1 or 2 consumes that turn and stores `None` as the name or date being asked for |
| `Webhook.OtherButtonNeedsConversation` | app/views.py:235-239 | any other button reply advances with its title for a number in conversation; for a stranger it answers 200 and changes nothing |
| `Webhook.TextReplyRouting` | app/views.py:240-255 | a non-interactive message from a number in conversation advances with its `text.body`. From a stranger it answers 200 (validator accepts) or 404 and changes nothing |
| `Webhook.NonButtonInteractiveIsExternal` | app/views.py:220-255 | an interactive message that is not a button reply changes no conversation and answers by the validator |
| `Webhook.DateButtonStoresDate` | app/views.py:220-239 | tapping an offered date button at step 2 stores that date's rendering, moves to step 3 and forwards the ask-time prompt |
| `Webhook.Verify` | app/views.py:298-317 | the challenge is echoed exactly when the mode is "subscribe" and a non-empty token equals the configured one. A missing or empty mode or token gives 400; any other request gives 403 |
| `Webhook.VerificationCode` | app/views.py:309-317 | 200 exactly for a verified request that carried a challenge, 500 for a verified one without (the framework refuses a `None` body), 403 when forbidden, 400 when parameters are missing |
| `Webhook.VerifyStatus` | app/views.py:298-317 | in terms of the request: 200 when mode and token are accepted and a challenge is present, 500 when accepted without a challenge, 400 when the mode or token is missing or empty, 403 otherwise |

## Left out

- Outbound HTTP is not modelled. This covers `send_text_message`, `send_message`, `process_whatsapp_message`, `is_valid_whatsapp_message` and the two `requests.post` calls in `confirm_appointment`. Their outcomes are inputs and their requests are recorded effects.
- Exceptions inside `confirm_appointment` are not represented: a failed `open` of the local PDF, or `requests.post` raising for the upload or the document. Only `json.JSONDecodeError` is caught, so in the code such an exception ends the request with 500. No reply is forwarded, and the entry stays with its step already raised to 4. The model has no such path. Its nearest outcome, a missing media id, answers 200 and forwards `Failed(UploadFailed)`; the entry is kept with the same advanced step.
- The status code and body of a failed request are not modelled. The same holds when a 200 upload answer has no `id`, or a JSON body that does not parse. Only "media id returned or not" and "send accepted or not" are inputs. This also leaves out the 400 answer for `json.JSONDecodeError`, reachable only through that parse.
- `Calendar.ClockDay`: "today" must be a valid date before 9999-12-30. Python would raise `OverflowError` when computing today + 2 days past `date.max`, and that path is not modelled.
- `Calendar.Format` pads years below 1000 to four digits. The C library behind `strftime` may print them unpadded.
- The webhook envelope is not modelled. The event is the `entry[0].changes[0].value` object; a missing `entry` or `changes` list is not represented.
- `from` and `type` are always present in the model's messages. A message without them raises in the code, and that is not represented.
- `interactive.type`, `button_reply.id` and `button_reply.title` are always present in the model's interactive messages. In the code a missing one raises `KeyError`, and the request ends in 500; that is not represented. A missing `interactive` or `button_reply` object is represented, as `Malformed`.
- The content of the 404 and 500 responses is not modelled, nor the JSON envelope fields `messaging_product` and `recipient_type`. They are constants of the provider's format.
- Flask routing, `signature_required`, `log_http_response`, logging and `print` are not modelled. They have no decisions.
- Per-user locking and concurrent deliveries are not modelled. The code has none; each event is handled atomically here.
- `app/utils/socket_io_utils.py` is not part of this model. It is an HTTP client for a chat server, with a call at import time, and holds no logic.
- `app/utils/constants.py` has no behaviour of its own. Its string constants are inlined.
