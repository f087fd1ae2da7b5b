/**
 * `AppointmentBookingBot`: a dictionary from phone number to the user's
 * progress through a fixed four-step script (ask name, ask date, ask time,
 * confirm). The network effects of the confirmation (uploading the PDF and
 * posting the document message) are an input `Provider` saying how the
 * provider answered, and are returned as recorded `Effect`s.
 */
module Booking {
  import opened Wrappers
  import opened Calendar
  import opened Messages

  datatype Details = Details(name: Option<string>, date: Option<string>, time: Option<string>)

  datatype UserState = UserState(step: nat, details: Details)

  /** What `initialize_user` stores. */
  const Fresh := UserState(0, Details(None, None, None))

  /** The step reached once the time has been collected. */
  const FinalStep := 4

  /** How the messaging provider answered the two confirmation requests. */
  datatype Provider = Provider(mediaId: Option<string>, documentAccepted: bool)

  /** The value `get_next_message` returns. */
  datatype Reply =
    | Prompt(msg: OutboundMessage)
    | Confirmed
    | Failed(reason: string)

  const UploadFailed := "Failed to upload media"
  const SendFailed := "Failed to send message"

  /** An outbound request handed to the messaging provider, in order. */
  datatype Effect =
    | UploadMedia
    | Send(msg: OutboundMessage)
    | Forward(reply: Reply)
    | Delegated

  /**
   * The invariant of every stored entry: the step never passes the final
   * step, and a detail is written only once the step that collects it is past.
   */
  predicate WellFormed(s: UserState) {
    && s.step <= FinalStep
    && (s.step < 2 ==> s.details.name == None)
    && (s.step < 3 ==> s.details.date == None)
    && (s.step < 4 ==> s.details.time == None)
  }

  predicate AllWellFormed(m: map<string, UserState>) {
    forall n :: n in m ==> WellFormed(m[n])
  }

  /**
   * One turn of the script on one user's entry, before any deletion: steps 1,
   * 2 and 3 store the response into name, date and time; steps below the
   * final one move on by one; the final step stays put.
   */
  function Step(s: UserState, response: Option<string>): (r: UserState)
    ensures s.step < FinalStep ==> r.step == s.step + 1
    ensures s.step >= FinalStep ==> r == s
    ensures WellFormed(s) ==> WellFormed(r)
  {
    if s.step == 0 then UserState(1, s.details)
    else if s.step == 1 then UserState(2, s.details.(name := response))
    else if s.step == 2 then UserState(3, s.details.(date := response))
    else if s.step == 3 then UserState(4, s.details.(time := response))
    else s
  }

  /** The entry `get_next_message` works on: the stored one, or a fresh one. */
  function Current(m: map<string, UserState>, number: string): UserState {
    if number in m then m[number] else Fresh
  }

  predicate Delivered(p: Provider) {
    p.mediaId.Some? && p.documentAccepted
  }

  /** The requests the confirmation sends: the upload, then the document if an id came back. */
  function ConfirmEffects(number: string, d: Details, p: Provider): (es: seq<Effect>)
    ensures |es| >= 1 && es[0] == UploadMedia
    ensures |es| == 2 <==> p.mediaId.Some?
    ensures p.mediaId.Some? ==>
      es[1] == Send(Document(number, p.mediaId.value, ConfirmationText(d.name, d.date, d.time)))
    ensures p.mediaId.None? ==> es == [UploadMedia]
  {
    [UploadMedia] +
    match p.mediaId
    case None => []
    case Some(id) => [Send(Document(number, id, ConfirmationText(d.name, d.date, d.time)))]
  }

  function ConfirmReply(p: Provider): (r: Reply)
    ensures r.Confirmed? <==> Delivered(p)
    ensures r == Failed(UploadFailed) <==> p.mediaId.None?
    ensures p.mediaId.Some? && !p.documentAccepted ==> r == Failed(SendFailed)
    ensures !r.Prompt?
  {
    if p.mediaId.None? then Failed(UploadFailed)
    else if !p.documentAccepted then Failed(SendFailed)
    else Confirmed
  }

  datatype Turn = Turn(states: map<string, UserState>, reply: Reply, effects: seq<Effect>)

  /**
   * The specification of `get_next_message`: the user's entry takes one
   * `Step`, it is removed exactly when a confirmation was attempted and
   * delivered, and every other user's entry is untouched.
   */
  function Advance(m: map<string, UserState>, number: string, response: Option<string>,
                   today: Date, p: Provider): (t: Turn)
    requires ClockDay(today)
    ensures forall k :: k != number ==> (k in t.states <==> k in m)
    ensures forall k :: k != number && k in m ==> t.states[k] == m[k]
    ensures number !in t.states <==> Current(m, number).step >= 3 && Delivered(p)
    ensures number in t.states ==> t.states[number] == Step(Current(m, number), response)
    ensures AllWellFormed(m) ==> AllWellFormed(t.states)
  {
    var s := Current(m, number);
    var s' := Step(s, response);
    if s.step == 0 then Turn(m[number := s'], Prompt(AskName(number)), [])
    else if s.step == 1 then Turn(m[number := s'], Prompt(AskDate(number, today)), [])
    else if s.step == 2 then Turn(m[number := s'], Prompt(AskTime(number)), [])
    else
      var reply := ConfirmReply(p);
      Turn(if reply.Confirmed? then m - {number} else m[number := s'],
           reply, ConfirmEffects(number, s'.details, p))
  }

  // ---------------------------------------------------------------------
  // Properties of the script

  /** First contact: a fresh entry moves to step 1 and the name is asked for, whatever the response. */
  lemma FirstContactAsksName(m: map<string, UserState>, number: string, response: Option<string>,
                             today: Date, p: Provider)
    requires ClockDay(today) && number !in m
    ensures var t := Advance(m, number, response, today, p);
      && number in t.states
      && t.states[number] == UserState(1, Details(None, None, None))
      && t.reply == Prompt(AskName(number)) && t.effects == []
  {
  }

  /** Steps 1 to 3 store the response verbatim in one field and leave the other two alone. */
  lemma CollectingStepStoresResponse(m: map<string, UserState>, number: string, response: Option<string>,
                                     today: Date, p: Provider)
    requires ClockDay(today) && number in m && 1 <= m[number].step <= 3
    ensures var t := Advance(m, number, response, today, p);
      var before := m[number].details;
      number in t.states ==>
        && t.states[number].step == m[number].step + 1
        && t.states[number].details.name == (if m[number].step == 1 then response else before.name)
        && t.states[number].details.date == (if m[number].step == 2 then response else before.date)
        && t.states[number].details.time == (if m[number].step == 3 then response else before.time)
    ensures m[number].step < 3 ==> number in Advance(m, number, response, today, p).states
  {
  }

  /**
   * A stored entry at step 0 (as `initialize_user` leaves it) answers with the
   * name question, step 1 with the date picker and step 2 with the time question.
   */
  lemma CollectingStepPrompts(m: map<string, UserState>, number: string, response: Option<string>,
                              today: Date, p: Provider)
    requires ClockDay(today) && number in m
    ensures m[number].step == 0 ==> Advance(m, number, response, today, p).reply == Prompt(AskName(number))
    ensures m[number].step == 1 ==> Advance(m, number, response, today, p).reply == Prompt(AskDate(number, today))
    ensures m[number].step == 2 ==> Advance(m, number, response, today, p).reply == Prompt(AskTime(number))
    ensures m[number].step < 3 ==> Advance(m, number, response, today, p).effects == []
  {
  }

  /**
   * From the time step on, every turn attempts the confirmation: on delivery
   * the entry is gone, otherwise it stays at the final step, with the time
   * just collected when it was step 3, and the failure is reported.
   */
  lemma ConfirmationOutcome(m: map<string, UserState>, number: string, response: Option<string>,
                            today: Date, p: Provider)
    requires ClockDay(today) && number in m && m[number].step >= 3
    ensures var t := Advance(m, number, response, today, p);
      && t.reply == ConfirmReply(p)
      && t.effects == ConfirmEffects(number, Step(m[number], response).details, p)
      && (Delivered(p) ==> number !in t.states)
      && (!Delivered(p) ==> number in t.states && t.reply.Failed?
                            && t.states[number].step == m[number].step + (if m[number].step == 3 then 1 else 0))
      && (m[number].step >= FinalStep && !Delivered(p) ==> t.states == m)
  {
    var t := Advance(m, number, response, today, p);
    if m[number].step >= FinalStep && !Delivered(p) {
      assert m[number := m[number]] == m;
    }
  }

  /** Jane Doe confirms a 10:00 AM booking and both requests succeed. */
  lemma JaneDoeConfirmation(m: map<string, UserState>, number: string, date: string,
                            today: Date, mediaId: string)
    requires ClockDay(today) && number in m
    requires m[number] == UserState(3, Details(Some("Jane Doe"), Some(date), None))
    ensures var t := Advance(m, number, Some("10:00 AM"), today, Provider(Some(mediaId), true));
      && t.reply == Confirmed
      && number !in t.states
      && t.effects == [UploadMedia, Send(Document(number, mediaId,
           "Thank you, Jane Doe! Your appointment is scheduled for " + date + " at 10:00 AM."))]
  {
    var p := Provider(Some(mediaId), true);
    ConfirmationOutcome(m, number, Some("10:00 AM"), today, p);
    assert Step(m[number], Some("10:00 AM")).details == Details(Some("Jane Doe"), Some(date), Some("10:00 AM"));
    JaneDoeCaption(date);
  }

  lemma JaneDoeCaption(date: string)
    ensures ConfirmationText(Some("Jane Doe"), Some(date), Some("10:00 AM"))
         == "Thank you, Jane Doe! Your appointment is scheduled for " + date + " at 10:00 AM."
  {
    JaneDoePhrases();
    var lead, tail := Greeting + "Jane Doe" + Scheduled, At + "10:00 AM" + ".";
    calc {
      ConfirmationText(Some("Jane Doe"), Some(date), Some("10:00 AM"));
      Greeting + "Jane Doe" + Scheduled + date + At + "10:00 AM" + ".";
      lead + date + tail;
    }
  }

  /** Proof helper for `JaneDoeCaption`: the fixed phrases around the Jane Doe details, joined. */
  lemma JaneDoePhrases()
    ensures Greeting + "Jane Doe" + Scheduled == "Thank you, Jane Doe! Your appointment is scheduled for "
    ensures At + "10:00 AM" + "." == " at 10:00 AM."
  {
    JoinGreeting();
    JoinScheduled();
  }

  /** Proof helper for `JaneDoePhrases`: one literal concatenation. */
  lemma JoinGreeting()
    ensures "Thank you, " + "Jane Doe" == "Thank you, Jane Doe"
  {
  }

  /** Proof helper for `JaneDoePhrases`: one literal concatenation. */
  lemma JoinScheduled()
    ensures "Thank you, Jane Doe" + "! Your appointment is scheduled for "
         == "Thank you, Jane Doe! Your appointment is scheduled for "
  {
  }

  /** The whole script run on one entry: one `Step` per response. */
  function Run(s: UserState, responses: seq<Option<string>>): UserState
    decreases |responses|
  {
    if responses == [] then s else Run(Step(s, responses[0]), responses[1..])
  }

  /** Once at the final step, further turns change nothing. */
  lemma {:induction false} FinalStepIsStable(s: UserState, responses: seq<Option<string>>)
    requires s.step >= FinalStep
    ensures Run(s, responses) == s
    decreases |responses|
  {
    if responses != [] {
      FinalStepIsStable(Step(s, responses[0]), responses[1..]);
    }
  }

  /**
   * However many turns a fresh conversation takes (at least four), it ends at
   * the final step holding exactly the second, third and fourth responses as
   * name, date and time.
   */
  lemma {:induction false} ScriptCollectsResponses(responses: seq<Option<string>>)
    requires |responses| >= 4
    ensures Run(Fresh, responses) == UserState(FinalStep, Details(responses[1], responses[2], responses[3]))
  {
    var s1 := Step(Fresh, responses[0]);
    var s2 := Step(s1, responses[1]);
    var s3 := Step(s2, responses[2]);
    var s4 := Step(s3, responses[3]);
    assert s4 == UserState(FinalStep, Details(responses[1], responses[2], responses[3]));
    assert Run(Fresh, responses) == Run(s1, responses[1..]);
    assert responses[1..][0] == responses[1] && responses[1..][1..] == responses[2..];
    assert Run(s1, responses[1..]) == Run(s2, responses[2..]);
    assert responses[2..][0] == responses[2] && responses[2..][1..] == responses[3..];
    assert Run(s2, responses[2..]) == Run(s3, responses[3..]);
    assert responses[3..][0] == responses[3] && responses[3..][1..] == responses[4..];
    assert Run(s3, responses[3..]) == Run(s4, responses[4..]);
    FinalStepIsStable(s4, responses[4..]);
  }

  // ---------------------------------------------------------------------
  // The bot

  class BookingBot {
    /** `user_states`. */
    var userStates: map<string, UserState>

    ghost predicate Valid()
      reads this
    {
      AllWellFormed(userStates)
    }

    constructor ()
      ensures Valid() && userStates == map[]
    {
      userStates := map[];
    }

    /** Overwrites the number's entry with a fresh one. */
    method InitializeUser(number: string)
      requires Valid()
      modifies this
      ensures Valid()
      ensures userStates == old(userStates)[number := Fresh]
    {
      userStates := userStates[number := Fresh];
    }

    method GetNextMessage(number: string, response: Option<string>, today: Date, p: Provider)
      returns (reply: Reply, effects: seq<Effect>)
      requires Valid() && ClockDay(today)
      modifies this
      ensures Valid()
      ensures var t := Advance(old(userStates), number, response, today, p);
        userStates == t.states && reply == t.reply && effects == t.effects
    {
      ghost var m := userStates;
      if number !in userStates {
        InitializeUser(number);
      }
      var s := userStates[number];
      assert s == Current(m, number);
      assert s.step >= 3 ==> userStates == m;
      if s.step == 0 {
        userStates := userStates[number := UserState(s.step + 1, s.details)];
        assert userStates == m[number := Step(s, response)];
        reply, effects := Prompt(AskName(number)), [];
      } else if s.step == 1 {
        userStates := userStates[number := UserState(s.step + 1, s.details.(name := response))];
        assert userStates == m[number := Step(s, response)];
        reply, effects := Prompt(AskDate(number, today)), [];
      } else if s.step == 2 {
        userStates := userStates[number := UserState(s.step + 1, s.details.(date := response))];
        assert userStates == m[number := Step(s, response)];
        reply, effects := Prompt(AskTime(number)), [];
      } else if s.step == 3 {
        var details := s.details.(time := response);
        userStates := userStates[number := UserState(s.step + 1, details)];
        assert userStates == m[number := Step(s, response)];
        reply, effects := ConfirmAppointment(number, details, p);
      } else {
        reply, effects := ConfirmAppointment(number, s.details, p);
        assert m[number := Step(s, response)] == m;
      }
    }

    /**
     * Uploads the document, sends it with the confirmation caption, and only
     * when both requests succeeded forgets the number.
     */
    method ConfirmAppointment(number: string, details: Details, p: Provider)
      returns (reply: Reply, effects: seq<Effect>)
      requires Valid()
      modifies this
      ensures Valid()
      ensures reply == ConfirmReply(p) && effects == ConfirmEffects(number, details, p)
      ensures userStates == if reply.Confirmed? then old(userStates) - {number} else old(userStates)
    {
      var caption := ConfirmationText(details.name, details.date, details.time);
      effects := [UploadMedia];
      if p.mediaId.None? {
        return Failed(UploadFailed), effects;
      }
      effects := effects + [Send(Document(number, p.mediaId.value, caption))];
      if !p.documentAccepted {
        return Failed(SendFailed), effects;
      }
      if number in userStates {
        userStates := userStates - {number};
      }
      reply := Confirmed;
    }
  }
}
