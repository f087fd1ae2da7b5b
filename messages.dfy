/**
 * The outbound WhatsApp payloads the booking bot composes
 * (`send_ask_name_message`, `send_ask_date_message`,
 * `send_ask_time_message` and the confirmation caption). The
 * `messaging_product` and `recipient_type` envelope fields are constants of
 * the provider's format and are not represented.
 */
module Messages {
  import opened Wrappers
  import opened Calendar

  datatype Button = Button(id: string, title: string)

  datatype OutboundMessage =
    | TextPrompt(to: string, body: string)
    | ButtonPrompt(to: string, header: string, body: string, footer: string, buttons: seq<Button>)
    | Document(to: string, mediaId: string, caption: string)

  /** The reply-button id reserved for "book an appointment". */
  const BookingTriggerId := "book_appt"

  const AskNameBody := "Please provide your full name for the appointment booking."
  const AskTimeBody := "Please provide your preferred time for the appointment (e.g., 10:00 AM)."
  const DateHeader := "Select a Date"
  const DateBody := "Please select an data below to book your appointment:"
  const DateFooter := "Powered by A+ Solutions"

  /** The name question: a plain text message to the user, distinct from the time question. */
  function AskName(to: string): (m: OutboundMessage)
    ensures m.TextPrompt? && m.to == to && m.body == AskNameBody
    ensures m != AskTime(to)
  {
    TextPrompt(to, AskNameBody)
  }

  /** The time question: a plain text message to the user. */
  function AskTime(to: string): (m: OutboundMessage)
    ensures m.TextPrompt? && m.to == to && m.body == AskTimeBody
  {
    TextPrompt(to, AskTimeBody)
  }

  /** One reply button per offered date, id and title both the rendered date. */
  function DateButtons(dates: seq<Date>): (bs: seq<Button>)
    requires forall i :: 0 <= i < |dates| ==> IsValid(dates[i])
    ensures |bs| == |dates|
    ensures forall i :: 0 <= i < |bs| ==> bs[i].id == bs[i].title == Format(dates[i])
  {
    if dates == [] then []
    else [Button(Format(dates[0]), Format(dates[0]))] + DateButtons(dates[1..])
  }

  /** The date picker: a button prompt to the user with the fixed header, body and footer. */
  function AskDate(to: string, today: Date): (m: OutboundMessage)
    requires ClockDay(today)
    ensures m.ButtonPrompt? && m.to == to && |m.buttons| == 3
    ensures m.header == DateHeader && m.body == DateBody && m.footer == DateFooter
  {
    ButtonPrompt(to, DateHeader, DateBody, DateFooter, DateButtons(Upcoming(today)))
  }

  /**
   * The date picker offers exactly today, tomorrow and the day after, in that
   * order, each as a button whose id is its title; the ids read back as those
   * dates, increase as strings, and never collide with the booking trigger.
   */
  lemma AskDateOffersNextThreeDays(to: string, today: Date)
    requires ClockDay(today)
    ensures var m := AskDate(to, today);
      && m.ButtonPrompt? && m.to == to && |m.buttons| == 3
      && m.buttons[0].id == Format(today)
      && m.buttons[1].id == Format(NextDay(today))
      && m.buttons[2].id == Format(NextDay(NextDay(today)))
      && (forall i :: 0 <= i < 3 ==> m.buttons[i].id == m.buttons[i].title)
      && (forall i :: 0 <= i < 3 ==> Parse(m.buttons[i].id) == Some(Upcoming(today)[i]))
      && LexLess(m.buttons[0].id, m.buttons[1].id) && LexLess(m.buttons[1].id, m.buttons[2].id)
      && (forall i :: 0 <= i < 3 ==> m.buttons[i].id != BookingTriggerId)
  {
    var ds := Upcoming(today);
    forall i | 0 <= i < 3 ensures Parse(Format(ds[i])) == Some(ds[i]) {
      ParseFormat(ds[i]);
    }
    FormatMonotone(ds[0], ds[1]);
    FormatMonotone(ds[1], ds[2]);
  }

  /** Python's f-string rendering of an optional detail: `None` prints as "None". */
  function Show(o: Option<string>): string {
    if o.Some? then o.value else "None"
  }

  const Greeting := "Thank you, "
  const Scheduled := "! Your appointment is scheduled for "
  const At := " at "

  /** The confirmation caption; `ConfirmationTextLayout` places each part. */
  function ConfirmationText(name: Option<string>, date: Option<string>, time: Option<string>): (s: string)
    ensures |s| == |Greeting| + |Show(name)| + |Scheduled| + |Show(date)| + |At| + |Show(time)| + 1
  {
    Greeting + Show(name) + Scheduled + Show(date) + At + Show(time) + "."
  }

  /**
   * The layout of the confirmation caption: each detail appears verbatim at
   * its place between the fixed phrases.
   */
  lemma ConfirmationTextLayout(name: Option<string>, date: Option<string>, time: Option<string>)
    ensures var s := ConfirmationText(name, date, time);
      var n, d, t := Show(name), Show(date), Show(time);
      var i := |Greeting| + |n|;
      var j := i + |Scheduled| + |d|;
      && |s| == j + |At| + |t| + 1
      && s[..|Greeting|] == Greeting && s[|Greeting|..i] == n
      && s[i..i + |Scheduled|] == Scheduled && s[i + |Scheduled|..j] == d
      && s[j..j + |At|] == At && s[j + |At|..|s| - 1] == t
      && s[|s| - 1] == '.'
  {
    var n, d, t := Show(name), Show(date), Show(time);
    var p1 := Greeting + n;
    var p2 := p1 + Scheduled;
    var p3 := p2 + d;
    var p4 := p3 + At;
    var p5 := p4 + t;
    assert ConfirmationText(name, date, time) == p5 + ".";
    SliceOfPrefix(p5, ".", 0, |Greeting|);
    SliceOfPrefix(p4, t, 0, |Greeting|);
    SliceOfPrefix(p3, At, 0, |Greeting|);
    SliceOfPrefix(p2, d, 0, |Greeting|);
    SliceOfPrefix(p1, Scheduled, 0, |Greeting|);
    SliceOfPrefix(p5, ".", |Greeting|, |p1|);
    SliceOfPrefix(p4, t, |Greeting|, |p1|);
    SliceOfPrefix(p3, At, |Greeting|, |p1|);
    SliceOfPrefix(p2, d, |Greeting|, |p1|);
    SliceOfPrefix(p5, ".", |p1|, |p2|);
    SliceOfPrefix(p4, t, |p1|, |p2|);
    SliceOfPrefix(p3, At, |p1|, |p2|);
    SliceOfPrefix(p5, ".", |p2|, |p3|);
    SliceOfPrefix(p4, t, |p2|, |p3|);
    SliceOfPrefix(p5, ".", |p3|, |p4|);
  }

  lemma SliceOfPrefix(a: string, b: string, i: int, j: int)
    requires 0 <= i <= j <= |a|
    ensures (a + b)[i..j] == a[i..j]
  {
  }
}
