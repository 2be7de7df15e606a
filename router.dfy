/**
 * The conversation router: what one inbound message does to the state store, the
 * message log and the outbox. `Decide` is the branch logic on one stored record and
 * `Turn` the whole webhook turn; the `Bot` class runs the same turn step by step.
 */
module Router {
  import opened Wrappers
  import opened Labels
  import opened Texts
  import opened Whitespace
  import opened History

  /** A row of the state store: the state label and the collected answers. */
  datatype Record = Record(state: string, data: map<string, string>)

  /** What `get_user_state` yields for a chat without a row: the menu with no answers. */
  const DefaultRecord: Record := Record(MenuLabel, map[])

  /** The answers key for question `n`: `"q"` followed by the number. */
  function Key(n: DigitValue): string {
    "q" + [DigitChar(n)]
  }

  lemma KeyInjective(m: DigitValue, n: DigitValue)
    requires Key(m) == Key(n)
    ensures m == n
  {
    assert Key(m)[1] == DigitChar(m);
  }

  /**
   * The decision for one message on one stored record: the texts to send in order, the
   * record to upsert (if any), the AI reply to log as the bot (if any), and the answers
   * dictionary as it stands in memory at the end of the turn.
   */
  datatype Outcome =
    | Done(sends: seq<string>, write: Option<Record>, botReply: Option<string>, answers: map<string, string>)
    | Raised   // the question number could not be read from the label

  /** The answers in memory when question `n >= 7` of a flow is answered. */
  function CompletedAnswers(f: Flow, n: DigitValue, data: map<string, string>, text: string): map<string, string> {
    var d := data[Key(n) := text];
    if f == Franchise && text in FranchiseCapitalOptions then d[Key(7) := FranchiseCapitalOptions[text]] else d
  }

  /** The menu branch for message `text`: options 1 to 4, anything else answered by the AI's `reply`. */
  function MenuOutcome(data: map<string, string>, text: string, reply: string): Outcome {
    if text == "1" then Done([ProblemsText], None, None, data)
    else if text == "2" then
      Done([StartText(Franchise) + "\n\n" + Question(Franchise, 1)], Some(Record(StartLabel(Franchise), map[])), None, data)
    else if text == "3" then
      Done([StartText(Reseller) + "\n\n" + Question(Reseller, 1)], Some(Record(StartLabel(Reseller), map[])), None, data)
    else if text == "4" then Done([AboutText, MenuText], None, None, data)
    else Done([reply, MenuText], None, Some(reply), data)
  }

  /** The branch of flow `f` for `text` answering question `n`: the next question, or the finish. */
  function StepOutcome(f: Flow, n: DigitValue, data: map<string, string>, text: string): Outcome {
    if n < 7 then
      var d := data[Key(n) := text];
      Done([Question(f, n + 1)], Some(Record(StepLabel(f, n + 1), d)), None, d)
    else
      Done([EndText(f), MenuText], Some(DefaultRecord), None, CompletedAnswers(f, n, data, text))
  }

  /** Branch logic of the webhook for message `text` on `rec`; `reply` is what the AI answers. */
  function Decide(rec: Record, text: string, reply: string): (r: Outcome)
    ensures r.Raised? <==> Dispatch(rec.state) == ValueError
    ensures r.Done? ==> |r.sends| <= 2
    ensures r.Done? && r.botReply.Some? ==>
              r.botReply.value == reply && r.write.None? && r.sends == [reply, MenuText]
    ensures r.Done? && r.sends == [] ==> r.write.None? && r.botReply.None?
  {
    match Dispatch(rec.state)
    case MenuRoute => MenuOutcome(rec.data, text, reply)
    case StepRoute(f, n) => StepOutcome(f, n, rec.data, text)
    case NoRoute => Done([], None, None, rec.data)
    case ValueError => Raised
  }

  // ---------------------------------------------------------------------------
  // Storage and delivery: a map of rows, an append-only log, an outbox. When the
  // database is unreachable (`online` false), reads yield the default and writes
  // are skipped.

  datatype Outgoing = Outgoing(chat: string, text: string)

  function Lookup(store: map<string, Record>, online: bool, chat: string): Record {
    if online && chat in store then store[chat] else DefaultRecord
  }

  function Upsert(store: map<string, Record>, online: bool, chat: string, rec: Record): map<string, Record> {
    if online then store[chat := rec] else store
  }

  function Append(log: seq<Entry>, online: bool, e: Entry): seq<Entry> {
    if online then log + [e] else log
  }

  function RecentHistory(log: seq<Entry>, online: bool, chat: string): seq<Entry> {
    if online then Window(log, chat) else []
  }

  /** The texts sent to one chat, in order. */
  function Deliveries(chat: string, texts: seq<string>): seq<Outgoing> {
    if texts == [] then [] else [Outgoing(chat, texts[0])] + Deliveries(chat, texts[1..])
  }

  /** Every text is delivered to `chat`, one message per text, in order. */
  lemma {:induction false} DeliveriesInOrder(chat: string, texts: seq<string>)
    ensures |Deliveries(chat, texts)| == |texts|
    ensures forall i | 0 <= i < |texts| :: Deliveries(chat, texts)[i] == Outgoing(chat, texts[i])
  {
    if texts != [] {
      DeliveriesInOrder(chat, texts[1..]);
    }
  }

  lemma DeliveriesOfOne(chat: string, a: string)
    ensures Deliveries(chat, [a]) == [Outgoing(chat, a)]
  {
    assert [a][1..] == [];
  }

  lemma DeliveriesOfTwo(chat: string, a: string, b: string)
    ensures Deliveries(chat, [a, b]) == [Outgoing(chat, a), Outgoing(chat, b)]
  {
    assert [a, b][1..] == [b];
    DeliveriesOfOne(chat, b);
  }

  // ---------------------------------------------------------------------------
  // The webhook turn.

  datatype Payload = Payload(sender: string, body: Option<string>)
  datatype Webhook = Webhook(event: Option<string>, payload: Option<Payload>)
  datatype Status = Ignored | Received | Failed
  datatype World = World(store: map<string, Record>, log: seq<Entry>, outbox: seq<Outgoing>)
  datatype TurnResult = TurnResult(world: World, status: Status)

  predicate IsMessageEvent(hook: Webhook) {
    hook.event == Some("message") && hook.payload.Some?
  }

  /** The inbound text: the body (empty when absent) with the surrounding spaces stripped. */
  function InboundText(p: Payload): string {
    Strip(p.body.GetOr(""))
  }

  predicate Ignorable(sender: string, text: string) {
    text == [] || sender == BroadcastSender
  }

  /** The world after outcome `o` of a message from `sender`: the row upserted, the bot reply logged, the texts sent. */
  function Apply(w: World, online: bool, sender: string, o: Outcome): World
    requires o.Done?
  {
    World(if o.write.Some? then Upsert(w.store, online, sender, o.write.value) else w.store,
          if o.botReply.Some? then Append(w.log, online, Entry(sender, Bot, o.botReply.value)) else w.log,
          w.outbox + Deliveries(sender, o.sends))
  }

  /** The turn for a message from `sender` that passed the filter; `text` is already stripped. */
  function Respond(w: World, online: bool, sender: string, text: string, ai: string -> Option<string>): TurnResult {
    var log := Append(w.log, online, Entry(sender, User, text));
    var reply := AiReply(ai, text, RecentHistory(log, online, sender));
    var o := Decide(Lookup(w.store, online, sender), text, reply);
    if o.Raised? then TurnResult(World(w.store, log, w.outbox), Failed)
    else TurnResult(Apply(World(w.store, log, w.outbox), online, sender, o), Received)
  }

  /** One webhook call on world `w`. */
  function Turn(w: World, online: bool, hook: Webhook, ai: string -> Option<string>): TurnResult {
    if !IsMessageEvent(hook) then TurnResult(w, Received)
    else
      var sender, text := hook.payload.value.sender, InboundText(hook.payload.value);
      if Ignorable(sender, text) then TurnResult(w, Ignored)
      else Respond(w, online, sender, text, ai)
  }
}
