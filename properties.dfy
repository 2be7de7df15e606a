/**
 * Properties of the webhook turn: the filter, the default state, each menu option,
 * the AI fallback and its history, the intake steps and their finish, the states no
 * branch handles, and what a whole intake run leaves behind.
 */
module Properties {
  import opened Wrappers
  import opened Labels
  import opened Texts
  import opened Whitespace
  import opened History
  import opened Router

  /** `hook` is a message event from `sender` whose stripped body `text` gets past the filter. */
  predicate Inbound(hook: Webhook, sender: string, text: string) {
    && IsMessageEvent(hook)
    && hook.payload.value.sender == sender
    && InboundText(hook.payload.value) == text
    && !Ignorable(sender, text)
  }

  /** The log after the inbound message is saved. */
  function Logged(w: World, online: bool, sender: string, text: string): seq<Entry> {
    Append(w.log, online, Entry(sender, User, text))
  }

  lemma TurnOfInbound(w: World, online: bool, hook: Webhook, ai: string -> Option<string>, sender: string, text: string)
    requires Inbound(hook, sender, text)
    ensures Turn(w, online, hook, ai) == Respond(w, online, sender, text, ai)
  {
  }

  /** Anything other than a message event with a payload is acknowledged and changes nothing. */
  lemma OtherEventsAcknowledged(w: World, online: bool, hook: Webhook, ai: string -> Option<string>)
    requires !IsMessageEvent(hook)
    ensures Turn(w, online, hook, ai) == TurnResult(w, Received)
  {
  }

  /**
   * A body that is empty or all spaces, or a message from the status broadcast, is ignored:
   * nothing is logged, read, written or sent.
   */
  lemma FilterIgnores(w: World, online: bool, hook: Webhook, ai: string -> Option<string>)
    requires IsMessageEvent(hook)
    requires var p := hook.payload.value;
             (forall i | 0 <= i < |p.body.GetOr("")| :: IsSpace(p.body.GetOr("")[i]))
             || p.sender == BroadcastSender
    ensures Turn(w, online, hook, ai) == TurnResult(w, Ignored)
  {
  }

  /** A chat without a stored row, or any chat while the database is unreachable, is routed as the menu with no answers. */
  lemma DefaultStateIsMenu(store: map<string, Record>, online: bool, chat: string)
    requires chat !in store || !online
    ensures Lookup(store, online, chat) == Record(MenuLabel, map[])
    ensures Dispatch(Lookup(store, online, chat).state) == MenuRoute
  {
    FixedLabelsDispatch();
  }

  // The lemmas below are about `Respond`, the turn of a message that passed the
  // filter; `TurnOfInbound` carries each of them over to `Turn`.

  /** Menu option 1 sends the support text only; the state store is not written. */
  lemma MenuOptionProblems(w: World, online: bool, ai: string -> Option<string>, sender: string)
    requires Dispatch(Lookup(w.store, online, sender).state) == MenuRoute
    ensures Respond(w, online, sender, "1", ai) ==
            TurnResult(World(w.store, Logged(w, online, sender, "1"), w.outbox + [Outgoing(sender, ProblemsText)]), Received)
  {
    DeliveriesOfOne(sender, ProblemsText);
  }

  /** Menu option 4 sends the about text and then the menu again; the state store is not written. */
  lemma MenuOptionAbout(w: World, online: bool, ai: string -> Option<string>, sender: string)
    requires Dispatch(Lookup(w.store, online, sender).state) == MenuRoute
    ensures Respond(w, online, sender, "4", ai) ==
            TurnResult(World(w.store, Logged(w, online, sender, "4"),
                             w.outbox + [Outgoing(sender, AboutText), Outgoing(sender, MenuText)]), Received)
  {
    DeliveriesOfTwo(sender, AboutText, MenuText);
  }

  /** Choosing option 4 twice in a row sends about and menu twice, and the chat stays in the menu. */
  lemma MenuOptionAboutTwice(w: World, online: bool, ai: string -> Option<string>, sender: string)
    requires Dispatch(Lookup(w.store, online, sender).state) == MenuRoute
    ensures var w1 := Respond(w, online, sender, "4", ai).world;
            var w2 := Respond(w1, online, sender, "4", ai).world;
            && w2.store == w.store
            && w2.outbox == w.outbox + [Outgoing(sender, AboutText), Outgoing(sender, MenuText),
                                        Outgoing(sender, AboutText), Outgoing(sender, MenuText)]
  {
    MenuOptionAbout(w, online, ai, sender);
    var w1 := Respond(w, online, sender, "4", ai).world;
    MenuOptionAbout(w1, online, ai, sender);
  }

  function OptionOf(f: Flow): string {
    match f
    case Franchise => "2"
    case Reseller => "3"
  }

  /**
   * Menu options 2 and 3 start the franchise or reseller flow: the row is upserted to the
   * flow's first question with no answers, and one message, the introduction, a blank
   * line and question 1, is sent.
   */
  lemma MenuOptionStartsFlow(w: World, online: bool, ai: string -> Option<string>, sender: string, f: Flow)
    requires Dispatch(Lookup(w.store, online, sender).state) == MenuRoute
    ensures Respond(w, online, sender, OptionOf(f), ai) ==
            TurnResult(World(Upsert(w.store, online, sender, Record(StartLabel(f), map[])),
                             Logged(w, online, sender, OptionOf(f)),
                             w.outbox + [Outgoing(sender, StartText(f) + "\n\n" + Question(f, 1))]), Received)
    ensures Dispatch(StartLabel(f)) == StepRoute(f, 1)
  {
    DeliveriesOfOne(sender, StartText(f) + "\n\n" + Question(f, 1));
  }

  /**
   * Any other text in the menu goes to the AI: the reply and then the menu are sent, the
   * reply is logged as the bot after the user's message, and the state store is not written.
   */
  lemma MenuFallsBackToAi(w: World, online: bool, ai: string -> Option<string>, sender: string, text: string)
    requires text != "1" && text != "2" && text != "3" && text != "4"
    requires Dispatch(Lookup(w.store, online, sender).state) == MenuRoute
    ensures var log := Logged(w, online, sender, text);
            var reply := AiReply(ai, text, RecentHistory(log, online, sender));
            Respond(w, online, sender, text, ai) ==
            TurnResult(World(w.store, Append(log, online, Entry(sender, Bot, reply)),
                             w.outbox + [Outgoing(sender, reply), Outgoing(sender, MenuText)]), Received)
  {
    var log := Logged(w, online, sender, text);
    var reply := AiReply(ai, text, RecentHistory(log, online, sender));
    DeliveriesOfTwo(sender, reply, MenuText);
  }

  /**
   * The history the AI is given holds at most `MaxHistoryMessages` entries, the most recent
   * ones of the chat in chronological order, and ends with the message being answered.
   */
  lemma AiHistoryEndsWithQuestion(log: seq<Entry>, sender: string, text: string)
    ensures var log' := log + [Entry(sender, User, text)];
            var h := RecentHistory(log', true, sender);
            var all := ForChat(log', sender);
            && 0 < |h| <= MaxHistoryMessages
            && |h| <= |all|
            && h == all[|all| - |h|..]
            && (|all| >= MaxHistoryMessages ==> |h| == MaxHistoryMessages)
            && h[|h| - 1] == Entry(sender, User, text)
  {
    WindowIsRecentHistory(log + [Entry(sender, User, text)], sender);
  }

  /**
   * Answering question `n < 7` of a flow stores the text under `"q<n>"`, keeps the other
   * answers, moves the row to question `n + 1`, and sends exactly that question.
   */
  lemma IntakeStep(w: World, online: bool, ai: string -> Option<string>, sender: string, text: string,
                   f: Flow, n: DigitValue)
    requires Dispatch(Lookup(w.store, online, sender).state) == StepRoute(f, n) && n < 7
    ensures var data := Lookup(w.store, online, sender).data;
            Respond(w, online, sender, text, ai) ==
            TurnResult(World(Upsert(w.store, online, sender, Record(StepLabel(f, n + 1), data[Key(n) := text])),
                             Logged(w, online, sender, text),
                             w.outbox + [Outgoing(sender, Question(f, n + 1))]), Received)
  {
    DeliveriesOfOne(sender, Question(f, n + 1));
  }

  /**
   * Answering the last question sends the flow's closing text and then the menu, and
   * upserts the menu with no answers: the collected answers are not kept.
   */
  lemma IntakeFinish(w: World, online: bool, ai: string -> Option<string>, sender: string, text: string,
                     f: Flow, n: DigitValue)
    requires Dispatch(Lookup(w.store, online, sender).state) == StepRoute(f, n) && n >= 7
    ensures Respond(w, online, sender, text, ai) ==
            TurnResult(World(Upsert(w.store, online, sender, Record(MenuLabel, map[])),
                             Logged(w, online, sender, text),
                             w.outbox + [Outgoing(sender, EndText(f)), Outgoing(sender, MenuText)]), Received)
  {
    DeliveriesOfTwo(sender, EndText(f), MenuText);
  }

  /**
   * At the last franchise question the in-memory answer is the capital label for "1" or
   * "2" and the text otherwise; for resellers it is the text. The written row has no answers.
   */
  lemma CapitalMappingStaysInMemory(rec: Record, text: string, reply: string, f: Flow)
    requires Dispatch(rec.state) == StepRoute(f, 7)
    ensures Decide(rec, text, reply).Done?
    ensures Decide(rec, text, reply).write == Some(Record(MenuLabel, map[]))
    ensures Decide(rec, text, reply).answers[Key(7)] ==
            (if f == Franchise then CapitalAnswer(text) else text)
  {
  }

  /** A stored state that no branch matches, such as the general-chat label, sends and writes nothing. */
  lemma UnmatchedStateDoesNothing(w: World, online: bool, ai: string -> Option<string>, sender: string, text: string)
    requires Dispatch(Lookup(w.store, online, sender).state) == NoRoute
    ensures Respond(w, online, sender, text, ai) == TurnResult(World(w.store, Logged(w, online, sender, text), w.outbox), Received)
  {
    assert w.outbox + Deliveries(sender, []) == w.outbox;
  }

  /** A flow label whose last character is not a digit raises after the inbound message was logged. */
  lemma UnreadableStateRaises(w: World, online: bool, ai: string -> Option<string>, sender: string, text: string)
    requires Dispatch(Lookup(w.store, online, sender).state) == ValueError
    ensures Respond(w, online, sender, text, ai) == TurnResult(World(w.store, Logged(w, online, sender, text), w.outbox), Failed)
  {
  }

  /** With the start labels as the source writes them, every answer to question 1 raises, so no flow gets past it. */
  lemma FirstAnswerRaisesAsWritten(w: World, ai: string -> Option<string>, sender: string, text: string, f: Flow)
    requires sender in w.store && w.store[sender].state == StartLabelAsWritten(f)
    ensures Respond(w, true, sender, text, ai) == TurnResult(World(w.store, Logged(w, true, sender, text), w.outbox), Failed)
    ensures Respond(w, true, sender, text, ai).world.store[sender] == w.store[sender]
  {
    assert Lookup(w.store, true, sender) == w.store[sender];
  }

  /**
   * A turn touches only the sender's chat: the row of every other chat is unchanged, the
   * log and the outbox only grow, and everything appended to them belongs to the sender.
   */
  lemma RespondTouchesOnlySender(w: World, online: bool, sender: string, text: string, ai: string -> Option<string>)
    ensures var w' := Respond(w, online, sender, text, ai).world;
            && (forall c | c != sender :: c in w'.store <==> c in w.store)
            && (forall c | c != sender && c in w.store :: w'.store[c] == w.store[c])
            && w.log <= w'.log && w.outbox <= w'.outbox
            && (forall i | |w.log| <= i < |w'.log| :: w'.log[i].chat == sender)
            && (forall i | |w.outbox| <= i < |w'.outbox| :: w'.outbox[i].chat == sender)
  {
    var log := Logged(w, online, sender, text);
    var o := Decide(Lookup(w.store, online, sender), text, AiReply(ai, text, RecentHistory(log, online, sender)));
    if o.Done? {
      DeliveriesInOrder(sender, o.sends);
    }
  }

  /**
   * Over a whole webhook call the log and the outbox only grow; an ignored message changes
   * nothing, and a raise leaves the state store and the outbox as they were.
   */
  lemma TurnOnlyGrows(w: World, online: bool, hook: Webhook, ai: string -> Option<string>)
    ensures var r := Turn(w, online, hook, ai);
            && w.log <= r.world.log && w.outbox <= r.world.outbox
            && (r.status == Ignored ==> r.world == w)
            && (r.status == Failed ==> r.world.store == w.store && r.world.outbox == w.outbox)
  {
    if IsMessageEvent(hook) {
      var sender, text := hook.payload.value.sender, InboundText(hook.payload.value);
      if !Ignorable(sender, text) {
        RespondTouchesOnlySender(w, online, sender, text, ai);
      }
    }
  }

  /**
   * Only AI replies are logged as the bot: a turn logs the user's message and, in the menu
   * for a text other than the four options, the AI's reply, and nothing else.
   */
  lemma OnlyAiRepliesLogged(w: World, online: bool, sender: string, text: string, ai: string -> Option<string>)
    ensures var log := Logged(w, online, sender, text);
            var reply := AiReply(ai, text, RecentHistory(log, online, sender));
            var asked := Dispatch(Lookup(w.store, online, sender).state) == MenuRoute
                         && text != "1" && text != "2" && text != "3" && text != "4";
            Respond(w, online, sender, text, ai).world.log == if asked then Append(log, online, Entry(sender, Bot, reply)) else log
  {
    var log := Logged(w, online, sender, text);
    var reply := AiReply(ai, text, RecentHistory(log, online, sender));
    var o := Decide(Lookup(w.store, online, sender), text, reply);
    if o.Done? {
      assert o.botReply.Some? <==>
             Dispatch(Lookup(w.store, online, sender).state) == MenuRoute
             && text != "1" && text != "2" && text != "3" && text != "4";
    }
  }

  // ---------------------------------------------------------------------------
  // The store only ever holds labels the router can read back.

  predicate RouterLabel(state: string) {
    match Dispatch(state)
    case MenuRoute => true
    case StepRoute(_, q) => 1 <= q <= 7
    case _ => false
  }

  predicate StoreWellFormed(store: map<string, Record>) {
    forall chat | chat in store :: RouterLabel(store[chat].state)
  }

  /** Every row the router writes carries a label it can read back. */
  lemma DecideWritesRouterLabels(rec: Record, text: string, reply: string)
    requires Decide(rec, text, reply).Done? && Decide(rec, text, reply).write.Some?
    ensures RouterLabel(Decide(rec, text, reply).write.value.state)
  {
    FixedLabelsDispatch();
    match Dispatch(rec.state)
    case StepRoute(f, n) =>
      if n < 7 { StepLabelDispatch(f, n + 1); }
    case _ =>
  }

  lemma UpsertKeepsWellFormed(store: map<string, Record>, online: bool, chat: string, rec: Record)
    requires StoreWellFormed(store) && RouterLabel(rec.state)
    ensures StoreWellFormed(Upsert(store, online, chat, rec))
  {
  }

  /** Answering a message keeps the store well formed and, on a well-formed store, never raises. */
  lemma RespondPreservesWellFormed(w: World, online: bool, sender: string, text: string, ai: string -> Option<string>)
    requires StoreWellFormed(w.store)
    ensures StoreWellFormed(Respond(w, online, sender, text, ai).world.store)
    ensures Respond(w, online, sender, text, ai).status != Failed
  {
    var log := Append(w.log, online, Entry(sender, User, text));
    var reply := AiReply(ai, text, RecentHistory(log, online, sender));
    var rec := Lookup(w.store, online, sender);
    if !(online && sender in w.store) {
      FixedLabelsDispatch();
    }
    assert RouterLabel(rec.state);
    var o := Decide(rec, text, reply);
    assert o.Done?;
    if o.write.Some? {
      DecideWritesRouterLabels(rec, text, reply);
      UpsertKeepsWellFormed(w.store, online, sender, o.write.value);
    }
  }

  /** A turn keeps the store well formed and, on a well-formed store, never raises. */
  lemma TurnPreservesWellFormed(w: World, online: bool, hook: Webhook, ai: string -> Option<string>)
    requires StoreWellFormed(w.store)
    ensures StoreWellFormed(Turn(w, online, hook, ai).world.store)
    ensures Turn(w, online, hook, ai).status != Failed
  {
    if IsMessageEvent(hook) {
      var sender, text := hook.payload.value.sender, InboundText(hook.payload.value);
      if !Ignorable(sender, text) {
        RespondPreservesWellFormed(w, online, sender, text, ai);
      }
    }
  }

  // ---------------------------------------------------------------------------
  // A whole intake run, answer after answer, on a reachable database.

  /** The row stored after one answer. */
  function Advance(rec: Record, text: string): Record {
    match Decide(rec, text, AiFallbackText)
    case Done(_, Some(r), _, _) => r
    case _ => rec
  }

  /**
   * On a reachable database, a webhook turn for a chat in an intake flow stores exactly the
   * row `Advance` gives, so `Replay` follows the state store across repeated webhook calls.
   */
  lemma StepTurnIsAdvance(w: World, ai: string -> Option<string>, sender: string, text: string)
    requires sender in w.store && Dispatch(w.store[sender].state).StepRoute?
    ensures sender in Respond(w, true, sender, text, ai).world.store
    ensures Respond(w, true, sender, text, ai).world.store[sender] == Advance(w.store[sender], text)
  {
  }

  /** The row stored after a sequence of answers. */
  function Replay(rec: Record, texts: seq<string>): Record {
    if texts == [] then rec else Advance(Replay(rec, texts[..|texts| - 1]), texts[|texts| - 1])
  }

  /** Answers collected so far: the i-th text under `"q<i>"`. */
  function Answers(texts: seq<string>): map<string, string>
    requires |texts| <= 9
  {
    if texts == [] then map[] else Answers(texts[..|texts| - 1])[Key(|texts|) := texts[|texts| - 1]]
  }

  /** The answers dictionary holds exactly the keys `"q1"` to `"q<|texts|>"`, each with its text. */
  lemma {:induction false} AnswersContents(texts: seq<string>)
    requires |texts| <= 9
    ensures Answers(texts).Keys == set i: DigitValue | 1 <= i <= |texts| :: Key(i)
    ensures forall i: DigitValue | 1 <= i <= |texts| :: Answers(texts)[Key(i)] == texts[i - 1]
  {
    if texts != [] {
      var init := texts[..|texts| - 1];
      AnswersContents(init);
      forall i: DigitValue | 1 <= i < |texts| ensures Key(i) != Key(|texts|) {
        if Key(i) == Key(|texts|) { KeyInjective(i, |texts|); }
      }
    }
  }

  /** After `k <= 6` answers from the first question, the row is at question `k + 1` and holds exactly those answers. */
  lemma {:induction false} IntakeCollects(f: Flow, texts: seq<string>)
    requires |texts| <= 6
    ensures Replay(Record(StartLabel(f), map[]), texts) == Record(StepLabel(f, |texts| + 1), Answers(texts))
  {
    if texts != [] {
      var init := texts[..|texts| - 1];
      IntakeCollects(f, init);
      StepLabelDispatch(f, |init| + 1);
    }
  }

  lemma ReplayLast(rec: Record, texts: seq<string>, before: Record)
    requires texts != [] && Replay(rec, texts[..|texts| - 1]) == before
    ensures Replay(rec, texts) == Advance(before, texts[|texts| - 1])
  {
  }

  /** The label reached after `k <= 6` answers from the first question is that of question `k + 1`. */
  lemma IntakeReaches(f: Flow, texts: seq<string>)
    requires |texts| <= 6
    ensures Replay(Record(StartLabel(f), map[]), texts).state == StepLabel(f, |texts| + 1)
  {
    IntakeCollects(f, texts);
  }

  lemma AdvanceFinishes(rec: Record, text: string, f: Flow)
    requires rec.state == StepLabel(f, 7)
    ensures Advance(rec, text) == DefaultRecord
  {
    StepLabelDispatch(f, 7);
  }

  /** Six answers from the first question and a seventh bring the chat back to the menu with no stored answers. */
  lemma IntakeCompletes(f: Flow, init: seq<string>, final: string)
    requires |init| == 6
    ensures Replay(Record(StartLabel(f), map[]), init + [final]) == Record(MenuLabel, map[])
  {
    var start := Record(StartLabel(f), map[]);
    var last := Replay(start, init);
    IntakeReaches(f, init);
    AdvanceFinishes(last, final, f);
    assert (init + [final])[..6] == init;
    ReplayLast(start, init + [final], last);
  }

  /** The answer kept in memory for question 7: the capital label for franchises, the text for resellers. */
  function LastAnswer(f: Flow, text: string): string {
    if f == Franchise then CapitalAnswer(text) else text
  }

  /**
   * At the seventh answer the in-memory answers are those of the seven texts, with the
   * last one replaced by its capital label in the franchise flow (see `AnswersContents`
   * for the keys and values this gives).
   */
  lemma CompletedAnswersAtSeven(f: Flow, data: map<string, string>, text: string)
    ensures CompletedAnswers(f, 7, data, text) == data[Key(7) := LastAnswer(f, text)]
  {
    if f == Franchise && text in FranchiseCapitalOptions {
      assert data[Key(7) := text][Key(7) := FranchiseCapitalOptions[text]] == data[Key(7) := FranchiseCapitalOptions[text]];
    }
  }

  lemma IntakeFinalAnswers(f: Flow, init: seq<string>, final: string)
    requires |init| == 6
    ensures var o := Decide(Replay(Record(StartLabel(f), map[]), init), final, AiFallbackText);
            o.Done? && o.answers == Answers(init + [LastAnswer(f, final)])
  {
    IntakeCollects(f, init);
    StepLabelDispatch(f, 7);
    var rec := Replay(Record(StartLabel(f), map[]), init);
    assert rec == Record(StepLabel(f, 7), Answers(init));
    CompletedAnswersAtSeven(f, rec.data, final);
    assert Decide(rec, final, AiFallbackText).answers == Answers(init)[Key(7) := LastAnswer(f, final)];
    var lead := init + [LastAnswer(f, final)];
    assert lead[..6] == init;
  }
}
