/**
 * The webhook run step by step: one object holding the state store, the message log
 * and the outbox, whose `HandleMessage` performs the turn's reads, writes and sends in
 * the source's order and is proved to do exactly what `Router.Turn` says. A flow is
 * started with the corrected first-question label `Labels.StartLabel`.
 */
module ChatBot {
  import opened Wrappers
  import opened Labels
  import opened Texts
  import opened History
  import opened Router
  import opened Properties

  class Bot {
    /** Whether the database can be reached; when it cannot, reads give defaults and writes are skipped. */
    const online: bool
    /** The state table: one row per chat, upserted. */
    var store: map<string, Record>
    /** The messages table, append-only, in insertion order. */
    var log: seq<Entry>
    /** Every message handed to the messaging gateway, in order. */
    var outbox: seq<Outgoing>

    constructor (online: bool)
      ensures this.online == online
      ensures store == map[] && log == [] && outbox == []
      ensures Valid()
    {
      this.online := online;
      store, log, outbox := map[], [], [];
    }

    function Snapshot(): World
      reads this
    {
      World(store, log, outbox)
    }

    /** Every stored state is one the router can read back. */
    ghost predicate Valid()
      reads this
    {
      StoreWellFormed(store)
    }

    /** `get_user_state`: the chat's row, or the menu with no answers when there is none or the database is down. */
    method GetUserState(chat: string) returns (rec: Record)
      ensures online && chat in store ==> rec == store[chat]
      ensures !online || chat !in store ==> rec == Record(MenuLabel, map[])
    {
      if online && chat in store {
        rec := store[chat];
      } else {
        rec := DefaultRecord;
      }
    }

    /** `set_user_state`: upsert of the chat's row; absent data is stored as no answers. */
    method SetUserState(chat: string, state: string, data: Option<map<string, string>>)
      modifies this`store
      ensures store == if online then old(store)[chat := Record(state, data.GetOr(map[]))] else old(store)
    {
      if online {
        store := store[chat := Record(state, data.GetOr(map[]))];
      }
    }

    /** `save_message`: one row appended to the log. */
    method SaveMessage(chat: string, sender: Speaker, message: string)
      modifies this`log
      ensures log == if online then old(log) + [Entry(chat, sender, message)] else old(log)
    {
      if online {
        log := log + [Entry(chat, sender, message)];
      }
    }

    /** `get_chat_history`: the chat's last `MaxHistoryMessages` entries, oldest first; nothing when the database is down. */
    method GetChatHistory(chat: string) returns (history: seq<Entry>)
      ensures online ==> history == LastN(ForChat(log, chat), MaxHistoryMessages)
      ensures !online ==> history == []
    {
      history := [];
      if online {
        var newest := NewestFirst(log, chat, MaxHistoryMessages);
        history := Reversed(newest);
        NewestFirstReversed(log, chat, MaxHistoryMessages);
      }
    }

    /** `send_waha_message`: delivery is fire-and-forget, so every send lands in the outbox. */
    method SendMessage(chat: string, text: string)
      modifies this`outbox
      ensures outbox == old(outbox) + [Outgoing(chat, text)]
    {
      outbox := outbox + [Outgoing(chat, text)];
    }

    /** The `/webhook` handler for one delivery, with the AI call `ai`. */
    method HandleMessage(hook: Webhook, ai: string -> Option<string>) returns (status: Status)
      modifies this
      ensures TurnResult(Snapshot(), status) == Turn(old(Snapshot()), online, hook, ai)
      ensures old(Valid()) ==> Valid() && status != Failed
    {
      if Valid() {
        TurnPreservesWellFormed(Snapshot(), online, hook, ai);
      }
      if !IsMessageEvent(hook) {
        return Received;
      }
      var sender := hook.payload.value.sender;
      var text := InboundText(hook.payload.value);
      if Ignorable(sender, text) {
        return Ignored;
      }
      status := RouteMessage(sender, text, ai);
    }

    /** The part of the handler after the filter: save the message, read the state, take the branch. */
    method RouteMessage(sender: string, text: string, ai: string -> Option<string>) returns (status: Status)
      modifies this
      ensures TurnResult(Snapshot(), status) == Respond(old(Snapshot()), online, sender, text, ai)
    {
      ghost var w0 := Snapshot();
      SaveMessage(sender, User, text);
      var rec := GetUserState(sender);
      assert rec == Lookup(w0.store, online, sender);
      ghost var logged := World(w0.store, log, w0.outbox);
      ghost var reply := AiReply(ai, text, RecentHistory(log, online, sender));
      ghost var o := Decide(rec, text, reply);
      assert Snapshot() == logged;
      status := Received;
      match Dispatch(rec.state)
      case MenuRoute =>
        HandleMenuChoice(sender, text, rec, ai, reply);
        assert Snapshot() == Apply(logged, online, sender, o);
      case StepRoute(flow, n) =>
        HandleAnswer(sender, text, rec, flow, n);
        assert Snapshot() == Apply(logged, online, sender, o);
      case NoRoute =>
        assert o == Done([], None, None, rec.data);
      case ValueError =>
        status := Failed;
    }

    /** The menu branch: options 1 to 4, anything else to the AI. */
    method HandleMenuChoice(sender: string, text: string, rec: Record, ai: string -> Option<string>, ghost reply: string)
      requires reply == AiReply(ai, text, RecentHistory(log, online, sender))
      modifies this
      ensures Snapshot() == Apply(old(Snapshot()), online, sender, MenuOutcome(rec.data, text, reply))
    {
      if text == "1" {
        SendMessage(sender, ProblemsText);
        DeliveriesOfOne(sender, ProblemsText);
      } else if text == "2" {
        SetUserState(sender, StartLabel(Franchise), None);
        SendMessage(sender, StartText(Franchise) + "\n\n" + Question(Franchise, 1));
        DeliveriesOfOne(sender, StartText(Franchise) + "\n\n" + Question(Franchise, 1));
      } else if text == "3" {
        SetUserState(sender, StartLabel(Reseller), None);
        SendMessage(sender, StartText(Reseller) + "\n\n" + Question(Reseller, 1));
        DeliveriesOfOne(sender, StartText(Reseller) + "\n\n" + Question(Reseller, 1));
      } else if text == "4" {
        SendMessage(sender, AboutText);
        SendMessage(sender, MenuText);
        DeliveriesOfTwo(sender, AboutText, MenuText);
      } else {
        AnswerWithAi(sender, text, ai, reply);
        DeliveriesOfTwo(sender, reply, MenuText);
      }
    }

    /** Any other menu text: ask the AI with the chat's recent history, send its reply and the menu, log the reply. */
    method AnswerWithAi(sender: string, text: string, ai: string -> Option<string>, ghost reply: string)
      requires reply == AiReply(ai, text, RecentHistory(log, online, sender))
      modifies this
      ensures store == old(store)
      ensures log == Append(old(log), online, Entry(sender, Bot, reply))
      ensures outbox == old(outbox) + [Outgoing(sender, reply), Outgoing(sender, MenuText)]
    {
      var history := GetChatHistory(sender);
      if online {
        NewestFirstReversed(log, sender, MaxHistoryMessages);
      }
      assert history == RecentHistory(log, online, sender);
      var answer := AiReply(ai, text, history);
      assert answer == reply;
      SendMessage(sender, answer);
      SendMessage(sender, MenuText);
      SaveMessage(sender, Bot, answer);
    }

    /** The branch of flow `flow` answering question `n`: store the answer and move on, or finish. */
    method HandleAnswer(sender: string, text: string, rec: Record, flow: Flow, n: DigitValue)
      modifies this
      ensures Snapshot() == Apply(old(Snapshot()), online, sender, StepOutcome(flow, n, rec.data, text))
    {
      var userData := rec.data;
      userData := userData[Key(n) := text];
      if n < 7 {
        SendMessage(sender, Question(flow, n + 1));
        SetUserState(sender, StepLabel(flow, n + 1), Some(userData));
        DeliveriesOfOne(sender, Question(flow, n + 1));
      } else {
        // The mapped capital answer stays in this dictionary, which is not stored.
        if flow == Franchise && text in FranchiseCapitalOptions {
          userData := userData[Key(7) := FranchiseCapitalOptions[text]];
        }
        SendMessage(sender, EndText(flow));
        SendMessage(sender, MenuText);
        SetUserState(sender, MenuLabel, None);
        DeliveriesOfTwo(sender, EndText(flow), MenuText);
      }
    }
  }
}
