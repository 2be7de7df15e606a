/**
 * The append-only message log, the recent-history window read from it for the AI,
 * and the prompt built from that window.
 */
module History {
  import opened Wrappers
  import opened Texts

  datatype Speaker = User | Bot

  /** The sender column of the log. */
  function SpeakerName(s: Speaker): string {
    match s
    case User => "user"
    case Bot => "bot"
  }

  /** One row of the message log; rows are kept in insertion order. */
  datatype Entry = Entry(chat: string, sender: Speaker, message: string)

  /** The entries of one chat, in log order. */
  function ForChat(log: seq<Entry>, chat: string): (r: seq<Entry>)
    ensures |r| <= |log|
    ensures forall e :: e in r <==> e in log && e.chat == chat
    ensures |log| == 1 ==> r == if log[0].chat == chat then log else []
  {
    if log == [] then []
    else
      var last := log[|log| - 1];
      ForChat(log[..|log| - 1], chat) + (if last.chat == chat then [last] else [])
  }

  /** Appending one entry to the log appends it to the chat's entries exactly when it is the chat's. */
  lemma ForChatSnoc(log: seq<Entry>, e: Entry, chat: string)
    ensures ForChat(log + [e], chat) == ForChat(log, chat) + (if e.chat == chat then [e] else [])
  {
    var t := log + [e];
    assert t[..|t| - 1] == log && t[|t| - 1] == e;
  }

  /** The chat's entries keep their log order: filtering a concatenation filters each part. */
  lemma {:induction false} ForChatAppend(a: seq<Entry>, b: seq<Entry>, chat: string)
    ensures ForChat(a + b, chat) == ForChat(a, chat) + ForChat(b, chat)
  {
    if b == [] {
      assert a + b == a;
    } else {
      var init, last := b[..|b| - 1], b[|b| - 1];
      assert a + b == (a + init) + [last];
      assert b == init + [last];
      ForChatSnoc(a + init, last, chat);
      ForChatSnoc(init, last, chat);
      ForChatAppend(a, init, chat);
    }
  }

  /** The newest `limit` entries of one chat, newest first: the history query, ordered by time descending. */
  function NewestFirst(log: seq<Entry>, chat: string, limit: nat): (r: seq<Entry>)
    ensures |r| <= limit
  {
    if log == [] || limit == 0 then []
    else
      var last := log[|log| - 1];
      if last.chat == chat then [last] + NewestFirst(log[..|log| - 1], chat, limit - 1)
      else NewestFirst(log[..|log| - 1], chat, limit)
  }

  /** `s[::-1]`. */
  function Reversed<T>(s: seq<T>): (r: seq<T>)
    ensures |r| == |s|
    ensures forall i | 0 <= i < |s| :: r[i] == s[|s| - 1 - i]
  {
    if s == [] then [] else Reversed(s[1..]) + [s[0]]
  }

  /** The last `n` elements of `s`, or all of it when it is shorter. */
  function LastN<T>(s: seq<T>, n: nat): seq<T> {
    if |s| <= n then s else s[|s| - n..]
  }

  /** The history handed to the AI for a chat: the query result reversed into chronological order. */
  function Window(log: seq<Entry>, chat: string): seq<Entry> {
    Reversed(NewestFirst(log, chat, MaxHistoryMessages))
  }

  lemma LastNSnoc<T>(s: seq<T>, x: T, n: nat)
    requires n > 0
    ensures LastN(s + [x], n) == LastN(s, n - 1) + [x]
  {
    var t := s + [x];
    if |t| > n {
      assert t[|t| - n..] == s[|s| - (n - 1)..] + [x];
    }
  }

  /** Reversing the newest-first query result gives the chat's last `n` entries, oldest first. */
  lemma {:induction false} NewestFirstReversed(log: seq<Entry>, chat: string, n: nat)
    ensures Reversed(NewestFirst(log, chat, n)) == LastN(ForChat(log, chat), n)
  {
    if log == [] {
    } else if n == 0 {
      assert LastN(ForChat(log, chat), 0) == [];
    } else {
      var init, last := log[..|log| - 1], log[|log| - 1];
      NewestFirstReversed(init, chat, if last.chat == chat then n - 1 else n);
      if last.chat == chat {
        var rest := NewestFirst(init, chat, n - 1);
        assert ([last] + rest)[1..] == rest;
        LastNSnoc(ForChat(init, chat), last, n);
      }
    }
  }

  /**
   * The window holds at most `MaxHistoryMessages` entries: exactly the most recent ones of
   * the chat, oldest first, and it ends with the newest log entry when that belongs to the chat.
   */
  lemma WindowIsRecentHistory(log: seq<Entry>, chat: string)
    ensures var w, h := Window(log, chat), ForChat(log, chat);
            && |w| == (if |h| <= MaxHistoryMessages then |h| else MaxHistoryMessages)
            && w == h[|h| - |w|..]
    ensures forall e :: e in Window(log, chat) ==> e in log && e.chat == chat
    ensures log != [] && log[|log| - 1].chat == chat ==>
              |Window(log, chat)| > 0 && Window(log, chat)[|Window(log, chat)| - 1] == log[|log| - 1]
  {
    NewestFirstReversed(log, chat, MaxHistoryMessages);
  }

  /** One history line of the prompt: `**sender:** message` and a newline. */
  function FormatLine(e: Entry): string {
    "**" + SpeakerName(e.sender) + ":** " + e.message + "\n"
  }

  /** The history lines joined in order. */
  function FormatHistory(h: seq<Entry>): string {
    if h == [] then [] else FormatLine(h[0]) + FormatHistory(h[1..])
  }

  /** Formatting distributes over concatenation: the join keeps every line, in order. */
  lemma {:induction false} FormatHistoryAppend(a: seq<Entry>, b: seq<Entry>)
    ensures FormatHistory(a + b) == FormatHistory(a) + FormatHistory(b)
  {
    if a == [] {
      assert a + b == b;
    } else {
      assert (a + b)[1..] == a[1..] + b;
      FormatHistoryAppend(a[1..], b);
    }
  }

  /** The full prompt: store knowledge, formatted history and the current question. */
  function Prompt(question: string, history: seq<Entry>): string {
    PromptOpening + StoreInfo + PromptHistoryHeading + FormatHistory(history)
    + PromptQuestionHeading + question + PromptClosing
  }

  lemma SameFrame(x: string, m1: string, m2: string, y: string)
    requires x + m1 + y == x + m2 + y
    ensures m1 == m2
  {
    assert m1 == (x + m1 + y)[|x|..|x| + |m1|];
    assert m2 == (x + m2 + y)[|x|..|x| + |m2|];
  }

  lemma Regroup(p: string, u: string, v: string, w: string)
    ensures p + u + v + w == p + (u + v + w)
  {
  }

  /** The prompt carries the question unaltered: for the same history it determines the question. */
  lemma PromptDeterminesQuestion(q1: string, q2: string, h: seq<Entry>)
    requires Prompt(q1, h) == Prompt(q2, h)
    ensures q1 == q2
  {
    var x := PromptOpening + StoreInfo + PromptHistoryHeading + FormatHistory(h) + PromptQuestionHeading;
    SameFrame(x, q1, q2, PromptClosing);
  }

  /** The prompt carries the history unaltered: for the same question it determines the history text. */
  lemma PromptDeterminesHistory(q: string, h1: seq<Entry>, h2: seq<Entry>)
    requires Prompt(q, h1) == Prompt(q, h2)
    ensures FormatHistory(h1) == FormatHistory(h2)
  {
    var x := PromptOpening + StoreInfo + PromptHistoryHeading;
    var y := PromptQuestionHeading + q + PromptClosing;
    Regroup(x + FormatHistory(h1), PromptQuestionHeading, q, PromptClosing);
    Regroup(x + FormatHistory(h2), PromptQuestionHeading, q, PromptClosing);
    SameFrame(x, FormatHistory(h1), FormatHistory(h2), y);
  }

  /** The AI's reply to a prompt; any failure of the call yields the fixed apology. */
  function AiReply(ai: string -> Option<string>, question: string, history: seq<Entry>): (r: string)
    ensures ai(Prompt(question, history)).None? ==> r == AiFallbackText
    ensures ai(Prompt(question, history)).Some? ==> r == ai(Prompt(question, history)).value
  {
    ai(Prompt(question, history)).GetOr(AiFallbackText)
  }
}
