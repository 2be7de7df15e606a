/**
 * The persisted conversation-state labels and the way the webhook selects a branch
 * from one: equality with the menu label, a prefix test per intake flow, and the
 * question number read from the label's last character with `int(label[-1])`.
 */
module Labels {

  /** The two intake flows: franchise applications and reseller applications. */
  datatype Flow = Franchise | Reseller

  const MenuLabel: string := "menu_principal"
  /** Declared by the source and never written by it; no branch matches it. */
  const GeneralChatLabel: string := "chat_geral"

  /** The prefix every label of a flow starts with, tested with `startswith`. */
  function Prefix(f: Flow): string {
    match f
    case Franchise => "franquia"
    case Reseller => "revendedor"
  }

  /** The value of one decimal digit, the only thing `int` accepts from a single character here. */
  type DigitValue = n: int | 0 <= n <= 9

  predicate IsDigit(c: char) {
    '0' <= c <= '9'
  }

  function DigitChar(n: DigitValue): (c: char)
    ensures IsDigit(c) && DigitOf(c) == n
  {
    (48 + n) as char
  }

  function DigitOf(c: char): DigitValue
    requires IsDigit(c)
  {
    c as int - 48
  }

  predicate StartsWith(s: string, prefix: string) {
    |prefix| <= |s| && s[..|prefix|] == prefix
  }

  /** The branch the webhook takes for a stored label. */
  datatype Route =
    | MenuRoute
    | StepRoute(flow: Flow, question: DigitValue)
    | NoRoute      // no branch matches: nothing is sent or written
    | ValueError   // `int(label[-1])` raises

  /** `int(label[-1])` in the branch of flow `f`. */
  function QuestionRoute(f: Flow, stored: string): Route
    requires stored != []
  {
    var c := stored[|stored| - 1];
    if IsDigit(c) then StepRoute(f, DigitOf(c)) else ValueError
  }

  /** Branch selection of the webhook on the stored label, in the source's order of tests. */
  function Dispatch(stored: string): (r: Route)
    ensures r == MenuRoute <==> stored == MenuLabel
    ensures r == NoRoute <==>
              stored != MenuLabel && !StartsWith(stored, Prefix(Franchise)) && !StartsWith(stored, Prefix(Reseller))
    ensures r == ValueError <==>
              && stored != MenuLabel
              && (StartsWith(stored, Prefix(Franchise)) || StartsWith(stored, Prefix(Reseller)))
              && !IsDigit(stored[|stored| - 1])
    ensures r.StepRoute? ==>
              && stored != MenuLabel
              && StartsWith(stored, Prefix(r.flow))
              && (r.flow == Reseller ==> !StartsWith(stored, Prefix(Franchise)))
              && stored[|stored| - 1] == DigitChar(r.question)
  {
    if stored == MenuLabel then MenuRoute
    else if StartsWith(stored, Prefix(Franchise)) then QuestionRoute(Franchise, stored)
    else if StartsWith(stored, Prefix(Reseller)) then QuestionRoute(Reseller, stored)
    else NoRoute
  }

  /** The label written when the answer to question `q - 1` moves a flow on to question `q`. */
  function StepLabel(f: Flow, q: int): string
    requires 1 <= q <= 7
  {
    Prefix(f) + "_q" + [DigitChar(q)]
  }

  /** The label the source writes when a flow starts: it ends in a letter, so reading it back raises. */
  function StartLabelAsWritten(f: Flow): (l: string)
    ensures Dispatch(l) == ValueError
  {
    var l := Prefix(f) + "_q1_nome";
    assert l[0] == Prefix(f)[0];
    assert l[..|Prefix(f)|] == Prefix(f);
    l
  }

  /** The corrected start label, written like every later one: reading it back yields question 1. */
  function StartLabel(f: Flow): (l: string)
    ensures Dispatch(l) == StepRoute(f, 1)
  {
    StepLabelDispatch(f, 1);
    StepLabel(f, 1)
  }

  /** Every label the router writes for question `q` of flow `f` is read back as exactly that step. */
  lemma StepLabelDispatch(f: Flow, q: int)
    requires 1 <= q <= 7
    ensures Dispatch(StepLabel(f, q)) == StepRoute(f, q)
  {
    var l := StepLabel(f, q);
    assert l[0] == Prefix(f)[0];
    assert l[..|Prefix(f)|] == Prefix(f);
    assert l[|l| - 1] == DigitChar(q);
  }

  /** Distinct flow steps are persisted under distinct labels. */
  lemma StepLabelInjective(f: Flow, q: int, g: Flow, r: int)
    requires 1 <= q <= 7 && 1 <= r <= 7
    requires StepLabel(f, q) == StepLabel(g, r)
    ensures f == g && q == r
  {
    StepLabelDispatch(f, q);
    StepLabelDispatch(g, r);
  }

  /** The menu label selects the menu branch; the unused general-chat label selects no branch. */
  lemma FixedLabelsDispatch()
    ensures Dispatch(MenuLabel) == MenuRoute
    ensures Dispatch(GeneralChatLabel) == NoRoute
  {
    assert GeneralChatLabel[0] == 'c';
  }
}
