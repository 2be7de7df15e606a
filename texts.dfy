/**
 * The fixed texts and constants of the assistant. The wording of the chat messages
 * is not modelled: each message is a placeholder standing for the source's constant
 * of the same role. The capital-range labels are kept verbatim, because the intake
 * flow stores them as answers.
 */
module Texts {
  import opened Labels

  /** Size of the history window handed to the AI. */
  const MaxHistoryMessages: nat := 10
  /** The platform's status-broadcast sender, whose messages are ignored. */
  const BroadcastSender: string := "status@broadcast"

  const MenuText: string := "MENU"
  const ProblemsText: string := "PROBLEMS"
  const AboutText: string := "ABOUT"
  /** Store knowledge for the AI: the about text followed by further store information. */
  const StoreInfo: string := AboutText + "STORE"
  /** What the user receives when the AI call fails. */
  const AiFallbackText: string := "SORRY"

  /** Fixed parts of the AI prompt around the store knowledge, the history and the question. */
  const PromptOpening: string := "ROLE"
  const PromptHistoryHeading: string := "HISTORY"
  const PromptQuestionHeading: string := "QUESTION"
  const PromptClosing: string := "REPLY"

  const FranchiseQuestions: seq<string> := ["F1", "F2", "F3", "F4", "F5", "F6", "F7"]

  const ResellerQuestions: seq<string> := ["R1", "R2", "R3", "R4", "R5", "R6", "R7"]

  /** The answer labels for the franchise capital question. */
  const FranchiseCapitalOptions: map<string, string> := map[
    "1" := "Entre R$ 200 mil e R$ 275 mil",
    "2" := "Acima de R$ 350 mil"]

  function StartText(f: Flow): string {
    match f
    case Franchise => "FRANCHISE_START"
    case Reseller => "RESELLER_START"
  }

  function EndText(f: Flow): string {
    match f
    case Franchise => "FRANCHISE_END"
    case Reseller => "RESELLER_END"
  }

  /** Question `q` of flow `f`, looked up in the flow's ordered question table. */
  function Question(f: Flow, q: int): string
    requires 1 <= q <= 7
  {
    match f
    case Franchise => FranchiseQuestions[q - 1]
    case Reseller => ResellerQuestions[q - 1]
  }

  /** The answer kept for the capital question: the option's label for "1" and "2", the text itself otherwise. */
  function CapitalAnswer(text: string): (r: string)
    ensures text == "1" ==> r == "Entre R$ 200 mil e R$ 275 mil"
    ensures text == "2" ==> r == "Acima de R$ 350 mil"
    ensures text != "1" && text != "2" ==> r == text
  {
    if text in FranchiseCapitalOptions then FranchiseCapitalOptions[text] else text
  }
}
