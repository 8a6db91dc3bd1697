/** The intent catalog of the support chat and the messages a transcript is made of. */
module Catalog {

  /** Who a chat message is attributed to. */
  datatype Role = System | User | Assistant

  /** One role-tagged entry of a transcript or of a sequence sent to the completion service. */
  datatype Message = Message(role: Role, content: string)

  /** A catalog entry: the persona prompt and the greeting shown after a reset. */
  datatype Intent = Intent(system: string, defaultReply: string)

  /** The intent names in the order the selector offers them (the catalog's insertion order). */
  const IntentNames: seq<string> := [
    "Billing Issue",
    "Claims & Reimbursement",
    "Policy & Plans",
    "Document Help",
    "Form Filling Help",
    "General Support"
  ]

  /** The fixed catalog, from intent name to its prompt and greeting. */
  const Intents: map<string, Intent> := map[
    "Billing Issue" := Intent(
      "You are helping the user with billing-related questions, like payment issues or invoices.",
      "Here are some billing issues I can assist with:\n- Transaction failure\n- Incorrect bank charges\n- Unrecognized deductions\n- EMI payment queries\n- Statement clarification"),
    "Claims & Reimbursement" := Intent(
      "You assist with insurance claims, status tracking, and reimbursement-related queries.",
      "Claim Help Available:\n- How to file a claim\n- Track claim status\n- Required documents\n- Reimbursement timelines"),
    "Policy & Plans" := Intent(
      "You help the user understand or upgrade their policy or insurance plan.",
      "Policy Support:\n- Term insurance\n- Health insurance\n- Vehicle insurance\n- Pension & investment plans\n- Policy upgrade/downgrade help"),
    "Document Help" := Intent(
      "You help the user with uploading, verifying, or understanding required documents.",
      "Document Support:\n- KYC document checklist\n- Upload/verification help\n- Required formats\n- Common rejection reasons"),
    "Form Filling Help" := Intent(
      "You help the user understand how to correctly fill out insurance forms, what each field means, and what info to put.",
      "I can guide you on filling forms like:\n- Gold Loan Application\n- Car Loan Application\n- Insurance Policy Forms\n- Account opening forms\n- Address/ID update forms"),
    "General Support" := Intent(
      "You answer any other customer support queries.",
      "General Help Topics:\n- Bank holidays\n- Branch info\n- Grievance redressal\n- Mobile banking help\n- Debit/Credit card support")
  ]

  /** The system prompts of all catalog entries. */
  function Prompts(): set<string> {
    set name | name in Intents :: Intents[name].system
  }

  /** The selector offers exactly the catalog's names, each once. */
  lemma SelectorOffersCatalog()
    ensures |IntentNames| == 6
    ensures forall name :: name in IntentNames <==> name in Intents
    ensures forall i, j :: 0 <= i < j < |IntentNames| ==> IntentNames[i] != IntentNames[j]
  {
  }

  /** No two catalog entries share a system prompt, so a prompt identifies its intent. */
  lemma PromptsDistinct()
    ensures forall a, b :: a in Intents && b in Intents && a != b ==> Intents[a].system != Intents[b].system
  {
  }
}
