/**
 * streamlit101.py: the CFA chat page. Its core is `get_test_prompt`, which
 * turns the sidebar's role into a prompt or raises ValueError, and the
 * step that cuts the model's answer out of the generated text. The model
 * itself is a function parameter.
 */
module Streamlit101 {
  import opened Wrappers
  import opened PyText

  // ------------------------------------------------------------ get_test_prompt

  /** The roles `get_test_prompt` accepts, with the expert each one stands for. */
  function RoleDescription(role: string): Option<string> {
    if role == "Exam rule" then Some("CFA EXAM rule expert")
    else if role == "Financial Basic knowledge" then Some("Financial Basic knowledge expert")
    else None
  }

  const InvalidRoleMessage: string := "Invalid role type. Please choose 'Exam rule' or 'Financial Basic knowledge'."

  const TestPromptLead: string := "\nImagine you're a "
  const TestPromptScope: string := " you should only respond to the question of the user in this area. For other types of questions, just say: 'this is not my area'.\n----------------------------\n"
  const TestPromptRest: string := "Your response has to be concise and answer only the question of the user. \nYour response should be in Markdown and adapted to the user's knowledge level in finance. The different knowledge levels of the user are:\n- For Novice user: Use simple words; give a short definition of each indicator and its interpretation. Analysis needs to be understandable by users with no knowledge in finance.\n- Confirmed: The user has some knowledge but is not an expert in finance.\n- Expert: The user is an expert in finance, so you can elaborate on a sophisticated analysis.\nYou should highlight in **bold** relevant passages/key words in your response to make it easier to understand.\nFinally, your response cannot have any notes about rewording or user experience.\n    "

  /** The f-string of `get_test_prompt` with the role's description and the query in place. */
  function TestPromptText(description: string, query: string): (r: string)
    ensures Contains(r, "helpful " + description + ",")
    ensures Contains(r, "QUESTION: " + query + "\n")
  {
    var persona := "helpful " + description + ",";
    var question := "QUESTION: " + query + "\n";
    ContainsInfix(TestPromptLead, persona, TestPromptScope + question + TestPromptRest);
    ContainsInfix(TestPromptLead + persona + TestPromptScope, question, TestPromptRest);
    assert TestPromptLead + persona + (TestPromptScope + question + TestPromptRest)
        == TestPromptLead + persona + TestPromptScope + question + TestPromptRest;
    TestPromptLead + persona + TestPromptScope + question + TestPromptRest
  }

  /**
   * `get_test_prompt(query, role)`: the prompt for one of the two known
   * roles, ValueError for any other; the prompt names the role's expert
   * and shows the query as given.
   */
  function GetTestPrompt(query: string, role: string): (r: Result<string>)
    ensures r.Ok? <==> role == "Exam rule" || role == "Financial Basic knowledge"
    ensures r.Err? ==> r.error == ValueError(InvalidRoleMessage)
    ensures r.Ok? ==> Contains(r.value, "helpful " + RoleDescription(role).value + ",")
    ensures r.Ok? ==> Contains(r.value, "QUESTION: " + query + "\n")
  {
    match RoleDescription(role)
    case None => Err(ValueError(InvalidRoleMessage))
    case Some(description) => Ok(TestPromptText(description, query))
  }

  // ------------------------------------------------------------ the sidebar

  /** The options of the "Select assistant type" box, as written. */
  const SidebarRoles: seq<string> := ["Exam rule", "Financial Basic knowledge expert"]

  /** The second option of the sidebar, as written, is not a role `get_test_prompt` knows: every query under it raises. */
  lemma SidebarSecondRoleRejected(query: string)
    ensures GetTestPrompt(query, SidebarRoles[1]) == Err(ValueError(InvalidRoleMessage))
  {
    assert SidebarRoles[1] != "Financial Basic knowledge" by {
      assert |SidebarRoles[1]| != |"Financial Basic knowledge"|;
    }
  }

  /** The options of the box as `get_test_prompt` and its error message name them. */
  const SidebarRolesCorrected: seq<string> := ["Exam rule", "Financial Basic knowledge"]

  /** Every corrected option gives a prompt. */
  lemma SidebarRolesAccepted(query: string, choice: nat)
    requires choice < |SidebarRolesCorrected|
    ensures GetTestPrompt(query, SidebarRolesCorrected[choice]).Ok?
  {
  }

  // ------------------------------------------------------------ the answer

  /**
   * `response.split("[/INST]")[-1].split("</s>")[0]`: the text after the
   * last "[/INST]", up to the first "</s>" that follows it.
   */
  function ExtractResponse(raw: string): (r: string)
    ensures !Contains(r, "[/INST]") && !Contains(r, "</s>")
    ensures !Contains(raw, "[/INST]") && !Contains(raw, "</s>") ==> r == raw
  {
    AfterLastUntil(raw, "[/INST]", "</s>")
  }

  /**
   * The answer sits in the generated text after a "[/INST]" (or at its
   * start), with no "[/INST]" in the answer or after it, and is followed
   * by "</s>" or by the end of the text.
   */
  lemma ExtractResponseShape(raw: string) returns (before: string, after: string)
    ensures raw == before + ExtractResponse(raw) + after
    ensures before == "" || EndsWith(before, "[/INST]")
    ensures !Contains(ExtractResponse(raw) + after, "[/INST]")
    ensures after == "" || StartsWith(after, "</s>")
  {
    before, after := SplitLastThenHead(raw, "[/INST]", "</s>");
    assert ExtractResponse(raw) == AfterLastUntil(raw, "[/INST]", "</s>");
  }

  // ------------------------------------------------------------ one chat turn

  /**
   * One turn of the page: an empty query does nothing; otherwise the
   * prompt is built for the chosen role and the model's text (the `llm`
   * parameter) is cut down to its answer.
   */
  function ChatTurn(query: string, role: string, llm: string -> string): (r: Option<Result<string>>)
    ensures query == "" <==> r.None?
    ensures r.Some? ==> (r.value.Ok? <==> RoleDescription(role).Some?)
    ensures r.Some? && r.value.Ok? ==> !Contains(r.value.value, "[/INST]") && !Contains(r.value.value, "</s>")
    ensures r.Some? && r.value.Ok? ==>
      (GetTestPrompt(query, role).Ok? && r.value.value == ExtractResponse(llm(GetTestPrompt(query, role).value)))
  {
    if query == "" then None
    else
      match GetTestPrompt(query, role)
      case Err(e) => Some(Err(e))
      case Ok(prompt) => Some(Ok(ExtractResponse(llm(prompt))))
  }

  /** With the corrected options, every non-empty query gets an answer, whatever the role chosen. */
  lemma CorrectedSidebarAnswers(query: string, choice: nat, llm: string -> string)
    requires query != "" && choice < |SidebarRolesCorrected|
    ensures ChatTurn(query, SidebarRolesCorrected[choice], llm).Some?
    ensures ChatTurn(query, SidebarRolesCorrected[choice], llm).value.Ok?
  {
    SidebarRolesAccepted(query, choice);
  }
}
