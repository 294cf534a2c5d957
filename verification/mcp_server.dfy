/** The MCP server's request handlers: the tool list and the tool call
    dispatcher, which turns every failure, thrown or not, into an error
    payload instead of letting it escape. The two tools' HTTP delegates are
    parameters: each is given by the outcome its call would have. */
module McpServer {
  import opened Wrappers
  import opened Strings

  const ListCategoriesTool: string := "list_categories"
  const GetModelTool: string := "get_model"

  /** The tools the server announces, in order. */
  const Tools: seq<string> := [ListCategoriesTool, GetModelTool]

  /** The ListTools handler: the listing tool, then the lookup tool. */
  function ListTools(): (names: seq<string>)
    ensures names == ["list_categories", "get_model"]
  {
    Tools
  }

  /** How a delegate call ends: with its serialised result, by throwing an
      `Error` with a message, or by throwing something that is not an
      `Error`. */
  datatype Outcome = Returned(text: string) | ThrewError(message: string) | ThrewNonError

  /** The arguments of a `get_model` call. */
  datatype GetModelArgs = GetModelArgs(category: Option<string>, provider: Option<string>)

  /** A tool call's answer: one text item, flagged as an error or not. The
      error text is the JSON object `{error: message}`. */
  datatype ToolResult = Content(text: string) | ErrorContent(message: string)
  {
    predicate IsError() { ErrorContent? }
  }

  const UnknownError: string := "Unbekannter Fehler"
  const MissingCategory: string := "Parameter 'category' ist erforderlich"
  /** What reading `category` off absent arguments throws. */
  const ArgumentsMissing: string := "Cannot read properties of undefined (reading 'category')"

  /** The catch-all: a result passes through, an `Error` contributes its
      message, anything else is an unknown error. */
  function Caught(outcome: Outcome): (r: ToolResult)
    ensures outcome.Returned? <==> !r.IsError()
    ensures outcome.Returned? ==> r == Content(outcome.text)
    ensures outcome.ThrewError? ==> r == ErrorContent(outcome.message)
    ensures outcome.ThrewNonError? ==> r == ErrorContent(UnknownError)
  {
    match outcome
    case Returned(text) => Content(text)
    case ThrewError(message) => ErrorContent(message)
    case ThrewNonError => ErrorContent(UnknownError)
  }

  /** The CallTool handler. `args` is `None` when the request carries no
      arguments; `getModel` is consulted only for a call that passes the
      category check. */
  function CallTool(name: string, args: Option<GetModelArgs>, listCategories: Outcome,
                    getModel: GetModelArgs -> Outcome): (r: ToolResult)
    ensures name !in Tools ==> r == ErrorContent("Unbekanntes Tool: " + name)
    ensures name == ListCategoriesTool ==> r == Caught(listCategories)
    ensures name == GetModelTool && args.None? ==> r == ErrorContent(ArgumentsMissing)
    ensures name == GetModelTool && args.Some? && !IsSet(args.value.category) ==> r == ErrorContent(MissingCategory)
    ensures name == GetModelTool && args.Some? && IsSet(args.value.category) ==> r == Caught(getModel(args.value))
  {
    if name == ListCategoriesTool then Caught(listCategories)
    else if name == GetModelTool then
      match args
      case None => ErrorContent(ArgumentsMissing)
      case Some(input) =>
        if !IsSet(input.category) then ErrorContent(MissingCategory)
        else Caught(getModel(input))
    else ErrorContent("Unbekanntes Tool: " + name)
  }

  /** A call is answered with an error exactly when the tool is unknown, the
      category check fails or the delegate throws. */
  lemma CallToolErrorIff(name: string, args: Option<GetModelArgs>, listCategories: Outcome,
                         getModel: GetModelArgs -> Outcome)
    ensures CallTool(name, args, listCategories, getModel).IsError() <==>
      || name !in Tools
      || (name == ListCategoriesTool && !listCategories.Returned?)
      || (name == GetModelTool && (args.None? || !IsSet(args.value.category) || !getModel(args.value).Returned?))
  {
  }

  /** The category check comes first: a `get_model` call without a category
      fails the same way whatever the delegate would have done. */
  lemma MissingCategoryIgnoresDelegate(args: Option<GetModelArgs>, listCategories: Outcome,
                                       d1: GetModelArgs -> Outcome, d2: GetModelArgs -> Outcome)
    requires args.None? || !IsSet(args.value.category)
    ensures CallTool(GetModelTool, args, listCategories, d1) == CallTool(GetModelTool, args, listCategories, d2)
    ensures CallTool(GetModelTool, args, listCategories, d1).IsError()
  {
  }

  /** The listing tool's answer depends on its own delegate only. */
  lemma ListCategoriesIgnoresArguments(a1: Option<GetModelArgs>, a2: Option<GetModelArgs>, listCategories: Outcome,
                                       d1: GetModelArgs -> Outcome, d2: GetModelArgs -> Outcome)
    ensures CallTool(ListCategoriesTool, a1, listCategories, d1) == CallTool(ListCategoriesTool, a2, listCategories, d2)
  {
  }

  /** The announced list and the dispatcher agree: a name the list does not
      announce is answered as an unknown tool, and each announced name reaches
      its own delegate. */
  lemma ListedToolsAreDispatched(name: string, args: Option<GetModelArgs>, listCategories: Outcome,
                                 getModel: GetModelArgs -> Outcome)
    ensures name !in ListTools() ==> CallTool(name, args, listCategories, getModel) == ErrorContent("Unbekanntes Tool: " + name)
    ensures name == ListTools()[0] ==> CallTool(name, args, listCategories, getModel) == Caught(listCategories)
    ensures name == ListTools()[1] && args.Some? && IsSet(args.value.category) ==>
      CallTool(name, args, listCategories, getModel) == Caught(getModel(args.value))
  {
  }
}
