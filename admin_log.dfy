/**
 * The `get_admin_log` template tag: parsing of its arguments
 * (`DoGetAdminLog.__call__`) and the node that fills a context variable with
 * the admin log (`AdminLogNode.render`). The log itself is an ORM query and is
 * kept abstract: `LogQuery` records which filter and limit the node asks for.
 */
module AdminLog {
  import opened Wrappers
  import opened Text

  /** The parsed tag: `{% get_admin_log <limit> as <varname> [for_user <user>] %}`. */
  datatype AdminLogNode = AdminLogNode(limit: string, varname: string, user: Option<string>)

  datatype TemplateSyntaxError = TemplateSyntaxError(message: string)

  function RequireTwoArguments(tagName: string): string {
    "'" + tagName + "' statements require two arguments"
  }

  function FirstMustBeInteger(tagName: string): string {
    "First argument in '" + tagName + "' must be an integer"
  }

  function SecondMustBeAs(tagName: string): string {
    "Second argument in '" + tagName + "' must be 'as'"
  }

  function FourthMustBeForUser(tagName: string): string {
    "Fourth argument in '" + tagName + "' must be 'for_user'"
  }

  /** Python truthiness of `len(tokens) > 5 and tokens[5] or None`. */
  function UserToken(tokens: seq<string>): Option<string> {
    if |tokens| > 5 && tokens[5] != "" then Some(tokens[5]) else None
  }

  /**
   * The guards of `__call__` over the split token list, in the source's order;
   * the first that fails decides the error.
   */
  function ParseTokens(tagName: string, tokens: seq<string>): (r: Result<AdminLogNode, TemplateSyntaxError>)
    ensures |tokens| < 4 ==> r == Err(TemplateSyntaxError(RequireTwoArguments(tagName)))
    ensures |tokens| >= 4 && !IsDigits(tokens[1]) ==>
              r == Err(TemplateSyntaxError(FirstMustBeInteger(tagName)))
    ensures |tokens| >= 4 && IsDigits(tokens[1]) && tokens[2] != "as" ==>
              r == Err(TemplateSyntaxError(SecondMustBeAs(tagName)))
    ensures |tokens| > 4 && IsDigits(tokens[1]) && tokens[2] == "as" && tokens[4] != "for_user" ==>
              r == Err(TemplateSyntaxError(FourthMustBeForUser(tagName)))
    ensures r.Ok? <==> |tokens| >= 4 && IsDigits(tokens[1]) && tokens[2] == "as"
                       && (|tokens| > 4 ==> tokens[4] == "for_user")
    ensures r.Ok? ==> r.value.limit == tokens[1] && r.value.varname == tokens[3]
                      && IsDigits(r.value.limit)
                      && (|tokens| <= 5 ==> r.value.user == None)
  {
    if |tokens| < 4 then Err(TemplateSyntaxError(RequireTwoArguments(tagName)))
    else if !IsDigits(tokens[1]) then Err(TemplateSyntaxError(FirstMustBeInteger(tagName)))
    else if tokens[2] != "as" then Err(TemplateSyntaxError(SecondMustBeAs(tagName)))
    else if |tokens| > 4 && tokens[4] != "for_user" then Err(TemplateSyntaxError(FourthMustBeForUser(tagName)))
    else Ok(AdminLogNode(tokens[1], tokens[3], UserToken(tokens)))
  }

  /**
   * `DoGetAdminLog(tagName)(parser, token)`: split the tag's contents on
   * whitespace and parse. Because split tokens are never empty, a sixth token
   * is always taken as the user, and tokens after it are ignored.
   */
  function DoGetAdminLog(tagName: string, contents: string): (r: Result<AdminLogNode, TemplateSyntaxError>)
    ensures r == ParseTokens(tagName, Split(contents))
    ensures r.Ok? ==>
      var tokens := Split(contents);
      r.value.user == (if |tokens| > 5 then Some(tokens[5]) else None)
      && r.value.varname != "" && HasNoSpace(r.value.varname)
  {
    ParseTokens(tagName, Split(contents))
  }

  /** A tag's text as a template author writes it, for a given node. */
  function TagContents(tagName: string, node: AdminLogNode): string {
    JoinSpace([tagName, node.limit, "as", node.varname]
              + (match node.user case None => [] case Some(u) => ["for_user", u]))
  }

  /** A token of the tag: non-empty, without whitespace. */
  predicate IsToken(s: string) {
    s != "" && HasNoSpace(s)
  }

  /**
   * Writing a node as tag text and parsing it back gives the node: the parser
   * accepts every well-formed tag and reads each argument from its position.
   */
  lemma ParseTagContents(tagName: string, node: AdminLogNode)
    requires IsToken(tagName) && IsDigits(node.limit) && IsToken(node.varname)
    requires node.user.Some? ==> IsToken(node.user.value)
    ensures DoGetAdminLog(tagName, TagContents(tagName, node)) == Ok(node)
  {
    var ws := [tagName, node.limit, "as", node.varname]
              + (match node.user case None => [] case Some(u) => ["for_user", u]);
    assert HasNoSpace("as") && HasNoSpace("for_user");
    assert IsDigits(node.limit) ==> HasNoSpace(node.limit);
    SplitJoinSpace(ws);
  }

  /** The user filter of a log query: a literal id, or the id of a user object. */
  datatype UserRef = LiteralId(digits: string) | ObjectId(id: nat)

  /** `LogEntry.objects[.filter(user__id__exact=...)].select_related(...)[:limit]`. */
  datatype LogQuery = LogQuery(user: Option<UserRef>, limit: string)

  /** A template context value as far as the node looks at it. */
  datatype ContextValue = LogEntries(query: LogQuery) | UserObject(id: nat) | OtherValue

  datatype RenderError =
    | KeyError(key: string)         // `context[self.user]` with no such variable
    | AttributeError(key: string)   // the variable holds something without `.id`

  /** The query `render` stores, or the exception it raises before storing it. */
  function RenderQuery(node: AdminLogNode, vars: map<string, ContextValue>): (r: Result<LogQuery, RenderError>)
    ensures node.user == None ==> r == Ok(LogQuery(None, node.limit))
    ensures node.user.Some? && IsDigits(node.user.value) ==>
              r == Ok(LogQuery(Some(LiteralId(node.user.value)), node.limit))
    ensures node.user.Some? && !IsDigits(node.user.value) ==>
              var key := node.user.value;
              r == if key !in vars then Err(KeyError(key))
                   else if vars[key].UserObject? then Ok(LogQuery(Some(ObjectId(vars[key].id)), node.limit))
                   else Err(AttributeError(key))
  {
    match node.user
    case None => Ok(LogQuery(None, node.limit))
    case Some(u) =>
      if IsDigits(u) then Ok(LogQuery(Some(LiteralId(u)), node.limit))
      else if u !in vars then Err(KeyError(u))
      else match vars[u]
        case UserObject(id) => Ok(LogQuery(Some(ObjectId(id)), node.limit))
        case _ => Err(AttributeError(u))
  }

  /** The template context the node renders into (flattened to one mapping). */
  class Context {
    var vars: map<string, ContextValue>

    constructor (initial: map<string, ContextValue>)
      ensures vars == initial
    {
      vars := initial;
    }

    /**
     * `AdminLogNode.render`: stores the log query under `varname` and renders
     * as the empty string; no other variable changes. When the user variable
     * cannot be resolved the exception leaves the context as it was.
     */
    method Render(node: AdminLogNode) returns (r: Result<string, RenderError>)
      modifies this
      ensures RenderQuery(node, old(vars)).Ok? ==>
                r == Ok("") && vars == old(vars)[node.varname := LogEntries(RenderQuery(node, old(vars)).value)]
      ensures RenderQuery(node, old(vars)).Err? ==>
                r == Err(RenderQuery(node, old(vars)).error) && vars == old(vars)
    {
      if node.user == None {
        vars := vars[node.varname := LogEntries(LogQuery(None, node.limit))];
      } else {
        var userId: UserRef;
        var u := node.user.value;
        if IsDigits(u) {
          userId := LiteralId(u);
        } else {
          if u !in vars {
            return Err(KeyError(u));
          }
          if !vars[u].UserObject? {
            return Err(AttributeError(u));
          }
          userId := ObjectId(vars[u].id);
        }
        vars := vars[node.varname := LogEntries(LogQuery(Some(userId), node.limit))];
      }
      r := Ok("");
    }
  }
}
