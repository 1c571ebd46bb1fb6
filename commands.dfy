/** The table of command words and the lookup that turns the first word of a
    command line into the action the dispatcher runs. */
module Commands {
  import opened Base

  datatype Action = Invalid | Eval | Add | Sub | Comp | Del | Help | Exit | Iden | Tran | Scal | Read

  /** One row of the command table; the help text of the row is not modelled. */
  datatype ActionDetails = ActionDetails(command: string, action: Action)

  /** The command table, in the order the calculator builds it: nine rows with
      distinct words, each leading to a reachable action. */
  function CreateActions(): (t: seq<ActionDetails>)
    ensures |t| == 9
    ensures forall i, j :: 0 <= i < j < |t| ==> t[i].command != t[j].command
    ensures forall k :: 0 <= k < |t| ==> t[k].action in ReachableActions()
  {
    [ ActionDetails("eval", Eval),
      ActionDetails("scal", Scal),
      ActionDetails("add", Add),
      ActionDetails("sub", Sub),
      ActionDetails("comp", Comp),
      ActionDetails("del", Del),
      ActionDetails("help", Help),
      ActionDetails("exit", Exit),
      ActionDetails("read", Read) ]
  }

  /** The position of the first row of `table` whose command is `token`, as a linear find does. */
  function FindCommand(table: seq<ActionDetails>, token: string): (r: Option<nat>)
    ensures r.Some? ==> r.value < |table| && table[r.value].command == token
    ensures r.Some? ==> forall j :: 0 <= j < r.value ==> table[j].command != token
    ensures r.None? <==> forall j :: 0 <= j < |table| ==> table[j].command != token
  {
    if table == [] then None
    else if table[0].command == token then Some(0)
    else match FindCommand(table[1..], token)
      case None => None
      case Some(k) => Some(k + 1)
  }

  /** Reads the command word. `None` stands for a line with no word on it, where the
      extraction sets failbit and the stream throws. */
  function ReadAction(token: Option<string>): (r: Result<Action>)
    ensures token.None? ==> r == Err(StreamFailure)
    ensures token.Some? ==>
      (r.Ok? <==> exists k :: 0 <= k < |CreateActions()| && CreateActions()[k].command == token.value)
    ensures r.Ok? ==> exists k :: 0 <= k < |CreateActions()| && CreateActions()[k] == ActionDetails(token.value, r.value)
    ensures r.Err? && token.Some? ==> r.error == InputError
  {
    match token
    case None => Err(StreamFailure)
    case Some(word) =>
      match FindCommand(CreateActions(), word)
      case None => Err(InputError)
      case Some(k) => Ok(CreateActions()[k].action)
  }

  /** The actions some command word leads to. */
  function ReachableActions(): set<Action> {
    {Eval, Scal, Add, Sub, Comp, Del, Help, Exit, Read}
  }

  /** Each row's word selects that row's action. */
  lemma ReadActionOfRow(k: nat)
    requires k < |CreateActions()|
    ensures ReadAction(Some(CreateActions()[k].command)) == Ok(CreateActions()[k].action)
  {
    var f := FindCommand(CreateActions(), CreateActions()[k].command);
    assert f.Some? && f.value == k;
  }

  /** No word selects an action outside the reachable set. */
  lemma ReadActionReachable(token: Option<string>)
    ensures ReadAction(token).Ok? ==> ReadAction(token).value in ReachableActions()
  {
    if ReadAction(token).Ok? {
      var k := FindCommand(CreateActions(), token.value).value;
      assert ReadAction(token).value == CreateActions()[k].action;
    }
  }

  /** The row of the command table that holds a reachable action. */
  lemma RowOf(a: Action) returns (k: nat)
    requires a in ReachableActions()
    ensures k < |CreateActions()| && CreateActions()[k].action == a
  {
    k := if a == Eval then 0 else if a == Scal then 1 else if a == Add then 2
      else if a == Sub then 3 else if a == Comp then 4 else if a == Del then 5
      else if a == Help then 6 else if a == Exit then 7 else 8;
  }

  /** Every reachable action has a command word that selects it. */
  lemma ReachableActionHasWord(a: Action)
    requires a in ReachableActions()
    ensures exists word :: ReadAction(Some(word)) == Ok(a)
  {
    var k := RowOf(a);
    ReadActionOfRow(k);
    var word := CreateActions()[k].command;
    assert ReadAction(Some(word)) == Ok(a);
  }

  /** The two actions that add the primitive operations, and `Invalid`, have no command word. */
  lemma UnreachableActions(token: Option<string>)
    ensures ReadAction(token) != Ok(Iden) && ReadAction(token) != Ok(Tran) && ReadAction(token) != Ok(Invalid)
  {
    ReadActionReachable(token);
  }
}
