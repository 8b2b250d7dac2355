/**
 * The action registry (actions/ActionManager.java) and the actions it holds
 * (actions/Action.java, actions/BracketAwareAction.java).
 *
 * An action is a value: its id, its description, the bracket prefixes it owns when it is
 * bracket-aware, and its two behaviours, the guard (canExecute) and the body (execute),
 * as total functions over the context it is given.
 */
module ActionManagement {
  import opened Wrappers
  import opened JavaStrings
  import opened Values
  import opened ActionResults
  import opened ActionContexts

  /** How a call to execute ended: with a result, or with an exception (whose message may be null). */
  datatype Outcome = Returned(result: ActionResult) | Threw(message: Option<string>)

  /** What execute did: how it ended and the context it left behind. */
  datatype Execution = Execution(outcome: Outcome, after: Bag)

  /**
   * An Action; prefixes is Some exactly when the action is a BracketAwareAction, and then
   * holds what getBracketPrefixes returns.
   */
  datatype Action = Action(
    id: string,
    description: string,
    prefixes: Option<seq<string>>,
    canExecute: Bag -> bool,
    execute: Bag -> Execution)

  /** The result of executeAction together with the context after the call. */
  datatype Step = Step(result: ActionResult, context: Bag)

  predicate Distinct(s: seq<string>) {
    forall i, j :: 0 <= i < j < |s| ==> s[i] != s[j]
  }

  /** In a list without repeats every element occurs once. */
  lemma {:induction false} DistinctOnce(s: seq<string>, x: string)
    requires Distinct(s)
    ensures multiset(s)[x] <= 1
  {
    if s != [] {
      assert s == [s[0]] + s[1..];
      assert Distinct(s[1..]);
      DistinctOnce(s[1..], x);
      if x == s[0] {
        assert x !in multiset(s[1..]);
      }
    }
  }

  /** s with x removed. */
  function Without(s: seq<string>, x: string): (r: seq<string>)
    ensures forall y :: y in r <==> y in s && y != x
    ensures Distinct(s) ==> Distinct(r)
  {
    if s == [] then []
    else if s[0] == x then Without(s[1..], x)
    else
      assert Distinct(s) ==> s[0] !in s[1..];
      [s[0]] + Without(s[1..], x)
  }

  /**
   * executeAction(id, context): an unknown id fails with "Action not found: ", a refused
   * guard skips with "Action cannot be executed: ", an exception becomes a failure with
   * "Action execution failed: " and its message; otherwise the action's own result.
   */
  function Execute(actions: map<string, Action>, id: string, bag: Bag): (out: Step)
    ensures id !in actions ==> out == Step(Failed("Action not found: " + id), bag)
    ensures id in actions && !actions[id].canExecute(bag) ==>
              out == Step(Skip("Action cannot be executed: " + id), bag)
    ensures id in actions && actions[id].canExecute(bag) ==>
              out.context == actions[id].execute(bag).after &&
              match actions[id].execute(bag).outcome
              case Returned(r) => out.result == r
              case Threw(m) => out.result == Failed("Action execution failed: " + Render(m))
  {
    if id !in actions then Step(Failed("Action not found: " + id), bag)
    else
      var a := actions[id];
      if !a.canExecute(bag) then Step(Skip("Action cannot be executed: " + id), bag)
      else
        var e := a.execute(bag);
        match e.outcome
        case Returned(r) => Step(r, e.after)
        case Threw(m) => Step(Failed("Action execution failed: " + Render(m)), e.after)
  }

  /**
   * executeAction never lets an exception escape, and it fails exactly when the id is
   * unknown, the body threw, or the body itself reported a failure.
   */
  lemma ExecuteFailsOnlyFor(actions: map<string, Action>, id: string, bag: Bag)
    ensures Execute(actions, id, bag).result.IsFailure() <==>
              id !in actions ||
              (actions[id].canExecute(bag) &&
               (actions[id].execute(bag).outcome.Threw? ||
                actions[id].execute(bag).outcome.result.IsFailure()))
  {
  }

  /** The ids of order whose action's guard accepts bag, in the order of order. */
  function Enabled(actions: map<string, Action>, order: seq<string>, bag: Bag): (r: seq<string>)
    requires forall id :: id in order ==> id in actions
    ensures forall id :: id in r <==> id in order && actions[id].canExecute(bag)
    ensures multiset(r) <= multiset(order)
  {
    if order == [] then []
    else
      assert order == [order[0]] + order[1..];
      var rest := Enabled(actions, order[1..], bag);
      if actions[order[0]].canExecute(bag) then [order[0]] + rest else rest
  }

  /** The line getActionInfo and getAllActionsInfo print for an action. */
  function InfoLine(a: Action): string {
    a.id + ": " + a.description
  }

  function InfoLines(actions: map<string, Action>, order: seq<string>): (r: seq<string>)
    requires forall id :: id in order ==> id in actions
    ensures |r| == |order|
    ensures forall i :: 0 <= i < |order| ==> r[i] == InfoLine(actions[order[i]])
  {
    if order == [] then [] else [InfoLine(actions[order[0]])] + InfoLines(actions, order[1..])
  }

  class ActionManager {
    /** registeredActions, keyed by action id. */
    var actions: map<string, Action>
    /** The iteration order of registeredActions.values(): each id once. */
    var order: seq<string>
    /** The context that persists across ticks. */
    const global: ActionContext

    ghost predicate Valid()
      reads this
    {
      Distinct(order) &&
      (forall id :: id in actions <==> id in order) &&
      (forall id :: id in actions ==> actions[id].id == id)
    }

    constructor ()
      ensures Valid() && actions == map[] && order == []
      ensures fresh(global) && global.data == map[]
    {
      actions := map[];
      order := [];
      global := new ActionContext();
    }

    /** registerAction: stores the action under its id; a later registration replaces an earlier one. */
    method RegisterAction(a: Action)
      requires Valid()
      modifies this
      ensures Valid()
      ensures actions == old(actions)[a.id := a]
      ensures order == if a.id in old(actions) then old(order) else old(order) + [a.id]
      ensures HasAction(a.id) && actions[a.id] == a
    {
      if a.id !in actions {
        order := order + [a.id];
      }
      actions := actions[a.id := a];
    }

    /** executeAction(id, context). */
    method ExecuteAction(id: string, context: ActionContext) returns (r: ActionResult)
      modifies context
      ensures r == Execute(actions, id, old(context.data)).result
      ensures context.data == Execute(actions, id, old(context.data)).context
    {
      var step := Execute(actions, id, context.data);
      context.data := step.context;
      r := step.result;
    }

    /** getAvailableActions(context): the ids whose guard accepts the context, ascending. */
    function AvailableActions(bag: Bag): (r: seq<string>)
      requires Valid()
      reads this
      ensures Sorted(r) && multiset(r) == multiset(Enabled(actions, order, bag))
      ensures forall id :: id in r <==> id in actions && actions[id].canExecute(bag)
      ensures forall id :: multiset(r)[id] <= 1
    {
      var enabled := Enabled(actions, order, bag);
      var r := Sort(enabled);
      forall id ensures multiset(r)[id] <= 1 {
        DistinctOnce(order, id);
      }
      forall id ensures id in r <==> id in enabled {
        SortKeepsMembers(enabled, id);
      }
      r
    }

    /** getActionInfo(id). */
    function ActionInfo(id: string): (r: string)
      reads this
      ensures id in actions ==> r == InfoLine(actions[id])
      ensures id !in actions ==> r == "Action not found: " + id
    {
      if id in actions then InfoLine(actions[id]) else "Action not found: " + id
    }

    /** getAllActionsInfo(): one "id: description" line per registered action, ascending. */
    function AllActionsInfo(): (r: seq<string>)
      requires Valid()
      reads this
      ensures Sorted(r) && |r| == |order| && multiset(r) == multiset(InfoLines(actions, order))
      ensures forall line :: line in r <==> exists id :: id in actions && line == InfoLine(actions[id])
    {
      var lines := InfoLines(actions, order);
      var r := Sort(lines);
      forall line ensures line in r <==> line in lines {
        SortKeepsMembers(lines, line);
      }
      forall line | line in lines
        ensures exists id :: id in actions && line == InfoLine(actions[id])
      {
        var i :| 0 <= i < |lines| && lines[i] == line;
        assert line == InfoLine(actions[order[i]]);
      }
      forall id | id in actions
        ensures InfoLine(actions[id]) in lines
      {
        var i :| 0 <= i < |order| && order[i] == id;
        assert lines[i] == InfoLine(actions[id]);
      }
      r
    }

    /** getRegisteredActions(): the live collection of registered actions. */
    function RegisteredActions(): (r: seq<Action>)
      requires Valid()
      reads this
      ensures |r| == |order|
      ensures forall a: Action :: a in r <==> a.id in actions && actions[a.id] == a
    {
      var ids, table := order, actions;
      var r := seq(|ids|, i requires 0 <= i < |ids| => table[ids[i]]);
      forall a: Action | a.id in actions && actions[a.id] == a
        ensures a in r
      {
        var i :| 0 <= i < |order| && order[i] == a.id;
        assert r[i] == a;
      }
      r
    }

    /** hasAction(id). */
    predicate HasAction(id: string)
      reads this
      ensures Valid() ==> (HasAction(id) <==> exists a :: a in RegisteredActions() && a.id == id)
    {
      id in actions
    }

    /** unregisterAction(id): true iff the id was registered; only that entry is removed. */
    method UnregisterAction(id: string) returns (removed: bool)
      requires Valid()
      modifies this
      ensures Valid()
      ensures removed == (id in old(actions))
      ensures actions == old(actions) - {id}
      ensures !HasAction(id)
    {
      removed := id in actions;
      actions := actions - {id};
      order := Without(order, id);
    }
  }

  /**
   * An action listed by getAvailableActions is one whose body executeAction runs: the
   * context afterwards is the one the body left behind.
   */
  lemma AvailableIsRun(m: ActionManager, id: string, bag: Bag)
    requires m.Valid() && id in m.AvailableActions(bag)
    ensures Execute(m.actions, id, bag).context == m.actions[id].execute(bag).after
  {
  }

  /** getActionInfo of a registered action is one of the lines of getAllActionsInfo. */
  lemma ActionInfoIsListed(m: ActionManager, id: string)
    requires m.Valid() && m.HasAction(id)
    ensures m.ActionInfo(id) in m.AllActionsInfo()
  {
  }
}
