/** Window-function builder adapters: the objects the SQL grammar uses to turn a
    function name and a raw argument list into a window-function call item.

    Each fixed-arity adapter (zero to three arguments) counts the arguments
    (an absent list counts as zero), reports ERR_WF_WRONG_ARGS naming the
    function when the count is wrong, pops the arguments in order, reports the
    same error when one of them carries an explicit alias, and otherwise hands
    the popped items, in order, to a typed constructor of the call item.

    The pure function CreateSpec says what one call does; each builder's
    list-taking Create method is proved to do exactly that, and the lemmas
    below CreateSpec state what the adapters promise. */
module ItemCreateWindowFunction {

  datatype Option<T> = None | Some(value: T)

  /** An argument expression. isAutogeneratedName is false when the user gave
      the expression an explicit alias ("expr AS name"). */
  datatype Item = Item(id: nat, isAutogeneratedName: bool)

  /** The error identifiers this core reports. */
  datatype ErrorId = ErrWfWrongArgs

  /** One entry of the session's error state: the error and the function it names. */
  datatype Diagnostic = Diagnostic(error: ErrorId, functionName: string)

  /** The window-function call item: the function name and its arguments in call order. */
  datatype WindowFunctionItem = WindowFunctionItem(name: string, args: seq<Item>)

  /** What one list-taking create call does: the item it returns (None for
      NULL), the diagnostics it reports, and what is left of the argument list
      (None when the caller passed no list). */
  datatype Outcome = Outcome(item: Option<WindowFunctionItem>, reported: seq<Diagnostic>, remaining: Option<seq<Item>>)

  /** The session: only its error state is modelled. */
  class Thd {
    var errors: seq<Diagnostic>

    constructor ()
      ensures errors == []
    {
      errors := [];
    }

    /** Records an error naming the function; both calling conventions of the
        error reporter (an argument array and a bare name) give one entry. */
    method SetError(error: ErrorId, functionName: string)
      modifies this
      ensures errors == old(errors) + [Diagnostic(error, functionName)]
    {
      errors := errors + [Diagnostic(error, functionName)];
    }
  }

  /** The caller's argument list, consumed from the front by Pop. */
  class ItemList {
    var items: seq<Item>

    constructor (items: seq<Item>)
      ensures this.items == items
    {
      this.items := items;
    }

    /** The element count the builders read. */
    function Elements(): (n: nat)
      reads this
      ensures n == 0 <==> items == []
    {
      |items|
    }

    /** Removes and returns the first element. */
    method Pop() returns (x: Item)
      requires items != []
      modifies this
      ensures [x] + items == old(items)
    {
      x := items[0];
      items := items[1..];
    }
  }

  /** The abstract state of a possibly absent argument list. */
  function ListState(list: ItemList?): (s: Option<seq<Item>>)
    reads list
    ensures s.None? <==> list == null
  {
    if list == null then None else Some(list.items)
  }

  /** The argument count: an absent list has none. */
  function ArgCount(list: Option<seq<Item>>): (n: nat)
    ensures n == 0 <==> list.None? || list.value == []
  {
    if list.None? then 0 else |list.value|
  }

  /** The arguments of a possibly absent list, in order. */
  function Params(list: Option<seq<Item>>): (s: seq<Item>)
    ensures |s| == ArgCount(list)
  {
    if list.None? then [] else list.value
  }

  /** The alias test of the adapters, `!p1 || !p2 || ...`, over the popped
      arguments from left to right. */
  predicate AnyAliased(params: seq<Item>)
    ensures AnyAliased(params) ==> params != []
    ensures params != [] && !params[0].isAutogeneratedName ==> AnyAliased(params)
  {
    params != [] && (!params[0].isAutogeneratedName || AnyAliased(params[1..]))
  }

  /** What is left of the list once every argument has been popped. */
  function Drained(list: Option<seq<Item>>): (r: Option<seq<Item>>)
    ensures r.None? <==> list.None?
    ensures ArgCount(r) == 0
  {
    if list.None? then None else Some([])
  }

  /** One list-taking create call of the adapter of the given arity. Every
      call either produces an item and reports nothing, or produces no item
      and reports exactly one ERR_WF_WRONG_ARGS naming the function. */
  function CreateSpec(arity: nat, name: string, list: Option<seq<Item>>): (o: Outcome)
    ensures o.item.Some? <==> o.reported == []
    ensures o.item.None? <==> o.reported == [Diagnostic(ErrWfWrongArgs, name)]
  {
    if ArgCount(list) != arity then
      Outcome(None, [Diagnostic(ErrWfWrongArgs, name)], list)
    else if AnyAliased(Params(list)) then
      Outcome(None, [Diagnostic(ErrWfWrongArgs, name)], Drained(list))
    else
      Outcome(Some(WindowFunctionItem(name, Params(list))), [], Drained(list))
  }

  /** The alias chain is true exactly when some argument carries an alias. */
  lemma {:induction false} AnyAliasedIff(params: seq<Item>)
    ensures AnyAliased(params) <==> exists i :: 0 <= i < |params| && !params[i].isAutogeneratedName
  {
    if params != [] {
      AnyAliasedIff(params[1..]);
      if AnyAliased(params[1..]) {
        var j :| 0 <= j < |params[1..]| && !params[1..][j].isAutogeneratedName;
        assert !params[j + 1].isAutogeneratedName;
      }
      forall i | 1 <= i < |params| && !params[i].isAutogeneratedName
        ensures AnyAliased(params[1..])
      {
        assert !params[1..][i - 1].isAutogeneratedName;
      }
    }
  }

  /** A wrong argument count (an absent list counting as none) yields no item
      and exactly one ERR_WF_WRONG_ARGS naming the function, and the list is
      left as it was, since nothing is popped before the count check. */
  lemma WrongCountRejected(arity: nat, name: string, list: Option<seq<Item>>)
    requires ArgCount(list) != arity
    ensures CreateSpec(arity, name, list).item == None
    ensures CreateSpec(arity, name, list).reported == [Diagnostic(ErrWfWrongArgs, name)]
    ensures CreateSpec(arity, name, list).remaining == list
  {
  }

  /** An absent list is accepted by the arity-0 adapter alone, and is never
      popped from: it is still absent afterwards. */
  lemma AbsentListAcceptedOnlyByArity0(arity: nat, name: string)
    ensures CreateSpec(arity, name, None).item.Some? <==> arity == 0
    ensures CreateSpec(arity, name, None).remaining == None
    ensures arity == 0 ==> CreateSpec(arity, name, None).item == Some(WindowFunctionItem(name, []))
  {
  }

  /** With the right count, an explicit alias on any one argument yields no
      item and exactly one ERR_WF_WRONG_ARGS naming the function. */
  lemma AliasedArgumentRejected(arity: nat, name: string, args: seq<Item>, i: nat)
    requires |args| == arity && i < arity && !args[i].isAutogeneratedName
    ensures CreateSpec(arity, name, Some(args)).item == None
    ensures CreateSpec(arity, name, Some(args)).reported == [Diagnostic(ErrWfWrongArgs, name)]
  {
    AnyAliasedIff(args);
  }

  /** A call item is produced exactly when the count matches and no argument
      carries an alias; it then names the function and holds the arguments in
      their original left-to-right order, and nothing is reported. */
  lemma AcceptedIff(arity: nat, name: string, list: Option<seq<Item>>)
    ensures CreateSpec(arity, name, list).item.Some? <==>
      ArgCount(list) == arity &&
      forall i :: 0 <= i < |Params(list)| ==> Params(list)[i].isAutogeneratedName
    ensures CreateSpec(arity, name, list).item.Some? ==>
      CreateSpec(arity, name, list).item.value == WindowFunctionItem(name, Params(list)) &&
      |CreateSpec(arity, name, list).item.value.args| == arity &&
      CreateSpec(arity, name, list).reported == []
  {
    AnyAliasedIff(Params(list));
  }

  /** Once the count check passes, every argument has been popped, whether the
      alias check then succeeds or fails. */
  lemma CountMatchDrainsList(arity: nat, name: string, list: Option<seq<Item>>)
    requires ArgCount(list) == arity
    ensures CreateSpec(arity, name, list).remaining == (if list.None? then None else Some([]))
  {
  }

  /** Builder whose list-taking Create accepts only an empty or absent list. */
  class CreateWindowFuncArg0 {
    /** Set by the grammar for RESPECT/IGNORE NULLS; not read by create. */
    var respectNulls: bool

    constructor ()
      ensures respectNulls
    {
      respectNulls := true;
    }

    method Create(thd: Thd, name: string, itemList: ItemList?) returns (r: Option<WindowFunctionItem>)
      modifies thd, itemList
      ensures r == CreateSpec(0, name, old(ListState(itemList))).item
      ensures thd.errors == old(thd.errors) + CreateSpec(0, name, old(ListState(itemList))).reported
      ensures ListState(itemList) == CreateSpec(0, name, old(ListState(itemList))).remaining
    {
      var argCount := 0;
      if itemList != null {
        argCount := itemList.Elements();
      }
      if argCount != 0 {
        thd.SetError(ErrWfWrongArgs, name);
        return None;
      }
      r := Some(Build(name));
    }

    /** The typed constructor: a call item with no arguments. */
    function Build(name: string): (item: WindowFunctionItem)
      ensures item.name == name && item.args == []
    {
      WindowFunctionItem(name, [])
    }
  }

  /** Builder whose list-taking Create accepts exactly one unaliased argument. */
  class CreateWindowFuncArg1 {
    var respectNulls: bool

    constructor ()
      ensures respectNulls
    {
      respectNulls := true;
    }

    method Create(thd: Thd, name: string, itemList: ItemList?) returns (r: Option<WindowFunctionItem>)
      modifies thd, itemList
      ensures r == CreateSpec(1, name, old(ListState(itemList))).item
      ensures thd.errors == old(thd.errors) + CreateSpec(1, name, old(ListState(itemList))).reported
      ensures ListState(itemList) == CreateSpec(1, name, old(ListState(itemList))).remaining
    {
      ghost var list := ListState(itemList);
      var argCount := 0;
      if itemList != null {
        argCount := itemList.Elements();
      }
      if argCount != 1 {
        thd.SetError(ErrWfWrongArgs, name);
        return None;
      }
      var param1 := itemList.Pop();
      assert old(itemList.items) == [param1];
      assert list == Some([param1]) && [param1][1..] == [];
      if !param1.isAutogeneratedName {
        thd.SetError(ErrWfWrongArgs, name);
        return None;
      }
      assert !AnyAliased([param1]);
      r := Some(Build(name, param1));
    }

    /** The typed constructor: a call item whose only argument is arg1. */
    function Build(name: string, arg1: Item): (item: WindowFunctionItem)
      ensures item.name == name && item.args == [arg1]
    {
      WindowFunctionItem(name, [arg1])
    }
  }

  /** Builder whose list-taking Create accepts exactly two unaliased arguments. */
  class CreateWindowFuncArg2 {
    var respectNulls: bool

    constructor ()
      ensures respectNulls
    {
      respectNulls := true;
    }

    method Create(thd: Thd, name: string, itemList: ItemList?) returns (r: Option<WindowFunctionItem>)
      modifies thd, itemList
      ensures r == CreateSpec(2, name, old(ListState(itemList))).item
      ensures thd.errors == old(thd.errors) + CreateSpec(2, name, old(ListState(itemList))).reported
      ensures ListState(itemList) == CreateSpec(2, name, old(ListState(itemList))).remaining
    {
      ghost var list := ListState(itemList);
      var argCount := 0;
      if itemList != null {
        argCount := itemList.Elements();
      }
      if argCount != 2 {
        thd.SetError(ErrWfWrongArgs, name);
        return None;
      }
      var param1 := itemList.Pop();
      var param2 := itemList.Pop();
      assert old(itemList.items) == [param1, param2];
      assert list == Some([param1, param2]);
      assert [param1, param2][1..] == [param2] && [param2][1..] == [];
      assert AnyAliased([param2]) <==> !param2.isAutogeneratedName;
      if !param1.isAutogeneratedName || !param2.isAutogeneratedName {
        thd.SetError(ErrWfWrongArgs, name);
        return None;
      }
      r := Some(Build(name, param1, param2));
    }

    /** The typed constructor: a call item with arguments arg1, arg2 in that order. */
    function Build(name: string, arg1: Item, arg2: Item): (item: WindowFunctionItem)
      ensures item.name == name && item.args == [arg1, arg2]
    {
      WindowFunctionItem(name, [arg1, arg2])
    }
  }

  /** Builder whose list-taking Create accepts exactly three unaliased arguments. */
  class CreateWindowFuncArg3 {
    var respectNulls: bool

    constructor ()
      ensures respectNulls
    {
      respectNulls := true;
    }

    method Create(thd: Thd, name: string, itemList: ItemList?) returns (r: Option<WindowFunctionItem>)
      modifies thd, itemList
      ensures r == CreateSpec(3, name, old(ListState(itemList))).item
      ensures thd.errors == old(thd.errors) + CreateSpec(3, name, old(ListState(itemList))).reported
      ensures ListState(itemList) == CreateSpec(3, name, old(ListState(itemList))).remaining
    {
      ghost var list := ListState(itemList);
      var argCount := 0;
      if itemList != null {
        argCount := itemList.Elements();
      }
      if argCount != 3 {
        thd.SetError(ErrWfWrongArgs, name);
        return None;
      }
      var param1 := itemList.Pop();
      var param2 := itemList.Pop();
      var param3 := itemList.Pop();
      assert old(itemList.items) == [param1, param2, param3];
      assert list == Some([param1, param2, param3]);
      assert [param1, param2, param3][1..] == [param2, param3];
      assert [param2, param3][1..] == [param3] && [param3][1..] == [];
      assert AnyAliased([param3]) <==> !param3.isAutogeneratedName;
      assert AnyAliased([param2, param3]) <==> !param2.isAutogeneratedName || !param3.isAutogeneratedName;
      if !param1.isAutogeneratedName || !param2.isAutogeneratedName || !param3.isAutogeneratedName {
        thd.SetError(ErrWfWrongArgs, name);
        return None;
      }
      r := Some(Build(name, param1, param2, param3));
    }

    /** The typed constructor: a call item with arguments arg1, arg2, arg3 in that order. */
    function Build(name: string, arg1: Item, arg2: Item, arg3: Item): (item: WindowFunctionItem)
      ensures item.name == name && item.args == [arg1, arg2, arg3]
    {
      WindowFunctionItem(name, [arg1, arg2, arg3])
    }
  }

  /** Builder of the nth-value family; only its configuration is modelled. */
  class CreateWindowFuncNthValue {
    var respectNulls: bool
    /** Counting direction, FROM FIRST unless the grammar says FROM LAST. */
    var fromFirst: bool

    constructor ()
      ensures respectNulls && fromFirst
    {
      respectNulls := true;
      fromFirst := true;
    }
  }

  /** The grammar's view: what callers can conclude from the contracts alone. */
  method Scenarios()
  {
    var thd := new Thd();
    var rank := new CreateWindowFuncArg0();
    var r := rank.Create(thd, "RANK", null);
    assert r == Some(WindowFunctionItem("RANK", []));
    assert thd.errors == [];

    var x := Item(1, true);
    var one := new ItemList([x]);
    r := rank.Create(thd, "RANK", one);
    assert r == None && thd.errors == [Diagnostic(ErrWfWrongArgs, "RANK")];
    assert one.items == [x];

    var col, offset := Item(2, true), Item(3, true);
    var lag := new CreateWindowFuncArg2();
    var two := new ItemList([col, offset]);
    AcceptedIff(2, "LAG", Some([col, offset]));
    r := lag.Create(thd, "LAG", two);
    assert r == Some(WindowFunctionItem("LAG", [col, offset]));
    assert two.items == [];
  }
}
