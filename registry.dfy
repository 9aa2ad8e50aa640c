/**
  `ToolRegistry`: a name-to-tool dictionary that remembers insertion order.
  The Python dict `_tools` is modelled by its key order `order` and its
  mapping `table`; Python dicts keep a replaced key at its original position
  and send a deleted-then-added key to the end, which `InsertName` and
  `RemoveName` spell out.
*/
module Registry {
  import opened Wrappers
  import opened JsonValues
  import opened ToolBase

  predicate Distinct(s: seq<string>)
  {
    forall i, j :: 0 <= i < j < |s| ==> s[i] != s[j]
  }

  /** Number of occurrences of `x` in `s`. */
  function Count(s: seq<string>, x: string): nat
  {
    if |s| == 0 then 0 else (if s[0] == x then 1 else 0) + Count(s[1..], x)
  }

  /** Key order after `d[name] = v`: an existing key keeps its place, a new one goes last. */
  function InsertName(order: seq<string>, name: string): seq<string>
  {
    if name in order then order else order + [name]
  }

  /** Key order after `del d[name]`. */
  function RemoveName(order: seq<string>, name: string): seq<string>
  {
    if |order| == 0 then []
    else if order[0] == name then RemoveName(order[1..], name)
    else [order[0]] + RemoveName(order[1..], name)
  }

  lemma {:induction false} CountAbsent(s: seq<string>, x: string)
    requires x !in s
    ensures Count(s, x) == 0
  {
    if |s| > 0 {
      CountAbsent(s[1..], x);
    }
  }

  lemma {:induction false} CountDistinct(s: seq<string>, x: string)
    requires Distinct(s) && x in s
    ensures Count(s, x) == 1
  {
    if s[0] == x {
      CountAbsent(s[1..], x);
    } else {
      CountDistinct(s[1..], x);
    }
  }

  lemma {:induction false} CountAppend(s: seq<string>, t: seq<string>, x: string)
    ensures Count(s + t, x) == Count(s, x) + Count(t, x)
  {
    if |s| > 0 {
      assert (s + t)[1..] == s[1..] + t;
      CountAppend(s[1..], t, x);
    } else {
      assert s + t == t;
    }
  }

  /**
    Registering keeps the names distinct, holds the registered name exactly
    once, leaves a re-registered name at its original position, and adds a
    new name at the end.
  */
  lemma InsertNameSpec(order: seq<string>, name: string)
    requires Distinct(order)
    ensures Distinct(InsertName(order, name))
    ensures Count(InsertName(order, name), name) == 1
    ensures name in order ==> InsertName(order, name) == order
    ensures name !in order ==> InsertName(order, name) == order + [name]
  {
    if name !in order {
      CountAbsent(order, name);
      CountAppend(order, [name], name);
      assert Count([name], name) == 1;
    } else {
      CountDistinct(order, name);
    }
  }

  /** Removing a name drops exactly that name and keeps every other one, in order. */
  lemma {:induction false} RemoveNameSpec(order: seq<string>, name: string)
    requires Distinct(order)
    ensures Distinct(RemoveName(order, name))
    ensures forall x :: x in RemoveName(order, name) <==> x in order && x != name
    ensures name !in order ==> RemoveName(order, name) == order
    ensures |RemoveName(order, name)| == if name in order then |order| - 1 else |order|
  {
    if |order| > 0 {
      RemoveNameSpec(order[1..], name);
      var rest := RemoveName(order[1..], name);
      if order[0] != name {
        assert order[0] !in order[1..];
        assert Distinct([order[0]] + rest);
      } else {
        assert name !in order[1..];
      }
    }
  }

  /** When the removed name sits at index k, the result is the order with index k cut out. */
  lemma {:induction false} RemoveNameAt(order: seq<string>, k: nat)
    requires Distinct(order) && k < |order|
    ensures RemoveName(order, order[k]) == order[..k] + order[k + 1..]
  {
    if k == 0 {
      RemoveNameSpec(order[1..], order[0]);
      assert order[0] !in order[1..];
    } else {
      RemoveNameAt(order[1..], k - 1);
      assert order[1..][k - 1] == order[k];
      assert order[..k] == [order[0]] + order[1..][..k - 1];
      assert order[k + 1..] == order[1..][k..];
    }
  }

  /** A duplicate-free list has as many elements as the set of its elements. */
  lemma {:induction false} DistinctCard(s: seq<string>)
    requires Distinct(s)
    ensures |set x | x in s| == |s|
  {
    if |s| > 0 {
      DistinctCard(s[1..]);
      assert (set x | x in s) == (set x | x in s[1..]) + {s[0]};
      assert s[0] !in s[1..];
    }
  }

  /** The declarations for `names`, one per name, in order (the `to_*_format` comprehensions). */
  function RenderAll(names: seq<string>, table: map<string, Tool>, fmt: ToolFormat): (r: seq<Json>)
    requires forall n :: n in names ==> n in table
    ensures |r| == |names|
  {
    seq(|names|, i requires 0 <= i < |names| => Schema(fmt, table[names[i]]))
  }

  /** The text a registered tool's body leads to: its result, or the caught failure rendered as text. */
  function RunCaught(name: string, t: Tool, args: Json): string
  {
    match t.run(args)
    case Done(text) => text
    case Raised(message) => "Error executing " + name + ": " + message
  }

  class ToolRegistry {
    /** The keys of `_tools`, in dict order. */
    var order: seq<string>
    /** `_tools` itself. */
    var table: map<string, Tool>

    ghost predicate Valid()
      reads this
    {
      Distinct(order) && (forall n :: n in table <==> n in order)
    }

    constructor ()
      ensures Valid()
      ensures order == [] && table == map[]
    {
      order := [];
      table := map[];
    }

    /** `register`: last write wins; replacing a tool is not an error. */
    method Register(tool: Tool)
      requires Valid()
      modifies this
      ensures Valid()
      ensures order == InsertName(old(order), tool.name)
      ensures table == old(table)[tool.name := tool]
      ensures GetTool(tool.name) == Some(tool) && Has(tool.name)
      ensures Count(order, tool.name) == 1
    {
      InsertNameSpec(order, tool.name);
      order := InsertName(order, tool.name);
      table := table[tool.name := tool];
    }

    /** `unregister`: KeyError for an absent name (nothing changes); otherwise only that entry goes. */
    method Unregister(name: string) returns (r: Result<(), string>)
      requires Valid()
      modifies this
      ensures Valid()
      ensures old(name !in table) ==> r == Err("'Tool not found: " + name + "'")
      ensures old(name !in table) ==> order == old(order) && table == old(table)
      ensures old(name in table) ==> r.Ok?
      ensures old(name in table) ==> order == RemoveName(old(order), name) && table == old(table) - {name}
    {
      if name !in table {
        return Err("'Tool not found: " + name + "'");
      }
      RemoveNameSpec(order, name);
      order := RemoveName(order, name);
      table := table - {name};
      r := Ok(());
    }

    /** `get_tool` */
    function GetTool(name: string): (r: Option<Tool>)
      reads this
      ensures r.Some? <==> name in table
      ensures r.Some? ==> r.value == table[name]
    {
      if name in table then Some(table[name]) else None
    }

    /** `list_tools`: the registered names, in insertion order, without duplicates. */
    function ListTools(): (r: seq<string>)
      reads this
      requires Valid()
      ensures Distinct(r)
      ensures forall n :: n in r <==> n in table
    {
      order
    }

    /** `__len__`: the number of entries, which is also the length of `list_tools()`. */
    function Size(): (r: nat)
      reads this
      requires Valid()
      ensures r == |ListTools()|
    {
      assert table.Keys == set x | x in order;
      DistinctCard(order);
      |table|
    }

    /** `__contains__`: the names `get_tool` finds, which are those `list_tools` lists. */
    predicate Has(name: string)
      reads this
      ensures Has(name) <==> GetTool(name).Some?
      ensures Valid() ==> (Has(name) <==> name in ListTools())
    {
      name in table
    }

    /**
      `execute`: a ValueError for an unknown name, without running anything;
      otherwise the tool's own result, or `"Error executing <name>: <msg>"`
      when its body raises.
    */
    function Execute(name: string, args: Json): (r: Result<string, string>)
      reads this
      ensures !Has(name) <==> r == Err("Tool not found: " + name)
      ensures Has(name) && table[name].run(args).Done? ==> r == Ok(table[name].run(args).text)
      ensures Has(name) && table[name].run(args).Raised? ==>
                r == Ok("Error executing " + name + ": " + table[name].run(args).message)
    {
      if name !in table then Err("Tool not found: " + name) else Ok(RunCaught(name, table[name], args))
    }

    /**
      `to_ollama_format`, `to_openai_format`, `to_claude_format` and
      `to_gemini_format`: one declaration per registered tool, in `list_tools()`
      order.
    */
    function Render(fmt: ToolFormat): (r: seq<Json>)
      reads this
      requires Valid()
      ensures |r| == Size()
      ensures forall i :: 0 <= i < |r| ==> r[i] == Schema(fmt, table[ListTools()[i]])
    {
      RenderAll(order, table, fmt)
    }
  }

  /** Registering the same name twice keeps one entry at its first position and serves the second tool. */
  method ReRegister(a: Tool, b: Tool) returns (names: seq<string>, served: Option<Tool>, size: nat)
    requires a.name == b.name
    ensures names == [a.name]
    ensures served == Some(b)
    ensures size == 1
  {
    var reg := new ToolRegistry();
    reg.Register(a);
    var before := reg.ListTools();
    reg.Register(b);
    names := reg.ListTools();
    assert names == before;
    served := reg.GetTool(a.name);
    size := reg.Size();
  }
}
