/**
 * The evaluation context of an expression: the current object, the root
 * object and a stack of enclosing objects reachable as `parent`,
 * `parent2` and `parent3` (the most recently pushed object is `parent`).
 * Python's `None` is `JNull`.
 */
module SpelContext {
  import opened JsonData

  /** `parent_stack[-level]`, or None when the level is out of range. */
  function ParentAt(stack: seq<Json>, level: int): (r: Json)
    ensures 1 <= level <= |stack| ==> r == stack[|stack| - level]
    ensures !(1 <= level <= |stack|) ==> r == JNull
  {
    if level < 1 || level > |stack| then JNull else stack[|stack| - level]
  }

  /** Name of the variable that exposes parent level 1, 2 or 3. */
  function ParentName(level: int): string
    requires 1 <= level <= 3
  {
    if level == 1 then "parent" else if level == 2 then "parent2" else "parent3"
  }

  /** The variables handed to `eval`: data, root and the non-None parents of levels 1..3. */
  function EvalContext(data: Json, root: Json, stack: seq<Json>): (ctx: map<string, Json>)
    ensures "data" in ctx && ctx["data"] == data
    ensures "root" in ctx && ctx["root"] == root
    ensures forall level :: 1 <= level <= 3 ==>
      (ParentName(level) in ctx <==> ParentAt(stack, level) != JNull)
    ensures forall level :: 1 <= level <= 3 && ParentName(level) in ctx ==>
      ctx[ParentName(level)] == ParentAt(stack, level)
    ensures forall k :: k in ctx ==> k in {"data", "root", "parent", "parent2", "parent3"}
  {
    var base := map["data" := data, "root" := root];
    var c1 := if ParentAt(stack, 1) != JNull then base["parent" := ParentAt(stack, 1)] else base;
    var c2 := if ParentAt(stack, 2) != JNull then c1["parent2" := ParentAt(stack, 2)] else c1;
    if ParentAt(stack, 3) != JNull then c2["parent3" := ParentAt(stack, 3)] else c2
  }

  /** After pushing `p`, `p` is parent level 1 and every earlier level moves up by one. */
  lemma PushShiftsLevels(stack: seq<Json>, p: Json, level: int)
    ensures ParentAt(stack + [p], 1) == p
    ensures level >= 1 ==> ParentAt(stack + [p], level + 1) == ParentAt(stack, level)
  {
  }

  /** Only the three most recent parents are visible; deeper ones never reach `eval`. */
  lemma EvalContextSeesThreeLevels(data: Json, root: Json, stack: seq<Json>, bottom: Json)
    requires |stack| >= 3
    ensures EvalContext(data, root, [bottom] + stack) == EvalContext(data, root, stack)
  {
    var s' := [bottom] + stack;
    assert forall level :: 1 <= level <= 3 ==> ParentAt(s', level) == ParentAt(stack, level);
  }

  class SpelContext {
    var data: Json
    var root: Json
    var parentStack: seq<Json>

    /** A root of None falls back to the data object. */
    constructor (data: Json, root: Json, parentStack: seq<Json>)
      ensures this.data == data
      ensures this.root == if root == JNull then data else root
      ensures this.parentStack == parentStack
    {
      this.data := data;
      this.root := if root == JNull then data else root;
      this.parentStack := parentStack;
    }

    method PushParent(parent: Json)
      modifies this
      ensures parentStack == old(parentStack) + [parent]
      ensures data == old(data) && root == old(root)
      ensures GetParent(1) == parent
    {
      parentStack := parentStack + [parent];
    }

    /** Removes and returns the most recent parent, or returns None on an empty stack. */
    method PopParent() returns (removed: Json)
      modifies this
      ensures old(parentStack) == [] ==> removed == JNull && parentStack == []
      ensures old(parentStack) != [] ==>
        parentStack == old(parentStack)[..|old(parentStack)| - 1] && removed == old(GetParent(1))
      ensures data == old(data) && root == old(root)
    {
      if parentStack != [] {
        removed := parentStack[|parentStack| - 1];
        parentStack := parentStack[..|parentStack| - 1];
      } else {
        removed := JNull;
      }
    }

    function GetParent(level: int): (r: Json)
      reads this
      ensures r == ParentAt(parentStack, level)
    {
      ParentAt(parentStack, level)
    }

    function ToEvalContext(): (ctx: map<string, Json>)
      reads this
      ensures ctx == EvalContext(data, root, parentStack)
    {
      EvalContext(data, root, parentStack)
    }

    /**
     * A fresh context over `newData` with the same root and a copy of the
     * parent stack (or an empty one). A None root falls back to `newData`,
     * as the constructor does.
     */
    method CreateChildContext(newData: Json, preserveParentStack: bool) returns (child: SpelContext)
      ensures fresh(child)
      ensures child.data == newData
      ensures child.root == if root == JNull then newData else root
      ensures child.parentStack == if preserveParentStack then parentStack else []
    {
      child := new SpelContext(newData, root, if preserveParentStack then parentStack else []);
    }
  }

  /** `create_context`: a new context, with `parent` pushed when it is not None. */
  method CreateContext(data: Json, root: Json, parent: Json) returns (ctx: SpelContext)
    ensures fresh(ctx)
    ensures ctx.data == data && ctx.root == (if root == JNull then data else root)
    ensures ctx.parentStack == if parent == JNull then [] else [parent]
  {
    ctx := new SpelContext(data, root, []);
    if parent != JNull {
      ctx.PushParent(parent);
    }
  }

  /** Push followed by pop restores the stack and returns what was pushed. */
  method PushPopRoundTrip(ctx: SpelContext, p: Json) returns (removed: Json)
    modifies ctx
    ensures removed == p && ctx.parentStack == old(ctx.parentStack)
  {
    ctx.PushParent(p);
    removed := ctx.PopParent();
  }
}
