/** Efficiency instructions (src/efficiency/inject.rs): one text block appended
    to the system prompt, which then carries the system cache breakpoint. */
module Efficiency {
  import opened Wrappers
  import opened JsonTree
  import opened Breakpoints

  /** There is a system prompt to extend: a list of blocks or a plain string. */
  predicate HasPrompt(root: Json) {
    root.HasArray("system") || root.TextOf("system").Some?
  }

  /** `r` is `root` with the instruction as one more system block.  The blocks
      before it are those of `root`, or one block that reads as its plain string;
      every other field is as it was.  Without a system prompt `r` is `root`. */
  ghost predicate IsInstructed(root: Json, instruction: string, r: Json) {
    if HasPrompt(root) then
      && r.Object? && r.fields.Keys == root.fields.Keys
      && (forall k :: k != "system" ==> r.Get(k) == root.Get(k))
      && r.HasArray("system") && r.ItemsOf("system") != []
      && var blocks := r.ItemsOf("system");
         && ReadsAs(blocks[|blocks| - 1], instruction)
         && (root.HasArray("system") ==> blocks[..|blocks| - 1] == root.ItemsOf("system"))
         && (!root.HasArray("system") ==> |blocks| == 2 && ReadsAs(blocks[0], root.TextOf("system").value))
    else r == root
  }

  method InjectEfficiency(body: Body, instruction: Option<string>) returns (r: Result<Body, string>)
    ensures instruction.None? ==> r == Ok(body)
    ensures instruction.Some? ==> (r.Err? <==> body.Malformed?)
    ensures instruction.Some? && body.Document? ==>
              r.value.Document? && IsInstructed(body.root, instruction.value, r.value.root)
  {
    if instruction.None? {
      return Ok(body);
    }
    if body.Malformed? {
      return Err("Failed to parse request body for efficiency injection");
    }
    var root := body.root;
    var block := TextBlock(instruction.value);
    if root.Get("system").Some? {
      var system := root.Get("system").value;
      if system.Array? {
        root := Json.Object(root.fields["system" := Json.Array(system.items + [block])]);
      } else if system.String? {
        root := Json.Object(root.fields["system" := Json.Array([TextBlock(system.text), block])]);
      }
    }
    return Ok(Document(root));
  }

  lemma OneBlockReadsAs(a: Json, b: Json, text: string)
    requires ReadsAs(a, text) && ReadsAs(b, text)
    ensures a == b
  {
    assert a.fields == b.fields;
  }

  /** The conditions determine the result. */
  lemma InstructedUnique(root: Json, instruction: string, a: Json, b: Json)
    requires IsInstructed(root, instruction, a) && IsInstructed(root, instruction, b)
    ensures a == b
  {
    if HasPrompt(root) {
      SameSystemBlocks(root, instruction, a, b);
      forall k | k in a.fields
        ensures a.fields[k] == b.fields[k]
      {
        assert a.Get(k) == b.Get(k);
      }
      assert a.fields == b.fields;
    }
  }

  lemma SameSystemBlocks(root: Json, instruction: string, a: Json, b: Json)
    requires HasPrompt(root) && IsInstructed(root, instruction, a) && IsInstructed(root, instruction, b)
    ensures a.Get("system") == b.Get("system")
  {
    var x, y := a.ItemsOf("system"), b.ItemsOf("system");
    OneBlockReadsAs(x[|x| - 1], y[|y| - 1], instruction);
    if root.HasArray("system") {
      assert x == x[..|x| - 1] + [x[|x| - 1]] && y == y[..|y| - 1] + [y[|y| - 1]];
    } else {
      OneBlockReadsAs(x[0], y[0], root.TextOf("system").value);
      assert x == [x[0], x[1]] && y == [y[0], y[1]];
    }
  }

  /** After an injection the system breakpoint sits on the instruction block,
      and the breakpoint in the messages has not moved. */
  lemma BreakpointOnInstruction(root: Json, instruction: string, r: Json, policy: CacheBreakpoint,
                                before: BreakpointPlan, after: BreakpointPlan)
    requires HasPrompt(root) && IsInstructed(root, instruction, r)
    requires IsPlan(root, policy, before) && IsPlan(r, policy, after)
    ensures after.systemBlock.Some?
    ensures var block := SystemBlock(r, after.systemBlock.value);
            block.Some? && ReadsAs(block.value, instruction)
    ensures after.messageBlocks == before.messageBlocks
  {
    assert r.Get("messages") == root.Get("messages");
    PlanUnique(r, policy, after, after.(messageBlocks := before.messageBlocks));
  }
}
