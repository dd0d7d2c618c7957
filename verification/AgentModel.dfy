/** What the agent loop meets (internal/agent/agent.go): the model's answers with their tool calls,
    the store's responses, and which of the calls count as writes. */
module AgentModel {
  import opened Prelude
  import opened Tables
  import Gate

  const MAX_AUTO_FIX_ROUNDS := 2
  const MAX_TOOL_ROUNDS := 8

  /** One tool call of the model; `decodes` and `pathOk` are the verdicts on its input. */
  datatype ToolCall = ToolCall(isWriteFile: bool, decodes: bool, pathOk: bool, content: string)

  datatype Answer =
    | Failure(chunks: nat)
    | Answer(chunks: nat, text: string, toolUse: bool, calls: seq<ToolCall>)

  /** Whether a write of the store goes through, and when. */
  datatype Response = Response(up: bool, now: Time)

  /** What one execution of the loop meets, fixed from the start: the model's answers, the
      store's responses to the loop's writes, whether its reads go through, and whether the
      process is shutting down when the loop asks.  It may be anything. */
  datatype World = World(model: nat -> Answer, store: nat -> Response, looks: nat -> bool, down: bool)

  predicate IsAccepted(c: ToolCall) {
    c.isWriteFile && c.decodes && c.pathOk && |c.content| <= Gate.FILE_CONTENT_MAX_BYTES &&
    !Gate.HasForbidden(c.content)
  }

  /** The content of the last accepted write, or nothing. */
  function LastWrite(calls: seq<ToolCall>): string {
    if calls == [] then ""
    else
      var last := |calls| - 1;
      if IsAccepted(calls[last]) then calls[last].content else LastWrite(calls[..last])
  }

  /** Call `i` is accepted and no later one is. */
  ghost predicate LastAt(calls: seq<ToolCall>, i: nat) {
    i < |calls| && IsAccepted(calls[i]) && forall j :: i < j < |calls| ==> !IsAccepted(calls[j])
  }

  /** `after` is the content of the last accepted call, or `before` if none is accepted. */
  ghost predicate LeavesContent(calls: seq<ToolCall>, before: string, after: string) {
    (exists i: nat :: LastAt(calls, i) && after == calls[i].content) ||
    (after == before && forall i :: 0 <= i < |calls| ==> !IsAccepted(calls[i]))
  }

  /** The write that counts is the last accepted one. */
  lemma {:induction false} LastWriteIsLast(calls: seq<ToolCall>)
    ensures LeavesContent(calls, "", LastWrite(calls))
  {
    if calls != [] {
      var last := |calls| - 1;
      if IsAccepted(calls[last]) {
        assert LastAt(calls, last);
      } else {
        LastWriteIsLast(calls[..last]);
        forall j | 0 <= j < last ensures calls[..last][j] == calls[j] {
        }
        if i: nat :| LastAt(calls[..last], i) && LastWrite(calls) == calls[..last][i].content {
          assert LastAt(calls, i);
        }
      }
    }
  }

  /** A call is accepted exactly when it writes the one writable file, is no longer than the
      limit and has none of the patterns that can be found. */
  lemma AcceptedExactly(c: ToolCall)
    ensures IsAccepted(c) <==>
            c.isWriteFile && c.decodes && c.pathOk && |c.content| <= 204800 &&
            !Gate.Forbids(c.content, "child_process") && !Gate.Forbids(c.content, "execsync") &&
            !Gate.Forbids(c.content, "require('fs')") && !Gate.Forbids(c.content, "require(\"fs\")") &&
            !Gate.Forbids(c.content, "npm install") && !Gate.Forbids(c.content, "npx ") &&
            !Gate.Forbids(c.content, "yarn add") && !Gate.Forbids(c.content, "pnpm add") &&
            !Gate.Forbids(c.content, "import fs") && !Gate.Forbids(c.content, "process.env")
  {
    hide Gate.HasForbidden, Gate.Forbids;
    Gate.ForbiddenWithoutSpawnSync(c.content);
  }

  /** The tool calls a turn executes: those of the answers that stop for tool use. */
  function Executed(answers: seq<Answer>): seq<ToolCall> {
    if answers == [] then []
    else
      var last := |answers| - 1;
      Executed(answers[..last]) + if answers[last].Answer? && answers[last].toolUse then answers[last].calls else []
  }

  lemma {:induction false} ExecutedNext(answers: seq<Answer>, a: Answer)
    ensures Executed(answers + [a]) ==
            if a.Answer? && a.toolUse then Executed(answers) + a.calls else Executed(answers)
  {
    assert (answers + [a])[..|answers|] == answers;
  }
}
