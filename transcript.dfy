/** `process_memory`: the agent's chat memory rendered as the markdown transcript
    of the commands it ran and what they printed. */
module Transcript {
  import opened PythonStrings

  datatype Role = System | User | Assistant | Tool

  /** A chat message. `content` is empty where the message has no text; `toolCalls`
      holds, in order, the `command` argument of each tool call the message carries,
      already decoded, and is empty when it carries none. */
  datatype Message = Message(role: Role, content: string, toolCalls: seq<string>)

  /** The rule drawn under every command and every output: 100 dashes and a line feed. */
  const Rule: string := Repeat('-', 100) + "\n"

  /** The pieces `f(x)` of the elements of `xs`, concatenated in order. */
  function ConcatMap<T>(f: T -> string, xs: seq<T>): string
  {
    if xs == [] then "" else ConcatMap(f, xs[..|xs| - 1]) + f(xs[|xs| - 1])
  }

  lemma {:induction false} ConcatMapAppend<T>(f: T -> string, xs: seq<T>, ys: seq<T>)
    ensures ConcatMap(f, xs + ys) == ConcatMap(f, xs) + ConcatMap(f, ys)
  {
    if ys == [] {
      assert xs + ys == xs;
    } else {
      var zs := xs + ys;
      assert zs[..|zs| - 1] == xs + ys[..|ys| - 1];
      assert zs[|zs| - 1] == ys[|ys| - 1];
      ConcatMapAppend(f, xs, ys[..|ys| - 1]);
    }
  }

  lemma ConcatMapSnoc<T>(f: T -> string, xs: seq<T>, i: nat)
    requires i < |xs|
    ensures ConcatMap(f, xs[..i + 1]) == ConcatMap(f, xs[..i]) + f(xs[i])
  {
    assert xs[..i + 1][..i] == xs[..i];
  }

  lemma {:induction false} ConcatMapEmpty<T>(f: T -> string, xs: seq<T>)
    ensures ConcatMap(f, xs) == "" <==> forall i :: 0 <= i < |xs| ==> f(xs[i]) == ""
  {
    if xs != [] {
      var init := xs[..|xs| - 1];
      ConcatMapEmpty(f, init);
      assert forall i :: 0 <= i < |init| ==> init[i] == xs[i];
    }
  }

  /** The line written for one tool call. */
  function CommandBlock(command: string): string
  {
    "Command: `" + command + "`\n\n" + Rule
  }

  /** The text of an assistant message, written only when it is not empty. */
  function Paragraph(content: string): string
  {
    if content == "" then "" else content + "\n\n"
  }

  /** What one message adds to the transcript. */
  function Piece(m: Message): string
  {
    match m.role
    case Assistant => Paragraph(m.content) + ConcatMap(CommandBlock, m.toolCalls)
    case Tool => "Output:\n```\n" + m.content + "\n```\n\n" + Rule
    case _ => ""
  }

  /** The transcript of a memory: the pieces of its messages in order. */
  function Render(memory: seq<Message>): string
  {
    ConcatMap(Piece, memory)
  }

  /** `process_memory`: one pass over the memory, appending each formatted piece to the output. */
  method ProcessMemory(memory: seq<Message>) returns (output: string)
    ensures output == Render(memory)
  {
    output := "";
    for i := 0 to |memory|
      invariant output == Render(memory[..i])
    {
      var m := memory[i];
      ghost var before := output;
      if m.role == Assistant {
        if m.content != "" {
          output := output + (m.content + "\n\n");
        }
        for j := 0 to |m.toolCalls|
          invariant output == before + Paragraph(m.content) + ConcatMap(CommandBlock, m.toolCalls[..j])
        {
          ghost var blocks := output;
          ConcatMapSnoc(CommandBlock, m.toolCalls, j);
          output := output + ("Command: `" + m.toolCalls[j] + "`\n\n");
          output := output + Rule;
          AppendAssociative(blocks, "Command: `" + m.toolCalls[j] + "`\n\n", Rule);
          AppendAssociative(before + Paragraph(m.content), ConcatMap(CommandBlock, m.toolCalls[..j]), CommandBlock(m.toolCalls[j]));
        }
        assert m.toolCalls[..|m.toolCalls|] == m.toolCalls;
        AppendAssociative(before, Paragraph(m.content), ConcatMap(CommandBlock, m.toolCalls));
      } else if m.role == Tool {
        output := output + ("Output:\n```\n" + m.content + "\n```\n\n");
        output := output + Rule;
        AppendAssociative(before, "Output:\n```\n" + m.content + "\n```\n\n", Rule);
      }
      ConcatMapSnoc(Piece, memory, i);
    }
    assert memory[..|memory|] == memory;
  }

  /** Regrouping a concatenation of three strings. */
  lemma AppendAssociative(a: string, b: string, c: string)
    ensures a + b + c == a + (b + c)
  {
  }

  /** Rendering distributes over concatenation of memories. */
  lemma RenderAppend(a: seq<Message>, b: seq<Message>)
    ensures Render(a + b) == Render(a) + Render(b)
  {
    ConcatMapAppend(Piece, a, b);
  }

  /** A message of the user, or of the system, leaves no trace in the transcript,
      wherever it stands. */
  lemma UnrenderedRolesIgnored(a: seq<Message>, m: Message, b: seq<Message>)
    requires m.role == User || m.role == System
    ensures Render(a + [m] + b) == Render(a + b)
  {
    RenderAppend(a + [m], b);
    RenderAppend(a, [m]);
    RenderAppend(a, b);
    assert [m][..0] == [];
  }

  /** A message adds nothing exactly when it is from the user or the system, or
      it is an assistant message without text and without tool calls. */
  predicate Silent(m: Message)
  {
    m.role == User || m.role == System ||
    (m.role == Assistant && m.content == "" && m.toolCalls == [])
  }

  lemma PieceEmptyIffSilent(m: Message)
    ensures Piece(m) == "" <==> Silent(m)
  {
    ConcatMapEmpty(CommandBlock, m.toolCalls);
    if m.toolCalls != [] {
      assert CommandBlock(m.toolCalls[0]) != "";
    }
  }

  /** The transcript is empty exactly when every message is silent; in particular
      a memory of user messages only renders as the empty string. */
  lemma RenderEmptyIffSilent(memory: seq<Message>)
    ensures Render(memory) == "" <==> forall i :: 0 <= i < |memory| ==> Silent(memory[i])
  {
    ConcatMapEmpty(Piece, memory);
    forall i | 0 <= i < |memory| {
      PieceEmptyIffSilent(memory[i]);
    }
  }

  /** The tool calls of an assistant message appear one block each, first call first. */
  lemma {:induction false} CommandBlocksInOrder(calls: seq<string>)
    requires calls != []
    ensures ConcatMap(CommandBlock, calls) == CommandBlock(calls[0]) + ConcatMap(CommandBlock, calls[1..])
  {
    assert calls == [calls[0]] + calls[1..];
    ConcatMapAppend(CommandBlock, [calls[0]], calls[1..]);
    assert [calls[0]][..0] == [];
  }

  /** A tool message shows its content verbatim inside a code fence and closes with
      the rule; any tool calls it carries are not shown. */
  lemma ToolPieceLayout(m: Message)
    requires m.role == Tool
    ensures var p := Piece(m);
      |p| == |m.content| + 119 &&
      p[..12] == "Output:\n```\n" &&
      p[12..12 + |m.content|] == m.content &&
      p[12 + |m.content|..] == "\n```\n\n" + Rule
    ensures Piece(m) == Piece(Message(Tool, m.content, []))
  {
  }

  /** An assistant message shows its text first, when it has any, then its commands. */
  lemma AssistantPieceLayout(m: Message)
    requires m.role == Assistant
    ensures m.content == "" ==> Piece(m) == ConcatMap(CommandBlock, m.toolCalls)
    ensures m.content != "" ==>
      Piece(m)[..|m.content| + 2] == m.content + "\n\n" &&
      Piece(m)[|m.content| + 2..] == ConcatMap(CommandBlock, m.toolCalls)
  {
    if m.content != "" {
      assert Piece(m) == (m.content + "\n\n") + ConcatMap(CommandBlock, m.toolCalls);
    }
  }
}
