/** Rendering a conversation's history into the single prompt string sent to a backend. */
module Prompt {
  import opened Common
  import opened Messages

  /** The label a message is shown with: "User" for the role "user", "Assistant" for every other role. */
  function Label(role: string): (tag: string)
    ensures tag == "User" <==> role == UserRole
    ensures tag != "User" ==> tag == "Assistant"
  {
    if role == UserRole then "User" else "Assistant"
  }

  /** The prompt line of one message: its label, ": ", its content and a newline. */
  function Line(m: Message): string {
    Label(m.role) + ": " + m.content + "\n"
  }

  /** The whole prompt: the lines of the messages, in history order. */
  function Render(messages: seq<Message>): string {
    if messages == [] then "" else Line(messages[0]) + Render(messages[1..])
  }

  /** Rendering distributes over concatenation of histories. */
  lemma {:induction false} RenderConcat(a: seq<Message>, b: seq<Message>)
    ensures Render(a + b) == Render(a) + Render(b)
  {
    if a == [] {
      assert a + b == b;
    } else {
      assert (a + b)[1..] == a[1..] + b;
      RenderConcat(a[1..], b);
    }
  }

  /** Appending one message to the history appends exactly its line to the prompt. */
  lemma RenderSnoc(history: seq<Message>, m: Message)
    ensures Render(history + [m]) == Render(history) + Label(m.role) + ": " + m.content + "\n"
  {
    RenderConcat(history, [m]);
    assert Render([m]) == Line(m) + Render([]);
  }

  /** The prompt depends only on roles and contents: media locators never reach it. */
  lemma {:induction false} RenderIgnoresMedia(a: seq<Message>, b: seq<Message>)
    requires |a| == |b|
    requires forall i :: 0 <= i < |a| ==> a[i].role == b[i].role && a[i].content == b[i].content
    ensures Render(a) == Render(b)
  {
    if a != [] {
      assert Line(a[0]) == Line(b[0]);
      RenderIgnoresMedia(a[1..], b[1..]);
    }
  }

  /** Every line starts with "User: " or "Assistant: ", and "User" exactly for the role "user".
      This is one unfolding of Render with Label spelled out, kept to show the literal line format. */
  lemma RenderFirstLine(m: Message, rest: seq<Message>)
    ensures m.role == UserRole ==> Render([m] + rest) == "User: " + m.content + "\n" + Render(rest)
    ensures m.role != UserRole ==> Render([m] + rest) == "Assistant: " + m.content + "\n" + Render(rest)
  {
    assert ([m] + rest)[0] == m;
    assert ([m] + rest)[1..] == rest;
  }

  /** A two-turn history renders as two labelled lines. */
  lemma RenderTwoTurns()
    ensures Render([UserMessage("hi", None), AssistantMessage("hello")]) == "User: hi\nAssistant: hello\n"
  {
    var h := [UserMessage("hi", None), AssistantMessage("hello")];
    assert h[1..] == [AssistantMessage("hello")];
    assert h[1..][1..] == [];
  }

  /** The prompt-building loop: one `+=` per message, in history order. */
  method BuildPrompt(messages: seq<Message>) returns (prompt: string)
    ensures prompt == Render(messages)
  {
    prompt := "";
    for i := 0 to |messages|
      invariant prompt == Render(messages[..i])
    {
      var msg := messages[i];
      var role := if msg.role == UserRole then "User" else "Assistant";
      RenderSnoc(messages[..i], msg);
      assert messages[..i + 1] == messages[..i] + [msg];
      prompt := prompt + role + ": " + msg.content + "\n";
    }
    assert messages[..|messages|] == messages;
  }
}
