/**
 * The response text of a session: the non-empty text and reasoning parts of
 * the assistant's messages, in order, separated by a blank line.
 */
module SessionMessages {
  import opened Wrappers
  import opened Text

  /** A message part; `kind` is its `type`. */
  datatype Part = Part(kind: string, text: Option<string>)

  /** A session message: `info.role` and `parts`, either of which may be missing. */
  datatype Message = Message(role: Option<string>, parts: Option<seq<Part>>)

  predicate IsAssistant(m: Message)
  {
    m.role == Some("assistant")
  }

  /** A text or reasoning part whose text is a non-empty string. */
  predicate Carries(p: Part)
  {
    (p.kind == "text" || p.kind == "reasoning") && p.text.Some? && p.text.value != ""
  }

  function PartTexts(parts: seq<Part>): (ts: seq<string>)
    ensures forall t :: t in ts ==> t != ""
  {
    if |parts| == 0 then []
    else PartTexts(parts[..|parts| - 1]) + (if Carries(parts[|parts| - 1]) then [parts[|parts| - 1].text.value] else [])
  }

  /** `message.parts ?? []`, keeping the parts that carry text. */
  function MessageTexts(m: Message): seq<string>
  {
    if m.parts.Some? then PartTexts(m.parts.value) else []
  }

  /** The texts the extraction loop collects, message by message. */
  function Texts(messages: seq<Message>): (ts: seq<string>)
    ensures forall t :: t in ts ==> t != ""
  {
    if |messages| == 0 then []
    else
      var m := messages[|messages| - 1];
      var init := Texts(messages[..|messages| - 1]);
      var more := if IsAssistant(m) then MessageTexts(m) else [];
      assert forall t :: t in init + more ==> t in init || t in more;
      init + more
  }

  /** `filter((t) => t.length > 0)`. */
  function NonEmpty(ts: seq<string>): (r: seq<string>)
    ensures forall t :: t in r ==> t in ts && t != ""
  {
    if |ts| == 0 then []
    else NonEmpty(ts[..|ts| - 1]) + (if ts[|ts| - 1] != "" then [ts[|ts| - 1]] else [])
  }

  /** `extractResponseText(messages)`. */
  function ResponseText(messages: seq<Message>): string
  {
    Join(NonEmpty(Texts(messages)), "\n\n")
  }

  method ExtractResponseText(messages: seq<Message>) returns (text: string)
    ensures text == ResponseText(messages)
  {
    var extracted: seq<string> := [];
    for i := 0 to |messages|
      invariant extracted == Texts(messages[..i])
    {
      assert messages[..i + 1][..i] == messages[..i];
      if IsAssistant(messages[i]) && messages[i].parts.Some? {
        var parts := messages[i].parts.value;
        ghost var before := extracted;
        for j := 0 to |parts|
          invariant extracted == before + PartTexts(parts[..j])
        {
          assert parts[..j + 1][..j] == parts[..j];
          if Carries(parts[j]) {
            extracted := extracted + [parts[j].text.value];
          }
        }
        assert parts[..|parts|] == parts;
      }
    }
    assert messages[..|messages|] == messages;
    text := Join(NonEmpty(extracted), "\n\n");
  }

  // ---------------------------------------------------------------- properties

  /** Filtering out empty texts changes nothing: every collected text is non-empty. */
  lemma {:induction false} NonEmptyKeeps(ts: seq<string>)
    requires forall i :: 0 <= i < |ts| ==> ts[i] != ""
    ensures NonEmpty(ts) == ts
  {
    if |ts| > 0 {
      var init := ts[..|ts| - 1];
      assert forall i :: 0 <= i < |init| ==> init[i] == ts[i];
      NonEmptyKeeps(init);
      assert init + [ts[|ts| - 1]] == ts;
    }
  }

  /** Joining non-empty texts is empty exactly when there are none. */
  lemma JoinNonEmpty(ts: seq<string>, sep: string)
    requires forall t :: t in ts ==> t != ""
    ensures Join(ts, sep) == "" <==> ts == []
  {
    if |ts| >= 1 {
      assert ts[0] in ts;
    }
  }

  /** The response is the collected texts joined by a blank line, and is empty exactly when there are none. */
  lemma ResponseTextShape(messages: seq<Message>)
    ensures ResponseText(messages) == Join(Texts(messages), "\n\n")
    ensures ResponseText(messages) == "" <==> Texts(messages) == []
  {
    var ts := Texts(messages);
    forall i | 0 <= i < |ts|
      ensures ts[i] != ""
    {
      assert ts[i] in ts;
    }
    NonEmptyKeeps(ts);
    JoinNonEmpty(Texts(messages), "\n\n");
  }

  /** Texts are collected message by message, in order. */
  lemma {:induction false} TextsAppend(a: seq<Message>, b: seq<Message>)
    ensures Texts(a + b) == Texts(a) + Texts(b)
  {
    if |b| == 0 {
      assert a + b == a;
    } else {
      var b' := b[..|b| - 1];
      assert (a + b)[..|a + b| - 1] == a + b';
      assert (a + b)[|a + b| - 1] == b[|b| - 1];
      TextsAppend(a, b');
    }
  }

  /** Only the assistant's messages contribute: a message from anyone else adds nothing. */
  lemma OnlyAssistantCounts(messages: seq<Message>, m: Message)
    ensures Texts(messages + [m]) == Texts(messages) + (if IsAssistant(m) then MessageTexts(m) else [])
    ensures !IsAssistant(m) ==> ResponseText(messages + [m]) == ResponseText(messages)
  {
    assert (messages + [m])[..|messages|] == messages;
    if !IsAssistant(m) {
      assert Texts(messages + [m]) == Texts(messages) + [];
      assert Texts(messages) + [] == Texts(messages);
    }
  }

  /** Without an assistant message there is nothing to collect, and the response is empty. */
  lemma {:induction false} NoAssistantNoText(messages: seq<Message>)
    requires forall i :: 0 <= i < |messages| ==> !IsAssistant(messages[i])
    ensures Texts(messages) == []
    ensures ResponseText(messages) == ""
  {
    if |messages| > 0 {
      var init := messages[..|messages| - 1];
      assert forall i :: 0 <= i < |init| ==> init[i] == messages[i];
      NoAssistantNoText(init);
    }
  }
}
