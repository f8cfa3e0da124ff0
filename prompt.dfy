/**
 * The flat prompt that `_format_prompt` builds from a chat history: one
 * "role: content\n" line per message, in order, then the cue "assistant: ".
 */
module Prompt {
  import opened Schemas

  /** The literal that ends every prompt. */
  const AssistantCue: string := "assistant: "

  /** The line one message contributes. */
  function Line(m: ChatMessage): string
  {
    m.role + ": " + m.content + "\n"
  }

  /** The lines of a history, appended one message at a time as the loop does. */
  function Lines(ms: seq<ChatMessage>): string
  {
    if ms == [] then "" else Lines(ms[..|ms| - 1]) + Line(ms[|ms| - 1])
  }

  /** The prompt sent to the engine for a history. */
  function PromptOf(ms: seq<ChatMessage>): string
  {
    Lines(ms) + AssistantCue
  }

  /** The sum over the history of |role| + |content| + 3 (": " and "\n"). */
  function LineLengths(ms: seq<ChatMessage>): nat
  {
    if ms == [] then 0 else LineLengths(ms[..|ms| - 1]) + |ms[|ms| - 1].role| + |ms[|ms| - 1].content| + 3
  }

  /** Where the line of message i starts in the prompt. */
  function LineOffset(ms: seq<ChatMessage>, i: nat): nat
    requires i <= |ms|
  {
    |Lines(ms[..i])|
  }

  /** s occurs in t starting at position k. */
  predicate OccursAt(s: string, t: string, k: int)
  {
    0 <= k && k + |s| <= |t| && t[k..k + |s|] == s
  }

  /** Flattening distributes over concatenation of histories. */
  lemma {:induction false} LinesAppend(a: seq<ChatMessage>, b: seq<ChatMessage>)
    ensures Lines(a + b) == Lines(a) + Lines(b)
    decreases |b|
  {
    if b == [] {
      assert a + b == a;
    } else {
      var b', last := b[..|b| - 1], b[|b| - 1];
      assert (a + b)[..|a + b| - 1] == a + b';
      assert (a + b)[|a + b| - 1] == last;
      calc {
        Lines(a + b);
        Lines(a + b') + Line(last);
        { LinesAppend(a, b'); }
        Lines(a) + Lines(b') + Line(last);
        Lines(a) + (Lines(b') + Line(last));
        Lines(a) + Lines(b);
      }
    }
  }

  /** The prompt for the empty history is exactly the cue. */
  lemma EmptyHistoryPrompt()
    ensures PromptOf([]) == AssistantCue
  {
  }

  /** Every prompt ends with the cue "assistant: ". */
  lemma PromptEndsWithCue(ms: seq<ChatMessage>)
    ensures |PromptOf(ms)| >= |AssistantCue|
    ensures PromptOf(ms)[|PromptOf(ms)| - |AssistantCue|..] == AssistantCue
  {
  }

  /** The prompt is 11 characters plus |role| + |content| + 3 per message. */
  lemma {:induction false} PromptLength(ms: seq<ChatMessage>)
    ensures |Lines(ms)| == LineLengths(ms)
    ensures |PromptOf(ms)| == 11 + LineLengths(ms)
    decreases |ms|
  {
    if ms != [] {
      PromptLength(ms[..|ms| - 1]);
    }
  }

  /** The prompt is the lines before message i, its own line, the lines after it, then the cue. */
  lemma PromptSplitsAt(ms: seq<ChatMessage>, i: nat)
    requires i < |ms|
    ensures PromptOf(ms) == Lines(ms[..i]) + Line(ms[i]) + Lines(ms[i + 1..]) + AssistantCue
  {
    var pre, m, post := ms[..i], ms[i], ms[i + 1..];
    assert ms == pre + ([m] + post);
    assert Lines([m]) == Line(m) by {
      assert [m][..0] == [];
    }
    LinesAppend([m], post);
    LinesAppend(pre, [m] + post);
    assert Lines(ms) == Lines(pre) + (Line(m) + Lines(post));
  }

  /**
   * The line of every message appears in the prompt at its offset, and so does
   * "role: content" with the newline right after it.
   */
  lemma MessageLineOccurs(ms: seq<ChatMessage>, i: nat)
    requires i < |ms|
    ensures OccursAt(Line(ms[i]), PromptOf(ms), LineOffset(ms, i))
    ensures OccursAt(ms[i].role + ": " + ms[i].content, PromptOf(ms), LineOffset(ms, i))
    ensures PromptOf(ms)[LineOffset(ms, i) + |ms[i].role| + 2 + |ms[i].content|] == '\n'
  {
    var pre, rc, rest := Lines(ms[..i]), ms[i].role + ": " + ms[i].content, Lines(ms[i + 1..]) + AssistantCue;
    assert PromptOf(ms) == pre + (rc + "\n") + rest by {
      PromptSplitsAt(ms, i);
    }
    assert Line(ms[i]) == rc + "\n";
    OccursBeforeNewline(pre, rc, rest);
  }

  /** A line placed after a prefix occurs right there, and so do its text and its closing newline. */
  lemma OccursBeforeNewline(a: string, s: string, b: string)
    ensures OccursAt(s + "\n", a + (s + "\n") + b, |a|)
    ensures OccursAt(s, a + (s + "\n") + b, |a|)
    ensures (a + (s + "\n") + b)[|a| + |s|] == '\n'
  {
    var t := a + (s + "\n") + b;
    assert t[|a|..|a| + |s| + 1] == s + "\n";
    assert t[|a|..|a| + |s|] == s;
  }

  /** The lines of earlier messages come, whole, before the lines of later ones. */
  lemma LinesInOrder(ms: seq<ChatMessage>, i: nat, j: nat)
    requires i < j <= |ms|
    ensures LineOffset(ms, i) + |Line(ms[i])| <= LineOffset(ms, j)
  {
    assert ms[..j] == ms[..i + 1] + ms[i + 1..j];
    LinesAppend(ms[..i + 1], ms[i + 1..j]);
    assert ms[..i + 1][..i] == ms[..i];
  }

  /** A three-message history flattens to its three lines followed by the cue. */
  lemma PromptOfThree(m0: ChatMessage, m1: ChatMessage, m2: ChatMessage)
    ensures PromptOf([m0, m1, m2]) == Line(m0) + Line(m1) + Line(m2) + AssistantCue
  {
    assert [m0, m1, m2][..2] == [m0, m1];
    assert [m0, m1][..1] == [m0];
    assert [m0][..0] == [];
    assert Lines([m0]) == Line(m0);
    assert Lines([m0, m1]) == Line(m0) + Line(m1);
    assert Lines([m0, m1, m2]) == Line(m0) + Line(m1) + Line(m2);
  }

  /** The history of the repository's own test flattens to the exact expected prompt. */
  lemma ConversationScenario()
    ensures PromptOf([ChatMessage("user", "Hello"), ChatMessage("assistant", "Hi"), ChatMessage("user", "How are you?")])
         == "user: Hello\nassistant: Hi\nuser: How are you?\nassistant: "
  {
    var m0, m1, m2 := ChatMessage("user", "Hello"), ChatMessage("assistant", "Hi"), ChatMessage("user", "How are you?");
    calc {
      PromptOf([m0, m1, m2]);
      { PromptOfThree(m0, m1, m2); }
      Line(m0) + Line(m1) + Line(m2) + AssistantCue;
      { JoinScenarioLines(); }
      "user: Hello\nassistant: Hi\nuser: How are you?\nassistant: ";
    }
  }

  /** The scenario's three lines and the cue, joined. */
  lemma JoinScenarioLines()
    ensures Line(ChatMessage("user", "Hello")) + Line(ChatMessage("assistant", "Hi"))
          + Line(ChatMessage("user", "How are you?")) + AssistantCue
         == "user: Hello\nassistant: Hi\nuser: How are you?\nassistant: "
  {
    ScenarioLines();
    JoinScenarioLiterals();
  }

  /** The line of each message of the scenario. */
  lemma ScenarioLines()
    ensures Line(ChatMessage("user", "Hello")) == "user: Hello\n"
    ensures Line(ChatMessage("assistant", "Hi")) == "assistant: Hi\n"
    ensures Line(ChatMessage("user", "How are you?")) == "user: How are you?\n"
  {
  }

  /** The scenario's lines and the cue, as literals, joined. */
  lemma JoinScenarioLiterals()
    ensures "user: Hello\n" + "assistant: Hi\n" + "user: How are you?\n" + "assistant: "
         == "user: Hello\nassistant: Hi\nuser: How are you?\nassistant: "
  {
    assert "user: Hello\n" + "assistant: Hi\n" == "user: Hello\nassistant: Hi\n";
    assert "user: Hello\nassistant: Hi\n" + "user: How are you?\n" == "user: Hello\nassistant: Hi\nuser: How are you?\n";
    assert "user: Hello\nassistant: Hi\nuser: How are you?\n" + "assistant: "
        == "user: Hello\nassistant: Hi\nuser: How are you?\nassistant: ";
  }

  /**
   * Flattening does not escape anything: a content that itself holds a newline and
   * a role prefix gives the same prompt as two separate messages.
   */
  lemma FlatteningIsAmbiguous()
    ensures PromptOf([ChatMessage("user", "a\nuser: b")])
         == PromptOf([ChatMessage("user", "a"), ChatMessage("user", "b")])
  {
    var m, m0, m1 := ChatMessage("user", "a\nuser: b"), ChatMessage("user", "a"), ChatMessage("user", "b");
    assert [m][..0] == [];
    assert Lines([m]) == "user: a\nuser: b\n";
    assert [m0, m1][..1] == [m0];
    assert [m0][..0] == [];
    assert Lines([m0]) == "user: a\n";
    assert Lines([m0, m1]) == "user: a\nuser: b\n";
  }
}
