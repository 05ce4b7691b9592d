/**
 * The bounded conversation history shared by the three chat bots
 * (`add_to_history` in backend/ai/implementations/Schemes_chatbot.py,
 * backend/ai/implementations/Crop_recd/simple_crop_chatbot.py and
 * crop_recommendation.py): append one message, then keep the last 10.
 */
module ChatHistory {
  import opened PyText

  /** `{"role": role, "content": content}`. */
  datatype Message = Message(role: string, content: string)

  const MaxHistory: int := 10

  /** The reassignment `history = history[-10:]` done when the history has
      grown past 10 entries. */
  function Trim(h: seq<Message>): (r: seq<Message>)
    ensures |r| <= MaxHistory
    ensures |h| <= MaxHistory ==> r == h
    ensures |h| > MaxHistory ==> r == h[|h| - MaxHistory..]
  {
    if |h| > MaxHistory then Slice(h, -MaxHistory, |h|) else h
  }

  /** `add_to_history`: the history after appending `m`. */
  function Add(h: seq<Message>, m: Message): (r: seq<Message>)
    ensures |r| <= MaxHistory && r != [] && r[|r| - 1] == m
    ensures |h| < MaxHistory ==> r == h + [m]
    ensures |h| >= MaxHistory ==> |r| == MaxHistory
  {
    Trim(h + [m])
  }

  /** The last `n` elements of `s` (all of them when there are fewer). */
  function Last<T>(s: seq<T>, n: nat): (r: seq<T>)
    ensures |s| <= n ==> r == s
    ensures |s| > n ==> r == s[|s| - n..]
  {
    if |s| <= n then s else s[|s| - n..]
  }

  /** Adding to a history that is already the last 10 of everything said
      keeps it the last 10 of everything said. */
  lemma AddKeepsLast(all: seq<Message>, m: Message)
    ensures Add(Last(all, MaxHistory), m) == Last(all + [m], MaxHistory)
  {
    var h := Last(all, MaxHistory);
    var a := all + [m];
    if |all| >= MaxHistory {
      assert (h + [m])[1..] == a[|a| - MaxHistory..];
    }
  }

  /** Adding messages one at a time. */
  function AddAll(h: seq<Message>, ms: seq<Message>): seq<Message>
    decreases |ms|
  {
    if ms == [] then h else Add(AddAll(h, ms[..|ms| - 1]), ms[|ms| - 1])
  }

  /** Whatever was said, the history holds exactly the last 10 messages, in
      order, when it started within the bound. */
  lemma {:induction false} AddAllIsLast(h: seq<Message>, ms: seq<Message>)
    requires |h| <= MaxHistory
    ensures AddAll(h, ms) == Last(h + ms, MaxHistory)
  {
    if ms == [] {
      assert h + ms == h;
    } else {
      var init, m := ms[..|ms| - 1], ms[|ms| - 1];
      AddAllIsLast(h, init);
      assert ms == init + [m];
      AddAllStep(h, init, m);
    }
  }

  lemma AddAllStep(h: seq<Message>, init: seq<Message>, m: Message)
    requires AddAll(h, init) == Last(h + init, MaxHistory)
    ensures AddAll(h, init + [m]) == Last(h + (init + [m]), MaxHistory)
  {
    assert (init + [m])[..|init|] == init;
    AddKeepsLast(h + init, m);
    assert h + (init + [m]) == (h + init) + [m];
  }

  /** A reply recorded after its question: the history ends with the
      question and then the reply, even when the bound drops older entries. */
  lemma ExchangeAtEnd(h: seq<Message>, question: Message, reply: Message)
    ensures var r := Add(Add(h, question), reply);
      |r| >= 2 && r[|r| - 2] == question && r[|r| - 1] == reply
  {
    var q := Add(h, question);
    var r := Add(q, reply);
    if |q| >= MaxHistory {
      assert r == (q + [reply])[1..];
    }
  }

  /** The messages a chat bot sends for `user`: its system prompt, then the
      whole history with the question already added to it. */
  function Request(system: string, h: seq<Message>, user: string): (r: seq<Message>)
    ensures 2 <= |r| <= MaxHistory + 1
    ensures r[0] == Message("system", system) && r[|r| - 1] == Message("user", user)
    ensures r[1..] == Add(h, Message("user", user))
  {
    [Message("system", system)] + Add(h, Message("user", user))
  }

  /** The reply of a chat bot whose model call raised: "❌ Error: " and the
      exception's text. */
  function ErrorReply(message: string): (r: string)
    ensures |r| == |message| + 9 && r[9..] == message
  {
    "❌ Error: " + message
  }
}
