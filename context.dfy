/**
 * The sliding context window: a token-cost estimate per message and a greedy
 * selection of the most recent messages that fit a token budget.
 *
 * The window object holds nothing but its fixed `maxTokens`, so it is a value
 * here. The cost `(chars / 4 + words * 1.3) / 2`, truncated to an integer, is
 * computed exactly: it equals `(5 * chars + 26 * words) / 40` rounded down.
 */
module Context {
  import opened Common
  import opened Text

  /** `len(text) // 4`. */
  function EstimateTokens(text: string): (n: nat)
    ensures 4 * n <= |text| < 4 * n + 4
  {
    |text| / 4
  }

  /** The word-weighted estimate, `int((chars / 4 + words * 1.3) / 2)`, in exact arithmetic. */
  function ExactTokenCount(text: string): nat {
    (5 * |text| + 26 * |Words(text)|) / 40
  }

  /** The estimate is the floor of `chars / 8 + words * 0.65`. */
  lemma ExactTokenCountFloor(text: string)
    ensures var n, w := ExactTokenCount(text), |Words(text)|;
      && (n as real) <= (|text| as real) / 8.0 + (w as real) * 0.65
      && (|text| as real) / 8.0 + (w as real) * 0.65 < (n as real) + 1.0
  {
  }

  /** The text a message is costed by, `f"{role}: {content}"`. */
  function MessageText(m: Message): string {
    m.role + ": " + m.content
  }

  /** The cost of one message. */
  function MessageTokens(m: Message): nat {
    ExactTokenCount(MessageText(m))
  }

  /** Summed costs of the messages under `cost`. */
  function SumTokens(ms: seq<Message>, cost: Message -> nat): (n: nat)
    ensures ms == [] ==> n == 0
  {
    if ms == [] then 0 else SumTokens(ms[..|ms| - 1], cost) + cost(ms[|ms| - 1])
  }

  lemma {:induction false} SumTokensAppend(a: seq<Message>, b: seq<Message>, cost: Message -> nat)
    ensures SumTokens(a + b, cost) == SumTokens(a, cost) + SumTokens(b, cost)
    decreases |b|
  {
    if b == [] {
      assert a + b == a;
    } else {
      assert (a + b)[..|a + b| - 1] == a + b[..|b| - 1];
      SumTokensAppend(a, b[..|b| - 1], cost);
    }
  }

  lemma SumTokensOne(m: Message, cost: Message -> nat)
    ensures SumTokens([m], cost) == cost(m)
  {
    assert [m][..0] == [];
  }

  /**
   * Walking from the newest message backwards, keep messages while their costs
   * fit in `room`; stop at the first one that does not.
   */
  function Fit(ms: seq<Message>, room: int, cost: Message -> nat): (r: seq<Message>)
    ensures |r| <= |ms|
  {
    if ms == [] then []
    else
      var last := ms[|ms| - 1];
      var t := cost(last);
      if t <= room then Fit(ms[..|ms| - 1], room - t, cost) + [last] else []
  }

  /** One step of the backward walk over the first `i` messages, when message `i - 1` fits. */
  lemma FitStep(ms: seq<Message>, i: nat, room: int, cost: Message -> nat)
    requires 0 < i <= |ms| && cost(ms[i - 1]) <= room
    ensures Fit(ms[..i], room, cost) == Fit(ms[..i - 1], room - cost(ms[i - 1]), cost) + [ms[i - 1]]
  {
    assert ms[..i][..i - 1] == ms[..i - 1];
  }

  /** The backward walk's invariant survives taking message `i - 1` in front of `window`. */
  lemma FitTake(ms: seq<Message>, i: nat, available: int, used: int, window: seq<Message>, cost: Message -> nat)
    requires 0 < i <= |ms| && window == ms[i..] && used + cost(ms[i - 1]) <= available
    ensures [ms[i - 1]] + window == ms[i - 1..]
    ensures Fit(ms[..i], available - used, cost) + window
         == Fit(ms[..i - 1], available - (used + cost(ms[i - 1])), cost) + ([ms[i - 1]] + window)
  {
    FitStep(ms, i, available - used, cost);
    AppendAssoc(Fit(ms[..i - 1], available - (used + cost(ms[i - 1])), cost), [ms[i - 1]], window);
  }

  /**
   * The selection is a suffix of `ms`, costs at most `room` (unless it is
   * empty), and the next older message would not have fitted beside it.
   */
  lemma {:induction false} FitProperties(ms: seq<Message>, room: int, cost: Message -> nat)
    ensures var r := Fit(ms, room, cost);
      && r == ms[|ms| - |r|..]
      && (r == [] || SumTokens(r, cost) <= room)
      && (|r| < |ms| ==> SumTokens(r, cost) + cost(ms[|ms| - |r| - 1]) > room)
    decreases |ms|
  {
    if ms != [] {
      var last, init := ms[|ms| - 1], ms[..|ms| - 1];
      var t := cost(last);
      if t <= room {
        FitProperties(init, room - t, cost);
        var w := Fit(init, room - t, cost);
        var r := w + [last];
        assert Fit(ms, room, cost) == r;
        assert r[..|r| - 1] == w;
        assert ms[|ms| - |r|..] == init[|init| - |w|..] + [last];
        if |r| < |ms| {
          assert ms[|ms| - |r| - 1] == init[|init| - |w| - 1];
        }
      } else {
        assert Fit(ms, room, cost) == [];
      }
    }
  }

  /** A non-empty history is kept whole exactly when its summed cost is within `room`. */
  lemma {:induction false} FitWhole(ms: seq<Message>, room: int, cost: Message -> nat)
    requires ms != []
    ensures Fit(ms, room, cost) == ms <==> SumTokens(ms, cost) <= room
    decreases |ms|
  {
    var last, init := ms[|ms| - 1], ms[..|ms| - 1];
    assert ms == init + [last];
    var t := cost(last);
    if t <= room && init != [] {
      FitWhole(init, room - t, cost);
      var w := Fit(init, room - t, cost);
      assert Fit(ms, room, cost) == w + [last];
      assert Fit(ms, room, cost) == ms <==> w == init;
    }
  }

  /** Summed costs never shrink as a suffix grows. */
  lemma SuffixSumMonotone(ms: seq<Message>, j: nat, k: nat, cost: Message -> nat)
    requires j <= k <= |ms|
    ensures SumTokens(ms[|ms| - j..], cost) <= SumTokens(ms[|ms| - k..], cost)
  {
    SumTokensAppend(ms[|ms| - k..|ms| - j], ms[|ms| - j..], cost);
    assert ms[|ms| - k..] == ms[|ms| - k..|ms| - j] + ms[|ms| - j..];
  }

  /** The selection is the longest suffix whose summed cost is within `room`. */
  lemma FitLongest(ms: seq<Message>, room: int, cost: Message -> nat, k: nat)
    requires |Fit(ms, room, cost)| < k <= |ms|
    ensures SumTokens(ms[|ms| - k..], cost) > room
  {
    FitProperties(ms, room, cost);
    var r := Fit(ms, room, cost);
    var j := |r| + 1;
    assert ms[|ms| - j..] == [ms[|ms| - j]] + r;
    SumTokensAppend([ms[|ms| - j]], r, cost);
    SumTokensOne(ms[|ms| - j], cost);
    SuffixSumMonotone(ms, j, k, cost);
  }

  /** `total // n`: the largest multiple of `n` not above `total`, counted in `n`s. */
  function FloorMean(total: nat, n: nat): (a: nat)
    requires n > 0
    ensures a * n <= total < (a + 1) * n
  {
    total / n
  }

  /**
   * The loop of the window selection, with the per-message cost passed in:
   * walk backwards, prepend each message whose cost still fits beside
   * `used`, and stop at the first one that does not.
   */
  method TakeNewest(messages: seq<Message>, available: int, cost: Message -> nat) returns (window: seq<Message>)
    ensures window == Fit(messages, available, cost)
  {
    window := [];
    var used := 0;
    var i := |messages|;
    assert messages[..i] == messages;
    assert Fit(messages, available, cost) + [] == Fit(messages, available, cost);
    while i > 0
      invariant 0 <= i <= |messages|
      invariant window == messages[i..]
      invariant used == SumTokens(window, cost)
      invariant Fit(messages, available, cost) == Fit(messages[..i], available - used, cost) + window
    {
      var message := messages[i - 1];
      var messageTokens := cost(message);
      if used + messageTokens <= available {
        FitTake(messages, i, available, used, window, cost);
        SumTokensAppend([message], window, cost);
        SumTokensOne(message, cost);
        window := [message] + window;
        used := used + messageTokens;
        i := i - 1;
      } else {
        break;
      }
    }
  }

  datatype WindowStats = WindowStats(totalMessages: nat, totalTokens: nat, averageTokensPerMessage: nat)

  /** A context window with a fixed token capacity. */
  datatype ContextWindow = ContextWindow(maxTokens: int) {

    /** The room left for history once `reserveTokens` are set aside. */
    function Available(reserveTokens: int): int {
      maxTokens - reserveTokens
    }

    /** The newest messages that fit, as the window selection returns them. */
    function Window(messages: seq<Message>, reserveTokens: int): (r: seq<Message>)
      ensures messages == [] ==> r == []
    {
      Fit(messages, Available(reserveTokens), MessageTokens)
    }

    /**
     * The window is a contiguous suffix of the history in its original order,
     * its summed cost is within the budget (when it is not empty), and the
     * next older message would not have fitted beside it.
     */
    lemma WindowShape(messages: seq<Message>, reserveTokens: int)
      ensures var r := Window(messages, reserveTokens);
        && |r| <= |messages| && r == messages[|messages| - |r|..]
        && (r == [] || SumTokens(r, MessageTokens) <= Available(reserveTokens))
        && (|r| < |messages| ==>
              SumTokens(r, MessageTokens) + MessageTokens(messages[|messages| - |r| - 1]) > Available(reserveTokens))
    {
      FitProperties(messages, Available(reserveTokens), MessageTokens);
    }

    /** No longer suffix of the history than the window fits in the budget. */
    lemma WindowLongest(messages: seq<Message>, reserveTokens: int, k: nat)
      requires |Window(messages, reserveTokens)| < k <= |messages|
      ensures SumTokens(messages[|messages| - k..], MessageTokens) > Available(reserveTokens)
    {
      FitLongest(messages, Available(reserveTokens), MessageTokens, k);
    }

    /**
     * The backwards walk over the history, prepending each message that fits
     * and stopping at the first one that does not.
     */
    method GetContextWindow(messages: seq<Message>, reserveTokens: int) returns (window: seq<Message>)
      ensures window == Window(messages, reserveTokens)
    {
      if messages == [] {
        return [];
      }
      window := TakeNewest(messages, maxTokens - reserveTokens, MessageTokens);
    }

    /** Whether `"user: " + newContent` still fits after the whole history. */
    function CanFitMessage(messages: seq<Message>, newContent: string, reserveTokens: int): bool {
      SumTokens(messages, MessageTokens) + ExactTokenCount("user: " + newContent) <= Available(reserveTokens)
    }

    /**
     * A new message fits exactly when the history with that user message
     * appended would be kept whole by the window selection.
     */
    lemma CanFitMessageIffWholeWindow(messages: seq<Message>, newContent: string, reserveTokens: int, m: Message)
      requires m.role == "user" && m.content == newContent
      ensures CanFitMessage(messages, newContent, reserveTokens)
          <==> Window(messages + [m], reserveTokens) == messages + [m]
    {
      var ms := messages + [m];
      assert ms[..|ms| - 1] == messages;
      assert MessageText(m) == "user: " + newContent;
      FitWhole(ms, Available(reserveTokens), MessageTokens);
    }

    /** Message count, summed cost and the floor of the mean cost; all zero for no messages. */
    function GetWindowStats(messages: seq<Message>): (s: WindowStats)
      ensures messages == [] ==> s == WindowStats(0, 0, 0)
      ensures s.totalMessages == |messages| && s.totalTokens == SumTokens(messages, MessageTokens)
      ensures messages != [] ==>
        s.averageTokensPerMessage * |messages| <= s.totalTokens < (s.averageTokensPerMessage + 1) * |messages|
    {
      if messages == [] then WindowStats(0, 0, 0)
      else
        var total := SumTokens(messages, MessageTokens);
        WindowStats(|messages|, total, FloorMean(total, |messages|))
    }
  }
}
