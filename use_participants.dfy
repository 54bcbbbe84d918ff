/**
 * The randomisation logic of frontend/src/hooks/useParticipants.ts: the
 * Fisher-Yates shuffle, the bounded history of results, the hook's
 * `randomizedOrder` / `history` state, and the plain-text rendering of an order.
 *
 * `Math.random()` is replaced by an oracle `draws`: `draws[i]` is the index
 * `Math.floor(Math.random() * (i + 1))` that step `i` picks, so `draws[i] <= i`.
 * `Date.now()` is the parameter `now`. React's state and effect wiring and the
 * Zoom SDK's message transport are not modelled; a received broadcast is a
 * parameter of ReceiveMessage.
 */
module UseParticipants {
  import opened Wrappers

  /** Participant of frontend/src/hooks/useZoomSdk.ts. */
  datatype Participant = Participant(participantUUID: string, screenName: string, role: string)

  /** RandomizationResult: when an order was drawn, and the order. */
  datatype RandomizationResult = RandomizationResult(timestamp: int, order: seq<Participant>)

  /** The history keeps the ten newest results. */
  const HISTORY_LIMIT: nat := 10

  // ---------------------------------------------------------------------------
  // Fisher-Yates shuffle

  /** Draws that `Math.floor(Math.random() * (i + 1))` can produce for an array of `n` elements. */
  predicate ValidDraws(draws: seq<nat>, n: nat) {
    |draws| == n && forall i :: 0 <= i < n ==> draws[i] <= i
  }

  /** `s` with the elements at `i` and `j` exchanged. */
  function Swap<T>(s: seq<T>, i: nat, j: nat): (r: seq<T>)
    requires i < |s| && j < |s|
    ensures |r| == |s| && r[i] == s[j] && r[j] == s[i]
    ensures forall k :: 0 <= k < |s| && k != i && k != j ==> r[k] == s[k]
  {
    s[i := s[j]][j := s[i]]
  }

  /** An exchange keeps the multiset of elements. */
  lemma SwapPermutes<T>(s: seq<T>, i: nat, j: nat)
    requires i < |s| && j < |s|
    ensures multiset(Swap(s, i, j)) == multiset(s)
  {
  }

  /** The steps `i`, `i - 1`, ..., 1 of the shuffle applied to `s`. */
  function FisherYates<T>(s: seq<T>, draws: seq<nat>, i: int): (r: seq<T>)
    requires ValidDraws(draws, |s|) && i < |s|
    ensures |r| == |s|
    decreases i
  {
    if i <= 0 then s else FisherYates(Swap(s, i, draws[i]), draws, i - 1)
  }

  /** Every run of the shuffle is a permutation of its input. */
  lemma {:induction false} FisherYatesPermutes<T>(s: seq<T>, draws: seq<nat>, i: int)
    requires ValidDraws(draws, |s|) && i < |s|
    ensures multiset(FisherYates(s, draws, i)) == multiset(s)
    decreases i
  {
    if i > 0 {
      SwapPermutes(s, i, draws[i]);
      FisherYatesPermutes(Swap(s, i, draws[i]), draws, i - 1);
    }
  }

  /** Positions above `i` are never touched by the steps `i` down to 1. */
  lemma {:induction false} FisherYatesKeepsUpperPart<T>(s: seq<T>, draws: seq<nat>, i: int, k: nat)
    requires ValidDraws(draws, |s|) && i < k < |s|
    ensures FisherYates(s, draws, i)[k] == s[k]
    decreases i
  {
    if i > 0 {
      var next := Swap(s, i, draws[i]);
      assert next[k] == s[k];
      FisherYatesKeepsUpperPart(next, draws, i - 1, k);
    }
  }

  /** The first step fixes the last position: it holds the element the first draw picked. */
  lemma LastPositionIsFirstDraw<T>(s: seq<T>, draws: seq<nat>)
    requires ValidDraws(draws, |s|) && |s| >= 2
    ensures FisherYates(s, draws, |s| - 1)[|s| - 1] == s[draws[|s| - 1]]
  {
    var n := |s|;
    var next := Swap(s, n - 1, draws[n - 1]);
    assert ValidDraws(draws, |next|);
    assert FisherYates(s, draws, n - 1) == FisherYates(next, draws, n - 2);
    FisherYatesKeepsUpperPart(next, draws, n - 2, n - 1);
  }

  /** Arrays of zero or one element come back unchanged: the loop body never runs. */
  lemma ShortArrayUnchanged<T>(s: seq<T>, draws: seq<nat>)
    requires ValidDraws(draws, |s|) && |s| <= 1
    ensures FisherYates(s, draws, |s| - 1) == s
  {
  }

  /**
   * shuffleArray: copy the input, then for `i` from the last index down to 1
   * swap position `i` with position `draws[i]`. The input is a value and is not
   * changed; the result is a permutation of it.
   */
  method ShuffleArray<T>(items: seq<T>, draws: seq<nat>) returns (shuffled: seq<T>)
    requires ValidDraws(draws, |items|)
    ensures |shuffled| == |items|
    ensures multiset(shuffled) == multiset(items)
    ensures shuffled == FisherYates(items, draws, |items| - 1)
  {
    var copy := new T[|items|](k requires 0 <= k < |items| => items[k]);
    assert copy[..] == items;
    var i := copy.Length - 1;
    while i > 0
      invariant -1 <= i < copy.Length && copy.Length == |items|
      invariant multiset(copy[..]) == multiset(items)
      invariant FisherYates(copy[..], draws, i) == FisherYates(items, draws, |items| - 1)
      decreases i
    {
      var j := draws[i];
      ghost var before := copy[..];
      assert ValidDraws(draws, |before|);
      copy[i], copy[j] := copy[j], copy[i];
      assert copy[..] == Swap(before, i, j);
      SwapPermutes(before, i, j);
      assert FisherYates(before, draws, i) == FisherYates(copy[..], draws, i - 1);
      i := i - 1;
    }
    shuffled := copy[..];
  }

  // ---------------------------------------------------------------------------
  // History

  /** `[result, ...prev.slice(0, 9)]`. */
  function PushHistory(prev: seq<RandomizationResult>, result: RandomizationResult): (history: seq<RandomizationResult>)
    ensures |history| == if |prev| < HISTORY_LIMIT then |prev| + 1 else HISTORY_LIMIT
    ensures history[0] == result
    ensures forall k :: 1 <= k < |history| ==> history[k] == prev[k - 1]
  {
    [result] + prev[..if |prev| < HISTORY_LIMIT - 1 then |prev| else HISTORY_LIMIT - 1]
  }

  /** The history after the results `rs` arrive one after another, oldest first. */
  function PushAll(history: seq<RandomizationResult>, rs: seq<RandomizationResult>): seq<RandomizationResult>
    decreases |rs|
  {
    if rs == [] then history else PushAll(PushHistory(history, rs[0]), rs[1..])
  }

  function Reverse<T>(s: seq<T>): (r: seq<T>)
    ensures |r| == |s|
    ensures forall k :: 0 <= k < |s| ==> r[k] == s[|s| - 1 - k]
  {
    if s == [] then [] else Reverse(s[1..]) + [s[0]]
  }

  function Min(a: nat, b: nat): nat {
    if a < b then a else b
  }

  /**
   * Reference description of the history: after any sequence of results, it is
   * the newest results first, followed by the older history, cut to ten.
   */
  lemma {:induction false} HistoryIsNewestFirst(history: seq<RandomizationResult>, rs: seq<RandomizationResult>)
    requires |history| <= HISTORY_LIMIT
    ensures PushAll(history, rs) == (Reverse(rs) + history)[..Min(|rs| + |history|, HISTORY_LIMIT)]
    decreases |rs|
  {
    if rs != [] {
      var next := PushHistory(history, rs[0]);
      HistoryIsNewestFirst(next, rs[1..]);
      var all := Reverse(rs) + history;
      var rest := Reverse(rs[1..]) + next;
      var n := Min(|rs| + |history|, HISTORY_LIMIT);
      assert Min(|rs[1..]| + |next|, HISTORY_LIMIT) == n;
      forall k | 0 <= k < n ensures rest[k] == all[k] {
        if k >= |rs| - 1 {
          var m := k - (|rs| - 1);
          if m == 0 {
            assert rest[k] == next[0] == rs[0];
          } else {
            assert rest[k] == next[m] == history[m - 1];
          }
        }
      }
    }
  }

  // ---------------------------------------------------------------------------
  // Text rendering

  /** Decimal digits of a natural number, as JavaScript prints an integer below 10^21. */
  function DecimalString(n: nat): (s: string)
    ensures |s| >= 1
    ensures forall k :: 0 <= k < |s| ==> '0' <= s[k] <= '9'
    decreases n
  {
    var last := [('0' as int + n % 10) as char];
    if n < 10 then last else DecimalString(n / 10) + last
  }

  /** The value of a string of decimal digits. */
  function DecimalValue(s: string): nat
    requires forall k :: 0 <= k < |s| ==> '0' <= s[k] <= '9'
  {
    if s == [] then 0 else DecimalValue(s[..|s| - 1]) * 10 + (s[|s| - 1] as int - '0' as int)
  }

  /** Printing a number and reading it back gives the number; the first digit is never a padding zero. */
  lemma {:induction false} DecimalRoundTrip(n: nat)
    ensures DecimalValue(DecimalString(n)) == n
    ensures n > 0 ==> DecimalString(n)[0] != '0'
    decreases n
  {
    var s := DecimalString(n);
    if n >= 10 {
      DecimalRoundTrip(n / 10);
      assert s[..|s| - 1] == DecimalString(n / 10);
    }
  }

  /** One line of the text: `${i + 1}. ${p.screenName}`. */
  function OrderLine(i: nat, p: Participant): string {
    DecimalString(i + 1) + ". " + p.screenName
  }

  /** `lines.join(separator)`. */
  function Join(lines: seq<string>, separator: string): string {
    if lines == [] then "" else if |lines| == 1 then lines[0] else lines[0] + separator + Join(lines[1..], separator)
  }

  /** The numbered lines of an order. */
  function OrderLines(order: seq<Participant>): seq<string> {
    seq(|order|, k requires 0 <= k < |order| => OrderLine(k, order[k]))
  }

  /** formatOrderAsText. */
  function FormatOrderAsText(order: seq<Participant>): string {
    Join(OrderLines(order), "\n")
  }

  /** Joining one more line appends the separator and that line. */
  lemma {:induction false} JoinSnoc(lines: seq<string>, line: string, separator: string)
    requires lines != []
    ensures Join(lines + [line], separator) == Join(lines, separator) + separator + line
  {
    if |lines| == 1 {
      assert (lines + [line])[1..] == [line];
    } else {
      assert (lines + [line])[1..] == lines[1..] + [line];
      JoinSnoc(lines[1..], line, separator);
    }
  }

  /**
   * The text grows line by line: an empty order gives "", and appending a
   * participant at position k adds "\n" (when k > 0) and the line "k+1. name".
   */
  lemma FormatOrderAppend(order: seq<Participant>, p: Participant)
    ensures FormatOrderAsText([]) == ""
    ensures FormatOrderAsText(order + [p]) ==
              (if order == [] then "" else FormatOrderAsText(order) + "\n") + OrderLine(|order|, p)
  {
    assert OrderLines(order + [p]) == OrderLines(order) + [OrderLine(|order|, p)];
    if order != [] {
      JoinSnoc(OrderLines(order), OrderLine(|order|, p), "\n");
    }
  }

  /** Scenario: a two-person order renders as two numbered lines. */
  lemma ScenarioFormat(a: Participant, b: Participant)
    ensures FormatOrderAsText([a, b]) == "1. " + a.screenName + "\n" + "2. " + b.screenName
  {
    var first := FormatOrderAsText([a]);
    FormatOrderAppend([], a);
    assert [] + [a] == [a];
    assert first == OrderLine(0, a);
    assert DecimalString(1) == "1";
    FormatOrderAppend([a], b);
    assert [a] + [b] == [a, b];
    assert FormatOrderAsText([a, b]) == first + "\n" + OrderLine(1, b);
    assert DecimalString(2) == "2";
  }

  // ---------------------------------------------------------------------------
  // Hook state

  /** A message received from another app instance, after `JSON.parse`. */
  datatype BroadcastMessage =
    | RandomizationMessage(order: seq<Participant>, timestamp: int)
    | OtherMessage
    | Unparseable

  /** The state the hook keeps: the participants, the shown order (or null), and the history. */
  class ParticipantsState {
    var participants: seq<Participant>
    var randomizedOrder: Option<seq<Participant>>
    var history: seq<RandomizationResult>

    ghost predicate Valid()
      reads this
    {
      |history| <= HISTORY_LIMIT
    }

    constructor (initialParticipants: seq<Participant>)
      ensures Valid()
      ensures participants == initialParticipants && randomizedOrder == None && history == []
    {
      participants := initialParticipants;
      randomizedOrder := None;
      history := [];
    }

    /**
     * randomize: shuffle the participants, show the order, record it at the
     * head of the history, and return it (the broadcast is not modelled).
     */
    method Randomize(now: int, draws: seq<nat>) returns (shuffled: seq<Participant>)
      requires Valid() && ValidDraws(draws, |participants|)
      modifies this
      ensures Valid()
      ensures multiset(shuffled) == multiset(participants)
      ensures participants == old(participants)
      ensures randomizedOrder == Some(shuffled)
      ensures history == PushHistory(old(history), RandomizationResult(now, shuffled))
    {
      shuffled := ShuffleArray(participants, draws);
      var result := RandomizationResult(now, shuffled);
      randomizedOrder := Some(shuffled);
      history := PushHistory(history, result);
    }

    /** The broadcast listener: a randomisation result from another instance is shown and recorded. */
    method ReceiveMessage(message: BroadcastMessage)
      requires Valid()
      modifies this
      ensures Valid()
      ensures participants == old(participants)
      ensures message.RandomizationMessage? ==>
                randomizedOrder == Some(message.order) &&
                history == PushHistory(old(history), RandomizationResult(message.timestamp, message.order))
      ensures !message.RandomizationMessage? ==>
                randomizedOrder == old(randomizedOrder) && history == old(history)
    {
      if message.RandomizationMessage? {
        randomizedOrder := Some(message.order);
        history := PushHistory(history, RandomizationResult(message.timestamp, message.order));
      }
    }

    /** clearRandomization: hide the order; the history stays. */
    method ClearRandomization()
      requires Valid()
      modifies this
      ensures Valid()
      ensures randomizedOrder == None
      ensures participants == old(participants) && history == old(history)
    {
      randomizedOrder := None;
    }
  }
}
