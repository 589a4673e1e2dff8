/** Which history an admission sends along, and the quota it reserves for it. */
module AiContext {
  import opened Common

  datatype Role = Student | Assistant | Other

  datatype Message = Message(role: Role, body: string)

  datatype Turn = Turn(role: Role, text: string)

  datatype Pair = Pair(user: Message, assistant: Message)

  function PairBytes(p: Pair): nat {
    |p.user.body| + |p.assistant.body|
  }

  /** A student message answered by the very next message. */
  predicate AnsweredAt(history: seq<Message>, i: nat) {
    i + 1 < |history| && history[i].role == Student && history[i + 1].role == Assistant
  }

  /** All answered questions among the first n positions, in order. */
  function Answered(history: seq<Message>, n: nat): seq<Pair> {
    if n == 0 then []
    else Answered(history, n - 1) + (if AnsweredAt(history, n - 1) then [Pair(history[n - 1], history[n])] else [])
  }

  function Bytes(pairs: seq<Pair>): nat {
    if pairs == [] then 0 else PairBytes(pairs[0]) + Bytes(pairs[1..])
  }

  function Turns(pairs: seq<Pair>): seq<Turn> {
    if pairs == [] then []
    else [Turn(Student, pairs[0].user.body), Turn(Assistant, pairs[0].assistant.body)] + Turns(pairs[1..])
  }

  function Mandatory(system: string, current: string, extracted: string, images: nat, imageQuota: int,
                     maxOutput: int): int {
    |system| + |current| + |extracted| + images * imageQuota + maxOutput
  }

  /** The pairing loop: it steps over both messages of a pair it takes. */
  method CollectPairs(history: seq<Message>) returns (pairs: seq<Pair>)
    ensures pairs == Answered(history, |history|)
  {
    pairs := [];
    var i := 0;
    while i + 1 < |history|
      invariant i <= |history|
      invariant pairs == Answered(history, i)
    {
      if history[i].role == Student && history[i + 1].role == Assistant {
        pairs := pairs + [Pair(history[i], history[i + 1])];
        assert !AnsweredAt(history, i + 1);
        assert Answered(history, i + 2) == Answered(history, i + 1) + [];
        i := i + 1;
      }
      i := i + 1;
    }
    AnsweredTail(history, i, |history|);
  }

  lemma {:induction false} AnsweredTail(history: seq<Message>, i: nat, n: nat)
    requires i <= n && forall k :: i <= k < n ==> !AnsweredAt(history, k)
    ensures Answered(history, n) == Answered(history, i)
    decreases n - i
  {
    if i < n {
      AnsweredTail(history, i, n - 1);
    }
  }

  /** The positions of the answered questions: a student's message with the assistant's next after it. */
  ghost predicate QuestionsAt(history: seq<Message>, positions: seq<nat>) {
    && (forall i, j :: 0 <= i < j < |positions| ==> positions[i] < positions[j])
    && (forall p: nat :: p in positions <==>
          p + 1 < |history| && history[p].role == Student && history[p + 1].role == Assistant)
  }

  lemma {:induction false} AnsweredPositions(history: seq<Message>, n: nat) returns (positions: seq<nat>)
    ensures |positions| == |Answered(history, n)|
    ensures forall i, j :: 0 <= i < j < |positions| ==> positions[i] < positions[j]
    ensures forall p: nat :: p in positions <==> p < n && AnsweredAt(history, p)
    ensures forall k :: 0 <= k < |positions| ==>
              positions[k] + 1 < |history|
              && Answered(history, n)[k] == Pair(history[positions[k]], history[positions[k] + 1])
  {
    positions := [];
    if n > 0 {
      positions := AnsweredPositions(history, n - 1);
      assert forall i :: 0 <= i < |positions| ==> positions[i] in positions;
      if AnsweredAt(history, n - 1) {
        positions := positions + [n - 1];
      }
    }
  }

  /** Every answered question of the history is a pair, in order, and nothing else is. */
  lemma {:induction false} AnsweredMeans(history: seq<Message>) returns (positions: seq<nat>)
    ensures QuestionsAt(history, positions) && |positions| == |Answered(history, |history|)|
    ensures forall k :: 0 <= k < |positions| ==>
              positions[k] + 1 < |history|
              && Answered(history, |history|)[k] == Pair(history[positions[k]], history[positions[k] + 1])
  {
    positions := AnsweredPositions(history, |history|);
  }

  /** A pair becomes two turns, the question before its answer. */
  lemma {:induction false} TurnsMean(pairs: seq<Pair>)
    ensures |Turns(pairs)| == 2 * |pairs|
    ensures forall k :: 0 <= k < |pairs| ==>
              && Turns(pairs)[2 * k] == Turn(Student, pairs[k].user.body)
              && Turns(pairs)[2 * k + 1] == Turn(Assistant, pairs[k].assistant.body)
  {
    if pairs != [] {
      TurnsMean(pairs[1..]);
      forall k | 0 <= k < |pairs|
        ensures Turns(pairs)[2 * k] == Turn(Student, pairs[k].user.body)
        ensures Turns(pairs)[2 * k + 1] == Turn(Assistant, pairs[k].assistant.body)
      {
        if k > 0 {
          assert pairs[k] == pairs[1..][k - 1];
          assert Turns(pairs)[2 * k] == Turns(pairs[1..])[2 * (k - 1)];
          assert Turns(pairs)[2 * k + 1] == Turns(pairs[1..])[2 * (k - 1) + 1];
        }
      }
    }
  }

  /** The longest suffix of the pairs that fits into `room`. */
  ghost predicate LongestSuffix(pairs: seq<Pair>, from: nat, room: int) {
    && from <= |pairs|
    && Bytes(pairs[from..]) <= room
    && (forall k :: 0 <= k < from ==> Bytes(pairs[k..]) > room)
  }

  lemma {:induction false} LongerIsBigger(pairs: seq<Pair>, k: nat, from: nat)
    requires k <= from <= |pairs|
    ensures Bytes(pairs[k..]) >= Bytes(pairs[from..])
    decreases from - k
  {
    if k < from {
      assert pairs[k..][1..] == pairs[k + 1..];
      LongerIsBigger(pairs, k + 1, from);
    }
  }

  /** The first position from k on from which everything fits. */
  function Cut(pairs: seq<Pair>, k: nat, room: int): (from: nat)
    requires k <= |pairs|
    ensures k <= from <= |pairs|
    decreases |pairs| - k
  {
    if k == |pairs| || Bytes(pairs[k..]) <= room then k else Cut(pairs, k + 1, room)
  }

  /** The reference: drop the oldest pair until the rest fits. */
  function Suffix(pairs: seq<Pair>, room: int): seq<Pair> {
    pairs[Cut(pairs, 0, room)..]
  }

  lemma {:induction false} CutIsFirst(pairs: seq<Pair>, k: nat, room: nat)
    requires k <= |pairs|
    ensures Bytes(pairs[Cut(pairs, k, room)..]) <= room
    ensures forall i :: k <= i < Cut(pairs, k, room) ==> Bytes(pairs[i..]) > room
    decreases |pairs| - k
  {
    if k == |pairs| {
      assert pairs[k..] == [];
    } else if Bytes(pairs[k..]) > room {
      CutIsFirst(pairs, k + 1, room);
    }
  }

  /** The reference gives a suffix that fits, and no longer one does. */
  lemma {:induction false} SuffixIsLongest(pairs: seq<Pair>, room: nat)
    ensures LongestSuffix(pairs, Cut(pairs, 0, room), room)
  {
    CutIsFirst(pairs, 0, room);
  }

  /** A longest fitting suffix is unique, and it is the reference's. */
  lemma {:induction false} LongestIsSuffix(pairs: seq<Pair>, from: nat, room: nat)
    requires LongestSuffix(pairs, from, room)
    ensures Suffix(pairs, room) == pairs[from..]
  {
    SuffixIsLongest(pairs, room);
    assert from == Cut(pairs, 0, room);
  }

  function Reversed(pairs: seq<Pair>): seq<Pair> {
    if pairs == [] then [] else Reversed(pairs[1..]) + [pairs[0]]
  }

  /**
   selectContext: an error when the mandatory part alone does not fit; otherwise the turns of the
   longest suffix of answered questions that fits beside it, in their original order.
   */
  method SelectContext(system: string, history: seq<Message>, current: string, extracted: string, images: nat,
                       imageQuota: int, contextLimit: int, maxOutput: int)
    returns (turns: Option<seq<Turn>>)
    ensures
      var mandatory := |system| + |current| + |extracted| + images * imageQuota + maxOutput;
      && (turns.None? <==> contextLimit <= 0 || maxOutput <= 0 || mandatory > contextLimit)
      && (turns.Some? ==>
            turns.value == Turns(Suffix(Answered(history, |history|), contextLimit - mandatory)))
  {
    var mandatory := Mandatory(system, current, extracted, images, imageQuota, maxOutput);
    if contextLimit <= 0 || maxOutput <= 0 || mandatory > contextLimit {
      return None;
    }
    var pairs := CollectPairs(history);
    var room := contextLimit - mandatory;
    var i, remaining, selected := |pairs|, room, [];
    assert pairs[|pairs|..] == [];
    while i > 0
      invariant 0 <= i <= |pairs| && remaining >= 0
      invariant remaining == room - Bytes(pairs[i..])
      invariant selected == Reversed(pairs[i..])
    {
      var size := PairBytes(pairs[i - 1]);
      assert pairs[i - 1..][1..] == pairs[i..];
      if size > remaining {
        break;
      }
      remaining := remaining - size;
      selected := selected + [pairs[i - 1]];
      i := i - 1;
    }
    forall k | 0 <= k < i
      ensures Bytes(pairs[k..]) > room
    {
      LongerIsBigger(pairs, k, i - 1);
    }
    LongestIsSuffix(pairs, i, room);
    var out := Emit(selected, pairs[i..]);
    turns := Some(out);
  }

  /** The last loop walks the selection backwards, which restores the original order. */
  method Emit(selected: seq<Pair>, ghost chosen: seq<Pair>) returns (out: seq<Turn>)
    requires selected == Reversed(chosen)
    ensures out == Turns(chosen)
  {
    ReversedLength(chosen);
    out := [];
    var i := |selected|;
    while i > 0
      invariant 0 <= i <= |selected|
      invariant out == Turns(chosen[..|selected| - i])
    {
      i := i - 1;
      ReversedAt(chosen, i);
      TurnsAppend(chosen[..|selected| - i - 1], selected[i]);
      assert chosen[..|selected| - i] == chosen[..|selected| - i - 1] + [selected[i]];
      out := out + [Turn(Student, selected[i].user.body), Turn(Assistant, selected[i].assistant.body)];
    }
    assert chosen[..|selected|] == chosen;
  }

  lemma {:induction false} ReversedLength(pairs: seq<Pair>)
    ensures |Reversed(pairs)| == |pairs|
  {
    if pairs != [] {
      ReversedLength(pairs[1..]);
    }
  }

  lemma {:induction false} ReversedAt(pairs: seq<Pair>, i: nat)
    requires i < |pairs|
    ensures |Reversed(pairs)| == |pairs| && Reversed(pairs)[i] == pairs[|pairs| - 1 - i]
  {
    ReversedLength(pairs);
    ReversedLength(pairs[1..]);
    if i < |pairs| - 1 {
      ReversedAt(pairs[1..], i);
    }
  }

  lemma {:induction false} TurnsAppend(pairs: seq<Pair>, p: Pair)
    ensures Turns(pairs + [p]) == Turns(pairs) + [Turn(Student, p.user.body), Turn(Assistant, p.assistant.body)]
  {
    if pairs == [] {
      assert Turns([p]) == [Turn(Student, p.user.body), Turn(Assistant, p.assistant.body)] + Turns([p][1..]);
    } else {
      assert (pairs + [p])[1..] == pairs[1..] + [p];
      TurnsAppend(pairs[1..], p);
    }
  }

  function TextBytes(texts: seq<string>): nat {
    if texts == [] then 0 else TextBytes(texts[..|texts| - 1]) + |texts[|texts| - 1]|
  }

  /** EstimateQuotaReservation: bytes of everything sent, plus images, plus the output allowance. */
  method EstimateReservation(system: string, texts: seq<string>, extracted: string, images: nat, imageQuota: int,
                             maxOutput: int)
    returns (tokens: int)
    ensures tokens == |system| + |extracted| + TextBytes(texts) + images * imageQuota + maxOutput
  {
    tokens := |system| + |extracted|;
    for i := 0 to |texts|
      invariant tokens == |system| + |extracted| + TextBytes(texts[..i])
    {
      assert texts[..i + 1][..i] == texts[..i];
      tokens := tokens + |texts[i]|;
    }
    assert texts[..|texts|] == texts;
    tokens := tokens + (images * imageQuota + maxOutput);
  }

  function TurnTexts(turns: seq<Turn>): seq<string> {
    seq(|turns|, i requires 0 <= i < |turns| => turns[i].text)
  }

  lemma {:induction false} TextBytesConcat(a: seq<string>, b: seq<string>)
    ensures TextBytes(a + b) == TextBytes(a) + TextBytes(b)
    decreases b
  {
    if b == [] {
      assert a + b == a;
    } else {
      assert (a + b)[..|a + b| - 1] == a + b[..|b| - 1];
      TextBytesConcat(a, b[..|b| - 1]);
    }
  }

  lemma {:induction false} OneText(text: string)
    ensures TextBytes([text]) == |text|
  {
    assert [text][..0] == [];
  }

  lemma {:induction false} TurnsBytes(pairs: seq<Pair>)
    ensures TextBytes(TurnTexts(Turns(pairs))) == Bytes(pairs)
  {
    if pairs != [] {
      var p, rest := pairs[0], Turns(pairs[1..]);
      assert TurnTexts(Turns(pairs)) == [p.user.body, p.assistant.body] + TurnTexts(rest);
      OneText(p.user.body);
      OneText(p.assistant.body);
      TextBytesConcat([p.user.body], [p.assistant.body]);
      assert [p.user.body] + [p.assistant.body] == [p.user.body, p.assistant.body];
      TextBytesConcat([p.user.body, p.assistant.body], TurnTexts(rest));
      TurnsBytes(pairs[1..]);
    }
  }

  /**
   admit: the reservation made for a selected context is exactly the mandatory part plus the
   selected history, and never exceeds the model's context window.
   */
  method Reserve(system: string, history: seq<Message>, current: string, extracted: string, images: nat,
                 imageQuota: int, contextLimit: int, maxOutput: int)
    returns (reserved: Option<int>)
    ensures
      var mandatory := |system| + |current| + |extracted| + images * imageQuota + maxOutput;
      var pairs := Answered(history, |history|);
      && (reserved.None? <==> contextLimit <= 0 || maxOutput <= 0 || mandatory > contextLimit)
      && (reserved.Some? ==>
            reserved.value == mandatory + Bytes(Suffix(pairs, contextLimit - mandatory)) <= contextLimit)
  {
    var turns := SelectContext(system, history, current, extracted, images, imageQuota, contextLimit, maxOutput);
    if turns.None? {
      return None;
    }
    var texts := TurnTexts(turns.value) + [current];
    var tokens := EstimateReservation(system, texts, extracted, images, imageQuota, maxOutput);
    ghost var room := contextLimit - Mandatory(system, current, extracted, images, imageQuota, maxOutput);
    ghost var chosen := Suffix(Answered(history, |history|), room);
    SuffixFits(Answered(history, |history|), room);
    SentBytes(system, chosen, current, extracted, images, imageQuota, maxOutput);
    reserved := Some(tokens);
  }

  lemma {:induction false} SuffixFits(pairs: seq<Pair>, room: nat)
    ensures Bytes(Suffix(pairs, room)) <= room
  {
    SuffixIsLongest(pairs, room);
  }

  /** What is sent counts as the mandatory part and the chosen pairs. */
  lemma {:induction false} SentBytes(system: string, pairs: seq<Pair>, current: string, extracted: string, images: nat,
                                     imageQuota: int, maxOutput: int)
    ensures
      var sent := |system| + |extracted| + TextBytes(TurnTexts(Turns(pairs)) + [current]);
      sent + images * imageQuota + maxOutput
      == Mandatory(system, current, extracted, images, imageQuota, maxOutput) + Bytes(pairs)
  {
    TurnsBytes(pairs);
    TextBytesConcat(TurnTexts(Turns(pairs)), [current]);
    OneText(current);
  }
}
