/**
 * loadHistoryFromDgraph after the store has answered: the decoded rows are
 * copied into chat messages, which are then stably sorted by timestamp in place.
 */
module History {
  import opened Wrappers
  import opened Messages

  /** One element of the query's `messages` block. */
  datatype QueryRow = QueryRow(uid: string, role: string, content: string, timestamp: Timestamp)

  /**
   * What the store read and the JSON decoding produce: the query failed, the
   * answer did not decode, or it decoded with `messages` absent or null (None)
   * or present (Some).
   */
  datatype QueryResponse =
    | QueryFailed(error: string)
    | UndecodableJson(error: string, json: string)
    | Decoded(messages: Option<seq<QueryRow>>)

  /** The chat message a row is copied into; loaded messages carry no Dgraph type. */
  function FromRow(row: QueryRow): (m: DgraphChatMessage)
    ensures m.uid == row.uid && m.role == row.role && m.content == row.content
    ensures m.timestamp == row.timestamp && m.dgraphType == []
  {
    DgraphChatMessage(row.uid, row.role, row.content, row.timestamp, [])
  }

  function FromRows(rows: seq<QueryRow>): (s: seq<DgraphChatMessage>)
    ensures |s| == |rows| && forall i :: 0 <= i < |rows| ==> s[i] == FromRow(rows[i])
  {
    seq(|rows|, i requires 0 <= i < |rows| => FromRow(rows[i]))
  }

  predicate SortedByTimestamp(s: seq<DgraphChatMessage>) {
    forall i, j :: 0 <= i < j < |s| ==> s[i].timestamp <= s[j].timestamp
  }

  function Single(m: DgraphChatMessage, t: Timestamp): seq<DgraphChatMessage> {
    if m.timestamp == t then [m] else []
  }

  /** The messages of `s` stamped `t`, in their order in `s`. */
  function WithTimestamp(s: seq<DgraphChatMessage>, t: Timestamp): seq<DgraphChatMessage>
    decreases |s|
  {
    if s == [] then [] else WithTimestamp(s[..|s| - 1], t) + Single(s[|s| - 1], t)
  }

  /**
   * `r` lists, for every instant, the same messages in the same order as `s`:
   * the promise of a stable sort.
   */
  ghost predicate SameOrderPerTimestamp(r: seq<DgraphChatMessage>, s: seq<DgraphChatMessage>) {
    forall t :: WithTimestamp(r, t) == WithTimestamp(s, t)
  }

  /** A non-empty sequence is its prefix followed by its last element. */
  lemma SplitLast(s: seq<DgraphChatMessage>)
    requires s != []
    ensures s == s[..|s| - 1] + [s[|s| - 1]]
  {
  }

  lemma WithTimestampSnoc(s: seq<DgraphChatMessage>, m: DgraphChatMessage, t: Timestamp)
    ensures WithTimestamp(s + [m], t) == WithTimestamp(s, t) + Single(m, t)
  {
    assert (s + [m])[..|s|] == s;
  }

  lemma {:induction false} WithTimestampConcat(a: seq<DgraphChatMessage>, b: seq<DgraphChatMessage>, t: Timestamp)
    ensures WithTimestamp(a + b, t) == WithTimestamp(a, t) + WithTimestamp(b, t)
    decreases |b|
  {
    if b == [] {
      assert a + b == a;
    } else {
      var init, last := b[..|b| - 1], b[|b| - 1];
      SplitLast(b);
      SplitLast(a + b);
      assert (a + b)[..|a + b| - 1] == a + init;
      calc {
        WithTimestamp(a + b, t);
        WithTimestamp((a + init) + [last], t);
        { WithTimestampSnoc(a + init, last, t); }
        WithTimestamp(a + init, t) + Single(last, t);
        { WithTimestampConcat(a, init, t); }
        WithTimestamp(a, t) + WithTimestamp(init, t) + Single(last, t);
        { WithTimestampSnoc(init, last, t); }
        WithTimestamp(a, t) + WithTimestamp(b, t);
      }
    }
  }

  lemma PairPerTimestamp(p: seq<DgraphChatMessage>, x: DgraphChatMessage, y: DgraphChatMessage, t: Timestamp)
    ensures WithTimestamp(p + [x, y], t) == WithTimestamp(p, t) + Single(x, t) + Single(y, t)
  {
    assert p + [x, y] == (p + [x]) + [y];
    WithTimestampSnoc(p + [x], y, t);
    WithTimestampSnoc(p, x, t);
  }

  lemma SwapNeighbours(p: seq<DgraphChatMessage>, x: DgraphChatMessage, y: DgraphChatMessage,
                       q: seq<DgraphChatMessage>, t: Timestamp)
    requires x.timestamp != y.timestamp
    ensures WithTimestamp(p + [y, x] + q, t) == WithTimestamp(p + [x, y] + q, t)
  {
    var w, wq := WithTimestamp(p, t), WithTimestamp(q, t);
    assert WithTimestamp(p + [x, y] + q, t) == w + Single(x, t) + Single(y, t) + wq by {
      WithTimestampConcat(p + [x, y], q, t);
      PairPerTimestamp(p, x, y, t);
    }
    assert WithTimestamp(p + [y, x] + q, t) == w + Single(y, t) + Single(x, t) + wq by {
      WithTimestampConcat(p + [y, x], q, t);
      PairPerTimestamp(p, y, x, t);
    }
    if x.timestamp == t {
      assert Single(y, t) == [];
      assert w + Single(y, t) + Single(x, t) == w + Single(x, t) + Single(y, t);
    } else {
      assert Single(x, t) == [];
      assert w + Single(y, t) + Single(x, t) == w + Single(x, t) + Single(y, t);
    }
  }

  /** Exchanging two neighbours with different timestamps keeps every instant's order. */
  lemma SwapKeepsOrderPerTimestamp(s: seq<DgraphChatMessage>, j: nat)
    requires 0 < j < |s| && s[j - 1].timestamp != s[j].timestamp
    ensures SameOrderPerTimestamp(s[j - 1 := s[j]][j := s[j - 1]], s)
  {
    var x, y := s[j - 1], s[j];
    var p, q := s[..j - 1], s[j + 1..];
    assert s == p + [x, y] + q;
    assert s[j - 1 := y][j := x] == p + [y, x] + q;
    forall t
      ensures WithTimestamp(p + [y, x] + q, t) == WithTimestamp(p + [x, y] + q, t)
    {
      SwapNeighbours(p, x, y, q, t);
    }
  }

  lemma {:induction false} WithTimestampWitness(s: seq<DgraphChatMessage>, t: Timestamp) returns (k: nat)
    requires WithTimestamp(s, t) != []
    ensures k < |s| && s[k].timestamp == t
    decreases |s|
  {
    if s[|s| - 1].timestamp == t {
      k := |s| - 1;
    } else {
      k := WithTimestampWitness(s[..|s| - 1], t);
    }
  }

  /** A sequence with the same per-instant order as a non-empty one is non-empty. */
  lemma SameOrderNonEmpty(r: seq<DgraphChatMessage>, s: seq<DgraphChatMessage>)
    requires SameOrderPerTimestamp(r, s) && s != []
    ensures r != []
  {
    var t := s[|s| - 1].timestamp;
    assert WithTimestamp(s, t) != [];
    assert WithTimestamp(r, t) != [];
  }

  /** Two sorted sequences with the same per-instant order end at the same instant. */
  lemma SameOrderLastTimestamp(r1: seq<DgraphChatMessage>, r2: seq<DgraphChatMessage>)
    requires SortedByTimestamp(r1) && SortedByTimestamp(r2)
    requires SameOrderPerTimestamp(r1, r2) && r1 != [] && r2 != []
    ensures r1[|r1| - 1].timestamp == r2[|r2| - 1].timestamp
  {
    var l1, l2 := r1[|r1| - 1], r2[|r2| - 1];
    assert WithTimestamp(r2, l2.timestamp) != [];
    var k1 := WithTimestampWitness(r1, l2.timestamp);
    assert WithTimestamp(r1, l1.timestamp) != [];
    var k2 := WithTimestampWitness(r2, l1.timestamp);
    assert r1[k1].timestamp <= l1.timestamp && r2[k2].timestamp <= l2.timestamp;
  }

  /** Sequences with the same per-instant order and equal-stamped last elements agree on the rest. */
  lemma SameOrderDropLast(r1: seq<DgraphChatMessage>, r2: seq<DgraphChatMessage>)
    requires SameOrderPerTimestamp(r1, r2) && r1 != [] && r2 != []
    requires r1[|r1| - 1].timestamp == r2[|r2| - 1].timestamp
    ensures r1[|r1| - 1] == r2[|r2| - 1]
    ensures SameOrderPerTimestamp(r1[..|r1| - 1], r2[..|r2| - 1])
  {
    var i1, l1 := r1[..|r1| - 1], r1[|r1| - 1];
    var i2, l2 := r2[..|r2| - 1], r2[|r2| - 1];
    var t := l1.timestamp;
    var w1, w2 := WithTimestamp(i1, t), WithTimestamp(i2, t);
    assert WithTimestamp(r1, t) == w1 + [l1];
    assert WithTimestamp(r2, t) == w2 + [l2];
    assert l1 == (w1 + [l1])[|w1|] && l2 == (w2 + [l2])[|w2|];
    forall u
      ensures WithTimestamp(i1, u) == WithTimestamp(i2, u)
    {
      var v1, v2 := WithTimestamp(i1, u), WithTimestamp(i2, u);
      assert WithTimestamp(r1, u) == v1 + Single(l1, u);
      assert WithTimestamp(r2, u) == v2 + Single(l1, u);
      assert WithTimestamp(r1, u) == WithTimestamp(r2, u);
      assert v1 == (v1 + Single(l1, u))[..|v1|];
      assert v2 == (v2 + Single(l1, u))[..|v2|];
    }
  }

  /**
   * A stable sort by timestamp has exactly one possible outcome: two sorted
   * sequences with the same order per instant are equal.
   */
  lemma {:induction false} StableSortUnique(r1: seq<DgraphChatMessage>, r2: seq<DgraphChatMessage>)
    requires SortedByTimestamp(r1) && SortedByTimestamp(r2)
    requires SameOrderPerTimestamp(r1, r2)
    ensures r1 == r2
    decreases |r1|
  {
    if r1 != [] {
      SameOrderNonEmpty(r2, r1);
    }
    if r2 != [] {
      SameOrderNonEmpty(r1, r2);
    }
    if r1 != [] && r2 != [] {
      var i1, i2 := r1[..|r1| - 1], r2[..|r2| - 1];
      SameOrderLastTimestamp(r1, r2);
      SameOrderDropLast(r1, r2);
      StableSortUnique(i1, i2);
      SplitLast(r1);
      SplitLast(r2);
    }
  }

  /** Places `m` after every message of `s` that is not later than it. */
  function Insert(m: DgraphChatMessage, s: seq<DgraphChatMessage>): seq<DgraphChatMessage>
    decreases |s|
  {
    if s == [] || s[|s| - 1].timestamp <= m.timestamp then s + [m]
    else Insert(m, s[..|s| - 1]) + [s[|s| - 1]]
  }

  /** A reference stable sort by timestamp: insertion sort, each message going after its equals. */
  function StableSortByTimestamp(s: seq<DgraphChatMessage>): seq<DgraphChatMessage>
    decreases |s|
  {
    if s == [] then [] else Insert(s[|s| - 1], StableSortByTimestamp(s[..|s| - 1]))
  }

  predicate AllAtMost(s: seq<DgraphChatMessage>, t: Timestamp) {
    forall i :: 0 <= i < |s| ==> s[i].timestamp <= t
  }

  lemma {:induction false} InsertAtMost(m: DgraphChatMessage, s: seq<DgraphChatMessage>, t: Timestamp)
    requires AllAtMost(s, t) && m.timestamp <= t
    ensures AllAtMost(Insert(m, s), t)
    decreases |s|
  {
    if !(s == [] || s[|s| - 1].timestamp <= m.timestamp) {
      InsertAtMost(m, s[..|s| - 1], t);
    }
  }

  lemma {:induction false} InsertSorted(m: DgraphChatMessage, s: seq<DgraphChatMessage>)
    requires SortedByTimestamp(s)
    ensures SortedByTimestamp(Insert(m, s))
    decreases |s|
  {
    if !(s == [] || s[|s| - 1].timestamp <= m.timestamp) {
      var init, last := s[..|s| - 1], s[|s| - 1];
      InsertSorted(m, init);
      InsertAtMost(m, init, last.timestamp);
    }
  }

  /** Putting a message after `m` that is stamped differently is putting it before `m`, instant by instant. */
  lemma SnocPastDifferent(ins: seq<DgraphChatMessage>, init: seq<DgraphChatMessage>,
                          m: DgraphChatMessage, last: DgraphChatMessage, t: Timestamp)
    requires WithTimestamp(ins, t) == WithTimestamp(init, t) + Single(m, t)
    requires m.timestamp != last.timestamp
    ensures WithTimestamp(ins + [last], t) == WithTimestamp(init, t) + Single(last, t) + Single(m, t)
  {
    WithTimestampSnoc(ins, last, t);
    var w := WithTimestamp(init, t);
    assert Single(m, t) == [] || Single(last, t) == [];
    assert w + Single(m, t) + Single(last, t) == w + Single(last, t) + Single(m, t);
  }

  lemma {:induction false} InsertPerTimestamp(m: DgraphChatMessage, s: seq<DgraphChatMessage>, t: Timestamp)
    ensures WithTimestamp(Insert(m, s), t) == WithTimestamp(s, t) + Single(m, t)
    decreases |s|
  {
    if s == [] || s[|s| - 1].timestamp <= m.timestamp {
      WithTimestampSnoc(s, m, t);
    } else {
      var init, last := s[..|s| - 1], s[|s| - 1];
      var ins := Insert(m, init);
      InsertPerTimestamp(m, init, t);
      assert Insert(m, s) == ins + [last];
      assert WithTimestamp(s, t) == WithTimestamp(init, t) + Single(last, t);
      SnocPastDifferent(ins, init, m, last, t);
    }
  }

  lemma {:induction false} InsertPermutes(m: DgraphChatMessage, s: seq<DgraphChatMessage>)
    ensures multiset(Insert(m, s)) == multiset(s) + multiset{m}
    decreases |s|
  {
    if !(s == [] || s[|s| - 1].timestamp <= m.timestamp) {
      var init, last := s[..|s| - 1], s[|s| - 1];
      InsertPermutes(m, init);
      SplitLast(s);
    }
  }

  /** The reference sort orders by timestamp. */
  lemma {:induction false} StableSortSorted(s: seq<DgraphChatMessage>)
    ensures SortedByTimestamp(StableSortByTimestamp(s))
    decreases |s|
  {
    if s != [] {
      StableSortSorted(s[..|s| - 1]);
      InsertSorted(s[|s| - 1], StableSortByTimestamp(s[..|s| - 1]));
    }
  }

  /** The reference sort is stable: messages with equal timestamps keep their order. */
  lemma {:induction false} StableSortKeepsOrder(s: seq<DgraphChatMessage>)
    ensures SameOrderPerTimestamp(StableSortByTimestamp(s), s)
    decreases |s|
  {
    if s != [] {
      var init, last := s[..|s| - 1], s[|s| - 1];
      StableSortKeepsOrder(init);
      forall t
        ensures WithTimestamp(StableSortByTimestamp(s), t) == WithTimestamp(s, t)
      {
        InsertPerTimestamp(last, StableSortByTimestamp(init), t);
      }
    }
  }

  /** The reference sort only rearranges its input. */
  lemma {:induction false} StableSortPermutes(s: seq<DgraphChatMessage>)
    ensures multiset(StableSortByTimestamp(s)) == multiset(s)
    decreases |s|
  {
    if s != [] {
      var init, last := s[..|s| - 1], s[|s| - 1];
      StableSortPermutes(init);
      InsertPermutes(last, StableSortByTimestamp(init));
      SplitLast(s);
    }
  }

  /** Any sorted sequence keeping the per-instant order of `s` is the stable sort of `s`. */
  lemma StableSortCharacterized(s: seq<DgraphChatMessage>, r: seq<DgraphChatMessage>)
    requires SortedByTimestamp(r) && SameOrderPerTimestamp(r, s)
    ensures r == StableSortByTimestamp(s)
  {
    StableSortSorted(s);
    StableSortKeepsOrder(s);
    StableSortUnique(r, StableSortByTimestamp(s));
  }

  /** When the store already honoured `orderasc`, the re-sort changes nothing. */
  lemma StableSortOfSorted(s: seq<DgraphChatMessage>)
    requires SortedByTimestamp(s)
    ensures StableSortByTimestamp(s) == s
  {
    StableSortCharacterized(s, s);
  }

  /**
   * Exchanges `a[j - 1]` and `a[j]`, the later-stamped message moving right:
   * `a[..i + 1]` stays sorted apart from position j, which moves to j - 1.
   */
  method SwapDown(a: array<DgraphChatMessage>, j: nat, i: nat)
    requires 0 < j <= i < a.Length && a[j - 1].timestamp > a[j].timestamp
    requires forall k, l :: 0 <= k < l <= i && k != j && l != j ==> a[k].timestamp <= a[l].timestamp
    requires forall l :: j < l <= i ==> a[j].timestamp < a[l].timestamp
    modifies a
    ensures forall k, l :: 0 <= k < l <= i && k != j - 1 && l != j - 1 ==> a[k].timestamp <= a[l].timestamp
    ensures forall l :: j - 1 < l <= i ==> a[j - 1].timestamp < a[l].timestamp
    ensures a[..] == old(a[..])[j - 1 := old(a[j])][j := old(a[j - 1])]
    ensures SameOrderPerTimestamp(a[..], old(a[..]))
  {
    a[j - 1], a[j] := a[j], a[j - 1];
    assert a[..] == old(a[..])[j - 1 := old(a[j])][j := old(a[j - 1])];
    SwapKeepsOrderPerTimestamp(old(a[..]), j);
  }

  /**
   * One pass of the insertion sort: moves `a[i]` left past every later-stamped
   * neighbour, so that `a[..i + 1]` becomes sorted.
   */
  method InsertInPlace(a: array<DgraphChatMessage>, i: nat)
    requires i < a.Length
    requires forall k, l :: 0 <= k < l < i ==> a[k].timestamp <= a[l].timestamp
    modifies a
    ensures forall k, l :: 0 <= k < l <= i ==> a[k].timestamp <= a[l].timestamp
    ensures a[i + 1..] == old(a[i + 1..])
    ensures SameOrderPerTimestamp(a[..], old(a[..]))
  {
    var j := i;
    while j > 0 && a[j - 1].timestamp > a[j].timestamp
      invariant 0 <= j <= i
      invariant forall k, l :: 0 <= k < l <= i && k != j && l != j ==> a[k].timestamp <= a[l].timestamp
      invariant forall l :: j < l <= i ==> a[j].timestamp < a[l].timestamp
      invariant a[i + 1..] == old(a[i + 1..])
      invariant SameOrderPerTimestamp(a[..], old(a[..]))
    {
      SwapDown(a, j, i);
      j := j - 1;
    }
  }

  /** sort.SliceStable on the messages, ordering by timestamp; written as an insertion sort. */
  method SortStable(a: array<DgraphChatMessage>)
    modifies a
    ensures SortedByTimestamp(a[..]) && SameOrderPerTimestamp(a[..], old(a[..]))
    ensures multiset(a[..]) == multiset(old(a[..]))
    ensures a[..] == StableSortByTimestamp(old(a[..]))
  {
    var i := 0;
    while i < a.Length
      invariant 0 <= i <= a.Length
      invariant forall k, l :: 0 <= k < l < i ==> a[k].timestamp <= a[l].timestamp
      invariant SameOrderPerTimestamp(a[..], old(a[..]))
    {
      InsertInPlace(a, i);
      i := i + 1;
    }
    StableSortCharacterized(old(a[..]), a[..]);
    StableSortPermutes(old(a[..]));
  }

  /**
   * loadHistoryFromDgraph given the store's answer: errors are wrapped with the
   * session id; otherwise the rows are copied and stably sorted by timestamp.
   */
  method LoadHistory(sessionID: string, response: QueryResponse) returns (r: Result<seq<DgraphChatMessage>>)
    ensures response.QueryFailed? ==>
      r == Err("dgraph.ExecuteQuery failed for session " + sessionID + ": " + response.error)
    ensures response.UndecodableJson? ==>
      r == Err("failed to unmarshal Dgraph response for session " + sessionID + ": "
               + response.error + ". JSON: " + response.json)
    ensures response.Decoded? ==> r.Ok?
    ensures response.Decoded? ==>
      (r.value == [] <==> response.messages.None? || response.messages.value == [])
    ensures response.Decoded? && response.messages.Some? ==>
      var loaded := FromRows(response.messages.value);
      && r.value == StableSortByTimestamp(loaded)
      && SortedByTimestamp(r.value)
      && SameOrderPerTimestamp(r.value, loaded)
      && multiset(r.value) == multiset(loaded)
  {
    match response
    case QueryFailed(e) =>
      r := Err("dgraph.ExecuteQuery failed for session " + sessionID + ": " + e);
    case UndecodableJson(e, json) =>
      r := Err("failed to unmarshal Dgraph response for session " + sessionID + ": " + e + ". JSON: " + json);
    case Decoded(messages) =>
      var rows: seq<QueryRow> := [];
      if messages.Some? {
        rows := messages.value;
      }
      var chatMessages := new DgraphChatMessage[|rows|];
      for i := 0 to |rows|
        invariant forall k :: 0 <= k < i ==> chatMessages[k] == FromRow(rows[k])
      {
        chatMessages[i] := FromRow(rows[i]);
      }
      assert chatMessages[..] == FromRows(rows);
      SortStable(chatMessages);
      r := Ok(chatMessages[..]);
  }
}
