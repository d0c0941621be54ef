/**
 * Step 3 of the Chat handler: the role-tagged history becomes the list of
 * request messages handed to the model. Entries whose role is not one of the
 * three known roles are dropped.
 */
module Projection {
  import opened Wrappers
  import opened Messages

  /** The three kinds of request message the model client accepts. */
  datatype RequestMessage =
    | SystemMessage(content: string)
    | UserMessage(content: string)
    | AssistantMessage(content: string)
  {
    /** The role this request message carries. */
    function Role(): string {
      match this
      case SystemMessage(_) => SystemRole
      case UserMessage(_) => UserRole
      case AssistantMessage(_) => AssistantRole
    }
  }

  predicate KnownRole(role: string) {
    role == SystemRole || role == UserRole || role == AssistantRole
  }

  /** The request message one history entry becomes, if its role is one the switch handles. */
  function ToRequestMessage(m: DgraphChatMessage): (r: Option<RequestMessage>)
    ensures r.Some? <==> KnownRole(m.role)
    ensures r.Some? ==> r.value.Role() == m.role && r.value.content == m.content
  {
    if m.role == SystemRole then Some(SystemMessage(m.content))
    else if m.role == UserRole then Some(UserMessage(m.content))
    else if m.role == AssistantRole then Some(AssistantMessage(m.content))
    else None
  }

  /** Specification of the projection: the history's entries converted in order, unknown roles skipped. */
  function Projected(h: seq<DgraphChatMessage>): seq<RequestMessage>
    decreases |h|
  {
    if h == [] then []
    else
      match ToRequestMessage(h[|h| - 1])
      case Some(rm) => Projected(h[..|h| - 1]) + [rm]
      case None => Projected(h[..|h| - 1])
  }

  /** The number of entries of `h` whose role is known. */
  function KnownCount(h: seq<DgraphChatMessage>): nat
    decreases |h|
  {
    if h == [] then 0
    else KnownCount(h[..|h| - 1]) + if KnownRole(h[|h| - 1].role) then 1 else 0
  }

  /** The loop that builds `modelMessagesForOpenAI`, one `switch` per history entry. */
  method ToModelMessages(history: seq<DgraphChatMessage>) returns (out: seq<RequestMessage>)
    ensures out == Projected(history)
  {
    out := [];
    for i := 0 to |history|
      invariant out == Projected(history[..i])
    {
      var msg := history[i];
      assert history[..i + 1][..i] == history[..i];
      if msg.role == SystemRole {
        out := out + [SystemMessage(msg.content)];
      } else if msg.role == UserRole {
        out := out + [UserMessage(msg.content)];
      } else if msg.role == AssistantRole {
        out := out + [AssistantMessage(msg.content)];
      }
    }
    assert history[..|history|] == history;
  }

  /** One request message per known entry. */
  lemma {:induction false} ProjectedLength(h: seq<DgraphChatMessage>)
    ensures |Projected(h)| == KnownCount(h)
    decreases |h|
  {
    if h != [] {
      ProjectedLength(h[..|h| - 1]);
    }
  }

  /** At most every entry is known, and all of them are exactly when every role is known. */
  lemma {:induction false} KnownCountBound(h: seq<DgraphChatMessage>)
    ensures KnownCount(h) <= |h|
    ensures KnownCount(h) == |h| <==> forall i :: 0 <= i < |h| ==> KnownRole(h[i].role)
    decreases |h|
  {
    if h != [] {
      var init, last := h[..|h| - 1], h[|h| - 1];
      KnownCountBound(init);
      if forall i :: 0 <= i < |h| ==> KnownRole(h[i].role) {
        assert forall i :: 0 <= i < |init| ==> KnownRole(init[i].role) by {
          forall i | 0 <= i < |init| ensures KnownRole(init[i].role) {
            assert init[i] == h[i];
          }
        }
      } else if KnownRole(last.role) {
        var j :| 0 <= j < |h| && !KnownRole(h[j].role);
        assert init[j] == h[j];
      }
    }
  }

  /** Never more request messages than history entries, and as many exactly when every role is known. */
  lemma ProjectedLengthExact(h: seq<DgraphChatMessage>)
    ensures |Projected(h)| <= |h|
    ensures |Projected(h)| == |h| <==> forall i :: 0 <= i < |h| ==> KnownRole(h[i].role)
  {
    ProjectedLength(h);
    KnownCountBound(h);
  }

  /** Projecting a prefix of the history gives a prefix of the projection. */
  lemma {:induction false} ProjectedPrefix(h: seq<DgraphChatMessage>, k: nat)
    requires k <= |h|
    ensures Projected(h[..k]) <= Projected(h)
    decreases |h|
  {
    if k < |h| {
      var init := h[..|h| - 1];
      ProjectedPrefix(init, k);
      assert init[..k] == h[..k];
    } else {
      assert h[..k] == h;
    }
  }

  /** An entry with a known role appears, converted, at the position given by the known entries before it. */
  lemma ProjectedAt(h: seq<DgraphChatMessage>, i: nat)
    requires i < |h| && KnownRole(h[i].role)
    ensures KnownCount(h[..i]) < |Projected(h)|
    ensures Projected(h)[KnownCount(h[..i])] == ToRequestMessage(h[i]).value
  {
    ProjectedPrefix(h, i + 1);
    assert h[..i + 1][..i] == h[..i];
    ProjectedLength(h[..i]);
  }

  /** Known entries keep their relative order: a later known entry lands at a later position. */
  lemma {:induction false} KnownCountIncreases(h: seq<DgraphChatMessage>, i: nat, j: nat)
    requires i < j <= |h| && KnownRole(h[i].role)
    ensures KnownCount(h[..i]) < KnownCount(h[..j])
    decreases j
  {
    assert h[..j][..j - 1] == h[..j - 1];
    if j > i + 1 {
      KnownCountIncreases(h, i, j - 1);
    }
  }

  /** Every request message comes from exactly the known entry that precedes it in count. */
  lemma {:induction false} ProjectedOrigin(h: seq<DgraphChatMessage>, k: nat) returns (i: nat)
    requires k < |Projected(h)|
    ensures i < |h| && KnownRole(h[i].role) && KnownCount(h[..i]) == k
    ensures Projected(h)[k] == ToRequestMessage(h[i]).value
    decreases |h|
  {
    var init := h[..|h| - 1];
    ProjectedLength(init);
    if k < |Projected(init)| {
      i := ProjectedOrigin(init, k);
      assert init[..i] == h[..i];
    } else {
      i := |h| - 1;
      assert h[..i] == init;
    }
  }

  /** When every role is known, the projection converts the history entry for entry. */
  lemma ProjectedAllKnown(h: seq<DgraphChatMessage>)
    requires forall i :: 0 <= i < |h| ==> KnownRole(h[i].role)
    ensures |Projected(h)| == |h|
    ensures forall i :: 0 <= i < |h| ==> Projected(h)[i] == ToRequestMessage(h[i]).value
  {
    ProjectedLengthExact(h);
    forall i | 0 <= i < |h|
      ensures Projected(h)[i] == ToRequestMessage(h[i]).value
    {
      ProjectedAt(h, i);
      ProjectedLength(h[..i]);
      ProjectedLengthExact(h[..i]);
    }
  }

  /** Appending one entry to the history appends at most its conversion to the projection. */
  lemma ProjectedAppend(h: seq<DgraphChatMessage>, m: DgraphChatMessage)
    ensures Projected(h + [m]) == match ToRequestMessage(m)
      case Some(rm) => Projected(h) + [rm]
      case None => Projected(h)
  {
    assert (h + [m])[..|h|] == h;
  }
}
