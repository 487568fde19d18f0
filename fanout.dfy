/**
 * The fan-out at close time: every message the search finds is copied to
 * every destination, destinations in list order inside each message.
 */
module FanOut {
  import opened HostModel
  import opened CopyExecutor
  import opened Sequences

  /** The inner loop over the destination list: copy() once per entry, in order. */
  function DestTrace(cfg: HostConfig, uid: Uid, dests: seq<string>): seq<Event>
    decreases |dests|
  {
    if dests == [] then []
    else DestTrace(cfg, uid, dests[..|dests| - 1]) + CopyTrace(cfg, uid, dests[|dests| - 1])
  }

  /** One found message: the optional debug note, then the inner loop. */
  function MessageTrace(cfg: HostConfig, uid: Uid, dests: seq<string>): seq<Event>
  {
    (if cfg.debug then [Log(Debug, WillCopy(uid))] else []) + DestTrace(cfg, uid, dests)
  }

  /** The outer loop over the found messages, in the order the search yields them. */
  function FanOutTrace(cfg: HostConfig, uids: seq<Uid>, dests: seq<string>): seq<Event>
    decreases |uids|
  {
    if uids == [] then []
    else FanOutTrace(cfg, uids[..|uids| - 1], dests) + MessageTrace(cfg, uids[|uids| - 1], dests)
  }

  /** One more step of the inner loop: copy() to the next destination. */
  lemma DestTraceStep(cfg: HostConfig, uid: Uid, dests: seq<string>, j: nat)
    requires j < |dests|
    ensures DestTrace(cfg, uid, dests[..j + 1]) == DestTrace(cfg, uid, dests[..j]) + CopyTrace(cfg, uid, dests[j])
  {
    assert dests[..j + 1][..j] == dests[..j];
  }

  /** One more step of the outer loop: the next found message. */
  lemma FanOutTraceStep(cfg: HostConfig, uids: seq<Uid>, dests: seq<string>, i: nat)
    requires i < |uids|
    ensures FanOutTrace(cfg, uids[..i + 1], dests) == FanOutTrace(cfg, uids[..i], dests) + MessageTrace(cfg, uids[i], dests)
  {
    assert uids[..i + 1][..i] == uids[..i];
  }

  /** The copy() calls of a trace, as (message, destination) pairs, in call order. */
  function Copies(t: seq<Event>): seq<(Uid, string)>
  {
    if t == [] then []
    else (if t[0].CopyCall? then [(t[0].uid, t[0].name)] else []) + Copies(t[1..])
  }

  /** The copy() calls for one message: one per destination, in list order. */
  function Row(uid: Uid, dests: seq<string>): (r: seq<(Uid, string)>)
    ensures |r| == |dests|
    ensures forall j :: 0 <= j < |dests| ==> r[j] == (uid, dests[j])
  {
    seq(|dests|, j requires 0 <= j < |dests| => (uid, dests[j]))
  }

  /** All (message, destination) pairs, message by message, destinations inside. */
  function Pairs(uids: seq<Uid>, dests: seq<string>): seq<(Uid, string)>
    decreases |uids|
  {
    if uids == [] then []
    else Pairs(uids[..|uids| - 1], dests) + Row(uids[|uids| - 1], dests)
  }

  lemma {:induction false} CopiesConcat(a: seq<Event>, b: seq<Event>)
    ensures Copies(a + b) == Copies(a) + Copies(b)
  {
    if a == [] {
      assert a + b == b;
    } else {
      assert (a + b)[1..] == a[1..] + b;
      CopiesConcat(a[1..], b);
      var head := if a[0].CopyCall? then [(a[0].uid, a[0].name)] else [];
      AppendAssoc(head, Copies(a[1..]), Copies(b));
    }
  }

  lemma {:induction false} NoCopies(t: seq<Event>)
    requires forall e :: e in t ==> !e.CopyCall?
    ensures Copies(t) == []
  {
    if t != [] {
      assert t[0] in t;
      assert forall e :: e in t[1..] ==> e in t;
      NoCopies(t[1..]);
    }
  }

  /** One copy() call is recorded exactly once, as its first event. */
  lemma CopyTraceCopies(cfg: HostConfig, uid: Uid, name: string)
    ensures Copies(CopyTrace(cfg, uid, name)) == [(uid, name)]
  {
    var t := CopyTrace(cfg, uid, name);
    assert t == [t[0]] + t[1..];
    assert forall e :: e in t[1..] ==> !e.CopyCall?;
    NoCopies(t[1..]);
    CopiesConcat([t[0]], t[1..]);
  }

  /** The inner loop makes one copy() call per destination, in list order. */
  lemma {:induction false} DestTraceCopies(cfg: HostConfig, uid: Uid, dests: seq<string>)
    ensures Copies(DestTrace(cfg, uid, dests)) == Row(uid, dests)
    decreases |dests|
  {
    if dests != [] {
      var init, last := dests[..|dests| - 1], dests[|dests| - 1];
      DestTraceCopies(cfg, uid, init);
      CopiesConcat(DestTrace(cfg, uid, init), CopyTrace(cfg, uid, last));
      CopyTraceCopies(cfg, uid, last);
    }
  }

  /**
   * The fan-out makes exactly the copy() calls of `Pairs`: for each found
   * message in turn, one per destination in list order.
   */
  lemma {:induction false} FanOutCopies(cfg: HostConfig, uids: seq<Uid>, dests: seq<string>)
    ensures Copies(FanOutTrace(cfg, uids, dests)) == Pairs(uids, dests)
    decreases |uids|
  {
    if uids != [] {
      var init, last := uids[..|uids| - 1], uids[|uids| - 1];
      FanOutCopies(cfg, init, dests);
      CopiesConcat(FanOutTrace(cfg, init, dests), MessageTrace(cfg, last, dests));
      MessageTraceCopies(cfg, last, dests);
    }
  }

  lemma MessageTraceCopies(cfg: HostConfig, uid: Uid, dests: seq<string>)
    ensures Copies(MessageTrace(cfg, uid, dests)) == Row(uid, dests)
  {
    var note := if cfg.debug then [Log(Debug, WillCopy(uid))] else [];
    CopiesConcat(note, DestTrace(cfg, uid, dests));
    NoCopies(note);
    DestTraceCopies(cfg, uid, dests);
  }

  /** There are |messages| × |destinations| pairs. */
  lemma {:induction false} PairsLength(uids: seq<Uid>, dests: seq<string>)
    ensures |Pairs(uids, dests)| == |uids| * |dests|
    decreases |uids|
  {
    if uids != [] {
      PairsLength(uids[..|uids| - 1], dests);
      assert |uids| * |dests| == (|uids| - 1) * |dests| + |dests|;
    }
  }

  /** The j-th destination of the i-th message is copy call number i·|dests| + j. */
  lemma {:induction false} PairsAt(uids: seq<Uid>, dests: seq<string>, i: nat, j: nat)
    requires i < |uids| && j < |dests|
    ensures i * |dests| + j < |Pairs(uids, dests)|
    ensures Pairs(uids, dests)[i * |dests| + j] == (uids[i], dests[j])
    decreases |uids|
  {
    var n, d := |uids|, |dests|;
    var init, last := uids[..n - 1], uids[n - 1];
    PairsLength(uids, dests);
    PairsLength(init, dests);
    IndexBelow(i, j, n, d);
    var p, q := Pairs(init, dests), Row(last, dests);
    assert Pairs(uids, dests) == p + q;
    if i < n - 1 {
      IndexBelow(i, j, n - 1, d);
      PairsAt(init, dests, i, j);
      assert (p + q)[i * d + j] == p[i * d + j];
    } else {
      assert i * d + j == |p| + j;
      assert (p + q)[|p| + j] == q[j];
    }
  }

  /** Entry j of row i lies before row m when i < m. */
  lemma IndexBelow(i: nat, j: nat, m: nat, d: nat)
    requires i < m && j < d
    ensures i * d + j < m * d
  {
    assert (i + 1) * d == i * d + d;
    MulMonotone(i + 1, m, d);
  }

  lemma MulMonotone(a: nat, b: nat, d: nat)
    requires a <= b
    ensures a * d <= b * d
  {
    assert b * d == a * d + (b - a) * d;
  }

  /**
   * A pair occurs as often as its message occurs among the found messages
   * times as often as its destination occurs in the list: a destination
   * listed twice receives two copies.
   */
  lemma {:induction false} PairsOccurrences(uids: seq<Uid>, dests: seq<string>, uid: Uid, name: string)
    ensures multiset(Pairs(uids, dests))[(uid, name)] == multiset(uids)[uid] * multiset(dests)[name]
    decreases |uids|
  {
    if uids != [] {
      var init: seq<Uid>, last: Uid := uids[..|uids| - 1], uids[|uids| - 1];
      PairsOccurrences(init, dests, uid, name);
      RowOccurrences(last, dests, uid, name);
      PairsSnocCount(uids, dests, uid, name);
      var a, d := multiset(init)[uid], multiset(dests)[name];
      if last == uid {
        MulSucc(a, d);
      }
    }
  }

  /** Counts of one pair and of one message when the last message is split off. */
  lemma PairsSnocCount(uids: seq<Uid>, dests: seq<string>, uid: Uid, name: string)
    requires uids != []
    ensures var init, last := uids[..|uids| - 1], uids[|uids| - 1];
      && multiset(Pairs(uids, dests))[(uid, name)]
         == multiset(Pairs(init, dests))[(uid, name)] + multiset(Row(last, dests))[(uid, name)]
      && multiset(uids)[uid] == multiset(init)[uid] + (if last == uid then 1 else 0)
  {
    var init: seq<Uid>, last: Uid := uids[..|uids| - 1], uids[|uids| - 1];
    assert uids == init + [last];
    assert multiset(Pairs(uids, dests)) == multiset(Pairs(init, dests)) + multiset(Row(last, dests));
  }

  lemma MulSucc(a: int, d: int)
    ensures (a + 1) * d == a * d + d
  {
  }

  lemma {:induction false} RowOccurrences(last: Uid, dests: seq<string>, uid: Uid, name: string)
    ensures multiset(Row(last, dests))[(uid, name)] == if last == uid then multiset(dests)[name] else 0
    decreases |dests|
  {
    if dests != [] {
      var init, d := dests[..|dests| - 1], dests[|dests| - 1];
      RowOccurrences(last, init, uid, name);
      assert Row(last, dests) == Row(last, init) + [(last, d)];
      assert dests == init + [d];
    }
  }

  /** The fan-out makes none of the calls on the source mailbox handle. */
  lemma {:induction false} FanOutOffSource(cfg: HostConfig, uids: seq<Uid>, dests: seq<string>)
    ensures forall e :: e in FanOutTrace(cfg, uids, dests) ==> !OnSource(e)
    decreases |uids|
  {
    if uids != [] {
      var init, last := uids[..|uids| - 1], uids[|uids| - 1];
      FanOutOffSource(cfg, init, dests);
      DestTraceOffSource(cfg, last, dests);
    }
  }

  lemma {:induction false} DestTraceOffSource(cfg: HostConfig, uid: Uid, dests: seq<string>)
    ensures forall e :: e in DestTrace(cfg, uid, dests) ==> !OnSource(e)
    decreases |dests|
  {
    if dests != [] {
      DestTraceOffSource(cfg, uid, dests[..|dests| - 1]);
      CopyStaysOffSource(cfg, uid, dests[|dests| - 1]);
    }
  }

  /** In one copy() call, every mailbox allocated is freed as often. */
  lemma CopyBalanced(cfg: HostConfig, uid: Uid, name: string, d: string)
    ensures multiset(CopyTrace(cfg, uid, name))[MailboxAlloc(d)] == multiset(CopyTrace(cfg, uid, name))[MailboxFree(d)]
  {
    if d == name {
      CopyOutcomeMarks(cfg, uid, name);
      DistinctOnce(CopyTrace(cfg, uid, name), MailboxAlloc(d));
      DistinctOnce(CopyTrace(cfg, uid, name), MailboxFree(d));
    } else {
      CopyTouchesOnlyItsDestination(cfg, uid, name, d);
    }
  }

  /** A copy() call allocates and frees no mailbox but its destination. */
  lemma CopyTouchesOnlyItsDestination(cfg: HostConfig, uid: Uid, name: string, d: string)
    requires d != name
    ensures MailboxAlloc(d) !in CopyTrace(cfg, uid, name) && MailboxFree(d) !in CopyTrace(cfg, uid, name)
  {
    if name in cfg.resolvable {
      var mid := if name in cfg.openable then OpenedTrace(cfg, uid, name) else [Log(Error, CannotOpen(name))];
      OpenedTraceAllocatesNothing(cfg, uid, name);
      assert MailboxAlloc(d) !in mid && MailboxFree(d) !in mid;
      assert CopyTrace(cfg, uid, name) ==
        [CopyCall(uid, name), NamespaceFind(name)] + ([MailboxAlloc(name), MailboxOpen(name)] + mid + [MailboxFree(name)]);
    }
  }

  /** Once the destination is open, copy() allocates and frees no mailbox. */
  lemma OpenedTraceAllocatesNothing(cfg: HostConfig, uid: Uid, name: string)
    ensures forall e :: e in OpenedTrace(cfg, uid, name) ==> !e.MailboxAlloc? && !e.MailboxFree?
  {
  }

  /** Over the whole fan-out, every destination mailbox allocated is freed as often. */
  lemma {:induction false} FanOutBalanced(cfg: HostConfig, uids: seq<Uid>, dests: seq<string>, d: string)
    ensures multiset(FanOutTrace(cfg, uids, dests))[MailboxAlloc(d)] == multiset(FanOutTrace(cfg, uids, dests))[MailboxFree(d)]
    decreases |uids|
  {
    if uids != [] {
      var init, last := uids[..|uids| - 1], uids[|uids| - 1];
      FanOutBalanced(cfg, init, dests, d);
      DestTraceBalanced(cfg, last, dests, d);
    }
  }

  lemma {:induction false} DestTraceBalanced(cfg: HostConfig, uid: Uid, dests: seq<string>, d: string)
    ensures multiset(DestTrace(cfg, uid, dests))[MailboxAlloc(d)] == multiset(DestTrace(cfg, uid, dests))[MailboxFree(d)]
    decreases |dests|
  {
    if dests != [] {
      DestTraceBalanced(cfg, uid, dests[..|dests| - 1], d);
      CopyBalanced(cfg, uid, dests[|dests| - 1], d);
    }
  }
}
