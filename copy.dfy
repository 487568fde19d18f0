/**
 * The copy executor: one attempt to copy one saved message of the source
 * folder into one destination mailbox; the failures it checks for are logged
 * and stop the attempt, and the result of the final commit is not examined.
 */
module CopyExecutor {
  import opened HostModel

  /** How one copy() call ends. */
  datatype CopyOutcome = NamespaceMissing | OpenFailed | CopyFailed | Copied

  /** The outcome the host's answers lead to; exactly one of the four. */
  function OutcomeOf(cfg: HostConfig, uid: Uid, name: string): CopyOutcome
  {
    if name !in cfg.resolvable then NamespaceMissing
    else if name !in cfg.openable then OpenFailed
    else if (uid, name) in cfg.copyFailures then CopyFailed
    else Copied
  }

  /** The calls copy() makes once the destination mailbox is open. */
  function OpenedTrace(cfg: HostConfig, uid: Uid, name: string): seq<Event>
  {
    [TransactionBegin(name, true), SaveAlloc(name), SaveCopyFlags(uid, name), MailboxCopy(uid, name)] +
    if (uid, name) in cfg.copyFailures then
      [Log(Error, CannotCopy(name)), TransactionRollback(name)]
    else
      [TransactionCommit(name)] + (if cfg.debug then [Log(Debug, MadeCopy(name))] else [])
  }

  /**
   * The whole trace of one copy() call: the call itself, the namespace
   * lookup, and what its outcome leads to.
   */
  function CopyTrace(cfg: HostConfig, uid: Uid, name: string): seq<Event>
  {
    [CopyCall(uid, name), NamespaceFind(name)] +
    if name !in cfg.resolvable then
      [Log(Error, NamespaceNotFound(name))]
    else
      [MailboxAlloc(name), MailboxOpen(name)] +
      (if name in cfg.openable then OpenedTrace(cfg, uid, name) else [Log(Error, CannotOpen(name))]) +
      [MailboxFree(name)]
  }

  /**
   * copy(): look the destination's namespace up, allocate and open the
   * destination, copy the message with its flags in an external transaction,
   * commit or roll back, and free the destination on every path after the
   * allocation.
   */
  method Copy(host: Host, uid: Uid, name: string)
    modifies host
    ensures host.trace == old(host.trace) + CopyTrace(host.cfg, uid, name)
  {
    host.Record(CopyCall(uid, name));
    host.Record(NamespaceFind(name));
    if name !in host.cfg.resolvable {
      host.Record(Log(Error, NamespaceNotFound(name)));
      return;
    }
    host.Record(MailboxAlloc(name));
    host.Record(MailboxOpen(name));
    ghost var afterOpen := host.trace;
    if name !in host.cfg.openable {
      host.Record(Log(Error, CannotOpen(name)));
    } else {
      CopyOpened(host, uid, name);
    }
    host.Record(MailboxFree(name));
    assert host.trace == afterOpen
      + (if name in host.cfg.openable then OpenedTrace(host.cfg, uid, name) else [Log(Error, CannotOpen(name))])
      + [MailboxFree(name)];
  }

  /** The part of copy() that runs once the destination mailbox is open. */
  method CopyOpened(host: Host, uid: Uid, name: string)
    modifies host
    ensures host.trace == old(host.trace) + OpenedTrace(host.cfg, uid, name)
  {
    host.Record(TransactionBegin(name, true));
    host.Record(SaveAlloc(name));
    host.Record(SaveCopyFlags(uid, name));
    host.Record(MailboxCopy(uid, name));
    if (uid, name) in host.cfg.copyFailures {
      host.Record(Log(Error, CannotCopy(name)));
      host.Record(TransactionRollback(name));
    } else {
      host.Record(TransactionCommit(name));
      if host.cfg.debug {
        host.Record(Log(Debug, MadeCopy(name)));
      }
    }
  }

  /**
   * What each outcome leaves on the trace of one copy() call, in which no
   * call is made twice: the call comes first; each failure logs its own
   * error; the destination is allocated unless the namespace lookup failed,
   * and then freed, as the last call; a transaction is begun only on an open
   * destination and is then either rolled back (the copy failed) or
   * its commit issued (the copy succeeded), never both.
   */
  ghost predicate Marked(t: seq<Event>, o: CopyOutcome, uid: Uid, name: string)
  {
    Distinct(t) && Shows(t, o, uid, name)
  }

  /** The calls of `Marked` that tell the outcome apart. */
  ghost predicate Shows(t: seq<Event>, o: CopyOutcome, uid: Uid, name: string)
  {
    && |t| > 0 && t[0] == CopyCall(uid, name)
    && (Log(Error, NamespaceNotFound(name)) in t <==> o == NamespaceMissing)
    && (Log(Error, CannotOpen(name)) in t <==> o == OpenFailed)
    && (Log(Error, CannotCopy(name)) in t <==> o == CopyFailed)
    && (MailboxAlloc(name) in t <==> o != NamespaceMissing)
    && (MailboxFree(name) in t <==> o != NamespaceMissing)
    && (o != NamespaceMissing ==> t[|t| - 1] == MailboxFree(name))
    && (TransactionBegin(name, true) in t <==> o == CopyFailed || o == Copied)
    && (TransactionRollback(name) in t <==> o == CopyFailed)
    && (TransactionCommit(name) in t <==> o == Copied)
  }

  // The calls of copy() for each outcome, written out once each.

  function MissingCalls(uid: Uid, name: string): seq<Event>
  {
    [CopyCall(uid, name), NamespaceFind(name), Log(Error, NamespaceNotFound(name))]
  }

  function OpenFailedCalls(uid: Uid, name: string): seq<Event>
  {
    [CopyCall(uid, name), NamespaceFind(name), MailboxAlloc(name), MailboxOpen(name),
     Log(Error, CannotOpen(name)), MailboxFree(name)]
  }

  function CopyFailedCalls(uid: Uid, name: string): seq<Event>
  {
    [CopyCall(uid, name), NamespaceFind(name), MailboxAlloc(name), MailboxOpen(name),
     TransactionBegin(name, true), SaveAlloc(name), SaveCopyFlags(uid, name), MailboxCopy(uid, name),
     Log(Error, CannotCopy(name)), TransactionRollback(name), MailboxFree(name)]
  }

  function CopiedCalls(uid: Uid, name: string): seq<Event>
  {
    [CopyCall(uid, name), NamespaceFind(name), MailboxAlloc(name), MailboxOpen(name),
     TransactionBegin(name, true), SaveAlloc(name), SaveCopyFlags(uid, name), MailboxCopy(uid, name),
     TransactionCommit(name), MailboxFree(name)]
  }

  function CopiedNotedCalls(uid: Uid, name: string): seq<Event>
  {
    [CopyCall(uid, name), NamespaceFind(name), MailboxAlloc(name), MailboxOpen(name),
     TransactionBegin(name, true), SaveAlloc(name), SaveCopyFlags(uid, name), MailboxCopy(uid, name),
     TransactionCommit(name), Log(Debug, MadeCopy(name)), MailboxFree(name)]
  }

  // One lemma per outcome: the calls it makes are pairwise different, and
  // `Marked` holds of them. The two halves are proved apart: with `Distinct`
  // in scope, every index of the trace is compared with every other.

  lemma MissingMarked(t: seq<Event>, uid: Uid, name: string)
    requires t == MissingCalls(uid, name)
    ensures Marked(t, NamespaceMissing, uid, name)
  {
  }

  lemma OpenFailedDistinct(t: seq<Event>, uid: Uid, name: string)
    requires t == OpenFailedCalls(uid, name)
    ensures Distinct(t)
  {
  }

  lemma OpenFailedShows(t: seq<Event>, uid: Uid, name: string)
    requires t == OpenFailedCalls(uid, name)
    ensures Shows(t, OpenFailed, uid, name)
  {
  }

  lemma OpenFailedMarked(t: seq<Event>, uid: Uid, name: string)
    requires t == OpenFailedCalls(uid, name)
    ensures Marked(t, OpenFailed, uid, name)
  {
    OpenFailedDistinct(t, uid, name);
    OpenFailedShows(t, uid, name);
  }

  lemma CopyFailedDistinct(t: seq<Event>, uid: Uid, name: string)
    requires t == CopyFailedCalls(uid, name)
    ensures Distinct(t)
  {
  }

  lemma CopyFailedShows(t: seq<Event>, uid: Uid, name: string)
    requires t == CopyFailedCalls(uid, name)
    ensures Shows(t, CopyFailed, uid, name)
  {
  }

  lemma CopyFailedMarked(t: seq<Event>, uid: Uid, name: string)
    requires t == CopyFailedCalls(uid, name)
    ensures Marked(t, CopyFailed, uid, name)
  {
    CopyFailedDistinct(t, uid, name);
    CopyFailedShows(t, uid, name);
  }

  lemma CopiedDistinct(t: seq<Event>, uid: Uid, name: string)
    requires t == CopiedCalls(uid, name)
    ensures Distinct(t)
  {
  }

  lemma CopiedShows(t: seq<Event>, uid: Uid, name: string)
    requires t == CopiedCalls(uid, name)
    ensures Shows(t, Copied, uid, name)
  {
  }

  lemma CopiedMarked(t: seq<Event>, uid: Uid, name: string)
    requires t == CopiedCalls(uid, name)
    ensures Marked(t, Copied, uid, name)
  {
    CopiedDistinct(t, uid, name);
    CopiedShows(t, uid, name);
  }

  lemma CopiedNotedDistinct(t: seq<Event>, uid: Uid, name: string)
    requires t == CopiedNotedCalls(uid, name)
    ensures Distinct(t)
  {
  }

  lemma CopiedNotedShows(t: seq<Event>, uid: Uid, name: string)
    requires t == CopiedNotedCalls(uid, name)
    ensures Shows(t, Copied, uid, name)
  {
  }

  lemma CopiedNotedMarked(t: seq<Event>, uid: Uid, name: string)
    requires t == CopiedNotedCalls(uid, name)
    ensures Marked(t, Copied, uid, name)
  {
    CopiedNotedDistinct(t, uid, name);
    CopiedNotedShows(t, uid, name);
  }

  /** Every copy() call ends in exactly one outcome, marked as `Marked` says. */
  lemma CopyOutcomeMarks(cfg: HostConfig, uid: Uid, name: string)
    ensures Marked(CopyTrace(cfg, uid, name), OutcomeOf(cfg, uid, name), uid, name)
  {
    match OutcomeOf(cfg, uid, name)
    case NamespaceMissing =>
      MissingMarked(CopyTrace(cfg, uid, name), uid, name);
    case OpenFailed =>
      OpenFailedMarks(cfg, uid, name);
    case CopyFailed =>
      CopyFailedMarks(cfg, uid, name);
    case Copied =>
      CopiedMarks(cfg, uid, name);
  }

  lemma OpenFailedMarks(cfg: HostConfig, uid: Uid, name: string)
    requires OutcomeOf(cfg, uid, name) == OpenFailed
    ensures Marked(CopyTrace(cfg, uid, name), OpenFailed, uid, name)
  {
    var t := CopyTrace(cfg, uid, name);
    assert t == OpenFailedCalls(uid, name);
    OpenFailedMarked(t, uid, name);
  }

  lemma CopyFailedMarks(cfg: HostConfig, uid: Uid, name: string)
    requires OutcomeOf(cfg, uid, name) == CopyFailed
    ensures Marked(CopyTrace(cfg, uid, name), CopyFailed, uid, name)
  {
    var t := CopyTrace(cfg, uid, name);
    assert t == [CopyCall(uid, name), NamespaceFind(name), MailboxAlloc(name), MailboxOpen(name)]
      + OpenedTrace(cfg, uid, name) + [MailboxFree(name)];
    assert t == CopyFailedCalls(uid, name);
    CopyFailedMarked(t, uid, name);
  }

  lemma CopiedMarks(cfg: HostConfig, uid: Uid, name: string)
    requires OutcomeOf(cfg, uid, name) == Copied
    ensures Marked(CopyTrace(cfg, uid, name), Copied, uid, name)
  {
    var t := CopyTrace(cfg, uid, name);
    assert t == [CopyCall(uid, name), NamespaceFind(name), MailboxAlloc(name), MailboxOpen(name)]
      + OpenedTrace(cfg, uid, name) + [MailboxFree(name)];
    if cfg.debug {
      assert t == CopiedNotedCalls(uid, name);
      CopiedNotedMarked(t, uid, name);
    } else {
      assert t == CopiedCalls(uid, name);
      CopiedMarked(t, uid, name);
    }
  }

  /** A copy() call makes none of the calls on the source mailbox handle. */
  lemma CopyStaysOffSource(cfg: HostConfig, uid: Uid, name: string)
    ensures forall e :: e in CopyTrace(cfg, uid, name) ==> !OnSource(e)
  {
    OpenedStaysOffSource(cfg, uid, name);
  }

  lemma OpenedStaysOffSource(cfg: HostConfig, uid: Uid, name: string)
    ensures forall e :: e in OpenedTrace(cfg, uid, name) ==> !OnSource(e)
  {
  }
}
