/**
 * The host mail store, seen only through the calls the plugin makes on it.
 *
 * Every storage call the plugin issues, except the per-message
 * `mailbox_search_next` (the search hands back all its matches at once), is
 * recorded as an `Event` in the host's trace, and the outcome of each call whose result the plugin
 * examines is fixed by a `HostConfig`: which destination names resolve to a
 * namespace, which mailboxes open, which (message, destination) copies fail,
 * and which UIDs the source folder holds. The underlying commit's result
 * and the UIDs it saved are arguments of the commit methods instead. Calls
 * whose result the plugin ignores have no outcome here, and no host call
 * re-enters the plugin.
 */
module HostModel {

  /** A message UID, folder-scoped and assigned in increasing order. */
  type Uid = nat

  datatype Level = Error | Debug

  /** What a log line reports (the text itself is not modelled). */
  datatype LogKind =
    | NamespaceNotFound(name: string)   // copy: mail_namespace_find failed
    | CannotOpen(name: string)          // copy: mailbox_open failed
    | CannotCopy(name: string)          // copy: mailbox_copy failed
    | MadeCopy(name: string)            // copy: debug note after a commit
    | WillCopy(uid: Uid)                // close: debug note per found message
    | ConfigNotFound                    // allocation: no extra-copies file
    | ConfigOpenFailed                  // allocation: the file exists but cannot be opened
    | ReadingConfig                     // allocation: debug note before reading the file

  datatype Event =
    | Log(level: Level, kind: LogKind)
      // entry into copy() for one message and one destination
    | CopyCall(uid: Uid, name: string)
      // calls copy() makes on the destination
    | NamespaceFind(name: string)
    | MailboxAlloc(name: string)
    | MailboxOpen(name: string)
    | TransactionBegin(name: string, external: bool)
    | SaveAlloc(name: string)
    | SaveCopyFlags(uid: Uid, name: string)
    | MailboxCopy(uid: Uid, name: string)
    | TransactionRollback(name: string)
    | TransactionCommit(name: string)
    | MailboxFree(name: string)
      // calls on the source mailbox handle itself
    | SuperCommit
    | SourceSync(fullRead: bool)
    | SourceTransactionBegin
    | SearchInit(uids: set<Uid>)
    | SearchDeinit
    | SourceTransactionCommit
    | PendingFree
    | SuperClose

  /** Events on the source mailbox handle, as opposed to those of a copy() call. */
  predicate OnSource(e: Event)
  {
    e.SuperCommit? || e.SourceSync? || e.SourceTransactionBegin? || e.SearchInit? ||
    e.SearchDeinit? || e.SourceTransactionCommit? || e.PendingFree? || e.SuperClose?
  }

  /** No call occurs twice in the trace. */
  ghost predicate Distinct(t: seq<Event>)
  {
    forall i, j :: 0 <= i < j < |t| ==> t[i] != t[j]
  }

  /** In a trace without repeated calls, every call occurs once or not at all. */
  lemma {:induction false} DistinctOnce(t: seq<Event>, e: Event)
    requires Distinct(t)
    ensures multiset(t)[e] == if e in t then 1 else 0
  {
    if t != [] {
      assert t == [t[0]] + t[1..];
      assert t[0] !in t[1..] by {
        forall k | 0 <= k < |t[1..]| ensures t[1..][k] != t[0] {
          assert t[1..][k] == t[k + 1];
        }
      }
      DistinctOnce(t[1..], e);
    }
  }

  /** The outcomes the host gives to the calls that can fail. */
  datatype HostConfig = HostConfig(
    debug: bool,                        // the user's mail_debug setting
    resolvable: set<string>,            // names mail_namespace_find resolves
    openable: set<string>,              // names whose mailbox_open succeeds
    copyFailures: set<(Uid, string)>,   // copies mailbox_copy rejects
    stored: seq<Uid>)                   // UIDs of the source folder, in folder order
  {
    /** UIDs in a folder are strictly ascending. */
    predicate Valid()
    {
      StrictlyIncreasing(stored)
    }
  }

  predicate StrictlyIncreasing(s: seq<Uid>)
  {
    forall i, j :: 0 <= i < j < |s| ==> s[i] < s[j]
  }

  /**
   * The messages a UID-set search yields: those of `stored` whose UID is in
   * `pending`, in folder order.
   */
  function Found(stored: seq<Uid>, pending: set<Uid>): (r: seq<Uid>)
    ensures forall u :: u in r <==> u in stored && u in pending
    ensures StrictlyIncreasing(stored) ==> StrictlyIncreasing(r)
    ensures |r| <= |stored|
  {
    if stored == [] then []
    else
      var rest := Found(stored[1..], pending);
      if stored[0] in pending then
        assert StrictlyIncreasing(stored) ==> forall k :: 0 <= k < |rest| ==> stored[0] < rest[k] by {
          if StrictlyIncreasing(stored) {
            forall k | 0 <= k < |rest| ensures stored[0] < rest[k] {
              assert rest[k] in stored[1..];
            }
          }
        }
        [stored[0]] + rest
      else rest
  }

  /** A search for no UIDs yields nothing. */
  lemma {:induction false} FoundNone(stored: seq<Uid>)
    ensures Found(stored, {}) == []
  {
    if stored != [] {
      FoundNone(stored[1..]);
    }
  }

  /** The host: its fixed outcomes and the trace of calls made on it. */
  class Host {
    const cfg: HostConfig
    var trace: seq<Event>

    constructor (cfg: HostConfig)
      ensures this.cfg == cfg && trace == []
    {
      this.cfg := cfg;
      trace := [];
    }

    /** Issues one call whose result the plugin does not inspect. */
    method Record(e: Event)
      modifies this
      ensures trace == old(trace) + [e]
    {
      trace := trace + [e];
    }

    /** mailbox_search_init over a UID set, with the messages it will yield. */
    method Search(pending: set<Uid>) returns (found: seq<Uid>)
      modifies this
      ensures trace == old(trace) + [SearchInit(pending)]
      ensures found == Found(cfg.stored, pending)
    {
      trace := trace + [SearchInit(pending)];
      found := Found(cfg.stored, pending);
    }
  }
}
