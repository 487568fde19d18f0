/**
 * The plugin proper: the hook run when a mailbox is allocated, and the two
 * wrappers it installs on that mailbox's operation table (transaction
 * commit and close).
 */
module ExtraCopies {
  import opened HostModel
  import opened Destinations
  import opened CopyExecutor
  import opened FanOut
  import opened Sequences

  /**
   * What the allocation hook finds for a mailbox: no usable name or path
   * (the early returns before the file is opened), no `extra-copies` file,
   * a file that exists but cannot be opened, or the lines it holds.
   */
  datatype ConfigFile =
    | NoPath
    | Missing        // open failed with ENOENT or ENOTDIR
    | Unreadable     // open failed with any other error
    | Present(lines: seq<string>)

  /**
   * Close with `pending` as the set of UIDs saved during the session: the
   * search and the copies when it is not empty; then, on every path, the
   * pending set is released and the underlying close runs.
   */
  function CloseTrace(cfg: HostConfig, pending: set<Uid>, dests: seq<string>): seq<Event>
  {
    (if pending == {} then [] else SearchTrace(cfg, pending, dests)) + [PendingFree, SuperClose]
  }

  /**
   * The part of close that runs only when UIDs are pending: a full sync, a
   * read transaction, one search for exactly those UIDs, the fan-out over
   * what it finds, the end of the search and the commit of the read
   * transaction.
   */
  function SearchTrace(cfg: HostConfig, pending: set<Uid>, dests: seq<string>): seq<Event>
  {
    [SourceSync(true), SourceTransactionBegin, SearchInit(pending)]
    + FanOutTrace(cfg, Found(cfg.stored, pending), dests)
    + [SearchDeinit, SourceTransactionCommit]
  }

  /** The plugin's per-mailbox context. */
  class ExtraCopiesBox {
    /** The destination list, in file order; fixed once the file is read. */
    const dest: seq<string>
    /** UIDs saved by the commits of this session, not yet copied. */
    var newUids: set<Uid>

    constructor (dest: seq<string>)
      ensures this.dest == dest && newUids == {}
    {
      this.dest := dest;
      newUids := {};
    }

    /**
     * The commit wrapper: the underlying commit runs first, with result
     * `superResult`; only when it succeeds, and only when there are
     * destinations, are the UIDs it saved added to the pending set.
     */
    method TransactionCommit(host: Host, superResult: int, savedUids: set<Uid>) returns (r: int)
      modifies this, host
      ensures host.trace == old(host.trace) + [SuperCommit]
      ensures superResult < 0 ==> r == -1 && newUids == old(newUids)
      ensures superResult >= 0 ==> r == 0
      ensures superResult >= 0 && dest != [] ==> newUids == old(newUids) + savedUids
      ensures superResult >= 0 && dest == [] ==> newUids == old(newUids)
    {
      host.Record(SuperCommit);
      if superResult < 0 {
        return -1;
      }
      if dest != [] {
        newUids := newUids + savedUids;
      }
      return 0;
    }

    /**
     * The close wrapper: copy every pending message that the search finds to
     * every destination, then release the pending set and close.
     */
    method Close(host: Host)
      modifies this, host
      ensures host.trace == old(host.trace) + CloseTrace(host.cfg, old(newUids), dest)
      ensures newUids == {}
    {
      if newUids != {} {
        CopyPending(host);
      }
      newUids := {};
      host.Record(PendingFree);
      host.Record(SuperClose);
    }

    /** Close while UIDs are pending: the search and the copies. */
    method CopyPending(host: Host)
      modifies host
      ensures host.trace == old(host.trace) + SearchTrace(host.cfg, newUids, dest)
    {
      ghost var pre := [SourceSync(true), SourceTransactionBegin, SearchInit(newUids)];
      ghost var post := [SearchDeinit, SourceTransactionCommit];
      host.Record(SourceSync(true));
      host.Record(SourceTransactionBegin);
      var found := host.Search(newUids);
      assert host.trace == old(host.trace) + pre;
      ghost var fan := FanOutTrace(host.cfg, found, dest);
      CopyFound(host, found);
      ghost var copied := host.trace;
      host.Record(SearchDeinit);
      host.Record(SourceTransactionCommit);
      assert host.trace == copied + post;
      AppendAssoc(old(host.trace), pre, fan);
      AppendAssoc(old(host.trace), pre + fan, post);
    }

    /** The outer loop of close: every message the search yields, in order. */
    method CopyFound(host: Host, found: seq<Uid>)
      modifies host
      ensures host.trace == old(host.trace) + FanOutTrace(host.cfg, found, dest)
    {
      var i := 0;
      while i < |found|
        invariant 0 <= i <= |found|
        invariant host.trace == old(host.trace) + FanOutTrace(host.cfg, found[..i], dest)
      {
        CopyMessage(host, found[i]);
        FanOutTraceStep(host.cfg, found, dest, i);
        AppendAssoc(old(host.trace), FanOutTrace(host.cfg, found[..i], dest), MessageTrace(host.cfg, found[i], dest));
        i := i + 1;
      }
      assert found[..i] == found;
    }

    /**
     * The body of the outer loop: the debug note, then copy() once per
     * destination, in list order.
     */
    method CopyMessage(host: Host, uid: Uid)
      modifies host
      ensures host.trace == old(host.trace) + MessageTrace(host.cfg, uid, dest)
    {
      if host.cfg.debug {
        host.Record(Log(Debug, WillCopy(uid)));
      }
      ghost var noted := host.trace;
      for j := 0 to |dest|
        invariant host.trace == noted + DestTrace(host.cfg, uid, dest[..j])
      {
        Copy(host, uid, dest[j]);
        DestTraceStep(host.cfg, uid, dest, j);
        AppendAssoc(noted, DestTrace(host.cfg, uid, dest[..j]), CopyTrace(host.cfg, uid, dest[j]));
      }
      assert dest[..|dest|] == dest;
    }
  }

  /**
   * A mailbox as far as the plugin sees it: whether its commit and close
   * entries point to the wrappers (with the previous entries kept as the
   * underlying operations), and the plugin's context attached to it.
   */
  class Mailbox {
    var wrapped: bool
    var ctx: ExtraCopiesBox?

    /** The wrappers are installed exactly when a context is attached. */
    ghost predicate Valid()
      reads this
    {
      wrapped <==> ctx != null
    }

    /** A freshly allocated mailbox, before the hook runs. */
    constructor ()
      ensures Valid() && !wrapped && ctx == null
    {
      wrapped := false;
      ctx := null;
    }

    /**
     * The allocation hook. Without a readable `extra-copies` file nothing is
     * attached or wrapped; a missing file is at most noted in the debug log,
     * any other open failure is logged as an error. Once the file opens, a
     * context with its destination list and an empty pending set is attached
     * and the wrappers are installed, even if the list is empty.
     */
    method Allocated(host: Host, file: ConfigFile)
      modifies this, host
      ensures !file.Present? ==> wrapped == old(wrapped) && ctx == old(ctx)
      ensures file.NoPath? ==> host.trace == old(host.trace)
      ensures file.Missing? ==>
        host.trace == old(host.trace) + (if host.cfg.debug then [Log(Debug, ConfigNotFound)] else [])
      ensures file.Unreadable? ==> host.trace == old(host.trace) + [Log(Error, ConfigOpenFailed)]
      ensures file.Present? ==>
        && wrapped && ctx != null && fresh(ctx)
        && ctx.dest == NonEmptyLines(file.lines) && ctx.newUids == {}
        && host.trace == old(host.trace) + (if host.cfg.debug then [Log(Debug, ReadingConfig)] else [])
      ensures old(Valid()) ==> Valid()
    {
      match file
      case NoPath =>
        return;
      case Missing =>
        if host.cfg.debug {
          host.Record(Log(Debug, ConfigNotFound));
        }
        return;
      case Unreadable =>
        host.Record(Log(Error, ConfigOpenFailed));
        return;
      case Present(lines) =>
        if host.cfg.debug {
          host.Record(Log(Debug, ReadingConfig));
        }
        var dest := ReadDestinations(lines);
        var box := new ExtraCopiesBox(dest);
        wrapped := true;
        ctx := box;
    }

    /**
     * The mailbox's commit entry: the underlying commit alone when the
     * wrappers are not installed, the commit wrapper otherwise.
     */
    method TransactionCommit(host: Host, superResult: int, savedUids: set<Uid>) returns (r: int)
      requires Valid()
      modifies host, ctx
      ensures Valid() && wrapped == old(wrapped) && ctx == old(ctx)
      ensures host.trace == old(host.trace) + [SuperCommit]
      ensures !wrapped ==> r == superResult
      ensures wrapped ==> r == (if superResult < 0 then -1 else 0)
      ensures wrapped ==>
        ctx.newUids == (if superResult >= 0 && ctx.dest != [] then old(ctx.newUids) + savedUids else old(ctx.newUids))
    {
      if !wrapped {
        host.Record(SuperCommit);
        r := superResult;
      } else {
        r := ctx.TransactionCommit(host, superResult, savedUids);
      }
    }

    /**
     * The mailbox's close entry: the underlying close alone when the
     * wrappers are not installed, the close wrapper otherwise.
     */
    method Close(host: Host)
      requires Valid()
      modifies host, ctx
      ensures Valid() && wrapped == old(wrapped) && ctx == old(ctx)
      ensures !wrapped ==> host.trace == old(host.trace) + [SuperClose]
      ensures wrapped ==> host.trace == old(host.trace) + CloseTrace(host.cfg, old(ctx.newUids), ctx.dest)
      ensures wrapped ==> ctx.newUids == {}
    {
      if !wrapped {
        host.Record(SuperClose);
      } else {
        ctx.Close(host);
      }
    }
  }

  /** With nothing pending, close makes no search and no copy call. */
  lemma CloseNothingPending(cfg: HostConfig, dests: seq<string>)
    ensures CloseTrace(cfg, {}, dests) == [PendingFree, SuperClose]
  {
  }

  /** What close does around the fan-out when something is pending. */
  lemma CloseTraceShape(cfg: HostConfig, pending: set<Uid>, dests: seq<string>)
    requires pending != {}
    ensures CloseTrace(cfg, pending, dests) ==
      [SourceSync(true), SourceTransactionBegin, SearchInit(pending)]
      + FanOutTrace(cfg, Found(cfg.stored, pending), dests)
      + [SearchDeinit, SourceTransactionCommit, PendingFree, SuperClose]
  {
  }

  /** The source-folder calls around a fan-out that makes none of its own. */
  lemma SourceCallsAround(pending: set<Uid>, fan: seq<Event>, t: seq<Event>)
    requires forall e :: e in fan ==> !OnSource(e)
    requires t == [SourceSync(true), SourceTransactionBegin, SearchInit(pending)] + fan
      + [SearchDeinit, SourceTransactionCommit, PendingFree, SuperClose]
    ensures |t| >= 2 && t[|t| - 2] == PendingFree && t[|t| - 1] == SuperClose
    ensures multiset(t)[PendingFree] == 1 && multiset(t)[SuperClose] == 1
    ensures multiset(t)[SearchInit(pending)] == 1
    ensures forall e :: e in t && e.SearchInit? ==> e == SearchInit(pending)
  {
    var pre := [SourceSync(true), SourceTransactionBegin, SearchInit(pending)];
    var post := [SearchDeinit, SourceTransactionCommit, PendingFree, SuperClose];
    assert OnSource(PendingFree) && OnSource(SuperClose) && OnSource(SearchInit(pending));
    assert multiset(t) == multiset(pre) + multiset(fan) + multiset(post);
    assert multiset(fan)[PendingFree] == 0 && multiset(fan)[SuperClose] == 0;
    assert multiset(fan)[SearchInit(pending)] == 0;
    forall e | e in t && e.SearchInit? ensures e == SearchInit(pending) {
      assert e in pre || e in fan || e in post;
    }
  }

  /**
   * On every path close releases the pending set and then runs the
   * underlying close, exactly once each, the underlying close last.
   */
  lemma CloseEndsWithSuperClose(cfg: HostConfig, pending: set<Uid>, dests: seq<string>)
    ensures var t := CloseTrace(cfg, pending, dests);
      && |t| >= 2 && t[|t| - 2] == PendingFree && t[|t| - 1] == SuperClose
      && multiset(t)[PendingFree] == 1 && multiset(t)[SuperClose] == 1
  {
    if pending != {} {
      CloseTraceShape(cfg, pending, dests);
      FanOutOffSource(cfg, Found(cfg.stored, pending), dests);
      SourceCallsAround(pending, FanOutTrace(cfg, Found(cfg.stored, pending), dests), CloseTrace(cfg, pending, dests));
    }
  }

  /**
   * Close searches exactly once when something is pending and never
   * otherwise, and only for the pending UIDs.
   */
  lemma CloseSearchesPending(cfg: HostConfig, pending: set<Uid>, dests: seq<string>)
    ensures var t := CloseTrace(cfg, pending, dests);
      && (forall e :: e in t && e.SearchInit? ==> e.uids == pending && pending != {})
      && multiset(t)[SearchInit(pending)] == (if pending == {} then 0 else 1)
  {
    if pending != {} {
      CloseTraceShape(cfg, pending, dests);
      FanOutOffSource(cfg, Found(cfg.stored, pending), dests);
      SourceCallsAround(pending, FanOutTrace(cfg, Found(cfg.stored, pending), dests), CloseTrace(cfg, pending, dests));
    }
  }

  /** The copy() calls of close are those of its fan-out. */
  lemma CopiesAround(pending: set<Uid>, fan: seq<Event>, t: seq<Event>)
    requires t == [SourceSync(true), SourceTransactionBegin, SearchInit(pending)] + fan
      + [SearchDeinit, SourceTransactionCommit, PendingFree, SuperClose]
    ensures Copies(t) == Copies(fan)
  {
    var pre := [SourceSync(true), SourceTransactionBegin, SearchInit(pending)];
    var post := [SearchDeinit, SourceTransactionCommit, PendingFree, SuperClose];
    AppendAssoc(pre, fan, post);
    CopiesConcat(pre, fan + post);
    CopiesConcat(fan, post);
    NoCopies(pre);
    NoCopies(post);
  }

  /**
   * Close makes one copy() call per (found message, destination) pair:
   * messages in ascending UID order, each one a pending UID stored in the
   * folder, and destinations in list order inside each message, for
   * |found| × |destinations| calls in all.
   */
  lemma CloseCopies(cfg: HostConfig, pending: set<Uid>, dests: seq<string>)
    requires cfg.Valid()
    ensures var found, t := Found(cfg.stored, pending), CloseTrace(cfg, pending, dests);
      && Copies(t) == Pairs(found, dests)
      && |Copies(t)| == |found| * |dests|
      && StrictlyIncreasing(found)
      && (forall u :: u in found <==> u in pending && u in cfg.stored)
  {
    var found := Found(cfg.stored, pending);
    if pending == {} {
      NothingPendingNoCopies(cfg, dests);
    } else {
      CloseTraceShape(cfg, pending, dests);
      CopiesAround(pending, FanOutTrace(cfg, found, dests), CloseTrace(cfg, pending, dests));
      FanOutCopies(cfg, found, dests);
    }
    PairsLength(found, dests);
  }

  /** With nothing pending the search finds nothing and close copies nothing. */
  lemma NothingPendingNoCopies(cfg: HostConfig, dests: seq<string>)
    ensures Found(cfg.stored, {}) == []
    ensures Copies(CloseTrace(cfg, {}, dests)) == Pairs([], dests)
  {
    FoundNone(cfg.stored);
    assert CloseTrace(cfg, {}, dests) == [PendingFree, SuperClose];
    NoCopies([PendingFree, SuperClose]);
  }

  /**
   * A folder with destinations "Archive/All" and "Backup" and one pending,
   * stored UID copies that message once to each, "Archive/All" first.
   */
  lemma OneMessageTwoDestinations(cfg: HostConfig, uid: Uid)
    requires cfg.Valid() && uid in cfg.stored
    ensures Copies(CloseTrace(cfg, {uid}, ["Archive/All", "Backup"])) == [(uid, "Archive/All"), (uid, "Backup")]
  {
    var found := Found(cfg.stored, {uid});
    CloseCopies(cfg, {uid}, ["Archive/All", "Backup"]);
    SingleFound(found, uid);
    assert Pairs(found, ["Archive/All", "Backup"]) == Pairs([], ["Archive/All", "Backup"]) + Row(uid, ["Archive/All", "Backup"]);
  }

  /** A strictly ascending sequence holding only `uid`, and holding it, is [uid]. */
  lemma SingleFound(found: seq<Uid>, uid: Uid)
    requires StrictlyIncreasing(found)
    requires forall u :: u in found <==> u == uid
    ensures found == [uid]
  {
    assert uid in found;
    if |found| > 1 {
      TwoMembers(found);
      assert false;
    }
  }

  lemma TwoMembers(s: seq<Uid>)
    requires |s| > 1 && StrictlyIncreasing(s)
    ensures exists a, b :: a in s && b in s && a < b
  {
    assert s[0] in s && s[1] in s;
  }
}
