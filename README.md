# extra-copies: a Dafny model

`extra-copies` is a Dovecot mail-storage plugin. A folder gets extra copies
when it holds a file named `extra-copies` that lists other folders, one per
line. Every message saved into that folder during a session and still in it
at close is then copied into each listed folder when the folder is closed.

The model covers the four parts of `extra-copies.c` that carry this behaviour:

- The allocation hook. It opens the folder's `extra-copies` file, reads the
  destination list and installs two wrappers on the folder's operation table.
- The commit wrapper. It records the UIDs each successful commit saved into a
  pending set.
- The close wrapper. It searches the folder for the pending UIDs and copies
  every message found to every destination.
- `copy`. It makes one copy of one message into one destination. It logs
  and stops on the failures it checks for (namespace lookup, open, copy),
  and ignores the result of the final commit.

Dovecot itself is modelled by the `Host` class (`host.dfy`). Each storage call
the plugin makes, except the per-message `mailbox_search_next`, is appended to
the host's `trace` as an `Event`. The calls whose result the plugin examines
get their outcome from a fixed `HostConfig`:

- whether a destination name resolves to a namespace;
- whether a mailbox opens;
- which (message, destination) copies fail;
- which UIDs the folder holds, in ascending order.

The underlying commit's result and the UIDs it saved are arguments of the
commit methods (`superResult`, `savedUids`).

The methods that issue storage calls in sequence are each proved against a
function that gives the trace they produce: `Copy` against `CopyTrace`,
`CopyMessage` against `MessageTrace`, `CopyFound` against `FanOutTrace`,
`CopyPending` against `SearchTrace`, and `Close` against `CloseTrace`.
`Allocated` and the two `TransactionCommit` methods state their trace and
new state as explicit expressions. `ReadDestinations` issues no calls and is
proved equal to `NonEmptyLines`. The lemmas prove the plugin's guarantees
about those functions: the order of calls,
exactly-once behaviour, outcomes that exclude each other, and the set of copy
calls.

Files:

- `host.dfy`: module `HostModel`. It holds the events, the host outcomes, the
  UID search and the `Host` class.
- `destinations.dfy`: module `Destinations`. It holds the reading loop for the
  destination list.
- `copy.dfy`: module `CopyExecutor`. It holds `copy` and its outcomes.
- `fanout.dfy`: module `FanOut`. It holds the nested loop of close and the
  (message, destination) pairs it copies.
- `plugin.dfy`: module `ExtraCopies`. It holds the plugin context
  (`ExtraCopiesBox`), the two wrappers, and the mailbox with its hook
  (`Mailbox`).
- `sequences.dfy`: module `Sequences`. It holds one lemma, that concatenation
  is associative, which the trace proofs use at every step.

Three behaviours of the code are worth stating plainly:

- The wrappers are installed whenever the file opens, even when it has no
  non-empty line (extra-copies.c:205-211). The commit wrapper then adds
  nothing to the pending set, because the list is empty (line 83).
- Copies are only made at close. A commit never copies anything itself.
- The commit wrapper returns -1 or 0, not the underlying commit's own value
  (lines 80-87).

## Model

| member | source | states |
|---|---|---|
| HostModel.Found | extra-copies.c:104-118 | The UID-set search yields exactly the stored messages whose UID is pending, in folder order, strictly ascending when the folder is, and no more than the folder holds |
| HostModel.FoundNone | extra-copies.c:101-107 | A search for the empty UID set yields nothing |
| HostModel.Host.Search | extra-copies.c:115-118 | Starting the search records one search for exactly the given UIDs and yields the messages `Found` describes |
| Destinations.NonEmptyLines | extra-copies.c:188-200 | The destination list holds only non-empty lines of the file, and is no longer than the file |
| Destinations.NonEmptyLinesConcat | extra-copies.c:188-200 | Reading a file in two parts gives the two lists joined in order: the list keeps file order |
| Destinations.NonEmptyLinesOccurrences | extra-copies.c:189 | Each non-empty line occurs in the list exactly as often as in the file (duplicates kept), and the empty line never occurs |
| Destinations.NonEmptyLinesKeepsAll | extra-copies.c:189-192 | A file without empty lines gives exactly its lines, unchanged (no trimming) |
| Destinations.ReadDestinations | extra-copies.c:188-200 | The tail-append loop builds exactly `NonEmptyLines` of the lines read |
| CopyExecutor.Copy | extra-copies.c:33-69 | copy() makes exactly the calls of `CopyTrace`: namespace lookup, then either an error log, or allocation, open, the opened part or an open error, and the free |
| CopyExecutor.CopyOpened | extra-copies.c:51-65 | With the destination open: an external transaction, a save context, the flag copy and the mail copy, then either an error log and rollback, or a commit and the optional debug note |
| CopyExecutor.CopyOutcomeMarks | extra-copies.c:41-67 | Every copy() call ends in exactly the outcome the host's answers give. No call is made twice. Each error is logged exactly in its own outcome. The destination is allocated and freed exactly when the namespace resolved, and the free is the last call. A transaction is begun exactly on an open destination. It is rolled back exactly when the copy failed, and its commit is issued exactly when the copy succeeded |
| CopyExecutor.CopyStaysOffSource | extra-copies.c:41-67 | A copy() call makes none of the calls on the source mailbox handle (sync, read transaction, search, release, underlying commit or close) |
| FanOut.CopyTraceCopies | extra-copies.c:121 | One copy() call shows up as exactly one (message, destination) copy call |
| FanOut.DestTraceCopies | extra-copies.c:120-122 | The inner loop makes one copy() call per destination, in list order |
| FanOut.MessageTraceCopies | extra-copies.c:119-122 | The debug note adds no copy call to a message's copies |
| FanOut.FanOutCopies | extra-copies.c:118-123 | The nested loop makes exactly the copy() calls of `Pairs`: message by message, destinations in list order inside |
| FanOut.PairsLength | extra-copies.c:118-123 | The nested loop makes (number of found messages) × (number of destinations) copy() calls |
| FanOut.PairsAt | extra-copies.c:118-123 | Copy call number i·D + j, with D destinations, copies the i-th found message to the j-th destination |
| FanOut.PairsOccurrences | extra-copies.c:118-123 | A (message, destination) pair is copied as often as the message is found times as often as the destination is listed |
| FanOut.RowOccurrences | extra-copies.c:120-122 | For one message, a destination listed k times gets k copy calls, and other messages get none |
| FanOut.FanOutOffSource | extra-copies.c:118-123 | The nested loop makes none of the calls on the source mailbox handle |
| FanOut.DestTraceOffSource | extra-copies.c:120-122 | The inner loop makes none of the calls on the source mailbox handle |
| FanOut.CopyBalanced | extra-copies.c:46-67 | In one copy() call, each mailbox is freed exactly as often as it is allocated |
| FanOut.CopyTouchesOnlyItsDestination | extra-copies.c:46-67 | A copy() call allocates and frees no mailbox but its own destination |
| FanOut.FanOutBalanced | extra-copies.c:118-123 | Over the whole close-time loop, every destination mailbox is freed exactly as often as it is allocated |
| FanOut.DestTraceBalanced | extra-copies.c:120-122 | Over the inner loop, every destination mailbox is freed exactly as often as it is allocated |
| ExtraCopies.ExtraCopiesBox.constructor | extra-copies.c:178-180 | A new context has the given destination list and an empty pending set |
| ExtraCopies.ExtraCopiesBox.TransactionCommit | extra-copies.c:71-88 | The underlying commit runs first. If it fails, the wrapper returns -1 and the pending set is unchanged. Otherwise it returns 0, and the pending set becomes old ∪ saved UIDs when there are destinations and stays unchanged when there are none |
| ExtraCopies.ExtraCopiesBox.Close | extra-copies.c:90-129 | Close makes exactly the calls of `CloseTrace` for the pending set it found and leaves the pending set empty |
| ExtraCopies.ExtraCopiesBox.CopyPending | extra-copies.c:101-126 | With UIDs pending: a full sync, a read transaction, one search for exactly the pending UIDs, the loop over what it finds, the end of the search and the commit of the read transaction, as `SearchTrace` lists them |
| ExtraCopies.ExtraCopiesBox.CopyFound | extra-copies.c:118-123 | The outer loop makes exactly the calls of `FanOutTrace` for the found messages |
| ExtraCopies.ExtraCopiesBox.CopyMessage | extra-copies.c:119-122 | One turn of the outer loop gives the optional debug note, then copy() once per destination, in list order |
| ExtraCopies.Mailbox.Allocated | extra-copies.c:145-211 | Without a usable path, or with a file that cannot be opened, no context is attached and nothing is wrapped. A missing file leaves at most a debug note. Any other open error logs an error. Once the file opens, there is a fresh context with the file's non-empty lines and an empty pending set, and the wrappers are installed, even when the list is empty |
| ExtraCopies.Mailbox.TransactionCommit | extra-copies.c:71-88 | Commit goes through the wrapper exactly when it is installed. Without the wrapper it returns the underlying commit's own result |
| ExtraCopies.Mailbox.Close | extra-copies.c:90-129 | Close goes through the wrapper exactly when it is installed. Without the wrapper only the underlying close runs |
| ExtraCopies.CloseNothingPending | extra-copies.c:101-128 | With nothing pending, close only releases the pending set and runs the underlying close: no search and no copy call |
| ExtraCopies.CloseTraceShape | extra-copies.c:101-128 | With something pending: a full sync, a read transaction, the search, the loop, the end of the search, the commit of the read transaction, the release and the underlying close, in that order |
| ExtraCopies.CloseEndsWithSuperClose | extra-copies.c:127-128 | On every path, close releases the pending set and then runs the underlying close as its last call. Each happens exactly once |
| ExtraCopies.CloseSearchesPending | extra-copies.c:101-115 | Close searches exactly once when something is pending and never otherwise. Every search is for exactly the pending UIDs |
| ExtraCopies.CloseCopies | extra-copies.c:101-123 | The copy() calls of close are exactly the (found message, destination) pairs, destinations in list order inside each message, (number found) × (number of destinations) in all. The found messages are exactly the pending UIDs the folder holds, in ascending order |
| ExtraCopies.NothingPendingNoCopies | extra-copies.c:101 | With nothing pending, nothing is found and no copy() call is made |
| ExtraCopies.OneMessageTwoDestinations | extra-copies.c:118-123 | One pending stored message with destinations "Archive/All" and "Backup" is copied once to each, "Archive/All" first |

## Left out

- File and stream I/O (open, the buffered line reader, close) is not modelled. The hook receives the file as a `ConfigFile`: no path, missing (`ENOENT`/`ENOTDIR`), unreadable (any other error), or the lines already read. How the host's line reader splits the file, including a last line without a newline, is the host's business. Lines are taken as NUL-free strings.
- Mailbox name validation and path lookup (lines 145-161), including the Dovecot version branches, are reduced to the single `NoPath` case. The hook then returns without logging.
- The operation-table wiring (`super`, `vlast`, module contexts, lines 205-211) is reduced to the `wrapped` flag and the `ctx` field of `Mailbox`. Saving the previous operations appears as the underlying `SuperCommit`/`SuperClose` events.
- Destinations.ReadDestinations: the linked list with its `tail` pointer is modelled as a sequence that grows at its end. The nodes and their aliasing are not modelled.
- Storage internals are not modelled: `mail_namespace_find`, `mailbox_alloc`/`open`/`sync`/`free`, the transaction and save calls, `mailbox_copy`, and the search calls. Each is an event, except `mailbox_search_next`. The calls whose result the code examines (namespace lookup, open, `mailbox_copy`, the search) get an outcome fixed per argument by `HostConfig`. Repeating a call with the same arguments gives the same outcome. Mail contents and flags are not modelled.
- `seq_range_array_merge` and the range-array representation of the pending UIDs are not modelled. The pending UIDs are a set, and the merge is set union.
- HostModel.Found: `mailbox_search_next` (line 118) is not an event. The search yields all matches at once, so a search that stops early on an error is not modelled; the code would then copy only a prefix of the matches, and the only report of the failure is the ignored result of `mailbox_search_deinit` (line 124). The search is assumed to yield matching messages in folder order, with each UID at most once. UIDs are unbounded naturals, so the 32-bit limit of a UID is not modelled.
- Building and releasing the search arguments (`mail_search_build_init`, `mail_search_args_unref`) and memory pools are not modelled. Neither are the initial capacity of 128 of the pending array or the release of the file name.
- Log text and the `%m` error string are not modelled. Log lines are events that carry only what they report.
- Plugin registration and removal (`extra_copies_plugin_init`, `extra_copies_plugin_deinit`) are not modelled.
- ExtraCopies.ExtraCopiesBox.TransactionCommit: the null check on the context in line 83 is not modelled. The wrapper is only installed with a context attached, and line 80 already uses the context before that check.
- The `changes` structure of a commit is reduced to its saved UIDs.
- Ignored results: the code does not look at the result of the destination commit (line 63), the full sync (line 102), the end of the search (line 124) or the commit of the read transaction (line 125). The model gives these calls no outcome. So `Copied` means the mail copy succeeded and the commit was issued, not that the commit succeeded. After a failed destination commit, the code logs nothing, rolls nothing back and still prints the debug note.
- Re-entry into the plugin is not modelled. Every host call is a leaf event. In Dovecot, `mailbox_alloc` on a destination (line 46) runs this plugin's own allocation hook (lines 214-216) for that destination. A destination with its own `extra-copies` file then gets the wrappers too, and its commit (line 63) and close on free (line 67) go through `extra_copies_transaction_commit` and `extra_copies_close` for that destination. The read-transaction commit at line 125 goes through the source's own commit wrapper; it saves nothing. `CopyTrace`, `CloseTrace` and the lemmas about them, including the claim that the underlying close is the last call, hold on the assumption that no host call re-enters the plugin. A folder that lists itself, or two folders that list each other, may fan out again from inside copy(); the model does not capture that.
- The source-handle lemmas (`CopyStaysOffSource`, `FanOutOffSource`, `DestTraceOffSource`) speak of calls on the source mailbox handle. A destination may name the source folder itself. copy() then allocates, opens and commits on a second handle to that folder, and those calls are ordinary copy() events in the model.
- A mailbox before the hook runs (`Mailbox` constructor: no context, no wrappers) is the host's state, not code in this file.
- Calls on a mailbox after it is closed (the pending array is freed at line 127) are not modelled.
