# CAPIO streaming core: a Dafny model

CAPIO lets the steps of a workflow stream files to each other. A client library
intercepts system calls and sends text requests over a shared-memory queue; a
server decides when each blocked reader may go on. This project models five
linked parts of it and proves what they keep over whole runs.

1. **The ring queue.** `QueueProtocol` is a state machine of any number of
   processes inside `_read` and `_write`: wait, lock, copy, advance, post,
   unlock, with the post before the unlock. It covers the queue with a mutex
   and the single-producer single-consumer queue without one. `ByteQueue` is
   the buffer itself, with its byte offsets and the loops that cut a buffer of
   any length into elements. `QueueRuns` follows the elements through whole
   runs, from the call of a writer to the buffer of a reader.
2. **The server.** `CommitRules` says when a path is committed and proves the
   recursion of `isCommitted` against that meaning. `ServerState` gives the
   state of the server as one value and one function per handler; `Server`
   holds the objects and handlers that change in place, each proved against
   its function; `Monitor` is the polling pass; `LockFile` is the close counter
   shared between servers; `ServerRuns` is what holds over runs of requests
   and polls.
3. **The clients together with the server.** `Places` follows one thread
   through every operation of the server. `WholeSystem` adds cloning, the
   request queue and the exit of threads, and proves that every blocking
   request is answered once, that no lookup fails, and why an answer was given.
   `SystemRuns` says what clients can always do, and that the queue is what
   they sent. `Guarantees` shows that the handlers and the monitor, as methods, may run in
   every state reached; `DeferredReads` says when a deferred read gets the data
   it asked for.
4. **The client caches.** `WriteCache` (no byte lost, none reordered) and
   `ReadCache`; `CachedReads` puts the read caches into the whole system and
   proves that a read they let through would have been answered at once, and
   exactly what of the files this relies on.
5. **The client's descriptor tables and the request text.** `Descriptors` and
   `DescriptorTables` (three maps and the shared offsets), `RequestCodec`
   (sprintf on one side, a code and sscanf on the other).

`Types`, `Requests`, `Modular` and `ServerFacts` hold what these share.
`dafny verify dfyconfig.toml` checks everything.

## How to read the model

* A step of the server is given an `Env`: the files as they are at that step,
  the order in which an `unordered_map` happens to be walked, and two fixed
  predicates, for `match_globs` and for `fileToBeHandled`. The properties hold
  for every choice of them.
* `Committed` is declarative: every path reachable through on_file
  dependencies that is a directory or has another rule meets its own rule.
  Acyclic dependencies are asked for exactly where the code recurses.
* Directories keep their entries in the statements about permanence. A
  directory may be created empty and fill up later. The one thing that undoes
  a commitment is a committed name that becomes a directory with fewer entries
  than configured (`CommitRules.NewDirectoryUncommits`);
  `CommitRules.PermanenceExactly` and `ServerRuns.PermanentExactlyWhenSteady`
  show that ruling this out is exactly what permanence needs.
* In `WholeSystem` the log of all requests ever queued is kept and the server
  has taken the first `head` of them, so the queue is the rest.

## Where the code departs from its intent

The model follows the code in all of these.

* A deferred request for data is released by comparing the thread id, not the
  size waited for, with the size of the file
  (src/server/file-manager/file_manager_impl.hpp:80).
  `DeferredReads.EmptyFileIsReleased` is a thread that waits for data of an
  empty file and is answered 0;
  `DeferredReads.DeferredReadsGetEnoughExactly` says when this cannot happen.
* A deferred answer carries the file size even when the file is committed,
  where an immediate one carries the greatest 64-bit number:
  `DeferredReads.DeferredAnswerSaysCommittedExactly`, and
  `DeferredReads.DeferredAnswerHidesCommitment` for one file.
* What the server granted is never taken back from a cache. A file read while
  committed is read on after a directory it depends on was created empty, where
  the server would hold the read back: `CachedReads.CacheOutlivesCommitment`.
  `CachedReads.SkipsAreSafeExactly` says when a cache is safe.
* `read_request` uses its path after moving it
  (src/posix/utils/cache.hpp:91,116-119), so the answer got on turning to a
  file is stored under the empty path: `ReadCache.TurningAwayExactly`, and
  `ReadCache.CommittedIsForgotten` for two reads.
* The arguments of write requests are permuted at
  src/posix/utils/cache.hpp:49 and src/posix/handlers/write.hpp:14. The cache
  is modelled by the roles its own parameters name;
  `WriteCache.CapioWritesOnTheWire` says what both permutations together send,
  `WriteCache.CapioWritesMeantExactly` when that is the line meant, and
  `WriteCache.HundredBytesReportedAsThousand` is one write where it is not.
* `insert` and `emplace` never overwrite
  (src/posix/utils/filesystem.hpp:64-66,173-175,271). After open a, close a,
  open b, rename b to a, the descriptor of b has an entry and cannot be closed
  (`Descriptors.RenameOntoClosedPath`), because closing leaves the empty set of
  a behind. A dup2 onto an open descriptor, which the handler does not delete
  first (src/posix/handlers/dup.hpp:36-44), shares no offset
  (`Descriptors.DupOntoOpenDescriptor`). `Descriptors.InverseExactly` and
  `Descriptors.TablesFollowTheRunExactly` say for which runs the tables hold.
* The comment in src/server/client-manager/handlers/exit.hpp:10-13 counts all
  files as committed at exit. An exit commits exactly the list of produced files
  (`ServerRuns.ExitCommitsExactlyTheList`), and `add_producer_file_path` is
  never called, so in every reachable state it commits nothing
  (`Guarantees.ExitsCommitNothing`). A file with the default rule is therefore
  never committed by a run (`ServerRuns.TerminationCommitsExactly`).
* A close first makes sure of the token and wakes waiters, and raises the count
  afterwards: `ServerRuns.CloseWakesExactly` beside
  `ServerRuns.CloseCommitsExactly`, and `ServerRuns.CompletingCloseLeavesReader`
  for a file that needs one close.
* The name of a client stays after its exit
  (src/server/client-manager/client_manager.hpp:52-60):
  `ServerRuns.RecycledTidKeepsItsName`, `ServerRuns.RecycledTidHasOldName`.
* The count is rewritten by truncating the token file first, so a server that
  takes no lock reads 0 in between: `LockFile.TokenExactly`. `isCommitted` is
  such a reader: `LockFile.JudgedWronglyExactly`.
* `addProducer` strips white space from the name and `isProducer` does not:
  `ServerRuns.CreatorIsProducer`, `ServerRuns.BlankNameIsNoProducer`.
* The check `code > CAPIO_NR_REQUESTS` lets one code too many through, and code
  1 has no handler; the decoder returns nothing for both.

## Model

| member | source | states |
|---|---|---|
| QueueProtocol.StepInv | src/common/capio/queue.hpp:25-45 | every single step of any process keeps the accounting of both semaphores, mutual exclusion on each side, both indices and the stored elements |
| QueueProtocol.StepBalance | src/common/capio/queue.hpp:25-45 | the element semaphore counts the elements written and posted minus those claimed by readers, and the room semaphore the rest, at every step |
| QueueProtocol.StepExclusiveMutex | src/common/capio/queue.hpp:28-39 | with the mutex at most one process at all is between lock and unlock |
| QueueProtocol.StepExclusiveNoLock | src/common/capio/semaphore.hpp:10-24 | without the mutex, one reader and one writer are still each alone on their side |
| QueueProtocol.CopySlots | src/common/capio/queue.hpp:29-41 | whoever is about to copy stands exactly on the slot of the next element to read, or of the next to write, and there is one, or room for one |
| QueueProtocol.WriteStored | src/common/capio/queue.hpp:40-41 | a copy into the buffer leaves every unread element in its slot |
| QueueProtocol.ReadsAreAPrefix | src/common/capio/queue.hpp:25-45 | under every interleaving of any number of readers and writers the elements read are a prefix of the elements written, the rest is intact, and no more than the capacity is unread |
| QueueRuns.WrittenIsWhatWasGiven | src/common/capio/queue.hpp:36-45 | over every run, what was written are the elements the writers were called with, in the order of their copies, and what was read is the beginning of it, as long as the number of copies by readers |
| QueueRuns.ReadersGetTheirTurn | src/common/capio/queue.hpp:25-34 | over every run, the k-th reader to copy holds, until it returns, the k-th element the writers were called with |
| QueueRuns.WritersKeepTheirElement | src/common/capio/queue.hpp:36-45 | over every run, a writer holds the element it was last called with until it returns |
| QueueRuns.CopyMovesTheElement | src/common/capio/queue.hpp:29-41 | in every reachable state a reader's copy puts the oldest unread element into the reader's buffer, and a writer's copy puts the writer's element into the slot and behind those written |
| QueueProtocol.WritesHitFreeSlots | src/common/capio/queue.hpp:36-45 | a writer about to copy never stands on a slot whose element is unread or still being released |
| QueueProtocol.CopiesAreDisjoint | src/common/capio/queue.hpp:161-162 | a reader and a writer that copy at once exist only without a lock, and stand on different slots |
| QueueProtocol.SemaphoresConserveCapacity | src/common/capio/queue.hpp:25-56 | in every reachable state both semaphores and the processes between wait and post add up to the capacity |
| QueueProtocol.BlockedExactly | src/common/capio/semaphore.hpp:56-70 | in every reachable state a process in the middle of an operation has no step if and only if it waits on an empty semaphore or for the mutex |
| QueueProtocol.StuckMeansFullOrEmpty | src/common/capio/queue.hpp:25-45 | all processes are blocked only if all are writers on a full buffer or all are readers on an empty one |
| ByteQueue.Queue.constructor | src/common/capio/queue.hpp:48-72 | a new queue is empty and has room for all its elements |
| ByteQueue.Queue.WriteElem | src/common/capio/queue.hpp:36-45 | appends one element that starts with the bytes given and keeps all others |
| ByteQueue.Queue.ReadElem | src/common/capio/queue.hpp:25-34 | takes the oldest element away and overwrites exactly the asked part of the target with its first bytes |
| ByteQueue.Queue.WriteFull | src/common/capio/queue.hpp:141-146 | the full chunks appended carry exactly the data, in order |
| ByteQueue.Queue.Write | src/common/capio/queue.hpp:138-150 | keeps what was queued and appends the least number of elements that carry the data, in order |
| ByteQueue.Queue.ReadFull | src/common/capio/queue.hpp:108-113 | the target starts with the bytes of the oldest elements, which are gone, and is otherwise untouched |
| ByteQueue.Queue.Read | src/common/capio/queue.hpp:104-117 | fills the target with the bytes of the oldest elements, takes exactly those away, and touches nothing behind |
| ByteQueue.WriteAppends | src/common/capio/queue.hpp:40-42 | writing into the first free slot of the ring appends one element in queue order, wrapping around |
| ByteQueue.Dropped | src/common/capio/queue.hpp:29-31 | moving the read offset on by one element modulo the buffer drops exactly the oldest element |
| LockFile.StepInv | src/server/utils/distributed_semaphore.hpp:9-33 | every step of any server keeps one holder, an existing lock file exactly while there is one, and a current count in the holder's hands |
| LockFile.AtMostOneHolder | src/server/utils/distributed_semaphore.hpp:9-33 | over every run of any number of servers the lock file has at most one holder |
| LockFile.TokenExactly | src/server/file-manager/file_manager_impl.hpp:121-142 | over every run of any number of servers the token reads 0 while one of them is between truncating and rewriting, and otherwise the count found plus the number of completed increments |
| LockFile.JudgedWronglyExactly | src/server/file-manager/file_manager_impl.hpp:207-224 | over every run, a file with rule on_close:n is judged by the token otherwise than by its true count if and only if a server is in the middle of a rewrite, n is above 0 and the count has reached n; it is then taken for uncommitted |
| LockFile.LoneServerCompletes | src/server/utils/distributed_semaphore.hpp:9-33 | from any reachable state with a free lock a spinning server gets through all its steps and leaves the lock free and the count raised |
| LockFile.OutsiderTries | src/server/utils/distributed_semaphore.hpp:36-42 | a server outside may always start to try for the lock, which changes nothing else |
| LockFile.OthersSpin | src/server/utils/distributed_semaphore.hpp:12-15 | while the lock file exists a server that tries for it goes on trying and changes nothing |
| CommitRules.IsCommitted | src/server/file-manager/file_manager_impl.hpp:164-234 | with acyclic dependencies it terminates and is true exactly when every leaf reachable through on_file dependencies meets its own rule |
| CommitRules.DepsCommitted | src/server/file-manager/file_manager_impl.hpp:194-205 | the loop that stops asking at the first uncommitted dependency decides whether all of them are committed |
| CommitRules.CommittedByEntry | src/server/file-manager/file_manager_impl.hpp:164-234 | read off the entry itself: a directory is judged by its configured number of entries, 0 without an entry; a file without an entry by its token; any other by its rule, on_file over every one of the listed dependencies |
| CommitRules.EveryDependencyCounts | src/server/file-manager/file_manager_impl.hpp:197-199 | an uncommitted dependency at any position of the list keeps an on_file file uncommitted |
| CommitRules.LeafCommitted | src/server/file-manager/file_manager_impl.hpp:167-233 | a directory or a file with another rule than on_file is committed exactly when it meets its own rule |
| CommitRules.DependentCommitted | src/server/file-manager/file_manager_impl.hpp:194-205 | an on_file path is committed exactly when all its dependencies are |
| CommitRules.PathStaysCommittedExactly | src/server/capio-cl-engine/capio_cl_engine.hpp:133-158 | when entries are added with any inherited rule, tokens grow and directories keep their entries, a committed path stays committed if and only if no directory that is new below it lacks entries |
| CommitRules.PermanenceExactly | src/server/file-manager/file_manager_impl.hpp:164-234 | under the same growth every committed path stays committed if and only if every committed path that becomes a directory has its configured number of entries when it does |
| CommitRules.CommittedStays | src/server/capio-cl-engine/capio_cl_engine.hpp:133-158 | under that condition on committed paths a committed path stays committed; uncommitted directories may be created empty |
| CommitRules.NewDirectoryUncommits | src/server/file-manager/file_manager_impl.hpp:167-183 | the input at which permanence fails: a committed name that becomes an empty directory with a count is not committed any more |
| CommitRules.OnCloseCommitted | src/server/file-manager/file_manager_impl.hpp:207-230 | a file with rule on_close is committed exactly when its token exists and, if the rule has a number, holds at least that count |
| CommitRules.GrowthKeepsAcyclic | src/server/capio-cl-engine/capio_cl_engine.hpp:153-156 | entries made for new files never close a cycle of dependencies |
| ServerRuns.RegisterAddsOnly | src/server/client-manager/client_manager.hpp:36-45 | a handshake leaves every other thread's queue, list and name alone, and also those of a thread already known; a new thread gets an empty queue and its name |
| ServerRuns.HandshakeNames | src/server/client-manager/handlers/handshake.hpp:6-19 | a new thread has the name of its named handshake, or the default name, an empty queue and an empty list, and nothing else changes |
| ServerRuns.ExitUndoesHandshakeExactly | src/server/client-manager/client_manager.hpp:36-60 | an exit right after a handshake gives back the state before it if and only if the thread was not registered and its name was already there: the name is what an exit leaves behind |
| Server.ClientManager.ReplyToClient | src/server/client-manager/client_manager.hpp:68-72 | the answer goes to the end of the response queue of this thread only |
| Server.CapioCLEngine.NewFileEntry | src/server/capio-cl-engine/capio_cl_engine.hpp:133-158 | the loop over the entries adds a missing path with the rules of the longest matching directory key and changes no other entry |
| Server.CapioCLEngine.AddProducerTo | src/server/capio-cl-engine/capio_cl_engine.hpp:167-174 | the name without its blanks becomes the last producer of the path, which gets an entry first if it has none |
| Server.CapioCLEngine.IsProducerOf | src/server/capio-cl-engine/capio_cl_engine.hpp:294-327 | decides whether the name of the thread is among the producers of the exact entry, or else of the first matching one |
| Server.CapioFileManager.AddThreadAwaitingCreation | src/server/file-manager/file_manager_impl.hpp:28-33 | appends the thread to the list of the path |
| Server.CapioFileManager.UnlockThreadAwaitingCreation | src/server/file-manager/file_manager_impl.hpp:35-45 | answers every listed waiter once in order with 1 and removes the list |
| Server.CapioFileManager.AddThreadAwaitingData | src/server/file-manager/file_manager_impl.hpp:54-61 | adds the thread with its size unless it already waits there |
| Server.CapioFileManager.LockCondition | src/server/file-manager/file_manager_impl.hpp:75-83 | decides the release condition: committed, producer, or no_update with a thread id not below the size |
| Server.CapioFileManager.AnswerWaiters | src/server/file-manager/file_manager_impl.hpp:71-109 | the erase-while-iterating loop answers exactly the waiters that may be released, each once, and keeps the others with their sizes |
| Server.CapioFileManager.CheckAndUnlockThreadAwaitingData | src/server/file-manager/file_manager_impl.hpp:64-119 | the same in the wait map, where no empty inner map is left for the path |
| Server.CapioFileManager.SetCommittedPath | src/server/file-manager/file_manager_impl.hpp:144-153 | makes sure of the token, then releases the data waiters, then the creation waiters of the path |
| Server.CapioFileManager.SetCommittedByTid | src/server/file-manager/file_manager_impl.hpp:155-162 | commits the files of the thread one after the other |
| Server.CapioFileManager.IncreaseCloseCountOf | src/server/file-manager/file_manager_impl.hpp:121-142 | raises the count in the token by one, a missing token counting as 0 |
| Server.ConsentToProceedHandler | src/server/client-manager/handlers/consent.hpp:7-44 | answers at once exactly when the path is not handled, the sender produces it, or it exists and is committed or no_update; otherwise the sender waits with size 0 |
| Server.CloseHandler | src/server/client-manager/handlers/close.hpp:4-33 | for a handled on_close path closed by a producer, commits and then counts; otherwise nothing changes |
| Server.CreateHandler | src/server/client-manager/handlers/create.hpp:4-12 | answers the creation waiters of the path and makes the sender's application a producer of it |
| Server.OpenHandler | src/server/client-manager/handlers/open.hpp:3-15 | answers if the path exists or the sender produces it, otherwise the sender waits for its creation |
| Server.ReadHandler | src/server/client-manager/handlers/read.hpp:5-32 | answers with the size or the greatest number, or lets the sender wait with the end it asked for |
| Server.ExitHandler | src/server/client-manager/handlers/exit.hpp:4-16 | commits the files of the sender and removes it |
| Server.WriteHandler | src/server/client-manager/handlers/write.hpp:5-21 | releases the data waiters of a handled path |
| Server.RenameHandler | src/server/client-manager/handlers/rename.hpp:4-11 | answers the creation waiters of the new path |
| Server.HandshakeHandler | src/server/client-manager/handlers/handshake.hpp:6-19 | registers the thread under the name given or the default one |
| Server.Dispatch | src/server/client-manager/request_handler_engine.hpp:27-43 | every request kind reaches its handler and has that handler's whole effect |
| ServerFacts.UnlockDataAnswers | src/server/file-manager/file_manager_impl.hpp:64-119 | releasing data waiters adds no waiter, changes no waiter that stays, and leaves clients, rules, tokens and creation waiters alone |
| ServerFacts.SetAllCommittedGrows | src/server/file-manager/file_manager_impl.hpp:144-162 | committing any list of files only takes waiters away and never lowers a token |
| Monitor.MonitorPass | src/server/file-manager/fs_monitor.hpp:27-44 | one pass over frozen files answers exactly the creation waiters of existing paths and the releasable data waiters of existing paths, and keeps all others with their sizes |
| Monitor.CreationPass | src/server/file-manager/fs_monitor.hpp:27-34 | the first loop answers every creation waiter of an existing path once and touches no data waiter |
| Monitor.DataPass | src/server/file-manager/fs_monitor.hpp:36-44 | the second loop completes the pass, judging every waiter by the state the pass began with |
| Monitor.PassForDataWaiter | src/server/file-manager/fs_monitor.hpp:36-44 | a data waiter gets one answer with the size if its path exists and its condition holds, and otherwise none, and stays with its size |
| Monitor.PassForCreationWaiter | src/server/file-manager/fs_monitor.hpp:27-34 | a creation waiter gets the answer 1 exactly when the path exists, and its list stays whole otherwise |
| Monitor.PassLeavesNoEmptyWaiters | src/server/file-manager/file_manager_impl.hpp:113-116 | after a pass no path is left with an empty map of waiters |
| ServerRuns.ApplyGrows | src/server/client-manager/handlers/create.hpp:4-12 | no request and no poll removes or changes an entry except by adding producers, nor lowers a token |
| ServerRuns.CommittedForever | src/server/file-manager/file_manager_impl.hpp:164-234 | once committed, a path stays committed over every run of requests and polls in which directories keep their entries and no committed path becomes a directory that lacks entries |
| ServerRuns.PermanentExactlyWhenSteady | src/server/file-manager/file_manager_impl.hpp:167-183 | over every run in which directories keep their entries, no step undoes a commitment if and only if no committed path becomes a directory that lacks entries |
| ServerRuns.AcyclicForever | src/server/file-manager/file_manager_impl.hpp:194-205 | acyclic dependencies stay acyclic over every run, so the recursion keeps terminating |
| ServerRuns.TokenCountsCloses | src/server/client-manager/handlers/close.hpp:22-32 | over every run the token holds what it held plus the number of accepted closes of the path, and is created by the first |
| ServerRuns.CommittedExactlyAfterNCloses | src/server/client-manager/handlers/close.hpp:22-32 | from no token, a regular file with rule on_close:n is committed exactly when at least max(1, n) closes of it were accepted, whatever came in between |
| ServerRuns.CloseExactly | src/server/client-manager/handlers/close.hpp:13-32 | a close raises the count of its path by one if and only if the path is handled, has an entry with rule on_close and lists the sender's application; otherwise it changes nothing |
| ServerRuns.CloseCommitsExactly | src/server/client-manager/handlers/close.hpp:22-32 | an accepted close leaves a regular file committed if and only if it is the n-th or a later one, or the rule has no number |
| ServerRuns.CloseWakesExactly | src/server/client-manager/handlers/close.hpp:24-31 | an accepted close of a regular file wakes a waiter if and only if n closes came before it, the rule has no number, or the waiter is a producer or has a thread id not below the size under no_update; any other stays with its size, also at the close that completes the count |
| ServerRuns.CompletingCloseLeavesReader | src/server/client-manager/handlers/close.hpp:24-31 | the input at which waking fails: the one close an on_close:1 file needs commits it and leaves its reader waiting |
| ServerRuns.ExitCommitsExactlyTheList | src/server/client-manager/handlers/exit.hpp:10-15 | a file with the default rule is committed after an exit if and only if it was before or is on the exiting thread's list of produced files |
| ServerRuns.TerminationCommitsExactly | src/server/client-manager/handlers/exit.hpp:10-15 | over every run, exits included, a path with rule on_termination is committed if and only if it is a directory that meets its count, or is no directory and had a token at the start |
| ServerRuns.CreatorExitsExactly | src/server/client-manager/client_manager.hpp:74-77 | after a thread created a new path and exited, it is committed if and only if it is a directory, had a token or inherited on_file |
| ServerRuns.ProducerExitsUncommitted | src/server/client-manager/handlers/exit.hpp:10-15 | the input at which commitment at exit fails: a registered thread creates a file no rule names and exits, and the file is not committed |
| Guarantees.ExitsCommitNothing | src/server/client-manager/handlers/exit.hpp:4-16 | in every reachable state of the whole system handling an exit changes the commitment of no path |
| ServerRuns.ProducerExactly | src/server/capio-cl-engine/capio_cl_engine.hpp:294-327 | a thread is a producer of a path if and only if its application is listed in the path's entry or, without one, in the entry of the first key of the walk whose glob matches the path |
| ServerRuns.CreatorIsProducer | src/server/capio-cl-engine/capio_cl_engine.hpp:167-174 | after creating a path a thread is a producer of it if and only if its application name holds no blank or was already listed for the path |
| ServerRuns.BlankNameIsNoProducer | src/server/capio-cl-engine/capio_cl_engine.hpp:167-174 | the input at which it fails: an application with a blank in its name is no producer of the file it creates |
| ServerRuns.LongestMatchIsLongest | src/server/capio-cl-engine/capio_cl_engine.hpp:143-151 | rules are inherited from a matching directory key that is as long as any other, and from none only if no such key has a name |
| ServerRuns.NewFileExactly | src/server/capio-cl-engine/capio_cl_engine.hpp:133-158 | only the path gets an entry: that of a file without producers, counts and dependencies, with the commit and the fire rule of the longest directory key whose glob matches, the first of equals, or the default rules if there is none |
| ServerRuns.CreateEntriesExactly | src/server/client-manager/handlers/create.hpp:9-11 | a creation adds the sender's name without its blanks behind the producers of the path, gives the path an entry if it has none, and changes no other entry |
| ServerRuns.StripConcat | src/server/capio-cl-engine/capio_cl_engine.hpp:169-169 | stripping takes the white space out of a name piece by piece and keeps the rest in order |
| ServerRuns.StripOne | src/server/capio-cl-engine/capio_cl_engine.hpp:169-169 | exactly the six white space characters are stripped |
| ServerRuns.NewPathCommittedExactly | src/server/capio-cl-engine/capio_cl_engine.hpp:153-156 | a path that gets its entry by a creation is committed at once if and only if it is a directory, has a token, or inherits on_file, whose dependencies are not inherited |
| ServerRuns.RecycledTidKeepsItsName | src/server/client-manager/client_manager.hpp:43-59 | a thread id that exits and registers again has the new name if and only if it had none or the same one before |
| ServerRuns.RecycledTidHasOldName | src/server/client-manager/client_manager.hpp:43-59 | the input at which it fails: a thread id of an application that exited has that application's name in the next one |
| Places.UnlockCreationOnlyWakes | src/server/file-manager/file_manager_impl.hpp:35-45 | a thread in one place is either untouched, or was in this list and has exactly one answer now |
| Places.UnlockDataOnlyWakes | src/server/file-manager/file_manager_impl.hpp:64-119 | a thread in one place is either untouched, or waited for data of this path, may be released, and has exactly one answer now, the release value |
| Places.BlockingServes | src/server/client-manager/handlers/read.hpp:27-31 | a consent, open or read from a thread that is nowhere leaves it answered once, or waiting once in the fitting list with the size it asked for |
| Places.HandleWakes | src/server/client-manager/request_handler_engine.hpp:87-103 | any request leaves every thread but its sender where it is, or wakes it with one answer, for data only with reason |
| Places.CreationWaiterExactly | src/server/file-manager/file_manager_impl.hpp:35-45 | of all requests exactly a creation of the path, a rename to it and a committing close of it answer a thread waiting for the creation, with 1; any other leaves it in its position |
| Places.DataWaiterExactly | src/server/file-manager/file_manager_impl.hpp:64-119 | of all requests exactly a write to the path or a committing close of it that finds the thread releasable answers one waiting for data, with the release value; any other leaves it with its size |
| WholeSystem.RegisteredMeaning | src/server/client-manager/client_manager.hpp:36-60 | a thread is registered after a log exactly when a handshake of it is there with no exit of it behind |
| WholeSystem.StepKeeps | src/posix/utils/clone.hpp:32-87 | every step of parents, children, senders, receivers, server and monitor keeps the invariant that places each thread and orders its requests |
| WholeSystem.AnsweredOrWaitingOnce | src/server/file-manager/file_manager_impl.hpp:28-119 | in every reachable state a thread whose OPEN, CONSENT or READ was handled is in exactly one place, the fitting list or its response queue, and any other thread is in none |
| WholeSystem.NeverTwoAnswers | src/server/client-manager/client_manager.hpp:68-72 | no response queue ever holds two answers, so the server never blocks on a reply, and one that holds an answer has its client waiting |
| WholeSystem.LookupsSucceed | src/server/client-manager/client_manager.hpp:71-86 | in every reachable state the lookups of the handlers find the sender of the next request and every waiting thread |
| WholeSystem.RegisteredUntilExit | src/posix/handlers/exit_group.hpp:17-32 | the server knows a thread exactly from the handling of its handshake to that of its exit |
| WholeSystem.HandshakeComesFirst | src/posix/utils/clone.hpp:72-87 | every request of a thread is queued after its handshake, with no exit of it in between |
| WholeSystem.ChildrenWaitForTheirHandshake | src/posix/utils/clone.hpp:51-58 | a cloned thread can start only when its handshake is already queued |
| SystemRuns.QueueIsWhatWasSent | src/posix/utils/requests.hpp:45-118 | over every run the queue holds exactly the requests the clients sent, in that order, and each is served once, in turn |
| SystemRuns.ClonesRunThrough | src/posix/utils/clone.hpp:51-87 | a thread that is cloned can get through handshake, enrolment and start, after which it runs and its handshake is queued |
| SystemRuns.RunningThreadsMaySend | src/posix/handlers/exit_group.hpp:17-26 | in every reachable state a running thread may send any request of its own, its exit included, because its id is enrolled |
| SystemRuns.AnsweredThreadsRunOn | src/posix/utils/requests.hpp:50-52 | in every reachable state an answered thread may take its answer, runs on, and leaves its queue empty |
| WholeSystem.MonitorMayRun | src/server/file-manager/fs_monitor.hpp:27-44 | in every reachable state each thread waits once at most and no path has an empty map of waiters, as the pass needs |
| WholeSystem.AnswerHasReason | src/server/file-manager/file_manager_impl.hpp:75-91 | a deferred consent or read is answered by the server or the monitor only, and only when its release condition holds |
| WholeSystem.AnsweredAtOnceExactly | src/server/client-manager/handlers/read.hpp:14-31 | in every reachable state the step that handles an OPEN, CONSENT or READ answers it if and only if its sender may go on by the files, producers, rules and commitment of that moment, and with 1, the size, or the greatest number |
| WholeSystem.CreationWaitersAnsweredExactly | src/server/file-manager/fs_monitor.hpp:27-34 | in every reachable state a step answers a thread waiting for a creation if and only if it announces that path or is a poll that finds it; otherwise the thread keeps its position |
| WholeSystem.DataWaitersAnsweredExactly | src/server/file-manager/fs_monitor.hpp:36-44 | in every reachable state a step answers a thread waiting for data, with the size or the greatest number for a directory, if and only if it looks at that path and finds it committed under any rule, produced by the thread, or under no_update with a thread id not below the size; otherwise the thread keeps its size |
| WholeSystem.CommittedPathsReleaseAll | src/server/file-manager/file_manager_impl.hpp:79-101 | in every reachable state a poll of an existing committed path, under whatever rule, answers every thread waiting for its data with the size, or the greatest number for a directory |
| WholeSystem.ConsentsAreJustified | src/server/client-manager/handlers/consent.hpp:16-43 | over whole runs, for a handled path whose fire rule is not no_update when answered, every consent, at once or deferred, goes to a producer or happens when the path is committed |
| WholeSystem.ReadsAreJustified | src/server/client-manager/handlers/read.hpp:22-31 | the same of every read, which may also be answered at once when the file is as large as asked |
| DeferredReads.DeferredReadsGetEnoughExactly | src/server/file-manager/file_manager_impl.hpp:75-101 | in every reachable state, for a deferred read of an uncommitted regular file by a thread that does not produce it: whatever the size when the server next looks, an answer tells at least the size waited for, if and only if the fire rule is update or it waits for nothing |
| DeferredReads.NeverTooEarlyExactly | src/server/file-manager/file_manager_impl.hpp:80-83 | the release condition implies enough bytes for every size of such a file if and only if the fire rule is update or nothing is waited for |
| DeferredReads.NeverTooLateExactly | src/server/file-manager/file_manager_impl.hpp:80-83 | enough bytes imply the release condition for every size if and only if the fire rule is no_update and the thread id is -1, which no thread has |
| DeferredReads.EmptyFileIsReleased | src/server/file-manager/file_manager_impl.hpp:80-101 | the input at which the check fails: a thread that waits for any number of bytes of an empty no_update file is answered 0 |
| DeferredReads.AwaitedIsTheEnd | src/server/client-manager/handlers/read.hpp:27-31 | in every reachable state the size a thread waits for is the end its read asked for, or 0 for a consent |
| DeferredReads.DeferredAnswerSaysCommittedExactly | src/server/file-manager/file_manager_impl.hpp:99-101 | for a committed path the deferred answer is the one an immediate read gets if and only if it is a directory or has the greatest size |
| DeferredReads.DeferredAnswerHidesCommitment | src/server/file-manager/file_manager_impl.hpp:99-101 | the input at which it fails: for a committed file of 5 bytes an immediate answer is the greatest number and a deferred one is 5 |
| Guarantees.HandlersMayRun | src/server/client-manager/request_handler_engine.hpp:87-103 | from an acyclic configuration, after any run of the whole system, the dispatcher may handle the next request and the monitor may make its pass |
| ReadCache.ReadRequestCache.ReadRequest | src/posix/utils/cache.hpp:85-124 | asks the server exactly when the value kept for the file is neither the greatest number nor enough, and keeps the answer under the path the move left behind |
| ReadCache.TurningAwayExactly | src/posix/utils/cache.hpp:91-119 | after an answer for a file and a read of another one, the first is asked for again exactly beyond what is remembered: the answer if it was got while staying with the file, and what was known before if it was got on turning to it |
| ReadCache.OtherDescriptorExactly | src/posix/utils/cache.hpp:88-103 | after an answer for a file, a read of it through another descriptor asks again exactly beyond what is remembered, as after a turn to another file |
| ReadCache.CommittedIsForgotten | src/posix/utils/cache.hpp:91-119 | the input at which remembering fails: a file read once and found committed is asked for again after a read of another file |
| ReadCache.StayingRemembers | src/posix/utils/cache.hpp:106-119 | on the same file the server is asked again exactly for more than it granted, and never once it said committed |
| CachedReads.CachedReadsRefineUncached | src/posix/utils/cache.hpp:85-124 | after any history of requests, polls and changes of the files that takes nothing back that was granted of a path, when the cache lets a read of it through, the server would answer that read at once, then and after every such continuation |
| CachedReads.SkipsAreSafeExactly | src/posix/utils/cache.hpp:106-119 | whatever changes between two moments: every cache justified at the first skips the server only where it would answer a thread that is no producer at the second, if and only if the file is committed then or no smaller than what was granted of it |
| CachedReads.GrowthIsReliableExactly | src/server/file-manager/file_manager_impl.hpp:167-183 | for a file that does not shrink, while entries, tokens and directories grow, nothing granted is taken back if and only if it was not committed, has the greatest size, or no new directory below it lacks entries |
| CachedReads.CacheOutlivesCommitment | src/posix/utils/cache.hpp:106-109 | the input at which the cache fails: a file told committed loses its commitment to an empty new directory, the cache lets the next read through, and the server would hold it back |
| CachedReads.ServerIsReliable | src/server/client-manager/request_handler_engine.hpp:87-103 | no step of the server or of the clients takes back what was granted of any path; only changes of the files can |
| CachedReads.EventKeeps | src/posix/utils/cache.hpp:106-119 | server steps, skipped, asked and answered reads, and file changes that take nothing back of a path, keep every cached value and every answer on its way for it justified: committed, or at most the size |
| CachedReads.JustifiedIsAnswered | src/server/client-manager/handlers/read.hpp:27-31 | a read whose end is justified meets the condition under which the handler answers at once |
| CachedReads.SkippingIsJustified | src/posix/utils/cache.hpp:106-111 | a cache with justified values skips the server only for an end that is justified |
| CachedReads.ReadAnswerIsJustified | src/server/client-manager/handlers/read.hpp:22-31 | whatever the handler answers at once is a size the file has, or the file is committed |
| CachedReads.AskedReadEndsAsTheMethod | src/posix/utils/cache.hpp:111-119 | a read that asks queues exactly itself, and whatever happens until it is told, its cache ends as the method leaves it for that answer |
| CachedReads.SkippedReadEndsAsTheMethod | src/posix/utils/cache.hpp:85-109 | a read let through leaves server and files alone and its cache as the method leaves it |
| CachedReads.NewThreadsAskFirst | src/posix/utils/clone.hpp:67-68 | a thread that starts asks for every file first, whoever had its id before |
| WriteCache.WriteConserves | src/posix/utils/cache.hpp:28-43 | one call sends and then holds exactly what was held before and the new bytes, in that order |
| WriteCache.WriteKeepsSound | src/posix/utils/cache.hpp:38-43 | after each call at most the limit is held, and nothing without a descriptor |
| WriteCache.NothingLostOrReordered | src/posix/utils/cache.hpp:28-53 | over every run whose amounts held stay below 2 to the 63, the bytes sent followed by those held are the bytes given, per path and descriptor and in order |
| WriteCache.NothingHeldAtFlushingRequest | src/posix/utils/requests.hpp:54-109 | when CLOSE, OPEN or EXIT is queued every byte written before is queued before it and none is held |
| WriteCache.OtherRequestsDoNotFlush | src/posix/utils/requests.hpp:40-118 | any other request goes out alone and leaves what is held |
| WriteCache.SecondFlushIsSilent | src/posix/handlers/exit_group.hpp:24-28 | the destructor of a flushed cache sends nothing |
| WriteCache.CapioWritesOnTheWire | src/posix/handlers/write.hpp:9-17 | after any writes of one thread to a path, the line before CLOSE, OPEN or EXIT has the right thread id, the sum of the descriptors in place of the descriptor, and the argument of the flush in place of the amount |
| WriteCache.CapioWritesMeantExactly | src/posix/handlers/write.hpp:9-17 | that line is the one meant for writes through one descriptor if and only if the descriptors add up to it, above 0, and the amounts add up to the thread id of the request |
| WriteCache.HundredBytesReportedAsThousand | src/posix/handlers/write.hpp:9-17 | the input at which it fails: thread 1000 writes 100 bytes through descriptor 4 and closes, and 1000 bytes are reported |
| WriteCache.CapioWriteThatSpills | src/posix/utils/cache.hpp:38-49 | a write after which the sum of descriptors exceeds the limit sends that sum as descriptor and its own amount alone |
| WriteCache.WriteRequestCache.Flush | src/posix/utils/cache.hpp:45-53 | sends what is held, if anything, and holds nothing afterwards |
| WriteCache.WriteRequestCache.WriteRequest | src/posix/utils/cache.hpp:28-43 | flushes on a change of descriptor or path and when the limit is exceeded, and has exactly the lines and the state of the specification |
| WriteCache.WriteRequestCache.FlushAndSend | src/posix/utils/requests.hpp:54-61 | what is held goes into the queue right before the request |
| Descriptors.AddKeepsInverse | src/posix/utils/filesystem.hpp:57-68 | adding a descriptor keeps the maps inverse if and only if it was not tracked under another path |
| Descriptors.DeleteKeepsInverse | src/posix/utils/filesystem.hpp:126-132 | deleting a descriptor keeps the maps inverse and removes it alone |
| Descriptors.DeletePathKeepsInverse | src/posix/utils/filesystem.hpp:139-151 | deleting a path keeps the maps inverse |
| Descriptors.DeletePathRemovesItsFds | src/posix/utils/filesystem.hpp:139-151 | deleting a path removes exactly the descriptors whose path it is and leaves the others as they were |
| Descriptors.DupKeepsInverse | src/posix/utils/filesystem.hpp:170-176 | dup keeps the maps inverse if and only if the target was not tracked under another path |
| Descriptors.DupShares | src/posix/utils/filesystem.hpp:170-176 | after dup both descriptors refer to the same offset, as section dup of the System Interfaces volume of POSIX.1-2017 says, if and only if the target was not tracked with another one; the close-on-exec flag is the target's own |
| Descriptors.RenameKeepsInverse | src/posix/utils/filesystem.hpp:265-278 | rename keeps the maps inverse if and only if the new path is untracked, is the old one, or the old one has no descriptors |
| Descriptors.InverseExactly | src/posix/utils/filesystem.hpp:57-176 | along any run that asks only for what the maps look up, they are inverse after every prefix if and only if each add, dup and rename finds a target that is fresh, of the same path, or without descriptors |
| Descriptors.TablesFollowTheRunExactly | src/posix/utils/filesystem.hpp:57-176 | along any such run the maps say after every prefix of each descriptor the path, the open it goes back to, the offset and the flag that can be read off the run, if and only if each target is fresh or already what it should become |
| Descriptors.TrackedPathsExactly | src/posix/utils/filesystem.hpp:57-278 | which paths are tracked after each operation: adding adds one, closing and dup keep all, deleting takes one away, and a rename takes the old one away and adds the new one |
| Descriptors.RenameStrandsExactly | src/posix/utils/filesystem.hpp:265-278 | a rename onto a tracked path leaves exactly the descriptors of the old path with an entry and without a path to be closed under |
| Descriptors.RenameOntoClosedPath | src/posix/utils/filesystem.hpp:126-132 | the input at which rename fails: open a, close a, open b, rename b to a; the maps are broken and the descriptor cannot be closed |
| Descriptors.DupOntoTrackedLeavesListing | src/posix/utils/filesystem.hpp:170-176 | a dup onto a descriptor of another path keeps its path and offset, and closing it leaves it listed under the path of the other |
| Descriptors.DupOntoOpenDescriptor | src/posix/handlers/dup.hpp:36-44 | the input at which dup fails: two files are open and one descriptor is dup2ed onto the other; the offsets differ and the maps are broken |
| Descriptors.SharedExactlyWhenLinked | src/posix/utils/filesystem.hpp:170-176 | two descriptors share an offset exactly when dups lead both back to one open |
| Descriptors.SeekMovesItsClass | src/posix/utils/filesystem.hpp:286-288 | setting an offset changes it for exactly the descriptors linked to this one by dups |
| DescriptorTables.FileTables.AddCapioFd | src/posix/utils/filesystem.hpp:57-68 | the descriptor gets a new offset cell, and existing entries win over inserted ones |
| DescriptorTables.FileTables.DeleteCapioFd | src/posix/utils/filesystem.hpp:126-132 | removes the descriptor from all three maps |
| DescriptorTables.FileTables.DeleteCapioPath | src/posix/utils/filesystem.hpp:139-151 | the loop that erases while walking removes all descriptors of the path and then the path, and keeps the maps inverse |
| DescriptorTables.FileTables.DupCapioFd | src/posix/utils/filesystem.hpp:170-176 | the new descriptor gets the same cell and its own flag unless it was already there |
| DescriptorTables.FileTables.SetCapioFdCloexec | src/posix/utils/filesystem.hpp:31-33 | changes the flag of this descriptor only |
| DescriptorTables.FileTables.RenameCapioPath | src/posix/utils/filesystem.hpp:265-278 | moves the descriptor set to the new path if that is free and rewrites the paths of the set found there |
| DescriptorTables.FileTables.SetCapioFdOffset | src/posix/utils/filesystem.hpp:286-288 | every descriptor on the same cell sees the new offset and no other does |
| RequestCodec.FrameRoundTrip | src/posix/utils/requests.hpp:45-118 | for every request kind that fits into the buffer, splitting off the code and scanning the fields gives back the same kind and fields, negative descriptors included, if and only if every name is non-empty and free of white space |
| RequestCodec.WireFormat | src/posix/utils/requests.hpp:45-118 | the text of every request is its four-digit code and its fields in the order of the format string, with single blanks between them |
| RequestCodec.CodesHandled | src/server/client-manager/request_handler_engine.hpp:27-43 | exactly the codes from 0 to 11 but 1 have a handler, and code 7 is handled as a creation |
| RequestCodec.CleanFrameDecodes | src/server/client-manager/request_handler_engine.hpp:50-64 | what an earlier request left in the buffer behind the terminator does not matter |
| RequestCodec.DecodedNamesAreClean | src/server/client-manager/handlers/rename.hpp:4-8 | whatever arrives, the names the server reads are non-empty words |
| RequestCodec.BuildUndoesFields | src/common/capio/requests.hpp:4-17 | each code selects the handler whose scan format fits the fields the client prints, in that order |
| RequestCodec.ScanUndoesPrintFields | src/posix/utils/requests.hpp:45-118 | fields printed with single blanks between them are scanned back, each up to its blank |
| RequestCodec.CodeRoundTrip | src/server/client-manager/request_handler_engine.hpp:54-55 | the code printed with four digits is read back from the first four characters |

## Left out

- Logging, the command line, banners, signal handlers, capioctl and the CTL module: input and output, and unfinished logic.
- JSON parsing: a foreign library; the configuration it yields is any initial `Locations`.
- Shared-memory creation, mmap, names of segments and crashes of processes; allocation always succeeds.
- The identity of a response segment when a thread id is used again by the same process: `register_listener` keeps the old mapping, while the model has one response queue per thread id.
- Fork: a forked child queues its handshake itself and never enters the set of tids, so it sends no EXIT; the model has the clone path and the first process.
- The system call table and thin handlers such as stat, access, chmod and mkdir: wrappers around requests modelled here.
- `match_globs` and `fileToBeHandled`: arbitrary fixed predicates.
- `Queue::fetch` and `Queue::reserve`: unused, and they give the slot away before the caller is done with it.
- The execve snapshot, path algebra, environment variables and weak memory effects.
- That two paths never share a metadata token: tokens are kept per path.
- Consumers and the permanent and exclude flags: stored and never looked at by the server code modelled here.
- Waiting and spinning are steps that are not enabled; no fairness is assumed and no progress is claimed beyond `LockFile.LoneServerCompletes` and `QueueProtocol.StuckMeansFullOrEmpty`.
- `Queue` in memory: its methods run alone and ask for the elements or the room they would wait for; interleavings are in `QueueProtocol`, where a slot holds a whole element.
- The factor by which `buff_rcv + i * _elem_size` scales for element types other than char; only char queues are longer than one element per call.
- A handler or one poll of one path is one step, and the files do not change within it; the data race between handlers and monitor on the entries is not modelled.
- The monitor's unlock and its separate delete of a creation list (src/server/file-manager/fs_monitor.hpp:30-31) are one step; a waiter added in between would be dropped.
- Servers on several nodes: `LockFile` has the shared counter; the server state machine is one server with the token as a number.
- `WriteCache.NothingLostOrReordered`: asks that the amount held and given stays below 2 to the 63, where the signed sum of the source overflows; the narrowing of a count to int in `capio_write` is not modelled either.
- `CachedReads.CachedReadsRefineUncached`: regular files and non-empty paths of which nothing granted is taken back, because otherwise it is false (`CachedReads.SkipsAreSafeExactly`, `CachedReads.CacheOutlivesCommitment`).
- `Descriptors.TablesFollowTheRunExactly`: deleting a path is described only while the descriptors listed under it are its own; what the walk does to tables that are already broken is not modelled.
- `RequestCodec.FrameRoundTrip`: a number outside the range of its scan format is not scanned, where C leaves the result undefined.
- exit_group ends all threads of a process while only the caller sends EXIT; the model has the request of each thread that sends it.
