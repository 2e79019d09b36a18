# A Dafny model of make-initrd

make-initrd builds initial RAM disks and ships the small programs that run inside them. This project
models the parts of its C and bash tools that are hardest to see through, and proves what they promise
for every input, every run or every interleaving:

- **`list_sort`** (StableMerge, ListSort): the bottom-up merge sort driven by the bits of a counter, first on
  sequences against stable insertion sort, then on the intrusive `next`/`prev` list.
- **`ueventd`** (UeventDaemon, UeventProtocol, UeventDelivery, UeventConservation, UeventPause, UeventRuns, UeventRemoval,
  UeventTimers): the daemon's
  handlers as a class, and the protocol of publishers, daemon, workers, inotify, retry pipe and timers as a transition
  system whose runs are all interleavings of single system calls. UeventProtocol proves what every run keeps,
  UeventDelivery that no event is lost, UeventConservation that none vanishes but by its own queue, UeventPause what the paused flags mean, UeventRuns builds the runs that
  break two of the daemon's promises, and UeventRemoval says which removals of a directory can do so.
- **cpio** (Cpio, CpioFiles, Streams, Extraction): the "newc" reader and writer, streams of concatenated and nested
  compressed archives with a bootconfig footer, and extraction. The conversions of a number to and from eight
  hexadecimal digits are a parameter (`Codec`) of the format, and `HexIsFaithful` shows that `%08X` and
  `strtoul` in base 16 meet what is asked of it.
- **`sort-services`** (Kahn, Services): the dependencies between LSB services and their order with tiers.
- **`initrd-put`** (Paths, Canonicalize, Worklist, Recursion, TreeLinks, ElfCache, Classify, Install, InstallLinks): path
  canonicalisation in fixed buffers, the worklist over a linked queue and two indexes, the directories it walks, the
  tree it builds, the soname cache, the multi-threaded install passes and their hardlinks.
- **`depinfo`** (Depinfo): the recursive walk over module dependencies.
- **`environ`** (Environ): the quoted printer and parser of the environment.

Code that updates state in place is modelled by classes, arrays and loops whose contracts tie them to functions
and predicates; what the programs promise is proved about those. The file system, the clock, `fork`, the
decompressors, `ldd`, libkmod and regular expressions are parameters.

Five expectations do not hold of the code as it is. Each has a lemma that gives runs in which it fails and a lemma
that says, for every state, system or setup, exactly when it holds:

- Documentation/UeventDetails.md promises that two handlers never run for the same queue at the same time. From every
  initial state with a queue that is not paused there is a run in which they do, after the queue's directory is
  removed (`TwoHandlersAfterRemoval`). In every state of every run the removal of a queue directory can lead there if
  and only if inotify watches the directory, whatever the daemon is doing and whatever is paused
  (`RemovalBreaksIffWatched`).
- A queue that the pause directory names is handled all the same when it is made after the last `apply_pause`
  (`PausedQueueServed`, `PausedFromStart`). With no message from the pause directory pending, the flags are what it
  asks for on exactly the queues that were in the list at the last `apply_pause`, and on the others it is `.all` alone
  that counts (`PausedAsAsked`).
- A library that `ldd` finds through a dependency's own search path is cached for every object, so the cache can
  lose a path (`CacheCanLosePath`). For every system whose `ldd` prints whole closures the cache is unnoticeable if
  and only if the names that objects need and the lines `ldd` prints for them are such that objects whose lines name
  everything another object needs also bring along every path `ldd` names for it (`CacheUnnoticedIffLinesCover`).
- A hardlink whose path runs through a link that the workers create can stop the program in one interleaving and
  be installed in another (`LinksCanStop`). No interleaving stops when every hardlink needs only directories, files
  that need directories only, and what its target needs (`LinksNeverStop`). With a worker for every file, or with two
  workers when the targets need directories only, some interleaving stops otherwise (`LinksStopIffNotReady`).
- Documentation/manpages/initrd-put.1.md promises that directories are copied. A directory that is given before a link
  to it is entered without what it holds, because processing the link clears the flag that the argument had set
  (`OrderMatters`). A directory at the end of an argument is walked if and only if every link to it that arguments run
  through is met before it (`WalkArguments`).

## Model

| member | source | states |
|---|---|---|
| StableMerge.StableSortIsStableSort | utils/udev-rules/list_sort.c:102-107 | the reference, insertion sort, gives a sorted permutation in which elements that compare equal keep their order |
| StableMerge.PicksExist | utils/udev-rules/list_sort.c:213-224 | whenever the high bits of count are non-zero, the two pending sublists the loop picks exist and both have size 2^k for the lowest clear bit k of count |
| StableMerge.RoundShaped | utils/udev-rules/list_sort.c:209-232 | one round takes the sizes that count prescribes to the sizes that count + 1 prescribes |
| StableMerge.RoundsShaped | utils/udev-rules/list_sort.c:191-232 | in every round of every run the number and sizes of the pending sublists follow from count alone |
| StableMerge.PendingInvariants | utils/udev-rules/list_sort.c:191-203 | pending sizes are powers of two, smallest and newest first, at most two of each, and add up to count |
| StableMerge.FinalMergesBalanced | utils/udev-rules/list_sort.c:173-177 | in the final phase a list of size 2^k is merged with 2^(k-1) to 2^(k+1)-1 elements |
| StableMerge.SortListIsStableSort | utils/udev-rules/list_sort.c:180-247 | for every comparison that is a total preorder the bit-driven sort equals stable insertion sort |
| StableMerge.SortListPermutes | utils/udev-rules/list_sort.c:180-247 | whatever the comparison answers, no element is lost or duplicated |
| StableMerge.SortListAsksInOrder | utils/udev-rules/list_sort.c:102-107 | the comparison is only ever asked about an element and one that came later in the input |
| ListSort.Merge | utils/udev-rules/list_sort.c:11-37 | on linked nodes, merging two null-terminated lists relinks exactly their nodes into the stable merge |
| ListSort.Settle | utils/udev-rules/list_sort.c:213-224 | the walk along prev finds the picked sublists and replaces them by their merge, older one first |
| ListSort.PushOne | utils/udev-rules/list_sort.c:226-230 | the next element becomes a pending sublist of its own |
| ListSort.MakeRuns | utils/udev-rules/list_sort.c:209-232 | the main loop leaves the pending sublists of the sequence model |
| ListSort.MergeFinal | utils/udev-rules/list_sort.c:47-94 | the last merge leaves a circular doubly linked list through head in merged order |
| ListSort.SortLinks | utils/udev-rules/list_sort.c:180-247 | the nodes of a circular list end up, all of them and once, in a well-formed circular list in the order of the sequence sort |
| ListSort.ListSort | utils/udev-rules/list_sort.c:180-247 | the circular list holds the same nodes as before; when the comparison orders them it is sorted, and nodes that compare equal keep their order |
| UeventDaemon.MarkDirtySurplus | features/runtime/src/ueventd/ueventd.c:274-280 | marking a queue keeps the difference between dirty_queues and the number of dirty queues |
| UeventDaemon.UnwatchSurplus | features/runtime/src/ueventd/ueventd.c:162-185 | dropping a watch raises that difference by one exactly when the watch was dirty |
| UeventDaemon.InotifySurplus | features/runtime/src/ueventd/ueventd.c:466-503 | an inotify message raises the difference by one when it drops a dirty watch and leaves it alone otherwise |
| UeventDaemon.SpawnPassServes | features/runtime/src/ueventd/ueventd.c:723-734 | after the pass a queue that is still dirty is paused or has a worker, and no paused or busy queue was touched |
| UeventDaemon.MoveTimerSurplus | features/runtime/src/ueventd/ueventd.c:295-332 | making sure of a timer event's queue and marking it keeps the difference |
| UeventDaemon.MoveTimerServes | features/runtime/src/ueventd/ueventd.c:310-332 | after a rename that succeeds the queue's watch is in the list and dirty, and no other queue stops being dirty |
| UeventDaemon.Daemon.MarkQueueDirty | features/runtime/src/ueventd/ueventd.c:274-280 | sets the flag and counts it once |
| UeventDaemon.Daemon.ProcessPipeMessage | features/runtime/src/ueventd/ueventd.c:535-543 | the loop marks the first queue watch with the descriptor and nothing else |
| UeventDaemon.Daemon.UnwatchPath | features/runtime/src/ueventd/ueventd.c:162-185 | removes the first watch on the inode and leaves the counter alone |
| UeventDaemon.Daemon.WatchPath | features/runtime/src/ueventd/ueventd.c:129-152 | puts the new watch in front, dirty and counted when the queue holds events, with the pause_all flag |
| UeventDaemon.Daemon.MoveTimerEvent | features/runtime/src/ueventd/ueventd.c:295-332 | watches the queue unless its name is in the list or inotify has the directory, and marks it when the rename succeeds |
| UeventDaemon.Daemon.ReapChild | features/runtime/src/ueventd/ueventd.c:410-413 | clears the pid in every watch that has it |
| UeventDaemon.Daemon.ApplyPauses | features/runtime/src/ueventd/ueventd.c:195-226 | whatever the order of readdir, the flags end up as the set of names says |
| UeventDaemon.Daemon.SpawnWorkers | features/runtime/src/ueventd/ueventd.c:723-734 | computes the spawn pass, and the BUG exit is not reached as long as the counter covers the dirty queues |
| UeventProtocol.SurplusRun | features/runtime/src/ueventd/ueventd.c:162-185 | from any state, over any run, dirty_queues minus the number of dirty queues grows by exactly the number of dirty watches dropped |
| UeventProtocol.EveryRunIsSafe | features/runtime/src/ueventd/ueventd.c:697-734 | in every run, removals included, dirty_queues is the number of dirty queues plus the number of dirty watches dropped, so it is positive when a queue is dirty, BUG is unreachable and epoll_wait never blocks for good; no watch has two unreaped workers |
| UeventProtocol.TimerQueueServed | features/runtime/src/ueventd/ueventd.c:295-332 | in every run inotify answers "watched already" for a timer event's queue only when the queue is in the list, and the rename of the event finds the queue's watch and makes it dirty |
| UeventDelivery.NoLostEvent | features/runtime/src/ueventd/queue-processor.c:48-111 | in every run in which no watched queue directory is removed each event file in a queue has a dirty flag, a pending message, a scan or a worker bound to move it, each unhandled file in the events directory will be looked at again, a queue has at most one worker, and the counter is exact |
| UeventDelivery.QuietMeansDone | features/runtime/src/ueventd/queue-processor.c:91-111 | when such a run has nothing pending any more, every queue and every handler's directory is empty |
| UeventConservation.StepConserves | features/runtime/src/ueventd/queue-processor.c:72-76 | every step but a handler of the queue and the removal of its directory keeps the queue's events, in the queue directory and in the events directory together, and adds exactly the event it publishes or delivers |
| UeventConservation.StepMoves | features/runtime/src/ueventd/queue-processor.c:48-77 | a file leaves a queue directory only by a worker of that queue that renames it into that queue's events, or with the directory; an event leaves the events only by a handler of that queue; and a file comes only by being published or delivered |
| UeventConservation.EventKept | features/runtime/src/ueventd/queue-processor.c:91-111 | in every run each event of a queue is still one at the end, or was taken by that queue's own handler or with its directory |
| UeventConservation.PublishedKept | features/runtime/src/ueventd/queue-processor.c:91-111 | the same for an event from the step on that publishes it or delivers it from a timer, wherever in a run that is |
| UeventConservation.PublishedAccounted | features/runtime/src/ueventd/ueventd.c:466-503 | when no watched directory is removed, such an event that was not taken is one that a dirty flag, a message, a scan or a worker leads back to |
| UeventConservation.PublishedTaken | features/runtime/src/ueventd/ueventd.c:702-735 | when such a run has nothing pending any more, every event published in it was taken by a handler of its own queue, or with a directory that was not watched |
| UeventPause.PausedAsAsked | features/runtime/src/ueventd/ueventd.c:138-226 | in every run, with no message from the pause directory pending, a queue that was in the list at the last apply_pause is flagged if and only if the directory names it or all, and one entered later if and only if it names all |
| UeventPause.ServedUnlessAsked | features/runtime/src/ueventd/ueventd.c:723-734 | with no message from the pause directory pending, a worker can be started for a queue that was in the list at the last apply_pause if and only if the directory names neither it nor all, the queue is dirty and it has no worker |
| UeventRuns.TimerStepsMove | features/runtime/src/ueventd/ueventd.c:295-332 | undisturbed by others, the protocol's steps for a due event compute what MoveTimerEvent computes, and leave the event in a watched, dirty queue |
| UeventRuns.RemovalBreaks | features/runtime/src/ueventd/ueventd.c:162-185 | from every sound state of a daemon in its main loop the removal of a watched queue that is not paused can lead, without another such removal, to two workers that run the queue's handlers at the same time |
| UeventRuns.TwoHandlersAfterRemoval | Documentation/UeventDetails.md:31-33 | from every initial state with a queue that is not paused, a run in which two workers run the handlers of this queue at the same time |
| UeventRuns.PausedQueueServed | features/runtime/src/ueventd/ueventd.c:138-150 | from every state of the main loop with nothing to read and no `.all`, a queue that the pause directory names and that is made now gets a worker and a handler with nothing pending |
| UeventRuns.PausedFromStart | features/runtime/src/ueventd/ueventd.c:692-696 | the same from every initial state in which a queue that does not exist is paused by name |
| UeventRemoval.RemovalCanBreak | features/runtime/src/ueventd/ueventd.c:162-185 | from every sound state, whatever the daemon is doing and whatever is paused, the removal of a watched queue can lead, without another such removal, to two workers that run the queue's handlers at the same time |
| UeventRemoval.RemovalBreaksIffWatched | features/runtime/src/ueventd/ueventd.c:162-185 | in every state of every run that removed no watched queue before, the removal of a queue can lead to two workers for one queue if and only if inotify watches its directory |
| UeventTimers.RipenedAre | features/runtime/src/ueventd/ueventd.c:310-332 | the timers moved are exactly those that are due and name an event |
| UeventTimers.PrintedDue | features/runtime/src/ueventd/ueventd.c:282-293 | a file name made of a decimal number, a dot and an event is due at that number when it fits 64 bits, and names an event unless nothing follows the dot |
| UeventTimers.NextDueIsEarliest | features/runtime/src/ueventd/ueventd.c:367-371 | the time the timer is armed for is due for some timer, and no timer that is left is due earlier |
| UeventTimers.SweptServes | features/runtime/src/ueventd/ueventd.c:334-384 | after update_timerfd every queue that an event was renamed into is watched and dirty, and the counter is as exact as before |
| UeventTimers.Sweep | features/runtime/src/ueventd/ueventd.c:334-384 | update_timerfd's loops hand exactly the well-formed timers that are due to move_timer_event, leave the memory that these calls give and timer_changed cleared, and find the time to arm the timer for |
| UeventTimers.EveryTimerCovered | features/runtime/src/ueventd/ueventd.c:482-501 | in every run each pending timer is covered by the armed time, timer_changed or an unread message, and nothing is moved before its time |
| UeventTimers.NothingDueWhenBlocked | features/runtime/src/ueventd/ueventd.c:702-721 | when the daemon blocks with nothing to read, no timer is due |
| UeventTimers.TimerKept | features/runtime/src/ueventd/ueventd.c:310-332 | in every run a timer that was pending is pending or moved at the end unless it was cancelled |
| UeventTimers.PutIsServed | features/runtime/src/ueventd/ueventd.c:334-384 | a timer put anywhere in a run and not cancelled since is pending or was moved, not before its time, and was moved if it is due when the daemon blocks |
| UeventTimers.FlagAfterMessage | features/runtime/src/ueventd/ueventd.c:482-501 | the daemon's timer_changed after a message from a timer directory is what the timer protocol says, and nothing else changes |
| UeventTimers.FlagKept | features/runtime/src/ueventd/ueventd.c:466-503 | no other message touches timer_changed |
| UeventTimers.FlagAfterWatch | features/runtime/src/ueventd/ueventd.c:146-147 | watching a timer directory agrees with the timer protocol on timer_changed; it is set by a timer directory that holds files, by nothing else that is watched, and never cleared |
| Cpio.HexIsFaithful | utils/initrd-cpio.c:194-211 | eight upper-case hex digits and strtoul in base 16 undo each other below 2^32 |
| Cpio.FieldsRoundTrip | utils/initrd-cpio.c:56-65 | a printed block of fields parses to the same numbers in the same order |
| Cpio.AlignmentsAgree | utils/initrd-cpio.c:36 | N_ALIGN and the reader's rounding agree with the writer's padding at every multiple of four |
| Cpio.EntryRoundTrip | utils/initrd-cpio.c:93-126 | one written entry is read back, header, name and body, wherever it stands and whatever surrounds it |
| Cpio.RecordsReadBack | utils/initrd-cpio.c:93-136 | records that read back on their own read back one after another up to the last |
| Cpio.RoundTrip | utils/initrd-cpio.c:86-139 | reading a written archive gives the same headers, names and bodies and consumes exactly the archive, whatever follows |
| Cpio.TypedRoundTrip | utils/initrd-cpio.c:213-234 | a regular file or symbolic link with any body, and any other file without one, comes back with its body |
| Cpio.EntryFormat | utils/initrd-cpio.c:194-211 | an entry is "070701", the thirteen numbers in their order at eight digits each, the name at 110 and the body at the next multiple of four |
| Cpio.LastIffTrailer | utils/initrd-cpio.c:128-135 | an entry ends the archive if and only if its name begins with "TRAILER!!!" and has at least one more byte |
| CpioFiles.Output.PushRest | utils/initrd-cpio.c:149-166 | appends the name, its zero and the padding counted from the header |
| CpioFiles.Output.PushPad | utils/initrd-cpio.c:179-187 | appends zeros up to the next multiple of four |
| CpioFiles.Output.WriteCpio | utils/initrd-cpio.c:189-235 | appends the entry, at any offset, and returns the offset behind it; at a multiple of four the entry of any header with 32-bit fields, a C string for a name and, for fifos, devices, directories and sockets, no body is the layout the reader expects |
| CpioFiles.Output.WriteTrailer | utils/initrd-cpio.c:237-267 | appends the trailer entry and zeros up to a multiple of 512 |
| CpioFiles.WrittenIsLayout | utils/initrd-cpio.c:213-234 | at a multiple of four what write_cpio appends for a well-formed header is the layout the reader expects |
| CpioFiles.BodyKeptIff | utils/initrd-cpio.c:215-223 | write_cpio appends the layout with the body if and only if there is none or the file is no fifo, device, directory or socket |
| CpioFiles.ReadCpio | utils/initrd-cpio.c:86-139 | read_cpio's loop computes the headers, the end offset or the first error of the format |
| Streams.PlainTaken | utils/initrd-parse.c:56-94 | an archive is never mistaken for compressed data and is taken whole |
| Streams.MethodIffMagic | utils/initrd-decompress.c:16-60 | each of the four formats is recognised if and only if the data begins with its two bytes, whatever follows |
| Streams.ImageReadsBack | utils/initrd-parse.c:55-94 | every concatenation of archives and, to any depth, compressed images is read back archive by archive |
| Streams.ConfigReadsBack | utils/initrd-parse.c:37-128 | a bootconfig behind an image with 0 to 3 bytes of alignment is found, taken off and returned last |
| Streams.PlainReadsBack | utils/initrd-parse.c:41-53 | an image that ends in an archive is never taken to have a bootconfig |
| Extraction.ReadSegments | utils/initrd-parse.c:56-94 | the loop of read_stream computes the sequence of archives or the first error |
| Extraction.ReadStream | utils/initrd-parse.c:21-129 | read_stream computes the whole result at the top level and below |
| Extraction.Extract | utils/initrd-extract/initrd-extract.c:157-177 | the loops append the entries of the selected archives and the trailer |
| Extraction.SelectedMeans | utils/initrd-extract/initrd-extract.c:157-174 | without a number the headers of all archives in order, otherwise those of the archive with that number, counted from one with bootconfigs, or none |
| Extraction.ExtractIsArchive | utils/initrd-extract/initrd-extract.c:157-177 | what is extracted is one archive of the selected headers in the layout the reader expects |
| Extraction.ExtractAgain | utils/initrd-extract/initrd-extract.c:157-177 | what is extracted is read back as one archive with the selected headers, and extracting it again is byte-identical |
| Kahn.Relax | tools/sort-services:325-333 | the loop over successors lowers in-degrees, raises tiers and queues exactly the nodes that become free, in order |
| Kahn.AscendingStep | tools/sort-services:320-334 | because the queue is first in, first out, what is appended has the largest tier so far |
| Kahn.OrderedNotLed | tools/sort-services:320-345 | nothing that is emitted is led to by a cycle |
| Kahn.StuckIsLed | tools/sort-services:336-345 | everything that keeps a positive in-degree is led to by a cycle |
| Kahn.TierIsLongest | tools/sort-services:325-328 | a tier is the length of the longest path that ends at the node |
| Kahn.Order | tools/sort-services:314-350 | fails if and only if the graph has a cycle and then lists exactly the nodes a cycle leads to; otherwise each node once, after its predecessors, with longest-path tiers that never decrease along the order |
| Services.FindProvide | tools/sort-services:184-203 | returns the first active provider at or after an index |
| Services.CreateDeps | tools/sort-services:205-272 | accepts exactly when every service passes its checks, and collects what each declares |
| Services.AcceptedIsConsistent | tools/sort-services:213-271 | the checks all pass if and only if no name has two providers, every required name has one and no service names itself |
| Services.CollectedIsDependsOn | tools/sort-services:240-270 | the lists collected are exactly the dependencies the headers declare, X-Start-Before turned round |
| Services.BuildGraph | tools/sort-services:284-312 | the graph has one edge per active dependency, in the direction of starting or stopping, and in-degrees that count them |
| Services.SortRunlevel | tools/sort-services:353-357 | fatal exactly on inconsistent headers, stuck exactly on dependency loops with exactly the services a loop leads to, and otherwise every active service once, dependencies first when starting and last when stopping, tiers the longest chains and ascending |
| Paths.Splice | utils/initrd-put/initrd-put.c:311-314 | putting a link's text in front of the remaining text resolves like putting its components there |
| Paths.CanonIsResolve | utils/initrd-put/initrd-put.c:238-331 | what the loop computes on texts is component-by-component resolution with its eager directory checks, unless a text outgrows its buffer |
| Paths.ResolveReaches | utils/initrd-put/initrd-put.c:283-324 | a resolved path exists, is no link, runs through directories only and has plain names, and everything followed is a link |
| Paths.MoreLinksAllowed | utils/initrd-put/initrd-put.c:284-287 | the limit on links only ever turns a success into a failure |
| Paths.CanonicalIsFixed | utils/initrd-put/initrd-put.c:207-352 | a canonical path resolves to itself and no link is followed |
| Paths.LinkFollowed | utils/initrd-put/initrd-put.c:283-324 | a link followed by any text resolves as its target followed by that text does with one link less: from the root when the target starts with a slash, otherwise from the directory that holds the link |
| Paths.LinkResolves | utils/initrd-put/initrd-put.c:316-324 | the same for the text of a link alone |
| Paths.DotsResolve | utils/initrd-put/initrd-put.c:258-264 | behind a directory "/" and "/." stay there and "/.." goes to the directory that holds it, or stays at the root |
| Canonicalize.RequiresDirCheck | utils/initrd-put/initrd-put.c:161-186 | true exactly when behind slashes and "." components there is nothing or ".." |
| Canonicalize.Pop | utils/initrd-put/initrd-put.c:261-264 | the backward scan leaves the parent's text in the buffer |
| Canonicalize.Push | utils/initrd-put/initrd-put.c:266-275 | appends the component within the buffer or reports that it does not fit |
| Canonicalize.DirCheck | utils/initrd-put/initrd-put.c:193-205 | writes behind the text within the buffer, leaves the text as it was and says whether it is a directory |
| Canonicalize.EnqueueCanonicalized | utils/initrd-put/initrd-put.c:207-352 | enqueues the links followed and then the path, or fails for the same reason as the computation on texts, never leaving the buffer |
| Canonicalize.EnqueuedIsResolved | utils/initrd-put/initrd-put.c:207-352 | that result is resolution with at most 20 links, unless a text is too long; on success the path is canonical and everything else enqueued is a link |
| Canonicalize.ShortIsEnqueued | utils/initrd-put/initrd-put.c:207-352 | with paths of at most m and link targets of at most t characters, every name of at most 4096 - m - 20 t is enqueued exactly as it resolves: the links followed and then the path, or the reason why not |
| Worklist.Globals.Enqueue | utils/initrd-put/queue.c:55-110 | puts a new file in front of list and index unless it is excluded, queued or in the tree |
| Worklist.Globals.Dequeue | utils/initrd-put/queue.c:112-126 | takes a file from anywhere in the list and from the index |
| Worklist.Globals.TreeAdd | utils/initrd-put/tree.c:33-45 | adds a file unless its path is there |
| Worklist.EmptyQueueIsClosure | utils/initrd-put/initrd-put.c:1094-1144 | when nothing is queued, what is done is exactly what the roots lead to |
| Worklist.Handle | utils/initrd-put/initrd-put.c:1098-1140 | what one file does to queue and tree; tree_add_file succeeds |
| Worklist.Run | utils/initrd-put/initrd-put.c:1084-1144 | the worklist ends; it stops the program exactly when a path it comes to stops it, and otherwise leaves the queue empty and in the tree the least set that holds the roots and is closed under dependencies, without excluded and present paths |
| Worklist.AncestorsReached | utils/initrd-put/initrd-put.c:77-87 | in that set every wanted directory above a member is a member |
| TreeLinks.ParentItemIff | utils/initrd-put/initrd-put.c:77-87 | a path enqueues exactly the directory that holds it, unless it is the prefix or that is the root |
| TreeLinks.ProcessedMeans | utils/initrd-put/initrd-put.c:391-433 | processing a path stops the program exactly when it cannot be looked at, followed or read, and otherwise enqueues exactly its directory, what lies below a walked directory, what following a link meets and ends at, and what a regular file asks for |
| TreeLinks.StopsIffFails | utils/initrd-put/initrd-put.c:391-433 | the search stops the program if and only if every set that holds the wanted roots and all wanted paths its members call for has a member that cannot be looked at, followed or read |
| TreeLinks.BuildTree | utils/initrd-put/initrd-put.c:1084-1144 | the search goes through if and only if some such closed set has no failing member, and then the tree is the least closed set |
| Recursion.Queue.EnqueueArguments | utils/initrd-put/initrd-put.c:1084-1086 | the queue holds everything met in resolving the arguments that is not excluded, the latest first, and the flag is set for exactly the paths that arguments end at |
| Recursion.Queue.FirstPass | utils/initrd-put/initrd-put.c:1094-1144 | exactly the flagged directories are walked for which no link to them was processed before, and no flag outlives the pass |
| Recursion.WalkArguments | utils/initrd-put/initrd-put.c:207-352 | a directory is walked if and only if an argument ends there, nothing keeps it out, and every link to it that arguments run through is met before it |
| Recursion.OrderMatters | utils/initrd-put/initrd-put.c:346-351 | for every directory and link to it: with the link given behind the directory, the directory is not walked; with the link in front, it is |
| ElfCache.Cache.Insert | utils/initrd-put/enqueue-library.c:149-165 | the first path under a key stays |
| ElfCache.Cache.EnqueueLibraries | utils/initrd-put/enqueue-library.c:462-490 | enqueues the cached paths and the interpreter when all names are cached, and all of ldd's lines otherwise, and updates the cache |
| ElfCache.OtherMachineUnnoticed | utils/initrd-put/enqueue-library.c:124-134 | what is enqueued for an object is the same whether or not an object of another class or machine was processed just before |
| ElfCache.OtherMachinesUnnoticed | utils/initrd-put/enqueue-library.c:124-134 | the same for any number of objects of other classes and machines in any part of a run |
| ElfCache.SameMachineServed | utils/initrd-put/enqueue-library.c:462-487 | after an object of the same class and machine whose lines name everything an object needs, that object gets those lines' paths and its interpreter, whatever ldd would say |
| ElfCache.AskedOfLdd | utils/initrd-put/enqueue-library.c:462-490 | an object with a search path of its own, or any object with the cache switched off, gets exactly ldd's paths and leaves the cache alone |
| TreeLinks.LinksClosed | utils/initrd-put/initrd-put.c:391-433 | in the tree of a finished worklist every symbolic link resolves with at most 20 links, and the links met on the way and the path at the end are in the tree too, unless excluded or present |
| ElfCache.ItemsBetween | utils/initrd-put/enqueue-library.c:462-490 | with one resolver for the objects without a search path of their own, either branch enqueues at least the direct and at most the transitive dependencies, and an object with one gets what ldd prints for it |
| ElfCache.RunFindsNeeded | utils/initrd-put/enqueue-library.c:462-490 | with such a resolver every whole run, in any order, with or without the cache, ends with exactly what the roots need |
| ElfCache.CacheRefinesLdd | utils/initrd-put/enqueue-library.c:462-490 | a run with the cache and a run that asks ldd every time find the same paths |
| ElfCache.CacheCanLosePath | utils/initrd-put/enqueue-library.c:339-343 | a system in which they do not |
| ElfCache.CoveredIsUnnoticed | utils/initrd-put/enqueue-library.c:462-490 | they agree for all roots and orders when no objects build a cache that answers for another object without bringing along every path ldd names for that one |
| ElfCache.CacheUnnoticedIffCovered | utils/initrd-put/enqueue-library.c:462-490 | for every system whose ldd prints whole closures, they agree for all roots and orders if and only if that condition holds |
| ElfCache.CoveredIffLinesCover | utils/initrd-put/enqueue-library.c:257-351 | for every system, that condition holds if and only if it holds of the needed names and ldd's lines alone: whenever objects that each need a name ldd names for none of the earlier ones have lines that name everything another object needs, they and their lines hold every path ldd names for that one |
| ElfCache.CacheUnnoticedIffLinesCover | utils/initrd-put/enqueue-library.c:462-490 | for every system whose ldd prints whole closures, runs with and without the cache agree for all roots and orders if and only if this condition on names and lines holds |
| Classify.ClassifyAll | utils/initrd-put/initrd-put.c:863-904 | each file is in exactly one list; hardlinks are those with an earlier file on their inode, and their target is the first of these and in the list of files |
| Install.EveryRunIsSafe | utils/initrd-put/initrd-put.c:924-948 | in every interleaving the counter is the number of flags, no two workers have the same file, no index is taken twice in a pass, and there are at most as many further passes as files |
| Install.FinishedInstallsAll | utils/initrd-put/initrd-put.c:1171-1221 | however many workers and however they interleave, a finished run has installed exactly what can be installed in some order |
| Install.FailsIffImpossible | utils/initrd-put/initrd-put.c:1223-1230 | the final count falls short exactly when some file cannot be installed |
| InstallLinks.LinksNeverStop | utils/initrd-put/initrd-put.c:737-793 | when every hardlink whose target can be installed needs only directories, files that need only directories, and what the target needs, no interleaving stops at one |
| InstallLinks.LinksStopIffNotReady | utils/initrd-put/initrd-put.c:746-785 | with two workers when targets need directories only, and with a worker for every file when needs are closed, some interleaving stops at a hardlink if and only if that condition fails |
| InstallLinks.LinksCanStop | utils/initrd-put/initrd-put.c:746-785 | an interleaving that stops at a hardlink although every file can be installed |
| InstallLinks.ClassifiedIsPartitioned | utils/initrd-put/initrd-put.c:863-904 | the lists of classify_file, the directories in whatever order, share no file, name none twice and hold the whole tree, as the results on setups ask |
| Depinfo.VisitBuiltin | utils/depinfo/kmod-depinfo.c:410-437 | prints a builtin of the kernel's list once and leaves the depth as it was |
| Depinfo.Visit | utils/depinfo/kmod-depinfo.c:651-712 | visits exactly what the module leads to that was not visited, prints each once, and restores the depth unless modules are not shown and the depth is above one |
| Depinfo.VisitedIsReachable | utils/depinfo/kmod-depinfo.c:288-313 | a walk from nothing has visited exactly what the roots lead to |
| Depinfo.ReachableIsLeast | utils/depinfo/kmod-depinfo.c:674-711 | what is reached is the least set that holds the roots and, if dependencies are followed, what its readable modules depend on |
| Depinfo.WalkAll | utils/depinfo/kmod-depinfo.c:461-522 | ends on every finite graph, prints every reachable module and builtin that is shown exactly once and no other, fails exactly when some module cannot be read, and restores the depth |
| Environ.WriteValue | features/runtime/src/environ/environ.c:58-69 | the strpbrk loop escapes exactly the special characters |
| Environ.EscapedAt | features/runtime/src/environ/environ.c:58-69 | each dollar sign, backquote, double quote and backslash of a value stands behind a backslash, every other character for itself, and nothing else is written |
| Environ.ShowEnviron | features/runtime/src/environ/environ.c:37-77 | prints one quoted line per variable |
| Environ.ParseValue | features/runtime/src/environ/environ.c:129-145 | the loop with its flag finds the unescaped value and the closing quote, or reports that there is none |
| Environ.SetEnviron | features/runtime/src/environ/environ.c:79-158 | reads the assignments in order or the first error |
| Environ.ShownRead | features/runtime/src/environ/environ.c:37-158 | for all values, what is printed is read back with the leading blanks of names removed |
| Environ.RoundTrip | features/runtime/src/environ/environ.c:37-158 | everything comes back unchanged if and only if no printed name starts with a blank |
| Environ.EnvironmentIs | features/runtime/src/environ/environ.c:154 | with distinct names the environment that results is the one that was listed, but for an empty name |

## Left out

- `list_sort`: the callback `cmp(priv, b, b)` that `merge_final` makes on counter wrap-around has no effect on a pure comparison and is not modelled.
- Forks, file moves of workers and pipe writes that fail, and an overflowing inotify queue: NoLostEvent is about runs without them.
- `apply_pause` reads its directory in one step, and watch descriptors are never reused. The message that inotify sends after a watch is gone is not modelled; it marks a watch only when the inode was reused before the removal was read.
- RemovalCanBreak: uses that a new directory may get the inode of a removed one; for an unpaused queue and a daemon in its main loop RemovalBreaks does without.
- UeventTimers.Sweep: the answers of inotify and of rename are parameters; that the answers are honest, as SweptServes asks, is TimerQueueServed.
- CpioFiles.Output.WriteCpio: for fields of 2^32 and above, which no archive that was read has, the program prints more than eight digits.
- `parse_timer_due`: signs and blanks that `strtoull` accepts before the digits, and due times of 2^63 and above.
- `parse_header`: blanks, signs and prefixes that `strtoul` accepts inside a field; `rdev`, which is computed from two fields.
- `read_cpio` and `read_stream` compare a magic beyond the end of the input when the input is too short; the model treats these bytes as not matching, and a bootconfig that would start before the image as an error.
- Extraction.ReadStream: nesting of compressed data is bounded by a depth parameter; the program recurses without a bound.
- The names of compression methods that `read_stream` attaches to archives, and images that end in compressed data without a bootconfig whose last bytes happen to hold its magic.
- `parse_service`: the LSB header parser of sort-services, and its JSON and directory output.
- Canonicalize.EnqueueCanonicalized: the second buffer, into which a link's text is moved, is a sequence with its length check; the working directory's name is shorter than PATH_MAX.
- Recursion.WalkArguments: about runs in which canonicalising an argument or a link in the queue does not stop the program.
- `enqueue_directory`: what fts finds below a directory is a parameter.
- Worklist.Run: what one path depends on is a parameter; the prefix that is cut off destination names and lstat errors other than ENOENT are not modelled.
- `enqueue_elf_dlopen`, the parsing of ldd's lines and ELF headers.
- ElfCache.CacheUnnoticedIffCovered: the direction from unnoticeable to covered asks that ldd prints with each library its libraries and that the interpreter loads nothing; CoveredIsUnnoticed asks only that ldd names the interpreter and that the interpreter loads nothing.
- ElfCache.CacheRefinesLdd: excluded and already present paths, which end the search early, are set aside.
- Install.FinishedInstallsAll: copying of contents, permissions and pre-existing destination files; creating a file succeeds exactly when what its path runs through exists.
- InstallLinks.LinksStopIffNotReady: no path of a hardlink or its target runs through a hardlink. With two workers and targets that need more than directories the condition is sufficient and not necessary, as with files m, t, n in this order, where t and n need m and t is the target.
- The order that qsort gives the directories: InstallLinks takes directories in an order in which they can be created one after another, which ParentsFirst derives from compare_dir_order.
- Depinfo.WalkAll: a name that is not in the kernel's list of builtins is printed each time it is met; once-only printing is about builtins in the list.
- `process_firmware`, blacklists and alias lookup of depinfo, and modules without a path.
- `environ -s` and `unset_environ`; input with NUL bytes, at the first of which the program stops reading, and environment entries without `=`.
- The decompressors, `ueventd-mounts`, `initrd-scanmod`, `udev-rules` other than its sort, `initrd-ls` and the shell tools would add easier members.
