# Layered context memory and its surroundings, in Dafny

A Dafny 4.11 model of an agent harness and proofs about it. The main subject is the layered context memory of
`packages/agent-context`; around it stand eight smaller parts of the same repository, each with its own hard property.

**Context memory.** The live conversation is a system head, then summary segments, then a raw tail. A compaction folds
the older raw messages into a new leaf segment; runs of b segments of one depth are merged into a parent one level
deeper. An archive keeps every message and a growing graph of summary rows (parents, direct sources), and several
walkers read it: expansion, scoped search, depth, manifest. The model runs this with an arbitrary tape of summarizer
and agent answers, any of which may be missing or rejected, and proves

- *no history is lost*: at every point of every run, expanding the active segments in order and appending the raw
  tail gives everything ever appended, in order and multiplicity (`Session.HistoryIsNeverLost`), and the archive's own
  expansions show it, recollection exchanges aside (`Recall.EveryRunIsRecalled`);
- *the frontier is a numeral*: depths from oldest to newest are the digits of the number of leaves in base b, merging is
  carrying, and after a settled commit there are at most b (1 + log_b leaves) segments (`Session.RunStaysLogarithmic`);
- *all readers agree*: every walk of the archive covers one closure (`ContextArchive.WalksAgree`), the stored depth is
  its longest path, the manifest the first sixteen nodes of its preorder;
- *summaries pay for themselves*: the text kept plus nine characters for each archived row never exceeds the text
  appended (`Reduction.RowsArePaidFor`);
- *every raw message is accounted for* on every path of an attempt (`Accounting.AttemptAccounts`);
- *every exit of an attempt has its exact condition*, read off conversation, configuration and answers: when it merges,
  when it commits a leaf, what that leaf records, and when neither happens (`Decisions.AttemptDecides`).

**Around it.** Cutting a byte stream at its end marker, capped retention and the evicting store of outputs
(`OutputFraming`, `OutputRetention`); latest-wins reconciliation as atomic steps between awaits (`Reconcile`); stable
port allocation (`Ports`); the durable job lifecycle (`ProcessJobs`); the retry and failover loop (`Resilience`);
two-stage streaming reassembly and message translation (`AnthropicStream`, `MessageTranslation`); answering tool calls
(`ToolCalls`); line-anchored edits (`Hashline`).

Beside each property stands what it rests on: the functions the methods are proved against are themselves described
without their own names, on all inputs (`Compactor.PruneIs`, `Summarize.TailStartIs`, `Frontier.BatchIsFirstRun`,
`ArchiveWalks.PreWalkIsTree`, `ToolCalls.BatchIs`, `Hashline.ResolveIs`, `Ports.ResolveIs`, `Resilience.RespondIs`,
`ProcessJobs.EndsAs` and `RecordedIs`, `OutputFraming.FramedIs`). The reconciler not only never loses a request or keeps
an unwanted worker: its drains end (`Reconcile.DrainsEnd`), and then the worker of a started agent is up
(`WorkerComesUp`).

**Form.** Code that updates state or loops is modelled by classes and methods with loops (`ContextArchive.Archive`,
`Lcm.LcmEngine`, `Compactor.ContextCompactor`, `OutputRetention.Cell` and `OutputStore`, `Ports.PortAllocator`,
`Resilience.ProviderSet`, `ToolCalls.LoopState`, and free methods), each proved equal to a specification function of the
old state; the properties are lemmas about those functions. The two protocols that interleave across awaits
(`Reconcile`, `ProcessJobs`) are state machines whose events are the atomic steps.

**Reading the main theorem.** `Sound` says of archive and conversation: the archive is valid, the conversation is head,
marked segments, tail; the segments have pairwise disjoint provenance, their depth marks are the stored depths, never
increase, and their weights b^depth add up to the leaves recorded. `Recovered` is what the conversation stands for.
`Remembers` joins both to the list of everything appended. The recollection pair that a compaction may link as an extra
source is left out of `Recovered` by a ledger of how many trailing sources of a row are testimony; the ledger is proved
honest, so only exchanges of the recollection prompt and an answer are ever left out. The leaves counted are the rows
without parents (`LeafCount.LeavesAreRowsWithoutParents`).

**Where the code does not do what one might expect**, the exact condition is proved:

- an attempt that pruned tool output gives it up again when a batch was ready, its merge was refused and the fresh
  messages are not due: iff (`Decisions.PruningIsDroppedIff`; such an attempt: `RefusedMergeDropsPruning`);
- a stream that goes on after its end marker retains late bytes, depending on the chunking: harmless iff fewer bytes
  than the marker has follow (`OutputFraming.LateBytes`; such a stream: `LateBytesLeak`);
- a rest snapshot drops system messages of the raw tail: complete iff there is none (`Snapshot.SnapshotIsComplete`; such
  a run: `TailSystemIsDropped`);
- a start reply that arrives late writes output to an interrupted job: iff it still runs and brings output
  (`ProcessJobs.TerminalOutputChangesIff`; such a job: `LateStartWritesToTerminalRow`);
- failover windows that expire during a call keep the retry loop going: calls are bounded iff there is one endpoint, or
  for calls shorter than some time, iff that time is no longer than a window (`Resilience.BoundHoldsIff`,
  `BoundHoldsWithinIff`; such a loop: `ExpiringWindowsNeverEnd`);
- a pinned port is stored without a search: ports stay distinct iff it is free and not the agent's own tunnel
  (`Ports.PinKeepsDistinctIff`; such a pin: `PinsCanClash`);
- a block index used twice joins the names of both blocks (`AnthropicStream.NameIsOwnIff`; such a stream:
  `ReusedIndexJoinsNames`);
- the comment on line edits says a file without final newline never gains one; a replacement that ends in a blank last
  line gives it one, and then the order of disjoint edits can matter (`Hashline.FinalNewlineIsKeptIff`,
  `DisjointEditsCommuteIff`; such edits: `BlankLineAddsFinalNewline`, `OrderOfEditsShows`);
- a call after one that ends in rest stays unanswered: all are answered iff no call before the last rests without an
  earlier interruption (`ToolCalls.AllAnsweredIff`; such a batch: `RestLeavesCallUnanswered`).

`dafny verify dfyconfig.toml` checks the whole project.

## Model

| member | source | states |
|---|---|---|
| `Session.HistoryIsNeverLost` | packages/agent-context/src/lcm.ts:66-156 | over every run of appends, compaction attempts and rest compactions, for every behaviour of the summarizer and the agent, what the active segments expand to, in order, followed by the raw tail is everything ever appended (a pruned output may stand for an archived original), testimony left out; the frontier stays a sound numeral: marked depths are the stored ones, never increase, and their weights add up to the leaves recorded |
| `Session.HistoryIsAppended` | packages/agent-context/src/lcm.ts:66-156 | the history the theorem speaks of is what the events of the run appended |
| `Recall.EveryRunIsRecalled` | packages/agent-context/src/sqlite-archive.ts:619-652 | over every run, the system head, what the archive's own expansions of the active segments find, recollection exchanges stripped, and the raw tail are everything ever appended |
| `Recall.ExpansionsRecallHistory` | packages/agent-context/src/sqlite-archive.ts:619-652 | so in any remembered session, and each stretch stripped is a recollection exchange |
| `LeafCount.LeavesAreRowsWithoutParents` | packages/agent-context/src/sqlite-archive.ts:363-407 | over every run, the leaves the frontier's weights add up to are the archived rows without parents |
| `Session.FreshRemembers` | packages/agent-context/src/lcm.ts:50-64 | the invariant of `HistoryIsNeverLost` holds of a fresh session |
| `Session.RunStaysLogarithmic` | packages/agent-context/src/lcm.ts:140-156 | at every point of every run from a fresh session, when no overflow batch is left, each depth occurs at most b times and there are at most b (1 + log_b leaves) segments |
| `Session.CommitIsLogarithmic` | packages/agent-context/src/lcm.ts:140-156 | after a commit that bound holds, unless the answer for the very batch last asked about did not pass the gate |
| `Session.RestRemembers` | packages/agent-context/src/compactor.ts:346-368 | a rest compaction, which keeps no tail, loses nothing either |
| `Session.RestKeepsNoTail` | packages/agent-context/src/compactor.ts:346-368 | with the sizing of a rest compaction the cut is at the end |
| `Session.AttemptRemembers` | packages/agent-context/src/compactor.ts:153-318 | nor does any compaction attempt, on any of its paths |
| `Attempts.AttemptLosesNothing` | packages/agent-context/src/compactor.ts:153-318 | for every answer of summarizer and agent, an attempt keeps the frontier sound and the recovered history unchanged, except for pruned outputs whose originals were archived before |
| `Attempts.CommitKeeps` | packages/agent-context/src/lcm.ts:131-163 | a commit of a leaf with its merges keeps the frontier sound with one more leaf, adds one row for the leaf and one per merge, and recovers the same history |
| `Attempts.LeafKeeps` | packages/agent-context/src/sqlite-archive.ts:276-291 | recording and marking the leaf alone: the folded messages and the new segment recover the same history |
| `Accounting.AttemptAccounts` | packages/agent-context/src/compactor.ts:153-318 | for every conversation whatsoever: an attempt not applied returns its input; otherwise each raw message, in order, is kept verbatim, or kept as an excerpt whose original is archived in the same call, or is a direct source of the new leaf; a rejected or failed summary records no row |
| `Accounting.LeafOnlyWhenDue` | packages/agent-context/src/compactor.ts:114-244 | a leaf is recorded only when the trigger is reached, pruning did not suffice, a summarizer is there, and the attempt is a first one, has enough new messages or is past the hard trigger |
| `Decisions.AttemptDecides` | packages/agent-context/src/compactor.ts:153-318 | for every conversation, configuration and tape of answers, which exit an attempt takes and what it records there, by its inputs: it merges iff it goes on after pruning and the first answer passes the gate over the first run of b segments; else it commits a leaf iff the fresh messages are due, the draft passes the gate and the folded conversation has a smaller estimate; the leaf row has the committed text, the folded messages and the exchange; otherwise it returns what pruning left |
| `Decisions.PlainAttemptCommitsIff` | packages/agent-context/src/compactor.ts:289-296 | on the plain path a leaf is committed iff the estimate of the folded conversation is smaller |
| `Decisions.LeafShrinksEstimate` | packages/agent-context/src/compactor.ts:289-296 | on every path a leaf is only committed for a conversation with a smaller estimate |
| `Decisions.PruningIsDroppedIff` | packages/agent-context/src/compactor.ts:222-245 | pruned output is given up again iff a batch was ready, its merge was refused and the fresh messages are not due |
| `Decisions.RefusedMergeDropsPruning` | packages/agent-context/src/compactor.ts:222-245 | a concrete attempt in which that happens |
| `Decisions.SummarizeIff` | packages/agent-context/src/compactor.ts:246-318 | the summarizing stage: which text is committed, with or without testimony, and when nothing is |
| `Decisions.MergesIff` | packages/agent-context/src/lcm.ts:66-125 | merging changes anything iff the first answer is accepted for the first ready run |
| `Decisions.CompactIff` | packages/agent-context/src/summarize.ts:387-514 | a compaction is made iff something is cut and the answer passes the gate; it folds exactly the messages before the cut |
| `Decisions.RestFoldsIff` | packages/agent-context/src/compactor.ts:346-368 | at rest everything behind the head is folded iff there is anything and the answer passes the gate |
| `Accounting.CompactAccounts` | packages/agent-context/src/summarize.ts:407-416 | a compaction keeps head and raw tail and folds exactly the raw messages between, followed by the testimony pair |
| `Accounting.CommitAccounts` | packages/agent-context/src/lcm.ts:131-163 | a commit touches no other raw message, and the leaf row links exactly the compacted messages |
| `Accounting.ConsolidateAccounts` | packages/agent-context/src/lcm.ts:78-119 | merging touches no raw message and adds one row per merge |
| `Reduction.RowsArePaidFor` | packages/agent-context/src/lcm.ts:66-156 | over every run, the text of the conversation plus nine characters for each archived row never exceeds the text appended: a history of n characters is summarized at most n / 9 times, and nothing lengthens it |
| `Reduction.AttemptPays` | packages/agent-context/src/compactor.ts:153-318 | on every path of an attempt each recorded row has saved nine characters of text |
| `Reduction.AcceptedSaves` | packages/agent-context/src/summarize.ts:540-550 | an accepted summary, at least 80 characters and at most nine tenths of what it replaces, saves at least nine characters |
| `Reduction.CompactSaves` | packages/agent-context/src/summarize.ts:387-514 | a compaction does |
| `Reduction.MergeSaves` | packages/agent-context/src/lcm.ts:78-119 | a merge does |
| `History.ConsolidateKeeps` | packages/agent-context/src/lcm.ts:66-125 | any number of merges, for any answers, keeps the frontier sound and the recovered history the same |
| `History.MergeKeeps` | packages/agent-context/src/lcm.ts:78-119 | one merge does |
| `History.MergesShrink` | packages/agent-context/src/lcm.ts:78-119 | the merge loop ends for every summarizer: each merge shortens the conversation by b - 1 |
| `History.StopsOnlyWhenDeclined` | packages/agent-context/src/lcm.ts:78-119 | merging stops only when no batch is left or the answer for the one asked about does not pass the gate, and uses up no further answer |
| `History.MergesTakeAnswersInOrder` | packages/agent-context/src/lcm.ts:78-119 | the merged rows have the texts of the answers, in order, and only the first links the exchange |
| `History.NormalizeTidy` | packages/agent-context/src/sqlite-archive.ts:212-226 | normalizing depth markers changes nothing in a session conversation |
| `Numerals.CarryKeepsWeight` | packages/agent-context/src/lcm.ts:78-119 | replacing b equal digits by one digit above keeps the weighted sum |
| `Numerals.CarryKeepsOrder` | packages/agent-context/src/sqlite-archive.ts:293-309 | carrying the first run of the required length keeps depths sorted from oldest to newest |
| `Numerals.EachDepthAtMost` | packages/agent-context/src/sqlite-archive.ts:293-309 | a sorted frontier without a run of b + 1 equal depths has no depth more than b times |
| `Numerals.SettledFrontierIsLogarithmic` | packages/agent-context/src/lcm.ts:140-156 | such a frontier has at most b (1 + log_b weight) segments |
| `Numerals.LogIsLargestExponent` | packages/agent-context/src/lcm.ts:140-156 | the logarithm used is the largest exponent whose power does not exceed its argument |
| `Provenance.RecordedWalk` | packages/agent-context/src/sqlite-archive.ts:451-462 | the walk beneath a row recorded over disjoint parents is the parents' walks in order, then the row |
| `Provenance.MergeKeepsDisjoint` | packages/agent-context/src/sqlite-archive.ts:363-407 | replacing a run of disjoint segments by one recorded over the run keeps the frontier disjoint |
| `Provenance.RecordedBehind` | packages/agent-context/src/sqlite-archive.ts:451-462 | a recorded row stands for what its parents stood for, in order, then for its own sources |
| `Provenance.RecordedDepth` | packages/agent-context/src/sqlite-archive.ts:181-189 | a row over parents that all have depth d has stored depth d + 1; a leaf has 0 |
| `Provenance.WalkIgnoresLaterRow` | packages/agent-context/src/sqlite-archive.ts:451-472 | appending a row changes no earlier walk |
| `ArchiveWalks.PostWalkFacts` | packages/agent-context/src/sqlite-archive.ts:451-472 | the shared-`seen` walk over any graph, cyclic or not: each new node once, only nodes reachable from the roots, every parent of a listed node seen |
| `ArchiveWalks.PostWalkIsClosure` | packages/agent-context/src/sqlite-archive.ts:464-472 | it covers exactly the reflexive-transitive parents |
| `ArchiveWalks.PreWalkListsEachOnce` | packages/agent-context/src/sqlite-archive.ts:501-545 | the manifest preorder lists each node it newly sees exactly once |
| `ArchiveWalks.ManifestIsPreorderPrefix` | packages/agent-context/src/sqlite-archive.ts:501-545 | stopping at sixteen seen ids cuts the preorder short and changes nothing else |
| `ArchiveWalks.ManifestOfSummary` | packages/agent-context/src/sqlite-archive.ts:501-545 | the manifest is the first min(16, n) entries of the preorder of the n-node closure, truncated iff n > 16 |
| `ArchiveWalks.PreWalkPlacesEach` | packages/agent-context/src/sqlite-archive.ts:501-545 | every entry of the preorder is a root or names as its parent the last earlier entry that is less deep, a child of its node, one step closer to the root |
| `ArchiveWalks.PreWalkOrdersSiblings` | packages/agent-context/src/sqlite-archive.ts:501-545 | the parents of one node are listed in their stored order |
| `ArchiveWalks.PreWalkIsTree` | packages/agent-context/src/sqlite-archive.ts:501-545 | so the preorder and each of its beginnings lists the tree behind the summary |
| `ArchiveWalks.StoredDepthIsLongestPath` | packages/agent-context/src/sqlite-archive.ts:181-189 | in an acyclic archive the stored depth is the length of the longest parent path, and some path has it |
| `ContextArchive.WalksAgree` | packages/agent-context/src/sqlite-archive.ts:414-472 | the recursive SQL tree, the node-id walk and the nodes behind an expansion are one closure; a message is expanded iff it is in the scoped grep |
| `ContextArchive.RecordKeepsValid` | packages/agent-context/src/sqlite-archive.ts:363-407 | every recorded compaction keeps the archive acyclic, its parent lists free of repetition and its links free of dangling ids |
| `ContextArchive.RecordShape` | packages/agent-context/src/sqlite-archive.ts:363-407 | one recorded compaction: the parents are the candidates that have a row, or for lack of candidates the superseded segment; a superseded segment that is no parent becomes the first source; no other row changes |
| `ContextArchive.InsertAllIsAppendOnly` | packages/agent-context/src/sqlite-archive.ts:156-175 | inserting messages adds the missing digests, each with its own message, and changes no row |
| `ContextArchive.ExpansionRestoresOriginals` | packages/agent-context/src/sqlite-archive.ts:619-652 | in a valid archive expansion finds the stored original of every id |
| `ContextArchive.PagingIsComplete` | packages/agent-context/src/sqlite-archive.ts:605-630 | reading `count` pages one after the other returns every message once, in order, iff `count` reaches the estimated number of pages |
| `ContextArchive.Admitted` | packages/agent-context/src/sqlite-archive.ts:374-407 | recorded parents are the candidates that exist, each once |
| `ContextArchive.Bounded` | packages/agent-context/src/sqlite-archive.ts:151-154 | a page limit is the floored value capped at the maximum, and the fallback when absent or below one |
| `ContextArchive.Offset` | packages/agent-context/src/sqlite-archive.ts:619-652 | an offset is floored, and zero when absent or not positive |
| `ContextArchive.Page` | packages/agent-context/src/sqlite-archive.ts:619-652 | a page is up to `limit` consecutive elements from the offset on |
| `ContextArchive.Archive.constructor` | packages/agent-context/src/sqlite-archive.ts:88-93 | a new archive is empty and valid |
| `ContextArchive.Archive.InsertMessage` | packages/agent-context/src/sqlite-archive.ts:156-165 | one message row is inserted unless its digest is there |
| `ContextArchive.Archive.ArchiveMessages` | packages/agent-context/src/sqlite-archive.ts:167-175 | exactly the messages that are no summaries are stored, and their ids returned in order |
| `ContextArchive.Archive.LinkSources` | packages/agent-context/src/sqlite-archive.ts:374-407 | the compacted messages are stored and linked in order |
| `ContextArchive.Archive.ExistingParents` | packages/agent-context/src/sqlite-archive.ts:374-407 | the loop over parent candidates computes the admitted parents |
| `ContextArchive.Archive.RecordCompaction` | packages/agent-context/src/sqlite-archive.ts:363-407 | one compaction adds one row with its admitted parents and its links, and nothing else |
| `ContextArchive.Archive.CollectMessageIds` | packages/agent-context/src/sqlite-archive.ts:451-462 | the recursive collector with its shared set returns the direct ids of the walk, node after node |
| `ContextArchive.Archive.CollectNodeIds` | packages/agent-context/src/sqlite-archive.ts:464-472 | the node-id collector returns what the walk sees |
| `ContextArchive.Archive.CollectManifest` | packages/agent-context/src/sqlite-archive.ts:501-545 | the manifest collector computes the capped preorder |
| `ContextArchive.Archive.SummaryDepth` | packages/agent-context/src/sqlite-archive.ts:181-189 | the recursive depth query, which copies the path set for every branch, computes the stored depth |
| `ContextArchive.Archive.RecursiveTree` | packages/agent-context/src/sqlite-archive.ts:414-424 | the queue evaluation of the recursive query ends with the closure |
| `ContextArchive.Archive.Describe` | packages/agent-context/src/sqlite-archive.ts:548-617 | depth, node count, manifest, truncation flag, children and page estimate all describe one closure; the manifest lists its tree, each entry with its parent and its distance from the root |
| `ContextArchive.Archive.Expand` | packages/agent-context/src/sqlite-archive.ts:619-652 | one page of the expansion, or nothing iff the id is unknown |
| `Frontier.AttachMarksNewSegment` | packages/agent-context/src/sqlite-archive.ts:276-291 | the id goes to the new segment iff every earlier summary has one |
| `Frontier.FirstRunIsFirst` | packages/agent-context/src/sqlite-archive.ts:293-309 | the search returns the first run of the required length |
| `Frontier.BatchIsFirstRun` | packages/agent-context/src/sqlite-archive.ts:293-309 | in any conversation the batch found is the b oldest members of the first run of b (or b + 1, for an overflow) consecutive equal-depth segments, and there is none iff there is no such run |
| `Frontier.ActiveIdsInOrder` | packages/agent-context/src/sqlite-archive.ts:197-210 | the active ids are those of the summaries that have one, in order |
| `Frontier.NormalizeMarksDepth` | packages/agent-context/src/sqlite-archive.ts:212-226 | normalizing gives depth 0 to the summaries with an id and no depth, and changes nothing else |
| `Frontier.BatchMember` | packages/agent-context/src/sqlite-archive.ts:293-309 | the members of a batch are consecutive messages of one depth |
| `Frontier.MergeIsSplice` | packages/agent-context/src/sqlite-archive.ts:311-322 | replacing a batch replaces b consecutive summaries by one message |
| `Frontier.RawOfSplice` | packages/agent-context/src/sqlite-archive.ts:311-322 | and leaves the raw messages as they are |
| `Conversation.BatchOfTidy` | packages/agent-context/src/sqlite-archive.ts:293-309 | the batch found in a session conversation is the first run of equal depths of the frontier |
| `Conversation.NoBatchOfTidy` | packages/agent-context/src/sqlite-archive.ts:293-309 | when none is found the frontier has no such run |
| `Lcm.MergeOnce` | packages/agent-context/src/sqlite-archive.ts:311-322 | one merge makes the list b - 1 shorter |
| `Lcm.MergeIsRecorded` | packages/agent-context/src/lcm.ts:88-115 | one merge adds a row with the text, the batch as parents and the testimony as sources, and puts a segment of that row in place of the batch, one level deeper |
| `Lcm.LeafIsRecorded` | packages/agent-context/src/lcm.ts:131-138 | a leaf is a parentless row with the text, linked to everything folded |
| `Lcm.AcceptsIffPasses` | packages/agent-context/src/summarize.ts:540-550 | the gate in whole numbers: at least 80 characters, no meta-reply, ten times the length at most nine times what is replaced |
| `Lcm.MergeTextIff` | packages/agent-context/src/lcm.ts:88-105 | a batch is merged iff the answer passes the gate over its bodies |
| `Lcm.FindMergeableBatch` | packages/agent-context/src/sqlite-archive.ts:293-309 | the search loop finds the specified batch |
| `Lcm.LcmEngine.constructor` | packages/agent-context/src/lcm.ts:50-52 | a batch size below two is raised to two |
| `Lcm.LcmEngine.RecordMerge` | packages/agent-context/src/lcm.ts:88-115 | one iteration of the merge loop: the row recorded and the list left |
| `Lcm.LcmEngine.ConsolidateFrontier` | packages/agent-context/src/lcm.ts:66-125 | the merge loop over the archive ends in the state `Consolidate` describes, whatever the summarizer answers |
| `Lcm.LcmEngine.CommitCompaction` | packages/agent-context/src/lcm.ts:131-163 | recording, marking and merging end in the state `Commit` describes |
| `Summarize.ChooseTailStart` | packages/agent-context/src/summarize.ts:332-351 | the two loops compute the cut |
| `Summarize.ScanIsMaximal` | packages/agent-context/src/summarize.ts:332-351 | before backing up the tail is within the limits, keeps the minimum, and is out of the limits with one message more |
| `Summarize.ScanIsUnique` | packages/agent-context/src/summarize.ts:332-351 | it is the only start that is within the limits and out of them one message on |
| `Summarize.TailStartIs` | packages/agent-context/src/summarize.ts:332-351 | the cut itself: back from that start over tool results only, to the first message that is none |
| `Summarize.ExtendsWithinLimits` | packages/agent-context/src/summarize.ts:340-349 | a message joins the tail iff the longer tail is within the limits |
| `Messages.SummaryWidthIs` | packages/agent-context/src/sqlite-archive.ts:267-274 | the length of a summary is that of its envelope, a line for each marker, and its body |
| `Summarize.ScanKeepsMinimum` | packages/agent-context/src/summarize.ts:332-351 | at least min(minKeep, n) messages are kept, for all limits |
| `Summarize.ResolveKeep` | packages/agent-context/src/summarize.ts:402-404 | the resolved options: the defaults 6, 40 and 60000, floors of 2 and 8000, zero meaning none, and never a maximum below the minimum |
| `Summarize.ResolvedScanIsMaximal` | packages/agent-context/src/summarize.ts:332-351 | so whatever options a call is given, its scan keeps the minimum, stays within the limits beyond it and would break them with one message more |
| `Summarize.BackUpStopsAtBoundary` | packages/agent-context/src/summarize.ts:332-351 | backing up passes tool messages only and stops before none |
| `Summarize.CutSeparatesNoCall` | packages/agent-context/src/summarize.ts:332-351 | a tool result that follows its call contiguously is on the same side of the cut |
| `Summarize.AddLine` | packages/agent-context/src/summarize.ts:213-248 | one line is cut into non-empty pieces that go below each other over chunks of bounded size |
| `Summarize.FillChunks` | packages/agent-context/src/summarize.ts:213-248 | the loop over lines keeps that for all of them, in order |
| `Summarize.SplitSummaryTranscript` | packages/agent-context/src/summarize.ts:213-248 | the chunks are the non-empty pieces of the lines, in order, grouped and written below each other; each is non-empty and at most maxChars long, all but the last full to one character |
| `Summarize.SplitLosesNothing` | packages/agent-context/src/summarize.ts:213-248 | so apart from line breaks nothing is lost, and newline-free lines are recovered by erasing the breaks |
| `Summarize.SummarizeConversation` | packages/agent-context/src/summarize.ts:387-514 | the whole call is the specified compaction, and it folds as many messages as the candidate count says |
| `Compactor.PruneToolOutputs` | packages/agent-context/src/compactor.ts:75-107 | the backward scan and the mapping pass compute the pruned list and its counts |
| `Compactor.FindProtectedStart` | packages/agent-context/src/compactor.ts:75-90 | the backward scan ends at the start of the protected tail |
| `Compactor.PruneShape` | packages/agent-context/src/compactor.ts:75-107 | pruning keeps length, roles and call ids, and shortens the content by exactly what it reports |
| `Compactor.PruneIs` | packages/agent-context/src/compactor.ts:75-107 | exactly what is pruned: every output in front of the protected tail that is long enough, unmarked, of no protected tool and longer than its excerpt, or nothing when that saves too little; and the two counts reported |
| `Compactor.ExposedIff` | packages/agent-context/src/compactor.ts:75-90 | a message is in front of the protected tail iff the messages after it reach the limit |
| `Compactor.NameIsLast` | packages/agent-context/src/compactor.ts:51-65 | a tool output is attributed to the last call of its id |
| `Compactor.ExcerptShape` | packages/agent-context/src/compactor.ts:94-98 | an excerpt is marker, notice and the two ends of the content |
| `Compactor.PruneIsIdempotent` | packages/agent-context/src/compactor.ts:75-107 | pruning a pruned conversation changes nothing |
| `Compactor.ProtectedSuffixReachesLimit` | packages/agent-context/src/compactor.ts:75-90 | a protected tail that leaves something before it reaches the limit by itself |
| `Compactor.ShorterSuffixFallsShort` | packages/agent-context/src/compactor.ts:75-90 | and no shorter suffix does |
| `Compactor.ContextCompactor.Attempt` | packages/agent-context/src/compactor.ts:153-318 | one attempt ends in the exit `MaybeCompact` describes, and the archive holds that exit's tables |
| `Compactor.ContextCompactor.Escalate` | packages/agent-context/src/compactor.ts:196-244 | its merging stage |
| `Compactor.ContextCompactor.Summarize` | packages/agent-context/src/compactor.ts:246-318 | its summarizing stage |
| `Snapshot.RecordRestSnapshot` | packages/agent-context/src/sqlite-archive.ts:325-360 | the rest snapshot over the archive is the specified one |
| `Snapshot.SnapshotKeepsHistory` | packages/agent-context/src/sqlite-archive.ts:325-360 | replayed behind a system head, the forests are a sound frontier and stand for everything except system messages |
| `Snapshot.SnapshotIsComplete` | packages/agent-context/src/sqlite-archive.ts:325-360 | a snapshot loses nothing iff the raw tail holds no system message |
| `Snapshot.SpokenAre` | packages/agent-context/src/sqlite-archive.ts:331-334 | the archived messages are those that are neither system messages nor summaries, in order |
| `Snapshot.TailSystemIsDropped` | packages/agent-context/src/sqlite-archive.ts:331-334 | a concrete run whose snapshot stands for less than its session |
| `OutputFraming.ChunkingIsIrrelevant` | packages/harness-client-node/src/python-kernel.ts:857-874 | as long as only the last chunk completes the marker, the retained bytes are those before the first marker, or all but the last min(m - 1, received), whatever the chunking |
| `OutputFraming.FramedIs` | packages/harness-client-node/src/python-kernel.ts:857-874 | those are the bytes in front of the first marker, or all but the last m - 1 as long as there is none |
| `OutputFraming.LateBytes` | packages/harness-client-node/src/python-kernel.ts:857-874 | a stream already done starts over: exactly the bytes before the first marker are retained iff fewer than m bytes follow in later chunks |
| `OutputFraming.LateBytesLeak` | packages/harness-client-node/src/python-kernel.ts:857-874 | a concrete stream whose retained bytes depend on the chunking after the marker |
| `OutputRetention.Cell.constructor` | packages/harness-client-node/src/python-kernel.ts:857-892 | a new cell has retained nothing |
| `OutputRetention.Cell.Retain` | packages/harness-client-node/src/python-kernel.ts:876-892 | both buffers stay the exact capped prefixes of all retained bytes, the flags set iff the total exceeds each cap |
| `OutputRetention.Cell.OnRaw` | packages/harness-client-node/src/python-kernel.ts:857-874 | a chunk retains exactly what the framing function says and changes only its own stream |
| `OutputRetention.Cell.OnStream` | packages/harness-client-node/src/python-kernel.ts:857-892 | after all chunks of one stream both buffers are the capped prefixes of the framed bytes, whatever the chunking |
| `OutputRetention.Cell.ArchiveData` | packages/harness-client-node/src/python-kernel.ts:950-959 | the archived output is the capped prefix of output and result text, and the flag says whether anything was cut |
| `OutputRetention.SurvivorsAreLongestSuffix` | packages/harness-client-node/src/python-kernel.ts:907-916 | eviction keeps the longest run of newest outputs of at most 32 and 32 MiB, or the newest alone |
| `OutputRetention.TotalIsLength` | packages/harness-client-node/src/python-kernel.ts:907-916 | the size counted is the number of bytes held |
| `OutputRetention.WithoutFacts` | packages/harness-client-node/src/python-kernel.ts:901-904 | re-filing an id removes its earlier output only |
| `OutputRetention.OutputStore.constructor` | packages/harness-client-node/src/python-kernel.ts:894-898 | an empty store is valid |
| `OutputRetention.OutputStore.Clear` | packages/harness-client-node/src/python-kernel.ts:894-898 | clearing leaves a valid empty store |
| `OutputRetention.OutputStore.Delete` | packages/harness-client-node/src/python-kernel.ts:901-904 | the byte counter follows a deletion |
| `OutputRetention.OutputStore.RememberOutput` | packages/harness-client-node/src/python-kernel.ts:900-917 | the store stays within 32 outputs and 32 MiB, its counter is the sum of sizes, the filed output is newest and latest, and the survivors are the specified suffix |
| `OutputRetention.OutputStore.Evict` | packages/harness-client-node/src/python-kernel.ts:907-916 | the eviction loop terminates with the specified survivors |
| `Reconcile.NoRequestIsLost` | apps/server/src/agent-manager.ts:106-130 | under every interleaving at most one reconcile is in progress, and while open, with no drain queued or running, the last generation reconciled is the last requested |
| `Reconcile.RevisionIsAppliedOnce` | apps/server/src/agent-manager.ts:231-257 | between two clearings of its mark no revision is applied twice |
| `Reconcile.InstallsOnlyCurrent` | apps/server/src/agent-manager.ts:321-362 | a supervisor is installed only for the enabled, current revision of the latest request |
| `Reconcile.LatestRevisionIsAttempted` | apps/server/src/agent-manager.ts:106-130 | after any run, any request and then drain steps without fault, busy worker or crash: once nothing is queued or running, the stored revision of an enabled local agent has been attempted |
| `Reconcile.WorkerComesUp` | apps/server/src/agent-manager.ts:231-362 | after any run, a start or restart and then such drain steps: once nothing is queued or running, the worker of an enabled local agent is up |
| `Reconcile.DrainsEnd` | apps/server/src/agent-manager.ts:106-130 | every step a drain takes lowers a bound on the steps left while no request comes in, so drains end |
| `Reconcile.DrainsCanEnd` | apps/server/src/agent-manager.ts:106-130 | and from every reachable state at most that many steps end them all |
| `Reconcile.AppliedStaysUp` | apps/server/src/agent-manager.ts:288-319 | a worker that takes new settings stays up; one that does not is replaced |
| `Reconcile.RequestIs` | apps/server/src/agent-manager.ts:106-111 | what a request does to the generation, the queue and the timers |
| `Reconcile.StoresAre` | apps/server/src/agent-manager.ts:136-176 | what create, edit, start, stop and close store |
| `Reconcile.RemoteHasNoWorker` | apps/server/src/agent-manager.ts:231-271 | and an agent served elsewhere has no worker here |
| `Reconcile.BusyIsRetriedIff` | apps/server/src/agent-manager.ts:257-266 | a busy worker is asked again by timer iff the reconcile still serves the last request of an enabled agent |
| `Reconcile.StoppedMeansNoWorker` | apps/server/src/agent-manager.ts:136-176 | no interleaving leaves a worker up for a stopped agent or a closed manager |
| `Reconcile.RunKeeps` | apps/server/src/agent-manager.ts:106-271 | the invariant behind these holds along every run |
| `Ports.FindFree` | apps/server/src/agent-manager.ts:201-221 | the search loop ends at the least free port at or above its start |
| `Ports.LeastFree` | apps/server/src/agent-manager.ts:201-221 | that port is free and every port before it is taken |
| `Ports.PortAllocator.constructor` | apps/server/src/agent-manager.ts:73-77 | nothing is allocated at first |
| `Ports.PortAllocator.ResolveWorker` | apps/server/src/agent-manager.ts:201-210 | the worker port is the pinned one, else the first free from the reserved one on |
| `Ports.PortAllocator.Resolve` | apps/server/src/agent-manager.ts:201-221 | one resolve ends in the allocations and the error `ResolveWith` describes |
| `Ports.PortAllocator.ReserveLegacy` | apps/server/src/agent-manager.ts:73-77 | a legacy layout is imported only into an empty allocator |
| `Ports.PortsStayDistinctAndStable` | apps/server/src/agent-manager.ts:201-221 | over any resolves that pin no port, all ports stay distinct and reserved ports never change |
| `Ports.PinKeepsDistinctIff` | apps/server/src/agent-manager.ts:201-221 | a pinned port keeps all ports distinct iff it is free of others and not the agent's own tunnel |
| `Ports.PinsCanClash` | apps/server/src/agent-manager.ts:201-210 | a concrete pin onto a port already allocated |
| `Ports.FailsOnlyWhenFull` | apps/server/src/agent-manager.ts:201-221 | resolving a new agent fails iff every port above the control port is taken |
| `Ports.ResolveIs` | apps/server/src/agent-manager.ts:201-221 | one resolve for any state: the pinned port or the least free one from the reserved one on, the least tunnel port besides, each error iff there is no such port, and what is stored then |
| `Ports.ImportedIs` | apps/server/src/agent-manager.ts:73-77 | every agent of a legacy layout is imported with its ports |
| `Ports.LegacySeedsDistinct` | apps/server/src/local-agents.ts:67-127 | an accepted default layout seeds the allocator with distinct ports |
| `Ports.DefaultLayoutIsAccepted` | apps/server/src/local-agents.ts:67-127 | the default layout passes its own checks iff it fits below 65536 |
| `ProcessJobs.RunKeeps` | packages/niri-runtime/src/process-jobs.ts:106-251 | over every interleaving of start, poll, cancel, stop, crash and re-initialization the status only moves forward and terminal statuses are absorbing, at most one completion is accepted and only of a terminal job, and the output is the last 512 KiB of all deltas with `outputBytes` their total and the flag set iff it exceeds that |
| `ProcessJobs.StepKeeps` | packages/niri-runtime/src/process-jobs.ts:106-251 | one step keeps that |
| `ProcessJobs.MergeRecords` | packages/niri-runtime/src/process-jobs.ts:63-74 | merging tails is the tail of everything, the last 512 KiB of it |
| `ProcessJobs.InitialInvariant` | packages/niri-runtime/src/process-jobs.ts:167-177 | a new job satisfies it |
| `ProcessJobs.InitOffersAgain` | packages/niri-runtime/src/process-jobs.ts:235-245 | each initialization offers an unaccepted completion once more and an accepted one never again |
| `ProcessJobs.ActiveDeltasAreRecorded` | packages/niri-runtime/src/process-jobs.ts:128-145 | a delta that reaches an active job is recorded |
| `ProcessJobs.RecordedIs` | packages/niri-runtime/src/process-jobs.ts:128-209 | what each step adds to the output: the bytes of a reply heard while active, and those of a late start reply that still runs |
| `ProcessJobs.EndsAs` | packages/niri-runtime/src/process-jobs.ts:177-251 | how an active job ends: completed, cancelled, failed, lost or interrupted, each iff its cause |
| `ProcessJobs.RequestedIs` | packages/niri-runtime/src/process-jobs.ts:128-209 | when a job counts as asked to end |
| `ProcessJobs.GoesOnAs` | packages/niri-runtime/src/process-jobs.ts:183-209 | an active job turns to cancelling or running iff its cause |
| `ProcessJobs.EndIsOffered` | packages/niri-runtime/src/process-jobs.ts:106-126 | a job that ends while its runtime is up is offered at once, and taken iff accepted |
| `ProcessJobs.StartReplyDecides` | packages/niri-runtime/src/process-jobs.ts:177-209 | any reply to the start call takes the job out of `starting` |
| `ProcessJobs.TerminalOutputChangesIff` | packages/niri-runtime/src/process-jobs.ts:177-209 | a step changes the output of a terminal job iff it is a late start reply, still running, that brings output |
| `ProcessJobs.LateStartWritesToTerminalRow` | packages/niri-runtime/src/process-jobs.ts:183-188 | a concrete run in which that happens |
| `Resilience.CompleteWithResilience` | packages/agent-llm/src/resilient.ts:140-216 | the retry loop over the provider set makes the calls and gives the answer `Run` describes |
| `Resilience.LoopTerminates` | packages/agent-llm/src/resilient.ts:147-215 | when every call happens less than quotaRetryMs after any earlier recorded failure, at most maxPromptTooLargeAttempts + 2 + maxRetries + 2 calls are made, and the loop has an answer after that many turns |
| `Resilience.BoundHoldsIff` | packages/agent-llm/src/resilient.ts:147-215 | for all errors, hook answers and times that bound holds iff the provider set does not have both endpoints |
| `Resilience.BoundHoldsWithinIff` | packages/agent-llm/src/resilient.ts:191-201 | for calls that last less than a given time it holds iff there is one endpoint or that time is at most quotaRetryMs |
| `Resilience.Recover` | packages/agent-llm/src/resilient.ts:167-214 | the catch block ends in the counters, window and outcome `Respond` describes |
| `Resilience.CallsAreBounded` | packages/agent-llm/src/resilient.ts:147-215 | without that condition the bound grows by one for each primary call after an expired window |
| `Resilience.BoundIsReached` | packages/agent-llm/src/resilient.ts:147-215 | the bound is exact: some answers reach it and succeed |
| `Resilience.ExpiringWindowsNeverEnd` | packages/agent-llm/src/resilient.ts:191-201 | windows that keep expiring keep the loop going for any number of turns |
| `Resilience.NoPrimaryCallInsideWindow` | packages/agent-llm/src/provider-set.ts:126-159 | after a recorded quota failure no call goes to the primary before its window is over |
| `Resilience.RespondIs` | packages/agent-llm/src/resilient.ts:167-214 | a failed call, for every error and state: the loop goes on iff the hook may help once more, the fallback takes over or a passing error may be retried; else it ends with the error or the abort; and what is counted |
| `Resilience.KindIs` | packages/agent-llm/src/errors.ts:391-400 | the kind an error is reported as, by status and text patterns |
| `Resilience.StepIs` | packages/agent-llm/src/resilient.ts:151-166 | a turn without a failed call ends aborted, without a provider, or answered |
| `Resilience.ProviderSet.constructor` | packages/agent-llm/src/provider-set.ts:85-97 | a new set has the persisted window in force |
| `Resilience.ProviderSet.EnsureLoaded` | packages/agent-llm/src/provider-set.ts:99-106 | loading the persisted window does not change the window in force |
| `Resilience.ProviderSet.ResolvePrimary` | packages/agent-llm/src/provider-set.ts:126-134 | the endpoint is the fallback exactly when the primary is missing or its window is open |
| `Resilience.ProviderSet.RecordQuotaFailover` | packages/agent-llm/src/provider-set.ts:151-159 | the window changes for quota errors only |
| `AnthropicStream.StreamingKeepsMeaning` | packages/agent-llm/src/anthropic-provider.ts:236-416 | for every event stream, however interleaved, converting and consuming gives the joined text and reasoning, one call per tool-use block in increasing index order, and the usage |
| `AnthropicStream.EachBlockIsItsCall` | packages/agent-llm/src/anthropic-provider.ts:353-416 | with distinct block indexes each call has its own id, its own name and all its argument deltas |
| `AnthropicStream.NameIsOwnIff` | packages/agent-llm/src/anthropic-provider.ts:385-396 | a call has the name of a given start of its block iff the other starts of that index are nameless |
| `AnthropicStream.ReusedIndexJoinsNames` | packages/agent-llm/src/anthropic-provider.ts:385-396 | a concrete stream whose call has neither block's name |
| `AnthropicStream.AscendingIsSorted` | packages/agent-llm/src/anthropic-provider.ts:398-404 | the assembled calls are in strictly increasing index order |
| `AnthropicStream.UsageIsLatest` | packages/agent-llm/src/anthropic-provider.ts:247-264 | usage belongs to the latest start: prompt tokens are its uncached, cache-read and cache-write tokens, completion tokens the latest count since, or zero |
| `AnthropicStream.NoUsageWithoutStart` | packages/agent-llm/src/anthropic-provider.ts:247-264 | without a start that carries usage none is reported |
| `AnthropicStream.CallsByIndex` | packages/agent-llm/src/anthropic-provider.ts:398-404 | one call for each index that started a tool use, in increasing index order |
| `AnthropicStream.ConvertEvent` | packages/agent-llm/src/anthropic-provider.ts:248-318 | one event yields the specified chunks |
| `AnthropicStream.AnthropicStreamToOpenAI` | packages/agent-llm/src/anthropic-provider.ts:236-343 | the first stage yields the specified chunk sequence |
| `AnthropicStream.ConsumeAnthropicStream` | packages/agent-llm/src/anthropic-provider.ts:347-430 | the second stage assembles the specified turn, and what the sink is shown joins to its text |
| `AnthropicStream.ConsumePartials` | packages/agent-llm/src/anthropic-provider.ts:382-396 | the inner loop over tool-call entries |
| `MessageTranslation.ToAnthropicMessages` | packages/agent-llm/src/anthropic-provider.ts:132-197 | the translation loop computes the specified turns and system text |
| `MessageTranslation.TranslationKeepsMeaning` | packages/agent-llm/src/anthropic-provider.ts:132-197 | read block by block the turns are each message translated in order, tool results on the user side; the turns are the runs of equal roles, so roles strictly alternate |
| `MessageTranslation.UserSideIs` | packages/agent-llm/src/anthropic-provider.ts:132-197 | a user message becomes its text or its text and image parts, in order; a tool message one result |
| `MessageTranslation.AssistantSideIs` | packages/agent-llm/src/anthropic-provider.ts:132-197 | an assistant message becomes a thinking block when thinking is on, its texts, then its function calls, in order |
| `MessageTranslation.SystemPartsAre` | packages/agent-llm/src/anthropic-provider.ts:132-197 | the system text is made of the texts of all system messages, in order |
| `ToolCalls.EachCallIsAnsweredOnce` | packages/agent-loop/src/loop.ts:123-162 | for fresh distinct ids and any arguments, tools, handlers and arriving events, a batch adds exactly one result for each call it reaches, in call order, and no other |
| `ToolCalls.BatchIs` | packages/agent-loop/src/loop.ts:123-162 | the whole outcome of a batch: the first call that rests or is interrupted is its last; what is left is what the calls up to there said and queued, and after an interruption the event and a skip result for each call left |
| `ToolCalls.RefusedIff` | packages/agent-loop/src/tools.ts:61-75 | arguments are refused iff neither text nor object, or a text neither blank nor an object |
| `ToolCalls.FunctionCallsAre` | packages/agent-loop/src/loop.ts:164-197 | only function calls are processed, in order |
| `ToolCalls.OnlyRestStopsShort` | packages/agent-loop/src/loop.ts:123-162 | a batch that does not end in rest reaches every call; one that does stops at the resting call |
| `ToolCalls.AllAnsweredIff` | packages/agent-loop/src/loop.ts:123-162 | for fresh distinct ids and disciplined handlers every call is answered iff no call before the last rests without an earlier interruption by a pending input; then each is answered once, in order |
| `ToolCalls.ReachesAllIff` | packages/agent-loop/src/loop.ts:123-162 | without those assumptions: the batch reaches every call iff no call before the last rests without an earlier interruption |
| `ToolCalls.RestLeavesCallUnanswered` | packages/agent-loop/src/loop.ts:143-144 | a concrete batch of two whose second call stays unanswered |
| `ToolCalls.AnsweredOnceIff` | packages/agent-loop/src/tools.ts:142-188 | without assumptions on the handler: its call is answered exactly once iff the handler recorded one result, or threw having recorded none |
| `ToolCalls.ExecuteAnswers` | packages/agent-loop/src/tools.ts:142-188 | every failure path of one call writes one result |
| `ToolCalls.LoopState.constructor` | packages/agent-loop/src/loop.ts:299-310 | a new state is empty with nothing in flight |
| `ToolCalls.LoopState.PushToolMessage` | packages/agent-loop/src/tools.ts:97-107 | one result is appended |
| `ToolCalls.LoopState.HasToolResponse` | packages/agent-loop/src/tools.ts:128-134 | the scan finds a response iff the call is answered |
| `ToolCalls.LoopState.ExecuteToolCall` | packages/agent-loop/src/tools.ts:142-188 | one call ends in the state `Execute` describes, with `toolInFlight` false again |
| `ToolCalls.LoopState.SkipRemaining` | packages/agent-loop/src/loop.ts:151-157 | the remaining calls of an interrupted batch are answered as skipped |
| `ToolCalls.LoopState.ProcessToolCalls` | packages/agent-loop/src/loop.ts:123-162 | the batch ends in the state `Process` describes |
| `ToolCalls.LoopState.ProcessAssistantTurn` | packages/agent-loop/src/loop.ts:164-197 | a turn records its message, processes its function calls and reports which of the three outcomes it had |
| `Hashline.ResolveHashlineAnchor` | packages/harness-client-node/src/hashline.ts:10-31 | the hint and the scan resolve as specified, error by error |
| `Hashline.ApplyHashlineEdit` | packages/harness-client-node/src/hashline.ts:41-68 | an edit gives the specified text and lines, or the specified error |
| `Hashline.ResolvedLine` | packages/harness-client-node/src/hashline.ts:10-31 | an anchor never resolves to a line with another hash |
| `Hashline.ResolveIs` | packages/harness-client-node/src/hashline.ts:10-31 | the hinted line when it carries the hash, else the only one that does; not found iff none does, ambiguous otherwise |
| `Hashline.ParseAnchorIff` | packages/harness-client-node/src/hashline.ts:3-16 | an anchor is read from exactly the texts that are, blanks aside, a decimal number, a hash sign and six hexadecimal digits |
| `Hashline.TrimIs` | packages/harness-client-node/src/hashline.ts:46-46 | trimming takes all blanks off both ends and nothing else |
| `Hashline.EndsAre` | packages/harness-client-node/src/hashline.ts:46-49 | a target names one anchor, or two around its first dash |
| `Hashline.ReplacementIs` | packages/harness-client-node/src/hashline.ts:61-64 | the lines put in are those of the content without one final line break |
| `Hashline.ApplyIs` | packages/harness-client-node/src/hashline.ts:41-68 | an edit fails with the start error, else the end error, else when they are the wrong way round; else the lines between give way to the content |
| `Hashline.LineHashIs` | packages/harness-client-node/src/hashline.ts:5-8 | a line hash spells three bytes of the digest, so two lines share one iff those bytes agree |
| `Hashline.ParsePrint` | packages/harness-client-node/src/hashline.ts:3-21 | a printed anchor parses back to itself |
| `Hashline.AnnotationPrintsAnchors` | packages/harness-client-node/src/hashline.ts:71-73 | an annotated selection prints one line for each, carrying that line's anchor and text |
| `Hashline.PrintedRangeSelectsItself` | packages/harness-client-node/src/hashline.ts:41-68 | on the same text the printed anchors of lines i to j select exactly that range |
| `Hashline.OwnTextIsIdentity` | packages/harness-client-node/src/hashline.ts:41-68 | replacing a range with its own newline-terminated text gives back the whole file, its end included |
| `Hashline.AnchorFollowsLine` | packages/harness-client-node/src/hashline.ts:10-31 | an anchor whose hash occurs once finds the same line after an edit elsewhere; the one exception is a blank line left last in a text without final newline |
| `Hashline.PinnedAnchorResolves` | packages/harness-client-node/src/hashline.ts:10-31 | an anchor whose hash occurs once resolves to its line whatever number it carries |
| `Hashline.FinalNewlineIsKeptIff` | packages/harness-client-node/src/hashline.ts:33-40 | an edit keeps the final-newline state iff there was a final newline or it leaves no blank last line after another |
| `Hashline.SpliceKeepsFinalNewlineIff` | packages/harness-client-node/src/hashline.ts:33-40 | the same for any target whose edit succeeds |
| `Hashline.BlankLineAddsFinalNewline` | packages/harness-client-node/src/hashline.ts:33-40 | a concrete edit that gives a text its final newline |
| `Hashline.DisjointEditsCommuteIff` | packages/harness-client-node/src/hashline.ts:41-68 | edits of disjoint, still uniquely anchored ranges commute, with the exact condition for the one place where they do not |
| `Hashline.OrderOfEditsShows` | packages/harness-client-node/src/hashline.ts:41-68 | two concrete disjoint edits whose order shows |
| `Decimal.ParseDigits` | packages/harness-client-node/src/hashline.ts:14-15 | a printed line number parses back to itself |

## Left out

Assumptions of the model:

- Message digests are injective: an id is the message it was taken from. Summary ids are row numbers, so a new one is fresh.
- Text markers inside summaries (header, id and depth lines) are fields of a `Summary` message; raw messages and summary bodies contain none, and appending a message that looks like a summary is ignored.
- Message content is one text. Multi-part content appears only in `MessageTranslation`, where parts are modelled.
- SQL transactions are atomic; tables are maps and sequences. File system, HTTP, process spawning, QUIC and timers are left out.
- The summarizer, the agent's testimony and every provider are tapes of answers. A call that finds no provider, an open circuit, too little to summarize (fewer than three lines or 1200 characters) or that fails in one of its partial requests counts as the answer `Unavailable`.
- The token estimate, the wording of the pruning notice, JSON reading and writing and the line digest are function parameters, so no claim is made that an applied compaction lowers the estimate beyond the comparison the code makes.
- The timestamp line that opens a new summary body is left out of its text, and its fixed envelope is a constant length in character counts.

Stated weaker than the code does:

- ContextArchive.Archive.CollectManifest: the method, creation time and source statistics of a manifest entry are omitted.
- ContextArchive.Archive.Describe: the parent segments, source statistics and token cap of a description are omitted.
- Summarize.SummarizeConversation: the transcript-size gate, the chunked prompting and the circuit are folded into the tape of answers.
- Compactor.ContextCompactor.Attempt: the token figures before and after, which an outcome reports, are omitted.
- Ports.PortAllocator.Resolve: errors that resolving the agent's configuration raises after its ports are stored are omitted.
- Resilience.CompleteWithResilience: the circuit-breaker updates on success and failure are omitted.
- Resilience.ProviderSet.RecordQuotaFailover: the stored reason and the save to the failover store are omitted.

Not modelled:

- The circuit breaker of a provider and its backoff; `Resilience` keeps only the failover window, and other callers do not touch the shared window during a call. A recovery hook or message hook that throws ends the call like a refusal or an abort.
- Saving the failover window to its store, and loading it more than once.
- Error-text classification: an error carries which patterns it matches.
- Text matching in scoped search: only the set of messages searched is modelled.
- `batchActiveContextSummariesForPrompt`, prompt texts, metrics, events, transcripts and logging.
- Text decoding: byte and character sequences are used, so the repair of a cut multi-byte character in output tails and the transport notice of truncated output are left out.
- In `Reconcile`, the pending/applying/failed marks shown to users, and the client tunnel beyond being one phase. A stop during directory setup before a worker is spawned is not modelled either.
- In `ProcessJobs`, the timers and in-flight tables that decide when a poll is sent; replies may arrive at any time instead, which allows more runs than the code has. Liveness of polling is not claimed: a running reply to a plain poll of a cancelling job schedules no further poll.
- In `ToolCalls`, redaction of event values, tool assembly and policies. A handler is the messages it appends and how it ends.
- In `Hashline`, `parseInt` above 2^53, and white space beyond blanks, tabs, line feeds and carriage returns when trimming (the same set stands for blank testimony, blank reasoning and blank arguments).
- In `Ports`, configuration checks other than those on ids and ports.
- `drainReasoningToolCallBlocks`, scheduler, work ledger, shell sessions, command line, web interface, Discord and MCP.
- Contiguity of tool results is a hypothesis of `Summarize.CutSeparatesNoCall`: an interrupted batch puts the incoming event before its skipped results.
