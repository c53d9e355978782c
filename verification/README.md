# A verified model of mpv's demuxer cache

mpv reads media through a demuxer thread that keeps packets in a cache. The
cache holds several ranges of the file, in the order they were last used; each
range has one queue of packets per stream, and each queue has redundant state
that is maintained step by step: cumulative byte positions, pointers to
keyframes, the bounds that can be seeked to, and a ring buffer that indexes
keyframes. On top of that are in-cache seeks, joining of ranges that meet,
pruning to a memory budget, and backward playback from queues that can only be
read forwards. This project models that code (`demux/demux.c`) and some smaller
parts of mpv with state of their own, and proves what they promise.

The demuxer cache is modelled twice. `Queues`, `Ranges`, `Cache`, `Pruning` and
`Backward` say on values what each operation does, and the lemmas about them
state what it is good for: invariants over every run, soundness of in-cache
seeks, the contents of the queues, what pruning leaves. `DemuxInternal`,
`PacketQueue`, `RingIndex` and `BackwardStream` are classes that update their
state in place, and are proved to compute what the specification says.
`PacketQueue` is the linked list with its pointers and its ring. In
`DemuxInternal`, ranges and queues are values in fields, whose pointers are
packet numbers. It has the loops over ranges, streams and packets; it writes
`total_bytes` where the original does, by the size of a packet or by what an
index grows, and the sum over all queues is proved to be what comes out. Loops
that only set flags of all streams are single assignments, and the packet to seek
to is taken from the specification, which `PacketQueue` and `RingIndex` compute
with loops.

| file | part of mpv |
|---|---|
| `Timestamps`, `Packets` | timestamps with "no timestamp", keyframe runs and their bounds |
| `RingIndex`, `SeekTarget` | the keyframe index; finding a packet to seek to, with and without it |
| `Queues`, `PacketQueue` | the packet queue as a value, and as a linked list |
| `Ranges`, `Spans` | spans of ranges, freeing and evicting ranges, byte counts |
| `Cache`, `CacheInvariants`, `CacheRuns` | the operations, what each keeps, and whole runs |
| `Joins`, `Refreshing` | joining and leaving ranges; finding the place in a stream again |
| `SeekSoundness`, `FileBeginning`, `SeekEnds` | where in-cache seeks end up, and what is cached, over every run |
| `ReaderRuns` | what the decoder gets |
| `Pruning`, `FileStart` | the memory budget; ranges at the beginning of the file |
| `FailingRuns`, `EmptyJoins` | runs of the cache after which an expected property fails |
| `DemuxInternal` | the whole cache as an object |
| `Backward`, `BackwardRuns` | backward demuxing; over runs of the cache |
| `DumpMerge` | interleaving streams for a cache dump |
| `Bytes`, `DiskCache` | the packet log on disk |
| `Playlist` | the playlist |
| `LogRing` | log message buffers |
| `Lacing` | Matroska block lacing, including EBML numbers |
| `RealAudio` | reordering of RealAudio packets |

## Where the code does not do what it seems to

These properties do not hold for all inputs. The code is modelled as it is;
each has a lemma for the exact condition and, where it says more, one with an
input that fails.

- A range that begins the file takes all positions before its end. When pruning
  takes away the first run of a queue, but the range started later than the next
  one anyway (a pruned subtitle can make it), the range goes on to claim the
  beginning of the file: seeks before its first keyframe are done in the cache,
  and end up too late. Leaving the range, and marking queues while streams are
  refreshed, can do the same (`FileStart.PruneHonestIff`,
  `FileStart.TrimHonestIff`, `FileStart.MarkHonestIff`,
  `FailingRuns.StaleBofMisses`).
- A queue that begins the file does not restrict the start of its range. If it
  loses only packets before its first keyframe, or only the mark, it does not
  begin the file any more, but the span is not recomputed, and positions before
  its first keyframe still count as cached. Three operations can do that
  (`FileStart.PruneCoversIff`, `FileStart.TrimCoversIff`,
  `FileStart.MarkCoversIff`, `FailingRuns.BofPruneMisses`). What a seek finds then
  is still the first run of the stream (`FileBeginning.RunSeekIsEarlyOrFirst`),
  and over every run it starts no later than the stream did at the beginning of
  the file (`SeekSoundness.RunKeepsSound`).
- After a seek to the end of a cached range, packets are skipped until the last one
  of the queue comes again. A queue that compares dts takes a packet that was read
  before its first one for the last one, if its dts is not lower, and then appends
  what it has a second time (`CacheRuns.RefreshEndsIff`,
  `CacheRuns.RefreshEndsEarly`). Positions cannot be mistaken like that.
- Pruning does not change the end of a queue. If a run ends after all that follow it
  and is pruned, positions up to there still count as cached, although no packet is
  left for them (`SeekEnds.PruneLeavesEndIff`, `SeekEnds.PrunedEndIsGone`). If no
  packet is later than a keyframe that follows it, that cannot happen
  (`SeekEnds.ReadIsInQueue`).
- A seek that is adjusted to the video keyframe searches the video queue a second
  time, on the assumption that this gives the same packet
  (`SeekSoundness.AdjustedVideoTargetIff`).
- Backward playback of streams with a seek preroll: the start of a queue includes
  the preroll, so comparing the seek position with it may declare the beginning
  of the file with runs left to play, or render less than a batch
  (`Backward.BofIsExactIff`, `Backward.RestartRendersIff`,
  `Backward.PrerollSkipsRuns`).
- When the queues are full, read_packet() marks streams as ended that have nothing
  to read. A queue that is ended and empty does not restrict the span of its range
  (`Ranges.SpanIgnoresNoStart`), so that the range can be joined with a later one,
  and there is no packet to compare. What is missing between the two is never
  read, seeks in the cache do not find it, and a queue that began the file goes on
  to claim that it does (`EmptyJoins.EmptyJoinSkips`). Exact conditions are
  `ReaderRuns.EmptyJoinIff` for the reader and `FileBeginning.JoinBeginsIff` for
  the beginning of the file. A reader that has got a packet since the last seek is
  not affected: `ReaderRuns.RunReadsOn`.
- Likewise, when a range is left in which such a queue begins the file, and demuxing
  goes on there later, the queue goes on to begin the file if and only if no
  keyframe comes before its first packet (`FileBeginning.AppendBeginsIff`).
- Starting a seek at the index entry instead of at the head of the queue is right
  for increasing run starts, and else under conditions that differ by direction
  (`SeekTarget.ForwardShortcut`, `SeekTarget.BackwardShortcut`,
  `SeekTarget.ForwardSeekMissesRun`).
- Unshuffling a playlist that got new entries at the end sorts with a comparison
  that is no order (`Playlists.CompareIsOrderIff`,
  `Playlists.NewEntriesAreNotOrdered`).
- The assertion about the place for transferred playlist entries fails if the
  last entry is current and replaced a removed one
  (`Playlists.Playlist.AddAtIsInListIff`, `Playlists.AddAtCanBePastTheEnd`).
- RealAudio blocks whose packets are no multiple of the sub-packet size may be put
  out with packets at the end that hold uninitialized memory
  (`RealAudio.OnlySubPacketsIff`, `RealAudio.Track.HandlePacket`).
- If a write to the disk cache fails, and then also the seek that should take it
  back, the size of the file becomes the largest 64 bit number. Every later write
  is reported to fail, but may be done in the middle of the file
  (`DiskCache.DemuxCache.Write`, `DiskCache.WriteOverNext`).
- Very large or entirely empty frames do not survive block lacing (the three
  round trips in `Lacing`).
- `common/playlist.h:29` says that an entry without a list has a negative index.
  New entries have index 0. Only removed ones have index -1, as
  `Playlists.Playlist.Remove` states.

## Model

| member | source | states |
|---|---|---|
| `Packets.MinTimeIsLeast` | demux/demux.c:1847-1880 | The start computed for a keyframe run is one of its timestamps and no larger than any of them; packets without a timestamp, or outside their segment, do not count. |
| `Packets.MaxTimeIsGreatest` | demux/demux.c:1847-1880 | The same for the end of a run. |
| `Packets.RunShows` | demux/demux.c:1847-1880 | In other words: all times at which packets of the run are shown, in their segments, lie between its start and its end, and something is shown at both. |
| `RingIndex.MaskIsModulo` | demux/demux.c:323-328 | Masking with size - 1 is the remainder by size, for every power of two. |
| `RingIndex.MaskIsSlot` | demux/demux.c:323-328 | So the masked index of entry i is where entry i of the logical list lies in the ring, wrapped around at most once. |
| `RingIndex.Ring.Add` | demux/demux.c:1614-1652 | Appends the entry if it is INDEX_STEP_SIZE or more behind the last one; the ring keeps denoting the list; the bytes returned are what the ring grew by. |
| `RingIndex.Ring.Resize` | demux/demux.c:1627-1642 | Doubling and copying the wrapped part leaves the list as it was. |
| `RingIndex.Ring.RemoveHead` | demux/demux.c:713-716 | Drops the first entry if it is for the removed packet, and only then. |
| `RingIndex.Ring.Free` | demux/demux.c:725-735 | Empties the index and returns its size in bytes. |
| `RingIndex.Ring.Search` | demux/demux.c:3581-3603 | The interval search ends and returns the packet of the last entry at or before the position, or nothing. |
| `RingIndex.SearchIsLast` | demux/demux.c:3581-3603 | Where the interval search stops is the last entry at or before the position, in every list whose entries are spaced. |
| `RingIndex.AddKeepsSpaced` | demux/demux.c:1621-1625 | Entries stay INDEX_STEP_SIZE apart. |
| `RingIndex.AddsIff` | demux/demux.c:1621-1625 | An entry is left out exactly if it would be too close. |
| `RingIndex.AddEntriesKeepsSize` | demux/demux.c:1627-1644 | Over every series of additions there is room for all entries, the size is 0 or a power of two, and it never shrinks, nor grows to more than twice what is needed, or 128. |
| `SeekTarget.ForwardScanFinds` | demux/demux.c:3605-3646 | A forward seek finds the first keyframe run that starts at or after the position, and nothing only if there is none. |
| `SeekTarget.BackwardScanFinds` | demux/demux.c:3605-3646 | A backward seek finds a keyframe run that starts at or before the position, unless it falls back to the first one there is. |
| `SeekTarget.BackwardScanIsBefore` | demux/demux.c:3605-3646 | With non-decreasing run starts, a backward seek never falls back if some run does start early enough. |
| `SeekTarget.ForwardShortcut` | demux/demux.c:3605-3646 | Starting the forward scan at a run instead of at the head gives the same packet if and only if all earlier runs start before the position. |
| `SeekTarget.BackwardShortcut` | demux/demux.c:3605-3646 | The same for backward seeks: if and only if, of the earlier runs, all but the first start at or before the position. |
| `SeekTarget.IndexRefinesScan` | demux/demux.c:3605-3646 | With strictly increasing run starts, a seek that starts at the index entry finds the same packet as one that starts at the head, forward and backward. |
| `SeekTarget.IndexRefinesBackwardScan` | demux/demux.c:3605-3646 | For backward seeks, non-decreasing run starts are enough. |
| `SeekTarget.ForwardSeekMissesRun` | demux/demux.c:3605-3646 | A consistent index for which it does not: run starts go down once, the first run is not indexed, and a forward seek skips it. |
| `Queues.CumIsSum` | demux/demux.c:505-523 | Differences of cumulative positions are sums of packet sizes. |
| `Queues.BytesAreSizes` | demux/demux.c:505-523 | The byte count kept for a queue is the sum of the sizes of its packets. |
| `Queues.ForwardBytesAreSizes` | demux/demux.c:470-477 | The forward-buffered bytes are the sum of the sizes from the reader to the tail, and no more than the queue has. |
| `Queues.RemoveHeadConsistent` | demux/demux.c:699-723 | Removing the head keeps the queue consistent in the sense of check_queue_consistency(), and takes away the size of the head. |
| `Queues.AppendConsistent` | demux/demux.c:2074-2101 | Appending keeps it consistent, and adds the size of the packet. |
| `Queues.IndexConsistent` | demux/demux.c:1614-1652 | Indexing the latest keyframe keeps it consistent. |
| `Queues.ClearConsistent` | demux/demux.c:737-766 | A cleared queue is consistent. |
| `Queues.JoinConsistent` | demux/demux.c:1758-1813 | Joining two consistent queues gives a consistent one, with the packet bytes of both, although positions and index entries are rewritten. |
| `Queues.JoinStart` | demux/demux.c:1758-1813 | A start that was backed by a keyframe in the first queue still is in the joined one. |
| `Queues.RemoveNonKeyframeStart` | demux/demux.c:2351-2407 | Removing a head that is no keyframe cannot invalidate the start, even though it is not recomputed. |
| `Ranges.UpdatedSpan` | demux/demux.c:607-696 | A recomputed span is empty or proper, and covers the starts of all queues that count and do not begin the file; recomputing it again changes nothing. |
| `Spans.SpanIs` | demux/demux.c:607-696 | If all queues that count have a span, the range has the one they have in common: it starts at the latest start and ends at the earliest end. Queues that begin (end) the file do not matter for that unless all do; then the earliest start (latest end) is taken. Times up to which packets of sparse streams are missing put off the start. |
| `Spans.NoSpan` | demux/demux.c:630-647 | One queue without a span is enough for the range to have none; then the marks for the beginning and the end of the file are those of the queues up to it. |
| `Spans.AdjustedSpan` | demux/demux.c:1882-1935 | When a keyframe run is complete, the queue ends with the latest time of its end so far and the times of the run; it starts with the earliest of them, plus the preroll, if it had no start. Else neither changes. |
| `Spans.FastIsFull` | demux/demux.c:1904-1931 | As long as adjust_seek_range_on_packet() sees no reason to recompute the span of the range, recomputing it would not change it. |
| `Spans.NeedsUpdateIff` | demux/demux.c:1904-1931 | The span of the range is recomputed exactly when the queue got a start, came to the end of the file or left it, or ends later and may have held the range back. |
| `Spans.PrunedIsOut` | demux/demux.c:2377-2407 | What was pruned of a sparse stream is no longer in its range: that starts after the run that is gone, or not before what is left. |
| `Ranges.ClearedHasNoSpan` | demux/demux.c:768-781 | A cleared range has no span, so it will be freed. |
| `Ranges.EvictedWereShortest` | demux/demux.c:783-817 | Evicting one by one ends with exactly the allowed number of ranges, in their order of use. Of each range that was evicted and each that is left, the evicted one spans no more time from its start to its end. |
| `Ranges.EvictionOutcome` | demux/demux.c:783-817 | At most MAX_SEEK_RANGES are left; the current one is among them and last; the others can be sought in, and are in order. One that can is missing only if the maximum was reached, and then it spans no more time than any of the others that are left. |
| `CacheInvariants.AdjustQueueOk` | demux/demux.c:1882-1935 | After a packet or EOF the bounds, keyframe pointers and index of its queue are adjusted so that the queue stays consistent and its start backed. |
| `CacheInvariants.StoredIs` | demux/demux.c:2111-2112 | Filling in a missing pts leaves the time of a packet as it was; packets other than video have a pts if they have any time. |
| `CacheInvariants.AddPacketOk` | demux/demux.c:2008-2154 | The cache invariant (consistent queues, starts backed by keyframes, spans backed by queues, readers inside their queues) survives adding a packet, including the branches that skip update_seek_ranges() and the join they may start. |
| `CacheInvariants.MarkEofOk` | demux/demux.c:2156-2164 | The cache invariant (consistent queues, starts backed by keyframes, spans backed by queues, readers inside their queues) survives the end of a stream. |
| `CacheInvariants.AttemptJoinOk` | demux/demux.c:1656-1836 | The cache invariant (consistent queues, starts backed by keyframes, spans backed by queues, readers inside their queues) survives an attempt to join ranges, successful or not. |
| `CacheInvariants.NextOverlapsLeast` | demux/demux.c:1656-1680 | The range to join with starts inside the current one, and of all that do, no other overlaps it less. |
| `Joins.TrimStreamIs` | demux/demux.c:1691-1752 | Two queues can be joined exactly if the first packet of the next one that is at or past the end of the current one is the same packet, by all of dts, position and pts, and no latest keyframe comes up to it; what is left comes behind it. Sparse streams need no common packet, and an empty queue takes anything. |
| `Joins.JoinOutcome` | demux/demux.c:1758-1832 | In a joined range each queue has the packets of both, the start of the first and the end of the second one; the demuxer is sent to one second before the end of the range that was added, and all selected streams look for their place again; a reader without a packet gets the first one that was added. |
| `Joins.SwitchOutcome` | demux/demux.c:3532-3578 | A range that is left keeps its span and its packets from the first keyframe of each stream on; if a selected stream has neither dts nor positions that have only increased, it keeps nothing. The other ranges keep their order, and the one that is switched to comes last. |
| `CacheInvariants.SwitchRangeOk` | demux/demux.c:3532-3578 | The cache invariant (consistent queues, starts backed by keyframes, spans backed by queues, readers inside their queues) survives switching to another range. |
| `CacheInvariants.CacheSeekOk` | demux/demux.c:3718-3766 | The cache invariant (consistent queues, starts backed by keyframes, spans backed by queues, readers inside their queues) survives an in-cache seek. |
| `CacheInvariants.FreshRangeOk` | demux/demux.c:3769-3785 | The cache invariant (consistent queues, starts backed by keyframes, spans backed by queues, readers inside their queues) survives switching to an empty range. |
| `CacheInvariants.QueueSeekOk` | demux/demux.c:3805-3867 | The cache invariant (consistent queues, starts backed by keyframes, spans backed by queues, readers inside their queues) survives every seek. |
| `CacheInvariants.FoundIsFirst` | demux/demux.c:3648-3676 | The range that is found is the first one with a span that starts no later than the position, or at the beginning of the file, and ends no earlier, or at the end of the file. |
| `CacheInvariants.TotalIsMemory` | demux/demux.c:499-564 | As long as the invariant holds, the sum over the cumulative positions of all queues is the size of all packets in all ranges and of all indexes. |
| `SeekSoundness.RunKeepsSound` | demux/demux.c:2008-2412 | Over every run, reads at the beginning of the file included: a queue that starts after its range does not start later than some queue of its stream did while it began the file; and a queue that begins the file does not either. |
| `SeekSoundness.InitialSound` | demux/demux.c:3292-3366 | This holds at the start, with no queue that began the file. |
| `SeekSoundness.AdjustSeekRangeCovered` | demux/demux.c:1882-1935 | ... and when a packet or EOF gives a queue a start, with or without update_seek_ranges() and a join. |
| `SeekSoundness.PrunedRangeCovered` | demux/demux.c:2351-2407 | ... and in a round of pruning, with or without update_seek_ranges(). |
| `SeekSoundness.MarkBofCovered` | demux/demux.c:2251-2257 | ... and when queues are marked to begin the file, or lose that mark. |
| `SeekSoundness.QueueSeekIsSound` | demux/demux.c:3605-3646 | In a consistent queue with non-decreasing run starts, a backward seek at or after its start finds a run that begins no later than the position less the preroll; before its start, the first run there is. |
| `SeekSoundness.CacheSeekIsSound` | demux/demux.c:3648-3766 | A backward in-cache seek, after its target was adjusted to the video keyframe, makes the range current and puts the reader of every queue that counts on a run that starts at or before the position less the preroll. This is for positions not before the start of the range, nor, if the queue (or that of the video) starts after the range, before where the stream started at the beginning of the file; for all positions, a run that starts later than the adjusted position is the first one of the queue. |
| `SeekSoundness.RunSeekIsSound` | demux/demux.c:3648-3766 | So after every run from the initial state, a backward in-cache seek, exact or adjusted to the video keyframe, puts the reader of every queue that counts on a run that starts at or before the position less the preroll, for every position not before the start of the range, nor, if the queue (or that of the video) starts after that, before where the stream started at the beginning of the file. |
| `SeekSoundness.FirstRunOfStream` | demux/demux.c:3605-3646 | If the queue lost nothing but packets before the first keyframe of the stream, its first run is the first run of the stream. |
| `SeekSoundness.AdjustedVideoTargetIff` | demux/demux.c:3679-3716 | The assumption that find_seek_target() gives the same packet for the adjusted position holds if and only if the stream has no preroll and, if the packet is after the position, no other run starts with it; or there is a preroll, and it is the first run. |
| `FileBeginning.RunOpens` | demux/demux.c:2008-2412 | A queue begins the stream if no keyframe of the stream comes before its packets. Over every run, each queue that begins the file, or starts after its range, begins the stream; on three conditions. The demuxer has not skipped a keyframe when queues are marked, and when it goes on in one that is marked and got no packet yet; and if such a queue is joined with another one, that one begins the stream. |
| `FileBeginning.InitialOpen` | demux/demux.c:3292-3366 | This holds at the start. |
| `FileBeginning.JoinBeginsIff` | demux/demux.c:1703-1813 | A join keeps this up for a queue that begins the file, if and only if the queue has packets or the other queue begins the stream. |
| `FileBeginning.AppendBeginsIff` | demux/demux.c:2075-2113 | A packet that is appended keeps it up if and only if it is not the first one, or no keyframe comes before it. |
| `FileBeginning.MarkBeginsIff` | demux/demux.c:2251-2257 | Marking a queue keeps it up if and only if the stream is refreshed, or the queue begins the stream. |
| `FileBeginning.PruneStreamOpen` | demux/demux.c:2299-2412 | It survives a round of pruning, with or without update_seek_ranges(). |
| `FileBeginning.SwitchRangeOpen` | demux/demux.c:3532-3578 | It survives the removal of the packets before the first keyframe from a range that is left. |
| `FileBeginning.TargetIsEarlyOrFirst` | demux/demux.c:3605-3646 | A backward search finds a run that starts no later than the position, or the start of the range if that is later, less the preroll; or else the first run of the stream. |
| `FileBeginning.CacheSeekIsEarlyOrFirst` | demux/demux.c:3648-3766 | So does the executed seek, for the adjusted position, whatever the queues of the range are that begin the file. |
| `FileBeginning.AdjustedIsEarlyOrFirst` | demux/demux.c:3679-3716 | And the adjusted position is that of a run of the video stream that is early enough, or of its first run. |
| `FileBeginning.RunSeekIsEarlyOrFirst` | demux/demux.c:3648-3766 | So after every such run from the initial state, every backward in-cache seek puts the reader on a run that starts early enough, or on the first run of the whole stream. |
| `FileBeginning.QueueSeekIsEarlyOrFirst` | demux/demux.c:3648-3867 | A backward seek that is done in the cache, in the range that is found for the position, puts the reader on a run that starts no later than the position less the preroll, or on the first run of the stream. (In a range at the beginning of the file: no later than its start, if that is after the position.) |
| `SeekEnds.RunKeepsEnds` | demux/demux.c:1882-2412 | Over every run, the end of each queue of a known eager stream is the time of a packet that was read into it, and no range ends after one of its queues, unless that is at the end of the file. |
| `SeekEnds.RunEnds` | demux/demux.c:1882-2412 | So this holds for all streams that count after every run from the initial state. |
| `SeekEnds.CachedIsRead` | demux/demux.c:3648-3867 | A position that is sought in the cache has been read: each queue of the range that counts is at the end of the file, or got a packet at or after the position. |
| `SeekEnds.UnreadIsSought` | demux/demux.c:3805-3867 | Conversely, if in each range some queue that counts has not been read up to a position, a seek there sends the demuxer there. |
| `SeekEnds.QueueSeekOutcome` | demux/demux.c:3805-3867 | A seek is done in the first range that has the position; demuxing goes on one second before its end, unless it was the current one. If there is none, the demuxer is sent to the position, if it can seek. |
| `SeekEnds.SeekResumes` | demux/demux.c:3718-3766 | After a seek in another range, a demuxer that does not skip packets after the position it is sent to goes on with a packet that was in the queue, so the place is found again. |
| `SeekEnds.JoinResumes` | demux/demux.c:1822-1828 | The same after ranges were joined. |
| `SeekEnds.ReadIsInQueue` | demux/demux.c:2351-2412 | If no packet is later than a keyframe that follows it, a queue with a start still has a packet at or after each position it was read up to, whatever was pruned. |
| `SeekEnds.PruneLeavesEndIff` | demux/demux.c:2351-2407 | In general, a round of pruning leaves a packet at or after the end of the queue if and only if there is one behind what it removes. |
| `SeekEnds.PrunedEndIsGone` | demux/demux.c:2351-2407 | A queue for which there is none: its first run ends after all that follow. |
| `Pruning.PruneRunOk` | demux/demux.c:2351-2375 | Removing a run never frees a packet at or after the reader, leaves the unread packets and their bytes as they are, and meets the assertion about keyframe_first. |
| `Pruning.PruneQueueIs` | demux/demux.c:2351-2399 | A round removes exactly what comes before the end of the first run, or before the first run, but nothing the reader has still to get; a keyframe is among it if and only if the head is one, or the cache is not seekable and there is one before the reader; then the queue starts at the next run, and the old start is remembered. It never begins the file any more, and it ends where it did. |
| `Pruning.PruneStreamOk` | demux/demux.c:2299-2412 | One round keeps the cache invariant, all unread packets and all forward bytes. |
| `Pruning.PruneStreamShrinks` | demux/demux.c:2299-2412 | Each round removes a packet, so pruning ends. |
| `Pruning.OthersPrunable` | demux/demux.c:2299-2412 | A range that is not the current one always has something to prune. |
| `Pruning.PruneOutcome` | demux/demux.c:2299-2412 | Pruning ends within the budget, or with only the current range left and nothing before its readers; readers, unread packets and forward bytes are unchanged. |
| `Pruning.EarliestGoesFirst` | demux/demux.c:2320-2349 | The stream to prune is one with a packet before its reader. It is the first one that has nothing worth keeping (no start, no keyframe at its head, or the cache is not seekable), if there is any; else none that can be pruned starts earlier. |
| `Pruning.PrunesInOrder` | demux/demux.c:2299-2412 | So over all rounds of pruning, no keyframe run is removed while a queue of its range that could be pruned, too, starts earlier. |
| `Pruning.BudgetIff` | demux/demux.c:2299-2318 | Pruning is done exactly while what is behind the readers, in packets and indexes, exceeds max_bytes_bw, or what that and max_bytes together leave, if unused forward memory is donated. |
| `Pruning.ForwardWithinTotal` | demux/demux.c:2306-2318 | The forward bytes are never more than the total, so their difference does not wrap around. |
| `FileStart.PruneCoversIff` | demux/demux.c:2351-2407 | A round of pruning leaves the span covering all starts if and only if the head is a keyframe (or the cache is not seekable and one comes before the reader), or the queue did not begin the file and start after the range. |
| `FileStart.TrimCoversIff` | demux/demux.c:3544-3550 | Leaving a range trims its queues; the span still covers all starts if and only if every queue that begins the file and starts after the range begins with a keyframe. |
| `FileStart.MarkCoversIff` | demux/demux.c:2251-2257 | Marking the queues leaves the span covering all starts if and only if no stream is refreshed whose queue begins the file and starts after the range. |
| `FileStart.UpdatedIsHonest` | demux/demux.c:607-696 | After its span was recomputed, a range claims to begin the file only if all queues that count do. |
| `FileStart.PruneHonestIff` | demux/demux.c:2351-2407 | After a round of pruning it still does if and only if a keyframe was pruned and the next run starts after the range. |
| `FileStart.TrimHonestIff` | demux/demux.c:3544-3550 | After trimming, if and only if all queues that count begin with a keyframe. |
| `FileStart.MarkHonestIff` | demux/demux.c:2251-2257 | After marking, if and only if no stream that counts is being refreshed. |
| `FailingRuns.StaleBofMisses` | demux/demux.c:2377-2407 | A family of runs from the start after which a range claims to begin the file and does not: a seek before its first keyframe is taken to be possible and ends up after the position. |
| `FailingRuns.BofPruneMisses` | demux/demux.c:2351-2407 | A run from the start after which the span no longer covers a start: a position inside the span is sought to a run that begins after it. |
| `Ranges.SpanIgnoresNoStart` | demux/demux.c:607-662 | A queue that has no start, whether it has packets or not, does not restrict the start of its range, nor, if it is ended, its end: the span is that of the other queues. |
| `EmptyJoins.EmptyJoinSkips` | demux/demux.c:2240-2244 | A family of runs from the start in which an audio stream is marked as ended, because the queues are full before it got a packet. That joins its range with a later one. The reader, which waited for the first packet, gets a later one; seeks to before that are done in the cache and find it, too; and a queue that began the file goes on to claim so. |
| `CacheRuns.InitialOk` | demux/demux.c:3366 | A new cache satisfies all invariants, and tracks every stream. |
| `CacheRuns.RunKeepsCache` | demux/demux.c:479-564 | Over every run of packets, ends of streams, reads, seeks and option changes the cache invariant holds. |
| `CacheRuns.JoinWindow` | demux/demux.c:1691-1813 | If the two queues are pieces of a stream with increasing positions, what a successful join makes of them is one too. |
| `CacheRuns.TrimToJoinWindow` | demux/demux.c:1705-1744 | The overlap that is dropped is exactly what the other queue has: the rest continues where it ends. |
| `CacheRuns.RunKeepsWindows` | demux/demux.c:1691-2113 | Over every run, each queue of an eager stream in which dts or file positions increase is a contiguous piece of it: nothing is lost, nothing is doubled, and demuxing goes on where the current queue ends. If it says that its dts (positions) have only increased, they have. This asks of low-level seeks to the end of a range that they go back to the last packet of the queue or before, and that the packets which are read again can be told from it. |
| `CacheRuns.RefreshEndsIff` | demux/demux.c:2045-2057 | Looking for the place again is over with the last packet of the queue if and only if, in a queue that compares dts, all packets read again before that have a lower dts. That is so in queues that compare positions. |
| `CacheRuns.ReplayedFrom` | demux/demux.c:2045-2057 | It is also so if the dts of the stream increase, or are missing, or if demuxing goes on with a packet that the queue still has. |
| `CacheRuns.RefreshEndsEarly` | demux/demux.c:2045-2057 | A queue for which it is not: packets are appended a second time. |
| `Refreshing.RunComparable` | demux/demux.c:2051-2055 | Over every run of packets of any kind, a selected stream that looks for its place has a queue in which dts or positions have only increased: the branch of which the program says that it should not happen is never taken. |
| `Refreshing.JoinComparable` | demux/demux.c:1698-1701 | For joins need a stream that can be compared as a whole, and what holds for the stream holds for all its queues. |
| `Refreshing.SwitchRangeFinds` | demux/demux.c:3552-3564 | And a range that is left is kept only if all selected streams can be compared. |
| `CacheRuns.FailedJoinKeepsCurrent` | demux/demux.c:1833-1836 | A failed join leaves the current range, the readers and the position alone, and frees at least the range that could not be joined. |
| `ReaderRuns.RunReadsOn` | demux/demux.c:2590-2604 | Over every run between two seeks, a reader that has a place in the stream gets its packets from there on, one after the other, whatever is appended, pruned, joined or sought below it. |
| `ReaderRuns.RunReadsPiece` | demux/demux.c:2590-2604 | Over every run between two seeks, from any state, what the decoder gets is a contiguous piece of the stream. |
| `ReaderRuns.DeliveredIsNext` | demux/demux.c:2082-2087 | After a low-level seek, the piece begins with the packet the demuxer delivers first. |
| `ReaderRuns.StepComparable` | demux/demux.c:1703-1704 | As long as there are other ranges, no step but a seek empties a queue of the current one, so a join always has a packet to compare. |
| `ReaderRuns.SeekReads` | demux/demux.c:3718-3766 | After an in-cache seek, the reader has its place at the packet that was found, also in another range. |
| `ReaderRuns.JoinReader` | demux/demux.c:1758-1813 | With packets left in the queue, the next packet of the reader is the same before and after a join. |
| `ReaderRuns.AppendNext` | demux/demux.c:2082-2087 | A reader without a packet waits for the packet at the position of the demuxer, or for the next keyframe from there: what it waits for stays the same until it is delivered. |
| `ReaderRuns.EmptyJoinReaderIff` | demux/demux.c:1703-1813 | If its queue is empty, a join gives it the packet that it waited for if and only if the other queue begins with that. |
| `ReaderRuns.EmptyJoinIff` | demux/demux.c:1656-1836 | So an attempt to join ranges leaves such a reader where it is if and only if the other queue begins at the position of the demuxer, or at the next keyframe if the reader waits for one. |
| `DemuxInternal.DemuxInternal.CounterIsMemory` | demux/demux.c:499-564 | In every valid state, total_bytes is the size of all packets and indexes. |
| `DemuxInternal.DemuxInternal.RemoveHeadPacket` | demux/demux.c:699-723 | The head is removed, and total_bytes stays the sum over all packets and indexes. |
| `DemuxInternal.DemuxInternal.ClearQueue` | demux/demux.c:737-766 | The queue becomes empty; total_bytes stays the sum. |
| `DemuxInternal.DemuxInternal.UpdateRange` | demux/demux.c:607-696 | The range gets the span of the specification. |
| `DemuxInternal.DemuxInternal.UpdatedRange` | demux/demux.c:607-696 | ... which the loops over the queues compute. |
| `DemuxInternal.DemuxInternal.RestartedQueue` | demux/demux.c:2377-2399 | The loop finds the keyframe that is first after pruning, and the start of its run. |
| `DemuxInternal.DemuxInternal.FreeEmptyCachedRanges` | demux/demux.c:783-817 | Frees what has no span, and then those that span the least time from their start to their end, until no more than MAX_SEEK_RANGES are left. |
| `DemuxInternal.DemuxInternal.FindNext` | demux/demux.c:1658-1679 | Of the ranges that start between the start and the end of the current one, finds the one that starts last. |
| `DemuxInternal.DemuxInternal.TrimQueue` | demux/demux.c:1691-1752 | Looks for the join point of one stream and drops the packets up to it; says whether the streams can be joined, as specified. |
| `DemuxInternal.DemuxInternal.RecountPositions` | demux/demux.c:1795-1802 | The loop makes the positions of the second list continue those of the first. |
| `DemuxInternal.DemuxInternal.LinkQueue` | demux/demux.c:1765-1811 | The lists, positions and indexes of two queues become those of the joined queue, entry by entry; total_bytes grows by what the index grows. |
| `DemuxInternal.DemuxInternal.JoinQueue` | demux/demux.c:1758-1813 | Joins two queues in the ranges they are in; total_bytes stays the sum, as the second index is freed. |
| `DemuxInternal.DemuxInternal.AttemptRangeJoining` | demux/demux.c:1656-1836 | Joins the ranges or discards the next one, as specified. |
| `DemuxInternal.DemuxInternal.KeyframeTimes` | demux/demux.c:1847-1880 | The loop computes the bounds of a run and finds its end. |
| `DemuxInternal.DemuxInternal.AddIndexEntry` | demux/demux.c:1614-1652 | Adds the entry if it is far enough from the last one; total_bytes grows by what the index grows. |
| `DemuxInternal.DemuxInternal.AdjustedQueue` | demux/demux.c:1889-1928 | Index, start, end and latest keyframe of the queue become those of the specification; says exactly if the span needs an update. |
| `DemuxInternal.DemuxInternal.AdjustSeekRangeOnPacket` | demux/demux.c:1882-1935 | Updates keyframe, bounds and index of the queue, the span of the range if needed, and tries to join. |
| `DemuxInternal.DemuxInternal.AppendedQueue` | demux/demux.c:2075-2113 | The packet becomes the last one, with its position; total_bytes grows by its size; the flags for increasing positions are those of the specification. |
| `DemuxInternal.DemuxInternal.AppendToQueue` | demux/demux.c:2075-2113 | So total_bytes stays the sum over all packets and indexes. |
| `DemuxInternal.DemuxInternal.AddPacketLocked` | demux/demux.c:2008-2154 | Drops the packet, ignores it while looking for the place in the stream, or appends and indexes it, and prunes. |
| `DemuxInternal.DemuxInternal.MarkStreamEof` | demux/demux.c:2156-2164 | Closes the last keyframe run. |
| `DemuxInternal.DemuxInternal.PruneOldPackets` | demux/demux.c:2299-2412 | The loop ends, never subtracts more than total_bytes, and computes the pruned cache of the specification. |
| `DemuxInternal.DemuxInternal.EarliestStream` | demux/demux.c:2320-2349 | Finds the prunable stream that goes first: one that has nothing worth keeping, or else the one that starts earliest. |
| `DemuxInternal.DemuxInternal.DequeuePacket` | demux/demux.c:2707-2767 | Hands out the packet at the reader, moves the reader on, and prunes. |
| `DemuxInternal.DemuxInternal.SwitchCurrentRange` | demux/demux.c:3532-3578 | Moves the range to the end, trims the one that was current, and resets the readers. |
| `DemuxInternal.DemuxInternal.SetCurrentRange` | demux/demux.c:567-580 | The range becomes the last one; the others keep their order. |
| `DemuxInternal.DemuxInternal.FindCacheSeekRange` | demux/demux.c:3648-3676 | Finds the first range that starts at or before the position, or begins the file, and ends at or after it, or ends the file. |
| `DemuxInternal.DemuxInternal.AdjustCacheSeekTarget` | demux/demux.c:3679-3716 | The loop over the streams finds the position the video can be sought to. |
| `DemuxInternal.DemuxInternal.ExecuteCacheSeek` | demux/demux.c:3718-3766 | Moves the readers, and demuxing to the end of the range. |
| `DemuxInternal.DemuxInternal.SwitchToFreshCacheRange` | demux/demux.c:3769-3785 | An empty range becomes the current one. |
| `DemuxInternal.DemuxInternal.SeekTo` | demux/demux.c:3805-3867 | Seeks in the cache if it can, or else starts afresh. |
| `DemuxInternal.DemuxInternal.MarkBeginning` | demux/demux.c:2251-2257 | Marks the queues that begin with the file. |
| `DemuxInternal.DemuxInternal.UpdateOptions` | demux/demux.c:2464-2523 | New limits take effect at once. |
| `PacketQueue.PacketQueue.Append` | demux/demux.c:2089-2101 | Links the node behind the tail; the list, pointers and ring are those of the queue with the packet appended. |
| `PacketQueue.PacketQueue.RemoveHeadPacket` | demux/demux.c:699-723 | Unlinks the head, and drops the pointers and the index entry to it; returns its bytes. |
| `PacketQueue.PacketQueue.Clear` | demux/demux.c:737-766 | Frees all nodes and the index. |
| `PacketQueue.PacketQueue.ComputeKeyframeTimes` | demux/demux.c:1847-1880 | Walks the list from a node and returns the bounds of its run, and the node after it. |
| `PacketQueue.PacketQueue.FindSeekTarget` | demux/demux.c:3605-3646 | The node found through the ring and the list is the packet of the specification. |
| `PacketQueue.PacketQueue.JoinQueue` | demux/demux.c:1758-1813 | The lists become one by linking, in place; positions are rewritten; entries of the second ring are added to the first; the second queue is left empty. |
| `Backward.KfFromCounts` | demux/demux.c:1486-1523 | The packet found by counting keyframes has exactly that many of them before it. |
| `Backward.StepBack` | demux/demux.c:1446-1539 | A successful step goes to an earlier keyframe; between it and the old restart position are as many runs as were asked for, or all there are at the beginning; the new restart position leaves exactly the preroll runs before it. |
| `Backward.RestartRendersIff` | demux/demux.c:1446-1539 | What a step renders is a full batch or all that is left, if and only if the reader is not taken to be at the beginning of the file, or no keyframe comes before it, or there are enough runs behind it. |
| `Backward.BofIsExactIff` | demux/demux.c:1468-1497 | When the end is declared, it is the beginning of the file if and only if no keyframe of the queue lies before both the reader and the restart position. |
| `Backward.StepRenders` | demux/demux.c:1446-1539 | Unless the seek position puts the reader at the beginning with keyframes before it, what is rendered is a full batch or all that is left, and the end is declared only if nothing is left. |
| `Backward.PrerollSkipsRuns` | demux/demux.c:1468-1571 | A walk, from a seek to the last keyframe of a file that is cached as a whole, through moving back and delivering a batch up to EOF, after which the end is declared with a run left to render; with a larger batch, a step renders too little. |
| `Backward.InitializeRestarts` | demux/demux.c:1363-1400 | The first restart position is a keyframe at or after the reader, or EOF. |
| `Backward.ResumeKeepsRestart` | demux/demux.c:1561-1577 | Resuming earlier moves only the seek position and the reader. |
| `Backward.ResumeGoesEarlier` | demux/demux.c:1561-1577 | If it asks for a seek, that is exactly one step earlier than the last one; if it moves the reader, the seek position is not later than it was. |
| `Backward.MovesToEarlierRun` | demux/demux.c:1561-1577 | With non-decreasing run starts, the reader is moved to an earlier run, the last one that starts before the seek position or else the first one, and the seek position to where it starts; a seek is asked for exactly if no run comes before the reader. |
| `Backward.RequestsGoEarlier` | demux/demux.c:1561-1577 | Over every walk without a successful step, k seeks that are asked for lower the seek position by at least k steps. |
| `Backward.BackwardSeekPosition` | demux/demux.c:1312-1340 | The demuxer is sent to the earliest position that any stream asks for. |
| `Backward.WalkTilesIff` | demux/demux.c:1446-1577 | Over every walk, with seeks and moves in between, the rendered parts tile the stream backwards (no gap, no overlap, full batches) if and only if every step renders all it should. |
| `Backward.WalkEndsIff` | demux/demux.c:1446-1577 | A walk that ends has come to the beginning of the file if and only if no keyframe of the queue lies before both the reader and the last cut. |
| `Backward.WalkTiles` | demux/demux.c:1446-1577 | So a walk tiles the stream and ends at its beginning if the seek position never puts the reader at the beginning with keyframes before it. |
| `Backward.BatchDelivery` | demux/demux.c:2676-2729 | After a step, exactly the packets up to the old restart position are handed out; exactly the preroll ones are marked as such, and exactly the first one as restart; the keyframe counter is never exceeded. |
| `Backward.StepDelivers` | demux/demux.c:1446-1539 | The whole cycle: a successful step lets the reader go on; the packets from its target to the old restart position are handed out, with those before the new one as preroll; then the reader is stopped, and the next step starts from the new restart position. |
| `Backward.StepSeeksFrom` | demux/demux.c:1527-1532 | A successful step sets the seek position to the earliest time in the run of its target. |
| `Backward.BofReadsOn` | demux/demux.c:1468-1484 | At the beginning of the file the reader goes on and is not stopped again. |
| `Backward.BackwardStream.FindBackwardRestartPos` | demux/demux.c:1359-1579 | The search through the queue finds the outcome of the specification and sets up the batch. |
| `Backward.BackwardStream.ChooseBatch` | demux/demux.c:1446-1539 | The loops that count and find keyframes choose the target and restart packets of the specification. |
| `Backward.BackwardStream.MoveBack` | demux/demux.c:1561-1577 | Moves the reader to an earlier packet, or asks for a seek one step earlier. |
| `Backward.BackwardStream.StepBackIfDelivered` | demux/demux.c:2671-2691 | Steps back once a batch was delivered. |
| `Backward.BackwardStream.TakePacket` | demux/demux.c:2699-2729 | Hands out and marks a packet. |
| `BackwardRuns.RunTilesIff` | demux/demux.c:1359-1625 | While packets are added to the cache and pruned, ranges joined and switched, and the reader moved back: the restart positions tile the stream if and only if every step renders all it should; and when the walk ends, it has come to the beginning of the file if and only if the queue has no keyframe before both the reader and the last restart position. |
| `BackwardRuns.EventsPlausible` | demux/demux.c:1581-1609 | For over every such run, what is looked at is a window of the stream: before a queue that begins the file comes no keyframe, and behind one that is ended nothing. |
| `BackwardRuns.ViewShows` | demux/demux.c:1359-1369 | ... as long as that is known of the state. |
| `BackwardRuns.StepKnown` | demux/demux.c:2008-2412 | It stays known over every step, if streams end where the demuxer does; and, when a queue of an ended stream is empty and joined, if the other one ends with the stream. |
| `BackwardRuns.MovedKnown` | demux/demux.c:1519-1574 | It stays known when the reader is moved back within the queue. |
| `BackwardRuns.InitialKnown` | demux/demux.c:3292-3366 | It is known at the start. |
| `DumpMerge.PickNext` | demux/demux.c:4243-4268 | Drops streams that have reached the end, and picks the stream with the earliest packet of those that are left. |
| `DumpMerge.MergeRange` | demux/demux.c:4229-4286 | The loop ends; of each stream it writes exactly the packets up to the first keyframe at or after the end, in order; all together are sorted if each stream is. |
| `DumpMerge.DumpRange` | demux/demux.c:4206-4286 | A range without a span, or that ends at or before the start or starts at or after the end, is skipped; of the others, each stream is written from the target of a backward seek on that is adjusted to the video keyframe. |
| `DumpMerge.DumpBegins` | demux/demux.c:4215-4225 | Each stream begins with a keyframe whose run starts no later than any position not before the start of its queue, less the preroll. |
| `DumpMerge.OverlapsIff` | demux/demux.c:4215-4222 | A range that has its own span is written if and only if it starts before the end and none of its queues that count and are not at the end of the file ends at or before the start (of a range that ends the file: some queue ends after it). |
| `DumpMerge.WantedIs` | demux/demux.c:4243-4261 | What is written of a stream is all that comes before the first keyframe at or after the end. |
| `DumpMerge.NothingWrittenIff` | demux/demux.c:4224-4261 | Of a stream that can be sought in, nothing is written if and only if the keyframe it would begin with is at or after the end. |
| `DiskCache.WordRoundTrip` | demux/cache.c:66-75 | 32 bit fields are read as they were written. |
| `DiskCache.SidesRoundTrip` | demux/cache.c:253-317 | Side data is read as it was written, in order. |
| `DiskCache.PacketRoundTrip` | demux/cache.c:197-324 | Reading a position of any file at which a serialized packet lies gives the packet: payload, flags and ordered side data. |
| `DiskCache.DemuxCache.DoSeek` | demux/cache.c:134-149 | The position is where it was asked to be, or, after a failure, not known. |
| `DiskCache.DemuxCache.WriteRaw` | demux/cache.c:151-171 | What was written before is not touched, not even by a write that fails or stops half-way. |
| `DiskCache.DemuxCache.ReadRaw` | demux/cache.c:173-192 | All of the bytes at the position, or failure. |
| `DiskCache.DemuxCache.Write` | demux/cache.c:197-277 | Success appends the packet at a new position; failure leaves file_size and all packets as they were, if seeking back works. If it does not, the packets are still there, but the size is no longer known, and no later write is reported to succeed: one that finds the position known gives it up and writes nothing; one that does not writes to where the file is, so that what comes before that stays and what comes behind it is overwritten. |
| `DiskCache.DemuxCache.Read` | demux/cache.c:279-324 | Every packet ever written with success is read back as it was, after any reads and any successful or failed writes, as long as the size is known; a read gives nothing but what is in the file, ends behind it, and fails only if the system does. |
| `DiskCache.WriteOverNext` | demux/cache.c:134-277 | After a write that could not be taken back, reading a packet and writing twice puts the second one over the packet behind the one that was read. |
| `Playlists.Playlist.UpdateIndexes` | common/playlist.c:55-62 | All indexes are right afterwards if those outside of the given range were. |
| `Playlists.Playlist.Add` | common/playlist.c:64-72 | The entry is the last one, with a new ID. |
| `Playlists.Playlist.GetRel` | common/playlist.c:201-207 | The neighbour, or nothing at the ends of the list. |
| `Playlists.Playlist.Remove` | common/playlist.c:83-101 | Exactly the entry is removed; if it was played, the next one takes its place, if there is one. |
| `Playlists.Playlist.Clear` | common/playlist.c:103-109 | All entries are removed, and nothing is left to play: the assertion holds. |
| `Playlists.Playlist.Move` | common/playlist.c:120-139 | The entry is put right in front of the other, or at the end; the partial index update is enough. |
| `Playlists.MovedOthers` | common/playlist.c:120-139 | All other entries keep their order. |
| `Playlists.MovedIsInsertRemove` | common/playlist.c:129-135 | Inserting the entry a second time and then removing it from its old place moves it. |
| `Playlists.Playlist.Shuffle` | common/playlist.c:146-155 | For all random numbers the result is a permutation, and remembers where entries were. |
| `Playlists.CompareIsOrderIff` | common/playlist.c:157-167 | The comparison given to qsort() is an order if and only if no entry that was there when the list was shuffled comes before one that was not. |
| `Playlists.NewEntriesAreNotOrdered` | common/playlist.c:157-167 | A list for which it is not: one entry, shuffled, and another one added. |
| `Playlists.SortedAreSurvivors` | common/playlist.c:169-174 | Entries sorted by where they were are the surviving entries in their original order. |
| `Playlists.Playlist.Unshuffle` | common/playlist.c:169-174 | A permutation again; if all entries were there when the list was shuffled, the surviving ones have their original order back, whatever was removed and moved. |
| `Playlists.EditedAreSurvivors` | common/playlist.c:83-139 | Over every series of removals and moves, what is in the list was there before, and no more often. |
| `Playlists.Playlist.TransferEntriesTo` | common/playlist.c:243-264 | The entries are put where they should, in order, with consecutive IDs; the other list is empty, and consistent if and only if it was not being played. |
| `Playlists.Playlist.TransferEntries` | common/playlist.c:272-285 | The same behind the current entry, as long as the assertion about the place holds. |
| `Playlists.Playlist.AddAtIsInListIff` | common/playlist.c:275-282 | The assertion holds if and only if the list does not end with a current entry that replaced another one. |
| `Playlists.AddAtCanBePastTheEnd` | common/playlist.c:83-101 | A list for which it does not: two entries, of which the first is removed while it is played. |
| `LogRing.RunAccounted` | common/msg.c:330-384 | Over every run of writes and reads, the messages taken are those delivered or reported as skipped, those to be reported, and those in the ring, in this order. |
| `LogRing.NewIsAccounted` | common/msg.c:768-780 | A new buffer has nothing to account for. |
| `LogRing.WriteAccounted` | common/msg.c:339-384 | A write to a full ring drops the oldest message and counts it. |
| `LogRing.ReadAccounted` | common/msg.c:829-854 | The overflow notice comes before the messages after the gap, and has exactly their number. |
| `LogRing.LogFileIsComplete` | common/msg.c:351-369 | As long as its thread is alive, all messages offered to the log file have been delivered, are in the ring, or wait for room, in this order, and nothing else was delivered. |
| `LogRing.AcceptsIff` | common/msg.c:339-355 | A buffer for the terminal gets the messages the terminal shows; that of a log file also all up to debug messages; others get those up to their level. Status lines go nowhere. |
| `LogRing.RunTakes` | common/msg.c:339-384 | Over every run, a buffer takes exactly the messages that are meant for it, whatever its reader does. |
| `LogRing.RunLosesNothing` | common/msg.c:351-369 | The buffer of a log file drops nothing while its thread is alive. |
| `LogRing.LogBuffer.TakeFirst` | common/msg.c:330-337 | The ring loses its first message. |
| `LogRing.LogBuffer.Write` | common/msg.c:339-384 | The array slots written are those of the specified ring; says if the writer has to wait. |
| `LogRing.LogBuffer.Read` | common/msg.c:829-854 | Delivers what is specified. |
| `Lacing.LacesCoverBlock` | demux/demux_mkv.c:2194-2214 | For every kind of lacing and every input, laces that are returned are exactly the bytes from the end of the lacing header to the end of the block, in spite of 32 bit wrap-around in the sizes. |
| `Lacing.NoLacingIff` | demux/demux_mkv.c:2137-2143 | A block without lacing is returned as one lace, if and only if it is complete and not larger than 1 GiB. |
| `Lacing.XiphRoundTripIff` | demux/demux_mkv.c:2146-2162 | Xiph lacing of 1 to 256 frames is decoded as it was encoded, if and only if no frame is larger than 1 GiB and, unless there is just one, not all are empty. |
| `Lacing.FixedRoundTripIff` | demux/demux_mkv.c:2164-2169 | Fixed-size lacing is, if and only if no frame is larger than 1 GiB and all together are less than 4 GiB. |
| `Lacing.EbmlRoundTripIff` | demux/demux_mkv.c:2171-2187 | EBML lacing of 2 to 256 frames, with numbers of any width, is, if and only if no frame is larger than 1 GiB and not all are empty. |
| `Lacing.ReadLengthInverts` | demux/ebml.c:79-101 | EBML numbers of every width are read as they were written. |
| `Lacing.ReadSignedInverts` | demux/ebml.c:107-120 | So are signed ones. |
| `Lacing.XiphSizeInverts` | demux/demux_mkv.c:2148-2158 | A size of any length is read as it was written, in 32 bits, unless nothing comes behind it. |
| `Lacing.Stream.ReadEbmlLength` | demux/ebml.c:79-101 | The bit and byte loops read the number of the specification; the end of the file gives an invalid length. |
| `Lacing.ReadXiphSizes` | demux/demux_mkv.c:2146-2158 | The loop reads the sizes of the specification, and their wrapped sum. |
| `Lacing.ReadEbmlSizes` | demux/demux_mkv.c:2176-2183 | The loop adds up the differences of the specification. |
| `Lacing.ReadBlockLacing` | demux/demux_mkv.c:2129-2218 | The parser returns the laces of the specification, or fails when it has none. |
| `RealAudio.PlaceOf` | demux/demux_mkv.c:2249-2254 | Sub-packets go to slots in the buffer from which packet and sub-packet can be told: they are pairwise distinct. |
| `RealAudio.SlotOf` | demux/demux_mkv.c:2249-2254 | Every slot is the one of some sub-packet. |
| `RealAudio.SlotOrder` | demux/demux_mkv.c:2249-2254 | Their order is: the first sub-packets of all packets, those of the even ones before those of the odd ones; then all second ones, and so on. |
| `RealAudio.SlotInBuffer` | demux/demux_mkv.c:2249-2256 | All of them lie in the buffer, whatever the sizes. |
| `RealAudio.NoWrap` | demux/demux_mkv.c:2252-2256 | 32 bit offsets do not wrap around for the sizes the header has room for. |
| `RealAudio.OnlySubPacketsIff` | demux/demux_mkv.c:2295-2303 | The packets put out have just the sub-packets of the block if and only if the unused rest of all packets does not make up one more. |
| `RealAudio.Track.Reorder` | demux/demux_mkv.c:2249-2259 | Copies a packet to its slots; those of the others and the rest of the buffer are not touched. Fails exactly if the packet is too short. |
| `RealAudio.Track.HandlePacket` | demux/demux_mkv.c:2221-2318 | After the last packet of a block, the packets put out are its sub-packets in the order of their slots, the first one being a keyframe; what comes behind them is what the memory of the buffer held when it was allocated. Exactly those that begin with a packet of the block have its timestamp (or 0 if the packet before had the same one); the others have none. Packets that are too short are dropped. |

## Left out

- SeekSoundness.CacheSeekIsSound: is about backward seeks and non-decreasing run starts; forward seeks promise no more than `SeekTarget.ForwardScanFinds`.
- CacheRuns.RunKeepsWindows: is about eager streams whose dts increase, or whose positions do, and about fixed stream selection; without one of them packets cannot be told apart, and the program warns. It describes the queues; `ReaderRuns` describes what is read from them.
- SeekEnds.RunKeepsEnds: is about the same streams.
- FileBeginning.RunOpens: is about the same streams, and asks of runs what its three if-and-only-if conditions show to be needed; without that there is `SeekSoundness.RunKeepsSound`.
- BackwardRuns.RunTilesIff: is about streams as in `FileBeginning.RunOpens` in which neither dts nor positions are out of order (they may be missing), and about streams that are only marked as ended at their end, not when the queues are full (the program warns that backward playback is likely stuck then).
- Backward.BatchDelivery: describes one stream; waiting for other streams before the first step back is not modelled, nor is where the other streams go on after a low-level seek for one of them.
- DumpMerge.DumpRange: describes one range; that the ranges are written in the order of their starts is left out. A packet that cannot be read from the disk cache ends the original dump.
- DiskCache.DemuxCache.Read: takes side data as a list; libavcodec may replace side data of a type that is already there.
- Playlists.Playlist.Unshuffle: demands that the comparison is an order; what qsort() does otherwise is not defined.
- Lacing.EbmlRoundTripIff: leaves out EBML lacing with a single frame, for which the format has no encoding.
- LogRing.RunAccounted: counts messages without bound; the counter has 64 bits.
- Threads, locks, condition variables and wakeups: each locked section is one step, and nothing is said about progress. A writer that waits for the log file looks again at any time.
- Demuxers, streams, the file system and memory allocation: packets, ends of streams and the position after a low-level seek are inputs. Allocation does not fail.
- Timestamps are real numbers; rounding, infinities and NaN are not modelled. Byte counters do not wrap around.
- Between the heap and the cache: `DemuxInternal` has queues as values, so sharing of nodes between queues is only modelled in `PacketQueue`.
- Stream selection while packets are cached, refresh seeks for new streams, subtitle streams that are read lazily, and attached pictures.
- Packet positions that are made up for demuxers without them, the last timestamp of a queue, timed metadata, bitrates, durations, and the recorder.
- Copying packet attributes to and from the disk cache, and deleting its file.
- The ra_288 and sipr branches of RealAudio.
- Playlist files, redirects, parameters and reference counts.
- Log levels per module, terminal output, partial lines, and the early log buffer.
