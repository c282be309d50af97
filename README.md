# rwthlm and the Zhuyin input-method tools, modelled in Dafny

rwthlm is a C++ trainer for recurrent neural-network language models:
embedding (table-lookup), linear, LSTM and class-factored softmax output
layers, trained by back-propagation through time. This project models the
integer, list and state logic around the layers' arithmetic:

- reading a corpus into word-index sequences, packing them (concatenated,
  verbatim or fixed-length streams), sorting each batch window by length,
  and walking batches and their time slices (`batch.dfy`, `data.dfy`);
- every layer's time cursors into its activation and delta buffers, the
  boundary cases where recurrent terms are skipped, `Reset`,
  `ExtractState`/`SetState`, the momentum protocol and the order in which
  `Read`/`Write`/`RandomizeWeights` visit the parameter arrays
  (`function.dfy`, `param.dfy`, `linear.dfy`, `recurrency.dfy`,
  `tablelookup.dfy`, `lstm.dfy`, `output.dfy`, `vocabulary.dfy`);
- the network: the topology-string parser, forward and reverse delegation,
  state vectors and the checkpoint header (`net.dfy`);
- the trainer: the epoch state machine, the order of the passes over one
  batch and the learning-rate probe search (`trainer.dfy`);
- the rescorer's file-name helpers and call order (`rescorer.dfy`) and the
  lattice rescorer's traceback arena and its recombination hash
  (`lattice.dfy`);
- the Python tools of the Zhuyin input method: keystroke expansion and
  candidate ranking (`word_generate.py` → `word_generate.dfy`), the
  interactive shell (`input.py` → `input_shell.dfy`), and the corpus
  scripts (`replace_by_unk.dfy`, `remove_nonchinese.dfy`,
  `train_val_split.dfy`, `possible_sentences.dfy`, `short_train.dfy`,
  `vocab_generate.dfy`).

Shared pieces: `common.dfy` (Option, Outcome, sums, flattening),
`text.dfy` (Python's whitespace `split`, `strip`, and writing tokens back),
`numerals.dfy` (Python's `str(n)` and `int(s)`), `sorting.dfy` (a stable
insertion sort standing for `std::sort`/`sorted`).

Modelling conventions:

- A layer's buffer pointer `base + t * GetOffset()` is modelled as the slot
  number `t`; the source's test `b_t_ != b_` becomes "slot times offset is
  not 0".
- Activation and delta buffers are `array<real>`; weights and their momentum
  accumulators are `seq<real>` values. What the BLAS kernels compute is not
  modelled; methods report which accumulators a call touches, and the
  momentum protocol (add, then decay) is stated over exact reals.
- Fatal `assert`s and `exit` calls of the source become the `Fatal` case of
  an `Outcome`; undefined behaviour that the source reaches (`back()` on an
  empty vector, an index past the end) is `Fatal` too.
- File contents, perplexities, random draws, the language model's scores
  and `boost::hash_combine` are parameters.
- Python strings are sequences of characters; `split()` splits on the ASCII
  whitespace characters.
- A fixed-length corpus read from an empty file ends in `back()` on an
  empty vector: the trailing-empty-sequence loop pops every sequence
  (`Data.Data.PrepareDataWithFixedLength` states this Fatal outcome).

## Model

| member | source | states |
|---|---|---|
| Batching.SliceAt | rwthlm/data.h:52-60 | the slice at position p is, entry by entry, the word at p of the leading sequences s with p < len(s)-1+offset, and it stops at the first sequence that has ended |
| Batching.SliceShrinks | rwthlm/data.h:52-60 | the slice never grows as the position advances, whatever the order of the sequences |
| Batching.SortedSliceCounts | rwthlm/data.h:52-60 | in a batch sorted by non-increasing length the slice holds exactly one word per sequence still running at that position |
| Batching.SortedBatchWords | rwthlm/data.h:94-109 | walking a sorted batch of non-empty sequences from `begin()` to `end()` (offset 1) visits Σ(len(s)-1) words, the count `CountNumRunningWords` gives for that batch |
| Batching.BatchIterator.constructor | rwthlm/data.h:37-47 | the iterator holds its position and offset, and its slice is the slice at that position (the loop's stop at an empty sequence changes nothing for a position ≥ 0) |
| Batching.BatchIterator.Increment | rwthlm/data.h:52-60 | `++it` moves to the next position and rebuilds the slice there |
| Batching.BatchIterator.Decrement | rwthlm/data.h:62-71 | `--it` moves to the previous position; the slice is empty below the offset and otherwise the slice there |
| Batching.Batch.Begin | rwthlm/data.h:94-96 | `Begin(o)` is the iterator at position o with the slice there |
| Batching.Batch.End | rwthlm/data.h:98-101 | `End(o)` is the iterator at position len(first sequence)-1+o, where the first sequence has ended, so its slice is empty |
| Batching.DataIterator.constructor | rwthlm/data.h:136-143 | the first window starts at the given position and holds at most `max_batch_size` sequences, clamped at the data's end |
| Batching.DataIterator.Increment | rwthlm/data.h:148-155 | the next window starts where the previous ended and is again at most `max_batch_size` long, clamped at the data's end |
| Batching.WindowCount | rwthlm/data.h:198-200 | covering n sequences with k windows of b, all full but the last, means k = ⌈n/b⌉, the `GetNumBatches` formula |
| Batching.Batches | rwthlm/data.h:206-212 | the range-for from `begin()` to `end()` yields consecutive, non-overlapping windows that cover the data in order, each of 1 to `max_batch_size` sequences, all full but the last, and `GetNumBatches` of them |
| Batching.Slice | rwthlm/data.h:42-46 | never more words than sequences in the batch |
| Batching.ActiveWordsRunning | rwthlm/data.h:191-196 | over positions 1 to the longest length, the active sequences add up to the running-word count Σ(len(s)-1) |
| Batching.Batch.constructor | rwthlm/data.h:89-92 | the batch holds exactly the given window of sequences |
| Sorting.Insert | rwthlm/data.cc:181-182 | inserting into a sorted list keeps it sorted and adds exactly the one element |
| Sorting.Sort | rwthlm/data.cc:181-182 | the result is sorted by the given total preorder and is a permutation of the input |
| Sorting.SortedUnique | rwthlm/data.h:185-186 | under an antisymmetric order two sorted sequences with the same elements are equal |
| Data.WordsRead | rwthlm/data.cc:67-72 | extracting words from a trimmed line yields at least one word: its tokens, or for a line without tokens the stale word of the previous line |
| Data.Indices | rwthlm/data.cc:69-72 | each word read is mapped through the vocabulary, unknown words to the unknown index |
| Data.LineIndicesOfTokens | rwthlm/data.cc:69-75 | a line with tokens yields one index per token, then the sentence-boundary index unless `debug_no_sb` |
| Data.ReadLine | rwthlm/data.cc:64-77 | one line: accepted iff it does not start with "<s>", does not end with "</s>" and its last word is not the boundary word; the indices pushed and the word left behind for the next line |
| Data.ReadIndices | rwthlm/data.cc:54-80 | Fatal exactly when some line fails its assertions; otherwise one index sequence per line, in order, and the count returned is the total number of indices pushed |
| Data.Room | rwthlm/data.cc:162 | the words moved into the last sequence in one round never exceed what is left of the line |
| Data.SplitInto | rwthlm/data.cc:161-169 | the splitting loop leaves at least one sequence behind |
| Data.SplitIntoConserves | rwthlm/data.cc:161-169 | the pieces of a split line, after the last sequence's old words, are exactly the old last sequence followed by the line |
| Data.SplitIntoBounded | rwthlm/data.cc:161-169 | every piece has at most `max_length` words and all but the last are exactly full |
| Data.AppendConserves | rwthlm/data.cc:146-174 | in both modes `Append` loses and reorders nothing: the flattened data afterwards is the flattened data before, then the line |
| Data.AppendBounded | rwthlm/data.cc:149-170 | in concatenated mode every sequence stays within `max_length` words |
| Data.AppendAllConserves | rwthlm/data.cc:86-88 | appending all lines keeps the flattening: the old data, then every line in order |
| Data.AppendAllBounded | rwthlm/data.cc:86-88 | in concatenated mode every sequence built from the lines has at most `max_length` words |
| Data.AppendAllVerbatim | rwthlm/data.cc:171-173 | in verbatim mode the lines become the sequences unchanged, one each |
| Data.PrefixedFrom | rwthlm/data.cc:91-96 | prefixing keeps the number of sequences |
| Data.PrefixedFromPredecessor | rwthlm/data.cc:91-96 | sequence 0 gets the boundary index and sequence i the last token of sequence i-1 (as it was before sorting) in front |
| Data.PrefixedFromBounded | rwthlm/data.cc:91-96 | sequences of at most `max_length` words have at most `max_length` + 1 = `max_sequence_length` after prefixing |
| Data.LongerOrEqualIsTotalPreorder | rwthlm/data.cc:181-182 | the "longer first" comparison is a total preorder, as `std::sort` needs |
| Data.SortByLength | rwthlm/data.cc:181-182 | sorting a window gives a permutation of it in non-increasing length |
| Data.SortedWindowsIsPermutation | rwthlm/data.cc:176-185 | sorting the windows one by one permutes the whole data |
| Data.SortedWindowsAt | rwthlm/data.cc:176-185 | each window of `max_batch_size` sequences starting at a multiple of that size (the last possibly shorter) becomes a sorted permutation of itself: window boundaries do not move |
| Data.LexIsTotalPreorder | rwthlm/data.h:186 | the lexicographic order on sequences used by the shuffle's first sort is a total preorder |
| Data.LexAntisymmetric | rwthlm/data.h:186 | two sequences each lexicographically no greater than the other are equal, so the first sort's order is antisymmetric |
| Data.LexSort | rwthlm/data.h:186 | the whole data sorted lexicographically: sorted and a permutation |
| Data.LexSortIgnoresOrder | rwthlm/data.h:185-186 | two orderings of the same sequences sort to the same result |
| Data.RandomShuffled | rwthlm/data.h:187 | the swaps of `std::random_shuffle` from a position on keep the sequences and the length |
| Data.RandomShuffle | rwthlm/data.h:187 | the swap loop yields exactly `RandomShuffled` from position 1 |
| Data.ShuffledOrder | rwthlm/data.h:186-187 | the sorted data shuffled with the draws is a permutation of the data |
| Data.ShuffleIgnoresEarlierOrder | rwthlm/data.h:185-187 | the same sequences in any order, shuffled with the same draws, give the same order, so a shuffle does not depend on earlier shuffles |
| Data.RunningWordsIsTotalMinusCount | rwthlm/data.h:191-196 | the running-word count Σ(len(s)-1) is the total number of words less one per sequence |
| Data.QuotasSumToTotal | rwthlm/data.cc:134-137 | the streams' quotas N/B + (b < N%B), stream 0 N/B + (N%B > 0), sum to N |
| Data.QuotaFirstIsLargest | rwthlm/data.cc:134-137 | no stream gets more words than stream 0 |
| Data.QuotasBeforeAndFrom | rwthlm/data.cc:134-137 | the quotas of the streams before b and of the streams from b on add up to all the words |
| Data.QuotaWhileWordsRemain | rwthlm/data.cc:134-137 | while words remain for streams b and later, stream b has at least one word of its own |
| Data.QuotasExhausted | rwthlm/data.cc:134-137 | once no words remain for streams b and later, none of them has a quota |
| Data.HoldingsHandOver | rwthlm/data.cc:134-137 | handing over from a stream holding its quota to the next, empty one changes no stream's count |
| Data.HoldingsComplete | rwthlm/data.cc:134-137 | once no words remain for later streams, every stream holds its quota |
| Data.Fill | rwthlm/data.cc:119-126 | an empty sequence j opens with the last placed word; then exactly min(min(line length, room below `max_sequence_length`), words the stream still takes) words move from the front of the line to its end, at least one; no other sequence changes, `n` drops by the words moved, `last_word` becomes the sequence's last word, and the layout invariant holds with those words placed |
| Data.Open | rwthlm/data.cc:119-120 | an empty sequence j becomes the one-word sequence of the last placed word, a started one is left as it is, and no other sequence changes |
| Data.Advance | rwthlm/data.cc:127-138 | the vector grows by B empty sequences exactly when sequence j is full and stream 0 is dealing; a stream whose words are all placed, other than the last, hands over to the next stream at its first sequence with that stream's quota; otherwise j moves on by B exactly when the sequence is full; the dealing invariant holds afterwards |
| Data.DealStep | rwthlm/data.cc:117-139 | one round of the inner loop: a non-empty prefix of the line is placed, opened sequence j gains exactly those words, rows the vector grows by are empty, no other sequence changes, and the dealing invariant holds afterwards |
| Data.DealLine | rwthlm/data.cc:117-139 | dealing one line places all of its words, in order, after the earlier ones, and keeps the dealing invariant that ties the placed words to the sequences |
| Data.CurrentRowHasRoom | rwthlm/data.cc:121-128 | at the head of the inner loop sequence j is never full, so at least one word moves |
| Data.FillRows | rwthlm/data.cc:119-126 | extending the opened sequence of the current stream by words that fit keeps every sequence a stretch of its stream's words, and its last word is the last word placed |
| Data.RowsLaidAppend | rwthlm/data.cc:129-130 | while only stream 0 holds words, appending B empty sequences keeps every sequence laid out |
| Data.AdvanceGrow | rwthlm/data.cc:128-131 | a full sequence of stream 0 hands over to its next sequence, which the B new empty sequences provide |
| Data.RoomInRow | rwthlm/data.cc:127-128 | a sequence shorter than its full length takes the stream's next word as well: that word falls in the same row |
| Data.FullRow | rwthlm/data.cc:128-131 | a sequence at its full length is closed: the stream's next word opens the following row, exactly one row's width further on |
| Data.DealingHandOver | rwthlm/data.cc:134-137 | a stream other than the last that holds its quota hands over to the next stream at its first sequence with its own quota |
| Data.DealingStays | rwthlm/data.cc:134 | a stream with words still to place, or the last stream, keeps dealing |
| Data.DealingDone | rwthlm/data.cc:115-140 | once no words remain, every stream holds its quota and the vector is the completed layout, with B sequences per row of stream 0 |
| Data.DealtBounded | rwthlm/data.cc:121-122 | every sequence of the layout has at most `max_sequence_length` words |
| Data.DealtNoWords | rwthlm/data.cc:109-140 | with no words every sequence stays empty |
| Data.DealtOpensWithBoundary | rwthlm/data.cc:114-120 | with words, the first sequence is non-empty and opens with the boundary index |
| Data.DealtFullBeforeNext | rwthlm/data.cc:118-131 | when the next sequence of the same stream has words, the sequence is full and the next one opens with its last word |
| Data.DealtStreamWords | rwthlm/data.cc:109-140 | the first k sequences of stream b, opening words dropped, hold the first min(k(L-1), quota of b) of the stream's words |
| Data.DealtStreamHoldsQuota | rwthlm/data.cc:109-140 | all of stream b's sequences, opening words dropped, are exactly its quota of words, the ones after the earlier streams' words |
| Data.DealtStreams | rwthlm/data.cc:109-140 | the completed layout holds every stream's quota and each sequence with a non-empty successor is full |
| Data.DealLines | rwthlm/data.cc:109-140 | dealing every line in turn places the boundary index then every word in order, and ends with no words remaining under the dealing invariant; with no lines every sequence is left empty |
| Data.Deal | rwthlm/data.cc:109-140 | the placed words are the boundary index then every word in order; the vector has B sequences per row of stream 0; stream b's sequences, opening words dropped, are exactly its N/B (+1 for b < N%B) words, the ones after the earlier streams' words; a sequence whose same-stream successor has words is full and that successor opens with its last word; every sequence is at most `max_sequence_length` long; with no lines every sequence is left empty |
| Data.Data.FromSequences | rwthlm/data.cc:43-52 | the corpus is exactly the given sequences, with `debug_no_sb` off |
| Data.Data.Empty | rwthlm/data.cc:20-29 | the corpus starts empty, with the given sizes and flags |
| Data.Data.Append | rwthlm/data.cc:146-174 | concatenated mode: the line joins the last sequence if the sum fits, else starts a new sequence if it fits alone, else is split with the last sequence filled first; verbatim mode pushes the line unchanged |
| Data.Data.Overflow | rwthlm/data.cc:159-170 | the splitting loop replaces the last sequence by the pieces `SplitInto` describes |
| Data.Data.PrefixSequences | rwthlm/data.cc:90-96 | the prefixing loop leaves the sequences `PrefixedFrom` describes |
| Data.Data.SortBatches | rwthlm/data.cc:176-185 | the data afterwards is the data before with each window sorted by non-increasing length |
| Data.Data.AppendLines | rwthlm/data.cc:86-88 | `Append` on every line in order |
| Data.Data.PrepareDataSequenceWise | rwthlm/data.cc:82-101 | when it succeeds every line was accepted and read, no sequence is longer than `max_sequence_length`, and the data is the appended (and, unless `debug_no_sb`, prefixed) lines with each window sorted |
| Data.Data.WithinMaxLength | rwthlm/data.cc:98-100 | the final check passes iff no sequence is longer than `max_sequence_length` |
| Data.Data.PrepareDataWithFixedLength | rwthlm/data.cc:103-144 | succeeds iff every line is accepted and there is a word; then the placed words are the boundary index and all words in order, stream b's sequences (opening words dropped) are exactly its N/B (+1 for b < N%B) words after the earlier streams' words, a sequence whose same-stream successor has words is full and that successor opens with its last word, no sequence exceeds `max_sequence_length`, and the last is non-empty; an empty file is Fatal |
| Data.Data.Shuffle | rwthlm/data.h:184-189 | the data stays a permutation of its old contents; it ends as `ShuffledOrder` of the old data and the draws, with each batch window then sorted by length |
| Functions.ForwardsFrom | rwthlm/linear.cc:64-67 | n `Evaluate`s move the activation cursor n slots on and leave the delta cursor where it was |
| Functions.BackwardsFrom | rwthlm/linear.cc:70-94 | n backward steps (`ComputeDelta`, then the layer above's `AddDelta` on this layer's delta cursor) move the activation cursor n slots back and the delta cursor n slots on |
| Functions.UpdatesFrom | rwthlm/linear.cc:96-123 | n `UpdateWeights` move the delta cursor n slots back and the activation cursor n slots on |
| Functions.CursorCycle | rwthlm/linear.cc:64-122 | over T steps from a reset layer: after T evaluations the activation cursor is at T; backward step k processes slot T-1-k; after T backward steps the delta cursor is at T; update u reads delta slot T-1-u, the slot written at backward step u; after T updates the delta cursor is back at base and the activation cursor at T |
| Functions.PastBaseIff | rwthlm/recurrency.cc:36 | the address test `b_t_ != b_` for a cursor at slot t holds iff t is not 0 and the offset is not 0 |
| Functions.ResetActivationsSlots | rwthlm/linear.cc:152-164 | after a dependent reset slot 0 holds the old slot 1 and every other slot is zero; after an independent reset slots 0..L-2 are zero and the last slot is left alone |
| Functions.ResetBuffer | rwthlm/linear.cc:155-162 | the buffer after the copy and the zeroing is the one `ResetActivations` describes |
| Functions.BaseComputeLogProbability | rwthlm/function.h:91-98 | the base class's `ComputeLogProbability` always fails its assertion |
| Params.Param.Apply | rwthlm/linear.cc:125-143 | `UpdateMomentumWeights`: every weight gets its momentum added, then every momentum is multiplied by the momentum factor |
| Params.Param.ResetMomentum | rwthlm/linear.cc:145-150 | `ResetMomentum` zeroes the accumulator and keeps the weights |
| Params.Param.Accumulate | rwthlm/linear.cc:99-116 | a gradient step through the accumulator changes the momentum only, never the weights |
| Params.Param.Direct | rwthlm/tablelookup.cc:102-115 | a gradient step written straight into the weights leaves the momentum alone |
| Params.Randomized | rwthlm/linear.cc:215-229 | `RandomizeWeights` gives the drawn weights and an all-zero momentum |
| Params.ApplyEach | rwthlm/lstm.cc:658-831 | applying the momentum to a group applies it to every member |
| Params.ResetEach | rwthlm/lstm.cc:833-856 | resetting a group resets every member's momentum |
| Params.AccumulateEach | rwthlm/lstm.cc:543-644 | every member of a group accumulates the gradient named for it |
| Params.AccumulateAt | rwthlm/lstm.cc:543-644 | one member accumulates and every other member is unchanged |
| Params.ReadGroup | rwthlm/lstm.cc:981-1042 | reading a group takes its weights, then their momenta, off the stream, in order and at their sizes |
| Params.RandomizeGroup | rwthlm/lstm.cc:909-979 | randomizing a group draws its weights in order and zeroes their momenta |
| Params.ApplyNClosedForm | rwthlm/linear.cc:125-143 | with no gradient in between, n applications move each weight by its momentum times 1 + m + … + m^(n-1) and leave m^n times the momentum |
| Params.ResetThenApplyKeepsWeights | rwthlm/linear.cc:125-150 | after `ResetMomentum`, applying the momentum leaves the weights where they were |
| Params.Take | rwthlm/linear.cc:186-187 | a read takes exactly the next n reals off the stream |
| Params.ChunksDetermined | rwthlm/linear.cc:185-213 | two serialisations of same-sized arrays that produce the same stream hold the same arrays: reading back what was written restores every array |
| Linears.Linear.constructor | rwthlm/linear.cc:18-45 | the layer has the given dimensions and activation, a bias exactly when asked, a recurrency exactly when recurrent, and both cursors at base |
| Linears.Linear.Evaluate | rwthlm/linear.cc:47-68 | returns the slot at `b_t_` and moves `b_t_` one slot on; the recurrent term is added iff there is a recurrency and `b_t_` is past the base; weights unchanged |
| Linears.Linear.ComputeDelta | rwthlm/linear.cc:70-79 | moves `b_t_` one slot back and leaves `delta_t_`, where the layer above writes; the recurrent term is added iff there is a recurrency and `delta_t_` is past the base |
| Linears.Linear.AddDelta | rwthlm/linear.cc:81-94 | moves `delta_t_` one slot on; weights unchanged |
| Linears.Linear.UpdateWeights | rwthlm/linear.cc:96-123 | moves `delta_t_` back first, accumulates into the weight, bias and (past the base) recurrent momentum only, returns the old `b_t_` and moves `b_t_` on |
| Linears.Linear.UpdateMomentumWeights | rwthlm/linear.cc:125-143 | weights, bias and the recurrency each get their momentum added and decayed; cursors unchanged |
| Linears.Linear.ResetMomentum | rwthlm/linear.cc:145-150 | zeroes the weight and bias momentum and leaves the recurrency's momentum alone |
| Linears.Linear.Reset | rwthlm/linear.cc:152-164 | Fatal iff dependent, recurrent and batch size not 1; otherwise `b_t_` at slot 1 (dependent and recurrent, slot 1 copied to slot 0) or base, `delta_t_` at base, L-1 slots zeroed from `b_t_` and the whole delta buffer zeroed |
| Linears.Linear.ExtractState | rwthlm/linear.cc:166-175 | a recurrent layer with batch size 1 records slot 0, a non-recurrent layer an empty entry; Fatal for a recurrent layer with a larger batch |
| Linears.Linear.SetState | rwthlm/linear.cc:177-183 | a recurrent layer's slot 0 becomes the entry's first `GetOffset()` values, so it restores what `ExtractState` recorded; a non-recurrent layer is Fatal on a non-empty entry; no other slot changes |
| Linears.Linear.Read | rwthlm/linear.cc:185-198 | consumes exactly the arrays `Write` emits, in its order: weights, momentum, the bias pair when present, then the recurrency's pair |
| Linears.Linear.RandomizeWeights | rwthlm/linear.cc:215-232 | the weights take the first O·I draws, the bias (when present) the next O, the recurrent weights (when recurrent) the next O·O; the rest of the draws is returned and every momentum is zero |
| Recurrencies.Recurrency.constructor | rwthlm/recurrency.cc:17-32 | an output-by-output weight matrix with its momentum, at the owner's offset |
| Recurrencies.Recurrency.Evaluate | rwthlm/recurrency.cc:34-48 | returns the owner's cursor unchanged and adds W·b[t-1] iff the cursor is past the base (never at the first step) |
| Recurrencies.Recurrency.ComputeDelta | rwthlm/recurrency.cc:50-64 | adds the later step's delta iff the delta cursor is past the base (never for the last time step) |
| Recurrencies.Recurrency.UpdateWeights | rwthlm/recurrency.cc:69-85 | only the recurrent momentum changes, and only when the owner's cursor is past the base; the cursor is returned unchanged |
| Recurrencies.Recurrency.UpdateMomentumWeights | rwthlm/recurrency.h:44-53 | the recurrent weights get their momentum added, then the momentum decays |
| Recurrencies.Recurrency.ResetMomentum | rwthlm/recurrency.h:55-58 | the recurrent momentum is zeroed |
| Recurrencies.Recurrency.RandomizeWeights | rwthlm/recurrency.cc:102-109 | drawn weights and an all-zero momentum |
| Recurrencies.Recurrency.Read | rwthlm/recurrency.cc:87-92 | consumes the recurrent weights, then their momentum: exactly what `Write` (recurrency.cc:94-100) emits |
| TableLookups.Shift | rwthlm/tablelookup.cc:133-135 | one history after a word arrives: the same length, the new word in front and the oldest word gone |
| TableLookups.UpdatedShape | rwthlm/tablelookup.cc:127-138 | updating keeps every history `order` words long; the first update creates one history per slice entry, later ones keep the count |
| TableLookups.HistoryWindow | rwthlm/tablelookup.cc:127-138 | after the words of a stream have arrived one per step, history position j holds the word j steps back, or the stream's first word when fewer than j+1 words have arrived |
| TableLookups.FlattenUniformIndex | rwthlm/tablelookup.cc:60-61 | the lookup index i reads word i mod order of history i div order, and that is position i of the histories laid end to end |
| TableLookups.RegroupFlatten | rwthlm/tablelookup.cc:171-187 | `SetState` after `ExtractState` restores the histories exactly |
| TableLookups.FlattenRegroup | rwthlm/tablelookup.cc:171-187 | `ExtractState` after `SetState` gives back the stored word vector exactly |
| TableLookups.RegroupInOrder | rwthlm/tablelookup.cc:185-186 | the loop builds one `order`-word history per chunk of the entry, in order |
| TableLookups.TableLookup.constructor | rwthlm/tablelookup.cc:17-49 | the configuration as given, recurrency and bias present exactly when asked for, no histories, cursors at the base |
| TableLookups.TableLookup.ResetHistories | rwthlm/tablelookup.h:54-56 | the histories are cleared and nothing else changes |
| TableLookups.TableLookup.UpdateHistories | rwthlm/tablelookup.cc:127-138 | the histories become the updated histories (first call: `order` copies of each word; later: each entry's word shifted in), weights and cursors unchanged |
| TableLookups.TableLookup.Lookups | rwthlm/tablelookup.cc:60-66 | the embedding rows read are the first `size` histories one after the other, `size * order` of them |
| TableLookups.TableLookup.Evaluate | rwthlm/tablelookup.cc:51-72 | histories updated before they are read; the rows read are the updated histories of the slice; the old `b_t_` is returned and the cursor moves one slot on; the recurrency is evaluated iff present and past the base |
| TableLookups.TableLookup.ComputeDelta | rwthlm/tablelookup.cc:74-82 | `b_t_` moves back and `delta_t_` moves on; the recurrency contributes iff present and `delta_t_` is past the base; weights and histories unchanged |
| TableLookups.TableLookup.UpdateWeights | rwthlm/tablelookup.cc:88-115 | `delta_t_` moves back; histories move on only when not feed-forward; the gradient is added straight into the bias and embedding weights; the old `b_t_` is returned |
| TableLookups.TableLookup.UpdateMomentumWeights | rwthlm/tablelookup.cc:117-120 | only the recurrency's momentum step happens; embedding weights, bias and histories unchanged |
| TableLookups.TableLookup.ResetMomentum | rwthlm/tablelookup.cc:122-125 | only the recurrency's momentum is zeroed |
| TableLookups.TableLookup.Reset | rwthlm/tablelookup.cc:157-169 | fails exactly when a dependent reset of a recurrent layer meets a batch size other than 1; otherwise the cursors return to the start (one slot on, with the last state carried, for a dependent recurrent reset) |
| TableLookups.TableLookup.ExtractState | rwthlm/tablelookup.cc:171-178 | the recurrent slot (when recurrent) and every history laid end to end |
| TableLookups.TableLookup.SetState | rwthlm/tablelookup.cc:180-187 | the recurrent slot is restored and the histories become the entry regrouped in chunks of `order` |
| TableLookups.TableLookup.Read | rwthlm/tablelookup.cc:189-199 | consumes exactly the arrays `Write` (tablelookup.cc:201-212) emits, in the same order |
| TableLookups.TableLookup.RandomizeWeights | rwthlm/tablelookup.cc:140-155 | the embedding weights take the first draws, the bias (when present) the next word-dimension draws, the recurrent weights (when recurrent) the next O·O; the rest is returned; the recurrent momentum is zero and the histories unchanged |
| Lstms.LstmParams.Accumulated | rwthlm/lstm.cc:446-645 | every bias and input-weight momentum takes its gradient; the four recurrent and the input and forget peephole momenta only when the step continues from a previous slot; the output peephole always; sizes kept |
| Lstms.LstmParams.Applied | rwthlm/lstm.cc:658-831 | each of the fifteen weight/momentum pairs takes one momentum step, sizes kept |
| Lstms.LstmParams.MomentaReset | rwthlm/lstm.cc:833-856 | every momentum is zeroed, weights and sizes kept |
| Lstms.ReadParams | rwthlm/lstm.cc:981-1042 | consumes exactly `SerializedSize` reals: the arrays `Write` (lstm.cc:1044-1105) emits, in the same order, with biases exactly when configured |
| Lstms.RandomizeParams | rwthlm/lstm.cc:909-979 | the weights take consecutive draws in the order `Write` emits them, and every momentum is zero |
| Lstms.Cursors.Advanced | rwthlm/lstm.cc:202-207 | the six activation cursors move one slot on together: lock step and lag kept, `b_t_` moves forward |
| Lstms.Cursors.Retreated | rwthlm/lstm.cc:258-263 | the six activation cursors move one slot back together, never before their base |
| Lstms.Cursors.Fed | rwthlm/lstm.cc:430-434 | the five delta cursors move one slot on together |
| Lstms.Cursors.Unfed | rwthlm/lstm.cc:441-445 | the five delta cursors move one slot back together |
| Lstms.ResetCursors | rwthlm/lstm.cc:859-879 | `b_t_` and `cec_b_t_` at slot 1 after a dependent reset and at base otherwise; every other cursor at base |
| Lstms.Lstm.constructor | rwthlm/lstm.cc:19-96 | the four biases exist together or not at all; cursors at base |
| Lstms.Lstm.Evaluate | rwthlm/lstm.cc:142-209 | returns the old `b_t_` slot and moves the activation cursors on; recurrent and peephole terms are used iff `b_t_` is past the base; weights unchanged |
| Lstms.Lstm.ComputeDelta | rwthlm/lstm.cc:257-391 | cursors move back first; the later step's terms are used iff `delta_t_` is past the base, the forget-gate delta iff `b_t_` is |
| Lstms.Lstm.AddDelta | rwthlm/lstm.cc:393-435 | the delta cursors move on, weights unchanged |
| Lstms.Lstm.UpdateWeights | rwthlm/lstm.cc:437-656 | the delta cursors move back, the momenta accumulate as `Accumulated` says (continued iff `b_t_` is past the base), the old `b_t_` is returned and the activation cursors move on |
| Lstms.Lstm.UpdateMomentumWeights | rwthlm/lstm.cc:658-831 | the parameters become `Applied`, cursors unchanged |
| Lstms.Lstm.ResetMomentum | rwthlm/lstm.cc:833-856 | the parameters become `MomentaReset`, cursors unchanged |
| Lstms.Lstm.Reset | rwthlm/lstm.cc:858-895 | fatal iff dependent with batch size not 1; otherwise the cursors are `ResetCursors`, the output and cell buffers are reset as the linear layer's output buffer is, and the other nine buffers are all zero |
| Lstms.Lstm.ResetBuffers | rwthlm/lstm.cc:858-895 | slot 1 is carried to slot 0 on a dependent reset, the output and cell buffers are zeroed from their cursor, the nine others zeroed completely |
| Lstms.Lstm.ExtractState | rwthlm/lstm.cc:897-902 | slot 0 of the output followed by slot 0 of the cell state |
| Lstms.Lstm.SetState | rwthlm/lstm.cc:904-907 | what `ExtractState` then records is the first two slots' worth of the entry; the rest of both buffers is unchanged |
| Lstms.Lstm.Read | rwthlm/lstm.cc:981-1042 | the parameters become what `ReadParams` reads: the stream is the arrays `Write` emits followed by the rest |
| Lstms.Lstm.RandomizeWeights | rwthlm/lstm.cc:909-979 | the weights take consecutive draws, every momentum is zero, cursors unchanged |
| Outputs.OutputDims | rwthlm/output.cc:26-31 | the layer's output dimension is V + C - shortlist: one row per word outside the shortlist plus one per class |
| Outputs.SlotsInStep | rwthlm/output.cc:40-50 | in one time step the class block (B rows of C) comes first and the word block (B rows of M) follows; every slot of a step below L lies inside the buffer |
| Outputs.SlotsDisjoint | rwthlm/output.cc:40-50 | distinct entries or classes never share a class slot, distinct entries or word positions never share a word slot, and no class slot is a word slot |
| Outputs.BuildWordOffsets | rwthlm/output.cc:54-61 | `word_offset_[c]` is the number of word rows of all earlier non-singleton classes |
| Outputs.WordOffsetSteps | rwthlm/output.cc:54-61 | the table starts at 0, never decreases, and grows by the class size except at singleton classes |
| Outputs.WithinClass | rwthlm/output.cc:132-133 | a word of a non-singleton class has a within-class position below its class size and below the largest class size |
| Outputs.EntryTargetsAt | rwthlm/output.cc:126-139 | entry j's targets are its class in its own class row and, outside singleton classes, its within-class position in its own word row, and nothing else |
| Outputs.TargetsOneHot | rwthlm/output.cc:126-139 | over the whole slice, a class slot is a target iff it is its entry's class, a word slot iff it is its entry's word of a non-singleton class |
| Outputs.TargetsInBuffer | rwthlm/output.cc:129-133 | every written target lies inside the delta buffer |
| Outputs.MarkTargets | rwthlm/output.cc:126-139 | the targets are set to 1 and every other delta slot is unchanged |
| Outputs.ClassRowAfterReset | rwthlm/output.cc:121-142 | on zeroed deltas, slot c of entry i's class row is the class activation minus 1 at the entry's class and minus 0 elsewhere |
| Outputs.WordRowAfterReset | rwthlm/output.cc:121-142 | on zeroed deltas, slot k of entry i's word row is the word activation minus the one-hot of the word's position within its class, for k inside a non-singleton class, and stays 0 otherwise |
| Outputs.MultiplyDerivative | rwthlm/softmax.cc:34-38 | each of the `count` delta slots becomes the activation at the same offset minus the old delta; every other slot is unchanged |
| Outputs.WordDerivedAt | rwthlm/output.cc:131-138 | word slot k of entry i is passed through the derivative iff the entry is in the slice, its class is not a singleton and k lies inside the class |
| Outputs.DerivedAt | rwthlm/output.cc:131-141 | every class slot of an entry in the slice is derived, and no other class slot; word slots as in `WordDerivedAt` |
| Outputs.TargetsDerived | rwthlm/output.cc:126-141 | every one-hot target written is then passed through the derivative |
| Outputs.WordRowDerived | rwthlm/output.cc:134-138 | deriving entry i's word row extends the derivative over the first i entries' word rows to the first i + 1 |
| Outputs.ClassRowsDerived | rwthlm/output.cc:141 | deriving the class block after the word rows covers exactly the derived slots |
| Outputs.DeriveWordRow | rwthlm/output.cc:134-138 | entry i's word row, up to its class size, becomes activation minus delta; nothing changes for a singleton class |
| Outputs.DeriveClassRows | rwthlm/output.cc:141 | the first C·|slice| slots of the delta step become activation minus delta |
| Outputs.DeriveSlice | rwthlm/output.cc:131-141 | every derived slot of the delta step becomes the activation at the same place in the activation step minus the old delta, and every other slot is unchanged |
| Outputs.OutputParams.Applied | rwthlm/output.cc:226-245 | class weights, and the class bias when present, take one momentum step; the word tables are untouched |
| Outputs.OutputParams.MomentaReset | rwthlm/output.cc:247-250 | the class-weight momentum is zeroed, the class-bias momentum only when there is a bias; weights and word tables kept |
| Outputs.ResetMomentumAsWritten | rwthlm/output.cc:247-250 | fails exactly when there is no class bias and at least one class; otherwise agrees with `MomentaReset` |
| Outputs.ResetMomentumWithoutBias | rwthlm/output.cc:247-250 | a layer without bias and with one class: the code as written fails, the guarded version zeroes the class-weight momentum |
| Outputs.ReadOutputParams | rwthlm/output.cc:290-310 | consumes exactly the arrays `Write` (output.cc:312-332) emits, in order, the word tables only when words lie outside the shortlist |
| Outputs.ReadOutputBias | rwthlm/output.cc:300-309 | the class bias, its momentum, then the word bias when words lie outside the shortlist |
| Outputs.ShortlistSliceKeepsWordTables | rwthlm/output.cc:203-221 | a slice whose words all lie in singleton classes leaves the word tables as they were |
| Outputs.StepWordTables | rwthlm/output.cc:203-221 | the word tables take each non-singleton entry's update in slice order; the class parameters are untouched |
| Outputs.EntryReadsOwnRows | rwthlm/output.cc:341-369 | an entry's term depends only on its own class row and its own word row |
| Outputs.LogProbabilitySnoc | rwthlm/output.cc:341-369 | one more entry adds exactly that entry's term |
| Outputs.LogProbabilityPrefix | rwthlm/output.cc:341-369 | the sum over the first n entries depends only on those entries |
| Outputs.SumLogProbabilities | rwthlm/output.cc:338-381 | the loop's total is the sum of the entries' terms: log class probability (divided by `num_oovs + 1` for the unknown word) plus, outside singleton classes, log word probability |
| Outputs.Output.constructor | rwthlm/output.cc:19-62 | output dimension V + C - shortlist, word offsets built class by class, both biases present exactly when asked for, cursors at base |
| Outputs.Output.Evaluate | rwthlm/output.cc:75-119 | returns the old class cursor and moves both activation cursors on; parameters unchanged |
| Outputs.Output.ComputeDelta | rwthlm/output.cc:121-142 | the activation cursors move back; the slice's one-hot targets are set to 1 at the current delta step, then every class row of the slice and every word row of a non-singleton entry becomes the activations minus that delta; every other slot is unchanged |
| Outputs.Output.AddDelta | rwthlm/output.cc:144-174 | both delta cursors move on, parameters unchanged |
| Outputs.Output.UpdateWeights | rwthlm/output.cc:176-224 | delta cursors back; the class gradients go into the class momenta; the word tables take each non-singleton entry's update directly; the old class cursor is returned and the activation cursors move on |
| Outputs.Output.UpdateMomentumWeights | rwthlm/output.cc:226-245 | the parameters become `Applied` |
| Outputs.Output.ResetMomentum | rwthlm/output.cc:247-250 | the parameters become `MomentaReset`, the bias momentum guarded |
| Outputs.Output.Reset | rwthlm/output.cc:252-262 | dependent or not, all four cursors at base and both buffers entirely zero |
| Outputs.Output.ComputeLogProbability | rwthlm/output.cc:334-382 | 0 for an empty slice, otherwise the sum of the entries' terms |
| Outputs.Output.Read | rwthlm/output.cc:290-310 | the stream is the arrays `Write` emits followed by the rest |
| Outputs.Output.RandomizeWeights | rwthlm/output.cc:264-288 | class weights, word weights, then the two biases take consecutive draws; the class momenta are zero |
| Vocab.WordOffsetMonotone | rwthlm/output.cc:54-61 | the word-offset table never decreases, and a class's rows end before the next class's offset |
| Vocab.WordSlotInRange | rwthlm/output.cc:132-133 | a word of a non-singleton class has a within-class slot in [0, class size), below the largest class size, and its class's rows lie inside the V - shortlist word rows |
| Nets.SplitOn | rwthlm/net.cc:230-231 | at least one piece, and no piece contains the separator |
| Nets.JoinSplit | rwthlm/net.cc:230-231 | splitting on '-' loses nothing: the pieces joined with '-' give the topology string back |
| Nets.SplitJoin | rwthlm/net.cc:230-231 | separator-free pieces joined with '-' split back into exactly those pieces |
| Nets.ParseDimensionDecimal | rwthlm/net.cc:236-238 | a decimal number up to the largest int, followed by a non-digit or nothing, reads back as that number |
| Nets.ParseSkipsBlanks | rwthlm/net.cc:236-238 | leading white space and one '+' sign do not change the number read |
| Nets.ParseNoNumber | rwthlm/net.cc:236-238 | text that starts with no blank, sign or digit reads as 0 |
| Nets.AccumulateFromZero | rwthlm/net.cc:236-238 | digits read one by one from 0 give the number they denote |
| Nets.ActivationMap | rwthlm/net.cc:134-162 | '2'-'9' and 'i' get identity, 'l'/'r' tanh, 'L'/'R' sigmoid, 'm'/'M' no activation, 'x' softmax, anything else fails; each in both directions |
| Nets.SetUpFunctionKinds | rwthlm/net.cc:164-226 | dense types build a table lookup first (order from the digit, fatal when the dimension is not a multiple of it) and a linear layer later; LSTMs fail first and build later; 'x' builds the output layer; other types fail |
| Nets.TokenLayerFails | rwthlm/net.cc:233-245 | a token fails iff it is empty, is of type 'x', has an unknown type, puts an LSTM first, or puts a table lookup first with a dimension not divisible by its order |
| Nets.TokenLayerShape | rwthlm/net.cc:233-245 | a built token layer is never an output layer, is a table lookup iff first, reads the vocabulary size (first) or the net's output so far, and outputs the token's dimension |
| Nets.LayersFromFails | rwthlm/net.cc:233-246 | the first n tokens fail iff one of them does |
| Nets.LayersFromShape | rwthlm/net.cc:233-246 | the tokens' layers are one per token, chained input to output |
| Nets.LayersFromStep | rwthlm/net.cc:233-246 | n tokens' layers are the first n - 1 tokens' layers plus the layer of token n - 1, which reads the output of the one before |
| Nets.LayersFromLength | rwthlm/net.cc:233-246 | a successful parse yields one layer per token |
| Nets.LayersFromFatal | rwthlm/net.cc:233-246 | once a prefix fails, the whole token list fails |
| Nets.TopologyShape | rwthlm/net.cc:228-255 | fails iff some token fails; otherwise one layer per token, chained, then one softmax output layer reading the last token layer, with output dimension V + C - shortlist |
| Nets.TopologyOutputLast | rwthlm/net.cc:228-255 | in a built net the only output layer is the last |
| Nets.ExampleTopology | demo/code/word_generate.py:93 | the demo's `ptt_language_model-i300-m300` builds a 300-wide projection over the vocabulary, a 300-wide LSTM and an output layer reading 300 inputs |
| Nets.ExampleName | demo/code/word_generate.py:93 | the demo's network file name splits at '-' into its path and the two layer tokens `i300` and `m300` |
| Nets.StateOwners | rwthlm/net.cc:86-89 | every entry of the state vector names an existing layer |
| Nets.StateAligned | rwthlm/net.cc:91-95 | with the output layer last and alone, entry j is layer j's, so handing layer j entry j restores each layer's own state |
| Nets.Saved | rwthlm/net.cc:265-274 | the checkpoint is stored under its name; an existing file is first kept under name + ".bk"; no other file changes |
| Nets.SavedTwice | rwthlm/net.cc:265-274 | writing twice under one name keeps the first checkpoint as the backup |
| Nets.Loaded | rwthlm/net.cc:257-263 | loading fails iff the file does not exist, and otherwise gives the stored checkpoint |
| Nets.LoadSaved | rwthlm/net.cc:257-274 | loading what was just saved gives it back |
| Nets.Net.constructor | rwthlm/net.cc:32-49 | no layers, output dimension 0, epoch 0, the given rate and momentum, best perplexity at the largest real |
| Nets.Net.Compose | rwthlm/net.h:92-95 | the layer goes last and its output dimension becomes the net's |
| Nets.Net.BuildNetworkLayers | rwthlm/net.cc:228-255 | fails iff the topology does; otherwise the topology's layers are appended and the net's output dimension is the last layer's |
| Nets.Net.ComposeTokens | rwthlm/net.cc:233-246 | the tokens' layers are appended one at a time, or the first failing token stops the build |
| Nets.Net.Evaluate | rwthlm/net.cc:51-55 | layers in order, each fed the buffer address the one before returned; the net returns the last layer's |
| Nets.Net.ComputeDelta | rwthlm/net.cc:57-62 | layers from last to first, each handed the layer after it, the last the caller's |
| Nets.Net.UpdateWeights | rwthlm/net.cc:64-74 | layers in order with chained pointers, every layer with the given rate or the net's own |
| Nets.Net.UpdateMomentumWeights | rwthlm/net.h:49-56 | every layer in order with the given momentum or the stored one |
| Nets.Net.VisitAll | rwthlm/net.h:58-70 | one call per layer, in layer order |
| Nets.Net.Reset | rwthlm/net.cc:80-84 | fatal iff dependent with batch size not 1; otherwise every layer is reset in order with the same flag |
| Nets.Net.ExtractState | rwthlm/net.cc:86-89 | the state entries, each naming the layer that pushed it |
| Nets.Net.SetState | rwthlm/net.cc:91-95 | layer j is handed entry j, whatever `i` is |
| Nets.Net.LogProbabilityLayer | rwthlm/net.cc:124-132 | the last layer answers; a net without layers is fatal |
| Nets.Net.RandomizeWeights | rwthlm/net.cc:97-100 | every layer draws its weights in order; topology, header and momentum unchanged |
| Nets.Net.Write | rwthlm/net.cc:113-122 | the checkpoint holds epoch, rate, best perplexity and every layer's arrays; the momentum is not written |
| Nets.Net.Read | rwthlm/net.cc:102-111 | epoch, rate, best perplexity and the layers' arrays are restored; momentum and topology stay |
| Nets.Net.WriteFile | rwthlm/net.cc:265-274 | the files become `Saved` with the net's current checkpoint |
| Nets.Net.ReadFile | rwthlm/net.cc:257-263 | fatal and unchanged iff the file is missing; otherwise the net's checkpoint is the file's |
| Nets.Net.BuildNetworkAndRandomize | rwthlm/net.h:97-103 | fails iff the topology does; otherwise the layers are built and each draws its weights in order |
| Nets.Net.BuildNetworkAndLoad | rwthlm/net.h:105-114 | fails iff the topology fails or no file is named like it; otherwise built and loaded from that file |
| Nets.Net.SetEpoch | rwthlm/net.h:120-122 | only the epoch changes |
| Nets.Net.SetLearningRate | rwthlm/net.h:128-130 | only the learning rate changes |
| Nets.Net.SetMomentum | rwthlm/net.h:136-138 | only the momentum changes |
| Nets.Net.SetBestPerplexity | rwthlm/net.h:144-146 | only the best perplexity changes |
| Nets.Scan | rwthlm/net.cc:236-238 | the stream extraction never stores more than the largest int |
| Nets.ParseDimension | rwthlm/net.cc:236-238 | a layer dimension read from a token is at most the largest int |
| Nets.ExampleLayers | rwthlm/net.cc:228-255 | the tokens i300 and m300 build a 300-wide table lookup over the vocabulary with identity activation, then a 300-wide LSTM layer reading it |
| Trainers.Cast | rwthlm/trainer.h:23-34 | the cast slice has one real per word index |
| Trainers.CastKeepsValues | rwthlm/trainer.h:23-34 | casting keeps every index: two slices cast alike iff they are equal |
| Trainers.NonPositiveIsNotFinite | rwthlm/trainer.h:66-70 | the finiteness test rejects zero and every negative value, since it compares against the smallest positive normal value |
| Trainers.PassPrefixAt | rwthlm/trainer.cc:116-138 | step k of a pass is the call at position k + 1 on that slice, with the slice before it as input |
| Trainers.PassesAgree | rwthlm/trainer.cc:113-140 | forward, backward and update passes have the same length; forward and update visit positions 1 .. T on the same slices and inputs, backward the same positions in reverse |
| Trainers.DoWhileNeverStops | rwthlm/trainer.cc:126-130 | the do-while as written, started at or below `Begin(1)`, never reaches it |
| Trainers.SingleTokenBatchHangs | rwthlm/trainer.cc:126-130 | a batch whose first sequence has one token makes the backward loop as written run forever |
| Trainers.DoWhileAboveStop | rwthlm/trainer.cc:126-130 | started above `Begin(1)`, the do-while visits exactly the positions from the last down to 1 |
| Trainers.BackwardPositions | rwthlm/trainer.cc:126-130 | the corrected backward pass visits positions T down to 1 |
| Trainers.DescendingAt | rwthlm/trainer.cc:126-130 | the positions counted down from hi - 1 to lo, one per step |
| Trainers.PassAdvances | rwthlm/trainer.cc:118-123 | one more slice adds its step to the pass and its size to the running word count |
| Trainers.FeedforwardPrefix | rwthlm/trainer.cc:147-156 | one group of calls per position visited |
| Trainers.ProbePassed | rwthlm/trainer.cc:195-202 | a probe passes only after exactly 30 batches with at least 25 decreases, so the assertion at trainer.cc:199 never fails |
| Trainers.OscillationRejects | rwthlm/trainer.cc:186-187 | a perplexity more than twice the previous stops the probe at that batch without a candidate |
| Trainers.ProbePassNeedsBatches | rwthlm/trainer.cc:174-203 | a passing probe saw 30 batches, all with finite perplexity |
| Trainers.RunProbe | rwthlm/trainer.cc:165-203 | the batch loop ends where the probe's definition says: batches run, decreases counted, passed or not |
| Trainers.Verdicts | rwthlm/trainer.cc:165-203 | entry j says whether probe j passes |
| Trainers.FirstWith | rwthlm/trainer.cc:207-210 | the first probe from j on whose verdict is the one asked for, every probe before it having the other |
| Trainers.RatePositive | rwthlm/trainer.cc:170 | every rate tried from a positive start with a positive factor is positive |
| Trainers.SearchRound | rwthlm/trainer.cc:165-211 | after one probe the search stops with the candidate (increasing: when the probe fails; decreasing: when it passes) or goes on from the rate just tried |
| Trainers.SearchIncreasing | rwthlm/trainer.cc:159-213 | with a factor above 1 the result is the rate of the last probe before the first failure, or -1 when the first probe fails |
| Trainers.SearchDecreasing | rwthlm/trainer.cc:159-213 | with a factor in (0, 1) the result is the rate of the first probe that passes |
| Trainers.LastTriedRound | rwthlm/trainer.cc:165-211 | after one probe the last rate tried is that probe's rate when the search stops there, otherwise the rest of the search's |
| Trainers.LastTriedIncreasing | rwthlm/trainer.cc:165-211 | with a factor above 1 the rate left on the net is that of the first failing probe, or of the last probe when none fails |
| Trainers.LastTriedDecreasing | rwthlm/trainer.cc:165-211 | with a factor in (0, 1) the rate left on the net is that of the first passing probe, or of the last probe when none passes |
| Trainers.EpochStepFacts | rwthlm/trainer.cc:60-85 | one epoch: the counter grows by one, the best perplexity becomes the smaller one, the rate halves exactly when there is no improvement, the old file survives as the backup and the file again holds the net |
| Trainers.TrainRunFacts | rwthlm/trainer.cc:57-87 | training never fails once the file holds the net, the best perplexity never rises and ends at most every perplexity seen, and the epoch counts the epochs run (all of them without a limit) |
| Trainers.Trainer.constructor | rwthlm/trainer.cc:35-55 | every setting as given |
| Trainers.Trainer.Shuffle | rwthlm/trainer.h:72-81 | nothing changes without shuffling; otherwise the generator is reseeded from the seed and the epoch, and the data are permuted |
| Trainers.Trainer.TrainBatch | rwthlm/trainer.cc:113-140 | the forward pass, the backward pass in reverse, the update pass and one momentum step, in that order; the word count grows by the words of positions 1 .. T |
| Trainers.Trainer.ForwardPass | rwthlm/trainer.cc:116-123 | the range-for makes exactly the pass's steps and counts the words of the visited slices |
| Trainers.Trainer.VisitSlice | rwthlm/trainer.cc:118-123 | one iteration extends the pass by one position and moves the iterator on |
| Trainers.Trainer.BackwardPass | rwthlm/trainer.cc:125-130 | `ComputeDelta` on positions T down to 1, stopping at `Begin(1)` |
| Trainers.Trainer.TrainBatchFeedforward | rwthlm/trainer.cc:142-157 | every position is reset, evaluated, back-propagated, updated and given momentum, in order |
| Trainers.Trainer.VisitFeedforward | rwthlm/trainer.cc:147-156 | one iteration adds one position's calls and moves the iterator on |
| Trainers.Trainer.TrainEpoch | rwthlm/trainer.cc:89-111 | the batch windows are the data cut, in order, into `GetNumBatches()` windows of 1 to B sequences, every one but the last holding exactly B; each gets a reset, cleared histories and its passes, in batch order; only the weights change |
| Trainers.Trainer.TrainWindows | rwthlm/trainer.cc:92-100 | each window, in order, gets a reset, cleared histories and its passes, as `BatchPlan` lays them out |
| Trainers.Trainer.ApplyTrained | rwthlm/trainer.cc:89-111 | an epoch changes only the net's weights |
| Trainers.Trainer.Train | rwthlm/trainer.cc:57-87 | the net and the files end as the epoch loop's definition says |
| Trainers.Trainer.Epoch | rwthlm/trainer.cc:61-85 | one pass of the loop: keep and write the better net, or reload it with half the rate and the new epoch number and write again |
| Trainers.Trainer.AutoAdjustLearningRate | rwthlm/trainer.cc:159-213 | fatal iff the factor is 1; otherwise the search's result over the probes' verdicts; the weights are redrawn after the probes; the net's rate ends as the last rate tried, and its epoch, best perplexity, layers and momentum are unchanged |
| Trainers.Trainer.AutoInitializeLearningRate | rwthlm/trainer.cc:215-237 | fatal iff there are fewer than 30 batches; otherwise the data are shuffled (a permutation), the search upwards from 0.05 and then downwards from 0.1 picks the rate, which is set, and the weights are redrawn |
| Rescoring.Stem | rwthlm/rescorer.h:57-58 | the name with a trailing ".gz" removed, and unchanged when there is none |
| Rescoring.ExtendedFileName | rwthlm/rescorer.h:55-60 | the extension is inserted just before a trailing ".gz" and otherwise appended; the length grows by the extension's length |
| Rescoring.LastIndexOf | rwthlm/rescorer.h:67 | the position of the last occurrence of the character (no later position holds it), or none when it does not occur |
| Rescoring.FileNameWithoutExtension | rwthlm/rescorer.h:62-68 | a prefix of the name ending just before the last '.' in front of any ".gz"; the whole name when there is no such '.' |
| Rescoring.LastIndexOfAfter | rwthlm/rescorer.h:62-68 | appending text without the character does not move its last occurrence |
| Rescoring.WithoutExtendedName | rwthlm/rescorer.h:55-68 | naming an output "<name>.<e>" and then removing the extension gives back the name without ".gz", when e has no '.' and is not "gz" |
| Rescoring.Schedule | rwthlm/rescorer.h:40-46 | four steps per lattice file |
| Rescoring.ScheduleAt | rwthlm/rescorer.h:40-46 | file i is handled by steps 4i to 4i+3: reset, read, rescore and write, each on file i's name |
| Rescoring.Rescorer.constructor | rwthlm/rescorer.h:25-33 | no step has been taken yet |
| Rescoring.Rescorer.DoReset | rwthlm/rescorer.h:50 | records one reset step |
| Rescoring.Rescorer.DoReadLattice | rwthlm/rescorer.h:51 | records reading the named lattice |
| Rescoring.Rescorer.DoRescoreLattice | rwthlm/rescorer.h:52 | records one rescoring step |
| Rescoring.Rescorer.DoWriteLattice | rwthlm/rescorer.h:53 | records writing the named lattice |
| Rescoring.Rescorer.Rescore | rwthlm/rescorer.h:38-47 | the steps taken are exactly the schedule of the given files, in order |
| Lattice.NewHypothesis | rwthlm/htklatticerescorer.h:87-98 | a new hypothesis has traceback id 0 and score 0 and keeps its network state |
| Lattice.OrdersAreStrictWeak | rwthlm/htklatticerescorer.h:77-94 | node order by time and hypothesis order by score are strict weak orders (irreflexive, transitive, with equal keys exactly incomparable), and their non-strict forms are total preorders |
| Lattice.SkipSilent | rwthlm/htklatticerescorer.h:177-180 | walks back to a trace that is not silent (starts a path, or whose link has a nonzero LM score), never forward, and stays put on a trace that is not silent |
| Lattice.HistoryWords | rwthlm/htklatticerescorer.h:174-186 | exactly dpOrder history words when the walk stays inside the traceback arena |
| Lattice.CombinedSnoc | rwthlm/htklatticerescorer.h:181-182 | folding the hash over one more word is one more combine step |
| Lattice.SilentIsTransparent | rwthlm/htklatticerescorer.h:174-186 | a hypothesis at a silent trace has the same recombination history as one at its predecessor |
| Lattice.HistoryWordsAreSpoken | rwthlm/htklatticerescorer.h:174-186 | every word that goes into the hash is the history word of a trace that is not silent |
| Lattice.HtkLatticeRescorer.constructor | rwthlm/htklatticerescorer.h:34-64 | empty nodes, links and traceback, with the given dpOrder |
| Lattice.HtkLatticeRescorer.AddTraceback | rwthlm/htklatticerescorer.h:128-137 | appends exactly one trace and returns its index, the old size |
| Lattice.HtkLatticeRescorer.GetToNodeID | rwthlm/htklatticerescorer.h:147-152 | node 0 for a trace that starts a path, otherwise the end node of its link |
| Lattice.HtkLatticeRescorer.GetTime | rwthlm/htklatticerescorer.h:143-145 | the time of the node the trace ends at |
| Lattice.HtkLatticeRescorer.Hash | rwthlm/htklatticerescorer.h:174-186 | the combine function folded from 0 over the history words (dpOrder of them, silent traces skipped); none when the walk reads outside the arena |
| Lattice.SkipSilentWalk | rwthlm/htklatticerescorer.h:178-180 | the loop stops at the trace SkipSilent defines |
| Lattice.AddKeepsWalkable | rwthlm/htklatticerescorer.h:128-137 | appending a trace that points back at an existing trace keeps every backward walk inside the arena |
| InputShell.Step | demo/code/input.py:48-96 | the shell stays consistent: the option count equals the number of stored options, and the state is 0 or 1 |
| InputShell.Shell.constructor | demo/code/input.py:26-35 | empty sentence, no options, count 0, state 0 |
| InputShell.Shell.Reset | demo/code/input.py:31-46 | back to the initial state, whatever came before |
| InputShell.Shell.Default | demo/code/input.py:48-96 | the new fields are the step function's result for the old fields and the line, and the shell stays consistent |
| InputShell.BadInputIsIgnored | demo/code/input.py:50-53 | a line that is not exactly one token changes nothing |
| InputShell.TypingAsksGenerator | demo/code/input.py:57-73 | in state 0 a typed token goes to the generator; a rejected or empty answer changes nothing, otherwise the options are stored with their count and the shell waits for a choice |
| InputShell.ChoosingAppends | demo/code/input.py:90-96 | in state 1, typing the number k of an option (1 to count) appends option k to the sentence and returns to state 0 |
| InputShell.OtherNumbers | demo/code/input.py:76-89 | 0 returns to state 0 without changing the sentence; a number above the count or a negative number changes nothing |
| InputShell.SentenceOnlyGrowsByChoice | demo/code/input.py:48-96 | the sentence either stays the same or, after a choice in state 1, gets exactly one stored option appended |
| WordGenerate.KeyPairIsWellFormed | demo/code/word_generate.py:6-14 | every key of the table has at least one Zhuyin symbol, and each symbol is a single character |
| WordGenerate.Row | demo/code/word_generate.py:52-53 | one entry per symbol |
| WordGenerate.Cross | demo/code/word_generate.py:50-54 | the product has \|xs\|·\|ys\| entries |
| WordGenerate.CrossAt | demo/code/word_generate.py:50-54 | entry i·\|ys\|+j is xs[i] followed by ys[j]: the earlier combination varies slowest |
| WordGenerate.CrossMembers | demo/code/word_generate.py:50-54 | a string is in the product iff it is some x followed by some y |
| WordGenerate.CrossIndex | demo/code/word_generate.py:50-54 | every entry of the product comes from one pair |
| WordGenerate.CombosCount | demo/code/word_generate.py:43-54 | the number of combinations is the product of the typed keys' symbol counts |
| WordGenerate.CombosNonEmpty | demo/code/word_generate.py:43-54 | a nonempty valid key string has at least one combination |
| WordGenerate.CombosMembers | demo/code/word_generate.py:43-54 | a string is a combination iff it has one symbol per typed key and each symbol belongs to its key, in order |
| WordGenerate.CombosSpell | demo/code/word_generate.py:43-54 | every combination spells the typed keys |
| WordGenerate.SpellingIsCombo | demo/code/word_generate.py:43-54 | every spelling of the typed keys is a combination |
| WordGenerate.Combinations | demo/code/word_generate.py:43-54 | the loop builds exactly the combination list defined key by key |
| WordGenerate.CrossProduct | demo/code/word_generate.py:50-54 | the nested loop builds exactly the ordered product |
| WordGenerate.PronMatches | demo/code/word_generate.py:65-68 | at most one entry per pronunciation |
| WordGenerate.PronMatchesMembers | demo/code/word_generate.py:65-68 | the only word found is the vocabulary word, and it is found iff one of its pronunciations starts with the combination |
| WordGenerate.VocabMatchesMembers | demo/code/word_generate.py:59-68 | a word matches iff it is in the vocabulary, has a map entry, and has a pronunciation starting with the combination |
| WordGenerate.CandidatesMembers | demo/code/word_generate.py:57-68 | a word is a candidate iff it is in the vocabulary and has a pronunciation starting with one of the combinations |
| WordGenerate.CandidatesSpellKeys | demo/code/word_generate.py:39-68 | a word is a candidate iff it is in the vocabulary and the map, and one of its pronunciations starts with one symbol of each typed key, in order |
| WordGenerate.MatchPronunciations | demo/code/word_generate.py:65-68 | the innermost loop computes the matches defined above |
| WordGenerate.MatchVocabulary | demo/code/word_generate.py:59-68 | the vocabulary loop computes the matches defined above, skipping words without a map entry |
| WordGenerate.FindCandidates | demo/code/word_generate.py:57-68 | the three nested loops compute the candidate list |
| WordGenerate.WriteSentences | demo/code/word_generate.py:73-89 | the candidate file holds one line per candidate, with "o" in front when the sentence so far is empty, characters separated by single spaces |
| WordGenerate.SentenceLineTokens | demo/code/word_generate.py:78-87 | the language model reads each line back as one token per character |
| WordGenerate.RankOrderIsTotal | demo/code/word_generate.py:127-128 | ranking by descending score, ties by position, is a total preorder, as a sort needs |
| WordGenerate.Indices | demo/code/word_generate.py:128 | the positions 0 to n-1 |
| WordGenerate.Ranking | demo/code/word_generate.py:127-130 | a permutation of the candidate positions |
| WordGenerate.RankingIsDistinct | demo/code/word_generate.py:127-130 | no position is ranked twice |
| WordGenerate.RankingIsOrdered | demo/code/word_generate.py:127-130 | scores never increase along the ranking, and equal scores keep their original order, as Python's stable sort with reverse=True does |
| WordGenerate.Pick | demo/code/word_generate.py:131 | one word per position |
| WordGenerate.PickPermutation | demo/code/word_generate.py:131 | picking by two orderings of the same positions gives the same words, reordered |
| WordGenerate.Ranked | demo/code/word_generate.py:130-131 | as many words as candidates |
| WordGenerate.RankedIsPermutation | demo/code/word_generate.py:130-131 | the ranked list is a permutation of the candidates, with the candidate at ranking position k at place k |
| WordGenerate.PossibleGenerate | demo/code/word_generate.py:36-133 | (false, []) for a key outside the table and (true, []) when nothing matches, both without writing a file; otherwise the candidate file is written, a score count different from the candidate count is fatal, and the result is (true, candidates ranked by score) |
| ReplaceByUnk.Replaced | rwthlm/replace_by_unk.py:29-33 | the same number of tokens, each kept when it is in the vocabulary and replaced by "<unk>" otherwise |
| ReplaceByUnk.ReadVocabulary | rwthlm/replace_by_unk.py:11-16 | the vocabulary is the set of the vocabulary file's lines with surrounding whitespace removed |
| ReplaceByUnk.WrittenTokensBeforeLast | rwthlm/replace_by_unk.py:29-37 | before the last token, each written token is followed by a space |
| ReplaceByUnk.WrittenTokensAll | rwthlm/replace_by_unk.py:29-37 | after the last token the line is the tokens joined by single spaces and a newline |
| ReplaceByUnk.ReplaceLine | rwthlm/replace_by_unk.py:24-37 | one input line becomes its replaced tokens joined by spaces and ended by a newline; a line without tokens writes nothing |
| ReplaceByUnk.Run | rwthlm/replace_by_unk.py:9-38 | fatal iff the argument count is not 3; otherwise the output is every data line's output, in order |
| ReplaceByUnk.LineOutputTokens | rwthlm/replace_by_unk.py:24-37 | reading an output line back as tokens gives exactly the replaced tokens, and a line writes nothing iff it has no tokens |
| RemoveNonChinese.IsChineseLoop | developement_code/remove_nonchinese_seperate_word.py:1-7 | true iff every character lies in U+4E00..U+9FA5 (so the empty word counts as Chinese) |
| RemoveNonChinese.OutTokensSnoc | developement_code/remove_nonchinese_seperate_word.py:23-35 | the tokens of one more word come after those of the words before it |
| RemoveNonChinese.MarkWords | developement_code/remove_nonchinese_seperate_word.py:22-27 | one entry per word: the word itself when it is Chinese, the marker "others" otherwise |
| RemoveNonChinese.ChineseIsNotOthers | developement_code/remove_nonchinese_seperate_word.py:24-30 | a Chinese word never equals the marker, so the marker test in the second loop cannot misfire |
| RemoveNonChinese.WriteMarked | developement_code/remove_nonchinese_seperate_word.py:29-35 | the marker is written as "o " and any other word as its characters, each followed by a space |
| RemoveNonChinese.WriteLine | developement_code/remove_nonchinese_seperate_word.py:28-36 | the written line is the output tokens of the original words, each followed by a space, then a newline |
| RemoveNonChinese.WrittenSnoc | developement_code/remove_nonchinese_seperate_word.py:28-35 | writing one more word appends exactly that word's tokens |
| RemoveNonChinese.RewriteLine | developement_code/remove_nonchinese_seperate_word.py:22-37 | one line's output depends only on that line |
| RemoveNonChinese.Run | developement_code/remove_nonchinese_seperate_word.py:16-37 | one output line per input line, each the rewrite of that input line alone |
| RemoveNonChinese.OutTokensAreWords | developement_code/remove_nonchinese_seperate_word.py:22-35 | every output token is a nonempty whitespace-free string without a newline |
| RemoveNonChinese.LineOutputTokens | developement_code/remove_nonchinese_seperate_word.py:22-37 | each output line ends in its only newline, and reading it back gives each Chinese word's characters and "o" for every other word, in order |
| TrainValSplit.SwapPartner | developement_code/seperate_train_val_random.py:15-16 | the partner is never the position itself, and is the draw or the draw plus one |
| TrainValSplit.SwapPartnerRange | developement_code/seperate_train_val_random.py:15-16 | a draw below n-1 gives a partner inside the list |
| TrainValSplit.SwapPartnerOnto | developement_code/seperate_train_val_random.py:15-16 | every other position is the partner of exactly one allowed draw |
| TrainValSplit.Swap | developement_code/seperate_train_val_random.py:17 | the two positions exchange their elements and every other position keeps its own |
| TrainValSplit.SwapIsPermutation | developement_code/seperate_train_val_random.py:17 | a swap only reorders the elements |
| TrainValSplit.ShuffledPrefix | developement_code/seperate_train_val_random.py:14-17 | the swaps keep the length |
| TrainValSplit.ShuffledPrefixIsPermutation | developement_code/seperate_train_val_random.py:14-17 | after any number of swaps the list is a permutation of the input |
| TrainValSplit.Shuffled | developement_code/seperate_train_val_random.py:11-17 | the shuffled list is a permutation of the input |
| TrainValSplit.ShuffleInPlace | developement_code/seperate_train_val_random.py:11-17 | fails iff there are two elements or fewer, leaving the array as it was; otherwise the array holds the shuffled list |
| TrainValSplit.SwapAll | developement_code/seperate_train_val_random.py:14-17 | after the loop the array holds the list with every position swapped with its partner in turn |
| TrainValSplit.SwapElements | developement_code/seperate_train_val_random.py:17 | the array holds the swapped list |
| TrainValSplit.Shuffle | developement_code/seperate_train_val_random.py:7-10 | fails iff there are two elements or fewer; otherwise the shuffled copy |
| TrainValSplit.SplitAt | developement_code/seperate_train_val_random.py:22-23 | the held-out part has min(1500, n) lines, and the two parts together are the list |
| TrainValSplit.Run | developement_code/seperate_train_val_random.py:19-28 | fails iff the corpus has two lines or fewer; otherwise validation and training lines together are the shuffled corpus, a permutation of it, with min(1500, n) lines held out |
| PossibleSentences.FirstMatch | developement_code/generate_all_possible_sentence.py:60-69 | true iff some pronunciation starts with the typed string |
| PossibleSentences.Selected | developement_code/generate_all_possible_sentence.py:52-69 | never more words than the vocabulary has |
| PossibleSentences.SelectedMembers | developement_code/generate_all_possible_sentence.py:52-69 | a word gets a file iff it is in the vocabulary and the map, and one of its pronunciations starts with the typed string |
| PossibleSentences.SelectedAtMostOnce | developement_code/generate_all_possible_sentence.py:60-69 | no word gets more files than it has occurrences in the vocabulary, because the loop stops at the first match |
| PossibleSentences.Files | developement_code/generate_all_possible_sentence.py:52-69 | one file per selected word |
| PossibleSentences.Run | developement_code/generate_all_possible_sentence.py:21-69 | fatal iff the save directory is missing or the sentence file does not have exactly one line; otherwise the files named 0, 1, … hold the sentence followed by each selected word |
| PossibleSentences.FileContentTokens | developement_code/generate_all_possible_sentence.py:62-67 | reading a file back gives the sentence's tokens followed by the word |
| PossibleSentences.FileNamesDistinct | developement_code/generate_all_possible_sentence.py:52-69 | no two files get the same name |
| ShortTrain.Kept | developement_code/get_short_train_data.py:9-15 | never more lines than the input, and every kept line has fewer than 20 tokens |
| ShortTrain.Run | developement_code/get_short_train_data.py:9-15 | the loop writes exactly the output defined line by line |
| ShortTrain.OutputSnoc | developement_code/get_short_train_data.py:9-15 | one more line adds only that line's output |
| ShortTrain.OutputIsKeptLines | developement_code/get_short_train_data.py:9-15 | the output is the kept lines in input order, each as its tokens followed by spaces and a newline |
| ShortTrain.KeptMembers | developement_code/get_short_train_data.py:11 | a token list is kept iff it has fewer than 20 tokens and is the split of some input line |
| ShortTrain.OutputTokens | developement_code/get_short_train_data.py:12-15 | reading the output back gives the kept lines' tokens, one after the other |
| ShortTrain.KeptAreWords | developement_code/get_short_train_data.py:10 | every kept token is a nonempty whitespace-free string |
| VocabGenerate.WordsMembers | developement_code/volcab_generate.py:5-11 | a word is in the vocabulary iff it is a token of some line |
| VocabGenerate.WordsAreWords | developement_code/volcab_generate.py:5-11 | every vocabulary entry is a nonempty whitespace-free string |
| VocabGenerate.CollectWords | developement_code/volcab_generate.py:5-11 | the loop collects exactly the set of all tokens |
| VocabGenerate.WriteVocabulary | developement_code/volcab_generate.py:14-21 | each word of the set is written once, with no repeats and none missing, on lines numbered 0, 1, 2, … |
| VocabGenerate.Run | developement_code/volcab_generate.py:1-21 | the printed total is the number of distinct words, and the file lists each of them once |
| VocabGenerate.VocabTextTokens | developement_code/volcab_generate.py:14-21 | reading the file back gives word 0, index 0, word 1, index 1, …: each line pairs a word with its own number |
| Text.Split | developement_code/get_short_train_data.py:10 | every token is a nonempty string without whitespace |
| Text.WordLength | developement_code/get_short_train_data.py:10 | the leading run of non-whitespace: no whitespace inside it, whitespace or the end right after it |
| Text.Strip | rwthlm/replace_by_unk.py:25 | the result neither starts nor ends with whitespace, and is the input with only leading and trailing whitespace removed |
| Text.StripKeepsTokens | rwthlm/replace_by_unk.py:25-26 | stripping a line before splitting it does not change its tokens |
| Text.SplitSkipsLeadingSpace | rwthlm/replace_by_unk.py:25-26 | leading whitespace does not change the tokens |
| Text.SplitSkipsTrailingSpace | rwthlm/replace_by_unk.py:25-26 | trailing whitespace does not change the tokens |
| Text.WriteTerminated | developement_code/get_short_train_data.py:12-14 | the writing loop produces each token followed by one space, in order |
| Text.SplitTerminated | developement_code/get_short_train_data.py:12-14 | writing tokens each followed by a space and splitting again gives the tokens back |
| Text.SplitTerminatedLine | developement_code/get_short_train_data.py:12-15 | the same with a newline at the end of the line |
| Text.SplitJoined | rwthlm/replace_by_unk.py:29-37 | joining tokens with single spaces and splitting again gives the tokens back |
| Text.SplitAfterSpace | developement_code/get_short_train_data.py:12-15 | text that ends in whitespace splits independently of what follows it, so a file splits line by line |
| Text.Chars | demo/code/word_generate.py:79-80 | one single-character token per character, in order |
| Numerals.Digit | developement_code/volcab_generate.py:19 | a digit character whose value is the given digit |
| Numerals.Decimal | developement_code/volcab_generate.py:19 | str(n) is a nonempty string of digits with no leading zero except for 0 itself |
| Numerals.DecimalValue | developement_code/volcab_generate.py:19 | the digits str(n) prints denote n |
| Numerals.ParseInt | demo/code/input.py:76-80 | int() succeeds iff the token is digits with an optional sign; an unsigned token gives the number its digits denote, and a '-' gives a value of at most 0 |
| Numerals.ParseDecimal | demo/code/input.py:77 | int(str(n)) is n and int("-" + str(n)) is -n |
| Numerals.DecimalInjective | developement_code/volcab_generate.py:19 | different numbers print differently |

## Left out

- Numeric kernels: the BLAS calls, the activation functions and their derivatives (sigmoid, tanh, and the softmax of the forward pass), `log`/`exp` and floating-point rounding. Weights and momenta are exact reals, and the layers' methods say which buffers and accumulators a call touches, not the values it computes. The one derivative modelled is the output layer's softmax derivative in `Outputs.Output.ComputeDelta`, which is a subtraction.
- The random engines (`random.h`): every draw (weight initialisation, the shuffle's swaps, Python's `random.randrange`) is a parameter.
- File-stream mechanics, gzip, the command line of `main.cc`, progress printing, and the gradient test (`gradienttest.cc`). File contents come in as lines and go out as strings.
- `htklatticerescorer.cc` is not part of this model: lattice parsing, topological sorting, the look-ahead scores, pruning, the search itself and the three output formats. Only the header's bookkeeping is modelled (`lattice.dfy`). Its float helpers `ScaledLogAdd` and `LogOnePlusX` are left out too.
- `boost::hash_combine` is a parameter of `Lattice.HtkLatticeRescorer.Hash`, and `size_t` wrap-around of the hash is not modelled.
- `word_generate.py`: the language-model subprocess and the parsing of its output (lines 91-124) are left out. The scores it parses are a parameter of `WordGenerate.PossibleGenerate`.
- The iteration order of Python sets and dicts is unspecified. The vocabulary sets come in as sequences in some order, and `VocabGenerate.WriteVocabulary` picks an arbitrary element at each step.
- The module-level loading of the key table, vocabulary and pronunciation map in `word_generate.py` (lines 16-34) and `generate_all_possible_sentence.py` (lines 27-39): the loaded vocabulary and map are parameters.
- `test_to_possible_sentence.py` is not part of this model.
- Python's `split()` and `strip()` are modelled on ASCII whitespace only. Unicode spaces and encodings are not modelled.
- OpenMP parallel loops are modelled sequentially. In `Outputs.Output.ComputeDelta` the targets are marked first and the word rows derived after, where the source interleaves them per entry. Each entry touches only its own rows, so the result is the same.
- Sorting.Sort: is a stable insertion sort, so it fixes the order of sequences of equal length. `std::sort` leaves that order unspecified. The contracts of `Data.SortByLength` and `Data.Data.SortBatches` state only what any sort gives: a permutation in non-increasing length.
- Trainers.Trainer.TrainBatch: `Layer::ComputeDelta` calls `AddDelta` on the layer's function from inside its own loop. The model has the net issue that `AddDelta` right after the layer's `ComputeDelta` on the same slice. The two touch disjoint state, so the order does not matter here.
- `Recurrency`'s `AddDelta`, `Reset`, `ExtractState` and `SetState` are empty in the source, and so is `TableLookup::AddDelta`. The default `ResetHistories` of the layer base class does nothing. These are modelled as methods that change nothing, or are not modelled.
- `set_output_dimension` is not a separate operation: `Nets.Net.Compose` sets the output dimension when it joins two layers.
- `Trainer::ComputePerplexity` (trainer.cc:239-256) is left out because it is floating-point evaluation. The perplexities it returns are parameters of `Trainers.Trainer.Train`, `Trainers.Trainer.AutoAdjustLearningRate` and `Trainers.Trainer.AutoInitializeLearningRate`.
- Data.Data.PrepareDataWithFixedLength: success is stated as an if-and-only-if (every line accepted and at least one word), and a successful run is stated as the layout `Dealt` describes with every stream's words and the links between consecutive sequences. The quotient and remainder of N by B, which the source computes again at each hand-over, are computed once and passed to the dealing loop.
- Data.Data.PrepareDataWithFixedLength: requires `max_sequence_length >= 2`. With 1, `num_move` is always 0 and the source's splitting loop never ends.
- Data.Data.PrepareDataSequenceWise: a successful run is described in full. A failure is stated only as a rejected line or a sequence that is too long, not as an if-and-only-if.
- Data.Data.Append: requires `max_length >= 1` in concatenated mode. With 0, a non-empty line makes the source's splitting loop run forever.
- Data.Data.PrepareDataSequenceWise: requires `max_batch_size >= 1`, because the source divides by it.
- Data.Data.PrepareDataWithFixedLength: requires `max_batch_size >= 1`, because the source divides by it.
- Trainers.Trainer.TrainBatch: requires the batch's first sequence to be non-empty. A batch built from prepared data always has one, and an empty first sequence makes `size() - 1` wrap around.
- Trainers.Trainer.TrainEpoch: requires every sequence of the training data to be non-empty, as prepared data always are. Each batch's first sequence needs a word, as for `TrainBatch`.
- Trainers.Trainer.AutoAdjustLearningRate: requires each probe's perplexity list to be no longer than the number of batches. A probe sees at most one perplexity per batch, and `ProbePassed` needs 30 of them.
- InputShell.Step: models only lines that reach `default`. The dispatch of Python's `cmd.Cmd` is not modelled. It sends an empty line back through the last non-empty command (`emptyline`). It sends `quit`, `reset` and `help` lines to their `do_*` handlers (input.py:37-46). `Shell.Reset` models `do_reset` on its own; `do_quit` ends the program, and `help` only prints.

## Findings

| source | as written | input that shows it | evidently intended | confidence | as-written member | corrected member |
|---|---|---|---|---|---|---|
| rwthlm/output.cc:247-250 | `ResetMomentum` zeroes `momentum_class_bias_` without checking for it. Without a bias that pointer is null (compare the guarded `linear.cc:147-149`). | a network built with `--no-bias` and at least one class, when the learning rate is reset | zero the class-bias momentum only when there is a bias | not executed | Outputs.ResetMomentumWithoutBias | Outputs.Output.ResetMomentum |
| rwthlm/trainer.cc:126-130 | the backward pass is a do-while that decrements first and tests only afterwards | a batch whose first sequence has one token, where `End(1) == Begin(1)`, e.g. one-word lines with `--debug-no-sb` | stop at `Begin(1)` before decrementing, so the pass visits positions T..1 and ends | not executed | Trainers.SingleTokenBatchHangs | Trainers.Trainer.BackwardPass |
