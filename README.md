# Paginator, modelled in Dafny

This project models the adaptive-batch iterator `Paginator<T,P>` of Jegm-Libs. It also models the in-memory provider (`AbstractProvider`) that the paginator's JUnit tests run against, and proves properties of both.

A `Paginator` turns a source that can only answer "up to `n` items whose parameter is at or before `p`" into one pull-based sequence (`hasNext()` / `next()`). It keeps:

- a base batch size `limit`;
- an adaptive batch size `actualLimit`. It doubles, up to an optional ceiling `maxLimit`, when a full batch brings only items already seen, and goes back to `limit` after a batch with something new. A short batch of repeats, or a batch of repeats at the ceiling, ends the fetch round instead;
- a cursor `parameter`, which starts as `null`;
- a once-guessed `parameterOrder`;
- a FIFO buffer `items`;
- the session-wide seen-list `uniqueFetchedItems`.

The provider keeps its list sorted from the largest parameter down. For a positive `limit`, `provide(p, limit)` returns the first `limit` items whose parameter is at most `p`; a null `p` filters nothing out, and a limit below one does not truncate (see `Provider.Provided` under "## Left out" for the zero case).

The model has three layers.

- **Values.** `PaginatorSpec` describes the paginator's fields as a `State` datatype. One `tryFetch` is `Absorb`/`Step`, one `fetch` is `Round`, and `hasNext()` is `Ready`. `Extraction.Drain` is what a caller collects by calling `next()` while `hasNext()` answers true. The lemmas in `PaginatorSpec`, `Extraction` and `Guarantees` state what these steps promise:
  - deduplication;
  - the stop, growth and progress rules;
  - termination of the fetch loop;
  - no item handed out twice;
  - the order of the items handed out;
  - sufficient conditions under which a session hands out the whole source.
- **Objects.** `Pagination.Paginator` is the Java class as a Dafny class with the same fields. Each method is proved against the value layer: `Fetch` is the `while` loop with its invariant and termination measure. `Provider.ListProvider` is the provider: `Provide` is the `for` loop with its early `break`, and `Add` appends, sorts stably and reverses.
- **Scenarios.** `TestData` and `Scenarios` replay the JUnit scenarios of `PaginatorTest`, from `setUp()` and the `add` calls to the items collected. Each scenario is proved outright.

Items are `Item(param, name)`: `param` is what `getParameter` returns, and `name` is the test's string. `None` stands for Java's `null`.

## Model

| member | source | states |
|---|---|---|
| Provider.Provided | egmlibs_test/test/com/edisongustavo/paginator/AbstractProvider.java:13-25 | the answer is a prefix of the matching items in stored order, each from the store and at or before the parameter; a positive limit gives exactly min(limit, matches) items, a negative limit gives all matches |
| Provider.AtOrBefore | egmlibs_test/test/com/edisongustavo/paginator/AbstractProvider.java:17-18 | the filter of `provide`: null parameter, or parameter of the item at most the given one; its consequences are stated by UnfilteredWithoutParameter, FilteredStep and Provided |
| Provider.Filtered | egmlibs_test/test/com/edisongustavo/paginator/AbstractProvider.java:16-19 | all stored items passing the filter, in stored order; Provided's contract and FilteredStep/FilteredPrefix relate it to the loop |
| Provider.UnfilteredWithoutParameter | egmlibs_test/test/com/edisongustavo/paginator/AbstractProvider.java:17-19 | a null parameter filters nothing out |
| Provider.ProvidedKeepsOrder | egmlibs_test/test/com/edisongustavo/paginator/AbstractProvider.java:13-25 | over a non-increasing store the answer is non-increasing; over a store without repetitions the answer has none |
| Provider.ListProvider.constructor | egmlibs_test/test/com/edisongustavo/paginator/AbstractProvider.java:11 | a new provider holds no items |
| Provider.ListProvider.Provide | egmlibs_test/test/com/edisongustavo/paginator/AbstractProvider.java:13-25 | the loop with its size check after every element returns exactly `Provided` and changes nothing |
| Provider.ListProvider.Add | egmlibs_test/test/com/edisongustavo/paginator/AbstractProvider.java:27-38 | the new list is the old list plus `obj`, sorted ascending by parameter and reversed |
| Provider.Added | egmlibs_test/test/com/edisongustavo/paginator/AbstractProvider.java:27-38 | the list after `add(obj)`: append, `Collections.sort` by parameter, `Collections.reverse`; AddedSorted proves it non-increasing and a permutation of the old list plus `obj` |
| Provider.Insert | egmlibs_test/test/com/edisongustavo/paginator/AbstractProvider.java:29-36 | one stable insertion step of the sort; InsertSorted and InsertStable state its properties |
| Provider.SortedByParam | egmlibs_test/test/com/edisongustavo/paginator/AbstractProvider.java:29-36 | `Collections.sort` with the parameter comparator, as insertion sort; SortCorrect and SortStable prove it ascending, a permutation and stable |
| Provider.Reversed | egmlibs_test/test/com/edisongustavo/paginator/AbstractProvider.java:37 | `Collections.reverse`; ReversedAt proves where each element goes |
| Provider.InsertSorted | egmlibs_test/test/com/edisongustavo/paginator/AbstractProvider.java:29-36 | inserting into an ascending list keeps it ascending and adds exactly the new item |
| Provider.InsertStable | egmlibs_test/test/com/edisongustavo/paginator/AbstractProvider.java:29-36 | insertion puts the new item before every item with its parameter |
| Provider.SortCorrect | egmlibs_test/test/com/edisongustavo/paginator/AbstractProvider.java:29-36 | the sort by parameter is ascending and a permutation |
| Provider.SortStable | egmlibs_test/test/com/edisongustavo/paginator/AbstractProvider.java:29-36 | the sort keeps items with equal parameters in their relative order, as `Collections.sort` does |
| Provider.ReversedAt | egmlibs_test/test/com/edisongustavo/paginator/AbstractProvider.java:37 | `Collections.reverse` puts element `k` at `n-1-k` and is a permutation |
| Provider.SortThenReverse | egmlibs_test/test/com/edisongustavo/paginator/AbstractProvider.java:29-37 | sorting ascending and then reversing gives a non-increasing permutation |
| Provider.AddedSorted | egmlibs_test/test/com/edisongustavo/paginator/AbstractProvider.java:27-38 | after `add(obj)` the list is non-increasing and holds exactly the old items and `obj` |
| Provider.FilteredStep | egmlibs_test/test/com/edisongustavo/paginator/AbstractProvider.java:16-19 | the matches of a prefix one element longer are the old matches plus that element if it matches |
| Provider.FilteredPrefix | egmlibs_test/test/com/edisongustavo/paginator/AbstractProvider.java:21-22 | breaking out early leaves a prefix of all matches |
| PaginatorSpec.NextCursor | egmlibs/src/com/edisongustavo/paginator/Paginator.java:111-125 | no new items give no cursor; otherwise the cursor is the first or last item's parameter; a set cursor or a batch of fewer than two leaves the order as it is, and a first batch of two or more sets it |
| PaginatorSpec.Start | egmlibs/src/com/edisongustavo/paginator/Paginator.java:22-31 | the state both constructors build; it keeps the batch size usable, the buffer the unread tail of the seen-list, and has handed out nothing |
| PaginatorSpec.Unseen | egmlibs/src/com/edisongustavo/paginator/Paginator.java:74 | `fetchedItems.removeAll(uniqueFetchedItems)`: the fetched items not in the seen-list, in fetched order; Dedup states its membership properties |
| PaginatorSpec.Guess | egmlibs/src/com/edisongustavo/paginator/Paginator.java:127-138 | guessParameter: the cursor is the smaller of the two end parameters, and the order is ascending exactly when the first is smaller than the last |
| PaginatorSpec.Step | egmlibs/src/com/edisongustavo/paginator/Paginator.java:69-104 | one tryFetch including its `provide` call: Absorb of the provider's answer, which keeps limit and ceiling; StopRule, GrowthRule, ProgressRule and StepGrows state the rest |
| PaginatorSpec.Absorb | egmlibs/src/com/edisongustavo/paginator/Paginator.java:72-77 | the buffer and the seen-list both grow by exactly the fetched items not seen before, in provider order; limit and ceiling never change |
| PaginatorSpec.Dedup | egmlibs/src/com/edisongustavo/paginator/Paginator.java:74-75 | what is added to the seen-list comes from the batch and was not seen; every unseen item of the batch is added |
| PaginatorSpec.StopRule | egmlibs/src/com/edisongustavo/paginator/Paginator.java:79-89 | tryFetch stops exactly when nothing is new and the batch was short or the batch size is at the ceiling; a stop changes no field |
| PaginatorSpec.GrowthRule | egmlibs/src/com/edisongustavo/paginator/Paginator.java:85-93 | a full batch of repeats changes only the batch size: doubled, or min(ceiling, double); it never exceeds the ceiling and strictly grows while below it |
| PaginatorSpec.ProgressRule | egmlibs/src/com/edisongustavo/paginator/Paginator.java:95-101 | a batch with something new does not stop, resets the batch size to `limit` and moves cursor and order as getNextParameter says |
| PaginatorSpec.OrderGuessedOnce | egmlibs/src/com/edisongustavo/paginator/Paginator.java:118-138 | a set cursor stays set and then the order never changes; the order changes only on the step that first sets the cursor |
| PaginatorSpec.AbsorbKeepsShape | egmlibs/src/com/edisongustavo/paginator/Paginator.java:69-104 | tryFetch keeps the batch size usable and the buffer the unread tail of the seen-list |
| PaginatorSpec.SeeingShrinks | egmlibs/src/com/edisongustavo/paginator/Paginator.java:74-75 | seeing a new item of the source leaves fewer of its items unseen |
| PaginatorSpec.StepShrinks | egmlibs/src/com/edisongustavo/paginator/Paginator.java:53-59 | a tryFetch that does not stop sees something new or, seeing nothing new, leaves less room to double: the fetch loop terminates |
| PaginatorSpec.ExploresTrans | egmlibs/src/com/edisongustavo/paginator/Paginator.java:74-75 | extending the seen-list with unseen source items twice is doing it once |
| PaginatorSpec.GrowsTrans | egmlibs/src/com/edisongustavo/paginator/Paginator.java:75-77 | appending the same new items to buffer and seen-list twice is doing it once |
| PaginatorSpec.StepGrows | egmlibs/src/com/edisongustavo/paginator/Paginator.java:69-104 | one tryFetch appends the same unseen source items to the buffer and the seen-list |
| PaginatorSpec.Round | egmlibs/src/com/edisongustavo/paginator/Paginator.java:53-59 | after fetch the buffer holds at least `limit` items or one more tryFetch would stop with no change; only new source items were appended |
| PaginatorSpec.RoundUnfolds | egmlibs/src/com/edisongustavo/paginator/Paginator.java:54-58 | with room in the buffer, fetch is one tryFetch followed, unless it stops, by fetch again |
| PaginatorSpec.RoundAtRest | egmlibs/src/com/edisongustavo/paginator/Paginator.java:54-58 | fetch on a full buffer, or where tryFetch stops without change, changes nothing |
| PaginatorSpec.PopDelivers | egmlibs/src/com/edisongustavo/paginator/Paginator.java:45-46 | popping the buffer head moves it to the items handed out |
| PaginatorSpec.FetchDelivers | egmlibs/src/com/edisongustavo/paginator/Paginator.java:53-59 | a fetch on an empty buffer leaves a buffer that is exactly what it newly saw |
| PaginatorSpec.Ready | egmlibs/src/com/edisongustavo/paginator/Paginator.java:33-41 | the state after hasNext(): unchanged on a non-empty buffer, otherwise one fetch; it keeps the batch size usable and the buffer shape, and only appends new source items to buffer and seen-list |
| Extraction.Drain | egmlibs/src/com/edisongustavo/paginator/Paginator.java:33-51 | collecting `next()` while `hasNext()` is true terminates and keeps the batch size usable |
| Extraction.DrainPops | egmlibs/src/com/edisongustavo/paginator/Paginator.java:45-46 | on a non-empty buffer the session hands out its head, then the rest |
| Extraction.DrainBuffer | egmlibs/src/com/edisongustavo/paginator/Paginator.java:43-51 | the session hands out the whole buffer before it fetches |
| Extraction.DrainFetches | egmlibs/src/com/edisongustavo/paginator/Paginator.java:33-41 | on an empty buffer the session fetches once, and ends if nothing came |
| Extraction.DrainDelivers | egmlibs/src/com/edisongustavo/paginator/Paginator.java:33-77 | what was handed out before, followed by what the session hands out, is the seen-list at the end, and only unseen source items were added |
| Extraction.DrainEmpties | egmlibs/src/com/edisongustavo/paginator/Paginator.java:33-41 | a finished session leaves the buffer empty |
| Extraction.DrainExhausts | egmlibs/src/com/edisongustavo/paginator/Paginator.java:33-41 | after a session, a further fetch changes nothing, so `hasNext()` keeps answering false |
| Extraction.RoundSettles | egmlibs/src/com/edisongustavo/paginator/Paginator.java:53-59 | a second fetch right after a fetch changes nothing |
| Extraction.DrainReady | egmlibs/src/com/edisongustavo/paginator/Paginator.java:33-41 | `hasNext()` does not change what the session hands out |
| Extraction.DrainNext | egmlibs/src/com/edisongustavo/paginator/Paginator.java:43-51 | `next()` then `hasNext()` hands out the head and leaves the rest of the session; the loop measure decreases |
| Extraction.DrainSettled | egmlibs/src/com/edisongustavo/paginator/Paginator.java:33-41 | an empty buffer that a fetch leaves as it is ends the session |
| Extraction.HasNextInSession | egmlibs/src/com/edisongustavo/paginator/Paginator.java:33-41 | `hasNext()` is true exactly when the session has something left |
| Extraction.NextInSession | egmlibs/src/com/edisongustavo/paginator/Paginator.java:43-51 | `next()` returns the session's next item, or fails exactly when nothing is left |
| Guarantees.CursorOnLast | egmlibs/src/com/edisongustavo/paginator/Paginator.java:111-138 | over a non-increasing batch, unless the order was guessed ascending, the cursor moves to the last item and the order is not set ascending |
| Guarantees.AbsorbKeepsDescending | egmlibs/src/com/edisongustavo/paginator/Paginator.java:95-101 | over non-increasing batches at or before the cursor, the seen-list stays non-increasing and the cursor stays on its last item |
| Guarantees.StepKeepsDescending | egmlibs/src/com/edisongustavo/paginator/Paginator.java:69-104 | over a non-increasing source each tryFetch keeps that shape |
| Guarantees.AbsorbKeepsDistinct | egmlibs/src/com/edisongustavo/paginator/Paginator.java:74-75 | a batch without repetitions keeps the seen-list free of repetitions |
| Guarantees.StepKeepsOrderly | egmlibs/src/com/edisongustavo/paginator/Paginator.java:69-104 | each tryFetch keeps the seen-list free of repetitions and non-increasing, when the source is |
| Guarantees.RoundKeepsOrderly | egmlibs/src/com/edisongustavo/paginator/Paginator.java:53-59 | so does each fetch |
| Guarantees.DrainKeepsOrderly | egmlibs/src/com/edisongustavo/paginator/Paginator.java:33-59 | so does a whole session |
| Guarantees.SessionFromNothing | egmlibs/src/com/edisongustavo/paginator/Paginator.java:33-77 | from a state that has seen nothing, the session hands out only source items, none twice when the source repeats none, in non-increasing order when the source is |
| Guarantees.Session | egmlibs/src/com/edisongustavo/paginator/Paginator.java:22-77 | the same for a freshly constructed Paginator |
| Guarantees.FilteredFrom | egmlibs_test/test/com/edisongustavo/paginator/AbstractProvider.java:16-19 | over a non-increasing source, the items at or before a parameter are the source from the start of that parameter's run |
| Guarantees.UnseenWindow | egmlibs/src/com/edisongustavo/paginator/Paginator.java:74 | over a source without repetitions, the unseen part of a window is its part past the seen prefix |
| Guarantees.CursorSuffix | egmlibs/src/com/edisongustavo/paginator/Paginator.java:100 | over a coverable source the items at or before the cursor are the source from the run of the last item seen |
| Guarantees.BatchWindow | egmlibs/src/com/edisongustavo/paginator/Paginator.java:70 | over a coverable source each batch is a window of the source starting at the cursor's run |
| Guarantees.AbsorbWindow | egmlibs/src/com/edisongustavo/paginator/Paginator.java:74-77 | absorbing such a window extends the seen prefix of the source to the window's end |
| Guarantees.AbsorbKeepsPositive | egmlibs/src/com/edisongustavo/paginator/Paginator.java:87-93 | with a ceiling of at least two the batch size stays positive |
| Guarantees.StepKeepsPrefixed | egmlibs/src/com/edisongustavo/paginator/Paginator.java:69-104 | over a coverable source the seen-list stays a prefix of the source, and tryFetch stops only once all of it is seen |
| Guarantees.RoundKeepsPrefixed | egmlibs/src/com/edisongustavo/paginator/Paginator.java:53-59 | so does each fetch |
| Guarantees.DrainKeepsPrefixed | egmlibs/src/com/edisongustavo/paginator/Paginator.java:33-59 | so does a whole session |
| Guarantees.AtRestSeesAll | egmlibs/src/com/edisongustavo/paginator/Paginator.java:79-89 | over a coverable source, a paginator whose fetch finds nothing more has seen the whole source |
| Guarantees.Complete | egmlibs/src/com/edisongustavo/paginator/Paginator.java:22-104 | a fresh paginator with a positive limit hands out a coverable source whole, in its stored order. Coverable means: non-increasing, no repetitions, and, when there is a ceiling, a ceiling of at least two with every run of equal parameters shorter than it. This is a sufficient condition, not a necessary one |
| Pagination.Paginator.constructor | egmlibs/src/com/edisongustavo/paginator/Paginator.java:22-24 | no ceiling, batch size `limit`, null cursor and order, empty buffer and seen-list |
| Pagination.Paginator.WithCeiling | egmlibs/src/com/edisongustavo/paginator/Paginator.java:26-31 | the same with the given ceiling |
| Pagination.Paginator.HasNext | egmlibs/src/com/edisongustavo/paginator/Paginator.java:33-41 | a non-empty buffer answers true with no change; otherwise one fetch, then whether the buffer is non-empty |
| Pagination.Paginator.Next | egmlibs/src/com/edisongustavo/paginator/Paginator.java:43-51 | fetches only on an empty buffer, then pops the head; `None` where `pop` would throw on a buffer still empty |
| Pagination.Paginator.Remove | egmlibs/src/com/edisongustavo/paginator/Paginator.java:61-64 | drops the buffer head without fetching; `false` where the source throws on an empty buffer |
| Pagination.Paginator.Fetch | egmlibs/src/com/edisongustavo/paginator/Paginator.java:53-59 | the while loop ends in the state `Round` describes |
| Pagination.Paginator.TryFetch | egmlibs/src/com/edisongustavo/paginator/Paginator.java:69-104 | one provider call; the new state and the stop answer are `Step`'s |
| Pagination.Paginator.ResetLimit | egmlibs/src/com/edisongustavo/paginator/Paginator.java:106-109 | the batch size is back to `limit` |
| Pagination.Paginator.GetNextParameter | egmlibs/src/com/edisongustavo/paginator/Paginator.java:111-125 | cursor and order are `NextCursor`'s |
| Pagination.Paginator.GuessParameter | egmlibs/src/com/edisongustavo/paginator/Paginator.java:127-138 | strictly increasing ends give the first parameter and ascending; otherwise the last parameter and descending |
| Pagination.Paginator.SetMaxLimit | egmlibs/src/com/edisongustavo/paginator/Paginator.java:140-142 | the ceiling is the new value |
| TestData.StoreA1 | egmlibs_test/test/com/edisongustavo/paginator/PaginatorTest.java:101 | `add(1, "A")` on an empty provider gives [A] |
| TestData.StoreB2A1 | egmlibs_test/test/com/edisongustavo/paginator/PaginatorTest.java:102 | then `add(2, "B")` gives [B, A] |
| TestData.StoreC3B2A1 | egmlibs_test/test/com/edisongustavo/paginator/PaginatorTest.java:103 | then `add(3, "C")` gives [C, B, A] |
| TestData.StoreD4C3B2A1 | egmlibs_test/test/com/edisongustavo/paginator/PaginatorTest.java:104 | then `add(4, "D")` gives [D, C, B, A] |
| TestData.StoreE5D4C3B2A1 | egmlibs_test/test/com/edisongustavo/paginator/PaginatorTest.java:105 | then `add(5, "E")` gives [E, D, C, B, A] |
| TestData.StoreC2B2A1 | egmlibs_test/test/com/edisongustavo/paginator/PaginatorTest.java:122 | `add(2, "C")` after B2, A1 puts C first: equal weights come out in reverse order of adding |
| TestData.StoreD3B2C2A1 | egmlibs_test/test/com/edisongustavo/paginator/PaginatorTest.java:123 | then `add(3, "D")` gives [D, B, C, A]: each add reverses the run of equal weights again |
| TestData.StoreE4D3C2B2A1 | egmlibs_test/test/com/edisongustavo/paginator/PaginatorTest.java:124 | then `add(4, "E")` gives [E, D, C, B, A] |
| TestData.StoreD2B2C2A1 | egmlibs_test/test/com/edisongustavo/paginator/PaginatorTest.java:148 | `add(2, "D")` after C2, B2, A1 gives [D, B, C, A] |
| TestData.StoreE2C2B2D2A1 | egmlibs_test/test/com/edisongustavo/paginator/PaginatorTest.java:149 | then `add(2, "E")` gives [E, C, B, D, A] |
| TestData.StoreF3D2B2C2E2A1 | egmlibs_test/test/com/edisongustavo/paginator/PaginatorTest.java:150 | then `add(3, "F")` gives [F, D, B, C, E, A] |
| TestData.StoreE3C2B2D2A1 | egmlibs_test/test/com/edisongustavo/paginator/PaginatorTest.java:165 | `add(3, "E")` after D2, B2, C2, A1 gives [E, C, B, D, A] |
| TestData.StoreF2D2B2C2E2A1 | egmlibs_test/test/com/edisongustavo/paginator/PaginatorTest.java:181 | `add(2, "F")` after E2, C2, B2, D2, A1 gives [F, D, B, C, E, A] |
| TestData.StoreG3E2C2B2D2F2A1 | egmlibs_test/test/com/edisongustavo/paginator/PaginatorTest.java:182 | then `add(3, "G")` gives [G, E, C, B, D, F, A] |
| TestData.IteratorCoverable | egmlibs_test/test/com/edisongustavo/paginator/PaginatorTest.java:99-116 | the store of iterator() is coverable |
| TestData.RepeatedWeightsCoverable | egmlibs_test/test/com/edisongustavo/paginator/PaginatorTest.java:118-134 | the store of iteratorWithRepeatedWeights() is coverable |
| TestData.RepeatsPastLimitCoverable | egmlibs_test/test/com/edisongustavo/paginator/PaginatorTest.java:143-155 | the store of iteratorWithRepeatedWeightsLargerThanPaginationSize() is coverable without a ceiling |
| TestData.CeilingSufficesCoverable | egmlibs_test/test/com/edisongustavo/paginator/PaginatorTest.java:157-170 | the store of maxLimitCanMakeThePaginatorSurpassRepeatingItems() is coverable under the ceiling 4 |
| TestData.FewerThanLimitCoverable | egmlibs_test/test/com/edisongustavo/paginator/PaginatorTest.java:198-205 | the store of limitLargerThanNumberOfItems() is coverable |
| TestData.CeilingTooLowNotCoverable | egmlibs_test/test/com/edisongustavo/paginator/PaginatorTest.java:172-196 | the store of maxLimitSmallerThanNumberOfRepeatingItems() is not coverable under the ceiling 4: its run of weight 2 has five items |
| TestData.UpToTwo | egmlibs_test/test/com/edisongustavo/paginator/AbstractProvider.java:16-19 | in that store, the items at or before 2 are all but G |
| TestData.FirstBatch | egmlibs_test/test/com/edisongustavo/paginator/AbstractProvider.java:13-25 | its first batch, `provide(null, 3)`, is [G, E, C] |
| TestData.SecondBatch | egmlibs_test/test/com/edisongustavo/paginator/AbstractProvider.java:13-25 | `provide(2, 3)` is [E, C, B] |
| TestData.WiderBatch | egmlibs_test/test/com/edisongustavo/paginator/AbstractProvider.java:13-25 | `provide(2, 4)` is [E, C, B, D] |
| TestData.TooLowDistinct | egmlibs_test/test/com/edisongustavo/paginator/PaginatorTest.java:175-181 | the store holds no item twice |
| TestData.Novel | egmlibs/src/com/edisongustavo/paginator/Paginator.java:74 | in that store the unseen part of a window is its part past the seen prefix |
| TestData.SecondBatchNovel | egmlibs/src/com/edisongustavo/paginator/Paginator.java:70-74 | the second batch brings only B that is new |
| TestData.WiderBatchNovel | egmlibs/src/com/edisongustavo/paginator/Paginator.java:70-74 | the first batch of four brings only D that is new |
| TestData.Step0 | egmlibs/src/com/edisongustavo/paginator/Paginator.java:69-104 | tryFetch 1 buffers G, E, C and sets the cursor to 2, descending |
| TestData.Step1 | egmlibs/src/com/edisongustavo/paginator/Paginator.java:69-104 | tryFetch 2, on the emptied buffer, brings B |
| TestData.Step2 | egmlibs/src/com/edisongustavo/paginator/Paginator.java:69-104 | tryFetch 3 brings nothing new and doubles the batch size to min(4, 6) = 4 |
| TestData.Step3 | egmlibs/src/com/edisongustavo/paginator/Paginator.java:69-104 | tryFetch 4, with four items, brings D and resets the batch size to 3 |
| TestData.Step4 | egmlibs/src/com/edisongustavo/paginator/Paginator.java:69-104 | tryFetch 5 brings nothing new and grows the batch size to 4 |
| TestData.Step5 | egmlibs/src/com/edisongustavo/paginator/Paginator.java:79-89 | tryFetch 6 brings nothing new at the ceiling and stops |
| TestData.FirstRound | egmlibs/src/com/edisongustavo/paginator/Paginator.java:53-59 | the first fetch ends with G, E, C buffered |
| TestData.SecondRound | egmlibs/src/com/edisongustavo/paginator/Paginator.java:53-59 | the second fetch ends with B, D buffered and the batch size at the ceiling |
| TestData.LastRound | egmlibs/src/com/edisongustavo/paginator/Paginator.java:53-59 | the third fetch changes nothing |
| TestData.SessionEnd | egmlibs/src/com/edisongustavo/paginator/Paginator.java:33-41 | so the session ends there |
| TestData.SessionAfterFirstBatch | egmlibs/src/com/edisongustavo/paginator/Paginator.java:33-51 | after the first batch the session hands out B, D |
| TestData.TooLowSession | egmlibs_test/test/com/edisongustavo/paginator/PaginatorTest.java:172-196 | the whole session of that test hands out G, E, C, B, D |
| TestData.CeilingOfOneSuffices | egmlibs_test/test/com/edisongustavo/paginator/PaginatorTest.java:198-205 | the store [B, A] of limitLargerThanNumberOfItems() under a ceiling of 1 is not coverable, yet a fresh paginator of limit 3 hands it out whole: coverable is not a necessary condition |
| TestData.UnsortedSuffices | egmlibs/src/com/edisongustavo/paginator/Paginator.java:69-138 | the ascending store [A, B] is not coverable, yet a fresh paginator of limit 3 with no ceiling hands it out whole, guessing the order ascending |
| Scenarios.Advance | egmlibs/src/com/edisongustavo/paginator/Paginator.java:33-51 | one `next()` then `hasNext()` hands out the session's next item and keeps the rest; the loop measure decreases |
| Scenarios.Extract | egmlibs_test/test/com/edisongustavo/paginator/PaginatorTest.java:152-153 | `next()` while `hasNext()` collects exactly what the session hands out and ends in `Drain`'s state |
| Scenarios.Covers | egmlibs/src/com/edisongustavo/paginator/Paginator.java:22-104 | a fresh paginator over a coverable store has the whole store left to hand out |
| Scenarios.HasMore | egmlibs/src/com/edisongustavo/paginator/Paginator.java:33-41 | `hasNext()` answers whether anything is left and changes nothing of what is left |
| Scenarios.Take | egmlibs/src/com/edisongustavo/paginator/Paginator.java:43-51 | `next()` returns the first item left, or `None` when nothing is left |
| Scenarios.TakeTwo | egmlibs_test/test/com/edisongustavo/paginator/PaginatorTest.java:126-127 | two `next()` calls return the first two items left |
| Scenarios.CollectFirst | egmlibs_test/test/com/edisongustavo/paginator/PaginatorTest.java:136-141 | collectFirst(it, n) returns the first n items left and says whether there were n |
| Scenarios.IteratorSetUp | egmlibs_test/test/com/edisongustavo/paginator/PaginatorTest.java:93-105 | setUp() and the five adds give a fresh paginator of limit 3 over [E, D, C, B, A] |
| Scenarios.CollectAll | egmlibs_test/test/com/edisongustavo/paginator/PaginatorTest.java:107-115 | over a fresh coverable store, `hasNext()`, then the whole store in order, then `hasNext()` false |
| Scenarios.Iterator | egmlibs_test/test/com/edisongustavo/paginator/PaginatorTest.java:99-116 | `hasNext()` is true; the items come out E, D, C, B, A; then `hasNext()` is false |
| Scenarios.RepeatedWeightsSetUp | egmlibs_test/test/com/edisongustavo/paginator/PaginatorTest.java:118-124 | setUp() and the adds give a fresh paginator over [E, D, C, B, A] with C and B of equal weight |
| Scenarios.TakeTwoPairOne | egmlibs_test/test/com/edisongustavo/paginator/PaginatorTest.java:126-133 | next(), next(), collectFirst(2), next() hand out a five-item fresh coverable store in order |
| Scenarios.RepeatedWeights | egmlibs_test/test/com/edisongustavo/paginator/PaginatorTest.java:118-134 | E, then D, then [C, B], then A |
| Scenarios.RepeatsPastLimitSetUp | egmlibs_test/test/com/edisongustavo/paginator/PaginatorTest.java:143-150 | the store is [F, D, B, C, E, A] |
| Scenarios.RepeatsPastLimit | egmlibs_test/test/com/edisongustavo/paginator/PaginatorTest.java:143-155 | all six items come out, each once, in the order F, D, B, C, E, A |
| Scenarios.CeilingSufficesSetUp | egmlibs_test/test/com/edisongustavo/paginator/PaginatorTest.java:157-165 | setMaxLimit(4) before the adds; the store is [E, C, B, D, A] |
| Scenarios.CeilingSuffices | egmlibs_test/test/com/edisongustavo/paginator/PaginatorTest.java:157-170 | all five items come out in the order E, C, B, D, A |
| Scenarios.CeilingTooLowSetUp | egmlibs_test/test/com/edisongustavo/paginator/PaginatorTest.java:172-182 | setMaxLimit(4) before the adds; the store is [G, E, C, B, D, F, A] |
| Scenarios.CoversTooLow | egmlibs_test/test/com/edisongustavo/paginator/PaginatorTest.java:172-185 | that fresh paginator has G, E, C, B, D left to hand out |
| Scenarios.TooLowMeetsAsserted | egmlibs_test/test/com/edisongustavo/paginator/PaginatorTest.java:185-195 | G, E, C, B, D meets the test's assertions: G present, an item of weight 2 present, A absent, four to six items |
| Scenarios.CeilingTooLow | egmlibs_test/test/com/edisongustavo/paginator/PaginatorTest.java:172-196 | exactly G, E, C, B, D come out; F and A never do |
| Scenarios.FewerThanLimitSetUp | egmlibs_test/test/com/edisongustavo/paginator/PaginatorTest.java:198-201 | the store is [B, A] |
| Scenarios.FewerThanLimit | egmlibs_test/test/com/edisongustavo/paginator/PaginatorTest.java:198-205 | B, then A, and nothing more |
| Scenarios.HasNextOnEmpty | egmlibs_test/test/com/edisongustavo/paginator/PaginatorTest.java:207-210 | `hasNext()` on an empty provider is false |

## Left out

- Generic item and parameter types are not modelled. Items are `Item(param: int, name: char)`, and `getParameter` is `.param`, compared as integers. The tests' `Float` weights are all whole numbers, and their one-letter strings are characters. The tests' hand-written `equals` compares both fields, which is the datatype's structural equality.
- The `PaginatedProvider` interface has no behaviour of its own. The paginator runs against the in-memory provider (`ListProvider`) only.
- `DateTimePaginatorTest` is not modelled. It replays `iterator()` with Joda `DateTime` parameters, and dates have no counterpart here.
- PaginatorSpec.Absorb: `actualLimit * 2` is unbounded here; Java's 32-bit `int` would wrap. The same holds for Pagination.Paginator.TryFetch.
- Pagination.Paginator.Next: where `pop` throws `NoSuchElementException`, the model returns `None`, and Pagination.Paginator.Remove returns `false`.
- Pagination.Paginator.SetMaxLimit: when `limit >= 1` it requires that the new ceiling leave the batch size positive or equal to the ceiling. The source accepts any value. One sequence shows why: a ceiling of 0 lets the batch size reach 0, and a later `setMaxLimit(5)` then makes `fetch` ask for zero items and "grow" to `min(5, 0) = 0` forever.
- Provider.Provided: for a zero limit the contract says only that the answer is a prefix of the matches. The body has the exact rule: nothing if the first stored item does not match, otherwise every match.
- `getNextParameter`'s `l == null` test is not modelled. The list it receives is never null. The empty list is modelled.
- The lambdaj `extract` helper is modelled as its iteration (`Scenarios.Extract`, `Extraction.Drain`). JUnit and Hamcrest are not modelled.
- The `extract`-based tests assert `containsInAnyOrder`. The scenarios prove the exact order, which is stronger.
- Guarantees.Complete: states only that `Coverable` is sufficient for a session to hand out the whole source, not that it is needed. A source can fail `Coverable` and still come out whole: [B, A] under a ceiling of 1 (TestData.CeilingOfOneSuffices), or an ascending [A, B] without a ceiling (TestData.UnsortedSuffices). The converse, that a run of ceiling-many equal parameters can end a session early, is proved only for the store of `maxLimitSmallerThanNumberOfRepeatingItems` (TestData.TooLowSession), not in general.
- `iterator()` calls `next()` five times, and the model calls `CollectFirst(p, 5)`, which is five `next()` calls.
- Scenarios.CeilingTooLow: the test accepts any result with G, an item of weight 2, no A, and four to six items. The model proves the exact result, G, E, C, B, D. The session stops because the batch of four at cursor 2 brings nothing new and the batch size is already at the ceiling. So a ceiling smaller than a run of equal parameters can end a session early, leaving F and A unseen.
