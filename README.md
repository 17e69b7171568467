# tg-analyzer, modelled in Dafny

tg-analyzer reads the JSON file that Telegram Desktop writes when a user
exports their chats, and builds statistics from it. The program has three
layers, and this project models the core of each:

- **Creator** (`tganalyzer/core/creator.py`) turns each exported chat into a
  `Chat` holding its name, id and type. It also turns each chat's messages
  into `Message` objects, each with an author, a send time, flattened text
  and a message type ("simple_text", "sticker", "voice_message", "file",
  "game", "single_call", …). For a game message it also builds the game's
  score table. Service records are dropped unless they are calls. A
  personal chat takes its name from the first message its contact sent.
- **Analyzer** (`tganalyzer/core/analyzer.py`). `Chat_stat` counts, for
  one chat and the messages inside a time window, the statistics that the
  user's feature dictionary asks for. It counts symbols, words and messages
  per author, per day and in total. It counts calls, voice and video
  messages, photos and videos, with their durations. It also builds top-N
  lists of the longest calls or voice messages and tallies the emoji a
  chosen user sends as stickers. `start_analyses` runs `Chat_stat` over the
  selected chats. It ranks the chats, collects per-chat totals, per-day
  series and per-person counts, and splits durations into sent and
  received. From the result it builds the returned statistics dictionary.
- **HTML export** (`tganalyzer/html_export/__init__.py`) prepares chart
  data for the report. This covers the date range used as a chart axis,
  the top-N-plus-"Others" fold for bar and pie charts, and the aggregation
  of per-chat statistics into combined and per-chat chart entries: symbols,
  messages and words; voice and video messages; time of day.
- **Earlier API classifier** (`API/creator/__init__.py`). This is an
  older version of the creator. It computes the message keys and the
  required and optional fields of an export, and classifies every
  non-service message into a `Message` object. It keeps a game table that
  all messages share.

JSON records are modelled by the `Value` datatype of `values.dfy`. Python
exceptions (KeyError, TypeError, AttributeError) become the `Err` case of a
`Result`, raised in the order the source would raise them, except where
Python fails only once a value is compared, iterated or hashed; "## Left
out" names each such member. Loops that
mutate state are `method`s, each proved equal to a recursive specification
function. The `API` classifier's `Extraction`, `GameTables` and `Message`
objects are classes whose fields the methods update.

## Model

| member | source | states |
|---|---|---|
| Values.Need | tganalyzer/core/creator.py:124-125 | `rec[key]` succeeds exactly when the key is present, returns its value, and otherwise raises KeyError for that key |
| Values.Lookup | tganalyzer/html_export/__init__.py:265 | `d[k]` on a plain dict succeeds exactly when `k` is a key and returns its value |
| Values.NatToString | tganalyzer/core/creator.py:131 | `str(n)` for a natural number is a non-empty string of decimal digits |
| PyStrings.Strip | tganalyzer/core/creator.py:170-172 | `s.strip()` removes exactly the leading and trailing whitespace: `s` is the leading space, then the result, then trailing whitespace; the result neither starts nor ends with whitespace, and it is empty exactly when `s` is all whitespace |
| PyStrings.Split | tganalyzer/core/analyzer.py:558 | `s.split()` returns non-empty words that contain no whitespace |
| PyStrings.SplitCountsRuns | tganalyzer/core/analyzer.py:558 | the number of words `split()` returns is the number of places where a run of non-whitespace begins, which is what `len(tmp_str.split())` counts |
| PyStrings.RemoveSpaces | tganalyzer/core/analyzer.py:523-525 | `s.replace(' ', '')` keeps every character but the space, with its multiplicity, and contains no space |
| PyStrings.FindFrom | tganalyzer/core/creator.py:81 | `s.find(sub)` returns the least index where `sub` occurs, or -1 when it occurs nowhere |
| PyStrings.ContainsIff | API/creator/__init__.py:19 | `line.find(login) != -1` holds exactly when `login` occurs somewhere in `line` |
| PyStrings.TakeWord | tganalyzer/core/analyzer.py:558 | a word taken by `split()` is a maximal prefix without whitespace |
| PyStrings.SliceBound | tganalyzer/core/creator.py:81 | a Python slice bound, with a negative bound counted from the end, is clamped into `0..len` |
| PyStrings.Slice | tganalyzer/core/creator.py:81 | defines Python's `s[a:b]` on strings: the characters between the bounds normalised by `SliceBound`, empty when they cross; never longer than `s` |
| PyStrings.LexLessIrreflexive | API/creator/__init__.py:66 | the string order `sorted` uses is irreflexive |
| PyStrings.LexLessTransitive | API/creator/__init__.py:66 | the string order `sorted` uses is transitive |
| PyStrings.LexLessTotal | API/creator/__init__.py:66 | any two different strings are ordered one way or the other |
| StableSort.SortDesc | tganalyzer/core/analyzer.py:203-204 | `sort(key=value, reverse=True)` returns a permutation of its input, sorted by value from largest to smallest |
| StableSort.SortDescStable | tganalyzer/core/analyzer.py:203-204 | Python's sort is stable: the entries of any one value keep their relative order |
| StableSort.SortDescOfSorted | tganalyzer/core/analyzer.py:203-204 | a list that is already sorted is left unchanged |
| StableSort.InsertDescSorted | tganalyzer/core/analyzer.py:202-204 | appending one pair to a sorted list and sorting again gives a sorted list holding the old entries plus the new pair |
| Counters.Bump | tganalyzer/core/analyzer.py:168-182 | `quan_counter` adds `num` to the count of `aut` (absent counts as 0), adds `aut` as a key, and leaves every other key's count unchanged |
| Counters.MapSumBump | tganalyzer/core/analyzer.py:180-182 | one `quan_counter` call raises the sum of the dict's values by exactly `num` |
| Counters.SumValues | tganalyzer/core/analyzer.py:228 | `sum(analysed.values())`, computed key by key, is the sum of the map's values |
| Counters.StickerAppend | tganalyzer/core/analyzer.py:232-247 | `sticker_append` leaves the running totals equal to the key-wise sum of the two dicts |
| Counters.MergeAdd | tganalyzer/core/analyzer.py:243-247 | the merged dict has the keys of both dicts and keeps the count of a key only the first one has |
| Counters.MapSumMergeAdd | tganalyzer/core/analyzer.py:243-247 | merging adds the grand totals |
| Counters.MergeAddStep | tganalyzer/core/analyzer.py:244-247 | merging one more emoji is one `quan_counter` step on that emoji |
| Counters.TopCounter | tganalyzer/core/analyzer.py:185-209 | `top_counter` keeps the list equal to the step function `TopStep`: append and stable-sort while the list is shorter than `top`, otherwise one swap pass over the first `top` slots |
| Counters.TopStep | tganalyzer/core/analyzer.py:185-209 | defines one `top_counter` call: a list shorter than `top` gets the pair appended and is stable-sorted by value, largest first; a full one has the pair bubbled through its first `top` slots with the strict `>` |
| Counters.IsTop | tganalyzer/core/analyzer.py:185-209 | defines what a top list promises: sorted by value, largest first, of length `min(len(seen), top)`, drawn from the pairs seen, and no pair left out larger than a pair kept |
| Counters.BubblePass | tganalyzer/core/analyzer.py:206-209 | the swap loop, run in place, gives the kept list and the carried pair the pass function `Bubble` gives |
| Counters.TopCounterChats | tganalyzer/core/analyzer.py:212-229 | `top_counter_chats` offers the author with the sum of the dict's values |
| Counters.BubbleMultiset | tganalyzer/core/analyzer.py:206-209 | the swap pass loses nothing: the kept list plus the pushed-out pair is the old list plus the offered pair, as multisets |
| Counters.BubbleKeepsPrefix | tganalyzer/core/analyzer.py:208 | the strict `>` means an entry of equal or larger value keeps its slot and the offered pair lands right behind such entries |
| Counters.BubbleSorted | tganalyzer/core/analyzer.py:206-209 | on a sorted list the pass keeps it sorted and pushes out a least entry, never one larger than the offered pair |
| Counters.TopStepGrows | tganalyzer/core/analyzer.py:201-204 | a list shorter than `top` grows by exactly the offered pair, placed behind every entry of no smaller value, and stays sorted |
| Counters.TopStepFull | tganalyzer/core/analyzer.py:205-209 | on a full sorted list the length stays `top` and the list stays sorted; the offered pair replaces one least entry, and the entries of no smaller value keep their slots |
| Counters.TopStepKeepsTop | tganalyzer/core/analyzer.py:185-209 | one `top_counter` call turns a top-`top` choice of the pairs seen so far into a top-`top` choice of those pairs plus the offered one |
| Counters.TopFoldIsTop | tganalyzer/core/analyzer.py:185-209 | whatever the order of the offers, a list built from `[]` by `top_counter` is sorted, holds `min(len(offers), top)` of the offered pairs, and no left-out pair is larger than any kept one |
| Counters.TopStepNonPositive | tganalyzer/core/analyzer.py:201-209 | with `top <= 0`, `top_counter` leaves the list as it is |
| Counters.Offers | tganalyzer/core/analyzer.py:263-264 | the pairs offered by the finder are `[emo, stickers[emo]]` in the iteration order |
| Counters.TopNumStickersFinder | tganalyzer/core/analyzer.py:250-264 | `top_num_stickers_finder` offers every emoji exactly once, in some iteration order, and the result is the fold of `top_counter` over those offers; from `[]` it is a top-`top` choice |
| Tallies.TallyCounts | tganalyzer/html_export/__init__.py:257-268 | a `defaultdict(int)` tally holds exactly the keys of the rows, each with the sum of its counts, and its values add up to all the counts |
| Tallies.Tally2Counts | tganalyzer/html_export/__init__.py:251-268 | a two-level `defaultdict` tally has the rows' first components as its keys, and under each of them the tally of the rows filed there |
| Tallies.Writes2Inner | tganalyzer/html_export/__init__.py:336-348 | a two-level `defaultdict(dict)` written row by row has the rows' first components as keys and, under each, the writes filed there |
| Tallies.WritesKeys | tganalyzer/html_export/__init__.py:336-348 | the keys of a dict written row by row are the rows' keys |
| Tallies.UnderEmpty | tganalyzer/html_export/__init__.py:251-268 | nothing is filed under a key exactly when no row has that key |
| Tallies.WritesOfDistinct | tganalyzer/html_export/__init__.py:336-348 | with distinct keys, writing the values and adding them up give the same dict |
| Tallies.UnderDistinct | tganalyzer/html_export/__init__.py:336-348 | a second key that is distinct within each first key stays distinct under it |
| Tallies.UnderFrom | tganalyzer/html_export/__init__.py:251-268 | every row filed under a key comes from the input rows |
| Creator.MediaTag | tganalyzer/core/creator.py:207-213 | a `media_type` string is recognised exactly when it is the name of one of the six media types |
| Creator.FlattenText | tganalyzer/core/creator.py:164-172 | the text is flattened when it is a string, or a list of strings and `{"text": …}` entities, and the result is stripped |
| Creator.JoinPiecesPrefixError | tganalyzer/core/creator.py:165-169 | the first entity that lacks a string `"text"` decides the error and later items are never read |
| Creator.NormaliseText | tganalyzer/core/creator.py:164-172 | the loop that joins the pieces with `" "` and strips the result computes the text its specification function defines |
| Creator.StripSpacePrefix | tganalyzer/core/creator.py:167-170 | the `" "` put before the first piece disappears in `strip()` |
| Creator.FlattenSingleString | tganalyzer/core/creator.py:164-172 | a text list holding one string flattens to the same text as the string itself |
| Creator.Chars | tganalyzer/core/creator.py:79 | iterating over a string text yields its one-character strings |
| Creator.GameParcer | tganalyzer/core/creator.py:73-82 | `game_parcer` builds the table its specification function defines, with the key `line[line.find(".") + 2: -3]` and the value `line[1: line.find(".")]` for every non-empty string line |
| Creator.LastLineFor | tganalyzer/core/creator.py:79-81 | the last game line whose key is `k`, or -1 when there is none |
| Creator.GameTableLastWins | tganalyzer/core/creator.py:79-81 | a key is in the table exactly when some game line has it, and the last such line wins |
| Creator.FindFirstDot | tganalyzer/core/creator.py:81 | `line.find(".")` is the index of the first dot |
| Creator.GameLineWellFormed | tganalyzer/core/creator.py:81 | for a line `c + rank + ". " + name + three characters` the key is `name` and the value is `rank`, without the line's first character |
| Creator.GameLineSample | tganalyzer/core/creator.py:81 | the line "1. Alice...." gives the entry {"Alice.": ""} |
| Creator.MediaKind | tganalyzer/core/creator.py:207-214 | a message is a media message only with a recognised media type |
| Creator.FirstMatchPicksFirst | tganalyzer/core/creator.py:224-241 | the `elif` chain on present keys picks the first rule whose key is present, and "unknown" when none is |
| Creator.ContentKindByTable | tganalyzer/core/creator.py:205-241 | outside simple text and media, a message's type is the `elif` chain over `mime_type`, `photo`, `poll`, `contact_information`, `location_information`, `game_title`, `via_bot` |
| Creator.ContentKind | tganalyzer/core/creator.py:196-241 | defines the type of an ordinary record: "simple_text" when every key is required or benign, else a recognised `media_type`, else the first present key of `mime_type`, `photo`, `poll`, `contact_information`, `location_information`, `game_title`, `via_bot`, else "unknown" |
| Creator.Classify | tganalyzer/core/creator.py:155-241 | defines `Message(message, chat)`: a service record (author `actor`, a call kind and its duration) or an ordinary one (author `from`, the edited and forwarded flags, the content type, its duration, emoji and game table), reading the fields in source order so that the first missing or ill-typed one is the error |
| Creator.SimpleTextIsExclusive | tganalyzer/core/creator.py:196-206 | a message is "simple_text" exactly when all its keys are required or benign, and such a message has none of the keys the later branches test |
| Creator.UnlistedMediaFallsThrough | tganalyzer/core/creator.py:207-224 | a `media_type` outside the six media names falls through to the key chain |
| Creator.TimeOf | tganalyzer/core/creator.py:162 | a send time is read exactly when the field holds a number |
| Creator.ClassifyTotal | tganalyzer/core/creator.py:155-241 | `Message(message, chat)` raises no error exactly when `date` is a number, `text` flattens, `type` is present, and, for a service record, `actor` and `action` are present, or otherwise `from` is present and `edited`, if present, is a number |
| Creator.ClassifyService | tganalyzer/core/creator.py:173-182 | a service message has `actor` as author; it is "single_call" exactly for `phone_call` and "group_call" otherwise, with the matching duration field or 0 |
| Creator.ClassifyOrdinary | tganalyzer/core/creator.py:183-241 | an ordinary message has `from` as author and the content type; `edited` and `forwarded` record the presence of their keys; a media message has its duration; a sticker has its emoji; a game has its game table |
| Creator.KeepRecordIff | tganalyzer/core/creator.py:134-137 | a record is kept exactly when it is not a service record whose action is neither `phone_call` nor `group_call` |
| Creator.ScanAllPrefixError | tganalyzer/core/creator.py:127-138 | the first record that raises decides the error and later records are never read |
| Creator.BuildChat | tganalyzer/core/creator.py:116-139 | `Chat(chat)` builds the chat its specification function defines |
| Creator.ChatOf | tganalyzer/core/creator.py:116-139 | defines `Chat(chat)`: the id and type, the name (the `name` field unless the chat is personal, else the `from` of the contact's first message), and the classified records in order with the non-call service records dropped |
| Creator.ScanRecords | tganalyzer/core/creator.py:127-138 | the message loop computes the name and message list its specification function defines |
| Creator.ScanKeepsOrder | tganalyzer/core/creator.py:127-138 | the chat's messages are the kept records, classified, in file order |
| Creator.ScanNames | tganalyzer/core/creator.py:128-133 | the name of a chat that is not personal is never changed; a personal chat without a name takes the `from` of the first record whose `from_id` is `"user" + str(id)` |
| Creator.ChatName | tganalyzer/core/creator.py:122-133 | a chat that is not personal is named by its `name` field (None when absent); a personal chat is named by its contact's first message |
| Creator.ChatMessages | tganalyzer/core/creator.py:126-139 | a built chat holds one message per kept record, in order |
| Creator.ChatsOfPrefixError | tganalyzer/core/creator.py:253-254 | the first chat that raises decides the error of `start_creator` |
| Creator.StartCreator | tganalyzer/core/creator.py:244-255 | `start_creator` builds the chat list its specification function defines |
| Creator.ChatsInOrder | tganalyzer/core/creator.py:252-255 | `start_creator` returns one `Chat` per exported chat, in order |
| ChatStats.InitStats | tganalyzer/core/analyzer.py:427-505 | `Chat_stat` creates exactly the counters whose feature conditions hold, and the top lists exactly when their size is positive, all empty |
| ChatStats.DurationAmount | tganalyzer/core/analyzer.py:597-598 | a duration can be added exactly when it is present and a number (or bool) |
| ChatStats.Amount | tganalyzer/core/analyzer.py:515-588 | symbol, word and message counts never raise; only duration counters can |
| ChatStats.ApplyUpdateEffect | tganalyzer/core/analyzer.py:515-682 | one `if` block changes only its own counter or top list and keeps the set of attributes |
| ChatStats.ApplyUpdate | tganalyzer/core/analyzer.py:515-682 | defines one `if` block of the message loop: nothing when its feature test fails, AttributeError when it uses a counter that was never created, otherwise one `quan_counter` call on its counter or one `top_counter` call on its top list |
| ChatStats.ApplyFromEffect | tganalyzer/core/analyzer.py:515-682 | running the blocks from the k-th on changes exactly the counters and top lists of those blocks |
| ChatStats.MessageStepEffect | tganalyzer/core/analyzer.py:511-682 | one iteration of the message loop updates each counter and each top list by its own rule and keeps the set of attributes |
| ChatStats.ApplyFromOk | tganalyzer/core/analyzer.py:515-682 | the blocks of one message raise nothing exactly when none of them has an error, and then the created attributes are kept |
| ChatStats.ApplyFromFirstError | tganalyzer/core/analyzer.py:515-682 | the first failing block, in source order, decides the error |
| ChatStats.BisectLeft | tganalyzer/core/analyzer.py:507-508 | the binary search computes `bisect_left` as its specification function defines it |
| ChatStats.BisectRight | tganalyzer/core/analyzer.py:509-510 | the binary search computes `bisect_right` as its specification function defines it |
| ChatStats.LowerBound | tganalyzer/core/analyzer.py:507-508 | `bisect_left` stays between `lo` and `hi` |
| ChatStats.UpperBound | tganalyzer/core/analyzer.py:509-510 | `bisect_right` stays between `lo` and `hi` |
| ChatStats.LowerBoundSorted | tganalyzer/core/analyzer.py:507-508 | on messages sorted by time, `bisect_left` is the number of messages sent before `time_gap[0]` |
| ChatStats.UpperBoundSorted | tganalyzer/core/analyzer.py:509-510 | on sorted messages, `bisect_right` is the number of messages sent no later than `time_gap[1]` |
| ChatStats.WindowIsGap | tganalyzer/core/analyzer.py:507-511 | on sorted messages, the loop range holds exactly the messages whose send time lies in the closed gap, in order; a reversed gap gives none |
| ChatStats.FoldPrefixError | tganalyzer/core/analyzer.py:511-682 | the first message that raises decides the error of `Chat_stat` |
| ChatStats.FoldSnoc | tganalyzer/core/analyzer.py:511-682 | the loop over one more message is one more message step |
| ChatStats.FoldRange | tganalyzer/core/analyzer.py:511-682 | the loop over `range(start_mes, end_mes)` computes the statistics fold its specification function defines |
| ChatStats.Window | tganalyzer/core/analyzer.py:507-511 | defines the messages `range(start_mes, end_mes)` visits, between the `bisect_left` of the gap's start and the `bisect_right` of its end |
| ChatStats.ChatStatOf | tganalyzer/core/analyzer.py:416-682 | defines `Chat_stat(features, chat, time_gap)`: the created counters and top lists, then the blocks of every message in the window in order, or the first error one of them raises |
| ChatStats.AnalyseChat | tganalyzer/core/analyzer.py:416-682 | `Chat_stat(features, chat, time_gap)` creates the attributes and folds the messages of the time window |
| ChatStats.FoldKeepsAttributes | tganalyzer/core/analyzer.py:427-682 | the attributes a `Chat_stat` has after the loop are those it created |
| ChatStats.FoldCounts | tganalyzer/core/analyzer.py:515-682 | every created counter maps each key to the total of the amounts of the messages that count under it, holds exactly the keys that were used, and its values add up to the counter's total |
| ChatStats.FoldTops | tganalyzer/core/analyzer.py:599-649 | each top list is the `top_counter` fold over the window's messages of its kind |
| ChatStats.LongTopsAreTop | tganalyzer/core/analyzer.py:599-649 | each top list is a top-`top` choice of the window's calls, voice or video messages by duration |
| ChatStats.FoldOk | tganalyzer/core/analyzer.py:511-682 | `Chat_stat` raises nothing exactly when no message of the window has a failing block |
| ChatStats.GuardsMatchCreation | tganalyzer/core/analyzer.py:499-501 | a loop guard holds while its counter was never created only for `video_sum` with negative `top_num_video_quantity` and no `videos_summary` (line 672 tests truthiness, line 499 tests `> 0`) |
| ChatStats.MessageOkWhen | tganalyzer/core/analyzer.py:515-682 | without that case, and with a numeric duration wherever durations are added, no block raises |
| ChatStats.NegativeVideoQuantity | tganalyzer/core/analyzer.py:672-675 | with negative `top_num_video_quantity` and no `videos_summary`, one video file makes `Chat_stat` raise AttributeError on `video_sum` |
| ChatStats.MessageSumIsWindowLength | tganalyzer/core/analyzer.py:580-583 | `message_sum` adds up to the number of messages in the window |
| ChatStats.TotalsAgree | tganalyzer/core/analyzer.py:515-577 | two counters fed by the same guard and amount have the same total |
| ChatStats.SumsPerDayAndPerson | tganalyzer/core/analyzer.py:515-577 | symbols and words add up to the same total per author, per day and per person |
| ChatStats.TypedSumCountsKind | tganalyzer/core/analyzer.py:590-682 | a quantity counter of a message type adds up to the number of messages of that type in the window |
| Analyses.CrossCreated | tganalyzer/core/analyzer.py:803-814 | a positive cross-chat top size means that `Chat_stat` created the counter it reads |
| Analyses.FlagCreated | tganalyzer/core/analyzer.py:816-854 | a true flag means that `Chat_stat` created the counter it reads |
| Analyses.LoginCreated | tganalyzer/core/analyzer.py:865-869 | a `proc_…` login means that `Chat_stat` created the duration counter it reads |
| Analyses.InitAcc | tganalyzer/core/analyzer.py:705-797 | `start_analyses` creates exactly the accumulators its feature conditions ask for, all empty |
| Analyses.SplitSendRecv | tganalyzer/core/analyzer.py:867-874 | the `send`/`recv` loop gives the login's own total as `send`, and `send + recv` is the total of the dict |
| Analyses.MergeTops | tganalyzer/core/analyzer.py:803-814 | the cross-chat top blocks, run in source order, give every ranking the `top_counter_chats` step for this chat |
| Analyses.MergeTotals | tganalyzer/core/analyzer.py:816-834 | the `proc_…`/`…_summary` blocks store this chat's total under its name |
| Analyses.MergePerDay | tganalyzer/core/analyzer.py:836-844 | the per-day blocks store `[name, per-day dict]` under the chat's id |
| Analyses.MergePerPerson | tganalyzer/core/analyzer.py:846-854 | the per-person blocks store the per-author dict under the chat's id |
| Analyses.MergeSendRecv | tganalyzer/core/analyzer.py:865-876 | the send/received blocks append the chat's name, send and received totals |
| Analyses.MergeInChat | tganalyzer/core/analyzer.py:877-878 | the in-every-chat blocks store `[name, top list]` under the chat's id |
| Analyses.MergeChat | tganalyzer/core/analyzer.py:803-989 | one analysed chat updates every accumulator by its own rule |
| Analyses.MergeStep | tganalyzer/core/analyzer.py:803-989 | defines one pass of the chat loop: every accumulator the features created is updated by its own block (cross-chat tops, totals, per-day and per-person counts, send and receive split, in-chat tops, sticker totals) |
| Analyses.MergeStepShape | tganalyzer/core/analyzer.py:803-989 | merging a chat keeps the set of accumulators |
| Analyses.MergeAllShape | tganalyzer/core/analyzer.py:799-991 | merging all chats keeps the set of accumulators |
| Analyses.AnalysedPrefixError | tganalyzer/core/analyzer.py:799-801 | the first selected chat whose `Chat_stat` raises decides the error |
| Analyses.RetNums | tganalyzer/core/analyzer.py:994-999 | the numeric-feature keys of `ret_stats` are exactly the positive features, each holding its accumulator |
| Analyses.RetEnabled | tganalyzer/core/analyzer.py:993-1091 | defines the test before each `ret_stats[...] = ...`: a positive top size, a true flag, a set login or a favourite sticker |
| Analyses.RetPeople | tganalyzer/core/analyzer.py:1022-1027 | the per-person keys are added for exactly the true flags, and the other keys are kept |
| Analyses.BuildRetStats | tganalyzer/core/analyzer.py:993-1091 | `ret_stats` holds exactly the enabled keys, each with its accumulator; the favourite sticker entry is the finder's result over some order of the emoji |
| Analyses.FinalAcc | tganalyzer/core/analyzer.py:705-991 | the accumulators after the chat loop have the shape the features ask for |
| Analyses.StartAnalyses | tganalyzer/core/analyzer.py:687-1091 | `start_analyses` raises the first error of a selected chat, and otherwise returns `ret_stats` built from the accumulators over the selected chats |
| Analyses.CrossTopsFold | tganalyzer/core/analyzer.py:803-814 | each cross-chat ranking is the `top_counter` fold over the selected chats' totals, in chat order |
| Analyses.CrossTopsAreTop | tganalyzer/core/analyzer.py:803-814 | each cross-chat ranking is a top-`top` choice of the chats by their totals |
| Analyses.KeyedKeys | tganalyzer/core/analyzer.py:816-854 | a dict written key by key has exactly the written keys |
| Analyses.KeyedLast | tganalyzer/core/analyzer.py:816-854 | the last write to a key wins |
| Analyses.MergedTotals | tganalyzer/core/analyzer.py:816-834 | a per-chat total dict maps each chat name to the total of the last chat with that name |
| Analyses.MergedPerDay | tganalyzer/core/analyzer.py:836-844 | a per-day dict maps each chat id to the name and per-day counts of that chat |
| Analyses.MergedPerPerson | tganalyzer/core/analyzer.py:846-854 | a per-person dict maps each chat id to that chat's per-author counts |
| Analyses.MergedInChat | tganalyzer/core/analyzer.py:877-878 | an in-every-chat dict maps each chat id to its name and its top list |
| Analyses.MergedSendRecv | tganalyzer/core/analyzer.py:865-876 | the three send/received lists hold, chat by chat, the names, the login's own totals, and the rest of each chat's total |
| Analyses.MergeAddGet | tganalyzer/core/analyzer.py:960-961 | a merged sticker count is the sum of the two counts |
| Analyses.MergedStickers | tganalyzer/core/analyzer.py:960-961 | the favourite-sticker totals hold, per emoji, its count summed over the chats, and their grand total is the sum of all chats' counts |
| Analyses.AnalysedAreSelected | tganalyzer/core/analyzer.py:799-801 | the analysed chats are the chats whose id is in `chat_ids`, in order, each with its `Chat_stat` |
| Analyses.AnalysedChats | tganalyzer/core/analyzer.py:799-801 | defines the chats `start_analyses` analyses: those whose id is in `chat_ids`, in list order, each with the statistics of its `Chat_stat`, or the first error one raises |
| Analyses.AnalysedOk | tganalyzer/core/analyzer.py:799-801 | the chat loop raises nothing exactly when no selected chat's `Chat_stat` raises |
| Analyses.CreatedRead | tganalyzer/core/analyzer.py:803-989 | a counter that `Chat_stat` created is there to be read |
| Analyses.AttributesRead | tganalyzer/core/analyzer.py:803-989 | every attribute that `start_analyses` reads of a `Chat_stat` exists, so those reads raise no AttributeError |
| Analyses.ChatOffer | tganalyzer/core/analyzer.py:803-814 | the total offered for a chat is the counter's total over its time window |
| Analyses.ChatSplit | tganalyzer/core/analyzer.py:865-876 | the `send` of a chat is the login's total duration in its window, and `send + recv` is the chat's total duration |
| DateRanges.Iterate | tganalyzer/html_export/__init__.py:103-109 | `iter(daterange)` yields, from `start` on by `step`, the dates its specification function defines, while they are below `stop` (`step > 0`) or above it (`step < 0`) |
| DateRanges.CeilQuotient | tganalyzer/html_export/__init__.py:111-114 | `ceil(d / s)` is kept when positive and 0 otherwise; it is positive exactly when `d` and `s` have the same sign |
| DateRanges.DatesFromShape | tganalyzer/html_export/__init__.py:103-109 | the iteration yields `ceil((stop - start) / step)` dates, or none when that is not positive, and the i-th of them is `start + i * step` |
| DateRanges.LenCountsDates | tganalyzer/html_export/__init__.py:111-114 | `len(daterange)` is the number of dates the iteration yields |
| DateRanges.GetItemIsDate | tganalyzer/html_export/__init__.py:116-123 | `r[idx]` succeeds exactly for `0 <= idx < len(r)` and then returns the idx-th date; outside that range it raises IndexError, and with a zero step `len` raises ZeroDivisionError first |
| DateRanges.Len | tganalyzer/html_export/__init__.py:111-114 | defines `len(daterange)`: ZeroDivisionError for a zero step, else the ceiling of the distance over the step, or 0 when that is not positive |
| DateRanges.GetItem | tganalyzer/html_export/__init__.py:116-123 | defines `daterange[idx]`: the error of `len`, IndexError unless `0 <= idx < len`, else `start + idx * step` |
| DateRanges.DatesInRange | tganalyzer/html_export/__init__.py:105-107 | every date yielded lies in `[start, stop)` for a positive step and in `(stop, start]` for a negative one |
| DateRanges.CeilBound | tganalyzer/html_export/__init__.py:111-114 | below the ceiling quotient, `i * step` stays strictly inside the distance |
| TopBars.FoldOthersTotal | tganalyzer/html_export/__init__.py:143-148 | the "Others" fold keeps the total of the values |
| TopBars.FoldOthers | tganalyzer/html_export/__init__.py:143-148 | defines the chart entries of `draw_top_bar` and `draw_pie`: the items sorted by value, largest first, with the tail from `topsize` on replaced by one `Others` item holding its sum |
| TopBars.FoldOthersShape | tganalyzer/html_export/__init__.py:143-148 | with a non-negative `topsize` the chart has `min(n, topsize + 1)` items: the `topsize` largest in sorted order, then the "Others" item when anything was folded; when nothing is folded the chart is the sorted dict |
| TopBars.FoldOthersRanked | tganalyzer/html_export/__init__.py:143-148 | no folded item is larger than a kept one |
| TopBars.FoldOthersSplit | tganalyzer/html_export/__init__.py:143-148 | the kept items and the folded items together are the dict's items |
| TopBars.SumAppend | tganalyzer/html_export/__init__.py:148 | `sum` of a concatenation is the sum of the sums |
| TopBars.SumPermutation | tganalyzer/html_export/__init__.py:143-148 | `sum` depends only on the multiset of values, so sorting does not change it |
| TopBars.TopBar | tganalyzer/html_export/__init__.py:143-148 | the label list `x` and the value list `y` are the keys and the values of the folded entries (draw_pie does the same at lines 205-211) |
| TopBars.Unzip | tganalyzer/html_export/__init__.py:146 | `list(d.keys())` and `list(d.values())` are the entries' keys and values, position by position |
| TopBars.SumFrom | tganalyzer/html_export/__init__.py:148 | the loop computes `sum(y[topsize:])` |
| SymbMsgWord.Aggregate | tganalyzer/html_export/__init__.py:257-268 | the aggregation loop computes the three tallies and the day spans its specification function defines, or raises KeyError for the first chat without a name |
| SymbMsgWord.AddUsers | tganalyzer/html_export/__init__.py:259-267 | one chat's users are added to the running tallies; the loop fails exactly when the chat has a count but no name |
| SymbMsgWord.SumsStep | tganalyzer/html_export/__init__.py:265-267 | one count raises `by_chat_agg` at the chat's name, `by_date_agg` at the user and date, and `by_user` at the chat and user |
| SymbMsgWord.UnnamedChat | tganalyzer/html_export/__init__.py:265 | the first chat that has a count but no entry in `chatnames` makes the function raise KeyError for that chat id |
| SymbMsgWord.AggregatesMeaning | tganalyzer/html_export/__init__.py:257-268 | `by_chat_agg` maps every chat name to the total count of its chats, `by_date_agg` tallies each user's counts by date, and `by_user` tallies each chat's counts by user |
| SymbMsgWord.AggregatesEmpty | tganalyzer/html_export/__init__.py:270-272 | `by_chat_agg` is empty exactly when there are no counts at all |
| SymbMsgWord.SpanBounds | tganalyzer/html_export/__init__.py:258-268 | the tracked minimum and maximum dates are the least and greatest dates of the chat, so the span in days is at least 1; a chat without dates gets the span from `date.max` to `date.min` |
| SymbMsgWord.ChatRowsLength | tganalyzer/html_export/__init__.py:265 | one chat-name row is made per count |
| SymbMsgWord.FirstUnnamed | tganalyzer/html_export/__init__.py:265 | the first count whose chat has no name is found |
| SymbMsgWord.Shape | tganalyzer/html_export/__init__.py:270-293 | the answer-shaping loop builds the answer its specification function defines, including the date plot's IndexError or KeyError for the first chat whose plot raises |
| SymbMsgWord.ChatEntry | tganalyzer/html_export/__init__.py:279-291 | defines one chat's entry: empty when the chat has no counts; else the date plot's error, or `"user"` (an image name when the counts add up to more than 0, else None), `"date"` and `"avg"` |
| SymbMsgWord.UserPlot | tganalyzer/html_export/__init__.py:172-179 | defines one user of `draw_date_plot`: IndexError without dates, KeyError at the first missing day between the first date and the last |
| SymbMsgWord.DatePlot | tganalyzer/html_export/__init__.py:171-180 | defines `draw_date_plot(data[chatid])`: the users in dict order, the first one that raises decides |
| SymbMsgWord.FirstDay | tganalyzer/html_export/__init__.py:172-173 | `sorted(userdata.keys())[0]` is a date of the user no later than any other |
| SymbMsgWord.LastDay | tganalyzer/html_export/__init__.py:172-176 | `sorted(userdata.keys())[-1]` is a date of the user no earlier than any other |
| SymbMsgWord.GapFromMeaning | tganalyzer/html_export/__init__.py:177-179 | the comprehension over the days from the first date to the last finds every day exactly when there is no gap, and otherwise stops at the earliest missing day |
| SymbMsgWord.UserPlotMeaning | tganalyzer/html_export/__init__.py:172-179 | one user's plot succeeds exactly when the user has dates and every day between the first and the last is among them; otherwise IndexError without dates, or KeyError naming the earliest missing day, which lies strictly between the two |
| SymbMsgWord.DatePlotMeaning | tganalyzer/html_export/__init__.py:171-180 | the plot succeeds exactly when every user's part does, and otherwise raises the error of the first user that fails |
| SymbMsgWord.DatePlotCheck | tganalyzer/html_export/__init__.py:171-180 | the loop over the users raises as the specification function `DatePlot` defines |
| SymbMsgWord.UserPlotCheck | tganalyzer/html_export/__init__.py:172-179 | the loop over one user's days raises as the specification function `UserPlot` defines |
| SymbMsgWord.DatePlotRaises | tganalyzer/html_export/__init__.py:279-289 | a chat with counts whose date plot raises makes `draw_symb_msg_word` raise that error, once the earlier chats have their entries |
| SymbMsgWord.DateGapSample | tganalyzer/html_export/__init__.py:177-179 | with `data = {7: {"a": {10: 1, 12: 1}}}` and `chatnames = {7: "c"}`, `draw_symb_msg_word` raises KeyError for day 11 |
| SymbMsgWord.EntriesError | tganalyzer/html_export/__init__.py:279-291 | the first chat whose entry fails decides the error |
| SymbMsgWord.EntriesPrefixError | tganalyzer/html_export/__init__.py:279-291 | after an error the later chats are never read |
| SymbMsgWord.EntriesAt | tganalyzer/html_export/__init__.py:279-291 | every chat of `data` gets an entry, and it is that chat's own entry |
| SymbMsgWord.EntryOfChat | tganalyzer/html_export/__init__.py:279-291 | a chat's entry depends only on its id and the aggregates |
| SymbMsgWord.DrawSymbMsgWord | tganalyzer/html_export/__init__.py:228-293 | `draw_symb_msg_word` aggregates and then shapes the answer, raising the errors of the per-chat date plots |
| SymbMsgWord.SymbMsgWordEmpty | tganalyzer/html_export/__init__.py:270-272 | `ans["agg"]` is empty exactly when there are no counts, and then the answer is `{"agg": {}}` |
| SymbMsgWord.AnswerChat | tganalyzer/html_export/__init__.py:279-291 | every chat has an entry; it is empty exactly when `by_user[chatid]` is empty; otherwise its date plot succeeded, every day between each user's first and last date having a count, and it holds "user" (an image when its sum is positive, else None), "date" and "avg" |
| SymbMsgWord.SymbMsgWordChat | tganalyzer/html_export/__init__.py:279-291 | a chat's entry is empty exactly when it has no counts; the "user" image is drawn exactly when the chat's counts add up to a positive number |
| MediaStats.Field | tganalyzer/html_export/__init__.py:342-348 | `userdata[key]` used as a number succeeds exactly for a dict that holds a number or a boolean there (`True` counting as 1), and raises KeyError when the key is absent and TypeError otherwise |
| MediaStats.UseOfCases | tganalyzer/html_export/__init__.py:338-348 | one user's cell is read without error exactly when the chat is named, the quantity is a number or a boolean (the whole value for "photo"), and, for voice and video messages, the length is a number or a boolean and the quantity is not 0 (`length / quantity`) |
| MediaStats.UseOf | tganalyzer/html_export/__init__.py:337-348 | defines one user's contribution: the chat's name, the quantity (the user data itself for photos, its `"quantity"` field otherwise), the length for `_message` features, with the KeyError, TypeError and ZeroDivisionError in the order the lines raise them |
| MediaStats.MediaStep | tganalyzer/html_export/__init__.py:338-346 | one cell adds its quantity (and length) to the chat name's totals and writes it under the chat and user |
| MediaStats.AfterStep | tganalyzer/html_export/__init__.py:336-348 | the aggregates after one more cell are the previous ones plus that cell, or its error |
| MediaStats.UsesPrefixError | tganalyzer/html_export/__init__.py:336-348 | the first failing cell decides the error and later cells are never read |
| MediaStats.Aggregate | tganalyzer/html_export/__init__.py:335-348 | the aggregation loop computes the aggregates its specification function defines |
| MediaStats.AddChat | tganalyzer/html_export/__init__.py:337-348 | one chat's users are added to the running aggregates |
| MediaStats.UsesOk | tganalyzer/html_export/__init__.py:336-348 | reading all cells succeeds exactly when every cell reads, and then gives one reading per cell |
| MediaStats.UsesErr | tganalyzer/html_export/__init__.py:336-348 | a failure is the error of the first cell that fails |
| MediaStats.RowsAt | tganalyzer/html_export/__init__.py:339-346 | each reading gives one row keyed by chat name and one keyed by chat and user |
| MediaStats.MediaMeaning | tganalyzer/html_export/__init__.py:325-348 | `quantity_agg` (and `length_agg` for messages) maps each chat name to the summed quantities (lengths) and adds up to all of them; `quantity[chatid]` (`length[chatid]`) holds the written values per user; without `_message` no lengths are kept |
| MediaStats.Shape | tganalyzer/html_export/__init__.py:350-399 | the answer-shaping code builds the answer its specification function defines |
| MediaStats.ShapeAgg | tganalyzer/html_export/__init__.py:354-370 | the "agg" entry is built as its specification function defines |
| MediaStats.ShapeChat | tganalyzer/html_export/__init__.py:373-397 | one chat's entry is built as its specification function defines |
| MediaStats.DrawMedia | tganalyzer/html_export/__init__.py:297-399 | `draw_voicemsg_videomsg_videos_photos` aggregates and then shapes the answer |
| MediaStats.EntriesAt | tganalyzer/html_export/__init__.py:372-397 | exactly the chats of `data` get an entry, each its own |
| MediaStats.UsesCells | tganalyzer/html_export/__init__.py:336-348 | each reading belongs to its cell's chat and user |
| MediaStats.QuantityEmpty | tganalyzer/html_export/__init__.py:374-375 | `quantity[chatid]` is empty exactly when the chat has no users |
| MediaStats.MediaEmpty | tganalyzer/html_export/__init__.py:350-352 | `ans["agg"]` is empty exactly when no chat has users, and then the answer is `{"agg": {}}` |
| MediaStats.MediaAgg | tganalyzer/html_export/__init__.py:354-370 | "agg" holds "quantity", plus "length" for messages; each is an image exactly when its total is positive |
| MediaStats.EntryOf | tganalyzer/html_export/__init__.py:377-397 | a chat with users gets "quantity" (plus "length" and "avg" for messages), each an image exactly when its sum is positive |
| MediaStats.ChatDicts | tganalyzer/html_export/__init__.py:340-346 | `quantity[chatid]` and `length[chatid]` are the chat's cells written user by user |
| MediaStats.ShapeChatAt | tganalyzer/html_export/__init__.py:372-397 | every chat of `data` has its entry in the answer |
| MediaStats.MediaChat | tganalyzer/html_export/__init__.py:372-397 | a chat's entry is empty exactly when it has no users; otherwise its images are drawn exactly when its users' quantities (lengths) add up to a positive number |
| MediaStats.CellsDistinct | tganalyzer/html_export/__init__.py:336-337 | in dict-shaped data no chat and user pair occurs twice |
| MediaStats.ChatSums | tganalyzer/html_export/__init__.py:377 | for dict-shaped data, `sum(quantity[chatid].values())` is the sum of the chat's quantities |
| TimesOfDay.NamesInjective | tganalyzer/html_export/__init__.py:433-436 | the English display names of the times of day are pairwise different, so the renaming loses no entry |
| TimesOfDay.KeyOrderKeys | tganalyzer/html_export/__init__.py:423-427 | the insertion order of `quantity_agg` lists exactly its keys |
| TimesOfDay.TodsStep | tganalyzer/html_export/__init__.py:426-427 | one count raises `quantity_agg[tod]` and `quantity[chatid][tod]` |
| TimesOfDay.Aggregate | tganalyzer/html_export/__init__.py:423-427 | the aggregation loop computes the tallies its specification function defines |
| TimesOfDay.AddUsers | tganalyzer/html_export/__init__.py:424-427 | one chat's users are added to the tallies |
| TimesOfDay.AddTods | tganalyzer/html_export/__init__.py:425-427 | one user's counts are added to the tallies |
| TimesOfDay.MissingNone | tganalyzer/html_export/__init__.py:433-436 | the renaming finds no missing name exactly when every key has a display name; a key it reports is missing and is one of the keys |
| TimesOfDay.MissingRowNone | tganalyzer/html_export/__init__.py:433-436 | no row lacks a display name exactly when every row's key has one |
| TimesOfDay.KeyOrderMissing | tganalyzer/html_export/__init__.py:433-436 | the first key in insertion order without a display name is the first such row |
| TimesOfDay.RenameAgg | tganalyzer/html_export/__init__.py:433-436 | the renaming raises KeyError for the first key, in insertion order, that has no display name, and otherwise renames every key |
| TimesOfDay.RenamedBy | tganalyzer/html_export/__init__.py:433-436 | defines the renamed totals `{names[tod]: value}` for the times of day that have a display name |
| TimesOfDay.MissingPrefix | tganalyzer/html_export/__init__.py:433-436 | once a key is missing, later keys are never read |
| TimesOfDay.RenamedRemove | tganalyzer/html_export/__init__.py:433-436 | a renamed key carries its value |
| TimesOfDay.RenamedSum | tganalyzer/html_export/__init__.py:433-437 | renaming keeps the sum of the values |
| TimesOfDay.DrawTimesOfDay | tganalyzer/html_export/__init__.py:403-476 | `draw_timesofday` aggregates and then shapes the answer |
| TimesOfDay.Shape | tganalyzer/html_export/__init__.py:429-476 | the answer-shaping code builds the answer its specification function defines |
| TimesOfDay.AnswerOf | tganalyzer/html_export/__init__.py:429-476 | defines the answer: `{"agg": {}}` when nothing was counted, KeyError when a time of day has no display name, otherwise the aggregate pie (None when the total is 0) and one entry per chat id |
| TimesOfDay.ShapeChats | tganalyzer/html_export/__init__.py:452-474 | the per-chat loop builds the entries its specification function defines |
| TimesOfDay.AggRowsAt | tganalyzer/html_export/__init__.py:425-426 | each count gives one `(tod, count)` row |
| TimesOfDay.TodsMeaning | tganalyzer/html_export/__init__.py:423-427 | `quantity_agg` maps each time of day to its total over all chats and its insertion order lists its keys; `quantity[chatid]` tallies the chat's counts |
| TimesOfDay.AggEmpty | tganalyzer/html_export/__init__.py:429-431 | `quantity_agg` is empty exactly when there are no counts |
| TimesOfDay.TimesOfDayEmpty | tganalyzer/html_export/__init__.py:429-431 | with no counts the answer is `{"agg": {}}`; otherwise it is an error or has a non-empty "agg" |
| TimesOfDay.TimesOfDayError | tganalyzer/html_export/__init__.py:433-460 | the function raises exactly when some time of day has no display name, and the KeyError names the first such one |
| TimesOfDay.AllNamed | tganalyzer/html_export/__init__.py:433-460 | a successful call means every time of day it met has a display name |
| TimesOfDay.TimesOfDayAgg | tganalyzer/html_export/__init__.py:437-450 | "agg" holds the pie image exactly when all counts add up to a positive number, and None otherwise |
| TimesOfDay.AnswerAgg | tganalyzer/html_export/__init__.py:437-450 | the "agg" image depends on the renamed total |
| TimesOfDay.AggSum | tganalyzer/html_export/__init__.py:437 | `sum(quantity_agg.values())` is the sum of all counts |
| TimesOfDay.AggNamed | tganalyzer/html_export/__init__.py:433-436 | after a successful call every aggregated key has a display name |
| TimesOfDay.ChatEntriesKeys | tganalyzer/html_export/__init__.py:452-474 | exactly the chats of `data` get an entry, each its own |
| TimesOfDay.TimesOfDayChat | tganalyzer/html_export/__init__.py:452-474 | a chat's entry is empty exactly when it has no counts; otherwise its pie is drawn exactly when its counts add up to a positive number |
| TimesOfDay.ChatTally | tganalyzer/html_export/__init__.py:427 | `quantity[chatid]` is the tally of that chat's counts |
| TimesOfDay.ChatEntryOf | tganalyzer/html_export/__init__.py:454-474 | a chat's entry from its tally: empty exactly when there are no counts, otherwise the image exactly when the counts add up to a positive number |
| TimesOfDay.PieEntryOf | tganalyzer/html_export/__init__.py:454-474 | a pie entry is empty for an empty dict and otherwise depends only on the renamed total |
| ApiCreator.MessageFilter | API/creator/__init__.py:55-59 | `message_filter` succeeds exactly when the record has a `type`, and otherwise raises KeyError for it |
| ApiCreator.KeptError | API/creator/__init__.py:50-59 | running the filter over all messages raises exactly when some message has no `type` |
| ApiCreator.KeptMembers | API/creator/__init__.py:50-59 | the filtered messages are exactly the typed messages whose type is not "service" |
| ApiCreator.TextLines | API/creator/__init__.py:18 | iterating `message["text"]` yields a string's characters or a list's items, and raises TypeError for anything else |
| ApiCreator.FirstWithFinds | API/creator/__init__.py:18-20 | the search finds nothing exactly when no string line mentions the login, and otherwise returns the first line that does |
| ApiCreator.GameFinder | API/creator/__init__.py:14-20 | `game_finder` raises exactly when `text` is missing or not iterable |
| ApiCreator.GameFinderFirst | API/creator/__init__.py:18-20 | over a list of lines, `game_finder` returns None exactly when no string line mentions the login, and otherwise `line[1: line.find(".")]` of the first line that does |
| ApiCreator.KeyStringHas | API/creator/__init__.py:66 | every key occurs as a substring of `str(list(keys))` |
| ApiCreator.SubstringNotMembership | API/creator/__init__.py:79 | the test `par in keys` on the key string is a substring test: "title" occurs in the key string of `["game_title"]` though it is not one of its keys |
| ApiCreator.InsertSorted | API/creator/__init__.py:66 | inserting into a strictly sorted list keeps it strictly sorted and adds exactly the new element |
| ApiCreator.SortedSetMeaning | API/creator/__init__.py:66 | `sorted(list({…}))` is strictly sorted and holds exactly the elements of the input |
| ApiCreator.SortedUnique | API/creator/__init__.py:66 | two strictly sorted lists with the same elements are equal, so the sorted set does not depend on iteration order |
| ApiCreator.KeyStrings | API/creator/__init__.py:66 | one key string `str(list(message.keys()))` is made per message |
| ApiCreator.AllKeysHas | API/creator/__init__.py:76-77 | the collected parameters are exactly the keys that some message has |
| ApiCreator.PartitionMembers | API/creator/__init__.py:78-82 | every parameter goes to exactly one of the lists: to `required_params` exactly when it occurs in every key string |
| ApiCreator.PartitionSorted | API/creator/__init__.py:78-82 | both lists keep the sorted order of the parameters |
| ApiCreator.RequiredMeaning | API/creator/__init__.py:62-83 | after `message_keys_ex`, a parameter is required exactly when some message has it and it occurs in every message's key string, and optional exactly when some message's key string lacks it; both lists are sorted |
| ApiCreator.RequiredOfCommonKey | API/creator/__init__.py:74-83 | a key that every kept message has is required |
| ApiCreator.TitleInKeyString | API/creator/__init__.py:79 | "title" occurs in the key string of any key list that holds "title" or "game_title" |
| ApiCreator.TitleRequiredThroughGameTitle | API/creator/__init__.py:79 | "title" is required even when some messages have only "game_title" |
| ApiCreator.Extraction.MessageKeysEx | API/creator/__init__.py:62-67 | `message_keys_ex` returns the sorted set of the kept messages' key strings, stores it in `message_keys`, and changes no other field |
| ApiCreator.Extraction.ReqOptParamsEx | API/creator/__init__.py:70-83 | `req_opt_params_ex` resets both lists, fills them with the partition, raises AttributeError when `message_keys` was never computed and there are parameters, and changes no other field |
| ApiCreator.ReqOptOf | API/creator/__init__.py:70-83 | defines `req_opt_params_ex`: the filter's KeyError, AttributeError when there are parameters and `message_keys` was never set, else the sorted parameters split by the every-key-string test |
| ApiCreator.WriteAllAt | API/creator/__init__.py:148-156 | copying a record's keys under a prefix writes `prefix + key` for every present key, with its value, and keeps other names |
| ApiCreator.WriteAllOther | API/creator/__init__.py:148-156 | names without the prefix are not touched |
| ApiCreator.WriteAllNames | API/creator/__init__.py:148-156 | every new name is the prefix followed by a key of the record |
| ApiCreator.MesAttr | API/creator/__init__.py:156 | `mes_<key>` of a new object is the message's field, or None when absent |
| ApiCreator.ChatAttr | API/creator/__init__.py:148-149 | `chat_<key>` is the chat's field, or None when absent |
| ApiCreator.AttrsNames | API/creator/__init__.py:148-156 | every attribute is a `chat_` or a `mes_` copy of a present key |
| ApiCreator.FirstTruthyPicksFirst | API/creator/__init__.py:168-181 | the truthiness `elif` chain picks the tag of the first rule whose field is truthy, and nothing when none is |
| ApiCreator.BeforeGameTags | API/creator/__init__.py:158-181 | the branches before the game test never give "game" or "unknown", and give "simple_text" exactly for a simple text message |
| ApiCreator.SimpleTextFirst | API/creator/__init__.py:150-159 | a message is typed "simple_text" exactly when all its keys are required or benign |
| ApiCreator.GameMeaning | API/creator/__init__.py:182-184 | a message is typed "game" exactly when a game table entry is made; then `game_title` is truthy, no earlier branch applies, and `game_finder` found a non-empty place |
| ApiCreator.GameWhenFound | API/creator/__init__.py:182-186 | past the earlier branches, with a string title, the message is a game exactly when `game_finder` finds a non-empty place |
| ApiCreator.BeforeGameChain | API/creator/__init__.py:158-181 | the branches before the game test, in source order: simple text, unforwarded media, then `mime_type`, `photo`, `poll`, `sticker_emoji`, `contact_information`, `location_information`, `via_bot` by truthiness |
| ApiCreator.TypeOf | API/creator/__init__.py:158-186 | defines `msg_type`: the first branch before the game test that applies, else "game" when the title is truthy and `game_finder` gives a non-empty place, else "unknown"; the finder's errors propagate |
| ApiCreator.GameStep | API/creator/__init__.py:182-186 | defines the game test: with a truthy `game_title`, "game" and the place to record when `game_finder` gives a non-empty one, TypeError for a list or dict title, else "unknown" |
| ApiCreator.CopyAttrs | API/creator/__init__.py:148-156 | the copy loops set the attributes of the chat and the message, and compute the simple-text flag |
| ApiCreator.CopyChat | API/creator/__init__.py:148-149 | the chat loop writes `chat_<key>` for every chat key |
| ApiCreator.SimpleByOrder | API/creator/__init__.py:151-155 | the flag computed over the keys in order means "every key is required or benign" |
| ApiCreator.NewMessage | API/creator/__init__.py:147-186 | `Message(message, chat, login, req_params)` raises when the classification does, leaving the shared table unchanged; otherwise it returns a fresh object with the copied attributes, `msg_login` and the type, and records the game place in the shared table |
| ApiCreator.Classify | API/creator/__init__.py:158-186 | the classification over the copied attributes returns the type its specification function gives and records a game's place in the shared table |
| ApiCreator.GameTest | API/creator/__init__.py:182-186 | the game branch returns "game" and writes `msg_game_tables[title] = place` exactly as its specification function does, and "unknown" otherwise |
| ApiCreator.ChatPairs | API/creator/__init__.py:209-210 | the inner loop visits `(chat, message)` for every message of the chat |
| ApiCreator.BuildAllKept | API/creator/__init__.py:209-213 | the result holds one message object per non-service message, in order, each built from its record |
| ApiCreator.BuildAllTables | API/creator/__init__.py:182-184 | without game messages the shared table is unchanged |
| ApiCreator.BuildAllStopped | API/creator/__init__.py:209-213 | after the first error later messages are not read |
| ApiCreator.PairsPrefix | API/creator/__init__.py:209-210 | the pairs of the first chats are a prefix of all pairs |
| ApiCreator.StartApi | API/creator/__init__.py:194-214 | `start_api` computes the keys and parameters, and then builds every non-service message; the result and the shared table are those its specification function defines, with fresh objects |
| ApiCreator.StartApiOf | API/creator/__init__.py:194-214 | defines `start_api`: the key strings, the required parameters, then one message per non-service record with the game table they leave, or the first error |
| ApiCreator.BuildMessages | API/creator/__init__.py:207-214 | the chat loop builds the messages and the shared table that its specification function defines |
| ApiCreator.AddChatAt | API/creator/__init__.py:209-213 | one iteration of the chat loop adds the chat's messages as its specification function does |
| ApiCreator.AddChat | API/creator/__init__.py:210-213 | the message loop of one chat adds its messages as its specification function does |
| ApiCreator.AddRecord | API/creator/__init__.py:211-213 | one message is skipped when it is a service message, and otherwise built and appended |
| ApiCreator.ChatPairsStep | API/creator/__init__.py:210 | one more message is one more pair |
| ApiCreator.StopRest | API/creator/__init__.py:210-213 | after an error the chat's remaining messages change nothing |
| ApiCreator.TruthIsPresence | API/creator/__init__.py:168-181 | when all fields are truthy, the truthiness tests are presence tests |
| ApiCreator.MediaAgrees | API/creator/__init__.py:160-167 | for an unforwarded message, the API's media branch applies exactly when the core creator's does, with the same type name |
| ApiCreator.PresenceNames | API/creator/__init__.py:168-181 | the API name of each core type: "send_contact" for contact, "send_location" for location, and the core name for file, photo, poll, bot usage and unknown |
| ApiCreator.TypeOfUnknown | API/creator/__init__.py:182-186 | with no earlier branch and no `game_title`, the message is "unknown" |
| ApiCreator.AgreeWhen | API/creator/__init__.py:158-186 | when the earlier branch gives the core's type name, the two classifiers agree |
| ApiCreator.AgreesWithCore | API/creator/__init__.py:147-186 | on an unforwarded message with truthy fields, without `sticker_emoji` or `game_title`, the API types it as the core creator does, up to the names "send_contact" and "send_location" |
| ApiCreator.BeforeByPresence | API/creator/__init__.py:168-181 | on such a message the earlier branches are presence tests in the API's order |
| ApiCreator.AgreeByPresence | API/creator/__init__.py:168-186 | the presence-ordered branches give the core's type |
| ApiCreator.ForwardedMediaDiffers | API/creator/__init__.py:160-167 | a forwarded media message with no other typed field is "unknown" in the API classifier, while the core creator types it by its `media_type` |
| ApiCreator.Extraction.constructor | API/creator/__init__.py:38-43 | an extraction starts from the chats list of the loaded export, with `message_keys` not yet set and both parameter lists empty |
| ApiCreator.GameTables.constructor | API/creator/__init__.py:97 | the class-level `msg_game_tables` starts as an empty dict shared by all messages |
| ApiCreator.Message.constructor | API/creator/__init__.py:89-91 | a message object holds its copied attributes, `msg_login` and `msg_type` |

## Where the model follows the code

Where the code has an edge case of its own, the model does what the
code does:

- `game_parcer` (tganalyzer/core/creator.py:81) reads a leaderboard line
  by fixed offsets from its first `.`. So the line `"1. Alice...."` gives
  the entry `{"Alice.": ""}`: the key keeps one of the trailing dots
  and the value skips the line's first character
  (`Creator.GameLineSample`, with the general form in
  `Creator.GameLineWellFormed`).
- `Chat_stat` admits the top-N video list when `top_num_video_quantity`
  is positive (tganalyzer/core/analyzer.py:499), but the video branch
  tests the same value only for truthiness (line 672). With a negative
  value and no `videos_summary` one video file raises AttributeError; the
  model raises it too (`ChatStats.NegativeVideoQuantity`).
- `draw_date_plot` (tganalyzer/html_export/__init__.py:177-179) lists a
  user's count for every day from the first date to the last, and its
  comment says the list includes zeros. But it reads `userdata[dt]`
  directly, so a day without messages raises KeyError. With
  `data = {7: {"a": {10: 1, 12: 1}}}` `draw_symb_msg_word` raises
  KeyError for day 11, and so does the model (`SymbMsgWord.DateGapSample`).

## Left out

- Reading the export: the JSON file reads of the creator's `Extraction`
  and of the API's `data_ex`/`chats_ex` are not modelled. Both take the
  already parsed records as input, and the API's `messages_ex_all`
  generator is the concatenation of the chats' message lists.
- Time parsing: `datetime.fromisoformat` is not modelled. A record's
  `date` holds its send time as whole seconds (`Num`), and the calendar
  day is that time divided by 86400, rounded down. Dates in the HTML
  export are day numbers, so `daterange` steps by whole days.
- Plotting: matplotlib (`pie_create`, `bar_create`, `plot_create`,
  `hist_create`, the `draw_date_plot` figure and every `plt`/`fig` call)
  is not modelled. The model keeps the image file names, or None where
  the source stores None. It keeps the exceptions `draw_date_plot`
  raises before any drawing (tganalyzer/html_export/__init__.py:171-179,
  called per chat at line 289): IndexError for a user without dates, and
  KeyError at the first day between a user's first and last date that
  the user has no count for (`SymbMsgWord.UserPlotMeaning`).
- Floating point: the averages (`avg` in `draw_symb_msg_word`, `len_avg`
  in `draw_voicemsg_videomsg_videos_photos`) are kept as their two
  operands, together with the ZeroDivisionError of the division.
- Report assembly: `html_export()` (jinja2 templating, gettext locales,
  directory creation and file copying) is not modelled. The display
  names of times of day are a parameter mapping each name to its
  translation; `TimesOfDay.Names` is the English table. The model
  assumes that this table is injective (`TimesOfDay.RenamedBy` requires
  it, and `TimesOfDay.NamesInjective` proves it of the English table).
  With another catalogue that gives two times of day the same name, the
  comprehension at tganalyzer/html_export/__init__.py:433-436 would merge
  them, the last one winning; that case is not modelled.
- The GUI, the command-line wrapper, the build tasks and the tests are
  not modelled. The API's `__main__` entry point is not modelled either.
- Dict order: the source iterates dicts in insertion order. Where the
  result depends on that order (`top_num_stickers_finder`), the model
  allows any order and proves the result for every one.
- The list-valued `message.text` branches of `Chat_stat`
  (tganalyzer/core/analyzer.py:519-523, 551-555) are not modelled. The
  creator always stores a string there.
- `ApiCreator.Extraction.MessageKeysEx`: `str(list(message.keys()))` is
  modelled with each message's keys in its own field order, as a quoted
  list `['a', 'b']`. Keys containing quotes or backslashes, which Python
  would escape, are written unescaped.
- `ChatStats.AnalyseChat`: a top-N block whose message has a duration
  that is neither a number nor a boolean raises TypeError in the model
  as soon as the block runs. Python's `top_counter` (analyzer.py:201-209)
  appends such a pair without complaint and raises only when it compares
  it with another pair, so it can fail later than the model, or not at
  all when the list never sorts or compares it. Python's ordering of
  mixed types is not modelled.
- `Counters.Bump`: a counter key is any JSON value. Python raises
  TypeError when a list or dict is used as a dict key (analyzer.py:180);
  the model counts it like any other key. An author or chat id that is a
  list or dict does not occur in an export.
- `Analyses.MergeTotals`: a chat name is any JSON value. The source files
  each total under `chat.name` (analyzer.py:817, 970, 986), and Python
  raises TypeError for a list or dict name; the model stores it as a key
  and succeeds. Exports carry no list or dict chat names or ids.
- `Analyses.MergePerDay`: likewise for `chat.id` as the key of the
  per-day dicts (analyzer.py:838-846): a list or dict id is stored where
  Python raises TypeError.
- `Analyses.MergePerPerson`: likewise for `chat.id` as the key of the
  per-person dicts (analyzer.py:848-854, 973, 989).
- `Analyses.MergeInChat`: likewise for `chat.id` as the key of the
  `len_*_in_chat` dicts (analyzer.py:878-935).
- `ApiCreator.TextLines`: a dict `text` is iterable in Python, over its
  keys in insertion order. The model's JSON objects hold no key order,
  so a dict `text` raises TypeError here.
- `ApiCreator.GameFinder`: it iterates `text` through `TextLines`, so a
  dict `text` raises TypeError here where Python would scan its keys.
- `Values.PyStr`: `str()` of a list or dict (creator.py:131) has no
  value in the model (None), since rendering a nested value needs key
  order and Python's quoting rules. It is used only for the contact id
  `"user" + str(id)` of a personal chat: when the chat id is a list or
  dict, the model never names the chat from a message, where Python
  would name it from a message whose `from_id` is that rendering.
- Floats: JSON numbers are integers here. A fractional duration or id is
  not modelled.
- Integer widths: Python integers are unbounded, and so are the model's.
  The model's days are unbounded too, where Python's `date` stops at
  year 9999 and `date + timedelta` past `date.max` raises OverflowError
  (`DateRanges.Iterate`, `DateRanges.GetItem`); no export comes near it.
- Boolean keys: Python's `True == 1` and `hash(True) == hash(1)`, so a
  boolean and the number 1 (or `False` and 0) are one dict key. In the
  model `Bool(true)` and `Num(1)` are distinct keys of the counters
  (`Counters.Bump`), of the API's game tables and of its `in` tests.
  Authors, chat ids and game titles in an export are never booleans.
- API chats: a `ChatIn` carries the chat's own record (`info`) and the
  messages the loop walks as two independent fields. The `chat_messages`
  attribute copied from the record (API/creator/__init__.py:148-149) is
  not tied to that list.
