/** The per-chat statistics of tganalyzer/core/analyzer.py (`Chat_stat`):
    the counters a feature selection creates, the time window found by
    binary search, and the fold that feeds every in-window message to the
    counters and in-chat top lists. */
module ChatStats {
  import opened Values
  import opened PyStrings
  import opened StableSort
  import opened Counters
  import opened Creator

  // ------------------------------------------------------------ features

  /** The integer entries of `features` (`top_num_*`). */
  datatype NumFeature =
    | TopSymbolQuantity | TopWordQuantity | TopMessageQuantity
    | TopGsQuantity | TopGsLength | TopGsInEveryChat
    | TopCircQuantity | TopCircLength | TopCircInEveryChat
    | TopPhCallQuantity | TopPhCallLength | TopPhCallInEveryChat
    | TopGrCallQuantity | TopGrCallLength
    | TopPhotoQuantity | TopVideoQuantity | TopVideoLength

  /** The entries of `features` read for their truth value. */
  datatype Flag =
    | ProcSymbols | ProcWords | ProcMessages
    | SymbolsSummary | WordsSummary | MessagesSummary
    | SymbolsPerDay | WordsPerDay | MessagesPerDay
    | SymbolsEachPerson | WordsEachPerson | MessagesEachPerson
    | GsEachPerson | CircsEachPerson | PhCallsEachPerson
    | PhotosSummary | PhotosEachPerson | VideosSummary | VideosEachPerson

  /** The entries of `features` holding a login or `None` (`proc_gs`, ...). */
  datatype Login = ProcGs | ProcCirc | ProcPhCall | ProcGrCall

  /** `features["favourite_sticker"]` when not `None`: `[login, top]`. */
  datatype FavSticker = FavSticker(login: Value, top: int)

  /** The `features` dictionary: the 41 keys, each with the type the code
      uses it at. */
  datatype Features = Features(
    num: NumFeature -> int,
    flag: Flag -> bool,
    login: Login -> Option<Value>,
    favourite: Option<FavSticker>)

  // ------------------------------------------------------------ counters

  /** The dictionaries `Chat_stat` may create. */
  datatype Counter =
    | SymbolSum | SymbolDays | SymbolPeople
    | WordSum | WordDays | WordPeople
    | MessageSum | MessageDays | MessagePeople
    | PhCallSum | PhCallLen | PhCallPeople
    | GrCallSum | GrCallLen
    | GsSum | GsLen | GsPeople
    | CircSum | CircLen | CircPeople
    | FavStick
    | PhotoSum | PhotoPeople
    | VideoSum | VideoLen | VideoPeople

  const AllCounters: seq<Counter> := [
    SymbolSum, SymbolDays, SymbolPeople, WordSum, WordDays, WordPeople,
    MessageSum, MessageDays, MessagePeople, PhCallSum, PhCallLen, PhCallPeople,
    GrCallSum, GrCallLen, GsSum, GsLen, GsPeople, CircSum, CircLen, CircPeople,
    FavStick, PhotoSum, PhotoPeople, VideoSum, VideoLen, VideoPeople]

  /** The in-chat top lists `top_long_*`. */
  datatype LongTop = LongPhCall | LongGs | LongCirc

  const AllLongTops: seq<LongTop> := [LongPhCall, LongGs, LongCirc]

  /** The attribute a counter is stored under. */
  function CounterName(c: Counter): string {
    match c
    case SymbolSum => "symbol_sum"
    case SymbolDays => "symbol_days"
    case SymbolPeople => "symbol_people"
    case WordSum => "word_sum"
    case WordDays => "word_days"
    case WordPeople => "word_people"
    case MessageSum => "message_sum"
    case MessageDays => "message_days"
    case MessagePeople => "message_people"
    case PhCallSum => "ph_call_sum"
    case PhCallLen => "ph_call_len"
    case PhCallPeople => "ph_call_people"
    case GrCallSum => "gr_call_sum"
    case GrCallLen => "gr_call_len"
    case GsSum => "gs_sum"
    case GsLen => "gs_len"
    case GsPeople => "gs_people"
    case CircSum => "circ_sum"
    case CircLen => "circ_len"
    case CircPeople => "circ_people"
    case FavStick => "fav_stick"
    case PhotoSum => "photo_sum"
    case PhotoPeople => "photo_people"
    case VideoSum => "video_sum"
    case VideoLen => "video_len"
    case VideoPeople => "video_people"
  }

  /** Whether `Chat_stat.__init__` creates the counter. */
  predicate Created(f: Features, c: Counter) {
    match c
    case SymbolSum => f.num(TopSymbolQuantity) > 0 || f.flag(ProcSymbols) || f.flag(SymbolsSummary)
    case SymbolDays => f.flag(SymbolsPerDay)
    case SymbolPeople => f.flag(SymbolsEachPerson)
    case WordSum => f.num(TopWordQuantity) > 0 || f.flag(ProcWords) || f.flag(WordsSummary)
    case WordDays => f.flag(WordsPerDay)
    case WordPeople => f.flag(WordsEachPerson)
    case MessageSum => f.num(TopMessageQuantity) > 0 || f.flag(ProcMessages) || f.flag(MessagesSummary)
    case MessageDays => f.flag(MessagesPerDay)
    case MessagePeople => f.flag(MessagesEachPerson)
    case PhCallSum => f.num(TopPhCallQuantity) > 0
    case PhCallLen => f.num(TopPhCallLength) > 0 || f.login(ProcPhCall).Some?
    case PhCallPeople => f.flag(PhCallsEachPerson)
    case GrCallSum => f.num(TopGrCallQuantity) > 0
    case GrCallLen => f.num(TopGrCallLength) > 0 || f.login(ProcGrCall).Some?
    case GsSum => f.num(TopGsQuantity) > 0
    case GsLen => f.num(TopGsLength) > 0 || f.login(ProcGs).Some?
    case GsPeople => f.flag(GsEachPerson)
    case CircSum => f.num(TopCircQuantity) > 0
    case CircLen => f.num(TopCircLength) > 0 || f.login(ProcCirc).Some?
    case CircPeople => f.flag(CircsEachPerson)
    case FavStick => f.favourite.Some?
    case PhotoSum => f.num(TopPhotoQuantity) > 0 || f.flag(PhotosSummary)
    case PhotoPeople => f.flag(PhotosEachPerson)
    case VideoSum => f.num(TopVideoQuantity) > 0 || f.flag(VideosSummary)
    case VideoLen => f.num(TopVideoLength) > 0
    case VideoPeople => f.flag(VideosEachPerson)
  }

  /** The feature test of the counter's update in the message loop. It is
      the creation test for every counter but `video_sum`, whose loop test
      reads `top_num_video_quantity` for its truth value. */
  predicate LoopGuard(f: Features, c: Counter) {
    if c == VideoSum then f.num(TopVideoQuantity) != 0 || f.flag(VideosSummary) else Created(f, c)
  }

  /** The message type a counter is restricted to, if any. */
  function KindFilter(c: Counter): Option<MsgType> {
    match c
    case PhCallSum => Some(SingleCall)
    case PhCallLen => Some(SingleCall)
    case PhCallPeople => Some(SingleCall)
    case GrCallSum => Some(GroupCall)
    case GrCallLen => Some(GroupCall)
    case GsSum => Some(VoiceMessage)
    case GsLen => Some(VoiceMessage)
    case GsPeople => Some(VoiceMessage)
    case CircSum => Some(VideoMessage)
    case CircLen => Some(VideoMessage)
    case CircPeople => Some(VideoMessage)
    case FavStick => Some(Sticker)
    case PhotoSum => Some(Photo)
    case PhotoPeople => Some(Photo)
    case VideoSum => Some(VideoFile)
    case VideoLen => Some(VideoFile)
    case VideoPeople => Some(VideoFile)
    case _ => None
  }

  /** A sticker with an emoji, sent by the login of `favourite_sticker`. */
  predicate FavouriteMatch(f: Features, m: Message) {
    f.favourite.Some? && m.stickerEmoji.Some? && m.stickerEmoji.value != Null
    && m.author == f.favourite.value.login
  }

  /** Whether the message loop updates counter `c` for message `m`. */
  predicate Applies(f: Features, c: Counter, m: Message) {
    && LoopGuard(f, c)
    && (KindFilter(c).Some? ==> m.kind == KindFilter(c).value)
    && (c == FavStick ==> FavouriteMatch(f, m))
  }

  /** The calendar day of a send time (`send_time.date()`), with times in
      seconds. */
  function Day(t: int): int {
    t / 86400
  }

  /** The key a counter is bumped at: the day for the `*_days` counters,
      the emoji for `fav_stick`, the author otherwise. */
  function KeyOf(c: Counter, m: Message): Value {
    match c
    case SymbolDays => Num(Day(m.sendTime))
    case WordDays => Num(Day(m.sendTime))
    case MessageDays => Num(Day(m.sendTime))
    case FavStick => m.stickerEmoji.GetOr(Null)
    case _ => m.author
  }

  /** A duration as `+=` adds it to an `int`. */
  function DurationAmount(d: Option<Value>): (r: Result<int>)
    ensures r.Ok? <==> d.Some? && (d.value.Num? || d.value.Bool?)
  {
    match d
    case None => Err(MissingAttribute("duration"))
    case Some(v) =>
      match v
      case Num(n) => Ok(n)
      case Bool(b) => Ok(if b then 1 else 0)
      case _ => Err(WrongType("duration"))
  }

  /** The counters that add a duration. */
  predicate AddsDuration(c: Counter) {
    c in {PhCallLen, GrCallLen, GsLen, CircLen, VideoLen}
  }

  /** What a message adds to a counter: its symbol count, its word count,
      its duration, or 1. */
  function Amount(c: Counter, m: Message): (r: Result<int>)
    ensures !AddsDuration(c) ==> r.Ok?
  {
    match c
    case SymbolSum => Ok(SymbolCount(m.text))
    case SymbolDays => Ok(SymbolCount(m.text))
    case SymbolPeople => Ok(SymbolCount(m.text))
    case WordSum => Ok(WordCount(m.text))
    case WordDays => Ok(WordCount(m.text))
    case WordPeople => Ok(WordCount(m.text))
    case PhCallLen => DurationAmount(m.duration)
    case GrCallLen => DurationAmount(m.duration)
    case GsLen => DurationAmount(m.duration)
    case CircLen => DurationAmount(m.duration)
    case VideoLen => DurationAmount(m.duration)
    case _ => Ok(1)
  }

  function AmountOr0(c: Counter, m: Message): int {
    var a := Amount(c, m);
    if a.Ok? then a.value else 0
  }

  /** The feature giving an in-chat top list its size. */
  function TopSize(t: LongTop): NumFeature {
    match t
    case LongPhCall => TopPhCallInEveryChat
    case LongGs => TopGsInEveryChat
    case LongCirc => TopCircInEveryChat
  }

  /** The message type an in-chat top list ranks. */
  function TopKind(t: LongTop): MsgType {
    match t
    case LongPhCall => SingleCall
    case LongGs => VoiceMessage
    case LongCirc => VideoMessage
  }

  predicate TopCreated(f: Features, t: LongTop) {
    f.num(TopSize(t)) > 0
  }

  predicate TopApplies(f: Features, t: LongTop, m: Message) {
    TopCreated(f, t) && m.kind == TopKind(t)
  }

  function DurationOr0(m: Message): int {
    var d := DurationAmount(m.duration);
    if d.Ok? then d.value else 0
  }

  /** The attributes of a `Chat_stat`: the counters and top lists that were
      created, and nothing else. */
  datatype Stats = Stats(counts: map<Counter, map<Value, int>>, tops: map<LongTop, seq<Entry<Value>>>)

  lemma AllListed()
    ensures forall c :: c in AllCounters
    ensures forall t :: t in AllLongTops
  {
    forall c ensures c in AllCounters { CounterListed(c); }
    forall t ensures t in AllLongTops { TopListed(t); }
  }

  lemma TopListed(t: LongTop)
    ensures t in AllLongTops
  {
  }

  lemma CounterListed(c: Counter)
    ensures c in AllCounters
  {
  }

  /** The state after `__init__`'s creation tests: empty dicts and lists. */
  function InitStats(f: Features): (st: Stats)
    ensures forall c :: c in st.counts <==> Created(f, c)
    ensures forall t :: t in st.tops <==> TopCreated(f, t)
    ensures forall c :: c in st.counts ==> st.counts[c] == map[]
    ensures forall t :: t in st.tops ==> st.tops[t] == []
  {
    AllListed();
    Stats(map c | c in AllCounters && Created(f, c) :: map[],
          map t | t in AllLongTops && TopCreated(f, t) :: [])
  }

  // ------------------------------------------------------ one message

  /** One `if` block of the message loop. */
  datatype Update = Count(c: Counter) | Long(t: LongTop)

  /** One block: `quan_counter` on the counter, or `top_counter` on the top
      list. Using an attribute that was never created is an AttributeError. */
  function ApplyUpdate(f: Features, st: Stats, m: Message, u: Update): Result<Stats> {
    match u
    case Count(c) =>
      if !Applies(f, c, m) then Ok(st)
      else if c !in st.counts then Err(MissingAttribute(CounterName(c)))
      else
        var n :- Amount(c, m);
        Ok(st.(counts := st.counts[c := Bump(st.counts[c], KeyOf(c, m), n)]))
    case Long(t) =>
      if !TopApplies(f, t, m) then Ok(st)
      else if t !in st.tops then Err(MissingAttribute("top_long"))
      else
        var d :- DurationAmount(m.duration);
        Ok(st.(tops := st.tops[t := TopStep(st.tops[t], Entry(m.author, d), f.num(TopSize(t)))]))
  }

  /** The number of blocks in the message loop. */
  const BlockCount: nat := 29

  /** The `k`-th block of the message loop, in the source's order. */
  function UpdateAt(k: nat): Update {
    match k
    case 0 => Count(SymbolSum)
    case 1 => Count(SymbolDays)
    case 2 => Count(SymbolPeople)
    case 3 => Count(WordSum)
    case 4 => Count(WordDays)
    case 5 => Count(WordPeople)
    case 6 => Count(MessageSum)
    case 7 => Count(MessageDays)
    case 8 => Count(MessagePeople)
    case 9 => Count(PhCallSum)
    case 10 => Count(PhCallLen)
    case 11 => Long(LongPhCall)
    case 12 => Count(PhCallPeople)
    case 13 => Count(GrCallSum)
    case 14 => Count(GrCallLen)
    case 15 => Count(GsSum)
    case 16 => Count(GsLen)
    case 17 => Long(LongGs)
    case 18 => Count(GsPeople)
    case 19 => Count(CircSum)
    case 20 => Count(CircLen)
    case 21 => Long(LongCirc)
    case 22 => Count(CircPeople)
    case 23 => Count(FavStick)
    case 24 => Count(PhotoSum)
    case 25 => Count(PhotoPeople)
    case 26 => Count(VideoSum)
    case 27 => Count(VideoLen)
    case _ => Count(VideoPeople)
  }

  /** The position of a block in the message loop. */
  function Rank(u: Update): (k: nat)
    ensures k < BlockCount
  {
    match u
    case Count(c) =>
      (match c
       case SymbolSum => 0 case SymbolDays => 1 case SymbolPeople => 2
       case WordSum => 3 case WordDays => 4 case WordPeople => 5
       case MessageSum => 6 case MessageDays => 7 case MessagePeople => 8
       case PhCallSum => 9 case PhCallLen => 10 case PhCallPeople => 12
       case GrCallSum => 13 case GrCallLen => 14
       case GsSum => 15 case GsLen => 16 case GsPeople => 18
       case CircSum => 19 case CircLen => 20 case CircPeople => 22
       case FavStick => 23 case PhotoSum => 24 case PhotoPeople => 25
       case VideoSum => 26 case VideoLen => 27 case VideoPeople => 28)
    case Long(t) =>
      (match t case LongPhCall => 11 case LongGs => 17 case LongCirc => 21)
  }

  /** Every block occurs exactly once in the loop. */
  lemma RankOfUpdateAt(k: nat)
    requires k < BlockCount
    ensures Rank(UpdateAt(k)) == k
  {
  }

  lemma UpdateAtRank(u: Update)
    ensures UpdateAt(Rank(u)) == u
  {
  }

  /** The blocks from the `k`-th on. */
  function ApplyFrom(f: Features, st: Stats, m: Message, k: nat): Result<Stats>
    decreases BlockCount - k
  {
    if k >= BlockCount then Ok(st)
    else
      var st1 :- ApplyUpdate(f, st, m, UpdateAt(k));
      ApplyFrom(f, st1, m, k + 1)
  }

  /** The body of the message loop. */
  function MessageStep(f: Features, st: Stats, m: Message): Result<Stats> {
    ApplyFrom(f, st, m, 0)
  }

  /** The counter after message `m`, if the loop updates it. */
  function CountAfter(f: Features, c: Counter, m: Message, cm: map<Value, int>): map<Value, int> {
    if Applies(f, c, m) then Bump(cm, KeyOf(c, m), AmountOr0(c, m)) else cm
  }

  /** The top list after message `m`, if the loop updates it. */
  function TopAfter(f: Features, t: LongTop, m: Message, l: seq<Entry<Value>>): seq<Entry<Value>> {
    if TopApplies(f, t, m) then TopStep(l, Entry(m.author, DurationOr0(m)), f.num(TopSize(t))) else l
  }

  /** One block touches only its own counter or top list. */
  lemma ApplyUpdateEffect(f: Features, st: Stats, m: Message, u: Update, st1: Stats)
    requires ApplyUpdate(f, st, m, u) == Ok(st1)
    ensures st1.counts.Keys == st.counts.Keys && st1.tops.Keys == st.tops.Keys
    ensures forall c :: c in st.counts ==>
      st1.counts[c] == if u == Count(c) then CountAfter(f, c, m, st.counts[c]) else st.counts[c]
    ensures forall t :: t in st.tops ==>
      st1.tops[t] == if u == Long(t) then TopAfter(f, t, m, st.tops[t]) else st.tops[t]
  {
  }

  /** Running the blocks from the `k`-th on touches each counter and top
      list whose block comes at or after `k` once, and keeps the set of
      attributes. */
  lemma {:induction false} ApplyFromEffect(f: Features, st: Stats, m: Message, k: nat, st': Stats)
    requires ApplyFrom(f, st, m, k) == Ok(st')
    ensures st'.counts.Keys == st.counts.Keys && st'.tops.Keys == st.tops.Keys
    ensures forall c :: c in st.counts ==>
      st'.counts[c] == if Rank(Count(c)) >= k then CountAfter(f, c, m, st.counts[c]) else st.counts[c]
    ensures forall t :: t in st.tops ==>
      st'.tops[t] == if Rank(Long(t)) >= k then TopAfter(f, t, m, st.tops[t]) else st.tops[t]
    decreases BlockCount - k
  {
    if k < BlockCount {
      var u := UpdateAt(k);
      RankOfUpdateAt(k);
      var st1 := ApplyUpdate(f, st, m, u).value;
      assert ApplyUpdate(f, st, m, u).Ok? && ApplyFrom(f, st1, m, k + 1) == Ok(st');
      ApplyUpdateEffect(f, st, m, u, st1);
      ApplyFromEffect(f, st1, m, k + 1, st');
      forall c | c in st.counts ensures (u == Count(c)) == (Rank(Count(c)) == k) {
        UpdateAtRank(Count(c));
      }
      forall t | t in st.tops ensures (u == Long(t)) == (Rank(Long(t)) == k) {
        UpdateAtRank(Long(t));
      }
      EffectStep(f, st, m, k, u, st1, st');
    }
  }

  /** The `k`-th block followed by the later ones. */
  lemma EffectStep(f: Features, st: Stats, m: Message, k: nat, u: Update, st1: Stats, st': Stats)
    requires st1.counts.Keys == st.counts.Keys && st1.tops.Keys == st.tops.Keys
    requires forall c :: c in st.counts ==>
      st1.counts[c] == if u == Count(c) then CountAfter(f, c, m, st.counts[c]) else st.counts[c]
    requires forall t :: t in st.tops ==>
      st1.tops[t] == if u == Long(t) then TopAfter(f, t, m, st.tops[t]) else st.tops[t]
    requires st'.counts.Keys == st1.counts.Keys && st'.tops.Keys == st1.tops.Keys
    requires forall c :: c in st1.counts ==>
      st'.counts[c] == if Rank(Count(c)) >= k + 1 then CountAfter(f, c, m, st1.counts[c]) else st1.counts[c]
    requires forall t :: t in st1.tops ==>
      st'.tops[t] == if Rank(Long(t)) >= k + 1 then TopAfter(f, t, m, st1.tops[t]) else st1.tops[t]
    requires forall c :: c in st.counts ==> (u == Count(c)) == (Rank(Count(c)) == k)
    requires forall t :: t in st.tops ==> (u == Long(t)) == (Rank(Long(t)) == k)
    ensures st'.counts.Keys == st.counts.Keys && st'.tops.Keys == st.tops.Keys
    ensures forall c :: c in st.counts ==>
      st'.counts[c] == if Rank(Count(c)) >= k then CountAfter(f, c, m, st.counts[c]) else st.counts[c]
    ensures forall t :: t in st.tops ==>
      st'.tops[t] == if Rank(Long(t)) >= k then TopAfter(f, t, m, st.tops[t]) else st.tops[t]
  {
  }

  /** The effect of one message: every counter the loop updates for it is
      bumped at the message's key by the message's amount, every in-chat
      top list offered the message, and nothing else changes. */
  lemma MessageStepEffect(f: Features, st: Stats, m: Message)
    requires MessageStep(f, st, m).Ok?
    ensures var st' := MessageStep(f, st, m).value;
      && st'.counts.Keys == st.counts.Keys && st'.tops.Keys == st.tops.Keys
      && (forall c :: c in st.counts ==> st'.counts[c] == CountAfter(f, c, m, st.counts[c]))
      && (forall t :: t in st.tops ==> st'.tops[t] == TopAfter(f, t, m, st.tops[t]))
  {
    ApplyFromEffect(f, st, m, 0, MessageStep(f, st, m).value);
  }

  /** The error a block raises for message `m`, once the created
      attributes are in place, or None. */
  function UpdateError(f: Features, m: Message, u: Update): Option<Error> {
    match u
    case Count(c) =>
      if !Applies(f, c, m) then None
      else if !Created(f, c) then Some(MissingAttribute(CounterName(c)))
      else if Amount(c, m).Err? then Some(Amount(c, m).error)
      else None
    case Long(t) =>
      if TopApplies(f, t, m) && DurationAmount(m.duration).Err? then Some(DurationAmount(m.duration).error)
      else None
  }

  /** The message loop body runs without error. */
  ghost predicate MessageOk(f: Features, m: Message) {
    forall u :: UpdateError(f, m, u).None?
  }

  /** The attributes are exactly the created ones. */
  ghost predicate HasCreated(f: Features, st: Stats) {
    (forall c :: c in st.counts <==> Created(f, c)) && (forall t :: t in st.tops <==> TopCreated(f, t))
  }

  lemma {:induction false} ApplyFromOk(f: Features, st: Stats, m: Message, k: nat)
    requires HasCreated(f, st)
    ensures ApplyFrom(f, st, m, k).Ok? <==> forall u :: Rank(u) >= k ==> UpdateError(f, m, u).None?
    ensures ApplyFrom(f, st, m, k).Ok? ==> HasCreated(f, ApplyFrom(f, st, m, k).value)
    decreases BlockCount - k
  {
    if k < BlockCount {
      var u := UpdateAt(k);
      RankOfUpdateAt(k);
      var r := ApplyUpdate(f, st, m, u);
      assert r.Ok? <==> UpdateError(f, m, u).None?;
      forall v | Rank(v) == k ensures v == u { UpdateAtRank(v); }
      if r.Ok? {
        ApplyFromOk(f, r.value, m, k + 1);
      }
    }
  }

  /** The first failing block, in the source's order, decides the error. */
  lemma {:induction false} ApplyFromFirstError(f: Features, st: Stats, m: Message, k: nat, n: nat)
    requires HasCreated(f, st) && k <= n < BlockCount
    requires forall u :: k <= Rank(u) < n ==> UpdateError(f, m, u).None?
    requires UpdateError(f, m, UpdateAt(n)).Some?
    ensures ApplyFrom(f, st, m, k) == Err(UpdateError(f, m, UpdateAt(n)).value)
    decreases n - k
  {
    var u := UpdateAt(k);
    RankOfUpdateAt(k);
    if k < n {
      var r := ApplyUpdate(f, st, m, u);
      assert r.Ok?;
      ApplyFromOk(f, st, m, k);
      ApplyFromOk(f, r.value, m, k + 1);
      ApplyFromFirstError(f, r.value, m, k + 1, n);
    }
  }

  // ------------------------------------------------------------ window

  /** `bisect_left` on the send times: CPython's halving loop written as a
      recursion on the interval `lo..hi`. */
  function LowerBound(ms: seq<Message>, x: int, lo: nat, hi: nat): (r: nat)
    requires lo <= hi <= |ms|
    ensures lo <= r <= hi
    decreases hi - lo
  {
    if lo >= hi then lo
    else
      var mid := (lo + hi) / 2;
      if ms[mid].sendTime < x then LowerBound(ms, x, mid + 1, hi) else LowerBound(ms, x, lo, mid)
  }

  /** `bisect_right` on the send times. */
  function UpperBound(ms: seq<Message>, x: int, lo: nat, hi: nat): (r: nat)
    requires lo <= hi <= |ms|
    ensures lo <= r <= hi
    decreases hi - lo
  {
    if lo >= hi then lo
    else
      var mid := (lo + hi) / 2;
      if x < ms[mid].sendTime then UpperBound(ms, x, lo, mid) else UpperBound(ms, x, mid + 1, hi)
  }

  method BisectLeft(ms: seq<Message>, x: int) returns (r: nat)
    ensures r == LowerBound(ms, x, 0, |ms|)
  {
    var lo, hi := 0, |ms|;
    while lo < hi
      invariant 0 <= lo <= hi <= |ms|
      invariant LowerBound(ms, x, lo, hi) == LowerBound(ms, x, 0, |ms|)
      decreases hi - lo
    {
      var mid := (lo + hi) / 2;
      if ms[mid].sendTime < x { lo := mid + 1; } else { hi := mid; }
    }
    return lo;
  }

  method BisectRight(ms: seq<Message>, x: int) returns (r: nat)
    ensures r == UpperBound(ms, x, 0, |ms|)
  {
    var lo, hi := 0, |ms|;
    while lo < hi
      invariant 0 <= lo <= hi <= |ms|
      invariant UpperBound(ms, x, lo, hi) == UpperBound(ms, x, 0, |ms|)
      decreases hi - lo
    {
      var mid := (lo + hi) / 2;
      if x < ms[mid].sendTime { hi := mid; } else { lo := mid + 1; }
    }
    return lo;
  }

  /** Send times never decrease: the order of an export. */
  predicate SortedByTime(ms: seq<Message>) {
    forall i, j :: 0 <= i < j < |ms| ==> ms[i].sendTime <= ms[j].sendTime
  }

  lemma {:induction false} LowerBoundSorted(ms: seq<Message>, x: int, lo: nat, hi: nat)
    requires lo <= hi <= |ms| && SortedByTime(ms)
    requires forall i :: 0 <= i < lo ==> ms[i].sendTime < x
    requires forall i :: hi <= i < |ms| ==> ms[i].sendTime >= x
    ensures forall i :: 0 <= i < |ms| ==> (i < LowerBound(ms, x, lo, hi) <==> ms[i].sendTime < x)
    decreases hi - lo
  {
    if lo < hi {
      var mid := (lo + hi) / 2;
      if ms[mid].sendTime < x {
        LowerBoundSorted(ms, x, mid + 1, hi);
      } else {
        LowerBoundSorted(ms, x, lo, mid);
      }
    }
  }

  lemma {:induction false} UpperBoundSorted(ms: seq<Message>, x: int, lo: nat, hi: nat)
    requires lo <= hi <= |ms| && SortedByTime(ms)
    requires forall i :: 0 <= i < lo ==> ms[i].sendTime <= x
    requires forall i :: hi <= i < |ms| ==> ms[i].sendTime > x
    ensures forall i :: 0 <= i < |ms| ==> (i < UpperBound(ms, x, lo, hi) <==> ms[i].sendTime <= x)
    decreases hi - lo
  {
    if lo < hi {
      var mid := (lo + hi) / 2;
      if x < ms[mid].sendTime {
        UpperBoundSorted(ms, x, lo, mid);
      } else {
        UpperBoundSorted(ms, x, mid + 1, hi);
      }
    }
  }

  /** `range(start_mes, end_mes)` over the messages. */
  function Window(ms: seq<Message>, gapStart: int, gapEnd: int): seq<Message> {
    var s, e := LowerBound(ms, gapStart, 0, |ms|), UpperBound(ms, gapEnd, 0, |ms|);
    if s <= e then ms[s..e] else []
  }

  /** The messages whose send time lies in `gapStart..gapEnd`, in order:
      the reference the window is checked against. */
  function InGap(ms: seq<Message>, gapStart: int, gapEnd: int): seq<Message>
    decreases |ms|
  {
    if ms == [] then []
    else
      var init := InGap(ms[..|ms| - 1], gapStart, gapEnd);
      var m := ms[|ms| - 1];
      if gapStart <= m.sendTime <= gapEnd then init + [m] else init
  }

  lemma {:induction false} InGapRange(ms: seq<Message>, gapStart: int, gapEnd: int, s: nat, e: nat, n: nat)
    requires s <= e <= |ms| && n <= |ms|
    requires forall i :: 0 <= i < |ms| ==> (gapStart <= ms[i].sendTime <= gapEnd <==> s <= i < e)
    ensures InGap(ms[..n], gapStart, gapEnd) == ms[if s < n then s else n..if e < n then e else n]
    decreases n
  {
    if n > 0 {
      InGapRange(ms, gapStart, gapEnd, s, e, n - 1);
      assert ms[..n][..n - 1] == ms[..n - 1];
      assert ms[..n][n - 1] == ms[n - 1];
      if s <= n - 1 < e {
        assert ms[s..n - 1] + [ms[n - 1]] == ms[s..n];
      }
    }
  }

  lemma {:induction false} InGapNone(ms: seq<Message>, gapStart: int, gapEnd: int)
    requires forall i :: 0 <= i < |ms| ==> !(gapStart <= ms[i].sendTime <= gapEnd)
    ensures InGap(ms, gapStart, gapEnd) == []
    decreases |ms|
  {
    if ms != [] {
      InGapNone(ms[..|ms| - 1], gapStart, gapEnd);
    }
  }

  /** On time-sorted messages the two binary searches select exactly the
      messages sent within the gap, bounds included; in particular the
      window is empty when the gap starts after it ends. */
  lemma WindowIsGap(ms: seq<Message>, gapStart: int, gapEnd: int)
    requires SortedByTime(ms)
    ensures Window(ms, gapStart, gapEnd) == InGap(ms, gapStart, gapEnd)
    ensures gapStart > gapEnd ==> Window(ms, gapStart, gapEnd) == []
  {
    var s, e := LowerBound(ms, gapStart, 0, |ms|), UpperBound(ms, gapEnd, 0, |ms|);
    LowerBoundSorted(ms, gapStart, 0, |ms|);
    UpperBoundSorted(ms, gapEnd, 0, |ms|);
    if s <= e {
      InGapRange(ms, gapStart, gapEnd, s, e, |ms|);
      assert ms[..|ms|] == ms;
    } else {
      InGapNone(ms, gapStart, gapEnd);
    }
    if gapStart > gapEnd {
      InGapNone(ms, gapStart, gapEnd);
    }
  }

  // -------------------------------------------------------- the fold

  /** The message loop over `w`, from the state `st0`. */
  function Fold(f: Features, st0: Stats, w: seq<Message>): Result<Stats>
    decreases |w|
  {
    if w == [] then Ok(st0)
    else
      var st :- Fold(f, st0, w[..|w| - 1]);
      MessageStep(f, st, w[|w| - 1])
  }

  /** `Chat_stat(features, chat, time_gap)`. */
  function ChatStatOf(f: Features, ms: seq<Message>, gapStart: int, gapEnd: int): Result<Stats> {
    Fold(f, InitStats(f), Window(ms, gapStart, gapEnd))
  }

  lemma {:induction false} FoldPrefixError(f: Features, st0: Stats, w: seq<Message>, i: nat)
    requires i <= |w| && Fold(f, st0, w[..i]).Err?
    ensures Fold(f, st0, w) == Fold(f, st0, w[..i])
    decreases |w| - i
  {
    if i < |w| {
      assert w[..i + 1][..i] == w[..i];
      FoldPrefixError(f, st0, w, i + 1);
    } else {
      assert w[..i] == w;
    }
  }

  /** One more message folded: the fold of the longer prefix is that
      message's step, and an error there is the error of the whole fold. */
  lemma FoldSnoc(f: Features, st0: Stats, w: seq<Message>, i: nat, st: Stats, next: Result<Stats>)
    requires i < |w| && Fold(f, st0, w[..i]) == Ok(st) && next == MessageStep(f, st, w[i])
    ensures Fold(f, st0, w[..i + 1]) == next
    ensures next.Err? ==> Fold(f, st0, w) == next
  {
    assert w[..i + 1][..i] == w[..i];
    if next.Err? {
      FoldPrefixError(f, st0, w, i + 1);
    }
  }

  /** The message loop `for i in range(start, end)`, from the state `st0`. */
  method FoldRange(f: Features, st0: Stats, ms: seq<Message>, s: nat, e: nat) returns (r: Result<Stats>)
    requires s <= e <= |ms|
    ensures r == Fold(f, st0, ms[s..e])
  {
    ghost var w := ms[s..e];
    var st := st0;
    var i := s;
    while i < e
      invariant s <= i <= e
      invariant Fold(f, st0, w[..i - s]) == Ok(st)
      decreases e - i
    {
      assert w[i - s] == ms[i];
      var next := MessageStep(f, st, ms[i]);
      FoldSnoc(f, st0, w, i - s, st, next);
      if next.Err? {
        return next;
      }
      st := next.value;
      i := i + 1;
    }
    assert w[..i - s] == w;
    return Ok(st);
  }

  /** `Chat_stat.__init__`: the creation tests, both binary searches, then
      one pass over the window. */
  method AnalyseChat(f: Features, ms: seq<Message>, gapStart: int, gapEnd: int) returns (r: Result<Stats>)
    ensures r == ChatStatOf(f, ms, gapStart, gapEnd)
  {
    var st := InitStats(f);
    var s := BisectLeft(ms, gapStart);
    var e := BisectRight(ms, gapEnd);
    if e < s {
      assert Window(ms, gapStart, gapEnd) == [];
      return Ok(st);
    }
    r := FoldRange(f, st, ms, s, e);
  }

  // ------------------------------------------------ what the fold computes

  /** The sum of what the messages of `w` add to counter `c`. */
  function Total(f: Features, c: Counter, w: seq<Message>): int
    decreases |w|
  {
    if w == [] then 0
    else
      var m := w[|w| - 1];
      Total(f, c, w[..|w| - 1]) + (if Applies(f, c, m) then AmountOr0(c, m) else 0)
  }

  /** The same sum, restricted to the messages keyed `k`. */
  function KeyTotal(f: Features, c: Counter, w: seq<Message>, k: Value): int
    decreases |w|
  {
    if w == [] then 0
    else
      var m := w[|w| - 1];
      KeyTotal(f, c, w[..|w| - 1], k) + (if Applies(f, c, m) && KeyOf(c, m) == k then AmountOr0(c, m) else 0)
  }

  /** Some message of `w` updates counter `c` at key `k`. */
  predicate KeyUsed(f: Features, c: Counter, w: seq<Message>, k: Value)
    decreases |w|
  {
    if w == [] then false
    else
      var m := w[|w| - 1];
      KeyUsed(f, c, w[..|w| - 1], k) || (Applies(f, c, m) && KeyOf(c, m) == k)
  }

  /** The entries an in-chat top list is offered, in message order. */
  function LongOffers(f: Features, t: LongTop, w: seq<Message>): seq<Entry<Value>>
    decreases |w|
  {
    if w == [] then []
    else
      var m := w[|w| - 1];
      LongOffers(f, t, w[..|w| - 1]) + (if TopApplies(f, t, m) then [Entry(m.author, DurationOr0(m))] else [])
  }

  /** The fold keeps exactly the created attributes. */
  lemma {:induction false} FoldKeepsAttributes(f: Features, w: seq<Message>)
    requires Fold(f, InitStats(f), w).Ok?
    ensures HasCreated(f, Fold(f, InitStats(f), w).value)
    decreases |w|
  {
    if w != [] {
      FoldKeepsAttributes(f, w[..|w| - 1]);
      ApplyFromOk(f, Fold(f, InitStats(f), w[..|w| - 1]).value, w[|w| - 1], 0);
    }
  }

  /** One more message: a counter's new total, per-key totals and key set
      follow the message's own contribution. */
  lemma SumSnoc(f: Features, c: Counter, w: seq<Message>, pcm: map<Value, int>)
    requires w != [] && MapSum(pcm) == Total(f, c, w[..|w| - 1])
    ensures MapSum(CountAfter(f, c, w[|w| - 1], pcm)) == Total(f, c, w)
  {
    var m := w[|w| - 1];
    if Applies(f, c, m) {
      MapSumBump(pcm, KeyOf(c, m), AmountOr0(c, m));
    }
  }

  lemma KeyTotalSnoc(f: Features, c: Counter, w: seq<Message>, pcm: map<Value, int>)
    requires w != [] && forall k :: Get(pcm, k) == KeyTotal(f, c, w[..|w| - 1], k)
    ensures forall k :: Get(CountAfter(f, c, w[|w| - 1], pcm), k) == KeyTotal(f, c, w, k)
  {
    var m := w[|w| - 1];
    forall k ensures Get(CountAfter(f, c, m, pcm), k) == KeyTotal(f, c, w, k) {
      assert Get(pcm, k) == KeyTotal(f, c, w[..|w| - 1], k);
      assert KeyTotal(f, c, w, k) == KeyTotal(f, c, w[..|w| - 1], k)
        + (if Applies(f, c, m) && KeyOf(c, m) == k then AmountOr0(c, m) else 0);
      if Applies(f, c, m) && KeyOf(c, m) != k {
        assert k in Bump(pcm, KeyOf(c, m), AmountOr0(c, m)) <==> k in pcm;
      }
    }
  }

  lemma KeySetSnoc(f: Features, c: Counter, w: seq<Message>, pcm: map<Value, int>)
    requires w != [] && forall k :: k in pcm <==> KeyUsed(f, c, w[..|w| - 1], k)
    ensures forall k :: k in CountAfter(f, c, w[|w| - 1], pcm) <==> KeyUsed(f, c, w, k)
  {
  }

  /** Every created counter holds, at each key, the sum of what the
      messages with that key added, has exactly the keys some message
      used, and its values sum to the counter's total. */
  lemma {:induction false} FoldCounts(f: Features, w: seq<Message>, c: Counter)
    requires Fold(f, InitStats(f), w).Ok? && Created(f, c)
    ensures c in Fold(f, InitStats(f), w).value.counts
    ensures var cm := Fold(f, InitStats(f), w).value.counts[c];
      && MapSum(cm) == Total(f, c, w)
      && (forall k :: Get(cm, k) == KeyTotal(f, c, w, k))
      && (forall k :: k in cm <==> KeyUsed(f, c, w, k))
    decreases |w|
  {
    FoldKeepsAttributes(f, w);
    if w == [] {
      MapSumEmpty(Fold(f, InitStats(f), w).value.counts[c]);
    } else {
      var init, m := w[..|w| - 1], w[|w| - 1];
      FoldCounts(f, init, c);
      var prev := Fold(f, InitStats(f), init).value;
      var cur := Fold(f, InitStats(f), w).value;
      assert Ok(cur) == MessageStep(f, prev, m);
      MessageStepEffect(f, prev, m);
      assert cur.counts[c] == CountAfter(f, c, m, prev.counts[c]);
      SumSnoc(f, c, w, prev.counts[c]);
      KeyTotalSnoc(f, c, w, prev.counts[c]);
      KeySetSnoc(f, c, w, prev.counts[c]);
    }
  }

  lemma MapSumEmpty<K>(m: map<K, int>)
    requires m == map[]
    ensures MapSum(m) == 0
  {
  }

  /** Every in-chat top list is `top_counter` folded over its offers. */
  lemma {:induction false} FoldTops(f: Features, w: seq<Message>)
    requires Fold(f, InitStats(f), w).Ok?
    ensures var st := Fold(f, InitStats(f), w).value;
      forall t :: t in st.tops ==> st.tops[t] == TopFold([], LongOffers(f, t, w), f.num(TopSize(t)))
    decreases |w|
  {
    FoldKeepsAttributes(f, w);
    if w != [] {
      var init, m := w[..|w| - 1], w[|w| - 1];
      FoldTops(f, init);
      var prev := Fold(f, InitStats(f), init).value;
      MessageStepEffect(f, prev, m);
      forall t | t in prev.tops
        ensures Fold(f, InitStats(f), w).value.tops[t] == TopFold([], LongOffers(f, t, w), f.num(TopSize(t)))
      {
        if TopApplies(f, t, m) {
          TopFoldAppend([], LongOffers(f, t, init), Entry(m.author, DurationOr0(m)), f.num(TopSize(t)));
        } else {
          assert LongOffers(f, t, w) == LongOffers(f, t, init) + [];
          assert LongOffers(f, t, init) + [] == LongOffers(f, t, init);
        }
      }
    }
  }

  lemma AllOkSnoc(f: Features, w: seq<Message>)
    requires w != []
    ensures var init := w[..|w| - 1];
      (forall i :: 0 <= i < |w| ==> MessageOk(f, w[i])) <==>
      (forall i :: 0 <= i < |init| ==> MessageOk(f, init[i])) && MessageOk(f, w[|w| - 1])
  {
    assert forall i :: 0 <= i < |w| - 1 ==> w[..|w| - 1][i] == w[i];
  }

  /** The window is analysed without error exactly when every message in
      it passes every block: durations that are added are numbers, and no
      block uses a counter that was not created. */
  lemma {:induction false} FoldOk(f: Features, w: seq<Message>)
    ensures Fold(f, InitStats(f), w).Ok? <==> forall i :: 0 <= i < |w| ==> MessageOk(f, w[i])
    decreases |w|
  {
    if w != [] {
      var init, m := w[..|w| - 1], w[|w| - 1];
      FoldOk(f, init);
      AllOkSnoc(f, w);
      if Fold(f, InitStats(f), init).Ok? {
        FoldKeepsAttributes(f, init);
        ApplyFromOk(f, Fold(f, InitStats(f), init).value, m, 0);
      }
    }
  }

  /** Only `video_sum` can be used without having been created, and only
      when `top_num_video_quantity` is negative: its loop test reads the
      number for its truth value but its creation test asks for `> 0`. */
  lemma GuardsMatchCreation(f: Features, c: Counter)
    ensures LoopGuard(f, c) && !Created(f, c) <==>
      c == VideoSum && f.num(TopVideoQuantity) < 0 && !f.flag(VideosSummary)
  {
  }

  /** A message passes every block when each duration it adds is a number
      and `top_num_video_quantity` is not negative. */
  lemma MessageOkWhen(f: Features, m: Message)
    requires f.num(TopVideoQuantity) >= 0 || f.flag(VideosSummary)
    requires (exists c :: Applies(f, c, m) && AddsDuration(c)) || (exists t :: TopApplies(f, t, m))
      ==> DurationAmount(m.duration).Ok?
    ensures MessageOk(f, m)
  {
    forall u ensures UpdateError(f, m, u).None? {
      if u.Count? {
        GuardsMatchCreation(f, u.c);
      }
    }
  }

  /** A video file in the window with `top_num_video_quantity` negative
      and `videos_summary` off: the loop reaches the `video_sum` update,
      which was never created. */
  lemma NegativeVideoQuantity(f: Features, m: Message)
    requires f.num(TopVideoQuantity) < 0 && !f.flag(VideosSummary) && m.kind == VideoFile
    ensures Fold(f, InitStats(f), [m]) == Err(MissingAttribute("video_sum"))
  {
    forall u | Rank(u) < 26 ensures UpdateError(f, m, u).None? {
    }
    ApplyFromFirstError(f, InitStats(f), m, 0, 26);
    assert [m][..0] == [];
    assert Fold(f, InitStats(f), []) == Ok(InitStats(f));
    assert Fold(f, InitStats(f), [m]) == MessageStep(f, InitStats(f), m);
  }

  // ---------------------------------------------------- consequences

  /** Every message of the window counts 1 in `message_sum`, whatever its
      type, so its values add up to the window's length. */
  lemma {:induction false} MessageSumIsWindowLength(f: Features, w: seq<Message>)
    requires Created(f, MessageSum)
    ensures Total(f, MessageSum, w) == |w|
    decreases |w|
  {
    if w != [] { MessageSumIsWindowLength(f, w[..|w| - 1]); }
  }

  /** Two counters updated by the same messages with the same amounts have
      the same total. */
  lemma {:induction false} TotalsAgree(f: Features, c1: Counter, c2: Counter, w: seq<Message>)
    requires forall m :: Applies(f, c1, m) == Applies(f, c2, m) && Amount(c1, m) == Amount(c2, m)
    ensures Total(f, c1, w) == Total(f, c2, w)
    decreases |w|
  {
    if w != [] { TotalsAgree(f, c1, c2, w[..|w| - 1]); }
  }

  /** With its three features on, the symbols counted per author, per day
      and per person add up to the same number; likewise for words. */
  lemma SumsPerDayAndPerson(f: Features, w: seq<Message>)
    requires Created(f, SymbolSum) && Created(f, SymbolDays) && Created(f, SymbolPeople)
    requires Created(f, WordSum) && Created(f, WordDays) && Created(f, WordPeople)
    ensures Total(f, SymbolSum, w) == Total(f, SymbolDays, w) == Total(f, SymbolPeople, w)
    ensures Total(f, WordSum, w) == Total(f, WordDays, w) == Total(f, WordPeople, w)
  {
    TotalsAgree(f, SymbolSum, SymbolDays, w);
    TotalsAgree(f, SymbolSum, SymbolPeople, w);
    TotalsAgree(f, WordSum, WordDays, w);
    TotalsAgree(f, WordSum, WordPeople, w);
  }

  /** The number of messages of type `k` in `w`. */
  function CountKind(w: seq<Message>, k: MsgType): nat
    decreases |w|
  {
    if w == [] then 0
    else CountKind(w[..|w| - 1], k) + (if w[|w| - 1].kind == k then 1 else 0)
  }

  /** A created counter that adds 1 per message of its type totals the
      number of such messages (`gs_sum` the voice messages, `photo_sum`
      the photos, ...). */
  lemma {:induction false} TypedSumCountsKind(f: Features, c: Counter, w: seq<Message>)
    requires Created(f, c) && KindFilter(c).Some? && c != FavStick && !AddsDuration(c)
    ensures Total(f, c, w) == CountKind(w, KindFilter(c).value)
    decreases |w|
  {
    if w != [] { TypedSumCountsKind(f, c, w[..|w| - 1]); }
  }

  /** Each in-chat top list is a top list of its offers. */
  lemma LongTopsAreTop(f: Features, w: seq<Message>, t: LongTop)
    requires Fold(f, InitStats(f), w).Ok? && TopCreated(f, t)
    ensures t in Fold(f, InitStats(f), w).value.tops
    ensures IsTop(Fold(f, InitStats(f), w).value.tops[t], LongOffers(f, t, w), f.num(TopSize(t)))
  {
    FoldKeepsAttributes(f, w);
    FoldTops(f, w);
    TopFoldIsTop(LongOffers(f, t, w), f.num(TopSize(t)));
  }
}
