/** `start_analyses` of tganalyzer/core/analyzer.py: the selected chats are
    analysed one by one and their statistics merged into cross-chat
    rankings, per-chat tables, send/receive splits and sticker totals; the
    enabled features are then collected into `ret_stats`. The plotting
    calls are left out; the data they are handed is part of the result. */
module Analyses {
  import opened Values
  import opened StableSort
  import opened Counters
  import opened Creator
  import opened ChatStats

  // ------------------------------------------------- what each feature fills

  /** The counter a ranking of chats (`top_symbols`, `top_gs_len`, ...)
      sums; None for the three `top_num_*_in_every_chat` features, which
      collect in-chat top lists instead. */
  function CrossSource(n: NumFeature): Option<Counter> {
    match n
    case TopSymbolQuantity => Some(SymbolSum)
    case TopWordQuantity => Some(WordSum)
    case TopMessageQuantity => Some(MessageSum)
    case TopGsQuantity => Some(GsSum)
    case TopGsLength => Some(GsLen)
    case TopCircQuantity => Some(CircSum)
    case TopCircLength => Some(CircLen)
    case TopPhCallQuantity => Some(PhCallSum)
    case TopPhCallLength => Some(PhCallLen)
    case TopGrCallQuantity => Some(GrCallSum)
    case TopGrCallLength => Some(GrCallLen)
    case TopPhotoQuantity => Some(PhotoSum)
    case TopVideoQuantity => Some(VideoSum)
    case TopVideoLength => Some(VideoLen)
    case _ => None
  }

  /** The in-chat top list a `top_num_*_in_every_chat` feature collects. */
  function InChatSource(n: NumFeature): Option<LongTop> {
    match n
    case TopGsInEveryChat => Some(LongGs)
    case TopCircInEveryChat => Some(LongCirc)
    case TopPhCallInEveryChat => Some(LongPhCall)
    case _ => None
  }

  /** How a flag is used: a total per chat name (`quan_*_chats`,
      `*_summary`, for the pie and bar charts), a day series per chat id
      (`*_per_day`, for the date plots) or the per-person counts per chat
      id that are returned. */
  datatype FlagUse = ChatTotal | DaySeries | PersonCounts

  function FlagUseOf(fl: Flag): FlagUse {
    match fl
    case SymbolsPerDay => DaySeries
    case WordsPerDay => DaySeries
    case MessagesPerDay => DaySeries
    case SymbolsEachPerson => PersonCounts
    case WordsEachPerson => PersonCounts
    case MessagesEachPerson => PersonCounts
    case GsEachPerson => PersonCounts
    case CircsEachPerson => PersonCounts
    case PhCallsEachPerson => PersonCounts
    case PhotosEachPerson => PersonCounts
    case VideosEachPerson => PersonCounts
    case _ => ChatTotal
  }

  /** The counter a flag reads. */
  function FlagSource(fl: Flag): Counter {
    match fl
    case ProcSymbols => SymbolSum
    case ProcWords => WordSum
    case ProcMessages => MessageSum
    case SymbolsSummary => SymbolSum
    case WordsSummary => WordSum
    case MessagesSummary => MessageSum
    case SymbolsPerDay => SymbolDays
    case WordsPerDay => WordDays
    case MessagesPerDay => MessageDays
    case SymbolsEachPerson => SymbolPeople
    case WordsEachPerson => WordPeople
    case MessagesEachPerson => MessagePeople
    case GsEachPerson => GsPeople
    case CircsEachPerson => CircPeople
    case PhCallsEachPerson => PhCallPeople
    case PhotosSummary => PhotoSum
    case PhotosEachPerson => PhotoPeople
    case VideosSummary => VideoSum
    case VideosEachPerson => VideoPeople
  }

  /** The duration counter a `proc_*` login splits into sent and received. */
  function LoginSource(l: Login): Counter {
    match l
    case ProcGs => GsLen
    case ProcCirc => CircLen
    case ProcPhCall => PhCallLen
    case ProcGrCall => GrCallLen
  }

  /** Every counter `start_analyses` reads is one `Chat_stat` created. */
  lemma CrossCreated(f: Features, n: NumFeature)
    requires CrossSource(n).Some? && f.num(n) > 0
    ensures Created(f, CrossSource(n).value)
  {
  }

  lemma FlagCreated(f: Features, fl: Flag)
    requires f.flag(fl)
    ensures Created(f, FlagSource(fl))
  {
  }

  lemma LoginCreated(f: Features, l: Login)
    requires f.login(l).Some?
    ensures Created(f, LoginSource(l))
  {
  }

  const AllNumFeatures: seq<NumFeature> := [
    TopSymbolQuantity, TopWordQuantity, TopMessageQuantity,
    TopGsQuantity, TopGsLength, TopGsInEveryChat,
    TopCircQuantity, TopCircLength, TopCircInEveryChat,
    TopPhCallQuantity, TopPhCallLength, TopPhCallInEveryChat,
    TopGrCallQuantity, TopGrCallLength,
    TopPhotoQuantity, TopVideoQuantity, TopVideoLength]

  const AllFlags: seq<Flag> := [
    ProcSymbols, ProcWords, ProcMessages,
    SymbolsSummary, WordsSummary, MessagesSummary,
    SymbolsPerDay, WordsPerDay, MessagesPerDay,
    SymbolsEachPerson, WordsEachPerson, MessagesEachPerson,
    GsEachPerson, CircsEachPerson, PhCallsEachPerson,
    PhotosSummary, PhotosEachPerson, VideosSummary, VideosEachPerson]

  const AllLogins: seq<Login> := [ProcGs, ProcCirc, ProcPhCall, ProcGrCall]

  lemma NumFeatureListed(n: NumFeature)
    ensures n in AllNumFeatures
  {
  }

  lemma FlagListed(fl: Flag)
    ensures fl in AllFlags
  {
  }

  lemma LoginListed(l: Login)
    ensures l in AllLogins
  {
  }

  lemma FeaturesListed()
    ensures forall n :: n in AllNumFeatures
    ensures forall fl :: fl in AllFlags
    ensures forall l :: l in AllLogins
    ensures forall t :: t in AllLongTops
  {
    forall n ensures n in AllNumFeatures { NumFeatureListed(n); }
    forall fl ensures fl in AllFlags { FlagListed(fl); }
    forall l ensures l in AllLogins { LoginListed(l); }
    AllListed();
  }

  // ------------------------------------------------------- the accumulators

  /** `[chat.name, data]`, the pair stored per chat id. */
  datatype Named<T> = Named(name: Value, data: T)

  /** `len_*_chats`: the chat names, what the login sent and what it
      received, one entry per analysed chat. */
  datatype SendRecv = SendRecv(names: seq<Value>, send: seq<int>, recv: seq<int>)

  /** The local variables `start_analyses` creates for the enabled
      features, each family keyed by the feature that creates it. */
  datatype Acc = Acc(
    tops: map<NumFeature, seq<Entry<Value>>>,
    totals: map<Flag, map<Value, int>>,
    perDay: map<Flag, map<Value, Named<map<Value, int>>>>,
    perPerson: map<Flag, map<Value, map<Value, int>>>,
    sendRecv: map<Login, SendRecv>,
    inChat: map<LongTop, map<Value, Named<seq<Entry<Value>>>>>,
    stickers: Option<map<Value, int>>)

  /** The accumulators exist exactly for the enabled features. */
  ghost predicate AccShape(f: Features, acc: Acc) {
    && (forall n :: n in acc.tops <==> CrossSource(n).Some? && f.num(n) > 0)
    && (forall fl :: fl in acc.totals <==> FlagUseOf(fl) == ChatTotal && f.flag(fl))
    && (forall fl :: fl in acc.perDay <==> FlagUseOf(fl) == DaySeries && f.flag(fl))
    && (forall fl :: fl in acc.perPerson <==> FlagUseOf(fl) == PersonCounts && f.flag(fl))
    && (forall l :: l in acc.sendRecv <==> f.login(l).Some?)
    && (forall t :: t in acc.inChat <==> TopCreated(f, t))
    && (acc.stickers.Some? <==> f.favourite.Some?)
  }

  /** The creation tests before the chat loop: empty lists and dicts. */
  function InitAcc(f: Features): (acc: Acc)
    ensures AccShape(f, acc)
    ensures forall n :: n in acc.tops ==> acc.tops[n] == []
    ensures forall fl :: fl in acc.totals ==> acc.totals[fl] == map[]
    ensures forall fl :: fl in acc.perDay ==> acc.perDay[fl] == map[]
    ensures forall fl :: fl in acc.perPerson ==> acc.perPerson[fl] == map[]
    ensures forall l :: l in acc.sendRecv ==> acc.sendRecv[l] == SendRecv([], [], [])
    ensures forall t :: t in acc.inChat ==> acc.inChat[t] == map[]
    ensures acc.stickers.Some? ==> acc.stickers.value == map[]
  {
    FeaturesListed();
    Acc(
      map n | n in AllNumFeatures && CrossSource(n).Some? && f.num(n) > 0 :: [],
      map fl | fl in AllFlags && FlagUseOf(fl) == ChatTotal && f.flag(fl) :: map[],
      map fl | fl in AllFlags && FlagUseOf(fl) == DaySeries && f.flag(fl) :: map[],
      map fl | fl in AllFlags && FlagUseOf(fl) == PersonCounts && f.flag(fl) :: map[],
      map l | l in AllLogins && f.login(l).Some? :: SendRecv([], [], []),
      map t | t in AllLongTops && TopCreated(f, t) :: map[],
      if f.favourite.Some? then Some(map[]) else None)
  }

  // ------------------------------------------------------ merging one chat

  /** A counter of a `Chat_stat`; every one read below was created. */
  function CountsOf(st: Stats, c: Counter): map<Value, int> {
    if c in st.counts then st.counts[c] else map[]
  }

  function LongOf(st: Stats, t: LongTop): seq<Entry<Value>> {
    if t in st.tops then st.tops[t] else []
  }

  function CrossCounts(st: Stats, n: NumFeature): map<Value, int> {
    match CrossSource(n)
    case Some(c) => CountsOf(st, c)
    case None => map[]
  }

  /** The login a `proc_*` feature names. */
  function LoginOf(f: Features, l: Login): Value {
    f.login(l).GetOr(Null)
  }

  /** The chat loop body for one analysed chat, family by family. Each
      block of the loop updates its own accumulator, so the families are
      independent of the order the blocks come in. */
  ghost function MergeStep(f: Features, acc: Acc, c: Chat, st: Stats): Acc {
    Acc(
      RankedAll(f, acc.tops, c, st),
      TotalsAll(acc.totals, c, st),
      PerDayAll(acc.perDay, c, st),
      PerPersonAll(acc.perPerson, c, st),
      SendRecvAll(f, acc.sendRecv, c, st),
      InChatAll(acc.inChat, c, st),
      StickersAfter(acc.stickers, st))
  }

  /** What the ranking blocks leave: every ranking offered the chat. */
  ghost function RankedAll(f: Features, tops: map<NumFeature, seq<Entry<Value>>>, c: Chat, st: Stats): map<NumFeature, seq<Entry<Value>>> {
    map n | n in tops :: TopStep(tops[n], Entry(c.id, MapSum(CrossCounts(st, n))), f.num(n))
  }

  /** `quan_*_chats[chat.name] = sum(...)` and `*_summary[chat.name] = sum(...)`. */
  ghost function TotalsAll(totals: map<Flag, map<Value, int>>, c: Chat, st: Stats): map<Flag, map<Value, int>> {
    map fl | fl in totals :: totals[fl][c.name := MapSum(CountsOf(st, FlagSource(fl)))]
  }

  /** `*_per_day[chat.id] = [chat.name, analysed_chat.*_days]`. */
  ghost function PerDayAll(perDay: map<Flag, map<Value, Named<map<Value, int>>>>, c: Chat, st: Stats): map<Flag, map<Value, Named<map<Value, int>>>> {
    map fl | fl in perDay :: perDay[fl][c.id := Named(c.name, CountsOf(st, FlagSource(fl)))]
  }

  /** `*_per_person[chat.id] = analysed_chat.*_people`. */
  ghost function PerPersonAll(perPerson: map<Flag, map<Value, map<Value, int>>>, c: Chat, st: Stats): map<Flag, map<Value, map<Value, int>>> {
    map fl | fl in perPerson :: perPerson[fl][c.id := CountsOf(st, FlagSource(fl))]
  }

  /** The `len_*_chats` triples, each extended by the chat. */
  ghost function SendRecvAll(f: Features, sendRecv: map<Login, SendRecv>, c: Chat, st: Stats): map<Login, SendRecv> {
    map l | l in sendRecv :: SendRecvAfter(sendRecv[l], c.name, CountsOf(st, LoginSource(l)), LoginOf(f, l))
  }

  /** `len_*_in_chat[chat.id] = [chat.name, analysed_chat.top_long_*]`. */
  ghost function InChatAll(inChat: map<LongTop, map<Value, Named<seq<Entry<Value>>>>>, c: Chat, st: Stats): map<LongTop, map<Value, Named<seq<Entry<Value>>>>> {
    map t | t in inChat :: inChat[t][c.id := Named(c.name, LongOf(st, t))]
  }

  /** `sticker_append(top_fav_stickers, analysed_chat.fav_stick)`. */
  ghost function StickersAfter(stickers: Option<map<Value, int>>, st: Stats): Option<map<Value, int>> {
    match stickers
    case Some(s) => Some(MergeAdd(s, CountsOf(st, FavStick)))
    case None => None
  }

  /** One chat appended to a `len_*_chats` triple: its name, the login's
      total and everybody else's. */
  ghost function SendRecvAfter(sr: SendRecv, name: Value, m: map<Value, int>, login: Value): SendRecv {
    SendRecv(sr.names + [name], sr.send + [Get(m, login)], sr.recv + [MapSum(m) - Get(m, login)])
  }

  /** The `for aut in analysed_chat.*_len.keys()` loop: the login's
      durations on one side, everybody else's on the other. */
  method SplitSendRecv(m: map<Value, int>, login: Value) returns (send: int, recv: int)
    ensures send == Get(m, login)
    ensures send + recv == MapSum(m)
  {
    send, recv := 0, 0;
    var rest := m;
    while rest != map[]
      invariant forall k :: k in rest ==> k in m && rest[k] == m[k]
      invariant send + recv + MapSum(rest) == MapSum(m)
      invariant send + Get(rest, login) == Get(m, login)
      decreases |rest|
    {
      var aut :| aut in rest;
      MapSumRemove(rest, aut);
      if aut == login {
        send := send + rest[aut];
      } else {
        recv := recv + rest[aut];
      }
      rest := rest - {aut};
    }
  }

  /** The blocks for the keys in `done` have run: their entries hold the
      updated value `upd`, the others are still as in `old0`. */
  ghost predicate SoFar<K, V>(old0: map<K, V>, cur: map<K, V>, upd: map<K, V>, done: seq<K>) {
    && cur.Keys == old0.Keys && upd.Keys == old0.Keys
    && forall k :: k in old0 ==> cur[k] == if k in done then upd[k] else old0[k]
  }

  /** Running the block of a key not yet visited extends `done` by it. */
  lemma SoFarStep<K, V>(old0: map<K, V>, cur: map<K, V>, upd: map<K, V>, order: seq<K>, i: nat, next: map<K, V>)
    requires i < |order| && order[i] !in order[..i] && SoFar(old0, cur, upd, order[..i])
    requires next == if order[i] in old0 then cur[order[i] := upd[order[i]]] else cur
    ensures SoFar(old0, next, upd, order[..i + 1])
  {
    assert order[..i + 1] == order[..i] + [order[i]];
  }

  /** Once every key has been visited, the updated map is reached. */
  lemma SoFarAll<K, V>(old0: map<K, V>, cur: map<K, V>, upd: map<K, V>, done: seq<K>)
    requires SoFar(old0, cur, upd, done) && forall k :: k in old0 ==> k in done
    ensures cur == upd
  {
  }

  /** The ranking blocks in the order of the chat loop's body. */
  const CrossOrder: seq<NumFeature> := [
    TopSymbolQuantity, TopWordQuantity, TopMessageQuantity,
    TopGsQuantity, TopGsLength, TopCircQuantity, TopCircLength,
    TopPhCallQuantity, TopPhCallLength, TopGrCallQuantity, TopGrCallLength,
    TopPhotoQuantity, TopVideoQuantity, TopVideoLength]

  lemma CrossOrdered(n: NumFeature)
    ensures CrossSource(n).Some? <==> n in CrossOrder
  {
  }

  lemma CrossOrderDistinct(i: nat)
    requires i < |CrossOrder|
    ensures CrossOrder[i] !in CrossOrder[..i]
  {
  }

  /** The fourteen ranking blocks, one after another in the source: for
      each enabled feature, `top_counter_chats(top_x, analysed_chat.x,
      chat.id, top)`. */
  method MergeTops(f: Features, tops: map<NumFeature, seq<Entry<Value>>>, c: Chat, st: Stats)
    returns (r: map<NumFeature, seq<Entry<Value>>>)
    requires forall n :: n in tops <==> CrossSource(n).Some? && f.num(n) > 0
    ensures r == RankedAll(f, tops, c, st)
  {
    ghost var upd := RankedAll(f, tops, c, st);
    r := tops;
    for i := 0 to |CrossOrder|
      invariant SoFar(tops, r, upd, CrossOrder[..i])
    {
      var n := CrossOrder[i];
      CrossOrdered(n);
      CrossOrderDistinct(i);
      ghost var r0 := r;
      if f.num(n) > 0 {
        var l := TopCounterChats(r[n], CountsOf(st, CrossSource(n).value), c.id, f.num(n));
        r := r[n := l];
      }
      SoFarStep(tops, r0, upd, CrossOrder, i, r);
    }
    forall n | n in tops ensures n in CrossOrder { CrossOrdered(n); }
    assert CrossOrder[..|CrossOrder|] == CrossOrder;
    SoFarAll(tops, r, upd, CrossOrder);
  }

  /** The eight blocks that store a chat's total under its name. */
  const TotalOrder: seq<Flag> := [
    ProcSymbols, ProcWords, ProcMessages,
    SymbolsSummary, WordsSummary, MessagesSummary,
    PhotosSummary, VideosSummary]

  lemma TotalOrdered(fl: Flag)
    ensures FlagUseOf(fl) == ChatTotal <==> fl in TotalOrder
  {
  }

  lemma TotalOrderDistinct(i: nat)
    requires i < |TotalOrder|
    ensures TotalOrder[i] !in TotalOrder[..i]
  {
  }

  /** `summa = sum(analysed_chat.x.values()); y[chat.name] = summa`. */
  method MergeTotals(f: Features, totals: map<Flag, map<Value, int>>, c: Chat, st: Stats)
    returns (r: map<Flag, map<Value, int>>)
    requires forall fl :: fl in totals <==> FlagUseOf(fl) == ChatTotal && f.flag(fl)
    ensures r == TotalsAll(totals, c, st)
  {
    ghost var upd := TotalsAll(totals, c, st);
    r := totals;
    for i := 0 to |TotalOrder|
      invariant SoFar(totals, r, upd, TotalOrder[..i])
    {
      var fl := TotalOrder[i];
      TotalOrdered(fl);
      TotalOrderDistinct(i);
      ghost var r0 := r;
      if f.flag(fl) {
        var summa := SumValues(CountsOf(st, FlagSource(fl)));
        r := r[fl := r[fl][c.name := summa]];
      }
      SoFarStep(totals, r0, upd, TotalOrder, i, r);
    }
    forall fl | fl in totals ensures fl in TotalOrder { TotalOrdered(fl); }
    assert TotalOrder[..|TotalOrder|] == TotalOrder;
    SoFarAll(totals, r, upd, TotalOrder);
  }

  /** The three day-series blocks. */
  const DayOrder: seq<Flag> := [SymbolsPerDay, WordsPerDay, MessagesPerDay]

  lemma DayOrdered(fl: Flag)
    ensures FlagUseOf(fl) == DaySeries <==> fl in DayOrder
  {
  }

  /** `x_per_day[chat.id] = [chat.name, analysed_chat.x_days]`. */
  method MergePerDay(f: Features, perDay: map<Flag, map<Value, Named<map<Value, int>>>>, c: Chat, st: Stats)
    returns (r: map<Flag, map<Value, Named<map<Value, int>>>>)
    requires forall fl :: fl in perDay <==> FlagUseOf(fl) == DaySeries && f.flag(fl)
    ensures r == PerDayAll(perDay, c, st)
  {
    ghost var upd := PerDayAll(perDay, c, st);
    r := perDay;
    for i := 0 to |DayOrder|
      invariant SoFar(perDay, r, upd, DayOrder[..i])
    {
      var fl := DayOrder[i];
      DayOrdered(fl);
      assert fl !in DayOrder[..i];
      ghost var r0 := r;
      if f.flag(fl) {
        r := r[fl := r[fl][c.id := Named(c.name, CountsOf(st, FlagSource(fl)))]];
      }
      SoFarStep(perDay, r0, upd, DayOrder, i, r);
    }
    forall fl | fl in perDay ensures fl in DayOrder { DayOrdered(fl); }
    assert DayOrder[..|DayOrder|] == DayOrder;
    SoFarAll(perDay, r, upd, DayOrder);
  }

  /** The eight per-person blocks. */
  const PersonOrder: seq<Flag> := [
    SymbolsEachPerson, WordsEachPerson, MessagesEachPerson,
    GsEachPerson, CircsEachPerson, PhCallsEachPerson,
    PhotosEachPerson, VideosEachPerson]

  lemma PersonOrdered(fl: Flag)
    ensures FlagUseOf(fl) == PersonCounts <==> fl in PersonOrder
  {
  }

  lemma PersonOrderDistinct(i: nat)
    requires i < |PersonOrder|
    ensures PersonOrder[i] !in PersonOrder[..i]
  {
  }

  /** `x_per_person[chat.id] = analysed_chat.x_people`. */
  method MergePerPerson(f: Features, perPerson: map<Flag, map<Value, map<Value, int>>>, c: Chat, st: Stats)
    returns (r: map<Flag, map<Value, map<Value, int>>>)
    requires forall fl :: fl in perPerson <==> FlagUseOf(fl) == PersonCounts && f.flag(fl)
    ensures r == PerPersonAll(perPerson, c, st)
  {
    ghost var upd := PerPersonAll(perPerson, c, st);
    r := perPerson;
    for i := 0 to |PersonOrder|
      invariant SoFar(perPerson, r, upd, PersonOrder[..i])
    {
      var fl := PersonOrder[i];
      PersonOrdered(fl);
      PersonOrderDistinct(i);
      ghost var r0 := r;
      if f.flag(fl) {
        r := r[fl := r[fl][c.id := CountsOf(st, FlagSource(fl))]];
      }
      SoFarStep(perPerson, r0, upd, PersonOrder, i, r);
    }
    forall fl | fl in perPerson ensures fl in PersonOrder { PersonOrdered(fl); }
    assert PersonOrder[..|PersonOrder|] == PersonOrder;
    SoFarAll(perPerson, r, upd, PersonOrder);
  }

  /** The four `proc_*` blocks, in the order of the chat loop's body. */
  lemma LoginOrderDistinct(i: nat)
    requires i < |AllLogins|
    ensures AllLogins[i] !in AllLogins[..i]
  {
  }

  /** `len_x_chats[0].append(chat.name)`, then the split of
      `analysed_chat.x_len` into `send` and `recv`, appended to
      `len_x_chats[1]` and `len_x_chats[2]`. */
  method MergeSendRecv(f: Features, sendRecv: map<Login, SendRecv>, c: Chat, st: Stats)
    returns (r: map<Login, SendRecv>)
    requires forall l :: l in sendRecv <==> f.login(l).Some?
    ensures r == SendRecvAll(f, sendRecv, c, st)
  {
    ghost var upd := SendRecvAll(f, sendRecv, c, st);
    r := sendRecv;
    for i := 0 to |AllLogins|
      invariant SoFar(sendRecv, r, upd, AllLogins[..i])
    {
      var l := AllLogins[i];
      LoginListed(l);
      LoginOrderDistinct(i);
      ghost var r0 := r;
      if f.login(l).Some? {
        var sr := r[l];
        var send, recv := SplitSendRecv(CountsOf(st, LoginSource(l)), f.login(l).value);
        r := r[l := SendRecv(sr.names + [c.name], sr.send + [send], sr.recv + [recv])];
      }
      SoFarStep(sendRecv, r0, upd, AllLogins, i, r);
    }
    forall l | l in sendRecv ensures l in AllLogins { LoginListed(l); }
    assert AllLogins[..|AllLogins|] == AllLogins;
    SoFarAll(sendRecv, r, upd, AllLogins);
  }

  /** The three in-chat blocks, in the order of the chat loop's body. */
  const LongOrder: seq<LongTop> := [LongGs, LongCirc, LongPhCall]

  lemma LongOrdered(t: LongTop)
    ensures t in LongOrder
  {
  }

  /** `len_x_in_chat[chat.id] = [chat.name, analysed_chat.top_long_x]`. */
  method MergeInChat(f: Features, inChat: map<LongTop, map<Value, Named<seq<Entry<Value>>>>>, c: Chat, st: Stats)
    returns (r: map<LongTop, map<Value, Named<seq<Entry<Value>>>>>)
    requires forall t :: t in inChat <==> TopCreated(f, t)
    ensures r == InChatAll(inChat, c, st)
  {
    ghost var upd := InChatAll(inChat, c, st);
    r := inChat;
    for i := 0 to |LongOrder|
      invariant SoFar(inChat, r, upd, LongOrder[..i])
    {
      var t := LongOrder[i];
      assert t !in LongOrder[..i];
      ghost var r0 := r;
      if f.num(TopSize(t)) > 0 {
        r := r[t := r[t][c.id := Named(c.name, LongOf(st, t))]];
      }
      SoFarStep(inChat, r0, upd, LongOrder, i, r);
    }
    forall t | t in inChat ensures t in LongOrder { LongOrdered(t); }
    assert LongOrder[..|LongOrder|] == LongOrder;
    SoFarAll(inChat, r, upd, LongOrder);
  }

  /** The whole body of the chat loop for one analysed chat. */
  method MergeChat(f: Features, acc: Acc, c: Chat, st: Stats) returns (r: Acc)
    requires AccShape(f, acc)
    ensures r == MergeStep(f, acc, c, st)
  {
    var tops := MergeTops(f, acc.tops, c, st);
    var totals := MergeTotals(f, acc.totals, c, st);
    var perDay := MergePerDay(f, acc.perDay, c, st);
    var perPerson := MergePerPerson(f, acc.perPerson, c, st);
    var sendRecv := MergeSendRecv(f, acc.sendRecv, c, st);
    var inChat := MergeInChat(f, acc.inChat, c, st);
    var stickers := acc.stickers;
    if f.favourite.Some? {
      var s := StickerAppend(acc.stickers.value, CountsOf(st, FavStick));
      stickers := Some(s);
    }
    r := Acc(tops, totals, perDay, perPerson, sendRecv, inChat, stickers);
  }

  // ----------------------------------------------------------- the chat loop

  /** A selected chat and the statistics `Chat_stat` gathered for it. */
  datatype Analysed = Analysed(chat: Chat, st: Stats)

  /** `for chat in parsed_chats: if chat.id in chat_ids: Chat_stat(...)`:
      the selected chats in list order with their statistics, or the
      first error a `Chat_stat` raises. */
  function AnalysedChats(f: Features, chats: seq<Chat>, ids: seq<Value>, gapStart: int, gapEnd: int): Result<seq<Analysed>>
    decreases |chats|
  {
    if chats == [] then Ok([])
    else
      var ps :- AnalysedChats(f, chats[..|chats| - 1], ids, gapStart, gapEnd);
      var c := chats[|chats| - 1];
      if c.id in ids then
        var st :- ChatStatOf(f, c.messages, gapStart, gapEnd);
        Ok(ps + [Analysed(c, st)])
      else Ok(ps)
  }

  /** The accumulators after merging the analysed chats in order. */
  ghost function MergeAll(f: Features, acc: Acc, ps: seq<Analysed>): Acc
    decreases |ps|
  {
    if ps == [] then acc
    else MergeStep(f, MergeAll(f, acc, ps[..|ps| - 1]), ps[|ps| - 1].chat, ps[|ps| - 1].st)
  }

  /** Merging a chat keeps the accumulators' shape. */
  lemma MergeStepShape(f: Features, acc: Acc, c: Chat, st: Stats)
    requires AccShape(f, acc)
    ensures AccShape(f, MergeStep(f, acc, c, st))
  {
  }

  lemma {:induction false} MergeAllShape(f: Features, acc: Acc, ps: seq<Analysed>)
    requires AccShape(f, acc)
    ensures AccShape(f, MergeAll(f, acc, ps))
    decreases |ps|
  {
    if ps != [] {
      MergeAllShape(f, acc, ps[..|ps| - 1]);
      MergeStepShape(f, MergeAll(f, acc, ps[..|ps| - 1]), ps[|ps| - 1].chat, ps[|ps| - 1].st);
    }
  }

  /** An error in a prefix of the chat list is the loop's error. */
  lemma {:induction false} AnalysedPrefixError(f: Features, chats: seq<Chat>, ids: seq<Value>, gapStart: int, gapEnd: int, i: nat)
    requires i <= |chats| && AnalysedChats(f, chats[..i], ids, gapStart, gapEnd).Err?
    ensures AnalysedChats(f, chats, ids, gapStart, gapEnd) == AnalysedChats(f, chats[..i], ids, gapStart, gapEnd)
    decreases |chats| - i
  {
    if i < |chats| {
      assert chats[..i + 1][..i] == chats[..i];
      AnalysedPrefixError(f, chats, ids, gapStart, gapEnd, i + 1);
    } else {
      assert chats[..i] == chats;
    }
  }

  // ------------------------------------------------------------- ret_stats

  /** The keys of `ret_stats`: the seventeen `top_num_*` features, the
      eight `*_quantity_each_person` features and `favourite_sticker`. */
  datatype RetKey = RetNum(n: NumFeature) | RetPerson(fl: Flag) | RetFavourite

  /** What `ret_stats` holds: a ranking, per-person counts by chat id, or
      `[chat.name, top list]` by chat id. */
  datatype StatValue =
    | TopList(entries: seq<Entry<Value>>)
    | PerChat(counts: map<Value, map<Value, int>>)
    | PerChatTop(lists: map<Value, Named<seq<Entry<Value>>>>)

  /** The tests before each `ret_stats[...] = ...`. */
  predicate RetEnabled(f: Features, k: RetKey) {
    match k
    case RetNum(n) => f.num(n) > 0
    case RetPerson(fl) => FlagUseOf(fl) == PersonCounts && f.flag(fl)
    case RetFavourite => f.favourite.Some?
  }

  /** The value stored under an enabled key: the accumulator itself, and
      for `favourite_sticker` the `top_num_stickers_finder` ranking of the
      summed sticker counts, offered in the order `order`. */
  ghost function RetValue(f: Features, acc: Acc, k: RetKey, order: seq<Value>): StatValue
    requires AccShape(f, acc) && RetEnabled(f, k)
    requires acc.stickers.Some? ==> forall i :: 0 <= i < |order| ==> order[i] in acc.stickers.value
  {
    match k
    case RetNum(n) => NumValue(f, acc, n)
    case RetPerson(fl) => PerChat(acc.perPerson[fl])
    case RetFavourite => TopList(TopFold([], Offers(acc.stickers.value, order), f.favourite.value.top))
  }

  /** A ranking across chats, or `len_*_in_chat` for a
      `top_num_*_in_every_chat` feature. */
  ghost function NumValue(f: Features, acc: Acc, n: NumFeature): StatValue
    requires AccShape(f, acc) && f.num(n) > 0
  {
    match n
    case TopGsInEveryChat => PerChatTop(acc.inChat[LongGs])
    case TopCircInEveryChat => PerChatTop(acc.inChat[LongCirc])
    case TopPhCallInEveryChat => PerChatTop(acc.inChat[LongPhCall])
    case _ => TopList(acc.tops[n])
  }

  /** `ret` is the `ret_stats` of the accumulators `acc`. */
  ghost predicate IsRetStats(f: Features, acc: Acc, order: seq<Value>, ret: map<RetKey, StatValue>)
    requires AccShape(f, acc)
    requires acc.stickers.Some? ==> forall i :: 0 <= i < |order| ==> order[i] in acc.stickers.value
  {
    && (forall k :: k in ret <==> RetEnabled(f, k))
    && (forall k :: k in ret ==> ret[k] == RetValue(f, acc, k, order))
  }

  /** The `ret_stats["top_num_*"] = ...` blocks. */
  method RetNums(f: Features, acc: Acc) returns (ret: map<RetKey, StatValue>)
    requires AccShape(f, acc)
    ensures forall k :: k in ret <==> k.RetNum? && f.num(k.n) > 0
    ensures forall k :: k in ret ==> ret[k] == NumValue(f, acc, k.n)
  {
    ret := map[];
    for i := 0 to |AllNumFeatures|
      invariant forall k :: k in ret <==> k.RetNum? && k.n in AllNumFeatures[..i] && f.num(k.n) > 0
      invariant forall k :: k in ret ==> ret[k] == NumValue(f, acc, k.n)
    {
      var n := AllNumFeatures[i];
      assert AllNumFeatures[..i + 1] == AllNumFeatures[..i] + [n];
      if f.num(n) > 0 {
        var v;
        match n {
          case TopGsInEveryChat => v := PerChatTop(acc.inChat[LongGs]);
          case TopCircInEveryChat => v := PerChatTop(acc.inChat[LongCirc]);
          case TopPhCallInEveryChat => v := PerChatTop(acc.inChat[LongPhCall]);
          case _ => v := TopList(acc.tops[n]);
        }
        ret := ret[RetNum(n) := v];
      }
    }
    assert AllNumFeatures[..|AllNumFeatures|] == AllNumFeatures;
    forall k: RetKey | k.RetNum? ensures k.n in AllNumFeatures { NumFeatureListed(k.n); }
  }

  /** The `ret_stats["*_quantity_each_person"] = ...` blocks. */
  method RetPeople(f: Features, acc: Acc, ret0: map<RetKey, StatValue>) returns (ret: map<RetKey, StatValue>)
    requires AccShape(f, acc) && forall k :: k in ret0 ==> !k.RetPerson?
    ensures forall k :: k in ret <==> k in ret0 || (k.RetPerson? && k.fl in acc.perPerson)
    ensures forall k :: k in ret0 ==> ret[k] == ret0[k]
    ensures forall k :: k in ret && k.RetPerson? ==> ret[k] == PerChat(acc.perPerson[k.fl])
  {
    ret := ret0;
    for i := 0 to |PersonOrder|
      invariant forall k :: k in ret <==> k in ret0 || (k.RetPerson? && k.fl in PersonOrder[..i] && k.fl in acc.perPerson)
      invariant forall k :: k in ret0 ==> ret[k] == ret0[k]
      invariant forall k :: k in ret && k.RetPerson? ==> ret[k] == PerChat(acc.perPerson[k.fl])
    {
      var fl := PersonOrder[i];
      PersonOrdered(fl);
      assert PersonOrder[..i + 1] == PersonOrder[..i] + [fl];
      if f.flag(fl) {
        ret := ret[RetPerson(fl) := PerChat(acc.perPerson[fl])];
      }
    }
    assert PersonOrder[..|PersonOrder|] == PersonOrder;
    forall fl | fl in acc.perPerson ensures fl in PersonOrder { PersonOrdered(fl); }
  }

  /** The `ret_stats[...] = ...` blocks after the chat loop. */
  method BuildRetStats(f: Features, acc: Acc) returns (ret: map<RetKey, StatValue>, ghost order: seq<Value>)
    requires AccShape(f, acc)
    ensures acc.stickers.Some? ==> forall i :: 0 <= i < |order| ==> order[i] in acc.stickers.value
    ensures acc.stickers.Some? ==> forall e :: e in acc.stickers.value ==> e in order
    ensures forall i, j :: 0 <= i < j < |order| ==> order[i] != order[j]
    ensures IsRetStats(f, acc, order, ret)
  {
    ret := RetNums(f, acc);
    ret := RetPeople(f, acc, ret);
    order := [];
    if f.favourite.Some? {
      var top := f.favourite.value.top;
      var l;
      l, order := TopNumStickersFinder([], acc.stickers.value, top);
      ret := ret[RetFavourite := TopList(l)];
    }
  }

  // ------------------------------------------------------- start_analyses

  /** The accumulators once every analysed chat has been merged. */
  ghost function FinalAcc(f: Features, ps: seq<Analysed>): (acc: Acc)
    ensures AccShape(f, acc)
  {
    MergeAllShape(f, InitAcc(f), ps);
    MergeAll(f, InitAcc(f), ps)
  }

  /** `start_analyses(parsed_chats, chat_ids, time_gap, features, ...)`:
      the first error a `Chat_stat` raises, or `ret_stats` built from the
      merged statistics of the selected chats; `order` is the order the
      dictionary of sticker counts is walked in. */
  method StartAnalyses(f: Features, chats: seq<Chat>, ids: seq<Value>, gapStart: int, gapEnd: int)
    returns (r: Result<map<RetKey, StatValue>>, ghost order: seq<Value>)
    ensures AnalysedChats(f, chats, ids, gapStart, gapEnd).Err? ==> r == Err(AnalysedChats(f, chats, ids, gapStart, gapEnd).error)
    ensures AnalysedChats(f, chats, ids, gapStart, gapEnd).Ok? ==> r.Ok?
    ensures AnalysedChats(f, chats, ids, gapStart, gapEnd).Ok? && r.Ok? ==> (
      var acc := FinalAcc(f, AnalysedChats(f, chats, ids, gapStart, gapEnd).value);
      && (acc.stickers.Some? ==> forall i :: 0 <= i < |order| ==> order[i] in acc.stickers.value)
      && (acc.stickers.Some? ==> forall e :: e in acc.stickers.value ==> e in order)
      && (forall i, j :: 0 <= i < j < |order| ==> order[i] != order[j])
      && IsRetStats(f, acc, order, r.value))
  {
    order := [];
    var acc := InitAcc(f);
    ghost var ps: seq<Analysed> := [];
    for i := 0 to |chats|
      invariant AnalysedChats(f, chats[..i], ids, gapStart, gapEnd) == Ok(ps)
      invariant acc == MergeAll(f, InitAcc(f), ps) && AccShape(f, acc)
    {
      var c := chats[i];
      assert chats[..i + 1][..i] == chats[..i];
      if c.id in ids {
        var a := AnalyseChat(f, c.messages, gapStart, gapEnd);
        if a.Err? {
          AnalysedPrefixError(f, chats, ids, gapStart, gapEnd, i + 1);
          return Err(a.error), order;
        }
        MergeStepShape(f, acc, c, a.value);
        acc := MergeChat(f, acc, c, a.value);
        ps := ps + [Analysed(c, a.value)];
      }
    }
    assert chats[..|chats|] == chats;
    var ret;
    ret, order := BuildRetStats(f, acc);
    r := Ok(ret);
  }

  // ------------------------------------------- what the accumulators hold

  /** The entries the ranking `n` is offered, one per analysed chat, in
      list order: the chat's id and its total. */
  ghost function CrossOffers(ps: seq<Analysed>, n: NumFeature): seq<Entry<Value>>
    decreases |ps|
  {
    if ps == [] then []
    else
      var p := ps[|ps| - 1];
      CrossOffers(ps[..|ps| - 1], n) + [Entry(p.chat.id, MapSum(CrossCounts(p.st, n)))]
  }

  /** Each ranking is `top_counter` folded over the chats' totals. */
  lemma {:induction false} CrossTopsFold(f: Features, ps: seq<Analysed>, n: NumFeature)
    requires n in FinalAcc(f, ps).tops
    ensures FinalAcc(f, ps).tops[n] == TopFold([], CrossOffers(ps, n), f.num(n))
    decreases |ps|
  {
    if ps != [] {
      var init, p := ps[..|ps| - 1], ps[|ps| - 1];
      assert n in FinalAcc(f, init).tops;
      CrossTopsFold(f, init, n);
      TopFoldAppend([], CrossOffers(init, n), Entry(p.chat.id, MapSum(CrossCounts(p.st, n))), f.num(n));
    }
  }

  /** So each ranking holds the `top` chats with the largest totals,
      largest first. */
  lemma CrossTopsAreTop(f: Features, ps: seq<Analysed>, n: NumFeature)
    requires n in FinalAcc(f, ps).tops
    ensures IsTop(FinalAcc(f, ps).tops[n], CrossOffers(ps, n), f.num(n))
  {
    CrossTopsFold(f, ps, n);
    TopFoldIsTop(CrossOffers(ps, n), f.num(n));
  }

  /** A dictionary written key by key: a later write to a key replaces
      an earlier one. */
  ghost function Keyed<V>(ks: seq<Value>, vs: seq<V>): map<Value, V>
    requires |ks| == |vs|
    decreases |ks|
  {
    if ks == [] then map[]
    else Keyed(ks[..|ks| - 1], vs[..|vs| - 1])[ks[|ks| - 1] := vs[|vs| - 1]]
  }

  /** Its keys are the keys written. */
  lemma {:induction false} KeyedKeys<V>(ks: seq<Value>, vs: seq<V>)
    requires |ks| == |vs|
    ensures forall k :: k in Keyed(ks, vs) <==> k in ks
    decreases |ks|
  {
    if ks != [] {
      KeyedKeys(ks[..|ks| - 1], vs[..|vs| - 1]);
      assert ks == ks[..|ks| - 1] + [ks[|ks| - 1]];
    }
  }

  /** The value under a key is the one written last. */
  lemma {:induction false} KeyedLast<V>(ks: seq<Value>, vs: seq<V>, i: nat)
    requires |ks| == |vs| && i < |ks|
    requires forall j :: i < j < |ks| ==> ks[j] != ks[i]
    ensures ks[i] in Keyed(ks, vs) && Keyed(ks, vs)[ks[i]] == vs[i]
    decreases |ks|
  {
    if i < |ks| - 1 {
      KeyedLast(ks[..|ks| - 1], vs[..|vs| - 1], i);
    }
  }

  ghost function Names(ps: seq<Analysed>): (r: seq<Value>)
    ensures |r| == |ps| && forall i :: 0 <= i < |ps| ==> r[i] == ps[i].chat.name
  {
    seq(|ps|, i requires 0 <= i < |ps| => ps[i].chat.name)
  }

  ghost function Ids(ps: seq<Analysed>): (r: seq<Value>)
    ensures |r| == |ps| && forall i :: 0 <= i < |ps| ==> r[i] == ps[i].chat.id
  {
    seq(|ps|, i requires 0 <= i < |ps| => ps[i].chat.id)
  }

  /** The chats' totals for a `proc_*` or `*_summary` flag. */
  ghost function ChatTotals(ps: seq<Analysed>, fl: Flag): (r: seq<int>)
    ensures |r| == |ps| && forall i :: 0 <= i < |ps| ==> r[i] == MapSum(CountsOf(ps[i].st, FlagSource(fl)))
  {
    seq(|ps|, i requires 0 <= i < |ps| => MapSum(CountsOf(ps[i].st, FlagSource(fl))))
  }

  ghost function ChatDays(ps: seq<Analysed>, fl: Flag): (r: seq<Named<map<Value, int>>>)
    ensures |r| == |ps| && forall i :: 0 <= i < |ps| ==> r[i] == Named(ps[i].chat.name, CountsOf(ps[i].st, FlagSource(fl)))
  {
    seq(|ps|, i requires 0 <= i < |ps| => Named(ps[i].chat.name, CountsOf(ps[i].st, FlagSource(fl))))
  }

  ghost function ChatPeople(ps: seq<Analysed>, fl: Flag): (r: seq<map<Value, int>>)
    ensures |r| == |ps| && forall i :: 0 <= i < |ps| ==> r[i] == CountsOf(ps[i].st, FlagSource(fl))
  {
    seq(|ps|, i requires 0 <= i < |ps| => CountsOf(ps[i].st, FlagSource(fl)))
  }

  ghost function ChatLongs(ps: seq<Analysed>, t: LongTop): (r: seq<Named<seq<Entry<Value>>>>)
    ensures |r| == |ps| && forall i :: 0 <= i < |ps| ==> r[i] == Named(ps[i].chat.name, LongOf(ps[i].st, t))
  {
    seq(|ps|, i requires 0 <= i < |ps| => Named(ps[i].chat.name, LongOf(ps[i].st, t)))
  }

  lemma NamesSnoc(ps: seq<Analysed>)
    requires ps != []
    ensures Names(ps) == Names(ps[..|ps| - 1]) + [ps[|ps| - 1].chat.name]
  {
  }

  lemma IdsSnoc(ps: seq<Analysed>)
    requires ps != []
    ensures Ids(ps) == Ids(ps[..|ps| - 1]) + [ps[|ps| - 1].chat.id]
  {
  }

  lemma ChatTotalsSnoc(ps: seq<Analysed>, fl: Flag)
    requires ps != []
    ensures ChatTotals(ps, fl) == ChatTotals(ps[..|ps| - 1], fl) + [MapSum(CountsOf(ps[|ps| - 1].st, FlagSource(fl)))]
  {
  }

  lemma ChatDaysSnoc(ps: seq<Analysed>, fl: Flag)
    requires ps != []
    ensures ChatDays(ps, fl) == ChatDays(ps[..|ps| - 1], fl) + [Named(ps[|ps| - 1].chat.name, CountsOf(ps[|ps| - 1].st, FlagSource(fl)))]
  {
  }

  lemma ChatPeopleSnoc(ps: seq<Analysed>, fl: Flag)
    requires ps != []
    ensures ChatPeople(ps, fl) == ChatPeople(ps[..|ps| - 1], fl) + [CountsOf(ps[|ps| - 1].st, FlagSource(fl))]
  {
  }

  lemma ChatLongsSnoc(ps: seq<Analysed>, t: LongTop)
    requires ps != []
    ensures ChatLongs(ps, t) == ChatLongs(ps[..|ps| - 1], t) + [Named(ps[|ps| - 1].chat.name, LongOf(ps[|ps| - 1].st, t))]
  {
  }

  /** Writing one more key and value on the end of the lists. */
  lemma KeyedSnoc<V>(ks: seq<Value>, vs: seq<V>, pk: seq<Value>, pv: seq<V>, k: Value, v: V, m0: map<Value, V>)
    requires |pk| == |pv| && ks == pk + [k] && vs == pv + [v] && m0 == Keyed(pk, pv)
    ensures Keyed(ks, vs) == m0[k := v]
  {
    assert ks[..|ks| - 1] == pk;
    assert vs[..|vs| - 1] == pv;
  }

  /** The accumulators after the last chat of `ps` is merged. */
  lemma MergeAllLast(f: Features, acc: Acc, ps: seq<Analysed>, prev: Acc, r: Acc)
    requires ps != [] && prev == MergeAll(f, acc, ps[..|ps| - 1]) && r == MergeAll(f, acc, ps)
    ensures r.totals == TotalsAll(prev.totals, ps[|ps| - 1].chat, ps[|ps| - 1].st)
    ensures r.perDay == PerDayAll(prev.perDay, ps[|ps| - 1].chat, ps[|ps| - 1].st)
    ensures r.perPerson == PerPersonAll(prev.perPerson, ps[|ps| - 1].chat, ps[|ps| - 1].st)
    ensures r.inChat == InChatAll(prev.inChat, ps[|ps| - 1].chat, ps[|ps| - 1].st)
  {
  }

  /** The dictionaries keyed by chat name or id are the chats' values
      written in list order, starting from an empty dictionary. */
  lemma {:induction false} MergedTotals(f: Features, acc: Acc, ps: seq<Analysed>, fl: Flag, r: Acc)
    requires fl in acc.totals && acc.totals[fl] == map[]
    requires r == MergeAll(f, acc, ps)
    ensures fl in r.totals
    ensures r.totals[fl] == Keyed(Names(ps), ChatTotals(ps, fl))
    decreases |ps|
  {
    if ps != [] {
      var init, last := ps[..|ps| - 1], ps[|ps| - 1];
      var prev := MergeAll(f, acc, init);
      MergedTotals(f, acc, init, fl, prev);
      MergeAllLast(f, acc, ps, prev, r);
      NamesSnoc(ps);
      ChatTotalsSnoc(ps, fl);
      KeyedSnoc(Names(ps), ChatTotals(ps, fl), Names(init), ChatTotals(init, fl), last.chat.name, MapSum(CountsOf(last.st, FlagSource(fl))), prev.totals[fl]);
    }
  }

  lemma {:induction false} MergedPerDay(f: Features, acc: Acc, ps: seq<Analysed>, fl: Flag, r: Acc)
    requires fl in acc.perDay && acc.perDay[fl] == map[]
    requires r == MergeAll(f, acc, ps)
    ensures fl in r.perDay
    ensures r.perDay[fl] == Keyed(Ids(ps), ChatDays(ps, fl))
    decreases |ps|
  {
    if ps != [] {
      var init, last := ps[..|ps| - 1], ps[|ps| - 1];
      var prev := MergeAll(f, acc, init);
      MergedPerDay(f, acc, init, fl, prev);
      MergeAllLast(f, acc, ps, prev, r);
      IdsSnoc(ps);
      ChatDaysSnoc(ps, fl);
      KeyedSnoc(Ids(ps), ChatDays(ps, fl), Ids(init), ChatDays(init, fl), last.chat.id, Named(last.chat.name, CountsOf(last.st, FlagSource(fl))), prev.perDay[fl]);
    }
  }

  lemma {:induction false} MergedPerPerson(f: Features, acc: Acc, ps: seq<Analysed>, fl: Flag, r: Acc)
    requires fl in acc.perPerson && acc.perPerson[fl] == map[]
    requires r == MergeAll(f, acc, ps)
    ensures fl in r.perPerson
    ensures r.perPerson[fl] == Keyed(Ids(ps), ChatPeople(ps, fl))
    decreases |ps|
  {
    if ps != [] {
      var init, last := ps[..|ps| - 1], ps[|ps| - 1];
      var prev := MergeAll(f, acc, init);
      MergedPerPerson(f, acc, init, fl, prev);
      MergeAllLast(f, acc, ps, prev, r);
      IdsSnoc(ps);
      ChatPeopleSnoc(ps, fl);
      KeyedSnoc(Ids(ps), ChatPeople(ps, fl), Ids(init), ChatPeople(init, fl), last.chat.id, CountsOf(last.st, FlagSource(fl)), prev.perPerson[fl]);
    }
  }

  lemma {:induction false} MergedInChat(f: Features, acc: Acc, ps: seq<Analysed>, t: LongTop, r: Acc)
    requires t in acc.inChat && acc.inChat[t] == map[]
    requires r == MergeAll(f, acc, ps)
    ensures t in r.inChat
    ensures r.inChat[t] == Keyed(Ids(ps), ChatLongs(ps, t))
    decreases |ps|
  {
    if ps != [] {
      var init, last := ps[..|ps| - 1], ps[|ps| - 1];
      var prev := MergeAll(f, acc, init);
      MergedInChat(f, acc, init, t, prev);
      MergeAllLast(f, acc, ps, prev, r);
      IdsSnoc(ps);
      ChatLongsSnoc(ps, t);
      KeyedSnoc(Ids(ps), ChatLongs(ps, t), Ids(init), ChatLongs(init, t), last.chat.id, Named(last.chat.name, LongOf(last.st, t)), prev.inChat[t]);
    }
  }

  /** `sr` is the `len_*_chats` triple of login feature `l` over `ps`: the
      chats' names, what the login sent in each and what everybody else
      did. */
  ghost predicate SplitOf(f: Features, l: Login, sr: SendRecv, ps: seq<Analysed>) {
    && sr.names == Names(ps) && |sr.send| == |ps| && |sr.recv| == |ps|
    && forall i :: 0 <= i < |ps| ==>
         && sr.send[i] == Get(CountsOf(ps[i].st, LoginSource(l)), LoginOf(f, l))
         && sr.send[i] + sr.recv[i] == MapSum(CountsOf(ps[i].st, LoginSource(l)))
  }

  lemma SplitSnoc(f: Features, l: Login, sr: SendRecv, ps: seq<Analysed>)
    requires ps != [] && SplitOf(f, l, sr, ps[..|ps| - 1])
    ensures SplitOf(f, l, SendRecvAfter(sr, ps[|ps| - 1].chat.name, CountsOf(ps[|ps| - 1].st, LoginSource(l)), LoginOf(f, l)), ps)
  {
    assert Names(ps) == Names(ps[..|ps| - 1]) + [ps[|ps| - 1].chat.name];
  }

  lemma {:induction false} MergedSendRecv(f: Features, acc: Acc, ps: seq<Analysed>, l: Login)
    requires l in acc.sendRecv && acc.sendRecv[l] == SendRecv([], [], [])
    ensures l in MergeAll(f, acc, ps).sendRecv
    ensures SplitOf(f, l, MergeAll(f, acc, ps).sendRecv[l], ps)
    decreases |ps|
  {
    if ps != [] {
      var init := ps[..|ps| - 1];
      MergedSendRecv(f, acc, init, l);
      SplitSnoc(f, l, MergeAll(f, acc, init).sendRecv[l], ps);
    }
  }

  /** A sticker's count summed over the analysed chats. */
  ghost function StickerTotal(ps: seq<Analysed>, k: Value): int
    decreases |ps|
  {
    if ps == [] then 0 else StickerTotal(ps[..|ps| - 1], k) + Get(CountsOf(ps[|ps| - 1].st, FavStick), k)
  }

  /** All the chats' favourite-sticker counts together. */
  ghost function StickerSum(ps: seq<Analysed>): int
    decreases |ps|
  {
    if ps == [] then 0 else StickerSum(ps[..|ps| - 1]) + MapSum(CountsOf(ps[|ps| - 1].st, FavStick))
  }

  lemma MergeAddGet(a: map<Value, int>, b: map<Value, int>, k: Value)
    ensures Get(MergeAdd(a, b), k) == Get(a, k) + Get(b, k)
  {
  }

  /** `top_fav_stickers` counts every sticker over all analysed chats. */
  lemma {:induction false} MergedStickers(f: Features, acc: Acc, ps: seq<Analysed>)
    requires acc.stickers == Some(map[])
    ensures MergeAll(f, acc, ps).stickers.Some?
    ensures forall k :: Get(MergeAll(f, acc, ps).stickers.value, k) == StickerTotal(ps, k)
    ensures MapSum(MergeAll(f, acc, ps).stickers.value) == StickerSum(ps)
    decreases |ps|
  {
    if ps == [] {
      MapSumEmpty(MergeAll(f, acc, ps).stickers.value);
    } else {
      var init := ps[..|ps| - 1];
      MergedStickers(f, acc, init);
      var s, b := MergeAll(f, acc, init).stickers.value, CountsOf(ps[|ps| - 1].st, FavStick);
      MapSumMergeAdd(s, b);
      forall k ensures Get(MergeAdd(s, b), k) == StickerTotal(ps, k) { MergeAddGet(s, b, k); }
    }
  }

  // ---------------------------------------------------- the chats analysed

  /** The chats whose id is in `chat_ids`, in list order. */
  function Selected(chats: seq<Chat>, ids: seq<Value>): seq<Chat>
    decreases |chats|
  {
    if chats == [] then []
    else Selected(chats[..|chats| - 1], ids) + (if chats[|chats| - 1].id in ids then [chats[|chats| - 1]] else [])
  }

  /** Exactly the selected chats are analysed, each with its own
      `Chat_stat`. */
  lemma {:induction false} AnalysedAreSelected(f: Features, chats: seq<Chat>, ids: seq<Value>, gapStart: int, gapEnd: int)
    requires AnalysedChats(f, chats, ids, gapStart, gapEnd).Ok?
    ensures var ps := AnalysedChats(f, chats, ids, gapStart, gapEnd).value;
      && |ps| == |Selected(chats, ids)|
      && forall i :: 0 <= i < |ps| ==>
           ps[i].chat == Selected(chats, ids)[i] && ChatStatOf(f, ps[i].chat.messages, gapStart, gapEnd) == Ok(ps[i].st)
    decreases |chats|
  {
    if chats != [] {
      AnalysedAreSelected(f, chats[..|chats| - 1], ids, gapStart, gapEnd);
    }
  }

  /** The loop fails if and only if the `Chat_stat` of a selected chat does. */
  lemma {:induction false} AnalysedOk(f: Features, chats: seq<Chat>, ids: seq<Value>, gapStart: int, gapEnd: int)
    ensures AnalysedChats(f, chats, ids, gapStart, gapEnd).Ok? <==>
      forall c :: c in Selected(chats, ids) ==> ChatStatOf(f, c.messages, gapStart, gapEnd).Ok?
    decreases |chats|
  {
    if chats != [] {
      AnalysedOk(f, chats[..|chats| - 1], ids, gapStart, gapEnd);
    }
  }

  /** `Chat_stat` leaves every counter it created. */
  lemma CreatedRead(f: Features, ms: seq<Message>, gapStart: int, gapEnd: int, st: Stats, c: Counter)
    requires ChatStatOf(f, ms, gapStart, gapEnd) == Ok(st) && Created(f, c)
    ensures c in st.counts
  {
    FoldKeepsAttributes(f, Window(ms, gapStart, gapEnd));
  }

  /** Every counter the chat loop reads was created by `Chat_stat`, so
      none of its attribute reads fails. */
  lemma AttributesRead(f: Features, ms: seq<Message>, gapStart: int, gapEnd: int, st: Stats)
    requires ChatStatOf(f, ms, gapStart, gapEnd) == Ok(st)
    ensures forall n :: CrossSource(n).Some? && f.num(n) > 0 ==> CrossSource(n).value in st.counts
    ensures forall fl :: f.flag(fl) ==> FlagSource(fl) in st.counts
    ensures forall l :: f.login(l).Some? ==> LoginSource(l) in st.counts
    ensures f.favourite.Some? ==> FavStick in st.counts
    ensures forall t :: TopCreated(f, t) ==> t in st.tops
  {
    forall n | CrossSource(n).Some? && f.num(n) > 0 ensures CrossSource(n).value in st.counts {
      CrossCreated(f, n);
      CreatedRead(f, ms, gapStart, gapEnd, st, CrossSource(n).value);
    }
    forall fl | f.flag(fl) ensures FlagSource(fl) in st.counts {
      FlagCreated(f, fl);
      CreatedRead(f, ms, gapStart, gapEnd, st, FlagSource(fl));
    }
    forall l | f.login(l).Some? ensures LoginSource(l) in st.counts {
      LoginCreated(f, l);
      CreatedRead(f, ms, gapStart, gapEnd, st, LoginSource(l));
    }
    if f.favourite.Some? {
      CreatedRead(f, ms, gapStart, gapEnd, st, FavStick);
    }
    FoldKeepsAttributes(f, Window(ms, gapStart, gapEnd));
  }

  /** A chat's offer to a ranking is the total of its messages in the
      time window. */
  lemma ChatOffer(f: Features, ms: seq<Message>, gapStart: int, gapEnd: int, st: Stats, n: NumFeature)
    requires ChatStatOf(f, ms, gapStart, gapEnd) == Ok(st) && CrossSource(n).Some? && f.num(n) > 0
    ensures MapSum(CrossCounts(st, n)) == Total(f, CrossSource(n).value, Window(ms, gapStart, gapEnd))
  {
    CrossCreated(f, n);
    FoldCounts(f, Window(ms, gapStart, gapEnd), CrossSource(n).value);
  }

  /** What a `proc_*` login sent in a chat is its own durations in the
      window; sent and received together are all of them. */
  lemma ChatSplit(f: Features, ms: seq<Message>, gapStart: int, gapEnd: int, st: Stats, l: Login)
    requires ChatStatOf(f, ms, gapStart, gapEnd) == Ok(st) && f.login(l).Some?
    ensures var w := Window(ms, gapStart, gapEnd);
      && Get(CountsOf(st, LoginSource(l)), LoginOf(f, l)) == KeyTotal(f, LoginSource(l), w, LoginOf(f, l))
      && MapSum(CountsOf(st, LoginSource(l))) == Total(f, LoginSource(l), w)
  {
    LoginCreated(f, l);
    FoldCounts(f, Window(ms, gapStart, gapEnd), LoginSource(l));
  }
}
