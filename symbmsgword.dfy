/** `draw_symb_msg_word` of tganalyzer/html_export/__init__.py: the
    per-chat `{user: {date: count}}` data of the symbols, words or messages
    feature is added up by chat name, by user and date across chats, and by
    user within each chat; each chat's length in days is measured; then the
    returned dict of image names is shaped. A date is its day number. */
module SymbMsgWord {
  import opened Values
  import opened Counters
  import opened Tallies
  import opened Seqs

  /** `{date: count}` of one user, in dict order. */
  type DayCounts = seq<(int, int)>
  /** `{user: {date: count}}` of one chat. */
  type UserDays = seq<(string, DayCounts)>
  /** `{chat id: {user: {date: count}}}`. */
  type ChatDays = seq<(int, UserDays)>

  /** `datetime.date.min` and `datetime.date.max` as day numbers. */
  const DateMin := 1
  const DateMax := 3652059

  /** One pass through the innermost loop body. */
  datatype Count = Count(chat: int, user: string, date: int, n: int)

  function DayRows(chat: int, user: string, days: DayCounts): seq<Count>
    decreases |days|
  {
    if days == [] then []
    else
      var (date, n) := days[|days| - 1];
      DayRows(chat, user, days[..|days| - 1]) + [Count(chat, user, date, n)]
  }

  function UserRows(chat: int, users: UserDays): seq<Count>
    decreases |users|
  {
    if users == [] then []
    else
      var (user, days) := users[|users| - 1];
      UserRows(chat, users[..|users| - 1]) + DayRows(chat, user, days)
  }

  /** The innermost loop bodies in the order the three loops run them. */
  function Flat(data: ChatDays): seq<Count>
    decreases |data|
  {
    if data == [] then []
    else
      var (chat, users) := data[|data| - 1];
      Flat(data[..|data| - 1]) + UserRows(chat, users)
  }

  /** Every chat met has a name, so `chatnames[chatid]` does not raise. */
  predicate Named(cs: seq<Count>, names: map<int, string>) {
    forall i :: 0 <= i < |cs| ==> cs[i].chat in names
  }

  /** The first count whose chat has no name. */
  ghost function FirstUnnamed(cs: seq<Count>, names: map<int, string>): (j: nat)
    requires !Named(cs, names)
    ensures j < |cs| && cs[j].chat !in names && Named(cs[..j], names)
    decreases |cs|
  {
    if cs[0].chat !in names then 0
    else
      assert !Named(cs[1..], names) by {
        var i :| 0 <= i < |cs| && cs[i].chat !in names;
        assert cs[1..][i - 1] == cs[i];
      }
      var j := FirstUnnamed(cs[1..], names);
      assert cs[..j + 1] == [cs[0]] + cs[1..][..j];
      1 + j
  }

  /** `by_chat_agg[chatnames[chatid]] += count` rows. */
  function ChatRows(cs: seq<Count>, names: map<int, string>): seq<(string, int)>
    requires Named(cs, names)
    decreases |cs|
  {
    if cs == [] then []
    else
      var c := cs[|cs| - 1];
      ChatRows(cs[..|cs| - 1], names) + [(names[c.chat], c.n)]
  }

  /** `by_date_agg[username][date] += count` rows. */
  function DateRows(cs: seq<Count>): seq<(string, int, int)>
    decreases |cs|
  {
    if cs == [] then []
    else
      var c := cs[|cs| - 1];
      DateRows(cs[..|cs| - 1]) + [(c.user, c.date, c.n)]
  }

  /** `by_user[chatid][username] += count` rows. */
  function ChatUserRows(cs: seq<Count>): seq<(int, string, int)>
    decreases |cs|
  {
    if cs == [] then []
    else
      var c := cs[|cs| - 1];
      ChatUserRows(cs[..|cs| - 1]) + [(c.chat, c.user, c.n)]
  }

  /** The three `defaultdict` totals of the innermost loop. */
  datatype Sums = Sums(
    byChat: map<string, int>,
    byDate: map<string, map<int, int>>,
    byUser: map<int, map<string, int>>)

  /** The totals after the counts `cs`. */
  ghost function SumsOf(cs: seq<Count>, names: map<int, string>): Sums
    requires Named(cs, names)
  {
    Sums(Tally(ChatRows(cs, names)), Tally2(DateRows(cs)), Tally2(ChatUserRows(cs)))
  }

  /** Lines 266-268 for one count of a chat named `name`. */
  function AddCount(s: Sums, c: Count, name: string): Sums {
    Sums(
      Bump(s.byChat, name, c.n),
      s.byDate[c.user := Bump(Inner(s.byDate, c.user), c.date, c.n)],
      s.byUser[c.chat := Bump(Inner(s.byUser, c.chat), c.user, c.n)])
  }

  lemma SumsStep(cs: seq<Count>, c: Count, names: map<int, string>)
    requires Named(cs, names) && c.chat in names
    ensures Named(cs + [c], names)
    ensures SumsOf(cs + [c], names) == AddCount(SumsOf(cs, names), c, names[c.chat])
  {
    assert (cs + [c])[..|cs|] == cs;
    assert forall x :: 0 <= x < |cs| ==> (cs + [c])[x] == cs[x];
  }

  /** `date_min`: starts at `date.max`, lowered to every earlier date. */
  function Lo(cs: seq<Count>): int
    decreases |cs|
  {
    if cs == [] then DateMax
    else
      var lo := Lo(cs[..|cs| - 1]);
      if cs[|cs| - 1].date < lo then cs[|cs| - 1].date else lo
  }

  /** `date_max`: starts at `date.min`, raised to every later date. */
  function Hi(cs: seq<Count>): int
    decreases |cs|
  {
    if cs == [] then DateMin
    else
      var hi := Hi(cs[..|cs| - 1]);
      if cs[|cs| - 1].date > hi then cs[|cs| - 1].date else hi
  }

  /** `len_days[chatid] = (date_max - date_min).days + 1`, each chat
      overwriting an earlier entry of the same id. */
  function LenDays(data: ChatDays): map<int, int>
    decreases |data|
  {
    if data == [] then map[]
    else
      var (chat, users) := data[|data| - 1];
      var cs := UserRows(chat, users);
      LenDays(data[..|data| - 1])[chat := Hi(cs) - Lo(cs) + 1]
  }

  datatype Aggregates = Aggregates(
    byChat: map<string, int>,
    byDate: map<string, map<int, int>>,
    byUser: map<int, map<string, int>>,
    lenDays: map<int, int>)

  /** What the loops leave behind, or the KeyError of the first count
      whose chat has no name. */
  ghost function AggregatesOf(data: ChatDays, names: map<int, string>): Result<Aggregates> {
    var cs := Flat(data);
    if Named(cs, names) then
      Ok(Aggregates(Tally(ChatRows(cs, names)), Tally2(DateRows(cs)), Tally2(ChatUserRows(cs)), LenDays(data)))
    else Err(MissingKey(IntToString(cs[FirstUnnamed(cs, names)].chat)))
  }

  /** The three nested loops of lines 257-268; the loop over a chat's
      users and the loop over a user's dates are `AddUsers` and
      `AddDays`. */
  method Aggregate(data: ChatDays, names: map<int, string>) returns (r: Result<Aggregates>)
    ensures r == AggregatesOf(data, names)
  {
    var sums := Sums(map[], map[], map[]);
    var lenDays: map<int, int> := map[];
    ghost var done: seq<Count> := [];
    for i := 0 to |data|
      invariant done == Flat(data[..i]) && Named(done, names)
      invariant sums == SumsOf(done, names)
      invariant lenDays == LenDays(data[..i])
    {
      var (chat, users) := data[i];
      var failed, lo, hi;
      failed, sums, lo, hi := AddUsers(chat, users, names, sums, done);
      if failed {
        UnnamedChat(data, names, i);
        return Err(MissingKey(IntToString(chat)));
      }
      ghost var rows := UserRows(chat, users);
      AggregateStep(data, i, done, lenDays, rows, lo, hi);
      done := done + rows;
      lenDays := lenDays[chat := hi - lo + 1];
    }
    assert data[..|data|] == data;
    r := Ok(Aggregates(sums.byChat, sums.byDate, sums.byUser, lenDays));
  }

  /** One more chat of the outer loop. */
  lemma AggregateStep(data: ChatDays, i: nat, done: seq<Count>, lenDays: map<int, int>, rows: seq<Count>, lo: int, hi: int)
    requires i < |data| && done == Flat(data[..i]) && lenDays == LenDays(data[..i])
    requires rows == UserRows(data[i].0, data[i].1) && lo == Lo(rows) && hi == Hi(rows)
    ensures Flat(data[..i + 1]) == done + rows
    ensures LenDays(data[..i + 1]) == lenDays[data[i].0 := hi - lo + 1]
  {
    assert data[..i + 1][..i] == data[..i];
  }

  /** The loop over one chat's users; `failed` when the chat has no name
      and some count. */
  method AddUsers(chat: int, users: UserDays, names: map<int, string>, sums: Sums, ghost done: seq<Count>)
    returns (failed: bool, sums': Sums, lo: int, hi: int)
    requires Named(done, names) && sums == SumsOf(done, names)
    ensures failed <==> chat !in names && UserRows(chat, users) != []
    ensures !failed ==> (
      && Named(done + UserRows(chat, users), names)
      && sums' == SumsOf(done + UserRows(chat, users), names)
      && lo == Lo(UserRows(chat, users)) && hi == Hi(UserRows(chat, users)))
  {
    failed, sums', lo, hi := false, sums, DateMax, DateMin;
    ghost var inChat: seq<Count> := [];
    ghost var d := done;
    assert users[..0] == [] && done + [] == done;
    for j := 0 to |users|
      invariant inChat == UserRows(chat, users[..j])
      invariant d == done + inChat && Named(d, names)
      invariant lo == Lo(inChat) && hi == Hi(inChat)
      invariant sums' == SumsOf(d, names)
    {
      var (user, days) := users[j];
      failed, sums', lo, hi := AddDays(chat, user, days, names, sums', lo, hi, d, inChat);
      assert users[..j + 1][..j] == users[..j];
      assert UserRows(chat, users[..j + 1]) == inChat + DayRows(chat, user, days);
      if failed {
        UserRowsPrefix(chat, users, j + 1);
        return;
      }
      AppendAssoc(done, inChat, DayRows(chat, user, days));
      d, inChat := d + DayRows(chat, user, days), inChat + DayRows(chat, user, days);
    }
    assert users[..|users|] == users;
    UserRowsOf(chat, users);
  }

  /** The innermost loop for one user's `{date: count}`; `failed` when the
      chat has no name, which the first count reveals. */
  method AddDays(chat: int, user: string, days: DayCounts, names: map<int, string>, sums: Sums, lo: int, hi: int,
                 ghost done: seq<Count>, ghost inChat: seq<Count>)
    returns (failed: bool, sums': Sums, lo': int, hi': int)
    requires Named(done, names) && sums == SumsOf(done, names)
    requires lo == Lo(inChat) && hi == Hi(inChat)
    ensures failed <==> chat !in names && days != []
    ensures !failed ==> (
      && Named(done + DayRows(chat, user, days), names)
      && sums' == SumsOf(done + DayRows(chat, user, days), names)
      && lo' == Lo(inChat + DayRows(chat, user, days)) && hi' == Hi(inChat + DayRows(chat, user, days)))
  {
    failed, sums', lo', hi' := false, sums, lo, hi;
    ghost var d, c := done, inChat;
    assert DayRows(chat, user, days[..0]) == [];
    assert done + [] == done && inChat + [] == inChat;
    for k := 0 to |days|
      invariant d == done + DayRows(chat, user, days[..k]) && c == inChat + DayRows(chat, user, days[..k])
      invariant Named(d, names) && sums' == SumsOf(d, names)
      invariant lo' == Lo(c) && hi' == Hi(c)
      invariant k > 0 ==> chat in names
    {
      var (date, count) := days[k];
      var x := Count(chat, user, date, count);
      assert DayRows(chat, user, days[..k + 1]) == DayRows(chat, user, days[..k]) + [x] by {
        assert days[..k + 1][..k] == days[..k];
      }
      if date < lo' {
        lo' := date;
      }
      if date > hi' {
        hi' := date;
      }
      if chat !in names {
        return true, sums', lo', hi';
      }
      SumsStep(d, x, names);
      sums' := AddCount(sums', x, names[chat]);
      assert (c + [x])[..|c|] == c;
      AppendAssoc(done, DayRows(chat, user, days[..k]), [x]);
      AppendAssoc(inChat, DayRows(chat, user, days[..k]), [x]);
      d, c := d + [x], c + [x];
    }
    assert days[..|days|] == days;
  }

  /** A chat without a name that has a count, after named chats only, is
      the KeyError of the whole aggregation. */
  lemma UnnamedChat(data: ChatDays, names: map<int, string>, i: nat)
    requires i < |data| && data[i].0 !in names && UserRows(data[i].0, data[i].1) != []
    requires Named(Flat(data[..i]), names)
    ensures AggregatesOf(data, names) == Err(MissingKey(IntToString(data[i].0)))
  {
    var front, rows := Flat(data[..i]), UserRows(data[i].0, data[i].1);
    assert data[..i + 1][..i] == data[..i];
    assert Flat(data[..i + 1]) == front + rows;
    FlatPrefix(data, i + 1);
    UserRowsOf(data[i].0, data[i].1);
    assert Flat(data)[|front|] == (front + rows)[|front|] == rows[0];
    assert Flat(data)[..|front|] == (front + rows)[..|front|] == front;
    UnnamedAt(Flat(data), names, |front|);
  }

  /** Every count of a chat's users carries the chat's id. */
  lemma {:induction false} UserRowsOf(chat: int, users: UserDays)
    ensures forall i :: 0 <= i < |UserRows(chat, users)| ==> UserRows(chat, users)[i].chat == chat
    decreases |users|
  {
    if users != [] {
      var (user, days) := users[|users| - 1];
      UserRowsOf(chat, users[..|users| - 1]);
      DayRowsOf(chat, user, days);
    }
  }

  lemma {:induction false} DayRowsOf(chat: int, user: string, days: DayCounts)
    ensures forall i :: 0 <= i < |DayRows(chat, user, days)| ==> DayRows(chat, user, days)[i].chat == chat
    decreases |days|
  {
    if days != [] {
      DayRowsOf(chat, user, days[..|days| - 1]);
    }
  }

  lemma {:induction false} UserRowsPrefix(chat: int, users: UserDays, j: nat)
    requires j <= |users|
    ensures IsPrefix(UserRows(chat, users[..j]), UserRows(chat, users))
    decreases |users| - j
  {
    if j < |users| {
      UserRowsPrefix(chat, users, j + 1);
      assert users[..j + 1][..j] == users[..j];
      PrefixTrans(UserRows(chat, users[..j]), UserRows(chat, users[..j + 1]), UserRows(chat, users));
    } else {
      assert users[..j] == users;
    }
  }

  lemma {:induction false} FlatPrefix(data: ChatDays, i: nat)
    requires i <= |data|
    ensures IsPrefix(Flat(data[..i]), Flat(data))
    decreases |data| - i
  {
    if i < |data| {
      FlatPrefix(data, i + 1);
      assert data[..i + 1][..i] == data[..i];
      PrefixTrans(Flat(data[..i]), Flat(data[..i + 1]), Flat(data));
    } else {
      assert data[..i] == data;
    }
  }

  /** A count without a name that follows only named ones is the first. */
  lemma UnnamedAt(cs: seq<Count>, names: map<int, string>, j: nat)
    requires j < |cs| && cs[j].chat !in names && Named(cs[..j], names)
    ensures !Named(cs, names) && FirstUnnamed(cs, names) == j
  {
  }

  /** One value of the returned dicts: an image name, None, or the
      average `by_chat_agg[name] / len_days[chatid]` as its two operands. */
  datatype Shown = File(name: string) | NoFile | Avg(total: int, days: int)

  /** `ans`: the `"agg"` entry and one entry per chat id. */
  datatype Answer = Answer(agg: map<string, Shown>, chats: map<int, map<string, Shown>>)

  // ------------------------------------------------ one chat's date plot

  /** `sorted(userdata.keys())[0]`: a user's first date. */
  function FirstDay(days: DayCounts): (d: int)
    requires days != []
    ensures exists k :: 0 <= k < |days| && d == days[k].0
    ensures forall k :: 0 <= k < |days| ==> d <= days[k].0
    decreases |days|
  {
    if |days| == 1 then days[0].0
    else
      var d := FirstDay(days[..|days| - 1]);
      if days[|days| - 1].0 < d then days[|days| - 1].0 else d
  }

  /** `sorted(userdata.keys())[-1]`: a user's last date. */
  function LastDay(days: DayCounts): (d: int)
    requires days != []
    ensures exists k :: 0 <= k < |days| && d == days[k].0
    ensures forall k :: 0 <= k < |days| ==> days[k].0 <= d
    decreases |days|
  {
    if |days| == 1 then days[0].0
    else
      var d := LastDay(days[..|days| - 1]);
      if days[|days| - 1].0 > d then days[|days| - 1].0 else d
  }

  /** `dt in userdata`. */
  predicate HasDay(days: DayCounts, d: int) {
    exists k :: 0 <= k < |days| && days[k].0 == d
  }

  /** The first day from `d` to `hi` that `userdata[dt]` does not find. */
  function GapFrom(days: DayCounts, d: int, hi: int): Option<int>
    decreases hi - d
  {
    if d > hi then None
    else if !HasDay(days, d) then Some(d)
    else GapFrom(days, d + 1, hi)
  }

  /** Lines 172-179 for one user: `tmp[0]` raises IndexError for a user
      without dates, and the comprehension over `daterange(tmp[0],
      tmp[-1] + 1 day)` raises KeyError at the first day it does not find
      (a date is written by its day number). */
  function UserPlot(days: DayCounts): Result<()> {
    if days == [] then Err(IndexOutOfRange)
    else
      match GapFrom(days, FirstDay(days), LastDay(days))
      case Some(d) => Err(MissingKey(IntToString(d)))
      case None => Ok(())
  }

  /** `draw_date_plot(path, data[chatid], 10)`: the users in dict order;
      the first one that raises decides. */
  function DatePlot(users: UserDays): Result<()>
    decreases |users|
  {
    if users == [] then Ok(())
    else if DatePlot(users[..|users| - 1]).Err? then DatePlot(users[..|users| - 1])
    else UserPlot(users[|users| - 1].1)
  }

  /** The days from `d` to `hi` are all found exactly when there is no
      gap; a gap is the first day not found. */
  lemma {:induction false} GapFromMeaning(days: DayCounts, d: int, hi: int)
    ensures GapFrom(days, d, hi).None? <==> forall e :: d <= e <= hi ==> HasDay(days, e)
    ensures GapFrom(days, d, hi).Some? ==>
      var g := GapFrom(days, d, hi).value;
      d <= g <= hi && !HasDay(days, g) && forall e :: d <= e < g ==> HasDay(days, e)
    decreases hi - d
  {
    if d <= hi && HasDay(days, d) {
      GapFromMeaning(days, d + 1, hi);
    }
  }

  /** One user's plot raises exactly when the user has no dates or some
      day between the first and the last date is missing; the KeyError
      names the earliest missing day. */
  lemma UserPlotMeaning(days: DayCounts)
    ensures UserPlot(days).Ok? <==>
      days != [] && forall e :: FirstDay(days) <= e <= LastDay(days) ==> HasDay(days, e)
    ensures days == [] ==> UserPlot(days) == Err(IndexOutOfRange)
    ensures UserPlot(days).Err? && days != [] ==> exists g ::
      && FirstDay(days) < g < LastDay(days) && !HasDay(days, g)
      && (forall e :: FirstDay(days) <= e < g ==> HasDay(days, e))
      && UserPlot(days) == Err(MissingKey(IntToString(g)))
  {
    if days != [] {
      var lo, hi := FirstDay(days), LastDay(days);
      GapFromMeaning(days, lo, hi);
      assert HasDay(days, lo) && HasDay(days, hi);
    }
  }

  /** The plot raises exactly when some user's part does, and then with
      the error of the first such user. */
  lemma {:induction false} DatePlotMeaning(users: UserDays)
    ensures DatePlot(users).Ok? <==> forall j :: 0 <= j < |users| ==> UserPlot(users[j].1).Ok?
    ensures DatePlot(users).Err? ==> exists j ::
      && 0 <= j < |users| && DatePlot(users) == UserPlot(users[j].1)
      && forall i :: 0 <= i < j ==> UserPlot(users[i].1).Ok?
    decreases |users|
  {
    if users != [] {
      var init := users[..|users| - 1];
      DatePlotMeaning(init);
      assert forall j :: 0 <= j < |init| ==> users[j] == init[j];
    }
  }

  lemma {:induction false} DatePlotPrefixError(users: UserDays, j: nat)
    requires j <= |users| && DatePlot(users[..j]).Err?
    ensures DatePlot(users) == DatePlot(users[..j])
    decreases |users| - j
  {
    if j < |users| {
      assert users[..j + 1][..j] == users[..j];
      DatePlotPrefixError(users, j + 1);
    } else {
      assert users[..j] == users;
    }
  }

  /** The loop of lines 171-180 over the users. */
  method DatePlotCheck(users: UserDays) returns (r: Result<()>)
    ensures r == DatePlot(users)
  {
    for j := 0 to |users|
      invariant DatePlot(users[..j]) == Ok(())
    {
      assert users[..j + 1][..j] == users[..j];
      var u := UserPlotCheck(users[j].1);
      if u.Err? {
        DatePlotPrefixError(users, j + 1);
        return u;
      }
    }
    assert users[..|users|] == users;
    r := Ok(());
  }

  /** Lines 172-179 for one user: the comprehension over the days from
      the first date to the last is a loop. */
  method UserPlotCheck(days: DayCounts) returns (r: Result<()>)
    ensures r == UserPlot(days)
  {
    if days == [] {
      return Err(IndexOutOfRange);
    }
    var lo, hi := FirstDay(days), LastDay(days);
    var keys := set k | 0 <= k < |days| :: days[k].0;
    var d := lo;
    while d <= hi
      invariant lo <= d <= hi + 1
      invariant GapFrom(days, lo, hi) == GapFrom(days, d, hi)
      decreases hi - d
    {
      if d !in keys {
        assert !HasDay(days, d);
        return Err(MissingKey(IntToString(d)));
      }
      d := d + 1;
    }
    r := Ok(());
  }

  // ------------------------------------------------------ answer shaping

  /** Lines 283-291 for one chat whose `by_user` entry is not empty. */
  ghost function ChatEntry(feature: string, chat: int, users: UserDays, names: map<int, string>, agg: Aggregates): Result<map<string, Shown>> {
    var u := Inner(agg.byUser, chat);
    if u == map[] then Ok(map[])
    else if DatePlot(users).Err? then Err(DatePlot(users).error)
    else
      var name :- Lookup(names, chat, IntToString(chat));
      var days :- Lookup(agg.lenDays, chat, IntToString(chat));
      var prefix := IntToString(chat) + "_" + feature;
      Ok(map[
        "user" := if MapSum(u) > 0 then File(prefix + "_user.svg") else NoFile,
        "date" := File(prefix + "_date.svg"),
        "avg" := Avg(Get(agg.byChat, name), days)])
  }

  /** The per-chat entries of the chats of `data`, in order. */
  ghost function ChatEntries(feature: string, data: ChatDays, names: map<int, string>, agg: Aggregates): Result<map<int, map<string, Shown>>>
    decreases |data|
  {
    if data == [] then Ok(map[])
    else
      var m :- ChatEntries(feature, data[..|data| - 1], names, agg);
      var (chat, users) := data[|data| - 1];
      var e :- ChatEntry(feature, chat, users, names, agg);
      Ok(m[chat := e])
  }

  /** Lines 270-293: `{"agg": {}}` when nothing was counted; otherwise
      the two aggregate image names and an entry per chat. */
  ghost function AnswerOf(feature: string, data: ChatDays, names: map<int, string>, agg: Aggregates): Result<Answer> {
    if agg.byChat == map[] then Ok(Answer(map[], map[]))
    else
      var chats :- ChatEntries(feature, data, names, agg);
      Ok(Answer(map["chat" := File("agg_" + feature + "_chat.svg"), "date" := File("agg_" + feature + "_date.svg")], chats))
  }

  /** The shaping loop over the chats of `data`. */
  method Shape(feature: string, data: ChatDays, names: map<int, string>, agg: Aggregates) returns (r: Result<Answer>)
    ensures r == AnswerOf(feature, data, names, agg)
  {
    if agg.byChat == map[] {
      return Ok(Answer(map[], map[]));
    }
    var chats: map<int, map<string, Shown>> := map[];
    for i := 0 to |data|
      invariant ChatEntries(feature, data[..i], names, agg) == Ok(chats)
    {
      assert data[..i + 1][..i] == data[..i];
      var (chat, users) := data[i];
      var u := Inner(agg.byUser, chat);
      var e: map<string, Shown> := map[];
      if u != map[] {
        var plot := DatePlotCheck(users);
        if plot.Err? {
          EntriesError(feature, data, names, agg, i + 1);
          return Err(plot.error);
        }
        if chat !in names || chat !in agg.lenDays {
          EntriesError(feature, data, names, agg, i + 1);
          return Err(MissingKey(IntToString(chat)));
        }
        var total := SumValues(u);
        var prefix := IntToString(chat) + "_" + feature;
        e := map[
          "user" := if total > 0 then File(prefix + "_user.svg") else NoFile,
          "date" := File(prefix + "_date.svg"),
          "avg" := Avg(Get(agg.byChat, names[chat]), agg.lenDays[chat])];
      }
      chats := chats[chat := e];
    }
    assert data[..|data|] == data;
    r := Ok(Answer(map["chat" := File("agg_" + feature + "_chat.svg"), "date" := File("agg_" + feature + "_date.svg")], chats));
  }

  /** An error at chat `i - 1` is the error of all the entries. */
  lemma {:induction false} EntriesError(feature: string, data: ChatDays, names: map<int, string>, agg: Aggregates, i: nat)
    requires 0 < i <= |data| && ChatEntries(feature, data[..i - 1], names, agg).Ok?
    requires ChatEntry(feature, data[i - 1].0, data[i - 1].1, names, agg).Err?
    ensures ChatEntries(feature, data, names, agg) == Err(ChatEntry(feature, data[i - 1].0, data[i - 1].1, names, agg).error)
    decreases |data| - i
  {
    assert data[..i][..i - 1] == data[..i - 1];
    if i < |data| {
      EntriesPrefixError(feature, data, names, agg, i);
    } else {
      assert data[..i] == data;
    }
  }

  lemma {:induction false} EntriesPrefixError(feature: string, data: ChatDays, names: map<int, string>, agg: Aggregates, i: nat)
    requires i <= |data| && ChatEntries(feature, data[..i], names, agg).Err?
    ensures ChatEntries(feature, data, names, agg) == ChatEntries(feature, data[..i], names, agg)
    decreases |data| - i
  {
    if i < |data| {
      assert data[..i + 1][..i] == data[..i];
      EntriesPrefixError(feature, data, names, agg, i + 1);
    } else {
      assert data[..i] == data;
    }
  }

  /** The whole of `draw_symb_msg_word`, images aside. */
  ghost function SymbMsgWordOf(feature: string, data: ChatDays, names: map<int, string>): Result<Answer> {
    var agg :- AggregatesOf(data, names);
    AnswerOf(feature, data, names, agg)
  }

  method DrawSymbMsgWord(feature: string, data: ChatDays, names: map<int, string>) returns (r: Result<Answer>)
    ensures r == SymbMsgWordOf(feature, data, names)
  {
    var agg :- Aggregate(data, names);
    r := Shape(feature, data, names, agg);
  }

  /** Each total is the sum of the counts filed under its key: a chat
      name's counts over all chats, a user's counts of one date over all
      chats, a user's counts within one chat over all dates. */
  lemma AggregatesMeaning(data: ChatDays, names: map<int, string>, agg: Aggregates)
    requires AggregatesOf(data, names) == Ok(agg)
    ensures Named(Flat(data), names)
    ensures forall name :: Get(agg.byChat, name) == Total(ChatRows(Flat(data), names), name)
    ensures forall user :: Inner(agg.byDate, user) == Tally(Under(DateRows(Flat(data)), user))
    ensures forall chat :: Inner(agg.byUser, chat) == Tally(Under(ChatUserRows(Flat(data)), chat))
  {
    var cs := Flat(data);
    TallyCounts(ChatRows(cs, names));
    Tally2Counts(DateRows(cs));
    Tally2Counts(ChatUserRows(cs));
  }

  /** `by_chat_agg` is empty exactly when nothing was counted. */
  lemma AggregatesEmpty(data: ChatDays, names: map<int, string>, agg: Aggregates)
    requires AggregatesOf(data, names) == Ok(agg)
    ensures agg.byChat == map[] <==> Flat(data) == []
  {
    var cs := Flat(data);
    ChatRowsLength(cs, names);
    if cs != [] {
      TallyCounts(ChatRows(cs, names));
      assert ChatRows(cs, names)[0].0 in agg.byChat;
    }
  }

  lemma {:induction false} ChatRowsLength(cs: seq<Count>, names: map<int, string>)
    requires Named(cs, names)
    ensures |ChatRows(cs, names)| == |cs|
    decreases |cs|
  {
    if cs != [] {
      ChatRowsLength(cs[..|cs| - 1], names);
    }
  }

  /** `date_min` and `date_max` end as the least and the greatest date of
      a chat with dates (all dates lying between `date.min` and
      `date.max`), so its length is at least one day; a chat without dates
      gets the length `date.min - date.max + 1`, which is negative. */
  lemma {:induction false} SpanBounds(cs: seq<Count>)
    requires forall i :: 0 <= i < |cs| ==> DateMin <= cs[i].date <= DateMax
    ensures cs == [] ==> Hi(cs) - Lo(cs) + 1 == DateMin - DateMax + 1
    ensures cs != [] ==> (
      && (exists i :: 0 <= i < |cs| && Lo(cs) == cs[i].date)
      && (exists i :: 0 <= i < |cs| && Hi(cs) == cs[i].date)
      && (forall i :: 0 <= i < |cs| ==> Lo(cs) <= cs[i].date <= Hi(cs))
      && Hi(cs) - Lo(cs) + 1 >= 1)
    decreases |cs|
  {
    if cs != [] {
      var init := cs[..|cs| - 1];
      SpanBounds(init);
      var last := |cs| - 1;
      if init == [] {
        assert Lo(cs) == cs[last].date && Hi(cs) == cs[last].date;
      } else {
        var a :| 0 <= a < |init| && Lo(init) == init[a].date;
        var b :| 0 <= b < |init| && Hi(init) == init[b].date;
        assert Lo(cs) == cs[if cs[last].date < Lo(init) then last else a].date;
        assert Hi(cs) == cs[if cs[last].date > Hi(init) then last else b].date;
        forall i | 0 <= i < |cs| ensures Lo(cs) <= cs[i].date <= Hi(cs) {
          if i < last { assert cs[i] == init[i]; }
        }
      }
    }
  }

  /** Each chat of `data` gets the entry its chat id computes. */
  lemma {:induction false} EntriesAt(feature: string, data: ChatDays, names: map<int, string>, agg: Aggregates, m: map<int, map<string, Shown>>)
    requires ChatEntries(feature, data, names, agg) == Ok(m)
    ensures forall i :: 0 <= i < |data| ==> data[i].0 in m && ChatEntry(feature, data[i].0, data[i].1, names, agg) == Ok(m[data[i].0])
    decreases |data|
  {
    if data != [] {
      var init := data[..|data| - 1];
      var (chat, users) := data[|data| - 1];
      var m0 := ChatEntries(feature, init, names, agg).value;
      EntriesAt(feature, init, names, agg, m0);
      forall i | 0 <= i < |data|
        ensures data[i].0 in m && ChatEntry(feature, data[i].0, data[i].1, names, agg) == Ok(m[data[i].0])
      {
        if i < |init| {
          assert data[i] == init[i];
          if data[i].0 == chat {
            EntryOfChat(feature, chat, data[i].1, users, names, agg);
          }
        }
      }
    }
  }

  /** A successful entry depends on the chat id alone. */
  lemma EntryOfChat(feature: string, chat: int, users: UserDays, users': UserDays, names: map<int, string>, agg: Aggregates)
    requires ChatEntry(feature, chat, users, names, agg).Ok? && ChatEntry(feature, chat, users', names, agg).Ok?
    ensures ChatEntry(feature, chat, users, names, agg) == ChatEntry(feature, chat, users', names, agg)
  {
  }

  /** Lines 270-273: with no count at all the answer is `{"agg": {}}`,
      and only then is `"agg"` empty. */
  lemma SymbMsgWordEmpty(feature: string, data: ChatDays, names: map<int, string>, agg: Aggregates, ans: Answer)
    requires AggregatesOf(data, names) == Ok(agg) && AnswerOf(feature, data, names, agg) == Ok(ans)
    ensures ans.agg == map[] <==> Flat(data) == []
    ensures Flat(data) == [] ==> ans == Answer(map[], map[])
  {
    AggregatesEmpty(data, names, agg);
    if agg.byChat == map[] {
      assert ans == Answer(map[], map[]);
    } else {
      assert "chat" in ans.agg;
    }
  }

  /** The shaping of one chat's entry, for any totals. */
  lemma AnswerChat(feature: string, data: ChatDays, names: map<int, string>, agg: Aggregates, ans: Answer, i: nat)
    requires AnswerOf(feature, data, names, agg) == Ok(ans) && agg.byChat != map[] && i < |data|
    ensures var chat := data[i].0;
      var u := Inner(agg.byUser, chat);
      && chat in ans.chats
      && (ans.chats[chat] == map[] <==> u == map[])
      && (u != map[] ==> (
        && DatePlot(data[i].1) == Ok(())
        && ans.chats[chat].Keys == {"user", "date", "avg"}
        && ans.chats[chat]["user"] == (if MapSum(u) > 0 then File(IntToString(chat) + "_" + feature + "_user.svg") else NoFile)
        && ans.chats[chat]["date"] == File(IntToString(chat) + "_" + feature + "_date.svg")))
  {
    var m := ChatEntries(feature, data, names, agg).value;
    assert ans.chats == m;
    EntriesAt(feature, data, names, agg, m);
    var chat := data[i].0;
    assert ChatEntry(feature, chat, data[i].1, names, agg) == Ok(m[chat]);
    if Inner(agg.byUser, chat) != map[] {
      assert "user" in m[chat];
    }
  }

  /** A chat with counts whose date plot raises makes the whole shaping
      raise that error, once the chats before it have their entries. */
  lemma DatePlotRaises(feature: string, data: ChatDays, names: map<int, string>, agg: Aggregates, i: nat)
    requires agg.byChat != map[] && i < |data| && ChatEntries(feature, data[..i], names, agg).Ok?
    requires Inner(agg.byUser, data[i].0) != map[] && DatePlot(data[i].1).Err?
    ensures AnswerOf(feature, data, names, agg) == Err(DatePlot(data[i].1).error)
  {
    EntriesError(feature, data, names, agg, i + 1);
  }

  /** `data = {7: {"a": {10: 1, 12: 1}}}` with `chatnames = {7: "c"}`:
      the chat's date plot does not find day 11. */
  lemma DateGapSample()
    ensures SymbMsgWordOf("msg", [(7, [("a", [(10, 1), (12, 1)])])], map[7 := "c"]) == Err(MissingKey("11"))
  {
    var data: ChatDays := [(7, [("a", [(10, 1), (12, 1)])])];
    var names := map[7 := "c"];
    SampleCounted();
    var agg := AggregatesOf(data, names).value;
    SamplePlot();
    assert data[..0] == [];
    DatePlotRaises("msg", data, names, agg, 0);
  }

  lemma SampleFlat()
    ensures Flat([(7, [("a", [(10, 1), (12, 1)])])]) == [Count(7, "a", 10, 1), Count(7, "a", 12, 1)]
  {
    var days: DayCounts := [(10, 1), (12, 1)];
    var users: UserDays := [("a", days)];
    var data: ChatDays := [(7, users)];
    assert days[..1] == [(10, 1)] && days[..1][..0] == [];
    assert DayRows(7, "a", days[..1]) == [Count(7, "a", 10, 1)];
    assert users[..0] == [] && data[..0] == [];
  }

  /** The sample chat is named and has counts. */
  lemma SampleCounted()
    ensures var data: ChatDays := [(7, [("a", [(10, 1), (12, 1)])])];
      && AggregatesOf(data, map[7 := "c"]).Ok?
      && AggregatesOf(data, map[7 := "c"]).value.byChat != map[]
      && Inner(AggregatesOf(data, map[7 := "c"]).value.byUser, 7) != map[]
  {
    SampleFlat();
    var cs := [Count(7, "a", 10, 1), Count(7, "a", 12, 1)];
    var names := map[7 := "c"];
    assert Named(cs, names);
    assert cs[..1][..0] == [] && cs[..1] == [Count(7, "a", 10, 1)];
    var rows := ChatRows(cs, names);
    assert rows == ChatRows(cs[..1], names) + [("c", 1)];
    assert "c" in Tally(rows);
    var urows := ChatUserRows(cs);
    assert urows == ChatUserRows(cs[..1]) + [(7, "a", 1)];
    assert "a" in Inner(Tally2(urows), 7);
  }

  /** The sample user's plot stops at day 11. */
  lemma SamplePlot()
    ensures DatePlot([("a", [(10, 1), (12, 1)])]) == Err(MissingKey("11"))
  {
    var days: DayCounts := [(10, 1), (12, 1)];
    var users: UserDays := [("a", days)];
    assert days[..1] == [(10, 1)];
    assert FirstDay(days) == 10 && LastDay(days) == 12;
    assert HasDay(days, 10) && !HasDay(days, 11);
    assert GapFrom(days, 10, 12) == Some(11);
    assert IntToString(11) == "11";
    assert users[..0] == [];
  }

  /** Lines 280-291 for the chat `chat` whose counts are `rows`: it has
      an entry, empty exactly when there are no rows, and otherwise
      holding `"user"` (an image name when the counts add up to more than
      0, else None), `"date"` and `"avg"`. */
  ghost predicate EntryShows(feature: string, ans: Answer, chat: int, rows: seq<(string, int)>) {
    && chat in ans.chats
    && (ans.chats[chat] == map[] <==> rows == [])
    && (rows != [] ==> (
      && ans.chats[chat].Keys == {"user", "date", "avg"}
      && ans.chats[chat]["user"] == (if SumAll(rows) > 0 then File(IntToString(chat) + "_" + feature + "_user.svg") else NoFile)
      && ans.chats[chat]["date"] == File(IntToString(chat) + "_" + feature + "_date.svg")))
  }

  /** Every chat id of `data` gets the entry its counts over all the
      dates call for. */
  lemma SymbMsgWordChat(feature: string, data: ChatDays, names: map<int, string>, agg: Aggregates, ans: Answer, i: nat)
    requires AggregatesOf(data, names) == Ok(agg) && AnswerOf(feature, data, names, agg) == Ok(ans)
    requires Flat(data) != [] && i < |data|
    ensures EntryShows(feature, ans, data[i].0, Under(ChatUserRows(Flat(data)), data[i].0))
  {
    AggregatesEmpty(data, names, agg);
    var chat := data[i].0;
    var rows := Under(ChatUserRows(Flat(data)), chat);
    ByUserOf(data, names, agg, chat);
    AnswerChatRows(feature, data, names, agg, ans, i, rows);
  }

  /** `by_user[chatid]` tallies the rows of that chat. */
  lemma ByUserOf(data: ChatDays, names: map<int, string>, agg: Aggregates, chat: int)
    requires AggregatesOf(data, names) == Ok(agg)
    ensures Inner(agg.byUser, chat) == Tally(Under(ChatUserRows(Flat(data)), chat))
  {
    Tally2Counts(ChatUserRows(Flat(data)));
  }

  /** The entry of a chat whose counts are the rows `rows`. */
  lemma AnswerChatRows(feature: string, data: ChatDays, names: map<int, string>, agg: Aggregates, ans: Answer, i: nat, rows: seq<(string, int)>)
    requires AnswerOf(feature, data, names, agg) == Ok(ans) && agg.byChat != map[] && i < |data|
    requires Inner(agg.byUser, data[i].0) == Tally(rows)
    ensures EntryShows(feature, ans, data[i].0, rows)
  {
    AnswerChat(feature, data, names, agg, ans, i);
    TallyCounts(rows);
    if rows != [] {
      assert rows[0].0 in Tally(rows);
    }
  }
}
