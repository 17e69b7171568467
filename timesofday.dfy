/** `draw_timesofday` of tganalyzer/html_export/__init__.py: the per-chat
    `{user: {time of day: count}}` data is added up by time of day over
    all chats and by time of day within each chat; the time-of-day keys
    are then translated to their display names, and the returned dict of
    image names is shaped. A dict whose key order matters is a map with
    the list of its keys in insertion order. */
module TimesOfDay {
  import opened Values
  import opened Counters
  import opened Tallies
  import opened Seqs

  /** `{time of day: count}` of one user, in dict order. */
  type TodCounts = seq<(string, int)>
  /** `{user: {time of day: count}}` of one chat. */
  type UserTods = seq<(string, TodCounts)>
  /** `{chat id: {user: {time of day: count}}}`. */
  type ChatTods = seq<(int, UserTods)>

  /** `TEXT["features"]["day_night"]["timesofday"]` for a catalogue that
      leaves its message ids untranslated, as the default `en_US.UTF-8`
      one does; every other locale gives its own table, which the
      operations below take as `names`. */
  const Names: map<string, string> :=
    map["night" := "Night", "morning" := "Morning", "afternoon" := "Noon", "evening" := "Evening"]

  /** Two times of day never share a display name. */
  lemma NamesInjective()
    ensures Injective(Names)
  {
  }

  /** `(chat id, time of day, count)` for one user's dict. */
  function TodRows(chat: int, tods: TodCounts): seq<(int, string, int)>
    decreases |tods|
  {
    if tods == [] then []
    else
      var (tod, n) := tods[|tods| - 1];
      TodRows(chat, tods[..|tods| - 1]) + [(chat, tod, n)]
  }

  function UserRows(chat: int, users: UserTods): seq<(int, string, int)>
    decreases |users|
  {
    if users == [] then []
    else UserRows(chat, users[..|users| - 1]) + TodRows(chat, users[|users| - 1].1)
  }

  /** The innermost loop bodies in the order the three loops run them. */
  function Rows(data: ChatTods): seq<(int, string, int)>
    decreases |data|
  {
    if data == [] then []
    else
      var (chat, users) := data[|data| - 1];
      Rows(data[..|data| - 1]) + UserRows(chat, users)
  }

  /** `quantity_agg[tod] += count` rows. */
  function AggRows(rows: seq<(int, string, int)>): seq<(string, int)>
    decreases |rows|
  {
    if rows == [] then []
    else
      var (_, tod, n) := rows[|rows| - 1];
      AggRows(rows[..|rows| - 1]) + [(tod, n)]
  }

  /** The insertion order of a dict's keys after `d[k] += v` for every row
      in turn: a key is appended when first met. */
  function KeyOrder<K(==)>(rows: seq<(K, int)>): seq<K>
    decreases |rows|
  {
    if rows == [] then []
    else
      var order := KeyOrder(rows[..|rows| - 1]);
      if rows[|rows| - 1].0 in order then order else order + [rows[|rows| - 1].0]
  }

  /** The ordered keys are the rows' keys. */
  lemma {:induction false} KeyOrderKeys<K>(rows: seq<(K, int)>)
    ensures forall k :: k in KeyOrder(rows) <==> exists i :: 0 <= i < |rows| && rows[i].0 == k
    decreases |rows|
  {
    if rows != [] {
      var init := rows[..|rows| - 1];
      KeyOrderKeys(init);
      forall j ensures j in KeyOrder(rows) <==> exists i :: 0 <= i < |rows| && rows[i].0 == j {
        if j in KeyOrder(init) {
          var i :| 0 <= i < |init| && init[i].0 == j;
          assert rows[i] == init[i];
        }
        if exists i :: 0 <= i < |rows| && rows[i].0 == j {
          var i :| 0 <= i < |rows| && rows[i].0 == j;
          if i < |init| { assert init[i] == rows[i]; }
        }
      }
    }
  }

  /** `quantity_agg` with its key order, and `quantity`. */
  datatype Tods = Tods(agg: map<string, int>, order: seq<string>, byChat: map<int, map<string, int>>)

  /** Lines 425-427 for one row. */
  function AddRow(t: Tods, r: (int, string, int)): Tods {
    var (chat, tod, n) := r;
    Tods(
      Bump(t.agg, tod, n),
      if tod in t.agg then t.order else t.order + [tod],
      t.byChat[chat := Bump(Inner(t.byChat, chat), tod, n)])
  }

  /** The dicts after the rows `rows`: the counts added up by time of day
      over everything and within each chat. */
  function TodsOf(rows: seq<(int, string, int)>): Tods {
    Tods(Tally(AggRows(rows)), KeyOrder(AggRows(rows)), Tally2(rows))
  }

  lemma TodsStep(rows: seq<(int, string, int)>, r: (int, string, int))
    ensures TodsOf(rows + [r]) == AddRow(TodsOf(rows), r)
  {
    assert (rows + [r])[..|rows|] == rows;
    var a := AggRows(rows);
    assert AggRows(rows + [r]) == a + [(r.1, r.2)];
    assert (a + [(r.1, r.2)])[..|a|] == a;
    TallyCounts(a);
    KeyOrderKeys(a);
  }

  /** Lines 423-427: the three nested loops; the loops over a chat's
      users and over a user's times of day are `AddUsers` and `AddTods`. */
  method Aggregate(data: ChatTods) returns (t: Tods)
    ensures t == TodsOf(Rows(data))
  {
    t := Tods(map[], [], map[]);
    for i := 0 to |data|
      invariant t == TodsOf(Rows(data[..i]))
    {
      var (chat, users) := data[i];
      assert data[..i + 1][..i] == data[..i];
      t := AddUsers(chat, users, t, Rows(data[..i]));
    }
    assert data[..|data|] == data;
  }

  method AddUsers(chat: int, users: UserTods, t: Tods, ghost done: seq<(int, string, int)>) returns (t': Tods)
    requires t == TodsOf(done)
    ensures t' == TodsOf(done + UserRows(chat, users))
  {
    t' := t;
    assert done + UserRows(chat, users[..0]) == done;
    for j := 0 to |users|
      invariant t' == TodsOf(done + UserRows(chat, users[..j]))
    {
      assert users[..j + 1][..j] == users[..j];
      AppendAssoc(done, UserRows(chat, users[..j]), TodRows(chat, users[j].1));
      assert UserRows(chat, users[..j + 1]) == UserRows(chat, users[..j]) + TodRows(chat, users[j].1);
      t' := AddTods(chat, users[j].1, t', done + UserRows(chat, users[..j]));
    }
    assert users[..|users|] == users;
  }

  method AddTods(chat: int, tods: TodCounts, t: Tods, ghost done: seq<(int, string, int)>) returns (t': Tods)
    requires t == TodsOf(done)
    ensures t' == TodsOf(done + TodRows(chat, tods))
  {
    t' := t;
    assert done + TodRows(chat, tods[..0]) == done;
    for k := 0 to |tods|
      invariant t' == TodsOf(done + TodRows(chat, tods[..k]))
    {
      var (tod, count) := tods[k];
      assert tods[..k + 1][..k] == tods[..k];
      AppendAssoc(done, TodRows(chat, tods[..k]), [(chat, tod, count)]);
      TodsStep(done + TodRows(chat, tods[..k]), (chat, tod, count));
      t' := Tods(
        Bump(t'.agg, tod, count),
        if tod in t'.agg then t'.order else t'.order + [tod],
        t'.byChat[chat := Bump(Inner(t'.byChat, chat), tod, count)]);
    }
    assert tods[..|tods|] == tods;
  }

  /** No two keys share a value. */
  predicate Injective(names: map<string, string>) {
    forall a, b :: a in names && b in names && a != b ==> names[a] != names[b]
  }

  /** `{names[k]: value for k, value in d.items()}` for the keys that
      have a value in `names`. */
  function RenamedBy(names: map<string, string>, m: map<string, int>): map<string, int>
    requires Injective(names)
  {
    map k | k in m && k in names :: names[k] := m[k]
  }

  /** The first key, in the order given, without a display name. */
  function FirstMissing(names: map<string, string>, keys: seq<string>): Option<string>
    decreases |keys|
  {
    if keys == [] then None
    else
      var first := FirstMissing(names, keys[..|keys| - 1]);
      if first.Some? then first
      else if keys[|keys| - 1] in names then None
      else Some(keys[|keys| - 1])
  }

  /** The first row, in row order, whose key has no display name. */
  function FirstMissingRow(names: map<string, string>, rows: seq<(string, int)>): Option<string>
    decreases |rows|
  {
    if rows == [] then None
    else
      var first := FirstMissingRow(names, rows[..|rows| - 1]);
      if first.Some? then first
      else if rows[|rows| - 1].0 in names then None
      else Some(rows[|rows| - 1].0)
  }

  lemma {:induction false} MissingNone(names: map<string, string>, keys: seq<string>)
    ensures FirstMissing(names, keys) == None <==> forall i :: 0 <= i < |keys| ==> keys[i] in names
    ensures FirstMissing(names, keys).Some? ==> FirstMissing(names, keys).value !in names && FirstMissing(names, keys).value in keys
    decreases |keys|
  {
    if keys != [] {
      var init := keys[..|keys| - 1];
      MissingNone(names, init);
      assert forall i :: 0 <= i < |init| ==> keys[i] == init[i];
    }
  }

  lemma {:induction false} MissingRowNone(names: map<string, string>, rows: seq<(string, int)>)
    ensures FirstMissingRow(names, rows) == None <==> forall i :: 0 <= i < |rows| ==> rows[i].0 in names
    decreases |rows|
  {
    if rows != [] {
      var init := rows[..|rows| - 1];
      MissingRowNone(names, init);
      assert forall i :: 0 <= i < |init| ==> rows[i] == init[i];
    }
  }

  /** Lines 433-436: going through `quantity_agg` in insertion order, the
      comprehension meets as its first key without a display name the
      time of day of the first row that has none. */
  lemma {:induction false} KeyOrderMissing(names: map<string, string>, rows: seq<(string, int)>)
    ensures FirstMissing(names, KeyOrder(rows)) == FirstMissingRow(names, rows)
    decreases |rows|
  {
    if rows != [] {
      var init := rows[..|rows| - 1];
      var order := KeyOrder(init);
      var k := rows[|rows| - 1].0;
      KeyOrderMissing(names, init);
      if k in order {
        if FirstMissing(names, order) == None {
          MissingNone(names, order);
        }
      } else {
        assert (order + [k])[..|order|] == order;
      }
    }
  }

  /** The comprehension over `quantity_agg`, its keys taken in insertion
      order: KeyError at the first key without a display name, else the
      renamed dict. */
  method RenameAgg(names: map<string, string>, m: map<string, int>, order: seq<string>) returns (r: Result<map<string, int>>)
    requires Injective(names)
    ensures r == if FirstMissing(names, order).Some? then Err(MissingKey(FirstMissing(names, order).value)) else Ok(RenamedBy(names, m))
  {
    for i := 0 to |order|
      invariant FirstMissing(names, order[..i]) == None
    {
      assert order[..i + 1][..i] == order[..i];
      if order[i] !in names {
        MissingPrefix(names, order, i + 1);
        return Err(MissingKey(order[i]));
      }
    }
    assert order[..|order|] == order;
    r := Ok(RenamedBy(names, m));
  }

  /** A missing key in a prefix is the first missing key of all. */
  lemma {:induction false} MissingPrefix(names: map<string, string>, keys: seq<string>, i: nat)
    requires i <= |keys| && FirstMissing(names, keys[..i]).Some?
    ensures FirstMissing(names, keys) == FirstMissing(names, keys[..i])
    decreases |keys| - i
  {
    if i < |keys| {
      assert keys[..i + 1][..i] == keys[..i];
      MissingPrefix(names, keys, i + 1);
    } else {
      assert keys[..i] == keys;
    }
  }

  /** Taking one named key out before or after renaming agrees. */
  lemma RenamedRemove(names: map<string, string>, m: map<string, int>, k: string)
    requires Injective(names) && k in m && k in names
    ensures names[k] in RenamedBy(names, m) && RenamedBy(names, m)[names[k]] == m[k]
    ensures RenamedBy(names, m) - {names[k]} == RenamedBy(names, m - {k})
  {
    var r, r' := RenamedBy(names, m) - {names[k]}, RenamedBy(names, m - {k});
    forall j | j in r ensures j in r' && r[j] == r'[j] {
      var i :| i in m && i in names && names[i] == j;
    }
    forall j | j in r' ensures j in r {
      var i :| i in m - {k} && i in names && names[i] == j;
    }
    assert r == r';
  }

  /** Renaming keeps the sum of the values when every key has a new
      name. */
  lemma {:induction false} RenamedSum(names: map<string, string>, m: map<string, int>)
    requires Injective(names)
    requires forall k :: k in m ==> k in names
    ensures MapSum(RenamedBy(names, m)) == MapSum(m)
    decreases |m|
  {
    if m != map[] {
      var k :| k in m;
      RenamedSum(names, m - {k});
      RenamedRemove(names, m, k);
      MapSumRemove(m, k);
      MapSumRemove(RenamedBy(names, m), names[k]);
    } else {
      assert RenamedBy(names, m) == map[];
    }
  }

  /** `ans`: the `"agg"` entry and one entry per chat id. */
  datatype Answer = Answer(agg: map<string, Option<string>>, chats: map<int, map<string, Option<string>>>)

  /** Lines 452-473 for one chat id. */
  ghost function ChatEntry(names: map<string, string>, chat: int, t: Tods): map<string, Option<string>>
    requires Injective(names)
  {
    PieEntry(names, Inner(t.byChat, chat), IntToString(chat) + "_timesofday.svg")
  }

  /** No entry for an empty dict; otherwise the pie's file name, drawn
      only when the renamed values add up to more than zero. */
  ghost function PieEntry(names: map<string, string>, q: map<string, int>, name: string): map<string, Option<string>>
    requires Injective(names)
  {
    if q == map[] then map[]
    else map["quantity" := ImageIf(MapSum(RenamedBy(names, q)) > 0, name)]
  }

  ghost function ChatEntries(names: map<string, string>, data: ChatTods, t: Tods): map<int, map<string, Option<string>>>
    requires Injective(names)
    decreases |data|
  {
    if data == [] then map[]
    else ChatEntries(names, data[..|data| - 1], t)[data[|data| - 1].0 := ChatEntry(names, data[|data| - 1].0, t)]
  }

  /** Lines 429-475 after the loops: `{"agg": {}}` when nothing was
      counted, KeyError when a time of day has no display name, otherwise
      the aggregate image name and an entry per chat id. */
  ghost function AnswerOf(names: map<string, string>, data: ChatTods, t: Tods): Result<Answer>
    requires Injective(names)
  {
    if t.agg == map[] then Ok(Answer(map[], map[]))
    else if FirstMissing(names, t.order).Some? then Err(MissingKey(FirstMissing(names, t.order).value))
    else Ok(Answer(map["quantity" := ImageIf(MapSum(RenamedBy(names, t.agg)) > 0, "agg_timesofday.svg")], ChatEntries(names, data, t)))
  }

  /** The whole of `draw_timesofday`, images aside. */
  ghost function TimesOfDayOf(names: map<string, string>, data: ChatTods): Result<Answer>
    requires Injective(names)
  {
    AnswerOf(names, data, TodsOf(Rows(data)))
  }

  method DrawTimesOfDay(names: map<string, string>, data: ChatTods) returns (r: Result<Answer>)
    requires Injective(names)
    ensures r == TimesOfDayOf(names, data)
  {
    var t := Aggregate(data);
    r := Shape(names, data, t);
  }

  method Shape(names: map<string, string>, data: ChatTods, t: Tods) returns (r: Result<Answer>)
    requires Injective(names)
    ensures r == AnswerOf(names, data, t)
  {
    if t.agg == map[] {
      return Ok(Answer(map[], map[]));
    }
    var renamed :- RenameAgg(names, t.agg, t.order);
    var total := SumValues(renamed);
    var agg := map["quantity" := if total > 0 then Some("agg_timesofday.svg") else None];
    var chats := ShapeChats(names, data, t);
    r := Ok(Answer(agg, chats));
  }

  /** Lines 452-473: one entry per chat id. */
  method ShapeChats(names: map<string, string>, data: ChatTods, t: Tods) returns (chats: map<int, map<string, Option<string>>>)
    requires Injective(names)
    ensures chats == ChatEntries(names, data, t)
  {
    chats := map[];
    for i := 0 to |data|
      invariant chats == ChatEntries(names, data[..i], t)
    {
      assert data[..i + 1][..i] == data[..i];
      var chat := data[i].0;
      var q := Inner(t.byChat, chat);
      var e: map<string, Option<string>> := map[];
      if q != map[] {
        var sum := SumValues(RenamedBy(names, q));
        e := e["quantity" := if sum > 0 then Some(IntToString(chat) + "_timesofday.svg") else None];
      }
      chats := chats[chat := e];
    }
    assert data[..|data|] == data;
  }

  lemma {:induction false} AggRowsAt(rows: seq<(int, string, int)>)
    ensures |AggRows(rows)| == |rows|
    ensures forall i :: 0 <= i < |rows| ==> AggRows(rows)[i] == (rows[i].1, rows[i].2)
    decreases |rows|
  {
    if rows != [] {
      AggRowsAt(rows[..|rows| - 1]);
    }
  }

  /** Lines 423-427: `quantity_agg[tod]` is the sum of the counts of that
      time of day over all users and chats, its keys in the order they
      were first met; `quantity[chatid]` tallies the counts of that chat
      by time of day. */
  lemma TodsMeaning(data: ChatTods)
    ensures var t := TodsOf(Rows(data));
      && (forall tod :: Get(t.agg, tod) == Total(AggRows(Rows(data)), tod))
      && MapSum(t.agg) == SumAll(AggRows(Rows(data)))
      && (forall tod :: tod in t.order <==> tod in t.agg)
      && (forall chat :: Inner(t.byChat, chat) == Tally(Under(Rows(data), chat)))
  {
    var a := AggRows(Rows(data));
    TallyCounts(a);
    KeyOrderKeys(a);
    Tally2Counts(Rows(data));
  }

  /** Nothing is counted exactly when there are no rows. */
  lemma AggEmpty(rows: seq<(int, string, int)>)
    ensures TodsOf(rows).agg == map[] <==> rows == []
  {
    if rows != [] {
      var a := AggRows(rows);
      assert a[|a| - 1].0 in Tally(a);
    }
  }

  /** Lines 429-431: with no count at all the answer is `{"agg": {}}`;
      with a count the answer is a KeyError or has a non-empty `"agg"`. */
  lemma TimesOfDayEmpty(names: map<string, string>, data: ChatTods)
    requires Injective(names)
    ensures Rows(data) == [] ==> TimesOfDayOf(names, data) == Ok(Answer(map[], map[]))
    ensures Rows(data) != [] ==> TimesOfDayOf(names, data).Err? || TimesOfDayOf(names, data).value.agg != map[]
  {
    AggEmpty(Rows(data));
    if Rows(data) != [] && TimesOfDayOf(names, data).Ok? {
      assert "quantity" in TimesOfDayOf(names, data).value.agg;
    }
  }

  /** Lines 433-436: the answer is a KeyError exactly when some count's
      time of day has no display name, and it names the first such time
      of day in the order of the counts. */
  lemma TimesOfDayError(names: map<string, string>, data: ChatTods)
    requires Injective(names)
    ensures TimesOfDayOf(names, data).Err? <==> FirstMissingRow(names, AggRows(Rows(data))).Some?
    ensures TimesOfDayOf(names, data).Err? ==> TimesOfDayOf(names, data).error == MissingKey(FirstMissingRow(names, AggRows(Rows(data))).value)
  {
    var a := AggRows(Rows(data));
    KeyOrderMissing(names, a);
    AggEmpty(Rows(data));
    if Rows(data) == [] {
      assert a == [];
    }
  }

  /** Without a KeyError every counted time of day has a display name. */
  lemma AllNamed(names: map<string, string>, data: ChatTods)
    requires Injective(names)
    requires TimesOfDayOf(names, data).Ok?
    ensures forall i :: 0 <= i < |Rows(data)| ==> Rows(data)[i].1 in names
  {
    TimesOfDayError(names, data);
    MissingRowNone(names, AggRows(Rows(data)));
    AggRowsAt(Rows(data));
  }

  /** Lines 429-447: when something was counted, `"agg"` names the pie
      of all chats exactly when the counts add up to more than zero. */
  lemma TimesOfDayAgg(names: map<string, string>, data: ChatTods, ans: Answer)
    requires Injective(names)
    requires TimesOfDayOf(names, data) == Ok(ans) && Rows(data) != []
    ensures ans.agg == map["quantity" := ImageIf(SumAll(AggRows(Rows(data))) > 0, "agg_timesofday.svg")]
  {
    var t := TodsOf(Rows(data));
    AggEmpty(Rows(data));
    AggNamed(names, data);
    AggSum(Rows(data));
    RenamedSum(names, t.agg);
    AnswerAgg(names, data, t, ans, SumAll(AggRows(Rows(data))));
  }

  /** The `"agg"` entry of an answer shaped from `t`, when the renamed
      counts add up to `total`. */
  lemma AnswerAgg(names: map<string, string>, data: ChatTods, t: Tods, ans: Answer, total: int)
    requires Injective(names)
    requires AnswerOf(names, data, t) == Ok(ans) && t.agg != map[]
    requires MapSum(RenamedBy(names, t.agg)) == total
    ensures ans.agg == map["quantity" := ImageIf(total > 0, "agg_timesofday.svg")]
  {
  }

  /** `sum(quantity_agg.values())` is the sum of all the counts. */
  lemma AggSum(rows: seq<(int, string, int)>)
    ensures MapSum(TodsOf(rows).agg) == SumAll(AggRows(rows))
  {
    TallyCounts(AggRows(rows));
  }

  /** Without a KeyError every key of `quantity_agg` has a display name. */
  lemma AggNamed(names: map<string, string>, data: ChatTods)
    requires Injective(names)
    requires TimesOfDayOf(names, data).Ok?
    ensures forall k :: k in TodsOf(Rows(data)).agg ==> k in names
  {
    var rows := Rows(data);
    var a := AggRows(rows);
    AllNamed(names, data);
    AggRowsAt(rows);
    TallyCounts(a);
    forall k | k in Tally(a) ensures k in names {
      var i :| 0 <= i < |a| && a[i].0 == k;
    }
  }

  /** The chat entries are those of the chat ids of `data`, each shaped
      from its own counts. */
  lemma {:induction false} ChatEntriesKeys(names: map<string, string>, data: ChatTods, t: Tods)
    requires Injective(names)
    ensures forall c :: c in ChatEntries(names, data, t) <==> exists j :: 0 <= j < |data| && data[j].0 == c
    ensures forall c :: c in ChatEntries(names, data, t) ==> ChatEntries(names, data, t)[c] == ChatEntry(names, c, t)
    decreases |data|
  {
    if data != [] {
      var init := data[..|data| - 1];
      ChatEntriesKeys(names, init, t);
      forall c ensures c in ChatEntries(names, data, t) <==> exists j :: 0 <= j < |data| && data[j].0 == c {
        if c in ChatEntries(names, init, t) {
          var j :| 0 <= j < |init| && init[j].0 == c;
          assert data[j] == init[j];
        }
        if exists j :: 0 <= j < |data| && data[j].0 == c {
          var j :| 0 <= j < |data| && data[j].0 == c;
          if j < |init| { assert init[j] == data[j]; }
        }
      }
    }
  }

  /** The entry of `chat` in `ans` is there; it is empty exactly when `u`
      is, and otherwise names the chat's pie exactly when `u` adds up to
      more than zero. */
  ghost predicate EntryShows(ans: Answer, chat: int, u: seq<(string, int)>) {
    && chat in ans.chats
    && (ans.chats[chat] == map[] <==> u == [])
    && (u != [] ==> ans.chats[chat] == map["quantity" := ImageIf(SumAll(u) > 0, IntToString(chat) + "_timesofday.svg")])
  }

  /** Lines 449-473: every chat id gets an entry; it is empty exactly when
      the chat has no count, and otherwise names the chat's pie exactly
      when the chat's counts add up to more than zero. */
  lemma TimesOfDayChat(names: map<string, string>, data: ChatTods, ans: Answer, i: nat)
    requires Injective(names)
    requires TimesOfDayOf(names, data) == Ok(ans) && Rows(data) != [] && i < |data|
    ensures EntryShows(ans, data[i].0, Under(Rows(data), data[i].0))
  {
    AnswerChats(names, data, ans);
    UnderNamed(names, data, data[i].0);
    RowsAnswer(names, data, ans, i);
  }

  /** The same, once the answer's entries and the display names are
      known. */
  lemma RowsAnswer(names: map<string, string>, data: ChatTods, ans: Answer, i: nat)
    requires Injective(names) && i < |data|
    requires ans.chats == ChatEntries(names, data, TodsOf(Rows(data)))
    requires forall j :: 0 <= j < |Under(Rows(data), data[i].0)| ==> Under(Rows(data), data[i].0)[j].0 in names
    ensures EntryShows(ans, data[i].0, Under(Rows(data), data[i].0))
  {
    var rows := Rows(data);
    ChatTally(rows, data[i].0);
    ChatAnswer(names, data, TodsOf(rows), ans, i, Under(rows, data[i].0));
  }

  /** Past the early returns the answer holds an entry per chat id. */
  lemma AnswerChats(names: map<string, string>, data: ChatTods, ans: Answer)
    requires Injective(names)
    requires TimesOfDayOf(names, data) == Ok(ans) && Rows(data) != []
    ensures ans.chats == ChatEntries(names, data, TodsOf(Rows(data)))
  {
    AggEmpty(Rows(data));
  }

  /** The entry of chat `data[i].0` in an answer shaped from `t`, when the
      chat's counts are the tally of `u`. */
  lemma ChatAnswer(names: map<string, string>, data: ChatTods, t: Tods, ans: Answer, i: nat, u: seq<(string, int)>)
    requires Injective(names)
    requires ans.chats == ChatEntries(names, data, t) && i < |data|
    requires Inner(t.byChat, data[i].0) == Tally(u)
    requires forall j :: 0 <= j < |u| ==> u[j].0 in names
    ensures EntryShows(ans, data[i].0, u)
  {
    ChatEntriesKeys(names, data, t);
    ChatEntryOf(names, data[i].0, t, u);
  }

  /** `quantity[chatid]` tallies the chat's counts by time of day. */
  lemma ChatTally(rows: seq<(int, string, int)>, chat: int)
    ensures Inner(TodsOf(rows).byChat, chat) == Tally(Under(rows, chat))
  {
    Tally2Counts(rows);
  }

  /** Without a KeyError every time of day counted in a chat has a
      display name. */
  lemma UnderNamed(names: map<string, string>, data: ChatTods, chat: int)
    requires Injective(names)
    requires TimesOfDayOf(names, data).Ok?
    ensures forall j :: 0 <= j < |Under(Rows(data), chat)| ==> Under(Rows(data), chat)[j].0 in names
  {
    var u := Under(Rows(data), chat);
    AllNamed(names, data);
    UnderFrom(Rows(data), chat);
    forall j | 0 <= j < |u| ensures u[j].0 in names {
      assert (chat, u[j].0, u[j].1) in Rows(data);
    }
  }

  /** The entry of a chat whose counts, all with display names, are the
      tally of `u`. */
  lemma ChatEntryOf(names: map<string, string>, chat: int, t: Tods, u: seq<(string, int)>)
    requires Injective(names)
    requires Inner(t.byChat, chat) == Tally(u)
    requires forall j :: 0 <= j < |u| ==> u[j].0 in names
    ensures ChatEntry(names, chat, t) == map[] <==> u == []
    ensures u != [] ==> ChatEntry(names, chat, t) == map["quantity" := ImageIf(SumAll(u) > 0, IntToString(chat) + "_timesofday.svg")]
  {
    var q := Tally(u);
    TallyCounts(u);
    if u != [] {
      assert u[0].0 in q;
    }
    forall k | k in q ensures k in names {
      var j :| 0 <= j < |u| && u[j].0 == k;
    }
    RenamedSum(names, q);
    var name := IntToString(chat) + "_timesofday.svg";
    PieEntryOf(names, q, name, SumAll(u));
    assert ChatEntry(names, chat, t) == PieEntry(names, q, name);
    if u == [] {
      assert q == map[];
    } else {
      assert q != map[];
      assert "quantity" in PieEntry(names, q, name);
    }
  }

  /** The entry for a dict whose renamed values add up to `total`. */
  lemma PieEntryOf(names: map<string, string>, q: map<string, int>, name: string, total: int)
    requires Injective(names)
    requires MapSum(RenamedBy(names, q)) == total
    ensures PieEntry(names, q, name) == if q == map[] then map[] else map["quantity" := ImageIf(total > 0, name)]
  {
  }
}
