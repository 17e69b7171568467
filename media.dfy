/** `draw_voicemsg_videomsg_videos_photos` of
    tganalyzer/html_export/__init__.py: the per-chat `{user: userdata}`
    data of the voice message, video message, video file or photo feature
    is added up by chat name across chats and copied per chat and user;
    voice and video messages also carry a length. Then the returned dict
    of image names is shaped. */
module MediaStats {
  import opened Values
  import opened Counters
  import opened Tallies
  import opened PyStrings
  import opened Seqs

  /** `{user: userdata}` of one chat, in dict order. */
  type UserData = seq<(string, Value)>
  /** `{chat id: {user: userdata}}`. */
  type ChatData = seq<(int, UserData)>

  /** One pass through the inner loop body. */
  datatype Cell = Cell(chat: int, user: string, data: Value)

  function ChatCells(chat: int, users: UserData): seq<Cell>
    decreases |users|
  {
    if users == [] then []
    else
      var (user, v) := users[|users| - 1];
      ChatCells(chat, users[..|users| - 1]) + [Cell(chat, user, v)]
  }

  /** The inner loop bodies in the order the two loops run them. */
  function Cells(data: ChatData): seq<Cell>
    decreases |data|
  {
    if data == [] then []
    else
      var (chat, users) := data[|data| - 1];
      Cells(data[..|data| - 1]) + ChatCells(chat, users)
  }

  /** `msg_mode`: voice and video messages also have a length. */
  predicate MsgMode(feature: string) {
    EndsWith(feature, "_message")
  }

  /** What `+=` accepts on an `int`: a number, or a boolean counting as
      1 or 0. */
  predicate Numeric(v: Value) {
    v.Num? || v.Bool?
  }

  function NumberOf(v: Value): int
    requires Numeric(v)
  {
    if v.Num? then v.n else if v.b then 1 else 0
  }

  /** `userdata[key]` added to a count: TypeError unless `userdata` is a
      dict, KeyError when the key is absent, and TypeError unless the
      value is a number or a boolean. */
  function Field(v: Value, key: string): (r: Result<int>)
    ensures r.Ok? <==> v.Obj? && key in v.fields && Numeric(v.fields[key])
    ensures r.Ok? ==> r.value == NumberOf(v.fields[key])
    ensures r.Err? ==> r.error == (if v.Obj? && key !in v.fields then MissingKey(key) else WrongType(key))
  {
    if !v.Obj? then Err(WrongType(key))
    else if key !in v.fields then Err(MissingKey(key))
    else if !Numeric(v.fields[key]) then Err(WrongType(key))
    else Ok(NumberOf(v.fields[key]))
  }

  /** What one user of one chat contributes: the chat's name, the
      quantity and the length (0 outside `msg_mode`). */
  datatype Use = Use(chat: int, user: string, name: string, quantity: int, length: int)

  /** Lines 337-348 for one user, with the exceptions in the order they
      are evaluated: `chatnames[chatid]`, the quantity (the user data
      itself for photos, its `"quantity"` field otherwise), the length,
      and the ZeroDivisionError of `length / quantity`. */
  function UseOf(feature: string, c: Cell, names: map<int, string>): Result<Use>
  {
    var name :- Lookup(names, c.chat, IntToString(c.chat));
    var q :- if feature == "photo" then (if Numeric(c.data) then Ok(NumberOf(c.data)) else Err(WrongType(c.user)))
             else Field(c.data, "quantity");
    if MsgMode(feature) then
      var l :- Field(c.data, "length");
      if q == 0 then Err(DivisionByZero) else Ok(Use(c.chat, c.user, name, q, l))
    else Ok(Use(c.chat, c.user, name, q, 0))
  }

  /** For photos the user data is the count itself, for the other
      features its `"quantity"` field; only voice and video messages read
      a `"length"`, and they raise ZeroDivisionError on a zero quantity.
      A chat without a name always raises KeyError first. */
  lemma UseOfCases(feature: string, c: Cell, names: map<int, string>)
    ensures c.chat !in names ==> UseOf(feature, c, names) == Err(MissingKey(IntToString(c.chat)))
    ensures UseOf(feature, c, names).Ok? <==>
      && c.chat in names
      && (if feature == "photo" then Numeric(c.data) else Field(c.data, "quantity").Ok?)
      && (MsgMode(feature) ==> Field(c.data, "length").Ok? && Field(c.data, "quantity") != Ok(0))
    ensures var r := UseOf(feature, c, names);
      r.Ok? ==> (
        && r.value.chat == c.chat && r.value.user == c.user && r.value.name == names[c.chat]
        && r.value.quantity == (if feature == "photo" then NumberOf(c.data) else NumberOf(c.data.fields["quantity"]))
        && r.value.length == (if MsgMode(feature) then NumberOf(c.data.fields["length"]) else 0))
  {
  }

  /** The contributions of the cells `cs`, or the exception of the first
      cell that raises one. */
  function Uses(feature: string, cs: seq<Cell>, names: map<int, string>): Result<seq<Use>>
    decreases |cs|
  {
    if cs == [] then Ok([])
    else
      var us :- Uses(feature, cs[..|cs| - 1], names);
      var u :- UseOf(feature, cs[|cs| - 1], names);
      Ok(us + [u])
  }

  /** The four dicts of the loop: `quantity_agg`, `length_agg`,
      `quantity` and `length`. */
  datatype Media = Media(
    quantityAgg: map<string, int>,
    lengthAgg: map<string, int>,
    quantity: map<int, map<string, int>>,
    length: map<int, map<string, int>>)

  /** Lines 337-346 for one contribution. */
  function AddUse(m: Media, u: Use, msg: bool): Media {
    Media(
      Bump(m.quantityAgg, u.name, u.quantity),
      if msg then Bump(m.lengthAgg, u.name, u.length) else m.lengthAgg,
      m.quantity[u.chat := Inner(m.quantity, u.chat)[u.user := u.quantity]],
      if msg then m.length[u.chat := Inner(m.length, u.chat)[u.user := u.length]] else m.length)
  }

  /** `(chat name, amount)` rows: the quantities, or the lengths. */
  function NameRows(us: seq<Use>, lengths: bool): seq<(string, int)>
    decreases |us|
  {
    if us == [] then []
    else
      var u := us[|us| - 1];
      NameRows(us[..|us| - 1], lengths) + [(u.name, if lengths then u.length else u.quantity)]
  }

  /** `(chat id, user, amount)` rows: the quantities, or the lengths. */
  function UserRows(us: seq<Use>, lengths: bool): seq<(int, string, int)>
    decreases |us|
  {
    if us == [] then []
    else
      var u := us[|us| - 1];
      UserRows(us[..|us| - 1], lengths) + [(u.chat, u.user, if lengths then u.length else u.quantity)]
  }

  /** The dicts after the contributions `us`: the quantities and the
      lengths added up by chat name and written per chat and user; the
      lengths only in `msg_mode`. */
  function MediaOf(us: seq<Use>, msg: bool): Media {
    Media(
      Tally(NameRows(us, false)),
      if msg then Tally(NameRows(us, true)) else map[],
      Writes2(UserRows(us, false)),
      if msg then Writes2(UserRows(us, true)) else map[])
  }

  /** What the loops over the cells `cs` leave behind. */
  function MediaAfter(feature: string, cs: seq<Cell>, names: map<int, string>): Result<Media> {
    var us :- Uses(feature, cs, names);
    Ok(MediaOf(us, MsgMode(feature)))
  }

  lemma MediaStep(us: seq<Use>, u: Use, msg: bool)
    ensures MediaOf(us + [u], msg) == AddUse(MediaOf(us, msg), u, msg)
  {
    assert (us + [u])[..|us|] == us;
    var q, l := NameRows(us, false), NameRows(us, true);
    var uq, ul := UserRows(us, false), UserRows(us, true);
    assert (q + [(u.name, u.quantity)])[..|q|] == q;
    assert (l + [(u.name, u.length)])[..|l|] == l;
    assert (uq + [(u.chat, u.user, u.quantity)])[..|uq|] == uq;
    assert (ul + [(u.chat, u.user, u.length)])[..|ul|] == ul;
  }

  /** One more cell: its contribution is added, or its exception raised. */
  lemma AfterStep(feature: string, cs: seq<Cell>, c: Cell, names: map<int, string>, m: Media)
    requires MediaAfter(feature, cs, names) == Ok(m)
    ensures MediaAfter(feature, cs + [c], names) ==
      (var u :- UseOf(feature, c, names); Ok(AddUse(m, u, MsgMode(feature))))
  {
    assert (cs + [c])[..|cs|] == cs;
    var us := Uses(feature, cs, names).value;
    if UseOf(feature, c, names).Ok? {
      MediaStep(us, UseOf(feature, c, names).value, MsgMode(feature));
    }
  }

  /** Once a prefix raises, so does everything it begins. */
  lemma {:induction false} UsesPrefixError(feature: string, p: seq<Cell>, cs: seq<Cell>, names: map<int, string>)
    requires IsPrefix(p, cs) && Uses(feature, p, names).Err?
    ensures Uses(feature, cs, names) == Uses(feature, p, names)
    decreases |cs|
  {
    if |p| == |cs| {
      assert cs == cs[..|p|];
    } else {
      var init := cs[..|cs| - 1];
      assert init[..|p|] == cs[..|p|];
      UsesPrefixError(feature, p, init, names);
    }
  }

  lemma {:induction false} ChatCellsPrefix(chat: int, users: UserData, j: nat)
    requires j <= |users|
    ensures IsPrefix(ChatCells(chat, users[..j]), ChatCells(chat, users))
    decreases |users| - j
  {
    if j < |users| {
      ChatCellsPrefix(chat, users, j + 1);
      assert users[..j + 1][..j] == users[..j];
      PrefixTrans(ChatCells(chat, users[..j]), ChatCells(chat, users[..j + 1]), ChatCells(chat, users));
    } else {
      assert users[..j] == users;
    }
  }

  lemma {:induction false} CellsPrefix(data: ChatData, i: nat)
    requires i <= |data|
    ensures IsPrefix(Cells(data[..i]), Cells(data))
    decreases |data| - i
  {
    if i < |data| {
      CellsPrefix(data, i + 1);
      assert data[..i + 1][..i] == data[..i];
      PrefixTrans(Cells(data[..i]), Cells(data[..i + 1]), Cells(data));
    } else {
      assert data[..i] == data;
    }
  }

  /** The whole of lines 334-348: the four dicts, or the first exception. */
  method Aggregate(feature: string, data: ChatData, names: map<int, string>) returns (r: Result<Media>)
    ensures r == MediaAfter(feature, Cells(data), names)
  {
    var m := Media(map[], map[], map[], map[]);
    for i := 0 to |data|
      invariant MediaAfter(feature, Cells(data[..i]), names) == Ok(m)
    {
      var (chat, users) := data[i];
      assert data[..i + 1][..i] == data[..i];
      var res := AddChat(feature, chat, users, names, m, Cells(data[..i]));
      if res.Err? {
        CellsPrefix(data, i + 1);
        UsesPrefixError(feature, Cells(data[..i + 1]), Cells(data), names);
        return res;
      }
      m := res.value;
    }
    assert data[..|data|] == data;
    r := Ok(m);
  }

  /** The inner loop over one chat's users. */
  method AddChat(feature: string, chat: int, users: UserData, names: map<int, string>, m: Media, ghost done: seq<Cell>)
    returns (r: Result<Media>)
    requires MediaAfter(feature, done, names) == Ok(m)
    ensures r == MediaAfter(feature, done + ChatCells(chat, users), names)
  {
    var msg := MsgMode(feature);
    var m' := m;
    assert done + ChatCells(chat, users[..0]) == done;
    for j := 0 to |users|
      invariant MediaAfter(feature, done + ChatCells(chat, users[..j]), names) == Ok(m')
    {
      var (user, v) := users[j];
      var c := Cell(chat, user, v);
      ghost var before := done + ChatCells(chat, users[..j]);
      assert users[..j + 1][..j] == users[..j];
      AppendAssoc(done, ChatCells(chat, users[..j]), [c]);
      AfterStep(feature, before, c, names, m');
      var u := UseOf(feature, c, names);
      if u.Err? {
        ChatCellsPrefix(chat, users, j + 1);
        PrefixAppend(done, ChatCells(chat, users[..j + 1]), ChatCells(chat, users));
        UsesPrefixError(feature, done + ChatCells(chat, users[..j + 1]), done + ChatCells(chat, users), names);
        return Err(u.error);
      }
      m' := AddUse(m', u.value, msg);
    }
    assert users[..|users|] == users;
    r := Ok(m');
  }

  /** The contributions are the cells' own, one each. */
  lemma {:induction false} UsesOk(feature: string, cs: seq<Cell>, names: map<int, string>, r: Result<seq<Use>>)
    requires r == Uses(feature, cs, names)
    ensures r.Ok? <==> forall k :: 0 <= k < |cs| ==> UseOf(feature, cs[k], names).Ok?
    ensures r.Ok? ==>
      && |r.value| == |cs|
      && forall k :: 0 <= k < |cs| ==> r.value[k] == UseOf(feature, cs[k], names).value
    decreases |cs|
  {
    if cs != [] {
      var init := cs[..|cs| - 1];
      var c := cs[|cs| - 1];
      var prev := Uses(feature, init, names);
      UsesOk(feature, init, names, prev);
      SplitLast(cs);
      OkSnoc((x: Cell) => UseOf(feature, x, names), init, c, prev, r);
    }
  }

  /** One more element of a map that stops at the first error. */
  lemma OkSnoc<X, Y>(g: X -> Result<Y>, xs: seq<X>, x: X, prev: Result<seq<Y>>, r: Result<seq<Y>>)
    requires prev.Ok? <==> forall k :: 0 <= k < |xs| ==> g(xs[k]).Ok?
    requires prev.Ok? ==> |prev.value| == |xs| && forall k :: 0 <= k < |xs| ==> prev.value[k] == g(xs[k]).value
    requires r == (if prev.Err? then prev else if g(x).Err? then Err(g(x).error) else Ok(prev.value + [g(x).value]))
    ensures r.Ok? <==> forall k :: 0 <= k < |xs + [x]| ==> g((xs + [x])[k]).Ok?
    ensures r.Ok? ==>
      && |r.value| == |xs + [x]|
      && forall k :: 0 <= k < |xs + [x]| ==> r.value[k] == g((xs + [x])[k]).value
  {
    assert forall k :: 0 <= k < |xs| ==> (xs + [x])[k] == xs[k];
    if prev.Err? {
      var k :| 0 <= k < |xs| && !g(xs[k]).Ok?;
      assert !g((xs + [x])[k]).Ok?;
    } else if g(x).Err? {
      assert !g((xs + [x])[|xs|]).Ok?;
    }
  }

  /** The exception is that of the first cell that raises one. */
  lemma {:induction false} UsesErr(feature: string, cs: seq<Cell>, names: map<int, string>)
    requires Uses(feature, cs, names).Err?
    ensures exists j :: (
      && 0 <= j < |cs|
      && (forall k :: 0 <= k < j ==> UseOf(feature, cs[k], names).Ok?)
      && UseOf(feature, cs[j], names).Err?
      && Uses(feature, cs, names).error == UseOf(feature, cs[j], names).error)
    decreases |cs|
  {
    var init := cs[..|cs| - 1];
    assert forall k :: 0 <= k < |init| ==> cs[k] == init[k];
    if Uses(feature, init, names).Err? {
      UsesErr(feature, init, names);
      var j :| (
        && 0 <= j < |init|
        && (forall k :: 0 <= k < j ==> UseOf(feature, init[k], names).Ok?)
        && UseOf(feature, init[j], names).Err?
        && Uses(feature, init, names).error == UseOf(feature, init[j], names).error);
    } else {
      UsesOk(feature, init, names, Uses(feature, init, names));
      assert UseOf(feature, cs[|cs| - 1], names).Err?;
    }
  }

  lemma {:induction false} RowsAt(us: seq<Use>, lengths: bool)
    ensures |NameRows(us, lengths)| == |UserRows(us, lengths)| == |us|
    ensures forall k :: 0 <= k < |us| ==>
      && NameRows(us, lengths)[k] == (us[k].name, if lengths then us[k].length else us[k].quantity)
      && UserRows(us, lengths)[k] == (us[k].chat, us[k].user, if lengths then us[k].length else us[k].quantity)
    decreases |us|
  {
    if us != [] {
      RowsAt(us[..|us| - 1], lengths);
    }
  }

  /** Lines 335-348: `quantity_agg` holds, for every chat name, the sum of
      the quantities of the users of the chats so named, and `length_agg`
      the sum of their lengths; `quantity[chatid][username]` holds the
      quantity written last for that user, and the lengths are kept only
      for voice and video messages. */
  lemma MediaMeaning(us: seq<Use>, msg: bool)
    ensures var m := MediaOf(us, msg);
      && (forall name :: Get(m.quantityAgg, name) == Total(NameRows(us, false), name))
      && MapSum(m.quantityAgg) == SumAll(NameRows(us, false))
      && (!msg ==> m.lengthAgg == map[] && m.length == map[])
      && (forall chat :: Inner(m.quantity, chat) == Writes(Under(UserRows(us, false), chat)))
    ensures var m := MediaOf(us, msg);
      msg ==> (
        && (forall name :: Get(m.lengthAgg, name) == Total(NameRows(us, true), name))
        && MapSum(m.lengthAgg) == SumAll(NameRows(us, true))
        && (forall chat :: Inner(m.length, chat) == Writes(Under(UserRows(us, true), chat))))
  {
    TallyCounts(NameRows(us, false));
    Writes2Inner(UserRows(us, false));
    if msg {
      TallyCounts(NameRows(us, true));
      Writes2Inner(UserRows(us, true));
    }
  }

  /** `ans`: the `"agg"` entry and one entry per chat id. */
  datatype Answer = Answer(agg: map<string, Option<string>>, chats: map<int, map<string, Option<string>>>)

  /** Lines 353-371: the aggregate image names. */
  ghost function AggEntry(feature: string, m: Media): map<string, Option<string>> {
    var e := map["quantity" := ImageIf(MapSum(m.quantityAgg) > 0, "agg_" + feature + "_quantity.svg")];
    if MsgMode(feature) then e["length" := ImageIf(MapSum(m.lengthAgg) > 0, "agg_" + feature + "_length.svg")]
    else e
  }

  /** Lines 373-393 for one chat id. */
  ghost function ChatEntry(feature: string, chat: int, m: Media): map<string, Option<string>> {
    var q := Inner(m.quantity, chat);
    var prefix := IntToString(chat) + "_" + feature;
    if q == map[] then map[]
    else
      var e := map["quantity" := ImageIf(MapSum(q) > 0, prefix + "_quantity.svg")];
      if MsgMode(feature) then
        e["length" := ImageIf(MapSum(Inner(m.length, chat)) > 0, prefix + "_length.svg")]["avg" := Some(prefix + "_lenavg.svg")]
      else e
  }

  ghost function ChatEntries(feature: string, data: ChatData, m: Media): map<int, map<string, Option<string>>>
    decreases |data|
  {
    if data == [] then map[]
    else ChatEntries(feature, data[..|data| - 1], m)[data[|data| - 1].0 := ChatEntry(feature, data[|data| - 1].0, m)]
  }

  /** Lines 350-395: `{"agg": {}}` when nothing was counted, otherwise the
      aggregate names and an entry per chat id. */
  ghost function AnswerOf(feature: string, data: ChatData, m: Media): Answer {
    if m.quantityAgg == map[] then Answer(map[], map[])
    else Answer(AggEntry(feature, m), ChatEntries(feature, data, m))
  }

  method Shape(feature: string, data: ChatData, m: Media) returns (ans: Answer)
    ensures ans == AnswerOf(feature, data, m)
  {
    if m.quantityAgg == map[] {
      return Answer(map[], map[]);
    }
    var agg := ShapeAgg(feature, m);
    var chats: map<int, map<string, Option<string>>> := map[];
    for i := 0 to |data|
      invariant chats == ChatEntries(feature, data[..i], m)
    {
      assert data[..i + 1][..i] == data[..i];
      var e := ShapeChat(feature, data[i].0, m);
      chats := chats[data[i].0 := e];
    }
    assert data[..|data|] == data;
    ans := Answer(agg, chats);
  }

  method ShapeAgg(feature: string, m: Media) returns (agg: map<string, Option<string>>)
    ensures agg == AggEntry(feature, m)
  {
    var total := SumValues(m.quantityAgg);
    agg := map["quantity" := if total > 0 then Some("agg_" + feature + "_quantity.svg") else None];
    if MsgMode(feature) {
      var lengths := SumValues(m.lengthAgg);
      agg := agg["length" := if lengths > 0 then Some("agg_" + feature + "_length.svg") else None];
    }
  }

  method ShapeChat(feature: string, chat: int, m: Media) returns (e: map<string, Option<string>>)
    ensures e == ChatEntry(feature, chat, m)
  {
    e := map[];
    var q := Inner(m.quantity, chat);
    if q != map[] {
      var prefix := IntToString(chat) + "_" + feature;
      var qs := SumValues(q);
      e := e["quantity" := if qs > 0 then Some(prefix + "_quantity.svg") else None];
      if MsgMode(feature) {
        var ls := SumValues(Inner(m.length, chat));
        e := e["length" := if ls > 0 then Some(prefix + "_length.svg") else None];
        e := e["avg" := Some(prefix + "_lenavg.svg")];
      }
    }
  }

  /** The whole of `draw_voicemsg_videomsg_videos_photos`, images aside. */
  ghost function MediaStatsOf(feature: string, data: ChatData, names: map<int, string>): Result<Answer> {
    var m :- MediaAfter(feature, Cells(data), names);
    Ok(AnswerOf(feature, data, m))
  }

  method DrawMedia(feature: string, data: ChatData, names: map<int, string>) returns (r: Result<Answer>)
    ensures r == MediaStatsOf(feature, data, names)
  {
    var m :- Aggregate(feature, data, names);
    var ans := Shape(feature, data, m);
    r := Ok(ans);
  }

  /** Every chat id of `data` has the entry it computes. */
  lemma {:induction false} EntriesAt(feature: string, data: ChatData, m: Media)
    ensures forall i :: 0 <= i < |data| ==>
      data[i].0 in ChatEntries(feature, data, m) && ChatEntries(feature, data, m)[data[i].0] == ChatEntry(feature, data[i].0, m)
    ensures forall chat :: chat in ChatEntries(feature, data, m) ==> exists i :: 0 <= i < |data| && data[i].0 == chat
    decreases |data|
  {
    if data != [] {
      var init := data[..|data| - 1];
      EntriesAt(feature, init, m);
      forall i | 0 <= i < |init| ensures data[i] == init[i] { }
    }
  }

  /** Each contribution comes from the cell at the same place. */
  lemma UsesCells(feature: string, cs: seq<Cell>, names: map<int, string>, us: seq<Use>)
    requires Uses(feature, cs, names) == Ok(us)
    ensures |us| == |cs|
    ensures forall k :: 0 <= k < |cs| ==> us[k].chat == cs[k].chat && us[k].user == cs[k].user
  {
    UsesOk(feature, cs, names, Ok(us));
    forall k | 0 <= k < |cs| ensures us[k].chat == cs[k].chat && us[k].user == cs[k].user {
      UseOfCases(feature, cs[k], names);
    }
  }

  /** `quantity[chatid]` is empty exactly when no cell belongs to the
      chat. */
  lemma QuantityEmpty(feature: string, data: ChatData, names: map<int, string>, us: seq<Use>, chat: int)
    requires Uses(feature, Cells(data), names) == Ok(us)
    ensures Inner(MediaOf(us, MsgMode(feature)).quantity, chat) == map[] <==>
      forall k :: 0 <= k < |Cells(data)| ==> Cells(data)[k].chat != chat
  {
    var rows := UserRows(us, false);
    MediaMeaning(us, MsgMode(feature));
    WritesKeys(Under(rows, chat));
    UnderEmpty(rows, chat);
    RowsAt(us, false);
    UsesCells(feature, Cells(data), names, us);
    if Under(rows, chat) != [] {
      assert Under(rows, chat)[0].0 in Writes(Under(rows, chat));
    }
  }

  /** Lines 350-352: with no user at all the answer is `{"agg": {}}`, and
      only then is `"agg"` empty. */
  lemma MediaEmpty(feature: string, data: ChatData, names: map<int, string>, ans: Answer)
    requires MediaStatsOf(feature, data, names) == Ok(ans)
    ensures ans.agg == map[] <==> Cells(data) == []
    ensures Cells(data) == [] ==> ans == Answer(map[], map[])
  {
    var us := Uses(feature, Cells(data), names).value;
    UsesCells(feature, Cells(data), names, us);
    RowsAt(us, false);
    TallyCounts(NameRows(us, false));
    if us != [] {
      assert NameRows(us, false)[0].0 in Tally(NameRows(us, false));
      assert "quantity" in ans.agg;
    }
  }

  /** Lines 353-371: otherwise `"agg"` names the quantity image when the
      quantities of all users add up to more than 0 (else None), and in
      `msg_mode` also the length image by the same test on the lengths. */
  lemma MediaAgg(feature: string, data: ChatData, names: map<int, string>, ans: Answer)
    requires MediaStatsOf(feature, data, names) == Ok(ans) && Cells(data) != []
    ensures var us := Uses(feature, Cells(data), names).value;
      && ans.agg.Keys == (if MsgMode(feature) then {"quantity", "length"} else {"quantity"})
      && ans.agg["quantity"] == ImageIf(SumAll(NameRows(us, false)) > 0, "agg_" + feature + "_quantity.svg")
      && (MsgMode(feature) ==> ans.agg["length"] == ImageIf(SumAll(NameRows(us, true)) > 0, "agg_" + feature + "_length.svg"))
  {
    var us := Uses(feature, Cells(data), names).value;
    MediaEmpty(feature, data, names, ans);
    MediaMeaning(us, MsgMode(feature));
  }

  /** Lines 377-393 for a chat that has users, whose dicts of
      quantities and lengths are `quantities` and `lengths`: `"quantity"`
      names the image when the quantities add up to more than 0 (else
      None), and in `msg_mode` `"length"` does the same for the lengths
      and `"avg"` names the average-length image. */
  ghost predicate EntryShows(feature: string, chat: int, e: map<string, Option<string>>,
                             quantities: map<string, int>, lengths: map<string, int>) {
    var prefix := IntToString(chat) + "_" + feature;
    && e.Keys == (if MsgMode(feature) then {"quantity", "length", "avg"} else {"quantity"})
    && e["quantity"] == ImageIf(MapSum(quantities) > 0, prefix + "_quantity.svg")
    && (MsgMode(feature) ==> (
      && e["length"] == ImageIf(MapSum(lengths) > 0, prefix + "_length.svg")
      && e["avg"] == Some(prefix + "_lenavg.svg")))
  }

  lemma EntryOf(feature: string, chat: int, m: Media)
    requires Inner(m.quantity, chat) != map[]
    ensures EntryShows(feature, chat, ChatEntry(feature, chat, m), Inner(m.quantity, chat), Inner(m.length, chat))
  {
  }

  /** The two dicts of one chat. */
  lemma ChatDicts(us: seq<Use>, msg: bool, chat: int)
    ensures Inner(MediaOf(us, msg).quantity, chat) == Writes(Under(UserRows(us, false), chat))
    ensures msg ==> Inner(MediaOf(us, msg).length, chat) == Writes(Under(UserRows(us, true), chat))
  {
    MediaMeaning(us, msg);
  }

  /** The entry of chat `i` for any dicts. */
  lemma ShapeChatAt(feature: string, data: ChatData, m: Media, i: nat)
    requires m.quantityAgg != map[] && i < |data|
    ensures data[i].0 in AnswerOf(feature, data, m).chats
    ensures AnswerOf(feature, data, m).chats[data[i].0] == ChatEntry(feature, data[i].0, m)
  {
    EntriesAt(feature, data, m);
  }

  /** Lines 373-393: every chat id gets an entry, empty exactly when no
      user of that chat was seen, and otherwise showing the chat's dicts
      of quantities and lengths as `EntryShows` says. */
  lemma MediaChat(feature: string, data: ChatData, names: map<int, string>, ans: Answer, i: nat)
    requires MediaStatsOf(feature, data, names) == Ok(ans) && Cells(data) != [] && i < |data|
    ensures var us := Uses(feature, Cells(data), names).value;
      var chat := data[i].0;
      && chat in ans.chats
      && (ans.chats[chat] == map[] <==> forall k :: 0 <= k < |Cells(data)| ==> Cells(data)[k].chat != chat)
      && (ans.chats[chat] != map[] ==>
        EntryShows(feature, chat, ans.chats[chat], Writes(Under(UserRows(us, false), chat)), Writes(Under(UserRows(us, true), chat))))
  {
    var us := Uses(feature, Cells(data), names).value;
    var m := MediaOf(us, MsgMode(feature));
    var chat := data[i].0;
    MediaEmpty(feature, data, names, ans);
    ShapeChatAt(feature, data, m, i);
    QuantityEmpty(feature, data, names, us, chat);
    ChatDicts(us, MsgMode(feature), chat);
    if Inner(m.quantity, chat) != map[] {
      EntryOf(feature, chat, m);
    }
  }

  /** A dict input: no chat id twice, no user twice within a chat. */
  predicate DictShaped(data: ChatData) {
    DistinctKeys(data) && forall i :: 0 <= i < |data| ==> DistinctKeys(data[i].1)
  }

  lemma {:induction false} ChatCellsAt(chat: int, users: UserData)
    ensures |ChatCells(chat, users)| == |users|
    ensures forall x :: 0 <= x < |users| ==> ChatCells(chat, users)[x] == Cell(chat, users[x].0, users[x].1)
    decreases |users|
  {
    if users != [] {
      ChatCellsAt(chat, users[..|users| - 1]);
    }
  }

  /** Every cell belongs to one of the chats. */
  lemma {:induction false} CellsFrom(data: ChatData)
    ensures forall k :: 0 <= k < |Cells(data)| ==> exists i :: 0 <= i < |data| && Cells(data)[k].chat == data[i].0
    decreases |data|
  {
    if data != [] {
      var init := data[..|data| - 1];
      var last := |data| - 1;
      CellsFrom(init);
      ChatCellsAt(data[last].0, data[last].1);
      var ci, cl := Cells(init), ChatCells(data[last].0, data[last].1);
      var cs := Cells(data);
      assert cs == ci + cl;
      forall k | 0 <= k < |cs| ensures exists i :: 0 <= i < |data| && cs[k].chat == data[i].0 {
        if k < |ci| {
          var i :| 0 <= i < |init| && ci[k].chat == init[i].0;
          assert cs[k] == ci[k] && init[i] == data[i];
        } else {
          assert cs[k] == cl[k - |ci|];
          assert cs[k].chat == data[last].0;
        }
      }
    } else {
      assert Cells(data) == [];
    }
  }

  /** In a dict input no chat and user meet twice. */
  lemma {:induction false} CellsDistinct(data: ChatData)
    requires DictShaped(data)
    ensures forall p, q :: 0 <= p < q < |Cells(data)| ==>
      Cells(data)[p].chat != Cells(data)[q].chat || Cells(data)[p].user != Cells(data)[q].user
    decreases |data|
  {
    if data != [] {
      var init := data[..|data| - 1];
      var (chat, users) := data[|data| - 1];
      assert forall i :: 0 <= i < |init| ==> init[i] == data[i];
      CellsDistinct(init);
      CellsFrom(init);
      ChatCellsAt(chat, users);
      var ci, cl, cs := Cells(init), ChatCells(chat, users), Cells(data);
      assert cs == ci + cl;
      forall p, q | 0 <= p < q < |cs| ensures cs[p].chat != cs[q].chat || cs[p].user != cs[q].user {
        if q < |ci| {
          assert cs[p] == ci[p] && cs[q] == ci[q];
        } else if p >= |ci| {
          assert cs[p] == cl[p - |ci|] && cs[q] == cl[q - |ci|];
          assert DistinctKeys(data[|data| - 1].1);
        } else {
          assert cs[p] == ci[p] && cs[q] == cl[q - |ci|];
          var i :| 0 <= i < |init| && ci[p].chat == init[i].0;
          assert data[i].0 != data[|data| - 1].0;
        }
      }
    }
  }

  /** For a dict input the chat's dicts hold each of its users once, so
      their sums are the sums of the chat's quantities and lengths. */
  lemma ChatSums(feature: string, data: ChatData, names: map<int, string>, us: seq<Use>, chat: int, lengths: bool)
    requires DictShaped(data) && Uses(feature, Cells(data), names) == Ok(us)
    ensures MapSum(Writes(Under(UserRows(us, lengths), chat))) == SumAll(Under(UserRows(us, lengths), chat))
  {
    var rows := UserRows(us, lengths);
    var cs := Cells(data);
    CellsDistinct(data);
    UsesCells(feature, cs, names, us);
    RowsAt(us, lengths);
    forall p, q | 0 <= p < q < |rows| && rows[p].0 == rows[q].0 ensures rows[p].1 != rows[q].1 {
      assert rows[p].0 == cs[p].chat && rows[q].0 == cs[q].chat;
    }
    UnderDistinct(rows, chat);
    WritesOfDistinct(Under(rows, chat));
    TallyCounts(Under(rows, chat));
  }
}
