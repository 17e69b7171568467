/** Turning already-parsed export records into chats of classified messages
    (tganalyzer/core/creator.py): text normalisation, the game leaderboard
    parser, the message classifier, the chat builder and `start_creator`. */
module Creator {
  import opened Values
  import opened PyStrings

  /** `required_fields_message`: the keys every ordinary message carries. */
  const RequiredFieldsMessage: seq<string> :=
    ["date", "date_unixtime", "from", "from_id", "id", "text", "text_entities", "type"]

  /** The further keys that still leave a message `simple_text`. */
  const BenignKeys: seq<string> :=
    ["edited", "edited_unixtime", "forwarded_from", "reply_to_message_id", "reply_to_peer_id"]

  /** The closed set of message type tags. */
  datatype MsgType =
    | SimpleText | Sticker | VoiceMessage | VideoMessage | AudioFile | VideoFile | Animation
    | File | Photo | Poll | Contact | Location | Game | BotUsage | SingleCall | GroupCall | Unknown

  /** The tag string stored in `Message.type`. */
  function TypeName(t: MsgType): string {
    match t
    case SimpleText => "simple_text"
    case Sticker => "sticker"
    case VoiceMessage => "voice_message"
    case VideoMessage => "video_message"
    case AudioFile => "audio_file"
    case VideoFile => "video_file"
    case Animation => "animation"
    case File => "file"
    case Photo => "photo"
    case Poll => "poll"
    case Contact => "contact"
    case Location => "location"
    case Game => "game"
    case BotUsage => "bot_usage"
    case SingleCall => "single_call"
    case GroupCall => "group_call"
    case Unknown => "unknown"
  }

  /** The six types a `media_type` value is taken over as. */
  predicate IsMedia(t: MsgType) {
    t in {Sticker, VoiceMessage, VideoMessage, AudioFile, VideoFile, Animation}
  }

  /** The type named by a `media_type` string, when it is one of the six. */
  function MediaTag(s: string): (r: Option<MsgType>)
    ensures r.Some? ==> IsMedia(r.value) && TypeName(r.value) == s
    ensures r.None? ==> forall t :: IsMedia(t) ==> TypeName(t) != s
  {
    if s == "sticker" then Some(Sticker)
    else if s == "voice_message" then Some(VoiceMessage)
    else if s == "video_message" then Some(VideoMessage)
    else if s == "audio_file" then Some(AudioFile)
    else if s == "video_file" then Some(VideoFile)
    else if s == "animation" then Some(Animation)
    else None
  }

  /** A classified message. Fields the source sets only for some types are
      `None` for the others; `Some(Null)` is a field set to Python `None`. */
  datatype Message = Message(
    author: Value,
    sendTime: int,
    kind: MsgType,
    text: string,
    duration: Option<Value>,
    stickerEmoji: Option<Value>,
    edited: Option<bool>,
    editTime: Option<int>,
    forwarded: Option<bool>,
    forwardedFrom: Option<Value>,
    gameTitle: Option<Value>,
    gameTable: Option<map<string, string>>)

  // ---------------------------------------------------------------- text

  /** One element of a list-valued `text`: a string, or an entity object
      whose `"text"` string is taken. */
  function Piece(v: Value): Result<string> {
    match v
    case Str(s) => Ok(s)
    case Obj(f) =>
      if "text" !in f then Err(MissingKey("text"))
      else if f["text"].Str? then Ok(f["text"].s)
      else Err(WrongType("text"))
    case _ => Err(WrongType("text"))
  }

  /** `" " + piece` for every element, in order; the first bad element is
      the error. */
  function JoinPieces(items: seq<Value>): Result<string>
    decreases |items|
  {
    if items == [] then Ok("")
    else
      var init :- JoinPieces(items[..|items| - 1]);
      var last :- Piece(items[|items| - 1]);
      Ok(init + " " + last)
  }

  /** The normalised `text` of a message: a string is stripped; a list is
      joined piece by piece and then stripped; anything else has no
      `strip`. */
  function FlattenText(v: Value): (r: Result<string>)
    ensures r.Ok? ==> r.value == [] || (!IsSpace(r.value[0]) && !IsSpace(r.value[|r.value| - 1]))
    ensures r.Ok? <==> v.Str? || (v.Arr? && JoinPieces(v.items).Ok?)
  {
    match v
    case Str(s) => Ok(Strip(s))
    case Arr(items) =>
      var joined :- JoinPieces(items);
      Ok(Strip(joined))
    case _ => Err(WrongType("text"))
  }

  lemma {:induction false} JoinPiecesPrefixError(items: seq<Value>, i: nat)
    requires i <= |items| && JoinPieces(items[..i]).Err?
    ensures JoinPieces(items) == JoinPieces(items[..i])
    decreases |items| - i
  {
    if i < |items| {
      assert items[..i + 1][..i] == items[..i];
      JoinPiecesPrefixError(items, i + 1);
    } else {
      assert items[..i] == items;
    }
  }

  /** Text normalisation as the source does it, with `text += " " + piece`
      in a loop. */
  method NormaliseText(v: Value) returns (r: Result<string>)
    ensures r == FlattenText(v)
  {
    if v.Str? {
      return Ok(Strip(v.s));
    }
    if !v.Arr? {
      return Err(WrongType("text"));
    }
    var text := "";
    var i := 0;
    while i < |v.items|
      invariant 0 <= i <= |v.items|
      invariant JoinPieces(v.items[..i]) == Ok(text)
      decreases |v.items| - i
    {
      assert v.items[..i + 1][..i] == v.items[..i];
      var piece := Piece(v.items[i]);
      if piece.Err? {
        JoinPiecesPrefixError(v.items, i + 1);
        return Err(piece.error);
      }
      text := text + " " + piece.value;
      i := i + 1;
    }
    assert v.items[..i] == v.items;
    return Ok(Strip(text));
  }

  lemma StripSpacePrefix(s: string)
    ensures Strip(" " + s) == Strip(s)
  {
    assert (" " + s)[1..] == s;
    assert LeadingSpace(" " + s) == 1 + LeadingSpace(s);
    assert (" " + s)[LeadingSpace(" " + s)..] == s[LeadingSpace(s)..];
  }

  /** A one-string list normalises exactly as the bare string does. */
  lemma FlattenSingleString(s: string)
    ensures FlattenText(Arr([Str(s)])) == FlattenText(Str(s))
  {
    var items := [Str(s)];
    assert items[..0] == [];
    assert JoinPieces(items) == Ok("" + " " + s);
    assert "" + " " + s == " " + s;
    StripSpacePrefix(s);
  }

  // ---------------------------------------------------------------- game

  /** The key `game_parcer` takes from a line: `line[line.find(".") + 2: -3]`. */
  function GameKey(line: string): string {
    Slice(line, Find(line, ".") + 2, -3)
  }

  /** The rank `game_parcer` takes from a line: `line[1: line.find(".")]`. */
  function GameRank(line: string): string {
    Slice(line, 1, Find(line, "."))
  }

  /** A line that `game_parcer` reads: a non-empty string. */
  predicate IsGameLine(v: Value) {
    v.Str? && v.s != ""
  }

  /** What `for line in message["text"]` visits: the elements of a list,
      or the one-character strings of a string. */
  function TextElements(v: Value): seq<Value> {
    match v
    case Str(s) => Chars(s)
    case Arr(items) => items
    case _ => []
  }

  /** The one-character strings of `s`, in order. */
  function Chars(s: string): (r: seq<Value>)
    ensures |r| == |s| && forall i :: 0 <= i < |s| ==> r[i] == Str([s[i]])
    decreases |s|
  {
    if s == [] then [] else [Str([s[0]])] + Chars(s[1..])
  }

  /** The table `game_parcer` builds; a later line with the same key
      overwrites an earlier one. */
  function GameTableOf(lines: seq<Value>): map<string, string>
    decreases |lines|
  {
    if lines == [] then map[]
    else
      var table := GameTableOf(lines[..|lines| - 1]);
      var line := lines[|lines| - 1];
      if IsGameLine(line) then table[GameKey(line.s) := GameRank(line.s)] else table
  }

  /** `game_parcer`, filling the dict in a loop. */
  method GameParcer(lines: seq<Value>) returns (table: map<string, string>)
    ensures table == GameTableOf(lines)
  {
    table := map[];
    var i := 0;
    while i < |lines|
      invariant 0 <= i <= |lines|
      invariant table == GameTableOf(lines[..i])
      decreases |lines| - i
    {
      assert lines[..i + 1][..i] == lines[..i];
      var line := lines[i];
      if line.Str? && |line.s| > 0 {
        table := table[GameKey(line.s) := GameRank(line.s)];
      }
      i := i + 1;
    }
    assert lines[..i] == lines;
  }

  /** The index of the last line yielding key `k`, or -1. */
  function LastLineFor(lines: seq<Value>, k: string): (i: int)
    ensures -1 <= i < |lines|
    ensures i >= 0 ==> IsGameLine(lines[i]) && GameKey(lines[i].s) == k
    ensures forall j :: i < j < |lines| ==> !(IsGameLine(lines[j]) && GameKey(lines[j].s) == k)
    decreases |lines|
  {
    if lines == [] then -1
    else
      var line := lines[|lines| - 1];
      if IsGameLine(line) && GameKey(line.s) == k then |lines| - 1 else LastLineFor(lines[..|lines| - 1], k)
  }

  /** A key is in the table iff some line yields it, and its rank comes
      from the last such line. */
  lemma {:induction false} GameTableLastWins(lines: seq<Value>, k: string)
    ensures k in GameTableOf(lines) <==> LastLineFor(lines, k) >= 0
    ensures k in GameTableOf(lines) ==> GameTableOf(lines)[k] == GameRank(lines[LastLineFor(lines, k)].s)
    decreases |lines|
  {
    if lines != [] {
      var init := lines[..|lines| - 1];
      GameTableLastWins(init, k);
      var i := LastLineFor(init, k);
      if i >= 0 { assert init[i] == lines[i]; }
    }
  }

  lemma FindFirstDot(line: string, n: nat)
    requires n < |line| && line[n] == '.'
    requires forall i :: 0 <= i < n ==> line[i] != '.'
    ensures Find(line, ".") == n
  {
    assert OccursAt(line, ".", n) by { assert line[n..n + 1] == [line[n]]; }
    var r := Find(line, ".");
    if r != n {
      assert r != -1;
      assert line[r..r + 1] == ".";
      assert line[r] == '.';
    }
  }

  /** A line shaped `<c><rank>. <name><three more characters>` (with no dot
      before the one after the rank) gives `name -> rank`. */
  lemma GameLineWellFormed(c: char, rank: string, name: string, tail: string)
    requires c != '.' && '.' !in rank && |tail| == 3
    ensures GameKey([c] + rank + ". " + name + tail) == name
    ensures GameRank([c] + rank + ". " + name + tail) == rank
  {
    var line := [c] + rank + ". " + name + tail;
    forall i | 0 <= i < 1 + |rank| ensures line[i] != '.' {
      if i > 0 { assert line[i] == rank[i - 1]; }
    }
    FindFirstDot(line, 1 + |rank|);
    assert line[|rank| + 3..|line| - 3] == name;
    assert line[1..1 + |rank|] == rank;
  }

  /** The leaderboard line `"1. Alice...."` as the slices read it: the key
      keeps a trailing dot and the rank is empty, because the rank slice
      starts after the first character. */
  lemma GameLineSample()
    ensures GameTableOf([Str("1. Alice....")]) == map["Alice." := ""]
  {
    var line := "1. Alice....";
    FindFirstDot(line, 1);
    assert line[3..9] == "Alice.";
    assert GameKey(line) == "Alice.";
    assert GameRank(line) == [];
    var lines := [Str(line)];
    assert lines[..0] == [];
  }

  // ---------------------------------------------------------- classifier

  /** Every key is required or benign: the record is `simple_text`. */
  predicate IsSimpleText(rec: Record) {
    forall k :: k in rec ==> k in RequiredFieldsMessage || k in BenignKeys
  }

  /** The type named by `media_type`, when it holds one of the six strings. */
  function MediaKind(rec: Record): (r: Option<MsgType>)
    ensures r.Some? ==> IsMedia(r.value)
  {
    if "media_type" in rec && rec["media_type"].Str? then MediaTag(rec["media_type"].s) else None
  }

  /** A key whose presence gives a type. */
  datatype Rule = Rule(key: string, tag: MsgType)

  /** The presence tests after the media test, in the source's order. */
  const KeyRules: seq<Rule> := [
    Rule("mime_type", File),
    Rule("photo", Photo),
    Rule("poll", Poll),
    Rule("contact_information", Contact),
    Rule("location_information", Location),
    Rule("game_title", Game),
    Rule("via_bot", BotUsage)]

  /** The tag of the first rule whose key is present, else `Unknown`. */
  function FirstMatch(rules: seq<Rule>, rec: Record): MsgType
    decreases |rules|
  {
    if rules == [] then Unknown
    else if rules[0].key in rec then rules[0].tag
    else FirstMatch(rules[1..], rec)
  }

  /** `FirstMatch` picks the earliest rule that applies, and `Unknown`
      when none does. */
  lemma {:induction false} FirstMatchPicksFirst(rules: seq<Rule>, rec: Record)
    ensures (forall j :: 0 <= j < |rules| ==> rules[j].key !in rec) ==> FirstMatch(rules, rec) == Unknown
    ensures forall i ::
      (0 <= i < |rules| && rules[i].key in rec && (forall j :: 0 <= j < i ==> rules[j].key !in rec)) ==> FirstMatch(rules, rec) == rules[i].tag
    decreases |rules|
  {
    if rules != [] {
      FirstMatchPicksFirst(rules[1..], rec);
      forall i | 0 < i < |rules| && rules[i].key in rec && (forall j :: 0 <= j < i ==> rules[j].key !in rec)
        ensures FirstMatch(rules, rec) == rules[i].tag
      {
        assert rules[1..][i - 1] == rules[i];
        assert forall j :: 0 <= j < i - 1 ==> rules[1..][j].key !in rec by {
          forall j | 0 <= j < i - 1 ensures rules[1..][j].key !in rec { assert rules[1..][j] == rules[j + 1]; }
        }
      }
      if forall j :: 0 <= j < |rules| ==> rules[j].key !in rec {
        forall j | 0 <= j < |rules[1..]| ensures rules[1..][j].key !in rec { assert rules[1..][j] == rules[j + 1]; }
      }
    }
  }

  /** The type of an ordinary (non-service) record: first `simple_text`,
      then the media type, then the presence tests in order. */
  function ContentKind(rec: Record): MsgType {
    if IsSimpleText(rec) then SimpleText
    else if MediaKind(rec).Some? then MediaKind(rec).value
    else if "mime_type" in rec then File
    else if "photo" in rec then Photo
    else if "poll" in rec then Poll
    else if "contact_information" in rec then Contact
    else if "location_information" in rec then Location
    else if "game_title" in rec then Game
    else if "via_bot" in rec then BotUsage
    else Unknown
  }

  /** After the first two tests the chain is exactly the rule table. */
  lemma ContentKindByTable(rec: Record)
    requires !IsSimpleText(rec) && MediaKind(rec).None?
    ensures ContentKind(rec) == FirstMatch(KeyRules, rec)
  {
    var r0 := KeyRules;
    var r1, r2, r3 := r0[1..], r0[2..], r0[3..];
    var r4, r5, r6 := r0[4..], r0[5..], r0[6..];
    assert r1[1..] == r2 && r2[1..] == r3 && r3[1..] == r4 && r4[1..] == r5 && r5[1..] == r6;
    assert r6[1..] == [];
    assert FirstMatch(r6, rec) == if "via_bot" in rec then BotUsage else Unknown;
    assert FirstMatch(r5, rec) == if "game_title" in rec then Game else FirstMatch(r6, rec);
    assert FirstMatch(r4, rec) == if "location_information" in rec then Location else FirstMatch(r5, rec);
    assert FirstMatch(r3, rec) == if "contact_information" in rec then Contact else FirstMatch(r4, rec);
    assert FirstMatch(r2, rec) == if "poll" in rec then Poll else FirstMatch(r3, rec);
    assert FirstMatch(r1, rec) == if "photo" in rec then Photo else FirstMatch(r2, rec);
    assert FirstMatch(r0, rec) == if "mime_type" in rec then File else FirstMatch(r1, rec);
  }

  /** A `simple_text` record carries none of the keys the later tests look
      at, so the first test never hides another; and a record is
      `simple_text` exactly when the first test holds. */
  lemma SimpleTextIsExclusive(rec: Record)
    ensures IsSimpleText(rec) ==> "media_type" !in rec
    ensures IsSimpleText(rec) ==> forall i :: 0 <= i < |KeyRules| ==> KeyRules[i].key !in rec
    ensures ContentKind(rec) == SimpleText <==> IsSimpleText(rec)
  {
  }

  /** A `media_type` outside the six values falls through to the
      presence tests. */
  lemma UnlistedMediaFallsThrough(rec: Record)
    requires !IsSimpleText(rec) && "media_type" in rec && rec["media_type"].Str?
    requires forall t :: IsMedia(t) ==> TypeName(t) != rec["media_type"].s
    ensures ContentKind(rec) == FirstMatch(KeyRules, rec)
  {
    ContentKindByTable(rec);
  }

  /** A timestamp field (seconds; see README for the ISO format). */
  function TimeOf(v: Value, key: string): (r: Result<int>)
    ensures r.Ok? <==> v.Num?
  {
    if v.Num? then Ok(v.n) else Err(WrongType(key))
  }

  /** `rec[key] if key in rec.keys() else 0`. */
  function ValueOr0(rec: Record, key: string): Value {
    if key in rec then rec[key] else Num(0)
  }

  /** `edit_time`, read only when the record was edited. */
  function EditTime(rec: Record): Result<Option<int>> {
    if "edited" in rec then
      var t :- TimeOf(rec["edited"], "edited");
      Ok(Some(t))
    else Ok(None)
  }

  /** `Message.__init__`: the record's fields are read in the source's
      order, and the first missing or ill-typed one is the error. */
  function Classify(rec: Record): Result<Message> {
    var date :- Need(rec, "date");
    var sendTime :- TimeOf(date, "date");
    var textV :- Need(rec, "text");
    var text :- FlattenText(textV);
    var typ :- Need(rec, "type");
    if typ == Str("service") then
      var actor :- Need(rec, "actor");
      var action :- Need(rec, "action");
      if action == Str("phone_call") then
        Ok(Message(actor, sendTime, SingleCall, text, Some(ValueOr0(rec, "duration_seconds")),
                   None, None, None, None, None, None, None))
      else
        Ok(Message(actor, sendTime, GroupCall, text, Some(ValueOr0(rec, "duration")),
                   None, None, None, None, None, None, None))
    else
      var author :- Need(rec, "from");
      var editTime :- EditTime(rec);
      var kind := ContentKind(rec);
      Ok(Message(
        author, sendTime, kind, text,
        if IsMedia(kind) then Some(ValueOr0(rec, "duration_seconds")) else None,
        if kind == Sticker then Some(if "sticker_emoji" in rec then rec["sticker_emoji"] else Null) else None,
        Some("edited" in rec),
        editTime,
        Some("forwarded_from" in rec),
        if "forwarded_from" in rec then Some(rec["forwarded_from"]) else None,
        if kind == Game then Some(rec["game_title"]) else None,
        if kind == Game then Some(GameTableOf(TextElements(textV))) else None))
  }

  /** The fields every record needs, by kind of record. */
  predicate Classifiable(rec: Record) {
    && "date" in rec && rec["date"].Num?
    && "text" in rec && FlattenText(rec["text"]).Ok?
    && "type" in rec
    && (if rec["type"] == Str("service") then "actor" in rec && "action" in rec
        else "from" in rec && ("edited" in rec ==> rec["edited"].Num?))
  }

  /** Classification fails exactly when a field it reads is missing or of
      the wrong kind; otherwise it yields one type from the closed set. */
  lemma ClassifyTotal(rec: Record)
    ensures Classify(rec).Ok? <==> Classifiable(rec)
  {
  }

  /** A service record is a call: its author is `actor`; `phone_call`
      gives `single_call` with `duration_seconds` (0 if absent), any other
      action `group_call` with `duration` (0 if absent); no other field is
      set. */
  lemma ClassifyService(rec: Record)
    requires Classifiable(rec) && rec["type"] == Str("service")
    ensures var m := Classify(rec).value;
      && m.author == rec["actor"]
      && m.sendTime == rec["date"].n
      && (m.kind == SingleCall <==> rec["action"] == Str("phone_call"))
      && (m.kind == SingleCall || m.kind == GroupCall)
      && m.duration == Some(if m.kind == SingleCall then ValueOr0(rec, "duration_seconds") else ValueOr0(rec, "duration"))
      && m.edited.None? && m.forwarded.None? && m.stickerEmoji.None? && m.gameTable.None?
  {
  }

  /** An ordinary record: its author is `from`, `edited` and `forwarded` say
      whether their keys are present, and its type is the first-match
      chain, never a call type. Media types carry `duration_seconds` (0 if
      absent), a sticker its `sticker_emoji` (None if absent), a game its
      title and parsed table. */
  lemma ClassifyOrdinary(rec: Record)
    requires Classifiable(rec) && rec["type"] != Str("service")
    ensures var m := Classify(rec).value;
      && m.author == rec["from"]
      && m.kind == ContentKind(rec) && m.kind != SingleCall && m.kind != GroupCall
      && m.edited == Some("edited" in rec)
      && (m.editTime.Some? <==> "edited" in rec)
      && m.forwarded == Some("forwarded_from" in rec)
      && (m.forwardedFrom.Some? <==> "forwarded_from" in rec)
      && (m.duration.Some? <==> IsMedia(m.kind))
      && (m.duration.Some? ==> m.duration.value == ValueOr0(rec, "duration_seconds"))
      && (m.stickerEmoji.Some? <==> m.kind == Sticker)
      && (m.gameTable.Some? <==> m.kind == Game)
      && (m.kind == Game ==> m.gameTable.value == GameTableOf(TextElements(rec["text"])))
  {
  }

  // ---------------------------------------------------------------- chats

  /** A built chat. `name` is `Null` when no name was found. */
  datatype Chat = Chat(name: Value, id: Value, chatType: Value, messages: seq<Message>)

  /** Whether the chat loop keeps a record: every record except a service
      record whose action is not a call. */
  function KeepRecord(m: Record): Result<bool> {
    var t :- Need(m, "type");
    if t == Str("service") then
      var a :- Need(m, "action");
      Ok(a == Str("phone_call") || a == Str("group_call"))
    else Ok(true)
  }

  /** `"user" + str(id)`, the sender id of a personal chat's contact. */
  function ContactId(id: Value): Option<string> {
    var s :- PyStr(id);
    Some("user" + s)
  }

  /** The record supplies the chat name: no name yet, a personal chat, and
      `from_id` is the contact's id. */
  predicate NamesChat(name: Value, personal: bool, contact: Option<string>, m: Record) {
    name == Null && personal && "from_id" in m && contact.Some? && m["from_id"] == Str(contact.value)
  }

  /** The state of the chat loop: the name so far and the messages kept. */
  datatype Scan = Scan(name: Value, messages: seq<Message>)

  /** One turn of the chat loop. */
  function ScanStep(st: Scan, m: Value, personal: bool, contact: Option<string>): Result<Scan> {
    if !m.Obj? then Err(WrongType("messages"))
    else
      var name :- if NamesChat(st.name, personal, contact, m.fields) then Need(m.fields, "from") else Ok(st.name);
      var kept :- KeepRecord(m.fields);
      if !kept then Ok(Scan(name, st.messages))
      else
        var msg :- Classify(m.fields);
        Ok(Scan(name, st.messages + [msg]))
  }

  /** The chat loop over `items`, from the state `st0`. */
  function ScanAll(items: seq<Value>, st0: Scan, personal: bool, contact: Option<string>): Result<Scan>
    decreases |items|
  {
    if items == [] then Ok(st0)
    else
      var st :- ScanAll(items[..|items| - 1], st0, personal, contact);
      ScanStep(st, items[|items| - 1], personal, contact)
  }

  lemma {:induction false} ScanAllPrefixError(items: seq<Value>, st0: Scan, personal: bool, contact: Option<string>, i: nat)
    requires i <= |items| && ScanAll(items[..i], st0, personal, contact).Err?
    ensures ScanAll(items, st0, personal, contact) == ScanAll(items[..i], st0, personal, contact)
    decreases |items| - i
  {
    if i < |items| {
      assert items[..i + 1][..i] == items[..i];
      ScanAllPrefixError(items, st0, personal, contact, i + 1);
    } else {
      assert items[..i] == items;
    }
  }

  /** What iterating `chat["messages"]` yields: a list's elements; an empty
      string or object yields nothing; anything else fails. */
  function MessageItems(v: Value): Result<seq<Value>> {
    match v
    case Arr(items) => Ok(items)
    case Str(s) => if s == "" then Ok([]) else Err(WrongType("messages"))
    case Obj(f) => if f == map[] then Ok([]) else Err(WrongType("messages"))
    case _ => Err(WrongType("messages"))
  }

  /** The name a chat starts with: its `name` unless it is personal. */
  function InitialName(chat: Record): Result<Value> {
    if "name" in chat then
      var t :- Need(chat, "type");
      Ok(if t != Str("personal_chat") then chat["name"] else Null)
    else Ok(Null)
  }

  /** `Chat.__init__`. */
  function ChatOf(chat: Record): Result<Chat> {
    var name0 :- InitialName(chat);
    var id :- Need(chat, "id");
    var typ :- Need(chat, "type");
    var msgs :- Need(chat, "messages");
    var items :- MessageItems(msgs);
    var st :- ScanAll(items, Scan(name0, []), typ == Str("personal_chat"), ContactId(id));
    Ok(Chat(st.name, id, typ, st.messages))
  }

  /** `Chat.__init__` as the source does it: one pass over the records,
      updating the name and appending messages. */
  method BuildChat(chat: Record) returns (r: Result<Chat>)
    ensures r == ChatOf(chat)
  {
    var name0 := InitialName(chat);
    if name0.Err? { return Err(name0.error); }
    var id := Need(chat, "id");
    if id.Err? { return Err(id.error); }
    var typ := Need(chat, "type");
    if typ.Err? { return Err(typ.error); }
    var msgs := Need(chat, "messages");
    if msgs.Err? { return Err(msgs.error); }
    var itemsR := MessageItems(msgs.value);
    if itemsR.Err? { return Err(itemsR.error); }
    var items := itemsR.value;
    var personal, contact := typ.value == Str("personal_chat"), ContactId(id.value);
    var st := ScanRecords(items, name0.value, personal, contact);
    if st.Err? { return Err(st.error); }
    return Ok(Chat(st.value.name, id.value, typ.value, st.value.messages));
  }

  /** The loop of `Chat.__init__` over the records. */
  method ScanRecords(items: seq<Value>, name0: Value, personal: bool, contact: Option<string>) returns (r: Result<Scan>)
    ensures r == ScanAll(items, Scan(name0, []), personal, contact)
  {
    ghost var st0 := Scan(name0, []);
    var name := name0;
    var messages: seq<Message> := [];
    var i := 0;
    while i < |items|
      invariant 0 <= i <= |items|
      invariant ScanAll(items[..i], st0, personal, contact) == Ok(Scan(name, messages))
      decreases |items| - i
    {
      var step := ScanStep(Scan(name, messages), items[i], personal, contact);
      ScanAllSnoc(items, i, st0, personal, contact, Scan(name, messages));
      if step.Err? {
        ScanAllPrefixError(items, st0, personal, contact, i + 1);
        return Err(step.error);
      }
      name, messages := step.value.name, step.value.messages;
      i := i + 1;
    }
    assert items[..i] == items;
    return Ok(Scan(name, messages));
  }

  /** One more record scanned. */
  lemma ScanAllSnoc(items: seq<Value>, i: nat, st0: Scan, personal: bool, contact: Option<string>, st: Scan)
    requires i < |items| && ScanAll(items[..i], st0, personal, contact) == Ok(st)
    ensures ScanAll(items[..i + 1], st0, personal, contact) == ScanStep(st, items[i], personal, contact)
  {
    assert items[..i + 1][..i] == items[..i];
  }

  /** The records the chat loop keeps, in input order. */
  function Kept(items: seq<Value>): seq<Value>
    decreases |items|
  {
    if items == [] then []
    else
      var init := Kept(items[..|items| - 1]);
      var m := items[|items| - 1];
      if m.Obj? && KeepRecord(m.fields) == Ok(true) then init + [m] else init
  }

  /** The chat's messages are the kept records, classified, in order. */
  lemma {:induction false} ScanKeepsOrder(items: seq<Value>, name0: Value, personal: bool, contact: Option<string>)
    requires ScanAll(items, Scan(name0, []), personal, contact).Ok?
    ensures var st := ScanAll(items, Scan(name0, []), personal, contact).value;
      && |st.messages| == |Kept(items)|
      && forall i :: 0 <= i < |st.messages| ==>
           Kept(items)[i].Obj? && Classify(Kept(items)[i].fields) == Ok(st.messages[i])
    decreases |items|
  {
    if items != [] {
      ScanKeepsOrder(items[..|items| - 1], name0, personal, contact);
    }
  }

  /** A record is dropped only when it is a service record other than a
      call. */
  lemma KeepRecordIff(m: Record)
    requires KeepRecord(m).Ok?
    ensures KeepRecord(m).value <==>
      !(m["type"] == Str("service") && m["action"] != Str("phone_call") && m["action"] != Str("group_call"))
  {
  }

  /** The `from` of the first record sent from the contact's id with a
      non-null `from`, or `Null`. */
  function FirstNamed(items: seq<Value>, contact: Option<string>): Value
    decreases |items|
  {
    if items == [] then Null
    else
      var earlier := FirstNamed(items[..|items| - 1], contact);
      var m := items[|items| - 1];
      if earlier != Null then earlier
      else if m.Obj? && NamesChat(Null, true, contact, m.fields) && "from" in m.fields then m.fields["from"]
      else Null
  }

  /** A personal chat is named after the first message its contact sent
      under a non-null name; any other chat keeps the name it started
      with. */
  lemma {:induction false} ScanNames(items: seq<Value>, name0: Value, personal: bool, contact: Option<string>)
    requires ScanAll(items, Scan(name0, []), personal, contact).Ok?
    ensures var st := ScanAll(items, Scan(name0, []), personal, contact).value;
      && (!personal ==> st.name == name0)
      && (personal && name0 == Null ==> st.name == FirstNamed(items, contact))
    decreases |items|
  {
    if items != [] {
      ScanNames(items[..|items| - 1], name0, personal, contact);
    }
  }

  /** The name of a built chat: the record's `name` for a non-personal
      chat (None if absent), else the contact's name. */
  lemma ChatName(chat: Record)
    requires ChatOf(chat).Ok?
    ensures chat["type"] != Str("personal_chat") ==>
      ChatOf(chat).value.name == (if "name" in chat then chat["name"] else Null)
    ensures chat["type"] == Str("personal_chat") ==>
      ChatOf(chat).value.name == FirstNamed(MessageItems(chat["messages"]).value, ContactId(chat["id"]))
  {
    var items := MessageItems(chat["messages"]).value;
    ScanNames(items, InitialName(chat).value, chat["type"] == Str("personal_chat"), ContactId(chat["id"]));
  }

  /** The messages of a built chat are its kept records, classified, in
      input order. */
  lemma ChatMessages(chat: Record)
    requires ChatOf(chat).Ok?
    ensures var c, kept := ChatOf(chat).value, Kept(MessageItems(chat["messages"]).value);
      && |c.messages| == |kept|
      && forall i :: 0 <= i < |kept| ==> kept[i].Obj? && Classify(kept[i].fields) == Ok(c.messages[i])
  {
    var items := MessageItems(chat["messages"]).value;
    ScanKeepsOrder(items, InitialName(chat).value, chat["type"] == Str("personal_chat"), ContactId(chat["id"]));
  }

  /** One chat per entry of `data["chats"]["list"]`, in order. */
  function ChatsOf(list: seq<Value>): Result<seq<Chat>>
    decreases |list|
  {
    if list == [] then Ok([])
    else
      var init :- ChatsOf(list[..|list| - 1]);
      var last := list[|list| - 1];
      if !last.Obj? then Err(WrongType("chats"))
      else
        var c :- ChatOf(last.fields);
        Ok(init + [c])
  }

  lemma {:induction false} ChatsOfPrefixError(list: seq<Value>, i: nat)
    requires i <= |list| && ChatsOf(list[..i]).Err?
    ensures ChatsOf(list) == ChatsOf(list[..i])
    decreases |list| - i
  {
    if i < |list| {
      assert list[..i + 1][..i] == list[..i];
      ChatsOfPrefixError(list, i + 1);
    } else {
      assert list[..i] == list;
    }
  }

  /** `start_creator` after the JSON load: one `Chat` per entry. */
  method StartCreator(list: seq<Value>) returns (r: Result<seq<Chat>>)
    ensures r == ChatsOf(list)
  {
    var chats: seq<Chat> := [];
    var i := 0;
    while i < |list|
      invariant 0 <= i <= |list|
      invariant ChatsOf(list[..i]) == Ok(chats)
      decreases |list| - i
    {
      assert list[..i + 1][..i] == list[..i];
      if !list[i].Obj? {
        ChatsOfPrefixError(list, i + 1);
        return Err(WrongType("chats"));
      }
      var c := BuildChat(list[i].fields);
      if c.Err? {
        ChatsOfPrefixError(list, i + 1);
        return Err(c.error);
      }
      chats := chats + [c.value];
      i := i + 1;
    }
    assert list[..i] == list;
    return Ok(chats);
  }

  /** `start_creator` yields one chat per entry, in the same order. */
  lemma {:induction false} ChatsInOrder(list: seq<Value>, cs: seq<Chat>)
    requires ChatsOf(list) == Ok(cs)
    ensures |cs| == |list|
    ensures forall i :: 0 <= i < |list| ==> list[i].Obj? && ChatOf(list[i].fields) == Ok(cs[i])
    decreases |list|
  {
    if list != [] {
      var init, last := list[..|list| - 1], list[|list| - 1];
      var cs' := ChatsOf(init).value;
      ChatsInOrder(init, cs');
      var c := ChatOf(last.fields);
      assert last.Obj? && c.Ok? && cs == cs' + [c.value];
      SnocAll((v: Value, x: Chat) => v.Obj? && ChatOf(v.fields) == Ok(x), init, cs', last, c.value);
      assert init + [last] == list;
    }
  }

  /** A relation that holds item by item keeps holding after a snoc. */
  lemma SnocAll<X, Y>(rel: (X, Y) -> bool, xs: seq<X>, ys: seq<Y>, x: X, y: Y)
    requires |xs| == |ys| && forall i :: 0 <= i < |xs| ==> rel(xs[i], ys[i])
    requires rel(x, y)
    ensures forall i :: 0 <= i < |xs| + 1 ==> rel((xs + [x])[i], (ys + [y])[i])
  {
    forall i | 0 <= i < |xs| + 1 ensures rel((xs + [x])[i], (ys + [y])[i]) {
      if i < |xs| {
        assert (xs + [x])[i] == xs[i] && (ys + [y])[i] == ys[i];
      }
    }
  }
}
