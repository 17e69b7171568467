/** The older message builder of API/creator/__init__.py: an `Extraction`
    that lists the key sets of the ordinary records and splits the keys
    into required and optional ones, and a `Message` object per ordinary
    record whose attributes are the chat's and the record's own keys
    (`chat_<key>`, `mes_<key>`) and whose `msg_type` comes from a chain of
    tests on those attributes. */
module ApiCreator {
  import opened Values
  import opened PyStrings
  import opened Seqs
  import Creator

  // ------------------------------------------------------------ dicts

  /** A JSON object as `json.load` builds it: the values by key and the
      keys in insertion order, each once. */
  datatype Ordered = Ordered(order: seq<string>, fields: map<string, Value>)

  predicate Consistent(o: Ordered) {
    && (forall i, j :: 0 <= i < j < |o.order| ==> o.order[i] != o.order[j])
    && (forall k :: k in o.fields ==> k in o.order)
    && (forall k :: k in o.order ==> k in o.fields)
  }

  type Dict = o: Ordered | Consistent(o) witness Ordered([], map[])

  /** A chat of `data['chats']['list']`: its own dict and the records of
      its `messages` list. */
  datatype ChatIn = ChatIn(info: Dict, messages: seq<Dict>)

  /** `messages_ex_all()` (lines 46-52): every record of every chat, in
      order. */
  function AllMessages(chats: seq<ChatIn>): (r: seq<Dict>)
    decreases |chats|
  {
    if chats == [] then [] else AllMessages(chats[..|chats| - 1]) + chats[|chats| - 1].messages
  }

  // ---------------------------------------------------------- filter

  /** `message_filter` (lines 55-59): whether the record is not a service
      record; KeyError when it has no `type`. */
  function MessageFilter(message: Dict): (r: Result<bool>)
    ensures r.Ok? <==> "type" in message.fields
    ensures r.Err? ==> r.error == MissingKey("type")
  {
    var t :- Need(message.fields, "type");
    Ok(t != Str("service"))
  }

  /** The records the filter keeps, in order; the filter's KeyError on the
      first record without a `type`. */
  function Kept(ms: seq<Dict>): (r: Result<seq<Dict>>)
    decreases |ms|
  {
    if ms == [] then Ok([])
    else
      var init :- Kept(ms[..|ms| - 1]);
      var keep :- MessageFilter(ms[|ms| - 1]);
      Ok(if keep then init + [ms[|ms| - 1]] else init)
  }

  /** The filter fails exactly when some record has no `type`, with the
      filter's KeyError. */
  lemma {:induction false} KeptError(ms: seq<Dict>, r: Result<seq<Dict>>)
    requires r == Kept(ms)
    ensures r.Err? <==> Untyped(ms)
    ensures r.Err? ==> r.error == MissingKey("type")
    decreases |ms|
  {
    if ms != [] {
      var init := ms[..|ms| - 1];
      var last := ms[|ms| - 1];
      var prev := Kept(init);
      KeptError(init, prev);
      UntypedSnoc(ms);
      assert r.Err? <==> prev.Err? || MessageFilter(last).Err?;
    }
  }

  /** A record without `type` is in the front or is the last one. */
  lemma UntypedSnoc(ms: seq<Dict>)
    requires ms != []
    ensures Untyped(ms) <==> Untyped(ms[..|ms| - 1]) || "type" !in ms[|ms| - 1].fields
  {
    var init := ms[..|ms| - 1];
    if Untyped(init) {
      var i :| 0 <= i < |init| && "type" !in init[i].fields;
      assert ms[i] == init[i];
    }
    if Untyped(ms) {
      var i :| 0 <= i < |ms| && "type" !in ms[i].fields;
      if i < |init| {
        assert init[i] == ms[i];
      }
    }
  }

  /** Some record has no `type`. */
  predicate Untyped(ms: seq<Dict>) {
    exists i :: 0 <= i < |ms| && "type" !in ms[i].fields
  }

  /** Otherwise it keeps exactly the records whose type is not `service`. */
  lemma {:induction false} KeptMembers(ms: seq<Dict>)
    requires Kept(ms).Ok?
    ensures forall m :: m in Kept(ms).value <==> m in ms && "type" in m.fields && m.fields["type"] != Str("service")
    ensures |Kept(ms).value| <= |ms|
    decreases |ms|
  {
    if ms != [] {
      var init := ms[..|ms| - 1];
      var last := ms[|ms| - 1];
      KeptMembers(init);
      assert ms == init + [last];
      var k := Kept(init).value;
      assert "type" in last.fields;
      if last.fields["type"] != Str("service") {
        assert Kept(ms).value == k + [last];
      } else {
        assert Kept(ms).value == k;
      }
      forall m ensures m in Kept(ms).value <==> m in ms && "type" in m.fields && m.fields["type"] != Str("service") {
        assert m in ms <==> m in init || m == last;
      }
    }
  }

  // ------------------------------------------------------- game_finder

  /** What `for line in message["text"]` visits: the characters of a
      string or the items of a list (TypeError on any other value). */
  function TextLines(text: Value): (r: Result<seq<Value>>)
    ensures text.Str? ==> r == Ok(Creator.Chars(text.s))
    ensures text.Arr? ==> r == Ok(text.items)
    ensures !text.Str? && !text.Arr? ==> r == Err(WrongType("text"))
  {
    match text
    case Str(s) => Ok(Creator.Chars(s))
    case Arr(items) => Ok(items)
    case _ => Err(WrongType("text"))
  }

  /** The first line that is a string containing `login`. */
  function FirstWith(lines: seq<Value>, login: string): Option<string>
    decreases |lines|
  {
    if lines == [] then None
    else if lines[0].Str? && Contains(lines[0].s, login) then Some(lines[0].s)
    else FirstWith(lines[1..], login)
  }

  predicate Mentions(line: Value, login: string) {
    line.Str? && Contains(line.s, login)
  }

  /** `FirstWith` finds nothing exactly when no line mentions the login,
      and otherwise the earliest line that does. */
  lemma {:induction false} FirstWithFinds(lines: seq<Value>, login: string)
    ensures FirstWith(lines, login).None? <==> forall i :: 0 <= i < |lines| ==> !Mentions(lines[i], login)
    ensures FirstWith(lines, login).Some? ==>
      exists i :: 0 <= i < |lines| && lines[i] == Str(FirstWith(lines, login).value)
        && Mentions(lines[i], login) && (forall j :: 0 <= j < i ==> !Mentions(lines[j], login))
    decreases |lines|
  {
    if lines != [] {
      var rest := lines[1..];
      FirstWithFinds(rest, login);
      forall i | 0 < i < |lines| ensures lines[i] == rest[i - 1] { }
      if !Mentions(lines[0], login) && FirstWith(rest, login).Some? {
        var i :| 0 <= i < |rest| && rest[i] == Str(FirstWith(rest, login).value)
          && Mentions(rest[i], login) && forall j :: 0 <= j < i ==> !Mentions(rest[j], login);
        assert lines[i + 1] == rest[i];
        forall j | 0 <= j < i + 1 ensures !Mentions(lines[j], login) {
          if j > 0 { assert lines[j] == rest[j - 1]; }
        }
      }
    }
  }

  /** `game_finder(login, message)` (lines 14-20): the slice `[1:find(".")]`
      of the first text line that is a string containing the login, or None;
      KeyError without a `text`. */
  function GameFinder(login: string, message: Dict): (r: Result<Option<string>>)
    ensures r.Err? <==> "text" !in message.fields || !(message.fields["text"].Str? || message.fields["text"].Arr?)
  {
    var text :- Need(message.fields, "text");
    var lines :- TextLines(text);
    var line := FirstWith(lines, login);
    Ok(if line.Some? then Some(Slice(line.value, 1, Find(line.value, "."))) else None)
  }

  /** On a list text, the finder answers None exactly when no item is a
      string containing the login, and otherwise slices the first such
      item. */
  lemma GameFinderFirst(login: string, message: Dict)
    requires "text" in message.fields && message.fields["text"].Arr?
    ensures var lines := message.fields["text"].items;
      && (GameFinder(login, message) == Ok(None) <==> forall i :: 0 <= i < |lines| ==> !Mentions(lines[i], login))
      && (GameFinder(login, message).value.Some? ==>
            exists i :: 0 <= i < |lines| && Mentions(lines[i], login)
              && (forall j :: 0 <= j < i ==> !Mentions(lines[j], login))
              && GameFinder(login, message).value.value == Slice(lines[i].s, 1, Find(lines[i].s, ".")))
  {
    FirstWithFinds(message.fields["text"].items, login);
  }

  // ----------------------------------------------------- key strings

  /** `repr(k)` of a key, for keys without quotes or backslashes. */
  function Quoted(k: string): string {
    "'" + k + "'"
  }

  /** The items of `str(list(keys))` between the brackets. */
  function JoinKeys(keys: seq<string>): string
    decreases |keys|
  {
    if keys == [] then ""
    else if |keys| == 1 then Quoted(keys[0])
    else JoinKeys(keys[..|keys| - 1]) + ", " + Quoted(keys[|keys| - 1])
  }

  /** `str(list(message.keys()))`, the text that line 66 keeps per record. */
  function KeyString(keys: seq<string>): string {
    "[" + JoinKeys(keys) + "]"
  }

  lemma OccursLeft(s: string, t: string, sub: string, p: int)
    requires OccursAt(s, sub, p)
    ensures OccursAt(s + t, sub, p)
  {
    assert (s + t)[p..p + |sub|] == s[p..p + |sub|];
  }

  lemma OccursRight(s: string, t: string, sub: string, p: int)
    requires OccursAt(t, sub, p)
    ensures OccursAt(s + t, sub, |s| + p)
  {
    assert (s + t)[|s| + p..|s| + p + |sub|] == t[p..p + |sub|];
  }

  lemma {:induction false} JoinKeysHas(keys: seq<string>, i: nat)
    requires i < |keys|
    ensures exists p :: OccursAt(JoinKeys(keys), keys[i], p)
    decreases |keys|
  {
    var k := keys[i];
    OccursRight("'", k + "'", k, 0);
    assert "'" + (k + "'") == Quoted(k);
    assert OccursAt(Quoted(k), k, 1);
    if |keys| == 1 {
      assert JoinKeys(keys) == Quoted(k);
      assert OccursAt(JoinKeys(keys), k, 1);
    } else {
      var init := keys[..|keys| - 1];
      var head := JoinKeys(init) + ", ";
      assert JoinKeys(keys) == head + Quoted(keys[|keys| - 1]);
      if i == |keys| - 1 {
        OccursRight(head, Quoted(k), k, 1);
        assert OccursAt(JoinKeys(keys), k, |head| + 1);
      } else {
        JoinKeysHas(init, i);
        var p :| OccursAt(JoinKeys(init), init[i], p);
        OccursLeft(JoinKeys(init), ", ", k, p);
        OccursLeft(head, Quoted(keys[|keys| - 1]), k, p);
        assert OccursAt(JoinKeys(keys), k, p);
      }
    }
  }

  /** Every key of a record occurs as a substring of its key string. */
  lemma KeyStringHas(keys: seq<string>, k: string)
    requires k in keys
    ensures Contains(KeyString(keys), k)
  {
    var i :| 0 <= i < |keys| && keys[i] == k;
    JoinKeysHas(keys, i);
    var p :| OccursAt(JoinKeys(keys), k, p);
    OccursRight("[", JoinKeys(keys), k, p);
    OccursLeft("[" + JoinKeys(keys), "]", k, 1 + p);
    ContainsIff(KeyString(keys), k);
  }

  /** The test `par in keys` of line 79 is a substring test on these
      strings: `title` passes on a record whose only key is `game_title`. */
  lemma SubstringNotMembership()
    ensures "title" !in ["game_title"]
    ensures Contains(KeyString(["game_title"]), "title")
  {
    var s := KeyString(["game_title"]);
    assert s == "['game_title']";
    assert OccursAt(s, "title", 7);
    ContainsIff(s, "title");
  }

  // ------------------------------------------------- sorted(set(...))

  predicate StrictlySorted(s: seq<string>) {
    forall i, j :: 0 <= i < j < |s| ==> LexLess(s[i], s[j])
  }

  /** `x` put into a strictly sorted list, unless it is there already. */
  function Insert(s: seq<string>, x: string): seq<string>
    decreases |s|
  {
    if s == [] then [x]
    else if s[0] == x then s
    else if LexLess(x, s[0]) then [x] + s
    else [s[0]] + Insert(s[1..], x)
  }

  /** `sorted(list(set(xs)))`. */
  function SortedSet(xs: seq<string>): seq<string>
    decreases |xs|
  {
    if xs == [] then [] else Insert(SortedSet(xs[..|xs| - 1]), xs[|xs| - 1])
  }

  lemma LessThanAll(a: string, t: seq<string>)
    requires StrictlySorted(t) && forall y :: y in t ==> LexLess(a, y)
    ensures StrictlySorted([a] + t)
  {
    var s := [a] + t;
    forall i, j | 0 <= i < j < |s| ensures LexLess(s[i], s[j]) {
      assert s[j] == t[j - 1];
      if i > 0 { assert s[i] == t[i - 1]; }
    }
  }

  lemma {:induction false} InsertSorted(s: seq<string>, x: string)
    requires StrictlySorted(s)
    ensures StrictlySorted(Insert(s, x))
    ensures forall y :: y in Insert(s, x) <==> y in s || y == x
    decreases |s|
  {
    if s != [] && s[0] != x {
      assert s == [s[0]] + s[1..];
      if LexLess(x, s[0]) {
        forall y | y in s ensures LexLess(x, y) {
          if y != s[0] {
            var j :| 0 < j < |s| && s[j] == y;
            LexLessTransitive(x, s[0], y);
          }
        }
        LessThanAll(x, s);
      } else {
        LexLessTotal(x, s[0]);
        InsertSorted(s[1..], x);
        forall y | y in Insert(s[1..], x) ensures LexLess(s[0], y) {
          if y != x {
            var j :| 0 <= j < |s[1..]| && s[1..][j] == y;
            assert s[j + 1] == y;
          }
        }
        LessThanAll(s[0], Insert(s[1..], x));
      }
    }
  }

  /** `sorted(list(set(xs)))` is strictly sorted and has exactly the
      members of `xs`. */
  lemma {:induction false} SortedSetMeaning(xs: seq<string>)
    ensures StrictlySorted(SortedSet(xs))
    ensures forall y :: y in SortedSet(xs) <==> y in xs
    decreases |xs|
  {
    if xs != [] {
      var init := xs[..|xs| - 1];
      SortedSetMeaning(init);
      InsertSorted(SortedSet(init), xs[|xs| - 1]);
      assert xs == init + [xs[|xs| - 1]];
    }
  }

  /** The head of a strictly sorted list is below its other members. */
  lemma HeadLeast(a: seq<string>, y: string)
    requires StrictlySorted(a) && y in a
    ensures a[0] == y || LexLess(a[0], y)
  {
  }

  /** Two strictly sorted lists with the same members are equal: the set
      comprehension's hash order does not reach the result. */
  lemma {:induction false} SortedUnique(a: seq<string>, b: seq<string>)
    requires StrictlySorted(a) && StrictlySorted(b)
    requires forall y :: y in a <==> y in b
    ensures a == b
    decreases |a|
  {
    if a != [] && b != [] {
      HeadLeast(a, b[0]);
      HeadLeast(b, a[0]);
      if a[0] != b[0] {
        LexLessTransitive(a[0], b[0], a[0]);
        LexLessIrreflexive(a[0]);
      }
      forall y ensures y in a[1..] <==> y in b[1..] {
        if y in a[1..] {
          var j :| 0 <= j < |a[1..]| && a[1..][j] == y;
          assert a[j + 1] == y && LexLess(a[0], y);
          LexLessIrreflexive(y);
          assert y in a && y in b;
          var k :| 0 <= k < |b| && b[k] == y;
          assert b[1..][k - 1] == y;
        }
        if y in b[1..] {
          var j :| 0 <= j < |b[1..]| && b[1..][j] == y;
          assert b[j + 1] == y && LexLess(b[0], y);
          LexLessIrreflexive(y);
          assert y in b && y in a;
          var k :| 0 <= k < |a| && a[k] == y;
          assert a[1..][k - 1] == y;
        }
      }
      SortedUnique(a[1..], b[1..]);
      assert a == [a[0]] + a[1..] && b == [b[0]] + b[1..];
    } else if a != [] {
      HeadIn(a);
      assert false;
    } else if b != [] {
      HeadIn(b);
      assert false;
    }
  }

  lemma HeadIn(s: seq<string>)
    requires s != []
    ensures s[0] in s
  {
  }

  // ----------------------------------------------------------- params

  /** `str(list(message.keys()))` of each record. */
  function KeyStrings(ms: seq<Dict>): (r: seq<string>)
    ensures |r| == |ms| && forall i :: 0 <= i < |ms| ==> r[i] == KeyString(ms[i].order)
    decreases |ms|
  {
    if ms == [] then [] else KeyStrings(ms[..|ms| - 1]) + [KeyString(ms[|ms| - 1].order)]
  }

  /** Every key of every record, in order (`par for keys in ... for par in keys`). */
  function AllKeys(ms: seq<Dict>): seq<string>
    decreases |ms|
  {
    if ms == [] then [] else AllKeys(ms[..|ms| - 1]) + ms[|ms| - 1].order
  }

  /** Some record has the key `k`. */
  predicate HasKey(ms: seq<Dict>, k: string) {
    exists i :: 0 <= i < |ms| && k in ms[i].order
  }

  /** A key is among all the keys exactly when some record has it. */
  lemma {:induction false} AllKeysHas(ms: seq<Dict>, k: string)
    ensures k in AllKeys(ms) <==> HasKey(ms, k)
    decreases |ms|
  {
    if ms != [] {
      var init := ms[..|ms| - 1];
      var last := ms[|ms| - 1];
      AllKeysHas(init, k);
      assert AllKeys(ms) == AllKeys(init) + last.order;
      if k in AllKeys(init) {
        var i :| 0 <= i < |init| && k in init[i].order;
        assert ms[i] == init[i];
        assert HasKey(ms, k);
      }
      if k in last.order {
        assert HasKey(ms, k);
      }
      if HasKey(ms, k) {
        var i :| 0 <= i < |ms| && k in ms[i].order;
        if i < |init| {
          assert init[i] == ms[i];
          assert HasKey(init, k);
        }
      }
    }
  }

  /** `message_keys_ex()` (line 66): the sorted distinct key strings of
      the kept records. */
  function MessageKeysOf(chats: seq<ChatIn>): Result<seq<string>> {
    var ms :- Kept(AllMessages(chats));
    Ok(SortedSet(KeyStrings(ms)))
  }

  /** `all(map(lambda keys: par in keys, self.message_keys))`. */
  predicate InAll(keyStrings: seq<string>, par: string) {
    forall s :: s in keyStrings ==> Contains(s, par)
  }

  /** The loop of lines 78-82 over `params`: each into the required list
      when every key string contains it, else into the optional list. */
  function Partition(params: seq<string>, keyStrings: seq<string>): (seq<string>, seq<string>)
    decreases |params|
  {
    if params == [] then ([], [])
    else
      var (req, opt) := Partition(params[..|params| - 1], keyStrings);
      var par := params[|params| - 1];
      if InAll(keyStrings, par) then (req + [par], opt) else (req, opt + [par])
  }

  /** `req_opt_params_ex()` (lines 70-83) given the `message_keys`
      attribute (None until `message_keys_ex` has run): the filter's
      KeyError, then AttributeError at the first parameter when the
      attribute is unset. */
  function ReqOptOf(chats: seq<ChatIn>, messageKeys: Option<seq<string>>): Result<(seq<string>, seq<string>)> {
    var ms :- Kept(AllMessages(chats));
    var params := SortedSet(AllKeys(ms));
    if params != [] && messageKeys.None? then Err(MissingAttribute("message_keys"))
    else Ok(Partition(params, messageKeys.GetOr([])))
  }

  /** Every parameter goes into exactly one list, the required one exactly
      when every key string contains it, and the lists are as long as
      `params` together. */
  lemma {:induction false} PartitionMembers(params: seq<string>, keyStrings: seq<string>, p: string)
    ensures |Partition(params, keyStrings).0| + |Partition(params, keyStrings).1| == |params|
    ensures p in Partition(params, keyStrings).0 <==> p in params && InAll(keyStrings, p)
    ensures p in Partition(params, keyStrings).1 <==> p in params && !InAll(keyStrings, p)
    decreases |params|
  {
    if params != [] {
      var init := params[..|params| - 1];
      PartitionMembers(init, keyStrings, p);
      assert params == init + [params[|params| - 1]];
    }
  }

  /** Both lists keep the order of a sorted `params`. */
  lemma {:induction false} PartitionSorted(params: seq<string>, keyStrings: seq<string>)
    requires StrictlySorted(params)
    ensures StrictlySorted(Partition(params, keyStrings).0)
    ensures StrictlySorted(Partition(params, keyStrings).1)
    decreases |params|
  {
    if params != [] {
      var init := params[..|params| - 1];
      var par := params[|params| - 1];
      assert StrictlySorted(init);
      PartitionSorted(init, keyStrings);
      var (req, opt) := Partition(init, keyStrings);
      forall y | y in req ensures LexLess(y, par) {
        PartitionMembers(init, keyStrings, y);
        var j :| 0 <= j < |init| && init[j] == y;
      }
      forall y | y in opt ensures LexLess(y, par) {
        PartitionMembers(init, keyStrings, y);
        var j :| 0 <= j < |init| && init[j] == y;
      }
      AppendGreatest(req, par);
      AppendGreatest(opt, par);
    }
  }

  /** A strictly sorted list extended by something above all of it. */
  lemma AppendGreatest(s: seq<string>, x: string)
    requires StrictlySorted(s)
    ensures (forall y :: y in s ==> LexLess(y, x)) ==> StrictlySorted(s + [x])
  {
    if forall y :: y in s ==> LexLess(y, x) {
      var t := s + [x];
      forall i, j | 0 <= i < j < |t| ensures LexLess(t[i], t[j]) {
        assert t[i] == s[i];
        if j < |s| { assert t[j] == s[j]; }
      }
    }
  }

  /** As `start_api` calls them (`message_keys_ex`, then
      `req_opt_params_ex`): a parameter is required exactly when it is a
      key of some kept record and a substring of every kept record's key
      string. */
  lemma RequiredMeaning(chats: seq<ChatIn>, p: string)
    requires MessageKeysOf(chats).Ok?
    requires ReqOptOf(chats, Some(MessageKeysOf(chats).value)).Ok?
    ensures var ms := Kept(AllMessages(chats)).value;
      var (req, opt) := ReqOptOf(chats, Some(MessageKeysOf(chats).value)).value;
      && (p in req <==> HasKey(ms, p)
                        && forall i :: 0 <= i < |ms| ==> Contains(KeyString(ms[i].order), p))
      && (p in opt <==> HasKey(ms, p)
                        && exists i :: 0 <= i < |ms| && !Contains(KeyString(ms[i].order), p))
      && StrictlySorted(req) && StrictlySorted(opt)
  {
    var ms := Kept(AllMessages(chats)).value;
    var keys := SortedSet(KeyStrings(ms));
    var params := SortedSet(AllKeys(ms));
    SortedSetMeaning(KeyStrings(ms));
    SortedSetMeaning(AllKeys(ms));
    AllKeysHas(ms, p);
    PartitionMembers(params, keys, p);
    PartitionSorted(params, keys);
    InAllKeyStrings(ms, keys, p);
  }

  /** The substring test holds on every key string exactly when it holds
      on each record's. */
  lemma InAllKeyStrings(ms: seq<Dict>, keys: seq<string>, p: string)
    requires forall y :: y in keys <==> y in KeyStrings(ms)
    ensures InAll(keys, p) <==> forall i :: 0 <= i < |ms| ==> Contains(KeyString(ms[i].order), p)
  {
    var ks := KeyStrings(ms);
    InAllOf(ks, keys, p);
    assert (forall i :: 0 <= i < |ks| ==> Contains(ks[i], p)) <==> forall i :: 0 <= i < |ms| ==> Contains(KeyString(ms[i].order), p);
  }

  lemma InAllOf(ks: seq<string>, keys: seq<string>, p: string)
    requires forall y :: y in keys <==> y in ks
    ensures InAll(keys, p) <==> forall i :: 0 <= i < |ks| ==> Contains(ks[i], p)
  {
    if forall i :: 0 <= i < |ks| ==> Contains(ks[i], p) {
      forall s | s in keys ensures Contains(s, p) {
        var i :| 0 <= i < |ks| && ks[i] == s;
      }
    }
  }

  /** A key of every kept record is always required: the substring test
      over-approximates membership. */
  lemma RequiredOfCommonKey(chats: seq<ChatIn>, p: string)
    requires MessageKeysOf(chats).Ok?
    requires ReqOptOf(chats, Some(MessageKeysOf(chats).value)).Ok?
    requires var ms := Kept(AllMessages(chats)).value;
      ms != [] && forall i :: 0 <= i < |ms| ==> p in ms[i].fields
    ensures p in ReqOptOf(chats, Some(MessageKeysOf(chats).value)).value.0
  {
    var ms := Kept(AllMessages(chats)).value;
    RequiredMeaning(chats, p);
    forall i | 0 <= i < |ms| ensures Contains(KeyString(ms[i].order), p) {
      KeyStringHas(ms[i].order, p);
    }
  }

  /** A substring of a substring is a substring. */
  lemma OccursTail(s: string, sub: string, p: int, k: nat)
    requires OccursAt(s, sub, p) && k <= |sub|
    ensures OccursAt(s, sub[k..], p + k)
  {
    assert s[p + k..p + |sub|] == s[p..p + |sub|][k..];
  }

  /** A record with `title` or `game_title` has `title` in its key string. */
  lemma TitleInKeyString(keys: seq<string>)
    requires "title" in keys || "game_title" in keys
    ensures Contains(KeyString(keys), "title")
  {
    var ks := KeyString(keys);
    if "title" in keys {
      KeyStringHas(keys, "title");
    } else {
      KeyStringHas(keys, "game_title");
      ContainsIff(ks, "game_title");
      var p :| OccursAt(ks, "game_title", p);
      OccursTail(ks, "game_title", p, 5);
      assert "game_title"[5..] == "title";
      ContainsIff(ks, "title");
    }
  }

  /** The substring test at work: when every kept record has `title` or
      `game_title` and some has `title`, `title` is required, although the
      records with only `game_title` lack it. */
  lemma TitleRequiredThroughGameTitle(chats: seq<ChatIn>)
    requires MessageKeysOf(chats).Ok?
    requires ReqOptOf(chats, Some(MessageKeysOf(chats).value)).Ok?
    requires var ms := Kept(AllMessages(chats)).value;
      HasKey(ms, "title") && forall i :: 0 <= i < |ms| ==> "title" in ms[i].order || "game_title" in ms[i].order
    ensures "title" in ReqOptOf(chats, Some(MessageKeysOf(chats).value)).value.0
  {
    var ms := Kept(AllMessages(chats)).value;
    RequiredMeaning(chats, "title");
    forall i | 0 <= i < |ms| ensures Contains(KeyString(ms[i].order), "title") {
      TitleInKeyString(ms[i].order);
    }
  }

  /** The loader's state: the chats list and the attributes that
      `message_keys_ex` and `req_opt_params_ex` set. */
  class Extraction {
    var chats: seq<ChatIn>
    var messageKeys: Option<seq<string>>
    var requiredParams: seq<string>
    var optionalParams: seq<string>

    /** An extractor after `data_ex` and `chats_ex` (lines 29-43) have
        read `data['chats']['list']`. */
    constructor (chats: seq<ChatIn>)
      ensures this.chats == chats && messageKeys == None
      ensures requiredParams == [] && optionalParams == []
    {
      this.chats := chats;
      messageKeys := None;
      requiredParams, optionalParams := [], [];
    }

    /** `message_keys_ex()` (lines 62-67). */
    method MessageKeysEx() returns (r: Result<seq<string>>)
      modifies this
      ensures r == MessageKeysOf(chats)
      ensures messageKeys == (if r.Ok? then Some(r.value) else old(messageKeys))
      ensures chats == old(chats) && requiredParams == old(requiredParams) && optionalParams == old(optionalParams)
    {
      r := MessageKeysOf(chats);
      if r.Ok? {
        messageKeys := Some(r.value);
      }
    }

    /** `req_opt_params_ex()` (lines 70-83). */
    method ReqOptParamsEx() returns (r: Result<(seq<string>, seq<string>)>)
      modifies this
      ensures r == ReqOptOf(chats, messageKeys)
      ensures r.Ok? ==> requiredParams == r.value.0 && optionalParams == r.value.1
      ensures r.Err? ==> requiredParams == [] && optionalParams == []
      ensures chats == old(chats) && messageKeys == old(messageKeys)
    {
      requiredParams, optionalParams := [], [];
      var ms := Kept(AllMessages(chats));
      if ms.Err? {
        return Err(ms.error);
      }
      var params := SortedSet(AllKeys(ms.value));
      for i := 0 to |params|
        invariant (requiredParams, optionalParams) == Partition(params[..i], messageKeys.GetOr([]))
        invariant i > 0 ==> messageKeys.Some?
        invariant chats == old(chats) && messageKeys == old(messageKeys)
      {
        if messageKeys.None? {
          return Err(MissingAttribute("message_keys"));
        }
        assert params[..i + 1][..i] == params[..i];
        if InAll(messageKeys.value, params[i]) {
          requiredParams := requiredParams + [params[i]];
        } else {
          optionalParams := optionalParams + [params[i]];
        }
      }
      assert params[..|params|] == params;
      r := Ok((requiredParams, optionalParams));
    }
  }

  // --------------------------------------------------------- attributes

  /** `self.__dict__[prefix + key] = d[key]` for each key in turn. */
  function WriteAll(m: map<string, Value>, prefix: string, d: Dict, keys: seq<string>): map<string, Value>
    decreases |keys|
  {
    if keys == [] then m
    else
      var k := keys[|keys| - 1];
      var prev := WriteAll(m, prefix, d, keys[..|keys| - 1]);
      if k in d.fields then prev[prefix + k := d.fields[k]] else prev
  }

  /** The instance attributes that lines 148-156 write: `chat_<key>` for
      each key of the chat, then `mes_<key>` for each key of the record. */
  function AttrsOf(chat: Dict, message: Dict): map<string, Value> {
    WriteAll(WriteAll(map[], "chat_", chat, chat.order), "mes_", message, message.order)
  }

  /** `self.<name>` for the names the type chain reads: the instance
      attribute, else the class attribute, which is None. */
  function Attr(attrs: map<string, Value>, name: string): Value {
    if name in attrs then attrs[name] else Null
  }

  /** `self.mes_<key>`. */
  function Mes(attrs: map<string, Value>, key: string): Value {
    Attr(attrs, "mes_" + key)
  }

  /** The value of `key` in a record, None when absent. */
  function Field(d: Dict, key: string): Value {
    if key in d.fields then d.fields[key] else Null
  }

  lemma PrefixInjective(p: string, a: string, b: string)
    requires p + a == p + b
    ensures a == b
  {
    assert a == (p + a)[|p|..];
    assert b == (p + b)[|p|..];
  }

  /** An attribute `prefix + k` holds the last value written under it. */
  lemma {:induction false} WriteAllAt(m: map<string, Value>, p: string, d: Dict, keys: seq<string>, k: string)
    ensures p + k in WriteAll(m, p, d, keys) <==> p + k in m || (k in keys && k in d.fields)
    ensures k in keys && k in d.fields ==> WriteAll(m, p, d, keys)[p + k] == d.fields[k]
    ensures k !in keys && p + k in m ==> WriteAll(m, p, d, keys)[p + k] == m[p + k]
    decreases |keys|
  {
    if keys != [] {
      var init := keys[..|keys| - 1];
      var j := keys[|keys| - 1];
      WriteAllAt(m, p, d, init, k);
      assert keys == init + [j];
      if p + j == p + k {
        PrefixInjective(p, j, k);
      }
    }
  }

  /** A name that does not start with `p` is left alone. */
  lemma {:induction false} WriteAllOther(m: map<string, Value>, p: string, d: Dict, keys: seq<string>, name: string)
    requires |name| < |p| || name[..|p|] != p
    ensures name in WriteAll(m, p, d, keys) <==> name in m
    ensures name in m ==> WriteAll(m, p, d, keys)[name] == m[name]
    decreases |keys|
  {
    if keys != [] {
      var j := keys[|keys| - 1];
      WriteAllOther(m, p, d, keys[..|keys| - 1], name);
      assert (p + j)[..|p|] == p;
    }
  }

  /** Every written name is `prefix + k` for a key `k` of `d`. */
  lemma {:induction false} WriteAllNames(m: map<string, Value>, p: string, d: Dict, keys: seq<string>, name: string)
    requires name in WriteAll(m, p, d, keys) && name !in m
    ensures |p| <= |name| && name[..|p|] == p && name[|p|..] in d.fields
    decreases |keys|
  {
    if keys != [] {
      var j := keys[|keys| - 1];
      var prev := WriteAll(m, p, d, keys[..|keys| - 1]);
      if name in prev {
        WriteAllNames(m, p, d, keys[..|keys| - 1], name);
      } else {
        assert name == p + j;
        assert (p + j)[..|p|] == p && (p + j)[|p|..] == j;
      }
    }
  }

  /** `self.mes_<key>` is the record's value for `key`, or None. */
  lemma MesAttr(chat: Dict, message: Dict, key: string)
    ensures Mes(AttrsOf(chat, message), key) == Field(message, key)
  {
    var first := WriteAll(map[], "chat_", chat, chat.order);
    assert |"mes_" + key| < 5 || ("mes_" + key)[..5] != "chat_" by {
      if |"mes_" + key| >= 5 { assert ("mes_" + key)[..5][0] == 'm'; }
    }
    WriteAllOther(map[], "chat_", chat, chat.order, "mes_" + key);
    WriteAllAt(first, "mes_", message, message.order, key);
  }

  /** `self.chat_<key>` is the chat's value for `key`, or None: no record
      key overwrites it. */
  lemma ChatAttr(chat: Dict, message: Dict, key: string)
    ensures Attr(AttrsOf(chat, message), "chat_" + key) == Field(chat, key)
  {
    var first := WriteAll(map[], "chat_", chat, chat.order);
    assert ("chat_" + key)[..4] != "mes_" by {
      assert ("chat_" + key)[..4][0] == 'c';
    }
    WriteAllOther(first, "mes_", message, message.order, "chat_" + key);
    WriteAllAt(map[], "chat_", chat, chat.order, key);
  }

  /** No other attribute is written. */
  lemma AttrsNames(chat: Dict, message: Dict, name: string)
    requires name in AttrsOf(chat, message)
    ensures (|name| >= 5 && name[..5] == "chat_" && name[5..] in chat.fields)
         || (|name| >= 4 && name[..4] == "mes_" && name[4..] in message.fields)
  {
    var first := WriteAll(map[], "chat_", chat, chat.order);
    if name in first {
      WriteAllNames(map[], "chat_", chat, chat.order, name);
    } else {
      WriteAllNames(first, "mes_", message, message.order, name);
    }
  }

  // ------------------------------------------------------------- typing

  /** Lines 150-155: every key is a required parameter or one of the five
      keys an edited, forwarded or reply text may add. */
  predicate SimpleText(message: Dict, req: seq<string>) {
    forall k :: k in message.fields ==> k in req || k in Creator.BenignKeys
  }

  /** The `media_type` values of lines 161-166. */
  const MediaTypes: seq<Value> :=
    [Str("sticker"), Str("voice_message"), Str("video_message"), Str("audio_file"), Str("video_file"), Str("animation")]

  /** An attribute whose truth gives a type. */
  datatype Rule = Rule(key: string, tag: string)

  /** The truth tests of lines 168-181, in order. */
  const TruthRules: seq<Rule> := [
    Rule("mime_type", "file"),
    Rule("photo", "photo"),
    Rule("poll", "poll"),
    Rule("sticker_emoji", "sticker_emoji"),
    Rule("contact_information", "send_contact"),
    Rule("location_information", "send_location"),
    Rule("via_bot", "bot_usage")]

  /** The tag of the first rule whose attribute is true. */
  function FirstTruthy(rules: seq<Rule>, message: Dict): Option<string>
    decreases |rules|
  {
    if rules == [] then None
    else if Truthy(Field(message, rules[0].key)) then Some(rules[0].tag)
    else FirstTruthy(rules[1..], message)
  }

  /** `FirstTruthy` picks the earliest rule whose attribute is true, and
      None when there is none. */
  lemma {:induction false} FirstTruthyPicksFirst(rules: seq<Rule>, message: Dict)
    ensures FirstTruthy(rules, message).None? <==> forall j :: 0 <= j < |rules| ==> !Truthy(Field(message, rules[j].key))
    ensures forall i ::
      (0 <= i < |rules| && Truthy(Field(message, rules[i].key))
        && (forall j :: 0 <= j < i ==> !Truthy(Field(message, rules[j].key))))
      ==> FirstTruthy(rules, message) == Some(rules[i].tag)
    decreases |rules|
  {
    if rules != [] {
      var rest := rules[1..];
      FirstTruthyPicksFirst(rest, message);
      forall j | 0 < j < |rules| ensures rules[j] == rest[j - 1] { }
    }
  }

  /** The type that lines 158-186 choose, with the game-table write it
      makes (`msg_game_tables[title] = place`). */
  datatype Typing = Typing(msgType: string, game: Option<(Value, string)>)

  /** The tests before the game test (lines 158-181): `simple_text`,
      then a listed `media_type` on a record that is not forwarded, then
      the truth tests. */
  function BeforeGame(message: Dict, req: seq<string>): Option<string> {
    var media := Field(message, "media_type");
    if SimpleText(message, req) then Some("simple_text")
    else if Field(message, "forwarded_from") == Null && media in MediaTypes then Some(media.s)
    else FirstTruthy(TruthRules, message)
  }

  /** `msg_type` of a record: the first test before the game test that
      holds, else `game` when the title is true and the finder gives a
      non-empty place, else `unknown`. The finder's errors propagate, and a
      list or dict title is unhashable (TypeError). */
  function TypeOf(message: Dict, login: string, req: seq<string>): Result<Typing> {
    var before := BeforeGame(message, req);
    if before.Some? then Ok(Typing(before.value, None)) else GameStep(message, login)
  }

  /** The game test of lines 182-186 and its `else`. */
  function GameStep(message: Dict, login: string): Result<Typing> {
    var title := Field(message, "game_title");
    if Truthy(title) then
      var place :- GameFinder(login, message);
      if place.Some? && place.value != "" then
        if title.Arr? || title.Obj? then Err(WrongType("game_title"))
        else Ok(Typing("game", Some((title, place.value))))
      else Ok(Typing("unknown", None))
    else Ok(Typing("unknown", None))
  }

  /** The game tables after a typing. */
  function Recorded(tables: map<Value, string>, t: Typing): map<Value, string> {
    if t.game.Some? then tables[t.game.value.0 := t.game.value.1] else tables
  }

  /** The tag found is one of the rules' tags. */
  lemma {:induction false} FirstTruthyTags(rules: seq<Rule>, message: Dict)
    ensures FirstTruthy(rules, message).Some? ==> exists i :: 0 <= i < |rules| && rules[i].tag == FirstTruthy(rules, message).value
    decreases |rules|
  {
    if rules != [] && !Truthy(Field(message, rules[0].key)) {
      FirstTruthyTags(rules[1..], message);
      if FirstTruthy(rules[1..], message).Some? {
        var i :| 0 <= i < |rules[1..]| && rules[1..][i].tag == FirstTruthy(rules[1..], message).value;
        assert rules[i + 1] == rules[1..][i];
      }
    }
  }

  /** The earlier tests never answer `game` or `unknown`, and answer
      `simple_text` only through the flag. */
  lemma BeforeGameTags(message: Dict, req: seq<string>)
    ensures BeforeGame(message, req) != Some("game") && BeforeGame(message, req) != Some("unknown")
    ensures BeforeGame(message, req) == Some("simple_text") <==> SimpleText(message, req)
  {
    FirstTruthyTags(TruthRules, message);
  }

  /** `simple_text` is chosen exactly when the flag holds, and then wins
      over every later test. */
  lemma SimpleTextFirst(message: Dict, login: string, req: seq<string>)
    ensures TypeOf(message, login, req) == Ok(Typing("simple_text", None)) <==> SimpleText(message, req)
  {
    BeforeGameTags(message, req);
  }

  /** A record typed `game` had a true title and a place the finder found,
      no earlier test held, and its title and place are what gets written
      into the tables; no other type writes there. */
  lemma GameMeaning(message: Dict, login: string, req: seq<string>)
    requires TypeOf(message, login, req).Ok?
    ensures var t := TypeOf(message, login, req).value;
      t.game.Some? <==> t.msgType == "game"
    ensures var t := TypeOf(message, login, req).value;
      t.msgType == "game" ==>
        && Truthy(Field(message, "game_title"))
        && BeforeGame(message, req).None?
        && GameFinder(login, message).Ok?
        && GameFinder(login, message).value.Some?
        && t.game == Some((Field(message, "game_title"), GameFinder(login, message).value.value))
        && t.game.value.1 != ""
  {
    BeforeGameTags(message, req);
  }

  /** With every earlier test failing and a true title, the type is `game`
      exactly when the finder gives a non-empty place. */
  lemma GameWhenFound(message: Dict, login: string, req: seq<string>)
    requires BeforeGame(message, req).None? && Truthy(Field(message, "game_title"))
    requires Field(message, "game_title").Str?
    ensures TypeOf(message, login, req).Ok? <==> GameFinder(login, message).Ok?
    ensures TypeOf(message, login, req).Ok? ==>
      (TypeOf(message, login, req).value.msgType == "game" <==>
        GameFinder(login, message).value.Some? && GameFinder(login, message).value.value != "")
  {
  }

  // ------------------------------------------------------------ objects

  /** `Message.msg_game_tables`: one dict on the class, shared by every
      message (line 97). */
  class GameTables {
    var tables: map<Value, string>

    constructor ()
      ensures tables == map[]
    {
      tables := map[];
    }
  }

  /** A `Message` object: its instance attributes, `msg_login` and
      `msg_type`. */
  class Message {
    var attrs: map<string, Value>
    var msgLogin: Value
    var msgType: string

    constructor (attrs: map<string, Value>, msgLogin: Value, msgType: string)
      ensures this.attrs == attrs && this.msgLogin == msgLogin && this.msgType == msgType
    {
      this.attrs := attrs;
      this.msgLogin := msgLogin;
      this.msgType := msgType;
    }
  }

  /** What a built message holds. */
  datatype Built = Built(attrs: map<string, Value>, login: Value, msgType: string)

  predicate Shows(m: Message, b: Built)
    reads m
  {
    m.attrs == b.attrs && m.msgLogin == b.login && m.msgType == b.msgType
  }

  /** The two loops of lines 148-156: the attributes, and the simple-text
      flag. */
  method CopyAttrs(chat: Dict, message: Dict, req: seq<string>) returns (attrs: map<string, Value>, simple: bool)
    ensures attrs == AttrsOf(chat, message)
    ensures simple == SimpleText(message, req)
  {
    attrs := CopyChat(chat);
    ghost var first := attrs;
    simple := true;
    for i := 0 to |message.order|
      invariant attrs == WriteAll(first, "mes_", message, message.order[..i])
      invariant simple <==> forall j :: 0 <= j < i ==> message.order[j] in req || message.order[j] in Creator.BenignKeys
    {
      var key := message.order[i];
      if key !in req {
        if key !in Creator.BenignKeys {
          simple := false;
        }
      }
      assert message.order[..i + 1][..i] == message.order[..i];
      attrs := attrs["mes_" + key := message.fields[key]];
    }
    assert message.order[..|message.order|] == message.order;
    SimpleByOrder(message, req, simple);
  }

  /** The first loop of lines 148-150: `chat_<key>` for every chat key. */
  method CopyChat(chat: Dict) returns (attrs: map<string, Value>)
    ensures attrs == WriteAll(map[], "chat_", chat, chat.order)
  {
    attrs := map[];
    for i := 0 to |chat.order|
      invariant attrs == WriteAll(map[], "chat_", chat, chat.order[..i])
    {
      assert chat.order[..i + 1][..i] == chat.order[..i];
      attrs := attrs["chat_" + chat.order[i] := chat.fields[chat.order[i]]];
    }
    assert chat.order[..|chat.order|] == chat.order;
  }

  /** The flag the second loop leaves is the `simple_text` test. */
  lemma SimpleByOrder(message: Dict, req: seq<string>, simple: bool)
    requires simple <==> forall j :: 0 <= j < |message.order| ==> message.order[j] in req || message.order[j] in Creator.BenignKeys
    ensures simple == SimpleText(message, req)
  {
    if !simple {
      var j :| 0 <= j < |message.order| && !(message.order[j] in req || message.order[j] in Creator.BenignKeys);
      assert message.order[j] in message.fields;
    }
  }

  /** `Message(message, chat, login, req_params)` (lines 147-186): an
      object with the attributes of both dicts, `msg_login` from `from`
      and the chosen `msg_type`; a `game` also writes its place into the
      shared tables under its title. Nothing is written when the
      constructor raises. */
  method NewMessage(message: Dict, chat: Dict, login: string, req: seq<string>, games: GameTables)
    returns (r: Result<Message>)
    modifies games
    ensures TypeOf(message, login, req).Err? ==>
      r == Err(TypeOf(message, login, req).error) && games.tables == old(games.tables)
    ensures TypeOf(message, login, req).Ok? ==>
      && r.Ok? && fresh(r.value)
      && Shows(r.value, Built(AttrsOf(chat, message), Field(message, "from"), TypeOf(message, login, req).value.msgType))
      && games.tables == Recorded(old(games.tables), TypeOf(message, login, req).value)
  {
    var attrs, simple := CopyAttrs(chat, message, req);
    MesAttr(chat, message, "from");
    MesAttr(chat, message, "forwarded_from");
    MesAttr(chat, message, "media_type");
    MesAttr(chat, message, "mime_type");
    MesAttr(chat, message, "photo");
    MesAttr(chat, message, "poll");
    MesAttr(chat, message, "sticker_emoji");
    MesAttr(chat, message, "contact_information");
    MesAttr(chat, message, "location_information");
    MesAttr(chat, message, "via_bot");
    MesAttr(chat, message, "game_title");
    var msgType := Classify(attrs, simple, message, login, req, games);
    if msgType.Err? {
      return Err(msgType.error);
    }
    var m := new Message(attrs, Mes(attrs, "from"), msgType.value);
    r := Ok(m);
  }

  /** The chain of lines 158-186 on the attributes. */
  method Classify(attrs: map<string, Value>, simple: bool, message: Dict, login: string, req: seq<string>, games: GameTables)
    returns (r: Result<string>)
    requires simple == SimpleText(message, req)
    requires Mes(attrs, "forwarded_from") == Field(message, "forwarded_from")
    requires Mes(attrs, "media_type") == Field(message, "media_type")
    requires Mes(attrs, "mime_type") == Field(message, "mime_type")
    requires Mes(attrs, "photo") == Field(message, "photo")
    requires Mes(attrs, "poll") == Field(message, "poll")
    requires Mes(attrs, "sticker_emoji") == Field(message, "sticker_emoji")
    requires Mes(attrs, "contact_information") == Field(message, "contact_information")
    requires Mes(attrs, "location_information") == Field(message, "location_information")
    requires Mes(attrs, "via_bot") == Field(message, "via_bot")
    requires Mes(attrs, "game_title") == Field(message, "game_title")
    modifies games
    ensures TypeOf(message, login, req).Err? ==>
      r == Err(TypeOf(message, login, req).error) && games.tables == old(games.tables)
    ensures TypeOf(message, login, req).Ok? ==>
      r == Ok(TypeOf(message, login, req).value.msgType)
      && games.tables == Recorded(old(games.tables), TypeOf(message, login, req).value)
  {
    BeforeGameChain(message, req);
    if simple {
      r := Ok("simple_text");
    } else if Mes(attrs, "forwarded_from") == Null && Mes(attrs, "media_type") in MediaTypes {
      r := Ok(Mes(attrs, "media_type").s);
    } else if Truthy(Mes(attrs, "mime_type")) {
      r := Ok("file");
    } else if Truthy(Mes(attrs, "photo")) {
      r := Ok("photo");
    } else if Truthy(Mes(attrs, "poll")) {
      r := Ok("poll");
    } else if Truthy(Mes(attrs, "sticker_emoji")) {
      r := Ok("sticker_emoji");
    } else if Truthy(Mes(attrs, "contact_information")) {
      r := Ok("send_contact");
    } else if Truthy(Mes(attrs, "location_information")) {
      r := Ok("send_location");
    } else if Truthy(Mes(attrs, "via_bot")) {
      r := Ok("bot_usage");
    } else {
      assert BeforeGame(message, req).None?;
      r := GameTest(Mes(attrs, "game_title"), message, login, games);
    }
  }

  /** Lines 182-186: `game` when the title is true and the finder's place
      is, writing the place under the title. */
  method GameTest(title: Value, message: Dict, login: string, games: GameTables) returns (r: Result<string>)
    requires title == Field(message, "game_title")
    modifies games
    ensures GameStep(message, login).Err? ==>
      r == Err(GameStep(message, login).error) && games.tables == old(games.tables)
    ensures GameStep(message, login).Ok? ==>
      r == Ok(GameStep(message, login).value.msgType)
      && games.tables == Recorded(old(games.tables), GameStep(message, login).value)
  {
    var place: Option<string> := None;
    if Truthy(title) {
      var found := GameFinder(login, message);
      if found.Err? {
        return Err(found.error);
      }
      place := found.value;
    }
    if Truthy(title) && place.Some? && place.value != "" {
      if title.Arr? || title.Obj? {
        return Err(WrongType("game_title"));
      }
      r := Ok("game");
      games.tables := games.tables[title := place.value];
    } else {
      r := Ok("unknown");
    }
  }

  /** The rule table unrolled: the tests of lines 158-181 in the order
      written. */
  lemma BeforeGameChain(message: Dict, req: seq<string>)
    ensures BeforeGame(message, req) ==
      if SimpleText(message, req) then Some("simple_text")
      else if Field(message, "forwarded_from") == Null && Field(message, "media_type") in MediaTypes then Some(Field(message, "media_type").s)
      else if Truthy(Field(message, "mime_type")) then Some("file")
      else if Truthy(Field(message, "photo")) then Some("photo")
      else if Truthy(Field(message, "poll")) then Some("poll")
      else if Truthy(Field(message, "sticker_emoji")) then Some("sticker_emoji")
      else if Truthy(Field(message, "contact_information")) then Some("send_contact")
      else if Truthy(Field(message, "location_information")) then Some("send_location")
      else if Truthy(Field(message, "via_bot")) then Some("bot_usage")
      else None
  {
    var r := TruthRules;
    assert r[1..][1..][1..][1..][1..][1..][1..] == [];
  }

  // ---------------------------------------------------------- start_api

  /** One chat's dict with each of its records, in order. */
  function ChatPairs(info: Dict, ms: seq<Dict>): (r: seq<(Dict, Dict)>)
    ensures |r| == |ms| && forall i :: 0 <= i < |ms| ==> r[i] == (info, ms[i])
    decreases |ms|
  {
    if ms == [] then [] else ChatPairs(info, ms[..|ms| - 1]) + [(info, ms[|ms| - 1])]
  }

  /** What the two loops of lines 209-210 visit: each chat's dict with
      each of its records, chat by chat. */
  function Pairs(chats: seq<ChatIn>): seq<(Dict, Dict)>
    decreases |chats|
  {
    if chats == [] then []
    else Pairs(chats[..|chats| - 1]) + ChatPairs(chats[|chats| - 1].info, chats[|chats| - 1].messages)
  }

  /** The messages built so far or the exception raised, and the shared
      game tables, which keep what earlier messages wrote. */
  datatype Run = Run(built: Result<seq<Built>>, tables: map<Value, string>)

  /** Line 211-213 for one record: a non-service record is built and
      appended. */
  function Step(run: Run, pair: (Dict, Dict), login: string, req: seq<string>): Run {
    if run.built.Err? then run
    else
      var (chat, m) := pair;
      if "type" !in m.fields then Run(Err(MissingKey("type")), run.tables)
      else if m.fields["type"] == Str("service") then run
      else
        match TypeOf(m, login, req)
        case Err(e) => Run(Err(e), run.tables)
        case Ok(t) => Run(Ok(run.built.value + [Built(AttrsOf(chat, m), Field(m, "from"), t.msgType)]), Recorded(run.tables, t))
  }

  /** The loop over all the pairs, from game tables `t0`. */
  function BuildAll(pairs: seq<(Dict, Dict)>, login: string, req: seq<string>, t0: map<Value, string>): Run
    decreases |pairs|
  {
    if pairs == [] then Run(Ok([]), t0)
    else Step(BuildAll(pairs[..|pairs| - 1], login, req, t0), pairs[|pairs| - 1], login, req)
  }

  /** `start_api(login)` (lines 194-214) on the loaded chats: the key
      strings, the required parameters, then a message per non-service
      record. */
  function StartApiOf(chats: seq<ChatIn>, login: string, t0: map<Value, string>): Run {
    var keys := MessageKeysOf(chats);
    if keys.Err? then Run(Err(keys.error), t0)
    else
      var params := ReqOptOf(chats, Some(keys.value));
      if params.Err? then Run(Err(params.error), t0)
      else BuildAll(Pairs(chats), login, params.value.0, t0)
  }

  /** The pairs whose record the filter keeps. */
  function KeptPairs(pairs: seq<(Dict, Dict)>): seq<(Dict, Dict)>
    decreases |pairs|
  {
    if pairs == [] then []
    else KeptPairs(pairs[..|pairs| - 1]) + (if MessageFilter(pairs[|pairs| - 1].1) == Ok(true) then [pairs[|pairs| - 1]] else [])
  }

  /** What a kept pair builds to. */
  predicate BuiltFrom(b: Built, pair: (Dict, Dict), login: string, req: seq<string>) {
    TypeOf(pair.1, login, req).Ok?
    && b == Built(AttrsOf(pair.0, pair.1), Field(pair.1, "from"), TypeOf(pair.1, login, req).value.msgType)
  }

  /** When the loop finishes, it has built one message per kept record, in
      order, each from its own chat and record. */
  lemma {:induction false} BuildAllKept(pairs: seq<(Dict, Dict)>, login: string, req: seq<string>, t0: map<Value, string>)
    requires BuildAll(pairs, login, req, t0).built.Ok?
    ensures var b := BuildAll(pairs, login, req, t0).built.value;
      && |b| == |KeptPairs(pairs)|
      && forall i :: 0 <= i < |b| ==> BuiltFrom(b[i], KeptPairs(pairs)[i], login, req)
    decreases |pairs|
  {
    if pairs != [] {
      var init := pairs[..|pairs| - 1];
      BuildAllKept(init, login, req, t0);
      var b0 := BuildAll(init, login, req, t0).built.value;
      var k0 := KeptPairs(init);
      var b := BuildAll(pairs, login, req, t0).built.value;
      var k := KeptPairs(pairs);
      if MessageFilter(pairs[|pairs| - 1].1) == Ok(true) {
        assert b == b0 + [b[|b| - 1]] && k == k0 + [pairs[|pairs| - 1]];
        forall i | 0 <= i < |b| ensures BuiltFrom(b[i], k[i], login, req) {
          if i < |b0| { assert b[i] == b0[i] && k[i] == k0[i]; }
        }
      } else {
        assert b == b0 && k == k0;
      }
    }
  }

  /** Tables written by nothing but `game` messages: a run on which no
      kept record is typed `game` leaves them as they were. */
  lemma {:induction false} BuildAllTables(pairs: seq<(Dict, Dict)>, login: string, req: seq<string>, t0: map<Value, string>)
    requires forall i :: 0 <= i < |pairs| ==> TypeOf(pairs[i].1, login, req).Ok? ==> TypeOf(pairs[i].1, login, req).value.msgType != "game"
    ensures BuildAll(pairs, login, req, t0).tables == t0
    decreases |pairs|
  {
    if pairs != [] {
      var init := pairs[..|pairs| - 1];
      forall i | 0 <= i < |init| ensures init[i] == pairs[i] { }
      BuildAllTables(init, login, req, t0);
      var m := pairs[|pairs| - 1].1;
      if TypeOf(m, login, req).Ok? {
        GameMeaning(m, login, req);
      }
    }
  }

  /** Once the loop has raised, later records change nothing. */
  lemma {:induction false} BuildAllStopped(p: seq<(Dict, Dict)>, pairs: seq<(Dict, Dict)>, login: string, req: seq<string>, t0: map<Value, string>)
    requires IsPrefix(p, pairs) && BuildAll(p, login, req, t0).built.Err?
    ensures BuildAll(pairs, login, req, t0) == BuildAll(p, login, req, t0)
    decreases |pairs|
  {
    if |p| == |pairs| {
      assert pairs == pairs[..|p|];
    } else {
      var init := pairs[..|pairs| - 1];
      assert init[..|p|] == pairs[..|p|];
      BuildAllStopped(p, init, login, req, t0);
    }
  }

  lemma {:induction false} PairsPrefix(chats: seq<ChatIn>, k: nat)
    requires k <= |chats|
    ensures IsPrefix(Pairs(chats[..k]), Pairs(chats))
    decreases |chats| - k
  {
    if k < |chats| {
      PairsPrefix(chats, k + 1);
      assert chats[..k + 1][..k] == chats[..k];
      var c := chats[k];
      assert Pairs(chats[..k + 1]) == Pairs(chats[..k]) + ChatPairs(c.info, c.messages);
      PrefixTrans(Pairs(chats[..k]), Pairs(chats[..k + 1]), Pairs(chats));
    } else {
      assert chats[..k] == chats;
    }
  }

  /** The messages show the built values, one to one. */
  predicate AllShow(ms: seq<Message>, bs: seq<Built>)
    reads ms
  {
    |ms| == |bs| && forall i :: 0 <= i < |ms| ==> Shows(ms[i], bs[i])
  }

  /** `start_api(login)` (lines 194-214): the extractor's two passes, then
      a `Message` per non-service record of every chat, in order, all
      writing into the shared `games`. On an exception the tables keep
      what the messages before it wrote. */
  method StartApi(chats: seq<ChatIn>, login: string, games: GameTables) returns (r: Result<seq<Message>>)
    modifies games
    ensures var run := StartApiOf(chats, login, old(games.tables));
      && games.tables == run.tables
      && (r.Err? <==> run.built.Err?)
      && (r.Err? ==> r.error == run.built.error)
      && (r.Ok? ==> AllShow(r.value, run.built.value) && forall i :: 0 <= i < |r.value| ==> fresh(r.value[i]))
  {
    var ex := new Extraction(chats);
    var keys := ex.MessageKeysEx();
    if keys.Err? {
      return Err(keys.error);
    }
    var params := ex.ReqOptParamsEx();
    if params.Err? {
      return Err(params.error);
    }
    r := BuildMessages(chats, login, params.value.0, games);
  }

  /** Lines 209-213: a `Message` per non-service record of every chat, in
      order, with the required parameters `req`. */
  method BuildMessages(chats: seq<ChatIn>, login: string, req: seq<string>, games: GameTables) returns (r: Result<seq<Message>>)
    modifies games
    ensures var run := BuildAll(Pairs(chats), login, req, old(games.tables));
      && games.tables == run.tables
      && (r.Err? <==> run.built.Err?)
      && (r.Err? ==> r.error == run.built.error)
      && (r.Ok? ==> AllShow(r.value, run.built.value) && forall i :: 0 <= i < |r.value| ==> fresh(r.value[i]))
  {
    ghost var t0 := games.tables;
    var messages: seq<Message> := [];
    ghost var built: seq<Built> := [];
    for ci := 0 to |chats|
      invariant BuildAll(Pairs(chats[..ci]), login, req, t0) == Run(Ok(built), games.tables)
      invariant AllShow(messages, built)
      invariant forall i :: 0 <= i < |messages| ==> fresh(messages[i])
    {
      var res;
      res, built := AddChatAt(chats, ci, login, req, games, messages, built, t0);
      if res.Err? {
        return Err(res.error);
      }
      messages := res.value;
    }
    assert chats[..|chats|] == chats;
    r := Ok(messages);
  }

  /** The chat `chats[ci]` in the loop of `BuildMessages`; an exception
      is the outcome of the whole loop. */
  method AddChatAt(chats: seq<ChatIn>, ci: nat, login: string, req: seq<string>, games: GameTables,
                   messages: seq<Message>, ghost built: seq<Built>, ghost t0: map<Value, string>)
    returns (r: Result<seq<Message>>, ghost built': seq<Built>)
    requires ci < |chats|
    requires BuildAll(Pairs(chats[..ci]), login, req, t0) == Run(Ok(built), games.tables)
    requires AllShow(messages, built)
    modifies games
    ensures r.Err? ==> BuildAll(Pairs(chats), login, req, t0) == Run(Err(r.error), games.tables)
    ensures r.Ok? ==> BuildAll(Pairs(chats[..ci + 1]), login, req, t0) == Run(Ok(built'), games.tables)
    ensures r.Ok? ==> AllShow(r.value, built') && |messages| <= |r.value|
    ensures r.Ok? ==> forall i :: 0 <= i < |r.value| ==> (i < |messages| ==> r.value[i] == messages[i]) && (i >= |messages| ==> fresh(r.value[i]))
  {
    assert chats[..ci + 1][..ci] == chats[..ci];
    r, built' := AddChat(chats[ci], login, req, games, messages, built, Pairs(chats[..ci]), t0);
    if r.Err? {
      PairsPrefix(chats, ci + 1);
      BuildAllStopped(Pairs(chats[..ci + 1]), Pairs(chats), login, req, t0);
    }
  }

  /** The inner loop over one chat's records (line 210). */
  method AddChat(chat: ChatIn, login: string, req: seq<string>, games: GameTables,
                 messages: seq<Message>, ghost built: seq<Built>, ghost done: seq<(Dict, Dict)>, ghost t0: map<Value, string>)
    returns (r: Result<seq<Message>>, ghost built': seq<Built>)
    requires BuildAll(done, login, req, t0) == Run(Ok(built), games.tables)
    requires AllShow(messages, built)
    modifies games
    ensures r.Err? ==> BuildAll(done + ChatPairs(chat.info, chat.messages), login, req, t0) == Run(Err(r.error), games.tables)
    ensures r.Ok? ==> BuildAll(done + ChatPairs(chat.info, chat.messages), login, req, t0) == Run(Ok(built'), games.tables)
    ensures r.Ok? ==> AllShow(r.value, built') && |messages| <= |r.value|
    ensures r.Ok? ==> forall i :: 0 <= i < |r.value| ==> (i < |messages| ==> r.value[i] == messages[i]) && (i >= |messages| ==> fresh(r.value[i]))
  {
    var out := messages;
    built' := built;
    var ms := chat.messages;
    assert done + ChatPairs(chat.info, ms[..0]) == done;
    for j := 0 to |ms|
      invariant BuildAll(done + ChatPairs(chat.info, ms[..j]), login, req, t0) == Run(Ok(built'), games.tables)
      invariant AllShow(out, built') && |messages| <= |out|
      invariant forall i :: 0 <= i < |out| ==> (i < |messages| ==> out[i] == messages[i]) && (i >= |messages| ==> fresh(out[i]))
    {
      ghost var before := done + ChatPairs(chat.info, ms[..j]);
      ChatPairsStep(done, chat.info, ms, j);
      assert (before + [(chat.info, ms[j])])[..|before|] == before;
      var res;
      res, built' := AddRecord(chat.info, ms[j], login, req, games, out, built');
      if res.Err? {
        r := Err(res.error);
        StopRest(done, chat.info, ms, j + 1, login, req, t0);
        return;
      }
      out := res.value;
    }
    assert ms[..|ms|] == ms;
    r := Ok(out);
  }

  /** Lines 211-213 for one record. */
  method AddRecord(chat: Dict, m: Dict, login: string, req: seq<string>, games: GameTables,
                   out: seq<Message>, ghost built: seq<Built>)
    returns (r: Result<seq<Message>>, ghost built': seq<Built>)
    requires AllShow(out, built)
    modifies games
    ensures var run := Step(Run(Ok(built), old(games.tables)), (chat, m), login, req);
      && (r.Err? ==> run == Run(Err(r.error), games.tables))
      && (r.Ok? ==> run == Run(Ok(built'), games.tables))
    ensures r.Ok? ==> AllShow(r.value, built') && |out| <= |r.value|
    ensures r.Ok? ==> forall i :: 0 <= i < |r.value| ==> (i < |out| ==> r.value[i] == out[i]) && (i >= |out| ==> fresh(r.value[i]))
  {
    if "type" !in m.fields {
      return Err(MissingKey("type")), built;
    }
    if m.fields["type"] == Str("service") {
      return Ok(out), built;
    }
    var res := NewMessage(m, chat, login, req, games);
    if res.Err? {
      return Err(res.error), built;
    }
    built' := built + [Built(AttrsOf(chat, m), Field(m, "from"), TypeOf(m, login, req).value.msgType)];
    r := Ok(out + [res.value]);
  }

  lemma ChatPairsStep(done: seq<(Dict, Dict)>, info: Dict, ms: seq<Dict>, j: nat)
    requires j < |ms|
    ensures done + ChatPairs(info, ms[..j + 1]) == (done + ChatPairs(info, ms[..j])) + [(info, ms[j])]
  {
    assert ms[..j + 1][..j] == ms[..j];
    AppendAssoc(done, ChatPairs(info, ms[..j]), [(info, ms[j])]);
  }

  /** An exception at record `j - 1` is the chat's outcome. */
  lemma StopRest(done: seq<(Dict, Dict)>, info: Dict, ms: seq<Dict>, j: nat, login: string, req: seq<string>, t0: map<Value, string>)
    requires 0 < j <= |ms|
    requires BuildAll(done + ChatPairs(info, ms[..j]), login, req, t0).built.Err?
    ensures BuildAll(done + ChatPairs(info, ms), login, req, t0) == BuildAll(done + ChatPairs(info, ms[..j]), login, req, t0)
  {
    var p := done + ChatPairs(info, ms[..j]);
    var q := done + ChatPairs(info, ms);
    assert q[..|p|] == p;
    BuildAllStopped(p, q, login, req, t0);
  }

  // ------------------------------------------------- against the core

  /** The core classifier's type names as this builder writes them. */
  function ApiName(t: Creator.MsgType): string {
    match t
    case Contact => "send_contact"
    case Location => "send_location"
    case _ => Creator.TypeName(t)
  }

  /** On a record whose values are all true, a truth test is a presence
      test. */
  lemma TruthIsPresence(message: Dict, k: string)
    requires forall j :: j in message.fields ==> Truthy(message.fields[j])
    ensures Truthy(Field(message, k)) <==> k in message.fields
  {
  }

  /** Without `forwarded_from` the media tests of both classifiers agree. */
  lemma MediaAgrees(message: Dict)
    requires "forwarded_from" !in message.fields
    ensures Field(message, "forwarded_from") == Null && Field(message, "media_type") in MediaTypes
      <==> Creator.MediaKind(message.fields).Some?
    ensures Creator.MediaKind(message.fields).Some? ==>
      Creator.TypeName(Creator.MediaKind(message.fields).value) == Field(message, "media_type").s
  {
  }

  /** The names of the types the presence tests give. */
  lemma PresenceNames()
    ensures ApiName(Creator.File) == "file" && ApiName(Creator.Photo) == "photo" && ApiName(Creator.Poll) == "poll"
    ensures ApiName(Creator.Contact) == "send_contact" && ApiName(Creator.Location) == "send_location"
    ensures ApiName(Creator.BotUsage) == "bot_usage" && ApiName(Creator.Unknown) == "unknown"
  {
  }

  /** With no test before the game test holding and no `game_title`, the
      type is `unknown`. */
  lemma TypeOfUnknown(message: Dict, login: string)
    requires BeforeGame(message, Creator.RequiredFieldsMessage) == None && "game_title" !in message.fields
    ensures TypeOf(message, login, Creator.RequiredFieldsMessage) == Ok(Typing("unknown", None))
  {
  }

  /** A test before the game test that names the type the core's name
      for gives the agreement. */
  lemma AgreeWhen(message: Dict, login: string, name: string)
    requires BeforeGame(message, Creator.RequiredFieldsMessage) == Some(name)
    requires ApiName(Creator.ContentKind(message.fields)) == name
    ensures TypeOf(message, login, Creator.RequiredFieldsMessage) == Ok(Typing(ApiName(Creator.ContentKind(message.fields)), None))
  {
  }

  /** On a record that is not forwarded, has no `sticker_emoji` and no
      `game_title`, and whose values are all true, this builder with the
      core's required fields agrees with the core classifier, up to the
      names of the contact and location types. */
  lemma AgreesWithCore(message: Dict, login: string)
    requires "forwarded_from" !in message.fields
    requires "sticker_emoji" !in message.fields && "game_title" !in message.fields
    requires forall k :: k in message.fields ==> Truthy(message.fields[k])
    ensures TypeOf(message, login, Creator.RequiredFieldsMessage) == Ok(Typing(ApiName(Creator.ContentKind(message.fields)), None))
  {
    var req := Creator.RequiredFieldsMessage;
    var rec := message.fields;
    BeforeGameChain(message, req);
    var before := BeforeGame(message, req);
    var core := Creator.ContentKind(rec);
    MediaAgrees(message);
    assert SimpleText(message, req) <==> Creator.IsSimpleText(rec);
    if Creator.IsSimpleText(rec) {
      assert before == Some("simple_text") && core == Creator.SimpleText;
    } else if Creator.MediaKind(rec).Some? {
      assert before == Some(Creator.TypeName(core)) && Creator.IsMedia(core);
    } else {
      BeforeByPresence(message);
      AgreeByPresence(message, login);
    }
  }

  /** The builder's chain past the first two tests, as presence tests. */
  ghost predicate PresenceChain(message: Dict) {
    BeforeGame(message, Creator.RequiredFieldsMessage) ==
      if "mime_type" in message.fields then Some("file")
      else if "photo" in message.fields then Some("photo")
      else if "poll" in message.fields then Some("poll")
      else if "sticker_emoji" in message.fields then Some("sticker_emoji")
      else if "contact_information" in message.fields then Some("send_contact")
      else if "location_information" in message.fields then Some("send_location")
      else if "via_bot" in message.fields then Some("bot_usage")
      else None
  }

  /** Past the first two tests, on a record that is not forwarded and
      whose values are all true, the truth tests are presence tests in
      the builder's order. */
  lemma BeforeByPresence(message: Dict)
    requires "forwarded_from" !in message.fields
    requires forall k :: k in message.fields ==> Truthy(message.fields[k])
    requires !Creator.IsSimpleText(message.fields) && Creator.MediaKind(message.fields).None?
    ensures PresenceChain(message)
  {
    var req := Creator.RequiredFieldsMessage;
    BeforeGameChain(message, req);
    MediaAgrees(message);
    assert !SimpleText(message, req);
    TruthIsPresence(message, "mime_type");
    TruthIsPresence(message, "photo");
    TruthIsPresence(message, "poll");
    TruthIsPresence(message, "sticker_emoji");
    TruthIsPresence(message, "contact_information");
    TruthIsPresence(message, "location_information");
    TruthIsPresence(message, "via_bot");
  }

  /** The cases of `AgreesWithCore` after the first two tests, once the
      builder's chain is known to be the presence chain. */
  lemma AgreeByPresence(message: Dict, login: string)
    requires "sticker_emoji" !in message.fields && "game_title" !in message.fields
    requires !Creator.IsSimpleText(message.fields) && Creator.MediaKind(message.fields).None?
    requires PresenceChain(message)
    ensures TypeOf(message, login, Creator.RequiredFieldsMessage) == Ok(Typing(ApiName(Creator.ContentKind(message.fields)), None))
  {
    var rec := message.fields;
    PresenceNames();
    if "mime_type" in rec {
      AgreeWhen(message, login, "file");
    } else if "photo" in rec {
      AgreeWhen(message, login, "photo");
    } else if "poll" in rec {
      AgreeWhen(message, login, "poll");
    } else if "contact_information" in rec {
      AgreeWhen(message, login, "send_contact");
    } else if "location_information" in rec {
      AgreeWhen(message, login, "send_location");
    } else if "via_bot" in rec {
      AgreeWhen(message, login, "bot_usage");
    } else {
      TypeOfUnknown(message, login);
    }
  }

  /** A forwarded media record with no other typed key: the core types it
      by its `media_type`, this builder `unknown`, since the media test
      here requires an unforwarded record. */
  lemma ForwardedMediaDiffers(message: Dict, login: string, req: seq<string>)
    requires Field(message, "media_type") in MediaTypes && Field(message, "forwarded_from") != Null
    requires !SimpleText(message, req) && !Creator.IsSimpleText(message.fields)
    requires forall i :: 0 <= i < |TruthRules| ==> TruthRules[i].key !in message.fields
    requires "game_title" !in message.fields
    ensures TypeOf(message, login, req) == Ok(Typing("unknown", None))
    ensures Creator.IsMedia(Creator.ContentKind(message.fields))
    ensures Creator.TypeName(Creator.ContentKind(message.fields)) == Field(message, "media_type").s
  {
    FirstTruthyPicksFirst(TruthRules, message);
    assert "forwarded_from" in message.fields;
  }
}
