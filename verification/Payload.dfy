/** Encoding values that hold messages as plain JSON, and back (message/payload.py). */
module Payloads {
  import opened Prelude
  import opened Messages

  datatype Json =
    | JNull
    | JBool(b: bool)
    | JNum(n: int)
    | JReal(r: real)
    | JStr(s: string)
    | JList(items: seq<Json>)
    | JDict(entries: map<string, Json>)

  /** A key of a dict that need not be a string: `OtherKey` is what such a key is spelled as. */
  datatype Key = TextKey(s: string) | OtherKey(spelled: string)

  /** A payload before encoding. `Record` is a dataclass from outside the vocabulary; `Mixed` is a dict with a key
      that is no string, spelled as given, between the entries before and after it. */
  datatype Value =
    | Null
    | Bool(b: bool)
    | Num(n: int)
    | Real(r: real)
    | Str(s: string)
    | List(items: seq<Value>)
    | Tuple(items: seq<Value>)
    | Dict(entries: map<string, Value>)
    | Mixed(before: seq<Entry>, spelled: string, odd: Value, after: seq<Entry>)
    | Record(fields: map<string, Value>)
    | Msg(message: Message)
    | Blk(block: Block)
    | Src(source: Source)

  datatype Entry = Entry(key: Key, value: Value)

  /** What keeps a payload from being decoded: a tag outside the vocabulary, or a tagged dict
      that lacks a field or holds one of another type. */
  datatype DecodeError = UnknownTag | BadFields

  // ------------------------------------------------------------------ encoding

  function OptNum(n: Option<int>): Json {
    if n.Some? then JNum(n.value) else JNull
  }

  function EncodeSource(s: Source): Json {
    JDict(map["__source__" := JStr(s.kind), "plugin" := JStr(s.plugin), "form" := JStr(s.form),
              "provider" := JStr(s.provider), "model" := JStr(s.model), "goal_id" := JStr(s.goalId),
              "revision" := OptNum(s.revision), "round" := OptNum(s.round)])
  }

  function EncodeBlock(b: Block): Json {
    match b
    case TextBlock(text) => JDict(map["__block__" := JStr("text"), "text" := JStr(text)])
    case ReasoningBlock(text) => JDict(map["__block__" := JStr("reasoning"), "text" := JStr(text)])
    case ToolCallBlock(id, name, arguments) =>
      JDict(map["__block__" := JStr("tool-call"), "id" := JStr(id), "name" := JStr(name),
        "arguments" := JStr(arguments)])
    case ToolResultBlock(callId, content, isError) =>
      JDict(map["__block__" := JStr("tool-result"), "tool_call_id" := JStr(callId),
                "content" := JList(EncodeBlocks(content)), "is_error" := JBool(isError)])
  }

  function EncodeBlocks(blocks: seq<Block>): (items: seq<Json>)
    ensures |items| == |blocks|
  {
    seq(|blocks|, i requires 0 <= i < |blocks| => EncodeBlock(blocks[i]))
  }

  function EncodeMessage(m: Message): Json {
    JDict(map["__msg__" := JDict(map["id" := JStr(m.id), "role" := JStr(m.role),
                                     "content" := JList(EncodeBlocks(m.content)),
                                     "source" := EncodeSource(m.source)])])
  }

  function Spelling(k: Key): string {
    if k.TextKey? then k.s else k.spelled
  }

  function Encode(v: Value): Json
    decreases v
  {
    match v
    case Null => JNull
    case Bool(b) => JBool(b)
    case Num(n) => JNum(n)
    case Real(r) => JReal(r)
    case Str(s) => JStr(s)
    case List(items) => JList(EncodeItems(items))
    case Tuple(items) => JList(EncodeItems(items))
    case Dict(entries) => JDict(map k | k in entries :: Encode(entries[k]))
    case Mixed(before, spelled, odd, after) =>
      JDict(EncodeEntries(before)[spelled := Encode(odd)] + EncodeEntries(after))
    case Record(fields) => JDict(map k | k in fields :: Encode(fields[k]))
    case Msg(m) => EncodeMessage(m)
    case Blk(b) => EncodeBlock(b)
    case Src(s) => EncodeSource(s)
  }

  function EncodeItems(items: seq<Value>): (r: seq<Json>)
    ensures |r| == |items|
  {
    seq(|items|, i requires 0 <= i < |items| => Encode(items[i]))
  }

  /** Of two keys with one spelling the later wins. */
  function EncodeEntries(entries: seq<Entry>): map<string, Json>
    decreases entries
  {
    if entries == [] then map[]
    else
      var last := entries[|entries| - 1];
      EncodeEntries(entries[..|entries| - 1])[Spelling(last.key) := EncodeValue(last)]
  }

  function EncodeValue(entry: Entry): Json
    decreases entry
  {
    Encode(entry.value)
  }

  ghost predicate LastOf(entries: seq<Entry>, i: nat)
    requires i < |entries|
  {
    forall j :: i < j < |entries| ==> Spelling(entries[j].key) != Spelling(entries[i].key)
  }

  /** A dict with keys that are no strings is stored under the spellings of its keys; of two entries with one
      spelling the later is kept. */
  lemma {:induction false} LastSpellingIsKept(entries: seq<Entry>, i: nat)
    requires i < |entries|
    ensures Spelling(entries[i].key) in EncodeEntries(entries)
    ensures LastOf(entries, i) ==> EncodeEntries(entries)[Spelling(entries[i].key)] == Encode(entries[i].value)
  {
    var n := |entries| - 1;
    if i < n {
      LastSpellingIsKept(entries[..n], i);
      if LastOf(entries, i) {
        assert Spelling(entries[n].key) != Spelling(entries[i].key);
        assert LastOf(entries[..n], i);
      }
    }
  }

  lemma {:induction false} OnlySpellings(entries: seq<Entry>, k: string)
    requires k in EncodeEntries(entries)
    ensures exists i :: 0 <= i < |entries| && Spelling(entries[i].key) == k
  {
    var n := |entries| - 1;
    if Spelling(entries[n].key) != k {
      OnlySpellings(entries[..n], k);
      var i :| 0 <= i < n && Spelling(entries[..n][i].key) == k;
      assert Spelling(entries[i].key) == k;
    }
  }

  lemma {:induction false} EntriesConcat(a: seq<Entry>, b: seq<Entry>)
    ensures EncodeEntries(a + b) == EncodeEntries(a) + EncodeEntries(b)
  {
    if b == [] {
      assert a + b == a;
    } else {
      assert (a + b)[..|a + b| - 1] == a + b[..|b| - 1];
      EntriesConcat(a, b[..|b| - 1]);
    }
  }

  /** It does not matter which of the keys is no string. */
  lemma MixedIsItsEntries(before: seq<Entry>, spelled: string, odd: Value, after: seq<Entry>)
    ensures Encode(Mixed(before, spelled, odd, after)) ==
            JDict(EncodeEntries(before + [Entry(OtherKey(spelled), odd)] + after))
  {
    var entry := Entry(OtherKey(spelled), odd);
    EntriesConcat(before + [entry], after);
    assert (before + [entry])[..|before|] == before;
  }

  // ------------------------------------------------------------------ decoding

  predicate Reserved(entries: map<string, Json>) {
    "__msg__" in entries || "__block__" in entries || "__source__" in entries
  }

  /** A text field, with what an absent one reads as. */
  function TextField(entries: map<string, Json>, k: string, absent: Option<string>): Result<string, DecodeError> {
    if k !in entries then (if absent.Some? then Ok(absent.value) else Err(BadFields))
    else if entries[k].JStr? then Ok(entries[k].s)
    else Err(BadFields)
  }

  function NumField(entries: map<string, Json>, k: string): Result<Option<int>, DecodeError> {
    if k !in entries || entries[k].JNull? then Ok(None)
    else if entries[k].JNum? then Ok(Some(entries[k].n))
    else Err(BadFields)
  }

  function DecodeSource(j: Json): Result<Source, DecodeError> {
    if !j.JDict? || "__msg__" in j.entries || "__block__" in j.entries then Err(BadFields)
    else
      var e := j.entries;
      var kind, plugin, form := TextField(e, "__source__", None), TextField(e, "plugin", Some("")),
          TextField(e, "form", Some(""));
      var provider, model, goal := TextField(e, "provider", Some("")), TextField(e, "model", Some("")),
          TextField(e, "goal_id", Some(""));
      var revision, round := NumField(e, "revision"), NumField(e, "round");
      if kind.Ok? && plugin.Ok? && form.Ok? && provider.Ok? && model.Ok? && goal.Ok? && revision.Ok? && round.Ok? then
        Ok(Source(kind.value, plugin.value, form.value, provider.value, model.value, goal.value, revision.value,
          round.value))
      else Err(BadFields)
  }

  function DecodeBlock(j: Json): Result<Block, DecodeError>
    decreases j
  {
    if !j.JDict? || "__msg__" in j.entries then Err(BadFields)
    else
      var e := j.entries;
      var tag := TextField(e, "__block__", None);
      if tag.Err? then Err(BadFields)
      else if tag.value == "text" then
        var text := TextField(e, "text", None);
        if text.Ok? then Ok(TextBlock(text.value)) else Err(BadFields)
      else if tag.value == "reasoning" then
        var text := TextField(e, "text", None);
        if text.Ok? then Ok(ReasoningBlock(text.value)) else Err(BadFields)
      else if tag.value == "tool-call" then
        var id, name, arguments := TextField(e, "id", None), TextField(e, "name", None),
            TextField(e, "arguments", None);
        if id.Ok? && name.Ok? && arguments.Ok? then Ok(ToolCallBlock(id.value, name.value, arguments.value))
        else Err(BadFields)
      else if tag.value == "tool-result" then
        var id := TextField(e, "tool_call_id", None);
        if id.Ok? && "content" in e && e["content"].JList? && "is_error" in e && e["is_error"].JBool? then
          var content := DecodeBlocks(e["content"].items);
          if content.Ok? then Ok(ToolResultBlock(id.value, content.value, e["is_error"].b)) else Err(content.error)
        else Err(BadFields)
      else Err(UnknownTag)
  }

  function DecodeBlocks(items: seq<Json>): Result<seq<Block>, DecodeError>
    decreases items
  {
    if items == [] then Ok([])
    else
      var first, rest := DecodeBlock(items[0]), DecodeBlocks(items[1..]);
      if first.Err? then Err(first.error) else if rest.Err? then Err(rest.error) else Ok([first.value] + rest.value)
  }

  function DecodeMessage(j: Json): Result<Message, DecodeError> {
    if !j.JDict? then Err(BadFields)
    else
      var m := j.entries;
      var id, role := TextField(m, "id", None), TextField(m, "role", None);
      if id.Ok? && role.Ok? && "content" in m && m["content"].JList? && "source" in m then
        var content, source := DecodeBlocks(m["content"].items), DecodeSource(m["source"]);
        if content.Ok? && source.Ok? then Ok(Message(id.value, role.value, content.value, source.value))
        else if content.Err? then Err(content.error)
        else Err(source.error)
      else Err(BadFields)
  }

  function Decode(j: Json): Result<Value, DecodeError>
    decreases j, 0
  {
    match j
    case JNull => Ok(Null)
    case JBool(b) => Ok(Bool(b))
    case JNum(n) => Ok(Num(n))
    case JReal(r) => Ok(Real(r))
    case JStr(s) => Ok(Str(s))
    case JList(items) =>
      if exists i :: 0 <= i < |items| && Decode(items[i]).Err? then Err(BadFields)
      else Ok(List(seq(|items|, i requires 0 <= i < |items| => Decode(items[i]).value)))
    case JDict(entries) =>
      if "__msg__" in entries then
        var m := DecodeMessage(entries["__msg__"]);
        if m.Ok? then Ok(Msg(m.value)) else Err(m.error)
      else if "__block__" in entries then
        var b := DecodeBlock(j);
        if b.Ok? then Ok(Blk(b.value)) else Err(b.error)
      else if "__source__" in entries then
        var s := DecodeSource(j);
        if s.Ok? then Ok(Src(s.value)) else Err(s.error)
      else if exists k :: k in entries && Decode(entries[k]).Err? then Err(BadFields)
      else Ok(Dict(map k | k in entries :: Decode(entries[k]).value))
  }

  // ------------------------------------------------------------------ the round trip

  /** Built only from what the encoding can tell apart: no tuples, no foreign records, no keys that are no
      strings, and no dict of one's own that uses a reserved key. */
  predicate Faithful(v: Value) {
    match v
    case List(items) => forall i :: 0 <= i < |items| ==> Faithful(items[i])
    case Tuple(_) => false
    case Dict(entries) =>
      && "__msg__" !in entries && "__block__" !in entries && "__source__" !in entries
      && forall k :: k in entries ==> Faithful(entries[k])
    case Mixed(_, _, _, _) => false
    case Record(_) => false
    case _ => true
  }

  lemma SourceRoundTrips(s: Source)
    ensures DecodeSource(EncodeSource(s)) == Ok(s)
  {
    hide EncodeSource, TextField, NumField;
    SourceTags(s);
    SourceNames(s);
    SourceNumbers(s);
  }

  /** The fields a stored source may lack. */
  const OPTIONAL := {"plugin", "form", "provider", "model", "goal_id", "revision", "round"}

  /** A source stored with fewer fields reads as one that has the defaults for the missing ones. */
  lemma MissingFieldsTakeDefaults(s: Source, gone: set<string>)
    requires gone <= OPTIONAL
    ensures EncodeSource(s).JDict?
    ensures DecodeSource(JDict(EncodeSource(s).entries - gone)) ==
            Ok(Source(s.kind,
                      if "plugin" in gone then "" else s.plugin, if "form" in gone then "" else s.form,
                      if "provider" in gone then "" else s.provider, if "model" in gone then "" else s.model,
                      if "goal_id" in gone then "" else s.goalId,
                      if "revision" in gone then None else s.revision, if "round" in gone then None else s.round))
  {
    hide EncodeSource, TextField, NumField;
    SourceTags(s);
    SourceNames(s);
    SourceNumbers(s);
    var e := EncodeSource(s).entries;
    assert "__source__" !in gone;
    FieldOrDefault(e, gone, "__source__", None);
    FieldOrDefault(e, gone, "plugin", Some(""));
    FieldOrDefault(e, gone, "form", Some(""));
    FieldOrDefault(e, gone, "provider", Some(""));
    FieldOrDefault(e, gone, "model", Some(""));
    FieldOrDefault(e, gone, "goal_id", Some(""));
    NumberOrNone(e, gone, "revision");
    NumberOrNone(e, gone, "round");
  }

  lemma FieldOrDefault(e: map<string, Json>, gone: set<string>, k: string, absent: Option<string>)
    ensures k !in gone ==> TextField(e - gone, k, absent) == TextField(e, k, absent)
    ensures k in gone && absent.Some? ==> TextField(e - gone, k, absent) == Ok(absent.value)
  {
  }

  lemma NumberOrNone(e: map<string, Json>, gone: set<string>, k: string)
    ensures NumField(e - gone, k) == if k in gone then Ok(None) else NumField(e, k)
  {
  }

  lemma SourceTags(s: Source)
    ensures EncodeSource(s).JDict?
    ensures var e := EncodeSource(s).entries;
            && "__msg__" !in e && "__block__" !in e && TextField(e, "__source__", None) == Ok(s.kind)
            && TextField(e, "plugin", Some("")) == Ok(s.plugin) && TextField(e, "form", Some("")) == Ok(s.form)
  {
  }

  lemma SourceNames(s: Source)
    ensures EncodeSource(s).JDict?
    ensures var e := EncodeSource(s).entries;
            && TextField(e, "provider", Some("")) == Ok(s.provider) && TextField(e, "model", Some("")) == Ok(s.model)
            && TextField(e, "goal_id", Some("")) == Ok(s.goalId)
  {
  }

  lemma SourceNumbers(s: Source)
    ensures EncodeSource(s).JDict?
    ensures var e := EncodeSource(s).entries;
            NumField(e, "revision") == Ok(s.revision) && NumField(e, "round") == Ok(s.round)
  {
  }

  lemma {:induction false} BlockRoundTrips(b: Block)
    ensures DecodeBlock(EncodeBlock(b)) == Ok(b)
    decreases b
  {
    if b.ToolResultBlock? {
      BlocksRoundTrip(b.content);
      var e := EncodeBlock(b).entries;
      assert e["content"] == JList(EncodeBlocks(b.content)) && e["__block__"] == JStr("tool-result");
      assert e["tool_call_id"] == JStr(b.callId) && e["is_error"] == JBool(b.isError);
    }
  }

  lemma {:induction false} BlocksRoundTrip(blocks: seq<Block>)
    ensures DecodeBlocks(EncodeBlocks(blocks)) == Ok(blocks)
    decreases blocks
  {
    if blocks != [] {
      BlockRoundTrips(blocks[0]);
      BlocksRoundTrip(blocks[1..]);
      assert EncodeBlocks(blocks)[1..] == EncodeBlocks(blocks[1..]);
      assert blocks == [blocks[0]] + blocks[1..];
    }
  }

  /** A message comes back as it was, however deeply its tool results nest. */
  lemma MessageRoundTrips(m: Message)
    ensures Decode(Encode(Msg(m))) == Ok(Msg(m))
  {
    hide EncodeBlocks, DecodeBlocks, EncodeSource, DecodeSource;
    BlocksRoundTrip(m.content);
    SourceRoundTrips(m.source);
    var e := EncodeMessage(m).entries["__msg__"].entries;
    assert e["id"] == JStr(m.id) && e["role"] == JStr(m.role);
    assert e["content"] == JList(EncodeBlocks(m.content)) && e["source"] == EncodeSource(m.source);
  }

  /** Exactly the faithful payloads survive the log. */
  lemma {:induction false} RoundTripExactly(v: Value)
    ensures Decode(Encode(v)) == Ok(v) <==> Faithful(v)
    decreases v
  {
    hide EncodeBlock, DecodeBlock, EncodeSource, DecodeSource, EncodeMessage, DecodeMessage;
    match v
    case List(items) =>
      forall i | 0 <= i < |items|
        ensures Decode(Encode(items[i])) == Ok(items[i]) <==> Faithful(items[i])
      {
        RoundTripExactly(items[i]);
      }
      ListRoundTrips(items);
    case Dict(entries) =>
      forall k | k in entries
        ensures Decode(Encode(entries[k])) == Ok(entries[k]) <==> Faithful(entries[k])
      {
        RoundTripExactly(entries[k]);
      }
      DictRoundTrips(entries);
    case Msg(m) => MessageRoundTrips(m);
    case Blk(b) => LoneBlockRoundTrips(b);
    case Src(s) => LoneSourceRoundTrips(s);
    case Tuple(_) => NeverBack(v);
    case Mixed(_, _, _, _) => NeverBack(v);
    case Record(_) => NeverBack(v);
    case _ =>
  }

  lemma LoneBlockRoundTrips(b: Block)
    ensures Decode(Encode(Blk(b))) == Ok(Blk(b))
  {
    hide DecodeBlock, EncodeBlocks;
    BlockRoundTrips(b);
  }

  lemma LoneSourceRoundTrips(s: Source)
    ensures Decode(Encode(Src(s))) == Ok(Src(s))
  {
    hide DecodeSource, EncodeSource, TextField;
    SourceRoundTrips(s);
    SourceTags(s);
    SourceIsTagged(s);
  }

  lemma SourceIsTagged(s: Source)
    ensures EncodeSource(s).JDict? && "__source__" in EncodeSource(s).entries
  {
  }

  /** Decoding never gives a tuple, a foreign record or a dict with a key that is no string. */
  lemma NeverBack(v: Value)
    requires v.Tuple? || v.Mixed? || v.Record?
    ensures Decode(Encode(v)) != Ok(v)
  {
    hide Encode, DecodeBlock, DecodeSource, DecodeMessage;
    DecodedShapes(Encode(v));
  }

  lemma DecodedShapes(j: Json)
    ensures Decode(j).Ok? ==> !Decode(j).value.Tuple? && !Decode(j).value.Mixed? && !Decode(j).value.Record?
  {
    hide DecodeBlock, DecodeSource, DecodeMessage;
  }

  lemma ListRoundTrips(items: seq<Value>)
    ensures Decode(Encode(List(items))) == Ok(List(items)) <==>
            forall i :: 0 <= i < |items| ==> Decode(Encode(items[i])) == Ok(items[i])
  {
    var j := EncodeItems(items);
    var r := Decode(JList(j));
    if r == Ok(List(items)) {
      forall i | 0 <= i < |items|
        ensures Decode(Encode(items[i])) == Ok(items[i])
      {
        assert j[i] == Encode(items[i]) && Decode(j[i]).Ok?;
        assert r.value.items[i] == Decode(j[i]).value;
      }
    }
    if forall i :: 0 <= i < |items| ==> Decode(Encode(items[i])) == Ok(items[i]) {
      assert forall i :: 0 <= i < |j| ==> Decode(j[i]) == Ok(items[i]);
      assert r.value.items == items;
    }
  }

  lemma DictRoundTrips(entries: map<string, Value>)
    ensures Decode(Encode(Dict(entries))) == Ok(Dict(entries)) <==>
            "__msg__" !in entries && "__block__" !in entries && "__source__" !in entries &&
            forall k :: k in entries ==> Decode(Encode(entries[k])) == Ok(entries[k])
  {
    hide Decode;
    var j: map<string, Json> := map k | k in entries :: Encode(entries[k]);
    assert j.Keys == entries.Keys && Encode(Dict(entries)) == JDict(j);
    if Reserved(j) {
      ReservedIsNoDict(j);
    } else {
      PlainDictRoundTrips(entries, j);
    }
  }

  lemma ReservedIsNoDict(j: map<string, Json>)
    requires Reserved(j)
    ensures Decode(JDict(j)).Ok? ==> !Decode(JDict(j)).value.Dict?
  {
    hide DecodeBlock, DecodeSource, DecodeMessage;
  }

  lemma PlainDecodes(j: map<string, Json>)
    requires !Reserved(j)
    ensures Decode(JDict(j)).Ok? <==> forall k :: k in j ==> Decode(j[k]).Ok?
    ensures Decode(JDict(j)).Ok? ==>
              var d := Decode(JDict(j)).value;
              d.Dict? && d.entries.Keys == j.Keys && forall k :: k in j ==> d.entries[k] == Decode(j[k]).value
  {
    hide DecodeBlock, DecodeSource, DecodeMessage;
  }

  lemma PlainDictRoundTrips(entries: map<string, Value>, j: map<string, Json>)
    requires j.Keys == entries.Keys && !Reserved(j) && forall k :: k in j ==> j[k] == Encode(entries[k])
    ensures Decode(JDict(j)) == Ok(Dict(entries)) <==>
            forall k :: k in entries ==> Decode(Encode(entries[k])) == Ok(entries[k])
  {
    hide Decode, Encode, Reserved;
    PlainDecodes(j);
    if forall k :: k in entries ==> Decode(Encode(entries[k])) == Ok(entries[k]) {
      assert forall k :: k in j ==> Decode(j[k]) == Ok(entries[k]);
      assert Decode(JDict(j)).value.entries == entries;
    } else {
      var k :| k in entries && Decode(Encode(entries[k])) != Ok(entries[k]);
      assert k in j;
    }
  }

  /** A dict that happens to use a reserved key is taken for a block when it comes back. */
  lemma ReservedKeyIsTakenForABlock()
    ensures var d := Dict(map["__block__" := Str("text"), "text" := Str("hi")]);
            Decode(Encode(d)) == Ok(Blk(TextBlock("hi")))
  {
    hide DecodeBlock;
    var d := Dict(map["__block__" := Str("text"), "text" := Str("hi")]);
    var e := Encode(d).entries;
    assert e.Keys == {"__block__", "text"} && "__msg__" !in e && "__block__" in e;
    assert e["__block__"] == JStr("text") && e["text"] == JStr("hi");
    TextIsRead(e, "hi");
  }

  lemma TextIsRead(e: map<string, Json>, text: string)
    requires "__msg__" !in e && "__block__" in e && "text" in e
    requires e["__block__"] == JStr("text") && e["text"] == JStr(text)
    ensures DecodeBlock(JDict(e)) == Ok(TextBlock(text))
  {
  }
}
