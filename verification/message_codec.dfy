/** Messages to JSON and back, through the null-stripping done before a line is written. */
module MessageCodec {
  import opened Wrappers
  import opened Json
  import opened Messages

  // ---------------------------------------------------------------- encoding

  function EncodeOption(o: Option<string>): Json {
    if o.Some? then Str(o.value) else Null
  }

  function EncodeMedia(m: Media): Json {
    Obj(map["url" := Str(m.url), "id" := EncodeOption(m.id)])
  }

  function EncodePart(p: ContentPart): Json {
    match p
    case Text(kind, text) => Obj(map["type" := Str(kind), "text" := Str(text)])
    case Think(kind, think, encrypted) =>
      Obj(map["type" := Str(kind), "think" := Str(think), "encrypted" := EncodeOption(encrypted)])
    case ImageUrl(kind, media) => Obj(map["type" := Str(kind), "image_url" := EncodeMedia(media)])
    case AudioUrl(kind, media) => Obj(map["type" := Str(kind), "audio_url" := EncodeMedia(media)])
    case VideoUrl(kind, media) => Obj(map["type" := Str(kind), "video_url" := EncodeMedia(media)])
  }

  function EncodeCall(c: ToolCall): Json {
    Obj(map[
      "type" := Str(c.kind),
      "id" := Str(c.id),
      "function" := Obj(map["name" := Str(c.callee.name), "arguments" := EncodeOption(c.callee.arguments)]),
      "extras" := if c.extras.Some? then Obj(c.extras.value) else Null])
  }

  function EncodeRole(r: Role): string {
    match r
    case System => "system"
    case User => "user"
    case Assistant => "assistant"
    case Tool => "tool"
  }

  /** A single text part is written as a bare string. */
  function EncodeContent(content: seq<ContentPart>): Json {
    if |content| == 1 && content[0].Text? then Str(content[0].text)
    else Arr(seq(|content|, i requires 0 <= i < |content| => EncodePart(content[i])))
  }

  function EncodeCalls(calls: Option<seq<ToolCall>>): Json {
    match calls
    case None => Null
    case Some(cs) => Arr(seq(|cs|, i requires 0 <= i < |cs| => EncodeCall(cs[i])))
  }

  function Encode(m: Message): Json {
    Obj(map[
      "role" := Str(EncodeRole(m.role)),
      "content" := EncodeContent(m.content),
      "name" := EncodeOption(m.name),
      "tool_calls" := EncodeCalls(m.toolCalls),
      "tool_call_id" := EncodeOption(m.toolCallId),
      "partial" := if m.partial.Some? then Bool(m.partial.value) else Null])
  }

  // ---------------------------------------------------------------- null stripping

  function StripKey(fields: map<string, Json>, key: string): map<string, Json> {
    if key in fields && fields[key].Null? then fields - {key} else fields
  }

  function StripCall(call: Json): Json {
    if !call.Obj? then call
    else
      var fields := StripKey(call.fields, "extras");
      if "function" in fields && fields["function"].Obj?
      then Obj(fields["function" := Obj(StripKey(fields["function"].fields, "arguments"))])
      else Obj(fields)
  }

  function StripKeys(fields: map<string, Json>): map<string, Json> {
    StripKey(StripKey(StripKey(StripKey(fields, "name"), "tool_calls"), "tool_call_id"), "partial")
  }

  function Strip(v: Json): Json {
    if !v.Obj? then v
    else
      var fields := StripKeys(v.fields);
      if "tool_calls" in fields && fields["tool_calls"].Arr?
      then
        var calls := fields["tool_calls"].items;
        Obj(fields["tool_calls" := Arr(seq(|calls|, i requires 0 <= i < |calls| => StripCall(calls[i])))])
      else Obj(fields)
  }

  const STRIPPED_KEYS: seq<string> := ["name", "tool_calls", "tool_call_id", "partial"]

  /** The stripping pass itself: keys first, then the calls one by one. */
  method StripMessageNulls(value: Json) returns (r: Json)
    ensures r == Strip(value)
  {
    if !value.Obj? {
      return value;
    }
    var fields := value.fields;
    ghost var done := [fields];
    for k := 0 to |STRIPPED_KEYS|
      invariant |done| == k + 1 && done[0] == value.fields && done[k] == fields
      invariant forall j :: 0 <= j < k ==> done[j + 1] == StripKey(done[j], STRIPPED_KEYS[j])
    {
      if STRIPPED_KEYS[k] in fields && fields[STRIPPED_KEYS[k]].Null? {
        fields := fields - {STRIPPED_KEYS[k]};
      }
      done := done + [fields];
    }
    assert done[1] == StripKey(done[0], "name");
    assert done[2] == StripKey(done[1], "tool_calls");
    assert done[3] == StripKey(done[2], "tool_call_id");
    assert done[4] == StripKey(done[3], "partial");
    if "tool_calls" !in fields || !fields["tool_calls"].Arr? {
      return Obj(fields);
    }
    var calls := StripCalls(fields["tool_calls"].items);
    r := Obj(fields["tool_calls" := Arr(calls)]);
  }

  method StripCalls(original: seq<Json>) returns (calls: seq<Json>)
    ensures calls == seq(|original|, i requires 0 <= i < |original| => StripCall(original[i]))
  {
    calls := original;
    for i := 0 to |calls|
      invariant |calls| == |original|
      invariant forall j :: 0 <= j < i ==> calls[j] == StripCall(original[j])
      invariant forall j :: i <= j < |calls| ==> calls[j] == original[j]
    {
      var call := StripOne(calls[i]);
      calls := calls[i := call];
    }
  }

  method StripOne(call: Json) returns (r: Json)
    ensures r == StripCall(call)
  {
    if !call.Obj? {
      return call;
    }
    var fields := call.fields;
    if "extras" in fields && fields["extras"].Null? {
      fields := fields - {"extras"};
    }
    if "function" in fields && fields["function"].Obj? {
      var callee := fields["function"].fields;
      if "arguments" in callee && callee["arguments"].Null? {
        callee := callee - {"arguments"};
      }
      fields := fields["function" := Obj(callee)];
    }
    r := Obj(fields);
  }

  // ---------------------------------------------------------------- decoding

  /** An optional string: missing and null alike are none, anything else must be a string. */
  function DecodeOption(v: Option<Json>): Option<Option<string>> {
    match v
    case None => Some(None)
    case Some(Null) => Some(None)
    case Some(Str(s)) => Some(Some(s))
    case _ => None
  }

  function DecodeBool(v: Option<Json>): Option<Option<bool>> {
    match v
    case None => Some(None)
    case Some(Null) => Some(None)
    case Some(Bool(b)) => Some(Some(b))
    case _ => None
  }

  function DecodeMedia(v: Option<Json>): Option<Media> {
    if v.None? then None
    else
      match (GetStr(v.value, "url"), DecodeOption(Get(v.value, "id")))
      case (Some(url), Some(id)) => Some(Media(url, id))
      case _ => None
  }

  function DecodePart(v: Json): Option<ContentPart> {
    match GetStr(v, "type")
    case None => None
    case Some(kind) =>
      if kind == "text" then
        match GetStr(v, "text")
        case Some(text) => Some(Text(kind, text))
        case None => None
      else if kind == "think" then
        match (GetStr(v, "think"), DecodeOption(Get(v, "encrypted")))
        case (Some(think), Some(encrypted)) => Some(Think(kind, think, encrypted))
        case _ => None
      else if kind == "image_url" then
        match DecodeMedia(Get(v, "image_url"))
        case Some(media) => Some(ImageUrl(kind, media))
        case None => None
      else if kind == "audio_url" then
        match DecodeMedia(Get(v, "audio_url"))
        case Some(media) => Some(AudioUrl(kind, media))
        case None => None
      else if kind == "video_url" then
        match DecodeMedia(Get(v, "video_url"))
        case Some(media) => Some(VideoUrl(kind, media))
        case None => None
      else None
  }

  function DecodeParts(vs: seq<Json>): Option<seq<ContentPart>> {
    if vs == [] then Some([])
    else
      match (DecodePart(vs[0]), DecodeParts(vs[1..]))
      case (Some(p), Some(ps)) => Some([p] + ps)
      case _ => None
  }

  function DecodeContent(v: Option<Json>): Option<seq<ContentPart>> {
    match v
    case None => Some([])
    case Some(Null) => Some([])
    case Some(Str(s)) => Some([NewText(s)])
    case Some(Arr(items)) => DecodeParts(items)
    case _ => None
  }

  function DecodeExtras(v: Option<Json>): Option<Option<map<string, Json>>> {
    match v
    case None => Some(None)
    case Some(Null) => Some(None)
    case Some(Obj(fields)) => Some(Some(fields))
    case _ => None
  }

  function DecodeCallee(v: Option<Json>): Option<Callee> {
    if v.None? then None
    else
      match (GetStr(v.value, "name"), DecodeOption(Get(v.value, "arguments")))
      case (Some(name), Some(arguments)) => Some(Callee(name, arguments))
      case _ => None
  }

  function DecodeCall(v: Json): Option<ToolCall> {
    match (GetStr(v, "type"), GetStr(v, "id"), DecodeCallee(Get(v, "function")), DecodeExtras(Get(v, "extras")))
    case (Some(kind), Some(id), Some(callee), Some(extras)) => Some(ToolCall(kind, id, callee, extras))
    case _ => None
  }

  function DecodeCallSeq(vs: seq<Json>): Option<seq<ToolCall>> {
    if vs == [] then Some([])
    else
      match (DecodeCall(vs[0]), DecodeCallSeq(vs[1..]))
      case (Some(c), Some(cs)) => Some([c] + cs)
      case _ => None
  }

  function DecodeCalls(v: Option<Json>): Option<Option<seq<ToolCall>>> {
    match v
    case None => Some(None)
    case Some(Null) => Some(None)
    case Some(Arr(items)) =>
      (match DecodeCallSeq(items)
       case Some(cs) => Some(Some(cs))
       case None => None)
    case _ => None
  }

  function DecodeRole(v: Json): Option<Role> {
    match GetStr(v, "role")
    case None => None
    case Some(r) =>
      if r == "system" then Some(System)
      else if r == "user" then Some(User)
      else if r == "assistant" then Some(Assistant)
      else if r == "tool" then Some(Tool)
      else None
  }

  function Decode(v: Json): Option<Message> {
    match (DecodeRole(v), DecodeContent(Get(v, "content")), DecodeOption(Get(v, "name")),
           DecodeCalls(Get(v, "tool_calls")), DecodeOption(Get(v, "tool_call_id")), DecodeBool(Get(v, "partial")))
    case (Some(role), Some(content), Some(name), Some(calls), Some(callId), Some(partial)) =>
      Some(Message(role, content, name, calls, callId, partial))
    case _ => None
  }

  // ---------------------------------------------------------------- round trip

  /** The tag its constructor gives a part. */
  function OwnKind(p: ContentPart): string {
    match p
    case Text(_, _) => "text"
    case Think(_, _, _) => "think"
    case ImageUrl(_, _) => "image_url"
    case AudioUrl(_, _) => "audio_url"
    case VideoUrl(_, _) => "video_url"
  }

  predicate WellKinded(m: Message) {
    forall i :: 0 <= i < |m.content| ==> m.content[i].kind == OwnKind(m.content[i])
  }

  lemma MediaRoundTrip(m: Media)
    ensures DecodeMedia(Some(EncodeMedia(m))) == Some(m)
  {
  }

  lemma PartRoundTrip(p: ContentPart)
    ensures DecodePart(EncodePart(p)) == Some(p) <==> p.kind == OwnKind(p)
  {
    if p.ImageUrl? || p.AudioUrl? || p.VideoUrl? {
      MediaRoundTrip(p.media);
    }
  }

  lemma {:induction false} PartsRoundTrip(ps: seq<ContentPart>)
    ensures DecodeParts(seq(|ps|, i requires 0 <= i < |ps| => EncodePart(ps[i]))) == Some(ps)
            <==> forall i :: 0 <= i < |ps| ==> ps[i].kind == OwnKind(ps[i])
  {
    if ps != [] {
      var vs := seq(|ps|, i requires 0 <= i < |ps| => EncodePart(ps[i]));
      assert vs[1..] == seq(|ps[1..]|, i requires 0 <= i < |ps[1..]| => EncodePart(ps[1..][i]));
      PartRoundTrip(ps[0]);
      PartsRoundTrip(ps[1..]);
      assert ps == [ps[0]] + ps[1..];
      if DecodeParts(vs).Some? {
        assert DecodeParts(vs).value[1..] == DecodeParts(vs[1..]).value;
      }
    }
  }

  lemma ContentRoundTrip(ps: seq<ContentPart>)
    ensures DecodeContent(Some(EncodeContent(ps))) == Some(ps)
            <==> forall i :: 0 <= i < |ps| ==> ps[i].kind == OwnKind(ps[i])
  {
    PartsRoundTrip(ps);
    if |ps| == 1 && ps[0].Text? {
      assert ps == [ps[0]];
    }
  }

  lemma CallRoundTrip(c: ToolCall)
    ensures DecodeCall(StripCall(EncodeCall(c))) == Some(c)
  {
  }

  lemma {:induction false} CallsRoundTrip(cs: seq<ToolCall>)
    ensures DecodeCallSeq(seq(|cs|, i requires 0 <= i < |cs| => StripCall(EncodeCall(cs[i])))) == Some(cs)
  {
    if cs != [] {
      var vs := seq(|cs|, i requires 0 <= i < |cs| => StripCall(EncodeCall(cs[i])));
      assert vs[1..] == seq(|cs[1..]|, i requires 0 <= i < |cs[1..]| => StripCall(EncodeCall(cs[1..][i])));
      CallRoundTrip(cs[0]);
      CallsRoundTrip(cs[1..]);
      assert cs == [cs[0]] + cs[1..];
    }
  }

  /** Stripping removes exactly the named keys that hold null. */
  lemma StripKeysLookup(fields: map<string, Json>, key: string)
    ensures Lookup(StripKeys(fields), key)
            == if key in {"name", "tool_calls", "tool_call_id", "partial"} && Lookup(fields, key) == Some(Null)
               then None else Lookup(fields, key)
  {
    var a := StripKey(fields, "name");
    var b := StripKey(a, "tool_calls");
    var c := StripKey(b, "tool_call_id");
    assert Lookup(a, key) == if key == "name" && Lookup(fields, key) == Some(Null) then None else Lookup(fields, key);
    assert Lookup(b, key) == if key == "tool_calls" && Lookup(a, key) == Some(Null) then None else Lookup(a, key);
    assert Lookup(c, key) == if key == "tool_call_id" && Lookup(b, key) == Some(Null) then None else Lookup(b, key);
  }

  lemma StripLookup(v: Json, key: string)
    requires v.Obj? && key != "tool_calls"
    ensures Get(Strip(v), key) == Lookup(StripKeys(v.fields), key)
  {
  }

  /** Stripping leaves every field reading back as it was written. */
  lemma StrippedField(m: Message, v: Json, key: string)
    requires key != "tool_calls" && v == Strip(Encode(m))
    ensures Get(v, key) == Get(Encode(m), key) || (Get(Encode(m), key) == Some(Null) && Get(v, key) == None)
  {
    StripLookup(Encode(m), key);
    StripKeysLookup(Encode(m).fields, key);
  }

  lemma StrippedOption(m: Message, v: Json, key: string, o: Option<string>)
    requires key != "tool_calls" && v == Strip(Encode(m))
    requires Get(Encode(m), key) == Some(EncodeOption(o))
    ensures DecodeOption(Get(v, key)) == Some(o)
  {
    StrippedField(m, v, key);
  }

  lemma StrippedPartial(m: Message, v: Json)
    requires v == Strip(Encode(m))
    ensures DecodeBool(Get(v, "partial")) == Some(m.partial)
  {
    EncodedFields(m);
    StrippedField(m, v, "partial");
  }

  lemma StrippedRole(m: Message, v: Json)
    requires v == Strip(Encode(m))
    ensures GetStr(v, "role") == Some(EncodeRole(m.role)) && DecodeRole(v) == Some(m.role)
  {
    EncodedFields(m);
    StrippedField(m, v, "role");
  }

  /** A line whose other fields read back as m's is m exactly when its content reads back. */
  lemma Assembled(m: Message, v: Json)
    requires DecodeRole(v) == Some(m.role)
    requires DecodeOption(Get(v, "name")) == Some(m.name)
    requires DecodeCalls(Get(v, "tool_calls")) == Some(m.toolCalls)
    requires DecodeOption(Get(v, "tool_call_id")) == Some(m.toolCallId)
    requires DecodeBool(Get(v, "partial")) == Some(m.partial)
    ensures Decode(v) == Some(m) <==> DecodeContent(Get(v, "content")) == Some(m.content)
  {
  }

  lemma EncodedFields(m: Message)
    ensures var v := Encode(m);
            && Get(v, "role") == Some(Str(EncodeRole(m.role)))
            && Get(v, "content") == Some(EncodeContent(m.content))
            && Get(v, "name") == Some(EncodeOption(m.name))
            && Get(v, "tool_call_id") == Some(EncodeOption(m.toolCallId))
            && DecodeBool(Get(v, "partial")) == Some(m.partial)
  {
  }

  lemma StrippedCallSeq(cs: seq<ToolCall>)
    ensures var vs := seq(|cs|, i requires 0 <= i < |cs| => EncodeCall(cs[i]));
            DecodeCallSeq(seq(|vs|, i requires 0 <= i < |vs| => StripCall(vs[i]))) == Some(cs)
  {
    CallsRoundTrip(cs);
    var vs := seq(|cs|, i requires 0 <= i < |cs| => EncodeCall(cs[i]));
    assert seq(|vs|, i requires 0 <= i < |vs| => StripCall(vs[i]))
        == seq(|cs|, i requires 0 <= i < |cs| => StripCall(EncodeCall(cs[i])));
  }

  lemma StrippedCalls(m: Message)
    ensures DecodeCalls(Get(Strip(Encode(m)), "tool_calls")) == Some(m.toolCalls)
  {
    var fields := Encode(m).fields;
    assert fields["tool_calls"] == EncodeCalls(m.toolCalls);
    StripKeysLookup(fields, "tool_calls");
    if m.toolCalls.Some? {
      StrippedCallSeq(m.toolCalls.value);
    }
  }

  /** The line written for a message reads back as that message exactly when every part's
      tag is its constructor's own. */
  lemma RoundTrip(m: Message)
    ensures Decode(Strip(Encode(m))) == Some(m) <==> WellKinded(m)
  {
    var v := Strip(Encode(m));
    EncodedFields(m);
    StrippedRole(m, v);
    StrippedField(m, v, "content");
    StrippedOption(m, v, "name", m.name);
    StrippedOption(m, v, "tool_call_id", m.toolCallId);
    StrippedPartial(m, v);
    StrippedCalls(m);
    Assembled(m, v);
    ContentRoundTrip(m.content);
  }

  /** No line written for a message can be taken for a bookkeeping line. */
  lemma NoMessageLooksLikeBookkeeping(m: Message)
    ensures GetStr(Strip(Encode(m)), "role") == Some(EncodeRole(m.role))
    ensures EncodeRole(m.role) != "_usage" && EncodeRole(m.role) != "_checkpoint"
  {
    StrippedRole(m, Strip(Encode(m)));
  }
}
