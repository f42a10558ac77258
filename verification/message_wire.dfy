/** The shape of the line written for a message: which keys it has, and what stands under them. */
module MessageWire {
  import opened Wrappers
  import opened Json
  import opened Messages
  import opened MessageCodec

  function Written(o: Option<string>): Option<Json> {
    if o.Some? then Some(Str(o.value)) else None
  }

  /** A call: its arguments and extras are keys only when it has them. */
  predicate CallWritten(j: Json, c: ToolCall) {
    && Get(j, "type") == Some(Str(c.kind))
    && Get(j, "id") == Some(Str(c.id))
    && Get(j, "extras") == (if c.extras.Some? then Some(Obj(c.extras.value)) else None)
    && Get(j, "function").Some?
    && Get(Get(j, "function").value, "name") == Some(Str(c.callee.name))
    && Get(Get(j, "function").value, "arguments") == Written(c.callee.arguments)
  }

  predicate MediaWritten(j: Option<Json>, m: Media) {
    j.Some? && GetStr(j.value, "url") == Some(m.url)
    && Get(j.value, "id") == Some(if m.id.Some? then Str(m.id.value) else Null)
  }

  predicate PartWritten(j: Json, p: ContentPart) {
    && GetStr(j, "type") == Some(p.kind)
    && match p
       case Text(_, text) => GetStr(j, "text") == Some(text)
       case Think(_, think, e) =>
         GetStr(j, "think") == Some(think) && Get(j, "encrypted") == Some(if e.Some? then Str(e.value) else Null)
       case ImageUrl(_, media) => MediaWritten(Get(j, "image_url"), media)
       case AudioUrl(_, media) => MediaWritten(Get(j, "audio_url"), media)
       case VideoUrl(_, media) => MediaWritten(Get(j, "video_url"), media)
  }

  /** A single text is the bare string, anything else the list of its parts. */
  predicate ContentWritten(j: Option<Json>, content: seq<ContentPart>) {
    if |content| == 1 && content[0].Text? then j == Some(Str(content[0].text))
    else
      && j.Some? && j.value.Arr? && |j.value.items| == |content|
      && forall i :: 0 <= i < |content| ==> PartWritten(j.value.items[i], content[i])
  }

  predicate CallsWritten(j: Option<Json>, calls: Option<seq<ToolCall>>) {
    match calls
    case None => j == None
    case Some(cs) =>
      && j.Some? && j.value.Arr? && |j.value.items| == |cs|
      && forall i :: 0 <= i < |cs| ==> CallWritten(j.value.items[i], cs[i])
  }

  function RoleWord(r: Role): string {
    match r
    case System => "system"
    case User => "user"
    case Assistant => "assistant"
    case Tool => "tool"
  }

  lemma CallIsWritten(c: ToolCall)
    ensures CallWritten(StripCall(EncodeCall(c)), c)
  {
  }

  lemma ContentIsWritten(content: seq<ContentPart>)
    ensures ContentWritten(Some(EncodeContent(content)), content)
  {
    forall i | 0 <= i < |content|
      ensures PartWritten(EncodePart(content[i]), content[i])
    {
      PartIsWritten(content[i]);
    }
  }

  lemma PartIsWritten(p: ContentPart)
    ensures PartWritten(EncodePart(p), p)
  {
  }

  lemma CallsAreWritten(m: Message)
    ensures CallsWritten(Get(Strip(Encode(m)), "tool_calls"), m.toolCalls)
  {
    var fields := Encode(m).fields;
    StripKeysLookup(fields, "tool_calls");
    assert fields["tool_calls"] == EncodeCalls(m.toolCalls);
    if m.toolCalls.Some? {
      forall c | c in m.toolCalls.value
        ensures CallWritten(StripCall(EncodeCall(c)), c)
      {
        CallIsWritten(c);
      }
    }
  }

  lemma FieldIsWritten(m: Message, key: string)
    requires key != "tool_calls"
    ensures Get(Strip(Encode(m)), key)
            == if Get(Encode(m), key) == Some(Null) && key in {"name", "tool_call_id", "partial"} then None
               else Get(Encode(m), key)
  {
    StripLookup(Encode(m), key);
    StripKeysLookup(Encode(m).fields, key);
  }

  /** The line of a message: role and content always, the rest exactly when the message has
      it, and never a null in its place. */
  lemma LineShape(m: Message)
    ensures var v := Strip(Encode(m));
            && Get(v, "role") == Some(Str(RoleWord(m.role)))
            && ContentWritten(Get(v, "content"), m.content)
            && Get(v, "name") == Written(m.name)
            && Get(v, "tool_call_id") == Written(m.toolCallId)
            && Get(v, "partial") == (if m.partial.Some? then Some(Bool(m.partial.value)) else None)
            && CallsWritten(Get(v, "tool_calls"), m.toolCalls)
  {
    EncodedFields(m);
    FieldIsWritten(m, "role");
    FieldIsWritten(m, "content");
    FieldIsWritten(m, "name");
    FieldIsWritten(m, "tool_call_id");
    FieldIsWritten(m, "partial");
    ContentIsWritten(m.content);
    CallsAreWritten(m);
  }

  lemma NoOtherKey(m: Message, key: string)
    requires key !in {"role", "content", "name", "tool_calls", "tool_call_id", "partial"}
    ensures Get(Strip(Encode(m)), key) == None
  {
    FieldIsWritten(m, key);
  }

  /** What a reader makes of a line that leaves things out: no content, no name, no calls. */
  lemma LeanLinesRead(role: Role, extra: map<string, Json>)
    requires extra.Keys !! {"role", "content", "name", "tool_calls", "tool_call_id", "partial"}
    ensures Decode(Obj(extra["role" := Str(RoleWord(role))])) == Some(NewMessage(role, []))
    ensures Decode(Obj(extra["role" := Str(RoleWord(role))]["content" := Null])) == Some(NewMessage(role, []))
  {
  }
}
