/** A JSON value. Text and escaping are not modelled: one value per line is taken for granted. */
module Json {
  import opened Wrappers

  datatype Json =
    | Null
    | Bool(b: bool)
    | Int(n: int)
    | Dec(x: real)
    | Str(s: string)
    | Arr(items: seq<Json>)
    | Obj(fields: map<string, Json>)

  function Lookup(fields: map<string, Json>, key: string): Option<Json> {
    if key in fields then Some(fields[key]) else None
  }

  function Get(v: Json, key: string): Option<Json> {
    if v.Obj? then Lookup(v.fields, key) else None
  }

  function GetStr(v: Json, key: string): Option<string> {
    match Get(v, key)
    case Some(Str(s)) => Some(s)
    case _ => None
  }

  /** A number that does not fit 64 bits is not an integer to the reader. */
  function GetInt64(v: Json, key: string): Option<int> {
    match Get(v, key)
    case Some(Int(n)) => if -0x8000_0000_0000_0000 <= n < 0x8000_0000_0000_0000 then Some(n) else None
    case _ => None
  }
}

/** The conversation vocabulary shared by the agent, the streaming layer and the clients. */
module Messages {
  import opened Wrappers
  import opened Json

  datatype Media = Media(url: string, id: Option<string>)

  /** Each part carries the tag it serialises under; nothing forces it to match. */
  datatype ContentPart =
    | Text(kind: string, text: string)
    | Think(kind: string, think: string, encrypted: Option<string>)
    | ImageUrl(kind: string, media: Media)
    | AudioUrl(kind: string, media: Media)
    | VideoUrl(kind: string, media: Media)

  datatype Callee = Callee(name: string, arguments: Option<string>)

  datatype ToolCall = ToolCall(kind: string, id: string, callee: Callee, extras: Option<map<string, Json>>)

  datatype Role = System | User | Assistant | Tool

  datatype Message = Message(
    role: Role,
    content: seq<ContentPart>,
    name: Option<string>,
    toolCalls: Option<seq<ToolCall>>,
    toolCallId: Option<string>,
    partial: Option<bool>)

  function ArgumentText(arguments: Option<string>): string {
    if arguments.Some? then arguments.value else ""
  }

  /** Appending an optional argument fragment to optional arguments. */
  function JoinArguments(left: Option<string>, right: Option<string>): (r: Option<string>)
    ensures ArgumentText(r) == ArgumentText(left) + ArgumentText(right)
    ensures r.Some? <==> left.Some? || right.Some?
  {
    if left.None? then right
    else if right.None? then left
    else Some(left.value + right.value)
  }

  /** A call with one more argument fragment. */
  function Extended(c: ToolCall, fragment: Option<string>): (r: ToolCall)
    ensures r.kind == c.kind && r.id == c.id && r.extras == c.extras && r.callee.name == c.callee.name
    ensures ArgumentText(r.callee.arguments) == ArgumentText(c.callee.arguments) + ArgumentText(fragment)
    ensures r.callee.arguments.Some? <==> c.callee.arguments.Some? || fragment.Some?
  {
    c.(callee := c.callee.(arguments := JoinArguments(c.callee.arguments, fragment)))
  }

  function NewText(text: string): ContentPart {
    Text("text", text)
  }

  function NewMessage(role: Role, content: seq<ContentPart>): Message {
    Message(role, content, None, None, None, None)
  }

  /** The decimal numeral of n. */
  function Decimal(n: nat): string {
    var digit := ["0", "1", "2", "3", "4", "5", "6", "7", "8", "9"][n % 10];
    if n < 10 then digit else Decimal(n / 10) + digit
  }

  function ReadDecimal(s: string): nat {
    if s == "" then 0
    else ReadDecimal(s[..|s| - 1]) * 10 + if '0' <= s[|s| - 1] <= '9' then s[|s| - 1] as int - '0' as int else 0
  }

  /** The numeral names its number, in digits and without leading zeros. */
  lemma {:induction false} DecimalReadsBack(n: nat)
    ensures ReadDecimal(Decimal(n)) == n
    ensures Decimal(n) != "" && forall c :: c in Decimal(n) ==> '0' <= c <= '9'
    ensures n > 0 ==> Decimal(n)[0] != '0'
  {
    var digit := Decimal(n % 10);
    assert |digit| == 1 && digit[0] as int - '0' as int == n % 10;
    if n < 10 {
      assert digit[..0] == "";
    } else {
      DecimalReadsBack(n / 10);
      assert Decimal(n)[..|Decimal(n)| - 1] == Decimal(n / 10);
    }
  }

  /** Text in the agent's own voice. */
  function SystemText(message: string): ContentPart {
    NewText("<system>" + message + "</system>")
  }
}
