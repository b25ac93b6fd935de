/**
 * The gateway helpers every agent uses: building the single system prompt
 * (`prepare_message`) and calling the language model with one retry
 * (`ai_request`).
 */
module Request {
  import opened Base
  import opened World

  // ---------------------------------------------------------------------
  // Rust's `{:?}` rendering of a string
  // ---------------------------------------------------------------------

  /** The escape `{:?}` writes for one character (the escapes of this model). */
  function EscapeChar(c: char): string
  {
    match c
    case '\\' => "\\\\"
    case '"' => "\\\""
    case '\n' => "\\n"
    case '\r' => "\\r"
    case '\t' => "\\t"
    case '\0' => "\\0"
    case _ => [c]
  }

  /** The character an escape sequence `\x` stands for, if `x` is a known escape letter. */
  function Unescape(x: char): Option<char>
  {
    match x
    case '\\' => Some('\\')
    case '"' => Some('"')
    case 'n' => Some('\n')
    case 'r' => Some('\r')
    case 't' => Some('\t')
    case '0' => Some('\0')
    case _ => None
  }

  /** The escaped body of a Debug-rendered string. */
  function Escape(s: string): string
    decreases |s|
  {
    if |s| == 0 then "" else EscapeChar(s[0]) + Escape(s[1..])
  }

  /** `format!("{:?}", s)` for a string: the escaped text between double quotes. */
  function Debug(s: string): string
  {
    "\"" + Escape(s) + "\""
  }

  /** A decoded quoted string and the text after its closing quote. */
  datatype Field = Field(text: string, rest: string)

  /**
   * Reads the body of a Debug-rendered string, starting just after its
   * opening quote, up to the first unescaped closing quote.
   */
  function ReadQuotedBody(s: string): Option<Field>
    decreases |s|
  {
    if |s| == 0 then None
    else if s[0] == '"' then Some(Field("", s[1..]))
    else if s[0] == '\\' then
      if |s| < 2 then None
      else match (Unescape(s[1]), ReadQuotedBody(s[2..]))
        case (Some(c), Some(f)) => Some(Field([c] + f.text, f.rest))
        case _ => None
    else match ReadQuotedBody(s[1..])
      case Some(f) => Some(Field([s[0]] + f.text, f.rest))
      case None => None
  }

  /** Reading one escaped character in front of a readable body prepends that character. */
  lemma ReadQuotedBodyChar(c: char, tail: string, f: Field)
    requires ReadQuotedBody(tail) == Some(f)
    ensures ReadQuotedBody(EscapeChar(c) + tail) == Some(Field([c] + f.text, f.rest))
  {
    var s := EscapeChar(c) + tail;
    if c == '\\' || c == '"' || c == '\n' || c == '\r' || c == '\t' || c == '\0' {
      assert s[0] == '\\' && Unescape(s[1]) == Some(c);
      assert s[2..] == tail;
    } else {
      assert s[0] == c;
      assert s[1..] == tail;
    }
  }

  /** Reading back an escaped body stops exactly at the closing quote and recovers the original text. */
  lemma {:induction false} ReadQuotedBodyEscape(x: string, rest: string)
    ensures ReadQuotedBody(Escape(x) + "\"" + rest) == Some(Field(x, rest))
    decreases |x|
  {
    if |x| == 0 {
      assert Escape(x) + "\"" + rest == "\"" + rest;
    } else {
      var tail := Escape(x[1..]) + "\"" + rest;
      ReadQuotedBodyEscape(x[1..], rest);
      ReadQuotedBodyChar(x[0], tail, Field(x[1..], rest));
      calc {
        Escape(x) + "\"" + rest;
        (EscapeChar(x[0]) + Escape(x[1..])) + "\"" + rest;
        EscapeChar(x[0]) + tail;
      }
      assert [x[0]] + x[1..] == x;
    }
  }

  // ---------------------------------------------------------------------
  // prepare_message
  // ---------------------------------------------------------------------

  const InstructionsLabel: string := "\n  YOUR INSTRUCTIONS: "
  const ContextLabel: string := "\n  CONTEXT: "
  const QueryLabel: string := "\n  QUERY: "
  const PromptEnd: string := "\n  "

  /**
   * `prepare_message`: one system message holding the objective, the
   * context and the query, each Debug-rendered, under the labels
   * INSTRUCTIONS, CONTEXT and QUERY in that order.
   */
  function PrepareMessage(objective: string, context: string, query: string): (m: Message)
    ensures m.role == "system"
  {
    Message("system", PromptText(objective, context, query))
  }

  /** The content `prepare_message` formats. */
  function PromptText(objective: string, context: string, query: string): string
  {
    InstructionsLabel + Debug(objective) + ContextLabel + Debug(context) + QueryLabel + Debug(query) + PromptEnd
  }

  /** The three parts of a system prompt. */
  datatype Prompt = Prompt(objective: string, context: string, query: string)

  /** Reads `tag` followed by a Debug-rendered string. */
  function ReadField(tag: string, s: string): Option<Field>
  {
    var opening := tag + "\"";
    if opening <= s then ReadQuotedBody(s[|opening|..]) else None
  }

  /** Recovers objective, context and query from a prompt's content. */
  function ParsePrompt(content: string): Option<Prompt>
  {
    match ReadField(InstructionsLabel, content)
    case None => None
    case Some(o) =>
      match ReadField(ContextLabel, o.rest)
      case None => None
      case Some(c) =>
        match ReadField(QueryLabel, c.rest)
        case None => None
        case Some(q) => if q.rest == PromptEnd then Some(Prompt(o.text, c.text, q.text)) else None
  }

  lemma ReadFieldDebug(tag: string, x: string, rest: string)
    ensures ReadField(tag, tag + Debug(x) + rest) == Some(Field(x, rest))
  {
    var s := tag + Debug(x) + rest;
    var opening := tag + "\"";
    assert s == opening + (Escape(x) + "\"" + rest);
    assert opening <= s;
    assert s[|opening|..] == Escape(x) + "\"" + rest;
    ReadQuotedBodyEscape(x, rest);
  }

  /** The prompt's content decodes back to exactly the objective, context and query it was built from. */
  lemma PromptRoundTrip(objective: string, context: string, query: string)
    ensures ParsePrompt(PrepareMessage(objective, context, query).content) == Some(Prompt(objective, context, query))
  {
    var r3 := QueryLabel + Debug(query) + PromptEnd;
    var r2 := ContextLabel + Debug(context) + r3;
    var s := PromptText(objective, context, query);
    assert s == InstructionsLabel + Debug(objective) + r2;
    ReadFieldDebug(InstructionsLabel, objective, r2);
    ReadFieldDebug(ContextLabel, context, r3);
    ReadFieldDebug(QueryLabel, query, PromptEnd);
  }

  // ---------------------------------------------------------------------
  // ai_request
  // ---------------------------------------------------------------------

  /** The reply `ai_request` hands back and the consumption record after it. */
  datatype Answer = Answer(reply: Reply, io: Io)

  /**
   * `ai_request`: one gateway call with `msg`; if it fails, exactly one
   * more call with the same message, whose reply is returned unchanged.
   */
  function AiRequest(env: Env, io: Io, msg: Message): (a: Answer)
    ensures a.io.ticks == io.ticks
    ensures a.io.sent == io.sent + [msg] || a.io.sent == io.sent + [msg, msg]
    ensures |a.io.sent| == |io.sent| + 2 <==> env.gateway(|io.sent|).Err?
    ensures a.reply == env.gateway(|a.io.sent| - 1)
    ensures a.reply.Err? <==> env.gateway(|io.sent|).Err? && env.gateway(|io.sent| + 1).Err?
  {
    var first := env.gateway(|io.sent|);
    if first.Ok? then Answer(first, Io(io.sent + [msg], io.ticks))
    else Answer(env.gateway(|io.sent| + 1), Io(io.sent + [msg, msg], io.ticks))
  }
}
