/**
  What `summarize` sends to the summarization worker and how it reads the
  answer (front-end/src/App.jsx:24-64). The HTTP exchange itself is not
  modelled: its result arrives as an `Outcome`.
 */
module SummaryRequest {
  import opened Js
  import Decimal

  /** The summary-length slider's range, `min="1" max="100"`. */
  type Length = n: int | 1 <= n <= 100 witness 10

  datatype ContentPart = ContentPart(kind: string, text: string)

  datatype Message = Message(role: string, content: seq<ContentPart>)

  const PromptHead := "Summarize this text. Limit the summary length to "
  const PromptTail := " words: "

  /** The instruction text sent to the model for a given length and input text. */
  function Prompt(length: Length, text: string): string {
    PromptHead + Decimal.Show(length) + PromptTail + text
  }

  /** The `messages` array posted to the worker: one user message holding one text part. */
  function Messages(length: Length, text: string): (r: seq<Message>)
    ensures |r| == 1 && r[0].role == "user"
    ensures |r[0].content| == 1 && r[0].content[0].kind == "text"
    ensures r[0].content[0].text == Prompt(length, text)
  {
    [Message("user", [ContentPart("text", Prompt(length, text))])]
  }

  /**
    Reads an instruction text back into the length and the input text it
    was built from; `None` for a string no `Prompt` produces.
   */
  function ParsePrompt(p: string): Option<(nat, string)> {
    if |p| < |PromptHead| || p[..|PromptHead|] != PromptHead then None
    else
      var rest := p[|PromptHead|..];
      var k := Decimal.SpanDigits(rest);
      var after := rest[k..];
      if k == 0 || |after| < |PromptTail| || after[..|PromptTail|] != PromptTail then None
      else Some((Decimal.Value(rest[..k]), after[|PromptTail|..]))
  }

  /** The instruction text determines the length and the text it was built from. */
  lemma PromptRoundTrip(length: Length, text: string)
    ensures ParsePrompt(Prompt(length, text)) == Some((length as nat, text))
  {
    var p := Prompt(length, text);
    var num := Decimal.Show(length);
    var rest := PromptTail + text;
    assert p == PromptHead + (num + rest);
    assert p[..|PromptHead|] == PromptHead;
    assert p[|PromptHead|..] == num + rest;
    Decimal.SpanOfShow(length, rest);
    assert (num + rest)[..|num|] == num;
    assert (num + rest)[|num|..] == rest;
    Decimal.ValueOfShow(length);
  }

  /** Two submissions send the same instruction only when their lengths and texts agree. */
  lemma PromptInjective(l1: Length, t1: string, l2: Length, t2: string)
    requires Prompt(l1, t1) == Prompt(l2, t2)
    ensures l1 == l2 && t1 == t2
  {
    PromptRoundTrip(l1, t1);
    PromptRoundTrip(l2, t2);
  }

  /**
    How the `fetch` exchange settled.
    - `Ok`: the response status was ok and its JSON body parsed; `summary` is `data.summary`.
    - `NotOk`: the status was not ok and its JSON body parsed; `error` is `data.error`.
    - `Threw`: `fetch` rejected or `response.json()` threw, with this message.
   */
  datatype Outcome =
    | Ok(summary: Option<string>)
    | NotOk(error: Option<string>)
    | Threw(message: string)

  const NoSummary := "No summary available."
  const WorkerErrorPrefix := "Worker error: "
  const UserError := "Unable to access AI. Please refresh and try again."

  /** A possibly undefined string placed in a template literal. */
  function Interpolate(o: Option<string>): string {
    match o
    case Some(s) => s
    case None => "undefined"
  }

  /** `data.summary || "No summary available."`. */
  function SummaryText(field: Option<string>): (r: string)
    ensures Truthy(r)
    ensures TruthyOpt(field) ==> r == field.value
    ensures !TruthyOpt(field) ==> r == NoSummary
  {
    if field.Some? && Truthy(field.value) then field.value else NoSummary
  }

  /** The `summary` state once the response has been read: set on success only. */
  function SummaryAfter(summary: string, o: Outcome): (r: string)
    ensures o.Ok? ==> Truthy(r) && r == SummaryText(o.summary)
    ensures !o.Ok? ==> r == summary
  {
    if o.Ok? then SummaryText(o.summary) else summary
  }

  /** The local `errorMessage` after the try/catch: the caught error's message, or null. */
  function CaughtMessage(o: Outcome): (r: Option<string>)
    ensures o.Ok? <==> r.None?
    ensures o.NotOk? ==> r == Some(WorkerErrorPrefix + Interpolate(o.error))
    ensures o.Threw? ==> r == Some(o.message)
  {
    match o
    case Ok(_) => None
    case NotOk(e) => Some(WorkerErrorPrefix + Interpolate(e))
    case Threw(m) => Some(m)
  }

  /** Whether the timer callback will report an error: `if (errorMessage)`. */
  function Failed(o: Outcome): (b: bool)
    ensures b <==> TruthyOpt(CaughtMessage(o))
    ensures b <==> o.NotOk? || (o.Threw? && o.message != "")
  {
    match o
    case Ok(_) => false
    case NotOk(_) => true
    case Threw(m) => Truthy(m)
  }
}
