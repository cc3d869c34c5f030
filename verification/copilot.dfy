/** The Data Copilot (src/copilot.py): extracting code from a fenced reply,
    turning the execution of that code into an answer text, and the bounded
    retry loop around the model call. The Gemini client, the model's replies
    and `exec` are oracles passed in as parameters. */
module Copilot {
  import opened Optional
  import opened Text

  const Fence: string := "```"
  const PythonFence: string := "```python"

  /* ---------------------------------------------------------------------
     clean_code_block
     --------------------------------------------------------------------- */

  lemma FenceStartsPythonFence()
    ensures |Fence| <= |PythonFence| && PythonFence[..|Fence|] == Fence
  {
  }

  /** `clean_code_block(text)`: the body of the first ```python block, else of
      the first ``` block, else the whole text; always stripped. */
  function CleanCodeBlock(text: string): (r: string)
    ensures !Contains(r, Fence)
    ensures |r| > 0 ==> !IsSpace(r[0]) && !IsSpace(r[|r| - 1])
  {
    SplitPieces(text, PythonFence);
    SplitPieces(text, Fence);
    var body :=
      if Contains(text, PythonFence) then Before(Split(text, PythonFence)[1], Fence)
      else if Contains(text, Fence) then Before(Split(text, Fence)[1], Fence)
      else text;
    assert !Contains(body, Fence);
    Strip(body)
  }

  /** Text with no fence is cleaned by stripping alone. */
  lemma CleanFenceFree(text: string)
    requires !Contains(text, Fence)
    ensures CleanCodeBlock(text) == Strip(text)
  {
    if Contains(text, PythonFence) {
      FenceStartsPythonFence();
      ContainsPrefixOf(text, PythonFence, Fence);
    }
  }

  /** Cleaning twice is cleaning once. */
  lemma CleanIdempotent(text: string)
    ensures CleanCodeBlock(CleanCodeBlock(text)) == CleanCodeBlock(text)
  {
    var r := CleanCodeBlock(text);
    CleanFenceFree(r);
    StripFixedPoint(r);
  }

  /** Splitting at the first separator and again at the same separator
      changes nothing: the first piece already lacks the separator. */
  lemma BeforeIdempotent(s: string, sep: string)
    requires |sep| > 0
    ensures Before(Before(s, sep), sep) == Before(s, sep)
  {
  }

  /** A bare fence: the text between the first and the second fence (or the
      end of the text), stripped. */
  lemma CleanBareFence(text: string)
    requires Contains(text, Fence) && !Contains(text, PythonFence)
    ensures CleanCodeBlock(text) == Strip(Before(After(text, Fence), Fence))
  {
    SplitPieces(text, Fence);
    BeforeIdempotent(After(text, Fence), Fence);
  }

  /** Four backticks in a row: the one pattern where a ``` starts before a
      ```python and runs into it. */
  const FourTicks: string := "````"

  /** Every ```python begins with a ```. */
  lemma PythonFenceIsFence(x: string, p: nat)
    requires OccursAt(x, PythonFence, p)
    ensures OccursAt(x, Fence, p)
  {
    assert x[p..p + |PythonFence|][..|Fence|] == x[p..p + |Fence|];
  }

  /** A prefix that holds no fence of `x` is its own first piece. */
  lemma NoFenceInPrefix(x: string, p: nat)
    requires p <= |x|
    requires forall k :: 0 <= k < p ==> !OccursAt(x, Fence, k)
    ensures Before(x[..p], Fence) == x[..p]
  {
    if Contains(x[..p], Fence) {
      IndexOfSpec(x[..p], Fence);
      var k := IndexOf(x[..p], Fence).value;
      OccursInSlice(x, 0, p, Fence, k);
    }
  }

  /** A prefix that holds the first fence of `x` whole is cut there. */
  lemma FirstFenceInPrefix(x: string, p: nat, q: nat)
    requires q + |Fence| <= p <= |x|
    requires OccursAt(x, Fence, q)
    requires forall k :: 0 <= k < q ==> !OccursAt(x, Fence, k)
    ensures Before(x[..p], Fence) == x[..q]
  {
    var piece := x[..p];
    assert OccursAt(piece, Fence, q) by {
      assert piece[q..q + |Fence|] == x[q..q + |Fence|];
    }
    ContainsIff(piece, Fence);
    IndexOfSpec(piece, Fence);
    var k := IndexOf(piece, Fence).value;
    OccursInSlice(x, 0, p, Fence, k);
    assert k == q;
  }

  /** Cutting at the first ```python and then at the first ``` is cutting at
      the first ``` directly, unless a ``` overlaps the start of the ```python. */
  lemma BeforeFenceWithinPythonPiece(x: string)
    requires !Contains(x, FourTicks)
    ensures Before(Before(x, PythonFence), Fence) == Before(x, Fence)
  {
    if Contains(x, PythonFence) {
      IndexOfSpec(x, PythonFence);
      var p := IndexOf(x, PythonFence).value;
      assert Before(x, PythonFence) == x[..p];
      PythonFenceIsFence(x, p);
      ContainsIff(x, Fence);
      IndexOfSpec(x, Fence);
      var q := IndexOf(x, Fence).value;
      assert Before(x, Fence) == x[..q];
      if q < p < q + |Fence| {
        FourTicksAt(x, q, p);
        ContainsIff(x, FourTicks);
      } else if q + |Fence| <= p {
        FirstFenceInPrefix(x, p, q);
      } else {
        NoFenceInPrefix(x, p);
      }
    }
  }

  /** Two overlapping fences make four backticks in a row. */
  lemma FourTicksAt(x: string, q: nat, p: nat)
    requires q < p < q + 3 && p + 3 <= |x|
    requires x[q..q + 3] == Fence && x[p..p + 3] == Fence
    ensures OccursAt(x, FourTicks, q)
  {
    assert x[q] == '`' && x[q + 1] == '`' && x[q + 2] == '`';
    assert x[p + 2] == '`';
    assert x[q + 3] == '`';
    assert x[q..q + 4] == FourTicks;
  }

  /** A ```python block with no four backticks in a row after it: the text
      after the first ```python up to the next ```, stripped. */
  lemma CleanPythonBlock(text: string)
    requires Contains(text, PythonFence) && !Contains(After(text, PythonFence), FourTicks)
    ensures CleanCodeBlock(text) == Strip(Before(After(text, PythonFence), Fence))
  {
    var x := After(text, PythonFence);
    SplitPieces(text, PythonFence);
    BeforeFenceWithinPythonPiece(x);
  }

  /** A reply with a ```python block (and no four backticks in a row after it) runs
      exactly the block's body, and an exception raised by it becomes the
      answer text after the error prefix. */
  lemma PythonReplyRunsBlock(raw: string, attempt: nat, exec: string -> ExecOutcome)
    requires Contains(raw, PythonFence) && !Contains(After(raw, PythonFence), FourTicks)
    ensures var a := AttemptAnswer(Response(Some(raw)), attempt, exec);
      var code := Strip(Before(After(raw, PythonFence), Fence));
      && a == CodeAnswer(ExecuteGeneratedCode(code, exec), code)
      && (exec(code).Raised? ==> a.content == ExecErrorPrefix + exec(code).error)
      && (exec(code) == Completed(None) ==> a.content == NoResultMessage)
  {
    CleanPythonBlock(raw);
    FenceStartsPythonFence();
    ContainsPrefixOf(raw, PythonFence, Fence);
  }

  /** The first occurrence of `sub` in `s`, from one occurrence and the
      absence of earlier ones. */
  lemma FirstOccurrence(s: string, sub: string, i: nat)
    requires OccursAt(s, sub, i)
    requires forall k :: 0 <= k < i ==> !OccursAt(s, sub, k)
    ensures IndexOf(s, sub) == Some(i)
  {
    IndexOfSpec(s, sub);
  }

  /** The reply of the counterexample below, after its first ```python. */
  const OverlapTail: string := "a`````python"

  lemma OverlapTailSearch()
    ensures IndexOf(OverlapTail, PythonFence) == Some(3)
    ensures IndexOf(OverlapTail, Fence) == Some(1)
    ensures IndexOf(OverlapTail[..3], Fence).None?
  {
    var x := OverlapTail;
    assert x[0] == 'a' && x[1] == '`' && x[2] == '`' && x[3] == '`' && x[4] == '`' && x[5] == '`' && x[6] == 'p';
    assert PythonFence[0] == '`' && PythonFence[3] == 'p';
    assert x[3..12] == PythonFence;
    assert !OccursAt(x, PythonFence, 0) && !OccursAt(x, PythonFence, 1) && !OccursAt(x, PythonFence, 2);
    FirstOccurrence(x, PythonFence, 3);
    assert x[1..4] == Fence;
    assert !OccursAt(x, Fence, 0);
    FirstOccurrence(x, Fence, 1);
    assert !OccursAt(x[..3], Fence, 0);
  }

  /** Without that condition the description fails: in this reply the block
      runs into a second ```python two backticks early, and `split` keeps the
      two backticks. */
  lemma CleanPythonBlockOverlap()
    ensures var text := PythonFence + OverlapTail;
      && CleanCodeBlock(text) == "a``"
      && Strip(Before(After(text, PythonFence), Fence)) == "a"
  {
    var text := PythonFence + OverlapTail;
    assert text[0..|PythonFence|] == PythonFence;
    FirstOccurrence(text, PythonFence, 0);
    assert After(text, PythonFence) == OverlapTail;
    OverlapTailSearch();
    var piece := OverlapTail[..3];
    SplitPieces(text, PythonFence);
    assert Split(text, PythonFence)[1] == Before(OverlapTail, PythonFence) == piece;
    assert piece == "a``";
    assert Before(piece, Fence) == piece;
    assert Before(OverlapTail, Fence) == "a";
    StripFixedPoint("a``");
    StripFixedPoint("a");
  }

  /* ---------------------------------------------------------------------
     execute_generated_code
     --------------------------------------------------------------------- */

  /** What `exec(code, {}, local_scope)` followed by `str(result)` does: it
      raises, or finishes with `result` left `None` or rendered as text. */
  datatype ExecOutcome = Raised(error: string) | Completed(result: Option<string>)

  const ExecErrorPrefix: string := "Error executing code: "
  const NoResultMessage: string := "The code ran but did not yield a 'result' variable."

  function ExecuteGeneratedCode(code: string, exec: string -> ExecOutcome): (r: string)
    ensures exec(code).Raised? ==> StartsWith(r, ExecErrorPrefix) && r[|ExecErrorPrefix|..] == exec(code).error
    ensures exec(code) == Completed(None) ==> r == NoResultMessage
    ensures exec(code).Completed? && exec(code).result.Some? ==> r == exec(code).result.value
  {
    match exec(code)
    case Raised(e) => ExecErrorPrefix + e
    case Completed(None) => NoResultMessage
    case Completed(Some(s)) => s
  }

  /* ---------------------------------------------------------------------
     get_api_client and ask_copilot
     --------------------------------------------------------------------- */

  datatype Client = Client(key: string)

  /** `get_api_client()`: `key` is `GEMINI_API_KEY` from the environment and
      `initOk` says whether `genai.Client(...)` constructs without raising. */
  function GetApiClient(key: Option<string>, initOk: bool): (c: Option<Client>)
    ensures c.Some? <==> key.Some? && key.value != "" && initOk
    ensures c.Some? ==> c.value.key == key.value
  {
    if key.None? || key.value == "" then None
    else if initOk then Some(Client(key.value))
    else None
  }

  /** One reply of `generate_content`: a response whose `.text` may be `None`,
      or the exception the call raised, as `str(e)`. */
  datatype Reply = Response(text: Option<string>) | CallFailed(error: string)

  /** The copilot's answer dictionary: `type` "text" or "code". */
  datatype Answer = TextAnswer(content: string) | CodeAnswer(content: string, code: string)

  const MaxRetries: nat := 3
  const MissingKeyMessage: string := "\U{26A0}\U{FE0F} Gemini API Key not found. Please set GEMINI_API_KEY in .env file."
  const FallbackMessage: string := "Error: Failed to connect to Gemini API after multiple attempts."
  /** What `str(e)` says when `"```python" in raw_text` meets `raw_text = None`. */
  const NoneTextError: string := "argument of type 'NoneType' is not iterable"

  /** The exception an attempt raises, if any, as `str(e)`. */
  function AttemptError(reply: Reply): Option<string>
  {
    match reply
    case CallFailed(e) => Some(e)
    case Response(None) => Some(NoneTextError)
    case Response(Some(_)) => None
  }

  /** The error is a 503 (unavailable) or a 429 (rate limit). */
  predicate Transient(reply: Reply)
  {
    AttemptError(reply).Some? && (Contains(AttemptError(reply).value, "503") || Contains(AttemptError(reply).value, "429"))
  }

  function AttemptErrorMessage(attempt: nat, error: string): string
  {
    "Error connecting to Gemini API (Attempt " + NatToString(attempt) + "/" + NatToString(MaxRetries) + "): " + error
  }

  /** What attempt number `attempt` (counting from 1) returns when it does not
      retry: the fenced reply's code and its execution, the plain reply, or
      the error message. */
  function AttemptAnswer(reply: Reply, attempt: nat, exec: string -> ExecOutcome): (a: Answer)
    ensures AttemptError(reply).Some? ==> a == TextAnswer(AttemptErrorMessage(attempt, AttemptError(reply).value))
    ensures a.CodeAnswer? <==> reply.Response? && reply.text.Some? && Contains(reply.text.value, Fence)
    ensures a.CodeAnswer? ==> a.code == CleanCodeBlock(reply.text.value) && a.content == ExecuteGeneratedCode(a.code, exec)
  {
    match reply
    case CallFailed(e) => TextAnswer(AttemptErrorMessage(attempt, e))
    case Response(None) => TextAnswer(AttemptErrorMessage(attempt, NoneTextError))
    case Response(Some(raw)) =>
      if Contains(raw, Fence) then CodeAnswer(ExecuteGeneratedCode(CleanCodeBlock(raw), exec), CleanCodeBlock(raw))
      else TextAnswer(raw)
  }

  /** An attempt that raised reports the error with its number; a reply with
      a fence (```python or bare) is code, cleaned and executed; any other
      reply text is the answer itself. */
  lemma AttemptAnswerCases(reply: Reply, attempt: nat, exec: string -> ExecOutcome)
    ensures var a := AttemptAnswer(reply, attempt, exec);
      && (AttemptError(reply).Some? ==> a == TextAnswer(AttemptErrorMessage(attempt, AttemptError(reply).value)))
      && (reply.Response? && reply.text.Some? ==> (a.CodeAnswer? <==> Contains(reply.text.value, Fence)))
      && (a.CodeAnswer? ==> a.code == CleanCodeBlock(reply.text.value) && a.content == ExecuteGeneratedCode(a.code, exec))
      && (reply.Response? && reply.text.Some? && !Contains(reply.text.value, Fence) ==> a == TextAnswer(reply.text.value))
      && (reply.Response? && reply.text.Some? && Contains(reply.text.value, PythonFence) ==> a.CodeAnswer?)
  {
    if reply.Response? && reply.text.Some? && Contains(reply.text.value, PythonFence) {
      FenceStartsPythonFence();
      ContainsPrefixOf(reply.text.value, PythonFence, Fence);
    }
  }

  /** A reference reading of the retry loop: the number of calls made when
      attempt `k` (from 0) is reached. An attempt retries when its error is
      transient and it is not the last. */
  function CallsFrom(model: nat -> Reply, k: nat): (n: nat)
    requires k < MaxRetries
    ensures k < n <= MaxRetries
    decreases MaxRetries - k
  {
    if Transient(model(k)) && k < MaxRetries - 1 then CallsFrom(model, k + 1)
    else k + 1
  }

  /** The reference answer: the reply to the last call made, numbered from 1. */
  function CopilotReply(model: nat -> Reply, exec: string -> ExecOutcome): (a: Answer)
    ensures !Transient(model(0)) ==> a == AttemptAnswer(model(0), 1, exec)
    ensures Transient(model(0)) && !Transient(model(1)) ==> a == AttemptAnswer(model(1), 2, exec)
    ensures Transient(model(0)) && Transient(model(1)) ==> a == AttemptAnswer(model(2), 3, exec)
  {
    var n := CallsFrom(model, 0);
    AttemptAnswer(model(n - 1), n, exec)
  }

  /** The calls stop at the first attempt from `k` on that does not retry,
      or at the last attempt. */
  lemma {:induction false} CallsFromStops(model: nat -> Reply, k: nat, calls: nat)
    requires k < calls <= MaxRetries
    requires forall j :: k <= j < calls - 1 ==> Transient(model(j))
    requires calls < MaxRetries ==> !Transient(model(calls - 1))
    ensures CallsFrom(model, k) == calls
    decreases calls - k
  {
    if k < calls - 1 {
      CallsFromStops(model, k + 1, calls);
    }
  }

  /** The `for attempt in range(max_retries)` loop, counting attempts from 1:
      `model(calls - 1)` is the reply to call number `calls`. The loop stops
      at the first attempt that does not retry; the fallback after it cannot
      be reached, since the last attempt never continues. */
  method CountCalls(model: nat -> Reply) returns (calls: nat)
    ensures 1 <= calls <= MaxRetries
    ensures forall k :: 0 <= k < calls - 1 ==> Transient(model(k))
    ensures calls < MaxRetries ==> !Transient(model(calls - 1))
  {
    calls := 1;
    while calls <= MaxRetries
      invariant 1 <= calls <= MaxRetries
      invariant forall k :: 0 <= k < calls - 1 ==> Transient(model(k))
      decreases MaxRetries - calls
    {
      if Transient(model(calls - 1)) && calls < MaxRetries {
        calls := calls + 1;
        continue;
      }
      return;
    }
    assert false;
  }

  /** The loop answers with the reply to the last call it makes. */
  method Consult(model: nat -> Reply, exec: string -> ExecOutcome) returns (answer: Answer, calls: nat)
    ensures 1 <= calls <= MaxRetries && calls == CallsFrom(model, 0)
    ensures answer == AttemptAnswer(model(calls - 1), calls, exec)
  {
    calls := CountCalls(model);
    ConsultAgrees(model, calls);
    answer := AttemptAnswer(model(calls - 1), calls, exec);
  }

  /** Whatever stops the loop, the reference stops there too. */
  lemma ConsultAgrees(model: nat -> Reply, calls: nat)
    requires 1 <= calls <= MaxRetries
    requires forall k :: 0 <= k < calls - 1 ==> Transient(model(k))
    requires calls < MaxRetries ==> !Transient(model(calls - 1))
    ensures CallsFrom(model, 0) == calls
  {
    CallsFromStops(model, 0, calls);
  }

  /** Three transient failures in a row: the third attempt reports its own
      error rather than retrying again or falling through to the fallback. */
  lemma ThirdTransientReported(model: nat -> Reply, exec: string -> ExecOutcome)
    requires Transient(model(0)) && Transient(model(1)) && Transient(model(2))
    ensures CallsFrom(model, 0) == MaxRetries
    ensures CopilotReply(model, exec) == TextAnswer(AttemptErrorMessage(3, AttemptError(model(2)).value))
  {
    CallsFromStops(model, 0, 3);
    AttemptAnswerCases(model(2), 3, exec);
  }

  /** The outcome of a call that may raise out of `ask_copilot`. */
  datatype Outcome = Returned(answer: Answer) | Crashed(error: string)

  /** What `str(df.dtypes)` raises when no file has been loaded. */
  const NoFrameError: string := "'NoneType' object has no attribute 'dtypes'"

  /** `ask_copilot(df, query)` as written: with a client but no loaded frame,
      reading `df.dtypes` raises before any model call. */
  method AskCopilotAsWritten(client: Option<Client>, hasData: bool, model: nat -> Reply, exec: string -> ExecOutcome)
    returns (outcome: Outcome, calls: nat)
    ensures client.None? ==> outcome == Returned(TextAnswer(MissingKeyMessage)) && calls == 0
    ensures client.Some? && !hasData ==> outcome == Crashed(NoFrameError) && calls == 0
    ensures client.Some? && hasData ==> outcome == Returned(CopilotReply(model, exec)) && 1 <= calls <= MaxRetries
  {
    if client.None? {
      return Returned(TextAnswer(MissingKeyMessage)), 0;
    }
    if !hasData {
      return Crashed(NoFrameError), 0;
    }
    var answer;
    answer, calls := Consult(model, exec);
    outcome := Returned(answer);
  }

  /** The answer `prepare_context` gives for a missing frame. */
  const NoDataMessage: string := "No data available."

  /** `ask_copilot(df, query)` with the missing frame answered instead of
      raised on: every call returns an answer. */
  method AskCopilot(client: Option<Client>, hasData: bool, model: nat -> Reply, exec: string -> ExecOutcome)
    returns (answer: Answer, calls: nat)
    ensures client.None? ==> answer == TextAnswer(MissingKeyMessage) && calls == 0
    ensures client.Some? && !hasData ==> answer == TextAnswer(NoDataMessage) && calls == 0
    ensures client.Some? && hasData ==> 1 <= calls <= MaxRetries && answer == CopilotReply(model, exec)
  {
    if client.None? {
      return TextAnswer(MissingKeyMessage), 0;
    }
    if !hasData {
      return TextAnswer(NoDataMessage), 0;
    }
    answer, calls := Consult(model, exec);
  }

  /** `ask_copilot` from its first line, `client = get_api_client()`: a
      missing or empty key, or a client that fails to construct, answers with
      the missing-key message before any model call, whatever the model
      would reply. */
  method AskCopilotWithKey(key: Option<string>, initOk: bool, hasData: bool, model: nat -> Reply, exec: string -> ExecOutcome)
    returns (answer: Answer, calls: nat)
    ensures key.None? || key == Some("") || !initOk ==> answer == TextAnswer(MissingKeyMessage) && calls == 0
    ensures key.Some? && key.value != "" && initOk && !hasData ==> answer == TextAnswer(NoDataMessage) && calls == 0
    ensures key.Some? && key.value != "" && initOk && hasData ==> 1 <= calls <= MaxRetries && answer == CopilotReply(model, exec)
  {
    var client := GetApiClient(key, initOk);
    answer, calls := AskCopilot(client, hasData, model, exec);
  }
}
