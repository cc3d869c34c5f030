/** The session state app.py keeps across reruns, and the two callbacks that
    change its data: a file upload on the Data Source page and a question sent
    on the Data Copilot page. */
module Session {
  import opened Optional
  import opened Seqs
  import opened Frames
  import opened Analysis
  import opened Loader
  import opened ManualBuilder
  import opened Copilot

  /** A chat message: the copilot's answers keep their generated code. */
  datatype Role = User | Assistant
  datatype Content = Plain(text: string) | Reply(answer: Answer)
  datatype Turn = Turn(role: Role, content: Content)

  const Greeting: string := "Hello! I'm your Data Copilot. Ask me anything about your data."
  const HomePage: string := "Home"

  datatype State = State(
    page: string,
    frame: Option<DataFrame>,
    colTypes: Option<ColumnTypes>,
    uploadedName: Option<string>,
    dashboardGenerated: bool,
    focused: Option<int>,
    choices: Choices,
    history: seq<Turn>,
    input: string)

  /** The state the first run of the app creates. */
  const Initial: State :=
    State(HomePage, None, None, None, false, None, InitialChoices, [Turn(Assistant, Plain(Greeting))], "")

  /** The loaded frame and its classification belong together: both are set
      at once, the classification is that of the frame, and a file name is
      only remembered for a file that loaded. */
  ghost predicate Consistent(s: State, parse: string -> Option<int>)
  {
    && (s.frame.Some? <==> s.colTypes.Some?)
    && (s.frame.Some? ==> WellFormed(s.frame.value) && s.colTypes.value == GetColumnTypes(s.frame.value, parse))
    && (s.uploadedName.Some? ==> s.frame.Some?)
  }

  lemma InitialConsistent(parse: string -> Option<int>)
    ensures Consistent(Initial, parse)
  {
  }

  /** What the upload handler leaves, and the error `load_data` shows. */
  datatype Upload = Upload(state: State, error: Option<string>)

  /** The readers build well-formed frames. */
  ghost predicate ReadersWellFormed(read: Reader -> ReadOutcome)
  {
    forall r: Reader :: read(r).Read? ==> WellFormed(read(r).frame)
  }

  /** The upload handler: a file whose name differs from the one loaded last
      is read; when it loads it replaces the frame and its classification and
      sends the Dashboard back to its builder card. */
  function UploadFile(s: State, name: string, read: Reader -> ReadOutcome, parse: string -> Option<int>): (r: Upload)
    requires ReadersWellFormed(read)
    ensures s.uploadedName == Some(name) ==> r == Upload(s, None)
    ensures s.uploadedName != Some(name) && LoadData(name, read).frame.None? ==>
      r.state == s && r.error == LoadData(name, read).error
    ensures r.state.frame.Some? && r.state.frame != s.frame ==> r.state.uploadedName == Some(name) && !r.state.dashboardGenerated
    ensures s.uploadedName != Some(name) && LoadData(name, read).frame.Some? ==>
      && r.error.None?
      && r.state.frame == LoadData(name, read).frame
      && r.state.uploadedName == Some(name)
      && !r.state.dashboardGenerated
      && WellFormed(r.state.frame.value)
      && r.state.colTypes == Some(GetColumnTypes(r.state.frame.value, parse))
    ensures r.state.page == s.page && r.state.focused == s.focused && r.state.choices == s.choices
    ensures r.state.history == s.history && r.state.input == s.input
  {
    if s.uploadedName == Some(name) then Upload(s, None)
    else
      var load := LoadData(name, read);
      match load.frame
      case None => Upload(s, load.error)
      case Some(g) =>
        LoadKeepsShape(name, read);
        Upload(s.(frame := Some(g), colTypes := Some(GetColumnTypes(g, parse)),
                  uploadedName := Some(name), dashboardGenerated := false), None)
  }

  /** Uploads keep the frame and its classification together. */
  lemma UploadPreservesConsistent(s: State, name: string, read: Reader -> ReadOutcome, parse: string -> Option<int>)
    requires ReadersWellFormed(read) && Consistent(s, parse)
    ensures Consistent(UploadFile(s, name, read, parse).state, parse)
  {
  }

  /** The rerun after an upload sees the same file again and changes nothing. */
  lemma UploadIdempotent(s: State, name: string, read: Reader -> ReadOutcome, parse: string -> Option<int>)
    requires ReadersWellFormed(read)
    ensures var once := UploadFile(s, name, read, parse).state;
      UploadFile(once, name, read, parse).state == once
  {
  }

  /** A file of any other type is ignored without a message. */
  lemma UnsupportedUploadIgnored(s: State, name: string, read: Reader -> ReadOutcome, parse: string -> Option<int>)
    requires ReadersWellFormed(read)
    requires !Text.EndsWith(name, ".csv") && !Text.EndsWith(name, ".xlsx")
    ensures UploadFile(s, name, read, parse) == Upload(s, None)
  {
    UnsupportedIgnoresReaders(name, read, read);
  }

  /* ---------------------------------------------------------------------
     Copilot chat
     --------------------------------------------------------------------- */

  /** The history alternates: the greeting, then each question followed by
      its answer. */
  ghost predicate Paired(h: seq<Turn>)
  {
    |h| % 2 == 1 && forall i :: 0 <= i < |h| ==> h[i].role == (if i % 2 == 0 then Assistant else User)
  }

  lemma InitialPaired()
    ensures Paired(Initial.history)
  {
  }

  /** A question followed by its answer keeps the history paired. */
  lemma ExchangeKeepsPairing(h: seq<Turn>, question: string, answer: Answer)
    requires Paired(h)
    ensures Paired(h + [Turn(User, Plain(question)), Turn(Assistant, Reply(answer))])
  {
    var h' := h + [Turn(User, Plain(question)), Turn(Assistant, Reply(answer))];
    forall i | 0 <= i < |h'|
      ensures h'[i].role == (if i % 2 == 0 then Assistant else User)
    {
      if i < |h| {
        assert h'[i] == h[i];
      }
    }
  }

  /** The answer `ask_copilot` gives, as a reference for the callback. */
  function CopilotAnswer(client: Option<Client>, hasData: bool, model: nat -> Reply, exec: string -> ExecOutcome): Answer
  {
    if client.None? then TextAnswer(MissingKeyMessage)
    else if !hasData then TextAnswer(NoDataMessage)
    else CopilotReply(model, exec)
  }

  /** `handle_input` with the no-data check `ask_copilot` evidently intends:
      a non-empty question is appended with its answer and the input box is
      cleared; an empty one changes nothing. */
  method HandleInput(s: State, client: Option<Client>, model: nat -> Reply, exec: string -> ExecOutcome)
    returns (r: State, calls: nat)
    ensures s.input == "" ==> r == s && calls == 0
    ensures s.input != "" ==>
      && r.history == s.history + [Turn(User, Plain(s.input)), Turn(Assistant, Reply(CopilotAnswer(client, s.frame.Some?, model, exec)))]
      && r.input == ""
      && r == s.(history := r.history, input := "")
    ensures Paired(s.history) ==> Paired(r.history)
    ensures calls <= MaxRetries && (calls > 0 ==> client.Some? && s.frame.Some?)
  {
    if s.input == "" {
      return s, 0;
    }
    var answer;
    answer, calls := AskCopilot(client, s.frame.Some?, model, exec);
    assert answer == CopilotAnswer(client, s.frame.Some?, model, exec);
    var h := s.history + [Turn(User, Plain(s.input)), Turn(Assistant, Reply(answer))];
    if Paired(s.history) {
      ExchangeKeepsPairing(s.history, s.input, answer);
    }
    r := s.(history := h, input := "");
  }

  /** `handle_input` as written. The user's question is appended before
      `ask_copilot` runs; when that raises, the callback stops there: no
      answer is appended and the input box keeps the question. */
  method HandleInputAsWritten(s: State, client: Option<Client>, model: nat -> Reply, exec: string -> ExecOutcome)
    returns (r: State, raised: Option<string>, calls: nat)
    ensures s.input == "" ==> r == s && raised.None? && calls == 0
    ensures s.input != "" && raised.None? ==>
      r.history == s.history + [Turn(User, Plain(s.input)), Turn(Assistant, Reply(CopilotAnswer(client, s.frame.Some?, model, exec)))]
      && r.input == ""
    ensures raised.Some? <==> s.input != "" && client.Some? && s.frame.None?
    ensures raised.Some? ==> raised.value == NoFrameError && r.history == s.history + [Turn(User, Plain(s.input))] && r.input == s.input
  {
    if s.input == "" {
      return s, None, 0;
    }
    var h := s.history + [Turn(User, Plain(s.input))];
    var outcome;
    outcome, calls := AskCopilotAsWritten(client, s.frame.Some?, model, exec);
    match outcome
    case Crashed(e) =>
      r, raised := s.(history := h), Some(e);
    case Returned(answer) =>
      r, raised := s.(history := h + [Turn(Assistant, Reply(answer))], input := ""), None;
      assert h + [Turn(Assistant, Reply(answer))] == s.history + [Turn(User, Plain(s.input)), Turn(Assistant, Reply(answer))];
  }

  /** With an API key but before any upload, the question as written is left
      without an answer: the history ends on the user's turn and is no longer
      paired. */
  lemma UnansweredQuestionBreaksPairing(h: seq<Turn>, question: string)
    requires Paired(h)
    ensures !Paired(h + [Turn(User, Plain(question))])
  {
    var h' := h + [Turn(User, Plain(question))];
    assert |h'| % 2 == 0;
  }
}
