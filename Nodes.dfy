/** The six workflow nodes (`WorkflowNodes`) and the state record they pass along
    (`GraphState`). Each node is given twice: as a pure stage function on a `State` value,
    which the properties are stated about, and as a method that updates a `GraphState` object
    in place, proved to do what the stage function says. The language model and the numeric
    evaluator are oracles: total functions that return a reply or a failure message. */
module Nodes {
  import opened Common
  import opened Text
  import opened Validators

  /** A snapshot of `GraphState`. */
  datatype State = State(
    userQuery: string,
    queryType: string,
    response: string,
    calculationResult: string,
    error: string,
    chatHistory: seq<Message>,
    sessionId: string)

  /** The language model: given the user query and the formatted history, a reply text or the
      text of the exception it raised. */
  type LanguageModel = (string, string) -> Result<string>

  /** `numexpr.evaluate(...).item()` followed by `str`: the result's text or the exception's. */
  type Evaluator = string -> Result<string>

  const NoQueryError := "No user query provided"
  const LlmApology := "I apologize, but I encountered an error processing your request. Please try again."
  const CalculationApology := "I couldn't perform that calculation. Please provide a valid mathematical expression."
  const NoResponseFallback := "I'm sorry, I couldn't generate a response."
  const NoHistoryText := "No previous conversation."

  /** The rolling history keeps at most this many messages (ten exchanges). */
  const MaxHistory := 20

  /** The language model sees at most this many of the latest messages. */
  const ContextMessages := 10

  // ---------------------------------------------------------------------------------------
  // Stage functions

  /** `input_node`: an empty query or one `validate_query` refuses sets `error` and keeps the
      query; otherwise the query is replaced by its sanitised form. */
  function InputStage(s: State): (t: State)
    ensures t.error != s.error ==> t.userQuery == s.userQuery
    ensures t.queryType == s.queryType && t.response == s.response
    ensures t.calculationResult == s.calculationResult && t.chatHistory == s.chatHistory
    ensures t.sessionId == s.sessionId
  {
    if s.userQuery == [] then s.(error := NoQueryError)
    else match ValidateQuery(PyStr(s.userQuery))
      case Reject(msg) => s.(error := msg)
      case Accept => s.(userQuery := Sanitize(s.userQuery))
  }

  /** An accepted query is replaced by its sanitised form and nothing else changes. */
  lemma InputStageAccepts(s: State)
    requires s.userQuery != [] && ValidateQuery(PyStr(s.userQuery)) == Accept
    ensures InputStage(s) == s.(userQuery := Sanitize(s.userQuery))
  {
  }

  /** An empty or refused query only records the error. */
  lemma InputStageRefuses(s: State, message: string)
    requires s.userQuery == [] ==> message == NoQueryError
    requires s.userQuery != [] ==> ValidateQuery(PyStr(s.userQuery)) == Reject(message)
    ensures InputStage(s) == s.(error := message)
  {
  }

  /** `decision_node`: classify the query. */
  function DecisionStage(s: State): (t: State)
    ensures t.queryType == "calculation" || t.queryType == "text"
    ensures t.userQuery == s.userQuery && t.response == s.response && t.error == s.error
    ensures t.calculationResult == s.calculationResult && t.chatHistory == s.chatHistory
    ensures t.sessionId == s.sessionId
  {
    s.(queryType := if IsCalculationQuery(s.userQuery) then "calculation" else "text")
  }

  /** `llm_node`: the model's reply, or an `LLM error: ...` and a fixed apology. */
  function LlmStage(s: State, llm: LanguageModel): (t: State)
    ensures t.userQuery == s.userQuery && t.queryType == s.queryType
    ensures t.calculationResult == s.calculationResult && t.chatHistory == s.chatHistory
    ensures t.sessionId == s.sessionId
  {
    match llm(s.userQuery, HistoryText(s.chatHistory))
    case Ok(reply) => s.(response := reply)
    case Err(e) => s.(error := "LLM error: " + e, response := LlmApology)
  }

  /** `tool_node`: evaluate the expression extracted from the query; on success record the
      result and announce it, on failure a `Calculation error: ...` and a fixed reply. */
  function ToolStage(s: State, evaluate: Evaluator): (t: State)
    ensures t.userQuery == s.userQuery && t.queryType == s.queryType
    ensures t.chatHistory == s.chatHistory && t.sessionId == s.sessionId
  {
    var expression := ExtractMathExpression(s.userQuery);
    match evaluate(expression)
    case Ok(result) =>
      s.(calculationResult := result, response := "The result of " + expression + " is " + result)
    case Err(e) => s.(error := "Calculation error: " + e, response := CalculationApology)
  }

  /** The two messages `memory_node` appends for the current exchange. */
  function ExchangeOf(s: State): seq<Message>
  {
    [Message("user", s.userQuery, Some(s.queryType)), Message("assistant", s.response, None)]
  }

  /** The last `n` elements of `xs`, or all of them when there are fewer (`xs[-n:]`). */
  function Last<T>(xs: seq<T>, n: nat): (r: seq<T>)
    ensures |r| == if |xs| < n then |xs| else n
    ensures r == xs[|xs| - |r|..]
  {
    if |xs| <= n then xs else xs[|xs| - n..]
  }

  /** `memory_node`: append the exchange, then keep only the latest twenty messages. */
  function MemoryStage(s: State): State
  {
    var h := s.chatHistory + ExchangeOf(s);
    s.(chatHistory := if |h| > MaxHistory then h[|h| - MaxHistory..] else h)
  }

  /** `output_node`: an empty response becomes the fixed fallback. */
  function OutputStage(s: State): (t: State)
    ensures t.response != []
    ensures t.userQuery == s.userQuery && t.queryType == s.queryType && t.error == s.error
    ensures t.calculationResult == s.calculationResult && t.chatHistory == s.chatHistory
    ensures t.sessionId == s.sessionId
  {
    if s.response == [] then s.(response := NoResponseFallback) else s
  }

  // ---------------------------------------------------------------------------------------
  // _format_chat_history

  /** One history line: `User: ...` for a user message, `Assistant: ...` for any other. */
  function Line(m: Message): string
  {
    (if m.kind == "user" then "User: " else "Assistant: ") + m.content
  }

  function Lines(ms: seq<Message>): (r: seq<string>)
    ensures |r| == |ms| && forall k :: 0 <= k < |ms| ==> r[k] == Line(ms[k])
  {
    seq(|ms|, k requires 0 <= k < |ms| => Line(ms[k]))
  }

  /** `sep.join(parts)`. */
  function Join(parts: seq<string>, sep: string): string
  {
    if parts == [] then []
    else if |parts| == 1 then parts[0]
    else parts[0] + sep + Join(parts[1..], sep)
  }

  /** `s.split('\n')`. */
  function SplitLines(s: string): (r: seq<string>)
    ensures |r| >= 1
    decreases |s|
  {
    var j := FindChar(s, '\n', 0);
    if j == |s| then [s] else [s[..j]] + SplitLines(s[j + 1..])
  }

  /** What `_format_chat_history` returns. */
  function HistoryText(history: seq<Message>): string
  {
    if history == [] then NoHistoryText else Join(Lines(Last(history, ContextMessages)), "\n")
  }

  lemma {:induction false} SplitJoin(parts: seq<string>)
    requires |parts| >= 1 && forall k :: 0 <= k < |parts| ==> '\n' !in parts[k]
    ensures SplitLines(Join(parts, "\n")) == parts
    decreases |parts|
  {
    var p := parts[0];
    if |parts| == 1 {
      FindCharAbsent(p);
      assert parts == [p];
    } else {
      var rest := Join(parts[1..], "\n");
      var s := p + "\n" + rest;
      assert Join(parts, "\n") == s;
      FindCharAfter(p, rest);
      assert s[..|p|] == p;
      assert s[|p| + 1..] == rest;
      SplitJoin(parts[1..]);
      assert parts == [p] + parts[1..];
    }
  }

  lemma {:induction false} FindCharAbsent(p: string)
    requires '\n' !in p
    ensures FindChar(p, '\n', 0) == |p|
  {
  }

  lemma {:induction false} FindCharAfter(p: string, rest: string)
    requires '\n' !in p
    ensures FindChar(p + "\n" + rest, '\n', 0) == |p|
  {
    var s := p + "\n" + rest;
    var j := FindChar(s, '\n', 0);
    assert s[|p|] == '\n';
    assert forall k :: 0 <= k < |p| ==> s[k] == p[k] && p[k] in p;
  }

  /** When no message content holds a newline, the formatted history splits back into exactly
      one line per message of the latest ten, in order. */
  lemma {:induction false} HistoryTextLines(history: seq<Message>)
    requires history != []
    requires forall k :: 0 <= k < |history| ==> '\n' !in history[k].content
    ensures var lines := SplitLines(HistoryText(history));
      && |lines| == (if |history| < ContextMessages then |history| else ContextMessages)
      && forall k :: 0 <= k < |lines| ==>
        lines[k] == Line(history[|history| - |lines| + k])
  {
    HistoryTextSplits(history);
    LinesOfLatest(history, SplitLines(HistoryText(history)));
  }

  /** The lines of the latest ten messages, one per message, in order. */
  lemma LinesOfLatest(history: seq<Message>, lines: seq<string>)
    requires lines == Lines(Last(history, ContextMessages))
    ensures |lines| == (if |history| < ContextMessages then |history| else ContextMessages)
    ensures forall k :: 0 <= k < |lines| ==> lines[k] == Line(history[|history| - |lines| + k])
  {
    var recent := Last(history, ContextMessages);
    forall k | 0 <= k < |lines| ensures lines[k] == Line(history[|history| - |lines| + k]) {
      assert recent[k] == history[|history| - |recent| + k];
    }
  }

  lemma {:induction false} HistoryTextSplits(history: seq<Message>)
    requires history != []
    requires forall k :: 0 <= k < |history| ==> '\n' !in history[k].content
    ensures SplitLines(HistoryText(history)) == Lines(Last(history, ContextMessages))
  {
    var recent := Last(history, ContextMessages);
    var lines := Lines(recent);
    forall k | 0 <= k < |lines| ensures '\n' !in lines[k] {
      assert recent[k] == history[|history| - |recent| + k];
      LineHasNoNewline(recent[k]);
    }
    SplitJoin(lines);
  }

  lemma {:induction false} LineHasNoNewline(m: Message)
    requires '\n' !in m.content
    ensures '\n' !in Line(m)
  {
    var prefix := if m.kind == "user" then "User: " else "Assistant: ";
    assert Line(m) == prefix + m.content;
    assert '\n' !in prefix;
  }

  /** Only the latest ten messages reach the language model. */
  lemma HistoryTextUsesLatestTen(history: seq<Message>)
    requires |history| > ContextMessages
    ensures HistoryText(history) == HistoryText(history[|history| - ContextMessages..])
  {
    var latest := history[|history| - ContextMessages..];
    assert Last(latest, ContextMessages) == latest == Last(history, ContextMessages);
  }

  // ---------------------------------------------------------------------------------------
  // _extract_math_expression

  /** The alternatives of `(calculate|compute|what is|solve|the|result|of|=|\?)`, in order. */
  const Fillers: seq<string> := ["calculate", "compute", "what is", "solve", "the", "result", "of", "=", "?"]

  /** Length of the first alternative, from the `k`-th on, that matches (ignoring ASCII case)
      at the start of `s`; 0 when none does. */
  function FillerLength(s: string, k: nat): (n: nat)
    requires k <= |Fillers|
    ensures n <= |s|
    ensures n > 0 ==> exists j :: k <= j < |Fillers| && n == |Fillers[j]| && At(Lower(s), 0, Fillers[j])
    decreases |Fillers| - k
  {
    if k == |Fillers| then 0
    else if At(Lower(s), 0, Fillers[k]) then |Fillers[k]|
    else FillerLength(s, k + 1)
  }

  /** Regex alternation is ordered: the length found is that of the FIRST alternative, in list
      order, that matches at the front, and it is 0 exactly when none of them does. */
  lemma FillerLengthIsFirstMatch(s: string)
    ensures FillerLength(s, 0) == 0 <==> NoFillerFrom(Lower(s), 0)
    ensures FillerLength(s, 0) > 0 ==>
      exists j :: 0 <= j < |Fillers| && FirstFillerAt(Lower(s), 0, j) && FillerLength(s, 0) == |Fillers[j]|
  {
    FirstMatchFromEach(s, 0);
  }

  lemma {:induction false} FirstMatchFromEach(s: string, k: nat)
    requires k <= |Fillers|
    ensures FirstMatchFrom(s, k)
    decreases |Fillers| - k
  {
    if k == |Fillers| {
      FirstFillerNone(s);
    } else if At(Lower(s), 0, Fillers[k]) {
      FirstFillerHere(s, k);
    } else {
      FirstMatchFromEach(s, k + 1);
      FirstFillerLater(s, k);
    }
  }

  /** The two promises of `FillerLengthIsFirstMatch` for the alternatives from the `k`-th on. */
  ghost predicate FirstMatchFrom(s: string, k: nat)
    requires k <= |Fillers|
  {
    && (FillerLength(s, k) == 0 <==> NoFillerFrom(Lower(s), k))
    && (FillerLength(s, k) > 0 ==>
         exists j :: k <= j < |Fillers| && FirstFillerAt(Lower(s), k, j) && FillerLength(s, k) == |Fillers[j]|)
  }

  lemma FirstFillerNone(s: string)
    ensures FirstMatchFrom(s, |Fillers|)
  {
  }

  lemma FirstFillerHere(s: string, k: nat)
    requires k < |Fillers| && At(Lower(s), 0, Fillers[k])
    ensures FirstMatchFrom(s, k)
  {
    FillerIsNonEmpty(k);
    NoFillerStep(Lower(s), k);
    assert FirstFillerAt(Lower(s), k, k);
  }

  lemma FirstFillerLater(s: string, k: nat)
    requires k < |Fillers| && !At(Lower(s), 0, Fillers[k])
    requires FirstMatchFrom(s, k + 1)
    ensures FirstMatchFrom(s, k)
  {
    var low := Lower(s);
    NoFillerStep(low, k);
    assert FillerLength(s, k) == FillerLength(s, k + 1);
    if FillerLength(s, k) > 0 {
      var j :| k + 1 <= j < |Fillers| && FirstFillerAt(low, k + 1, j) && FillerLength(s, k) == |Fillers[j]|;
      assert FirstFillerAt(low, k, j);
    }
  }

  /** None of the alternatives from the `k`-th on matches at the front of `low`. */
  ghost predicate NoFillerFrom(low: string, k: nat)
  {
    forall j :: k <= j < |Fillers| ==> !At(low, 0, Fillers[j])
  }

  lemma NoFillerStep(low: string, k: nat)
    requires k < |Fillers|
    ensures NoFillerFrom(low, k) <==> !At(low, 0, Fillers[k]) && NoFillerFrom(low, k + 1)
  {
  }

  lemma FillerIsNonEmpty(j: nat)
    requires j < |Fillers|
    ensures |Fillers[j]| > 0
  {
  }

  /** `Fillers[j]` matches at the front of `low`, and none of the alternatives from `k` up to it
      does. */
  ghost predicate FirstFillerAt(low: string, k: nat, j: nat)
    requires k <= j < |Fillers|
  {
    At(low, 0, Fillers[j]) && forall p :: k <= p < j ==> !At(low, 0, Fillers[p])
  }

  /** An `=` or `?` at the start of `s` is always matched, by a one-character alternative. */
  lemma {:induction false} SymbolIsFiller(s: string, k: nat)
    requires k <= 7 && s != [] && (s[0] == '=' || s[0] == '?')
    ensures FillerLength(s, k) == 1
    decreases 7 - k
  {
    var low := Lower(s);
    assert low[0] == s[0];
    if k < 7 {
      assert Fillers[k][0] != s[0];
      assert !At(low, 0, Fillers[k]);
      SymbolIsFiller(s, k + 1);
    } else {
      if s[0] == '=' {
        assert At(low, 0, Fillers[7]);
      } else {
        assert !At(low, 0, Fillers[7]);
        assert At(low, 0, Fillers[8]);
      }
    }
  }

  /** `re.sub(pattern, '', s, flags=re.IGNORECASE)`: scanning from the left, every match is
      deleted, also inside longer words. */
  function DeleteFillers(s: string): (r: string)
    ensures |r| <= |s|
    decreases |s|
  {
    if s == [] then []
    else
      var n := FillerLength(s, 0);
      if n > 0 then DeleteFillers(s[n..]) else [s[0]] + DeleteFillers(s[1..])
  }

  /** The deletion keeps only characters of its input, and never an `=` or a `?`. */
  lemma {:induction false} DeletionRemovesSymbols(s: string)
    ensures forall c :: c in DeleteFillers(s) ==> c in s && c != '=' && c != '?'
    decreases |s|
  {
    if s != [] {
      var n := FillerLength(s, 0);
      if n > 0 {
        DeletionRemovesSymbols(s[n..]);
        assert forall c :: c in s[n..] ==> c in s;
      } else {
        assert s[0] != '=' && s[0] != '?' by {
          if s[0] == '=' || s[0] == '?' {
            SymbolIsFiller(s, 0);
          }
        }
        DeletionRemovesSymbols(s[1..]);
        assert forall c :: c in s[1..] ==> c in s;
      }
    }
  }

  /** No filler alternative matches at any index before `i`. */
  ghost predicate NoFillerBefore(s: string, i: nat)
  {
    forall k :: 0 <= k < i && k <= |s| ==> FillerLength(s[k..], 0) == 0
  }

  lemma NoFillerBeforeShifts(s: string, i: nat)
    requires 0 < i <= |s| && NoFillerBefore(s, i)
    ensures FillerLength(s, 0) == 0 && NoFillerBefore(s[1..], i - 1)
  {
    assert s[0..] == s;
    forall k | 0 <= k < i - 1 && k <= |s| - 1
      ensures FillerLength(s[1..][k..], 0) == 0
    {
      assert s[1..][k..] == s[k + 1..];
    }
  }

  /** The characters before the first filler match survive the deletion, in order. */
  lemma {:induction false} DeleteFillersKeepsPrefix(s: string, i: nat)
    requires i <= |s| && NoFillerBefore(s, i)
    ensures DeleteFillers(s) == s[..i] + DeleteFillers(s[i..])
    decreases i
  {
    if i == 0 {
      assert s[..0] + DeleteFillers(s[0..]) == DeleteFillers(s);
    } else {
      NoFillerBeforeShifts(s, i);
      DeleteFillersKeepsPrefix(s[1..], i - 1);
      SplitFirst(s, i, DeleteFillers(s[i..]));
    }
  }

  /** The deletion keeps everything before the first filler match, deletes that match (the
      first alternative, in list order, that matches there), and carries on after it. */
  lemma {:induction false} DeleteFillersDeletesFirstMatch(s: string, i: nat)
    requires i <= |s| && NoFillerBefore(s, i)
    requires FillerLength(s[i..], 0) > 0
    ensures DeleteFillers(s) == s[..i] + DeleteFillers(s[i + FillerLength(s[i..], 0)..])
  {
    var u := s[i..];
    DeleteFillersKeepsPrefix(s, i);
    DeleteFillersDropsFront(u);
    SuffixOfSuffix(s, i, FillerLength(u, 0));
  }

  lemma SuffixOfSuffix(s: string, i: nat, n: nat)
    requires i + n <= |s|
    ensures s[i..][n..] == s[i + n..]
  {
  }

  /** A match at the front of the string is deleted whole. */
  lemma DeleteFillersDropsFront(s: string)
    requires FillerLength(s, 0) > 0
    ensures DeleteFillers(s) == DeleteFillers(s[FillerLength(s, 0)..])
  {
  }

  /** A string in which no filler alternative matches anywhere is left as it is. */
  lemma {:induction false} DeleteFillersKeepsUnmatched(s: string)
    requires NoFillerBefore(s, |s|)
    ensures DeleteFillers(s) == s
  {
    DeleteFillersKeepsPrefix(s, |s|);
    assert s[..|s|] == s;
  }

  /** An expression with no `=` or `?` and no whitespace at either end. */
  predicate CleanExpression(e: string)
  {
    '=' !in e && '?' !in e && (e == [] || (!IsSpace(e[0]) && !IsSpace(e[|e| - 1])))
  }

  /** What is left after the deletion and the strip is clean, and nothing is left of an empty
      query. */
  lemma {:induction false} StrippedDeletionShape(query: string)
    ensures CleanExpression(Strip(DeleteFillers(query)))
    ensures query == [] ==> Strip(DeleteFillers(query)) == []
  {
    StripKeepsChars(DeleteFillers(query));
    DeletionRemovesSymbols(query);
  }

  /** `_extract_math_expression`: delete the filler words and symbols, strip, and fall back to
      the query itself when nothing is left. */
  function ExtractMathExpression(query: string): (r: string)
    ensures r == [] <==> query == []
    ensures r == query || (r != [] && CleanExpression(r))
    ensures Strip(DeleteFillers(query)) != [] ==> r == Strip(DeleteFillers(query))
    ensures Strip(DeleteFillers(query)) == [] ==> r == query
  {
    var expression := Strip(DeleteFillers(query));
    StrippedDeletionShape(query);
    if expression == [] then query else expression
  }

  /** Deletion is by substring, not by word: `other` loses its `the`. */
  lemma {:induction false} ExtractDeletesInsideWords()
    ensures DeleteFillers("other") == "or"
  {
    var s := "other";
    OtherStartsWithNoFiller();
    assert s[1..] == "ther";
    TherStartsWithThe();
    assert s[1..][3..] == "r";
    LoneRIsKept();
  }

  lemma {:induction false} OtherStartsWithNoFiller()
    ensures FillerLength("other", 0) == 0
  {
    var s := "other";
    LowerKeepsLowercase(s);
    forall k | 0 <= k < |Fillers| ensures !At(Lower(s), 0, Fillers[k]) {
      var w := Fillers[k];
      if k == 6 {
        assert s[0..2][1] != w[1];
      } else if |w| <= |s| {
        assert s[0..|w|][0] != w[0];
      }
    }
    NoFiller(s, 0);
  }

  lemma {:induction false} TherStartsWithThe()
    ensures FillerLength("ther", 0) == 3
  {
    var t := "ther";
    LowerKeepsLowercase(t);
    assert !At(t, 0, Fillers[0]) && !At(t, 0, Fillers[1]);
    assert !At(t, 0, Fillers[2]) && !At(t, 0, Fillers[3]);
    assert At(t, 0, Fillers[4]);
  }

  lemma {:induction false} LoneRIsKept()
    ensures DeleteFillers("r") == "r"
  {
    var u := "r";
    LowerKeepsLowercase(u);
    forall k | 0 <= k < |Fillers| ensures !At(Lower(u), 0, Fillers[k]) {
      assert u[0] == 'r';
    }
    NoFiller(u, 0);
    assert u[1..] == [];
  }

  /** No alternative starts with `c`, in either case. */
  predicate Kept(c: char)
  {
    LowerChar(c) !in "cwstro=?"
  }

  /** Such a character at the front is kept by the deletion. */
  lemma {:induction false} KeptChar(s: string)
    requires s != [] && Kept(s[0])
    ensures DeleteFillers(s) == [s[0]] + DeleteFillers(s[1..])
  {
    var low := Lower(s);
    forall k | 0 <= k < |Fillers| ensures !At(low, 0, Fillers[k]) {
      var w := Fillers[k];
      assert w[0] in "cwstro=?";
      if |w| <= |low| {
        assert low[0..|w|][0] == low[0];
      }
    }
    NoFiller(s, 0);
  }

  lemma SplitFirst(s: string, n: nat, rest: string)
    requires 1 <= n <= |s|
    ensures s[1..][n - 1..] == s[n..]
    ensures [s[0]] + (s[1..][..n - 1] + rest) == s[..n] + rest
  {
    assert [s[0]] + s[1..][..n - 1] == s[..n];
  }

  /** A run of such characters is kept whole. */
  lemma {:induction false} KeptRun(s: string, n: nat)
    requires n <= |s|
    requires forall i :: 0 <= i < n ==> Kept(s[i])
    ensures DeleteFillers(s) == s[..n] + DeleteFillers(s[n..])
    decreases n
  {
    if n == 0 {
      assert s[..n] == [];
      assert s[n..] == s;
    } else {
      var t := s[1..];
      forall i | 0 <= i < n - 1 ensures Kept(t[i]) {
        assert t[i] == s[i + 1];
      }
      KeptRun(t, n - 1);
      KeptChar(s);
      SplitFirst(s, n, DeleteFillers(s[n..]));
    }
  }

  /** The documented query loses its leading `What is` and its `?`. */
  lemma {:induction false} DocumentedDeletion()
    ensures DeleteFillers("What is 5 + 3?") == " 5 + 3"
  {
    var q := "What is 5 + 3?";
    DocumentedLeadingFiller();
    DocumentedTailDeletion();
    DocumentedRest();
    SkipDeletion(q, 7, " 5 + 3?", " 5 + 3");
  }

  lemma DocumentedRest()
    ensures "What is 5 + 3?"[7..] == " 5 + 3?"
  {
  }

  /** Deleting from a string that starts with a filler of length `n` deletes from the rest. */
  lemma SkipDeletion(s: string, n: nat, rest: string, r: string)
    requires s != [] && FillerLength(s, 0) == n > 0
    requires s[n..] == rest && DeleteFillers(rest) == r
    ensures DeleteFillers(s) == r
  {
  }

  lemma {:induction false} DocumentedTailDeletion()
    ensures DeleteFillers(" 5 + 3?") == " 5 + 3"
  {
    var r := " 5 + 3?";
    forall i | 0 <= i < 6 ensures Kept(r[i]) {
      assert r[i] in " 5+3";
    }
    KeptRun(r, 6);
    var tail := r[6..];
    SymbolIsFiller(tail, 0);
    assert tail[1..] == [];
    assert DeleteFillers(tail) == [];
    assert DeleteFillers(r) == r[..6] + [];
  }

  lemma {:induction false} DocumentedLeadingFiller()
    ensures FillerLength("What is 5 + 3?", 0) == 7
  {
    var q := "What is 5 + 3?";
    DocumentedQueryLowered();
    var low := Lower(q);
    assert !At(low, 0, Fillers[0]) by { assert low[0..9][0] != 'c'; }
    assert !At(low, 0, Fillers[1]) by { assert low[0..7][0] != 'c'; }
    assert At(low, 0, Fillers[2]);
  }

  lemma {:induction false} DocumentedStrip()
    ensures Strip(" 5 + 3") == "5 + 3"
  {
    StripOfSpaced(" 5 + 3");
  }

  /** The documented example `What is 5 + 3?` is evaluated as `5 + 3`. */
  lemma {:induction false} DocumentedExpression()
    ensures ExtractMathExpression("What is 5 + 3?") == "5 + 3"
  {
    DocumentedDeletion();
    DocumentedStrip();
  }

  lemma {:induction false} NoFiller(s: string, k: nat)
    requires k <= |Fillers|
    requires forall j :: k <= j < |Fillers| ==> !At(Lower(s), 0, Fillers[j])
    ensures FillerLength(s, k) == 0
    decreases |Fillers| - k
  {
    if k < |Fillers| {
      NoFiller(s, k + 1);
    }
  }

  // ---------------------------------------------------------------------------------------
  // Properties of the stages

  /** `input_node` either records an error and keeps the query, or sanitises it. */
  lemma InputStageOutcome(s: State)
    ensures var t := InputStage(s);
      if s.userQuery == [] then t == s.(error := NoQueryError)
      else if ValidateQuery(PyStr(s.userQuery)).Reject? then
        t == s.(error := ValidateQuery(PyStr(s.userQuery)).message)
      else t == s.(userQuery := Sanitize(s.userQuery))
  {
  }

  /** `decision_node` answers `calculation` exactly for the queries the classifier accepts. */
  lemma DecisionStageRoutes(s: State)
    ensures DecisionStage(s).queryType == "calculation" <==> IsCalculationQuery(s.userQuery)
    ensures DecisionStage(s).queryType == "text" <==> !IsCalculationQuery(s.userQuery)
  {
  }

  /** A language-model failure never escapes: it becomes `error` plus the fixed apology. */
  lemma LlmStageAbsorbsFailure(s: State, llm: LanguageModel)
    ensures var t := LlmStage(s, llm);
      match llm(s.userQuery, HistoryText(s.chatHistory))
      case Ok(reply) => t.response == reply && t.error == s.error
      case Err(e) => t.response == LlmApology && t.error == "LLM error: " + e
  {
  }

  /** An evaluator failure never escapes; a success records the result and announces it with
      the extracted expression. */
  lemma ToolStageOutcome(s: State, evaluate: Evaluator)
    ensures var t := ToolStage(s, evaluate);
      var expression := ExtractMathExpression(s.userQuery);
      match evaluate(expression)
      case Ok(result) =>
        t.calculationResult == result && t.error == s.error &&
        t.response == "The result of " + expression + " is " + result
      case Err(e) =>
        t.response == CalculationApology && t.error == "Calculation error: " + e &&
        t.calculationResult == s.calculationResult
  {
    var expression := ExtractMathExpression(s.userQuery);
    match evaluate(expression)
    case Ok(result) =>
      assert ToolStage(s, evaluate) ==
        s.(calculationResult := result, response := "The result of " + expression + " is " + result);
    case Err(e) =>
      assert ToolStage(s, evaluate) == s.(error := "Calculation error: " + e, response := CalculationApology);
  }

  /** `memory_node` keeps the latest `min(|old| + 2, 20)` messages of the old history followed
      by the exchange, so the exchange is always its last two entries. */
  lemma {:induction false} MemoryStageKeepsLatest(s: State)
    ensures var h := MemoryStage(s).chatHistory;
      var n := |s.chatHistory| + 2;
      && |h| == (if n < MaxHistory then n else MaxHistory)
      && h == (s.chatHistory + ExchangeOf(s))[n - |h|..]
      && h[|h| - 2] == Message("user", s.userQuery, Some(s.queryType))
      && h[|h| - 1] == Message("assistant", s.response, None)
    ensures var t := MemoryStage(s);
      && t.userQuery == s.userQuery && t.queryType == s.queryType && t.response == s.response
      && t.error == s.error && t.calculationResult == s.calculationResult
      && t.sessionId == s.sessionId
  {
    KeepLatestOfAppended(s.chatHistory, ExchangeOf(s)[0], ExchangeOf(s)[1], MaxHistory);
  }

  /** Appending two items and keeping the latest `max` (at least two) of the result keeps the
      two items as the last entries. */
  lemma KeepLatestOfAppended<T>(xs: seq<T>, a: T, b: T, max: nat)
    requires max >= 2
    ensures var whole := xs + [a, b];
      var h := if |whole| > max then whole[|whole| - max..] else whole;
      var n := |xs| + 2;
      && |h| == (if n < max then n else max)
      && h == whole[n - |h|..]
      && h[|h| - 2] == a && h[|h| - 1] == b
  {
  }

  /** The exit stage always leaves a response, keeps a non-empty one, and is idempotent. */
  lemma OutputStageSettles(s: State)
    ensures OutputStage(s).response != []
    ensures s.response != [] ==> OutputStage(s) == s
    ensures OutputStage(OutputStage(s)) == OutputStage(s)
  {
  }

  // ---------------------------------------------------------------------------------------
  // The state object and the node methods

  /** `GraphState`, the dictionary the nodes update in place. */
  class GraphState {
    var userQuery: string
    var queryType: string
    var response: string
    var calculationResult: string
    var error: string
    var chatHistory: seq<Message>
    var sessionId: string

    function Snapshot(): State
      reads this
    {
      State(userQuery, queryType, response, calculationResult, error, chatHistory, sessionId)
    }

    constructor(s: State)
      ensures Snapshot() == s
    {
      userQuery := s.userQuery;
      queryType := s.queryType;
      response := s.response;
      calculationResult := s.calculationResult;
      error := s.error;
      chatHistory := s.chatHistory;
      sessionId := s.sessionId;
    }
  }

  /** `WorkflowNodes`: the node implementations, holding the language model and the
      evaluator. */
  class WorkflowNodes {
    const llm: LanguageModel
    const evaluate: Evaluator

    constructor(llm: LanguageModel, evaluate: Evaluator)
      ensures this.llm == llm && this.evaluate == evaluate
    {
      this.llm := llm;
      this.evaluate := evaluate;
    }

    static method InputNode(st: GraphState)
      modifies st
      ensures st.Snapshot() == InputStage(old(st.Snapshot()))
    {
      ghost var s0 := st.Snapshot();
      var query := st.userQuery;
      if query == [] {
        InputStageRefuses(s0, NoQueryError);
        st.error := NoQueryError;
        return;
      }
      var verdict := ValidateQuery(PyStr(query));
      if verdict.Reject? {
        InputStageRefuses(s0, verdict.message);
        st.error := verdict.message;
        return;
      }
      var sanitized := Sanitize(query);
      InputStageAccepts(s0);
      st.userQuery := sanitized;
    }

    static method DecisionNode(st: GraphState)
      modifies st
      ensures st.Snapshot() == DecisionStage(old(st.Snapshot()))
    {
      if IsCalculationQuery(st.userQuery) {
        st.queryType := "calculation";
      } else {
        st.queryType := "text";
      }
    }

    method LlmNode(st: GraphState)
      modifies st
      ensures st.Snapshot() == LlmStage(old(st.Snapshot()), llm)
    {
      var historyText := FormatChatHistory(st.chatHistory);
      var reply := llm(st.userQuery, historyText);
      if reply.Ok? {
        st.response := reply.value;
      } else {
        st.error := "LLM error: " + reply.message;
        st.response := LlmApology;
      }
    }

    method ToolNode(st: GraphState)
      modifies st
      ensures st.Snapshot() == ToolStage(old(st.Snapshot()), evaluate)
    {
      var expression := ExtractMathExpression(st.userQuery);
      var result := evaluate(expression);
      if result.Ok? {
        st.calculationResult := result.value;
        st.response := "The result of " + expression + " is " + result.value;
      } else {
        st.error := "Calculation error: " + result.message;
        st.response := CalculationApology;
      }
    }

    static method MemoryNode(st: GraphState)
      modifies st
      ensures st.Snapshot() == MemoryStage(old(st.Snapshot()))
    {
      st.chatHistory := st.chatHistory + [Message("user", st.userQuery, Some(st.queryType))];
      st.chatHistory := st.chatHistory + [Message("assistant", st.response, None)];
      if |st.chatHistory| > MaxHistory {
        st.chatHistory := st.chatHistory[|st.chatHistory| - MaxHistory..];
      }
    }

    static method OutputNode(st: GraphState)
      modifies st
      ensures st.Snapshot() == OutputStage(old(st.Snapshot()))
    {
      if st.response == [] {
        st.response := NoResponseFallback;
      }
    }

    /** `_format_chat_history`: one line per message of the latest ten, joined by newlines. */
    static method FormatChatHistory(history: seq<Message>) returns (text: string)
      ensures text == HistoryText(history)
    {
      if history == [] {
        return NoHistoryText;
      }
      var recent := Last(history, ContextMessages);
      var formatted: seq<string> := [];
      for i := 0 to |recent|
        invariant |formatted| == i
        invariant forall k :: 0 <= k < i ==> formatted[k] == Line(recent[k])
      {
        var role := if recent[i].kind == "user" then "User" else "Assistant";
        formatted := formatted + [role + ": " + recent[i].content];
      }
      assert formatted == Lines(recent);
      text := Join(formatted, "\n");
    }
  }
}
