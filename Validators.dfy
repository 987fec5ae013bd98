/** `QueryValidator`, `SessionValidator` and `validate_and_sanitize_query`: pure string checks.
    Every regular expression of the source is written out as a character-level predicate;
    where a pattern has a declarative reading (a span of the input with the shape the
    pattern describes), that reading is given as a ghost predicate and proved equivalent
    to the scanning predicate the model uses. Text is lower-cased before the harmful-content
    and calculation checks, exactly as the source does. */
module Validators {
  import opened Common
  import opened Text

  const MaxQueryLength := 5000
  const MinQueryLength := 1
  const MaxSessionIdLength := 255

  /** A Python argument as the validators see it: `None`, a `str`, or any other object
      (which Python may find truthy or falsy). */
  datatype PyArg = PyNone | PyStr(s: string) | PyOther(truthy: bool)

  /** The `(is_valid, error_message)` pair: `(True, None)` or `(False, message)`. */
  datatype Verdict = Accept | Reject(message: string)

  // ---------------------------------------------------------------------------------------
  // Harmful content: `<script[^>]*>.*?</script>`, `javascript:`, `on\w+\s*=`

  /** Declarative reading of `<script[^>]*>.*?</script>` matching at `i`: the opening tag is
      closed by the `>` at `k`, the closing tag starts at `m`, and no newline lies between
      them (`.` does not match a newline). */
  ghost predicate ScriptSpan(s: string, i: nat, k: nat, m: nat)
  {
    i + 7 <= k < m && At(s, i, "<script") && At(s, m, "</script>")
    && s[k] == '>'
    && (forall t :: i + 7 <= t < k ==> s[t] != '>')
    && (forall t :: k < t < m ==> s[t] != '\n')
  }

  /** A `</script>` starts at or after `i`, before any newline. */
  predicate CloseTagFrom(s: string, i: nat)
    requires i <= |s|
    decreases |s| - i
  {
    if At(s, i, "</script>") then true
    else if i == |s| || s[i] == '\n' then false
    else CloseTagFrom(s, i + 1)
  }

  /** `<script[^>]*>.*?</script>` matches at `i`: `[^>]*` runs to the first `>`, and the lazy
      `.*?` then needs a `</script>` before the next newline. */
  predicate ScriptAt(s: string, i: nat)
  {
    At(s, i, "<script")
    && var k := FindChar(s, '>', i + 7);
    k < |s| && CloseTagFrom(s, k + 1)
  }

  predicate HasScriptBlock(s: string)
  {
    exists i :: 0 <= i < |s| && ScriptAt(s, i)
  }

  /** Declarative reading of `on\w+\s*=` matching at `i`: one or more word characters end at
      `j`, whitespace runs from `j` to the `=` at `k`. */
  ghost predicate HandlerSpan(s: string, i: nat, j: nat, k: nat)
  {
    At(s, i, "on") && i + 2 < j <= k < |s| && s[k] == '='
    && (forall t :: i + 2 <= t < j ==> IsWordChar(s[t]))
    && (forall t :: j <= t < k ==> IsSpace(s[t]))
  }

  /** `on\w+\s*=` matches at `i`. Word characters, whitespace and `=` are disjoint classes, so
      the only match takes the whole run of word characters and then the whole run of
      whitespace. */
  predicate HandlerAt(s: string, i: nat)
  {
    At(s, i, "on")
    && var j := WordEnd(s, i + 2);
    j > i + 2 && var k := SpaceEnd(s, j);
    k < |s| && s[k] == '='
  }

  predicate HasEventHandler(s: string)
  {
    exists i :: 0 <= i < |s| && HandlerAt(s, i)
  }

  /** `_contains_harmful_content`: one of the three patterns occurs in the lower-cased query. */
  predicate ContainsHarmfulContent(query: string)
  {
    var q := Lower(query);
    HasScriptBlock(q) || Contains(q, "javascript:") || HasEventHandler(q)
  }

  lemma {:induction false} CloseTagFromSpec(s: string, i: nat)
    requires i <= |s|
    ensures CloseTagFrom(s, i) <==>
      exists m :: i <= m && At(s, m, "</script>") && forall t :: i <= t < m ==> s[t] != '\n'
    decreases |s| - i
  {
    if At(s, i, "</script>") {
    } else if i == |s| || s[i] == '\n' {
      forall m | i <= m && At(s, m, "</script>") ensures exists t :: i <= t < m && s[t] == '\n' {
        assert m != i;
        assert s[i] == '\n';
      }
    } else {
      CloseTagFromSpec(s, i + 1);
      if exists m :: i <= m && At(s, m, "</script>") && forall t :: i <= t < m ==> s[t] != '\n' {
        var m :| i <= m && At(s, m, "</script>") && forall t :: i <= t < m ==> s[t] != '\n';
        assert m != i;
        assert i + 1 <= m && forall t :: i + 1 <= t < m ==> s[t] != '\n';
      }
    }
  }

  /** The scanning predicate for the script pattern agrees with its declarative reading. */
  lemma {:induction false} ScriptAtSpec(s: string, i: nat)
    ensures ScriptAt(s, i) <==> exists k: nat, m: nat :: ScriptSpan(s, i, k, m)
  {
    if ScriptAt(s, i) {
      ScriptFound(s, i);
    }
    if exists k: nat, m: nat :: ScriptSpan(s, i, k, m) {
      var k: nat, m: nat :| ScriptSpan(s, i, k, m);
      SpanGivesScriptAt(s, i, k, m);
    }
  }

  lemma {:induction false} ScriptFound(s: string, i: nat)
    requires ScriptAt(s, i)
    ensures exists k: nat, m: nat :: ScriptSpan(s, i, k, m)
  {
    var k := FindChar(s, '>', i + 7);
    CloseTagFromSpec(s, k + 1);
    var m :| k + 1 <= m && At(s, m, "</script>") && forall t :: k + 1 <= t < m ==> s[t] != '\n';
    assert ScriptSpan(s, i, k, m);
  }

  lemma {:induction false} SpanGivesScriptAt(s: string, i: nat, k: nat, m: nat)
    requires ScriptSpan(s, i, k, m)
    ensures ScriptAt(s, i)
  {
    var f := FindChar(s, '>', i + 7);
    assert s[k] == '>' && (f < |s| ==> s[f] == '>');
    assert f == k;
    CloseTagFromSpec(s, k + 1);
    assert k + 1 <= m && At(s, m, "</script>") && forall t :: k + 1 <= t < m ==> s[t] != '\n';
  }

  /** The scanning predicate for the event-handler pattern agrees with its declarative
      reading. */
  lemma {:induction false} HandlerAtSpec(s: string, i: nat)
    ensures HandlerAt(s, i) <==> exists j: nat, k: nat :: HandlerSpan(s, i, j, k)
  {
    if At(s, i, "on") {
      var j := WordEnd(s, i + 2);
      if HandlerAt(s, i) {
        assert HandlerSpan(s, i, j, SpaceEnd(s, j));
      }
      if exists j': nat, k: nat :: HandlerSpan(s, i, j', k) {
        var j': nat, k: nat :| HandlerSpan(s, i, j', k);
        assert !IsWordChar(s[j']) by {
          if j' < k { assert IsSpace(s[j']); } else { assert s[j'] == '='; }
        }
        assert j' == j;
        assert SpaceEnd(s, j) == k;
      }
    }
  }

  /** Quirk of the pattern as written: `on\w+\s*=` also matches ordinary prose such as an
      assignment to a variable named `money`, so such a query is refused. */
  lemma {:induction false} OrdinaryAssignmentIsHarmful()
    ensures ContainsHarmfulContent("money = 2")
  {
    var q := Lower("money = 2");
    assert q == "money = 2";
    assert WordEnd(q, 3) == 5 by {
      assert IsWordChar(q[3]) && IsWordChar(q[4]) && !IsWordChar(q[5]);
    }
    assert SpaceEnd(q, 5) == 6;
    assert HandlerAt(q, 1);
  }

  // ---------------------------------------------------------------------------------------
  // validate_query

  /** `validate_query`: the checks run in order and the first that fails decides the message;
      both length checks look at the stripped query. */
  function ValidateQuery(query: PyArg): (v: Verdict)
    ensures v == Accept <==>
      query.PyStr? && MinQueryLength <= |Strip(query.s)| <= MaxQueryLength
      && !ContainsHarmfulContent(Strip(query.s))
    ensures query.PyNone? ==> v == Reject("Query cannot be None")
    ensures query.PyOther? ==> v == Reject("Query must be a string")
    ensures query.PyStr? && AllSpace(query.s) ==> v == Reject("Query is too short")
    ensures query.PyStr? && |Strip(query.s)| > MaxQueryLength ==>
      v == Reject("Query is too long (max 5000 characters)")
    ensures query.PyStr? && MinQueryLength <= |Strip(query.s)| <= MaxQueryLength &&
            ContainsHarmfulContent(Strip(query.s)) ==>
      v == Reject("Query contains potentially harmful content")
  {
    match query
    case PyNone => Reject("Query cannot be None")
    case PyOther(_) => Reject("Query must be a string")
    case PyStr(s) =>
      var q := Strip(s);
      if |q| < MinQueryLength then Reject("Query is too short")
      else if |q| > MaxQueryLength then Reject("Query is too long (max 5000 characters)")
      else if ContainsHarmfulContent(q) then Reject("Query contains potentially harmful content")
      else Accept
  }

  /** Whitespace around a query never changes the verdict. */
  lemma {:induction false} ValidateQueryIgnoresPadding(pre: string, s: string, post: string)
    requires AllSpace(pre) && AllSpace(post)
    ensures ValidateQuery(PyStr(pre + s + post)) == ValidateQuery(PyStr(s))
  {
    StripIgnoresPadding(pre, s, post);
  }

  // ---------------------------------------------------------------------------------------
  // is_calculation_query

  /** The operator class `[\+\-\*\/\^\%\(\)]`. */
  predicate IsOperatorChar(c: char)
  {
    c == '+' || c == '-' || c == '*' || c == '/' || c == '^' || c == '%' || c == '(' || c == ')'
  }

  /** The keywords the classifier looks for between word boundaries (`\bcalculate\b`, ...). */
  const CalculationKeywords: seq<string> :=
    ["calculate", "compute", "solve", "math", "sum of", "product of", "difference", "quotient"]

  /** Declarative reading of `\d+\s*[op]\s*\d+` matching: digits on `[a, b)`, whitespace on
      `[b, j)`, the operator at `j`, whitespace on `[j + 1, k)`, digits on `[k, e)`. */
  ghost predicate OperatorSpan(s: string, a: nat, b: nat, j: nat, k: nat, e: nat)
  {
    a < b <= j < k < e <= |s| && IsOperatorChar(s[j])
    && (forall t :: a <= t < b ==> IsDigit(s[t]))
    && (forall t :: b <= t < j ==> IsSpace(s[t]))
    && (forall t :: j + 1 <= t < k ==> IsSpace(s[t]))
    && (forall t :: k <= t < e ==> IsDigit(s[t]))
  }

  /** `\d+\s*[op]\s*\d+` has a match whose first digit run ends with the digit at `i`. */
  predicate OperatorAt(s: string, i: nat)
  {
    i < |s| && IsDigit(s[i])
    && var j := SpaceEnd(s, i + 1);
    j < |s| && IsOperatorChar(s[j])
    && var k := SpaceEnd(s, j + 1);
    k < |s| && IsDigit(s[k])
  }

  predicate HasOperatorBetweenNumbers(s: string)
  {
    exists i :: 0 <= i < |s| && OperatorAt(s, i)
  }

  lemma {:induction false} OperatorAtGivesSpan(s: string, i: nat)
    requires OperatorAt(s, i)
    ensures var j := SpaceEnd(s, i + 1); var k := SpaceEnd(s, j + 1);
      OperatorSpan(s, i, i + 1, j, k, k + 1)
  {
  }

  lemma {:induction false} SpanGivesOperatorAt(s: string, a: nat, b: nat, j: nat, k: nat, e: nat)
    requires OperatorSpan(s, a, b, j, k, e)
    ensures 0 <= b - 1 < |s| && OperatorAt(s, b - 1)
  {
    assert IsDigit(s[b - 1]);
    assert SpaceEnd(s, b) == j by {
      assert !IsSpace(s[j]);
    }
    assert SpaceEnd(s, j + 1) == k by {
      assert !IsSpace(s[k]);
    }
  }

  /** The scanning predicate for the operator pattern agrees with its declarative reading. */
  lemma {:induction false} OperatorSpec(s: string)
    ensures HasOperatorBetweenNumbers(s) <==>
      exists a: nat, b: nat, j: nat, k: nat, e: nat :: OperatorSpan(s, a, b, j, k, e)
  {
    if HasOperatorBetweenNumbers(s) {
      OperatorFound(s);
    }
    if exists a: nat, b: nat, j: nat, k: nat, e: nat :: OperatorSpan(s, a, b, j, k, e) {
      var a: nat, b: nat, j: nat, k: nat, e: nat :| OperatorSpan(s, a, b, j, k, e);
      SpanGivesOperatorAt(s, a, b, j, k, e);
    }
  }

  lemma {:induction false} OperatorFound(s: string)
    requires HasOperatorBetweenNumbers(s)
    ensures exists a: nat, b: nat, j: nat, k: nat, e: nat :: OperatorSpan(s, a, b, j, k, e)
  {
    var i :| 0 <= i < |s| && OperatorAt(s, i);
    OperatorAtGivesSpan(s, i);
  }

  /** `w` occurs at `i` between word boundaries (`\bw\b`, for a `w` that begins and ends with
      a word character). */
  predicate WordAt(s: string, i: nat, w: string)
  {
    At(s, i, w)
    && (i == 0 || !IsWordChar(s[i - 1]))
    && (i + |w| == |s| || !IsWordChar(s[i + |w|]))
  }

  /** `\bwhat is \d+` matches at `i`. */
  predicate WhatIsNumberAt(s: string, i: nat)
  {
    At(s, i, "what is ") && (i == 0 || !IsWordChar(s[i - 1]))
    && i + 8 < |s| && IsDigit(s[i + 8])
  }

  /** `is_calculation_query`: any of the ten indicator patterns occurs in the lower-cased
      query. */
  predicate IsCalculationQuery(query: string)
  {
    var q := Lower(query);
    HasOperatorBetweenNumbers(q)
    || (exists w, i :: w in CalculationKeywords && 0 <= i < |q| && WordAt(q, i, w))
    || (exists i :: 0 <= i < |q| && WhatIsNumberAt(q, i))
  }

  /** The example from the source's documentation: "What is 5 + 3?" is a calculation. */
  lemma {:induction false} DocumentedCalculation()
    ensures IsCalculationQuery("What is 5 + 3?")
  {
    var q := Lower("What is 5 + 3?");
    assert q == "what is 5 + 3?";
    assert SpaceEnd(q, 9) == 10;
    assert SpaceEnd(q, 11) == 12;
    assert OperatorAt(q, 8);
  }

  /** The empty query is not a calculation. */
  lemma {:induction false} NothingIsCalculation()
    ensures !IsCalculationQuery([])
  {
    assert Lower([]) == [];
  }

  /** Quirks of the indicator list as written: the bare word "math" is enough, and a hyphen
      between digits (a phone number) reads as subtraction. */
  lemma {:induction false} ClassifierQuirks()
    ensures IsCalculationQuery("math homework")
    ensures IsCalculationQuery("call 555-1234")
  {
    MathWordIsCalculation();
    PhoneNumberIsCalculation();
  }

  lemma {:induction false} MathWordIsCalculation()
    ensures IsCalculationQuery("math homework")
  {
    var q := Lower("math homework");
    assert q == "math homework";
    assert WordAt(q, 0, "math");
  }

  lemma {:induction false} PhoneNumberIsCalculation()
    ensures IsCalculationQuery("call 555-1234")
  {
    var p := Lower("call 555-1234");
    assert p == "call 555-1234";
    assert SpaceEnd(p, 8) == 8;
    assert SpaceEnd(p, 9) == 9;
    assert OperatorAt(p, 7);
  }

  // ---------------------------------------------------------------------------------------
  // sanitize_query

  /** The length of the `<[^>]+>` match that starts at `i`, or 0 when none does: `[^>]+` runs
      to the first `>` and must take at least one character. */
  function TagLengthAt(s: string, i: nat): (n: nat)
    requires i <= |s|
    ensures n > 0 ==> i + n <= |s| && n >= 3
  {
    if i < |s| && s[i] == '<' then
      var j := FindChar(s, '>', i + 1);
      if j < |s| && j >= i + 2 then j - i + 1 else 0
    else 0
  }

  /** `re.sub(r'<[^>]+>', '', s)`: scanning from the left, each match is deleted and the scan
      resumes after it. */
  function StripTags(s: string): (r: string)
    ensures |r| <= |s|
    ensures forall c :: c in r ==> c in s
    decreases |s|
  {
    if s == [] then []
    else
      var n := TagLengthAt(s, 0);
      if n > 0 then StripTags(s[n..]) else [s[0]] + StripTags(s[1..])
  }

  /** `re.sub(r'\s+', ' ', s)`: every run of whitespace becomes one space. */
  function CollapseSpaces(s: string): (r: string)
    ensures forall c :: c in r ==> c in s || c == ' '
    decreases |s|
  {
    if s == [] then []
    else if IsSpace(s[0]) then [' '] + CollapseSpaces(s[SpaceEnd(s, 0)..])
    else [s[0]] + CollapseSpaces(s[1..])
  }

  /** The whitespace run at the front of `w + t` ends exactly where `w` does. */
  lemma {:induction false} SpaceEndOfRun(w: string, t: string, i: nat)
    requires i <= |w| && AllSpace(w) && (t == [] || !IsSpace(t[0]))
    ensures SpaceEnd(w + t, i) == |w|
    decreases |w| - i
  {
    var s := w + t;
    if i < |w| {
      assert IsSpace(s[i]);
      SpaceEndOfRun(w, t, i + 1);
    } else if t != [] {
      assert s[i] == t[0];
    }
  }

  /** A whole run of whitespace, however long and whatever its characters, becomes exactly one
      plain space: it neither vanishes nor survives as it was. */
  lemma CollapseRunThenRest(w: string, t: string)
    requires w != [] && AllSpace(w) && (t == [] || !IsSpace(t[0]))
    ensures CollapseSpaces(w + t) == " " + CollapseSpaces(t)
  {
    var s := w + t;
    assert IsSpace(s[0]);
    SpaceEndOfRun(w, t, 0);
    assert s[|w|..] == t;
  }

  /** A run of non-whitespace characters is kept whole, and collapsing carries on after it. */
  lemma {:induction false} CollapseWordThenRest(w: string, t: string)
    requires forall k :: 0 <= k < |w| ==> !IsSpace(w[k])
    ensures CollapseSpaces(w + t) == w + CollapseSpaces(t)
    decreases |w|
  {
    if w == [] {
      assert w + t == t;
    } else {
      var s := w + t;
      assert !IsSpace(s[0]);
      assert s[1..] == w[1..] + t;
      CollapseWordThenRest(w[1..], t);
      assert w == [w[0]] + w[1..];
    }
  }

  /** Words separated by a space, a tab and a newline end up separated by one space. */
  lemma CollapseSeparatesWords()
    ensures CollapseSpaces("a \t\nb") == "a b"
  {
    CollapseWordThenRest("b", []);
    CollapseRunThenRest(" \t\n", "b");
    assert " \t\n" + "b" == " \t\nb";
    CollapseWordThenRest("a", " \t\nb");
    assert "a" + " \t\nb" == "a \t\nb";
  }

  /** `sanitize_query`: strip tags, collapse whitespace, strip the ends. */
  function Sanitize(query: string): string
  {
    Strip(CollapseSpaces(StripTags(query)))
  }

  /** A `<[^>]+>` span of `s` runs from the `<` at `i` to the `>` at `j`. */
  ghost predicate TagSpan(s: string, i: nat, j: nat)
  {
    i + 2 <= j < |s| && s[i] == '<' && s[j] == '>' && forall t :: i < t < j ==> s[t] != '>'
  }

  /** No `>` follows index `i` in `s`. */
  ghost predicate NoCloseAfter(s: string, i: nat)
  {
    forall t :: i < t < |s| ==> s[t] != '>'
  }

  /** The `<` at `i` is followed at once by `>` or by no `>` at all. */
  ghost predicate OpensNoTag(s: string, i: nat)
  {
    (i + 1 < |s| && s[i + 1] == '>') || NoCloseAfter(s, i)
  }

  /** Every `<` in `s` opens no tag. */
  ghost predicate TagFree(s: string)
  {
    forall i :: 0 <= i < |s| && s[i] == '<' ==> OpensNoTag(s, i)
  }

  /** Each whitespace character of `s` is a plain space, and no two are adjacent. */
  ghost predicate Collapsed(s: string)
  {
    forall i :: 0 <= i < |s| && IsSpace(s[i]) ==> s[i] == ' ' && (i + 1 == |s| || !IsSpace(s[i + 1]))
  }

  /** The non-whitespace characters of `s`, in order. */
  function NonSpace(s: string): (r: string)
    ensures |r| <= |s|
  {
    if s == [] then [] else (if IsSpace(s[0]) then [] else [s[0]]) + NonSpace(s[1..])
  }

  lemma {:induction false} TagFreeHasNoSpan(s: string, i: nat, j: nat)
    requires TagFree(s)
    ensures !TagSpan(s, i, j)
  {

  }

  lemma {:induction false} StripTagsTagFree(s: string)
    ensures TagFree(StripTags(s))
    decreases |s|
  {
    if s != [] {
      var n := TagLengthAt(s, 0);
      if n > 0 {
        StripTagsTagFree(s[n..]);
      } else {
        var rest := StripTags(s[1..]);
        StripTagsTagFree(s[1..]);
        var r := [s[0]] + rest;
        forall i | 0 <= i < |r| && r[i] == '<'
          ensures OpensNoTag(r, i)
        {
          if i > 0 {
            assert r[i] == rest[i - 1];
          } else {
            var j := FindChar(s, '>', 1);
            if j == |s| {
              forall t | i < t < |r| ensures r[t] != '>' {
                assert r[t] == rest[t - 1];
                assert r[t] in s[1..];
              }
            } else {
              assert j == 1;
              assert s[1..][0] == '>';
              assert TagLengthAt(s[1..], 0) == 0;
              assert rest == [s[1]] + StripTags(s[2..]) by {
                assert s[1..][1..] == s[2..];
              }
            }
          }
        }
      }
    }
  }

  lemma {:induction false} CollapseKeepsTagFree(s: string)
    requires TagFree(s)
    ensures TagFree(CollapseSpaces(s))
    decreases |s|
  {
    if s != [] {
      var r := CollapseSpaces(s);
      if IsSpace(s[0]) {
        var e := SpaceEnd(s, 0);
        assert TagFree(s[e..]) by {
          forall i | 0 <= i < |s[e..]| && s[e..][i] == '<'
            ensures OpensNoTag(s[e..], i)
          {
            assert s[e + i] == '<';
          }
        }
        CollapseKeepsTagFree(s[e..]);
        var rest := CollapseSpaces(s[e..]);
        forall i | 0 <= i < |r| && r[i] == '<'
          ensures OpensNoTag(r, i)
        {
          assert r[i] == rest[i - 1];
        }
      } else {
        assert TagFree(s[1..]) by {
          forall i | 0 <= i < |s[1..]| && s[1..][i] == '<'
            ensures OpensNoTag(s[1..], i)
          {
            assert s[1 + i] == '<';
          }
        }
        CollapseKeepsTagFree(s[1..]);
        var rest := CollapseSpaces(s[1..]);
        forall i | 0 <= i < |r| && r[i] == '<'
          ensures OpensNoTag(r, i)
        {
          if i > 0 {
            assert r[i] == rest[i - 1];
          } else if 1 < |s| && s[1] == '>' {
            assert s[1..][0] == '>';
            assert !IsSpace(s[1..][0]);
            assert rest[0] == '>';
          } else {
            assert forall t :: 0 < t < |s| ==> s[t] != '>';
            forall t | i < t < |r| ensures r[t] != '>' {
              assert r[t] == rest[t - 1];
              assert r[t] in s[1..] || r[t] == ' ';
            }
          }
        }
      }
    }
  }

  lemma {:induction false} CollapseIsCollapsed(s: string)
    ensures Collapsed(CollapseSpaces(s))
    decreases |s|
  {
    if s != [] {
      var r := CollapseSpaces(s);
      if IsSpace(s[0]) {
        var e := SpaceEnd(s, 0);
        CollapseIsCollapsed(s[e..]);
        var rest := CollapseSpaces(s[e..]);
        if rest != [] {
          assert !IsSpace(s[e..][0]);
          assert rest[0] == s[e];
        }
        forall i | 0 <= i < |r| && IsSpace(r[i])
          ensures r[i] == ' ' && (i + 1 == |r| || !IsSpace(r[i + 1]))
        {
          if i > 0 {
            assert r[i] == rest[i - 1];
          }
        }
      } else {
        CollapseIsCollapsed(s[1..]);
        var rest := CollapseSpaces(s[1..]);
        forall i | 0 <= i < |r| && IsSpace(r[i])
          ensures r[i] == ' ' && (i + 1 == |r| || !IsSpace(r[i + 1]))
        {
          assert r[i] == rest[i - 1];
        }
      }
    }
  }

  lemma {:induction false} NonSpaceOfBlankPrefix(s: string, e: nat)
    requires e <= |s| && forall k :: 0 <= k < e ==> IsSpace(s[k])
    ensures NonSpace(s) == NonSpace(s[e..])
    decreases e
  {
    if e > 0 {
      assert s[1..][e - 1..] == s[e..];
      NonSpaceOfBlankPrefix(s[1..], e - 1);
    }
  }

  lemma {:induction false} NonSpaceAppend(a: string, b: string)
    ensures NonSpace(a + b) == NonSpace(a) + NonSpace(b)
    decreases |a|
  {
    if a == [] {
      assert a + b == b;
    } else {
      assert (a + b)[0] == a[0];
      assert (a + b)[1..] == a[1..] + b;
      NonSpaceAppend(a[1..], b);
    }
  }

  lemma {:induction false} NonSpaceOfBlank(s: string)
    requires AllSpace(s)
    ensures NonSpace(s) == []
    decreases |s|
  {
    if s != [] {
      NonSpaceOfBlank(s[1..]);
    }
  }

  lemma {:induction false} CollapseKeepsNonSpace(s: string)
    ensures NonSpace(CollapseSpaces(s)) == NonSpace(s)
    decreases |s|
  {
    if s != [] {
      var r := CollapseSpaces(s);
      if IsSpace(s[0]) {
        var e := SpaceEnd(s, 0);
        CollapseKeepsNonSpace(s[e..]);
        NonSpaceOfBlankPrefix(s, e);
        NonSpaceAppend([' '], CollapseSpaces(s[e..]));
        assert NonSpace([' ']) == [];
      } else {
        CollapseKeepsNonSpace(s[1..]);
        NonSpaceAppend([s[0]], CollapseSpaces(s[1..]));
        assert NonSpace([s[0]]) == [s[0]];
      }
    }
  }

  /** Whitespace outside `[a, b)` carries no non-whitespace characters. */
  lemma {:induction false} NonSpaceOfPaddedSlice(s: string, a: nat, b: nat)
    requires a <= b <= |s|
    requires forall k :: 0 <= k < a ==> IsSpace(s[k])
    requires forall k :: b <= k < |s| ==> IsSpace(s[k])
    ensures NonSpace(s[a..b]) == NonSpace(s)
  {
    NonSpaceOfBlankPrefix(s, a);
    var t := s[a..];
    assert t[..b - a] == s[a..b];
    assert forall k :: b - a <= k < |t| ==> IsSpace(t[k]) by {
      forall k | b - a <= k < |t| ensures IsSpace(t[k]) {
        assert t[k] == s[a + k];
      }
    }
    NonSpaceOfBlankSuffix(t, b - a);
  }

  lemma {:induction false} NonSpaceOfBlankSuffix(t: string, m: nat)
    requires m <= |t| && forall k :: m <= k < |t| ==> IsSpace(t[k])
    ensures NonSpace(t[..m]) == NonSpace(t)
  {
    var back := t[m..];
    assert t == t[..m] + back;
    NonSpaceAppend(t[..m], back);
    assert AllSpace(back) by {
      forall k | 0 <= k < |back| ensures IsSpace(back[k]) {
        assert back[k] == t[m + k];
      }
    }
    NonSpaceOfBlank(back);
  }

  /** `strip()` removes only whitespace. */
  lemma {:induction false} StripKeepsNonSpace(s: string)
    ensures NonSpace(Strip(s)) == NonSpace(s)
  {
    var r := Strip(s);
    var a := LeadingSpaces(s);
    var b := a + |r|;
    assert r == s[a..b];
    NonSpaceOfPaddedSlice(s, a, b);
  }

  /** A slice of `s` whose surroundings are whitespace keeps `s`'s tag freedom. */
  lemma {:induction false} PaddedSliceKeepsTagFree(s: string, a: nat, b: nat)
    requires a <= b <= |s| && TagFree(s)
    requires forall k :: b <= k < |s| ==> IsSpace(s[k])
    ensures TagFree(s[a..b])
  {
    var r := s[a..b];
    forall i | 0 <= i < |r| && r[i] == '<' ensures OpensNoTag(r, i) {
      assert s[a + i] == '<' && OpensNoTag(s, a + i);
      if a + i + 1 < |s| && s[a + i + 1] == '>' {
        assert a + i + 1 < b by {
          assert !IsSpace(s[a + i + 1]);
        }
        assert r[i + 1] == s[a + i + 1];
      } else {
        forall t | i < t < |r| ensures r[t] != '>' {
          assert r[t] == s[a + t];
        }
      }
    }
  }

  /** Any slice of a collapsed string is collapsed. */
  lemma {:induction false} SliceKeepsCollapsed(s: string, a: nat, b: nat)
    requires a <= b <= |s| && Collapsed(s)
    ensures Collapsed(s[a..b])
  {
    var r := s[a..b];
    forall i | 0 <= i < |r| && IsSpace(r[i]) ensures r[i] == ' ' && (i + 1 == |r| || !IsSpace(r[i + 1])) {
      assert r[i] == s[a + i];
      if i + 1 < |r| {
        assert r[i + 1] == s[a + i + 1];
      }
    }
  }

  /** The guarantees of `sanitize_query`: no `<...>` span is left, no whitespace at either end,
      every inner whitespace run is one plain space, and the non-whitespace characters are
      exactly those of the query with its tags removed. */
  lemma {:induction false} SanitizeGuarantees(query: string)
    ensures var r := Sanitize(query);
      && (forall i, j :: !TagSpan(r, i, j))
      && (r == [] || (!IsSpace(r[0]) && !IsSpace(r[|r| - 1])))
      && Collapsed(r)
      && NonSpace(r) == NonSpace(StripTags(query))
  {
    var untagged := StripTags(query);
    var c := CollapseSpaces(untagged);
    StripTagsTagFree(query);
    CollapseKeepsTagFree(untagged);
    CollapseIsCollapsed(untagged);
    CollapseKeepsNonSpace(untagged);
    StripKeepsNonSpace(c);
    StripKeepsShape(c);
    var r := Strip(c);
    assert Sanitize(query) == r;
    forall i, j ensures !TagSpan(r, i, j) {
      TagFreeHasNoSpan(r, i, j);
    }
  }

  lemma {:induction false} StripKeepsShape(c: string)
    requires TagFree(c) && Collapsed(c)
    ensures TagFree(Strip(c)) && Collapsed(Strip(c))
  {
    var r := Strip(c);
    var a := LeadingSpaces(c);
    var b := a + |r|;
    assert b <= |c| && r == c[a..b];
    PaddedSliceKeepsTagFree(c, a, b);
    SliceKeepsCollapsed(c, a, b);
  }

  /** Tag stripping leaves a string without `<...>` spans as it is. */
  lemma {:induction false} StripTagsOfTagFree(s: string)
    requires TagFree(s)
    ensures StripTags(s) == s
    decreases |s|
  {
    if s != [] {
      if s[0] == '<' {
        var j := FindChar(s, '>', 1);
        if !(1 < |s| && s[1] == '>') {
          assert NoCloseAfter(s, 0);
          assert j == |s|;
        }
      }
      assert TagLengthAt(s, 0) == 0;
      TagFreeSuffix(s);
      StripTagsOfTagFree(s[1..]);
    }
  }

  /** A match looked for at `k` in `s` is the match looked for at `k - 1` once the first
      character is dropped. */
  lemma TagLengthShifts(s: string, k: nat)
    requires 1 <= k <= |s|
    ensures TagLengthAt(s[1..], k - 1) == TagLengthAt(s, k)
  {
  }

  /** No `<[^>]+>` match starts before index `i`. */
  ghost predicate NoMatchBefore(s: string, i: nat)
  {
    forall k :: 0 <= k < i && k <= |s| ==> TagLengthAt(s, k) == 0
  }

  lemma NoMatchBeforeShifts(s: string, i: nat)
    requires 0 < i <= |s| && NoMatchBefore(s, i)
    ensures TagLengthAt(s, 0) == 0 && NoMatchBefore(s[1..], i - 1)
  {
    forall k | 0 <= k < i - 1 && k <= |s| - 1
      ensures TagLengthAt(s[1..], k) == 0
    {
      TagLengthShifts(s, k + 1);
    }
  }

  /** Without a match at the front, the first character is kept. */
  lemma StripTagsKeepsFirst(s: string)
    requires s != [] && TagLengthAt(s, 0) == 0
    ensures StripTags(s) == [s[0]] + StripTags(s[1..])
  {
  }

  /** Tag removal keeps everything before the first `<[^>]+>` match, deletes that match, and
      carries on after it. */
  lemma StripTagsDeletesFirstTag(s: string, i: nat)
    requires i <= |s| && NoMatchBefore(s, i)
    requires TagLengthAt(s, i) > 0
    ensures StripTags(s) == s[..i] + StripTags(s[i + TagLengthAt(s, i)..])
  {
    var n := TagLengthAt(s, i);
    StripTagsKeepsPrefix(s, i);
    TagLengthAtSuffix(s, i);
    StripTagsDropsFront(s[i..]);
    assert s[i..][n..] == s[i + n..];
  }

  /** A match at the front of the string is deleted whole. */
  lemma StripTagsDropsFront(s: string)
    requires TagLengthAt(s, 0) > 0
    ensures StripTags(s) == StripTags(s[TagLengthAt(s, 0)..])
  {
  }

  /** Looking for a match at `i` is looking at the front of the suffix from `i`. */
  lemma TagLengthAtSuffix(s: string, i: nat)
    requires i <= |s|
    ensures TagLengthAt(s[i..], 0) == TagLengthAt(s, i)
  {
  }

  /** The characters before the first match survive tag removal, in order. */
  lemma {:induction false} StripTagsKeepsPrefix(s: string, i: nat)
    requires i <= |s| && NoMatchBefore(s, i)
    ensures StripTags(s) == s[..i] + StripTags(s[i..])
    decreases i
  {
    if i > 0 {
      var t := s[1..];
      NoMatchBeforeShifts(s, i);
      StripTagsKeepsFirst(s);
      StripTagsKeepsPrefix(t, i - 1);
      SuffixOfTail(s, i);
      ConsPrefix(s, i, StripTags(s[i..]));
    }
  }

  lemma SuffixOfTail(s: string, j: nat)
    requires 1 <= j <= |s|
    ensures s[1..][j - 1..] == s[j..]
  {
  }

  lemma ConsPrefix(s: string, i: nat, rest: string)
    requires 0 < i <= |s|
    ensures [s[0]] + (s[1..][..i - 1] + rest) == s[..i] + rest
  {
    assert [s[0]] + s[1..][..i - 1] == s[..i];
  }

  /** A string in which no `<[^>]+>` match starts is left as it is. */
  lemma {:induction false} StripTagsKeepsUnmatched(s: string)
    requires NoMatchBefore(s, |s|)
    ensures StripTags(s) == s
    decreases |s|
  {
    if s != [] {
      NoMatchBeforeShifts(s, |s|);
      StripTagsKeepsFirst(s);
      StripTagsKeepsUnmatched(s[1..]);
    }
  }

  lemma {:induction false} TagFreeSuffix(s: string)
    requires s != [] && TagFree(s)
    ensures TagFree(s[1..])
  {
    var r := s[1..];
    forall i | 0 <= i < |r| && r[i] == '<' ensures OpensNoTag(r, i) {
      assert s[i + 1] == '<';
      assert OpensNoTag(s, i + 1);
      if !(i + 1 < |r| && r[i + 1] == '>') {
        assert NoCloseAfter(s, i + 1);
        forall t | i < t < |r| ensures r[t] != '>' {
          assert r[t] == s[t + 1];
        }
      }
    }
  }

  /** Whitespace collapsing leaves an already collapsed string as it is. */
  lemma {:induction false} CollapseOfCollapsed(s: string)
    requires Collapsed(s)
    ensures CollapseSpaces(s) == s
    decreases |s|
  {
    if s != [] {
      var r := s[1..];
      CollapsedSuffix(s);
      CollapseOfCollapsed(r);
      if IsSpace(s[0]) {
        LoneSpaceEnd(s);
      }
      assert s == [s[0]] + r;
    }
  }

  lemma {:induction false} CollapsedSuffix(s: string)
    requires s != [] && Collapsed(s)
    ensures Collapsed(s[1..])
  {
    var r := s[1..];
    forall i | 0 <= i < |r| && IsSpace(r[i]) ensures r[i] == ' ' && (i + 1 == |r| || !IsSpace(r[i + 1])) {
      assert s[i + 1] == r[i];
    }
  }

  /** In a collapsed string a leading blank is a single plain space. */
  lemma {:induction false} LoneSpaceEnd(s: string)
    requires s != [] && Collapsed(s) && IsSpace(s[0])
    ensures s[0] == ' ' && SpaceEnd(s, 0) == 1
  {
    assert |s| == 1 || !IsSpace(s[1]);
    assert SpaceEnd(s, 1) == 1;
  }

  /** `sanitize_query` is idempotent: a sanitised query sanitises to itself. */
  lemma {:induction false} SanitizeIsIdempotent(query: string)
    ensures Sanitize(Sanitize(query)) == Sanitize(query)
  {
    var untagged := StripTags(query);
    var c := CollapseSpaces(untagged);
    var r := Strip(c);
    StripTagsTagFree(query);
    CollapseKeepsTagFree(untagged);
    CollapseIsCollapsed(untagged);
    StripKeepsShape(c);
    assert StripTags(r) == r by {
      StripTagsOfTagFree(r);
    }
    assert CollapseSpaces(r) == r by {
      CollapseOfCollapsed(r);
    }
    StripOfStripped(r);
  }

  /** The documented example query is accepted and is already in sanitised form. */
  lemma {:induction false} DocumentedQueryIsClean()
    ensures ValidateQuery(PyStr("What is 5 + 3?")) == Accept
    ensures Sanitize("What is 5 + 3?") == "What is 5 + 3?"
  {
    StripOfStripped("What is 5 + 3?");
    DocumentedQueryIsHarmless();
    DocumentedQueryIsSanitised();
  }

  lemma {:induction false} DocumentedQueryIsHarmless()
    ensures !ContainsHarmfulContent("What is 5 + 3?")
  {
    DocumentedQueryLowered();
    DocumentedQueryHasNoMarkup();
    DocumentedQueryHasNoHandler();
  }

  lemma {:induction false} DocumentedQueryLowered()
    ensures Lower("What is 5 + 3?") == "what is 5 + 3?"
  {
    var q := "What is 5 + 3?";
    LowerOfCapitalised(q);
    assert LowerChar(q[0]) == 'w';
    DocumentedLowerTail();
  }

  lemma DocumentedLowerTail()
    ensures ['w'] + "What is 5 + 3?"[1..] == "what is 5 + 3?"
  {
  }

  lemma {:induction false} DocumentedQueryHasNoMarkup()
    ensures !HasScriptBlock("what is 5 + 3?")
    ensures !Contains("what is 5 + 3?", "javascript:")
  {
    var low := "what is 5 + 3?";
    forall i | 0 <= i < |low| ensures !ScriptAt(low, i) {
      assert low[i] != '<';
    }
    forall i | 0 <= i <= |low| - 11 ensures !At(low, i, "javascript:") {
      assert low[i] != 'j';
    }
  }

  lemma {:induction false} DocumentedQueryHasNoHandler()
    ensures !HasEventHandler("what is 5 + 3?")
  {
    var low := "what is 5 + 3?";
    forall i | 0 <= i < |low| ensures low[i] != 'o' {
    }
    NoHandlerWithoutO(low);
  }

  /** The event-handler pattern needs an `o`. */
  lemma NoHandlerWithoutO(s: string)
    requires forall i :: 0 <= i < |s| ==> s[i] != 'o'
    ensures !HasEventHandler(s)
  {
    forall i | 0 <= i < |s| ensures !HandlerAt(s, i) {
      if i + 2 <= |s| {
        assert s[i..i + 2][0] == s[i];
      }
    }
  }

  lemma {:induction false} DocumentedQueryIsSanitised()
    ensures Sanitize("What is 5 + 3?") == "What is 5 + 3?"
  {
    var q := "What is 5 + 3?";
    DocumentedQueryIsTagFree();
    StripTagsOfTagFree(q);
    DocumentedQueryIsCollapsed();
    CollapseOfCollapsed(q);
    StripOfStripped(q);
  }

  lemma {:induction false} DocumentedQueryIsTagFree()
    ensures TagFree("What is 5 + 3?")
  {
    var q := "What is 5 + 3?";
    forall i | 0 <= i < |q| ensures q[i] != '<' {
    }
  }

  lemma {:induction false} DocumentedQueryIsCollapsed()
    ensures Collapsed("What is 5 + 3?")
  {
    var q := "What is 5 + 3?";
    forall i | 0 <= i < |q| && IsSpace(q[i]) ensures q[i] == ' ' && (i + 1 == |q| || !IsSpace(q[i + 1])) {
      assert i == 4 || i == 7 || i == 9 || i == 11;
    }
  }

  /** Validation looks at the stripped query but sanitising may remove more: a query that is
      nothing but a tag is accepted and sanitises to the empty string. */
  lemma {:induction false} TagOnlyQuerySanitisesToEmpty()
    ensures ValidateQuery(PyStr("<b>")) == Accept
    ensures Sanitize("<b>") == ""
  {
    TagOnlyQueryIsAccepted();
    TagOnlyQueryStripsToEmpty();
  }

  lemma {:induction false} TagOnlyQueryIsAccepted()
    ensures ValidateQuery(PyStr("<b>")) == Accept
  {
    TagOnlyQueryIsStripped();
    TagOnlyQueryIsHarmless();
  }

  lemma {:induction false} TagOnlyQueryIsStripped()
    ensures Strip("<b>") == "<b>"
  {
    var s := "<b>";
    assert !IsSpace(s[0]) && !IsSpace(s[|s| - 1]);
    StripOfStripped(s);
  }

  lemma {:induction false} TagOnlyQueryIsHarmless()
    ensures !ContainsHarmfulContent("<b>")
  {
    var s := "<b>";
    assert Lower(s) == s by {
      assert LowerChar('<') == '<' && LowerChar('b') == 'b' && LowerChar('>') == '>';
    }
    assert !HasEventHandler(s) by {
      forall i | 0 <= i < |s| ensures !HandlerAt(s, i) {
        assert s[i] != 'o';
      }
    }
    assert !HasScriptBlock(s) by {
      forall i | 0 <= i < |s| ensures !ScriptAt(s, i) {
        assert s[i..] != "<script" by {
          assert |s[i..]| < 7;
        }
      }
    }
    assert !Contains(s, "javascript:");
  }

  lemma {:induction false} TagOnlyQueryStripsToEmpty()
    ensures Sanitize("<b>") == ""
  {
    var s := "<b>";
    assert FindChar(s, '>', 1) == 2;
    assert TagLengthAt(s, 0) == 3;
    assert StripTags(s) == StripTags(s[3..]);
    assert s[3..] == [];
    assert CollapseSpaces([]) == [];
    assert Strip([]) == [];
  }

  // ---------------------------------------------------------------------------------------
  // validate_and_sanitize_query

  /** `validate_and_sanitize_query`: raises `ValidationError` (here `Err`) exactly when
      `validate_query` refuses, with its message; otherwise sanitises the ORIGINAL, unstripped
      query. */
  function ValidateAndSanitize(query: PyArg): (r: Result<string>)
    ensures r.Err? <==> ValidateQuery(query).Reject?
    ensures r.Err? ==> r.message == ValidateQuery(query).message
    ensures r.Ok? ==> query.PyStr? && r.value == Sanitize(query.s)
  {
    match ValidateQuery(query)
    case Reject(message) => Err(message)
    case Accept => Ok(Sanitize(query.s))
  }

  // ---------------------------------------------------------------------------------------
  // validate_session_id

  /** The class `[a-zA-Z0-9\-_]`. */
  predicate IsSessionIdChar(c: char)
  {
    IsAsciiLetter(c) || IsDigit(c) || c == '-' || c == '_'
  }

  predicate AllSessionIdChars(s: string)
  {
    forall i :: 0 <= i < |s| ==> IsSessionIdChar(s[i])
  }

  /** `re.match(r'^[a-zA-Z0-9\-_]+$', s)` as Python evaluates it: without MULTILINE, `$` matches
      at the end of the string and also just before a newline that ends it. */
  predicate MatchesSessionIdPattern(s: string)
  {
    (|s| >= 1 && AllSessionIdChars(s))
    || (|s| >= 2 && s[|s| - 1] == '\n' && AllSessionIdChars(s[..|s| - 1]))
  }

  /** `validate_session_id` exactly as written, including the trailing-newline acceptance of
      its `$` anchor. */
  function ValidateSessionIdAsWritten(sessionId: PyArg): (v: Verdict)
    ensures v == Accept <==>
      sessionId.PyStr? && 1 <= |sessionId.s| <= MaxSessionIdLength
      && MatchesSessionIdPattern(sessionId.s)
  {
    match sessionId
    case PyNone => Reject("Session ID is required")
    case PyOther(truthy) =>
      if !truthy then Reject("Session ID is required") else Reject("Session ID must be a string")
    case PyStr(s) =>
      if s == [] then Reject("Session ID is required")
      else if |s| > MaxSessionIdLength then Reject("Session ID is too long")
      else if !MatchesSessionIdPattern(s) then Reject("Session ID contains invalid characters")
      else Accept
  }

  /** `validate_session_id` as intended: the whole identifier must be made of letters, digits,
      hyphens and underscores (a full match). */
  function ValidateSessionId(sessionId: PyArg): (v: Verdict)
    ensures v == Accept <==>
      sessionId.PyStr? && 1 <= |sessionId.s| <= MaxSessionIdLength
      && AllSessionIdChars(sessionId.s)
    ensures sessionId.PyNone? || sessionId == PyOther(false) || sessionId == PyStr([]) ==>
      v == Reject("Session ID is required")
    ensures sessionId == PyOther(true) ==> v == Reject("Session ID must be a string")
    ensures sessionId.PyStr? && |sessionId.s| > MaxSessionIdLength ==> v == Reject("Session ID is too long")
    ensures v.Reject? && sessionId.PyStr? && 1 <= |sessionId.s| <= MaxSessionIdLength ==>
      v.message == "Session ID contains invalid characters"
  {
    match sessionId
    case PyNone => Reject("Session ID is required")
    case PyOther(truthy) =>
      if !truthy then Reject("Session ID is required") else Reject("Session ID must be a string")
    case PyStr(s) =>
      if s == [] then Reject("Session ID is required")
      else if |s| > MaxSessionIdLength then Reject("Session ID is too long")
      else if !AllSessionIdChars(s) then Reject("Session ID contains invalid characters")
      else Accept
  }

  /** The as-written validator accepts an identifier with a trailing newline, which the
      intended one refuses; that is the only kind of input on which they differ. */
  lemma {:induction false} SessionIdTrailingNewline(sessionId: PyArg)
    ensures ValidateSessionIdAsWritten(PyStr("abc\n")) == Accept
    ensures ValidateSessionId(PyStr("abc\n")) == Reject("Session ID contains invalid characters")
    ensures ValidateSessionIdAsWritten(sessionId) != ValidateSessionId(sessionId) ==>
      sessionId.PyStr? && |sessionId.s| >= 2 && sessionId.s[|sessionId.s| - 1] == '\n'
      && !AllSessionIdChars(sessionId.s)
  {
    var s := "abc\n";
    assert AllSessionIdChars(s[..3]);
    assert !IsSessionIdChar(s[3]);
  }
}
