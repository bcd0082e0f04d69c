/** The calculator path: how `tool_node` picks the expression out of the
    query (Agent.py:336-344) and how `calculator` sanitises it (Agent.py:110-127).

    Digits are the ASCII digits '0'..'9' (Python's `\d` also matches other
    Unicode decimal digits); whitespace is Python's `str.isspace()` set.
    Evaluation is a parameter: `eval` maps the sanitised expression to the
    text of its value, or to `None` when Python's `eval` raises. */
module CalculatorTool {
  import opened Wrappers
  import opened Text

  /** The regular-expression class of digits, `+ - * / ( ) .` and whitespace,
      used both to find and to sanitise. */
  predicate IsAllowed(c: char)
  {
    IsDigit(c) || c in "+-*/()." || IsSpace(c)
  }

  predicate AllAllowed(s: string)
  {
    forall k :: 0 <= k < |s| ==> IsAllowed(s[k])
  }

  /** Index of the first allowed character at or after `from`, or `|q|`. */
  function FirstAllowed(q: string, from: nat): (i: nat)
    requires from <= |q|
    ensures from <= i <= |q|
    ensures forall k :: from <= k < i ==> !IsAllowed(q[k])
    ensures i < |q| ==> IsAllowed(q[i])
    decreases |q| - from
  {
    if from == |q| || IsAllowed(q[from]) then from else FirstAllowed(q, from + 1)
  }

  /** End of the run of allowed characters that starts at `from`. */
  function RunEnd(q: string, from: nat): (j: nat)
    requires from <= |q|
    ensures from <= j <= |q|
    ensures forall k :: from <= k < j ==> IsAllowed(q[k])
    ensures j < |q| ==> !IsAllowed(q[j])
    decreases |q| - from
  {
    if from == |q| || !IsAllowed(q[from]) then from else RunEnd(q, from + 1)
  }

  /** `re.search` with one or more of the allowed class: the leftmost, longest
      run of allowed characters, or no match when `q` has none. */
  function ExpressionMatch(q: string): (m: Option<string>)
    ensures m == None <==> forall k :: 0 <= k < |q| ==> !IsAllowed(q[k])
    ensures m.Some? ==> exists i, j :: (0 <= i < j <= |q| && m.value == q[i..j]
                                        && (forall k :: 0 <= k < i ==> !IsAllowed(q[k]))
                                        && AllAllowed(q[i..j])
                                        && (j == |q| || !IsAllowed(q[j])))
  {
    var i := FirstAllowed(q, 0);
    if i == |q| then None
    else
      var j := RunEnd(q, i);
      assert AllAllowed(q[i..j]) by {
        forall k | 0 <= k < j - i ensures IsAllowed(q[i..j][k]) { assert q[i..j][k] == q[i + k]; }
      }
      Some(q[i..j])
  }

  /** What `tool_node` hands to the calculator: the stripped match, or the
      whole query when nothing matched. */
  function CalculatorInput(query: string): string
  {
    match ExpressionMatch(query)
    case Some(m) => Strip(m)
    case None => query
  }

  /** `re.sub` of the complement class by the empty string: keep exactly the
      allowed characters. */
  function Sanitise(s: string): (r: string)
    ensures AllAllowed(r)
    ensures |r| <= |s|
  {
    if s == [] then []
    else if IsAllowed(s[0]) then [s[0]] + Sanitise(s[1..])
    else Sanitise(s[1..])
  }

  /** `a` can be obtained from `b` by deleting characters. */
  predicate IsSubsequence(a: string, b: string)
    decreases |b|
  {
    a == [] || (b != [] && if a[0] == b[0] then IsSubsequence(a[1..], b[1..]) else IsSubsequence(a, b[1..]))
  }

  /** The sanitiser deletes characters and never reorders them. */
  lemma {:induction false} SanitiseIsSubsequence(s: string)
    ensures IsSubsequence(Sanitise(s), s)
  {
    if s != [] {
      SanitiseIsSubsequence(s[1..]);
      var r := Sanitise(s[1..]);
      if !IsAllowed(s[0]) && r != [] {
        assert r[0] != s[0];
      }
    }
  }

  /** Every allowed character is kept as often as it occurs, every other one
      is dropped. */
  lemma {:induction false} SanitiseCounts(s: string)
    ensures forall c :: multiset(Sanitise(s))[c] == if IsAllowed(c) then multiset(s)[c] else 0
  {
    if s != [] {
      SanitiseCounts(s[1..]);
      assert s == [s[0]] + s[1..];
      assert multiset(s) == multiset{s[0]} + multiset(s[1..]);
    }
  }

  /** Sanitising works character by character. */
  lemma {:induction false} SanitiseAppend(a: string, b: string)
    ensures Sanitise(a + b) == Sanitise(a) + Sanitise(b)
  {
    if a == [] {
      assert a + b == b;
    } else {
      var ab := a + b;
      assert ab[0] == a[0] && ab[1..] == a[1..] + b;
      SanitiseAppend(a[1..], b);
      var head := if IsAllowed(a[0]) then [a[0]] else [];
      assert Sanitise(ab) == head + Sanitise(a[1..] + b);
      assert Sanitise(a) == head + Sanitise(a[1..]);
    }
  }

  /** A string made only of allowed characters is left unchanged. */
  lemma {:induction false} SanitiseKeepsAllowed(s: string)
    requires AllAllowed(s)
    ensures Sanitise(s) == s
  {
    if s != [] {
      SanitiseKeepsAllowed(s[1..]);
    }
  }

  lemma SanitiseIdempotent(s: string)
    ensures Sanitise(Sanitise(s)) == Sanitise(s)
  {
    SanitiseKeepsAllowed(Sanitise(s));
  }

  const EmptyExpressionError := "错误：未提供有效的数学表达式"
  const EvaluationError := "错误：无法计算该表达式，请确保表达式格式正确"
  const ResultPrefix := "计算结果: "

  /** The `calculator` tool. */
  function Calculate(expression: string, eval: string -> Option<string>): (r: string)
    ensures AllSpace(Sanitise(expression)) ==> r == EmptyExpressionError
    ensures !AllSpace(Sanitise(expression)) && eval(Sanitise(expression)).Some? ==>
      r == ResultPrefix + Sanitise(expression) + " = " + eval(Sanitise(expression)).value
    ensures StartsWith(r, ResultPrefix + Sanitise(expression) + " = ")
      <==> !AllSpace(Sanitise(expression)) && eval(Sanitise(expression)).Some?
    ensures !AllSpace(Sanitise(expression)) && eval(Sanitise(expression)).None? ==> r == EvaluationError
  {
    var safe := Sanitise(expression);
    var echo := ResultPrefix + safe + " = ";
    assert echo[0] == '计';
    if Strip(safe) == [] then
      assert !StartsWith(EmptyExpressionError, echo) by { assert EmptyExpressionError[0] == '错'; }
      EmptyExpressionError
    else match eval(safe)
      case Some(v) =>
        assert (echo + v)[..|echo|] == echo;
        echo + v
      case None =>
        assert !StartsWith(EvaluationError, echo) by { assert EvaluationError[0] == '错'; }
        EvaluationError
  }

  /** When the query holds an arithmetic run that is not just whitespace and
      it evaluates, the calculator's answer echoes exactly the stripped run:
      the sanitiser has nothing left to remove. */
  lemma EchoesExtractedExpression(query: string, eval: string -> Option<string>)
    requires ExpressionMatch(query).Some? && !AllSpace(ExpressionMatch(query).value)
    requires eval(Strip(ExpressionMatch(query).value)).Some?
    ensures Calculate(CalculatorInput(query), eval)
      == ResultPrefix + Strip(ExpressionMatch(query).value) + " = " + eval(Strip(ExpressionMatch(query).value)).value
  {
    var m := ExpressionMatch(query).value;
    var e := Strip(m);
    assert AllAllowed(e) by {
      var i, j :| 0 <= i <= j <= |m| && e == m[i..j] && AllSpace(m[..i]) && AllSpace(m[j..]);
      forall k | 0 <= k < |e| ensures IsAllowed(e[k]) { assert e[k] == m[i + k]; }
    }
    SanitiseKeepsAllowed(e);
  }

  /** A query without a single allowed character is passed whole and is
      rejected as empty. */
  lemma NoMatchIsRejected(query: string, eval: string -> Option<string>)
    requires ExpressionMatch(query).None?
    ensures Calculate(CalculatorInput(query), eval) == EmptyExpressionError
  {
    SanitiseNothingAllowed(query);
  }

  lemma {:induction false} SanitiseNothingAllowed(s: string)
    requires forall k :: 0 <= k < |s| ==> !IsAllowed(s[k])
    ensures Sanitise(s) == []
  {
    if s != [] {
      SanitiseNothingAllowed(s[1..]);
    }
  }

  /** A leftmost run made only of whitespace (a lone space before any digit)
      is stripped to nothing and rejected. */
  lemma SpaceRunIsRejected(query: string, eval: string -> Option<string>)
    requires ExpressionMatch(query).Some? && AllSpace(ExpressionMatch(query).value)
    ensures Calculate(CalculatorInput(query), eval) == EmptyExpressionError
  {
  }

  /** "what is 2+2": the first run is the space after "what", so the
      calculator reports an empty expression instead of evaluating "2+2". */
  lemma EnglishQueryIsRejected(eval: string -> Option<string>)
    ensures Calculate(CalculatorInput("what is 2+2"), eval) == EmptyExpressionError
  {
    var q := "what is 2+2";
    assert FirstAllowed(q, 0) == 4 by {
      assert FirstAllowed(q, 3) == FirstAllowed(q, 4);
    }
    assert RunEnd(q, 4) == 5;
    SpaceRunIsRejected(q, eval);
  }

  /** "计算 25 * 4 + 100": the run starts at the space after the Chinese
      characters and reaches the end of the query; stripping leaves the
      expression. */
  lemma ChineseQueryExtractsExpression()
    ensures CalculatorInput("计算 25 * 4 + 100") == "25 * 4 + 100"
  {
    var q := "计算 25 * 4 + 100";
    var e := "25 * 4 + 100";
    assert q[2..] == " " + e;
    assert FirstAllowed(q, 0) == 2 by {
      assert !IsAllowed(q[0]) && !IsAllowed(q[1]) && IsAllowed(q[2]);
    }
    assert AllAllowed(q[2..]) by {
      assert AllAllowed(e);
    }
    RunEndOfAllowedSuffix(q, 2);
    assert q[2..|q|] == q[2..];
    assert ExpressionMatch(q) == Some(" " + e);
    assert StripStart(" " + e) == e by {
      assert (" " + e)[1..] == e;
      assert !IsSpace(e[0]);
    }
    assert StripEnd(e) == e by {
      assert !IsSpace(e[|e| - 1]);
    }
  }

  lemma {:induction false} RunEndOfAllowedSuffix(q: string, from: nat)
    requires from <= |q| && AllAllowed(q[from..])
    ensures RunEnd(q, from) == |q|
    decreases |q| - from
  {
    if from < |q| {
      assert IsAllowed(q[from..][0]);
      assert q[from + 1..] == q[from..][1..];
      RunEndOfAllowedSuffix(q, from + 1);
    }
  }
}
