/**
 * The response handling of the AI client (src/lib/ai.ts).
 *
 * Each request to the hosted model is an input here (`Call`): it either
 * threw or returned a completion. `JSON.parse` is the function parameter
 * `parse`, which yields None where the real one throws. What is modelled is
 * the tolerant extraction that follows every call: cut out the text that the
 * regular expression /\{[\s\S]*\}/ (or /\[[\s\S]*\]/) matches, parse it, and
 * turn every failure into a fixed sentinel.
 */
module AI {
  import opened Wrappers

  /**
   * The reply `getAICoachResponse` gives when the request fails. It is written
   * as three short literals so that the verifier can decide `'{' !in Apology`.
   */
  const Apology := "I'm having trouble connecting " + "to my AI core right now. " + "Let's try again in a moment."

  /** A completion: the message content of each choice, None where it is null. */
  datatype Completion = Completion(choices: seq<Option<string>>)

  /** One request to the model service: it threw, or it returned a completion. */
  datatype Call = Threw | Returned(completion: Completion)

  // ---------------------------------------------------------------------
  // What the regular expression /open[\s\S]*close/ matches
  // ---------------------------------------------------------------------

  /** `s[p..q+1]` is a match: it starts with `open`, ends with a later `close`, anything between. */
  ghost predicate MatchAt(s: string, open: char, close: char, p: int, q: int) {
    0 <= p < q < |s| && s[p] == open && s[q] == close
  }

  /** The match a JavaScript regular expression reports: the leftmost start, then the longest (greedy) end. */
  ghost predicate IsRegexMatch(s: string, open: char, close: char, p: int, q: int) {
    && MatchAt(s, open, close, p, q)
    && (forall p', q' :: MatchAt(s, open, close, p', q') ==> p <= p')
    && (forall q' :: MatchAt(s, open, close, p, q') ==> q' <= q)
  }

  /** The position of the first `c` in `s`. */
  function FirstIndex(s: string, c: char): (r: Option<nat>)
    ensures r.None? <==> c !in s
    ensures r.Some? ==> r.value < |s| && s[r.value] == c && c !in s[..r.value]
  {
    if s == [] then None
    else if s[0] == c then Some(0)
    else match FirstIndex(s[1..], c)
      case None => None
      case Some(i) =>
        assert s[..i + 1] == [s[0]] + s[1..][..i];
        Some(i + 1)
  }

  /** The position of the last `c` in `s`. */
  function LastIndex(s: string, c: char): (r: Option<nat>)
    ensures r.None? <==> c !in s
    ensures r.Some? ==> r.value < |s| && s[r.value] == c && c !in s[r.value + 1..]
  {
    if s == [] then None
    else if s[|s| - 1] == c then Some(|s| - 1)
    else match LastIndex(s[..|s| - 1], c)
      case None => None
      case Some(j) =>
        assert s[j + 1..] == s[..|s| - 1][j + 1..] + [s[|s| - 1]];
        Some(j)
  }

  /** Every match lies between the first `open` and the last `close`. */
  lemma MatchWithinExtremes(s: string, open: char, close: char, p: int, q: int)
    requires MatchAt(s, open, close, p, q)
    ensures FirstIndex(s, open).Some? && FirstIndex(s, open).value <= p
    ensures LastIndex(s, close).Some? && q <= LastIndex(s, close).value
  {
  }

  /**
   * `s.match(/open[\s\S]*close/)?.[0]`: the text from the first `open` to
   * the last `close`, or None when no `close` follows the first `open`.
   */
  function Span(s: string, open: char, close: char): (r: Option<string>)
    ensures r.None? <==> forall p, q :: !MatchAt(s, open, close, p, q)
    ensures r.Some? ==> exists p, q :: IsRegexMatch(s, open, close, p, q) && r.value == s[p..q + 1]
  {
    var f, l := FirstIndex(s, open), LastIndex(s, close);
    if f.Some? && l.Some? && f.value < l.value then
      assert IsRegexMatch(s, open, close, f.value, l.value) by {
        forall p', q' | MatchAt(s, open, close, p', q') ensures f.value <= p' {
          MatchWithinExtremes(s, open, close, p', q');
        }
        forall q' | MatchAt(s, open, close, f.value, q') ensures q' <= l.value {
          MatchWithinExtremes(s, open, close, f.value, q');
        }
      }
      Some(s[f.value..l.value + 1])
    else
      assert forall p, q :: !MatchAt(s, open, close, p, q) by {
        forall p, q | MatchAt(s, open, close, p, q) ensures false {
          MatchWithinExtremes(s, open, close, p, q);
        }
      }
      None
  }

  /** Nothing before the match is an `open` and nothing after it is a `close`. */
  lemma {:induction false} RegexMatchIsolated(s: string, open: char, close: char, p: int, q: int)
    requires IsRegexMatch(s, open, close, p, q)
    ensures open !in s[..p] && close !in s[q + 1..]
    ensures s[p..q + 1][0] == open && s[p..q + 1][q - p] == close
  {
    if open in s[..p] {
      var k :| 0 <= k < p && s[..p][k] == open;
      assert MatchAt(s, open, close, k, q);
    }
    if close in s[q + 1..] {
      var k :| 0 <= k < |s| - q - 1 && s[q + 1..][k] == close;
      assert MatchAt(s, open, close, p, q + 1 + k);
    }
  }

  /**
   * An object surrounded by prose is cut out exactly, provided the prose
   * before it has no `open` and the prose after it has no `close`.
   */
  lemma {:induction false} SpanAroundProse(prose: string, body: string, tail: string, open: char, close: char)
    requires open !in prose && close !in tail
    requires |body| >= 2 && body[0] == open && body[|body| - 1] == close
    ensures Span(prose + body + tail, open, close) == Some(body)
  {
    var s := prose + body + tail;
    var p0, q0 := |prose|, |prose| + |body| - 1;
    var r := Span(s, open, close);
    assert MatchAt(s, open, close, p0, q0);
    assert r.Some?;
    var p, q :| IsRegexMatch(s, open, close, p, q) && r.value == s[p..q + 1];
    assert s[p0..q0 + 1] == body;
  }

  /**
   * The match is greedy: two objects in one reply are cut out together with
   * the text between them, so the parse sees both as one text.
   */
  lemma TwoObjectsGiveOneSpan(first: string, between: string, second: string, open: char, close: char)
    requires |first| >= 2 && first[0] == open && |second| >= 2 && second[|second| - 1] == close
    ensures Span(first + between + second, open, close) == Some(first + between + second)
  {
    var whole := first + between + second;
    assert whole[0] == open && whole[|whole| - 1] == close;
    SpanAroundProse([], whole, [], open, close);
    assert [] + whole + [] == whole;
  }

  // ---------------------------------------------------------------------
  // The four calls
  // ---------------------------------------------------------------------

  /** `getAICoachResponse`: the first choice's content, or the apology whenever the call or the lookup throws. */
  function CoachReply(call: Call): (r: Option<string>)
    ensures r != Some(Apology) ==> call.Returned? && |call.completion.choices| > 0 && r == call.completion.choices[0]
    ensures call.Threw? || call.completion.choices == [] ==> r == Some(Apology)
    ensures call.Returned? && |call.completion.choices| > 0 ==> r == call.completion.choices[0]
  {
    match call
    case Threw => Some(Apology)
    case Returned(c) => if |c.choices| == 0 then Some(Apology) else c.choices[0]
  }

  /** The apology holds no brace, so no plan can be read out of it. */
  lemma ApologyHasNoSpan()
    ensures Span(Apology, '{', '}') == None
  {
    assert '{' !in Apology;
  }

  /** `jsonMatch ? JSON.parse(jsonMatch[0]) : null`, where a throwing parse gives null too. */
  function ExtractJson<J>(text: string, open: char, close: char, parse: string -> Option<J>): (r: Option<J>)
    ensures (forall p, q :: !MatchAt(text, open, close, p, q)) ==> r == None
    ensures r.Some? ==> exists p, q :: IsRegexMatch(text, open, close, p, q) && r == parse(text[p..q + 1])
    ensures forall p, q :: IsRegexMatch(text, open, close, p, q) ==> r == parse(text[p..q + 1])
  {
    match Span(text, open, close)
    case None => None
    case Some(t) => parse(t)
  }

  /**
   * `generateHealthPlan`: the parsed brace span of the coach reply. A failed
   * call yields the apology, which has no span, so the plan is null.
   */
  function HealthPlan<J>(call: Call, parse: string -> Option<J>): (r: Option<J>)
    ensures call.Threw? || call.completion.choices == [] ==> r == None
    ensures r.Some? ==> && call.Returned? && |call.completion.choices| > 0 && call.completion.choices[0].Some?
                        && r == ExtractJson(call.completion.choices[0].value, '{', '}', parse)
    ensures call.Returned? && |call.completion.choices| > 0 && call.completion.choices[0].Some? ==>
              r == ExtractJson(call.completion.choices[0].value, '{', '}', parse)
  {
    var reply := CoachReply(call);
    if reply.None? then None
    else
      ApologyHasNoSpan();
      ExtractJson(reply.value, '{', '}', parse)
  }

  /** A reply made of prose, one object and a trailing remark gives exactly the parse of that object. */
  lemma HealthPlanFromProse<J>(call: Call, prose: string, body: string, tail: string, parse: string -> Option<J>)
    requires call.Returned? && |call.completion.choices| > 0
    requires call.completion.choices[0] == Some(prose + body + tail)
    requires '{' !in prose && '}' !in tail
    requires |body| >= 2 && body[0] == '{' && body[|body| - 1] == '}'
    ensures HealthPlan(call, parse) == parse(body)
  {
    SpanAroundProse(prose, body, tail, '{', '}');
  }

  /** The first choice's content, `""` when there is no choice or its content is null. */
  function FirstContent(c: Completion): (r: string)
    ensures c.choices == [] || c.choices[0].None? ==> r == ""
    ensures r != "" ==> c.choices[0] == Some(r)
    ensures |c.choices| > 0 && c.choices[0].Some? ==> r == c.choices[0].value
  {
    if |c.choices| == 0 then ""
    else match c.choices[0]
      case None => ""
      case Some(t) => t
  }

  /** `detectFoodFromImage`: the parsed brace span of the first choice's content, null on any failure. */
  function DetectFood<J>(call: Call, parse: string -> Option<J>): (r: Option<J>)
    ensures call.Threw? ==> r == None
    ensures r.Some? ==> exists p, q :: && IsRegexMatch(FirstContent(call.completion), '{', '}', p, q)
                                       && r == parse(FirstContent(call.completion)[p..q + 1])
    ensures call.Returned? ==> r == ExtractJson(FirstContent(call.completion), '{', '}', parse)
  {
    match call
    case Threw => None
    case Returned(c) => ExtractJson(FirstContent(c), '{', '}', parse)
  }

  /** `searchFoodAI`: the parsed bracket span of the first choice's content, `[]` (never null) on any failure. */
  function SearchFood<J>(call: Call, parse: string -> Option<seq<J>>): (r: seq<J>)
    ensures call.Threw? ==> r == []
    ensures r != [] ==> exists p, q :: && IsRegexMatch(FirstContent(call.completion), '[', ']', p, q)
                                       && parse(FirstContent(call.completion)[p..q + 1]) == Some(r)
    ensures call.Returned? && ExtractJson(FirstContent(call.completion), '[', ']', parse).Some? ==>
              r == ExtractJson(FirstContent(call.completion), '[', ']', parse).value
  {
    match call
    case Threw => []
    case Returned(c) =>
      match ExtractJson(FirstContent(c), '[', ']', parse)
      case None => []
      case Some(items) => items
  }

  /** A content-less answer gives no food and no search results. */
  lemma EmptyContentGivesSentinels<J>(c: Completion, parseOne: string -> Option<J>, parseMany: string -> Option<seq<J>>)
    requires FirstContent(c) == ""
    ensures DetectFood(Returned(c), parseOne) == None
    ensures SearchFood(Returned(c), parseMany) == []
  {
  }

  /** A reply of prose, one object and a trailing remark identifies the food that object parses to. */
  lemma DetectFoodFromProse<J>(call: Call, prose: string, body: string, tail: string, parse: string -> Option<J>)
    requires call.Returned? && FirstContent(call.completion) == prose + body + tail
    requires '{' !in prose && '}' !in tail
    requires |body| >= 2 && body[0] == '{' && body[|body| - 1] == '}'
    ensures DetectFood(call, parse) == parse(body)
  {
    SpanAroundProse(prose, body, tail, '{', '}');
  }

  /** A reply of prose, one array and a trailing remark gives the items that array parses to, or `[]`. */
  lemma SearchFoodFromProse<J>(call: Call, prose: string, body: string, tail: string, parse: string -> Option<seq<J>>)
    requires call.Returned? && FirstContent(call.completion) == prose + body + tail
    requires '[' !in prose && ']' !in tail
    requires |body| >= 2 && body[0] == '[' && body[|body| - 1] == ']'
    ensures parse(body).Some? ==> SearchFood(call, parse) == parse(body).value
    ensures parse(body).None? ==> SearchFood(call, parse) == []
  {
    SpanAroundProse(prose, body, tail, '[', ']');
  }

  /** A reply without a brace span, or whose span does not parse, identifies no food, never an error. */
  lemma DetectFoodSentinel<J>(call: Call, parse: string -> Option<J>)
    requires call.Returned?
    requires var t := Span(FirstContent(call.completion), '{', '}'); t.None? || parse(t.value).None?
    ensures DetectFood(call, parse) == None
  {
  }

  /** A reply without a bracket span, or whose span does not parse, gives `[]`, never an error. */
  lemma SearchFoodSentinel<J>(call: Call, parse: string -> Option<seq<J>>)
    requires call.Returned?
    requires var t := Span(FirstContent(call.completion), '[', ']'); t.None? || parse(t.value).None?
    ensures SearchFood(call, parse) == []
  {
  }
}
