/**
 * The two texts sent to the completion service: the fixed system instruction
 * and the user prompt, which places the nutrition-guideline knowledge text and
 * then the food log, both verbatim, between fixed pieces of text. The
 * knowledge text is an argument here; reading it from its file is not modelled.
 */
module Prompt {
  import opened Wrappers

  /** The system instruction, a constant independent of every request. */
  const SystemInstruction: string :=
    "\nYou are a nutrition analysis assistant.\n"
    + "\n"
    + "Rules:\n"
    + "- Base advice on WHO and EFSA dietary guidelines\n"
    + "- Do NOT provide medical advice\n"
    + "- Assume a healthy adult with no allergies\n"
    + "- Be practical, supportive, and concise\n"
    + "- Do not moralize food choices\n"
    + "- Keep it short and clean in terms of information\n"
    + "- Feel free to quote sources specified, but only the if listed in the guidelines \n"
    + "- If a claim is not supported by the provided guidelines, do not include it\n"
    + "\n"
    + "Scoring guidelines:\n"
    + "- 0\U{2013}40: Poor\n"
    + "- 41\U{2013}60: Fair\n"
    + "- 61\U{2013}80: Good\n"
    + "- 81\U{2013}100: Excellent\n"
    + "\n"
    + "Output rules:\n"
    + "- Return VALID JSON ONLY\n"
    + "- Do not include markdown\n"
    + "- Do not include explanations outside JSON\n"

  /** One key the prompt asks the model to return, with the type it names. */
  datatype OutputField = OutputField(key: string, description: string)

  const ScoreField: OutputField := OutputField("overall_score", "number between 0 and 100")
  const SummaryField: OutputField := OutputField("summary", "string")
  const PositivesField: OutputField := OutputField("positives", "array of strings")
  const ConcernsField: OutputField := OutputField("concerns", "array of strings")
  const MissingNutrientsField: OutputField := OutputField("missing_nutrients", "array of strings")
  const RecommendationsField: OutputField := OutputField("recommendations", "array of strings")

  /** The keys the prompt requests, in the order it lists them. */
  const ResponseFields: seq<OutputField> :=
    [ScoreField, SummaryField, PositivesField, ConcernsField, MissingNutrientsField, RecommendationsField]

  /** The line that lists one key: `- "<key>": <description>`. */
  function KeyLine(f: OutputField): string {
    "- \"" + f.key + "\": " + f.description + "\n"
  }

  /** The key lines of `fields`, one after another. */
  function KeyListing(fields: seq<OutputField>): string {
    if fields == [] then "" else KeyLine(fields[0]) + KeyListing(fields[1..])
  }

  /** Text before the knowledge. */
  const Opening: string := "\nYou are given the following nutrition guidelines:\n\n"

  /** Text between the knowledge and the food log. */
  const Middle: string := "\n\nHere is what I ate this week:\n\n"

  /** The task the closing text sets, before the list of keys. */
  const Task: string :=
    "\n\nAnalyze the diet USING ONLY the information from the nutrition guidelines above\n"
    + "and return a JSON object with EXACTLY these keys:\n"

  /** Text after the food log: the task and the list of required keys. */
  const Closing: string := Task + KeyListing(ResponseFields)

  /** The user prompt for a food log, given the knowledge text. Both inputs
      appear verbatim and unsanitised, the knowledge first; the fixed pieces
      around them are the same whatever the inputs. */
  function BuildUserPrompt(knowledge: string, foodLog: string): (r: string)
    ensures |r| == |Opening| + |knowledge| + |Middle| + |foodLog| + |Closing|
    ensures r[..|Opening|] == Opening
    ensures r[|Opening|..|Opening| + |knowledge|] == knowledge
    ensures r[|Opening| + |knowledge|..|Opening| + |knowledge| + |Middle|] == Middle
    ensures r[|Opening| + |knowledge| + |Middle|..|r| - |Closing|] == foodLog
    ensures r[|r| - |Closing|..] == Closing
  {
    FiveParts(Opening, knowledge, Middle, foodLog, Closing);
    Opening + knowledge + Middle + foodLog + Closing
  }

  /** Where each of five concatenated strings sits in the result. */
  lemma FiveParts(a: string, b: string, c: string, d: string, e: string)
    ensures var r := a + b + c + d + e;
            && |r| == |a| + |b| + |c| + |d| + |e|
            && r[..|a|] == a
            && r[|a|..|a| + |b|] == b
            && r[|a| + |b|..|a| + |b| + |c|] == c
            && r[|a| + |b| + |c|..|r| - |e|] == d
            && r[|r| - |e|..] == e
  {
    var r := a + b + c + d + e;
    assert r == (a + b + c + d) + e;
    assert r[..|a|] == a;
  }

  /** Recovers the food log from a user prompt built with `knowledge`, or
      `None` if `prompt` is not such a prompt. */
  function ExtractFoodLog(prompt: string, knowledge: string): Option<string> {
    var head := Opening + knowledge + Middle;
    if |prompt| >= |head| + |Closing|
       && prompt[..|head|] == head
       && prompt[|prompt| - |Closing|..] == Closing
    then Some(prompt[|head|..|prompt| - |Closing|])
    else None
  }

  /** Building a prompt and extracting its food log gives the food log back. */
  lemma ExtractBuilt(knowledge: string, foodLog: string)
    ensures ExtractFoodLog(BuildUserPrompt(knowledge, foodLog), knowledge) == Some(foodLog)
  {
    var p := BuildUserPrompt(knowledge, foodLog);
    var head := Opening + knowledge + Middle;
    assert p[..|head|] == head by {
      assert p[..|head|] == p[..|Opening|] + p[|Opening|..|Opening| + |knowledge|]
                          + p[|Opening| + |knowledge|..|head|];
    }
  }

  /** Whatever `ExtractFoodLog` accepts is exactly the prompt built from what it
      returns, so the prompt format loses nothing and admits nothing else. */
  lemma BuiltFromExtracted(prompt: string, knowledge: string, foodLog: string)
    requires ExtractFoodLog(prompt, knowledge) == Some(foodLog)
    ensures BuildUserPrompt(knowledge, foodLog) == prompt
  {
    var head := Opening + knowledge + Middle;
    assert prompt == prompt[..|head|] + prompt[|head|..|prompt| - |Closing|] + prompt[|prompt| - |Closing|..];
  }

  /** Different food logs give different prompts for the same knowledge. */
  lemma BuildUserPromptInjective(knowledge: string, log1: string, log2: string)
    requires BuildUserPrompt(knowledge, log1) == BuildUserPrompt(knowledge, log2)
    ensures log1 == log2
  {
    ExtractBuilt(knowledge, log1);
    ExtractBuilt(knowledge, log2);
  }

  /** A key line can be read back when the key has no double quote and the
      description no line break. */
  predicate WellFormed(f: OutputField) {
    Lacks(f.key, '"') && Lacks(f.description, '\n')
  }

  /** No character of `s` is `c`. */
  predicate Lacks(s: string, c: char) {
    forall i | 0 <= i < |s| :: s[i] != c
  }

  /** What follows `lit` in `s`, or `None` when `s` does not start with `lit`. */
  function Expect(s: string, lit: string): (r: Option<string>)
    ensures r.Some? ==> s == lit + r.value
  {
    if |lit| <= |s| && s[..|lit|] == lit then
      assert s == s[..|lit|] + s[|lit|..];
      Some(s[|lit|..])
    else None
  }

  lemma ExpectPrefix(lit: string, x: string)
    ensures Expect(lit + x, lit) == Some(x)
  {
    assert (lit + x)[..|lit|] == lit;
  }

  /** `s` split around its first `c`: the text before it and the text after
      it, or `None` when `s` has no `c`. */
  function SplitAt(s: string, c: char): (r: Option<(string, string)>)
    ensures r.Some? ==> s == r.value.0 + [c] + r.value.1 && Lacks(r.value.0, c)
    ensures r.None? ==> Lacks(s, c)
  {
    if s == [] then None
    else if s[0] == c then
      assert s == [] + [c] + s[1..];
      Some(([], s[1..]))
    else
      match SplitAt(s[1..], c)
      case None => None
      case Some((x, y)) =>
        assert s == [s[0]] + x + [c] + y;
        Some(([s[0]] + x, y))
  }

  lemma {:induction false} SplitAtFirst(x: string, c: char, y: string)
    requires Lacks(x, c)
    ensures SplitAt(x + [c] + y, c) == Some((x, y))
  {
    var s := x + [c] + y;
    if x != [] {
      assert s[1..] == x[1..] + [c] + y;
      SplitAtFirst(x[1..], c, y);
      assert [x[0]] + x[1..] == x;
    }
  }

  /** Reads one key line off the front of `s`: the field and what follows. */
  function ParseKeyLine(s: string): (r: Option<(OutputField, string)>)
    ensures r.Some? ==> |r.value.1| < |s|
  {
    match Expect(s, "- \"")
    case None => None
    case Some(s1) =>
      match SplitAt(s1, '"')
      case None => None
      case Some((key, s2)) =>
        match Expect(s2, ": ")
        case None => None
        case Some(s3) =>
          match SplitAt(s3, '\n')
          case None => None
          case Some((description, tail)) => Some((OutputField(key, description), tail))
  }

  /** Reads a key listing back into its fields, or `None` when `s` is not a
      sequence of key lines. */
  function ParseListing(s: string): Option<seq<OutputField>>
    decreases |s|
  {
    if s == [] then Some([])
    else
      match ParseKeyLine(s)
      case None => None
      case Some((f, tail)) =>
        match ParseListing(tail)
        case None => None
        case Some(fields) => Some([f] + fields)
  }

  /** A well-formed key line is read back with nothing lost. */
  lemma ParseKeyLineOfKeyLine(f: OutputField, tail: string)
    requires WellFormed(f)
    ensures ParseKeyLine(KeyLine(f) + tail) == Some((f, tail))
  {
    var s3 := f.description + ['\n'] + tail;
    var s2 := ": " + s3;
    var s1 := f.key + ['"'] + s2;
    assert KeyLine(f) + tail == "- \"" + s1;
    ExpectPrefix("- \"", s1);
    SplitAtFirst(f.key, '"', s2);
    ExpectPrefix(": ", s3);
    SplitAtFirst(f.description, '\n', tail);
  }

  /** Whatever `ParseKeyLine` reads is a well-formed key line. */
  lemma KeyLineOfParseKeyLine(s: string, f: OutputField, tail: string)
    requires ParseKeyLine(s) == Some((f, tail))
    ensures WellFormed(f) && s == KeyLine(f) + tail
  {
  }

  /** Round trip: a listing of well-formed fields parses back to those fields. */
  lemma {:induction false} ParseListingOfKeyListing(fields: seq<OutputField>)
    requires forall i | 0 <= i < |fields| :: WellFormed(fields[i])
    ensures ParseListing(KeyListing(fields)) == Some(fields)
  {
    if fields != [] {
      ParseListingOfKeyListing(fields[1..]);
      ParseKeyLineOfKeyLine(fields[0], KeyListing(fields[1..]));
      assert [fields[0]] + fields[1..] == fields;
    }
  }

  /** The other direction: whatever parses is the listing of the fields it
      parses to, and those fields are well formed. */
  lemma {:induction false} KeyListingOfParseListing(s: string, fields: seq<OutputField>)
    requires ParseListing(s) == Some(fields)
    ensures KeyListing(fields) == s
    ensures forall i | 0 <= i < |fields| :: WellFormed(fields[i])
    decreases |s|
  {
    if s != [] {
      var (f, tail) := ParseKeyLine(s).value;
      var more := ParseListing(tail).value;
      assert fields == [f] + more;
      KeyLineOfParseKeyLine(s, f, tail);
      KeyListingOfParseListing(tail, more);
      assert fields[1..] == more;
    }
  }

  /** None of the six requested keys contains a double quote, and no
      description a line break. */
  lemma ResponseFieldsWellFormed()
    ensures forall i | 0 <= i < |ResponseFields| :: WellFormed(ResponseFields[i])
  {
    ScoreFieldWellFormed();
    assert WellFormed(SummaryField);
    assert WellFormed(PositivesField);
    assert WellFormed(ConcernsField);
    assert WellFormed(MissingNutrientsField);
    assert WellFormed(RecommendationsField);
  }

  /** The score's key line, whose description is the longest, is well formed. */
  lemma ScoreFieldWellFormed()
    ensures WellFormed(ScoreField)
  {
  }

  /** The keys of `fields`, in order. */
  function Keys(fields: seq<OutputField>): (r: seq<string>)
    ensures |r| == |fields| && forall i | 0 <= i < |fields| :: r[i] == fields[i].key
  {
    seq(|fields|, i requires 0 <= i < |fields| => fields[i].key)
  }

  /** After the task, the closing text reads back as exactly six keys, in
      this order. */
  lemma ClosingListsSixKeys()
    ensures ParseListing(Closing[|Task|..]) == Some(ResponseFields)
    ensures Keys(ResponseFields) ==
              ["overall_score", "summary", "positives", "concerns", "missing_nutrients", "recommendations"]
  {
    ResponseFieldsWellFormed();
    ParseListingOfKeyListing(ResponseFields);
    assert Closing[|Task|..] == KeyListing(ResponseFields);
  }
}
