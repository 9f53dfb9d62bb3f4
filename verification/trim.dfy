/** The `trim` function: removes characters of a given set from the ends of a text.
    The pattern `[chars]` is read as membership in the set of characters of `characters`.
    `TrimText`, `Run` and `RunOn` model the code. `TrimRuns` and the members about it are
    a reference reading kept for contrast: they are not a model of the code. */
module Trim {
  import opened Wrappers
  import opened Model

  const StartAndEnd := "start and end"
  const StartOnly := "start only"
  const EndOnly := "end only"

  /** The default config value of `characters`. */
  const DefaultCharacters := " \t\n"

  /** `run` of `trim` on the text `input`. Each end is matched by a pattern with no
      repetition (`^[chars]`, `[chars]$`), so at most one character goes from each end;
      the end is trimmed after the start, on what the start trim left. */
  function TrimText(input: string, characters: string, location: string): (r: string)
    ensures |characters| == 0 ==> r == input
    ensures |input| - 2 <= |r| <= |input|
    ensures r == input[..|r|] || (|r| < |input| && r == input[1..1 + |r|])
    ensures location == EndOnly ==> r == input[..|r|]
    ensures location == StartOnly ==> r == input[|input| - |r|..]
    ensures |input| > 0 && input[0] !in characters ==> r == input[..|r|]
    ensures |input| > 0 && input[|input| - 1] !in characters ==> r == input[|input| - |r|..]
    ensures |characters| > 0 && location != EndOnly && |input| > 0 && input[0] in characters ==>
              |r| < |input| && r == input[1..1 + |r|]
    ensures |characters| > 0 && location != StartOnly && |input| >= 2 && input[|input| - 1] in characters ==>
              |r| < |input| && r == input[|input| - 1 - |r|..|input| - 1]
    ensures var s := if |characters| > 0 && location != EndOnly && |input| > 0 && input[0] in characters then 1 else 0;
            var e := if |characters| > 0 && location != StartOnly && |input| > s && input[|input| - 1] in characters then 1 else 0;
            r == input[s..|input| - e]
  {
    if |characters| == 0 then input
    else if location != EndOnly && |input| > 0 && input[0] in characters then
      var afterStart := input[1..];
      if location != StartOnly && |afterStart| > 0 && afterStart[|afterStart| - 1] in characters then
        assert afterStart[..|afterStart| - 1] == input[1..|input| - 1];
        input[1..|input| - 1]
      else afterStart
    else if location != StartOnly && |input| > 0 && input[|input| - 1] in characters then input[..|input| - 1]
    else input
  }

  /** The function's output record: the single key `result`. */
  function Run(input: string, characters: string, location: string): (outputs: Values)
    ensures outputs.Keys == {"result"}
    ensures outputs["result"] == Defined(TrimText(input, characters, location))
  {
    map["result" := Defined(TrimText(input, characters, location))]
  }

  /** `run` on the parameter record the function is handed, where any parameter may be
      missing. A missing location is neither named location, so both ends are trimmed. */
  function RunOn(parameters: Values): (r: Result<Values, Error>)
    ensures var input := Lookup(parameters, "in");
            var characters := Lookup(parameters, "characters");
            && (r.Failure? <==> characters.Undefined? || (|characters.text| > 0 && input.Undefined?))
            && (r.Failure? ==> r.error == TypeError)
            && (characters.Defined? && |characters.text| == 0 ==> r == Success(map["result" := input]))
    ensures var input := Lookup(parameters, "in");
            var characters := Lookup(parameters, "characters");
            var location := Lookup(parameters, "location");
            input.Defined? && characters.Defined? ==>
              r == Success(Run(input.text, characters.text, if location.Defined? then location.text else StartAndEnd))
  {
    match (Lookup(parameters, "in"), Lookup(parameters, "characters"))
    case (_, Undefined) => Failure(TypeError)
    case (input, Defined(characters)) =>
      if |characters| == 0 then Success(map["result" := input])
      else if input.Undefined? then Failure(TypeError)
      else
        var location := Lookup(parameters, "location");
        Success(Run(input.text, characters, if location.Defined? then location.text else StartAndEnd))
  }

  /** A `trim` whose `in` is not wired throws, unless its set of characters is empty; a
      missing set of characters always throws. */
  lemma UnwiredInputThrows(characters: string, location: Value)
    ensures |characters| > 0 ==>
              RunOn(map["characters" := Defined(characters), "location" := location]) == Failure(TypeError)
    ensures |characters| == 0 ==>
              RunOn(map["characters" := Defined(characters), "location" := location]) == Success(map["result" := Undefined])
    ensures RunOn(map["in" := Defined("text"), "location" := location]) == Failure(TypeError)
  {
  }

  /** Every character of `t` is in the set. */
  predicate AllIn(t: string, characters: string) {
    forall i :: 0 <= i < |t| ==> t[i] in characters
  }

  /** `r` is what remains of `input` once a prefix and a suffix made only of set characters
      are cut away. */
  predicate CutAt(r: string, input: string, characters: string, start: nat) {
    && start + |r| <= |input|
    && r == input[start..start + |r|]
    && AllIn(input[..start], characters)
    && AllIn(input[start + |r|..], characters)
  }

  ghost predicate TrimmedOf(r: string, input: string, characters: string) {
    exists start :: CutAt(r, input, characters, start)
  }

  /** Reference reading, not the code: the run stripping that the function's name
      suggests, where every run of set characters goes from the chosen ends, as
      `^[chars]+` and `[chars]+$` would remove. */
  function TrimRuns(input: string, characters: string, location: string): (r: string)
    ensures |characters| == 0 ==> r == input
    ensures TrimmedOf(r, input, characters)
    ensures location == EndOnly ==> AllIn(input[|r|..], characters)
    ensures location == StartOnly ==> AllIn(input[..|input| - |r|], characters)
    ensures |characters| > 0 && location != EndOnly && |r| > 0 ==> r[0] !in characters
    ensures |characters| > 0 && location != StartOnly && |r| > 0 ==> r[|r| - 1] !in characters
    ensures location == EndOnly ==> r == input[..|r|]
    ensures location == StartOnly ==> r == input[|input| - |r|..]
  {
    LocationsDiffer();
    if |characters| == 0 then
      CutWitness(input, input, input, characters);
      input
    else if location == EndOnly then
      var r := DropTrailing(input, characters);
      CutWitness(input, input, r, characters);
      r
    else if location == StartOnly then
      var r := DropLeading(input, characters);
      CutWitness(input, r, r, characters);
      r
    else DropBoth(input, characters)
  }

  /** Both ends trimmed of runs: what remains starts and ends with no set character, and
      only set characters were cut away. */
  function DropBoth(input: string, characters: string): (r: string)
    ensures TrimmedOf(r, input, characters)
    ensures |r| > 0 ==> r[0] !in characters && r[|r| - 1] !in characters
  {
    var afterStart := DropLeading(input, characters);
    var r := DropTrailing(afterStart, characters);
    assert |r| > 0 ==> r[0] == afterStart[0];
    CutWitness(input, afterStart, r, characters);
    r
  }

  lemma LocationsDiffer()
    ensures EndOnly != StartOnly
  {
    assert EndOnly[0] != StartOnly[0];
  }

  lemma CutWitness(input: string, suffix: string, r: string, characters: string)
    requires |suffix| <= |input| && suffix == input[|input| - |suffix|..]
    requires AllIn(input[..|input| - |suffix|], characters)
    requires |r| <= |suffix| && r == suffix[..|r|]
    requires AllIn(suffix[|r|..], characters)
    ensures TrimmedOf(r, input, characters)
  {
    var start := |input| - |suffix|;
    assert input[start..start + |r|] == suffix[..|r|];
    assert input[start + |r|..] == suffix[|r|..];
    assert CutAt(r, input, characters, start);
  }

  function DropLeading(s: string, characters: string): (r: string)
    ensures |r| <= |s| && r == s[|s| - |r|..]
    ensures AllIn(s[..|s| - |r|], characters)
    ensures |r| > 0 ==> r[0] !in characters
  {
    if |s| > 0 && s[0] in characters then DropLeading(s[1..], characters) else s
  }

  function DropTrailing(s: string, characters: string): (r: string)
    ensures |r| <= |s| && r == s[..|r|]
    ensures AllIn(s[|r|..], characters)
    ensures |r| > 0 ==> r[|r| - 1] !in characters
  {
    if |s| > 0 && s[|s| - 1] in characters then DropTrailing(s[..|s| - 1], characters) else s
  }

  /** On `"  hi  "` with a space set, the code removes one space from each chosen end,
      where run trimming gives `"hi"` and `"hi  "`. An empty set changes nothing. */
  lemma TrimExamples()
    ensures TrimText("  hi  ", " ", StartAndEnd) == " hi "
    ensures TrimText("  hi  ", " ", StartOnly) == " hi  "
    ensures TrimText("  hi  ", "", StartAndEnd) == "  hi  "
  {
    assert StartAndEnd[0] != EndOnly[0] && StartAndEnd[6] != StartOnly[6];
    assert StartOnly[0] != EndOnly[0];
    assert "  hi  "[0] == ' ' && "  hi  "[5] == ' ';
    assert "  hi  "[1..5] == " hi ";
    assert "  hi  "[1..6] == " hi  ";
  }

  lemma TrimRunsExamples()
    ensures TrimRuns("  hi  ", " ", StartAndEnd) == "hi"
    ensures TrimRuns("  hi  ", " ", StartOnly) == "hi  "
  {
    LeadingSpaces();
    TrailingSpaces();
  }

  lemma LeadingSpaces()
    ensures DropLeading("  hi  ", " ") == "hi  "
  {
    assert 'h' !in " ";
    assert DropLeading("hi  ", " ") == "hi  ";
    assert " hi  "[1..] == "hi  ";
    assert DropLeading(" hi  ", " ") == "hi  ";
    assert "  hi  "[1..] == " hi  ";
  }

  lemma TrailingSpaces()
    ensures DropTrailing("hi  ", " ") == "hi"
  {
    assert 'i' !in " ";
    assert DropTrailing("hi", " ") == "hi";
    assert "hi "[..2] == "hi";
    assert DropTrailing("hi ", " ") == "hi";
    assert "hi  "[..3] == "hi ";
  }

  /** Applying the code's trim twice can remove more than once: it is not idempotent,
      whereas run trimming is. */
  lemma TrimIsNotIdempotent()
    ensures TrimText(TrimText("  hi  ", " ", StartAndEnd), " ", StartAndEnd) != TrimText("  hi  ", " ", StartAndEnd)
  {
    TrimExamples();
    assert " hi "[1..] == "hi ";
    assert "hi "[..2] == "hi";
  }

  lemma {:induction false} DropLeadingIdempotent(s: string, characters: string)
    ensures DropLeading(DropLeading(s, characters), characters) == DropLeading(s, characters)
  {
    if |s| > 0 && s[0] in characters {
      DropLeadingIdempotent(s[1..], characters);
    }
  }

  lemma {:induction false} DropTrailingIdempotent(s: string, characters: string)
    ensures DropTrailing(DropTrailing(s, characters), characters) == DropTrailing(s, characters)
  {
    if |s| > 0 && s[|s| - 1] in characters {
      DropTrailingIdempotent(s[..|s| - 1], characters);
    }
  }
}
