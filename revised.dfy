/**
 * The record-building part of `save_revised_reasoning` in scripts/evaluate_llm.py:
 * the revised reasoning a debate judge proposes is stored next to its equation,
 * parsed when it is JSON text and wrapped under `raw_revised_output` otherwise,
 * in a file named after the original record with the suffix `_revised.json`.
 */
module Revised {
  import opened Wrappers
  import opened Json

  const EquationKey := "summary_equation"
  const ReasoningKey := "revised_reasoning"
  /** The key that carries revised reasoning `json.loads` could not read. */
  const RawKey := "raw_revised_output"

  const OutputFolder := "outputs/"
  const RevisedSuffix := "_revised.json"

  /**
   * `reasoning_data`: what `json.loads` makes of the input when it is a string
   * holding a JSON document; the input wrapped under `raw_revised_output` when
   * the parse fails or, as for any non-string, `json.loads` raises `TypeError`.
   */
  function RevisedReasoning(parse: Parser, input: JsonValue): JsonValue
  {
    if input.JString? && parse(input.str).Some? then parse(input.str).value
    else JObject([(RawKey, input)])
  }

  /** `output_data`: the equation and the revised reasoning, in that order. */
  function RevisedRecord(parse: Parser, summaryEquation: string, input: JsonValue): (r: JsonValue)
    ensures r.JObject? && Keys(r) == [EquationKey, ReasoningKey]
    ensures Get(r, EquationKey) == Some(JString(summaryEquation))
    ensures Get(r, ReasoningKey) == Some(RevisedReasoning(parse, input))
  {
    var r := JObject([(EquationKey, JString(summaryEquation)), (ReasoningKey, RevisedReasoning(parse, input))]);
    assert EquationKey[0] != ReasoningKey[0];
    assert Find(r.members[1..], ReasoningKey) == Some(RevisedReasoning(parse, input));
    assert Keys(r) == [EquationKey, ReasoningKey];
    r
  }

  /**
   * The stored reasoning is the parsed document exactly when the input is JSON
   * text; otherwise the input itself is kept, unchanged, under the raw key.
   */
  lemma RevisedReasoningKeepsInput(parse: Parser, summaryEquation: string, input: JsonValue)
    ensures var stored := Get(RevisedRecord(parse, summaryEquation, input), ReasoningKey);
      && (input.JString? && parse(input.str).Some? ==> stored == parse(input.str))
      && (!(input.JString? && parse(input.str).Some?) ==>
            && stored.value.JObject?
            && Keys(stored.value) == [RawKey]
            && Get(stored.value, RawKey) == Some(input))
  {
  }

  /** `s` ends with `suffix`. */
  predicate EndsWith(s: string, suffix: string)
  {
    |suffix| <= |s| && s[|s| - |suffix|..] == suffix
  }

  /** The base name is absolute: `os.path.join` then keeps the file name alone. */
  predicate IsAbsolute(filenameBase: string)
  {
    |filenameBase| > 0 && filenameBase[0] == '/'
  }

  /**
   * `os.path.join("outputs/", f"{filename_base}_revised.json")`: the folder is
   * dropped when the file name is itself absolute, that is when it starts with '/'.
   */
  function RevisedPath(filenameBase: string): (path: string)
    ensures EndsWith(path, RevisedSuffix)
    ensures IsAbsolute(filenameBase) ==> path[..|path| - |RevisedSuffix|] == filenameBase
    ensures !IsAbsolute(filenameBase) ==> path[..|path| - |RevisedSuffix|] == OutputFolder + filenameBase
  {
    var name := filenameBase + RevisedSuffix;
    var stem := if |name| > 0 && name[0] == '/' then filenameBase else OutputFolder + filenameBase;
    var path := if |name| > 0 && name[0] == '/' then name else OutputFolder + name;
    assert path == stem + RevisedSuffix;
    assert path[|stem|..] == RevisedSuffix;
    assert path[..|stem|] == stem;
    assert |name| > 0 && name[0] == '/' <==> IsAbsolute(filenameBase) by {
      if filenameBase == [] {
        assert name[0] == '_';
      } else {
        assert name[0] == filenameBase[0];
      }
    }
    path
  }

  /** The base name a revised record's path was made from, if it is one. */
  function BaseOf(path: string): Option<string>
  {
    if !EndsWith(path, RevisedSuffix) then None
    else
      var stem := path[..|path| - |RevisedSuffix|];
      if |stem| > 0 && stem[0] == '/' then Some(stem)
      else if OutputFolder <= stem then Some(stem[|OutputFolder|..])
      else None
  }

  /** The base name can be read back from the path. */
  lemma RevisedPathRoundTrip(filenameBase: string)
    ensures BaseOf(RevisedPath(filenameBase)) == Some(filenameBase)
  {
    var path := RevisedPath(filenameBase);
    if !IsAbsolute(filenameBase) {
      var stem := OutputFolder + filenameBase;
      assert stem[..|OutputFolder|] == OutputFolder;
      assert stem[|OutputFolder|..] == filenameBase;
      assert stem[0] == 'o';
    }
  }

  /** No two base names share a revised file. */
  lemma RevisedPathInjective(a: string, b: string)
    requires RevisedPath(a) == RevisedPath(b)
    ensures a == b
  {
    RevisedPathRoundTrip(a);
    RevisedPathRoundTrip(b);
  }
}
