/**
 * The prompt builders of scripts/evaluate_llm.py. Each is an f-string: fixed
 * text with the caller's strings spliced in verbatim. Here a template is a
 * sequence of fixed text pieces and named holes. The fixed text stands for the
 * source's wording in a few words of its own; the holes are exact.
 */
module Prompts {

  /** The three values a prompt template can splice in. */
  datatype Hole = EquationHole | ReasoningHole | HistoryHole

  datatype Piece = Text(text: string) | Slot(hole: Hole)

  type Template = seq<Piece>

  /** What goes into each hole. */
  datatype Fillers = Fillers(equation: string, reasoning: string, history: string)
  {
    function Value(h: Hole): string
    {
      match h
      case EquationHole => equation
      case ReasoningHole => reasoning
      case HistoryHole => history
    }
  }

  function Render(p: Piece, f: Fillers): string
  {
    match p
    case Text(s) => s
    case Slot(h) => f.Value(h)
  }

  /** The prompt a template produces: its pieces rendered and joined in order. */
  function Fill(t: Template, f: Fillers): string
    decreases |t|
  {
    if t == [] then "" else Render(t[0], f) + Fill(t[1..], f)
  }

  /** `sub` occurs in `s` starting at index i. */
  ghost predicate OccursAt(s: string, sub: string, i: int)
  {
    0 <= i <= |s| && sub <= s[i..]
  }

  /** `sub` occurs in `s` as a contiguous substring (Python's `sub in s`). */
  ghost predicate Contains(s: string, sub: string)
  {
    exists i :: OccursAt(s, sub, i)
  }

  lemma ContainsInContext(pre: string, s: string, post: string, sub: string)
    requires Contains(s, sub)
    ensures Contains(pre + s + post, sub)
  {
    var i :| OccursAt(s, sub, i);
    var whole := pre + s + post;
    assert whole[|pre| + i..] == s[i..] + post;
    assert OccursAt(whole, sub, |pre| + i);
  }

  lemma ContainsTransitive(a: string, b: string, c: string)
    requires Contains(a, b) && Contains(b, c)
    ensures Contains(a, c)
  {
    var i :| OccursAt(a, b, i);
    var j :| OccursAt(b, c, j);
    assert a[i + j..][..|c|] == b[j..][..|c|];
    assert OccursAt(a, c, i + j);
  }

  /** What occurs in a prefix of `s` occurs in `s`. */
  lemma ContainsInExtension(prefix: string, s: string, sub: string)
    requires Contains(prefix, sub) && prefix <= s
    ensures Contains(s, sub)
  {
    ContainsInContext("", prefix, s[|prefix|..], sub);
    assert "" + prefix + s[|prefix|..] == s;
  }

  lemma ContainsItself(s: string)
    ensures Contains(s, s)
  {
    assert OccursAt(s, s, 0);
  }

  /** Every hole a template names is filled verbatim into the prompt. */
  lemma {:induction false} FillContainsSlot(t: Template, f: Fillers, h: Hole)
    requires Slot(h) in t
    ensures Contains(Fill(t, f), f.Value(h))
  {
    if t[0] == Slot(h) {
      ContainsItself(f.Value(h));
      ContainsInContext("", f.Value(h), Fill(t[1..], f), f.Value(h));
      assert "" + f.Value(h) + Fill(t[1..], f) == Fill(t, f);
    } else {
      assert Slot(h) in t[1..];
      FillContainsSlot(t[1..], f, h);
      ContainsInContext(Render(t[0], f), Fill(t[1..], f), "", f.Value(h));
      assert Render(t[0], f) + Fill(t[1..], f) + "" == Fill(t, f);
    }
  }

  /** A template that opens with fixed text yields prompts that start with it. */
  lemma FillStartsWith(t: Template, f: Fillers)
    requires |t| > 0 && t[0].Text?
    ensures t[0].text <= Fill(t, f)
  {
    assert Fill(t, f) == t[0].text + Fill(t[1..], f);
  }

  // ------------------------------------------------------------------------
  // Single-shot evaluation prompts (reflection, chain of thought, one-round debate)
  // ------------------------------------------------------------------------

  const ReflectionTemplate: Template := [
    Text("Evaluate this analysis.\nEquation:\n"),
    Slot(EquationHole),
    Text("\nReasoning:\n"),
    Slot(ReasoningHole),
    Text("\nScore it in JSON.")
  ]

  const ChainOfThoughtTemplate: Template := [
    Text("Evaluate this analysis.\nEquation:\n"),
    Slot(EquationHole),
    Text("\nReasoning:\n"),
    Slot(ReasoningHole),
    Text("\nThink step by step.")
  ]

  const SingleDebateTemplate: Template := [
    Text("Moderate a debate.\nEquation: `"),
    Slot(EquationHole),
    Text("`\nAnalysis: `"),
    Slot(ReasoningHole),
    Text("`\nJudge it in JSON.")
  ]

  /** Both inputs of a two-hole template reach the prompt verbatim. */
  lemma FillContainsInputs(t: Template, eq: string, reasoning: string)
    requires Slot(EquationHole) in t && Slot(ReasoningHole) in t
    ensures Contains(Fill(t, Fillers(eq, reasoning, "")), eq)
    ensures Contains(Fill(t, Fillers(eq, reasoning, "")), reasoning)
  {
    FillContainsSlot(t, Fillers(eq, reasoning, ""), EquationHole);
    FillContainsSlot(t, Fillers(eq, reasoning, ""), ReasoningHole);
  }

  function BuildReflectionPrompt(summaryEquation: string, llmReasoning: string): (p: string)
    ensures Contains(p, summaryEquation) && Contains(p, llmReasoning)
  {
    FillContainsInputs(ReflectionTemplate, summaryEquation, llmReasoning);
    Fill(ReflectionTemplate, Fillers(summaryEquation, llmReasoning, ""))
  }

  function BuildChainOfThoughtPrompt(summaryEquation: string, llmReasoning: string): (p: string)
    ensures Contains(p, summaryEquation) && Contains(p, llmReasoning)
  {
    FillContainsInputs(ChainOfThoughtTemplate, summaryEquation, llmReasoning);
    Fill(ChainOfThoughtTemplate, Fillers(summaryEquation, llmReasoning, ""))
  }

  function BuildSingleDebatePrompt(summaryEquation: string, llmReasoning: string): (p: string)
    ensures Contains(p, summaryEquation) && Contains(p, llmReasoning)
  {
    FillContainsInputs(SingleDebateTemplate, summaryEquation, llmReasoning);
    Fill(SingleDebateTemplate, Fillers(summaryEquation, llmReasoning, ""))
  }

  // ------------------------------------------------------------------------
  // Iterative debate: agent prompts and the judge prompt
  // ------------------------------------------------------------------------

  /** Every prompt of the iterative debate opens with these words. */
  const Preamble := "You are "
  /** What the two agent prompts share before they name the agent's goal. */
  const AgentRole := Preamble + "a debate agent: "
  /** The opening of the Pro agent's prompt. */
  const DefendOpening := AgentRole + "DEFEND"
  /** The opening of the Con agent's prompt. */
  const CritiqueOpening := AgentRole + "CRITIQUE"
  /** The opening of the judge's prompt. */
  const JudgeOpening := Preamble + "the judge."

  const DefendTemplate: Template := [
    Text(DefendOpening),
    Text(" this analysis.\nEquation: `"),
    Slot(EquationHole),
    Text("`\nAnalysis: `"),
    Slot(ReasoningHole),
    Text("`\n"),
    Slot(HistoryHole),
    Text("\nYour turn:")
  ]

  const CritiqueTemplate: Template := [
    Text(CritiqueOpening),
    Text(" this analysis.\nEquation: `"),
    Slot(EquationHole),
    Text("`\nAnalysis: `"),
    Slot(ReasoningHole),
    Text("`\n"),
    Slot(HistoryHole),
    Text("\nYour turn:")
  ]

  /** A prompt that asks the agent to defend the analysis. */
  ghost predicate IsDefendPrompt(p: string)
  {
    DefendOpening <= p
  }

  /** A prompt that asks the agent to critique the analysis. */
  ghost predicate IsCritiquePrompt(p: string)
  {
    CritiqueOpening <= p
  }

  /** No prompt is both a defend prompt and a critique prompt. */
  lemma DefendIsNotCritique(p: string)
    ensures IsDefendPrompt(p) ==> !IsCritiquePrompt(p)
  {
    if IsDefendPrompt(p) {
      assert p[|AgentRole|] == DefendOpening[|AgentRole|] == 'D';
      assert CritiqueOpening[|AgentRole|] == 'C';
    }
  }

  /** The judge's prompt is neither agent's prompt. */
  lemma JudgeIsNoAgent(p: string)
    requires JudgeOpening <= p
    ensures !IsDefendPrompt(p) && !IsCritiquePrompt(p)
  {
    assert p[|Preamble|] == JudgeOpening[|Preamble|] == 't';
    assert DefendOpening[|Preamble|] == CritiqueOpening[|Preamble|] == 'a';
  }

  /**
   * `_build_debate_agent_prompt`: the DEFEND template exactly when the stance
   * is "pro"; every other stance string, not only "con", gets CRITIQUE.
   */
  function BuildDebateAgentPrompt(summaryEquation: string, llmReasoning: string, stance: string,
                                  history: string := ""): string
  {
    Fill(if stance == "pro" then DefendTemplate else CritiqueTemplate,
         Fillers(summaryEquation, llmReasoning, history))
  }

  /**
   * An agent prompt defends exactly when the stance is "pro" and critiques otherwise,
   * and it carries the equation, the reasoning and the history it was given.
   */
  lemma AgentPromptShape(summaryEquation: string, llmReasoning: string, stance: string, history: string)
    ensures var p := BuildDebateAgentPrompt(summaryEquation, llmReasoning, stance, history);
      && (IsDefendPrompt(p) <==> stance == "pro")
      && (IsCritiquePrompt(p) <==> stance != "pro")
      && Contains(p, summaryEquation) && Contains(p, llmReasoning) && Contains(p, history)
  {
    var f := Fillers(summaryEquation, llmReasoning, history);
    var t := if stance == "pro" then DefendTemplate else CritiqueTemplate;
    FillStartsWith(t, f);
    DefendIsNotCritique(Fill(t, f));
    FillContainsSlot(t, f, EquationHole);
    FillContainsSlot(t, f, ReasoningHole);
    FillContainsSlot(t, f, HistoryHole);
  }

  const JudgeTemplate: Template := [
    Text(JudgeOpening),
    Text("\nEquation: `"),
    Slot(EquationHole),
    Text("`\nAnalysis: `"),
    Slot(ReasoningHole),
    Text("`\nTranscript:\n"),
    Slot(HistoryHole),
    Text("\nVerdict in JSON.")
  ]

  /** The judge's prompt built inline in `run_iterative_debate`. */
  function JudgePrompt(summaryEquation: string, llmReasoning: string, history: string): string
  {
    Fill(JudgeTemplate, Fillers(summaryEquation, llmReasoning, history))
  }

  /** The judge's prompt carries the equation, the reasoning and the whole transcript, and is neither agent's prompt. */
  lemma JudgePromptShape(summaryEquation: string, llmReasoning: string, history: string)
    ensures var p := JudgePrompt(summaryEquation, llmReasoning, history);
      && Contains(p, summaryEquation) && Contains(p, llmReasoning) && Contains(p, history)
      && !IsDefendPrompt(p) && !IsCritiquePrompt(p)
  {
    var f := Fillers(summaryEquation, llmReasoning, history);
    FillStartsWith(JudgeTemplate, f);
    JudgeIsNoAgent(Fill(JudgeTemplate, f));
    FillContainsSlot(JudgeTemplate, f, EquationHole);
    FillContainsSlot(JudgeTemplate, f, ReasoningHole);
    FillContainsSlot(JudgeTemplate, f, HistoryHole);
  }
}
