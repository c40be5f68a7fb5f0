/**
 * `run_iterative_debate`: `rounds` rounds of a Pro turn then a Con turn, each
 * prompt carrying the whole debate history so far, then one judge call whose
 * reply is parsed, with a fallback object when it is not JSON.
 *
 * The functions below say what the debate does for a given sequence of agent
 * replies; the method runs it against a scripted backend and is proved to
 * send exactly the calls they describe.
 */
module Debate {
  import opened Wrappers
  import opened Json
  import opened Prompts
  import opened Ollama

  // ------------------------------------------------------------------------
  // Round labels: `f"{i+1}"`
  // ------------------------------------------------------------------------

  function Digit(d: nat): char
    requires d < 10
  {
    ('0' as int + d) as char
  }

  /** Python's `str(n)` for a natural number: its base-ten digits. */
  function Decimal(n: nat): string
    decreases n
  {
    if n < 10 then [Digit(n)] else Decimal(n / 10) + [Digit(n % 10)]
  }

  /** A round label is a non-empty string of base-ten digits. */
  lemma {:induction false} DecimalDigits(n: nat)
    ensures |Decimal(n)| >= 1
    ensures forall i :: 0 <= i < |Decimal(n)| ==> '0' <= Decimal(n)[i] <= '9'
    decreases n
  {
    if n >= 10 {
      DecimalDigits(n / 10);
    }
  }

  /** The number a string of base-ten digits denotes. */
  function DecimalValue(s: string): int
    decreases |s|
  {
    if s == [] then 0
    else DecimalValue(s[..|s| - 1]) * 10 + (s[|s| - 1] as int - '0' as int)
  }

  /** A round label reads back as the round's number, so labels of distinct rounds differ. */
  lemma {:induction false} DecimalRoundTrip(n: nat)
    ensures DecimalValue(Decimal(n)) == n
    decreases n
  {
    if n >= 10 {
      var s := Decimal(n);
      assert s[..|s| - 1] == Decimal(n / 10);
      DecimalRoundTrip(n / 10);
    }
  }

  // ------------------------------------------------------------------------
  // The debate history
  // ------------------------------------------------------------------------

  /** `history` before the first turn. */
  const HistoryHeader := "Debate History:\n"

  /** The stance argument of the t-th agent call (counting from 0): Pro first, then alternating. */
  function StanceOfTurn(t: nat): string
  {
    if t % 2 == 0 then "pro" else "con"
  }

  /** The role tag of turn t in the history. */
  function RoleLabel(t: nat): string
  {
    if t % 2 == 0 then " (Pro): " else " (Con): "
  }

  /** The line turn t appends to the history: `Round {i+1} (Pro|Con): <reply>`. */
  function TurnLine(t: nat, reply: string): string
  {
    "Round " + Decimal(t / 2 + 1) + RoleLabel(t) + reply + "\n"
  }

  lemma TurnParity(i: nat)
    ensures StanceOfTurn(2 * i) == "pro" && StanceOfTurn(2 * i + 1) == "con"
    ensures RoleLabel(2 * i) == " (Pro): " && RoleLabel(2 * i + 1) == " (Con): "
    ensures (2 * i) / 2 == i && (2 * i + 1) / 2 == i
    ensures (2 * i) % 2 == 0 && (2 * i + 1) % 2 == 1
  {
  }

  lemma ProLine(i: nat, reply: string)
    ensures TurnLine(2 * i, reply) == "Round " + Decimal(i + 1) + " (Pro): " + reply + "\n"
  {
    TurnParity(i);
  }

  lemma ConLine(i: nat, reply: string)
    ensures TurnLine(2 * i + 1, reply) == "Round " + Decimal(i + 1) + " (Con): " + reply + "\n"
  {
    TurnParity(i);
  }

  /** The lines the given agent replies add, in turn order. */
  function Lines(replies: seq<string>): string
    decreases |replies|
  {
    if replies == [] then ""
    else Lines(replies[..|replies| - 1]) + TurnLine(|replies| - 1, replies[|replies| - 1])
  }

  /** `history` once the agents have given `replies`, oldest first. */
  function History(replies: seq<string>): string
  {
    HistoryHeader + Lines(replies)
  }

  lemma HistoryAppend(replies: seq<string>, reply: string)
    ensures History(replies + [reply]) == History(replies) + TurnLine(|replies|, reply)
  {
    assert (replies + [reply])[..|replies|] == replies;
  }

  lemma PrefixOfAppend(a: string, b: string)
    ensures a <= a + b
  {
    assert (a + b)[..|a|] == a;
  }

  lemma PrefixTransitive(a: string, b: string, c: string)
    requires a <= b && b <= c
    ensures a <= c
  {
    assert c[..|a|] == b[..|a|];
  }

  /** A line that a prefix of `s` ends with occurs in `s`. */
  lemma LineInExtension(before: string, line: string, s: string)
    requires before + line <= s
    ensures Contains(s, line)
  {
    ContainsItself(line);
    ContainsInContext(before, line, "", line);
    assert before + line + "" == before + line;
    ContainsInExtension(before + line, s, line);
  }

  /**
   * The history any prompt sees is a prefix of the history every later prompt sees,
   * and a proper one once a turn has been taken in between.
   */
  lemma {:induction false} HistoryGrows(replies: seq<string>, j: nat, k: nat)
    requires j <= k <= |replies|
    ensures History(replies[..j]) <= History(replies[..k])
    ensures j < k ==> History(replies[..j]) < History(replies[..k])
    decreases k
  {
    if j < k {
      HistoryGrows(replies, j, k - 1);
      assert replies[..k] == replies[..k - 1] + [replies[k - 1]];
      HistoryAppend(replies[..k - 1], replies[k - 1]);
      assert |TurnLine(k - 1, replies[k - 1])| > 0;
      PrefixOfAppend(History(replies[..k - 1]), TurnLine(k - 1, replies[k - 1]));
      PrefixTransitive(History(replies[..j]), History(replies[..k - 1]), History(replies[..k]));
    }
  }

  /** Every turn stays in the history, tagged with its round and role. */
  lemma TurnInHistory(replies: seq<string>, t: nat)
    requires t < |replies|
    ensures Contains(History(replies), TurnLine(t, replies[t]))
  {
    assert replies[..t + 1] == replies[..t] + [replies[t]];
    HistoryAppend(replies[..t], replies[t]);
    HistoryGrows(replies, t + 1, |replies|);
    assert replies[..|replies|] == replies;
    LineInExtension(History(replies[..t]), TurnLine(t, replies[t]), History(replies));
  }

  // ------------------------------------------------------------------------
  // The calls a debate makes
  // ------------------------------------------------------------------------

  /** The prompt of agent turn t: Pro on even turns, Con on odd ones, carrying the history so far. */
  function AgentPrompt(summaryEquation: string, llmReasoning: string, t: nat, history: string): string
  {
    BuildDebateAgentPrompt(summaryEquation, llmReasoning, StanceOfTurn(t), history)
  }

  /** The agent calls made while the agents give `replies`: call t carries the history of the turns before it. */
  function AgentCalls(summaryEquation: string, llmReasoning: string, replies: seq<string>): (calls: seq<Call>)
    ensures |calls| == |replies|
  {
    seq(|replies|, t requires 0 <= t < |replies| =>
      Call(AgentPrompt(summaryEquation, llmReasoning, t, History(replies[..t])), DefaultModel, PointFive))
  }

  /** The next agent turn adds one call, whose prompt carries the history so far. */
  lemma AgentCallsAppend(summaryEquation: string, llmReasoning: string, replies: seq<string>, reply: string)
    ensures AgentCalls(summaryEquation, llmReasoning, replies + [reply])
         == AgentCalls(summaryEquation, llmReasoning, replies)
            + [Call(AgentPrompt(summaryEquation, llmReasoning, |replies|, History(replies)), DefaultModel, PointFive)]
  {
    var longer := replies + [reply];
    forall t | 0 <= t < |replies|
      ensures longer[..t] == replies[..t]
    {
    }
    assert longer[..|replies|] == replies;
  }

  /** Agent prompts alternate: defend on even turns, critique on odd ones; each carries its inputs. */
  lemma AgentPromptStance(summaryEquation: string, llmReasoning: string, t: nat, history: string)
    ensures var p := AgentPrompt(summaryEquation, llmReasoning, t, history);
      && (IsDefendPrompt(p) <==> t % 2 == 0)
      && (IsCritiquePrompt(p) <==> t % 2 == 1)
      && Contains(p, summaryEquation) && Contains(p, llmReasoning) && Contains(p, history)
  {
    AgentPromptShape(summaryEquation, llmReasoning, StanceOfTurn(t), history);
    assert StanceOfTurn(t) == "pro" <==> t % 2 == 0;
  }

  lemma AgentPromptOfRound(summaryEquation: string, llmReasoning: string, i: nat, history: string)
    ensures AgentPrompt(summaryEquation, llmReasoning, 2 * i, history)
         == BuildDebateAgentPrompt(summaryEquation, llmReasoning, "pro", history)
    ensures AgentPrompt(summaryEquation, llmReasoning, 2 * i + 1, history)
         == BuildDebateAgentPrompt(summaryEquation, llmReasoning, "con", history)
  {
    TurnParity(i);
  }

  /** All calls of a debate whose agents gave `replies`: the agent calls, then the judge call. */
  function DebateCalls(summaryEquation: string, llmReasoning: string, replies: seq<string>): seq<Call>
  {
    AgentCalls(summaryEquation, llmReasoning, replies)
      + [Call(JudgePrompt(summaryEquation, llmReasoning, History(replies)), DefaultModel, PointOne)]
  }

  lemma AgentCallIs(summaryEquation: string, llmReasoning: string, replies: seq<string>, t: nat)
    requires t < |replies|
    ensures DebateCalls(summaryEquation, llmReasoning, replies)[t]
         == Call(AgentPrompt(summaryEquation, llmReasoning, t, History(replies[..t])), DefaultModel, PointFive)
  {
    assert DebateCalls(summaryEquation, llmReasoning, replies)[t] == AgentCalls(summaryEquation, llmReasoning, replies)[t];
  }

  /**
   * The call schedule: one agent call per reply, all at temperature 0.5 on the
   * default model, Pro on even turns and Con on odd ones, each carrying the
   * history of the turns before it; then exactly one judge call at 0.1.
   */
  lemma DebateSchedule(summaryEquation: string, llmReasoning: string, replies: seq<string>)
    ensures var calls := DebateCalls(summaryEquation, llmReasoning, replies);
      && |calls| == |replies| + 1
      && (forall t :: 0 <= t < |replies| ==>
            && calls[t].model == DefaultModel
            && calls[t].temperature == PointFive
            && (IsDefendPrompt(calls[t].prompt) <==> t % 2 == 0)
            && (IsCritiquePrompt(calls[t].prompt) <==> t % 2 == 1)
            && Contains(calls[t].prompt, History(replies[..t])))
      && calls[|replies|] == Call(JudgePrompt(summaryEquation, llmReasoning, History(replies)), DefaultModel, PointOne)
      && !IsDefendPrompt(calls[|replies|].prompt)
      && !IsCritiquePrompt(calls[|replies|].prompt)
  {
    var calls := DebateCalls(summaryEquation, llmReasoning, replies);
    JudgePromptShape(summaryEquation, llmReasoning, History(replies));
    forall t | 0 <= t < |replies|
      ensures && calls[t].model == DefaultModel
              && calls[t].temperature == PointFive
              && (IsDefendPrompt(calls[t].prompt) <==> t % 2 == 0)
              && (IsCritiquePrompt(calls[t].prompt) <==> t % 2 == 1)
              && Contains(calls[t].prompt, History(replies[..t]))
    {
      AgentCallIs(summaryEquation, llmReasoning, replies, t);
      AgentPromptStance(summaryEquation, llmReasoning, t, History(replies[..t]));
    }
  }

  /** An agent prompt carries every turn taken before it, not only the latest. */
  lemma AgentSeesEarlierTurns(summaryEquation: string, llmReasoning: string, replies: seq<string>, s: nat, t: nat)
    requires s < t < |replies|
    ensures Contains(DebateCalls(summaryEquation, llmReasoning, replies)[t].prompt, TurnLine(s, replies[s]))
  {
    AgentCallIs(summaryEquation, llmReasoning, replies, t);
    AgentPromptStance(summaryEquation, llmReasoning, t, History(replies[..t]));
    TurnInHistory(replies[..t], s);
    ContainsTransitive(DebateCalls(summaryEquation, llmReasoning, replies)[t].prompt, History(replies[..t]),
                       TurnLine(s, replies[s]));
  }

  /** The Con prompt of round i+1 already holds that round's Pro reply. */
  lemma ConSeesSameRoundPro(summaryEquation: string, llmReasoning: string, replies: seq<string>, i: nat)
    requires 2 * i + 1 < |replies|
    ensures var con := DebateCalls(summaryEquation, llmReasoning, replies)[2 * i + 1].prompt;
      && IsCritiquePrompt(con)
      && Contains(con, "Round " + Decimal(i + 1) + " (Pro): " + replies[2 * i] + "\n")
  {
    var t := 2 * i + 1;
    TurnParity(i);
    AgentCallIs(summaryEquation, llmReasoning, replies, t);
    AgentPromptStance(summaryEquation, llmReasoning, t, History(replies[..t]));
    AgentSeesEarlierTurns(summaryEquation, llmReasoning, replies, 2 * i, t);
    ProLine(i, replies[2 * i]);
  }

  /** The Pro prompt of round i+2 holds the Con reply of round i+1. */
  lemma ProSeesPreviousCon(summaryEquation: string, llmReasoning: string, replies: seq<string>, i: nat)
    requires 2 * i + 2 < |replies|
    ensures var pro := DebateCalls(summaryEquation, llmReasoning, replies)[2 * i + 2].prompt;
      && IsDefendPrompt(pro)
      && Contains(pro, "Round " + Decimal(i + 1) + " (Con): " + replies[2 * i + 1] + "\n")
  {
    var t := 2 * i + 2;
    TurnParity(i + 1);
    AgentCallIs(summaryEquation, llmReasoning, replies, t);
    AgentPromptStance(summaryEquation, llmReasoning, t, History(replies[..t]));
    AgentSeesEarlierTurns(summaryEquation, llmReasoning, replies, 2 * i + 1, t);
    ConLine(i, replies[2 * i + 1]);
  }

  /** The judge sees the equation, the original reasoning and every turn of the debate. */
  lemma JudgeSeesEverything(summaryEquation: string, llmReasoning: string, replies: seq<string>)
    ensures var judge := DebateCalls(summaryEquation, llmReasoning, replies)[|replies|].prompt;
      && Contains(judge, summaryEquation)
      && Contains(judge, llmReasoning)
      && Contains(judge, History(replies))
      && forall t :: 0 <= t < |replies| ==> Contains(judge, TurnLine(t, replies[t]))
  {
    var judge := DebateCalls(summaryEquation, llmReasoning, replies)[|replies|].prompt;
    JudgePromptShape(summaryEquation, llmReasoning, History(replies));
    forall t | 0 <= t < |replies|
      ensures Contains(judge, TurnLine(t, replies[t]))
    {
      TurnInHistory(replies, t);
      ContainsTransitive(judge, History(replies), TurnLine(t, replies[t]));
    }
  }

  // ------------------------------------------------------------------------
  // The judge's verdict
  // ------------------------------------------------------------------------

  const JudgeParseError := "Failed to parse the judge's final JSON output."

  /**
   * What `run_iterative_debate` returns for the judge's reply `text`: the parsed
   * value unchanged, or, when `text` is not JSON, an object with exactly the
   * keys "error" and "raw_output", the latter holding `text`.
   */
  function JudgeVerdict(parse: Parser, text: string): (v: JsonValue)
    ensures parse(text).Some? ==> v == parse(text).value
    ensures parse(text).None? ==>
      && v.JObject?
      && Keys(v) == ["error", "raw_output"]
      && Get(v, "error") == Some(JString(JudgeParseError))
      && Get(v, "raw_output") == Some(JString(text))
  {
    match parse(text)
    case Some(parsed) => parsed
    case None =>
      var ms := [("error", JString(JudgeParseError)), ("raw_output", JString(text))];
      assert "error"[0] != "raw_output"[0];
      assert ms[1..] == [("raw_output", JString(text))];
      assert Find(ms, "raw_output") == Find(ms[1..], "raw_output");
      assert Keys(JObject(ms)) == ["error", "raw_output"];
      JObject(ms)
  }

  // ------------------------------------------------------------------------
  // The driver
  // ------------------------------------------------------------------------

  /** How many times `range(rounds)` iterates. */
  function RoundCount(rounds: int): nat
  {
    if rounds > 0 then rounds else 0
  }

  /** The replies a backend's script gives to `count` requests, starting at request `start`. */
  function ScriptedReplies(script: nat -> Outcome, start: nat, count: nat): (rs: seq<string>)
    ensures |rs| == count
    decreases count
  {
    if count == 0 then [] else ScriptedReplies(script, start, count - 1) + [ReplyText(script(start + count - 1))]
  }

  /** Reply k of the scripted replies is the reply the script gives to request `start + k`. */
  lemma {:induction false} ScriptedReplyAt(script: nat -> Outcome, start: nat, count: nat, k: nat)
    requires k < count
    ensures ScriptedReplies(script, start, count)[k] == ReplyText(script(start + k))
    decreases count
  {
    var earlier := ScriptedReplies(script, start, count - 1);
    assert ScriptedReplies(script, start, count) == earlier + [ReplyText(script(start + count - 1))];
    if k < count - 1 {
      ScriptedReplyAt(script, start, count - 1, k);
    }
  }

  /** The reply to the next request extends the scripted replies by one. */
  lemma ScriptedRepliesNext(script: nat -> Outcome, start: nat, count: nat, replies: seq<string>, k: nat, reply: string)
    requires replies == ScriptedReplies(script, start, count)
    requires k == start + count && reply == ReplyText(script(k))
    ensures replies + [reply] == ScriptedReplies(script, start, count + 1)
  {
  }

  /** The agent calls followed by the judge call on the final history are the whole debate's calls. */
  lemma DebateLog(prefix: seq<Call>, agentLog: seq<Call>, log: seq<Call>, summaryEquation: string,
                  llmReasoning: string, replies: seq<string>)
    requires agentLog == prefix + AgentCalls(summaryEquation, llmReasoning, replies)
    requires log == agentLog + [Call(JudgePrompt(summaryEquation, llmReasoning, History(replies)), DefaultModel, PointOne)]
    ensures log == prefix + DebateCalls(summaryEquation, llmReasoning, replies)
  {
    assert prefix + AgentCalls(summaryEquation, llmReasoning, replies)
             + [Call(JudgePrompt(summaryEquation, llmReasoning, History(replies)), DefaultModel, PointOne)]
        == prefix + DebateCalls(summaryEquation, llmReasoning, replies);
  }

  /*
   * The two regroupings below are stated as lemmas rather than asserted inside
   * AgentTurn: proved there, amid the prompt and history terms, they exceed the
   * solver's resource limit, while a call only adds the instantiated fact.
   */
  lemma ConcatAssoc<T>(a: seq<T>, b: seq<T>, c: seq<T>)
    ensures a + b + c == a + (b + c)
  {
  }

  /** Appending a turn's pieces one by one, as the loop does, appends its whole line. */
  lemma AppendLine(history: string, number: string, role: string, reply: string)
    ensures history + "Round " + number + role + reply + "\n" == history + ("Round " + number + role + reply + "\n")
  {
  }

  /**
   * One agent's turn inside the debate loop: build the agent prompt for `stance` on the
   * history so far, send it at temperature 0.5, and append `Round {round+1}{role}<reply>`.
   * It is the next turn of the debate: the reply is the backend's next scripted reply, and
   * the history and the log extend by that turn.
   */
  method AgentTurn(backend: Backend, summaryEquation: string, llmReasoning: string,
                   ghost prefix: seq<Call>, ghost start: nat, ghost replies: seq<string>, ghost t: nat,
                   history: string, stance: string, round: nat, role: string)
    returns (newHistory: string, ghost newReplies: seq<string>)
    requires |replies| == t && t / 2 == round && |backend.log| == start + t
    requires StanceOfTurn(t) == stance && RoleLabel(t) == role
    requires replies == ScriptedReplies(backend.script, start, t)
    requires history == History(replies)
    requires backend.log == prefix + AgentCalls(summaryEquation, llmReasoning, replies)
    modifies backend
    ensures |newReplies| == t + 1 && |backend.log| == start + t + 1
    ensures newReplies == ScriptedReplies(backend.script, start, t + 1)
    ensures newHistory == History(newReplies)
    ensures backend.log == prefix + AgentCalls(summaryEquation, llmReasoning, newReplies)
  {
    var prompt := BuildDebateAgentPrompt(summaryEquation, llmReasoning, stance, history);
    var argument := backend.Send(prompt, temperature := PointFive);
    ScriptedRepliesNext(backend.script, start, t, replies, |old(backend.log)|, argument);
    newHistory := history + "Round " + Decimal(round + 1) + role + argument + "\n";
    AppendLine(history, Decimal(round + 1), role, argument);
    HistoryAppend(replies, argument);
    AgentCallsAppend(summaryEquation, llmReasoning, replies, argument);
    ConcatAssoc(prefix, AgentCalls(summaryEquation, llmReasoning, replies), [Call(prompt, DefaultModel, PointFive)]);
    newReplies := replies + [argument];
  }

  /**
   * One round of the debate loop: the Pro agent argues on the history so far, then the Con
   * agent answers on the history that now holds the Pro argument.
   */
  method PlayRound(backend: Backend, summaryEquation: string, llmReasoning: string,
                   ghost prefix: seq<Call>, ghost start: nat, ghost replies: seq<string>, i: nat, history: string)
    returns (newHistory: string, ghost newReplies: seq<string>)
    requires |replies| == 2 * i && |backend.log| == start + 2 * i
    requires replies == ScriptedReplies(backend.script, start, |replies|)
    requires history == History(replies)
    requires backend.log == prefix + AgentCalls(summaryEquation, llmReasoning, replies)
    modifies backend
    ensures |newReplies| == 2 * (i + 1) && |backend.log| == start + 2 * (i + 1)
    ensures newReplies == ScriptedReplies(backend.script, start, |newReplies|)
    ensures newHistory == History(newReplies)
    ensures backend.log == prefix + AgentCalls(summaryEquation, llmReasoning, newReplies)
  {
    TurnParity(i);
    // Pro agent's turn
    newHistory, newReplies := AgentTurn(backend, summaryEquation, llmReasoning, prefix, start, replies, 2 * i,
                                        history, "pro", i, " (Pro): ");
    // Con agent's turn
    newHistory, newReplies := AgentTurn(backend, summaryEquation, llmReasoning, prefix, start, newReplies, 2 * i + 1,
                                        newHistory, "con", i, " (Con): ");
  }

  /** The debate loop: `rounds` rounds of Pro then Con, each agent shown the history built so far. */
  method DebateRounds(backend: Backend, summaryEquation: string, llmReasoning: string, rounds: int)
    returns (history: string, ghost replies: seq<string>)
    modifies backend
    ensures |replies| == 2 * RoundCount(rounds) && |backend.log| == |old(backend.log)| + |replies|
    ensures replies == ScriptedReplies(backend.script, |old(backend.log)|, |replies|)
    ensures history == History(replies)
    ensures backend.log == old(backend.log) + AgentCalls(summaryEquation, llmReasoning, replies)
  {
    ghost var start := |backend.log|;
    replies := [];
    history := HistoryHeader;
    for i := 0 to RoundCount(rounds)
      invariant |replies| == 2 * i && |backend.log| == start + 2 * i
      invariant replies == ScriptedReplies(backend.script, start, |replies|)
      invariant history == History(replies)
      invariant backend.log == old(backend.log) + AgentCalls(summaryEquation, llmReasoning, replies)
    {
      history, replies := PlayRound(backend, summaryEquation, llmReasoning, old(backend.log), start, replies, i, history);
    }
  }

  method RunIterativeDebate(backend: Backend, summaryEquation: string, llmReasoning: string, parse: Parser,
                            rounds: int := 2)
    returns (verdict: JsonValue)
    modifies backend
    ensures rounds <= 0 ==> |backend.log| == |old(backend.log)| + 1
    ensures rounds > 0 ==> |backend.log| == |old(backend.log)| + 2 * rounds + 1
    ensures backend.log == old(backend.log)
      + DebateCalls(summaryEquation, llmReasoning,
                    ScriptedReplies(backend.script, |old(backend.log)|, 2 * RoundCount(rounds)))
    ensures verdict == JudgeVerdict(parse, ReplyText(backend.script(|old(backend.log)| + 2 * RoundCount(rounds))))
  {
    var history, replies := DebateRounds(backend, summaryEquation, llmReasoning, rounds);
    ghost var agentLog := backend.log;
    ghost var judgeOutcome := backend.script(|agentLog|);
    assert judgeOutcome == backend.script(|old(backend.log)| + 2 * RoundCount(rounds));

    // Judge's final turn
    var judgePrompt := JudgePrompt(summaryEquation, llmReasoning, history);
    var finalJudgement := backend.Send(judgePrompt);
    assert finalJudgement == ReplyText(judgeOutcome);
    DebateLog(old(backend.log), agentLog, backend.log, summaryEquation, llmReasoning, replies);
    var parsed := parse(finalJudgement);
    if parsed.Some? {
      verdict := parsed.value;
    } else {
      verdict := JObject([("error", JString(JudgeParseError)), ("raw_output", JString(finalJudgement))]);
    }
    assert verdict == JudgeVerdict(parse, finalJudgement);
  }
}
