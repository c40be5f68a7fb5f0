/**
 * `send_to_ollama` as an oracle. The HTTP request is not modelled: a backend
 * holds a script that says how the k-th request it receives turns out, and a
 * log of every request it has been sent, in order.
 */
module Ollama {
  import Prompts

  /** The model name `send_to_ollama` uses unless told otherwise. */
  const DefaultModel := "mistral"

  /** The two sampling temperatures the source passes: 0.1 (the default) and 0.5. */
  datatype Temperature = PointOne | PointFive

  /** One request as the backend receives it. */
  datatype Call = Call(prompt: string, model: string, temperature: Temperature)

  /** How one request turns out: the generated text, or the message of the request exception. */
  datatype Outcome = Delivered(text: string) | RequestFailed(reason: string)

  const SentinelOpening := "{\"error\": \"Failed to connect to Ollama API after multiple attempts: "

  /**
   * The JSON-shaped error text returned in place of a reply when the request
   * raises; it names the exception's message.
   */
  function ErrorSentinel(reason: string): string
  {
    SentinelOpening + reason + "\"}"
  }

  /** The error sentinel opens with the connection-failure message and carries the reason. */
  lemma ErrorSentinelNamesReason(reason: string)
    ensures SentinelOpening <= ErrorSentinel(reason)
    ensures Prompts.Contains(ErrorSentinel(reason), reason)
  {
    assert Prompts.OccursAt(ErrorSentinel(reason), reason, |SentinelOpening|);
  }

  function ReplyText(o: Outcome): string
  {
    match o
    case Delivered(text) => text
    case RequestFailed(reason) => ErrorSentinel(reason)
  }

  class Backend {
    /** How the k-th request sent to this backend (counting from 0) turns out. */
    const script: nat -> Outcome
    /** Every request sent so far, oldest first. */
    var log: seq<Call>

    constructor (script: nat -> Outcome)
      ensures this.script == script && log == []
    {
      this.script := script;
      log := [];
    }

    /**
     * One call of `send_to_ollama`: the request is logged, and the reply is the
     * scripted text or, when the request raises a request exception, the error
     * sentinel that the exception handler returns in its place.
     */
    method Send(prompt: string, model: string := DefaultModel, temperature: Temperature := PointOne)
      returns (reply: string)
      modifies this
      ensures log == old(log) + [Call(prompt, model, temperature)]
      ensures reply == ReplyText(script(|old(log)|))
    {
      var outcome := script(|log|);
      match outcome {
        case Delivered(text) =>
          reply := text;
        case RequestFailed(e) =>
          reply := ErrorSentinel(e);
      }
      log := log + [Call(prompt, model, temperature)];
    }
  }
}
