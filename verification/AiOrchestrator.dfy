/** `AiOrchestratorService.execute`: bounded retries, guardrails and one audit row per answer. */
module AiOrchestrator {
  import opened Database
  import opened Statements

  const AI_MAX_TECHNICAL_RETRIES: nat := 2

  /** One call of the provider: it throws, or it answers with content that parses or not, meets the
      schema or not, and is prohibited or not. */
  datatype Reply = Throws(error: string) | Content(json: bool, schema: bool, prohibited: bool)

  /** One row of the table of executions: COMPLETED is a delivery, FAILED a rejection. */
  datatype Execution = Execution(status: Verdict, errorMessage: Option<string>, withResponse: bool, withOutput: bool)

  /** `None` is the exception for an unknown prompt version or task. */
  datatype Outcome = Returned(status: Verdict, withOutput: bool)

  /** The replies of a call that the provider would be asked for: three at most. */
  predicate Enough(replies: seq<Reply>) {
    |replies| == AI_MAX_TECHNICAL_RETRIES + 1
  }

  /** The first reply that is not an exception. */
  function FirstAnswer(replies: seq<Reply>): (n: nat)
    ensures n <= |replies| && (n < |replies| ==> replies[n].Content?)
    ensures forall i | 0 <= i < n :: replies[i].Throws?
  {
    if replies == [] || replies[0].Content? then 0 else FirstAnswer(replies[1..]) + 1
  }

  predicate Passes(reply: Reply) {
    reply.Content? && reply.json && reply.schema && !reply.prohibited
  }

  /** What the reading engine knows about one call of `execute`. */
  function ChecksOf(risky: bool, replies: seq<Reply>): Checks {
    var n := FirstAnswer(replies);
    if n == |replies| then Checks(!risky, false, false, false, false)
    else Checks(!risky, true, replies[n].json, replies[n].schema, !replies[n].prohibited)
  }

  function Refusal(response: Reply): Option<string>
    requires response.Content?
  {
    if !response.json then Some("invalid_json_output")
    else if !response.schema then Some("schema_validation_failed")
    else if response.prohibited then Some("blocked_by_output_guardrail")
    else None
  }

  /** The error that the audit row keeps: the reason of the first check that failed. */
  function ErrorOf(risky: bool, replies: seq<Reply>): Option<string>
    requires Enough(replies)
  {
    var n := FirstAnswer(replies);
    if risky then Some("blocked_by_risk_guardrail")
    else if n == |replies| then Some(replies[n - 1].error)
    else Refusal(replies[n])
  }

  predicate Answered(risky: bool, replies: seq<Reply>) {
    !risky && FirstAnswer(replies) < |replies|
  }

  /** The calls of the provider: none for a risky question, and none after the first answer. */
  function Calls(risky: bool, replies: seq<Reply>): nat {
    if risky then 0 else if Answered(risky, replies) then FirstAnswer(replies) + 1 else |replies|
  }

  /** The first answer is reply `n`, after `n` exceptions. */
  ghost predicate AnswersAt(replies: seq<Reply>, n: nat) {
    n < |replies| && replies[n].Content? && forall i | 0 <= i < n :: replies[i].Throws?
  }

  /** The audit row of an answer: the first check that it fails, or COMPLETED with its output. */
  ghost predicate IsAudit(e: Execution, response: Reply)
    requires response.Content?
  {
    if !response.json then e == Execution(Rejected, Some("invalid_json_output"), true, false)
    else if !response.schema then e == Execution(Rejected, Some("schema_validation_failed"), true, false)
    else if response.prohibited then e == Execution(Rejected, Some("blocked_by_output_guardrail"), true, false)
    else e == Execution(Delivered, None, true, true)
  }

  /** The audit row of a call, and how often it asked the provider: never for a risky question, and
      otherwise until it answers, three times at most. */
  ghost predicate IsCall(risky: bool, replies: seq<Reply>, e: Execution, calls: nat)
    requires |replies| == 3
  {
    if risky then e == Execution(Rejected, Some("blocked_by_risk_guardrail"), false, false) && calls == 0
    else if replies[0].Throws? && replies[1].Throws? && replies[2].Throws? then
      e == Execution(Rejected, Some(replies[2].error), false, false) && calls == 3
    else exists n: nat :: AnswersAt(replies, n) && IsAudit(e, replies[n]) && calls == n + 1
  }

  class AiOrchestratorService {
    var executions: seq<Execution>
    var providerCalls: nat

    constructor ()
      ensures executions == [] && providerCalls == 0
    {
      executions, providerCalls := [], 0;
    }

    method CreateExecution(status: Verdict, errorMessage: Option<string>, withResponse: bool, withOutput: bool)
      modifies this`executions
      ensures executions == old(executions) + [Execution(status, errorMessage, withResponse, withOutput)]
    {
      executions := executions + [Execution(status, errorMessage, withResponse, withOutput)];
    }

    /** Every call that returns wrote one row with the returned status, after three calls of the
        provider at most and none for a risky question. */
    method Execute(version: bool, task: bool, risky: bool, replies: seq<Reply>) returns (result: Option<Outcome>)
      requires Enough(replies)
      modifies this
      ensures result.None? <==> !version || !task
      ensures result.None? ==> executions == old(executions) && providerCalls == old(providerCalls)
      ensures result.Some? ==>
                && executions == old(executions) + [Execution(result.value.status, ErrorOf(risky, replies),
                                                              Answered(risky, replies), result.value.withOutput)]
                && result.value.status == Verdicts(ChecksOf(risky, replies))
                && (result.value.withOutput <==> result.value.status == Delivered)
                && (result.value.status == Delivered <==> ErrorOf(risky, replies).None?)
                && providerCalls == old(providerCalls) + Calls(risky, replies)
                && providerCalls <= old(providerCalls) + 3
      ensures result.Some? ==>
                && |executions| == |old(executions)| + 1 && executions[..|old(executions)|] == old(executions)
                && var e := executions[|old(executions)|];
                   && result.value == Returned(e.status, e.withOutput)
                   && providerCalls >= old(providerCalls)
                   && IsCall(risky, replies, e, providerCalls - old(providerCalls))
    {
      if !version || !task {
        return None;
      }
      if risky {
        CreateExecution(Rejected, Some("blocked_by_risk_guardrail"), false, false);
        return Some(Returned(Rejected, false));
      }
      var response: Option<Reply> := None;
      var lastError := "Unknown provider error";
      var attempt := 0;
      while attempt <= AI_MAX_TECHNICAL_RETRIES
        invariant attempt <= AI_MAX_TECHNICAL_RETRIES + 1
        invariant response == None && providerCalls == old(providerCalls) + attempt && executions == old(executions)
        invariant forall i | 0 <= i < attempt :: replies[i].Throws?
        invariant attempt > 0 ==> replies[attempt - 1].Throws? && lastError == replies[attempt - 1].error
      {
        providerCalls := providerCalls + 1;
        match replies[attempt] {
          case Content(_, _, _) =>
            response := Some(replies[attempt]);
            break;
          case Throws(error) =>
            lastError := error;
        }
        attempt := attempt + 1;
      }
      if response == None {
        CreateExecution(Rejected, Some(lastError), false, false);
        return Some(Returned(Rejected, false));
      }
      var outcome := HandleResponse(response.value);
      return Some(outcome);
    }

    method HandleResponse(response: Reply) returns (outcome: Outcome)
      requires response.Content?
      modifies this`executions
      ensures executions == old(executions) + [Execution(outcome.status, Refusal(response), true, outcome.withOutput)]
      ensures outcome.status == Delivered <==> Passes(response)
      ensures outcome.withOutput <==> Passes(response)
      ensures |executions| == |old(executions)| + 1 && executions[..|old(executions)|] == old(executions)
      ensures IsAudit(executions[|old(executions)|], response)
      ensures outcome == Returned(executions[|old(executions)|].status, executions[|old(executions)|].withOutput)
    {
      if !response.json {
        CreateExecution(Rejected, Some("invalid_json_output"), true, false);
        return Returned(Rejected, false);
      }
      if !response.schema {
        CreateExecution(Rejected, Some("schema_validation_failed"), true, false);
        return Returned(Rejected, false);
      }
      if response.prohibited {
        CreateExecution(Rejected, Some("blocked_by_output_guardrail"), true, false);
        return Returned(Rejected, false);
      }
      CreateExecution(Delivered, None, true, true);
      return Returned(Delivered, true);
    }
  }

  /** The engine's view of a call, and the call: delivered exactly when the question was safe and some
      reply, the first that was no exception, passes every check. */
  lemma DeliveredIff(risky: bool, replies: seq<Reply>)
    ensures Verdicts(ChecksOf(risky, replies)) == Delivered <==>
            !risky && exists n: nat :: n < |replies| && Passes(replies[n])
                                       && forall i | 0 <= i < n :: replies[i].Throws?
  {
    var n := FirstAnswer(replies);
    if m: nat :| m < |replies| && Passes(replies[m]) && forall i | 0 <= i < m :: replies[i].Throws? {
      assert m == n;
    } else if n < |replies| {
      assert !Passes(replies[n]);
    }
  }

  /** A provider that fails once or twice and then answers is as good as one that answers at once. */
  lemma RetriesAreInvisible(risky: bool, failures: seq<Reply>, answer: Reply, rest: seq<Reply>)
    requires answer.Content? && forall f | f in failures :: f.Throws?
    ensures ChecksOf(risky, failures + [answer] + rest) == ChecksOf(risky, [answer])
  {
    var replies := failures + [answer] + rest;
    var n := FirstAnswer(replies);
    assert replies[|failures|] == answer;
    assert forall i | 0 <= i < |failures| :: replies[i] in failures;
    assert n == |failures|;
    assert FirstAnswer([answer]) == 0;
  }
}
