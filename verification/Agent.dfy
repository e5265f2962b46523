/** The agent: one model call, one parsed reply, one tool, one decision record
    (internal/agent/agent.go, internal/agent/tools.go). */
module Agent {
  import opened Wrappers
  import opened Events
  import opened Text

  // ---------------------------------------------------------------- tools

  const SEND_NOTIFICATION := "send_notification"
  const ESCALATE_TICKET := "escalate_ticket"
  const FLAG_FOR_REVIEW := "flag_for_review"
  const UPDATE_INVENTORY := "update_inventory"
  const SEND_WELCOME_SEQUENCE := "send_welcome_sequence"

  const VALID_ACTIONS := {SEND_NOTIFICATION, ESCALATE_TICKET, FLAG_FOR_REVIEW, UPDATE_INVENTORY, SEND_WELCOME_SEQUENCE}

  predicate ValidAction(action: string) {
    action in VALID_ACTIONS
  }

  datatype ToolResult = ToolResult(action: string, success: bool, details: string)

  datatype Reply = Reply(action: string, reasoning: string)

  /** What encoding/json and the prompt template do, left open: `field` reads one payload field as
      text ("" when the payload or the field is unusable), `reply` decodes a model answer, `quote` is
      the "%q" verb. */
  datatype Codec = Codec(
    field: (string, string) -> string,
    reply: string -> Option<Reply>,
    prompt: Event -> string,
    quote: string -> string)

  function SendNotification(c: Codec, payload: string): ToolResult {
    ToolResult(SEND_NOTIFICATION, true, "notification queued for customer " + c.field(payload, "customer_id"))
  }

  function EscalateTicket(c: Codec, payload: string): ToolResult {
    ToolResult(ESCALATE_TICKET, true,
      "ticket " + c.field(payload, "ticket_id") + " escalated (priority: " + c.field(payload, "priority") + ")")
  }

  function FlagForReview(c: Codec, payload: string): ToolResult {
    ToolResult(FLAG_FOR_REVIEW, true, "event flagged for review — payment " + c.field(payload, "payment_id"))
  }

  function UpdateInventory(c: Codec, payload: string): ToolResult {
    ToolResult(UPDATE_INVENTORY, true,
      "inventory reorder triggered for SKU " + c.field(payload, "sku") + " (" + c.field(payload, "current_stock")
      + " below threshold " + c.field(payload, "threshold") + ")")
  }

  function SendWelcomeSequence(c: Codec, payload: string): ToolResult {
    ToolResult(SEND_WELCOME_SEQUENCE, true,
      "welcome sequence started for " + c.field(payload, "email") + " (plan: " + c.field(payload, "plan") + ")")
  }

  function ExecuteAction(c: Codec, action: string, payload: string): ToolResult {
    if action == SEND_NOTIFICATION then SendNotification(c, payload)
    else if action == ESCALATE_TICKET then EscalateTicket(c, payload)
    else if action == FLAG_FOR_REVIEW then FlagForReview(c, payload)
    else if action == UPDATE_INVENTORY then UpdateInventory(c, payload)
    else if action == SEND_WELCOME_SEQUENCE then SendWelcomeSequence(c, payload)
    else ToolResult(action, false, "no handler for action " + c.quote(action))
  }

  // ---------------------------------------------------------------- decisions

  datatype Decision = Decision(
    id: string, eventId: string, eventType: string, action: string, reasoning: string,
    llmPrompt: string, llmResponse: string, success: bool, error: string,
    durationMs: int, llmDurationMs: int, retryCount: int, status: string, processedAt: string)

  const COMPLETED := "completed"
  const FAILED := "failed"
  const PERMANENTLY_FAILED := "permanently_failed"

  /** What the language model call came back with. */
  datatype Completion = Answer(text: string) | Unavailable(message: string)

  /** Values the clock and the id generator supply during one call. */
  datatype Stamp = Stamp(id: string, now: string, durationMs: int, llmMs: int, parseError: string)

  function TruncateStr(s: string, n: nat): string {
    if |s| <= n then s else s[..n] + "..."
  }

  /** A short text is kept whole, a long one cut after n characters and marked. */
  lemma TruncateKeeps(s: string, n: nat)
    ensures TruncateStr(s, n) == s <==> |s| <= n || (|s| == n + 3 && s[n..] == "...")
    ensures |s| > n ==> |TruncateStr(s, n)| == n + 3 && TruncateStr(s, n)[..n] == s[..n] && TruncateStr(s, n)[n..] == "..."
  {
    if |s| > n {
      assert TruncateStr(s, n)[..n] == s[..n] && TruncateStr(s, n)[n..] == "...";
      assert s == s[..n] + s[n..];
    }
  }

  class Agent {
    const codec: Codec
    var llmCalls: nat   // samples of the model-duration histogram

    constructor (codec: Codec)
      ensures this.codec == codec && llmCalls == 0
    {
      this.codec, this.llmCalls := codec, 0;
    }

    method FailedDecision(ev: Event, prompt: string, response: string, message: string, stamp: Stamp) returns (d: Decision)
      ensures d == Rejected(ev, prompt, response, message, stamp)
    {
      d := Decision(stamp.id, ev.id, ev.kind, "", "", prompt, response, false, message,
        stamp.durationMs, stamp.llmMs, 0, FAILED, stamp.now);
    }

    /** Ask the model, read its reply, run the tool, and record the decision. */
    method Process(ev: Event, completion: Completion, stamp: Stamp) returns (d: Decision, err: Option<string>)
      modifies this`llmCalls
      ensures llmCalls == old(llmCalls) + 1
      ensures (d, err) == Outcome(codec, ev, completion, stamp)
    {
      var prompt := codec.prompt(ev);
      llmCalls := llmCalls + 1;
      if completion.Unavailable? {
        d := FailedDecision(ev, prompt, "", completion.message, stamp);
        return d, Some("llm: " + completion.message);
      }
      var resp := completion.text;
      var parsed := codec.reply(ExtractJSON(resp));
      if parsed.None? {
        d := FailedDecision(ev, prompt, resp, "LLM returned non-JSON: " + TruncateStr(resp, 200), stamp);
        return d, Some("parse LLM response: " + stamp.parseError);
      }
      var action := parsed.value.action;
      if !ValidAction(action) {
        var msg := "LLM returned unknown action " + codec.quote(action);
        d := FailedDecision(ev, prompt, resp, msg, stamp);
        return d, Some(msg);
      }
      var result := ExecuteAction(codec, action, ev.payload);
      d := Decision(stamp.id, ev.id, ev.kind, action, parsed.value.reasoning, prompt, resp, result.success, "",
        stamp.durationMs, stamp.llmMs, 0, COMPLETED, stamp.now);
      if !result.success {
        d := d.(status := FAILED, error := result.details);
      }
      err := None;
    }
  }

  /** The record of a call that did not lead to an action. */
  function Rejected(ev: Event, prompt: string, response: string, message: string, stamp: Stamp): Decision {
    Decision(stamp.id, ev.id, ev.kind, "", "", prompt, response, false, message,
      stamp.durationMs, stamp.llmMs, 0, FAILED, stamp.now)
  }

  /** The action the model's answer names, if it can be read at all. */
  function Chosen(c: Codec, completion: Completion): Option<Reply> {
    if completion.Unavailable? then None else c.reply(ExtractJSON(completion.text))
  }

  /** Decision and error as a function of the model's answer. */
  function Outcome(c: Codec, ev: Event, completion: Completion, stamp: Stamp): (Decision, Option<string>) {
    var prompt := c.prompt(ev);
    var response := if completion.Answer? then completion.text else "";
    match Chosen(c, completion)
    case Some(reply) =>
      if ValidAction(reply.action) then
        (Decision(stamp.id, ev.id, ev.kind, reply.action, reply.reasoning, prompt, response, true, "",
           stamp.durationMs, stamp.llmMs, 0, COMPLETED, stamp.now), None)
      else
        var msg := "LLM returned unknown action " + c.quote(reply.action);
        (Rejected(ev, prompt, response, msg, stamp), Some(msg))
    case None =>
      if completion.Unavailable? then
        (Rejected(ev, prompt, "", completion.message, stamp), Some("llm: " + completion.message))
      else
        (Rejected(ev, prompt, response, "LLM returned non-JSON: " + TruncateStr(response, 200), stamp),
         Some("parse LLM response: " + stamp.parseError))
  }

  /** Every tool that can be reached succeeds, and reports the action it was asked for. */
  lemma ToolsSucceed(c: Codec, action: string, payload: string)
    ensures ExecuteAction(c, action, payload).success <==> ValidAction(action)
    ensures ExecuteAction(c, action, payload).action == action
  {
  }

  /** Classification: no error, success, status "completed" and a recorded valid action are one and the
      same thing, for every model answer and payload; and they hold exactly when the answer names one of
      the five actions. So a decision that failed never comes without an error. */
  lemma Classified(c: Codec, ev: Event, completion: Completion, stamp: Stamp)
    ensures var (d, err) := Outcome(c, ev, completion, stamp);
      var named := Chosen(c, completion).Some? && ValidAction(Chosen(c, completion).value.action);
      && (err.None? <==> named)
      && (d.success <==> named)
      && (d.status == COMPLETED <==> named)
      && (ValidAction(d.action) <==> named)
      && (!named ==> d.status == FAILED && d.action == "")
      && (named ==> d.action == Chosen(c, completion).value.action && d.error == "")
      && d.eventId == ev.id && d.eventType == ev.kind && d.id == stamp.id
  {
    assert !ValidAction("") by {
      assert forall a :: a in VALID_ACTIONS ==> |a| > 0;
    }
    assert COMPLETED[0] != FAILED[0];
  }

  /** A call that ends in an error leaves a record that cannot be taken for a decision and keeps what was asked
      and answered. */
  lemma FailuresRecorded(c: Codec, ev: Event, completion: Completion, stamp: Stamp)
    requires Outcome(c, ev, completion, stamp).1.Some?
    ensures var (d, err) := Outcome(c, ev, completion, stamp);
      && !d.success && d.status == FAILED && d.action == "" && !ValidAction(d.action)
      && d.eventId == ev.id && d.eventType == ev.kind
      && d.llmPrompt == c.prompt(ev) && d.llmResponse == (if completion.Answer? then completion.text else "")
      && (completion.Unavailable? ==> d.error == completion.message && err == Some("llm: " + d.error))
      && (Chosen(c, completion).Some? ==> err == Some(d.error))
      && (completion.Answer? && Chosen(c, completion).None? ==>
            && d.error == "LLM returned non-JSON: " + TruncateStr(completion.text, 200)
            && err == Some("parse LLM response: " + stamp.parseError))
      && d.durationMs == stamp.durationMs && d.llmDurationMs == stamp.llmMs && d.processedAt == stamp.now
  {
    Classified(c, ev, completion, stamp);
  }

  /** A call that succeeds records the action and the reasoning of the reply, what was asked and answered, and
      the times. */
  lemma SuccessesRecorded(c: Codec, ev: Event, completion: Completion, stamp: Stamp)
    requires Outcome(c, ev, completion, stamp).1.None?
    ensures var d := Outcome(c, ev, completion, stamp).0;
      && completion.Answer? && c.reply(ExtractJSON(completion.text)).Some?
      && Reply(d.action, d.reasoning) == c.reply(ExtractJSON(completion.text)).value && ValidAction(d.action)
      && d.success && d.status == "completed" && d.error == ""
      && d.id == stamp.id && d.eventId == ev.id && d.eventType == ev.kind
      && d.llmPrompt == c.prompt(ev) && d.llmResponse == completion.text
      && d.durationMs == stamp.durationMs && d.llmDurationMs == stamp.llmMs && d.processedAt == stamp.now
  {
    Classified(c, ev, completion, stamp);
  }

  /** An answer wrapped in prose or a code fence is classified like the bare object. */
  lemma WrappedAnswer(c: Codec, prefix: string, obj: string, suffix: string)
    requires '{' !in prefix && '}' !in suffix && IsObjectText(obj)
    ensures Chosen(c, Answer(prefix + obj + suffix)) == Chosen(c, Answer(obj)) == c.reply(obj)
  {
    ExtractFindsObject(prefix, obj, suffix);
    ObjectIsFixed(obj);
  }
}
