/**
 * The tool-call protocol of App.tsx:42-63 and 147-149. The remote model calls
 * `scheduleConsultation` with the client's details; the application stores
 * them, acknowledges the call by id and name, and records a synthetic transcript
 * entry naming the client and the legal issue. Calls with any other name are
 * ignored. A message may carry several calls; they are handled in list order.
 * The functions here describe the effect of a list of calls; the session class
 * carries them out one call at a time.
 */
module ToolCalls {
  import opened Types

  const ScheduleConsultation := "scheduleConsultation"

  const Acknowledgement := "Consultation request recorded. I will inform the team at Potter Padilla & Pfau."

  /** One function call requested by the remote model. */
  datatype FunctionCall = FunctionCall(id: string, name: string, args: ConsultationDetails)

  /** The response sent back for a function call. */
  datatype ToolResponse = ToolResponse(id: string, name: string, result: string)

  const SummaryLead := "[SYSTEM] Consultation details captured for "
  const SummaryMiddle := " regarding "

  /** The synthetic transcript text of a captured consultation; absent fields
      read as "undefined", as in the template literal. */
  function Summary(args: ConsultationDetails): (t: string)
    ensures |t| == |SummaryLead| + |Show(args.name)| + |SummaryMiddle| + |Show(args.legalIssue)| + 1
    ensures t[..|SummaryLead|] == SummaryLead && t[|t| - 1] == '.'
    ensures t[|SummaryLead|..|SummaryLead| + |Show(args.name)|] == Show(args.name)
    ensures t[|SummaryLead| + |Show(args.name)|..|SummaryLead| + |Show(args.name)| + |SummaryMiddle|] == SummaryMiddle
    ensures t[|t| - 1 - |Show(args.legalIssue)|..|t| - 1] == Show(args.legalIssue)
  {
    SummaryLead + Show(args.name) + SummaryMiddle + Show(args.legalIssue) + "."
  }

  ghost predicate OccursAt(s: string, t: string, i: int)
  {
    0 <= i && i + |t| <= |s| && s[i..i + |t|] == t
  }

  ghost predicate Contains(s: string, t: string)
  {
    exists i :: OccursAt(s, t, i)
  }

  lemma ContainsMiddle(a: string, t: string, b: string)
    ensures Contains(a + t + b, t)
  {
    assert (a + t + b)[|a|..|a| + |t|] == t;
    assert OccursAt(a + t + b, t, |a|);
  }

  /** The synthetic entry mentions the client's name and the legal issue. */
  lemma SummaryMentionsClient(args: ConsultationDetails)
    ensures Contains(Summary(args), Show(args.name))
    ensures Contains(Summary(args), Show(args.legalIssue))
  {
    var name, issue := Show(args.name), Show(args.legalIssue);
    assert Summary(args) == SummaryLead + name + (SummaryMiddle + issue + ".");
    ContainsMiddle(SummaryLead, name, SummaryMiddle + issue + ".");
    assert Summary(args) == (SummaryLead + name + SummaryMiddle) + issue + ".";
    ContainsMiddle(SummaryLead + name + SummaryMiddle, issue, ".");
  }

  /** The response to one call, as App.Session.HandleToolCall sends it: a single acknowledgement for scheduleConsultation, nothing otherwise. */
  function Respond(c: FunctionCall): seq<ToolResponse>
  {
    if c.name == ScheduleConsultation then [ToolResponse(c.id, c.name, Acknowledgement)] else []
  }

  /** The transcript entries one call appends, as App.Session.HandleToolCall appends them. */
  function Summarize(c: FunctionCall, now: int): seq<Message>
  {
    if c.name == ScheduleConsultation then [Message(Assistant, Summary(c.args), now)] else []
  }

  /** The scheduleConsultation calls of a list, in order. */
  function Handled(calls: seq<FunctionCall>): (r: seq<FunctionCall>)
    ensures |r| <= |calls|
    ensures forall k :: 0 <= k < |r| ==> r[k].name == ScheduleConsultation && r[k] in calls
    ensures forall c: FunctionCall :: c.name == ScheduleConsultation ==> multiset(r)[c] == multiset(calls)[c]
    ensures (forall c :: c in calls ==> c.name != ScheduleConsultation) ==> r == []
    decreases |calls|
  {
    if calls == [] then []
    else
      var init, last := calls[..|calls| - 1], calls[|calls| - 1];
      assert calls == init + [last];
      assert forall c :: c in init ==> c in calls;
      Handled(init) + (if last.name == ScheduleConsultation then [last] else [])
  }

  /** The handled calls keep list order: one more call is appended after
      the earlier handled calls exactly when it is a scheduleConsultation call. */
  lemma HandledStep(init: seq<FunctionCall>, c: FunctionCall)
    ensures Handled(init + [c]) == Handled(init) + (if c.name == ScheduleConsultation then [c] else [])
  {
    assert (init + [c])[..|init|] == init;
  }

  /** The responses a list of calls produces, in call order. */
  function Responses(calls: seq<FunctionCall>): seq<ToolResponse>
    decreases |calls|
  {
    if calls == [] then [] else Responses(calls[..|calls| - 1]) + Respond(calls[|calls| - 1])
  }

  /** The transcript entries a list of calls appends, in call order. */
  function Summaries(calls: seq<FunctionCall>, now: int): seq<Message>
    decreases |calls|
  {
    if calls == [] then [] else Summaries(calls[..|calls| - 1], now) + Summarize(calls[|calls| - 1], now)
  }

  /** The consultation on display after a list of calls, starting from `current`. */
  function Latest(current: Option<ConsultationDetails>, calls: seq<FunctionCall>): Option<ConsultationDetails>
    decreases |calls|
  {
    if calls == [] then current
    else if calls[|calls| - 1].name == ScheduleConsultation then Some(calls[|calls| - 1].args)
    else Latest(current, calls[..|calls| - 1])
  }

  /** Proof step for the session's dispatch loop: handling one more call
      extends the effect of the calls before it. */
  lemma CallsStep(current: Option<ConsultationDetails>, init: seq<FunctionCall>, c: FunctionCall, now: int)
    ensures Responses(init + [c]) == Responses(init) + Respond(c)
    ensures Summaries(init + [c], now) == Summaries(init, now) + Summarize(c, now)
    ensures Latest(current, init + [c]) ==
      if c.name == ScheduleConsultation then Some(c.args) else Latest(current, init)
  {
    assert (init + [c])[..|init|] == init;
  }

  /** Every scheduleConsultation call gets exactly one response, in order,
      carrying that call's id and name and the fixed acknowledgement. */
  lemma {:induction false} ResponsesAnswerHandledCalls(calls: seq<FunctionCall>)
    ensures |Responses(calls)| == |Handled(calls)|
    ensures forall k :: 0 <= k < |Handled(calls)| ==>
      Responses(calls)[k] == ToolResponse(Handled(calls)[k].id, ScheduleConsultation, Acknowledgement)
    decreases |calls|
  {
    if calls != [] {
      var init, last := calls[..|calls| - 1], calls[|calls| - 1];
      ResponsesAnswerHandledCalls(init);
      assert Responses(calls) == Responses(init) + Respond(last);
      assert Handled(calls) == Handled(init) + (if last.name == ScheduleConsultation then [last] else []);
    }
  }

  /** Every scheduleConsultation call appends exactly one assistant entry, in
      order, summarising that call's arguments. */
  lemma {:induction false} SummariesDescribeHandledCalls(calls: seq<FunctionCall>, now: int)
    ensures |Summaries(calls, now)| == |Handled(calls)|
    ensures forall k :: 0 <= k < |Handled(calls)| ==>
      Summaries(calls, now)[k] == Message(Assistant, Summary(Handled(calls)[k].args), now)
    decreases |calls|
  {
    if calls != [] {
      var init, last := calls[..|calls| - 1], calls[|calls| - 1];
      SummariesDescribeHandledCalls(init, now);
      assert Summaries(calls, now) == Summaries(init, now) + Summarize(last, now);
      assert Handled(calls) == Handled(init) + (if last.name == ScheduleConsultation then [last] else []);
    }
  }

  /** Each scheduleConsultation call replaces the consultation wholesale, so
      the last one wins; without one the consultation is unchanged. */
  lemma {:induction false} LatestIsLastHandled(current: Option<ConsultationDetails>, calls: seq<FunctionCall>)
    ensures Latest(current, calls) ==
      if Handled(calls) == [] then current else Some(Handled(calls)[|Handled(calls)| - 1].args)
    decreases |calls|
  {
    if calls != [] {
      LatestIsLastHandled(current, calls[..|calls| - 1]);
    }
  }

  /** Calls with any other name change nothing: no response, no transcript
      entry, the consultation kept. */
  lemma OtherCallsIgnored(current: Option<ConsultationDetails>, calls: seq<FunctionCall>, now: int)
    requires forall c :: c in calls ==> c.name != ScheduleConsultation
    ensures Responses(calls) == [] && Summaries(calls, now) == [] && Latest(current, calls) == current
  {
    ResponsesAnswerHandledCalls(calls);
    SummariesDescribeHandledCalls(calls, now);
    LatestIsLastHandled(current, calls);
  }
}
