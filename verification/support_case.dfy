/** The support-case record every agent reads and updates. */
module SupportCases {
  import opened Base

  /** `SupportCase`: one customer-support interaction. */
  datatype SupportCase = SupportCase(
    caseId: CaseId,
    supportContext: string,
    customerQuery: string,
    intentCategory: Option<string>,
    supportResponse: Option<string>,
    sentiment: Option<string>,
    shouldEscalate: bool,
    escalated: bool,
    needsUpperManagementAttention: bool,
    createdAt: Stamp,
    updatedAt: Stamp,
    trace: seq<Message>,
    supportedActions: seq<string>)

  /**
   * `SupportCase::new`. The fresh UUID and the two clock readings (the
   * source reads the clock once per timestamp) are passed in.
   */
  function New(id: CaseId, context: string, query: string, createdAt: Stamp, updatedAt: Stamp): (c: SupportCase)
    ensures c.caseId == id && c.createdAt == createdAt && c.updatedAt == updatedAt
    ensures c.supportContext == context && c.customerQuery == query
    ensures c.intentCategory == None && c.supportResponse == None && c.sentiment == None
    ensures !c.shouldEscalate && !c.escalated && !c.needsUpperManagementAttention
    ensures c.trace == [] && c.supportedActions == []
    ensures History(c.trace) == ""
  {
    SupportCase(id, context, query, None, None, None, false, false, false, createdAt, updatedAt, [], [])
  }

  /** `updated`: records a new clock reading as `updated_at`. */
  function Updated(c: SupportCase, now: Stamp): (r: SupportCase)
    ensures r.updatedAt == now
    ensures r.(updatedAt := c.updatedAt) == c
  {
    c.(updatedAt := now)
  }

  // ---------------------------------------------------------------------
  // get_history
  // ---------------------------------------------------------------------

  /** What one trace message contributes to the history. */
  function Line(m: Message): string
  {
    if m.role != "system" then m.content + "\n" else ""
  }

  /** The history of a trace, built message by message as the source's loop does. */
  function History(trace: seq<Message>): string
    decreases |trace|
  {
    if |trace| == 0 then "" else History(trace[..|trace| - 1]) + Line(trace[|trace| - 1])
  }

  /** The messages of a trace that are not system prompts, in trace order. */
  function Visible(trace: seq<Message>): (v: seq<Message>)
    ensures forall i :: 0 <= i < |v| ==> v[i].role != "system"
    ensures forall m :: m in v <==> m in trace && m.role != "system"
    decreases |trace|
  {
    if |trace| == 0 then []
    else if trace[0].role != "system" then [trace[0]] + Visible(trace[1..])
    else Visible(trace[1..])
  }

  /** Every message's content followed by a newline, concatenated. */
  function Lines(ms: seq<Message>): string
    decreases |ms|
  {
    if |ms| == 0 then "" else ms[0].content + "\n" + Lines(ms[1..])
  }

  /** `get_history`, as the source computes it: a loop appending each non-system message's content and a newline. */
  method GetHistory(c: SupportCase) returns (history: string)
    ensures history == Lines(Visible(c.trace))
  {
    history := "";
    var i := 0;
    while i < |c.trace|
      invariant 0 <= i <= |c.trace|
      invariant history == History(c.trace[..i])
    {
      var message := c.trace[i];
      if message.role != "system" {
        history := history + message.content + "\n";
      }
      assert c.trace[..i + 1][..i] == c.trace[..i];
      i := i + 1;
    }
    assert c.trace[..i] == c.trace;
    HistoryIsVisibleLines(c.trace);
  }

  /** History distributes over concatenation of traces. */
  lemma HistoryAppend(t1: seq<Message>, t2: seq<Message>)
    ensures History(t1 + t2) == History(t1) + History(t2)
  {
    HistoryIsVisibleLines(t1 + t2);
    HistoryIsVisibleLines(t1);
    HistoryIsVisibleLines(t2);
    VisibleAppend(t1, t2);
    LinesAppend(Visible(t1), Visible(t2));
  }

  /** Appending a system message leaves the history unchanged. */
  lemma HistoryIgnoresSystem(trace: seq<Message>, m: Message)
    requires m.role == "system"
    ensures History(trace + [m]) == History(trace)
  {
    assert (trace + [m])[..|trace|] == trace;
  }

  lemma {:induction false} VisibleAppend(t1: seq<Message>, t2: seq<Message>)
    ensures Visible(t1 + t2) == Visible(t1) + Visible(t2)
    decreases |t1|
  {
    if |t1| == 0 {
      assert t1 + t2 == t2;
    } else {
      assert (t1 + t2)[1..] == t1[1..] + t2;
      VisibleAppend(t1[1..], t2);
    }
  }

  lemma {:induction false} LinesAppend(a: seq<Message>, b: seq<Message>)
    ensures Lines(a + b) == Lines(a) + Lines(b)
    decreases |a|
  {
    if |a| == 0 {
      assert a + b == b;
    } else {
      assert (a + b)[1..] == a[1..] + b;
      LinesAppend(a[1..], b);
    }
  }

  /** The history is the content-plus-newline of each non-system message, in trace order. */
  lemma {:induction false} HistoryIsVisibleLines(trace: seq<Message>)
    ensures History(trace) == Lines(Visible(trace))
    decreases |trace|
  {
    if |trace| > 0 {
      var init := trace[..|trace| - 1];
      var last := trace[|trace| - 1];
      assert trace == init + [last];
      HistoryIsVisibleLines(init);
      VisibleAppend(init, [last]);
      LinesAppend(Visible(init), Visible([last]));
      assert [last][1..] == [];
    }
  }

  /** The history is empty exactly when every message in the trace is a system prompt. */
  lemma {:induction false} HistoryEmptyIffAllSystem(trace: seq<Message>)
    ensures History(trace) == "" <==> forall i :: 0 <= i < |trace| ==> trace[i].role == "system"
    decreases |trace|
  {
    if |trace| > 0 {
      var init := trace[..|trace| - 1];
      HistoryEmptyIffAllSystem(init);
      var last := trace[|trace| - 1];
      if last.role != "system" {
        assert |Line(last)| > 0;
      }
      if forall i :: 0 <= i < |trace| ==> trace[i].role == "system" {
        assert forall i :: 0 <= i < |init| ==> init[i].role == "system" by {
          forall i | 0 <= i < |init| ensures init[i].role == "system" {
            assert init[i] == trace[i];
          }
        }
      }
    }
  }
}
