/** The answer agent's tool loop and the transcript it leaves. */
module ToolLoop {
  import opened Seqs
  import opened Text

  datatype Call = Call(id: string, name: string, arguments: string)

  datatype Message =
    | System(text: string)
    | User(text: string)
    | Assistant(content: Option<string>, calls: seq<Call>)
    | ToolReply(name: string, callId: string, output: string)

  datatype Completion = Completion(content: Option<string>, calls: seq<Call>)

  datatype ToolStatus = Done | Degraded | Failed

  datatype TraceEntry = TraceEntry(call: Call, status: ToolStatus, output: string)

  /** The model answers a conversation, with tools or without; a tool call yields a status and an output. */
  datatype Models = Models(
    withTools: seq<Message> -> Completion,
    textOnly: seq<Message> -> Completion,
    execute: (Call, nat) -> (ToolStatus, string))

  const EMPTY_FINAL := "已完成工具调用，但模型未返回最终文本回答。"

  predicate Answers(m: Message, call: Call) {
    m.ToolReply? && m.name == call.name && m.callId == call.id
  }

  /** Assistant messages with calls c1..ck, each followed by exactly the k replies in order. */
  ghost predicate Blocks(ms: seq<Message>)
    decreases |ms|
  {
    ms == [] ||
    (&& ms[0].Assistant? && ms[0].calls != [] && |ms| > |ms[0].calls|
     && (forall i :: 0 <= i < |ms[0].calls| ==> Answers(ms[i + 1], ms[0].calls[i]))
     && Blocks(ms[|ms[0].calls| + 1..]))
  }

  /** All calls requested in a conversation, in order. */
  function CallsIn(ms: seq<Message>): seq<Call> {
    if ms == [] then []
    else CallsIn(ms[..|ms| - 1]) + (if ms[|ms| - 1].Assistant? then ms[|ms| - 1].calls else [])
  }

  function CallsOf(trace: seq<TraceEntry>): (r: seq<Call>)
    ensures |r| == |trace| && forall i :: 0 <= i < |r| ==> r[i] == trace[i].call
  {
    seq(|trace|, i requires 0 <= i < |trace| => trace[i].call)
  }

  lemma {:induction false} BlocksAppend(ms: seq<Message>, block: seq<Message>)
    requires Blocks(ms) && Blocks(block)
    ensures Blocks(ms + block)
    decreases |ms|
  {
    if ms == [] {
      assert ms + block == block;
    } else {
      var k := |ms[0].calls| + 1;
      assert (ms + block)[k..] == ms[k..] + block;
      BlocksAppend(ms[k..], block);
    }
  }

  lemma {:induction false} CallsAppend(a: seq<Message>, b: seq<Message>)
    ensures CallsIn(a + b) == CallsIn(a) + CallsIn(b)
    decreases |b|
  {
    if b == [] {
      assert a + b == a;
    } else {
      assert (a + b)[..|a + b| - 1] == a + b[..|b| - 1];
      CallsAppend(a, b[..|b| - 1]);
    }
  }

  lemma CallsInOne(m: Message)
    ensures CallsIn([m]) == if m.Assistant? then m.calls else []
  {
    assert [m][..0] == [];
    assert CallsIn([]) == [];
  }

  lemma {:induction false} RepliesCarryNoCalls(ms: seq<Message>)
    requires forall i :: 0 <= i < |ms| ==> ms[i].ToolReply?
    ensures CallsIn(ms) == []
  {
    if ms != [] {
      RepliesCarryNoCalls(ms[..|ms| - 1]);
    }
  }

  function ReplyTo(entry: TraceEntry): (m: Message)
    ensures Answers(m, entry.call) && m.output == entry.output
  {
    ToolReply(entry.call.name, entry.call.id, entry.output)
  }

  /** The replies in a conversation, in order. */
  function RepliesIn(ms: seq<Message>): seq<Message> {
    if ms == [] then []
    else RepliesIn(ms[..|ms| - 1]) + (if ms[|ms| - 1].ToolReply? then [ms[|ms| - 1]] else [])
  }

  function RepliesTo(trace: seq<TraceEntry>): (r: seq<Message>)
    ensures |r| == |trace| && forall i :: 0 <= i < |r| ==> r[i] == ReplyTo(trace[i])
  {
    seq(|trace|, i requires 0 <= i < |trace| => ReplyTo(trace[i]))
  }

  lemma {:induction false} RepliesAppend(a: seq<Message>, b: seq<Message>)
    ensures RepliesIn(a + b) == RepliesIn(a) + RepliesIn(b)
    decreases |b|
  {
    if b == [] {
      assert a + b == a;
    } else {
      assert (a + b)[..|a + b| - 1] == a + b[..|b| - 1];
      RepliesAppend(a, b[..|b| - 1]);
    }
  }

  lemma RepliesInOne(m: Message)
    ensures RepliesIn([m]) == if m.ToolReply? then [m] else []
  {
    assert [m][..0] == [];
    assert RepliesIn([]) == [];
  }

  lemma {:induction false} RepliesAreReplies(ms: seq<Message>)
    requires forall i :: 0 <= i < |ms| ==> ms[i].ToolReply?
    ensures RepliesIn(ms) == ms
  {
    if ms != [] {
      RepliesAreReplies(ms[..|ms| - 1]);
      assert ms == ms[..|ms| - 1] + [ms[|ms| - 1]];
    }
  }

  /** An assistant message followed by the replies to a trace of its calls is one block. */
  lemma OneBlock(head: Message, entries: seq<TraceEntry>)
    requires head.Assistant? && head.calls != [] && CallsOf(entries) == head.calls
    ensures Blocks([head] + RepliesTo(entries))
    ensures CallsIn([head] + RepliesTo(entries)) == CallsOf(entries)
    ensures RepliesIn([head] + RepliesTo(entries)) == RepliesTo(entries)
  {
    var replies := RepliesTo(entries);
    var block := [head] + replies;
    assert |entries| == |head.calls|;
    forall i | 0 <= i < |head.calls| ensures Answers(block[i + 1], head.calls[i]) {
      assert block[i + 1] == replies[i] == ReplyTo(entries[i]);
      assert CallsOf(entries)[i] == entries[i].call;
    }
    assert block[|head.calls| + 1..] == [];
    RepliesCarryNoCalls(replies);
    CallsAppend([head], replies);
    CallsInOne(head);
    RepliesAreReplies(replies);
    RepliesAppend([head], replies);
    RepliesInOne(head);
  }

  /** One assistant turn: its message, then every call executed and answered in order. */
  method RunCalls(models: Models, completion: Completion, started: nat)
    returns (block: seq<Message>, entries: seq<TraceEntry>)
    requires completion.calls != []
    ensures CallsOf(entries) == completion.calls
    ensures block == [Assistant(completion.content, completion.calls)] + RepliesTo(entries)
    ensures Executed(models, entries, started)
  {
    var calls := completion.calls;
    block := [Assistant(completion.content, calls)];
    entries := [];
    for i := 0 to |calls|
      invariant |entries| == i
      invariant block == [Assistant(completion.content, calls)] + RepliesTo(entries)
      invariant forall k :: 0 <= k < i ==> entries[k].call == calls[k]
      invariant Executed(models, entries, started)
    {
      var (status, output) := models.execute(calls[i], started + i);
      var entry := TraceEntry(calls[i], status, output);
      assert RepliesTo(entries + [entry]) == RepliesTo(entries) + [ReplyTo(entry)];
      entries := entries + [entry];
      block := block + [ToolReply(calls[i].name, calls[i].id, output)];
    }
  }

  /** The conversation is two prompts and then whole blocks, mirrored call by call in the trace. */
  ghost predicate Transcript(start: seq<Message>, body: seq<Message>, trace: seq<TraceEntry>) {
    && Blocks(body)
    && CallsIn(start + body) == CallsOf(trace)
    && RepliesIn(start + body) == RepliesTo(trace)
  }

  lemma TranscriptStarts(start: seq<Message>)
    requires |start| == 2 && start[0].System? && start[1].User?
    ensures Transcript(start, [], [])
  {
    assert start + [] == [start[0]] + [start[1]];
    CallsAppend([start[0]], [start[1]]);
    RepliesAppend([start[0]], [start[1]]);
    CallsInOne(start[0]);
    CallsInOne(start[1]);
    RepliesInOne(start[0]);
    RepliesInOne(start[1]);
  }

  lemma TranscriptGrows(start: seq<Message>, body: seq<Message>, trace: seq<TraceEntry>, head: Message, entries: seq<TraceEntry>)
    requires Transcript(start, body, trace)
    requires head.Assistant? && head.calls != [] && CallsOf(entries) == head.calls
    ensures Transcript(start, body + ([head] + RepliesTo(entries)), trace + entries)
  {
    var block := [head] + RepliesTo(entries);
    OneBlock(head, entries);
    BlocksAppend(body, block);
    Regroup(start, body, block);
    CallsAppend(start + body, block);
    RepliesAppend(start + body, block);
    TraceAppend(trace, entries);
  }

  lemma Regroup(a: seq<Message>, b: seq<Message>, c: seq<Message>)
    ensures (a + b) + c == a + (b + c)
  {
  }

  lemma TraceAppend(trace: seq<TraceEntry>, entries: seq<TraceEntry>)
    ensures CallsOf(trace + entries) == CallsOf(trace) + CallsOf(entries)
    ensures RepliesTo(trace + entries) == RepliesTo(trace) + RepliesTo(entries)
  {
  }

  /** Every entry records what executing its call gave, the calls being numbered from `started`. */
  ghost predicate Executed(models: Models, entries: seq<TraceEntry>, started: nat) {
    forall i :: 0 <= i < |entries| ==>
      (entries[i].status, entries[i].output) == models.execute(entries[i].call, started + i)
  }

  lemma ExecutedAppend(models: Models, a: seq<TraceEntry>, b: seq<TraceEntry>)
    requires Executed(models, a, 0) && Executed(models, b, |a|)
    ensures Executed(models, a + b, 0)
  {
  }

  // ---- What the model was asked and said ----

  /** Every block opens with the model's reply to the conversation before it. */
  ghost predicate Prompted(models: Models, before: seq<Message>, ms: seq<Message>)
    decreases |ms|
  {
    ms == [] ||
    (&& ms[0].Assistant? && ms[0].calls != [] && |ms| > |ms[0].calls|
     && models.withTools(before) == Completion(ms[0].content, ms[0].calls)
     && Prompted(models, before + ms[..|ms[0].calls| + 1], ms[|ms[0].calls| + 1..]))
  }

  lemma {:induction false} PromptedAppend(models: Models, before: seq<Message>, ms: seq<Message>, more: seq<Message>)
    requires Prompted(models, before, ms) && Prompted(models, before + ms, more)
    ensures Prompted(models, before, ms + more)
    decreases |ms|
  {
    if ms == [] {
      assert ms + more == more && before + ms == before;
    } else {
      var k := |ms[0].calls| + 1;
      assert (ms + more)[..k] == ms[..k] && (ms + more)[k..] == ms[k..] + more;
      assert before + ms[..k] + ms[k..] == before + ms;
      PromptedAppend(models, before + ms[..k], ms[k..], more);
    }
  }

  lemma PromptedOne(models: Models, before: seq<Message>, completion: Completion, entries: seq<TraceEntry>)
    requires models.withTools(before) == completion && completion.calls != [] && |entries| == |completion.calls|
    ensures Prompted(models, before, [Assistant(completion.content, completion.calls)] + RepliesTo(entries))
  {
    var block := [Assistant(completion.content, completion.calls)] + RepliesTo(entries);
    assert block[|completion.calls| + 1..] == [];
  }

  /** How many blocks a conversation has. */
  ghost function Turns(ms: seq<Message>): nat {
    if ms == [] then 0 else Turns(ms[..|ms| - 1]) + (if ms[|ms| - 1].Assistant? then 1 else 0)
  }

  lemma {:induction false} TurnsAppend(a: seq<Message>, b: seq<Message>)
    ensures Turns(a + b) == Turns(a) + Turns(b)
    decreases |b|
  {
    if b == [] {
      assert a + b == a;
    } else {
      assert (a + b)[..|a + b| - 1] == a + b[..|b| - 1];
      TurnsAppend(a, b[..|b| - 1]);
    }
  }

  lemma {:induction false} NoTurns(ms: seq<Message>)
    requires forall i :: 0 <= i < |ms| ==> !ms[i].Assistant?
    ensures Turns(ms) == 0
  {
    if ms != [] {
      NoTurns(ms[..|ms| - 1]);
    }
  }

  lemma OneTurn(head: Message, entries: seq<TraceEntry>)
    requires head.Assistant?
    ensures Turns([head] + RepliesTo(entries)) == 1
  {
    TurnsAppend([head], RepliesTo(entries));
    NoTurns(RepliesTo(entries));
    assert [head][..0] == [];
    assert Turns([]) == 0;
  }

  ghost predicate Said(completion: Completion, text: string) {
    text == Strip(match completion.content case Some(t) => t case None => "")
  }

  /** The last word: the text-only reply, or a notice when that is blank. */
  ghost predicate LastWord(models: Models, messages: seq<Message>, text: string) {
    exists said :: Said(models.textOnly(messages), said) && text == (if said != "" then said else EMPTY_FINAL)
  }

  /**
   * How the loop came to its text. Below the limit of rounds it went on until the model asked
   * for no tool: its text counts, unless blank. At the limit, and for a blank text, the last
   * word is asked for without tools.
   */
  ghost predicate CameTo(models: Models, limit: nat, messages: seq<Message>, text: string, modelCalls: nat) {
    var turns := Turns(messages);
    if turns < limit then
      && models.withTools(messages).calls == []
      && exists said :: Said(models.withTools(messages), said) &&
           if said != "" then text == said && modelCalls == turns + 1
           else LastWord(models, messages, text) && modelCalls == turns + 2
    else turns == limit && LastWord(models, messages, text) && modelCalls == limit + 1
  }

  function TextOf(completion: Completion): (text: string)
    ensures Said(completion, text)
  {
    Strip(match completion.content case Some(t) => t case None => "")
  }

  /** Where the loop stands after i rounds. */
  ghost predicate Talked(models: Models, start: seq<Message>, body: seq<Message>, trace: seq<TraceEntry>, i: nat) {
    Transcript(start, body, trace) && Executed(models, trace, 0) && Prompted(models, start, body) && Turns(start + body) == i
  }

  lemma TalkStarts(models: Models, start: seq<Message>)
    requires |start| == 2 && start[0].System? && start[1].User?
    ensures Talked(models, start, [], [], 0) && start + [] == start
  {
    TranscriptStarts(start);
    NoTurns(start);
  }

  lemma TalkGrows(models: Models, start: seq<Message>, body: seq<Message>, trace: seq<TraceEntry>, i: nat,
                  completion: Completion, entries: seq<TraceEntry>)
    requires Talked(models, start, body, trace, i)
    requires models.withTools(start + body) == completion && completion.calls != []
    requires CallsOf(entries) == completion.calls && Executed(models, entries, |trace|)
    ensures var block := [Assistant(completion.content, completion.calls)] + RepliesTo(entries);
            Talked(models, start, body + block, trace + entries, i + 1) && (start + body) + block == start + (body + block)
  {
    var head := Assistant(completion.content, completion.calls);
    var block := [head] + RepliesTo(entries);
    TranscriptGrows(start, body, trace, head, entries);
    Regroup(start, body, block);
    ExecutedAppend(models, trace, entries);
    PromptedOne(models, start + body, completion, entries);
    PromptedAppend(models, start, body, block);
    TurnsAppend(start + body, block);
    OneTurn(head, entries);
  }

  /**
   * `_complete_possibly_with_tools` with tools enabled: a bounded number of tool rounds, then
   * a final call without tools if no text came out.
   */
  method CompleteWithTools(models: Models, systemPrompt: string, userPrompt: string, rounds: int)
    returns (text: string, messages: seq<Message>, trace: seq<TraceEntry>, modelCalls: nat)
    ensures |messages| >= 2 && messages[..2] == [System(systemPrompt), User(userPrompt)]
    ensures Transcript(messages[..2], messages[2..], trace) && Executed(models, trace, 0)
    ensures Prompted(models, messages[..2], messages[2..])
    ensures CameTo(models, if rounds < 1 then 1 else rounds, messages, text, modelCalls)
    ensures text != "" && 1 <= modelCalls <= (if rounds < 1 then 1 else rounds) + 1
  {
    var start := [System(systemPrompt), User(userPrompt)];
    messages, trace, modelCalls := start, [], 0;
    var maxRounds := if rounds < 1 then 1 else rounds;
    ghost var body: seq<Message> := [];
    TalkStarts(models, start);
    for i := 0 to maxRounds
      invariant messages == start + body && Talked(models, start, body, trace, i)
      invariant modelCalls == i
    {
      var completion := models.withTools(messages);
      modelCalls := modelCalls + 1;
      if completion.calls == [] {
        var content := TextOf(completion);
        if content != "" {
          return content, messages, trace, modelCalls;
        }
        break;
      }
      var block, entries := RunCalls(models, completion, |trace|);
      TalkGrows(models, start, body, trace, i, completion, entries);
      messages := messages + block;
      trace := trace + entries;
      body := body + block;
    }
    text := TextOf(models.textOnly(messages));
    modelCalls := modelCalls + 1;
    if text == "" {
      text := EMPTY_FINAL;
    }
  }
}
