/** The message normaliser: flattens the caller's system prompt and conversation
    into the `{role, content}` text records the inspection service reads
    (`isTextBlock`, `toPangeaMessages` and the transcript construction of
    `PangeaMessages.create`). */
module Normalizer {
  import opened Types
  import opened Lines

  /** `isTextBlock`: the block's `type` tag is "text". */
  function IsTextBlock(b: Block): (r: bool)
    ensures r <==> b.Tag() == "text"
  {
    b.TextBlock?
  }

  /** Number of text blocks in `blocks`. */
  function CountTexts(blocks: seq<Block>): nat
  {
    if |blocks| == 0 then 0
    else (if IsTextBlock(blocks[0]) then 1 else 0) + CountTexts(blocks[1..])
  }

  /** `blocks.filter(isTextBlock).map(({ text }) => text)`: the text of every text
      block, in order; every other block is dropped. */
  function TextsOf(blocks: seq<Block>): (texts: seq<string>)
    ensures |texts| == CountTexts(blocks)
    ensures forall t :: t in texts ==>
              exists i :: 0 <= i < |blocks| && IsTextBlock(blocks[i]) && blocks[i].text == t
    ensures texts == [] <==> forall i :: 0 <= i < |blocks| ==> !IsTextBlock(blocks[i])
    decreases |blocks|
  {
    if |blocks| == 0 then []
    else
      var rest := TextsOf(blocks[1..]);
      assert forall i :: 1 <= i < |blocks| ==> blocks[i] == blocks[1..][i - 1];
      if IsTextBlock(blocks[0]) then [blocks[0].text] + rest else rest
  }

  /** The text list of a concatenation is the concatenation of the text lists:
      the filter keeps the blocks' order. */
  lemma {:induction false} TextsOfAppend(a: seq<Block>, b: seq<Block>)
    ensures TextsOf(a + b) == TextsOf(a) + TextsOf(b)
    decreases |a|
  {
    if |a| > 0 {
      assert (a + b)[0] == a[0];
      assert (a + b)[1..] == a[1..] + b;
      TextsOfAppend(a[1..], b);
    } else {
      assert a + b == b;
    }
  }

  /** Every text block's text is kept, at the position given by the number of
      text blocks before it. */
  lemma {:induction false} TextsOfPosition(blocks: seq<Block>, i: nat)
    requires i < |blocks| && IsTextBlock(blocks[i])
    ensures CountTexts(blocks[..i]) < |TextsOf(blocks)|
    ensures TextsOf(blocks)[CountTexts(blocks[..i])] == blocks[i].text
    decreases i
  {
    if i == 0 {
      assert blocks[..0] == [];
    } else {
      var tail := blocks[1..];
      assert blocks[..i][1..] == tail[..i - 1];
      assert blocks[..i][0] == blocks[0];
      assert tail[i - 1] == blocks[i];
      TextsOfPosition(tail, i - 1);
    }
  }

  /** How many records `toPangeaMessages` makes of a message, read off its content. */
  function RecordCount(m: Message): nat
  {
    match m.content
    case Text(_) => 1
    case Blocks(blocks) => CountTexts(blocks)
    case Absent => 0
  }

  /** One record with role `role` per text, in order. */
  function RecordsOf(role: Role, texts: seq<string>): seq<Record>
  {
    seq(|texts|, i requires 0 <= i < |texts| => Record(role, texts[i]))
  }

  /** `toPangeaMessages`: string content is one record; a block list is one record
      per text block, in order; absent content is no record. Every record keeps the
      message's role. */
  function ToPangeaMessages(m: Message): (r: seq<Record>)
    ensures |r| == RecordCount(m)
    ensures forall i :: 0 <= i < |r| ==> r[i].role == m.role
    ensures m.content.Text? ==> r == [Record(m.role, m.content.value)]
    ensures m.content.Blocks? ==>
              forall i :: 0 <= i < |r| ==> r[i].content == TextsOf(m.content.blocks)[i]
    ensures m.content.Blocks? && CountTexts(m.content.blocks) == 0 ==> r == []
  {
    match m.content
    case Text(s) => [Record(m.role, s)]
    case Blocks(blocks) => RecordsOf(m.role, TextsOf(blocks))
    case Absent => []
  }

  /** Normalising a block list splits over concatenation of the list. */
  lemma BlocksAppend(role: ChatRole, a: seq<Block>, b: seq<Block>)
    ensures ToPangeaMessages(Message(role, Blocks(a + b)))
         == ToPangeaMessages(Message(role, Blocks(a))) + ToPangeaMessages(Message(role, Blocks(b)))
  {
    TextsOfAppend(a, b);
  }

  /** A block list whose only text block holds `t` normalises exactly like the
      string `t`: one record, whatever non-text blocks surround it. */
  lemma SingleTextBlock(role: ChatRole, before: seq<Block>, t: string, cites: seq<Citation>, after: seq<Block>)
    requires forall i :: 0 <= i < |before| ==> !IsTextBlock(before[i])
    requires forall i :: 0 <= i < |after| ==> !IsTextBlock(after[i])
    ensures ToPangeaMessages(Message(role, Blocks(before + [TextBlock(t, cites)] + after)))
         == ToPangeaMessages(Message(role, Text(t)))
         == [Record(role, t)]
  {
    TextsOfAppend(before, [TextBlock(t, cites)]);
    TextsOfAppend(before + [TextBlock(t, cites)], after);
    assert TextsOf([TextBlock(t, cites)]) == [t];
  }

  /** JavaScript truthiness of `body.system`: an empty string is falsy, while any
      list, even an empty one, is truthy. */
  function HasSystem(s: SystemPrompt): (r: bool)
    ensures !r <==> s == NoSystem || s == SystemText("")
  {
    match s
    case NoSystem => false
    case SystemText(t) => t != ""
    case SystemLines(_) => true
  }

  /** The system record of the transcript: present exactly when the prompt is
      truthy; a string is taken as is, a list is joined with "\n". */
  function SystemRecords(s: SystemPrompt): (r: seq<Record>)
    ensures |r| == (if HasSystem(s) then 1 else 0)
    ensures forall i :: 0 <= i < |r| ==> r[i].role == System
    ensures s.SystemText? && |r| == 1 ==> r[0].content == s.text
    ensures s.SystemLines? ==> r[0].content == Join(s.lines, '\n')
  {
    match s
    case NoSystem => []
    case SystemText(t) => if t != "" then [Record(System, t)] else []
    case SystemLines(lines) => [Record(System, Join(lines, '\n'))]
  }

  /** The lines of a list-valued system prompt can be read back from its record
      when no line holds a newline. */
  lemma SystemLinesRecoverable(lines: seq<string>)
    requires |lines| > 0
    requires forall i :: 0 <= i < |lines| ==> '\n' !in lines[i]
    ensures Split(SystemRecords(SystemLines(lines))[0].content, '\n') == lines
  {
    SplitJoin(lines, '\n');
  }

  /** Number of records the conversation yields: the sum over its messages. */
  function TotalRecords(msgs: seq<Message>): nat
  {
    if |msgs| == 0 then 0 else RecordCount(msgs[0]) + TotalRecords(msgs[1..])
  }

  /** `[].concat(...messages.map(toPangeaMessages))`: every message's records,
      message after message. */
  function ConversationRecords(msgs: seq<Message>): (r: seq<Record>)
    ensures |r| == TotalRecords(msgs)
    ensures forall i :: 0 <= i < |r| ==> r[i].role == User || r[i].role == Assistant
    decreases |msgs|
  {
    if |msgs| == 0 then [] else ToPangeaMessages(msgs[0]) + ConversationRecords(msgs[1..])
  }

  /** The records of a concatenated conversation are the concatenated records:
      messages contribute in their order. */
  lemma {:induction false} ConversationRecordsAppend(a: seq<Message>, b: seq<Message>)
    ensures ConversationRecords(a + b) == ConversationRecords(a) + ConversationRecords(b)
    decreases |a|
  {
    if |a| > 0 {
      assert (a + b)[0] == a[0];
      assert (a + b)[1..] == a[1..] + b;
      ConversationRecordsAppend(a[1..], b);
    } else {
      assert a + b == b;
    }
  }

  /** The input transcript: the system record when the prompt is truthy, then
      the records of every message in order. `System` is the role of the first
      record exactly when a system prompt is present, and of no other record. */
  function InputTranscript(body: Request): (t: seq<Record>)
    ensures |t| == (if HasSystem(body.system) then 1 else 0) + TotalRecords(body.messages)
    ensures t[|t| - TotalRecords(body.messages)..] == ConversationRecords(body.messages)
    ensures forall i :: 0 <= i < |t| ==>
              (t[i].role == System <==> i == 0 && HasSystem(body.system))
    ensures forall i :: 0 <= i < |t| ==> t[i].role != Developer
    ensures t[..|t| - TotalRecords(body.messages)] == SystemRecords(body.system)
  {
    SystemRecords(body.system) + ConversationRecords(body.messages)
  }

  /** Extending a conversation prefix by one message appends that message's records. */
  lemma ConversationRecordsSnoc(msgs: seq<Message>, i: nat)
    requires i < |msgs|
    ensures ConversationRecords(msgs[..i + 1]) == ConversationRecords(msgs[..i]) + ToPangeaMessages(msgs[i])
  {
    assert msgs[..i + 1] == msgs[..i] + [msgs[i]];
    ConversationRecordsAppend(msgs[..i], [msgs[i]]);
    assert ConversationRecords([msgs[i]]) == ToPangeaMessages(msgs[i]) + ConversationRecords([]);
  }

  /** `records.concat(...msgs.map(toPangeaMessages))`, one message at a time. */
  method AppendConversation(records0: seq<Record>, msgs: seq<Message>) returns (records: seq<Record>)
    ensures records == records0 + ConversationRecords(msgs)
  {
    records := records0;
    assert records == records0 + ConversationRecords(msgs[..0]) by {
      assert msgs[..0] == [];
    }
    var i := 0;
    while i < |msgs|
      invariant 0 <= i <= |msgs|
      invariant records == records0 + ConversationRecords(msgs[..i])
    {
      var next := records + ToPangeaMessages(msgs[i]);
      assert next == records0 + ConversationRecords(msgs[..i + 1]) by {
        ConversationRecordsSnoc(msgs, i);
      }
      records := next;
      i := i + 1;
    }
    assert msgs[..i] == msgs;
  }

  /** The transcript as `PangeaMessages.create` builds it: push the system record
      when the prompt is truthy, then concatenate every message's records. */
  method BuildTranscript(body: Request) returns (records: seq<Record>)
    ensures records == InputTranscript(body)
  {
    records := [];
    if HasSystem(body.system) {
      var content := if body.system.SystemText? then body.system.text else Join(body.system.lines, '\n');
      records := [Record(System, content)];
    }
    assert records == SystemRecords(body.system);
    records := AppendConversation(records, body.messages);
  }
}
