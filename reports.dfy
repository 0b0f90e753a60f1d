/**
 * The report of `/reports/:userId/:labelId/messages` (index.js:297-317):
 * for every chat, one entry per message sent by the session's own account,
 * paired with the first later reply from the other side.
 *
 * The chats and their messages are what the library returned
 * (`getChatsByLabelId`, then `fetchMessages({ limit: 50 })` per chat).
 */
module Reports {
  import opened Wrappers

  /** The fields of a library message the report reads. */
  datatype Message = Message(fromMe: bool, body: string, timestamp: int, ack: int,
                             readTimestamp: Option<int>)

  /** A chat: `chat.id.user` and the messages fetched for it, in list order. */
  datatype Chat = Chat(user: string, messages: seq<Message>)

  /** One element of `reportData`. */
  datatype ReportEntry = ReportEntry(number: string, body: string, timestamp: int, ack: int,
                                     readTimestamp: Option<int>,
                                     response: Option<string>, responseTimestamp: Option<int>)

  /** `messages.filter(msg => msg.fromMe)`, in list order. */
  function SentMessages(messages: seq<Message>): (r: seq<Message>)
    ensures |r| <= |messages|
    ensures forall m :: m in r <==> m in messages && m.fromMe
  {
    if messages == [] then []
    else if messages[0].fromMe then [messages[0]] + SentMessages(messages[1..])
    else SentMessages(messages[1..])
  }

  /** The filter on one message keeps it exactly when it is ours. */
  lemma SentMessagesSingle(m: Message)
    ensures SentMessages([m]) == if m.fromMe then [m] else []
  {
    assert [m][1..] == [];
  }

  /**
   * The filter keeps list order and repetitions: with `SentMessagesSingle` it
   * works message by message, keeping ours and dropping the others.
   */
  lemma {:induction false} SentMessagesAppend(a: seq<Message>, b: seq<Message>)
    ensures SentMessages(a + b) == SentMessages(a) + SentMessages(b)
  {
    if a == [] {
      assert a + b == b;
    } else {
      assert (a + b)[0] == a[0];
      assert (a + b)[1..] == a[1..] + b;
      SentMessagesAppend(a[1..], b);
    }
  }

  /** `m` answers a message sent at time `t`: it is not ours and strictly later. */
  predicate IsReply(m: Message, t: int)
  {
    !m.fromMe && m.timestamp > t
  }

  /** The index of the first reply after `t` at or after index `k`. */
  function FirstReplyFrom(messages: seq<Message>, t: int, k: nat): (r: Option<nat>)
    requires k <= |messages|
    ensures r.Some? ==> k <= r.value < |messages| && IsReply(messages[r.value], t)
    ensures r.Some? ==> forall j :: k <= j < r.value ==> !IsReply(messages[j], t)
    ensures r.None? ==> forall j :: k <= j < |messages| ==> !IsReply(messages[j], t)
    decreases |messages| - k
  {
    if k == |messages| then None
    else if IsReply(messages[k], t) then Some(k)
    else FirstReplyFrom(messages, t, k + 1)
  }

  /**
   * `messages.find(m => !m.fromMe && m.timestamp > t)`: the first reply in list
   * order (not the earliest by time), or none.
   */
  function FirstReply(messages: seq<Message>, t: int): (r: Option<Message>)
    ensures r.Some? ==> exists k :: 0 <= k < |messages| && messages[k] == r.value
                          && IsReply(messages[k], t)
                          && forall j :: 0 <= j < k ==> !IsReply(messages[j], t)
    ensures r.None? ==> forall j :: 0 <= j < |messages| ==> !IsReply(messages[j], t)
  {
    match FirstReplyFrom(messages, t, 0)
    case None => None
    case Some(k) => Some(messages[k])
  }

  /** `msg.readTimestamp || null`: zero and absent both become null. */
  function ReadOrNull(readTimestamp: Option<int>): (r: Option<int>)
    ensures r.Some? <==> readTimestamp.Some? && readTimestamp.value != 0
    ensures r.Some? ==> r == readTimestamp
  {
    if readTimestamp.Some? && readTimestamp.value != 0 then readTimestamp else None
  }

  /** The entry pushed for the sent message `msg` of a chat with `messages`. */
  function EntryFor(user: string, messages: seq<Message>, msg: Message): (e: ReportEntry)
    ensures e.number == user && e.body == msg.body && e.timestamp == msg.timestamp
    ensures e.ack == msg.ack && e.readTimestamp == ReadOrNull(msg.readTimestamp)
    ensures e.response.None? <==> FirstReply(messages, msg.timestamp).None?
    ensures e.response.None? ==> e.responseTimestamp.None?
    ensures e.response.Some? ==>
              && e.response.value == FirstReply(messages, msg.timestamp).value.body
              && e.responseTimestamp == Some(FirstReply(messages, msg.timestamp).value.timestamp)
  {
    var reply := FirstReply(messages, msg.timestamp);
    ReportEntry(user, msg.body, msg.timestamp, msg.ack, ReadOrNull(msg.readTimestamp),
                if reply.Some? then Some(reply.value.body) else None,
                if reply.Some? then Some(reply.value.timestamp) else None)
  }

  /** The entries for the first sent messages `sent` of one chat, in order. */
  function Entries(user: string, messages: seq<Message>, sent: seq<Message>): (r: seq<ReportEntry>)
    ensures |r| == |sent|
  {
    if sent == [] then []
    else Entries(user, messages, sent[..|sent| - 1]) + [EntryFor(user, messages, sent[|sent| - 1])]
  }

  /** One entry per sent message, in order. */
  lemma {:induction false} EntriesAt(user: string, messages: seq<Message>, sent: seq<Message>)
    ensures forall i :: 0 <= i < |sent| ==>
              Entries(user, messages, sent)[i] == EntryFor(user, messages, sent[i])
  {
    if sent != [] {
      EntriesAt(user, messages, sent[..|sent| - 1]);
    }
  }

  /** Extending the sent prefix by one message adds its entry at the end. */
  lemma EntriesStep(user: string, messages: seq<Message>, sent: seq<Message>, s: nat)
    requires s < |sent|
    ensures Entries(user, messages, sent[..s + 1])
         == Entries(user, messages, sent[..s]) + [EntryFor(user, messages, sent[s])]
  {
    assert sent[..s + 1][..s] == sent[..s];
  }

  /** Appending to a report built so far: concatenation regroups. */
  lemma AppendRegroup(before: seq<ReportEntry>, done: seq<ReportEntry>, entry: ReportEntry)
    ensures before + done + [entry] == before + (done + [entry])
  {
  }

  /** The entries of one chat: one per message it sent. */
  function ChatReport(chat: Chat): seq<ReportEntry>
  {
    Entries(chat.user, chat.messages, SentMessages(chat.messages))
  }

  /**
   * The whole report: the chats' entries, chat after chat; one entry per own
   * message over all chats.
   */
  function ReportOf(chats: seq<Chat>): (r: seq<ReportEntry>)
    ensures |r| == TotalFromMe(chats)
  {
    if chats == [] then []
    else
      SentMessagesCount(chats[|chats| - 1].messages);
      ReportOf(chats[..|chats| - 1]) + ChatReport(chats[|chats| - 1])
  }

  /** Extending the chat prefix by one chat adds its entries at the end. */
  lemma ReportStep(chats: seq<Chat>, c: nat)
    requires c < |chats|
    ensures ReportOf(chats[..c + 1])
         == ReportOf(chats[..c]) + Entries(chats[c].user, chats[c].messages,
                                           SentMessages(chats[c].messages))
  {
    assert chats[..c + 1][..c] == chats[..c];
  }

  /** The number of messages sent by the session's own account in `messages`. */
  function CountFromMe(messages: seq<Message>): nat
  {
    if messages == [] then 0
    else (if messages[0].fromMe then 1 else 0) + CountFromMe(messages[1..])
  }

  /** The number of own messages over all chats. */
  function TotalFromMe(chats: seq<Chat>): nat
  {
    if chats == [] then 0
    else TotalFromMe(chats[..|chats| - 1]) + CountFromMe(chats[|chats| - 1].messages)
  }

  lemma {:induction false} SentMessagesCount(messages: seq<Message>)
    ensures |SentMessages(messages)| == CountFromMe(messages)
  {
    if messages != [] {
      SentMessagesCount(messages[1..]);
    }
  }

  /**
   * Each entry of a chat's report carries its sent message and the first later
   * reply of the chat in list order, or null when there is none.
   */
  lemma ChatReportPairs(chat: Chat, i: nat)
    requires i < |SentMessages(chat.messages)|
    ensures var msg := SentMessages(chat.messages)[i];
            var e := ChatReport(chat)[i];
            && msg.fromMe && msg in chat.messages
            && e.number == chat.user && e.body == msg.body && e.timestamp == msg.timestamp
            && e.ack == msg.ack && e.readTimestamp == ReadOrNull(msg.readTimestamp)
            && (e.response.None? ==> e.responseTimestamp.None?)
            && (e.response.None? <==> forall j :: 0 <= j < |chat.messages| ==>
                                        !IsReply(chat.messages[j], msg.timestamp))
            && (e.response.Some? ==> exists k :: 0 <= k < |chat.messages|
                                        && IsReply(chat.messages[k], msg.timestamp)
                                        && e.response == Some(chat.messages[k].body)
                                        && e.responseTimestamp == Some(chat.messages[k].timestamp)
                                        && forall j :: 0 <= j < k ==>
                                             !IsReply(chat.messages[j], msg.timestamp))
  {
    var msg := SentMessages(chat.messages)[i];
    assert msg in SentMessages(chat.messages);
    EntriesAt(chat.user, chat.messages, SentMessages(chat.messages));
    var reply := FirstReply(chat.messages, msg.timestamp);
    if reply.Some? {
      var k :| 0 <= k < |chat.messages| && chat.messages[k] == reply.value
               && IsReply(chat.messages[k], msg.timestamp)
               && forall j :: 0 <= j < k ==> !IsReply(chat.messages[j], msg.timestamp);
      assert IsReply(chat.messages[k], msg.timestamp);
    }
  }

  /**
   * The nested loops at index.js:301-316: for each chat, for each sent
   * message, push its entry.
   */
  method BuildReport(chats: seq<Chat>) returns (reportData: seq<ReportEntry>)
    ensures reportData == ReportOf(chats)
  {
    reportData := [];
    var c := 0;
    while c < |chats|
      invariant 0 <= c <= |chats|
      invariant reportData == ReportOf(chats[..c])
    {
      var chat := chats[c];
      var messages := chat.messages;
      var sentMessages := SentMessages(messages);
      ghost var before := reportData;
      var s := 0;
      while s < |sentMessages|
        invariant 0 <= s <= |sentMessages|
        invariant reportData == before + Entries(chat.user, messages, sentMessages[..s])
      {
        var msg := sentMessages[s];
        var respuesta := FirstReply(messages, msg.timestamp);
        var entry := ReportEntry(
          chat.user, msg.body, msg.timestamp, msg.ack, ReadOrNull(msg.readTimestamp),
          if respuesta.Some? then Some(respuesta.value.body) else None,
          if respuesta.Some? then Some(respuesta.value.timestamp) else None);
        assert entry == EntryFor(chat.user, messages, msg);
        EntriesStep(chat.user, messages, sentMessages, s);
        AppendRegroup(before, Entries(chat.user, messages, sentMessages[..s]), entry);
        reportData := reportData + [entry];
        s := s + 1;
      }
      assert sentMessages[..s] == sentMessages;
      ReportStep(chats, c);
      c := c + 1;
    }
    assert chats[..c] == chats;
  }
}
