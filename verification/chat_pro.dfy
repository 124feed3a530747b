/** The recall plugin: a ledger of recently sent message ids per conversation, the
    inbound `[recall]` marker handler, the manual `recall` command, the history listing
    and teardown. The transport's `delete_msg` action is abstract: each call is logged in
    a ghost trace and its outcome (returns or raises) is a parameter of the handler. */
module ChatPro {
  import opened Ledger
  import opened Text

  datatype Option<T> = None | Some(value: T)

  /** The only platform on which recording and recall are enabled. */
  const SupportedPlatform: string := "aiocqhttp"

  /** What a handler sees of an event: the conversation key (`unified_msg_origin`), the
      platform name, whether the event is an `AiocqhttpMessageEvent`, the plain text, and
      the `message_id` attribute of the message object, if it has one. */
  datatype Event = Event(
    umo: string,
    platform: string,
    isAiocqhttpEvent: bool,
    messageStr: string,
    messageId: Option<MessageId>)

  /** Python truthiness of the `message_id` attribute: absent, `0` and `""` are falsy. */
  predicate Truthy(id: Option<MessageId>)
  {
    match id
    case None => false
    case Some(IntId(n)) => n != 0
    case Some(StrId(s)) => s != ""
  }

  /** How one `delete_msg` call ends: it returns, or it raises with a message. */
  datatype DeleteOutcome = Returned | Raised(error: string)

  /** The plain-text replies of the manual recall command. */
  datatype Reply =
    | PlatformUnsupported(platform: string)
    | NothingToRecall
    | Recalled
    | WrongEventType
    | RecallFailed(error: string)

  /** The text the command yields for each reply (`event.plain_result(...)`). It is only
      the rendering: the contracts of `ManualRecall` are stated on `Reply`, one case per
      text. */
  function ReplyText(r: Reply): string
  {
    match r
    case PlatformUnsupported(p) => "当前平台 " + p + " 暂不支持消息撤回功能"
    case NothingToRecall => "没有可以撤回的消息记录"
    case Recalled => "✅ 已成功撤回上一条消息"
    case WrongEventType => "消息类型错误，无法撤回"
    case RecallFailed(e) => "❌ 撤回消息失败: " + e
  }

  /** The ledger of a conversation, empty when the conversation has none yet. */
  function LedgerOf(registry: map<string, seq<Entry>>, umo: string): seq<Entry>
  {
    if umo in registry then registry[umo] else []
  }

  /** Whether the recorder keeps anything for this event at all. */
  predicate RecordsOn(event: Event)
  {
    event.platform == SupportedPlatform && event.isAiocqhttpEvent
  }

  /** Whether the marker handler goes as far as its first delete call. */
  predicate MarkerFires(registry: map<string, seq<Entry>>, event: Event)
  {
    IsRecallMarker(event.messageStr) && event.platform == SupportedPlatform &&
    |LedgerOf(registry, event.umo)| >= 2 && event.isAiocqhttpEvent
  }

  // ---------------------------------------------------------------------------------
  // History listing

  /** `str(message_id)` */
  function IdText(id: MessageId): string
  {
    match id
    case IntId(n) => IntToString(n)
    case StrId(s) => s
  }

  /** Line `i` of the listing for one entry; `formatTime` stands for
      `datetime.fromtimestamp(t).strftime("%H:%M:%S")`. */
  function ListingLine(i: nat, e: Entry, formatTime: int -> string): string
  {
    NatToString(i) + ". 消息ID: " + IdText(e.id) + " (发送时间: " + formatTime(e.sentAt) + ")"
  }

  /** `reversed(s)`: the entries, most recent first. */
  function Reversed(s: seq<Entry>): seq<Entry>
  {
    if s == [] then [] else [s[|s| - 1]] + Reversed(s[..|s| - 1])
  }

  /** The lines for `es`, numbered from `from` on (`enumerate(es, from)`). */
  function Numbered(from: nat, es: seq<Entry>, formatTime: int -> string): seq<string>
    decreases |es|
  {
    if es == [] then [] else [ListingLine(from, es[0], formatTime)] + Numbered(from + 1, es[1..], formatTime)
  }

  function ListingLines(entries: seq<Entry>, formatTime: int -> string): seq<string>
  {
    Numbered(1, Reversed(entries), formatTime)
  }

  const NoRecordsText: string := "当前会话没有消息记录"

  function ListingHeader(n: nat): string
  {
    "📝 最近发送的 " + NatToString(n) + " 条消息：\n"
  }

  /** The reply of the `list_messages` command for a conversation's ledger. */
  function ListingText(entries: seq<Entry>, formatTime: int -> string): string
  {
    if entries == [] then NoRecordsText
    else ListingHeader(|entries|) + Join("\n", ListingLines(entries, formatTime))
  }

  lemma {:induction false} ReversedAt(s: seq<Entry>, k: nat)
    requires k < |s|
    ensures |Reversed(s)| == |s|
    ensures Reversed(s)[k] == s[|s| - 1 - k]
    decreases |s|
  {
    if k > 0 {
      ReversedAt(s[..|s| - 1], k - 1);
    } else if |s| > 1 {
      ReversedAt(s[..|s| - 1], 0);
    }
  }

  lemma {:induction false} NumberedAt(from: nat, es: seq<Entry>, formatTime: int -> string, k: nat)
    requires k < |es|
    ensures |Numbered(from, es, formatTime)| == |es|
    ensures Numbered(from, es, formatTime)[k] == ListingLine(from + k, es[k], formatTime)
    decreases |es|
  {
    if k > 0 {
      NumberedAt(from + 1, es[1..], formatTime, k - 1);
    } else if |es| > 1 {
      NumberedAt(from + 1, es[1..], formatTime, 0);
    }
  }

  /** The listing has one line per entry, and line `i` (counting from 1) shows the `i`-th
      most recent entry. */
  lemma ListingLineAt(entries: seq<Entry>, formatTime: int -> string, i: nat)
    requires 1 <= i <= |entries|
    ensures |ListingLines(entries, formatTime)| == |entries|
    ensures ListingLines(entries, formatTime)[i - 1] == ListingLine(i, entries[|entries| - i], formatTime)
  {
    ReversedAt(entries, i - 1);
    NumberedAt(1, Reversed(entries), formatTime, i - 1);
  }

  /** An empty ledger gets the fixed "no records" reply; any other starts with a header
      that states how many entries there are. */
  lemma ListingShape(entries: seq<Entry>, formatTime: int -> string)
    ensures entries == [] ==> ListingText(entries, formatTime) == NoRecordsText
    ensures entries != [] ==>
      var h := ListingHeader(|entries|);
      |h| <= |ListingText(entries, formatTime)| && ListingText(entries, formatTime)[..|h|] == h
  {
  }

  // ---------------------------------------------------------------------------------
  // The plugin

  class ChatProPlugin {
    /** `sent_messages`: conversation key -> ledger, oldest entry first. */
    var sentMessages: map<string, seq<Entry>>
    const maxMessagesPerSession: nat := 20
    /** Every `delete_msg` call issued so far, in order. */
    ghost var deleteCalls: seq<MessageId>

    ghost predicate Valid()
      reads this
    {
      forall umo :: umo in sentMessages ==> |sentMessages[umo]| <= maxMessagesPerSession
    }

    constructor ()
      ensures Valid()
      ensures sentMessages == map[] && deleteCalls == []
    {
      sentMessages := map[];
      deleteCalls := [];
    }

    /** The transport's `delete_msg` action for one message id. */
    method DeleteMsg(id: MessageId)
      modifies this`deleteCalls
      ensures deleteCalls == old(deleteCalls) + [id]
    {
      deleteCalls := deleteCalls + [id];
    }

    /** After a message is sent: on a supported event, make sure the conversation has a
        ledger, and if the sent message has a truthy id, append it with the current time
        `now`, evicting the oldest entry beyond capacity. */
    method RecordSentMessage(event: Event, now: int)
      requires Valid()
      modifies this`sentMessages
      ensures Valid()
      ensures !RecordsOn(event) ==> sentMessages == old(sentMessages)
      ensures RecordsOn(event) && !Truthy(event.messageId) ==>
        sentMessages == old(sentMessages)[event.umo := LedgerOf(old(sentMessages), event.umo)]
      ensures RecordsOn(event) && Truthy(event.messageId) ==>
        sentMessages == old(sentMessages)[event.umo :=
          Append(LedgerOf(old(sentMessages), event.umo), Entry(event.messageId.value, now), maxMessagesPerSession)]
      // A consequence of the three clauses above, stated for callers: other conversations
      // are untouched.
      ensures forall umo :: umo != event.umo ==>
        (umo in sentMessages <==> umo in old(sentMessages)) &&
        LedgerOf(sentMessages, umo) == LedgerOf(old(sentMessages), umo)
    {
      if event.platform != SupportedPlatform {
        return;
      }
      if event.isAiocqhttpEvent {
        if event.umo !in sentMessages {
          sentMessages := sentMessages[event.umo := []];
        }
        var messageId := event.messageId;
        if Truthy(messageId) {
          var timestamp := now;
          sentMessages := sentMessages[event.umo := sentMessages[event.umo] + [Entry(messageId.value, timestamp)]];
          if |sentMessages[event.umo]| > maxMessagesPerSession {
            sentMessages := sentMessages[event.umo := sentMessages[event.umo][1..]];
          }
        }
      }
    }

    /** An inbound message that is exactly `[recall]` (ignoring case and surrounding
        whitespace), on a supported platform and with at least two ledger entries, deletes
        the second-to-last message and then the last one; only when both deletes return are
        the two entries popped and the event stopped. `first` and `second` are the outcomes
        of the two delete calls. */
    method DetectRecallKeyword(event: Event, first: DeleteOutcome, second: DeleteOutcome)
      returns (stopped: bool)
      requires Valid()
      modifies this
      ensures Valid()
      ensures !MarkerFires(old(sentMessages), event) ==>
        sentMessages == old(sentMessages) && deleteCalls == old(deleteCalls) && !stopped
      ensures MarkerFires(old(sentMessages), event) ==>
        var l := old(sentMessages)[event.umo];
        && deleteCalls == old(deleteCalls) + [l[|l| - 2].id] + (if first.Returned? then [l[|l| - 1].id] else [])
        && stopped == (first.Returned? && second.Returned?)
        && sentMessages == (if stopped then old(sentMessages)[event.umo := l[..|l| - 2]] else old(sentMessages))
    {
      stopped := false;
      if !IsRecallMarker(event.messageStr) {
        return;
      }
      var umo := event.umo;
      if event.platform != SupportedPlatform {
        return;
      }
      if umo !in sentMessages || |sentMessages[umo]| < 2 {
        return;
      }
      var l := sentMessages[umo];
      var recallMsgId := l[|l| - 1].id;
      var targetMsgId := l[|l| - 2].id;
      if event.isAiocqhttpEvent {
        DeleteMsg(targetMsgId);
        if first.Raised? {
          return;
        }
        DeleteMsg(recallMsgId);
        if second.Raised? {
          return;
        }
        assert PopLast(PopLast(l)) == l[..|l| - 2];
        if |sentMessages[umo]| >= 2 {
          sentMessages := sentMessages[umo := PopLast(sentMessages[umo])];
          sentMessages := sentMessages[umo := PopLast(sentMessages[umo])];
        }
        stopped := true;
      }
    }

    /** The `recall` command: on a supported platform with a non-empty ledger, delete the
        most recent message and pop its entry only after the delete returns. `outcome` is
        the outcome of that delete call. */
    method ManualRecall(event: Event, outcome: DeleteOutcome) returns (reply: Reply)
      requires Valid()
      modifies this
      ensures Valid()
      ensures event.platform != SupportedPlatform ==>
        reply == PlatformUnsupported(event.platform) &&
        sentMessages == old(sentMessages) && deleteCalls == old(deleteCalls)
      ensures event.platform == SupportedPlatform && LedgerOf(old(sentMessages), event.umo) == [] ==>
        reply == NothingToRecall && sentMessages == old(sentMessages) && deleteCalls == old(deleteCalls)
      ensures (event.platform == SupportedPlatform && LedgerOf(old(sentMessages), event.umo) != [] &&
               !event.isAiocqhttpEvent) ==>
        reply == WrongEventType && sentMessages == old(sentMessages) && deleteCalls == old(deleteCalls)
      ensures (event.platform == SupportedPlatform && LedgerOf(old(sentMessages), event.umo) != [] &&
               event.isAiocqhttpEvent) ==>
        var l := old(sentMessages)[event.umo];
        && deleteCalls == old(deleteCalls) + [l[|l| - 1].id]
        && (outcome.Returned? ==> reply == Recalled && sentMessages == old(sentMessages)[event.umo := PopLast(l)])
        && (outcome.Raised? ==> reply == RecallFailed(outcome.error) && sentMessages == old(sentMessages))
    {
      var umo := event.umo;
      if event.platform != SupportedPlatform {
        reply := PlatformUnsupported(event.platform);
        return;
      }
      if umo !in sentMessages || sentMessages[umo] == [] {
        reply := NothingToRecall;
        return;
      }
      var l := sentMessages[umo];
      var messageId := l[|l| - 1].id;
      if event.isAiocqhttpEvent {
        DeleteMsg(messageId);
        if outcome.Raised? {
          reply := RecallFailed(outcome.error);
          return;
        }
        sentMessages := sentMessages[umo := PopLast(sentMessages[umo])];
        reply := Recalled;
      } else {
        reply := WrongEventType;
      }
    }

    /** The `list_messages` command: the conversation's entries, most recent first,
        numbered from 1, under a header with their count; the ledger is only read. */
    method ListSentMessages(umo: string, formatTime: int -> string) returns (reply: string)
      ensures reply == ListingText(LedgerOf(sentMessages, umo), formatTime)
    {
      if umo !in sentMessages || sentMessages[umo] == [] {
        reply := NoRecordsText;
        return;
      }
      var messages := sentMessages[umo];
      var msgList: seq<string> := [];
      var i := 0;
      while i < |messages|
        invariant 0 <= i <= |messages|
        invariant |msgList| == i
        invariant forall j :: 0 <= j < i ==>
          msgList[j] == ListingLine(j + 1, messages[|messages| - 1 - j], formatTime)
      {
        var entry := messages[|messages| - 1 - i];
        msgList := msgList + [ListingLine(i + 1, entry, formatTime)];
        i := i + 1;
      }
      ListingLineAt(messages, formatTime, 1);
      forall j | 0 <= j < |messages|
        ensures |ListingLines(messages, formatTime)| == |messages|
        ensures msgList[j] == ListingLines(messages, formatTime)[j]
      {
        ListingLineAt(messages, formatTime, j + 1);
      }
      assert msgList == ListingLines(messages, formatTime);
      reply := ListingHeader(|messages|) + Join("\n", msgList);
    }

    /** Teardown: every ledger is dropped. */
    method Terminate()
      modifies this`sentMessages
      ensures Valid()
      ensures sentMessages == map[]
    {
      sentMessages := map[];
    }
  }

  /** A whole exchange in one conversation: two messages are sent and recorded, the bot
      then sends a recall marker, which is recorded too and seen by the marker handler; with
      both deletes returning, the earlier message and the marker are deleted, in that
      order, and only the first message remains in the ledger. */
  method MarkerRecallScenario(umo: string, marker: string, m1: MessageId, m2: MessageId, m3: MessageId,
                              t1: int, t2: int, t3: int)
    returns (ledger: seq<Entry>, stopped: bool, ghost calls: seq<MessageId>)
    requires IsRecallMarker(marker)
    requires Truthy(Some(m1)) && Truthy(Some(m2)) && Truthy(Some(m3))
    ensures calls == [m2, m3]
    ensures ledger == [Entry(m1, t1)]
    ensures stopped
  {
    var e1, e2, e3 := Entry(m1, t1), Entry(m2, t2), Entry(m3, t3);
    var plugin := new ChatProPlugin();
    plugin.RecordSentMessage(Event(umo, SupportedPlatform, true, "first", Some(m1)), t1);
    assert Append([], e1, 20) == [e1];
    assert plugin.sentMessages == map[umo := [e1]];
    plugin.RecordSentMessage(Event(umo, SupportedPlatform, true, "second", Some(m2)), t2);
    assert Append([e1], e2, 20) == [e1, e2];
    assert plugin.sentMessages == map[umo := [e1, e2]];
    plugin.RecordSentMessage(Event(umo, SupportedPlatform, true, marker, Some(m3)), t3);
    assert Append([e1, e2], e3, 20) == [e1, e2, e3];
    assert plugin.sentMessages == map[umo := [e1, e2, e3]];
    stopped := plugin.DetectRecallKeyword(
      Event(umo, SupportedPlatform, true, marker, None), Returned, Returned);
    calls := plugin.deleteCalls;
    assert [e1, e2, e3][..1] == [e1];
    ledger := LedgerOf(plugin.sentMessages, umo);
  }
}
