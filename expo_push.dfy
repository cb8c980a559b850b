// ExpoPushServiceImpl: token validation, batched delivery through the Expo
// gateway, per-record delivery, ticket processing and immediate notifications.
// The HTTP call is the `Gateway` parameter: whatever it answers for a batch,
// None standing for a null body.
module ExpoPush {
  import opened Wrappers
  import opened Strings
  import opened PushResponse
  import opened DeviceTokens
  import opened PushRecords
  import opened FamilyTables
  import FamilyRelations

  const TokenPrefix: string := "ExponentPushToken["
  const TokenSuffix: string := "]"
  /** expo.push.batch-size when the property is unset. */
  const DefaultBatchSize: int := 100

  /** A value of a message's `data` map. */
  datatype DataValue = Number(number: Option<int>) | Word(word: Option<string>) | Toggle(toggle: Option<bool>)

  datatype Message = Message(
    to: Option<string>,
    title: Option<string>,
    body: Option<string>,
    data: map<string, DataValue>,
    sound: Option<string>,
    priority: Option<string>,
    channelId: Option<string>)

  /** One POST of a batch to the push API; None is a null body. */
  type Gateway = seq<Message> -> Option<Response>

  function Min(a: int, b: int): int { if a <= b then a else b }

  // ---------------------------------------------------------------- tokens

  /** isValidExpoPushToken. */
  predicate IsValidExpoPushToken(t: Option<string>)
  {
    HasText(t) && StartsWith(t.value, TokenPrefix) && EndsWith(t.value, TokenSuffix)
  }

  /** Every "ExponentPushToken[...]" is valid, whatever it wraps. */
  lemma WrappedTokenIsValid(inner: string)
    ensures IsValidExpoPushToken(Some(TokenPrefix + inner + TokenSuffix))
  {
    var t := TokenPrefix + inner + TokenSuffix;
    assert t[0] == 'E' && !IsJavaWhitespace(t[0]);
    assert t[..|TokenPrefix|] == TokenPrefix;
    assert t[|t| - |TokenSuffix|..] == TokenSuffix;
  }

  /** A valid token is the prefix, some text and the suffix: the '[' and ']' cannot overlap. */
  lemma ValidTokenUnwraps(t: Option<string>)
    requires IsValidExpoPushToken(t)
    ensures |t.value| > |TokenPrefix|
    ensures t.value == TokenPrefix + t.value[|TokenPrefix|..|t.value| - 1] + TokenSuffix
  {
    var s := t.value;
    assert s[..|TokenPrefix|][|TokenPrefix| - 1] == '[';
    assert s[|s| - 1..][0] == ']';
    assert s == s[..|TokenPrefix|] + s[|TokenPrefix|..|s| - 1] + s[|s| - 1..];
  }

  /** maskToken: "null" without text, "***" up to 20 characters, else the first 20 and last 4 around "***". */
  function MaskToken(t: Option<string>): (r: string)
    ensures !HasText(t) ==> r == "null"
    ensures HasText(t) && |t.value| <= 20 ==> r == "***"
    ensures HasText(t) && |t.value| > 20 ==> |r| == 27
  {
    if !HasText(t) then "null"
    else if |t.value| <= 20 then "***"
    else t.value[..20] + "***" + t.value[|t.value| - 4..]
  }

  /** The mask shows nothing but the first 20 and the last 4 characters. */
  lemma MaskHidesMiddle(a: string, b: string)
    requires HasText(Some(a)) && HasText(Some(b)) && |a| > 20 && |b| > 20
    requires a[..20] == b[..20] && a[|a| - 4..] == b[|b| - 4..]
    ensures MaskToken(Some(a)) == MaskToken(Some(b))
  {
  }

  // ---------------------------------------------------------------- batching

  /** The messages sendMessages keeps: those addressed to a valid token, in order. */
  function ValidMessages(ms: seq<Message>): (r: seq<Message>)
    ensures |r| <= |ms|
    ensures forall m :: m in r <==> m in ms && IsValidExpoPushToken(m.to)
  {
    if |ms| == 0 then []
    else
      assert ms == [ms[0]] + ms[1..];
      (if IsValidExpoPushToken(ms[0].to) then [ms[0]] else []) + ValidMessages(ms[1..])
  }

  lemma {:induction false} ValidMessagesAllValid(ms: seq<Message>)
    requires forall m :: m in ms ==> IsValidExpoPushToken(m.to)
    ensures ValidMessages(ms) == ms
  {
    if |ms| > 0 {
      assert ms[0] in ms;
      ValidMessagesAllValid(ms[1..]);
    }
  }

  /** The batches of s from position i on: s[i..i+n], s[i+n..i+2n], ... with a shorter last one. */
  function BatchesFrom(s: seq<Message>, n: int, i: nat): seq<seq<Message>>
    requires n > 0
    decreases |s| - i
  {
    if i >= |s| then [] else [s[i..Min(i + n, |s|)]] + BatchesFrom(s, n, i + n)
  }

  function Batches(s: seq<Message>, n: int): seq<seq<Message>>
    requires n > 0
  {
    BatchesFrom(s, n, 0)
  }

  function Flatten(bs: seq<seq<Message>>): seq<Message>
  {
    if |bs| == 0 then [] else bs[0] + Flatten(bs[1..])
  }

  lemma BatchesFromShape(s: seq<Message>, n: int, i: nat)
    requires n > 0 && i <= |s|
    ensures Flatten(BatchesFrom(s, n, i)) == s[i..]
    ensures forall b :: b in BatchesFrom(s, n, i) ==> 0 < |b| <= n
  {
    BatchesFlatten(s, n, i);
    BatchesBounded(s, n, i);
  }

  lemma {:induction false} BatchesFlatten(s: seq<Message>, n: int, i: nat)
    requires n > 0 && i <= |s|
    ensures Flatten(BatchesFrom(s, n, i)) == s[i..]
    decreases |s| - i
  {
    if i < |s| {
      if i + n <= |s| {
        BatchesFlatten(s, n, i + n);
        assert BatchesFrom(s, n, i) == [s[i..i + n]] + BatchesFrom(s, n, i + n);
        assert s[i..] == s[i..i + n] + s[i + n..];
      } else {
        assert BatchesFrom(s, n, i + n) == [];
        assert s[i..Min(i + n, |s|)] == s[i..];
        assert BatchesFrom(s, n, i) == [s[i..]];
      }
    }
  }

  lemma {:induction false} BatchesBounded(s: seq<Message>, n: int, i: nat)
    requires n > 0 && i <= |s|
    ensures forall b :: b in BatchesFrom(s, n, i) ==> 0 < |b| <= n
    decreases |s| - i
  {
    if i < |s| {
      BatchesBounded(s, n, Min(i + n, |s|));
      assert BatchesFrom(s, n, i + n) == BatchesFrom(s, n, Min(i + n, |s|));
    }
  }

  lemma {:induction false} BatchAt(s: seq<Message>, n: int, i: nat, k: nat)
    requires n > 0 && k < |BatchesFrom(s, n, i)|
    ensures i + k * n < |s|
    ensures BatchesFrom(s, n, i)[k] == s[i + k * n..Min(i + k * n + n, |s|)]
    decreases k
  {
    if k > 0 {
      assert BatchesFrom(s, n, i)[k] == BatchesFrom(s, n, i + n)[k - 1];
      BatchAt(s, n, i + n, k - 1);
      MulStep(i, k, n);
    }
  }

  lemma MulStep(i: int, k: int, n: int)
    ensures i + n + (k - 1) * n == i + k * n
  {
  }

  /**
   * The loop `for (i = 0; i < size; i += batchSize)` sends every valid message
   * exactly once, in order, in batches of batchSize with a shorter last one:
   * batch k holds positions k*n up to (k+1)*n.
   */
  lemma BatchesPartition(s: seq<Message>, n: int)
    requires n > 0
    ensures Flatten(Batches(s, n)) == s
    ensures forall b :: b in Batches(s, n) ==> 0 < |b| <= n
    ensures forall k :: 0 <= k < |Batches(s, n)| ==>
              k * n < |s| && Batches(s, n)[k] == s[k * n..Min(k * n + n, |s|)]
  {
    BatchesFromShape(s, n, 0);
    forall k | 0 <= k < |Batches(s, n)| ensures k * n < |s| && Batches(s, n)[k] == s[k * n..Min(k * n + n, |s|)] {
      BatchAt(s, n, 0, k);
    }
  }

  function TicketsOf(r: Option<Response>): seq<Ticket>
  {
    if r.Some? && r.value.data.Some? then r.value.data.value else []
  }

  function ErrorsOf(r: Option<Response>): seq<PushError>
  {
    if r.Some? && r.value.errors.Some? then r.value.errors.value else []
  }

  /** The tickets of every batch's reply, concatenated in batch order. */
  function CollectTickets(bs: seq<seq<Message>>, g: Gateway): seq<Ticket>
  {
    if |bs| == 0 then [] else TicketsOf(g(bs[0])) + CollectTickets(bs[1..], g)
  }

  function CollectErrors(bs: seq<seq<Message>>, g: Gateway): seq<PushError>
  {
    if |bs| == 0 then [] else ErrorsOf(g(bs[0])) + CollectErrors(bs[1..], g)
  }

  /**
   * The batches sendMessages posts: none for an empty list, for no valid
   * message, or for a negative batch size (subList then throws and the catch
   * returns an empty response).
   */
  function Dispatched(ms: seq<Message>, batchSize: int): seq<seq<Message>>
    requires batchSize != 0
  {
    if |ms| == 0 || |ValidMessages(ms)| == 0 || batchSize < 0 then []
    else Batches(ValidMessages(ms), batchSize)
  }

  /** The response sendMessages returns. */
  function Delivery(ms: seq<Message>, batchSize: int, g: Gateway): Response
    requires batchSize != 0
  {
    var batches := Dispatched(ms, batchSize);
    if batches == [] then EmptyResponse
    else
      var errors := CollectErrors(batches, g);
      Response(Some(CollectTickets(batches, g)), if errors == [] then None else Some(errors))
  }

  /** One turn of sendMessages' loop: the next batch, its reply's tickets and errors, then the rest. */
  lemma BatchStep(valid: seq<Message>, n: int, i: nat, g: Gateway, tickets: seq<Ticket>, errors: seq<PushError>)
    requires n > 0 && i < |valid|
    ensures var batch := valid[i..Min(i + n, |valid|)];
      var rest := BatchesFrom(valid, n, i + n);
      BatchesFrom(valid, n, i) == [batch] + rest
      && tickets + CollectTickets(BatchesFrom(valid, n, i), g) == (tickets + TicketsOf(g(batch))) + CollectTickets(rest, g)
      && errors + CollectErrors(BatchesFrom(valid, n, i), g) == (errors + ErrorsOf(g(batch))) + CollectErrors(rest, g)
  {
    var batch := valid[i..Min(i + n, |valid|)];
    var rest := BatchesFrom(valid, n, i + n);
    assert ([batch] + rest)[1..] == rest;
  }

  /** What sendMessages answers once it has posted every batch of a non-empty list of valid messages. */
  lemma DeliveryOfBatches(ms: seq<Message>, n: int, g: Gateway)
    requires n > 0 && |ms| > 0 && |ValidMessages(ms)| > 0
    ensures Dispatched(ms, n) == Batches(ValidMessages(ms), n) != []
    ensures Delivery(ms, n, g) == Response(Some(CollectTickets(Dispatched(ms, n), g)),
      if CollectErrors(Dispatched(ms, n), g) == [] then None else Some(CollectErrors(Dispatched(ms, n), g)))
  {
    assert |Batches(ValidMessages(ms), n)| > 0;
  }

  /** sendMessages. A batch size of zero never leaves the loop, so callers must not configure it. */
  method SendMessages(messages: seq<Message>, batchSize: int, gateway: Gateway)
    returns (r: Response, sent: seq<seq<Message>>)
    requires batchSize != 0
    ensures r == Delivery(messages, batchSize, gateway)
    ensures sent == Dispatched(messages, batchSize)
  {
    if |messages| == 0 {
      return EmptyResponse, [];
    }
    var valid := ValidMessages(messages);
    if |valid| == 0 || batchSize < 0 {
      return EmptyResponse, [];
    }
    var tickets, errors;
    tickets, errors, sent := PostBatches(valid, batchSize, gateway);
    DeliveryOfBatches(messages, batchSize, gateway);
    r := Response(Some(tickets), if errors == [] then None else Some(errors));
  }

  /** sendMessages' loop after the batches before position i: what is posted and gathered, followed by what is left, is everything. */
  predicate Posted(valid: seq<Message>, n: int, i: nat, g: Gateway, sent: seq<seq<Message>>,
                   tickets: seq<Ticket>, errors: seq<PushError>)
    requires n > 0
  {
    sent + BatchesFrom(valid, n, i) == Batches(valid, n)
    && tickets + CollectTickets(BatchesFrom(valid, n, i), g) == CollectTickets(Batches(valid, n), g)
    && errors + CollectErrors(BatchesFrom(valid, n, i), g) == CollectErrors(Batches(valid, n), g)
  }

  /** Posting the next batch keeps Posted. */
  lemma PostedStep(valid: seq<Message>, n: int, i: nat, g: Gateway, sent: seq<seq<Message>>,
                   tickets: seq<Ticket>, errors: seq<PushError>)
    requires n > 0 && i < |valid| && Posted(valid, n, i, g, sent, tickets, errors)
    ensures var batch := valid[i..Min(i + n, |valid|)];
      Posted(valid, n, i + n, g, sent + [batch], tickets + TicketsOf(g(batch)), errors + ErrorsOf(g(batch)))
  {
    var batch := valid[i..Min(i + n, |valid|)];
    var rest := BatchesFrom(valid, n, i + n);
    BatchStep(valid, n, i, g, tickets, errors);
    assert (sent + [batch]) + rest == sent + ([batch] + rest);
  }

  /** sendMessages' loop: post batch after batch, gathering each reply's tickets and errors. */
  method PostBatches(valid: seq<Message>, batchSize: int, gateway: Gateway)
    returns (tickets: seq<Ticket>, errors: seq<PushError>, sent: seq<seq<Message>>)
    requires batchSize > 0
    ensures sent == Batches(valid, batchSize)
    ensures tickets == CollectTickets(sent, gateway) && errors == CollectErrors(sent, gateway)
  {
    tickets, errors, sent := [], [], [];
    var i: nat := 0;
    assert [] + BatchesFrom(valid, batchSize, 0) == BatchesFrom(valid, batchSize, 0);
    while i < |valid|
      invariant Posted(valid, batchSize, i, gateway, sent, tickets, errors)
      decreases |valid| - i
    {
      var batch := valid[i..Min(i + batchSize, |valid|)];
      PostedStep(valid, batchSize, i, gateway, sent, tickets, errors);
      var reply := gateway(batch);
      // a null body, or a null list in it, adds nothing
      tickets := tickets + TicketsOf(reply);
      errors := errors + ErrorsOf(reply);
      sent := sent + [batch];
      i := i + batchSize;
    }
    assert BatchesFrom(valid, batchSize, i) == [];
  }

  /** sendMessage: a list of one. */
  method SendMessage(message: Message, batchSize: int, gateway: Gateway) returns (r: Response)
    requires batchSize != 0
    ensures batchSize > 0 && IsValidExpoPushToken(message.to) ==>
      r == Response(Some(TicketsOf(gateway([message]))),
                    if ErrorsOf(gateway([message])) == [] then None else Some(ErrorsOf(gateway([message]))))
    ensures !IsValidExpoPushToken(message.to) || batchSize < 0 ==> r == EmptyResponse
  {
    var sent;
    r, sent := SendMessages([message], batchSize, gateway);
    if batchSize > 0 && IsValidExpoPushToken(message.to) {
      assert ValidMessages([message]) == [message];
      assert [message][0..Min(batchSize, 1)] == [message];
      assert BatchesFrom([message], batchSize, batchSize) == [];
      assert Batches([message], batchSize) == [[message]];
      assert [[message]][1..] == [];
      assert CollectErrors([[message]], gateway) == ErrorsOf(gateway([message]));
      assert CollectTickets([[message]], gateway) == TicketsOf(gateway([message]));
    } else {
      assert !IsValidExpoPushToken(message.to) ==> ValidMessages([message]) == [];
    }
  }

  /** Every batch is posted and nothing else: the flattened batches are the valid messages. */
  lemma DeliverySendsEachValidMessageOnce(ms: seq<Message>, batchSize: int)
    requires batchSize != 0
    ensures batchSize > 0 ==> Flatten(Dispatched(ms, batchSize)) == ValidMessages(ms)
    ensures batchSize < 0 ==> Dispatched(ms, batchSize) == []
    ensures forall b :: b in Dispatched(ms, batchSize) ==> 0 < |b| <= batchSize
  {
    if batchSize > 0 && |ms| > 0 && |ValidMessages(ms)| > 0 {
      BatchesPartition(ValidMessages(ms), batchSize);
    }
  }

  /** The tickets of a gateway that answers every message of a batch in order, and nothing else. */
  function Answers(f: Message -> Ticket, b: seq<Message>): (r: seq<Ticket>)
    ensures |r| == |b| && forall k :: 0 <= k < |b| ==> r[k] == f(b[k])
  {
    seq(|b|, k requires 0 <= k < |b| => f(b[k]))
  }

  ghost predicate AnswersEach(g: Gateway, f: Message -> Ticket)
  {
    forall b :: g(b) == Some(Response(Some(Answers(f, b)), None))
  }

  lemma {:induction false} CollectAnswers(bs: seq<seq<Message>>, g: Gateway, f: Message -> Ticket)
    requires AnswersEach(g, f)
    ensures CollectTickets(bs, g) == Answers(f, Flatten(bs))
    ensures CollectErrors(bs, g) == []
  {
    if |bs| > 0 {
      CollectAnswers(bs[1..], g, f);
      assert g(bs[0]) == Some(Response(Some(Answers(f, bs[0])), None));
    }
  }

  /** With a gateway answering each message, ticket k of the response answers valid message k. */
  lemma DeliveryAnswersEachValidMessage(ms: seq<Message>, batchSize: int, g: Gateway, f: Message -> Ticket)
    requires AnswersEach(g, f) && batchSize > 0 && |ValidMessages(ms)| > 0
    ensures Delivery(ms, batchSize, g) == Response(Some(Answers(f, ValidMessages(ms))), None)
  {
    BatchesPartition(ValidMessages(ms), batchSize);
    CollectAnswers(Dispatched(ms, batchSize), g, f);
  }

  // ---------------------------------------------------------------- push attributes

  /** getPushPriorityFromRecord. */
  function PriorityFromRecord(priority: Option<int>): string
  {
    if priority.None? then "normal"
    else match priority.value
      case 1 => "normal"
      case 3 => "high"
      case _ => "normal"
  }

  /** getNotificationChannelFromRecord. */
  function ChannelFromRecord(kind: Option<int>): string
  {
    if kind.None? then "default"
    else match kind.value
      case 1 => "system"
      case 3 => "urgent"
      case _ => "default"
  }

  /** getPushPriority: a template has no priority column. */
  function TemplatePriority(n: Template): string { "normal" }

  /** getNotificationChannel. */
  function TemplateChannel(n: Template): string
  {
    if n.kind.Some? && n.kind.value == 3 then "emergency" else "default"
  }

  /** Only urgency 3 is pushed at high priority; types 1 and 3 get their own channels. */
  lemma PushAttributeMaps(priority: Option<int>, kind: Option<int>, n: Template)
    ensures PriorityFromRecord(priority) == "high" <==> priority == Some(3)
    ensures PriorityFromRecord(priority) != "high" ==> PriorityFromRecord(priority) == "normal"
    ensures ChannelFromRecord(kind) == "system" <==> kind == Some(1)
    ensures ChannelFromRecord(kind) == "urgent" <==> kind == Some(3)
    ensures kind != Some(1) && kind != Some(3) <==> ChannelFromRecord(kind) == "default"
    ensures TemplateChannel(n) == "emergency" <==> n.kind == Some(3)
    ensures TemplatePriority(n) == "normal"
  {
  }

  // ---------------------------------------------------------------- messages from records

  function RecordData(r: PushRecord): map<string, DataValue>
  {
    var base := map["notificationId" := Number(Some(r.id)), "templateId" := Number(r.templateId),
                     "type" := Number(r.kind), "priority" := Number(r.priority),
                     "familyId" := Number(r.familyId), "senderId" := Number(r.senderId),
                     "isOneClick" := Toggle(r.isOneClick)];
    if HasText(r.svgIcon) then base["icon" := Word(r.svgIcon)] else base
  }

  function RecordMessage(r: PushRecord, d: DeviceToken): Message
  {
    Message(Some(d.deviceToken), r.title, r.content, RecordData(r), Some("default"),
            Some(PriorityFromRecord(r.priority)), Some(ChannelFromRecord(r.kind)))
  }

  /** The messages buildPushMessagesFromRecord builds: one per valid token, in order. */
  function RecordMessages(r: PushRecord, tokens: seq<DeviceToken>): (ms: seq<Message>)
    ensures |ms| <= |tokens|
    ensures forall m :: m in ms ==> IsValidExpoPushToken(m.to)
  {
    if |tokens| == 0 then []
    else
      var d := tokens[|tokens| - 1];
      RecordMessages(r, tokens[..|tokens| - 1])
      + (if IsValidExpoPushToken(Some(d.deviceToken)) then [RecordMessage(r, d)] else [])
  }

  /** The record object after the loop: it carries the last valid token it was addressed to. */
  function WithLastToken(r: PushRecord, tokens: seq<DeviceToken>): PushRecord
  {
    if |tokens| == 0 then r
    else
      var d := tokens[|tokens| - 1];
      var before := WithLastToken(r, tokens[..|tokens| - 1]);
      if IsValidExpoPushToken(Some(d.deviceToken))
      then before.(deviceTokenId := Some(d.id), deviceToken := Some(d.deviceToken), platform := d.platform)
      else before
  }

  /** buildPushMessagesFromRecord, returning the record object as the loop leaves it. */
  method BuildPushMessagesFromRecord(record: PushRecord, tokens: seq<DeviceToken>)
    returns (messages: seq<Message>, local: PushRecord)
    ensures messages == RecordMessages(record, tokens)
    ensures local == WithLastToken(record, tokens)
  {
    messages := [];
    local := record;
    var i := 0;
    while i < |tokens|
      invariant 0 <= i <= |tokens|
      invariant messages == RecordMessages(record, tokens[..i])
      invariant local == WithLastToken(record, tokens[..i])
    {
      var d := tokens[i];
      assert tokens[..i + 1][..i] == tokens[..i];
      if IsValidExpoPushToken(Some(d.deviceToken)) {
        messages := messages + [RecordMessage(record, d)];
        local := local.(deviceTokenId := Some(d.id), deviceToken := Some(d.deviceToken), platform := d.platform);
      }
      i := i + 1;
    }
    assert tokens[..i] == tokens;
  }

  /**
   * A record's messages go to valid tokens only, so sendMessages' own filter
   * drops none of them; there are none exactly when no token is valid.
   */
  lemma RecordMessagesShape(r: PushRecord, tokens: seq<DeviceToken>)
    ensures ValidMessages(RecordMessages(r, tokens)) == RecordMessages(r, tokens)
    ensures RecordMessages(r, tokens) == [] <==>
      forall k :: 0 <= k < |tokens| ==> !IsValidExpoPushToken(Some(tokens[k].deviceToken))
  {
    ValidMessagesAllValid(RecordMessages(r, tokens));
    RecordMessagesNone(r, tokens);
  }

  lemma {:induction false} RecordMessagesNone(r: PushRecord, tokens: seq<DeviceToken>)
    ensures RecordMessages(r, tokens) == [] <==>
      forall k :: 0 <= k < |tokens| ==> !IsValidExpoPushToken(Some(tokens[k].deviceToken))
  {
    if |tokens| > 0 {
      var n := |tokens| - 1;
      RecordMessagesNone(r, tokens[..n]);
      forall k | 0 <= k < n ensures tokens[..n][k] == tokens[k] { }
    }
  }

  // ---------------------------------------------------------------- per-record delivery

  /** The error code logged with a response: the first request-level error's code. */
  function ResponseErrorCode(response: Option<Response>): Option<string>
  {
    if response.Some? && HasErrors(response.value) then response.value.errors.value[0].code else None
  }

  /** updatePushRecordStatus(record, ...) on the table: only the row with the record's id changes. */
  function RecordMarked(records: map<nat, PushRecord>, id: nat, pushStatus: int, now: int,
                        errorMessage: Option<string>, response: Option<Response>): map<nat, PushRecord>
  {
    if id in records then
      records[id := WithPushStatus(records[id], pushStatus, now,
                                   if response.Some? then Some(LoggedResponse(response.value)) else None,
                                   ResponseErrorCode(response), errorMessage)]
    else records
  }

  /** updatePushRecordStatus(record, pushStatus, errorMessage, response); returns the updated local object. */
  method MarkRecord(ledger: PushLedger, record: PushRecord, pushStatus: int, errorMessage: Option<string>,
                    response: Option<Response>, now: int) returns (local: PushRecord)
    requires ledger.Valid()
    modifies ledger
    ensures ledger.Valid() && ledger.nextId == old(ledger.nextId)
    ensures ledger.records == RecordMarked(old(ledger.records), record.id, pushStatus, now, errorMessage, response)
    ensures local == record.(pushStatus := Some(pushStatus), pushTime := Some(now), errorMessage := errorMessage,
                             errorCode := ResponseErrorCode(response))
  {
    var code := ResponseErrorCode(response);
    var log := if response.Some? then Some(LoggedResponse(response.value)) else None;
    var _ := ledger.UpdatePushStatus(record.id, pushStatus, now, log, code, errorMessage);
    local := record.(pushStatus := Some(pushStatus), pushTime := Some(now), errorMessage := errorMessage,
                     errorCode := code);
  }

  /** What sendPushRecords records for one record. */
  datatype Outcome = Outcome(pushStatus: int, errorMessage: Option<string>, response: Option<Response>)

  /** The active tokens of the record's receiver (a null receiver matches no row). */
  function ReceiverTokens(t: Table, r: PushRecord): seq<DeviceToken>
  {
    if r.receiverId.Some? then ActiveOf(t, [r.receiverId.value]) else []
  }

  function RecordOutcome(t: Table, r: PushRecord, batchSize: int, g: Gateway): Outcome
    requires batchSize != 0
  {
    var tokens := ReceiverTokens(t, r);
    if tokens == [] then Outcome(FailedStatus, Some("没有可用的设备Token"), None)
    else
      var messages := RecordMessages(r, tokens);
      if messages == [] then Outcome(FailedStatus, Some("构建推送消息失败"), None)
      else
        var response := Delivery(messages, batchSize, g);
        if SuccessCount(response) > 0 then Outcome(Delivered, None, Some(response))
        else Outcome(FailedStatus,
                     if HasErrors(response) then response.errors.value[0].message else Some("推送失败"),
                     Some(response))
  }

  /** Each record's outcome for a table snapshot, batch size and gateway. */
  function Outcomes(t: Table, batchSize: int, g: Gateway): PushRecord -> Outcome
    requires batchSize != 0
  {
    (r: PushRecord) => RecordOutcome(t, r, batchSize, g)
  }

  /** The rows after marking each record of rs, in order, with its outcome. */
  function MarkedAll(records: map<nat, PushRecord>, rs: seq<PushRecord>, outcome: PushRecord -> Outcome,
                     now: int): map<nat, PushRecord>
  {
    if |rs| == 0 then records
    else
      var r := rs[|rs| - 1];
      var o := outcome(r);
      RecordMarked(MarkedAll(records, rs[..|rs| - 1], outcome, now), r.id, o.pushStatus, now,
                   o.errorMessage, o.response)
  }

  /** The table after sendPushRecords has handled rs in order. */
  function RecordsSent(records: map<nat, PushRecord>, t: Table, rs: seq<PushRecord>, batchSize: int,
                       g: Gateway, now: int): map<nat, PushRecord>
    requires batchSize != 0
  {
    MarkedAll(records, rs, Outcomes(t, batchSize, g), now)
  }

  /** Some element of s satisfies p. */
  predicate Any<T>(s: seq<T>, p: T -> bool)
  {
    exists k :: 0 <= k < |s| && p(s[k])
  }

  lemma AnyStep<T>(s: seq<T>, k: nat, p: T -> bool)
    requires k < |s|
    ensures Any(s[..k + 1], p) <==> Any(s[..k], p) || p(s[k])
  {
    assert s[..k + 1][k] == s[k];
    if Any(s[..k + 1], p) {
      var j :| 0 <= j < k + 1 && p(s[..k + 1][j]);
      if j < k {
        assert s[..k][j] == s[..k + 1][j];
      }
    }
    if Any(s[..k], p) {
      var j :| 0 <= j < k && p(s[..k][j]);
      assert s[..k + 1][j] == s[..k][j];
    }
  }

  /** A record whose outcome is delivered. */
  function Delivers(t: Table, batchSize: int, g: Gateway): PushRecord -> bool
    requires batchSize != 0
  {
    (r: PushRecord) => RecordOutcome(t, r, batchSize, g).pushStatus == Delivered
  }

  /** Some record of rs is delivered. */
  predicate AnyDelivered(t: Table, rs: seq<PushRecord>, batchSize: int, g: Gateway)
    requires batchSize != 0
  {
    Any(rs, Delivers(t, batchSize, g))
  }

  /** The body of sendPushRecords' loop for one record; true iff it was marked delivered. */
  method SendOneRecord(record: PushRecord, registry: TokenRegistry, ledger: PushLedger,
                       batchSize: int, gateway: Gateway, now: int) returns (delivered: bool)
    requires batchSize != 0 && ledger.Valid()
    modifies ledger
    ensures ledger.Valid() && ledger.nextId == old(ledger.nextId)
    ensures var o := RecordOutcome(registry.Snapshot(), record, batchSize, gateway);
      ledger.records == RecordMarked(old(ledger.records), record.id, o.pushStatus, now, o.errorMessage, o.response)
      && delivered == (o.pushStatus == Delivered)
  {
    var tokens: seq<DeviceToken> := [];
    if record.receiverId.Some? {
      tokens := registry.GetActiveTokensByUserId(record.receiverId.value);
    }
    delivered := false;
    if tokens == [] {
      var _ := MarkRecord(ledger, record, FailedStatus, Some("没有可用的设备Token"), None, now);
      return;
    }
    var messages, _ := BuildPushMessagesFromRecord(record, tokens);
    if messages == [] {
      var _ := MarkRecord(ledger, record, FailedStatus, Some("构建推送消息失败"), None, now);
      return;
    }
    var response, _ := SendMessages(messages, batchSize, gateway);
    if SuccessCount(response) > 0 {
      var _ := MarkRecord(ledger, record, Delivered, None, Some(response), now);
      delivered := true;
    } else {
      var errorMessage := if HasErrors(response) then response.errors.value[0].message else Some("推送失败");
      var _ := MarkRecord(ledger, record, FailedStatus, errorMessage, Some(response), now);
    }
  }

  /**
   * sendPushRecords: each record is marked delivered when some ticket of its
   * reply is "ok" and failed otherwise; true iff some record was delivered.
   * The registry is only read.
   */
  method SendPushRecords(records: seq<PushRecord>, registry: TokenRegistry, ledger: PushLedger,
                         batchSize: int, gateway: Gateway, now: int) returns (ok: bool)
    requires batchSize != 0 && ledger.Valid()
    modifies ledger
    ensures ledger.Valid() && ledger.nextId == old(ledger.nextId)
    ensures ledger.records == RecordsSent(old(ledger.records), registry.Snapshot(), records, batchSize, gateway, now)
    ensures ok == AnyDelivered(registry.Snapshot(), records, batchSize, gateway)
  {
    ok := false;
    var k := 0;
    while k < |records|
      invariant 0 <= k <= |records|
      invariant ledger.Valid() && ledger.nextId == old(ledger.nextId)
      invariant ledger.records == RecordsSent(old(ledger.records), registry.Snapshot(), records[..k], batchSize, gateway, now)
      invariant ok == AnyDelivered(registry.Snapshot(), records[..k], batchSize, gateway)
    {
      SentStep(old(ledger.records), registry.Snapshot(), records, k, batchSize, gateway, now);
      AnyStep(records, k, Delivers(registry.Snapshot(), batchSize, gateway));
      var delivered := SendOneRecord(records[k], registry, ledger, batchSize, gateway, now);
      ok := ok || delivered;
      k := k + 1;
    }
    assert records[..k] == records;
  }

  /** Handling one more record marks that record and no other. */
  lemma SentStep(records: map<nat, PushRecord>, t: Table, rs: seq<PushRecord>, k: nat, batchSize: int,
                 g: Gateway, now: int)
    requires batchSize != 0 && k < |rs|
    ensures var o := RecordOutcome(t, rs[k], batchSize, g);
      RecordsSent(records, t, rs[..k + 1], batchSize, g, now)
        == RecordMarked(RecordsSent(records, t, rs[..k], batchSize, g, now), rs[k].id, o.pushStatus, now,
                        o.errorMessage, o.response)
  {
    assert rs[..k + 1][..k] == rs[..k];
    assert rs[..k + 1][k] == rs[k];
  }

  /**
   * A record ends delivered exactly when its receiver has an active valid token
   * and the reply holds an "ok" ticket; otherwise it ends failed with the reason.
   */
  lemma RecordOutcomeRule(t: Table, r: PushRecord, batchSize: int, g: Gateway)
    requires batchSize != 0
    ensures var o := RecordOutcome(t, r, batchSize, g);
      (o.pushStatus == Delivered || o.pushStatus == FailedStatus)
      && (o.pushStatus == Delivered <==>
           RecordMessages(r, ReceiverTokens(t, r)) != []
           && SuccessCount(Delivery(RecordMessages(r, ReceiverTokens(t, r)), batchSize, g)) > 0)
      && (o.pushStatus == Delivered ==> o.errorMessage.None?)
      && (ReceiverTokens(t, r) == [] ==> o == Outcome(FailedStatus, Some("没有可用的设备Token"), None))
  {
    RecordMessagesShape(r, []);
  }

  /** Marking a record keeps the table's ids, sets that record's status and time, and leaves every other row. */
  lemma MarkedRule(records: map<nat, PushRecord>, id: nat, pushStatus: int, now: int,
                   errorMessage: Option<string>, response: Option<Response>, other: nat)
    ensures var m := RecordMarked(records, id, pushStatus, now, errorMessage, response);
      (other in m <==> other in records)
      && (other != id && other in records ==> m[other] == records[other])
      && (other == id && id in records ==> m[id].pushStatus == Some(pushStatus) && m[id].pushTime == Some(now))
  {
  }

  /** With distinct ids, every record's row ends with its own outcome and every other row is untouched. */
  lemma {:induction false} MarkedAllFinal(records: map<nat, PushRecord>, rs: seq<PushRecord>,
                                          outcome: PushRecord -> Outcome, now: int, id: nat)
    requires forall i, j :: 0 <= i < j < |rs| ==> rs[i].id != rs[j].id
    ensures var after := MarkedAll(records, rs, outcome, now);
      (id in after <==> id in records)
      && (id in records && (forall k :: 0 <= k < |rs| ==> rs[k].id != id) ==> after[id] == records[id])
      && (forall k :: 0 <= k < |rs| && rs[k].id == id && id in records ==>
            after[id].pushStatus == Some(outcome(rs[k]).pushStatus) && after[id].pushTime == Some(now))
  {
    if |rs| > 0 {
      var n := |rs| - 1;
      MarkedAllFinal(records, rs[..n], outcome, now, id);
      var o := outcome(rs[n]);
      MarkedRule(MarkedAll(records, rs[..n], outcome, now), rs[n].id, o.pushStatus, now,
                 o.errorMessage, o.response, id);
      forall k | 0 <= k < n ensures rs[..n][k] == rs[k] { }
    }
  }

  /** After sendPushRecords over distinct records, each record's row has its own outcome and every other row is untouched. */
  lemma RecordsSentFinal(records: map<nat, PushRecord>, t: Table, rs: seq<PushRecord>,
                         batchSize: int, g: Gateway, now: int, id: nat)
    requires batchSize != 0
    requires forall i, j :: 0 <= i < j < |rs| ==> rs[i].id != rs[j].id
    ensures var after := RecordsSent(records, t, rs, batchSize, g, now);
      (id in after <==> id in records)
      && (id in records && (forall k :: 0 <= k < |rs| ==> rs[k].id != id) ==> after[id] == records[id])
      && (forall k :: 0 <= k < |rs| && rs[k].id == id && id in records ==>
            after[id].pushStatus == Some(RecordOutcome(t, rs[k], batchSize, g).pushStatus)
            && after[id].pushTime == Some(now))
  {
    MarkedAllFinal(records, rs, Outcomes(t, batchSize, g), now, id);
  }

  // ---------------------------------------------------------------- tickets

  /** Error details written for a ticket: only error tickets carry them. */
  function TicketErrorCode(t: Ticket): Option<string>
  {
    if IsError(t) && t.details.Some? then t.details.value.error else None
  }

  function TicketErrorMessage(t: Ticket): Option<string>
  {
    if !IsError(t) then None
    else if t.details.Some? && HasText(t.details.value.message) then t.details.value.message
    else t.message
  }

  function TicketStatus(t: Ticket): int
  {
    if IsSuccess(t) then Delivered else FailedStatus
  }

  /** The rows of a notification delivered to one device token. */
  function TicketRecordFilter(notificationId: int, tokenId: nat): PushRecord -> bool
  {
    (r: PushRecord) => r.templateId == Some(notificationId) && r.deviceTokenId == Some(tokenId)
  }

  /**
   * updatePushRecordStatus(notificationId, tokenId, ticket): selectOne finds the
   * row when exactly one matches; none, or several (selectOne throws and the
   * catch swallows it), change nothing.
   */
  function TicketApplied(records: map<nat, PushRecord>, nextId: nat, notificationId: int, tokenId: nat,
                         t: Ticket, now: int): map<nat, PushRecord>
  {
    var ids := IdsBelow(records, nextId, TicketRecordFilter(notificationId, tokenId));
    if |ids| == 1 && ids[0] in records then
      records[ids[0] := WithPushStatus(records[ids[0]], TicketStatus(t), now, Some(LoggedTicket(t)),
                                       TicketErrorCode(t), TicketErrorMessage(t))]
    else records
  }

  method ApplyTicket(ledger: PushLedger, notificationId: int, tokenId: nat, t: Ticket, now: int)
    requires ledger.Valid()
    modifies ledger
    ensures ledger.Valid() && ledger.nextId == old(ledger.nextId)
    ensures ledger.records == TicketApplied(old(ledger.records), old(ledger.nextId), notificationId, tokenId, t, now)
  {
    var ids := ledger.SelectIds(TicketRecordFilter(notificationId, tokenId));
    if |ids| == 1 {
      var _ := ledger.UpdatePushStatus(ids[0], TicketStatus(t), now, Some(LoggedTicket(t)),
                                       TicketErrorCode(t), TicketErrorMessage(t));
    }
  }

  /** The one matching row gets the ticket's status and, for an error ticket, its error. */
  lemma TicketAppliedRule(records: map<nat, PushRecord>, nextId: nat, notificationId: int, tokenId: nat,
                          t: Ticket, now: int, id: nat)
    requires id in records && id < nextId && TicketRecordFilter(notificationId, tokenId)(records[id])
    requires forall other :: other in records && other != id && other < nextId ==>
      !TicketRecordFilter(notificationId, tokenId)(records[other])
    ensures var after := TicketApplied(records, nextId, notificationId, tokenId, t, now);
      after.Keys == records.Keys
      && after[id].pushStatus == Some(if IsSuccess(t) then Delivered else FailedStatus)
      && after[id].pushResponse == Some(LoggedTicket(t))
      && (IsSuccess(t) ==> after[id].errorCode.None? && after[id].errorMessage.None?)
      && (forall other :: other in records && other != id ==> after[other] == records[other])
  {
    var p := TicketRecordFilter(notificationId, tokenId);
    var ids := IdsBelow(records, nextId, p);
    IdsBelowMembers(records, nextId, p, id);
    IdsBelowSorted(records, nextId, p);
    assert ids[0] in ids;
    IdsBelowMembers(records, nextId, p, ids[0]);
    if |ids| > 1 {
      assert ids[1] in ids;
      IdsBelowMembers(records, nextId, p, ids[1]);
    }
  }

  /** handlePushError. */
  function ErrorHandled(t: Table, d: DeviceToken, ticket: Ticket, now: int): Table
  {
    if ticket.details.Some? then
      var details := ticket.details.value;
      if IsDeviceNotRegistered(details) || IsInvalidCredentials(details)
      then Disabled(t, d.deviceToken, "设备Token无效: " + details.error.value)
      else if IsMessageTooBig(details) || IsMessageRateExceeded(details) then t
      else Failed(t, d.deviceToken, now)
    else Failed(t, d.deviceToken, now)
  }

  method HandlePushError(registry: TokenRegistry, d: DeviceToken, ticket: Ticket, now: int)
    requires registry.Valid()
    modifies registry
    ensures registry.Valid()
    ensures registry.Snapshot() == ErrorHandled(old(registry.Snapshot()), d, ticket, now)
  {
    if ticket.details.Some? {
      var details := ticket.details.value;
      if IsDeviceNotRegistered(details) || IsInvalidCredentials(details) {
        var _ := registry.DisableToken(d.deviceToken, "设备Token无效: " + details.error.value);
      } else if IsMessageTooBig(details) || IsMessageRateExceeded(details) {
      } else {
        var _ := registry.RecordPushFailure(d.deviceToken, now);
      }
    } else {
      var _ := registry.RecordPushFailure(d.deviceToken, now);
    }
  }

  /** An error the gateway reports without details, or with none of the four known detail codes. */
  predicate OtherError(ticket: Ticket)
  {
    ticket.details.None?
    || !(IsDeviceNotRegistered(ticket.details.value) || IsInvalidCredentials(ticket.details.value)
         || IsMessageTooBig(ticket.details.value) || IsMessageRateExceeded(ticket.details.value))
  }

  /**
   * A token the gateway reports unregistered or badly credentialed is no longer
   * valid; size and rate errors leave the table as it was; any other error
   * counts one failure, which disables the token once the count reaches the
   * threshold; a success resets the failure count.
   */
  lemma TicketEffectOnToken(t: Table, d: DeviceToken, ticket: Ticket, now: int)
    requires WellFormed(t)
    ensures ticket.details.Some? && (IsDeviceNotRegistered(ticket.details.value) || IsInvalidCredentials(ticket.details.value)) ==>
      !TokenValid(ErrorHandled(t, d, ticket, now), d.deviceToken)
    ensures ticket.details.Some? && (IsMessageTooBig(ticket.details.value) || IsMessageRateExceeded(ticket.details.value)) ==>
      ErrorHandled(t, d, ticket, now) == t
    ensures OtherError(ticket) ==> ErrorHandled(t, d, ticket, now) == Failed(t, d.deviceToken, now)
    ensures OtherError(ticket) && d.deviceToken in t.rows && t.rows[d.deviceToken].failedCount.Some? ==>
      var c := t.rows[d.deviceToken].failedCount.value + 1;
      var after := ErrorHandled(t, d, ticket, now);
      FailureCountOf(after, d.deviceToken) == c
      && (c < FailureThreshold as int ==> after.rows[d.deviceToken].status == t.rows[d.deviceToken].status)
      && (c >= FailureThreshold as int ==> !TokenValid(after, d.deviceToken)
                                           && after.rows[d.deviceToken].inactiveReason == Some(TooManyFailures))
    ensures d.deviceToken in t.rows && IsSuccess(ticket) ==>
              FailureCountOf(TokenAfterTicket(t, d, ticket, now), d.deviceToken) == 0
  {
    if ticket.details.Some? && (IsDeviceNotRegistered(ticket.details.value) || IsInvalidCredentials(ticket.details.value)) {
      AtMostOneDetail(ticket.details.value);
      if d.deviceToken in t.rows {
        DisabledIsInvalid(t, d.deviceToken, "设备Token无效: " + ticket.details.value.error.value);
      }
    }
    if OtherError(ticket) && d.deviceToken in t.rows && t.rows[d.deviceToken].failedCount.Some? {
      FailedRow(t, d.deviceToken, now);
    }
    if IsSuccess(ticket) && d.deviceToken in t.rows {
      SuccessResetsButKeepsStatus(t, d.deviceToken, now);
    }
  }

  /** What processPushResponse does to a token for its ticket. */
  function TokenAfterTicket(t: Table, d: DeviceToken, ticket: Ticket, now: int): Table
  {
    if IsSuccess(ticket) then Succeeded(t, d.deviceToken, now) else ErrorHandled(t, d, ticket, now)
  }

  /** The number of (ticket, token) pairs processPushResponse walks. */
  function PairCount(response: Response, tokens: seq<DeviceToken>): nat
  {
    if response.data.None? then 0 else Min(|response.data.value|, |tokens|)
  }

  function TicketsApplied(records: map<nat, PushRecord>, nextId: nat, notificationId: int,
                          tickets: seq<Ticket>, tokens: seq<DeviceToken>, n: nat, now: int): map<nat, PushRecord>
    requires n <= |tickets| && n <= |tokens|
  {
    if n == 0 then records
    else TicketApplied(TicketsApplied(records, nextId, notificationId, tickets, tokens, n - 1, now),
                       nextId, notificationId, tokens[n - 1].id, tickets[n - 1], now)
  }

  function TokensAfterTickets(t: Table, tickets: seq<Ticket>, tokens: seq<DeviceToken>, n: nat, now: int): Table
    requires n <= |tickets| && n <= |tokens|
  {
    if n == 0 then t
    else TokenAfterTicket(TokensAfterTickets(t, tickets, tokens, n - 1, now), tokens[n - 1], tickets[n - 1], now)
  }

  /**
   * processPushResponse: ticket i is paired with deviceTokens[i] for as long as
   * both lists last; the pairing is positional.
   */
  method ProcessPushResponse(response: Response, tokens: seq<DeviceToken>, notificationId: int,
                             registry: TokenRegistry, ledger: PushLedger, now: int)
    requires registry.Valid() && ledger.Valid()
    modifies registry, ledger
    ensures registry.Valid() && ledger.Valid() && ledger.nextId == old(ledger.nextId)
    ensures ledger.records == TicketsApplied(old(ledger.records), old(ledger.nextId), notificationId,
                                             TicketsOf(Some(response)), tokens, PairCount(response, tokens), now)
    ensures registry.Snapshot() == TokensAfterTickets(old(registry.Snapshot()), TicketsOf(Some(response)), tokens,
                                                      PairCount(response, tokens), now)
  {
    if response.data.None? {
      return;
    }
    var tickets := response.data.value;
    ghost var records0, nextId0, table0 := ledger.records, ledger.nextId, registry.Snapshot();
    var i := 0;
    while i < |tickets| && i < |tokens|
      invariant 0 <= i <= |tickets| && i <= |tokens|
      invariant registry.Valid() && ledger.Valid() && ledger.nextId == nextId0
      invariant ledger.records == TicketsApplied(records0, nextId0, notificationId, tickets, tokens, i, now)
      invariant registry.Snapshot() == TokensAfterTickets(table0, tickets, tokens, i, now)
    {
      ProcessTicket(tickets[i], tokens[i], notificationId, registry, ledger, now);
      assert ledger.records == TicketsApplied(records0, nextId0, notificationId, tickets, tokens, i + 1, now);
      assert registry.Snapshot() == TokensAfterTickets(table0, tickets, tokens, i + 1, now);
      i := i + 1;
    }
  }

  /** One turn of processPushResponse's loop: record the ticket, then book the token's success or error. */
  method ProcessTicket(ticket: Ticket, d: DeviceToken, notificationId: int,
                       registry: TokenRegistry, ledger: PushLedger, now: int)
    requires registry.Valid() && ledger.Valid()
    modifies registry, ledger
    ensures registry.Valid() && ledger.Valid() && ledger.nextId == old(ledger.nextId)
    ensures ledger.records == TicketApplied(old(ledger.records), old(ledger.nextId), notificationId, d.id, ticket, now)
    ensures registry.Snapshot() == TokenAfterTicket(old(registry.Snapshot()), d, ticket, now)
  {
    ApplyTicket(ledger, notificationId, d.id, ticket, now);
    if IsSuccess(ticket) {
      var _ := registry.RecordPushSuccess(d.deviceToken, now);
    } else {
      HandlePushError(registry, d, ticket, now);
    }
  }

  // ---------------------------------------------------------------- immediate notifications

  /** The members of ids that occur in allowed, in order. */
  function KeepIn(ids: seq<int>, allowed: seq<int>): (r: seq<int>)
    ensures |r| <= |ids|
    ensures forall u :: u in r <==> u in ids && u in allowed
  {
    if |ids| == 0 then []
    else
      assert ids == [ids[0]] + ids[1..];
      (if ids[0] in allowed then [ids[0]] else []) + KeepIn(ids[1..], allowed)
  }

  /** getTargetReceiverIds: the active members of the family, narrowed to receiverIds when given. */
  function TargetReceiverIds(relations: seq<Relation>, familyId: int, receiverIds: Option<seq<int>>): seq<int>
  {
    var members := FamilyRelations.MemberIds(relations, familyId);
    if receiverIds.Some? && |receiverIds.value| > 0 then KeepIn(members, receiverIds.value) else members
  }

  /** A target is an active member of the family, and one of the requested receivers when some were named. */
  lemma TargetsAreMembers(relations: seq<Relation>, familyId: int, receiverIds: Option<seq<int>>, u: int)
    ensures u in TargetReceiverIds(relations, familyId, receiverIds) <==>
      (exists x :: x in relations && x.familyId == familyId && x.userId == u && x.status == 1)
      && (receiverIds.Some? && |receiverIds.value| > 0 ==> u in receiverIds.value)
  {
    FamilyRelations.MemberIdsIff(relations, familyId, u);
  }

  function NotificationData(n: Template): map<string, DataValue>
  {
    var base := map["notificationId" := Number(Some(n.id)), "familyId" := Number(Some(n.familyId)),
                     "creatorId" := Number(Some(n.creatorId)), "type" := Word(Some("family_notification")),
                     "priority" := Number(Some(2)), "isOneClick" := Toggle(Some(true))];
    if HasText(n.svgIcon) then base["svgIcon" := Word(n.svgIcon)] else base
  }

  function NotificationMessage(n: Template, d: DeviceToken): Message
  {
    Message(Some(d.deviceToken), n.title, n.content, NotificationData(n), Some("default"),
            Some(TemplatePriority(n)), Some(TemplateChannel(n)))
  }

  function NotificationMessages(n: Template, tokens: seq<DeviceToken>): (ms: seq<Message>)
    ensures |ms| == |tokens|
  {
    seq(|tokens|, k requires 0 <= k < |tokens| => NotificationMessage(n, tokens[k]))
  }

  /** buildPushMessages: one message per token, valid or not. */
  method BuildPushMessages(n: Template, tokens: seq<DeviceToken>) returns (messages: seq<Message>)
    ensures messages == NotificationMessages(n, tokens)
    ensures forall k :: 0 <= k < |tokens| ==> messages[k].to == Some(tokens[k].deviceToken)
  {
    messages := [];
    var i := 0;
    while i < |tokens|
      invariant 0 <= i <= |tokens| && |messages| == i
      invariant forall k :: 0 <= k < i ==> messages[k] == NotificationMessage(n, tokens[k])
    {
      messages := messages + [NotificationMessage(n, tokens[i])];
      i := i + 1;
    }
  }

  /** The row createPushRecords builds for one token: pending, retry count 0, medium priority. */
  function PendingRecord(n: Template, d: DeviceToken): PushRecord
  {
    Blank.(templateId := Some(n.id), title := n.title, content := n.content, svgIcon := n.svgIcon,
           senderId := Some(n.creatorId), receiverId := Some(d.userId), familyId := Some(n.familyId),
           kind := n.kind, priority := Some(2), isOneClick := Some(true), deviceTokenId := Some(d.id),
           deviceToken := Some(d.deviceToken), platform := d.platform, pushStatus := Some(Pending),
           retryCount := Some(0))
  }

  /** createPushRecords: one row per token, in token order. */
  method CreatePushRecords(n: Template, tokens: seq<DeviceToken>) returns (records: seq<PushRecord>)
    ensures |records| == |tokens|
    ensures forall k :: 0 <= k < |tokens| ==> records[k] == PendingRecord(n, tokens[k])
  {
    records := [];
    var i := 0;
    while i < |tokens|
      invariant 0 <= i <= |tokens| && |records| == i
      invariant forall k :: 0 <= k < i ==> records[k] == PendingRecord(n, tokens[k])
    {
      records := records + [PendingRecord(n, tokens[i])];
      i := i + 1;
    }
  }

  /** Each row created for a token is a pending first attempt addressed to that token's owner, matched by TicketRecordFilter. */
  lemma PendingRecordRule(n: Template, d: DeviceToken)
    ensures PendingRecord(n, d).pushStatus == Some(Pending) && PendingRecord(n, d).retryCount == Some(0)
    ensures PendingRecord(n, d).receiverId == Some(d.userId)
    ensures !RetryEligible(PendingRecord(n, d), 3)
    ensures TicketRecordFilter(n.id, d.id)(PendingRecord(n, d))
  {
  }

  function PendingRecords(n: Template, tokens: seq<DeviceToken>): seq<PushRecord>
  {
    seq(|tokens|, k requires 0 <= k < |tokens| => PendingRecord(n, tokens[k]))
  }

  /**
   * sendImmediateNotification: no targets or no active token means false and no
   * change; otherwise one pending row per active token is inserted, the messages
   * are sent, the reply is processed against the active tokens, and the result
   * is whether some ticket was "ok".
   */
  method SendImmediateNotification(n: Template, receiverIds: Option<seq<int>>, store: FamilyStore,
                                   registry: TokenRegistry, ledger: PushLedger, batchSize: int,
                                   gateway: Gateway, now: int) returns (sent: bool)
    requires registry.Valid() && ledger.Valid() && batchSize != 0
    modifies registry, ledger
    ensures registry.Valid() && ledger.Valid()
    ensures var targets := TargetReceiverIds(store.relations, n.familyId, receiverIds);
      var tokens := if targets == [] then [] else ActiveOf(old(registry.Snapshot()), targets);
      if tokens == [] then
        !sent && ledger.records == old(ledger.records) && registry.Snapshot() == old(registry.Snapshot())
      else
        var response := Delivery(NotificationMessages(n, tokens), batchSize, gateway);
        var inserted := Appended(old(ledger.records), old(ledger.nextId), PendingRecords(n, tokens));
        sent == (SuccessCount(response) > 0)
        && ledger.nextId == old(ledger.nextId) + |tokens|
        && ledger.records == TicketsApplied(inserted, ledger.nextId, n.id, TicketsOf(Some(response)), tokens,
                                            PairCount(response, tokens), now)
        && registry.Snapshot() == TokensAfterTickets(old(registry.Snapshot()), TicketsOf(Some(response)), tokens,
                                                     PairCount(response, tokens), now)
  {
    var targets := TargetReceiverIds(store.relations, n.familyId, receiverIds);
    if targets == [] {
      return false;
    }
    var tokens := registry.GetActiveTokensByUserIds(Some(targets));
    if tokens == [] {
      return false;
    }
    var messages := BuildPushMessages(n, tokens);
    var records := CreatePushRecords(n, tokens);
    assert records == PendingRecords(n, tokens);
    var _ := ledger.SaveBatch(records);
    var response, _ := SendMessages(messages, batchSize, gateway);
    ProcessPushResponse(response, tokens, n.id, registry, ledger, now);
    sent := SuccessCount(response) > 0;
  }

  /**
   * sendScheduledNotification: an immediate notification to every active
   * member of the family, with the same outcome as sendImmediateNotification
   * given no receiver list.
   */
  method SendScheduledNotification(n: Template, store: FamilyStore, registry: TokenRegistry, ledger: PushLedger,
                                   batchSize: int, gateway: Gateway, now: int) returns (sent: bool)
    requires registry.Valid() && ledger.Valid() && batchSize != 0
    modifies registry, ledger
    ensures registry.Valid() && ledger.Valid()
    ensures FamilyRelations.MemberIds(store.relations, n.familyId) == [] ==>
      !sent && ledger.records == old(ledger.records) && registry.Snapshot() == old(registry.Snapshot())
    ensures var members := FamilyRelations.MemberIds(store.relations, n.familyId);
      var tokens := if members == [] then [] else ActiveOf(old(registry.Snapshot()), members);
      if tokens == [] then
        !sent && ledger.records == old(ledger.records) && registry.Snapshot() == old(registry.Snapshot())
      else
        var response := Delivery(NotificationMessages(n, tokens), batchSize, gateway);
        var inserted := Appended(old(ledger.records), old(ledger.nextId), PendingRecords(n, tokens));
        sent == (SuccessCount(response) > 0)
        && ledger.nextId == old(ledger.nextId) + |tokens|
        && ledger.records == TicketsApplied(inserted, ledger.nextId, n.id, TicketsOf(Some(response)), tokens,
                                            PairCount(response, tokens), now)
        && registry.Snapshot() == TokensAfterTickets(old(registry.Snapshot()), TicketsOf(Some(response)), tokens,
                                                     PairCount(response, tokens), now)
  {
    sent := SendImmediateNotification(n, None, store, registry, ledger, batchSize, gateway, now);
  }

  /**
   * When every active token is valid, the reply's tickets line up with the
   * tokens: the ticket processed for token k answers the message sent to it.
   */
  lemma PairingExactWhenAllTokensValid(n: Template, tokens: seq<DeviceToken>, batchSize: int,
                                       g: Gateway, f: Message -> Ticket, k: nat)
    requires AnswersEach(g, f) && batchSize > 0 && k < |tokens|
    requires forall j :: 0 <= j < |tokens| ==> IsValidExpoPushToken(Some(tokens[j].deviceToken))
    ensures var response := Delivery(NotificationMessages(n, tokens), batchSize, g);
      PairCount(response, tokens) == |tokens|
      && TicketsOf(Some(response))[k] == f(NotificationMessage(n, tokens[k]))
  {
    var ms := NotificationMessages(n, tokens);
    forall m | m in ms ensures IsValidExpoPushToken(m.to) {
      var j :| 0 <= j < |ms| && ms[j] == m;
    }
    ValidMessagesAllValid(ms);
    DeliveryAnswersEachValidMessage(ms, batchSize, g, f);
  }

  /**
   * The pairing is positional over the unfiltered token list, while only
   * messages to valid tokens are sent: with an invalid token first, the ticket
   * answering the second token's message is applied to the first token, and
   * the second token gets none.
   */
  lemma PairingShiftsPastInvalidToken(n: Template, bad: DeviceToken, good: DeviceToken, batchSize: int,
                                      g: Gateway, f: Message -> Ticket)
    requires AnswersEach(g, f) && batchSize > 0
    requires !IsValidExpoPushToken(Some(bad.deviceToken)) && IsValidExpoPushToken(Some(good.deviceToken))
    ensures var response := Delivery(NotificationMessages(n, [bad, good]), batchSize, g);
      PairCount(response, [bad, good]) == 1
      && TicketsOf(Some(response))[0] == f(NotificationMessage(n, good))
  {
    var ms := NotificationMessages(n, [bad, good]);
    assert ms == [NotificationMessage(n, bad), NotificationMessage(n, good)];
    assert ValidMessages(ms[1..]) == [NotificationMessage(n, good)];
    assert ValidMessages(ms) == [NotificationMessage(n, good)];
    DeliveryAnswersEachValidMessage(ms, batchSize, g, f);
  }
}
