# Family growth app: push engine and rule logic in Dafny

This project models the core of a family pregnancy-companion app. The app has a Spring Boot backend and a React Native frontend. The model covers:

- **The backend push-notification engine.**
  - Expo push-token format checks and batching. The Expo gateway is a function from a batch of messages to a response.
  - How tickets and detail codes are read.
  - How each ticket is paired back onto its push record and device token.
  - The device-token health state machine: the failure counter and its threshold of 6.
  - The push-record ledger: creating records, read marking and bounded retries.
- **The backend's rule logic around it.**
  - Family, membership and role permissions.
  - Recipient resolution for notification templates.
  - The family-task state machine.
  - Profile validation.
  - The pregnancy-progress lookup.
  - Page-size normalisation and result-code lookup.
  - The session user-id parser.
  - Client-IP header fallback.
  - The login guard order.
- **The frontend's pure and stateful pieces.**
  - Network diagnostics: retry, ping summary, quality, suggestions and the result cache.
  - The local notification-template store and its usage ranking.
  - The profile date helpers.
  - The task label maps.
  - The hour-band theme provider.
  - The text utilities.

## How the model is laid out

**Tables.** Database tables are Dafny classes over `seq` or `map` fields, kept in table order:

- `TokenRegistry`: device tokens by token string, plus their insertion order.
- `PushLedger`: push records by id.
- `FamilyStore`: families, roles and relations.
- `TemplateTable`: notification templates.
- `TaskTable`: family tasks.
- `ProfileTable`: user profiles.
- `UserTable`: users.

**Service operations.**
- Each service operation that writes rows is a method with a `modifies` clause. Its `ensures` ties the new table to a pure function of the old one. Lemmas state the rules about that function.
- Loops in the source stay loops with invariants: batching, record creation, the retry loop, the ping loop, and the nested search for a related pregnancy.
- Pure helpers are functions with named results.

**Inputs supplied from outside.** These become parameters:

- Clocks become day numbers or milliseconds.
- Random draws.
- The Expo gateway.
- BCrypt's password check.
- Sa-Token's session values.
- `fetch` outcomes.
- The hour of the day.
- A jitter function.

**Errors.** Service errors are `Result` values. Each carries a `Fault` with the source's result code and its exact message.

**Modules, by source file.** Cited as paths under the repository root:

- `PushResponse`: backend/.../entity/dto/ExpoPushResponse.java.
- `DeviceTokens`: UserDeviceTokenServiceImpl.java and its mapper contract.
- `ExpoPush`: ExpoPushServiceImpl.java.
- `PushRecords`: the NotificationPushRecordMapper contract.
- `PushRecordService`: NotificationPushRecordServiceImpl.java.
- `FamilyTables`: shared rows and lookups.
- `FamilyRelations`: FamilyRelationServiceImpl.java.
- `Families`: FamilyServiceImpl.java.
- `FamilyNotifications`: FamilyNotificationServiceImpl.java.
- `FamilyTasks`: FamilyTaskServiceImpl.java.
- `UserProfiles`: UserProfileServiceImpl.java.
- `PregnancyProgress`: PregnancyProgressServiceImpl.java and PregnancyProgressResponse.java.
- `PageRequests`: BaseController.java.
- `ResultCodes`: ResultCode.java.
- `SessionIds`: FamilyMemberController.extractUserIdFromSession.
- `Auth`: AuthController.java.
- `NetworkDiagnostics`: networkDiagnostics.ts.
- `NotificationTemplates`: the template side of notificationService.ts.
- `ProfileDates`: userProfileService.ts.
- `TaskLabels`: familyTaskService.ts.
- `Themes`: ThemeContext.tsx and Colors.ts.
- `TextUtils`: utils/index.ts.
- `Wrappers` and `Strings`: shared helpers.

## Where the code and its documentation differ

The model follows the code in every case below.

- **Ticket pairing.** `processPushResponse` pairs ticket *i* with the *i*-th token of the unfiltered token list. `sendMessages` has already dropped format-invalid tokens, so one invalid token shifts every later pairing by one. See `ExpoPush.PairingShiftsPastInvalidToken`.
- **Empty receiver list.** A template's empty receiver list is documented as "all members". `getFamilyMembersByUserIds` returns `[]` for it, so such a template is always rejected with 没有找到有效的接收者. See `FamilyNotifications.EmptyReceiverListNeverSends`.
- **Retry loop.** `testServerConnectionWithRetry` only retries when `testServerConnection` throws. That function catches everything, so the loop always stops after the first attempt. See `NetworkDiagnostics.RetryStopsAtFirstAttempt`.
- **Connection quality.** `evaluateConnectionQuality` checks packet loss first. The three-ping test can only report 0, 33, 67 or 100 % loss, so in practice one lost ping rates the connection `poor` whatever its latency, even 20 ms. For a loss value the test cannot produce, the ordering shows more plainly: 6 % loss at 600 ms rates `fair`, while no loss at 600 ms rates `poor`. See `NetworkDiagnostics.ModerateLossOutranksSlowLossFree` and `NetworkDiagnostics.PingFallback`.
- **Date consistency.** A pregnancy profile whose LMP + 280 days misses the expected delivery date by more than 7 days is only logged, never rejected. See `UserProfiles.InconsistentDatesAccepted`.
- **Batch size zero.** `sendMessages` advances its batch loop with `i += batchSize`, so a configured batch size of 0 posts an empty batch forever and the call never returns. The model's senders require a non-zero batch size for that reason.
- **Custom template ids.** Two custom templates saved in the same millisecond get the same id, and deleting one then deletes both. See `NotificationTemplates.SavedIdsRule`.

## Model

| member | source | states |
|---|---|---|
| PushResponse.TicketStatusClasses | backend/src/main/java/com/growth/entity/dto/ExpoPushResponse.java:74-83 | a ticket is a success exactly when its status is "ok" and an error exactly when it is "error"; no ticket is both, and a missing or other status is neither |
| PushResponse.AtMostOneDetail | backend/src/main/java/com/growth/entity/dto/ExpoPushResponse.java:111-134 | the four detail codes are distinct literals, so at most one of DeviceNotRegistered, InvalidCredentials, MessageTooBig and MessageRateExceeded holds |
| PushResponse.Count | backend/src/main/java/com/growth/entity/dto/ExpoPushResponse.java:170-185 | a stream-filter count never exceeds the number of tickets |
| PushResponse.CountIsPositions | backend/src/main/java/com/growth/entity/dto/ExpoPushResponse.java:170-185 | a filter count equals the number of positions whose ticket satisfies the predicate (an independent reference definition) |
| PushResponse.CountZeroIff | backend/src/main/java/com/growth/entity/dto/ExpoPushResponse.java:170-185 | a count is zero exactly when no ticket satisfies the predicate |
| PushResponse.CountsBounded | backend/src/main/java/com/growth/entity/dto/ExpoPushResponse.java:170-192 | with no data all three counts are 0, and success plus failure never exceed the total |
| PushResponse.DisjointCounts | backend/src/main/java/com/growth/entity/dto/ExpoPushResponse.java:170-185 | success and error tickets are disjoint, so their counts add up to at most the ticket count |
| PushResponse.AllSuccessIff | backend/src/main/java/com/growth/entity/dto/ExpoPushResponse.java:163-199 | isAllSuccess holds exactly when there are no request-level errors, the data is non-empty and no ticket is an error ticket (unknown statuses do not prevent it) |
| PushResponse.PartialExcludesAll | backend/src/main/java/com/growth/entity/dto/ExpoPushResponse.java:197-206 | a partial success is never an all-success |
| DeviceTokens.RegisterLeavesValidToken | backend/src/main/java/com/growth/service/impl/UserDeviceTokenServiceImpl.java:31-88 | registering refreshes an existing row in place (same id and order) or appends a new one; either way the token is valid with failure count 0, owned by the caller, without an inactive reason, and every other row is unchanged |
| DeviceTokens.UpdatesAreLocal | backend/src/main/java/com/growth/service/impl/UserDeviceTokenServiceImpl.java:105-161 | success, failure and disabling change only the named token's row and keep the row order and the set of tokens |
| DeviceTokens.UnknownTokenIsBenign | backend/src/main/java/com/growth/service/impl/UserDeviceTokenServiceImpl.java:105-161 | for an unknown token, success, failure and disable change nothing, its failure count is 0 and it is not valid |
| DeviceTokens.SuccessResetsButKeepsStatus | backend/src/main/java/com/growth/service/impl/UserDeviceTokenServiceImpl.java:105-117 | a success resets the failure count to 0 but keeps the status and inactive reason, so it never re-enables a disabled token |
| DeviceTokens.DisabledIsInvalid | backend/src/main/java/com/growth/service/impl/UserDeviceTokenServiceImpl.java:149-161 | a disabled token is no longer valid and carries the given reason |
| DeviceTokens.FailuresReachThreshold | backend/src/main/java/com/growth/service/impl/UserDeviceTokenServiceImpl.java:121-145 | from a fresh row, n consecutive failures leave the count at n; the token stays enabled below 6 and is disabled with 推送失败次数过多 from 6 on |
| DeviceTokens.SixthFailureInvalidates | backend/src/main/java/com/growth/service/impl/UserDeviceTokenServiceImpl.java:121-145 | a fresh token is still valid after five failures and invalid after the sixth |
| DeviceTokens.PushEnabledKept | backend/src/main/java/com/growth/service/impl/UserDeviceTokenServiceImpl.java:121-145 | failures never change the pushEnabled flag |
| DeviceTokens.ActiveInMembers | backend/src/main/java/com/growth/service/impl/UserDeviceTokenServiceImpl.java:91-101 | the active-token query returns exactly the active rows (status 1, push enabled) of the given users, in table order |
| DeviceTokens.ActiveInNoUsers | backend/src/main/java/com/growth/service/impl/UserDeviceTokenServiceImpl.java:96-101 | with no user ids the active-token query is empty |
| DeviceTokens.TokenRegistry.RegisterOrUpdateToken | backend/src/main/java/com/growth/service/impl/UserDeviceTokenServiceImpl.java:31-88 | registration returns true and applies the register rule to the table, leaving a valid token |
| DeviceTokens.TokenRegistry.GetActiveTokensByUserIds | backend/src/main/java/com/growth/service/impl/UserDeviceTokenServiceImpl.java:96-101 | null or empty input gives [] without a query; otherwise the active tokens of exactly those users |
| DeviceTokens.TokenRegistry.GetActiveTokensByUserId | backend/src/main/java/com/growth/service/impl/UserDeviceTokenServiceImpl.java:91-93 | the active tokens of one user |
| DeviceTokens.TokenRegistry.SelectActive | backend/src/main/java/com/growth/dao/UserDeviceTokenMapper.java:26-34 | the mapper's active-token selection, as a loop over the table |
| DeviceTokens.TokenRegistry.RecordPushSuccess | backend/src/main/java/com/growth/service/impl/UserDeviceTokenServiceImpl.java:105-117 | returns whether a row changed and resets that row's count |
| DeviceTokens.TokenRegistry.ResetFailureCount | backend/src/main/java/com/growth/service/impl/UserDeviceTokenServiceImpl.java:231-233 | the same update and result as recordPushSuccess |
| DeviceTokens.TokenRegistry.RecordPushFailure | backend/src/main/java/com/growth/service/impl/UserDeviceTokenServiceImpl.java:121-145 | returns whether a row changed; counts the failure and disables the token once the count reaches 6 |
| DeviceTokens.TokenRegistry.DisableToken | backend/src/main/java/com/growth/service/impl/UserDeviceTokenServiceImpl.java:149-161 | returns whether a row changed and sets status 0 with the reason |
| DeviceTokens.TokenRegistry.UpdateFailureCount | backend/src/main/java/com/growth/dao/UserDeviceTokenMapper.java:36-46 | increment adds 1 to the count, otherwise it is reset to 0, and the success or failure time is stamped |
| DeviceTokens.TokenRegistry.GetFailureCount | backend/src/main/java/com/growth/service/impl/UserDeviceTokenServiceImpl.java:236-248 | 0 for a missing row or a null count, else the stored count |
| DeviceTokens.TokenRegistry.IsTokenValid | backend/src/main/java/com/growth/service/impl/UserDeviceTokenServiceImpl.java:251-266 | valid exactly when the row exists with status 1, push enabled and a failure count below 6 |
| ExpoPush.WrappedTokenIsValid | backend/src/main/java/com/growth/service/impl/ExpoPushServiceImpl.java:525-530 | every text wrapped in ExponentPushToken[ and ] is a valid token |
| ExpoPush.ValidTokenUnwraps | backend/src/main/java/com/growth/service/impl/ExpoPushServiceImpl.java:525-530 | every valid token is the prefix, some inner text and the suffix |
| ExpoPush.MaskToken | backend/src/main/java/com/growth/service/impl/ExpoPushServiceImpl.java:649-657 | a blank token logs as "null", one of at most 20 characters as "***", a longer one as 27 characters |
| ExpoPush.MaskHidesMiddle | backend/src/main/java/com/growth/service/impl/ExpoPushServiceImpl.java:649-657 | two long tokens with the same first 20 and last 4 characters mask the same |
| ExpoPush.ValidMessages | backend/src/main/java/com/growth/service/impl/ExpoPushServiceImpl.java:72-79 | the messages kept are exactly the input messages with a valid token |
| ExpoPush.ValidMessagesAllValid | backend/src/main/java/com/growth/service/impl/ExpoPushServiceImpl.java:72-79 | filtering messages whose tokens are all valid changes nothing |
| ExpoPush.BatchesPartition | backend/src/main/java/com/growth/service/impl/ExpoPushServiceImpl.java:85-88 | the batches are the consecutive slices of batchSize, in order; each is non-empty and at most batchSize long, and together they are the input |
| ExpoPush.SendMessages | backend/src/main/java/com/growth/service/impl/ExpoPushServiceImpl.java:64-113 | the result is the reference delivery of the valid messages batch by batch, and the batches sent are exactly the reference batches |
| ExpoPush.PostBatches | backend/src/main/java/com/growth/service/impl/ExpoPushServiceImpl.java:85-98 | the batches posted are exactly the reference batches of batchSize, and the tickets and errors gathered are those of each batch's reply, concatenated in batch order |
| ExpoPush.SendMessage | backend/src/main/java/com/growth/service/impl/ExpoPushServiceImpl.java:59-61 | a single valid message goes out as one batch and its tickets and errors are returned; an invalid one gives the empty response |
| ExpoPush.DeliverySendsEachValidMessageOnce | backend/src/main/java/com/growth/service/impl/ExpoPushServiceImpl.java:64-113 | the batches sent are, concatenated, exactly the valid messages, each at most batchSize long; a non-positive batch size sends nothing |
| ExpoPush.Answers | backend/src/main/java/com/growth/service/impl/ExpoPushServiceImpl.java:90-97 | answering a batch message by message gives one ticket per message in the same order |
| ExpoPush.CollectAnswers | backend/src/main/java/com/growth/service/impl/ExpoPushServiceImpl.java:85-101 | over a gateway that answers each message, the collected tickets are one per message in order and no error is collected |
| ExpoPush.DeliveryAnswersEachValidMessage | backend/src/main/java/com/growth/service/impl/ExpoPushServiceImpl.java:64-113 | over such a gateway, a delivery returns one ticket per valid message, in order, and errors is null |
| ExpoPush.PushAttributeMaps | backend/src/main/java/com/growth/service/impl/ExpoPushServiceImpl.java:265-290 | priority 3 maps to "high" and everything else to "normal"; channel 1 maps to "system", 3 to "urgent", else "default"; template type 3 maps to "emergency"; template priority is "normal" |
| ExpoPush.RecordMessages | backend/src/main/java/com/growth/service/impl/ExpoPushServiceImpl.java:180-220 | at most one message per token, and every message has a valid token |
| ExpoPush.BuildPushMessagesFromRecord | backend/src/main/java/com/growth/service/impl/ExpoPushServiceImpl.java:180-220 | the loop builds exactly the reference message list and leaves the record holding the last token's fields |
| ExpoPush.RecordMessagesShape | backend/src/main/java/com/growth/service/impl/ExpoPushServiceImpl.java:180-220 | the record messages survive the validity filter unchanged, and there are none exactly when no token is valid |
| ExpoPush.MarkRecord | backend/src/main/java/com/growth/service/impl/ExpoPushServiceImpl.java:225-260 | the record's row gets the push status, push time, error message and error code, and nothing else in the ledger changes |
| ExpoPush.SendOneRecord | backend/src/main/java/com/growth/service/impl/ExpoPushServiceImpl.java:117-175 | one record is sent to its receiver's tokens and marked with the reference outcome; it reports whether it was delivered |
| ExpoPush.SendPushRecords | backend/src/main/java/com/growth/service/impl/ExpoPushServiceImpl.java:117-175 | the ledger ends as the reference sending of all records, and the result is true exactly when some record was delivered |
| ExpoPush.RecordOutcomeRule | backend/src/main/java/com/growth/service/impl/ExpoPushServiceImpl.java:117-175 | each record ends as delivered or failed; delivered exactly when it had valid messages and the send's successCount was positive; a receiver without tokens fails with 没有可用的设备Token |
| ExpoPush.RecordsSentFinal | backend/src/main/java/com/growth/service/impl/ExpoPushServiceImpl.java:117-175 | after sending distinct records, each record's row has its own outcome and the send time, and rows not sent are unchanged |
| ExpoPush.ApplyTicket | backend/src/main/java/com/growth/service/impl/ExpoPushServiceImpl.java:475-522 | the per-ticket record update is the reference update of the ledger |
| ExpoPush.TicketAppliedRule | backend/src/main/java/com/growth/service/impl/ExpoPushServiceImpl.java:475-522 | when exactly one row matches the template and token, it gets status 1 for an "ok" ticket and 2 otherwise, the ticket log as its response and no error for a success; every other row is unchanged |
| ExpoPush.HandlePushError | backend/src/main/java/com/growth/service/impl/ExpoPushServiceImpl.java:447-470 | the token table becomes the reference error handling for the ticket |
| ExpoPush.TicketEffectOnToken | backend/src/main/java/com/growth/service/impl/ExpoPushServiceImpl.java:420-470 | DeviceNotRegistered and InvalidCredentials invalidate the token; MessageTooBig and MessageRateExceeded leave the table unchanged; any other code or no details counts one failure (the count rises by 1 and the token is disabled with 推送失败次数过多 once it reaches 6); a success resets the token's failure count |
| ExpoPush.ProcessPushResponse | backend/src/main/java/com/growth/service/impl/ExpoPushServiceImpl.java:420-442 | ticket i is applied to the record and token of the unfiltered token list's position i, for i below the smaller length |
| ExpoPush.ProcessTicket | backend/src/main/java/com/growth/service/impl/ExpoPushServiceImpl.java:429-440 | one (ticket, token) pair updates the push record of that notification and token, then books a success or hands the error to the error handler, leaving the ledger's id counter alone |
| ExpoPush.KeepIn | backend/src/main/java/com/growth/service/impl/ExpoPushServiceImpl.java:600-613 | the ids kept are exactly those in both lists |
| ExpoPush.TargetsAreMembers | backend/src/main/java/com/growth/service/impl/ExpoPushServiceImpl.java:600-613 | a target receiver is exactly an active member of the family, restricted to the explicit list when it is non-empty |
| ExpoPush.NotificationMessages | backend/src/main/java/com/growth/service/impl/ExpoPushServiceImpl.java:397-417 | one message per token |
| ExpoPush.BuildPushMessages | backend/src/main/java/com/growth/service/impl/ExpoPushServiceImpl.java:397-417 | the loop builds the reference messages, message k addressed to token k |
| ExpoPush.CreatePushRecords | backend/src/main/java/com/growth/service/impl/ExpoPushServiceImpl.java:618-644 | one pending record per token, in token order |
| ExpoPush.PendingRecordRule | backend/src/main/java/com/growth/service/impl/ExpoPushServiceImpl.java:618-644 | a created record is pending with retry count 0, is addressed to the token's user, is not yet eligible for retry and matches the per-ticket update's filter |
| ExpoPush.SendImmediateNotification | backend/src/main/java/com/growth/service/impl/ExpoPushServiceImpl.java:324-388 | with no targets or no tokens nothing is written and the result is false; otherwise one pending record per token is inserted, the tickets are applied by position and the result is successCount > 0 |
| ExpoPush.SendScheduledNotification | backend/src/main/java/com/growth/service/impl/ExpoPushServiceImpl.java:392-394 | the outcome of sendImmediateNotification with no receiver list: a family without active members or without active tokens sends nothing and writes nothing; otherwise one pending row per active token of the members is inserted, the messages are sent and the reply processed, and the result is whether some ticket was "ok" |
| ExpoPush.PairingExactWhenAllTokensValid | backend/src/main/java/com/growth/service/impl/ExpoPushServiceImpl.java:397-442 | when every token is valid, ticket k answers token k's message and every token is paired |
| ExpoPush.PairingShiftsPastInvalidToken | backend/src/main/java/com/growth/service/impl/ExpoPushServiceImpl.java:420-442 | with an invalid token first, only one ticket comes back and it belongs to the second token, yet it is paired with the first |
| PushRecords.PushLedger.Insert | backend/src/main/java/com/growth/service/impl/NotificationPushRecordServiceImpl.java:90-93 | an insert takes the next id, stores the row under it and changes no other row |
| PushRecords.PushLedger.SaveBatch | backend/src/main/java/com/growth/service/impl/NotificationPushRecordServiceImpl.java:90-93 | a batch save gives the rows consecutive fresh ids in list order and keeps every earlier row |
| PushRecords.PushLedger.UpdatePushStatus | backend/src/main/java/com/growth/dao/NotificationPushRecordMapper.java:79-95 | returns whether the row exists and sets its push status, push time, response, error code and message |
| PushRecords.PushLedger.MarkAsRead | backend/src/main/java/com/growth/dao/NotificationPushRecordMapper.java:70-77 | returns whether the row exists and sets isRead with the read time |
| PushRecords.PushLedger.IncrementRetryCount | backend/src/main/java/com/growth/dao/NotificationPushRecordMapper.java:115-121 | returns whether the row exists and adds 1 to its retry count (a null count stays null) |
| PushRecords.PushLedger.SelectFailedPushRecords | backend/src/main/java/com/growth/dao/NotificationPushRecordMapper.java:107-113 | returns, in id order, exactly the rows eligible for a retry under maxRetryCount |
| PushRecords.PushLedger.SelectIds | backend/src/main/java/com/growth/dao/NotificationPushRecordMapper.java:107-113 | the selection loop returns the ids of the matching rows in increasing order |
| PushRecords.IdsBelowMembers | backend/src/main/java/com/growth/dao/NotificationPushRecordMapper.java:107-113 | an id is selected exactly when its row exists and matches |
| PushRecords.RowsBelowIdsSorted | backend/src/main/java/com/growth/dao/NotificationPushRecordMapper.java:107-113 | the selected rows come in strictly increasing id order |
| PushRecords.Incremented | backend/src/main/java/com/growth/dao/NotificationPushRecordMapper.java:115-121 | a present count goes up by one and a null count stays null |
| PushRecordService.ReceiverRecords | backend/src/main/java/com/growth/service/impl/NotificationPushRecordServiceImpl.java:44-86 | a receiver gets one record per active token |
| PushRecordService.BuiltRecordsCount | backend/src/main/java/com/growth/service/impl/NotificationPushRecordServiceImpl.java:45-88 | the number of records created is the sum over receivers of their active-token counts |
| PushRecordService.BuiltRecordsShape | backend/src/main/java/com/growth/service/impl/NotificationPushRecordServiceImpl.java:58-84 | every created record is pending, unread, with retry count 0, status 0, priority 2 and one-click set, and carries the template, family, sender, one of the receivers and one of that receiver's active tokens |
| PushRecordService.CreatePushRecords | backend/src/main/java/com/growth/service/impl/NotificationPushRecordServiceImpl.java:42-96 | the records are built by the nested loops and batch-saved under fresh ids, nothing else changes |
| PushRecordService.ExecutePush | backend/src/main/java/com/growth/service/impl/NotificationPushRecordServiceImpl.java:100-126 | an empty list succeeds without pushing; otherwise the ledger is the push run's result, and a push that throws marks every record failed |
| PushRecordService.PushErroredMarksAll | backend/src/main/java/com/growth/service/impl/NotificationPushRecordServiceImpl.java:116-125 | when the push throws, every listed record gets status 2, code PUSH_ERROR and the exception message, and other rows are unchanged |
| PushRecordService.MarkAsRead | backend/src/main/java/com/growth/service/impl/NotificationPushRecordServiceImpl.java:130-150 | the result and the new ledger are the reference read rule |
| PushRecordService.MarkAsReadRule | backend/src/main/java/com/growth/service/impl/NotificationPushRecordServiceImpl.java:130-150 | success implies the caller is the receiver; only that row may change, it becomes read, and reading it again changes nothing and gives the same result |
| PushRecordService.ReadCount | backend/src/main/java/com/growth/service/impl/NotificationPushRecordServiceImpl.java:154-169 | the success count is at most the number of ids |
| PushRecordService.BatchMarkAsRead | backend/src/main/java/com/growth/service/impl/NotificationPushRecordServiceImpl.java:154-169 | the loop returns the reference success count, at most the number of ids, and the ledger is the reference batch read |
| PushRecordService.BatchReadMarksOwnRows | backend/src/main/java/com/growth/service/impl/NotificationPushRecordServiceImpl.java:154-169 | a batch read marks the caller's listed rows read, never changes another user's rows, and never makes a read row unread |
| PushRecordService.RetryFailedPushes | backend/src/main/java/com/growth/service/impl/NotificationPushRecordServiceImpl.java:233-249 | the eligible rows get their retry count raised and are then re-executed; the result is the re-execution's |
| PushRecordService.RetriesCountedOnce | backend/src/main/java/com/growth/service/impl/NotificationPushRecordServiceImpl.java:242-245 | each selected row's retry count goes up exactly once and unselected rows are unchanged |
| PushRecordService.RetrySelectsEachRowOnce | backend/src/main/java/com/growth/dao/NotificationPushRecordMapper.java:107-121 | every eligible row is selected and its retry count rises by exactly one |
| PushRecordService.RecordPermissionRule | backend/src/main/java/com/growth/service/impl/NotificationPushRecordServiceImpl.java:252-265 | a missing record gives false, its sender or receiver gives true, and any other granted caller has the family permission |
| PushRecordService.PageAccessRule | backend/src/main/java/com/growth/service/impl/NotificationPushRecordServiceImpl.java:179-202 | the page is refused exactly when the receiver id is another user's or the caller lacks the family permission; another user's receiver id gives 无权限查看其他用户的推送记录 |
| FamilyTables.FamilyByInviteCode | backend/src/main/java/com/growth/service/impl/FamilyServiceImpl.java:214-216 | the family returned has the invite code; none means no family has it |
| FamilyRelations.RelationOf | backend/src/main/java/com/growth/service/impl/FamilyRelationServiceImpl.java:53-55 | the relation returned belongs to the family and user |
| FamilyRelations.ActiveMembersIff | backend/src/main/java/com/growth/service/impl/FamilyRelationServiceImpl.java:232-237 | a relation is listed exactly when it is in the family with status 1 |
| FamilyRelations.WithRolesIff | backend/src/main/java/com/growth/service/impl/FamilyRelationServiceImpl.java:240-250 | a relation passes the role filter exactly when its role is one of the given roles |
| FamilyRelations.UserIdsIff | backend/src/main/java/com/growth/service/impl/FamilyRelationServiceImpl.java:232-237 | the id list holds exactly the users of the relations |
| FamilyRelations.MemberIdsIff | backend/src/main/java/com/growth/service/impl/FamilyRelationServiceImpl.java:232-237 | getFamilyMemberIds holds exactly the users with an active relation in the family |
| FamilyRelations.IsFamilyMemberIffListed | backend/src/main/java/com/growth/service/impl/FamilyRelationServiceImpl.java:232-237 | with one relation per family and user, isFamilyMember holds exactly for the listed member ids |
| FamilyRelations.MemberIdsByRolesShape | backend/src/main/java/com/growth/service/impl/FamilyRelationServiceImpl.java:240-250 | null or empty roles give getFamilyMemberIds; otherwise exactly the active members with one of the roles, never more than all members |
| FamilyRelations.ManagePermissionRule | backend/src/main/java/com/growth/service/impl/FamilyRelationServiceImpl.java:205-229 | a missing family gives false and its creator true; any other granted caller is an active member whose permissions map invite_members to TRUE |
| FamilyRelations.UpdateFamilyMember | backend/src/main/java/com/growth/service/impl/FamilyRelationServiceImpl.java:94-135 | a missing relation, a caller without manage permission and a disabled role are refused, in that order, without a write; otherwise only the non-null fields change, a role id also sets the role name |
| FamilyRelations.RemoveFamilyMember | backend/src/main/java/com/growth/service/impl/FamilyRelationServiceImpl.java:139-159 | a missing relation, a caller without manage permission and the family creator are refused; otherwise only the relation's status becomes 0 |
| FamilyRelations.CreateFamilyRelation | backend/src/main/java/com/growth/service/impl/FamilyRelationServiceImpl.java:163-192 | an invalid or disabled role and an existing relation are refused; otherwise one active relation with the role's default permissions is appended |
| FamilyRelations.CreateKeepsUnique | backend/src/main/java/com/growth/service/impl/FamilyRelationServiceImpl.java:163-192 | creating keeps one relation per family and user |
| FamilyRelations.UpdateKeepsUnique | backend/src/main/java/com/growth/service/impl/FamilyRelationServiceImpl.java:94-135 | updating keeps one relation per family and user |
| Families.CodeOf | backend/src/main/java/com/growth/service/impl/FamilyServiceImpl.java:271-281 | the code has one character per draw, the alphabet character drawn |
| Families.GenerateRandomCode | backend/src/main/java/com/growth/service/impl/FamilyServiceImpl.java:271-281 | the loop yields exactly 8 characters, each from A-Z0-9 |
| Families.CodeOfInjective | backend/src/main/java/com/growth/service/impl/FamilyServiceImpl.java:271-281 | different draws give different codes |
| Families.GenerateUniqueInviteCode | backend/src/main/java/com/growth/service/impl/FamilyServiceImpl.java:219-233 | the code returned is the first of at most 10 candidates not used by any family; the error 生成邀请码失败，请重试 comes exactly when all 10 are taken |
| Families.CreateFamily | backend/src/main/java/com/growth/service/impl/FamilyServiceImpl.java:53-75 | a created family belongs to the caller with status 1 and a fresh invite code; one active creator relation remarked 家庭创建者 is appended with the PREGNANT_WOMAN role's id, and the name and default permissions of the role with that id, and no inviter; a failure writes nothing |
| Families.UpdateFamily | backend/src/main/java/com/growth/service/impl/FamilyServiceImpl.java:79-109 | a missing family and a caller without permission are refused without a write; otherwise the family becomes the updated family |
| Families.UpdateKeepsIdentity | backend/src/main/java/com/growth/service/impl/FamilyServiceImpl.java:91-102 | an update keeps id, creator and invite code, changes the name only when the new one is non-blank, and an empty request changes nothing |
| Families.JoinFamily | backend/src/main/java/com/growth/service/impl/FamilyServiceImpl.java:145-170 | an unknown code, a disabled family, an existing relation and an invalid role are refused in that order; otherwise one relation is appended |
| Families.LeaveFamily | backend/src/main/java/com/growth/service/impl/FamilyServiceImpl.java:174-194 | a missing family, its creator and a non-member are refused; otherwise only the relation's status becomes 0 |
| Families.WithoutFamily | backend/src/main/java/com/growth/service/impl/FamilyServiceImpl.java:198-211 | the families kept are exactly those with another id |
| Families.DeleteFamily | backend/src/main/java/com/growth/service/impl/FamilyServiceImpl.java:198-211 | only the creator may delete; the family is then removed and nothing else changes |
| Families.FamilyPermissionRule | backend/src/main/java/com/growth/service/impl/FamilyServiceImpl.java:236-249 | a missing family gives no permission, and its creator and its members have it |
| Families.LeftMemberKeepsPermissionAndCannotRejoin | backend/src/main/java/com/growth/service/impl/FamilyServiceImpl.java:145-194 | after leaving, a user still has the family permission and still has a relation (so joining is refused), but is no longer a member; this rests on reading existsByFamilyIdAndUserId as matching any status, as its signature suggests, since its SQL is not part of this model |
| Families.JoinMakesMember | backend/src/main/java/com/growth/service/impl/FamilyServiceImpl.java:145-170 | after a join the user is a member and is listed |
| FamilyNotifications.TemplateIndex | backend/src/main/java/com/growth/service/impl/FamilyNotificationServiceImpl.java:217-230 | the index found holds a template with the id; none means no template has it |
| FamilyNotifications.TemplatePermissionRule | backend/src/main/java/com/growth/service/impl/FamilyNotificationServiceImpl.java:217-230 | a missing template gives false and its creator true; anyone else has it exactly when they have the family permission |
| FamilyNotifications.KeepMembers | backend/src/main/java/com/growth/service/impl/FamilyNotificationServiceImpl.java:244-253 | the ids kept are no more than the ids given |
| FamilyNotifications.KeepMembersRule | backend/src/main/java/com/growth/service/impl/FamilyNotificationServiceImpl.java:244-253 | the ids kept are exactly the given ids of active members, in order, and all given ids are kept when they are all members |
| FamilyNotifications.MembersByRolesAgrees | backend/src/main/java/com/growth/service/impl/FamilyNotificationServiceImpl.java:233-241 | the role lookup is getFamilyMemberIdsByRoles, and without roles it is all member ids |
| FamilyNotifications.CreateTemplate | backend/src/main/java/com/growth/service/impl/FamilyNotificationServiceImpl.java:45-63 | without family permission nothing is written; otherwise the template is appended with the caller as creator, usage count 0 and active |
| FamilyNotifications.UpdateKeepsBookkeeping | backend/src/main/java/com/growth/service/impl/FamilyNotificationServiceImpl.java:67-87 | an update keeps id, creator, usage count and active flag; the stored row skips null fields while the returned object copies them |
| FamilyNotifications.UpdateTemplate | backend/src/main/java/com/growth/service/impl/FamilyNotificationServiceImpl.java:67-87 | a missing template and a caller without permission are refused without a write; otherwise the row is updated and the copied object returned |
| FamilyNotifications.WithoutTemplate | backend/src/main/java/com/growth/service/impl/FamilyNotificationServiceImpl.java:91-102 | the templates kept are exactly those with another id |
| FamilyNotifications.DeleteTemplate | backend/src/main/java/com/growth/service/impl/FamilyNotificationServiceImpl.java:91-102 | without permission nothing changes; otherwise the template is removed |
| FamilyNotifications.ToggleTemplate | backend/src/main/java/com/growth/service/impl/FamilyNotificationServiceImpl.java:199-214 | without permission nothing changes; otherwise only the template's active flag is set |
| FamilyNotifications.TemplateDetail | backend/src/main/java/com/growth/service/impl/FamilyNotificationServiceImpl.java:105-117 | a template is returned only to a caller with its family permission; a missing one gives 通知模版不存在 |
| FamilyNotifications.SendAcceptedRule | backend/src/main/java/com/growth/service/impl/FamilyNotificationServiceImpl.java:156-180 | a send passes the guards only for an existing, active template of the requested family, a caller with permission and a non-empty list of member receivers |
| FamilyNotifications.EmptyReceiverListNeverSends | backend/src/main/java/com/growth/service/impl/FamilyNotificationServiceImpl.java:244-253 | a template with a null or empty receiver list is always refused, with 没有找到有效的接收者 once the earlier guards pass |
| FamilyNotifications.SendTemplate | backend/src/main/java/com/growth/service/impl/FamilyNotificationServiceImpl.java:156-195 | a refused send writes nothing; an accepted one creates and executes the records and raises the usage count only when the push succeeded |
| FamilyTasks.Bumped | backend/src/main/java/com/growth/service/impl/FamilyTaskServiceImpl.java:144 | a null version becomes 1 and any other version increases |
| FamilyTasks.SameUserListRule | backend/src/main/java/com/growth/service/impl/FamilyTaskServiceImpl.java:325-336 | two lists compare equal exactly when both are null, or both are present with equal size and the same elements; so [1,1,2] equals [1,2,2] but [1,2] does not equal [1,2,2] |
| FamilyTasks.TaskPermissionRule | backend/src/main/java/com/growth/service/impl/FamilyTaskServiceImpl.java:294-320 | only the creator may delete; the creator, every assignee and every family member may modify |
| FamilyTasks.CheckRelated | backend/src/main/java/com/growth/service/impl/FamilyTaskServiceImpl.java:53-60 | the loop accepts exactly when every assignee has a relation to the family |
| FamilyTasks.NoticeRule | backend/src/main/java/com/growth/service/impl/FamilyTaskServiceImpl.java:341-402 | a notice goes out exactly when the assignee list is non-empty, to exactly those assignees, and its sender is always the task's creator |
| FamilyTasks.CreateTask | backend/src/main/java/com/growth/service/impl/FamilyTaskServiceImpl.java:47-86 | a creator or assignee without a relation is refused without a write; otherwise the task is stored with status 1, version 0, not deleted, and the assignment notice returned is addressed to the assignees in the creator's name |
| FamilyTasks.UpdateTask | backend/src/main/java/com/growth/service/impl/FamilyTaskServiceImpl.java:90-154 | a missing task, a caller who may not modify it and non-member assignees are refused without a write; otherwise the task becomes the updated task, and an assignment notice in the creator's name is returned exactly when the assignee list changed |
| FamilyTasks.UpdateRule | backend/src/main/java/com/growth/service/impl/FamilyTaskServiceImpl.java:109-151 | an update keeps identity and deletion, bumps the version, stamps completion for status 3, and keeps the assignees when the lists compare equal |
| FamilyTasks.ReassignTask | backend/src/main/java/com/growth/service/impl/FamilyTaskServiceImpl.java:158-184 | only a current assignee may reassign, only to a member; the assignees become exactly the new user, and the reassignment notice returned goes to that user in the creator's name |
| FamilyTasks.DeleteTask | backend/src/main/java/com/growth/service/impl/FamilyTaskServiceImpl.java:188-204 | only the creator may delete, and the delete only sets isDeleted and bumps the version |
| FamilyTasks.ChangeStatus | backend/src/main/java/com/growth/service/impl/FamilyTaskServiceImpl.java:229-289 | start and complete need an assignee, cancel needs modify permission; a refused transition writes nothing, otherwise the task gets the new status |
| FamilyTasks.TransitionRule | backend/src/main/java/com/growth/service/impl/FamilyTaskServiceImpl.java:229-289 | start, complete and cancel set status 2, 3 and 4 whatever the current status; only complete stamps the completion time, and the version increases |
| UserProfiles.PregnancyFaultRule | backend/src/main/java/com/growth/service/impl/UserProfileServiceImpl.java:99-143 | validation passes exactly when the user is not pregnant, or the LMP lies in [today-300, today] and the EDD in [today, today+365] where given; a failure is a validation error |
| UserProfiles.InconsistentDatesAccepted | backend/src/main/java/com/growth/service/impl/UserProfileServiceImpl.java:133-141 | an EDD more than 7 days away from LMP+280 still passes validation |
| UserProfiles.CopyNonNullRule | backend/src/main/java/com/growth/service/impl/UserProfileServiceImpl.java:148-176 | exactly the request's non-null fields overwrite the profile, identity and status are kept, copying is idempotent, and an all-null request changes nothing |
| UserProfiles.ProfileDetail | backend/src/main/java/com/growth/service/impl/UserProfileServiceImpl.java:33-42 | a user without a profile gets a default one with their id and status 1 |
| UserProfiles.UpdateUserProfile | backend/src/main/java/com/growth/service/impl/UserProfileServiceImpl.java:46-77 | a failed validation writes nothing; otherwise the profile is created with status 1 or updated in place from the request, and the stored profile is returned |
| PregnancyProgress.Band | backend/src/main/java/com/growth/entity/response/PregnancyProgressResponse.java:62-89 | the week band is one of four |
| PregnancyProgress.SameBandSameText | backend/src/main/java/com/growth/entity/response/PregnancyProgressResponse.java:62-89 | two weeks in the same band give the same stage and tips, and weeks in different bands give different stages |
| PregnancyProgress.GettersIgnoreStoredText | backend/src/main/java/com/growth/entity/response/PregnancyProgressResponse.java:52-89 | the stage and tips getters ignore the values stored through the setters and depend only on the week |
| PregnancyProgress.Int32 | backend/src/main/java/com/growth/service/impl/PregnancyProgressServiceImpl.java:76-99 | the (int) cast stays in the 32-bit range and leaves non-negative 32-bit values unchanged |
| PregnancyProgress.Best | backend/src/main/java/com/growth/service/impl/PregnancyProgressServiceImpl.java:75-81 | the row chosen is enabled with daysToDelivery at most the bound and no candidate has a larger value; none means there is no candidate |
| PregnancyProgress.ProgressRule | backend/src/main/java/com/growth/service/impl/PregnancyProgressServiceImpl.java:40-103 | a missing profile gives DATA_NOT_FOUND and a non-pregnant profile or one without EDD gives the business error; otherwise an overdue EDD gives the fixed week-40 response, and daysToDelivery is d with the best row's week or the week-1 default |
| PregnancyProgress.FixedResponsesStage | backend/src/main/java/com/growth/service/impl/PregnancyProgressServiceImpl.java:58-99 | the overdue response reads as late pregnancy and the week-1 default as early pregnancy |
| PregnancyProgress.ActiveRelationsIff | backend/src/main/java/com/growth/service/impl/PregnancyProgressServiceImpl.java:175-185 | the families searched are exactly the caller's active relations |
| PregnancyProgress.OthersIff | backend/src/main/java/com/growth/service/impl/PregnancyProgressServiceImpl.java:188-197 | the members considered are exactly the family's members other than the caller |
| PregnancyProgress.CandidatesIff | backend/src/main/java/com/growth/service/impl/PregnancyProgressServiceImpl.java:175-207 | a candidate is exactly another user who is an active member of one of the caller's active families |
| PregnancyProgress.FirstExpecting | backend/src/main/java/com/growth/service/impl/PregnancyProgressServiceImpl.java:194-206 | the member found is expecting and comes from the list; none means no member is expecting |
| PregnancyProgress.SearchFamilies | backend/src/main/java/com/growth/service/impl/PregnancyProgressServiceImpl.java:175-210 | the nested loop returns the first expecting candidate in family and member order |
| PregnancyProgress.RelatedRule | backend/src/main/java/com/growth/service/impl/PregnancyProgressServiceImpl.java:159-211 | the caller's own progress comes first when they are expecting; the result is null exactly when neither they nor any member of their active families is expecting |
| PregnancyProgress.GetRelatedPregnancyProgress | backend/src/main/java/com/growth/service/impl/PregnancyProgressServiceImpl.java:159-211 | the method's result is the reference related-progress lookup |
| PageRequests.NewPageRequest | backend/src/main/java/com/growth/common/controller/BaseController.java:104-111 | the normalised page is always within 1 <= current and 1 <= size <= 100 |
| PageRequests.NewPageRequestRule | backend/src/main/java/com/growth/common/controller/BaseController.java:104-111 | a positive current is kept, else 1; a size in 1..100 is kept, a null or non-positive one becomes 10 and a larger one 100 |
| PageRequests.NormaliseIdempotent | backend/src/main/java/com/growth/common/controller/BaseController.java:104-111 | normalising leaves a page unchanged exactly when it is already normal, and normalising twice is normalising once |
| PageRequests.DefaultPageNormal | backend/src/main/java/com/growth/common/controller/BaseController.java:96-102 | the no-argument page (1, 10) is normal and equals the normalisation of two nulls |
| ResultCodes.DeclaredInvertsCode | backend/src/main/java/com/growth/common/result/ResultCode.java:17-76 | looking up a constant's own code finds that constant |
| ResultCodes.DeclaredSound | backend/src/main/java/com/growth/common/result/ResultCode.java:17-76 | a declared lookup finds a constant with that code |
| ResultCodes.CodeInjective | backend/src/main/java/com/growth/common/result/ResultCode.java:17-76 | no two constants share a code |
| ResultCodes.ListedInValues | backend/src/main/java/com/growth/common/result/ResultCode.java:17-76 | every constant appears in values() |
| ResultCodes.Find | backend/src/main/java/com/growth/common/result/ResultCode.java:92-96 | the scan returns the first constant in declaration order with the code; none means no constant has it |
| ResultCodes.GetByCodeRoundTrip | backend/src/main/java/com/growth/common/result/ResultCode.java:91-98 | getByCode(rc.getCode()) is rc for every constant |
| ResultCodes.GetByCodeFallback | backend/src/main/java/com/growth/common/result/ResultCode.java:91-98 | a null or undeclared code gives FAILURE (500) |
| ResultCodes.GetByCodeKeepsCode | backend/src/main/java/com/growth/common/result/ResultCode.java:91-98 | getByCode(c).getCode() is c exactly when c is declared |
| SessionIds.ParseLong | backend/src/main/java/com/growth/controller/FamilyMemberController.java:460-463 | a parsed value lies in the signed 64-bit range |
| SessionIds.ParseLongDigits | backend/src/main/java/com/growth/controller/FamilyMemberController.java:460-463 | a digit string parses to its value when it fits in a long and fails on overflow |
| SessionIds.ShortDigitsParse | backend/src/main/java/com/growth/controller/FamilyMemberController.java:446-458 | a digit string of at most 10 digits always parses |
| SessionIds.DigitPrefix | backend/src/main/java/com/growth/controller/FamilyMemberController.java:446-458 | the prefix found is all digits and is followed by a non-digit or the end |
| SessionIds.Runs | backend/src/main/java/com/growth/controller/FamilyMemberController.java:446-458 | the digit runs found are non-empty and all digits |
| SessionIds.FirstPositiveRule | backend/src/main/java/com/growth/controller/FamilyMemberController.java:446-463 | the fallback picks the first run of at most 10 digits with a positive value, and finds none exactly when no run qualifies |
| SessionIds.DigitStringRule | backend/src/main/java/com/growth/controller/FamilyMemberController.java:460-463 | a digit-only session value returns its value, or null on overflow |
| SessionIds.PiecesAtFirstSeparator | backend/src/main/java/com/growth/controller/FamilyMemberController.java:407-412 | splitting at a comma gives the text before the first comma followed by the split of the rest |
| SessionIds.SaTokenSessionExample | backend/src/main/java/com/growth/controller/FamilyMemberController.java:396-419 | the session text {"loginId":["java.lang.Long",2]} yields user id 2 |
| SessionIds.LoginIdParseFailureIsFinal | backend/src/main/java/com/growth/controller/FamilyMemberController.java:415 | a number-format failure in the loginId branch returns null and does not fall through to the later rules |
| SessionIds.FallbackRule | backend/src/main/java/com/growth/controller/FamilyMemberController.java:399-463 | without a usable loginId array the result is the fallback digit-run rule |
| Auth.FirstHop | backend/src/main/java/com/growth/controller/AuthController.java:199-208 | the first hop contains no comma and is either the whole header or its text before the first comma |
| Auth.ClientIpRule | backend/src/main/java/com/growth/controller/AuthController.java:197-229 | X-Forwarded-For wins when usable, giving its first hop; then X-Real-IP; then the first usable of the four proxy headers, else the remote address |
| Auth.NoHeadersGivesRemoteAddr | backend/src/main/java/com/growth/controller/AuthController.java:213-228 | without headers the client IP is the remote address |
| Auth.Masked | backend/src/main/java/com/growth/controller/AuthController.java:187-192 | a masked user is the same user with the password removed |
| Auth.Login | backend/src/main/java/com/growth/controller/AuthController.java:52-86 | the outcome is the reference login rule; a failed login writes nothing and a successful one records only the login time and client IP |
| Auth.LoginRule | backend/src/main/java/com/growth/controller/AuthController.java:54-82 | a wrong password gives the same error as an unknown phone; a disabled account is refused with 账户已被禁用 whatever the password; a success returns the stored user without password |
| Auth.CurrentUser | backend/src/main/java/com/growth/controller/AuthController.java:130-142 | without a login the error is 请先登录; otherwise the user returned is a stored user with the password removed |
| NetworkDiagnostics.TestServerConnection | frontend/src/utils/networkDiagnostics.ts:358-421 | a single probe always returns a result, and it reports the server reachable exactly when the fetch got a response of any status |
| NetworkDiagnostics.Delays | frontend/src/utils/networkDiagnostics.ts:182-212 | the sleeps before each retry, one per retry, each given by the capped exponential backoff rule |
| NetworkDiagnostics.FirstReturned | frontend/src/utils/networkDiagnostics.ts:191-205 | the attempt loop finds the first attempt that returned, and every attempt before it threw; with none found, every attempt threw |
| NetworkDiagnostics.TestServerConnectionWithRetry | frontend/src/utils/networkDiagnostics.ts:182-212 | the retry loop's outcome and its sleeps equal the reference retry rule |
| NetworkDiagnostics.RetryStopsAtFirstAttempt | frontend/src/utils/networkDiagnostics.ts:191-194 | because a probe never throws, the loop stops at attempt 0 with no retry and no sleep, reachable exactly when the probe got a response |
| NetworkDiagnostics.ExhaustedRetries | frontend/src/utils/networkDiagnostics.ts:191-211 | when every attempt throws, the result is unreachable after maxRetries+1 attempts with the last error's message (连接失败 when empty), after maxRetries sleeps |
| NetworkDiagnostics.DelayRule | frontend/src/utils/networkDiagnostics.ts:199-203 | with a sane configuration every delay lies in [0, maxDelay] and the delays never shrink |
| NetworkDiagnostics.DefaultDelays | frontend/src/utils/networkDiagnostics.ts:44-49 | the default configuration sleeps 1000 ms then 2000 ms, and its fourth delay is capped at 5000 ms |
| NetworkDiagnostics.Latencies | frontend/src/utils/networkDiagnostics.ts:229-243 | only successful pings contribute latencies, none of them zero, and no more than there were pings |
| NetworkDiagnostics.PerformSimplifiedPingTests | frontend/src/utils/networkDiagnostics.ts:217-268 | the ping loop's summary is the reference summary of the successful latencies: their average under Math.round (a half rounds up, negative sums included), the jitter, and the loss rounded to a whole percent |
| NetworkDiagnostics.MathRound | frontend/src/utils/networkDiagnostics.ts:262 | the rounded average r is the integer with r - 1/2 <= sum / count < r + 1/2, as Math.round gives for negative values too |
| NetworkDiagnostics.NegativeAverageRoundsUp | frontend/src/utils/networkDiagnostics.ts:256-262 | negative latencies average as Math.round does: [-1, -2] gives -1 and [-1, 1, -1] gives 0 |
| NetworkDiagnostics.PingFallback | frontend/src/utils/networkDiagnostics.ts:245-266 | with no successful ping the summary is 0 ms, 0 jitter and 100% loss; one success of three reports 67% loss at that latency |
| NetworkDiagnostics.QualityRule | frontend/src/utils/networkDiagnostics.ts:273-291 | the quality is never unknown for a measurement; loss over 10% is poor, loss over 5% at most fair, and higher latency or jitter never improves the grade |
| NetworkDiagnostics.ModerateLossOutranksSlowLossFree | frontend/src/utils/networkDiagnostics.ts:273-291 | a 600 ms loss-free link is graded poor while the same link with 6% loss is graded fair, and 33% loss (one lost ping of three) is poor at any latency and jitter |
| NetworkDiagnostics.SuggestionsRule | frontend/src/utils/networkDiagnostics.ts:447-464 | no suggestions exactly when the server is reachable; otherwise the four generic ones end the list, and three more precede them exactly when the error says Network request failed |
| NetworkDiagnostics.ToLowerIdempotent | frontend/src/utils/networkDiagnostics.ts:469-482 | lower-casing twice is lower-casing once |
| NetworkDiagnostics.IsNetworkErrorIgnoresCase | frontend/src/utils/networkDiagnostics.ts:469-482 | classifying a message ignores its letter case |
| NetworkDiagnostics.KeywordIsNetworkError | frontend/src/utils/networkDiagnostics.ts:469-482 | a message containing any of the keywords is a network error |
| NetworkDiagnostics.DiagnosticsCache.constructor | frontend/src/utils/networkDiagnostics.ts:52-55 | the cache starts empty, with no check time and no run in progress |
| NetworkDiagnostics.DiagnosticsCache.RunDiagnostics | frontend/src/utils/networkDiagnostics.ts:60-137 | a run already in progress returns the cached result or the defaults; a cache younger than 60 s is returned unchanged; otherwise the new diagnostics are computed, cached and stamped with the time read after the run, and a reachable server records the time read when it answered |
| NetworkDiagnostics.DiagnosticsCache.ClearCache | frontend/src/utils/networkDiagnostics.ts:426-430 | clearing drops the cached result and its time and nothing else |
| NetworkDiagnostics.FreshQualityRule | frontend/src/utils/networkDiagnostics.ts:76-121 | fresh diagnostics have unknown quality exactly when the server is unreachable, and a reachable server records the time it answered as the last success |
| NotificationTemplates.CatalogueIds | frontend/src/services/notificationService.ts:801-884 | the catalogue holds eight templates, none with an id of the custom_ or template_ forms |
| NotificationTemplates.Merge | frontend/src/services/notificationService.ts:994 | an empty partial update changes nothing, and one without an id keeps the template's id |
| NotificationTemplates.WithoutId | frontend/src/services/notificationService.ts:959-970 | deletion keeps exactly the templates whose id differs |
| NotificationTemplates.WithoutAbsentId | frontend/src/services/notificationService.ts:959-970 | deleting an id that is absent leaves the list unchanged |
| NotificationTemplates.WithoutIdIdempotent | frontend/src/services/notificationService.ts:959-970 | deleting the same id twice is deleting it once |
| NotificationTemplates.TemplateStore.SaveUserCustomTemplate | frontend/src/services/notificationService.ts:937-954 | saving succeeds exactly when storage accepts the write, and then appends the template with id custom_ plus the time and category custom; a refused write returns false and stores nothing; the usage counts are untouched |
| NotificationTemplates.TemplateStore.DeleteUserCustomTemplate | frontend/src/services/notificationService.ts:959-970 | deletion succeeds exactly when storage accepts the write, and then removes every template with that id (even when none has it); a refused write returns false and changes nothing; the usage counts are untouched |
| NotificationTemplates.TemplateStore.UpdateUserCustomTemplate | frontend/src/services/notificationService.ts:984-1002 | the update succeeds exactly when the id is found and storage accepts the write, and then merges into the first template with that id only; otherwise it returns false and changes nothing |
| NotificationTemplates.TemplateStore.RecordTemplateUsage | frontend/src/services/notificationService.ts:1042-1050 | recording a use adds one to that id's count (absent counts as 0) when storage accepts the write, and a refused write is swallowed and counts nothing; the templates are untouched |
| NotificationTemplates.AllTemplatesRule | frontend/src/services/notificationService.ts:975-979 | all templates are the eight catalogue entries followed by the custom ones in order |
| NotificationTemplates.SavedIdsRule | frontend/src/services/notificationService.ts:940-944 | two saves get the same id exactly when they happen in the same millisecond |
| NotificationTemplates.UpdateRule | frontend/src/services/notificationService.ts:987-992 | the index searched for is absent exactly when no template has the id, and otherwise it is the first one that has it |
| NotificationTemplates.RecordRule | frontend/src/services/notificationService.ts:1042-1050 | a recorded use raises that template's count by one and leaves every other count alone |
| NotificationTemplates.Insert | frontend/src/services/notificationService.ts:1055-1066 | inserting into an ordered list keeps it ordered and adds exactly that element |
| NotificationTemplates.SortByUsage | frontend/src/services/notificationService.ts:1055-1066 | the sort returns a permutation of its input, ordered by usage count descending and by original position among ties |
| NotificationTemplates.WithCounts | frontend/src/services/notificationService.ts:1059-1063 | each template is paired with its usage count, absent counting as 0, and with its position |
| NotificationTemplates.SliceEnd | frontend/src/services/notificationService.ts:1065 | the end of the slice never passes the list's end |
| NotificationTemplates.Project | frontend/src/services/notificationService.ts:1059-1065 | dropping the positions keeps the templates and their counts in order |
| NotificationTemplates.MostUsedRule | frontend/src/services/notificationService.ts:1055-1066 | the most-used list is the first limit entries (5 by default) of a stable descending sort by count of all templates |
| NotificationTemplates.OneClickNotification | frontend/src/services/notificationService.ts:494-530 | a notification is built exactly for the four one-click kinds |
| NotificationTemplates.OneClickRule | frontend/src/services/notificationService.ts:494-530 | an unknown kind sends nothing; a known one succeeds exactly when delivery does, with a body that opens with the user's name (孕妈妈 when missing) and a catalogue entry's type |
| NotificationTemplates.FromBackend | frontend/src/services/notificationService.ts:628-637 | a backend template keeps its title and content and becomes a custom template |
| NotificationTemplates.FromBackendRule | frontend/src/services/notificationService.ts:628-637 | the converted id is template_ plus the backend id and distinct backend ids stay distinct; a missing or zero type becomes type 2 with priority 1, a non-zero type sets both; a missing icon becomes 📱 |
| ProfileDates.ParseIso | frontend/src/services/userProfileService.ts:99-105 | a date the parser accepts is a real calendar date of a four-digit year |
| ProfileDates.Pad2Rule | frontend/src/services/userProfileService.ts:85-94 | padding a number below 100 gives two digits that read back as the number |
| ProfileDates.PadOfTwoDigits | frontend/src/services/userProfileService.ts:85-94 | padding the value of two digits (not 00) gives those digits back |
| ProfileDates.FormatDateRule | frontend/src/services/userProfileService.ts:85-94 | a date formats as year-MM-DD, and for a four-digit year the text is valid and reads back as the same date |
| ProfileDates.FormatParseRoundTrip | frontend/src/services/userProfileService.ts:85-105 | a valid YYYY-MM-DD date whose year does not start with 0 formats back to the same text (a year with a leading zero loses it: 0999-01-01 formats as 999-01-01) |
| ProfileDates.CalculateAgeRule | frontend/src/services/userProfileService.ts:122-136 | the age is the number of birthdays passed: today is on or after the age-th anniversary and before the next; there is no age exactly for an invalid or future birth date |
| ProfileDates.DayNumberRule | frontend/src/services/userProfileService.ts:145-148 | day numbers count from 1970-01-01 and the next day in a month is one more |
| ProfileDates.DayNumberMonthRule | frontend/src/services/userProfileService.ts:145-148 | the first of a month follows the last of the month before, across years too |
| ProfileDates.CalculatePregnancyWeeksRule | frontend/src/services/userProfileService.ts:141-153 | the weeks are the whole weeks in the days since the LMP; there are none exactly for an invalid or future LMP |
| ProfileDates.CalculateBmiRule | frontend/src/services/userProfileService.ts:110-117 | a BMI exists exactly for positive height and weight, and it lies within 0.05 of weight over height in metres squared |
| TaskLabels.StatusTextRule | frontend/src/services/familyTaskService.ts:159-167 | the four statuses read differently, 未知 exactly for any other code, and every status a transition sets has a known text |
| TaskLabels.PriorityRule | frontend/src/services/familyTaskService.ts:172-180 | an unknown priority reads and is coloured as priority 2; the four priorities read and are coloured differently |
| TaskLabels.StatusColorRule | frontend/src/services/familyTaskService.ts:185-193 | an unknown status is coloured as status 1; the four statuses have four colours |
| Themes.ScheduleHours | frontend/src/constants/Colors.ts:270-274 | the schedule's HH:MM times read as hours 6, 18 and 22 |
| Themes.RecommendationFollowsSchedule | frontend/src/contexts/ThemeContext.tsx:19-34 | for every hour the recommended theme is the one whose scheduled window holds the hour |
| Themes.ParseMode | frontend/src/contexts/ThemeContext.tsx:61-64 | only the four stored mode texts are accepted, each as its own mode |
| Themes.ParseModeRule | frontend/src/contexts/ThemeContext.tsx:58-71 | a stored mode loads back as itself, and any other text is ignored |
| Themes.ThemeProvider.constructor | frontend/src/contexts/ThemeContext.tsx:52-55 | the provider starts in auto mode showing the light theme with both flags off |
| Themes.ThemeProvider.LoadThemePreference | frontend/src/contexts/ThemeContext.tsx:58-71 | a stored valid mode is adopted, anything else keeps the current mode; the theme is untouched |
| Themes.ThemeProvider.ApplyThemeMode | frontend/src/contexts/ThemeContext.tsx:74-88 | the theme in effect becomes the recommendation in auto mode or the chosen theme, and the flags follow it |
| Themes.ThemeProvider.Tick | frontend/src/contexts/ThemeContext.tsx:91-104 | in auto mode the theme becomes the current recommendation; in a manual mode nothing changes; the flags keep following the theme |
| Themes.ThemeProvider.SetThemeMode | frontend/src/contexts/ThemeContext.tsx:107-114 | the mode is set, and its text is stored exactly when the AsyncStorage write succeeds (a failed write leaves the old text); the theme waits for the effect |
| Themes.FlagsExclusive | frontend/src/contexts/ThemeContext.tsx:85-87 | dark and comfort are never on together, and dark is on exactly for the dark theme |
| Themes.SetThenReload | frontend/src/contexts/ThemeContext.tsx:58-114 | setting a mode, reloading the stored preference and applying it shows that mode's theme when the write succeeded; after a failed write the reload restores the previously stored valid mode, if any |
| TextUtils.TruncateTextRule | frontend/src/utils/index.ts:62-65 | a text that fits is kept; a longer one becomes its first maxLength characters and ...; truncating again changes nothing |
| TextUtils.CapitalizeRule | frontend/src/utils/index.ts:58-60 | only the first character changes, it is no longer a lower-case letter, and capitalising is idempotent |
| TextUtils.IsValidEmailMatchesPattern | frontend/src/utils/index.ts:53-56 | the check accepts exactly the strings that split into local@host.tld with each part non-empty and free of whitespace and @ |
| TextUtils.ValidEmailShape | frontend/src/utils/index.ts:53-56 | a valid address holds no whitespace and exactly one @ |

## Left out

- The Expo gateway's HTTP exchange (`sendBatch`, `testConnection`, `getServiceStatus`) is not modelled; the gateway is a function parameter from a batch to a response.
- SQL, MyBatis-Plus and the database are not modelled; each table is a map or sequence in table order, and each mapper query is the function its signature and doc comment describe.
- Transactions, rollbacks and the scheduler that drives retries are left out; every operation runs to completion on its own.
- Floating point is left out: the usage rates of `getTemplateStats` (NotificationPushRecordServiceImpl) are not modelled, the ping jitter (a standard deviation) is a parameter, and BMI is computed over exact reals.
- The speed test (`performSpeedTest`) is left out because it measures download time from the network.
- Sa-Token sessions, BCrypt and Redis are left out; the session's login id, the password check and cached values are parameters.
- SessionIds.ExtractUserId: the branch that reads a user id out of a `Map` session value is not modelled, because the model's session values are text.
- Logging, the React rendering and every other UI concern are left out.
- The device-token operations `deactivateFailedTokens`, `updateLastActiveTime`, `getActiveTokenCount`, `cleanupInactiveTokens`, `getFailedTokens` and `getTokenByUserIdAndPlatform` are left out; they are maintenance queries outside the push path.
- `getNetworkStatusDescription` and `getNetworkConnectionInfo` are left out; the network type is a parameter.
- NetworkDiagnostics.DiagnosticsCache.RunDiagnostics: the catch path is left out, because every step it guards is a parameter that cannot throw in the model.
- Parse errors of the JSON kept in local storage are left out; the stored template list and usage counts are fields. Whether `localStorage.setItem` throws (as it does where `localStorage` is not defined, such as the native react-native targets, or when storage is full) is an input of each write.
- `sendCustomNotification` and `scheduleCustomNotification` are left out; they forward a request to the server and return its answer.
- String lengths count characters rather than UTF-16 code units, and upper- and lower-casing cover ASCII letters only.
- Dates are read in UTC; the local time zone of `new Date(...)` is not modelled.
- ProfileDates.ParseIso: only the YYYY-MM-DD form that `isValidDate` admits is parsed, and only soundness (an accepted date is a real date) is stated. The other forms of the ECMAScript date-time string format (a year alone, a year and month, a date with a time and an offset) and engine-specific extensions are not parsed.
- ProfileDates.FormatDate: a text in one of those other date-time forms formats as "NaN-NaN-NaN" in the model, where `formatDate` renders the date it denotes.
- NotificationTemplates.Merge: a partial update that sets a field to `undefined` explicitly is treated as leaving it unchanged.
- PregnancyProgress.Int32 models the `(int)` cast; other Java `long` and `int` arithmetic is unbounded in the model, where the source's values stay far from overflow.
- PushRecordService.ExecutePush: an exception thrown by the push run is an input of the run, not modelled from its causes.
- FamilyTasks.CreateTask, FamilyTasks.UpdateTask, FamilyTasks.ReassignTask: the assignment and reassignment pushes are returned as a `Notice` (title, content, sender and receivers) instead of being sent through `createPushRecords` and `executePush`, so these operations write no push records and touch no device tokens. The source's temporary template is never saved and has no id, which the push-record model's templates do not represent; a failure of that push is swallowed by the source and cannot undo the task change.
- NotificationTemplates.OneClickNotification: a type naming a property every JavaScript object inherits (such as "toString") passes the source's `notifications[type]` lookup and hands that property to `sendLocalNotification`; the model refuses such a type as unknown.
- ExpoPush.TicketAppliedRule: MyBatis `selectOne` throws when more than one row matches; the model states only that the update applies when exactly one row matches.
