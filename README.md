# universal_notifications in Dafny

A model of the core of `universal_notifications`, a Django application that sends notifications
to users over several channels and runs a two-way SMS service on top of Twilio or Amazon SNS.

- **Notifications and chaining** (`notifications.dfy`, `dispatch.dfy`). A notification is sent
  in a fixed order:
  - the category check;
  - the filtering of unsubscribed receivers (`list.remove` on the shared receiver list);
  - `prepare_receivers`, `prepare_message` and `send_inner` for WebSocket, SMS, e-mail and push;
  - one `NotificationHistory` row per prepared receiver;
  - the chain of follow-up notifications, run inline or queued with a delay.
  
  `process_chained_notification` applies the optional transform and condition before sending.
  Each operation is first a function from the state before to the outcome and the state after.
  The classes `Notification`, `ReceiverList` and `Store` then perform it step by step and are
  proved to agree with that function.
- **Subscriptions** (`subscriptions.dfy`). The `UnsubscribedSerializer` shows a user's
  unsubscriptions and takes new ones. Its `to_representation`, `validate` and `update` are
  modelled. The response of a PUT, the representation of the updated instance, shows what was sent.
- **Devices and APNS** (`devices.dfy`, `apns.dfy`). `Device.send_message` routes to one sender
  per platform. The binary APNS frame of `_apns_pack_frame` is proved to read back through an
  independent frame reader. The payload and defaults of `_apns_send` and the decoding of the
  error reply are modelled too.
- **JSON field** (`json_field.dfy`). `JSONField` save and load round-trip, including
  compression, and `JSONFormField.clean` is modelled.
- **SMS** (`sms_models.dfy`, `sms_engines.dfy`, `sms_tasks.dfy`, `twilio_api.dfy`,
  `text.dfy`, `mobile_validation.dfy`). This part covers:
  - the SMS tables, with the normalisation their `save` methods apply and the manager lookups;
  - the abstract, Twilio and Amazon SNS engines;
  - `PhoneSent.send`, `PhoneReceivedRaw.save` and `PhonePendingMessages.save`;
  - the two Twilio tasks (`parse_received_message_task`, `send_message_task`) and `send_sms`;
  - the Twilio webhook endpoint;
  - emoji stripping, `format_phone` and the `validate_mobile` variants.
  
  The database is a class `Database` whose tables are sequences of row values; a row's id is its
  index. The invariant `Consistent` is preserved by every operation. It says that foreign keys
  hold, that stored numbers are in normalised form, and that phone numbers and receiver numbers
  are unique.

The phone-number library, template rendering, JSON encoding, zlib/base64, the provider clients
and the Redis channel are parameters:
- `PhoneLib`, `Renderer`, `Codec` and `Provider` are function-typed inputs;
- `Dispatch.Env.fails` says which transport call of `send_inner` raises, and with which message;
- `SmsEngines.Env.lower` is Python's Unicode `str.lower`, against which the stop and start words
  are matched;
- calls to providers, the dispatcher channel, the admin mails and the Celery queues are recorded as
  traces in the state.

Where a law about an oracle is needed (E.164 output parses back to itself; JSON text and the
compression round-trip), it is a predicate that the lemmas require (`Stable`, `Lawful`).

Behaviour worth noting:
- `check_category` does not skip when `check_subscription` is false.
- The filtering does not consult the per-type `"all"` marker.
- `send_message_task` creates the message `pending` (or `queued` in proxy mode) and does not send
  it outside proxy mode.
- No user-type mapping is checked (`get_mapped_user_notifications_types_and_categories` is not
  part of this model).
- As written, `PhoneReceivedRaw.save` (`universal_notifications/models.py:190`) and `send_sms`
  (`universal_notifications/backends/sms/utils.py:38`) import `parse_received_message_task` and
  `send_message_task` from `universal_notifications.tasks`, which defines only
  `process_chained_notification`. The import fails with ImportError before the row is stored or
  the message is sent. The model follows the evident intent, the tasks of
  `backends/twilio/tasks.py`, which `parse_pending_sms` imports and the Twilio tests rely on.
- As written, `verify_receivers_subscriptions` filters `UnsubscribedUser` on `account__in` and reads
  `u.account` (`universal_notifications/notifications.py:89-97`), but the model's field is `user`
  (`universal_notifications/models.py:240`), so the lookup raises FieldError. The model follows
  the evident intent, a lookup by the receiver's user id.
- `PhoneReceiverManager.format_fields` returns inside its loop, so only `number` is normalised and
  `service_number` is compared as given (`SmsModels.ServiceNumberNotNormalised`).
- `PhoneReceiver.objects.get_or_create(number=From, service_number=To)` is a queryset call, so
  it bypasses the manager's `format_fields`. Both numbers are compared exactly as posted, and a
  known sender whose `From` is not in E.164 form raises IntegrityError on the uniqueness of
  `number` (`SmsEngines.KnownNumberMismatchFails`). A missing `From` or `To` matches no row, and
  the row then created stores '' for it, as `format_phone(None)` gives ''.
- The Twilio engine's `send` catches only `TwilioException`. Any other exception of the client
  escapes after the call and before the message is saved (`SmsEngines.UncaughtClientErrorNotSaved`).
  The Amazon SNS engine catches every `Exception`.
- An exception from a transport call leaves `send_inner` and `send`. The calls before it stay
  made, and no history row is written and no chained notification runs
  (`Dispatch.TransportFailureAborts`).
- `JSONFormField.clean` hands a non-empty value to `CharField.clean`, which strips the surrounding
  whitespace. A required field holding only whitespace is therefore an error. An optional one
  reaches `json.loads('')` and is rejected as invalid JSON.
- `parse_received_message_task` writes the error code and message of a status callback to
  attributes that are not columns (`twilio_error_code`), so they are not stored. The Twilio engine's
  `parse_received` stores them (`persistErrors`).
- `UnsubscribedSerializer.update` only sets attributes on the instance, and neither it nor the
  view calls `instance.save()`, so a PUT is never written to the database. The next GET reads the
  old row. `Subscriptions.UnsubscribedUserRecord` is the in-memory instance, and `PutThenGet` is
  about the PUT's own response.

## Model

| member | source | states |
|---|---|---|
| Text.CleanText | universal_notifications/backends/sms/utils.py:47-62 | the result holds no character of the four emoji ranges |
| Text.CleanTextConcat | universal_notifications/backends/sms/utils.py:61-62 | removing emoji distributes over concatenation |
| Text.CleanTextFixedPoint | universal_notifications/backends/sms/utils.py:61-62 | a text is unchanged by clean_text exactly when it holds no emoji |
| Text.CleanTextIdempotent | universal_notifications/backends/sms/utils.py:61-62 | cleaning twice is cleaning once |
| Text.CleanTextKeepsOthers | universal_notifications/backends/sms/utils.py:61-62 | every non-emoji character keeps its number of occurrences |
| Text.LowerChar | universal_notifications/notifications.py:71 | ASCII upper-case letters map to lower case, all else unchanged (the notification type names are ASCII) |
| Text.Lower | universal_notifications/notifications.py:95 | same length, each character lower-cased as ASCII; applied only to the ASCII type names |
| Text.Region | universal_notifications/backends/sms/utils.py:67-70 | no default region for a number starting with '+', 'US' otherwise |
| Text.FormatPhone | universal_notifications/backends/sms/utils.py:65-72 | '' for an empty number; otherwise the library's E.164 form or its parse error |
| Text.FormatPhoneIdempotent | universal_notifications/backends/sms/utils.py:65-72 | a normalised number normalises to itself, for a stable library |
| Text.StripStart | universal_notifications/backends/twilio/fields.py:78 | drops exactly the leading whitespace |
| Text.StripEnd | universal_notifications/backends/twilio/fields.py:78 | drops exactly the trailing whitespace |
| Text.Strip | universal_notifications/backends/twilio/fields.py:78 | the text between the leading and trailing whitespace, neither end being whitespace |
| Text.StripIdempotent | universal_notifications/backends/twilio/fields.py:78 | stripping twice is stripping once |
| MobileValidation.ParseUS | universal_notifications/backends/sms/abstract.py:32-36 | a parsed number is kept; text is parsed with region 'US' |
| MobileValidation.AbstractValidate | universal_notifications/backends/sms/abstract.py:20-37 | True when switched off; False exactly when the number does not parse; else the parsed number |
| MobileValidation.AbstractValidateTruthy | universal_notifications/backends/sms/abstract.py:20-37 | the verdict is truthy exactly when validation is off or the number parses |
| MobileValidation.ValidateMobile | universal_notifications/backends/twilio/utils.py:45-70 | off: valid with no lookup; unparseable: invalid with no lookup; else one lookup, and valid iff the carrier is voip or mobile |
| MobileValidation.EngineValidateMobile | universal_notifications/backends/sms/engines/twilio.py:137-160 | valid only when off or parseable, at most one lookup |
| MobileValidation.EngineAgreesWithHelper | universal_notifications/backends/sms/engines/twilio.py:137-160 | the engine method gives the same verdict and lookups as the utils helper |
| JsonField.ToPython | universal_notifications/backends/twilio/fields.py:28-44 | a non-string passes through; text that loads as JSON gives the loaded value, other text stays text; a prefixed value under compression is unpacked first or fails; the result is returned exactly when it meets json_type, else ValidationError |
| JsonField.GetDbPrepSave | universal_notifications/backends/twilio/fields.py:46-59 | wrong type is TypeError, unserialisable is ValueError; long text gets the zlib prefix and packing |
| JsonField.CompressedIffLong | universal_notifications/backends/twilio/fields.py:56-57 | a saved value starts with 'zlib;;' exactly when compression applied |
| JsonField.SaveLoadRoundTrip | universal_notifications/backends/twilio/fields.py:28-59 | loading what was saved gives the original value |
| JsonField.FormClean | universal_notifications/backends/twilio/fields.py:73-85 | an empty optional field is None; otherwise the value is stripped, empty stripped text in a required field is an error, and the stripped text is returned exactly when it parses as JSON |
| Apns.Be16 | universal_notifications/backends/push/apns.py:70-78 | a 16-bit field is two bytes |
| Apns.Be32 | universal_notifications/backends/push/apns.py:70-78 | a 32-bit field is four bytes |
| Apns.Be16RoundTrip | universal_notifications/backends/push/apns.py:70-78 | the big-endian 16-bit encoding reads back |
| Apns.Be32RoundTrip | universal_notifications/backends/push/apns.py:70-78 | the big-endian 32-bit encoding reads back |
| Apns.Unhexlify | universal_notifications/backends/push/apns.py:67 | a decoded token has half as many bytes as hex digits |
| Apns.UnhexlifyHexlify | universal_notifications/backends/push/apns.py:67 | every byte string is decoded from its hex rendering |
| Apns.Item | universal_notifications/backends/push/apns.py:74-78 | an item is its data plus a 3-byte prefix |
| Apns.Items | universal_notifications/backends/push/apns.py:69-78 | the five items have the length the frame_len field announces |
| Apns.PackFrame | universal_notifications/backends/push/apns.py:66-80 | a bad hex token fails; otherwise success exactly when every field fits its width, StructError when not; a frame is 5 bytes plus frame_len |
| Apns.ParseItemOfItem | universal_notifications/backends/push/apns.py:74-78 | reading an item written with its id gives back its data and the rest |
| Apns.ParseTailOfTail | universal_notifications/backends/push/apns.py:76-78 | identifier, expiration and priority read back |
| Apns.ParseItemsOfItems | universal_notifications/backends/push/apns.py:73-78 | the five items read back as the notification |
| Apns.PackThenParse | universal_notifications/backends/push/apns.py:66-80 | every packed frame reads back as token, payload, identifier, expiration, priority |
| Apns.DecodeReply | universal_notifications/backends/push/apns.py:90-96 | no data is no error; a reply not of 6 bytes is malformed; a command other than 8 fails the assertion; status 0 is no error; any other status is a server error with the status and identifier |
| Apns.DecodeEncodeReply | universal_notifications/backends/push/apns.py:92-96 | a service reply decodes to its status and identifier, status 0 being no error |
| Apns.DefaultArgs | universal_notifications/backends/push/apns.py:108-110 | the message as alert and all eleven other parameters at their defaults: no badge, sound, category or localisation, no content-available, no extra data, identifier 0, no expiration, priority 10 |
| Apns.Strs | universal_notifications/backends/push/apns.py:120-121 | the `loc-args` list keeps each argument, in order, as a JSON string |
| Apns.Alert | universal_notifications/backends/push/apns.py:114-124 | with localisation the alert is a dict holding exactly the keys given, each with its argument (body, action-loc-key, loc-key, loc-args); otherwise the plain alert |
| Apns.Aps | universal_notifications/backends/push/apns.py:123-138 | each aps key is present exactly when its argument is set and holds that argument; content-available is 1 |
| Apns.Payload | universal_notifications/backends/push/apns.py:138-139 | keys are "aps" and the extra keys; extra wins |
| Apns.ApnsSend | universal_notifications/backends/push/apns.py:142-151 | unserialisable fails; oversize fails exactly when longer than the maximum; otherwise the packed frame |
| Apns.SentFrameContents | universal_notifications/backends/push/apns.py:142-151 | a sent frame carries the encoded payload, the token, the identifier, the priority, and the given expiration or by default now + 30 days |
| Apns.PlainMessagePayload | universal_notifications/backends/push/apns.py:161-170 | a message sent with no extra data has the payload {"aps": {"alert": message}}, or {"aps": {}} without a message |
| Apns.PlainMessageFrame | universal_notifications/backends/push/apns.py:161-170 | its frame carries that payload, identifier 0, priority 10 and an expiry thirty days from now |
| Devices.SenderFor | universal_notifications/models.py:63-70 | gcm, ios and fcm each map to their sender, any other platform to none |
| Devices.SendMessage | universal_notifications/models.py:47-70 | inactive or unknown platform sends nothing; otherwise the platform's sender gets the device, the text and the data |
| Devices.OneSenderPerPlatform | universal_notifications/models.py:63-70 | two routed devices use the same sender exactly when their platforms are equal |
| Notifications.CheckCategory | universal_notifications/notifications.py:66-78 | passes exactly for "system" or a configured category; each error case exactly when its condition holds |
| Notifications.Query | universal_notifications/notifications.py:87-89 | the rows are exactly those whose user is among the receivers |
| Notifications.RemoveFirst | universal_notifications/notifications.py:91-97 | fails exactly when the user is absent, else removes one element |
| Notifications.FirstIndexOf | universal_notifications/notifications.py:93 | the first position whose receiver has the id, or the length when none has |
| Notifications.RemoveFirstAtFirstIndex | universal_notifications/notifications.py:91-97 | removal equals cutting out the first position holding the id (others keep their order), and ValueError exactly when no position holds it |
| Notifications.RemovalsStep | universal_notifications/notifications.py:91-97 | one step of the removal loop: skip, ValueError, or remove and continue |
| Notifications.Removals | universal_notifications/notifications.py:91-97 | the list only loses receivers; a ValueError names a user absent from the list; rows that unsubscribe no one change nothing |
| Notifications.Filtered | universal_notifications/notifications.py:80-97 | skipped classes keep the list; otherwise the list only loses receivers and an error names an absent user |
| Notifications.FilterOut | universal_notifications/notifications.py:80-97 | keeps exactly the receivers whose id is not blocked |
| Notifications.RemoveFirstDistinct | universal_notifications/notifications.py:93 | on distinct receivers, removing a present user is filtering it out |
| Notifications.FilterOutNone | universal_notifications/notifications.py:80-97 | filtering ids none of which is present changes nothing |
| Notifications.FilterOutCons | universal_notifications/notifications.py:80-97 | filtering a list decomposes at its head |
| Notifications.FilterOutTwice | universal_notifications/notifications.py:91-97 | two filterings are one filtering by the union |
| Notifications.FilterOutAgree | universal_notifications/notifications.py:80-97 | sets that agree on the list's ids filter alike |
| Notifications.FilterOutKeepsDistinct | universal_notifications/notifications.py:80-97 | filtering keeps ids distinct |
| Notifications.RowBlockedCons | universal_notifications/notifications.py:91-97 | the users a list of rows blocks decompose at its head |
| Notifications.LaterRowsOtherUsers | universal_notifications/notifications.py:89 | with one row per user, later rows are for other users |
| Notifications.RemovalsDistinct | universal_notifications/notifications.py:91-97 | with distinct receivers and one row per user, the loop raises nothing and removes exactly the blocked users |
| Notifications.QueryOneRowPerUser | universal_notifications/notifications.py:89 | the query keeps one row per user |
| Notifications.FilteredDistinct | universal_notifications/notifications.py:80-97 | filtering raises nothing and keeps exactly the unblocked receivers (all when skipped) |
| Notifications.DuplicateSurvives | universal_notifications/notifications.py:93 | a user listed twice keeps one entry |
| Notifications.SecondRowRaises | universal_notifications/notifications.py:91-97 | two rows for one user make the second removal raise ValueError |
| Notifications.DedupBy | universal_notifications/notifications.py:133 | the first element of each key: distinct keys, same key set, elements from the input |
| Notifications.Phones | universal_notifications/notifications.py:160 | exactly the receivers' phone numbers |
| Notifications.Numbers | universal_notifications/notifications.py:160 | one SMS target per number, in order |
| Notifications.Users | universal_notifications/notifications.py:186 | one user target per receiver, in order |
| Notifications.PhoneTargets | universal_notifications/notifications.py:159-160 | each receiver's number exactly once |
| Notifications.UsersFrom | universal_notifications/notifications.py:185-186 | user targets come from the receivers |
| Notifications.UsersDistinct | universal_notifications/notifications.py:185-186 | distinct receivers give distinct targets |
| Notifications.UsersCover | universal_notifications/notifications.py:185-186 | every receiver's user has a target |
| Notifications.UserTargets | universal_notifications/notifications.py:185-186 | each receiver's user exactly once, by primary key |
| Notifications.PrepareReceivers | universal_notifications/notifications.py:132-221 | SMS: the set of phone numbers; other channels: the set of users, each by primary key |
| Notifications.PrepareMessage | universal_notifications/notifications.py:135-230 | WebSocket: the message and the serialised item; SMS: the rendered template; e-mail: the item; push: the rendered template with empty data |
| Notifications.ContextOnlyReachesWebSocket | universal_notifications/notifications.py:162-230 | outside WebSocket the message ignores the context; e-mail carries the item; push data is empty |
| Notifications.FormatReceiver | universal_notifications/notifications.py:181-183 | the text is the first name, a space, the last name, " <", the e-mail address and ">", each at its position |
| Notifications.DevicePushes | universal_notifications/notifications.py:236-238 | at most one push per device |
| Notifications.DeliveriesFor | universal_notifications/notifications.py:144-238 | outside push one call, to the receiver (WebSocket, e-mail with the formatted address) or the number (SMS); push: at most one per device |
| Notifications.Deliveries | universal_notifications/notifications.py:144-238 | outside push, one call per prepared receiver |
| Notifications.DevicePushesReachActiveDevices | universal_notifications/notifications.py:235-238 | pushes go only to the user's active devices, with the message and no data |
| Notifications.OneCallPerTarget | universal_notifications/notifications.py:144-203 | outside push, one call per prepared receiver, in order |
| Notifications.PushAt | universal_notifications/notifications.py:235-238 | the k-th push call is to an active device of a prepared user |
| Notifications.PushesReachActiveDevices | universal_notifications/notifications.py:235-238 | every push call goes to an active device of a prepared user |
| Notifications.DeliveriesSnoc | universal_notifications/notifications.py:144-238 | the calls for a prefix grow by the calls for the next receiver |
| Notifications.DeliveriesPrefix | universal_notifications/notifications.py:144-238 | the calls for the first receivers come first among all the calls |
| Notifications.FirstRaise | universal_notifications/notifications.py:144-238 | the first call from position i on that raises, or the end |
| Notifications.Attempt | universal_notifications/notifications.py:144-238 | no exception exactly when every call returns, and then all calls are made; otherwise the calls up to and including the first that raises, and its exception |
| Notifications.AttemptAt | universal_notifications/notifications.py:144-238 | a call that raises after calls that all returned ends the attempt there |
| Notifications.AttemptAfter | universal_notifications/notifications.py:144-238 | after a batch of returning calls, the next batch either returns or raises where the whole sequence raises |
| Notifications.AttemptStep | universal_notifications/notifications.py:144-238 | one receiver of send_inner: its calls return and extend the made calls, or one raises and the whole send_inner stops there |
| Notifications.HistoryRows | universal_notifications/notifications.py:99-107 | one history row per prepared receiver with group, class, receiver, details and category |
| Notifications.HistoryReceiver | universal_notifications/notifications.py:141-142 | the user's e-mail address, or the phone number for SMS |
| Notifications.HistoryDetails | universal_notifications/notifications.py:148-241 | push details carry empty data; e-mail records the e-mail name; the WebSocket text is "message: " and the message, then ", serializer: " and the serializer, and nothing else |
| Notifications.HistoryRecordsSentText | universal_notifications/notifications.py:169-170 | SMS and push history record the text that was sent |
| Dispatch.ReceiverList.constructor | universal_notifications/notifications.py:48 | the shared list holds the given receivers |
| Dispatch.Notification.constructor | universal_notifications/notifications.py:46-49 | item, receivers and context are stored |
| Dispatch.Notification.VerifyReceiversSubscriptions | universal_notifications/notifications.py:80-97 | the shared list and the error are those of the filtering function |
| Dispatch.Notification.RemoveUnsubscribed | universal_notifications/notifications.py:91-97 | the loop over the queried rows leaves the shared list and the error the removal function gives |
| Dispatch.Notification.CallsFor | universal_notifications/notifications.py:144-238 | the calls for one prepared receiver |
| Dispatch.Store.MakeCalls | universal_notifications/notifications.py:144-238 | the calls are made in order until one raises; the outbox gains exactly the attempted calls |
| Dispatch.Notification.SendTo | universal_notifications/notifications.py:144-238 | the calls for one prepared receiver, until one raises |
| Dispatch.Notification.SendStep | universal_notifications/notifications.py:144-238 | one turn of send_inner: the calls return and extend the outbox, or one raises and the outbox holds what the whole attempt makes |
| Dispatch.Notification.SendInner | universal_notifications/notifications.py:144-238 | appends the calls for the prepared receivers up to and including the first that raises, and returns that exception; nothing else changes |
| Dispatch.Notification.SaveNotifications | universal_notifications/notifications.py:99-107 | appends the history rows; nothing else changes |
| Dispatch.Notification.Send | universal_notifications/notifications.py:109-123 | result, receiver list and store agree with the send function, a raising transport call included |
| Dispatch.Notification.RunChain | universal_notifications/notifications.py:116-122 | the chaining loop agrees with the chain function |
| Dispatch.ProcessChainedNotification | universal_notifications/tasks.py:7-26 | result, receiver list and store agree with the chained-send function |
| Dispatch.SendSpec | universal_notifications/notifications.py:109-123 | a category error or a filtering error is returned with nothing changed; the receiver list only loses receivers |
| Dispatch.Deliver | universal_notifications/notifications.py:112-122 | a raising transport call returns its exception with no history and no task; the list only loses receivers |
| Dispatch.ChainSpec | universal_notifications/notifications.py:116-122 | with only delayed entries the chain succeeds and keeps the list; the list only loses receivers |
| Dispatch.ProcessChainedSpec | universal_notifications/tasks.py:7-26 | a false condition changes nothing; with a transform the parent's list is kept; the list only loses receivers |
| Dispatch.CategoryErrorChangesNothing | universal_notifications/notifications.py:109-110 | a category error is returned and nothing changes |
| Dispatch.SendWithoutChaining | universal_notifications/notifications.py:109-123 | without chaining and with every transport call returning: result None, the filtered list, one history row per target, the calls, no task |
| Dispatch.TransportFailureAborts | universal_notifications/notifications.py:114 | the first raising call ends the send: its exception is returned, the calls up to it are made, no history and no task |
| Dispatch.NoTargetIsUnsubscribed | universal_notifications/notifications.py:80-97 | for receivers with distinct ids and one UnsubscribedUser row per user, no prepared target belongs to an unsubscribed user |
| Dispatch.DelayedChainOnlySchedules | universal_notifications/notifications.py:116-120 | positive delays only queue tasks, in chain order, with the parent's result |
| Dispatch.FalseConditionSkips | universal_notifications/tasks.py:21-23 | a false condition sends nothing |
| Dispatch.TransformFeedsChild | universal_notifications/tasks.py:17-18 | the child is sent with the transformed arguments, and the parent's list is untouched |
| Dispatch.PlainChainSendsUnchanged | universal_notifications/tasks.py:12-26 | without transform and condition the child is sent with the parent's arguments |
| Dispatch.SendAppends | universal_notifications/notifications.py:109-123 | a send only appends to history, calls and tasks |
| Dispatch.ChainAppends | universal_notifications/notifications.py:116-122 | the chain loop only appends |
| Dispatch.ProcessAppends | universal_notifications/tasks.py:7-26 | a chained send only appends |
| Subscriptions.TypeViewMeaning | universal_notifications/serializers.py:37-43 | each category shows whether it is absent from the stored list; the type flag whether "all" is present |
| Subscriptions.TypeLabelsMeaning | universal_notifications/serializers.py:44 | labels exist exactly when every key has one, and are the configured ones |
| Subscriptions.TypeEntry | universal_notifications/serializers.py:37-44 | one type's booleans and labels, or a KeyError |
| Subscriptions.TypeView | universal_notifications/serializers.py:37-43 | the type flag is shown, and otherwise only configured keys |
| Subscriptions.TypeLabels | universal_notifications/serializers.py:44 | no labels for an unconfigured type with keys; only configured keys are labelled |
| Subscriptions.ToRepresentation | universal_notifications/serializers.py:28-46 | fails exactly on a missing label; otherwise the flag, and for each configured type its view and labels |
| Subscriptions.Validate | universal_notifications/serializers.py:48-65 | each configured type gets its list: the unsubscriptions sent, or empty when the type was not sent |
| Subscriptions.CollectUnsubscriptions | universal_notifications/serializers.py:59-63 | the loop over one type's keys builds exactly the unsubscription list of that type |
| Subscriptions.UnsubscribedUserRecord.constructor | universal_notifications/models.py:239-242 | a new row is subscribed to everything |
| Subscriptions.UnsubscribedUserRecord.Update | universal_notifications/serializers.py:67-70 | the validated fields are set on the instance, the flag only when sent; nothing is saved |
| Subscriptions.UnsubscriptionsMeaning | universal_notifications/serializers.py:57-63 | a key is listed exactly when configured and sent false; "all" exactly when the type's flag was sent true |
| Subscriptions.Unsubscriptions | universal_notifications/serializers.py:57-63 | only configured keys and "all"; at most two entries per key, at least one per key when the type flag is sent true |
| Subscriptions.AllOncePerKey | universal_notifications/serializers.py:59-63 | "all" is appended once per configured key |
| Subscriptions.PutThenGet | universal_notifications/serializers.py:28-65 | the PUT's response, the representation of the updated (unsaved) instance, shows each category as sent and the type flag as sent |
| Subscriptions.OmittedTypeFullySubscribed | universal_notifications/serializers.py:56-57 | a type with nothing stored reads as fully subscribed |
| SmsModels.SavePhone | universal_notifications/models.py:84-86 | fails exactly when the number does not parse; stores its normal form, other fields kept |
| SmsModels.SaveReceiver | universal_notifications/models.py:125-128 | fails exactly when a number does not parse; stores both normal forms |
| SmsModels.SavedRowsFormatted | universal_notifications/models.py:84-128 | stored numbers are fixed points of normalisation |
| SmsModels.ResaveUnchanged | universal_notifications/models.py:84-128 | re-saving a stored row changes nothing |
| SmsModels.FormatFields | universal_notifications/models.py:91-98 | only "number" is normalised, and DoesNotExist when it does not parse |
| SmsModels.ServiceNumberNotNormalised | universal_notifications/models.py:92-98 | the service number passes through as written |
| SmsModels.MatchingFrom | universal_notifications/models.py:104-106 | exactly the matching indices, increasing |
| SmsModels.Get | universal_notifications/models.py:104-106 | not found iff no match; found is the unique match; multiple iff two matches |
| SmsModels.LeastUsed | universal_notifications/backends/twilio/tasks.py:117 | none iff empty; else the first phone of least use count |
| SmsModels.ReceiverLookupUnique | universal_notifications/models.py:110 | a lookup by number never finds several rows in a consistent database |
| SmsEngines.Param | universal_notifications/backends/sms/engines/twilio.py:74 | dict.get: the value exactly when the key is present |
| SmsEngines.ServiceNumberLeastUsed | universal_notifications/backends/sms/engines/twilio.py:27-33 | the number of a least used phone, whose count alone grows by one |
| SmsEngines.NoPoolNoNumber | universal_notifications/backends/sms/abstract.py:7-8 | other engines, or an empty pool, answer '' and change nothing |
| SmsEngines.ServiceNumberSpec | universal_notifications/backends/sms/engines/twilio.py:27-33 | only phones change, and only the Twilio engine changes them; a parse error changes nothing |
| SmsEngines.ServiceNumberKeepsConsistent | universal_notifications/backends/sms/engines/twilio.py:27-33 | allocation keeps the tables consistent |
| SmsEngines.PyStr | universal_notifications/backends/sms/engines/twilio.py:66 | "%s" of None is "None" |
| SmsEngines.MediaUrl | universal_notifications/backends/sms/engines/twilio.py:62-66 | no media, the URL itself, or MEDIA_URL + media_raw |
| SmsEngines.SendSpec | universal_notifications/backends/sms/engines/twilio.py:46-71 | fails exactly for the abstract engine; the message keeps its receiver; without a call it is unchanged and nothing escapes; only the Twilio engine lets a client exception escape |
| SmsEngines.AbstractCannotSend | universal_notifications/backends/sms/abstract.py:14-15 | the abstract engine raises NotImplementedError |
| SmsEngines.DisabledApiLeavesMessage | universal_notifications/backends/sms/engines/twilio.py:47-49 | API off: no call, message untouched, status on the engine |
| SmsEngines.NeverResent | universal_notifications/backends/sms/engines/twilio.py:51 | a message with a provider id is not sent again |
| SmsEngines.SendOutcome | universal_notifications/backends/sms/engines/twilio.py:51-71 | one call; sent with the provider id; failed with the error of a caught exception (any for Amazon SNS, a TwilioException for Twilio); any other Twilio client exception escapes |
| SmsEngines.SendCallContents | universal_notifications/backends/sms/engines/twilio.py:54-67 | Twilio: to, from, body ('.' when empty), media URL; SNS: number and text |
| SmsEngines.SaveRawSpec | universal_notifications/models.py:189-194 | writes or appends the row; a parse is queued exactly when the status is pending |
| SmsEngines.ProxyOnlyPublishes | universal_notifications/backends/sms/engines/twilio.py:35-41 | proxy mode only publishes the entry's number to the channel |
| SmsEngines.AddToQueueSpec | universal_notifications/backends/sms/engines/twilio.py:35-44 | only messages and calls change, at most one call is added, only the entry's message is rewritten; a failure leaves every table as it was (an escaped client exception after its call is recorded), and a send(None) failure changes nothing |
| SmsEngines.UncaughtClientErrorNotSaved | universal_notifications/backends/sms/engines/twilio.py:42-71 | a Twilio client exception other than TwilioException escapes add_to_queue after the call is made; the message row is not saved |
| SmsEngines.ResaveDoesNotQueue | universal_notifications/models.py:228-236 | re-saving an entry makes no call and touches no message |
| SmsEngines.FirstSaveQueues | universal_notifications/models.py:228-236 | a new entry is appended normalised, then add_to_queue runs |
| SmsEngines.SavePendingSpec | universal_notifications/models.py:228-236 | an unparseable number changes nothing; the saved entry holds the normalised number; only the entry's message may change |
| SmsEngines.SendGuard | universal_notifications/models.py:159-165 | only calls change; a message neither pending nor queued makes no call |
| SmsEngines.PhoneSentSendSpec | universal_notifications/models.py:159-165 | at most one call is added; it fails exactly for a sendable message under the abstract engine or when a client exception escapes the send |
| SmsEngines.GetOrCreateReceiver | universal_notifications/backends/twilio/tasks.py:58-59 | a valid receiver index; the state is unchanged or grows by one receiver |
| SmsEngines.FindReceiver | universal_notifications/backends/twilio/tasks.py:58-59 | a found row holds exactly the posted number and service number; a missing number finds nothing |
| SmsEngines.KnownNumberMismatchFails | universal_notifications/backends/twilio/tasks.py:58-59 | a known number posted in another spelling, or under another service number, raises IntegrityError and changes nothing |
| SmsEngines.ExactMatchFound | universal_notifications/backends/twilio/tasks.py:58-59 | a sender stored with exactly the posted numbers is found and nothing is created |
| SmsEngines.ClassifySpec | universal_notifications/backends/twilio/tasks.py:41-102 | no raw row is added |
| SmsEngines.ForeignAccountRejected | universal_notifications/backends/twilio/tasks.py:42-46 | another account's payload is rejected, admins mailed, nothing else |
| SmsEngines.DuplicateAddsNothing | universal_notifications/backends/twilio/tasks.py:60-63 | a duplicate SmsMessageSid adds no message |
| SmsEngines.ReceiveSmsSpec | universal_notifications/backends/twilio/tasks.py:57-87 | only receivers and received messages change, at most one receiver is added, a completed receipt appends exactly one message |
| SmsEngines.StoreReceivedSpec | universal_notifications/backends/twilio/tasks.py:60-87 | only the sender's row may change; a completed receipt appends one message of that sender and raw row; otherwise nothing changes |
| SmsEngines.ReceivedMessage | universal_notifications/backends/twilio/tasks.py:57-87 | one new message with text, sid and raw; stop and start words, matched on the Unicode-lower-cased text, set the opt-out and blocked flags |
| SmsEngines.StatusCallbackSetsStatus | universal_notifications/backends/twilio/tasks.py:88-102 | the matched message takes the callback status, error fields untouched |
| SmsEngines.UnknownSidChangesNothing | universal_notifications/backends/twilio/tasks.py:89-92 | an unknown SmsSid changes nothing |
| SmsEngines.StatusCallbackSpec | universal_notifications/backends/twilio/tasks.py:88-102 | only messages and admin mails change; an unknown sid changes nothing; a completed callback sets the status of the message with that sid |
| SmsEngines.ClassifyKeepsConsistent | universal_notifications/backends/twilio/tasks.py:41-102 | classification keeps the tables consistent |
| SmsEngines.GetOrCreateKeepsConsistent | universal_notifications/backends/twilio/tasks.py:58-59 | get_or_create keeps the tables consistent |
| SmsEngines.BlockKeepsConsistent | universal_notifications/backends/twilio/tasks.py:77-87 | blocking or unblocking keeps the tables consistent |
| SmsEngines.AppendReceivedKeepsConsistent | universal_notifications/backends/twilio/tasks.py:67-82 | storing a received message keeps the tables consistent |
| SmsEngines.ReceiveKeepsConsistent | universal_notifications/backends/twilio/tasks.py:57-87 | receiving an SMS keeps the tables consistent |
| SmsEngines.StoreReceivedKeepsConsistent | universal_notifications/backends/twilio/tasks.py:60-87 | storing the message and the flags keeps the tables consistent |
| SmsEngines.SaveRawKeepsConsistent | universal_notifications/models.py:189-194 | saving a raw row keeps the tables consistent |
| SmsEngines.AddToQueueKeepsConsistent | universal_notifications/backends/sms/engines/twilio.py:35-44 | add_to_queue keeps the tables consistent |
| SmsEngines.SavePendingKeepsConsistent | universal_notifications/models.py:228-236 | saving a queue entry keeps the tables consistent |
| SmsEngines.PhoneSentSendKeepsConsistent | universal_notifications/models.py:159-165 | PhoneSent.send keeps the tables consistent |
| SmsEngines.Database.SaveRaw | universal_notifications/models.py:189-194 | the new tables and queue are those of the save function |
| SmsEngines.Engine.GetServiceNumber | universal_notifications/backends/sms/engines/twilio.py:27-33 | agrees with the allocation function |
| SmsEngines.Engine.Send | universal_notifications/backends/sms/engines/twilio.py:46-71 | returns the changed message or the escaped client exception, records the call, sets the engine status as the send function says |
| SmsEngines.Engine.AddToQueue | universal_notifications/backends/sms/engines/twilio.py:35-44 | agrees with the add_to_queue function |
| SmsEngines.Engine.ParseReceived | universal_notifications/backends/sms/engines/twilio.py:73-135 | Twilio classifies with error fields stored; other engines raise NotImplementedError |
| SmsEngines.SavePendingMessage | universal_notifications/models.py:228-236 | agrees with the entry-save function |
| SmsEngines.SendPhoneSent | universal_notifications/models.py:159-165 | agrees with the PhoneSent.send function |
| SmsEngines.GetOrCreateReceiverIn | universal_notifications/backends/twilio/tasks.py:58-59 | agrees with the get_or_create function |
| SmsEngines.ReceiveSms | universal_notifications/backends/twilio/tasks.py:57-87 | agrees with the received-SMS function |
| SmsEngines.StoreReceived | universal_notifications/backends/twilio/tasks.py:60-87 | agrees with the function for a receipt whose sender row is known |
| SmsEngines.StatusCallback | universal_notifications/backends/twilio/tasks.py:88-102 | agrees with the status-callback function |
| SmsEngines.Classify | universal_notifications/backends/twilio/tasks.py:41-102 | agrees with the classification function |
| SmsTasks.CrashName | universal_notifications/backends/twilio/tasks.py:108 | the exception text stored on failure is never empty |
| SmsTasks.ParseTaskSpec | universal_notifications/backends/twilio/tasks.py:34-109 | the raw table keeps its size; phones, queue entries, calls and send jobs are untouched |
| SmsTasks.OnlyPendingRowsParsed | universal_notifications/backends/twilio/tasks.py:36-39 | a missing or non-pending row changes nothing |
| SmsTasks.ParseTaskFinalStatus | universal_notifications/backends/twilio/tasks.py:34-109 | rejected, pass, fail (with the exception) or still pending, each exactly for its outcome; payload and other rows kept |
| SmsTasks.ClassifyLeavesOtherRaws | universal_notifications/backends/twilio/tasks.py:41-102 | classification writes only its own raw row, and only to reject it |
| SmsTasks.ParseTaskQueuesNothing | universal_notifications/backends/twilio/tasks.py:104-109 | the parse job queues no further parse |
| SmsTasks.ParseTaskKeepsConsistent | universal_notifications/backends/twilio/tasks.py:34-109 | the Celery job keeps the tables consistent |
| SmsTasks.FindReceiverByNumber | universal_notifications/models.py:94-97 | a number that does not parse finds nothing; a found row holds the normalised number, and no other row does |
| SmsTasks.CreateSentSpec | universal_notifications/backends/twilio/tasks.py:124-145 | exactly one message is added, for the receiver, failed when the receiver is blocked; earlier messages and receivers unchanged |
| SmsTasks.SendMessageTaskSpec | universal_notifications/backends/twilio/tasks.py:112-145 | messages and receivers only grow, by at most one message; a known receiver always gets its message |
| SmsTasks.ParseReceivedMessageTask | universal_notifications/backends/twilio/tasks.py:34-109 | agrees with the job's function and keeps the tables consistent |
| SmsTasks.AllocateReceiverSpec | universal_notifications/backends/twilio/tasks.py:116-122 | keys stay valid; a created receiver's index is valid; messages, queue and calls untouched |
| SmsTasks.BlockedReceiverFails | universal_notifications/backends/twilio/tasks.py:129-132 | a blocked receiver gets one failed message and nothing else |
| SmsTasks.WithoutProxyStaysPending | universal_notifications/backends/twilio/tasks.py:134-137 | without proxy one pending message with the cleaned text |
| SmsTasks.ProxyQueuesMessage | universal_notifications/backends/twilio/tasks.py:134-145 | proxy: a queued message, one queue entry for the service number, one publish |
| SmsTasks.NewNumberGetsLeastUsedPhone | universal_notifications/backends/twilio/tasks.py:116-122 | a new receiver on a least used phone, whose count alone grows by one |
| SmsTasks.UnparseableNumberNotFound | universal_notifications/models.py:94-97 | a number that does not parse is not found |
| SmsTasks.NewNumberNotFound | universal_notifications/backends/twilio/tasks.py:114-116 | a number no receiver holds is not found |
| SmsTasks.NoPoolInTestingCreatesNothing | universal_notifications/backends/twilio/tasks.py:117-119 | with no phone under TESTING nothing is created |
| SmsTasks.CreateSentKeepsConsistent | universal_notifications/backends/twilio/tasks.py:124-145 | creating the message keeps the tables consistent |
| SmsTasks.AllocateKeepsConsistent | universal_notifications/backends/twilio/tasks.py:116-122 | creating the receiver keeps the tables consistent |
| SmsTasks.SendTaskKeepsConsistent | universal_notifications/backends/twilio/tasks.py:112-145 | the Celery job keeps the tables consistent |
| SmsTasks.CreateSent | universal_notifications/backends/twilio/tasks.py:124-145 | agrees with the message-creation function |
| SmsTasks.AllocateReceiver | universal_notifications/backends/twilio/tasks.py:116-122 | agrees with the allocation function |
| SmsTasks.SendMessageTask | universal_notifications/backends/twilio/tasks.py:112-145 | agrees with the job's function and keeps the tables consistent |
| SmsTasks.SendSms | universal_notifications/backends/sms/utils.py:25-43 | async: one queued task and nothing else; otherwise send_message_task runs now |
| TwilioApi.CleanPayload | universal_notifications/backends/twilio/api.py:27-30 | same keys, Body without emoji, other fields kept |
| TwilioApi.CleanPayloadIdempotent | universal_notifications/backends/twilio/api.py:27-30 | cleaning twice is cleaning once |
| TwilioApi.PostResponse | universal_notifications/backends/twilio/api.py:33-43 | TwiML exactly for an inbound ringing call, the configured or default text |
| TwilioApi.PostSpec | universal_notifications/backends/twilio/api.py:23-43 | one pending raw row with the posted keys is appended and its parse queued |
| TwilioApi.PostStoresOneRaw | universal_notifications/backends/twilio/api.py:31 | one pending raw row with the cleaned payload, one queued parse, nothing else |
| TwilioApi.StoredBodyHasNoEmoji | universal_notifications/backends/twilio/api.py:26-30 | the stored Body has no emoji and equals the posted one iff that had none |
| TwilioApi.ResponseIgnoresCleaning | universal_notifications/backends/twilio/api.py:27-34 | cleaning does not change the response |
| TwilioApi.Post | universal_notifications/backends/twilio/api.py:23-43 | agrees with the endpoint function and keeps the tables consistent |

## Left out

- I/O and external services are not modelled:
  - the Twilio REST and lookups clients, boto3 SNS, the Redis publish, `mail_admins` and sockets;
  - GCM/FCM senders (`gcm.py`, `fcm.py` are not part of this model);
  - e-mail sending and WebSocket publish.
  
  The model records each call made. The SMS providers' answers (an id, or an exception and
  whether it is a TwilioException), and the exception a notification transport call raises, come
  from oracles.
- Template rendering, `json.dumps`/`loads`, zlib/base64, `phonenumbers` parsing and formatting, and
  `time.time()` are parameters. Their laws are stated as predicates that the lemmas require.
- Python sets (`prepare_receivers`) have no defined order; the model uses first-occurrence order.
- The user-type mapping and `get_mapped_user_notifications_types_and_categories` are inputs (the
  configuration handed to the serializer).
- The serializer's request values are modelled as booleans. A notification type named `labels` or
  `unsubscribed_from_all` would collide in the representation; such collisions are not modelled.
- `UnsubscribedUser.objects.filter(account__in=...)` names a field the model does not have and
  raises FieldError as written. It is modelled as the intended lookup by the receiver's user id,
  and `self.receivers.remove(u.account)` as removal of the receiver with that id.
- The imports of `parse_received_message_task` and `send_message_task` from
  `universal_notifications.tasks` fail as written. They are modelled as the Twilio tasks of
  `backends/twilio/tasks.py`.
- Chains are modelled as finite trees of notification classes. A class whose `chaining` leads back
  to itself (assigned after the class, as a periodic reminder would be) cannot be represented.
- A chain transform is taken to produce a fresh list. Without a transform, the child shares the
  parent's list.
- The proxy dispatcher (`run_twilio_proxy`, `check_twilio_proxy`), the `parse_pending_sms`
  command, the admin, the URL configuration, `docs.py` and the e-mail views are not part of this
  model.
- SmsEngines.Engine.Send: the PhoneSent object changed in memory is returned as a value, not
  updated in place. Callers that save it (add_to_queue) store the returned value.
- SmsEngines.Engine.constructor: the engine is a fresh object for each use, as `SMS()` builds it.
  The status the engine writes on itself is not persisted.
- Stored rows are re-saved as a plain update. `SmsModels.ResaveUnchanged` shows that normalising
  an already stored row changes nothing.
- SmsTasks.CrashName: the traceback stored on failure is reduced to the exception's name.
- SmsEngines.StatusCallbackSpec: the watch list of error codes is a set of strings. The default
  watch list holds integers, which never equal the string values of a webhook payload; a
  configuration must supply the codes as strings to match.
- Django's `get_or_create` retry on a concurrent insert is not modelled (no concurrency).
- A status callback without `SmsStatus` raises IntegrityError when saved. The model returns that
  error.
- Webhook payloads that are not dictionaries are not modelled (`TwilioApi.Post` takes a map).
- SmsTasks.ProxyQueuesMessage: stated for the Twilio engine only. With another engine in proxy
  mode, add_to_queue sends at once (SNS) or raises (abstract); that path is covered by
  `SmsTasks.CreateSentKeepsConsistent` and the engine lemmas.
- MobileValidation.EngineValidateMobile: its own contract is weaker than the helper's.
  `MobileValidation.EngineAgreesWithHelper` gives the full verdict.
- SmsEngines.ClassifySpec: its own contract only bounds the raw table; its meaning is stated by
  the classification lemmas listed above.
- Integer widths of database columns and `CharField` length limits are not modelled.
- Dispatch.NoTargetIsUnsubscribed: stated only for receivers with distinct ids and one
  UnsubscribedUser row per user. A user listed twice keeps one entry
  (`Notifications.DuplicateSurvives`), so that user is still sent to. Two rows for one user make
  the second removal raise (`Notifications.SecondRowRaises`).
- SmsModels.LeastUsed: among phones of equal use count the first in table order is taken; the
  source leaves that choice to the database's ordering.
- The Store and Database constructors only build the empty tables the proofs start from; the
  source has no counterpart.
- `JSONFormField.clean` follows Django's `CharField` with `strip=True`, the default since Django
  1.9; earlier versions do not strip.
- Text.IsSpace: the whitespace set is Python 3's (Unicode 6.3 and later); under Python 2.7, U+180E
  is whitespace too and would also be stripped.
