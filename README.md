# cbrs message model

`cbrs` is a Rust client for the Coinbase Exchange WebSocket feed. Its library
(`src/lib.rs`) declares the messages of the *full* channel and of the
subscription handshake as Rust types. Serde's derives then read these types from
JSON and write them back. This project restates those derived readers and
writers as Dafny functions over a parsed JSON tree, and proves what they do.

- `wrappers.dfy`: `Option` and `Result`.
- `json_tree.dfy`: the JSON value tree. It has two member operations:
  - `Find` looks a key up among an object's members: absent, present once, or
    repeated.
  - `Without` drops the members under some keys.
- `rfc3339.dfy`: the `date-time` grammar of RFC 3339 (sections 5.6 and 5.7), used
  as the test a timestamp must pass.
- `serde_rules.dfy`: the rules the derived code follows.
  - A struct is read from a JSON object by key. Unknown keys are ignored, and a
    repeated known key is an error. A missing `Option` field is `None`, and so is
    `null`.
  - A struct may also be read from a JSON array by position, and then the array
    length must match exactly.
  - A `u64` is accepted only from an integer in 0 .. 2^64-1.
  - A `Vec` is read element by element.
- `channels.dfy`: channel descriptors, and the `Subscribe`, `Subscription` and
  `Unsubscribe` messages.
  - A descriptor is untagged: a JSON string is a bare channel name. Otherwise
    the value is read as the `{name, product_ids}` struct, either as an object
    by key or as a two-element array by position.
- `orders.dfy`: `Received`, `Open`, `Done`, `Match`, `Change` and `Activate`.
  - `Received` flattens its order type into itself. `order_type` names
    `market` (with `funds`) or `limit` (with `size` and `price`). These keys sit
    beside the message's own fields.
- `messages.dfy`: the message enum, tagged internally by its `type` member.
  - Decoding reads the tag and then the named variant from the other members.
  - Encoding writes the tag first and then the variant's fields in declaration
    order.
- `samples.dfy`: three concrete messages.
  - The received message in the crate's unit test, decoded.
  - The activate message documented on `Activate`, decoded. Its `order_id` is
    not a field of `Activate` and is ignored.
  - The subscription the `read-full` binary prints, encoded.

Prices, sizes and funds are strings, as in the code. Timestamps are kept as the
RFC 3339 text they were read from.

The documented feed format differs from the code in places. Where it does, the
model follows the code:

- The subscription acknowledgement's tag is `subscription`, not `subscriptions`.
- The envelope has no `level3`, `error` or bare-array arm.
- `Done.price` is mandatory.
- Prices and sizes are plain strings, not decimals.
- An empty `client-oid` string decodes to `Some("")`, not to no value.
- A `None` field is written as `null`, not omitted.
- The source's enum is spelled `CBMesasge`; the model calls it `Message`. The
  spelling survives only in the expected-type text of the
  not-an-object-or-array error.

## Model

| member | source | states |
|---|---|---|
| Serde.DecodeU64 | src/lib.rs:63 | a `u64` field decodes exactly when its value is a JSON integer in 0 .. 2^64-1, and then to that integer; a negative integer the reader keeps exact is out of range |
| Serde.DecodeDateTime | src/lib.rs:61 | a timestamp decodes exactly when its value is a string that is an RFC 3339 date-time, and then to that text |
| Serde.DecodeEach | src/lib.rs:7 | a `Vec` decodes exactly when every element does, to a sequence of the same length whose i-th entry is the i-th element decoded |
| Serde.EachRoundTrip | src/lib.rs:7 | writing each element and reading the array back gives the elements, whenever that holds for each element |
| Serde.StringsRoundTrip | src/lib.rs:7 | a `Vec<String>` written as an array of strings reads back as itself |
| Serde.OptionalStringFieldRule | src/lib.rs:68-69 | an `Option<String>` field is `None` when its key is missing or its value is `null`, is `Some(s)` for a string `s`, and otherwise fails |
| Serde.U64FieldRule | src/lib.rs:63 | a `u64` read by key is the integer its key finds |
| Serde.SameField | src/lib.rs:59-70 | fields are read by key alone: two objects whose members agree under a key give the same field under it, for every field type (raw, string, bool, `u64`, timestamp, string array, optional string) |
| Channels.StringIsNameOnly | src/lib.rs:10-15 | a JSON string is always read as a bare channel name, and a bare name is read only from a string |
| Channels.ObjectIsDetailed | src/lib.rs:4-15 | an object whose `name` is a string and whose `product_ids` is a string array is a detailed descriptor, whatever else it holds |
| Channels.ChannelRoundTrip | src/lib.rs:10-15 | a descriptor is written in the shape it was built in (a string for a name, an object for a detailed one) and reads back as itself |
| Channels.ChannelsRoundTrip | src/lib.rs:20 | a list of descriptors of mixed shapes reads back as itself |
| Channels.SubscribeRoundTrip | src/lib.rs:17-21 | a `Subscribe` written as its two members reads back as itself |
| Channels.SubscriptionRoundTrip | src/lib.rs:23-26 | a `Subscription` written as its member reads back as itself |
| Channels.UnsubscribeRoundTrip | src/lib.rs:28-31 | an `Unsubscribe` written as its member reads back as itself |
| Channels.SubscribeReadsItsKeys | src/lib.rs:17-21 | a `Subscribe` depends only on the members under `product_ids` and `channels`; any other member is ignored |
| Channels.SubscriptionReadsItsKeys | src/lib.rs:23-26 | a `Subscription` depends only on the member under `channels`; any other member is ignored |
| Channels.UnsubscribeReadsItsKeys | src/lib.rs:28-31 | an `Unsubscribe` depends only on the member under `channels`; any other member is ignored |
| Orders.OrderTypeMarket | src/lib.rs:33-37 | with `order_type` "market", the order type decodes exactly when `funds` is a string |
| Orders.OrderTypeLimit | src/lib.rs:33-39 | with `order_type` "limit", the order type decodes exactly when `size` and `price` are both strings |
| Orders.OrderTypeUnknown | src/lib.rs:33-40 | any other `order_type` name is an unknown variant, and a missing `order_type` is a missing field |
| Orders.OrderTypeDecoded | src/lib.rs:33-40 | a decoded order type is market (from "market" or variant index 0) with the `funds` string found, or limit (from "limit" or index 1) with the `size` and `price` strings found |
| Orders.OrderTypeFrom | src/lib.rs:33-40 | members holding an order type's name and fields decode to that order type |
| Orders.OrderTypeReadsItsKeys | src/lib.rs:33-40 | the order type depends only on the members under `order_type`, `funds`, `size` and `price` |
| Orders.OrderTypeIsFlat | src/lib.rs:65-66 | leaving out `Received`'s own fields does not change the flattened order type: it is read from the same object as the rest |
| Orders.ReceivedRoundTrip | src/lib.rs:59-70 | a `Received`, written with its order type's members flattened in, reads back as itself |
| Orders.ReceivedReadsItsKeys | src/lib.rs:59-70 | a `Received` depends only on the members under its five plain keys, on its `client-oid` field and on its flattened order type |
| Orders.ClientOidAbsentOrNull | src/lib.rs:58-69 | a received object decodes the same with `client-oid` missing or `null`, and then has no client order id |
| Orders.ClientOidString | src/lib.rs:68-69 | a string `client-oid` decodes to `Some` of that string |
| Orders.OpenRoundTrip | src/lib.rs:86-95 | an `Open` written as its members reads back as itself |
| Orders.DoneRoundTrip | src/lib.rs:111-122 | a `Done` written as its members reads back as itself |
| Orders.CancelReasonOptional | src/lib.rs:119 | a `Done` also reads back with its `null` members left out: a missing `cancel_reason` is no value |
| Orders.DoneMandatoryFields | src/lib.rs:116-121 | a `Done` whose `price` or `remaining_size` is missing or `null` fails |
| Orders.MatchRoundTrip | src/lib.rs:139-150 | a `Match` written as its members reads back as itself |
| Orders.ChangeRoundTrip | src/lib.rs:183-197 | a `Change` written as its members reads back as itself |
| Orders.ChangeFieldsOptional | src/lib.rs:191-196 | a `Change` whose six optional fields are any mix of values and no value reads back with every no-value member left out, so each optional key may be missing independently of the others |
| Orders.ActivateRoundTrip | src/lib.rs:216-228 | an `Activate` written as its members reads back as itself; its `timestamp` stays text and `private` a boolean |
| Orders.OpenReadsItsKeys | src/lib.rs:86-95 | an `Open` depends only on the members under its seven keys; any other member is ignored |
| Orders.DoneReadsItsKeys | src/lib.rs:111-122 | a `Done` depends only on the members under its nine keys; any other member is ignored |
| Orders.MatchReadsItsKeys | src/lib.rs:139-150 | a `Match` depends only on the members under its nine keys; any other member is ignored |
| Orders.ChangeReadsItsKeys | src/lib.rs:183-197 | a `Change` depends only on the members under its twelve keys; any other member is ignored |
| Orders.ActivateReadsItsKeys | src/lib.rs:216-228 | an `Activate` depends only on the members under its ten keys; any other member is ignored |
| Orders.ReceivedSequence | src/lib.rs:63 | a decoded received message's `sequence` is the JSON integer its key found |
| Orders.OpenSequence | src/lib.rs:90 | a decoded open message's `sequence` is the JSON integer its key found |
| Orders.DoneSequence | src/lib.rs:115 | a decoded done message's `sequence` is the JSON integer its key found |
| Orders.MatchSequence | src/lib.rs:141-142 | a decoded match's `trade_id` and `sequence` are the JSON integers their keys found |
| Orders.ChangeSequence | src/lib.rs:187 | a decoded change's `sequence` is the JSON integer its key found |
| Messages.DecodeArm | src/lib.rs:230-251 | a variant decoded under a tag is the variant that tag names, and a name outside the nine is an unknown variant |
| Messages.Envelope | src/lib.rs:230-232 | an object holding the tag followed by members without `type` is read as the variant the tag names, from those members |
| Messages.ArmRoundTrip | src/lib.rs:230-251 | each variant's fields exclude `type` and decode under the variant's tag back to the variant |
| Messages.MessageRoundTrip | src/lib.rs:230-251 | every message is written as an object with its tag first, and reads back as itself |
| Messages.DecodedHasItsTag | src/lib.rs:230-232 | a decoded message came from an object whose `type` is its tag as a string, or from an array whose first element is; nothing else decodes |
| Messages.BadTags | src/lib.rs:230-251 | a missing `type` is a missing field, a repeated one a duplicate, a non-string one an invalid type, an unknown name an unknown variant; an empty array is a missing `type` |
| Messages.ReceivedOnlyFromObject | src/lib.rs:59-66 | a received message, which flattens a field, is never decoded from an array |
| Messages.ReceivedMessageSequence | src/lib.rs:63 | in a received message, the decoded `sequence` is the integer under `sequence` in the object |
| Messages.OpenMessageSequence | src/lib.rs:90 | in an open message, the decoded `sequence` is the integer under `sequence` in the object |
| Messages.DoneMessageSequence | src/lib.rs:115 | in a done message, the decoded `sequence` is the integer under `sequence` in the object |
| Messages.MatchMessageSequence | src/lib.rs:141-142 | in a match message, the decoded `trade_id` and `sequence` are the integers under those keys in the object |
| Messages.ChangeMessageSequence | src/lib.rs:187 | in a change message, the decoded `sequence` is the integer under `sequence` in the object |
| SampleTimestamp.SampleTimeIsDateTime | src/lib.rs:261 | the unit test's timestamp `2014-11-07T08:19:27.028459Z` is an RFC 3339 date-time |
| Samples.ReceivedSampleDecodes | src/lib.rs:257-284 | the unit test's received message decodes to a limit order of 1.34 at 502.1 whose client order id is `d50ec974-76a2-454b-66f135b1ea8c` |
| Samples.ActivateSampleFieldsDecode | src/lib.rs:216-228 | members holding the documented activation's ten field values decode to it, whatever other members they hold |
| Samples.ActivateSampleDecodes | src/lib.rs:201-214 | the documented activate message, which also carries an `order_id` that `Activate` lacks, decodes to the activation it shows |
| Samples.FeedSubscriptionEncodes | src/bin/read-full.rs:8-20 | the subscription the binary prints is written with the tag first, then `product_ids`, then `channels`, each descriptor in the shape it was built in |

## Left out

- JSON text. The model starts from a parsed JSON tree. Lexing, escapes, whitespace and serde_json's printing (including `to_string_pretty`) are not modelled.
- Non-integer numbers are an opaque `JFloat` that no field accepts. The JSON reader keeps an integer exact only in -2^63 .. 2^64-1; one outside that range, at either end, is such a floating-point number. It gives the wrong-type error rather than the out-of-range one.
- Timestamps. chrono's parsing into `DateTime<Utc>` is replaced by the RFC 3339 grammar. chrono accepts some further spellings, which are not modelled.
- chrono's normalisation of an offset to UTC is not modelled either, nor its rewriting of the fraction when it prints a timestamp. Encoding writes the text that was read.
- Messages.DecodeMessage: when a message has several faults, the model reports one of the right kind, but not necessarily the one serde meets first. Fields are checked in declaration order, not in the order they appear in the input. Error messages are reduced to their kinds.
- Messages.MessageRoundTrip: the round trip is stated for the object form only, because the encoder writes nothing else. The positional array form is decoded but not re-encoded.
- The derives that add no behaviour on JSON (`Debug`, `Clone`, `Default`) are not modelled.
- The feed's `level3` schema frames, `error` messages and bare-array frames have no arm in the code, so none in the model.
- Exact decimals are not modelled: the code keeps prices and sizes as strings.
- The `read-full` binaries and example (WebSocket connection, printing), `build.rs` and the generated FIX 4.2 Go files are not part of this model.
