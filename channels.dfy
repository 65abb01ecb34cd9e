/** The subscription control messages: which channels a client subscribes to,
    and the feed's acknowledgements of them. */
module Channels {
  import opened Wrappers
  import opened JsonTree
  import opened Serde

  datatype DetailedChannelSubscribe = DetailedChannelSubscribe(name: string, productIds: seq<string>)

  /** A channel named bare, or named with the products it is restricted to. */
  datatype ChannelSubscribe =
    | NameOnly(channel: string)
    | Detailed(detail: DetailedChannelSubscribe)

  datatype Subscribe = Subscribe(productIds: seq<string>, channels: seq<ChannelSubscribe>)

  datatype Subscription = Subscription(channels: seq<ChannelSubscribe>)

  datatype Unsubscribe = Unsubscribe(channels: seq<ChannelSubscribe>)

  // ---------------------------------------------------------------- decoding

  function DecodeDetailed(j: Json): Decoded<DetailedChannelSubscribe> {
    var src :- StructFields(j);
    var name :- StringField(src, 0, "name");
    var productIds :- StringsField(src, 1, "product_ids");
    var end :- NoMoreFields(src, 2);
    Ok(DetailedChannelSubscribe(name, productIds))
  }

  /** The descriptor carries no tag: the variants are tried in the order they
      are declared, and when none fits the error says only that. */
  function DecodeChannel(j: Json): Decoded<ChannelSubscribe> {
    match DecodeString(j)
    case Ok(s) => Ok(NameOnly(s))
    case Err(_) =>
      match DecodeDetailed(j)
      case Ok(d) => Ok(Detailed(d))
      case Err(_) => Err(NoMatchingVariant("ChannelSubscribe"))
  }

  function DecodeChannels(j: Json): Decoded<seq<ChannelSubscribe>> {
    if j.JArr? then DecodeEach(j.items, DecodeChannel) else Err(InvalidType("a sequence"))
  }

  function DecodeSubscribe(src: FieldSource): Decoded<Subscribe> {
    var productIds :- StringsField(src, 0, "product_ids");
    var cj :- Field(src, 1, "channels");
    var channels :- DecodeChannels(cj);
    var end :- NoMoreFields(src, 2);
    Ok(Subscribe(productIds, channels))
  }

  function DecodeSubscription(src: FieldSource): Decoded<Subscription> {
    var cj :- Field(src, 0, "channels");
    var channels :- DecodeChannels(cj);
    var end :- NoMoreFields(src, 1);
    Ok(Subscription(channels))
  }

  function DecodeUnsubscribe(src: FieldSource): Decoded<Unsubscribe> {
    var cj :- Field(src, 0, "channels");
    var channels :- DecodeChannels(cj);
    var end :- NoMoreFields(src, 1);
    Ok(Unsubscribe(channels))
  }

  // ---------------------------------------------------------------- encoding

  /** A descriptor is written in the shape it was built in. */
  function ChannelJson(c: ChannelSubscribe): Json {
    match c
    case NameOnly(s) => JStr(s)
    case Detailed(d) => JObj([("name", JStr(d.name)), ("product_ids", StringsJson(d.productIds))])
  }

  function ChannelsJson(cs: seq<ChannelSubscribe>): Json {
    JArr(EncodeEach(cs, ChannelJson))
  }

  /** The keys of each message's fields, in declaration order. */
  const SubscribeKeys: seq<string> := ["product_ids", "channels"]
  const SubscriptionKeys: seq<string> := ["channels"]
  const UnsubscribeKeys: seq<string> := ["channels"]

  function SubscribeValues(s: Subscribe): seq<Json> {
    [StringsJson(s.productIds), ChannelsJson(s.channels)]
  }

  function SubscribeMembers(s: Subscribe): seq<Member> {
    Zip(SubscribeKeys, SubscribeValues(s))
  }

  function SubscriptionValues(s: Subscription): seq<Json> {
    [ChannelsJson(s.channels)]
  }

  function SubscriptionMembers(s: Subscription): seq<Member> {
    Zip(SubscriptionKeys, SubscriptionValues(s))
  }

  function UnsubscribeValues(u: Unsubscribe): seq<Json> {
    [ChannelsJson(u.channels)]
  }

  function UnsubscribeMembers(u: Unsubscribe): seq<Member> {
    Zip(UnsubscribeKeys, UnsubscribeValues(u))
  }

  // ------------------------------------------------------------ properties

  /** A JSON string is always a bare channel name, and only a string is. */
  lemma StringIsNameOnly(j: Json)
    ensures j.JStr? ==> DecodeChannel(j) == Ok(NameOnly(j.s))
    ensures DecodeChannel(j).Ok? && DecodeChannel(j).value.NameOnly? ==> j.JStr?
  {
  }

  /** An object whose `name` is a string and whose `product_ids` is an array of
      strings is a detailed descriptor, whatever other members it has. */
  lemma ObjectIsDetailed(ms: seq<Member>, name: string, productIds: seq<string>)
    requires Find(ms, "name") == Present(JStr(name))
    requires Find(ms, "product_ids") == Present(StringsJson(productIds))
    ensures DecodeChannel(JObj(ms)) == Ok(Detailed(DetailedChannelSubscribe(name, productIds)))
  {
    StringsRoundTrip(productIds);
  }

  /** Encoding keeps the shape (a string for a bare name, an object otherwise)
      and decoding the result gives the descriptor back. */
  lemma {:induction false} ChannelRoundTrip(c: ChannelSubscribe)
    ensures ChannelJson(c).JStr? <==> c.NameOnly?
    ensures ChannelJson(c).JObj? <==> c.Detailed?
    ensures DecodeChannel(ChannelJson(c)) == Ok(c)
  {
    if c.Detailed? {
      var ms := [("name", JStr(c.detail.name)), ("product_ids", StringsJson(c.detail.productIds))];
      FindUnique(ms, 0);
      FindUnique(ms, 1);
      ObjectIsDetailed(ms, c.detail.name, c.detail.productIds);
    }
  }

  lemma ChannelsRoundTrip(cs: seq<ChannelSubscribe>)
    ensures DecodeChannels(ChannelsJson(cs)) == Ok(cs)
  {
    forall i | 0 <= i < |cs| ensures DecodeChannel(ChannelJson(cs[i])) == Ok(cs[i]) {
      ChannelRoundTrip(cs[i]);
    }
    EachRoundTrip(cs, ChannelJson, DecodeChannel);
  }

  lemma SubscribeRoundTrip(s: Subscribe)
    ensures DecodeSubscribe(Named(SubscribeMembers(s))) == Ok(s)
  {
    var values := SubscribeValues(s);
    FieldAt(SubscribeKeys, values, 0, 0);
    FieldAt(SubscribeKeys, values, 1, 1);
    StringsRoundTrip(s.productIds);
    ChannelsRoundTrip(s.channels);
  }

  lemma SubscriptionRoundTrip(s: Subscription)
    ensures DecodeSubscription(Named(SubscriptionMembers(s))) == Ok(s)
  {
    FieldAt(SubscriptionKeys, SubscriptionValues(s), 0, 0);
    ChannelsRoundTrip(s.channels);
  }

  lemma UnsubscribeRoundTrip(u: Unsubscribe)
    ensures DecodeUnsubscribe(Named(UnsubscribeMembers(u))) == Ok(u)
  {
    FieldAt(UnsubscribeKeys, UnsubscribeValues(u), 0, 0);
    ChannelsRoundTrip(u.channels);
  }

  // Each message is read by key alone: two objects that agree under its keys
  // decode alike, whatever else they hold.

  lemma SubscribeReadsItsKeys(a: seq<Member>, b: seq<Member>)
    requires Find(a, "product_ids") == Find(b, "product_ids")
    requires Find(a, "channels") == Find(b, "channels")
    ensures DecodeSubscribe(Named(a)) == DecodeSubscribe(Named(b))
  {
    SameStrings(a, b, 0, "product_ids");
    SameField(a, b, 1, "channels");
  }

  lemma SubscriptionReadsItsKeys(a: seq<Member>, b: seq<Member>)
    requires Find(a, "channels") == Find(b, "channels")
    ensures DecodeSubscription(Named(a)) == DecodeSubscription(Named(b))
  {
    SameField(a, b, 0, "channels");
  }

  lemma UnsubscribeReadsItsKeys(a: seq<Member>, b: seq<Member>)
    requires Find(a, "channels") == Find(b, "channels")
    ensures DecodeUnsubscribe(Named(a)) == DecodeUnsubscribe(Named(b))
  {
    SameField(a, b, 0, "channels");
  }
}
