/** The timestamp of the documented received message, checked against the
    RFC 3339 grammar one part at a time. */
module SampleTimestamp {
  import opened Rfc3339

  /** The timestamp of the documented received message. */
  const SampleTime: string := "2014-11-07T08:19:27.028459Z"

  lemma SampleYear()
    ensures FourDigitsAt(SampleTime, 0) && FourDigits(SampleTime, 0) == 2014
  {
  }

  lemma SampleMonth()
    ensures TwoDigitsAt(SampleTime, 5) && TwoDigits(SampleTime, 5) == 11
  {
  }

  lemma SampleDay()
    ensures TwoDigitsAt(SampleTime, 8) && TwoDigits(SampleTime, 8) == 7
  {
  }

  lemma SampleDate()
    ensures IsFullDate(SampleTime)
  {
    SampleYear();
    SampleMonth();
    SampleDay();
    assert DaysInMonth(2014, 11) == 30;
  }

  lemma SampleClock()
    ensures IsTimeOfDay(SampleTime, 11)
  {
    assert TwoDigits(SampleTime, 11) == 8;
    assert TwoDigits(SampleTime, 14) == 19;
    assert TwoDigits(SampleTime, 17) == 27;
  }

  lemma SampleFraction()
    ensures IsTimeTail(SampleTime[19..])
  {
    assert SampleTime[19..] == ".028459Z";
    assert LeadingDigits("028459Z") == 6;
    assert IsTimeTail(".028459Z");
  }

  /** The sample's timestamp is an RFC 3339 date-time. */
  lemma SampleTimeIsDateTime()
    ensures IsDateTime(SampleTime)
  {
    SampleDate();
    SampleClock();
    SampleFraction();
  }
}

/** Concrete messages: the received message documented on `Received` and
    decoded by the crate's unit test, and the subscription the `read-full`
    binary writes. */
module Samples {
  import opened Wrappers
  import opened JsonTree
  import opened Rfc3339
  import opened SampleTimestamp
  import opened Serde
  import Channels
  import Orders
  import opened Messages

  /** The documented received message: its tag, then its other members in the
      order they are written there. */
  const SampleKeys: seq<string> :=
    ["time", "product_id", "sequence", "order_id", "size", "price", "side", "order_type", "client-oid"]
  const SampleValues: seq<Json> :=
    [JStr(SampleTime), JStr("BTC-USD"), JInt(10), JStr("d50ec984-77a8-460a-b958-66f114b0de9b"),
     JStr("1.34"), JStr("502.1"), JStr("buy"), JStr("limit"), JStr("d50ec974-76a2-454b-66f135b1ea8c")]

  function ReceivedSampleMembers(): seq<Member> {
    [("type", JStr("received"))] + Zip(SampleKeys, SampleValues)
  }

  lemma SampleKeysAt()
    ensures !HasKey(Zip(SampleKeys, SampleValues), "type")
    ensures Find(Zip(SampleKeys, SampleValues), "time") == Present(JStr(SampleTime))
    ensures Find(Zip(SampleKeys, SampleValues), "product_id") == Present(JStr("BTC-USD"))
    ensures Find(Zip(SampleKeys, SampleValues), "sequence") == Present(JInt(10))
    ensures Find(Zip(SampleKeys, SampleValues), "order_id") == Present(JStr("d50ec984-77a8-460a-b958-66f114b0de9b"))
    ensures Find(Zip(SampleKeys, SampleValues), "size") == Present(JStr("1.34"))
    ensures Find(Zip(SampleKeys, SampleValues), "price") == Present(JStr("502.1"))
    ensures Find(Zip(SampleKeys, SampleValues), "side") == Present(JStr("buy"))
    ensures Find(Zip(SampleKeys, SampleValues), "order_type") == Present(JStr("limit"))
    ensures Find(Zip(SampleKeys, SampleValues), "client-oid") == Present(JStr("d50ec974-76a2-454b-66f135b1ea8c"))
  {
    assert DistinctStrings(SampleKeys);
    ZipHasOnlyItsKeys(SampleKeys, SampleValues, "type");
    FindZip(SampleKeys, SampleValues, 0);
    FindZip(SampleKeys, SampleValues, 1);
    FindZip(SampleKeys, SampleValues, 2);
    FindZip(SampleKeys, SampleValues, 3);
    FindZip(SampleKeys, SampleValues, 4);
    FindZip(SampleKeys, SampleValues, 5);
    FindZip(SampleKeys, SampleValues, 6);
    FindZip(SampleKeys, SampleValues, 7);
    FindZip(SampleKeys, SampleValues, 8);
  }

  /** The received message the sample stands for. */
  function SampleReceived(): Orders.Received
    requires IsDateTime(SampleTime)
  {
    Orders.Received(SampleTime, "BTC-USD", 10, "d50ec984-77a8-460a-b958-66f114b0de9b",
                    Orders.Limit("1.34", "502.1"), "buy", Some("d50ec974-76a2-454b-66f135b1ea8c"))
  }

  /** Any members in which the sample's keys find the sample's values decode
      to the sample's received message. */
  lemma SampleFieldsDecode(ms: seq<Member>)
    requires IsDateTime(SampleTime)
    requires Find(ms, "time") == Present(JStr(SampleTime))
    requires Find(ms, "product_id") == Present(JStr("BTC-USD"))
    requires Find(ms, "sequence") == Present(JInt(10))
    requires Find(ms, "order_id") == Present(JStr("d50ec984-77a8-460a-b958-66f114b0de9b"))
    requires Find(ms, "size") == Present(JStr("1.34"))
    requires Find(ms, "price") == Present(JStr("502.1"))
    requires Find(ms, "side") == Present(JStr("buy"))
    requires Find(ms, "order_type") == Present(JStr("limit"))
    requires Find(ms, "client-oid") == Present(JStr("d50ec974-76a2-454b-66f135b1ea8c"))
    ensures Orders.DecodeReceived(Named(ms)) == Ok(SampleReceived())
  {
    DateTimeFrom(ms, 0, "time", SampleTime);
    StringFrom(ms, 1, "product_id", "BTC-USD");
    U64From(ms, 2, "sequence", 10);
    StringFrom(ms, 3, "order_id", "d50ec984-77a8-460a-b958-66f114b0de9b");
    StringFrom(ms, 5, "side", "buy");
    OptionalStringFrom(ms, 6, "client-oid", Some("d50ec974-76a2-454b-66f135b1ea8c"));
    Orders.OrderTypeIsFlat(ms);
    Orders.OrderTypeFrom(ms, Orders.Limit("1.34", "502.1"));
  }

  /** Behind a leading "received" tag, the members that follow are read as a
      received message. */
  lemma ReceivedEnvelope(rest: seq<Member>)
    requires !HasKey(rest, "type")
    ensures DecodeMessage(JObj([("type", JStr("received"))] + rest)) == ReceivedArm(Named(rest))
  {
    TagThenMembers(JStr("received"), rest);
  }

  /** The sample decodes to a limit order of 1.34 at 502.1 whose client order
      id is the string given. */
  lemma ReceivedSampleDecodes()
    ensures IsDateTime(SampleTime)
    ensures DecodeMessage(JObj(ReceivedSampleMembers())) ==
            Ok(Received(Orders.Received(SampleTime, "BTC-USD", 10, "d50ec984-77a8-460a-b958-66f114b0de9b",
                                       Orders.Limit("1.34", "502.1"), "buy",
                                       Some("d50ec974-76a2-454b-66f135b1ea8c"))))
  {
    SampleTimeIsDateTime();
    var rest := Zip(SampleKeys, SampleValues);
    SampleKeysAt();
    ReceivedEnvelope(rest);
    SampleFieldsDecode(rest);
  }

  /** The documented activate message, without its tag: it also carries an
      `order_id`, which is not a field of `Activate`. */
  const ActivateSampleKeys: seq<string> :=
    ["product_id", "timestamp", "user_id", "profile_id", "order_id", "stop_type", "side",
     "stop_price", "size", "funds", "private"]
  const ActivateSampleValues: seq<Json> :=
    [JStr("test-product"), JStr("1483736448.299000"), JStr("12"),
     JStr("30000727-d308-cf50-7b1c-c06deb1934fc"), JStr("7b52009b-64fd-0a2a-49e6-d8a939753077"),
     JStr("entry"), JStr("buy"), JStr("80"), JStr("2"), JStr("50"), JBool(true)]

  /** The stop order activation the sample stands for. */
  const SampleActivate: Orders.Activate :=
    Orders.Activate("test-product", "1483736448.299000", "12", "30000727-d308-cf50-7b1c-c06deb1934fc",
                    "entry", "buy", "80", "2", "50", true)

  lemma ActivateSampleKeysAt()
    ensures !HasKey(Zip(ActivateSampleKeys, ActivateSampleValues), "type")
    ensures Find(Zip(ActivateSampleKeys, ActivateSampleValues), "product_id") == Present(JStr("test-product"))
    ensures Find(Zip(ActivateSampleKeys, ActivateSampleValues), "timestamp") == Present(JStr("1483736448.299000"))
    ensures Find(Zip(ActivateSampleKeys, ActivateSampleValues), "user_id") == Present(JStr("12"))
    ensures Find(Zip(ActivateSampleKeys, ActivateSampleValues), "profile_id") == Present(JStr("30000727-d308-cf50-7b1c-c06deb1934fc"))
    ensures Find(Zip(ActivateSampleKeys, ActivateSampleValues), "order_id") == Present(JStr("7b52009b-64fd-0a2a-49e6-d8a939753077"))
    ensures Find(Zip(ActivateSampleKeys, ActivateSampleValues), "stop_type") == Present(JStr("entry"))
    ensures Find(Zip(ActivateSampleKeys, ActivateSampleValues), "side") == Present(JStr("buy"))
    ensures Find(Zip(ActivateSampleKeys, ActivateSampleValues), "stop_price") == Present(JStr("80"))
    ensures Find(Zip(ActivateSampleKeys, ActivateSampleValues), "size") == Present(JStr("2"))
    ensures Find(Zip(ActivateSampleKeys, ActivateSampleValues), "funds") == Present(JStr("50"))
    ensures Find(Zip(ActivateSampleKeys, ActivateSampleValues), "private") == Present(JBool(true))
  {
    assert DistinctStrings(ActivateSampleKeys);
    ZipHasOnlyItsKeys(ActivateSampleKeys, ActivateSampleValues, "type");
    FindZip(ActivateSampleKeys, ActivateSampleValues, 0);
    FindZip(ActivateSampleKeys, ActivateSampleValues, 1);
    FindZip(ActivateSampleKeys, ActivateSampleValues, 2);
    FindZip(ActivateSampleKeys, ActivateSampleValues, 3);
    FindZip(ActivateSampleKeys, ActivateSampleValues, 4);
    FindZip(ActivateSampleKeys, ActivateSampleValues, 5);
    FindZip(ActivateSampleKeys, ActivateSampleValues, 6);
    FindZip(ActivateSampleKeys, ActivateSampleValues, 7);
    FindZip(ActivateSampleKeys, ActivateSampleValues, 8);
    FindZip(ActivateSampleKeys, ActivateSampleValues, 9);
    FindZip(ActivateSampleKeys, ActivateSampleValues, 10);
  }

  /** Any members in which the keys of `Activate` find the sample's values
      decode to the sample's activation, whatever other members they hold. */
  lemma ActivateSampleFieldsDecode(ms: seq<Member>)
    requires Find(ms, "product_id") == Present(JStr("test-product"))
    requires Find(ms, "timestamp") == Present(JStr("1483736448.299000"))
    requires Find(ms, "user_id") == Present(JStr("12"))
    requires Find(ms, "profile_id") == Present(JStr("30000727-d308-cf50-7b1c-c06deb1934fc"))
    requires Find(ms, "stop_type") == Present(JStr("entry"))
    requires Find(ms, "side") == Present(JStr("buy"))
    requires Find(ms, "stop_price") == Present(JStr("80"))
    requires Find(ms, "size") == Present(JStr("2"))
    requires Find(ms, "funds") == Present(JStr("50"))
    requires Find(ms, "private") == Present(JBool(true))
    ensures Orders.DecodeActivate(Named(ms)) == Ok(SampleActivate)
  {
    StringFrom(ms, 0, "product_id", "test-product");
    StringFrom(ms, 1, "timestamp", "1483736448.299000");
    StringFrom(ms, 2, "user_id", "12");
    StringFrom(ms, 3, "profile_id", "30000727-d308-cf50-7b1c-c06deb1934fc");
    StringFrom(ms, 4, "stop_type", "entry");
    StringFrom(ms, 5, "side", "buy");
    StringFrom(ms, 6, "stop_price", "80");
    StringFrom(ms, 7, "size", "2");
    StringFrom(ms, 8, "funds", "50");
    BoolFrom(ms, 9, "private", true);
  }

  /** Behind a leading "activate" tag, the members that follow are read as a
      stop order activation. */
  lemma ActivateEnvelope(rest: seq<Member>)
    requires !HasKey(rest, "type")
    ensures DecodeMessage(JObj([("type", JStr("activate"))] + rest)) == ActivateArm(Named(rest))
  {
    TagThenMembers(JStr("activate"), rest);
  }

  /** The documented activate message decodes to the activation it shows; its
      `order_id` member, which `Activate` does not declare, is ignored. */
  lemma ActivateSampleDecodes()
    ensures "order_id" !in Orders.ActivateKeys
    ensures Find(Zip(ActivateSampleKeys, ActivateSampleValues), "order_id").Present?
    ensures DecodeMessage(JObj([("type", JStr("activate"))] + Zip(ActivateSampleKeys, ActivateSampleValues))) ==
            Ok(Activate(Orders.Activate("test-product", "1483736448.299000", "12",
                                        "30000727-d308-cf50-7b1c-c06deb1934fc", "entry", "buy",
                                        "80", "2", "50", true)))
  {
    var rest := Zip(ActivateSampleKeys, ActivateSampleValues);
    ActivateSampleKeysAt();
    ActivateEnvelope(rest);
    ActivateSampleFieldsDecode(rest);
  }

  /** The subscription the `read-full` binary sends: two products, two bare
      channels and a ticker channel restricted to two products. */
  const FeedSubscription: Message :=
    Subscribe(Channels.Subscribe(
      ["ETH-USD", "BTC-USD"],
      [Channels.NameOnly("level2"),
       Channels.NameOnly("heartbeat"),
       Channels.Detailed(Channels.DetailedChannelSubscribe("ticker", ["ETH-BTC", "ETH-USD"]))]))

  /** It is written with the tag first, then `product_ids`, then `channels`,
      each channel in the shape it was built in. */
  lemma FeedSubscriptionEncodes()
    ensures EncodeMessage(FeedSubscription) ==
            JObj([("type", JStr("subscribe")),
                  ("product_ids", JArr([JStr("ETH-USD"), JStr("BTC-USD")])),
                  ("channels", JArr([JStr("level2"),
                                     JStr("heartbeat"),
                                     JObj([("name", JStr("ticker")),
                                           ("product_ids", JArr([JStr("ETH-BTC"), JStr("ETH-USD")]))])]))])
  {
    var s := FeedSubscription.subscribe;
    var products := JArr([JStr("ETH-USD"), JStr("BTC-USD")]);
    var ticker := JObj([("name", JStr("ticker")),
                        ("product_ids", JArr([JStr("ETH-BTC"), JStr("ETH-USD")]))]);
    var channels := JArr([JStr("level2"), JStr("heartbeat"), ticker]);
    assert StringsJson(s.channels[2].detail.productIds).items == [JStr("ETH-BTC"), JStr("ETH-USD")];
    assert Channels.ChannelJson(s.channels[2]) == ticker;
    assert StringsJson(s.productIds) == products;
    assert Channels.ChannelJson(s.channels[0]) == JStr("level2");
    assert Channels.ChannelJson(s.channels[1]) == JStr("heartbeat");
    assert Channels.ChannelsJson(s.channels).items == channels.items;
    assert Channels.SubscribeValues(s) == [products, channels];
    assert Members(FeedSubscription) == [("product_ids", products), ("channels", channels)];
  }
}
