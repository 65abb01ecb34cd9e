/** The order-lifecycle events of the full channel: received, open, done, match,
    change and activate. Prices, sizes and funds are kept as the strings the feed
    sends. */
module Orders {
  import opened Wrappers
  import opened JsonTree
  import opened Rfc3339
  import opened Serde

  /** The order type of a received order, with the fields that belong to it. */
  datatype ReceivedOrderType =
    | Market(funds: string)
    | Limit(size: string, price: string)

  datatype Received = Received(
    time: DateTime,
    productId: string,
    sequence: u64,
    orderId: string,
    orderType: ReceivedOrderType,
    side: string,
    clientOid: Option<string>)

  datatype Open = Open(
    time: DateTime,
    productId: string,
    sequence: u64,
    orderId: string,
    price: string,
    remainingSize: string,
    side: string)

  datatype Done = Done(
    time: DateTime,
    productId: string,
    sequence: u64,
    price: string,
    orderId: string,
    reason: string,
    cancelReason: Option<string>,
    side: string,
    remainingSize: string)

  datatype Match = Match(
    tradeId: u64,
    sequence: u64,
    makerOrderId: string,
    takerOrderId: string,
    time: DateTime,
    productId: string,
    size: string,
    price: string,
    side: string)

  datatype Change = Change(
    reason: string,
    time: DateTime,
    sequence: u64,
    orderId: string,
    side: string,
    productId: string,
    oldSize: Option<string>,
    newSize: Option<string>,
    size: Option<string>,
    oldPrice: Option<string>,
    newPrice: Option<string>,
    price: Option<string>)

  /** A stop order's activation; its `timestamp` is plain text, not a date-time. */
  datatype Activate = Activate(
    productId: string,
    timestamp: string,
    userId: string,
    profileId: string,
    stopType: string,
    side: string,
    stopPrice: string,
    size: string,
    funds: string,
    private: bool)

  // ---------------------------------------------------------------- decoding

  /** The tag of the order type, as a variant index: 0 market, 1 limit. The
      flattened tag is read from buffered content, where a variant index is
      accepted as well as a name. */
  function OrderTypeVariant(tag: Json): Decoded<nat> {
    match tag
    case JStr(t) =>
      if t == "market" then Ok(0)
      else if t == "limit" then Ok(1)
      else Err(UnknownVariant(t))
    case JInt(i) =>
      if i == 0 || i == 1 then Ok(i)
      else if 0 <= i < U64_LIMIT then Err(InvalidValue("variant index 0 <= i < 2"))
      else Err(InvalidType("variant identifier"))
    case _ => Err(InvalidType("variant identifier"))
  }

  /** The order type, read from the members of the received object that are not
      fields of `Received` itself: `order_type` names the variant, and the
      variant's own fields are its siblings. */
  function DecodeOrderType(ms: seq<Member>): Decoded<ReceivedOrderType> {
    match Find(ms, "order_type")
    case Absent => Err(MissingField("order_type"))
    case Repeated => Err(DuplicateField("order_type"))
    case Present(tag) =>
      var variant :- OrderTypeVariant(tag);
      var rest := Named(Without(ms, {"order_type"}));
      if variant == 0 then
        var funds :- StringField(rest, 0, "funds");
        Ok(Market(funds))
      else
        var size :- StringField(rest, 0, "size");
        var price :- StringField(rest, 1, "price");
        Ok(Limit(size, price))
  }

  /** The keys that are fields of `Received` itself; every other member of the
      object is left for the flattened order type. */
  const ReceivedOwnKeys: set<string> := {"time", "product_id", "sequence", "order_id", "side", "client-oid"}

  /** `Received` flattens its order type into itself, so it is read only from
      an object, never from an array. */
  function DecodeReceived(src: FieldSource): Decoded<Received> {
    match src
    case Positional(_) => Err(InvalidType("a map"))
    case Named(ms) =>
      var time :- DateTimeField(src, 0, "time");
      var productId :- StringField(src, 1, "product_id");
      var sequence :- U64Field(src, 2, "sequence");
      var orderId :- StringField(src, 3, "order_id");
      var side :- StringField(src, 5, "side");
      var clientOid :- OptionalStringField(src, 6, "client-oid");
      var orderType :- DecodeOrderType(Without(ms, ReceivedOwnKeys));
      Ok(Received(time, productId, sequence, orderId, orderType, side, clientOid))
  }

  function DecodeOpen(src: FieldSource): Decoded<Open> {
    var time :- DateTimeField(src, 0, "time");
    var productId :- StringField(src, 1, "product_id");
    var sequence :- U64Field(src, 2, "sequence");
    var orderId :- StringField(src, 3, "order_id");
    var price :- StringField(src, 4, "price");
    var remainingSize :- StringField(src, 5, "remaining_size");
    var side :- StringField(src, 6, "side");
    var end :- NoMoreFields(src, 7);
    Ok(Open(time, productId, sequence, orderId, price, remainingSize, side))
  }

  function DecodeDone(src: FieldSource): Decoded<Done> {
    var time :- DateTimeField(src, 0, "time");
    var productId :- StringField(src, 1, "product_id");
    var sequence :- U64Field(src, 2, "sequence");
    var price :- StringField(src, 3, "price");
    var orderId :- StringField(src, 4, "order_id");
    var reason :- StringField(src, 5, "reason");
    var cancelReason :- OptionalStringField(src, 6, "cancel_reason");
    var side :- StringField(src, 7, "side");
    var remainingSize :- StringField(src, 8, "remaining_size");
    var end :- NoMoreFields(src, 9);
    Ok(Done(time, productId, sequence, price, orderId, reason, cancelReason, side, remainingSize))
  }

  function DecodeMatch(src: FieldSource): Decoded<Match> {
    var tradeId :- U64Field(src, 0, "trade_id");
    var sequence :- U64Field(src, 1, "sequence");
    var makerOrderId :- StringField(src, 2, "maker_order_id");
    var takerOrderId :- StringField(src, 3, "taker_order_id");
    var time :- DateTimeField(src, 4, "time");
    var productId :- StringField(src, 5, "product_id");
    var size :- StringField(src, 6, "size");
    var price :- StringField(src, 7, "price");
    var side :- StringField(src, 8, "side");
    var end :- NoMoreFields(src, 9);
    Ok(Match(tradeId, sequence, makerOrderId, takerOrderId, time, productId, size, price, side))
  }

  function DecodeChange(src: FieldSource): Decoded<Change> {
    var reason :- StringField(src, 0, "reason");
    var time :- DateTimeField(src, 1, "time");
    var sequence :- U64Field(src, 2, "sequence");
    var orderId :- StringField(src, 3, "order_id");
    var side :- StringField(src, 4, "side");
    var productId :- StringField(src, 5, "product_id");
    var oldSize :- OptionalStringField(src, 6, "old_size");
    var newSize :- OptionalStringField(src, 7, "new_size");
    var size :- OptionalStringField(src, 8, "size");
    var oldPrice :- OptionalStringField(src, 9, "old_price");
    var newPrice :- OptionalStringField(src, 10, "new_price");
    var price :- OptionalStringField(src, 11, "price");
    var end :- NoMoreFields(src, 12);
    Ok(Change(reason, time, sequence, orderId, side, productId,
              oldSize, newSize, size, oldPrice, newPrice, price))
  }

  function DecodeActivate(src: FieldSource): Decoded<Activate> {
    var productId :- StringField(src, 0, "product_id");
    var timestamp :- StringField(src, 1, "timestamp");
    var userId :- StringField(src, 2, "user_id");
    var profileId :- StringField(src, 3, "profile_id");
    var stopType :- StringField(src, 4, "stop_type");
    var side :- StringField(src, 5, "side");
    var stopPrice :- StringField(src, 6, "stop_price");
    var size :- StringField(src, 7, "size");
    var funds :- StringField(src, 8, "funds");
    var private :- BoolField(src, 9, "private");
    var end :- NoMoreFields(src, 10);
    Ok(Activate(productId, timestamp, userId, profileId, stopType, side,
                stopPrice, size, funds, private))
  }

  // ---------------------------------------------------------------- encoding
  // Each message is written as its fields in declaration order, the order type
  // of a received order in its place among them; a missing optional value is
  // written as null.

  const OpenKeys: seq<string> :=
    ["time", "product_id", "sequence", "order_id", "price", "remaining_size", "side"]
  const DoneKeys: seq<string> :=
    ["time", "product_id", "sequence", "price", "order_id", "reason", "cancel_reason",
     "side", "remaining_size"]
  const MatchKeys: seq<string> :=
    ["trade_id", "sequence", "maker_order_id", "taker_order_id", "time", "product_id",
     "size", "price", "side"]
  const ChangeKeys: seq<string> :=
    ["reason", "time", "sequence", "order_id", "side", "product_id",
     "old_size", "new_size", "size", "old_price", "new_price", "price"]
  const MarketReceivedKeys: seq<string> :=
    ["time", "product_id", "sequence", "order_id", "order_type", "funds", "side", "client-oid"]
  const LimitReceivedKeys: seq<string> :=
    ["time", "product_id", "sequence", "order_id", "order_type", "size", "price", "side", "client-oid"]
  const ActivateKeys: seq<string> :=
    ["product_id", "timestamp", "user_id", "profile_id", "stop_type", "side",
     "stop_price", "size", "funds", "private"]

  /** The name an order type is written under in `order_type`. */
  function OrderTypeName(t: ReceivedOrderType): string {
    match t
    case Market(_) => "market"
    case Limit(_, _) => "limit"
  }

  /** A received message's keys: its own, with the order type's flattened in
      where `order_type` is declared. */
  function ReceivedKeys(t: ReceivedOrderType): seq<string> {
    match t
    case Market(_) => MarketReceivedKeys
    case Limit(_, _) => LimitReceivedKeys
  }

  function ReceivedValues(r: Received): seq<Json> {
    match r.orderType
    case Market(funds) =>
      [JStr(r.time), JStr(r.productId), JInt(r.sequence), JStr(r.orderId),
       JStr("market"), JStr(funds), JStr(r.side), OptionalStringJson(r.clientOid)]
    case Limit(size, price) =>
      [JStr(r.time), JStr(r.productId), JInt(r.sequence), JStr(r.orderId),
       JStr("limit"), JStr(size), JStr(price), JStr(r.side), OptionalStringJson(r.clientOid)]
  }

  function ReceivedMembers(r: Received): seq<Member> {
    Zip(ReceivedKeys(r.orderType), ReceivedValues(r))
  }

  function OpenValues(o: Open): seq<Json> {
    [JStr(o.time), JStr(o.productId), JInt(o.sequence), JStr(o.orderId),
     JStr(o.price), JStr(o.remainingSize), JStr(o.side)]
  }

  function OpenMembers(o: Open): seq<Member> {
    Zip(OpenKeys, OpenValues(o))
  }

  function DoneValues(d: Done): seq<Json> {
    [JStr(d.time), JStr(d.productId), JInt(d.sequence), JStr(d.price),
     JStr(d.orderId), JStr(d.reason), OptionalStringJson(d.cancelReason),
     JStr(d.side), JStr(d.remainingSize)]
  }

  function DoneMembers(d: Done): seq<Member> {
    Zip(DoneKeys, DoneValues(d))
  }

  function MatchValues(m: Match): seq<Json> {
    [JInt(m.tradeId), JInt(m.sequence), JStr(m.makerOrderId), JStr(m.takerOrderId),
     JStr(m.time), JStr(m.productId), JStr(m.size), JStr(m.price), JStr(m.side)]
  }

  function MatchMembers(m: Match): seq<Member> {
    Zip(MatchKeys, MatchValues(m))
  }

  function ChangeValues(c: Change): seq<Json> {
    [JStr(c.reason), JStr(c.time), JInt(c.sequence), JStr(c.orderId),
     JStr(c.side), JStr(c.productId),
     OptionalStringJson(c.oldSize), OptionalStringJson(c.newSize),
     OptionalStringJson(c.size), OptionalStringJson(c.oldPrice),
     OptionalStringJson(c.newPrice), OptionalStringJson(c.price)]
  }

  function ChangeMembers(c: Change): seq<Member> {
    Zip(ChangeKeys, ChangeValues(c))
  }

  function ActivateValues(a: Activate): seq<Json> {
    [JStr(a.productId), JStr(a.timestamp), JStr(a.userId), JStr(a.profileId),
     JStr(a.stopType), JStr(a.side), JStr(a.stopPrice), JStr(a.size),
     JStr(a.funds), JBool(a.private)]
  }

  function ActivateMembers(a: Activate): seq<Member> {
    Zip(ActivateKeys, ActivateValues(a))
  }

  // ------------------------------------------------------------ properties

  /** The order type is read from four keys only, so two objects that agree on
      them give the same order type. */
  lemma OrderTypeReadsItsKeys(a: seq<Member>, b: seq<Member>)
    requires Find(a, "order_type") == Find(b, "order_type")
    requires Find(a, "funds") == Find(b, "funds")
    requires Find(a, "size") == Find(b, "size")
    requires Find(a, "price") == Find(b, "price")
    ensures DecodeOrderType(a) == DecodeOrderType(b)
  {
    OrderTypeSiblings(a);
    OrderTypeSiblings(b);
  }

  /** Leaving out the members of `Received` itself keeps the order type's. */
  lemma OwnKeysLeaveOrderType(ms: seq<Member>)
    ensures Find(Without(ms, ReceivedOwnKeys), "order_type") == Find(ms, "order_type")
    ensures Find(Without(ms, ReceivedOwnKeys), "funds") == Find(ms, "funds")
    ensures Find(Without(ms, ReceivedOwnKeys), "size") == Find(ms, "size")
    ensures Find(Without(ms, ReceivedOwnKeys), "price") == Find(ms, "price")
  {
  }

  /** Leaving out the members that belong to `Received` itself does not change
      the order type: it is read from the same flat object as the other fields. */
  lemma OrderTypeIsFlat(ms: seq<Member>)
    ensures DecodeOrderType(Without(ms, ReceivedOwnKeys)) == DecodeOrderType(ms)
  {
    OwnKeysLeaveOrderType(ms);
    OrderTypeReadsItsKeys(Without(ms, ReceivedOwnKeys), ms);
  }

  /** A decoded order type is "market" (or variant index 0) with the string
      `funds`, or "limit" (or index 1) with the strings `size` and `price`. */
  lemma OrderTypeDecoded(ms: seq<Member>)
    ensures DecodeOrderType(ms).Ok? && DecodeOrderType(ms).value.Market? ==>
              && Find(ms, "order_type") in {Present(JStr("market")), Present(JInt(0))}
              && Find(ms, "funds") == Present(JStr(DecodeOrderType(ms).value.funds))
    ensures DecodeOrderType(ms).Ok? && DecodeOrderType(ms).value.Limit? ==>
              && Find(ms, "order_type") in {Present(JStr("limit")), Present(JInt(1))}
              && Find(ms, "size") == Present(JStr(DecodeOrderType(ms).value.size))
              && Find(ms, "price") == Present(JStr(DecodeOrderType(ms).value.price))
  {
    OrderTypeSiblings(ms);
    if Find(ms, "order_type").Present? {
      VariantIndexFrom(Find(ms, "order_type").value);
    }
  }

  /** Variant 0 is named "market" or numbered 0, variant 1 "limit" or 1, and
      there is no other. */
  lemma VariantIndexFrom(tag: Json)
    ensures OrderTypeVariant(tag) == Ok(0) ==> tag in {JStr("market"), JInt(0)}
    ensures OrderTypeVariant(tag) == Ok(1) ==> tag in {JStr("limit"), JInt(1)}
    ensures OrderTypeVariant(tag).Ok? ==> OrderTypeVariant(tag).value < 2
  {
  }

  /** Where the variant's own fields are looked for: beside `order_type`. */
  lemma OrderTypeSiblings(ms: seq<Member>)
    ensures Find(Without(ms, {"order_type"}), "funds") == Find(ms, "funds")
    ensures Find(Without(ms, {"order_type"}), "size") == Find(ms, "size")
    ensures Find(Without(ms, {"order_type"}), "price") == Find(ms, "price")
  {
  }

  /** "market" decodes exactly when `funds` is a string. */
  lemma OrderTypeMarket(ms: seq<Member>)
    requires Find(ms, "order_type") == Present(JStr("market"))
    ensures DecodeOrderType(ms).Ok? <==> Find(ms, "funds").Present? && Find(ms, "funds").value.JStr?
  {
    OrderTypeSiblings(ms);
  }

  /** "limit" decodes exactly when `size` and `price` are strings. */
  lemma OrderTypeLimit(ms: seq<Member>)
    requires Find(ms, "order_type") == Present(JStr("limit"))
    ensures DecodeOrderType(ms).Ok? <==>
              && Find(ms, "size").Present? && Find(ms, "size").value.JStr?
              && Find(ms, "price").Present? && Find(ms, "price").value.JStr?
  {
    OrderTypeSiblings(ms);
  }

  /** `order_type` decodes only from "market", "limit" (or their variant
      indices 0 and 1): any other name is an unknown variant, and a missing
      `order_type` is a missing field. */
  lemma OrderTypeUnknown(ms: seq<Member>)
    ensures forall t :: Find(ms, "order_type") == Present(JStr(t)) && t != "market" && t != "limit" ==>
              DecodeOrderType(ms) == Err(UnknownVariant(t))
    ensures Find(ms, "order_type").Absent? ==> DecodeOrderType(ms) == Err(MissingField("order_type"))
  {
  }

  /** The members an order type is written as decode to that order type. */
  lemma OrderTypeFrom(ms: seq<Member>, t: ReceivedOrderType)
    requires Find(ms, "order_type") == Present(JStr(OrderTypeName(t)))
    requires t.Market? ==> Find(ms, "funds") == Present(JStr(t.funds))
    requires t.Limit? ==> Find(ms, "size") == Present(JStr(t.size))
    requires t.Limit? ==> Find(ms, "price") == Present(JStr(t.price))
    ensures DecodeOrderType(ms) == Ok(t)
  {
    OrderTypeSiblings(ms);
  }

  lemma MarketReceivedKeysAt(values: seq<Json>)
    requires |values| == |MarketReceivedKeys|
    ensures Find(Zip(MarketReceivedKeys, values), "time") == Present(values[0])
    ensures Find(Zip(MarketReceivedKeys, values), "product_id") == Present(values[1])
    ensures Find(Zip(MarketReceivedKeys, values), "sequence") == Present(values[2])
    ensures Find(Zip(MarketReceivedKeys, values), "order_id") == Present(values[3])
    ensures Find(Zip(MarketReceivedKeys, values), "order_type") == Present(values[4])
    ensures Find(Zip(MarketReceivedKeys, values), "funds") == Present(values[5])
    ensures Find(Zip(MarketReceivedKeys, values), "side") == Present(values[6])
    ensures Find(Zip(MarketReceivedKeys, values), "client-oid") == Present(values[7])
  {
    assert DistinctStrings(MarketReceivedKeys);
    FindZip(MarketReceivedKeys, values, 0);
    FindZip(MarketReceivedKeys, values, 1);
    FindZip(MarketReceivedKeys, values, 2);
    FindZip(MarketReceivedKeys, values, 3);
    FindZip(MarketReceivedKeys, values, 4);
    FindZip(MarketReceivedKeys, values, 5);
    FindZip(MarketReceivedKeys, values, 6);
    FindZip(MarketReceivedKeys, values, 7);
  }

  lemma LimitReceivedKeysAt(values: seq<Json>)
    requires |values| == |LimitReceivedKeys|
    ensures Find(Zip(LimitReceivedKeys, values), "time") == Present(values[0])
    ensures Find(Zip(LimitReceivedKeys, values), "product_id") == Present(values[1])
    ensures Find(Zip(LimitReceivedKeys, values), "sequence") == Present(values[2])
    ensures Find(Zip(LimitReceivedKeys, values), "order_id") == Present(values[3])
    ensures Find(Zip(LimitReceivedKeys, values), "order_type") == Present(values[4])
    ensures Find(Zip(LimitReceivedKeys, values), "size") == Present(values[5])
    ensures Find(Zip(LimitReceivedKeys, values), "price") == Present(values[6])
    ensures Find(Zip(LimitReceivedKeys, values), "side") == Present(values[7])
    ensures Find(Zip(LimitReceivedKeys, values), "client-oid") == Present(values[8])
  {
    assert DistinctStrings(LimitReceivedKeys);
    FindZip(LimitReceivedKeys, values, 0);
    FindZip(LimitReceivedKeys, values, 1);
    FindZip(LimitReceivedKeys, values, 2);
    FindZip(LimitReceivedKeys, values, 3);
    FindZip(LimitReceivedKeys, values, 4);
    FindZip(LimitReceivedKeys, values, 5);
    FindZip(LimitReceivedKeys, values, 6);
    FindZip(LimitReceivedKeys, values, 7);
    FindZip(LimitReceivedKeys, values, 8);
  }

  /** Where each key of a received message is found in the members it is
      written as. */
  lemma ReceivedKeysAt(r: Received)
    ensures Find(ReceivedMembers(r), "time") == Present(JStr(r.time))
    ensures Find(ReceivedMembers(r), "product_id") == Present(JStr(r.productId))
    ensures Find(ReceivedMembers(r), "sequence") == Present(JInt(r.sequence))
    ensures Find(ReceivedMembers(r), "order_id") == Present(JStr(r.orderId))
    ensures Find(ReceivedMembers(r), "order_type") == Present(JStr(OrderTypeName(r.orderType)))
    ensures r.orderType.Market? ==> Find(ReceivedMembers(r), "funds") == Present(JStr(r.orderType.funds))
    ensures r.orderType.Limit? ==> Find(ReceivedMembers(r), "size") == Present(JStr(r.orderType.size))
    ensures r.orderType.Limit? ==> Find(ReceivedMembers(r), "price") == Present(JStr(r.orderType.price))
    ensures Find(ReceivedMembers(r), "side") == Present(JStr(r.side))
    ensures Find(ReceivedMembers(r), "client-oid") == Present(OptionalStringJson(r.clientOid))
  {
    if r.orderType.Market? {
      MarketReceivedKeysAt(ReceivedValues(r));
    } else {
      LimitReceivedKeysAt(ReceivedValues(r));
    }
  }

  lemma ReceivedRoundTrip(r: Received)
    ensures DecodeReceived(Named(ReceivedMembers(r))) == Ok(r)
  {
    var ms := ReceivedMembers(r);
    ReceivedKeysAt(r);
    DateTimeFrom(ms, 0, "time", r.time);
    StringFrom(ms, 1, "product_id", r.productId);
    U64From(ms, 2, "sequence", r.sequence);
    StringFrom(ms, 3, "order_id", r.orderId);
    StringFrom(ms, 5, "side", r.side);
    OptionalStringFrom(ms, 6, "client-oid", r.clientOid);
    OrderTypeIsFlat(ms);
    OrderTypeFrom(ms, r.orderType);
  }

  /** A received message is read from its own six keys and its order type. */
  lemma ReceivedReadsItsKeys(a: seq<Member>, b: seq<Member>)
    requires Find(a, "time") == Find(b, "time")
    requires Find(a, "product_id") == Find(b, "product_id")
    requires Find(a, "sequence") == Find(b, "sequence")
    requires Find(a, "order_id") == Find(b, "order_id")
    requires Find(a, "side") == Find(b, "side")
    requires OptionalStringField(Named(a), 6, "client-oid") == OptionalStringField(Named(b), 6, "client-oid")
    requires DecodeOrderType(a) == DecodeOrderType(b)
    ensures DecodeReceived(Named(a)) == DecodeReceived(Named(b))
  {
    SameDateTime(a, b, 0, "time");
    SameString(a, b, 1, "product_id");
    SameU64(a, b, 2, "sequence");
    SameString(a, b, 3, "order_id");
    SameString(a, b, 5, "side");
    OrderTypeIsFlat(a);
    OrderTypeIsFlat(b);
  }

  /** A received object decodes the same whether `client-oid` is missing or
      present as null, and then has no client order id. */
  lemma ClientOidAbsentOrNull(ms: seq<Member>)
    requires !HasKey(ms, "client-oid")
    ensures DecodeReceived(Named(ms + [("client-oid", JNull)])) == DecodeReceived(Named(ms))
    ensures DecodeReceived(Named(ms)).Ok? ==> DecodeReceived(Named(ms)).value.clientOid == None
  {
    var ms' := ms + [("client-oid", JNull)];
    FindAppend(ms, "client-oid", JNull, "client-oid");
    FindAppend(ms, "client-oid", JNull, "time");
    FindAppend(ms, "client-oid", JNull, "product_id");
    FindAppend(ms, "client-oid", JNull, "sequence");
    FindAppend(ms, "client-oid", JNull, "order_id");
    FindAppend(ms, "client-oid", JNull, "side");
    FindAppend(ms, "client-oid", JNull, "order_type");
    FindAppend(ms, "client-oid", JNull, "funds");
    FindAppend(ms, "client-oid", JNull, "size");
    FindAppend(ms, "client-oid", JNull, "price");
    FindMeaning(ms, "client-oid");
    OptionalStringFrom(ms, 6, "client-oid", None);
    OptionalStringFrom(ms', 6, "client-oid", None);
    OrderTypeReadsItsKeys(ms', ms);
    ReceivedReadsItsKeys(ms', ms);
  }

  /** A string `client-oid` decodes to that string. */
  lemma ClientOidString(ms: seq<Member>, oid: string)
    requires Find(ms, "client-oid") == Present(JStr(oid))
    ensures DecodeReceived(Named(ms)).Ok? ==> DecodeReceived(Named(ms)).value.clientOid == Some(oid)
  {
    OptionalStringFrom(ms, 6, "client-oid", Some(oid));
  }

  /** Where each key of an open message is found among its members. */
  lemma OpenKeysAt(values: seq<Json>)
    requires |values| == |OpenKeys|
    ensures Find(Zip(OpenKeys, values), "time") == Present(values[0])
    ensures Find(Zip(OpenKeys, values), "product_id") == Present(values[1])
    ensures Find(Zip(OpenKeys, values), "sequence") == Present(values[2])
    ensures Find(Zip(OpenKeys, values), "order_id") == Present(values[3])
    ensures Find(Zip(OpenKeys, values), "price") == Present(values[4])
    ensures Find(Zip(OpenKeys, values), "remaining_size") == Present(values[5])
    ensures Find(Zip(OpenKeys, values), "side") == Present(values[6])
  {
    assert DistinctStrings(OpenKeys);
    FindZip(OpenKeys, values, 0);
    FindZip(OpenKeys, values, 1);
    FindZip(OpenKeys, values, 2);
    FindZip(OpenKeys, values, 3);
    FindZip(OpenKeys, values, 4);
    FindZip(OpenKeys, values, 5);
    FindZip(OpenKeys, values, 6);
  }

  lemma OpenRoundTrip(o: Open)
    ensures DecodeOpen(Named(OpenMembers(o))) == Ok(o)
  {
    var ms := OpenMembers(o);
    OpenKeysAt(OpenValues(o));
    DateTimeFrom(ms, 0, "time", o.time);
    StringFrom(ms, 1, "product_id", o.productId);
    U64From(ms, 2, "sequence", o.sequence);
    StringFrom(ms, 3, "order_id", o.orderId);
    StringFrom(ms, 4, "price", o.price);
    StringFrom(ms, 5, "remaining_size", o.remainingSize);
    StringFrom(ms, 6, "side", o.side);
  }

  /** Where each key of a done message is found among its members, and with
      its null members left out. */
  lemma DoneKeysAt(values: seq<Json>)
    requires |values| == |DoneKeys|
    ensures Find(Zip(DoneKeys, values), "time") == Present(values[0])
    ensures Find(Zip(DoneKeys, values), "product_id") == Present(values[1])
    ensures Find(Zip(DoneKeys, values), "sequence") == Present(values[2])
    ensures Find(Zip(DoneKeys, values), "price") == Present(values[3])
    ensures Find(Zip(DoneKeys, values), "order_id") == Present(values[4])
    ensures Find(Zip(DoneKeys, values), "reason") == Present(values[5])
    ensures Find(Zip(DoneKeys, values), "cancel_reason") == Present(values[6])
    ensures Find(Zip(DoneKeys, values), "side") == Present(values[7])
    ensures Find(Zip(DoneKeys, values), "remaining_size") == Present(values[8])
  {
    assert DistinctStrings(DoneKeys);
    FindZip(DoneKeys, values, 0);
    FindZip(DoneKeys, values, 1);
    FindZip(DoneKeys, values, 2);
    FindZip(DoneKeys, values, 3);
    FindZip(DoneKeys, values, 4);
    FindZip(DoneKeys, values, 5);
    FindZip(DoneKeys, values, 6);
    FindZip(DoneKeys, values, 7);
    FindZip(DoneKeys, values, 8);
  }

  lemma DoneRoundTrip(d: Done)
    ensures DecodeDone(Named(DoneMembers(d))) == Ok(d)
  {
    var ms := DoneMembers(d);
    DoneKeysAt(DoneValues(d));
    DateTimeFrom(ms, 0, "time", d.time);
    StringFrom(ms, 1, "product_id", d.productId);
    U64From(ms, 2, "sequence", d.sequence);
    StringFrom(ms, 3, "price", d.price);
    StringFrom(ms, 4, "order_id", d.orderId);
    StringFrom(ms, 5, "reason", d.reason);
    OptionalStringFrom(ms, 6, "cancel_reason", d.cancelReason);
    StringFrom(ms, 7, "side", d.side);
    StringFrom(ms, 8, "remaining_size", d.remainingSize);
  }

  lemma SparseDoneKeysAt(values: seq<Json>)
    requires |values| == |DoneKeys|
    ensures Find(WithoutNulls(Zip(DoneKeys, values)), "time") == PresentUnlessNull(values[0])
    ensures Find(WithoutNulls(Zip(DoneKeys, values)), "product_id") == PresentUnlessNull(values[1])
    ensures Find(WithoutNulls(Zip(DoneKeys, values)), "sequence") == PresentUnlessNull(values[2])
    ensures Find(WithoutNulls(Zip(DoneKeys, values)), "price") == PresentUnlessNull(values[3])
    ensures Find(WithoutNulls(Zip(DoneKeys, values)), "order_id") == PresentUnlessNull(values[4])
    ensures Find(WithoutNulls(Zip(DoneKeys, values)), "reason") == PresentUnlessNull(values[5])
    ensures Find(WithoutNulls(Zip(DoneKeys, values)), "cancel_reason") == PresentUnlessNull(values[6])
    ensures Find(WithoutNulls(Zip(DoneKeys, values)), "side") == PresentUnlessNull(values[7])
    ensures Find(WithoutNulls(Zip(DoneKeys, values)), "remaining_size") == PresentUnlessNull(values[8])
  {
    var ms := Zip(DoneKeys, values);
    DoneKeysAt(values);
    FindWithoutNulls(ms, "time");
    FindWithoutNulls(ms, "product_id");
    FindWithoutNulls(ms, "sequence");
    FindWithoutNulls(ms, "price");
    FindWithoutNulls(ms, "order_id");
    FindWithoutNulls(ms, "reason");
    FindWithoutNulls(ms, "cancel_reason");
    FindWithoutNulls(ms, "side");
    FindWithoutNulls(ms, "remaining_size");
  }

  /** A done message may leave out `cancel_reason` when it has none. */
  lemma CancelReasonOptional(d: Done)
    ensures DecodeDone(Named(WithoutNulls(DoneMembers(d)))) == Ok(d)
  {
    var ms := WithoutNulls(DoneMembers(d));
    SparseDoneKeysAt(DoneValues(d));
    DateTimeFrom(ms, 0, "time", d.time);
    StringFrom(ms, 1, "product_id", d.productId);
    U64From(ms, 2, "sequence", d.sequence);
    StringFrom(ms, 3, "price", d.price);
    StringFrom(ms, 4, "order_id", d.orderId);
    StringFrom(ms, 5, "reason", d.reason);
    OptionalStringFrom(ms, 6, "cancel_reason", d.cancelReason);
    StringFrom(ms, 7, "side", d.side);
    StringFrom(ms, 8, "remaining_size", d.remainingSize);
  }

  /** Unlike `cancel_reason`, a done message's `price` and `remaining_size` are
      mandatory: missing or null, they fail the message. */
  lemma DoneMandatoryFields(ms: seq<Member>)
    ensures Find(ms, "price").Absent? ==> DecodeDone(Named(ms)).Err?
    ensures Find(ms, "remaining_size").Absent? ==> DecodeDone(Named(ms)).Err?
    ensures Find(ms, "price") == Present(JNull) ==> DecodeDone(Named(ms)).Err?
    ensures Find(ms, "remaining_size") == Present(JNull) ==> DecodeDone(Named(ms)).Err?
  {
  }

  lemma MatchKeysAt(values: seq<Json>)
    requires |values| == |MatchKeys|
    ensures Find(Zip(MatchKeys, values), "trade_id") == Present(values[0])
    ensures Find(Zip(MatchKeys, values), "sequence") == Present(values[1])
    ensures Find(Zip(MatchKeys, values), "maker_order_id") == Present(values[2])
    ensures Find(Zip(MatchKeys, values), "taker_order_id") == Present(values[3])
    ensures Find(Zip(MatchKeys, values), "time") == Present(values[4])
    ensures Find(Zip(MatchKeys, values), "product_id") == Present(values[5])
    ensures Find(Zip(MatchKeys, values), "size") == Present(values[6])
    ensures Find(Zip(MatchKeys, values), "price") == Present(values[7])
    ensures Find(Zip(MatchKeys, values), "side") == Present(values[8])
  {
    assert DistinctStrings(MatchKeys);
    FindZip(MatchKeys, values, 0);
    FindZip(MatchKeys, values, 1);
    FindZip(MatchKeys, values, 2);
    FindZip(MatchKeys, values, 3);
    FindZip(MatchKeys, values, 4);
    FindZip(MatchKeys, values, 5);
    FindZip(MatchKeys, values, 6);
    FindZip(MatchKeys, values, 7);
    FindZip(MatchKeys, values, 8);
  }

  lemma MatchRoundTrip(m: Match)
    ensures DecodeMatch(Named(MatchMembers(m))) == Ok(m)
  {
    var ms := MatchMembers(m);
    MatchKeysAt(MatchValues(m));
    U64From(ms, 0, "trade_id", m.tradeId);
    U64From(ms, 1, "sequence", m.sequence);
    StringFrom(ms, 2, "maker_order_id", m.makerOrderId);
    StringFrom(ms, 3, "taker_order_id", m.takerOrderId);
    DateTimeFrom(ms, 4, "time", m.time);
    StringFrom(ms, 5, "product_id", m.productId);
    StringFrom(ms, 6, "size", m.size);
    StringFrom(ms, 7, "price", m.price);
    StringFrom(ms, 8, "side", m.side);
  }

  lemma ChangeKeysAt(values: seq<Json>)
    requires |values| == |ChangeKeys|
    ensures Find(Zip(ChangeKeys, values), "reason") == Present(values[0])
    ensures Find(Zip(ChangeKeys, values), "time") == Present(values[1])
    ensures Find(Zip(ChangeKeys, values), "sequence") == Present(values[2])
    ensures Find(Zip(ChangeKeys, values), "order_id") == Present(values[3])
    ensures Find(Zip(ChangeKeys, values), "side") == Present(values[4])
    ensures Find(Zip(ChangeKeys, values), "product_id") == Present(values[5])
    ensures Find(Zip(ChangeKeys, values), "old_size") == Present(values[6])
    ensures Find(Zip(ChangeKeys, values), "new_size") == Present(values[7])
    ensures Find(Zip(ChangeKeys, values), "size") == Present(values[8])
    ensures Find(Zip(ChangeKeys, values), "old_price") == Present(values[9])
    ensures Find(Zip(ChangeKeys, values), "new_price") == Present(values[10])
    ensures Find(Zip(ChangeKeys, values), "price") == Present(values[11])
  {
    assert DistinctStrings(ChangeKeys);
    FindZip(ChangeKeys, values, 0);
    FindZip(ChangeKeys, values, 1);
    FindZip(ChangeKeys, values, 2);
    FindZip(ChangeKeys, values, 3);
    FindZip(ChangeKeys, values, 4);
    FindZip(ChangeKeys, values, 5);
    FindZip(ChangeKeys, values, 6);
    FindZip(ChangeKeys, values, 7);
    FindZip(ChangeKeys, values, 8);
    FindZip(ChangeKeys, values, 9);
    FindZip(ChangeKeys, values, 10);
    FindZip(ChangeKeys, values, 11);
  }

  lemma ChangeRoundTrip(c: Change)
    ensures DecodeChange(Named(ChangeMembers(c))) == Ok(c)
  {
    var ms := ChangeMembers(c);
    ChangeKeysAt(ChangeValues(c));
    StringFrom(ms, 0, "reason", c.reason);
    DateTimeFrom(ms, 1, "time", c.time);
    U64From(ms, 2, "sequence", c.sequence);
    StringFrom(ms, 3, "order_id", c.orderId);
    StringFrom(ms, 4, "side", c.side);
    StringFrom(ms, 5, "product_id", c.productId);
    OptionalStringFrom(ms, 6, "old_size", c.oldSize);
    OptionalStringFrom(ms, 7, "new_size", c.newSize);
    OptionalStringFrom(ms, 8, "size", c.size);
    OptionalStringFrom(ms, 9, "old_price", c.oldPrice);
    OptionalStringFrom(ms, 10, "new_price", c.newPrice);
    OptionalStringFrom(ms, 11, "price", c.price);
  }

  lemma SparseChangeKeysAt(values: seq<Json>)
    requires |values| == |ChangeKeys|
    ensures Find(WithoutNulls(Zip(ChangeKeys, values)), "reason") == PresentUnlessNull(values[0])
    ensures Find(WithoutNulls(Zip(ChangeKeys, values)), "time") == PresentUnlessNull(values[1])
    ensures Find(WithoutNulls(Zip(ChangeKeys, values)), "sequence") == PresentUnlessNull(values[2])
    ensures Find(WithoutNulls(Zip(ChangeKeys, values)), "order_id") == PresentUnlessNull(values[3])
    ensures Find(WithoutNulls(Zip(ChangeKeys, values)), "side") == PresentUnlessNull(values[4])
    ensures Find(WithoutNulls(Zip(ChangeKeys, values)), "product_id") == PresentUnlessNull(values[5])
    ensures Find(WithoutNulls(Zip(ChangeKeys, values)), "old_size") == PresentUnlessNull(values[6])
    ensures Find(WithoutNulls(Zip(ChangeKeys, values)), "new_size") == PresentUnlessNull(values[7])
    ensures Find(WithoutNulls(Zip(ChangeKeys, values)), "size") == PresentUnlessNull(values[8])
    ensures Find(WithoutNulls(Zip(ChangeKeys, values)), "old_price") == PresentUnlessNull(values[9])
    ensures Find(WithoutNulls(Zip(ChangeKeys, values)), "new_price") == PresentUnlessNull(values[10])
    ensures Find(WithoutNulls(Zip(ChangeKeys, values)), "price") == PresentUnlessNull(values[11])
  {
    var ms := Zip(ChangeKeys, values);
    ChangeKeysAt(values);
    FindWithoutNulls(ms, "reason");
    FindWithoutNulls(ms, "time");
    FindWithoutNulls(ms, "sequence");
    FindWithoutNulls(ms, "order_id");
    FindWithoutNulls(ms, "side");
    FindWithoutNulls(ms, "product_id");
    FindWithoutNulls(ms, "old_size");
    FindWithoutNulls(ms, "new_size");
    FindWithoutNulls(ms, "size");
    FindWithoutNulls(ms, "old_price");
    FindWithoutNulls(ms, "new_price");
    FindWithoutNulls(ms, "price");
  }

  /** The six price and size fields of a change are independently optional:
      leaving out whichever of them have no value decodes to the same change. */
  lemma ChangeFieldsOptional(c: Change)
    ensures DecodeChange(Named(WithoutNulls(ChangeMembers(c)))) == Ok(c)
  {
    var ms := WithoutNulls(ChangeMembers(c));
    SparseChangeKeysAt(ChangeValues(c));
    StringFrom(ms, 0, "reason", c.reason);
    DateTimeFrom(ms, 1, "time", c.time);
    U64From(ms, 2, "sequence", c.sequence);
    StringFrom(ms, 3, "order_id", c.orderId);
    StringFrom(ms, 4, "side", c.side);
    StringFrom(ms, 5, "product_id", c.productId);
    OptionalStringFrom(ms, 6, "old_size", c.oldSize);
    OptionalStringFrom(ms, 7, "new_size", c.newSize);
    OptionalStringFrom(ms, 8, "size", c.size);
    OptionalStringFrom(ms, 9, "old_price", c.oldPrice);
    OptionalStringFrom(ms, 10, "new_price", c.newPrice);
    OptionalStringFrom(ms, 11, "price", c.price);
  }

  lemma ActivateKeysAt(values: seq<Json>)
    requires |values| == |ActivateKeys|
    ensures Find(Zip(ActivateKeys, values), "product_id") == Present(values[0])
    ensures Find(Zip(ActivateKeys, values), "timestamp") == Present(values[1])
    ensures Find(Zip(ActivateKeys, values), "user_id") == Present(values[2])
    ensures Find(Zip(ActivateKeys, values), "profile_id") == Present(values[3])
    ensures Find(Zip(ActivateKeys, values), "stop_type") == Present(values[4])
    ensures Find(Zip(ActivateKeys, values), "side") == Present(values[5])
    ensures Find(Zip(ActivateKeys, values), "stop_price") == Present(values[6])
    ensures Find(Zip(ActivateKeys, values), "size") == Present(values[7])
    ensures Find(Zip(ActivateKeys, values), "funds") == Present(values[8])
    ensures Find(Zip(ActivateKeys, values), "private") == Present(values[9])
  {
    assert DistinctStrings(ActivateKeys);
    FindZip(ActivateKeys, values, 0);
    FindZip(ActivateKeys, values, 1);
    FindZip(ActivateKeys, values, 2);
    FindZip(ActivateKeys, values, 3);
    FindZip(ActivateKeys, values, 4);
    FindZip(ActivateKeys, values, 5);
    FindZip(ActivateKeys, values, 6);
    FindZip(ActivateKeys, values, 7);
    FindZip(ActivateKeys, values, 8);
    FindZip(ActivateKeys, values, 9);
  }

  lemma ActivateRoundTrip(a: Activate)
    ensures DecodeActivate(Named(ActivateMembers(a))) == Ok(a)
  {
    var ms := ActivateMembers(a);
    ActivateKeysAt(ActivateValues(a));
    StringFrom(ms, 0, "product_id", a.productId);
    StringFrom(ms, 1, "timestamp", a.timestamp);
    StringFrom(ms, 2, "user_id", a.userId);
    StringFrom(ms, 3, "profile_id", a.profileId);
    StringFrom(ms, 4, "stop_type", a.stopType);
    StringFrom(ms, 5, "side", a.side);
    StringFrom(ms, 6, "stop_price", a.stopPrice);
    StringFrom(ms, 7, "size", a.size);
    StringFrom(ms, 8, "funds", a.funds);
    BoolFrom(ms, 9, "private", a.private);
  }

  // Each flat message is read by key alone: members under keys that are not its
  // fields are ignored, so two objects that agree under its keys decode alike.

  lemma OpenReadsItsKeys(a: seq<Member>, b: seq<Member>)
    requires Find(a, "time") == Find(b, "time")
    requires Find(a, "product_id") == Find(b, "product_id")
    requires Find(a, "sequence") == Find(b, "sequence")
    requires Find(a, "order_id") == Find(b, "order_id")
    requires Find(a, "price") == Find(b, "price")
    requires Find(a, "remaining_size") == Find(b, "remaining_size")
    requires Find(a, "side") == Find(b, "side")
    ensures DecodeOpen(Named(a)) == DecodeOpen(Named(b))
  {
    SameDateTime(a, b, 0, "time");
    SameString(a, b, 1, "product_id");
    SameU64(a, b, 2, "sequence");
    SameString(a, b, 3, "order_id");
    SameString(a, b, 4, "price");
    SameString(a, b, 5, "remaining_size");
    SameString(a, b, 6, "side");
  }

  lemma DoneReadsItsKeys(a: seq<Member>, b: seq<Member>)
    requires Find(a, "time") == Find(b, "time")
    requires Find(a, "product_id") == Find(b, "product_id")
    requires Find(a, "sequence") == Find(b, "sequence")
    requires Find(a, "price") == Find(b, "price")
    requires Find(a, "order_id") == Find(b, "order_id")
    requires Find(a, "reason") == Find(b, "reason")
    requires Find(a, "cancel_reason") == Find(b, "cancel_reason")
    requires Find(a, "side") == Find(b, "side")
    requires Find(a, "remaining_size") == Find(b, "remaining_size")
    ensures DecodeDone(Named(a)) == DecodeDone(Named(b))
  {
    SameDateTime(a, b, 0, "time");
    SameString(a, b, 1, "product_id");
    SameU64(a, b, 2, "sequence");
    SameString(a, b, 3, "price");
    SameString(a, b, 4, "order_id");
    SameString(a, b, 5, "reason");
    SameOptionalString(a, b, 6, "cancel_reason");
    SameString(a, b, 7, "side");
    SameString(a, b, 8, "remaining_size");
  }

  lemma MatchReadsItsKeys(a: seq<Member>, b: seq<Member>)
    requires Find(a, "trade_id") == Find(b, "trade_id")
    requires Find(a, "sequence") == Find(b, "sequence")
    requires Find(a, "maker_order_id") == Find(b, "maker_order_id")
    requires Find(a, "taker_order_id") == Find(b, "taker_order_id")
    requires Find(a, "time") == Find(b, "time")
    requires Find(a, "product_id") == Find(b, "product_id")
    requires Find(a, "size") == Find(b, "size")
    requires Find(a, "price") == Find(b, "price")
    requires Find(a, "side") == Find(b, "side")
    ensures DecodeMatch(Named(a)) == DecodeMatch(Named(b))
  {
    SameU64(a, b, 0, "trade_id");
    SameU64(a, b, 1, "sequence");
    SameString(a, b, 2, "maker_order_id");
    SameString(a, b, 3, "taker_order_id");
    SameDateTime(a, b, 4, "time");
    SameString(a, b, 5, "product_id");
    SameString(a, b, 6, "size");
    SameString(a, b, 7, "price");
    SameString(a, b, 8, "side");
  }

  lemma ChangeReadsItsKeys(a: seq<Member>, b: seq<Member>)
    requires Find(a, "reason") == Find(b, "reason")
    requires Find(a, "time") == Find(b, "time")
    requires Find(a, "sequence") == Find(b, "sequence")
    requires Find(a, "order_id") == Find(b, "order_id")
    requires Find(a, "side") == Find(b, "side")
    requires Find(a, "product_id") == Find(b, "product_id")
    requires Find(a, "old_size") == Find(b, "old_size")
    requires Find(a, "new_size") == Find(b, "new_size")
    requires Find(a, "size") == Find(b, "size")
    requires Find(a, "old_price") == Find(b, "old_price")
    requires Find(a, "new_price") == Find(b, "new_price")
    requires Find(a, "price") == Find(b, "price")
    ensures DecodeChange(Named(a)) == DecodeChange(Named(b))
  {
    SameString(a, b, 0, "reason");
    SameDateTime(a, b, 1, "time");
    SameU64(a, b, 2, "sequence");
    SameString(a, b, 3, "order_id");
    SameString(a, b, 4, "side");
    SameString(a, b, 5, "product_id");
    SameOptionalString(a, b, 6, "old_size");
    SameOptionalString(a, b, 7, "new_size");
    SameOptionalString(a, b, 8, "size");
    SameOptionalString(a, b, 9, "old_price");
    SameOptionalString(a, b, 10, "new_price");
    SameOptionalString(a, b, 11, "price");
  }

  lemma ActivateReadsItsKeys(a: seq<Member>, b: seq<Member>)
    requires Find(a, "product_id") == Find(b, "product_id")
    requires Find(a, "timestamp") == Find(b, "timestamp")
    requires Find(a, "user_id") == Find(b, "user_id")
    requires Find(a, "profile_id") == Find(b, "profile_id")
    requires Find(a, "stop_type") == Find(b, "stop_type")
    requires Find(a, "side") == Find(b, "side")
    requires Find(a, "stop_price") == Find(b, "stop_price")
    requires Find(a, "size") == Find(b, "size")
    requires Find(a, "funds") == Find(b, "funds")
    requires Find(a, "private") == Find(b, "private")
    ensures DecodeActivate(Named(a)) == DecodeActivate(Named(b))
  {
    SameString(a, b, 0, "product_id");
    SameString(a, b, 1, "timestamp");
    SameString(a, b, 2, "user_id");
    SameString(a, b, 3, "profile_id");
    SameString(a, b, 4, "stop_type");
    SameString(a, b, 5, "side");
    SameString(a, b, 6, "stop_price");
    SameString(a, b, 7, "size");
    SameString(a, b, 8, "funds");
    SameBool(a, b, 9, "private");
  }

  // A decoded `sequence` (and a match's `trade_id`) came from a JSON integer in
  // 0 .. 2^64-1: any other value under those keys fails the message.

  lemma ReceivedSequence(ms: seq<Member>)
    ensures DecodeReceived(Named(ms)).Ok? ==>
              Find(ms, "sequence") == Present(JInt(DecodeReceived(Named(ms)).value.sequence))
  {
    U64FieldRule(ms, 2, "sequence");
  }

  lemma OpenSequence(ms: seq<Member>)
    ensures DecodeOpen(Named(ms)).Ok? ==>
              Find(ms, "sequence") == Present(JInt(DecodeOpen(Named(ms)).value.sequence))
  {
    U64FieldRule(ms, 2, "sequence");
  }

  lemma DoneSequence(ms: seq<Member>)
    ensures DecodeDone(Named(ms)).Ok? ==>
              Find(ms, "sequence") == Present(JInt(DecodeDone(Named(ms)).value.sequence))
  {
    U64FieldRule(ms, 2, "sequence");
  }

  /** A decoded match's `trade_id` and `sequence` are the fields read under
      those keys. */
  lemma MatchTradeIdField(src: FieldSource)
    ensures DecodeMatch(src).Ok? ==> U64Field(src, 0, "trade_id") == Ok(DecodeMatch(src).value.tradeId)
  {
  }

  lemma MatchSequenceField(src: FieldSource)
    ensures DecodeMatch(src).Ok? ==> U64Field(src, 1, "sequence") == Ok(DecodeMatch(src).value.sequence)
  {
  }

  lemma MatchSequence(ms: seq<Member>)
    ensures DecodeMatch(Named(ms)).Ok? ==>
              Find(ms, "trade_id") == Present(JInt(DecodeMatch(Named(ms)).value.tradeId))
    ensures DecodeMatch(Named(ms)).Ok? ==>
              Find(ms, "sequence") == Present(JInt(DecodeMatch(Named(ms)).value.sequence))
  {
    MatchTradeIdField(Named(ms));
    MatchSequenceField(Named(ms));
    U64FieldRule(ms, 0, "trade_id");
    U64FieldRule(ms, 1, "sequence");
  }

  /** A decoded change's `sequence` is the field read under that key. */
  lemma ChangeSequenceField(src: FieldSource)
    ensures DecodeChange(src).Ok? ==> U64Field(src, 2, "sequence") == Ok(DecodeChange(src).value.sequence)
  {
  }

  lemma ChangeSequence(ms: seq<Member>)
    ensures DecodeChange(Named(ms)).Ok? ==>
              Find(ms, "sequence") == Present(JInt(DecodeChange(Named(ms)).value.sequence))
  {
    ChangeSequenceField(Named(ms));
    U64FieldRule(ms, 2, "sequence");
  }
}
