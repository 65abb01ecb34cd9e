/** The full-channel message envelope: one enum whose variant is named by the
    member "type", the variant's own fields sitting beside it in the same
    object. */
module Messages {
  import opened Wrappers
  import opened JsonTree
  import opened Serde
  import Channels
  import Orders

  /** A message of the full channel, or a subscription control message. */
  datatype Message =
    | Subscribe(subscribe: Channels.Subscribe)
    | Subscription(subscription: Channels.Subscription)
    | Unsubscribe(unsubscribe: Channels.Unsubscribe)
    | Received(received: Orders.Received)
    | Open(open: Orders.Open)
    | Done(done: Orders.Done)
    | Match(trade: Orders.Match)
    | Change(change: Orders.Change)
    | Activate(activate: Orders.Activate)

  /** The nine names the "type" member may hold, in declaration order. */
  const Tags: seq<string> :=
    ["subscribe", "subscription", "unsubscribe", "received", "open", "done", "match", "change", "activate"]

  /** The name a message is written under. */
  function Tag(m: Message): string {
    match m
    case Subscribe(_) => "subscribe"
    case Subscription(_) => "subscription"
    case Unsubscribe(_) => "unsubscribe"
    case Received(_) => "received"
    case Open(_) => "open"
    case Done(_) => "done"
    case Match(_) => "match"
    case Change(_) => "change"
    case Activate(_) => "activate"
  }

  // ---------------------------------------------------------------- decoding

  /** The tag is read as a variant name, which only a string can be. */
  function TagName(j: Json): Decoded<string> {
    if j.JStr? then Ok(j.s) else Err(InvalidType("variant identifier"))
  }

  // One decoder per variant: the variant's own fields, wrapped in the variant.

  function SubscribeArm(src: FieldSource): (r: Decoded<Message>)
    ensures r.Ok? ==> r.value.Subscribe?
    ensures r.Ok? ==> Tag(r.value) == "subscribe"
  {
    var x :- Channels.DecodeSubscribe(src); Ok(Subscribe(x))
  }

  function SubscriptionArm(src: FieldSource): (r: Decoded<Message>)
    ensures r.Ok? ==> r.value.Subscription?
    ensures r.Ok? ==> Tag(r.value) == "subscription"
  {
    var x :- Channels.DecodeSubscription(src); Ok(Subscription(x))
  }

  function UnsubscribeArm(src: FieldSource): (r: Decoded<Message>)
    ensures r.Ok? ==> r.value.Unsubscribe?
    ensures r.Ok? ==> Tag(r.value) == "unsubscribe"
  {
    var x :- Channels.DecodeUnsubscribe(src); Ok(Unsubscribe(x))
  }

  function ReceivedArm(src: FieldSource): (r: Decoded<Message>)
    ensures r.Ok? ==> r.value.Received?
    ensures r.Ok? ==> Tag(r.value) == "received"
  {
    var x :- Orders.DecodeReceived(src); Ok(Received(x))
  }

  function OpenArm(src: FieldSource): (r: Decoded<Message>)
    ensures r.Ok? ==> r.value.Open?
    ensures r.Ok? ==> Tag(r.value) == "open"
  {
    var x :- Orders.DecodeOpen(src); Ok(Open(x))
  }

  function DoneArm(src: FieldSource): (r: Decoded<Message>)
    ensures r.Ok? ==> r.value.Done?
    ensures r.Ok? ==> Tag(r.value) == "done"
  {
    var x :- Orders.DecodeDone(src); Ok(Done(x))
  }

  function MatchArm(src: FieldSource): (r: Decoded<Message>)
    ensures r.Ok? ==> r.value.Match?
    ensures r.Ok? ==> Tag(r.value) == "match"
  {
    var x :- Orders.DecodeMatch(src); Ok(Match(x))
  }

  function ChangeArm(src: FieldSource): (r: Decoded<Message>)
    ensures r.Ok? ==> r.value.Change?
    ensures r.Ok? ==> Tag(r.value) == "change"
  {
    var x :- Orders.DecodeChange(src); Ok(Change(x))
  }

  function ActivateArm(src: FieldSource): (r: Decoded<Message>)
    ensures r.Ok? ==> r.value.Activate?
    ensures r.Ok? ==> Tag(r.value) == "activate"
  {
    var x :- Orders.DecodeActivate(src); Ok(Activate(x))
  }

  /** The decoder of the variant `tag` names, if it names one. */
  function ArmDecoder(tag: string): Option<FieldSource -> Decoded<Message>> {
    if tag == "subscribe" then Some(SubscribeArm)
    else if tag == "subscription" then Some(SubscriptionArm)
    else if tag == "unsubscribe" then Some(UnsubscribeArm)
    else if tag == "received" then Some(ReceivedArm)
    else if tag == "open" then Some(OpenArm)
    else if tag == "done" then Some(DoneArm)
    else if tag == "match" then Some(MatchArm)
    else if tag == "change" then Some(ChangeArm)
    else if tag == "activate" then Some(ActivateArm)
    else None
  }

  /** The variant `tag` names, read from the fields beside the tag; a name
      that is not one of the nine is an unknown variant. */
  function DecodeArm(tag: string, src: FieldSource): (r: Decoded<Message>)
    ensures r.Ok? ==> Tag(r.value) == tag
    ensures tag !in Tags ==> r == Err(UnknownVariant(tag))
  {
    match ArmDecoder(tag)
    case None => Err(UnknownVariant(tag))
    case Some(arm) => arm(src)
  }

  /** An object names its variant in the member "type" and holds the variant's
      fields beside it; an array holds the tag first and the fields after it,
      by position. */
  function DecodeMessage(j: Json): Decoded<Message> {
    match j
    case JObj(ms) =>
      (match Find(ms, "type")
       case Absent => Err(MissingField("type"))
       case Repeated => Err(DuplicateField("type"))
       case Present(t) =>
         var tag :- TagName(t);
         DecodeArm(tag, Named(Without(ms, {"type"}))))
    case JArr(items) =>
      if |items| == 0 then Err(MissingField("type"))
      else
        var tag :- TagName(items[0]);
        DecodeArm(tag, Positional(items[1..]))
    case _ => Err(InvalidType("internally tagged enum CBMesasge"))
  }

  // ---------------------------------------------------------------- encoding

  /** The fields of the variant, as they are written after the tag. */
  function Members(m: Message): seq<Member> {
    match m
    case Subscribe(s) => Channels.SubscribeMembers(s)
    case Subscription(s) => Channels.SubscriptionMembers(s)
    case Unsubscribe(u) => Channels.UnsubscribeMembers(u)
    case Received(r) => Orders.ReceivedMembers(r)
    case Open(o) => Orders.OpenMembers(o)
    case Done(d) => Orders.DoneMembers(d)
    case Match(t) => Orders.MatchMembers(t)
    case Change(c) => Orders.ChangeMembers(c)
    case Activate(a) => Orders.ActivateMembers(a)
  }

  /** A message is written as an object: the tag first, then its fields. */
  function EncodeMessage(m: Message): Json {
    JObj([("type", JStr(Tag(m)))] + Members(m))
  }

  // ------------------------------------------------------------ properties

  /** Behind a leading tag the decoder sees exactly the members that follow. */
  lemma {:induction false} TagThenMembers(tag: Json, rest: seq<Member>)
    requires !HasKey(rest, "type")
    ensures Find([("type", tag)] + rest, "type") == Present(tag)
    ensures Without([("type", tag)] + rest, {"type"}) == rest
  {
    FindFirst(("type", tag), rest);
    assert ([("type", tag)] + rest)[1..] == rest;
    WithoutNone(rest, {"type"});
  }

  /** A message written as its tag followed by members without "type" is read
      as the variant the tag names, from those members. */
  lemma Envelope(tag: string, rest: seq<Member>)
    requires !HasKey(rest, "type")
    ensures DecodeMessage(JObj([("type", JStr(tag))] + rest)) == DecodeArm(tag, Named(rest))
  {
    TagThenMembers(JStr(tag), rest);
  }

  // For each variant: its fields never include "type", and they decode back to
  // the variant.

  lemma SubscribeArmDecodes(s: Channels.Subscribe)
    ensures SubscribeArm(Named(Members(Subscribe(s)))) == Ok(Subscribe(s))
  {
    Channels.SubscribeRoundTrip(s);
  }

  lemma SubscribeArmRoundTrip(s: Channels.Subscribe)
    ensures !HasKey(Members(Subscribe(s)), "type")
    ensures DecodeArm(Tag(Subscribe(s)), Named(Members(Subscribe(s)))) == Ok(Subscribe(s))
  {
    ZipHasOnlyItsKeys(Channels.SubscribeKeys, Channels.SubscribeValues(s), "type");
    SubscribeArmDecodes(s);
  }

  lemma SubscriptionArmDecodes(s: Channels.Subscription)
    ensures SubscriptionArm(Named(Members(Subscription(s)))) == Ok(Subscription(s))
  {
    Channels.SubscriptionRoundTrip(s);
  }

  lemma SubscriptionArmRoundTrip(s: Channels.Subscription)
    ensures !HasKey(Members(Subscription(s)), "type")
    ensures DecodeArm(Tag(Subscription(s)), Named(Members(Subscription(s)))) == Ok(Subscription(s))
  {
    ZipHasOnlyItsKeys(Channels.SubscriptionKeys, Channels.SubscriptionValues(s), "type");
    SubscriptionArmDecodes(s);
  }

  lemma UnsubscribeArmDecodes(u: Channels.Unsubscribe)
    ensures UnsubscribeArm(Named(Members(Unsubscribe(u)))) == Ok(Unsubscribe(u))
  {
    Channels.UnsubscribeRoundTrip(u);
  }

  lemma UnsubscribeArmRoundTrip(u: Channels.Unsubscribe)
    ensures !HasKey(Members(Unsubscribe(u)), "type")
    ensures DecodeArm(Tag(Unsubscribe(u)), Named(Members(Unsubscribe(u)))) == Ok(Unsubscribe(u))
  {
    ZipHasOnlyItsKeys(Channels.UnsubscribeKeys, Channels.UnsubscribeValues(u), "type");
    UnsubscribeArmDecodes(u);
  }

  lemma ReceivedArmDecodes(r: Orders.Received)
    ensures ReceivedArm(Named(Members(Received(r)))) == Ok(Received(r))
  {
    Orders.ReceivedRoundTrip(r);
  }

  lemma ReceivedArmRoundTrip(r: Orders.Received)
    ensures !HasKey(Members(Received(r)), "type")
    ensures DecodeArm(Tag(Received(r)), Named(Members(Received(r)))) == Ok(Received(r))
  {
    ZipHasOnlyItsKeys(Orders.ReceivedKeys(r.orderType), Orders.ReceivedValues(r), "type");
    ReceivedArmDecodes(r);
  }

  lemma OpenArmDecodes(o: Orders.Open)
    ensures OpenArm(Named(Members(Open(o)))) == Ok(Open(o))
  {
    Orders.OpenRoundTrip(o);
  }

  lemma OpenArmRoundTrip(o: Orders.Open)
    ensures !HasKey(Members(Open(o)), "type")
    ensures DecodeArm(Tag(Open(o)), Named(Members(Open(o)))) == Ok(Open(o))
  {
    ZipHasOnlyItsKeys(Orders.OpenKeys, Orders.OpenValues(o), "type");
    OpenArmDecodes(o);
  }

  lemma DoneArmDecodes(d: Orders.Done)
    ensures DoneArm(Named(Members(Done(d)))) == Ok(Done(d))
  {
    Orders.DoneRoundTrip(d);
  }

  lemma DoneArmRoundTrip(d: Orders.Done)
    ensures !HasKey(Members(Done(d)), "type")
    ensures DecodeArm(Tag(Done(d)), Named(Members(Done(d)))) == Ok(Done(d))
  {
    ZipHasOnlyItsKeys(Orders.DoneKeys, Orders.DoneValues(d), "type");
    DoneArmDecodes(d);
  }

  lemma MatchArmDecodes(t: Orders.Match)
    ensures MatchArm(Named(Members(Match(t)))) == Ok(Match(t))
  {
    Orders.MatchRoundTrip(t);
  }

  lemma MatchArmRoundTrip(t: Orders.Match)
    ensures !HasKey(Members(Match(t)), "type")
    ensures DecodeArm(Tag(Match(t)), Named(Members(Match(t)))) == Ok(Match(t))
  {
    ZipHasOnlyItsKeys(Orders.MatchKeys, Orders.MatchValues(t), "type");
    MatchArmDecodes(t);
  }

  lemma ChangeArmDecodes(c: Orders.Change)
    ensures ChangeArm(Named(Members(Change(c)))) == Ok(Change(c))
  {
    Orders.ChangeRoundTrip(c);
  }

  lemma ChangeArmRoundTrip(c: Orders.Change)
    ensures !HasKey(Members(Change(c)), "type")
    ensures DecodeArm(Tag(Change(c)), Named(Members(Change(c)))) == Ok(Change(c))
  {
    ZipHasOnlyItsKeys(Orders.ChangeKeys, Orders.ChangeValues(c), "type");
    ChangeArmDecodes(c);
  }

  lemma ActivateArmDecodes(a: Orders.Activate)
    ensures ActivateArm(Named(Members(Activate(a)))) == Ok(Activate(a))
  {
    Orders.ActivateRoundTrip(a);
  }

  lemma ActivateArmRoundTrip(a: Orders.Activate)
    ensures !HasKey(Members(Activate(a)), "type")
    ensures DecodeArm(Tag(Activate(a)), Named(Members(Activate(a)))) == Ok(Activate(a))
  {
    ZipHasOnlyItsKeys(Orders.ActivateKeys, Orders.ActivateValues(a), "type");
    ActivateArmDecodes(a);
  }

  /** The fields of each variant decode to that variant's value. */
  lemma ArmRoundTrip(m: Message)
    ensures !HasKey(Members(m), "type")
    ensures DecodeArm(Tag(m), Named(Members(m))) == Ok(m)
  {
    match m
    case Subscribe(s) => SubscribeArmRoundTrip(s);
    case Subscription(s) => SubscriptionArmRoundTrip(s);
    case Unsubscribe(u) => UnsubscribeArmRoundTrip(u);
    case Received(r) => ReceivedArmRoundTrip(r);
    case Open(o) => OpenArmRoundTrip(o);
    case Done(d) => DoneArmRoundTrip(d);
    case Match(t) => MatchArmRoundTrip(t);
    case Change(c) => ChangeArmRoundTrip(c);
    case Activate(a) => ActivateArmRoundTrip(a);
  }

  /** Every message is written with its tag first and reads back as itself. */
  lemma MessageRoundTrip(m: Message)
    ensures EncodeMessage(m).JObj? && EncodeMessage(m).members[0] == ("type", JStr(Tag(m)))
    ensures DecodeMessage(EncodeMessage(m)) == Ok(m)
  {
    ArmRoundTrip(m);
    Envelope(Tag(m), Members(m));
  }

  /** Whatever decodes as a message carried the message's tag as a string:
      under "type" in an object, or first in an array. */
  lemma DecodedHasItsTag(j: Json)
    ensures DecodeMessage(j).Ok? && j.JObj? ==>
              Find(j.members, "type") == Present(JStr(Tag(DecodeMessage(j).value)))
    ensures DecodeMessage(j).Ok? && j.JArr? ==>
              |j.items| > 0 && j.items[0] == JStr(Tag(DecodeMessage(j).value))
    ensures DecodeMessage(j).Ok? ==> j.JObj? || j.JArr?
  {
    match j
    case JObj(ms) =>

    case JArr(items) =>
    case _ =>
  }

  /** A missing, repeated, non-string or unknown tag fails the whole message. */
  lemma BadTags(ms: seq<Member>)
    ensures Find(ms, "type").Absent? ==> DecodeMessage(JObj(ms)) == Err(MissingField("type"))
    ensures Find(ms, "type").Repeated? ==> DecodeMessage(JObj(ms)) == Err(DuplicateField("type"))
    ensures Find(ms, "type").Present? && !Find(ms, "type").value.JStr? ==>
              DecodeMessage(JObj(ms)) == Err(InvalidType("variant identifier"))
    ensures forall t :: Find(ms, "type") == Present(JStr(t)) && t !in Tags ==>
              DecodeMessage(JObj(ms)) == Err(UnknownVariant(t))
    ensures DecodeMessage(JArr([])) == Err(MissingField("type"))
  {
  }

  /** A received message flattens its order type into itself, so it has no
      array form. */
  lemma ReceivedOnlyFromObject(items: seq<Json>)
    ensures DecodeMessage(JArr(items)).Ok? ==> !DecodeMessage(JArr(items)).value.Received?
  {
  }

  // A decoded sequence number, and a decoded match's trade id, came from a JSON
  // integer in 0 .. 2^64-1 under its key: a negative, larger, fractional or
  // non-numeric value there fails the message.

  lemma ReceivedMessageSequence(ms: seq<Member>)
    requires Find(ms, "type") == Present(JStr("received"))
    ensures DecodeMessage(JObj(ms)).Ok? ==>
              Find(ms, "sequence") == Present(JInt(DecodeMessage(JObj(ms)).value.received.sequence))
  {
    var rest := Without(ms, {"type"});
    assert Find(rest, "sequence") == Find(ms, "sequence");
    assert DecodeMessage(JObj(ms)) == ReceivedArm(Named(rest));
    Orders.ReceivedSequence(rest);
  }

  lemma OpenMessageSequence(ms: seq<Member>)
    requires Find(ms, "type") == Present(JStr("open"))
    ensures DecodeMessage(JObj(ms)).Ok? ==>
              Find(ms, "sequence") == Present(JInt(DecodeMessage(JObj(ms)).value.open.sequence))
  {
    var rest := Without(ms, {"type"});
    assert Find(rest, "sequence") == Find(ms, "sequence");
    assert DecodeMessage(JObj(ms)) == OpenArm(Named(rest));
    Orders.OpenSequence(rest);
  }

  lemma DoneMessageSequence(ms: seq<Member>)
    requires Find(ms, "type") == Present(JStr("done"))
    ensures DecodeMessage(JObj(ms)).Ok? ==>
              Find(ms, "sequence") == Present(JInt(DecodeMessage(JObj(ms)).value.done.sequence))
  {
    var rest := Without(ms, {"type"});
    assert Find(rest, "sequence") == Find(ms, "sequence");
    assert DecodeMessage(JObj(ms)) == DoneArm(Named(rest));
    Orders.DoneSequence(rest);
  }

  lemma MatchMessageSequence(ms: seq<Member>)
    requires Find(ms, "type") == Present(JStr("match"))
    ensures DecodeMessage(JObj(ms)).Ok? ==>
              Find(ms, "sequence") == Present(JInt(DecodeMessage(JObj(ms)).value.trade.sequence))
    ensures DecodeMessage(JObj(ms)).Ok? ==>
              Find(ms, "trade_id") == Present(JInt(DecodeMessage(JObj(ms)).value.trade.tradeId))
  {
    var rest := Without(ms, {"type"});
    assert Find(rest, "sequence") == Find(ms, "sequence");
    assert Find(rest, "trade_id") == Find(ms, "trade_id");
    assert DecodeMessage(JObj(ms)) == MatchArm(Named(rest));
    Orders.MatchSequence(rest);
  }

  lemma ChangeMessageSequence(ms: seq<Member>)
    requires Find(ms, "type") == Present(JStr("change"))
    ensures DecodeMessage(JObj(ms)).Ok? ==>
              Find(ms, "sequence") == Present(JInt(DecodeMessage(JObj(ms)).value.change.sequence))
  {
    var rest := Without(ms, {"type"});
    assert Find(rest, "sequence") == Find(ms, "sequence");
    assert DecodeMessage(JObj(ms)) == ChangeArm(Named(rest));
    Orders.ChangeSequence(rest);
  }
}
