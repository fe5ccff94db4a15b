/** The MQTT packets of the bootstrap broker and its test client: parsing undoes building. Texts are their bytes;
    which bytes are UTF-8 is a parameter. */
module MqttPackets {
  import opened Wrappers
  import opened Bytes
  import opened MqttLength
  import opened MqttStream

  type Utf8 = seq<Byte> -> bool

  // ---------------------------------------------------------------- fields

  /** A length of two bytes and that many bytes. */
  function Field(value: seq<Byte>): seq<Byte>
    requires |value| <= 65535
  {
    Be16(|value|) + value
  }

  function ReadU16(s: seq<Byte>): Result<(nat, seq<Byte>)> {
    if |s| < 2 then Refused else Accepted((FromBe16(s[..2]), s[2..]))
  }

  function ReadBinary(s: seq<Byte>): Result<(seq<Byte>, seq<Byte>)> {
    if |s| < 2 then Refused
    else
      var n := FromBe16(s[..2]);
      if 2 + n > |s| then Refused else Accepted((s[2..2 + n], s[2 + n..]))
  }

  lemma ReadU16Built(n: nat, rest: seq<Byte>)
    requires n < 65536
    ensures ReadU16(Be16(n) + rest) == Accepted((n, rest))
  {
    assert (Be16(n) + rest)[..2] == Be16(n) && (Be16(n) + rest)[2..] == rest;
    Be16RoundTrip(n);
  }

  lemma ReadBinaryBuilt(value: seq<Byte>, rest: seq<Byte>)
    requires |value| <= 65535
    ensures ReadBinary(Field(value) + rest) == Accepted((value, rest))
  {
    var s := Field(value) + rest;
    assert s[..2] == Be16(|value|) && s[2..2 + |value|] == value && s[2 + |value|..] == rest;
    Be16RoundTrip(|value|);
  }

  /** The part of a packet behind its length field, if the length field covers exactly that. */
  function BodyOf(packet: seq<Byte>): Result<seq<Byte>>
    requires packet != []
  {
    match Decode(packet[1..], 4)
    case None => Refused
    case Some((remaining, used)) =>
      if 1 + used + remaining != |packet| then Refused else Accepted(packet[1 + used..])
  }

  lemma BodyOfBuilt(first: Byte, body: seq<Byte>)
    requires |body| <= MAX_LENGTH
    ensures BodyOf(BuildPacket(first, body)) == Accepted(body)
  {
    Pow128Values();
    EncodeDecode(|body|, body, 4);
    var p := BuildPacket(first, body);
    assert p[1..] == Encode(|body|) + body;
    assert p[1 + |Encode(|body|)|..] == body;
  }

  /** After `recv_packet`, no parser finds a length mismatch. */
  lemma NoLengthMismatch(stream: seq<Byte>)
    requires FirstPacket(stream).Packet?
    ensures FirstPacket(stream).bytes != [] && BodyOf(FirstPacket(stream).bytes).Accepted?
  {
    ReceivedLengthMatches(stream);
  }

  // ---------------------------------------------------------------- PUBLISH

  datatype Publish = Publish(topic: seq<Byte>, payload: seq<Byte>, qos: nat, packetId: Option<nat>)

  function BuildPublish(topic: seq<Byte>, payload: seq<Byte>, packetId: int, qos: int): Result<seq<Byte>> {
    if qos != 0 && qos != 1 then Refused
    else if |topic| > 65535 then Refused
    else if qos != 0 && !(1 <= packetId <= 65535) then Refused
    else
      var body := Field(topic) + ((if qos != 0 then Be16(packetId) else []) + payload);
      if |body| > MAX_LENGTH then Refused else Accepted(BuildPacket(0x30 + 2 * qos, body))
  }

  function ParsePublishBody(utf8: Utf8, qos: nat, body: seq<Byte>): Result<Publish> {
    match ReadBinary(body)
    case Refused => Refused
    case Accepted((topic, rest)) =>
      if qos == 0 then
        (if utf8(topic) then Accepted(Publish(topic, rest, 0, None)) else Refused)
      else
        match ReadU16(rest)
        case Refused => Refused
        case Accepted((id, payload)) =>
          if utf8(topic) then Accepted(Publish(topic, payload, qos, Some(id))) else Refused
  }

  function ParsePublish(utf8: Utf8, packet: seq<Byte>): Result<Publish> {
    if packet == [] || packet[0] / 16 != 3 then Refused
    else
      match BodyOf(packet)
      case Refused => Refused
      case Accepted(body) =>
        var qos := packet[0] / 2 % 4;
        if qos == 3 then Refused else ParsePublishBody(utf8, qos, body)
  }

  lemma PublishBodyRead(utf8: Utf8, topic: seq<Byte>, payload: seq<Byte>, packetId: nat, qos: nat)
    requires utf8(topic) && |topic| <= 65535 && (qos != 0 ==> packetId <= 65535)
    ensures ParsePublishBody(utf8, qos, Field(topic) + ((if qos != 0 then Be16(packetId) else []) + payload))
         == Accepted(Publish(topic, payload, qos, if qos == 0 then None else Some(packetId)))
  {
    var id := if qos != 0 then Be16(packetId) else [];
    ReadBinaryBuilt(topic, id + payload);
    if qos != 0 {
      ReadU16Built(packetId, payload);
    } else {
      assert id + payload == payload;
    }
  }

  lemma PublishRoundTrip(utf8: Utf8, topic: seq<Byte>, payload: seq<Byte>, packetId: int, qos: int)
    requires utf8(topic) && BuildPublish(topic, payload, packetId, qos).Accepted?
    ensures ParsePublish(utf8, BuildPublish(topic, payload, packetId, qos).value)
         == Accepted(Publish(topic, payload, qos, if qos == 0 then None else Some(packetId)))
  {
    var body := Field(topic) + ((if qos != 0 then Be16(packetId) else []) + payload);
    BodyOfBuilt(0x30 + 2 * qos, body);
    PublishBodyRead(utf8, topic, payload, if qos == 0 then 0 else packetId, qos);
  }

  // ---------------------------------------------------------------- SUBSCRIBE

  datatype Subscribe = Subscribe(packetId: nat, topics: seq<(seq<Byte>, nat)>)

  function BuildSubscribe(topic: seq<Byte>, packetId: int): Result<seq<Byte>> {
    if !(0 <= packetId <= 65535) || |topic| > 65535 then Refused
    else Accepted(BuildPacket(0x82, Be16(packetId) + (Field(topic) + [0])))
  }

  /** The requested topics and levels that fill `s`. */
  function ReadTopics(utf8: Utf8, s: seq<Byte>): Result<seq<(seq<Byte>, nat)>>
    decreases |s|
  {
    if s == [] then Accepted([])
    else
      match ReadBinary(s)
      case Refused => Refused
      case Accepted((topic, rest)) =>
        if rest == [] || rest[0] > 2 || !utf8(topic) then Refused
        else
          match ReadTopics(utf8, rest[1..])
          case Refused => Refused
          case Accepted(topics) => Accepted([(topic, rest[0])] + topics)
  }

  function ParsedSubscribeBody(utf8: Utf8, body: seq<Byte>): Result<Subscribe> {
    match ReadU16(body)
    case Refused => Refused
    case Accepted((id, rest)) =>
      match ReadTopics(utf8, rest)
      case Refused => Refused
      case Accepted(topics) => if topics == [] then Refused else Accepted(Subscribe(id, topics))
  }

  function ParsedSubscribe(utf8: Utf8, packet: seq<Byte>): Result<Subscribe> {
    if packet == [] || packet[0] / 16 != 8 || packet[0] % 16 != 2 then Refused
    else
      match BodyOf(packet)
      case Refused => Refused
      case Accepted(body) => ParsedSubscribeBody(utf8, body)
  }

  lemma OneTopic(utf8: Utf8, topic: seq<Byte>)
    requires utf8(topic) && |topic| <= 65535
    ensures ReadTopics(utf8, Field(topic) + [0]) == Accepted([(topic, 0)])
  {
    ReadBinaryBuilt(topic, [0]);
    var rest: seq<Byte> := [0];
    assert rest[1..] == [] && ReadTopics(utf8, []) == Accepted([]);
    assert [(topic, 0)] + [] == [(topic, 0)];
  }

  lemma SubscribeRoundTrip(utf8: Utf8, topic: seq<Byte>, packetId: int)
    requires utf8(topic) && BuildSubscribe(topic, packetId).Accepted?
    ensures ParsedSubscribe(utf8, BuildSubscribe(topic, packetId).value)
         == Accepted(Subscribe(packetId, [(topic, 0)]))
  {
    var request := Field(topic) + [0];
    BodyOfBuilt(0x82, Be16(packetId) + request);
    ReadU16Built(packetId, request);
    OneTopic(utf8, topic);
  }

  lemma TopicsStep(utf8: Utf8, s: seq<Byte>, topic: seq<Byte>, rest: seq<Byte>)
    requires s != [] && ReadBinary(s) == Accepted((topic, rest))
    ensures |rest| < |s|
    ensures rest == [] || rest[0] > 2 || !utf8(topic) ==> ReadTopics(utf8, s).Refused?
    ensures rest != [] && rest[0] <= 2 && utf8(topic) ==>
      ReadTopics(utf8, s) == PrependTopics([(topic, rest[0])], ReadTopics(utf8, rest[1..]))
  {
  }

  function PrependTopics(a: seq<(seq<Byte>, nat)>, tail: Result<seq<(seq<Byte>, nat)>>): Result<seq<(seq<Byte>, nat)>> {
    match tail case Refused => Refused case Accepted(b) => Accepted(a + b)
  }

  lemma PrependTopicsJoins(a: seq<(seq<Byte>, nat)>, b: seq<(seq<Byte>, nat)>, tail: Result<seq<(seq<Byte>, nat)>>)
    ensures PrependTopics(a, PrependTopics(b, tail)) == PrependTopics(a + b, tail)
    ensures PrependTopics([], tail) == tail && PrependTopics(a, Accepted([])) == Accepted(a)
  {
    assert a + [] == a;
    match tail
    case Refused =>
    case Accepted(c) => assert a + (b + c) == (a + b) + c && [] + c == c;
  }

  /** The loop over the requested topics. */
  method ParseTopics(utf8: Utf8, s: seq<Byte>) returns (r: Result<seq<(seq<Byte>, nat)>>)
    ensures r == ReadTopics(utf8, s)
  {
    var topics: seq<(seq<Byte>, nat)>, left := [], s;
    PrependTopicsJoins([], [], ReadTopics(utf8, s));
    while left != []
      invariant ReadTopics(utf8, s) == PrependTopics(topics, ReadTopics(utf8, left))
      decreases |left|
    {
      match ReadBinary(left) {
        case Refused => return Refused;
        case Accepted((topic, rest)) =>
          TopicsStep(utf8, left, topic, rest);
          if rest == [] || rest[0] > 2 || !utf8(topic) {
            return Refused;
          }
          PrependTopicsJoins(topics, [(topic, rest[0])], ReadTopics(utf8, rest[1..]));
          topics, left := topics + [(topic, rest[0])], rest[1..];
      }
    }
    PrependTopicsJoins(topics, [], Refused);
    r := Accepted(topics);
  }

  // ---------------------------------------------------------------- CONNECT

  datatype Connect = Connect(clientId: seq<Byte>, username: Option<seq<Byte>>, password: Option<seq<Byte>>,
                             keepAlive: nat, protocolLevel: nat)

  const MQTT: seq<Byte> := [0x4d, 0x51, 0x54, 0x54]
  const MQISDP: seq<Byte> := [0x4d, 0x51, 0x49, 0x73, 0x64, 0x70]

  function BuildClientConnect(clientId: seq<Byte>, username: seq<Byte>, password: seq<Byte>): Result<seq<Byte>> {
    if |clientId| > 65535 || |username| > 65535 || |password| > 65535 then Refused
    else
      var identity := Field(clientId) + (Field(username) + (Field(password) + []));
      Accepted(BuildPacket(0x10, Field(MQTT) + ([4, 0xc2, 0x00, 0x5a] + identity)))
  }

  /** A field that is there only when its flag is set. */
  function ReadOptional(present: bool, s: seq<Byte>): Result<(Option<seq<Byte>>, seq<Byte>)> {
    if !present then Accepted((None, s))
    else
      match ReadBinary(s)
      case Refused => Refused
      case Accepted((value, rest)) => Accepted((Some(value), rest))
  }

  /** Client id, will topic and payload, user name and password, as far as the flags ask for them. */
  function ReadIdentity(flags: nat, s: seq<Byte>): Result<(seq<Byte>, Option<seq<Byte>>, Option<seq<Byte>>)> {
    match ReadBinary(s)
    case Refused => Refused
    case Accepted((clientId, s1)) =>
      match ReadOptional(flags / 4 % 2 == 1, s1)
      case Refused => Refused
      case Accepted((_, s2)) =>
        match ReadOptional(flags / 4 % 2 == 1, s2)
        case Refused => Refused
        case Accepted((_, s3)) =>
          match ReadOptional(flags / 128 % 2 == 1, s3)
          case Refused => Refused
          case Accepted((username, s4)) =>
            match ReadOptional(flags / 64 % 2 == 1, s4)
            case Refused => Refused
            case Accepted((password, s5)) => if s5 != [] then Refused else Accepted((clientId, username, password))
  }

  /** Everything after the protocol name. */
  function ParseConnectRest(utf8: Utf8, name: seq<Byte>, rest: seq<Byte>): Result<Connect> {
    if |rest| < 4 || ((name, rest[0]) != (MQISDP, 3) && (name, rest[0]) != (MQTT, 4)) || rest[1] % 2 == 1 then Refused
    else
      match ReadIdentity(rest[1], rest[4..])
      case Refused => Refused
      case Accepted((clientId, username, password)) =>
        if !utf8(clientId) || (username.Some? && !utf8(username.value)) then Refused
        else Accepted(Connect(clientId, username, password, FromBe16(rest[2..4]), rest[0]))
  }

  function ParseConnect(utf8: Utf8, packet: seq<Byte>): Result<Connect> {
    if packet == [] || packet[0] / 16 != 1 then Refused
    else
      match BodyOf(packet)
      case Refused => Refused
      case Accepted(body) =>
        match ReadBinary(body)
        case Refused => Refused
        case Accepted((name, rest)) => ParseConnectRest(utf8, name, rest)
  }

  lemma IdentityBuilt(clientId: seq<Byte>, username: seq<Byte>, password: seq<Byte>)
    requires |clientId| <= 65535 && |username| <= 65535 && |password| <= 65535
    ensures ReadIdentity(0xc2, Field(clientId) + (Field(username) + (Field(password) + [])))
         == Accepted((clientId, Some(username), Some(password)))
  {
    ReadBinaryBuilt(clientId, Field(username) + (Field(password) + []));
    ReadBinaryBuilt(username, Field(password) + []);
    ReadBinaryBuilt(password, []);
  }

  lemma ConnectRestBuilt(utf8: Utf8, clientId: seq<Byte>, username: seq<Byte>, password: seq<Byte>, identity: seq<Byte>)
    requires utf8(clientId) && utf8(username)
    requires ReadIdentity(0xc2, identity) == Accepted((clientId, Some(username), Some(password)))
    ensures ParseConnectRest(utf8, MQTT, [4, 0xc2, 0x00, 0x5a] + identity)
         == Accepted(Connect(clientId, Some(username), Some(password), 90, 4))
  {
    var header: seq<Byte> := [4, 0xc2, 0x00, 0x5a];
    assert (header + identity)[4..] == identity && (header + identity)[2..4] == [0x00, 0x5a];
  }

  lemma ConnectRoundTrip(utf8: Utf8, clientId: seq<Byte>, username: seq<Byte>, password: seq<Byte>)
    requires utf8(clientId) && utf8(username) && BuildClientConnect(clientId, username, password).Accepted?
    ensures ParseConnect(utf8, BuildClientConnect(clientId, username, password).value)
         == Accepted(Connect(clientId, Some(username), Some(password), 90, 4))
  {
    var identity := Field(clientId) + (Field(username) + (Field(password) + []));
    IdentityBuilt(clientId, username, password);
    ConnectRestBuilt(utf8, clientId, username, password, identity);
    var rest: seq<Byte> := [4, 0xc2, 0x00, 0x5a] + identity;
    BodyOfBuilt(0x10, Field(MQTT) + rest);
    ReadBinaryBuilt(MQTT, rest);
  }
}
