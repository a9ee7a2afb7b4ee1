/** The receiver's fast router: a walk over the Protocol Buffers wire format that reads
    only the two names a data frame is routed by. */
module Wire {
  import opened Keys
  import opened Numbers

  // --------------------------------------------------------------- bit arithmetic

  /** Bitwise or. */
  function Or(a: nat, b: nat): nat {
    if a == 0 then b else if b == 0 then a
    else 2 * Or(a / 2, b / 2) + (if a % 2 == 1 || b % 2 == 1 then 1 else 0)
  }

  /** `x << k` on a 64-bit value. */
  function ShiftLeft(x: nat, k: nat): nat { (x * Pow2(k)) % Pow2(64) }

  lemma {:induction false} OrDisjoint(a: nat, x: nat, k: nat)
    requires a < Pow2(k)
    ensures Or(a, x * Pow2(k)) == a + x * Pow2(k)
  {
    if k > 0 && a > 0 && x > 0 {
      var b, half := x * Pow2(k), x * Pow2(k - 1);
      assert b == 2 * half;
      OrDisjoint(a / 2, x, k - 1);
      assert Or(a / 2, half) == a / 2 + half;
      assert b > 0 by { MultipleBounds(x, Pow2(k)); }
    } else if x == 0 || a == 0 {
      assert 0 * Pow2(k) == 0;
    }
  }

  // --------------------------------------------------------------------- reading

  /** A successful read and the bytes after it; no caller looks at the cursor again
      after a failed one. */
  datatype Read<+T> = Fail | Got(value: T, rest: seq<byte>)

  datatype Tag = Tag(fieldNumber: nat, wireType: nat)

  /** `s` from the byte at `shift` on, with `out` collected so far. */
  function Varint(s: seq<byte>, shift: nat, out: nat): (r: Read<nat>)
    ensures r.Got? ==> |r.rest| < |s|
    decreases |s|
  {
    if s == [] || shift >= 64 then Fail
    else
      var b := s[0] as nat;
      var sum := Or(out, ShiftLeft(b % 128, shift));
      if b < 128 then Got(sum, s[1..]) else Varint(s[1..], shift + 7, sum)
  }

  function LengthDelimited(s: seq<byte>): (r: Read<seq<byte>>)
    ensures r.Got? ==> |r.value| + |r.rest| < |s|
  {
    var n := Varint(s, 0, 0);
    if n.Fail? || n.value > |n.rest| then Fail else Got(n.rest[..n.value], n.rest[n.value..])
  }

  function SkipField(s: seq<byte>, wireType: nat): (r: Read<()>)
    ensures r.Got? ==> |r.rest| <= |s|
  {
    match wireType
    case 0 => var v := Varint(s, 0, 0); if v.Fail? then Fail else Got((), v.rest)
    case 1 => if |s| < 8 then Fail else Got((), s[8..])
    case 2 => var body := LengthDelimited(s); if body.Fail? then Fail else Got((), body.rest)
    case 5 => if |s| < 4 then Fail else Got((), s[4..])
    case _ => Fail
  }

  function NextTag(s: seq<byte>): (r: Read<Tag>)
    ensures r.Got? ==> |r.rest| < |s|
  {
    var tag := Varint(s, 0, 0);
    if tag.Fail? then Fail else Got(Tag((tag.value / 8) % 0x1_0000_0000, tag.value % 8), tag.rest)
  }

  /** The routing fields of a data message. */
  datatype Names = Names(topic: seq<byte>, messageType: seq<byte>)

  predicate Complete(n: Names) { n.topic != [] && n.messageType != [] }

  function Known(n: Names): Option<Names> { if Complete(n) then Some(n) else None }

  function WithField(n: Names, fieldNumber: nat, body: seq<byte>): Names {
    if fieldNumber == 2 then n.(topic := body) else if fieldNumber == 3 then n.(messageType := body) else n
  }

  /** Stops at the first point where both names are known; a malformed tag reads like
      the end of the message. */
  function ReadData(s: seq<byte>, n: Names): Option<Names>
    decreases |s|
  {
    var t := NextTag(s);
    if t.Fail? then Known(n)
    else if t.value.wireType != 2 then
      var skipped := SkipField(t.rest, t.value.wireType);
      if skipped.Fail? then None else ReadData(skipped.rest, n)
    else
      var body := LengthDelimited(t.rest);
      if body.Fail? then None
      else
        var n' := WithField(n, t.value.fieldNumber, body.value);
        if Complete(n') then Some(n') else ReadData(body.rest, n')
  }

  function TryReadRoutingKey(s: seq<byte>): Option<string>
    decreases |s|
  {
    var t := NextTag(s);
    if t.Fail? then None
    else if t.value.wireType != 2 then
      var skipped := SkipField(t.rest, t.value.wireType);
      if skipped.Fail? then None else TryReadRoutingKey(skipped.rest)
    else
      var body := LengthDelimited(t.rest);
      if body.Fail? || t.value.fieldNumber != 3 then None
      else
        var names := ReadData(body.value, Names([], []));
        if names.None? then None else Some(CompositeOf(names.value))
  }

  // --------------------------------------------------------------- the full decode

  /** All of a data message's body: the last occurrence of a name wins, and malformed
      bytes anywhere reject it (Protocol Buffers Encoding, "Last One Wins"). */
  function ReadAllData(s: seq<byte>, n: Names): Option<Names>
    decreases |s|
  {
    if s == [] then Some(n)
    else
      var t := NextTag(s);
      if t.Fail? then None
      else if t.value.wireType != 2 then
        var skipped := SkipField(t.rest, t.value.wireType);
        if skipped.Fail? then None else ReadAllData(skipped.rest, n)
      else
        var body := LengthDelimited(t.rest);
        if body.Fail? then None else ReadAllData(body.rest, WithField(n, t.value.fieldNumber, body.value))
  }

  /** The content set last; occurrences of one content merge, which concatenates bodies. */
  datatype Outer = NoContent | Content(fieldNumber: nat, body: seq<byte>)

  function WithContent(o: Outer, fieldNumber: nat, body: seq<byte>): Outer {
    if !(1 <= fieldNumber <= 3) then o
    else if o.Content? && o.fieldNumber == fieldNumber then Content(fieldNumber, o.body + body)
    else Content(fieldNumber, body)
  }

  function ReadAllMessage(s: seq<byte>, o: Outer): Option<Outer>
    decreases |s|
  {
    if s == [] then Some(o)
    else
      var t := NextTag(s);
      if t.Fail? then None
      else if t.value.wireType != 2 then
        var skipped := SkipField(t.rest, t.value.wireType);
        if skipped.Fail? then None else ReadAllMessage(skipped.rest, o)
      else
        var body := LengthDelimited(t.rest);
        if body.Fail? then None else ReadAllMessage(body.rest, WithContent(o, t.value.fieldNumber, body.value))
  }

  /** The names a full decode finds, if the message turns out to be a data message. */
  function FullNames(s: seq<byte>): Option<Names> {
    var outer := ReadAllMessage(s, NoContent);
    if outer.Some? && outer.value.Content? && outer.value.fieldNumber == 3 then
      ReadAllData(outer.value.body, Names([], []))
    else None
  }

  /** A byte string as text, one character per byte. */
  function Text(s: seq<byte>): string { seq(|s|, i requires 0 <= i < |s| => (s[i] as int) as char) }

  function CompositeOf(n: Names): string { MakeCompositeKey(Text(n.topic), Text(n.messageType)) }

  // ---------------------------------------------------------- canonical encoding

  /** Protocol Buffers Encoding, "Base 128 Varints". */
  function EncVarint(v: nat): (s: seq<byte>)
    ensures s != []
  {
    if v < 128 then [v as byte] else [(v % 128 + 128) as byte] + EncVarint(v / 128)
  }

  /** Protocol Buffers Encoding, "Length-Delimited Records". */
  function Field(fieldNumber: nat, body: seq<byte>): seq<byte> {
    EncVarint(8 * fieldNumber + 2) + (EncVarint(|body|) + body)
  }

  /** An unset or empty field is not written. */
  function Optional(fieldNumber: nat, body: seq<byte>): seq<byte> {
    if body == [] then [] else Field(fieldNumber, body)
  }

  /** The sender's identity is a sub-message: it may be present and empty. */
  datatype Data = Data(identifier: Option<seq<byte>>, topicName: seq<byte>, messageType: seq<byte>, payload: seq<byte>)

  function EncodeData(d: Data): seq<byte> {
    (if d.identifier.Some? then Field(1, d.identifier.value) else [])
    + (Optional(2, d.topicName) + (Optional(3, d.messageType) + Optional(4, d.payload)))
  }

  /** The frames on the wire; only a data frame's inside is spelled out. */
  datatype Message = Heartbeat(identifier: seq<byte>) | Advertisement(body: seq<byte>) | DataFrame(data: Data)

  function EncodeMessage(m: Message): seq<byte> {
    match m
    case Heartbeat(identifier) => Field(1, identifier)
    case Advertisement(body) => Field(2, body)
    case DataFrame(data) => Field(3, EncodeData(data))
  }

  // ------------------------------------------------------------------ round trips

  lemma SplitScaled(low: nat, high: nat, p: nat, q: nat)
    requires low < 128 && q == 128 * p
    ensures (low + 128 * high) * p == low * p + high * q && low * p + p <= q && 0 <= high * q
  {
    assert (low + 128 * high) * p == low * p + high * (128 * p);
    assert 0 <= (127 - low) * p;
  }

  lemma SmallRemainder(x: nat, m: nat)
    requires x < m
    ensures x % m == x
  {
  }

  lemma ShiftExact(x: nat, k: nat)
    requires x * Pow2(k) < Pow2(64)
    ensures ShiftLeft(x, k) == x * Pow2(k)
  {
    hide Pow2;
    SmallRemainder(x * Pow2(k), Pow2(64));
  }

  lemma SevenBits(shift: nat)
    ensures Pow2(shift + 7) == 128 * Pow2(shift)
  {
    assert Pow2(7) == 128;
    hide Pow2;
    Pow2Splits(shift, 7);
  }

  /** One 7-bit group of a value joins the groups below it without overlap or overflow. */
  lemma Chunk(low: nat, high: nat, shift: nat, out: nat)
    requires low < 128 && out < Pow2(shift) && out + (low + 128 * high) * Pow2(shift) < Pow2(64)
    ensures Or(out, ShiftLeft(low, shift)) == out + low * Pow2(shift) < Pow2(shift + 7)
    ensures out + low * Pow2(shift) + high * Pow2(shift + 7) == out + (low + 128 * high) * Pow2(shift)
  {
    hide *;
    SevenBits(shift);
    SplitScaled(low, high, Pow2(shift), Pow2(shift + 7));
    ShiftExact(low, shift);
    OrDisjoint(out, low, shift);
  }

  lemma ShiftInRange(v: nat, shift: nat)
    requires v > 0 && v * Pow2(shift) < Pow2(64)
    ensures shift < 64
  {
    hide Pow2;
    if shift >= 64 {
      Pow2Grows(64, shift);
      MultipleBounds(Pow2(shift), v);
    }
  }

  lemma {:induction false} VarintTrip(v: nat, shift: nat, out: nat, tail: seq<byte>)
    requires out < Pow2(shift) && out + v * Pow2(shift) < Pow2(64) && (shift == 0 || v > 0)
    ensures Varint(EncVarint(v) + tail, shift, out) == Got(out + v * Pow2(shift), tail)
    decreases v
  {
    hide Or, Pow2, ShiftLeft;
    var s := EncVarint(v) + tail;
    if v > 0 {
      ShiftInRange(v, shift);
    }
    Chunk(v % 128, v / 128, shift, out);
    assert v == v % 128 + 128 * (v / 128);
    if v < 128 {
      assert s[1..] == tail;
    } else {
      assert s[1..] == EncVarint(v / 128) + tail;
      VarintTrip(v / 128, shift + 7, out + (v % 128) * Pow2(shift), tail);
    }
  }

  /** Decoding inverts encoding for every 64-bit value, and stops right behind it. */
  lemma VarintRoundTrip(v: nat, tail: seq<byte>)
    requires v <= MAX_U64
    ensures Varint(EncVarint(v) + tail, 0, 0) == Got(v, tail)
  {
    Pow64();
    assert v * Pow2(0) == v;
    VarintTrip(v, 0, 0, tail);
  }

  /** A field reads back as its number and its body. */
  lemma FieldRoundTrip(fieldNumber: nat, body: seq<byte>, tail: seq<byte>)
    requires fieldNumber < 0x1000_0000 && |body| <= MAX_U64
    ensures var t := NextTag(Field(fieldNumber, body) + tail);
            t.Got? && t.value == Tag(fieldNumber, 2) && LengthDelimited(t.rest) == Got(body, tail)
  {
    hide Varint, EncVarint;
    var lengthAndBody := EncVarint(|body|) + body;
    assert Field(fieldNumber, body) + tail == EncVarint(8 * fieldNumber + 2) + (lengthAndBody + tail);
    VarintRoundTrip(8 * fieldNumber + 2, lengthAndBody + tail);
    assert lengthAndBody + tail == EncVarint(|body|) + (body + tail);
    VarintRoundTrip(|body|, body + tail);
  }

  lemma ReadDataField(fieldNumber: nat, body: seq<byte>, tail: seq<byte>, n: Names)
    requires fieldNumber < 0x1000_0000 && |body| <= MAX_U64
    ensures var n' := WithField(n, fieldNumber, body);
            ReadData(Field(fieldNumber, body) + tail, n) == if Complete(n') then Some(n') else ReadData(tail, n')
  {
    FieldRoundTrip(fieldNumber, body, tail);
    hide NextTag, LengthDelimited, Field;
  }

  lemma ReadDataOptional(fieldNumber: nat, body: seq<byte>, tail: seq<byte>, n: Names)
    requires fieldNumber < 0x1000_0000 && |body| <= MAX_U64 && !Complete(n) && WithField(n, fieldNumber, []) == n
    ensures var n' := WithField(n, fieldNumber, body);
            ReadData(Optional(fieldNumber, body) + tail, n) == if Complete(n') then Some(n') else ReadData(tail, n')
  {
    if body == [] {
      assert [] + tail == tail;
    } else {
      ReadDataField(fieldNumber, body, tail, n);
    }
  }

  predicate Fits(d: Data) { |EncodeData(d)| <= MAX_U64 }

  lemma FieldsFit(d: Data)
    requires Fits(d)
    ensures (d.identifier.Some? ==> |d.identifier.value| <= MAX_U64)
    ensures |d.topicName| <= MAX_U64 && |d.messageType| <= MAX_U64 && |d.payload| <= MAX_U64
  {
  }

  lemma Regroup<T>(a: seq<T>, b: seq<T>, c: seq<T>, d: seq<T>, e: seq<T>)
    ensures (a + (b + (c + d))) + e == a + (b + (c + (d + e)))
  {
  }

  /** The identity, if there is one, comes first and is skipped. */
  lemma SkipsIdentifier(d: Data, tail: seq<byte>)
    requires Fits(d)
    ensures ReadData(EncodeData(d) + tail, Names([], []))
         == ReadData(Optional(2, d.topicName) + (Optional(3, d.messageType) + (Optional(4, d.payload) + tail)),
                    Names([], []))
  {
    FieldsFit(d);
    hide ReadData, Field, Optional;
    var rest := Optional(2, d.topicName) + (Optional(3, d.messageType) + (Optional(4, d.payload) + tail));
    var identity := if d.identifier.Some? then Field(1, d.identifier.value) else [];
    Regroup(identity, Optional(2, d.topicName), Optional(3, d.messageType), Optional(4, d.payload), tail);
    if d.identifier.Some? {
      ReadDataField(1, d.identifier.value, rest, Names([], []));
    } else {
      assert [] + rest == rest;
    }
  }

  lemma ReadDataNames(d: Data, tail: seq<byte>)
    requires Fits(d) && (tail == [] || Complete(Names(d.topicName, d.messageType)))
    ensures ReadData(EncodeData(d) + tail, Names([], [])) == Known(Names(d.topicName, d.messageType))
  {
    FieldsFit(d);
    hide ReadData, Field, Optional, EncodeData;
    var names := Names(d.topicName, d.messageType);
    var fromPayload := Optional(4, d.payload) + tail;
    var fromType := Optional(3, d.messageType) + fromPayload;
    SkipsIdentifier(d, tail);
    ReadDataOptional(2, d.topicName, fromType, Names([], []));
    ReadDataOptional(3, d.messageType, fromPayload, Names(d.topicName, []));
    if !Complete(names) {
      ReadDataOptional(4, d.payload, [], names);
      NothingToRead(names);
    }
  }

  lemma NothingToRead(n: Names)
    ensures ReadData([], n) == Known(n)
  {
  }

  /** The fast router on a data frame: exactly its composite key when both names are
      non-empty, and otherwise the fallback. */
  lemma RouterOnData(d: Data)
    requires Fits(d)
    ensures TryReadRoutingKey(EncodeMessage(DataFrame(d)))
         == if d.topicName != [] && d.messageType != []
            then Some(MakeCompositeKey(Text(d.topicName), Text(d.messageType)))
            else None
  {
    assert EncodeData(d) + [] == EncodeData(d);
    RouterOnBody(d, []);
  }

  lemma RouterOnBody(d: Data, tail: seq<byte>)
    requires Fits(d) && |EncodeData(d) + tail| <= MAX_U64 && (tail == [] || Complete(Names(d.topicName, d.messageType)))
    ensures TryReadRoutingKey(Field(3, EncodeData(d) + tail))
         == if d.topicName != [] && d.messageType != []
            then Some(CompositeOf(Names(d.topicName, d.messageType))) else None
  {
    var body := EncodeData(d) + tail;
    assert Field(3, body) == Field(3, body) + [];
    FieldRoundTrip(3, body, []);
    ReadDataNames(d, tail);
    hide Field, NextTag, LengthDelimited, ReadData, EncodeData, CompositeOf;
  }

  lemma ReadAllField(fieldNumber: nat, body: seq<byte>, tail: seq<byte>, n: Names)
    requires fieldNumber < 0x1000_0000 && |body| <= MAX_U64
    ensures ReadAllData(Field(fieldNumber, body) + tail, n) == ReadAllData(tail, WithField(n, fieldNumber, body))
  {
    FieldRoundTrip(fieldNumber, body, tail);
    hide NextTag, LengthDelimited, Field;
    assert NextTag([]).Fail? by { NoTag(); }
  }

  lemma NoTag()
    ensures NextTag([]).Fail?
  {
  }

  /** A field that is left out when empty leaves the name as it was. */
  lemma ReadAllOptional(fieldNumber: nat, body: seq<byte>, tail: seq<byte>, n: Names)
    requires fieldNumber < 0x1000_0000 && |body| <= MAX_U64
    ensures ReadAllData(Optional(fieldNumber, body) + tail, n)
         == ReadAllData(tail, if body == [] then n else WithField(n, fieldNumber, body))
  {
    if body == [] {
      assert [] + tail == tail;
    } else {
      ReadAllField(fieldNumber, body, tail, n);
    }
  }

  /** `n` with the names that `d` writes. */
  function Updated(n: Names, d: Data): Names {
    Names(if d.topicName == [] then n.topic else d.topicName,
          if d.messageType == [] then n.messageType else d.messageType)
  }

  lemma ReadAllNames(d: Data, tail: seq<byte>, n: Names)
    requires Fits(d)
    ensures ReadAllData(EncodeData(d) + tail, n) == ReadAllData(tail, Updated(n, d))
  {
    FieldsFit(d);
    hide ReadAllData, Field, Optional;
    var identity := if d.identifier.Some? then Field(1, d.identifier.value) else [];
    var fromPayload := Optional(4, d.payload) + tail;
    var fromType := Optional(3, d.messageType) + fromPayload;
    var rest := Optional(2, d.topicName) + fromType;
    Regroup(identity, Optional(2, d.topicName), Optional(3, d.messageType), Optional(4, d.payload), tail);
    if d.identifier.Some? {
      ReadAllField(1, d.identifier.value, rest, n);
    } else {
      assert [] + rest == rest;
    }
    var withTopic := Names(if d.topicName == [] then n.topic else d.topicName, n.messageType);
    ReadAllOptional(2, d.topicName, fromType, n);
    ReadAllOptional(3, d.messageType, fromPayload, withTopic);
    ReadAllOptional(4, d.payload, tail, Updated(n, d));
  }

  lemma ReadAllEnds(n: Names)
    ensures ReadAllData([], n) == Some(n)
  {
  }

  lemma OneContent(fieldNumber: nat, body: seq<byte>)
    requires 1 <= fieldNumber <= 3 && |body| <= MAX_U64
    ensures ReadAllMessage(Field(fieldNumber, body), NoContent) == Some(Content(fieldNumber, body))
  {
    FieldRoundTrip(fieldNumber, body, []);
    assert Field(fieldNumber, body) + [] == Field(fieldNumber, body);
    NoTag();
    hide NextTag, LengthDelimited, Field;
  }

  /** The full decode of a canonical frame finds a data message's names, and no names in
      anything else. */
  lemma FullNamesOnCanonical(m: Message)
    requires |EncodeMessage(m)| <= MAX_U64
    ensures FullNames(EncodeMessage(m))
         == if m.DataFrame? then Some(Names(m.data.topicName, m.data.messageType)) else None
  {
    var fieldNumber := if m.Heartbeat? then 1 else if m.Advertisement? then 2 else 3;
    var body := if m.Heartbeat? then m.identifier else if m.Advertisement? then m.body else EncodeData(m.data);
    assert |body| <= |Field(fieldNumber, body)|;
    OneContent(fieldNumber, body);
    hide ReadAllMessage, ReadAllData, Field, EncodeData;
    if m.DataFrame? {
      ReadAllNames(m.data, [], Names([], []));
      assert EncodeData(m.data) + [] == EncodeData(m.data);
      ReadAllEnds(Names(m.data.topicName, m.data.messageType));
    }
  }

  /** The router stops at the first complete pair of names: whatever follows it in the
      body changes nothing. */
  lemma FirstNamesWin(d: Data, later: Data)
    requires Fits(d) && Fits(later) && |EncodeData(d) + EncodeData(later)| <= MAX_U64
    requires d.topicName != [] && d.messageType != []
    ensures TryReadRoutingKey(Field(3, EncodeData(d) + EncodeData(later)))
         == Some(MakeCompositeKey(Text(d.topicName), Text(d.messageType)))
  {
    RouterOnBody(d, EncodeData(later));
  }

  lemma FullNamesOnRepeated(d: Data, later: Data)
    requires Fits(d) && Fits(later) && |EncodeData(d) + EncodeData(later)| <= MAX_U64
    ensures FullNames(Field(3, EncodeData(d) + EncodeData(later)))
         == Some(Updated(Names(d.topicName, d.messageType), later))
  {
    var body := EncodeData(d) + EncodeData(later);
    OneContent(3, body);
    hide ReadAllMessage, ReadAllData, Field, EncodeData, Fits;
    ReadAllNames(d, EncodeData(later), Names([], []));
    ReadAllNames(later, [], Names(d.topicName, d.messageType));
    assert EncodeData(later) + [] == EncodeData(later);
    ReadAllEnds(Updated(Names(d.topicName, d.messageType), later));
  }

  lemma TextInjective(a: seq<byte>, b: seq<byte>)
    ensures Text(a) == Text(b) <==> a == b
  {
    if Text(a) == Text(b) {
      assert |a| == |Text(a)| == |b|;
      forall i | 0 <= i < |a| ensures a[i] == b[i] {
        assert Text(a)[i] == Text(b)[i];
        assert (a[i] as int) as char == (b[i] as int) as char;
      }
    }
  }

  /** When names are repeated, router and full decode find the same ones if and only if
      each repeated name is empty or the same again; the router's key is the full
      decode's just then, provided that no type holds the separator. */
  lemma RepeatedNamesAgreeIff(d: Data, later: Data)
    requires Fits(d) && Fits(later) && |EncodeData(d) + EncodeData(later)| <= MAX_U64
    requires d.topicName != [] && d.messageType != []
    ensures var body := EncodeData(d) + EncodeData(later);
            var same := later.topicName in {[], d.topicName} && later.messageType in {[], d.messageType};
            var full := FullNames(Field(3, body));
            && full.Some? && (ReadData(body, Names([], [])) == full <==> same)
            && (TOPIC_KEY_SEPARATOR !in Text(d.messageType) && TOPIC_KEY_SEPARATOR !in Text(later.messageType) ==>
                  (TryReadRoutingKey(Field(3, body)) == Some(CompositeOf(full.value)) <==> same))
  {
    hide ReadData, Field, EncodeData, TryReadRoutingKey, FullNames, Text;
    ReadDataNames(d, EncodeData(later));
    FullNamesOnRepeated(d, later);
    FirstNamesWin(d, later);
    var names := Updated(Names(d.topicName, d.messageType), later);
    TextInjective(d.topicName, names.topic);
    TextInjective(d.messageType, names.messageType);
    if TOPIC_KEY_SEPARATOR !in Text(d.messageType) && TOPIC_KEY_SEPARATOR !in Text(later.messageType) {
      CompositeKeyInjective(Text(d.topicName), Text(d.messageType), Text(names.topic), Text(names.messageType));
    }
  }

  // -------------------------------------------------------------- what is skipped

  /** Any tag reads back: the wire type, and the field number cut to 32 bits. */
  lemma TagExact(fieldNumber: nat, wireType: nat, tail: seq<byte>)
    requires wireType < 8 && 8 * fieldNumber + wireType <= MAX_U64
    ensures NextTag(EncVarint(8 * fieldNumber + wireType) + tail)
         == Got(Tag(fieldNumber % 0x1_0000_0000, wireType), tail)
  {
    hide Varint, EncVarint;
    VarintRoundTrip(8 * fieldNumber + wireType, tail);
    TagParts(fieldNumber, wireType);
  }

  lemma TagParts(fieldNumber: nat, wireType: nat)
    requires wireType < 8
    ensures (8 * fieldNumber + wireType) / 8 == fieldNumber && (8 * fieldNumber + wireType) % 8 == wireType
  {
  }

  /** A length reads back as that many bytes, or fails where there are fewer. */
  lemma LengthExact(n: nat, s: seq<byte>)
    requires n <= MAX_U64
    ensures LengthDelimited(EncVarint(n) + s) == if n <= |s| then Got(s[..n], s[n..]) else Fail
  {
    VarintRoundTrip(n, s);
    hide Varint, EncVarint;
  }

  /** The body of a field that is not length-delimited: a varint, eight bytes or four. */
  datatype Scalar = AsVarint(v: nat) | Fixed64(bytes: seq<byte>) | Fixed32(bytes: seq<byte>)

  predicate Sized(x: Scalar) {
    match x
    case AsVarint(v) => v <= MAX_U64
    case Fixed64(bytes) => |bytes| == 8
    case Fixed32(bytes) => |bytes| == 4
  }

  /** Protocol Buffers Encoding, "Message Structure". */
  function WireTypeOf(x: Scalar): nat { match x case AsVarint(_) => 0 case Fixed64(_) => 1 case Fixed32(_) => 5 }

  function Body(x: Scalar): seq<byte> { if x.AsVarint? then EncVarint(x.v) else x.bytes }

  /** A field is skipped to its last byte, and not past it. */
  lemma SkipExact(x: Scalar, tail: seq<byte>)
    requires Sized(x)
    ensures SkipField(Body(x) + tail, WireTypeOf(x)) == Got((), tail)
  {
    if x.AsVarint? {
      VarintRoundTrip(x.v, tail);
    }
    hide Varint, EncVarint;
  }

  /** What is cut short, and the wire types that the format here does not use, are refused. */
  lemma SkipRefuses(s: seq<byte>, wireType: nat)
    ensures |s| < 8 ==> SkipField(s, 1) == Fail
    ensures |s| < 4 ==> SkipField(s, 5) == Fail
    ensures wireType !in {0, 1, 2, 5} ==> SkipField(s, wireType) == Fail
  {
    hide Varint;
  }

  /** A varint of more than ten bytes is refused, and so is one that does not end. */
  lemma {:induction false} LongVarint(s: seq<byte>, shift: nat, out: nat)
    requires forall i | 0 <= i < |s| && shift + 7 * i < 64 :: s[i] >= 128
    ensures Varint(s, shift, out) == Fail
    decreases |s|
  {
    hide Or, ShiftLeft;
    if s != [] && shift < 64 {
      assert forall i | 0 <= i < |s| - 1 :: s[1..][i] == s[i + 1];
      LongVarint(s[1..], shift + 7, Or(out, ShiftLeft(s[0] as nat % 128, shift)));
    }
  }

  /** Fields of other wire types before it do not change what the router finds, in the frame
      or in the data message. */
  lemma RouterSkips(fieldNumber: nat, x: Scalar, s: seq<byte>, n: Names)
    requires Sized(x) && 8 * fieldNumber + WireTypeOf(x) <= MAX_U64
    ensures var before := EncVarint(8 * fieldNumber + WireTypeOf(x)) + Body(x);
            && TryReadRoutingKey(before + s) == TryReadRoutingKey(s)
            && ReadData(before + s, n) == ReadData(s, n)
  {
    hide *;
    var tag := EncVarint(8 * fieldNumber + WireTypeOf(x));
    assert (tag + Body(x)) + s == tag + (Body(x) + s);
    assert WireTypeOf(x) in {0, 1, 5} by { NotDelimited(x); }
    TagExact(fieldNumber, WireTypeOf(x), Body(x) + s);
    SkipExact(x, s);
    PassesField(tag + Body(x) + s, Body(x) + s, s, fieldNumber % 0x1_0000_0000, WireTypeOf(x), n);
  }

  lemma NotDelimited(x: Scalar)
    ensures WireTypeOf(x) in {0, 1, 5}
  {
  }

  lemma PassesField(a: seq<byte>, behind: seq<byte>, s: seq<byte>, fieldNumber: nat, wireType: nat, n: Names)
    requires wireType != 2 && NextTag(a) == Got(Tag(fieldNumber, wireType), behind)
    requires SkipField(behind, wireType) == Got((), s)
    ensures TryReadRoutingKey(a) == TryReadRoutingKey(s) && ReadData(a, n) == ReadData(s, n)
  {
    hide NextTag, SkipField, LengthDelimited, WithField, CompositeOf, Known;
  }

  // ------------------------------------------------------------ on arbitrary bytes

  /** One length-delimited field. */
  datatype Item = Item(fieldNumber: nat, body: seq<byte>)

  /** The length-delimited fields of well-formed bytes, in order. */
  function Items(s: seq<byte>): Option<seq<Item>>
    decreases |s|
  {
    if s == [] then Some([])
    else
      var t := NextTag(s);
      if t.Fail? then None
      else if t.value.wireType != 2 then
        var skipped := SkipField(t.rest, t.value.wireType);
        if skipped.Fail? then None else Items(skipped.rest)
      else
        var body := LengthDelimited(t.rest);
        if body.Fail? then None
        else
          var rest := Items(body.rest);
          if rest.None? then None else Some([Item(t.value.fieldNumber, body.value)] + rest.value)
  }

  /** The last item with that number, or `otherwise` if there is none. */
  function Last(items: seq<Item>, fieldNumber: nat, otherwise: seq<byte>): seq<byte>
    decreases |items|
  {
    if items == [] then otherwise
    else Last(items[1..], fieldNumber, if items[0].fieldNumber == fieldNumber then items[0].body else otherwise)
  }

  /** The names in force when both are first known. */
  function FirstPair(items: seq<Item>, n: Names): Option<Names>
    decreases |items|
  {
    if items == [] then Known(n)
    else
      var n' := WithField(n, items[0].fieldNumber, items[0].body);
      if Complete(n') then Some(n') else FirstPair(items[1..], n')
  }

  function ContentOf(items: seq<Item>, o: Outer): Outer
    decreases |items|
  {
    if items == [] then o else ContentOf(items[1..], WithContent(o, items[0].fieldNumber, items[0].body))
  }

  /** The three walks in terms of the fields: the full decode takes the last occurrences,
      the router the first pair. */
  lemma {:induction false} ReadAllIsLast(s: seq<byte>, n: Names)
    ensures ReadAllData(s, n)
         == if Items(s).None? then None
            else Some(Names(Last(Items(s).value, 2, n.topic), Last(Items(s).value, 3, n.messageType)))
    decreases |s|
  {
    hide NextTag, SkipField, LengthDelimited;
    if s != [] {
      var t := NextTag(s);
      if t.Got? && t.value.wireType != 2 {
        if SkipField(t.rest, t.value.wireType).Got? {
          ReadAllIsLast(SkipField(t.rest, t.value.wireType).rest, n);
        }
      } else if t.Got? && LengthDelimited(t.rest).Got? {
        var body := LengthDelimited(t.rest);
        ReadAllIsLast(body.rest, WithField(n, t.value.fieldNumber, body.value));
      }
    }
  }

  lemma {:induction false} RouterIsFirstPair(s: seq<byte>, n: Names)
    requires Items(s).Some?
    ensures ReadData(s, n) == FirstPair(Items(s).value, n)
    decreases |s|
  {
    hide NextTag, SkipField, LengthDelimited;
    if s == [] {
      NoTag();
    } else {
      var t := NextTag(s);
      if t.value.wireType != 2 {
        RouterIsFirstPair(SkipField(t.rest, t.value.wireType).rest, n);
      } else {
        var body := LengthDelimited(t.rest);
        RouterIsFirstPair(body.rest, WithField(n, t.value.fieldNumber, body.value));
      }
    }
  }

  lemma {:induction false} ReadAllIsContent(s: seq<byte>, o: Outer)
    ensures ReadAllMessage(s, o) == if Items(s).None? then None else Some(ContentOf(Items(s).value, o))
    decreases |s|
  {
    hide NextTag, SkipField, LengthDelimited, WithContent;
    if s != [] {
      var t := NextTag(s);
      if t.Got? && t.value.wireType != 2 {
        if SkipField(t.rest, t.value.wireType).Got? {
          ReadAllIsContent(SkipField(t.rest, t.value.wireType).rest, o);
        }
      } else if t.Got? && LengthDelimited(t.rest).Got? {
        var body := LengthDelimited(t.rest);
        ReadAllIsContent(body.rest, WithContent(o, t.value.fieldNumber, body.value));
      }
    }
  }

  /** The router looks at the first length-delimited field only. */
  lemma {:induction false} RouterReadsFirst(s: seq<byte>)
    requires Items(s).Some?
    ensures TryReadRoutingKey(s)
         == if Items(s).value == [] || Items(s).value[0].fieldNumber != 3 then None
            else
              var names := ReadData(Items(s).value[0].body, Names([], []));
              if names.None? then None else Some(CompositeOf(names.value))
    decreases |s|
  {
    hide NextTag, SkipField, LengthDelimited, ReadData, CompositeOf;
    if s == [] {
      NoTag();
    } else {
      var t := NextTag(s);
      if t.value.wireType != 2 {
        RouterReadsFirst(SkipField(t.rest, t.value.wireType).rest);
      }
    }
  }

  /** Exactly when router and full decode find the same names, on any well-formed bytes
      that the router takes: the content set last is a well-formed data message, and its
      last topic and last type are the first pair of the first content. */
  lemma RouterAgreesIff(s: seq<byte>)
    requires Items(s).Some? && TryReadRoutingKey(s).Some?
    ensures var items := Items(s).value;
            && items != [] && items[0].fieldNumber == 3
            && var routed := ReadData(items[0].body, Names([], []));
               && routed.Some? && TryReadRoutingKey(s) == Some(CompositeOf(routed.value))
               && (FullNames(s) == routed <==>
                     && ContentOf(items, NoContent).Content? && ContentOf(items, NoContent).fieldNumber == 3
                     && var fields := Items(ContentOf(items, NoContent).body);
                        && fields.Some?
                        && Last(fields.value, 2, []) == routed.value.topic
                        && Last(fields.value, 3, []) == routed.value.messageType)
  {
    hide TryReadRoutingKey, ReadData, ReadAllData, ReadAllMessage, ContentOf, Last, Items, CompositeOf;
    RouterReadsFirst(s);
    ReadAllIsContent(s, NoContent);
    var o := ContentOf(Items(s).value, NoContent);
    if o.Content? {
      ReadAllIsLast(o.body, Names([], []));
    }
  }

  /** At most one item has that number. */
  predicate Once(items: seq<Item>, fieldNumber: nat) {
    forall i, j | 0 <= i < j < |items| :: !(items[i].fieldNumber == items[j].fieldNumber == fieldNumber)
  }

  /** Well-formed bytes with one content, and in it each name at most once, whatever the
      order of the fields and whatever else they hold. */
  predicate Plain(s: seq<byte>) {
    && Items(s).Some?
    && var items := Items(s).value;
       && (forall i | 0 < i < |items| :: !(1 <= items[i].fieldNumber <= 3))
       && (items != [] ==>
             var fields := Items(items[0].body);
             fields.Some? && Once(fields.value, 2) && Once(fields.value, 3))
  }

  /** So they agree on every plain frame. */
  lemma RouterAgreesUnlessRepeated(s: seq<byte>)
    requires Plain(s) && TryReadRoutingKey(s).Some?
    ensures FullNames(s).Some? && TryReadRoutingKey(s) == Some(CompositeOf(FullNames(s).value))
  {
    hide TryReadRoutingKey, ReadData, ReadAllData, ReadAllMessage, FullNames, ContentOf, Last, Items, CompositeOf, Once;
    RouterAgreesIff(s);
    var items := Items(s).value;
    OnlyContent(items, NoContent);
    var fields := Items(items[0].body).value;
    RouterIsFirstPair(items[0].body, Names([], []));
    FirstPairIsLast(fields, Names([], []));
  }

  /** The canonical data frames are plain. */
  lemma CanonicalIsPlain(d: Data)
    requires Fits(d) && |EncodeMessage(DataFrame(d))| <= MAX_U64
    ensures Plain(EncodeMessage(DataFrame(d)))
  {
    hide Items, Field, EncodeData;
    NoItems();
    assert Field(3, EncodeData(d)) + [] == Field(3, EncodeData(d));
    ItemsOfField(3, EncodeData(d), []);
    ItemsOfData(d);
  }

  lemma ItemsOfOptional(fieldNumber: nat, body: seq<byte>, tail: seq<byte>)
    requires fieldNumber < 0x1000_0000 && |body| <= MAX_U64 && Items(tail).Some?
    ensures Items(Optional(fieldNumber, body) + tail)
         == Some(ItemIf(fieldNumber, body) + Items(tail).value)
  {
    hide Items, Field;
    if body == [] {
      assert [] + tail == tail && [] + Items(tail).value == Items(tail).value;
    } else {
      ItemsOfField(fieldNumber, body, tail);
    }
  }

  function ItemIf(fieldNumber: nat, body: seq<byte>): seq<Item> {
    if body == [] then [] else [Item(fieldNumber, body)]
  }

  lemma OnceEach(a: seq<Item>, d: Data)
    requires |a| <= 1 && forall x <- a :: x.fieldNumber == 1
    ensures var items := a + (ItemIf(2, d.topicName) + (ItemIf(3, d.messageType) + (ItemIf(4, d.payload) + [])));
            Once(items, 2) && Once(items, 3)
  {
  }

  lemma ItemsOfData(d: Data)
    requires Fits(d)
    ensures var fields := Items(EncodeData(d)); fields.Some? && Once(fields.value, 2) && Once(fields.value, 3)
  {
    FieldsFit(d);
    hide Items, Field, Optional, Once, ItemIf;
    var payload, messageType := Optional(4, d.payload), Optional(3, d.messageType) + Optional(4, d.payload);
    NoItems();
    assert payload + [] == payload;
    ItemsOfOptional(4, d.payload, []);
    ItemsOfOptional(3, d.messageType, payload);
    ItemsOfOptional(2, d.topicName, messageType);
    var rest := Optional(2, d.topicName) + messageType;
    if d.identifier.Some? {
      ItemsOfField(1, d.identifier.value, rest);
      OnceEach([Item(1, d.identifier.value)], d);
    } else {
      assert [] + rest == rest && [] + Items(rest).value == Items(rest).value;
      OnceEach([], d);
    }
  }

  lemma OnlyContent(items: seq<Item>, o: Outer)
    requires items != [] && items[0].fieldNumber == 3 && o.NoContent?
    requires forall i | 0 < i < |items| :: !(1 <= items[i].fieldNumber <= 3)
    ensures ContentOf(items, o) == Content(3, items[0].body)
  {
    NoMoreContent(items[1..], Content(3, items[0].body));
  }

  lemma {:induction false} NoMoreContent(items: seq<Item>, o: Outer)
    requires forall i | 0 <= i < |items| :: !(1 <= items[i].fieldNumber <= 3)
    ensures ContentOf(items, o) == o
    decreases |items|
  {
    if items != [] {
      NoMoreContent(items[1..], o);
    }
  }

  /** Where no name is repeated the first pair is the last one. */
  lemma {:induction false} FirstPairIsLast(items: seq<Item>, n: Names)
    requires Once(items, 2) && Once(items, 3) && FirstPair(items, n).Some? && !Complete(n)
    requires n.topic != [] ==> forall x <- items :: x.fieldNumber != 2
    requires n.messageType != [] ==> forall x <- items :: x.fieldNumber != 3
    ensures FirstPair(items, n).value == Names(Last(items, 2, n.topic), Last(items, 3, n.messageType))
    decreases |items|
  {
    if items != [] {
      var x, rest := items[0], items[1..];
      var n' := WithField(n, x.fieldNumber, x.body);
      assert forall i | 0 <= i < |rest| :: rest[i] == items[i + 1];
      if Complete(n') {
        AbsentStays(rest, 2, n'.topic);
        AbsentStays(rest, 3, n'.messageType);
      } else {
        FirstPairIsLast(rest, n');
      }
    }
  }

  lemma {:induction false} AbsentStays(items: seq<Item>, fieldNumber: nat, otherwise: seq<byte>)
    requires forall x <- items :: x.fieldNumber != fieldNumber
    ensures Last(items, fieldNumber, otherwise) == otherwise
    decreases |items|
  {
    if items != [] {
      assert items[0] in items;
      AbsentStays(items[1..], fieldNumber, otherwise);
    }
  }

  /** Names are not all that can be repeated: a data message followed by an identity is
      routed as data, and is an identity to the full decode. */
  lemma SecondContentDisagrees(d: Data, identifier: seq<byte>)
    requires Fits(d) && |identifier| <= MAX_U64 && d.topicName != [] && d.messageType != []
    ensures var s := Field(3, EncodeData(d)) + Field(1, identifier);
            TryReadRoutingKey(s) == Some(CompositeOf(Names(d.topicName, d.messageType))) && FullNames(s) == None
  {
    hide TryReadRoutingKey, ReadData, Items, Field, EncodeData, CompositeOf;
    var s, body := Field(3, EncodeData(d)) + Field(1, identifier), EncodeData(d);
    assert body + [] == body && Field(1, identifier) + [] == Field(1, identifier);
    NoItems();
    ItemsOfField(1, identifier, []);
    ItemsOfField(3, body, Field(1, identifier));
    assert [Item(1, identifier)] + [] == [Item(1, identifier)];
    assert [Item(3, body)] + [Item(1, identifier)] == [Item(3, body), Item(1, identifier)];
    ReadDataNames(d, []);
    RouterReadsFirst(s);
    ReadAllIsContent(s, NoContent);
    assert [Item(3, body), Item(1, identifier)][1..] == [Item(1, identifier)] && [Item(1, identifier)][1..] == [];
    assert ContentOf([Item(1, identifier)], Content(3, body)) == Content(1, identifier);
  }

  lemma NoItems()
    ensures Items([]) == Some([])
  {
  }

  lemma ItemsOfField(fieldNumber: nat, body: seq<byte>, tail: seq<byte>)
    requires fieldNumber < 0x1000_0000 && |body| <= MAX_U64 && Items(tail).Some?
    ensures Items(Field(fieldNumber, body) + tail) == Some([Item(fieldNumber, body)] + Items(tail).value)
  {
    FieldRoundTrip(fieldNumber, body, tail);
    NoTag();
    hide Field, NextTag, LengthDelimited;
  }

  /** Heartbeats and advertisements are left to the full decode. */
  lemma RouterOnOthers(m: Message)
    requires m.Heartbeat? || m.Advertisement?
    requires |EncodeMessage(m)| <= MAX_U64
    ensures TryReadRoutingKey(EncodeMessage(m)) == None
  {
    var fieldNumber := if m.Heartbeat? then 1 else 2;
    var body := if m.Heartbeat? then m.identifier else m.body;
    assert EncodeMessage(m) == Field(fieldNumber, body) + [];
    assert |body| <= |Field(fieldNumber, body)|;
    FieldRoundTrip(fieldNumber, body, []);
    hide Field, NextTag, LengthDelimited, ReadData;
  }

  // ------------------------------------------------------------------- the cursor

  class WireCursor {
    const buf: seq<byte>
    var p: nat
    const end: nat

    ghost predicate Valid()
      reads this
    {
      p <= end <= |buf|
    }

    ghost function Rest(): seq<byte>
      requires Valid()
      reads this
    {
      buf[p..end]
    }

    constructor (buf: seq<byte>)
      ensures Valid() && Rest() == buf
    {
      this.buf := buf;
      p, end := 0, |buf|;
    }

    method ReadVarint() returns (ok: bool, out: nat)
      requires Valid()
      modifies this`p
      ensures Valid() && ok == Varint(old(Rest()), 0, 0).Got?
      ensures ok ==> Got(out, Rest()) == Varint(old(Rest()), 0, 0)
    {
      out := 0;
      var shift := 0;
      while p < end && shift < 64
        invariant Valid()
        invariant Varint(Rest(), shift, out) == Varint(old(Rest()), 0, 0)
        decreases end - p
      {
        hide Or, ShiftLeft;
        var b := buf[p] as nat;
        assert Rest()[1..] == buf[p + 1..end];
        p := p + 1;
        out := Or(out, ShiftLeft(b % 128, shift));
        if b < 128 {
          return true, out;
        }
        shift := shift + 7;
      }
      return false, out;
    }

    method ReadLengthDelimited() returns (ok: bool, body: seq<byte>)
      requires Valid()
      modifies this`p
      ensures Valid() && ok == LengthDelimited(old(Rest())).Got?
      ensures ok ==> Got(body, Rest()) == LengthDelimited(old(Rest()))
    {
      hide Varint;
      var got, length := ReadVarint();
      if !got || length > end - p {
        return false, [];
      }
      body := buf[p..p + length];
      assert Rest()[..length] == body && Rest()[length..] == buf[p + length..end];
      p := p + length;
      ok := true;
    }

    method Skip(wireType: nat) returns (ok: bool)
      requires Valid()
      modifies this`p
      ensures Valid() && ok == SkipField(old(Rest()), wireType).Got?
      ensures ok ==> Rest() == SkipField(old(Rest()), wireType).rest
    {
      hide Varint, LengthDelimited;
      match wireType {
        case 0 =>
          var n;
          ok, n := ReadVarint();
        case 1 =>
          ok := SkipBytes(8);
        case 2 =>
          var body;
          ok, body := ReadLengthDelimited();
        case 5 =>
          ok := SkipBytes(4);
        case _ =>
          ok := false;
      }
    }

    method SkipBytes(n: nat) returns (ok: bool)
      requires Valid()
      modifies this`p
      ensures Valid() && ok == (|old(Rest())| >= n)
      ensures ok ==> Rest() == old(Rest())[n..]
    {
      ok := p + n <= end;
      if ok {
        p := p + n;
      }
    }

    method ReadTag() returns (ok: bool, tag: Tag)
      requires Valid()
      modifies this`p
      ensures Valid() && ok == NextTag(old(Rest())).Got?
      ensures ok ==> Got(tag, Rest()) == NextTag(old(Rest()))
    {
      tag := Tag(0, 0);
      if p >= end {
        return false, tag;
      }
      hide Varint;
      var n;
      ok, n := ReadVarint();
      if ok {
        tag := Tag((n / 8) % 0x1_0000_0000, n % 8);
      }
    }
  }

  /** `readDataMessageRoutingKey`. */
  method ReadDataMessageRoutingKey(body: seq<byte>) returns (ok: bool, n: Names)
    ensures (if ok then Some(n) else None) == ReadData(body, Names([], []))
  {
    n := Names([], []);
    var c := new WireCursor(body);
    var more, tag := c.ReadTag();
    ghost var at := body;
    hide Varint;
    while more
      invariant fresh(c) && c.Valid() && more == NextTag(at).Got?
      invariant more ==> Got(tag, c.Rest()) == NextTag(at)
      invariant ReadData(at, n) == ReadData(body, Names([], []))
      decreases |at|
    {
      if tag.wireType != 2 {
        var skipped := c.Skip(tag.wireType);
        if !skipped {
          return false, n;
        }
      } else {
        var got, field := c.ReadLengthDelimited();
        if !got {
          return false, n;
        }
        if tag.fieldNumber == 2 {
          n := n.(topic := field);
        } else if tag.fieldNumber == 3 {
          n := n.(messageType := field);
        }
        if n.topic != [] && n.messageType != [] {
          return true, n;
        }
      }
      at := c.Rest();
      more, tag := c.ReadTag();
    }
    ok := n.topic != [] && n.messageType != [];
  }

  method ReadRoutingKey(raw: seq<byte>) returns (composite: Option<string>)
    ensures composite == TryReadRoutingKey(raw)
  {
    var c := new WireCursor(raw);
    var more, tag := c.ReadTag();
    ghost var at := raw;
    hide Varint, ReadData, LengthDelimited, CompositeOf;
    while more
      invariant fresh(c) && c.Valid() && more == NextTag(at).Got?
      invariant more ==> Got(tag, c.Rest()) == NextTag(at)
      invariant TryReadRoutingKey(at) == TryReadRoutingKey(raw)
      decreases |at|
    {
      if tag.wireType == 2 {
        var got, body := c.ReadLengthDelimited();
        if !got || tag.fieldNumber != 3 {
          return None;
        }
        var ok, n := ReadDataMessageRoutingKey(body);
        return if ok then Some(CompositeOf(n)) else None;
      }
      var skipped := c.Skip(tag.wireType);
      if !skipped {
        return None;
      }
      at := c.Rest();
      more, tag := c.ReadTag();
    }
    return None;
  }
}
