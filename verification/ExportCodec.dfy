/**
 A codec of the kind that the export links ask for: some text form of payloads that can be read
 back, and some keyed hash of 32 bytes.
 */
module ExportCodec {
  import opened Common
  import opened Base64Url
  import opened ExportLink

  // ------------------------------------------------------------------ numbers as bytes

  const ONE := Byte(0, 0, 0, 1)

  /** Each number as that many zero bytes and an end mark. */
  function OfNumbers(ns: seq<nat>): seq<Byte> {
    if ns == [] then [] else seq(ns[0], _ => ZERO) + ([ONE] + OfNumbers(ns[1..]))
  }

  /** Reads numbers back, `n` zero bytes of the first one already read. */
  function NumbersFrom(bytes: seq<Byte>, n: nat): seq<nat> {
    if bytes == [] then []
    else if bytes[0] == ONE then [n] + NumbersFrom(bytes[1..], 0)
    else NumbersFrom(bytes[1..], n + 1)
  }

  lemma {:induction false} ZerosCount(zeros: nat, n: nat, rest: seq<Byte>)
    ensures NumbersFrom(seq(zeros, _ => ZERO) + ([ONE] + rest), n) == [n + zeros] + NumbersFrom(rest, 0)
    decreases zeros
  {
    var bytes := seq(zeros, _ => ZERO) + ([ONE] + rest);
    if zeros == 0 {
      assert bytes == [ONE] + rest && bytes[1..] == rest;
    } else {
      assert bytes[1..] == seq(zeros - 1, _ => ZERO) + ([ONE] + rest);
      ZerosCount(zeros - 1, n + 1, rest);
    }
  }

  lemma {:induction false} NumbersRoundTrip(ns: seq<nat>)
    ensures NumbersFrom(OfNumbers(ns), 0) == ns
  {
    if ns != [] {
      ZerosCount(ns[0], 0, OfNumbers(ns[1..]));
      NumbersRoundTrip(ns[1..]);
    }
  }

  // ------------------------------------------------------------------ texts as numbers

  function CodeOf(c: char): nat { c as nat }

  function CharFrom(n: nat): char { if n < 0xD800 || 0xE000 <= n < 0x110000 then n as char else ' ' }

  function OfField(field: Option<string>): seq<nat> {
    match field
    case None => [0]
    case Some(text) => [|text| + 1] + seq(|text|, i requires 0 <= i < |text| => CodeOf(text[i]))
  }

  function OfFields(fields: seq<Option<string>>): seq<nat> {
    if fields == [] then [] else OfField(fields[0]) + OfFields(fields[1..])
  }

  function TextFrom(ns: seq<nat>): string { seq(|ns|, i requires 0 <= i < |ns| => CharFrom(ns[i])) }

  /** Reads `count` fields back. */
  function FieldsFrom(ns: seq<nat>, count: nat): Option<seq<Option<string>>> {
    if count == 0 then Some([])
    else if ns == [] || ns[0] > |ns| then None
    else
      var length := if ns[0] == 0 then 1 else ns[0];
      match FieldsFrom(ns[length..], count - 1)
      case None => None
      case Some(rest) => Some([if ns[0] == 0 then None else Some(TextFrom(ns[1..length]))] + rest)
  }

  lemma FieldRoundTrip(field: Option<string>, more: seq<nat>)
    ensures var ns := OfField(field) + more;
            var length := if ns[0] == 0 then 1 else ns[0];
            && ns[0] <= |ns| && ns[length..] == more
            && field == if ns[0] == 0 then None else Some(TextFrom(ns[1..length]))
  {
    if field.Some? {
      var ns := OfField(field) + more;
      assert TextFrom(ns[1..ns[0]]) == field.value;
    }
  }

  lemma {:induction false} FieldsRoundTrip(fields: seq<Option<string>>)
    ensures FieldsFrom(OfFields(fields), |fields|) == Some(fields)
  {
    if fields != [] {
      var ns := OfFields(fields);
      assert ns == OfField(fields[0]) + OfFields(fields[1..]);
      FieldRoundTrip(fields[0], OfFields(fields[1..]));
      FieldsRoundTrip(fields[1..]);
      assert [fields[0]] + fields[1..] == fields;
    }
  }

  // ------------------------------------------------------------------ payloads

  function RoleCode(role: Role): nat {
    match role
    case Waiter => 0
    case Manager => 1
    case Owner => 2
    case PlatformOwner => 3
  }

  function RoleFrom(n: nat): Role {
    if n == 0 then Waiter else if n == 1 then Manager else if n == 2 then Owner else PlatformOwner
  }

  /** The sign and the size of a number. */
  function OfInt(n: int): seq<nat> { if n < 0 then [1, -n] else [0, n] }

  function IntFrom(sign: nat, size: nat): int { if sign == 1 then 0 - size else size }

  function NumbersOf(p: Payload): (ns: seq<nat>)
    ensures |ns| == 8
  {
    OfInt(p.v)
    + (if p.exp.Some? then [1] + OfInt(p.exp.value) else [0, 0, 0])
    + (if p.auth.Some? then [1, RoleCode(p.auth.value.role)] else [0, 0])
    + (if p.query.Some? then [1] else [0])
  }

  function FieldsOf(p: Payload): (fields: seq<Option<string>>)
    ensures |fields| == 10
  {
    (if p.auth.Some? then [p.auth.value.userId, p.auth.value.businessId, Some(p.auth.value.telegramUserId)]
     else [None, None, None])
    + (if p.query.Some? then
         var q := p.query.value;
         [q.startDate, q.endDate, q.telegramUserId, q.status, q.bank, q.duplicate, q.edited]
       else [None, None, None, None, None, None, None])
  }

  function PayloadFrom(ns: seq<nat>, fields: seq<Option<string>>): Payload
    requires |ns| == 8 && |fields| == 10
  {
    Payload(
      IntFrom(ns[0], ns[1]),
      if ns[2] == 1 then Some(IntFrom(ns[3], ns[4])) else None,
      if ns[5] == 1
      then Some(ExportAuth(fields[0], fields[1], RoleFrom(ns[6]), if fields[2].Some? then fields[2].value else ""))
      else None,
      if ns[7] == 1
      then Some(ExportQuery(fields[3], fields[4], fields[5], fields[6], fields[7], fields[8], fields[9]))
      else None)
  }

  lemma PartsRoundTrip(p: Payload)
    ensures PayloadFrom(NumbersOf(p), FieldsOf(p)) == p
  {
  }

  function Serialize(p: Payload): seq<Byte> { OfNumbers(NumbersOf(p) + OfFields(FieldsOf(p))) }

  function Parse(bytes: seq<Byte>): Option<Payload> {
    var ns := NumbersFrom(bytes, 0);
    if |ns| < 8 then None
    else
      match FieldsFrom(ns[8..], 10)
      case None => None
      case Some(fields) => if |fields| == 10 then Some(PayloadFrom(ns[..8], fields)) else None
  }

  lemma ParseSerialize(p: Payload)
    ensures Parse(Serialize(p)) == Some(p) && Serialize(p) != []
  {
    var ns := NumbersOf(p) + OfFields(FieldsOf(p));
    NumbersRoundTrip(ns);
    assert ns[..8] == NumbersOf(p) && ns[8..] == OfFields(FieldsOf(p));
    FieldsRoundTrip(FieldsOf(p));
    PartsRoundTrip(p);
  }

  function ZeroMac(text: string): (bytes: seq<Byte>)
    ensures |bytes| == 32
  {
    seq(32, _ => ZERO)
  }

  /** Codecs of the kind that the results about export links ask for exist, with the standard alphabet. */
  lemma FaithfulCodecsExist()
    ensures exists codec: Codec :: codec.Faithful() && codec.alphabet == STANDARD
  {
    var codec := Codec(Serialize, Parse, ZeroMac, STANDARD);
    StandardFits();
    forall p ensures codec.parse(codec.serialize(p)) == Some(p) && codec.serialize(p) != [] {
      ParseSerialize(p);
    }
    assert codec.Faithful();
  }
}
