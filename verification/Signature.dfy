/** Webhook signatures: the header a delivery carries, and the receiver's reference check of it. */
module Signature {
  import opened Common
  import opened Text

  /** HMAC-SHA256 (section 2 of RFC 2104): any function of the secret and the message. */
  type Mac = (string, seq<Byte>) -> seq<Byte>

  const DOT: Byte := '.' as int

  function Code(c: char): Byte
    requires c as int < 0x80
  {
    c as int
  }

  function Ascii(s: string): seq<Byte>
    requires forall k :: 0 <= k < |s| ==> s[k] as int < 0x80
  {
    seq(|s|, k requires 0 <= k < |s| => Code(s[k]))
  }

  /** What is signed: the printed timestamp, a dot, the raw body. */
  function Message(timestamp: I64, body: seq<Byte>): seq<Byte> {
    PrintIsPlain(timestamp);
    Ascii(Print(timestamp)) + [DOT] + body
  }

  lemma {:induction false} MessageIsInjective(t: I64, body: seq<Byte>, t': I64, body': seq<Byte>)
    requires Message(t, body) == Message(t', body')
    ensures t == t' && body == body'
  {
    PrintIsPlain(t);
    PrintIsPlain(t');
    var (p, p') := (Ascii(Print(t)), Ascii(Print(t')));
    FirstDot(p, body, p', body');
    assert forall k :: 0 <= k < |p| ==> p[k] == Print(t)[k] as int && p'[k] == Print(t')[k] as int;
    assert Print(t) == Print(t');
    ParsePrint(t);
    ParsePrint(t');
  }

  lemma FirstDot(p: seq<Byte>, body: seq<Byte>, p': seq<Byte>, body': seq<Byte>)
    requires (forall k :: 0 <= k < |p| ==> p[k] != DOT) && (forall k :: 0 <= k < |p'| ==> p'[k] != DOT)
    requires p + [DOT] + body == p' + [DOT] + body'
    ensures p == p' && body == body'
  {
    var (m, m') := (p + [DOT] + body, p' + [DOT] + body');
    assert m[|p|] == DOT && m'[|p'|] == DOT;
    assert |p| == |p'|;
    assert m[..|p|] == p && m'[..|p'|] == p';
    assert m[|p| + 1..] == body && m'[|p'| + 1..] == body';
  }

  /** Byte for byte: the decimal digits, a full stop, and the body as it is. */
  lemma MessageLayout(t: I64, body: seq<Byte>)
    ensures var (message, digits) := (Message(t, body), |Print(t)|);
            && |message| == digits + 1 + |body|
            && (forall k :: 0 <= k < digits ==> message[k] == Print(t)[k] as int)
            && message[digits] == 46
            && message[digits + 1..] == body
  {
  }

  function Sign(mac: Mac, secret: string, timestamp: I64, body: seq<Byte>): string {
    "t=" + Print(timestamp) + ",v1=" + HexEncode(mac(secret, Message(timestamp, body)))
  }

  // ----- What a header says

  /** Part k of a header is `name=value`. */
  predicate Field(parts: seq<string>, k: nat, name: string, value: string) {
    k < |parts| && SplitOnce(parts[k], '=') == Some((name, value))
  }

  ghost predicate Named(parts: seq<string>, k: nat, name: string) {
    exists value :: Field(parts, k, name, value)
  }

  /** The last `t` part decides, whether or not it parses. */
  ghost predicate Timestamp(parts: seq<string>, timestamp: I64) {
    exists k: nat, value ::
      && Field(parts, k, "t", value)
      && ParseI64(value) == Some(timestamp)
      && forall l: nat :: k < l < |parts| ==> !Named(parts, l, "t")
  }

  ghost predicate Signed(parts: seq<string>, signature: seq<Byte>) {
    exists k: nat, value :: Field(parts, k, "v1", value) && HexDecode(value) == Some(signature)
  }

  function Magnitude(n: int): nat {
    if n < 0 then 0 - n else n
  }

  ghost predicate Accepts(mac: Mac, secret: string, header: string, body: seq<Byte>, now: I64, tolerance: I64) {
    exists timestamp: I64 ::
      && Timestamp(Split(header, ','), timestamp)
      && now - Magnitude(tolerance) <= timestamp <= now + Magnitude(tolerance)
      && Signed(Split(header, ','), mac(secret, Message(timestamp, body)))
  }

  // ----- The check

  /** The last timestamp among the first n parts, as the loop knows it. */
  ghost predicate LastSeen(parts: seq<string>, n: nat, timestamp: Option<I64>)
    requires n <= |parts|
  {
    match timestamp
    case Some(t) => Timestamp(parts[..n], t)
    case None => forall t: I64 :: !Timestamp(parts[..n], t)
  }

  lemma TimestampIsUnique(parts: seq<string>, t: I64, t': I64)
    requires Timestamp(parts, t) && Timestamp(parts, t')
    ensures t == t'
  {
    var k: nat, value :| Field(parts, k, "t", value) && ParseI64(value) == Some(t) && forall l: nat :: k < l < |parts| ==> !Named(parts, l, "t");
    var k': nat, value' :| Field(parts, k', "t", value') && ParseI64(value') == Some(t')
                      && forall l: nat :: k' < l < |parts| ==> !Named(parts, l, "t");
    assert Named(parts, k, "t") && Named(parts, k', "t");
  }

  lemma FieldsOfPrefix(parts: seq<string>, n: nat, k: nat, name: string, value: string)
    requires k < n <= |parts|
    ensures Field(parts[..n], k, name, value) <==> Field(parts, k, name, value)
    ensures Named(parts[..n], k, name) <==> Named(parts, k, name)
  {
    forall v ensures Field(parts[..n], k, name, v) <==> Field(parts, k, name, v) {}
  }

  lemma OtherPart(parts: seq<string>, n: nat, t: I64)
    requires n < |parts| && !Named(parts, n, "t")
    ensures Timestamp(parts[..n + 1], t) <==> Timestamp(parts[..n], t)
  {
    var (before, after) := (parts[..n], parts[..n + 1]);
    forall k: nat, value | k < n
      ensures Field(after, k, "t", value) <==> Field(before, k, "t", value)
      ensures Named(after, k, "t") <==> Named(before, k, "t")
    {
      FieldsOfPrefix(parts, n, k, "t", value);
      FieldsOfPrefix(parts, n + 1, k, "t", value);
    }
    FieldsOfPrefix(parts, n + 1, n, "t", "");
    assert forall value :: !Field(after, n, "t", value);
  }

  /** A part that is not `t` leaves the timestamp as it was. */
  lemma SeeOther(parts: seq<string>, n: nat, timestamp: Option<I64>)
    requires n < |parts| && !Named(parts, n, "t") && LastSeen(parts, n, timestamp)
    ensures LastSeen(parts, n + 1, timestamp)
  {
    if timestamp.Some? {
      OtherPart(parts, n, timestamp.value);
    } else {
      var seen := parts[..n + 1];
      forall t: I64 ensures !Timestamp(seen, t) {
        OtherPart(parts, n, t);
      }
    }
  }

  /** A `t` part replaces it, by nothing if it does not parse. */
  lemma SeeTimestamp(parts: seq<string>, n: nat, value: string)
    requires Field(parts, n, "t", value)
    ensures LastSeen(parts, n + 1, ParseI64(value))
  {
    var seen := parts[..n + 1];
    forall t: I64 ensures Timestamp(seen, t) <==> ParseI64(value) == Some(t) {
      TimestampPart(parts, n, value, t);
    }
  }

  lemma TimestampPart(parts: seq<string>, n: nat, value: string, t: I64)
    requires Field(parts, n, "t", value)
    ensures Timestamp(parts[..n + 1], t) <==> ParseI64(value) == Some(t)
  {
    var seen := parts[..n + 1];
    FieldsOfPrefix(parts, n + 1, n, "t", value);
    assert Field(seen, n, "t", value) && Named(seen, n, "t");
    if ParseI64(value) == Some(t) {
      assert Field(seen, n, "t", value) && ParseI64(value) == Some(t)
             && forall l: nat :: n < l < |seen| ==> !Named(seen, l, "t");
      assert Timestamp(seen, t);
    }
    if Timestamp(seen, t) {
      var k: nat, other :| Field(seen, k, "t", other) && ParseI64(other) == Some(t)
                           && forall l: nat :: k < l < |seen| ==> !Named(seen, l, "t");
      assert k == n && other == value;
    }
  }

  /** The reference verifier. It accepts exactly the headers whose last `t` part parses and is within tolerance, and
      of whose `v1` parts some one is the hex of the MAC. */
  method Verify(mac: Mac, secret: string, header: string, body: seq<Byte>, now: I64, tolerance: I64)
    returns (accepted: bool)
    ensures accepted <==> Accepts(mac, secret, header, body, now, tolerance)
  {
    var parts := Split(header, ',');
    var timestamp: Option<I64> := None;
    var signatures: seq<seq<Byte>> := [];
    for k := 0 to |parts|
      invariant LastSeen(parts, k, timestamp)
      invariant forall signature :: signature in signatures <==>
                  exists j: nat, value :: j < k && Field(parts, j, "v1", value) && HexDecode(value) == Some(signature)
    {
      match SplitOnce(parts[k], '=') {
        case Some((name, value)) =>
          assert Field(parts, k, name, value);
          if name == "t" {
            timestamp := ParseI64(value);
            SeeTimestamp(parts, k, value);
          } else {
            SeeOther(parts, k, timestamp);
            if name == "v1" {
              var decoded := HexDecode(value);
              if decoded.Some? {
                signatures := signatures + [decoded.value];
              }
            }
          }
        case None =>
          SeeOther(parts, k, timestamp);
      }
    }
    assert parts[..|parts|] == parts;
    if timestamp.None? {
      return false;
    }
    forall t: I64 | Timestamp(parts, t) ensures t == timestamp.value {
      TimestampIsUnique(parts, t, timestamp.value);
    }
    var difference := if now < timestamp.value then timestamp.value - now else now - timestamp.value;
    if difference > (if tolerance < 0 then 0 - tolerance else tolerance) {
      return false;
    }
    var expected := mac(secret, Message(timestamp.value, body));
    accepted := expected in signatures;
  }

  // ----- Signing, then verifying

  /** A signed header has two parts, `t` and `v1`. */
  lemma SignedParts(mac: Mac, secret: string, t: I64, body: seq<Byte>)
    ensures var (printed, hex) := (Print(t), HexEncode(mac(secret, Message(t, body))));
            var parts := Split(Sign(mac, secret, t, body), ',');
            && |parts| == 2
            && SplitOnce(parts[0], '=') == Some(("t", printed))
            && SplitOnce(parts[1], '=') == Some(("v1", hex))
  {
    var (printed, hex) := (Print(t), HexEncode(mac(secret, Message(t, body))));
    PrintIsPlain(t);
    HexRoundTrip(mac(secret, Message(t, body)));
    hide Print, HexEncode, HexDecode, Message, Split, SplitOnce;
    assert Sign(mac, secret, t, body) == ("t=" + printed) + [','] + ("v1=" + hex);
    SplitFirst("t=" + printed, "v1=" + hex, ',');
    SplitNone("v1=" + hex, ',');
    SplitOnceIff("t=" + printed, '=', "t", printed);
    SplitOnceIff("v1=" + hex, '=', "v1", hex);
  }

  /** A signed header states its timestamp and nothing but its one signature. */
  lemma SignedHeaderSays(mac: Mac, secret: string, t: I64, body: seq<Byte>)
    ensures var (parts, signature) := (Split(Sign(mac, secret, t, body), ','), mac(secret, Message(t, body)));
            && Timestamp(parts, t)
            && (forall t': I64 :: Timestamp(parts, t') ==> t' == t)
            && (forall s :: Signed(parts, s) <==> s == signature)
  {
    var (parts, signature) := (Split(Sign(mac, secret, t, body), ','), mac(secret, Message(t, body)));
    SignedParts(mac, secret, t, body);
    ParsePrint(t);
    HexRoundTrip(signature);
    TwoParts(parts, Print(t), t, HexEncode(signature), signature);
  }

  lemma TwoParts(parts: seq<string>, printed: string, t: I64, hex: string, signature: seq<Byte>)
    requires |parts| == 2
    requires SplitOnce(parts[0], '=') == Some(("t", printed)) && ParseI64(printed) == Some(t)
    requires SplitOnce(parts[1], '=') == Some(("v1", hex)) && HexDecode(hex) == Some(signature)
    ensures Timestamp(parts, t) && forall t': I64 :: Timestamp(parts, t') ==> t' == t
    ensures forall s :: Signed(parts, s) <==> s == signature
  {
    hide SplitOnce, ParseI64, HexDecode;
    assert Field(parts, 0, "t", printed) && !Named(parts, 1, "t");
    assert Timestamp(parts, t);
    forall t': I64 | Timestamp(parts, t') ensures t' == t {
      TimestampIsUnique(parts, t, t');
    }
    assert Field(parts, 1, "v1", hex);
  }

  /** Another body or another secret is accepted only if it has the same MAC for the timestamp that was signed. */
  lemma SignedHeaderAccepts(mac: Mac, secret: string, t: I64, body: seq<Byte>,
                            secret': string, body': seq<Byte>, now: I64, tolerance: I64)
    ensures Accepts(mac, secret', Sign(mac, secret, t, body), body', now, tolerance) <==>
            && (if tolerance < 0 then now + tolerance <= t <= now - tolerance else now - tolerance <= t <= now + tolerance)
            && mac(secret', Message(t, body')) == mac(secret, Message(t, body))
  {
    SignedHeaderSays(mac, secret, t, body);
    hide Split, Sign, Timestamp, Signed, Message;
  }

  /** Whatever was signed is accepted, exactly as long as it is fresh. */
  lemma SignThenVerify(mac: Mac, secret: string, t: I64, body: seq<Byte>, now: I64, tolerance: I64)
    ensures Accepts(mac, secret, Sign(mac, secret, t, body), body, now, tolerance) <==>
            (if tolerance < 0 then now + tolerance <= t <= now - tolerance else now - tolerance <= t <= now + tolerance)
  {
    SignedHeaderAccepts(mac, secret, t, body, secret, body, now, tolerance);
  }

  /** Suppose the MAC has no collisions under this secret, and every signature a header carries was made for one of the
      messages issued. Then the header is accepted for a body if and only if that very body was issued with the very
      timestamp the header states, which is within tolerance, and the header carries its signature: nothing that was
      signed can be moved to another timestamp or body. */
  lemma SignaturesCannotBeMoved(mac: Mac, secret: string, issued: iset<(I64, seq<Byte>)>,
                                header: string, body: seq<Byte>, now: I64, tolerance: I64)
    requires forall m, m' :: mac(secret, m) == mac(secret, m') ==> m == m'
    requires forall signature :: Signed(Split(header, ','), signature) ==>
               exists t: I64, b :: (t, b) in issued && signature == mac(secret, Message(t, b))
    ensures Accepts(mac, secret, header, body, now, tolerance) <==>
              exists t: I64 ::
                && (t, body) in issued
                && Timestamp(Split(header, ','), t)
                && (if tolerance < 0 then now + tolerance <= t <= now - tolerance else now - tolerance <= t <= now + tolerance)
                && Signed(Split(header, ','), mac(secret, Message(t, body)))
  {
    hide Split, Timestamp, Signed, Message;
    var parts := Split(header, ',');
    if Accepts(mac, secret, header, body, now, tolerance) {
      var t: I64 :| && Timestamp(parts, t) && now - Magnitude(tolerance) <= t <= now + Magnitude(tolerance)
                    && Signed(parts, mac(secret, Message(t, body)));
      var t': I64, b :| (t', b) in issued && mac(secret, Message(t, body)) == mac(secret, Message(t', b));
      MessageIsInjective(t, body, t', b);
    }
  }

  /** One header, written out. */
  lemma HeaderAsWritten(mac: Mac, secret: string, body: seq<Byte>)
    requires mac(secret, [49, 55, 48, 48, 46] + body) == [0xDE, 0xAD, 0x00, 0x5F]
    ensures Sign(mac, secret, 1_700, body) == "t=1700,v1=dead005f"
  {
    hide Message, HexEncode, Print;
    MessageAsWritten(body);
    HexAsWritten();
    DecimalAsWritten();
    assert "t=" + "1700" + ",v1=" + "dead005f" == "t=1700,v1=dead005f";
  }

  lemma MessageAsWritten(body: seq<Byte>)
    ensures Message(1_700, body) == [49, 55, 48, 48, 46] + body
  {
    hide Print;
    DecimalAsWritten();
    var digits: seq<Byte> := Ascii("1700");
    assert digits == [49, 55, 48, 48];
    assert digits + [46] == [49, 55, 48, 48, 46];
  }
}
