/** Mercado Pago webhooks: the three-part envelope, the signature header, and when an event is
    accepted. */
module Webhook {
  import opened RenewalKeys
  import opened Domain

  // ----- strings.Split -----

  /** The pieces of a string between occurrences of a separator; there is always at least one. */
  function Split(s: string, sep: char): (parts: seq<string>)
    ensures |parts| >= 1
  {
    if s == "" then [""]
    else
      var rest := Split(s[1..], sep);
      if s[0] == sep then [""] + rest else [[s[0]] + rest[0]] + rest[1..]
  }

  function Join(parts: seq<string>, sep: char): string {
    if parts == [] then ""
    else if |parts| == 1 then parts[0]
    else parts[0] + [sep] + Join(parts[1..], sep)
  }

  lemma {:induction false} JoinOfSplit(s: string, sep: char)
    ensures Join(Split(s, sep), sep) == s
  {
    if s == "" {
    } else {
      var rest := Split(s[1..], sep);
      JoinOfSplit(s[1..], sep);
      var parts := Split(s, sep);
      if s[0] == sep {
        assert parts[1..] == rest;
      } else {
        assert parts[1..] == rest[1..];
      }
    }
  }

  lemma {:induction false} PiecesAreClean(s: string, sep: char)
    ensures forall p <- Split(s, sep) :: sep !in p
  {
    if s == "" {
    } else {
      PiecesAreClean(s[1..], sep);
    }
  }

  lemma {:induction false} SplitOfPrefix(p: string, rest: string, sep: char)
    requires sep !in p
    ensures Split(p + [sep] + rest, sep) == [p] + Split(rest, sep)
  {
    var s := p + [sep] + rest;
    if p == "" {
      assert s[0] == sep && s[1..] == rest;
    } else {
      assert s[0] == p[0] && s[1..] == p[1..] + [sep] + rest;
      SplitOfPrefix(p[1..], rest, sep);
      assert [p[0]] + p[1..] == p;
      assert ([p[1..]] + Split(rest, sep))[1..] == Split(rest, sep);
    }
  }

  lemma {:induction false} SplitOfClean(p: string, sep: char)
    requires sep !in p
    ensures Split(p, sep) == [p]
  {
    if p == "" {
    } else {
      SplitOfClean(p[1..], sep);
      assert [p[0]] + p[1..] == p;
    }
  }

  /** Splitting undoes joining exactly when no part contains the separator. */
  lemma {:induction false} SplitOfJoin(parts: seq<string>, sep: char)
    requires parts != []
    ensures Split(Join(parts, sep), sep) == parts <==> forall p <- parts :: sep !in p
  {
    if Split(Join(parts, sep), sep) == parts {
      PiecesAreClean(Join(parts, sep), sep);
    }
    if forall p <- parts :: sep !in p {
      SplitCleanJoin(parts, sep);
    }
  }

  lemma {:induction false} SplitCleanJoin(parts: seq<string>, sep: char)
    requires parts != [] && forall p <- parts :: sep !in p
    ensures Split(Join(parts, sep), sep) == parts
  {
    assert parts[0] in parts;
    if |parts| == 1 {
      SplitOfClean(parts[0], sep);
    } else {
      SplitCleanJoin(parts[1..], sep);
      SplitOfPrefix(parts[0], Join(parts[1..], sep), sep);
    }
  }

  function Count(s: string, sep: char): nat {
    if s == "" then 0 else (if s[0] == sep then 1 else 0) + Count(s[1..], sep)
  }

  lemma {:induction false} SplitCounts(s: string, sep: char)
    ensures |Split(s, sep)| == Count(s, sep) + 1
  {
    if s == "" {
    } else {
      SplitCounts(s[1..], sep);
    }
  }

  lemma {:induction false} CountConcat(a: string, b: string, sep: char)
    ensures Count(a + b, sep) == Count(a, sep) + Count(b, sep)
  {
    if a == "" {
      assert a + b == b;
    } else {
      assert (a + b)[1..] == a[1..] + b;
      CountConcat(a[1..], b, sep);
    }
  }

  lemma {:induction false} CountZero(s: string, sep: char)
    ensures Count(s, sep) == 0 <==> sep !in s
  {
    if s == "" {
    } else {
      CountZero(s[1..], sep);
    }
  }

  // ----- The envelope -----

  const PIPE := '|'

  /** What the webhook handler hands to the connector. */
  function Envelope(secret: string, requestId: string, header: string): string {
    secret + [PIPE] + requestId + [PIPE] + header
  }

  /** The connector finds three parts exactly when none of the handler's values contains the separator,
      and then they are those values. */
  lemma EnvelopeSplits(secret: string, requestId: string, header: string)
    ensures Envelope(secret, requestId, header) == secret + "|" + requestId + "|" + header
    ensures |Split(Envelope(secret, requestId, header), PIPE)| == 3
            <==> PIPE !in secret && PIPE !in requestId && PIPE !in header
    ensures |Split(Envelope(secret, requestId, header), PIPE)| == 3 ==>
              Split(Envelope(secret, requestId, header), PIPE) == [secret, requestId, header]
  {
    hide Split, Count;
    var e := Envelope(secret, requestId, header);
    SplitCounts(e, PIPE);
    CountConcat(secret + [PIPE] + requestId + [PIPE], header, PIPE);
    CountConcat(secret + [PIPE] + requestId, [PIPE], PIPE);
    CountConcat(secret + [PIPE], requestId, PIPE);
    CountConcat(secret, [PIPE], PIPE);
    CountOne();
    CountZero(secret, PIPE);
    CountZero(requestId, PIPE);
    CountZero(header, PIPE);
    if PIPE !in secret && PIPE !in requestId && PIPE !in header {
      assert e == secret + [PIPE] + (requestId + [PIPE] + header);
      SplitOfPrefix(secret, requestId + [PIPE] + header, PIPE);
      SplitOfPrefix(requestId, header, PIPE);
      SplitOfClean(header, PIPE);
    }
  }

  lemma CountOne()
    ensures Count([PIPE], PIPE) == 1
  {
    assert [PIPE][1..] == "";
  }

  // ----- The signature header -----

  const COMMA := ','
  const EQUALS := '='

  /** A part of the form key=value gives a value; any other part gives none. */
  function ValueOf(part: string, key: string): Option<string> {
    var kv := Split(part, EQUALS);
    if |kv| == 2 && kv[0] == key then Some(kv[1]) else None
  }

  /** The value of the last part with a key, or nothing. */
  function LastValue(parts: seq<string>, key: string): string
    decreases |parts|
  {
    if parts == [] then ""
    else
      var v := ValueOf(parts[|parts| - 1], key);
      if v.Some? then v.value else LastValue(parts[..|parts| - 1], key)
  }

  /** A part gives a value for a key exactly if it is the key, one equals sign and the value. */
  lemma ValueOfIff(part: string, key: string, v: string)
    requires EQUALS !in key
    ensures ValueOf(part, key) == Some(v) <==> part == key + "=" + v && EQUALS !in v
  {
    hide Split;
    if ValueOf(part, key) == Some(v) {
      JoinOfSplit(part, EQUALS);
      PiecesAreClean(part, EQUALS);
      assert Split(part, EQUALS) == [key, v];
      assert v in Split(part, EQUALS);
      assert Join([key, v], EQUALS) == key + [EQUALS] + Join([v], EQUALS);
    }
    if part == key + "=" + v && EQUALS !in v {
      assert part == key + [EQUALS] + v;
      SplitOfPrefix(key, v, EQUALS);
      SplitOfClean(v, EQUALS);
    }
  }

  /** The value read for a key is that of the last part that has one. */
  lemma {:induction false} LastValueAt(parts: seq<string>, key: string, i: nat)
    requires i < |parts| && ValueOf(parts[i], key).Some?
    requires forall j :: i < j < |parts| ==> ValueOf(parts[j], key).None?
    ensures LastValue(parts, key) == ValueOf(parts[i], key).value
    decreases |parts|
  {
    hide ValueOf;
    var n := |parts| - 1;
    if i == n {
    } else {
      assert ValueOf(parts[n], key).None?;
      LastValueAt(parts[..n], key, i);
    }
  }

  /** And empty if no part has one. */
  lemma {:induction false} NoLastValue(parts: seq<string>, key: string)
    requires forall j :: 0 <= j < |parts| ==> ValueOf(parts[j], key).None?
    ensures LastValue(parts, key) == ""
    decreases |parts|
  {
    hide ValueOf;
    if parts == [] {
    } else {
      assert ValueOf(parts[|parts| - 1], key).None?;
      NoLastValue(parts[..|parts| - 1], key);
    }
  }

  /** Reads the timestamp and the signature from "ts=...,v1=...", in any order, later parts first. */
  method ParseSignature(header: string) returns (ts: string, v1: string)
    ensures ts == LastValue(Split(header, COMMA), "ts")
    ensures v1 == LastValue(Split(header, COMMA), "v1")
  {
    ts, v1 := "", "";
    var parts := Split(header, COMMA);
    for i := 0 to |parts|
      invariant ts == LastValue(parts[..i], "ts")
      invariant v1 == LastValue(parts[..i], "v1")
    {
      assert parts[..i + 1][..i] == parts[..i] && parts[..i + 1][i] == parts[i];
      var kv := Split(parts[i], EQUALS);
      if |kv| == 2 {
        if kv[0] == "ts" {
          ts := kv[1];
        } else if kv[0] == "v1" {
          v1 := kv[1];
        }
      }
    }
    assert parts[..|parts|] == parts;
  }

  predicate Plain(s: string) {
    COMMA !in s && EQUALS !in s
  }

  /** A header in Mercado Pago's format is read back to the values it was made from. */
  lemma SignatureReadsBack(ts: string, v1: string)
    requires Plain(ts) && Plain(v1)
    ensures var parts := Split("ts=" + ts + ",v1=" + v1, COMMA);
            LastValue(parts, "ts") == ts && LastValue(parts, "v1") == v1
  {
    hide Split;
    var a, b := "ts=" + ts, "v1=" + v1;
    assert COMMA !in a && COMMA !in b;
    assert "ts=" + ts + ",v1=" + v1 == a + [COMMA] + b;
    SplitOfPrefix(a, b, COMMA);
    SplitOfClean(b, COMMA);
    var parts := Split(a + [COMMA] + b, COMMA);
    assert parts == [a, b];
    assert a == "ts" + [EQUALS] + ts && b == "v1" + [EQUALS] + v1;
    SplitOfPrefix("ts", ts, EQUALS);
    SplitOfPrefix("v1", v1, EQUALS);
    SplitOfClean(ts, EQUALS);
    SplitOfClean(v1, EQUALS);
    assert "ts"[1] != "v1"[1];
    assert ValueOf(a, "ts") == Some(ts) && ValueOf(b, "v1") == Some(v1) && ValueOf(b, "ts") == None;
    assert parts[..1] == [a] && [a][..0] == [];
  }

  // ----- Accepting an event -----

  /** The fields of a notification body that the connector reads. */
  datatype Payload = Payload(id: int, kind: string, dataId: string)

  datatype Event = Event(kind: string, chargeId: string)

  datatype WebhookError = InvalidInput | SignatureInvalid

  datatype Result = Accepted(event: Event) | Rejected(error: WebhookError)

  /** HMAC-SHA256 in hexadecimal, and JSON decoding, as the connector uses them. */
  datatype Primitives = Primitives(hmac: (string, string) -> string, decode: seq<int> -> Option<Payload>)

  const PAYMENT := "payment"

  /** The payment a notification is about: its data id, or else its own id in decimal. */
  function PaymentId(p: Payload): string {
    if p.dataId != "" then p.dataId else Field(p.id, 1)
  }

  function SignedMessage(paymentId: string, requestId: string, ts: string): string {
    "id:" + paymentId + ";request-id:" + requestId + ";ts:" + ts + ";"
  }

  const SEMICOLON := ';'

  /** The signed message binds the payment, the request and the timestamp: among texts without a semicolon no two
      different triples share one. */
  lemma SignedMessageBinds(id1: string, rid1: string, ts1: string, id2: string, rid2: string, ts2: string)
    requires SEMICOLON !in id1 && SEMICOLON !in rid1 && SEMICOLON !in ts1
    requires SEMICOLON !in id2 && SEMICOLON !in rid2 && SEMICOLON !in ts2
    requires SignedMessage(id1, rid1, ts1) == SignedMessage(id2, rid2, ts2)
    ensures id1 == id2 && rid1 == rid2 && ts1 == ts2
  {
    SplitOfMessage(id1, rid1, ts1);
    SplitOfMessage(id2, rid2, ts2);
    hide Split, SignedMessage;
    SamePrefix("id:", id1, id2);
    SamePrefix("request-id:", rid1, rid2);
    SamePrefix("ts:", ts1, ts2);
  }

  lemma SplitOfMessage(id: string, rid: string, ts: string)
    requires SEMICOLON !in id && SEMICOLON !in rid && SEMICOLON !in ts
    ensures Split(SignedMessage(id, rid, ts), SEMICOLON) == ["id:" + id, "request-id:" + rid, "ts:" + ts, ""]
  {
    hide Split;
    var a, b, c := "id:" + id, "request-id:" + rid, "ts:" + ts;
    assert SEMICOLON !in a && SEMICOLON !in b && SEMICOLON !in c;
    assert SignedMessage(id, rid, ts) == a + [SEMICOLON] + (b + [SEMICOLON] + (c + [SEMICOLON] + ""));
    SplitOfPrefix(a, b + [SEMICOLON] + (c + [SEMICOLON] + ""), SEMICOLON);
    SplitOfPrefix(b, c + [SEMICOLON] + "", SEMICOLON);
    SplitOfPrefix(c, "", SEMICOLON);
    SplitOfClean("", SEMICOLON);
  }

  lemma SamePrefix(prefix: string, a: string, b: string)
    ensures prefix + a == prefix + b ==> a == b
  {
    assert (prefix + a)[|prefix|..] == a && (prefix + b)[|prefix|..] == b;
  }

  /** The condition is needed: a payment id with a semicolon can be read as a shorter one and a longer request id. */
  lemma SemicolonsBlurTheMessage(a: string, b: string, c: string, ts: string)
    ensures SignedMessage(a + ";request-id:" + b, c, ts) == SignedMessage(a, b + ";request-id:" + c, ts)
  {
  }

  /** The payment a notification is about. */
  lemma PaymentIdMeans(p: Payload)
    ensures p.dataId != "" ==> PaymentId(p) == p.dataId
    ensures p.dataId == "" && p.id >= 0 ==> PaymentId(p) != "" && DecimalValue(PaymentId(p)) == p.id
    ensures ParseEvent(p).kind == p.kind
    ensures ParseEvent(p).chargeId == if p.kind == "payment" then PaymentId(p) else ""
  {
    if p.id >= 0 {
      DecimalReadsBack(p.id, 1);
    }
  }

  predicate SignatureValid(prim: Primitives, body: seq<int>, secret: string, requestId: string, header: string) {
    var parts := Split(header, COMMA);
    var ts, v1 := LastValue(parts, "ts"), LastValue(parts, "v1");
    && ts != "" && v1 != "" && prim.decode(body).Some?
    && prim.hmac(secret, SignedMessage(PaymentId(prim.decode(body).value), requestId, ts)) == v1
  }

  function ParseEvent(p: Payload): Event {
    Event(p.kind, if p.kind == PAYMENT then PaymentId(p) else "")
  }

  function HandleWebhook(prim: Primitives, body: seq<int>, signature: string): Result {
    var parts := Split(signature, PIPE);
    if |parts| != 3 then Rejected(InvalidInput)
    else if !SignatureValid(prim, body, parts[0], parts[1], parts[2]) then Rejected(SignatureInvalid)
    else if prim.decode(body).None? then Rejected(InvalidInput)
    else Accepted(ParseEvent(prim.decode(body).value))
  }

  /** A notification is accepted exactly when the envelope is unambiguous and the signature in the header
      is the keyed hash, under the tenant's secret, of a message that names the payment; the charge of an
      accepted payment event is the one named in that message. */
  lemma AcceptedIffSigned(prim: Primitives, body: seq<int>, secret: string, requestId: string, header: string)
    ensures var r := HandleWebhook(prim, body, Envelope(secret, requestId, header));
            var parts := Split(header, COMMA);
            && (r.Accepted? <==>
                  && PIPE !in secret && PIPE !in requestId && PIPE !in header
                  && prim.decode(body).Some? && LastValue(parts, "ts") != "" && LastValue(parts, "v1") != ""
                  && var id := PaymentId(prim.decode(body).value);
                     prim.hmac(secret, SignedMessage(id, requestId, LastValue(parts, "ts"))) == LastValue(parts, "v1"))
            && (r.Accepted? && r.event.kind == PAYMENT ==>
                  prim.hmac(secret, SignedMessage(r.event.chargeId, requestId, LastValue(parts, "ts")))
                  == LastValue(parts, "v1"))
            && (r == Rejected(InvalidInput) <==> PIPE in secret || PIPE in requestId || PIPE in header)
  {
    hide Split, LastValue, SignedMessage, Field;
    EnvelopeSplits(secret, requestId, header);
  }

  lemma PipeFree(ts: string, v1: string)
    requires PIPE !in ts && PIPE !in v1
    ensures PIPE !in "ts=" + ts + ",v1=" + v1
  {
  }

  /** A header made in Mercado Pago's format by someone who knows the secret is accepted. */
  lemma ProperlySignedIsAccepted(prim: Primitives, body: seq<int>, secret: string, requestId: string, ts: string)
    requires PIPE !in secret && PIPE !in requestId && PIPE !in ts && ts != "" && Plain(ts)
    requires prim.decode(body).Some?
    requires var v1 := prim.hmac(secret, SignedMessage(PaymentId(prim.decode(body).value), requestId, ts));
             v1 != "" && Plain(v1) && PIPE !in v1
    ensures var v1 := prim.hmac(secret, SignedMessage(PaymentId(prim.decode(body).value), requestId, ts));
            HandleWebhook(prim, body, Envelope(secret, requestId, "ts=" + ts + ",v1=" + v1)).Accepted?
  {
    hide Split, LastValue, SignedMessage, PaymentId, Envelope, HandleWebhook, Plain;
    var v1 := prim.hmac(secret, SignedMessage(PaymentId(prim.decode(body).value), requestId, ts));
    SignatureReadsBack(ts, v1);
    PipeFree(ts, v1);
    AcceptedIffSigned(prim, body, secret, requestId, "ts=" + ts + ",v1=" + v1);
  }
}
