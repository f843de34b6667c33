/**
 Signed QR payloads of class reservations and event tickets.

 A scanned text is either plain or the JSON text of an object; parsing and printing JSON are taken as given, and so
 is the HMAC (section 2 of RFC 2104), an arbitrary function of the secret and of the exact fields signed.
 */
module QrPayloads {
  import opened Wrappers

  datatype Json = Str(s: string) | Num(n: int) | Other
  datatype Text = Plain(raw: string) | Object(fields: map<string, Json>)

  /** The signed fields, in order: two ids under their key names, and the time stamp. */
  datatype Signed = Signed(idKey: string, id: string, ownerKey: string, owner: string, ts: int)
  type Hmac = (string, Signed) -> string

  const HMAC_LEN_HEX := 64

  /** What both parsers answer: the row, what it belongs to, and whether a signature was checked. */
  datatype Parsed = Parsed(id: string, owner: Option<string>, verified: bool)

  predicate Hex(c: char) {
    '0' <= c <= '9' || 'a' <= c <= 'f' || 'A' <= c <= 'F'
  }

  predicate HexRun(s: string, from: nat, to: nat)
    requires from <= to <= |s|
  {
    forall i :: from <= i < to ==> Hex(s[i])
  }

  predicate IsUuid(s: string) {
    && |s| == 36 && s[8] == '-' && s[13] == '-' && s[18] == '-' && s[23] == '-'
    && HexRun(s, 0, 8) && HexRun(s, 9, 13) && HexRun(s, 14, 18) && HexRun(s, 19, 23) && HexRun(s, 24, 36)
    && '1' <= s[14] <= '5' && (s[19] == '8' || s[19] == '9' || Lower(s[19]) == 'a' || Lower(s[19]) == 'b')
  }

  function Lower(c: char): char {
    if 'A' <= c <= 'Z' then c - 'A' + 'a' else c
  }

  /** Equality of the decoded bytes: case does not matter, anything that is not 64 hex digits never matches. */
  predicate SafeHexEqual(a: string, b: string) {
    && |a| == |b| == HMAC_LEN_HEX
    && forall i :: 0 <= i < |a| ==> Hex(a[i]) && Hex(b[i]) && Lower(a[i]) == Lower(b[i])
  }

  ghost predicate HmacOk(hmac: Hmac) {
    forall secret, m :: |hmac(secret, m)| == HMAC_LEN_HEX && HexRun(hmac(secret, m), 0, HMAC_LEN_HEX)
  }

  function Field(fields: map<string, Json>, key: string): Option<string> {
    if key in fields && fields[key].Str? then Some(fields[key].s) else None
  }

  function NumField(fields: map<string, Json>, key: string): Option<int> {
    if key in fields && fields[key].Num? then Some(fields[key].n) else None
  }

  /** `secret` is empty when `TICKET_QR_SECRET` is not set. */
  function Build(hmac: Hmac, m: Signed, secret: string): Text {
    var base := map[m.idKey := Str(m.id), m.ownerKey := Str(m.owner), "ts" := Num(m.ts)];
    if secret == "" then Object(base) else Object(base["s" := Str(hmac(secret, m))])
  }

  function BuildClassQr(hmac: Hmac, reservation: string, program: string, ts: int, secret: string): Text {
    Build(hmac, Signed("c", reservation, "p", program, ts), secret)
  }

  function BuildTicketQr(hmac: Hmac, ticket: string, event: string, ts: int, secret: string): Text {
    Build(hmac, Signed("t", ticket, "e", event, ts), secret)
  }

  /** The signature rule both parsers share once the compact fields are there. */
  function Check(hmac: Hmac, m: Signed, s: Option<string>, secret: string): Option<Parsed> {
    var owner := if IsUuid(m.owner) then Some(m.owner) else None;
    if s.None? || s.value == "" then Some(Parsed(m.id, owner, false))
    else if secret == "" then Some(Parsed(m.id, owner, false))
    else if SafeHexEqual(hmac(secret, m), s.value) then Some(Parsed(m.id, owner, true))
    else None
  }

  function ParseClassQr(hmac: Hmac, text: Text, secret: string): Option<Parsed> {
    match text
    case Plain(raw) => if IsUuid(raw) then Some(Parsed(raw, None, false)) else None
    case Object(f) =>
      var c, p, ts := Field(f, "c"), Field(f, "p"), NumField(f, "ts");
      if c.None? || !IsUuid(c.value) || p.None? || ts.None? then None
      else Check(hmac, Signed("c", c.value, "p", p.value, ts.value), Field(f, "s"), secret)
  }

  function ParseTicketQr(hmac: Hmac, text: Text, secret: string): Option<Parsed> {
    match text
    case Plain(raw) => if IsUuid(raw) then Some(Parsed(raw, None, false)) else None
    case Object(f) =>
      var t, e, ts := Field(f, "t"), Field(f, "e"), NumField(f, "ts");
      if t.Some? && IsUuid(t.value) && e.Some? && ts.Some?
      then Check(hmac, Signed("t", t.value, "e", e.value, ts.value), Field(f, "s"), secret)
      else
        // The format before signing.
        var legacy, owner := Field(f, "ticketId"), Field(f, "eventId");
        if legacy.Some? && IsUuid(legacy.value)
        then Some(Parsed(legacy.value, if owner.Some? && IsUuid(owner.value) then owner else None, false))
        else None
  }

  lemma HexEqualReflexive(s: string)
    requires |s| == HMAC_LEN_HEX && HexRun(s, 0, HMAC_LEN_HEX)
    ensures SafeHexEqual(s, s)
  {
  }

  /** A built payload parses back to its ids, verified exactly when it was signed. */
  lemma RoundTrip(hmac: Hmac, id: string, owner: string, ts: int, secret: string)
    requires HmacOk(hmac) && IsUuid(id)
    ensures var expected := Some(Parsed(id, if IsUuid(owner) then Some(owner) else None, secret != ""));
            && ParseClassQr(hmac, BuildClassQr(hmac, id, owner, ts, secret), secret) == expected
            && ParseTicketQr(hmac, BuildTicketQr(hmac, id, owner, ts, secret), secret) == expected
  {
    HexEqualReflexive(hmac(secret, Signed("c", id, "p", owner, ts)));
    HexEqualReflexive(hmac(secret, Signed("t", id, "e", owner, ts)));
  }

  /** Neither format is ever accepted as the other, under any ids and secrets on either side. */
  lemma FormatsAreDisjoint(hmac: Hmac, id: string, owner: string, ts: int, secret: string, scanner: string)
    ensures ParseTicketQr(hmac, BuildClassQr(hmac, id, owner, ts, secret), scanner).None?
    ensures ParseClassQr(hmac, BuildTicketQr(hmac, id, owner, ts, secret), scanner).None?
  {
  }

  /** An object is acceptable to a parser unless it is signed, the scanner has the secret, and the signature is not of `m`. */
  predicate SignatureFits(hmac: Hmac, m: Signed, fields: map<string, Json>, secret: string) {
    var s := Field(fields, "s");
    s == None || s == Some("") || secret == "" || SafeHexEqual(hmac(secret, m), s.value)
  }

  /** The fields of a compact payload with these key names; `None` when one is missing or the id is not a UUID. */
  function Compact(fields: map<string, Json>, idKey: string, ownerKey: string): Option<Signed> {
    var id, owner, ts := Field(fields, idKey), Field(fields, ownerKey), NumField(fields, "ts");
    if id.Some? && IsUuid(id.value) && owner.Some? && ts.Some?
    then Some(Signed(idKey, id.value, ownerKey, owner.value, ts.value)) else None
  }

  predicate HasLegacyTicket(fields: map<string, Json>) {
    Field(fields, "ticketId").Some? && IsUuid(Field(fields, "ticketId").value)
  }

  /**
   Which texts both scanners accept: a bare UUID, or an object that carries a class payload and, beside it, a compact
   ticket payload that the same signature fits or else a legacy ticket id.
   */
  predicate Ambiguous(hmac: Hmac, text: Text, secret: string) {
    match text
    case Plain(raw) => IsUuid(raw)
    case Object(f) =>
      var c, t := Compact(f, "c", "p"), Compact(f, "t", "e");
      && c.Some? && SignatureFits(hmac, c.value, f, secret)
      && if t.Some? then SignatureFits(hmac, t.value, f, secret) else HasLegacyTicket(f)
  }

  lemma BothAcceptIff(hmac: Hmac, text: Text, secret: string)
    ensures ParseClassQr(hmac, text, secret).Some? && ParseTicketQr(hmac, text, secret).Some? <==> Ambiguous(hmac, text, secret)
  {
  }

  /** No text is verified by both scanners, unless the HMAC of a class payload is also that of a ticket payload. */
  lemma BothVerifyOnlyOnCollision(hmac: Hmac, text: Text, secret: string)
    requires var r := ParseClassQr(hmac, text, secret); r.Some? && r.value.verified
    requires var r := ParseTicketQr(hmac, text, secret); r.Some? && r.value.verified
    ensures exists c: Signed, t: Signed :: c.idKey == "c" && t.idKey == "t" && SafeHexEqual(hmac(secret, c), hmac(secret, t))
  {
    var c, t := Compact(text.fields, "c", "p").value, Compact(text.fields, "t", "e").value;
    var s := Field(text.fields, "s").value;
    assert SafeHexEqual(hmac(secret, c), s) && SafeHexEqual(hmac(secret, t), s);
    assert SafeHexEqual(hmac(secret, c), hmac(secret, t));
  }

  /** `text` carries a signature over row `id` under the given key names, for some owner and time. */
  ghost predicate SignedBy(hmac: Hmac, text: Text, secret: string, idKey: string, ownerKey: string, id: string) {
    && text.Object? && Field(text.fields, "s").Some?
    && exists owner, ts :: SafeHexEqual(hmac(secret, Signed(idKey, id, ownerKey, owner, ts)), Field(text.fields, "s").value)
  }

  /** A verified answer carries a signature of exactly the id it names, under that format's own keys. */
  lemma VerifiedMeansSigned(hmac: Hmac, text: Text, secret: string)
    ensures var r := ParseClassQr(hmac, text, secret);
            r.Some? && r.value.verified ==> SignedBy(hmac, text, secret, "c", "p", r.value.id)
    ensures var r := ParseTicketQr(hmac, text, secret);
            r.Some? && r.value.verified ==> SignedBy(hmac, text, secret, "t", "e", r.value.id)
  {
  }
}
