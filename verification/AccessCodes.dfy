/**
 Access codes of class reservations (`CLS-`) and event tickets (`ALL-`), and how typed input is normalized.

 `Upper` stands for Unicode upper-casing: one character may become several. Only what it does to ASCII letters,
 digits and white space is known; the rest is arbitrary.
 */
module AccessCodes {
  import opened Wrappers

  datatype Kind = ClassCode | TicketCode

  const CODE_ALPHABET := "23456789ABCDEFGHJKLMNPQRSTUVWXYZ"
  const CODE_BODY_LEN := 6

  function Prefix(kind: Kind): string {
    match kind case ClassCode => "CLS" case TicketCode => "ALL"
  }

  /** The character class of the body; class codes leave out `I` and `O`. */
  predicate BodyChar(kind: Kind, c: char) {
    match kind
    case ClassCode => '0' <= c <= '9' || 'A' <= c <= 'H' || 'J' <= c <= 'N' || 'P' <= c <= 'Z'
    case TicketCode => '0' <= c <= '9' || 'A' <= c <= 'Z'
  }

  function Code(kind: Kind, body: string): string {
    Prefix(kind) + "-" + body
  }

  /** `picks` are the random indices. */
  method GenerateCode(kind: Kind, picks: seq<nat>) returns (code: string)
    requires |picks| == CODE_BODY_LEN && forall i :: 0 <= i < |picks| ==> picks[i] < |CODE_ALPHABET|
    ensures Generated(kind, code)
    ensures forall i :: 0 <= i < CODE_BODY_LEN ==> code[4 + i] == CODE_ALPHABET[picks[i]]
  {
    var body := "";
    for i := 0 to CODE_BODY_LEN
      invariant |body| == i && forall k :: 0 <= k < i ==> body[k] == CODE_ALPHABET[picks[k]]
    {
      body := body + [CODE_ALPHABET[picks[i]]];
    }
    code := Code(kind, body);
  }

  predicate Generated(kind: Kind, code: string) {
    && |code| == 4 + CODE_BODY_LEN && code[..4] == Prefix(kind) + "-"
    && forall i :: 4 <= i < |code| ==> code[i] in CODE_ALPHABET
  }

  // ---------- Normalization ----------

  /** JavaScript's `\s`, which is also what `trim` removes. */
  predicate IsSpace(c: char) {
    || '\t' <= c <= '\r' || c == ' ' || c == '\U{00A0}' || c == '\U{1680}' || '\U{2000}' <= c <= '\U{200A}'
    || c == '\U{2028}' || c == '\U{2029}' || c == '\U{202F}' || c == '\U{205F}' || c == '\U{3000}' || c == '\U{FEFF}'
  }

  predicate Dropped(c: char) {
    IsSpace(c) || c == '-'
  }

  function AsciiUpper(c: char): char {
    if 'a' <= c <= 'z' then c - 'a' + 'A' else c
  }

  predicate Alphanumeric(c: char) {
    '0' <= c <= '9' || 'A' <= c <= 'Z' || 'a' <= c <= 'z'
  }

  ghost predicate UpperOk(upper: char -> string) {
    forall c :: Alphanumeric(c) || Dropped(c) ==> upper(c) == [AsciiUpper(c)]
  }

  function UpperAll(upper: char -> string, s: string): string {
    if s == "" then "" else upper(s[0]) + UpperAll(upper, s[1..])
  }

  function Strip(s: string): string {
    if s == "" then "" else (if Dropped(s[0]) then "" else [s[0]]) + Strip(s[1..])
  }

  function TrimStart(s: string): string {
    if s != "" && IsSpace(s[0]) then TrimStart(s[1..]) else s
  }

  function TrimEnd(s: string): string {
    if s != "" && IsSpace(s[|s| - 1]) then TrimEnd(s[..|s| - 1]) else s
  }

  function Compact(upper: char -> string, raw: string): string {
    Strip(UpperAll(upper, TrimEnd(TrimStart(raw))))
  }

  function Normalize(kind: Kind, upper: char -> string, raw: string): Option<string> {
    var compact := Compact(upper, raw);
    if |compact| == 3 + CODE_BODY_LEN && compact[..3] == Prefix(kind) && (forall i :: 3 <= i < |compact| ==> BodyChar(kind, compact[i]))
    then Some(Code(kind, compact[3..]))
    else None
  }

  // ---------- Stripping and upper-casing commute on codes ----------

  lemma {:induction false} StripConcat(a: string, b: string)
    ensures Strip(a + b) == Strip(a) + Strip(b)
    decreases |a|
  {
    if a == "" {
      assert a + b == b;
    } else {
      assert (a + b)[1..] == a[1..] + b;
      StripConcat(a[1..], b);
    }
  }

  /** `raw` spells the same letters and digits as `letters`, in any case, with any spaces and dashes added. */
  predicate Spells(raw: string, letters: string) {
    && |Strip(raw)| == |letters|
    && forall i :: 0 <= i < |letters| ==> Alphanumeric(Strip(raw)[i]) && AsciiUpper(Strip(raw)[i]) == letters[i]
  }

  predicate AllAlphanumeric(s: string) {
    forall i :: 0 <= i < |s| ==> Alphanumeric(s[i])
  }

  lemma StripCons(c: char, rest: string)
    ensures Strip([c] + rest) == if Dropped(c) then Strip(rest) else [c] + Strip(rest)
  {
    assert ([c] + rest)[1..] == rest;
    assert "" + Strip(rest) == Strip(rest);
  }

  lemma StripUpperCons(upper: char -> string, c: char, rest: string)
    requires UpperOk(upper) && (Dropped(c) || Alphanumeric(c))
    ensures Strip(UpperAll(upper, [c] + rest))
            == if Dropped(c) then Strip(UpperAll(upper, rest)) else [AsciiUpper(c)] + Strip(UpperAll(upper, rest))
  {
    assert ([c] + rest)[1..] == rest;
    assert UpperAll(upper, [c] + rest) == [AsciiUpper(c)] + UpperAll(upper, rest);
    StripCons(AsciiUpper(c), UpperAll(upper, rest));
  }

  lemma UpperCons(upper: char -> string, c: char, rest: string)
    requires UpperOk(upper) && Alphanumeric(c)
    ensures UpperAll(upper, [c] + rest) == [AsciiUpper(c)] + UpperAll(upper, rest)
  {
    assert ([c] + rest)[1..] == rest;
  }

  /** Upper-casing before stripping is stripping before upper-casing, where only letters and digits are left. */
  lemma {:induction false} StripOfUpper(upper: char -> string, raw: string)
    requires UpperOk(upper) && AllAlphanumeric(Strip(raw))
    ensures Strip(UpperAll(upper, raw)) == UpperAll(upper, Strip(raw))
    decreases |raw|
  {
    if raw != "" {
      var c, rest := raw[0], raw[1..];
      assert raw == [c] + rest;
      StripCons(c, rest);
      if !Dropped(c) {
        assert Strip(raw)[0] == c;
        assert forall i :: 0 <= i < |Strip(rest)| ==> Strip(rest)[i] == Strip(raw)[i + 1];
        UpperCons(upper, c, Strip(rest));
      }
      StripUpperCons(upper, c, rest);
      StripOfUpper(upper, rest);
    }
  }

  lemma {:induction false} UpperOfLetters(upper: char -> string, s: string)
    requires UpperOk(upper) && AllAlphanumeric(s)
    ensures |UpperAll(upper, s)| == |s| && forall i :: 0 <= i < |s| ==> UpperAll(upper, s)[i] == AsciiUpper(s[i])
    decreases |s|
  {
    if s != "" {
      UpperOfLetters(upper, s[1..]);
      assert UpperAll(upper, s) == [AsciiUpper(s[0])] + UpperAll(upper, s[1..]);
    }
  }

  lemma CompactSpelled(upper: char -> string, raw: string, letters: string)
    requires UpperOk(upper) && Spells(raw, letters)
    ensures Strip(UpperAll(upper, raw)) == letters
  {
    StripOfUpper(upper, raw);
    UpperOfLetters(upper, Strip(raw));
  }

  lemma {:induction false} TrimKeepsLetters(raw: string)
    ensures Strip(TrimEnd(TrimStart(raw))) == Strip(raw)
  {
    StartKeepsLetters(raw);
    EndKeepsLetters(TrimStart(raw));
  }

  lemma {:induction false} StartKeepsLetters(raw: string)
    ensures Strip(TrimStart(raw)) == Strip(raw)
    decreases |raw|
  {
    if raw != "" && IsSpace(raw[0]) {
      StartKeepsLetters(raw[1..]);
    }
  }

  lemma {:induction false} EndKeepsLetters(raw: string)
    ensures Strip(TrimEnd(raw)) == Strip(raw)
    decreases |raw|
  {
    if raw != "" && IsSpace(raw[|raw| - 1]) {
      var n := |raw| - 1;
      EndKeepsLetters(raw[..n]);
      StripConcat(raw[..n], [raw[n]]);
      assert raw == raw[..n] + [raw[n]];
      assert Strip([raw[n]]) == "";
    }
  }

  /** The nine letters and digits of a code, without its dash. */
  function Letters(kind: Kind, body: string): string {
    Prefix(kind) + body
  }

  /** Any re-casing of a code with any spaces and dashes added or dropped normalizes to the code. */
  lemma TypedCodeNormalizes(kind: Kind, upper: char -> string, raw: string, body: string)
    requires UpperOk(upper) && |body| == CODE_BODY_LEN && (forall i :: 0 <= i < |body| ==> BodyChar(kind, body[i]))
    requires Spells(raw, Letters(kind, body))
    ensures Normalize(kind, upper, raw) == Some(Code(kind, body))
  {
    var letters := Letters(kind, body);
    TrimKeepsLetters(raw);
    CompactSpelled(upper, TrimEnd(TrimStart(raw)), letters);
    assert letters[..3] == Prefix(kind) && letters[3..] == body;
  }

  lemma StripOfCode(kind: Kind, body: string)
    requires forall i :: 0 <= i < |body| ==> !Dropped(body[i])
    ensures Strip(Code(kind, body)) == Letters(kind, body)
  {
    var prefix := Prefix(kind);
    StripConcat(prefix, "-" + body);
    StripCons('-', body);
    assert prefix + ("-" + body) == Code(kind, body);
    StripNothing(body);
    StripNothing(prefix);
  }

  /** A canonical code spells itself. */
  lemma CodeSpellsItself(kind: Kind, body: string)
    requires forall i :: 0 <= i < |body| ==> BodyChar(kind, body[i])
    ensures Strip(Code(kind, body)) == Letters(kind, body) && Spells(Code(kind, body), Letters(kind, body))
  {
    StripOfCode(kind, body);
  }

  lemma {:induction false} StripNothing(s: string)
    requires forall i :: 0 <= i < |s| ==> !Dropped(s[i])
    ensures Strip(s) == s
    decreases |s|
  {
    if s != "" {
      StripNothing(s[1..]);
    }
  }

  /** A generated code is accepted as it is, however it is typed. */
  lemma GeneratedCodeNormalizes(kind: Kind, upper: char -> string, code: string, raw: string)
    requires UpperOk(upper) && Generated(kind, code) && Spells(raw, Strip(code))
    ensures Normalize(kind, upper, raw) == Some(code)
  {
    var body := code[4..];
    assert code == Code(kind, body);
    BodyOfGenerated(kind, code);
    CodeSpellsItself(kind, body);
    TypedCodeNormalizes(kind, upper, raw, body);
  }

  lemma BodyOfGenerated(kind: Kind, code: string)
    requires Generated(kind, code)
    ensures forall i :: 0 <= i < CODE_BODY_LEN ==> BodyChar(kind, code[4..][i])
  {
    AlphabetInBody(kind);
    forall i | 0 <= i < CODE_BODY_LEN ensures BodyChar(kind, code[4..][i]) {
      assert code[4..][i] == code[4 + i];
    }
  }

  lemma AlphabetInBody(kind: Kind)
    ensures forall c :: c in CODE_ALPHABET ==> BodyChar(kind, c)
  {
  }

  /** Normalizing a result changes nothing. */
  lemma NormalizeIdempotent(kind: Kind, upper: char -> string, raw: string)
    requires UpperOk(upper) && Normalize(kind, upper, raw).Some?
    ensures Normalize(kind, upper, Normalize(kind, upper, raw).value) == Normalize(kind, upper, raw)
  {
    var body := Compact(upper, raw)[3..];
    CodeSpellsItself(kind, body);
    TypedCodeNormalizes(kind, upper, Code(kind, body), body);
  }

  /** No input is both a class code and a ticket code, whatever upper-casing does outside ASCII. */
  lemma NoCodeIsBoth(upper: char -> string, raw: string)
    ensures Normalize(ClassCode, upper, raw).None? || Normalize(TicketCode, upper, raw).None?
  {
    assert Prefix(ClassCode)[0] != Prefix(TicketCode)[0];
  }
}
