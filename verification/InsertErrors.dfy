/**
 How a failed reservation insert is read back from the database error: which unique index it was, and what the
 booking does about it.
 */
module InsertErrors {
  import opened Wrappers
  import opened ClassData
  import opened BookingSteps

  const PG_UNIQUE_VIOLATION := "23505"
  const OCCURRENCE_KEY := "user_id, " + "program_id, " + "session_date, " + "start_time"
  const CODE_KEY := "Key (code)="

  /** `meta.target`, which only typed calls fill in. */
  datatype Target = NoTarget | Text(text: string) | Columns(names: seq<string>)

  datatype Failure =
    | Foreign
    | Known(code: string, metaCode: Option<string>, target: Target, detail: Option<string>, message: string)

  predicate At(s: string, part: string, i: nat) {
    i + |part| <= |s| && s[i..i + |part|] == part
  }

  predicate Contains(s: string, part: string) {
    exists i :: 0 <= i <= |s| && At(s, part, i)
  }

  predicate WordChar(c: char) {
    'a' <= c <= 'z' || 'A' <= c <= 'Z' || '0' <= c <= '9' || c == '_'
  }

  predicate WordAt(s: string, word: string, i: nat) {
    && At(s, word, i)
    && (i > 0 ==> !WordChar(s[i - 1]))
    && (i + |word| < |s| ==> !WordChar(s[i + |word|]))
  }

  predicate HasWord(s: string, word: string) {
    exists i :: 0 <= i <= |s| && WordAt(s, word, i)
  }

  predicate IsUniqueViolation(f: Failure) {
    f.Known? && (f.code == "P2002" || (f.code == "P2010" && f.metaCode == Some(PG_UNIQUE_VIOLATION)))
  }

  predicate ViolatesCodeIndex(f: Failure)
    requires f.Known?
  {
    match f.target
    case Text(text) => HasWord(text, "code")
    case Columns(names) => "code" in names
    case NoTarget => Contains(if f.detail.Some? then f.detail.value else f.message, CODE_KEY)
  }

  datatype Verdict = Retry | Duplicate | Rethrow

  function Catch(f: Failure, attempt: nat): Verdict {
    if !IsUniqueViolation(f) then Rethrow
    else if ViolatesCodeIndex(f) then if attempt + 1 < RESERVATION_CODE_ATTEMPTS then Retry else Rethrow
    else Duplicate
  }

  // ---------- What the database raises ----------

  function KeyDetail(columns: string, values: string): string {
    "Key (" + columns + ")=(" + values + ") already exists."
  }

  /** A raw insert reports the SQLSTATE and the offending key. */
  predicate RaisedFor(f: Failure, columns: string, values: string) {
    f.Known? && f.code == "P2010" && f.metaCode == Some(PG_UNIQUE_VIOLATION) && f.target.NoTarget?
    && f.detail == Some(KeyDetail(columns, values))
  }

  /** Ids, dates and times are printed with hex digits, dashes, colons, commas and spaces: never a capital K. */
  predicate PlainValues(values: string) {
    'K' !in values
  }

  /** The two unique indexes, the occurrence index first; `values` is how the occurrence key is printed. */
  ghost predicate Raises(db: Db, user: nat, slot: Slot, code: string, values: string, f: Failure) {
    if Holds(db.rows, user, slot) then RaisedFor(f, OCCURRENCE_KEY, values)
    else CodeTaken(db.rows, code) && RaisedFor(f, "code", code)
  }

  // ---------- Telling the two indexes apart ----------

  lemma CodeDetailNamesCode(values: string)
    ensures Contains(KeyDetail("code", values), CODE_KEY)
  {
    var detail := KeyDetail("code", values);
    assert detail[..11] == CODE_KEY;
    assert At(detail, CODE_KEY, 0);
  }

  /** A part that can only begin at position 0, and differs there, is nowhere in `s`. */
  lemma NotContained(s: string, part: string, n: nat)
    requires n < |part| && n < |s| && s[n] != part[n]
    requires forall i :: 0 < i < |s| ==> s[i] != part[0]
    ensures !Contains(s, part)
  {
    forall i: nat | i <= |s| && i + |part| <= |s| ensures !At(s, part, i) {
      assert s[i..i + |part|][0] == s[i] && s[i..i + |part|][n] == s[i + n];
    }
  }

  lemma NoKInColumns()
    ensures 'K' !in OCCURRENCE_KEY
  {
    assert 'K' !in "user_id, " && 'K' !in "program_id, " && 'K' !in "session_date, " && 'K' !in "start_time";
  }

  lemma OccurrenceDetailDoesNot(values: string)
    requires PlainValues(values)
    ensures !Contains(KeyDetail(OCCURRENCE_KEY, values), CODE_KEY)
  {
    var detail, columns := KeyDetail(OCCURRENCE_KEY, values), OCCURRENCE_KEY;
    NoKInColumns();
    OneK(columns, values);
    assert detail[5] == columns[0] == 'u';
    NotContained(detail, CODE_KEY, 5);
  }

  lemma OneK(columns: string, values: string)
    requires 'K' !in columns && 'K' !in values
    ensures forall i :: 0 < i < |KeyDetail(columns, values)| ==> KeyDetail(columns, values)[i] != 'K'
  {
    var rest := "ey (" + columns + ")=(" + values + ") already exists.";
    assert KeyDetail(columns, values) == "K" + rest;
    assert 'K' !in rest;
  }

  /** A duplicate is only ever reported for the occurrence index, and only the code index is retried. */
  lemma IndexesToldApart(values: string, f: Failure, attempt: nat)
    ensures RaisedFor(f, OCCURRENCE_KEY, values) && PlainValues(values) ==> Catch(f, attempt) == Duplicate
    ensures RaisedFor(f, "code", values) ==> Catch(f, attempt) != Duplicate
    ensures RaisedFor(f, "code", values) ==> (Catch(f, attempt) == Retry <==> attempt + 1 < RESERVATION_CODE_ATTEMPTS)
  {
    CodeDetailNamesCode(values);
    if PlainValues(values) {
      OccurrenceDetailDoesNot(values);
    }
  }

  /** The insert step of a booking does exactly what the error handler makes of the error raised at that instant. */
  lemma HandlerIsTheStep(s: State, t: nat, newCode: string, values: string, f: Failure)
    requires t in s.txs && s.txs[t].Create? && s.txs[t].stage.Holding? && s.txs[t].stage.progress == RoomLeft
    requires PlainValues(values) && Raises(s.db, s.txs[t].user, s.txs[t].slot, s.txs[t].code, values, f)
    ensures var tx, s' := s.txs[t], AdvanceCreate(s, t, s.txs[t], newCode);
            && s'.db == s.db
            && (Catch(f, tx.attempt) == Duplicate <==> s'.txs[t] == Done(BookingRefused(DuplicateReservation)))
            && (Catch(f, tx.attempt) == Retry <==> s'.txs[t].Create?)
            && (Catch(f, tx.attempt) == Rethrow <==> s'.txs[t] == Done(CodesExhausted))
  {
    CodeDetailNamesCode(s.txs[t].code);
    OccurrenceDetailDoesNot(values);
  }

  /**
   A textual target that is a bare identifier counts only when it is the column itself: an index name such as
   `class_session_reservations_code_uidx`, had a typed call reported one, would be answered as a duplicate. The
   booking's insert is raw and fills in no target.
   */
  lemma NameRecognisedIffColumn(f: Failure, attempt: nat)
    requires IsUniqueViolation(f) && f.target.Text? && forall k :: 0 <= k < |f.target.text| ==> WordChar(f.target.text[k])
    ensures Catch(f, attempt) == Duplicate <==> f.target.text != "code"
  {
    var name := f.target.text;
    if name == "code" {
      assert WordAt(name, "code", 0);
    } else {
      forall i: nat | i <= |name| ensures !WordAt(name, "code", i) {
        if i == 0 && |name| == 4 {
          assert name[0..4] == name;
        }
      }
    }
  }
}
