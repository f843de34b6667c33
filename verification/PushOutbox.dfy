/** Push delivery: claim, send in chunks, match the replies back to rows, retry at most three times. */
module PushOutbox {
  import opened Wrappers

  const PUSH_MAX_ATTEMPTS := 3
  const PUSH_BATCH := 100
  const STALE_SECONDS := 10 * 60

  datatype PushStatus = Queued | Processing | Sent | GaveUp
  datatype Row = Row(user: nat, title: string, status: PushStatus, attempts: nat, lastAttempt: Option<int>)
  datatype Token = Token(user: nat, token: string)
  datatype Entry = Entry(row: nat, token: string)
  datatype Message = Message(to: string, title: string)
  datatype Ticket = Delivered | DeviceNotRegistered | OtherError

  /** One call to the push service: it throws, or answers with as many tickets as it likes. */
  datatype Reply = SendFailed | Tickets(tickets: seq<Ticket>)

  // ---------- The statements on the outbox ----------

  function ResetRow(r: Row, now: int): Row {
    if r.status == Processing && r.lastAttempt.Some? && r.lastAttempt.value < now - STALE_SECONDS
    then r.(status := Queued) else r
  }

  predicate Claimable(r: Row) {
    r.status == Queued && r.attempts < PUSH_MAX_ATTEMPTS
  }

  function ClaimRow(r: Row, now: int): Row {
    if Claimable(r) then r.(status := Processing, lastAttempt := Some(now)) else r
  }

  function SentRow(r: Row, now: int): Row {
    if r.status == Processing then r.(status := Sent, lastAttempt := Some(now)) else r
  }

  function FailedRow(r: Row, now: int): Row {
    if r.status == Processing
    then r.(attempts := r.attempts + 1, lastAttempt := Some(now),
            status := if r.attempts + 1 >= PUSH_MAX_ATTEMPTS then GaveUp else Queued)
    else r
  }

  datatype Statement = Reset | Claim(ids: set<nat>) | MarkSent(ids: set<nat>) | MarkFailed(ids: set<nat>)

  function Touch(stmt: Statement, r: Row, i: nat, now: int): Row {
    match stmt
    case Reset => ResetRow(r, now)
    case Claim(ids) => if i in ids then ClaimRow(r, now) else r
    case MarkSent(ids) => if i in ids then SentRow(r, now) else r
    case MarkFailed(ids) => if i in ids then FailedRow(r, now) else r
  }

  function Apply(outbox: seq<Row>, stmt: Statement, now: int): (r: seq<Row>)
    ensures |r| == |outbox| && forall i :: 0 <= i < |r| ==> r[i] == Touch(stmt, outbox[i], i, now)
  {
    seq(|outbox|, i requires 0 <= i < |outbox| => Touch(stmt, outbox[i], i, now))
  }

  /** The rows a claim picks: the oldest hundred that are queued. */
  function Batch(outbox: seq<Row>, n: nat): (ids: seq<nat>)
    requires n <= |outbox|
    ensures |ids| <= PUSH_BATCH && |ids| <= n
    ensures forall k :: 0 <= k < |ids| ==> ids[k] < n && Claimable(outbox[ids[k]])
    ensures forall k, l :: 0 <= k < l < |ids| ==> ids[k] < ids[l]
  {
    if n == 0 then []
    else
      var ids := Batch(outbox, n - 1);
      if |ids| < PUSH_BATCH && Claimable(outbox[n - 1]) then ids + [n - 1] else ids
  }

  // ---------- Any interleaving of any number of workers ----------

  /** Workers enqueue, reset, claim and report in any order; a report may name rows claimed long ago. */
  datatype Step = Enqueue(user: nat, title: string) | Run(stmt: Statement, now: int)

  function Do(outbox: seq<Row>, step: Step): seq<Row> {
    match step
    case Enqueue(user, title) => outbox + [Row(user, title, Queued, 0, None)]
    case Run(stmt, now) => Apply(outbox, stmt, now)
  }

  function DoAll(outbox: seq<Row>, steps: seq<Step>): seq<Row>
    decreases |steps|
  {
    if steps == [] then outbox else DoAll(Do(outbox, steps[0]), steps[1..])
  }

  predicate RowOk(r: Row) {
    && r.attempts <= PUSH_MAX_ATTEMPTS
    && (r.status == Queued || r.status == Processing ==> r.attempts < PUSH_MAX_ATTEMPTS)
    && (r.status == GaveUp ==> r.attempts == PUSH_MAX_ATTEMPTS)
  }

  predicate Finished(r: Row) {
    r.status == Sent || r.status == GaveUp
  }

  /**
   However workers overlap: attempts never pass three, a row still in play has attempts left, `sent` and `failed`
   are final, and attempts never go down.
   */
  lemma {:induction false} AttemptsAreBounded(outbox: seq<Row>, steps: seq<Step>)
    requires forall i :: 0 <= i < |outbox| ==> RowOk(outbox[i])
    ensures var after := DoAll(outbox, steps);
            && |outbox| <= |after|
            && (forall i :: 0 <= i < |after| ==> RowOk(after[i]))
            && (forall i :: 0 <= i < |outbox| ==> outbox[i].attempts <= after[i].attempts)
            && (forall i :: 0 <= i < |outbox| && Finished(outbox[i]) ==> after[i] == outbox[i])
    decreases |steps|
  {
    if steps != [] {
      AttemptsAreBounded(Do(outbox, steps[0]), steps[1..]);
    }
  }

  // ---------- Which rows a round delivers ----------

  function TokensOf(tokens: seq<Token>, user: nat): seq<string> {
    if tokens == [] then []
    else TokensOf(tokens[..|tokens| - 1], user)
         + if tokens[|tokens| - 1].user == user then [tokens[|tokens| - 1].token] else []
  }

  lemma TokensOfNext(tokens: seq<Token>, k: nat)
    requires k < |tokens|
    ensures forall u: nat :: TokensOf(tokens[..k + 1], u)
                             == TokensOf(tokens[..k], u) + if tokens[k].user == u then [tokens[k].token] else []
  {
    assert tokens[..k + 1][..k] == tokens[..k];
  }

  function EntriesOf(row: nat, tokens: seq<string>): (es: seq<Entry>)
    ensures |es| == |tokens| && forall k :: 0 <= k < |es| ==> es[k] == Entry(row, tokens[k])
  {
    seq(|tokens|, k requires 0 <= k < |tokens| => Entry(row, tokens[k]))
  }

  /** One message per claimed row and token of its user, in order. */
  function AllEntries(outbox: seq<Row>, ids: seq<nat>, tokens: seq<Token>): seq<Entry>
    requires forall k :: 0 <= k < |ids| ==> ids[k] < |outbox|
  {
    if ids == [] then []
    else
      var n := |ids| - 1;
      AllEntries(outbox, ids[..n], tokens) + EntriesOf(ids[n], TokensOf(tokens, outbox[ids[n]].user))
  }

  lemma OneMoreEntry(before: seq<Entry>, row: nat, tokens: seq<string>, m: nat)
    requires m < |tokens|
    ensures before + EntriesOf(row, tokens)[..m + 1] == (before + EntriesOf(row, tokens)[..m]) + [Entry(row, tokens[m])]
  {
  }

  lemma AllEntriesNext(outbox: seq<Row>, ids: seq<nat>, n: nat, tokens: seq<Token>)
    requires n < |ids| && forall k :: 0 <= k < |ids| ==> ids[k] < |outbox|
    ensures AllEntries(outbox, ids[..n + 1], tokens)
            == AllEntries(outbox, ids[..n], tokens) + EntriesOf(ids[n], TokensOf(tokens, outbox[ids[n]].user))
  {
    assert ids[..n + 1][..n] == ids[..n];
  }

  /** Message `k` goes to the token of entry `k` and carries the title of its row. */
  predicate Parallel(outbox: seq<Row>, entries: seq<Entry>, messages: seq<Message>) {
    && |messages| == |entries|
    && forall k :: 0 <= k < |entries| ==>
         entries[k].row < |outbox| && messages[k] == Message(entries[k].token, outbox[entries[k].row].title)
  }

  lemma ParallelPush(outbox: seq<Row>, entries: seq<Entry>, messages: seq<Message>, row: nat, token: string)
    requires Parallel(outbox, entries, messages) && row < |outbox|
    ensures Parallel(outbox, entries + [Entry(row, token)], messages + [Message(token, outbox[row].title)])
  {
  }

  /** The ticket that answers message `k`: position `k % 100` of the reply to chunk `k / 100`, if it came. */
  function TicketFor(replies: nat -> Reply, k: nat): Option<Ticket> {
    var reply := replies(k / PUSH_BATCH);
    if reply.Tickets? && k % PUSH_BATCH < |reply.tickets| then Some(reply.tickets[k % PUSH_BATCH]) else None
  }

  /** Rows with a delivered ticket among the first `n` messages. */
  function RowsIn(entries: seq<Entry>, n: nat, replies: nat -> Reply): set<nat>
    requires n <= |entries|
  {
    set k | 0 <= k < n && TicketFor(replies, k) == Some(Delivered) :: entries[k].row
  }

  function TokensIn(entries: seq<Entry>, n: nat, replies: nat -> Reply): set<string>
    requires n <= |entries|
  {
    set k | 0 <= k < n && TicketFor(replies, k) == Some(DeviceNotRegistered) :: entries[k].token
  }

  function RowsAnswered(entries: seq<Entry>, replies: nat -> Reply): set<nat> {
    RowsIn(entries, |entries|, replies)
  }

  function TokensDead(entries: seq<Entry>, replies: nat -> Reply): set<string> {
    TokensIn(entries, |entries|, replies)
  }

  function IdSet(ids: seq<nat>): set<nat> {
    set i | i in ids
  }

  /** The outbox after one undisturbed round. */
  function Round(outbox: seq<Row>, tokens: seq<Token>, replies: nat -> Reply, now: int): seq<Row> {
    var reset := Apply(outbox, Reset, now);
    var ids := Batch(reset, |reset|);
    var claimed := Apply(reset, Claim(IdSet(ids)), now);
    var delivered := RowsAnswered(AllEntries(claimed, ids, tokens), replies);
    Apply(Apply(claimed, MarkSent(delivered), now), MarkFailed(IdSet(ids) - delivered), now)
  }

  function Surviving(tokens: seq<Token>, dead: set<string>): seq<Token> {
    if tokens == [] then []
    else (if tokens[0].token in dead then [] else [tokens[0]]) + Surviving(tokens[1..], dead)
  }

  class NotificationsService {
    var outbox: seq<Row>
    var tokens: seq<Token>

    constructor (outbox: seq<Row>, tokens: seq<Token>)
      ensures this.outbox == outbox && this.tokens == tokens
    {
      this.outbox, this.tokens := outbox, tokens;
    }

    /**
     A round marks a claimed row sent iff some delivered ticket answers one of its messages, whatever chunks fail and
     however many tickets come back; every other claimed row is queued again or given up; dead tokens are dropped.
     */
    method DeliverPushOutbox(replies: nat -> Reply, now: int)
      modifies this
      ensures outbox == Round(old(outbox), old(tokens), replies, now)
      ensures var reset := Apply(old(outbox), Reset, now);
              var ids := Batch(reset, |reset|);
              var entries := AllEntries(Apply(reset, Claim(IdSet(ids)), now), ids, old(tokens));
              tokens == if ids == [] then old(tokens) else Surviving(old(tokens), TokensDead(entries, replies))
    {
      outbox := Apply(outbox, Reset, now);
      var ids := Batch(outbox, |outbox|);
      outbox := Apply(outbox, Claim(IdSet(ids)), now);
      if ids == [] {
        assert AllEntries(outbox, ids, tokens) == [];
        assert outbox == Round(old(outbox), old(tokens), replies, now);
        return;
      }
      var tokensByUser := GroupTokens();
      var entries, messages := Compose(ids, tokensByUser);
      var delivered, dead := Send(entries, messages, replies);
      outbox := Apply(outbox, MarkSent(delivered), now);
      outbox := Apply(outbox, MarkFailed(IdSet(ids) - delivered), now);
      tokens := Surviving(tokens, dead);
    }

    method GroupTokens() returns (byUser: map<nat, seq<string>>)
      ensures forall u: nat :: TokensOf(tokens, u) == if u in byUser then byUser[u] else []
    {
      byUser := map[];
      for k := 0 to |tokens|
        invariant forall u: nat :: TokensOf(tokens[..k], u) == if u in byUser then byUser[u] else []
      {
        var t := tokens[k];
        TokensOfNext(tokens, k);
        var list := if t.user in byUser then byUser[t.user] else [];
        byUser := byUser[t.user := list + [t.token]];
      }
      assert tokens[..|tokens|] == tokens;
    }

    /** The two parallel arrays. */
    method Compose(ids: seq<nat>, byUser: map<nat, seq<string>>) returns (entries: seq<Entry>, messages: seq<Message>)
      requires forall k :: 0 <= k < |ids| ==> ids[k] < |outbox|
      requires forall u: nat :: TokensOf(tokens, u) == if u in byUser then byUser[u] else []
      ensures entries == AllEntries(outbox, ids, tokens) && Parallel(outbox, entries, messages)
    {
      entries, messages := [], [];
      for n := 0 to |ids|
        invariant entries == AllEntries(outbox, ids[..n], tokens) && Parallel(outbox, entries, messages)
      {
        var row := ids[n];
        var mine := if outbox[row].user in byUser then byUser[outbox[row].user] else [];
        assert mine == TokensOf(tokens, outbox[row].user);
        ghost var before := entries;
        for m := 0 to |mine|
          invariant entries == before + EntriesOf(row, mine)[..m] && Parallel(outbox, entries, messages)
        {
          ParallelPush(outbox, entries, messages, row, mine[m]);
          OneMoreEntry(before, row, mine, m);
          entries := entries + [Entry(row, mine[m])];
          messages := messages + [Message(mine[m], outbox[row].title)];
        }
        assert EntriesOf(row, mine)[..|mine|] == EntriesOf(row, mine);
        AllEntriesNext(outbox, ids, n, tokens);
      }
      assert ids[..|ids|] == ids;
    }

    /** Sends the messages in chunks and reads the tickets back against the parallel entries. */
    method Send(entries: seq<Entry>, messages: seq<Message>, replies: nat -> Reply)
      returns (delivered: set<nat>, dead: set<string>)
      requires |messages| == |entries|
      ensures delivered == RowsAnswered(entries, replies) && dead == TokensDead(entries, replies)
    {
      delivered, dead := {}, {};
      var i := 0;
      while i < |messages|
        invariant 0 <= i && i % PUSH_BATCH == 0
        invariant delivered == RowsIn(entries, Min(i, |entries|), replies)
        invariant dead == TokensIn(entries, Min(i, |entries|), replies)
        decreases |messages| - i
      {
        var end := Min(i + PUSH_BATCH, |entries|);
        var chunkEntries := entries[i..end];
        var reply := replies(i / PUSH_BATCH);
        var sent, gone := {}, {};
        if reply.Tickets? {
          sent, gone := ReadTickets(chunkEntries, reply.tickets);
        }
        ChunkRows(entries, replies, i, end, sent);
        ChunkTokens(entries, replies, i, end, gone);
        delivered, dead := delivered + sent, dead + gone;
        i := i + PUSH_BATCH;
      }
    }

    method ReadTickets(chunk: seq<Entry>, tickets: seq<Ticket>) returns (sent: set<nat>, gone: set<string>)
      ensures sent == (set k | 0 <= k < |chunk| && k < |tickets| && tickets[k] == Delivered :: chunk[k].row)
      ensures gone == (set k | 0 <= k < |chunk| && k < |tickets| && tickets[k] == DeviceNotRegistered :: chunk[k].token)
    {
      sent, gone := {}, {};
      for idx := 0 to |tickets|
        invariant sent == (set k | 0 <= k < |chunk| && k < idx && tickets[k] == Delivered :: chunk[k].row)
        invariant gone == (set k | 0 <= k < |chunk| && k < idx && tickets[k] == DeviceNotRegistered :: chunk[k].token)
      {
        if idx < |chunk| {
          if tickets[idx] == Delivered {
            sent := sent + {chunk[idx].row};
          } else if tickets[idx] == DeviceNotRegistered {
            gone := gone + {chunk[idx].token};
          }
        }
      }
    }
  }

  function Min(a: nat, b: nat): nat {
    if a < b then a else b
  }

  ghost function ChunkTickets(replies: nat -> Reply, i: nat): seq<Ticket> {
    if replies(i / PUSH_BATCH).Tickets? then replies(i / PUSH_BATCH).tickets else []
  }

  /** Position arithmetic: message `i + k` of the whole is message `k` of the chunk starting at `i`. */
  lemma TicketInChunk(replies: nat -> Reply, i: nat, k: nat)
    requires i % PUSH_BATCH == 0 && k < PUSH_BATCH
    ensures TicketFor(replies, i + k)
            == if k < |ChunkTickets(replies, i)| then Some(ChunkTickets(replies, i)[k]) else None
  {
    assert (i + k) / PUSH_BATCH == i / PUSH_BATCH && (i + k) % PUSH_BATCH == k;
  }

  lemma ChunkRows(entries: seq<Entry>, replies: nat -> Reply, i: nat, end: nat, sent: set<nat>)
    requires i % PUSH_BATCH == 0 && i <= end <= |entries| && end <= i + PUSH_BATCH
    requires var ts, chunk := ChunkTickets(replies, i), entries[i..end];
             sent == (set k | 0 <= k < |chunk| && k < |ts| && ts[k] == Delivered :: chunk[k].row)
    ensures RowsIn(entries, end, replies) == RowsIn(entries, i, replies) + sent
  {
    var ts, chunk := ChunkTickets(replies, i), entries[i..end];
    forall k: nat | k < |chunk| && k < |ts| && ts[k] == Delivered ensures chunk[k].row in RowsIn(entries, end, replies) {
      TicketInChunk(replies, i, k);
      assert entries[i + k] == chunk[k];
    }
    forall k | i <= k < end && TicketFor(replies, k) == Some(Delivered) ensures entries[k].row in sent {
      TicketInChunk(replies, i, k - i);
      assert entries[k] == chunk[k - i];
    }
  }

  lemma ChunkTokens(entries: seq<Entry>, replies: nat -> Reply, i: nat, end: nat, gone: set<string>)
    requires i % PUSH_BATCH == 0 && i <= end <= |entries| && end <= i + PUSH_BATCH
    requires var ts, chunk := ChunkTickets(replies, i), entries[i..end];
             gone == (set k | 0 <= k < |chunk| && k < |ts| && ts[k] == DeviceNotRegistered :: chunk[k].token)
    ensures TokensIn(entries, end, replies) == TokensIn(entries, i, replies) + gone
  {
    var ts, chunk := ChunkTickets(replies, i), entries[i..end];
    forall k: nat | k < |chunk| && k < |ts| && ts[k] == DeviceNotRegistered
      ensures chunk[k].token in TokensIn(entries, end, replies)
    {
      TicketInChunk(replies, i, k);
      assert entries[i + k] == chunk[k];
    }
    forall k | i <= k < end && TicketFor(replies, k) == Some(DeviceNotRegistered) ensures entries[k].token in gone {
      TicketInChunk(replies, i, k - i);
      assert entries[k] == chunk[k - i];
    }
  }

  // ---------- A round in terms of one row ----------

  lemma {:induction false} EntryMembers(outbox: seq<Row>, ids: seq<nat>, tokens: seq<Token>, row: nat, token: string)
    requires forall k :: 0 <= k < |ids| ==> ids[k] < |outbox|
    ensures Entry(row, token) in AllEntries(outbox, ids, tokens)
            <==> row in ids && Token(outbox[row].user, token) in tokens
    decreases |ids|
  {
    if ids != [] {
      var n := |ids| - 1;
      EntryMembers(outbox, ids[..n], tokens, row, token);
      assert ids == ids[..n] + [ids[n]];
      TokenMembers(tokens, outbox[ids[n]].user, token);
      var mine := EntriesOf(ids[n], TokensOf(tokens, outbox[ids[n]].user));
      assert Entry(row, token) in mine <==> row == ids[n] && token in TokensOf(tokens, outbox[ids[n]].user) by {
        if row == ids[n] && token in TokensOf(tokens, outbox[ids[n]].user) {
          var k :| 0 <= k < |mine| && TokensOf(tokens, outbox[ids[n]].user)[k] == token;
          assert mine[k] == Entry(row, token);
        }
      }
    }
  }

  lemma {:induction false} TokenMembers(tokens: seq<Token>, user: nat, token: string)
    ensures token in TokensOf(tokens, user) <==> Token(user, token) in tokens
  {
    if tokens != [] {
      var n := |tokens| - 1;
      TokenMembers(tokens[..n], user, token);
      assert tokens == tokens[..n] + [tokens[n]];
    }
  }

  // ---------- What a batch covers ----------

  lemma BatchNext(outbox: seq<Row>, n: nat)
    requires n < |outbox|
    ensures |Batch(outbox, n + 1)| <= |Batch(outbox, n)| + if n in Batch(outbox, n + 1) then 1 else 0
  {
    var ids := Batch(outbox, n + 1);
    if ids != Batch(outbox, n) {
      assert ids[|ids| - 1] == n;
    }
  }

  /** Rows among the first `n` that wait to be sent. */
  function Waiting(outbox: seq<Row>, n: nat): nat
    requires n <= |outbox|
  {
    if n == 0 then 0 else Waiting(outbox, n - 1) + if Claimable(outbox[n - 1]) then 1 else 0
  }

  /** The batch takes every waiting row, or a hundred of them. */
  lemma {:induction false} BatchSize(outbox: seq<Row>, n: nat)
    requires n <= |outbox|
    ensures |Batch(outbox, n)| == Min(PUSH_BATCH, Waiting(outbox, n))
  {
    if n > 0 {
      BatchSize(outbox, n - 1);
    }
  }

  lemma {:induction false} SmallBatchTakesAll(outbox: seq<Row>, n: nat)
    requires n <= |outbox| && Waiting(outbox, n) <= PUSH_BATCH
    ensures forall i :: 0 <= i < n && Claimable(outbox[i]) ==> i in Batch(outbox, n)
  {
    if n > 0 {
      SmallBatchTakesAll(outbox, n - 1);
      BatchSize(outbox, n - 1);
    }
  }

  lemma {:induction false} BatchGrows(outbox: seq<Row>, n: nat, m: nat)
    requires n <= m <= |outbox|
    ensures forall i :: i in Batch(outbox, n) ==> i in Batch(outbox, m)
    decreases m
  {
    if n < m {
      BatchGrows(outbox, n, m - 1);
    }
  }

  /** Only claimed rows are ever answered for. */
  lemma AnsweredWasClaimed(outbox: seq<Row>, ids: seq<nat>, tokens: seq<Token>, replies: nat -> Reply, i: nat)
    requires forall k :: 0 <= k < |ids| ==> ids[k] < |outbox|
    requires i in RowsAnswered(AllEntries(outbox, ids, tokens), replies)
    ensures i in ids
  {
    var entries := AllEntries(outbox, ids, tokens);
    var k :| 0 <= k < |entries| && TicketFor(replies, k) == Some(Delivered) && entries[k].row == i;
    assert Entry(i, entries[k].token) in entries;
    EntryMembers(outbox, ids, tokens, i, entries[k].token);
  }

  /** What the three statements that follow the claim do to one row. */
  lemma RowAfterRound(reset: seq<Row>, ids: seq<nat>, delivered: set<nat>, now: int, i: nat)
    requires i < |reset| && (i in ids ==> Claimable(reset[i])) && (i in delivered ==> i in ids)
    ensures var claimed := Apply(reset, Claim(IdSet(ids)), now);
            var r, r' := reset[i], Apply(Apply(claimed, MarkSent(delivered), now), MarkFailed(IdSet(ids) - delivered), now)[i];
            if i in ids then
              && (r'.status == Sent <==> i in delivered)
              && (i !in delivered ==> r'.attempts == r.attempts + 1)
              && (i !in delivered ==> r'.status == if r.attempts + 1 >= PUSH_MAX_ATTEMPTS then GaveUp else Queued)
            else r.status != Processing ==> r' == r
  {
    assert i in IdSet(ids) <==> i in ids;
  }

  /** Every claimed row ends the round as sent, queued with one attempt more, or given up after the third. */
  lemma RoundSettlesClaimed(outbox: seq<Row>, tokens: seq<Token>, replies: nat -> Reply, now: int, i: nat)
    requires i < |outbox|
    ensures var reset := Apply(outbox, Reset, now);
            var ids := Batch(reset, |reset|);
            var delivered := RowsAnswered(AllEntries(Apply(reset, Claim(IdSet(ids)), now), ids, tokens), replies);
            var r, r' := reset[i], Round(outbox, tokens, replies, now)[i];
            if i in ids then
              && (r'.status == Sent <==> i in delivered)
              && (i !in delivered ==> r'.attempts == r.attempts + 1)
              && (i !in delivered ==> r'.status == if r.attempts + 1 >= PUSH_MAX_ATTEMPTS then GaveUp else Queued)
            else r.status != Processing ==> r' == r
  {
    var reset := Apply(outbox, Reset, now);
    var ids := Batch(reset, |reset|);
    var claimed := Apply(reset, Claim(IdSet(ids)), now);
    var delivered := RowsAnswered(AllEntries(claimed, ids, tokens), replies);
    if i in delivered {
      AnsweredWasClaimed(claimed, ids, tokens, replies, i);
    }
    RowAfterRound(reset, ids, delivered, now, i);
  }

  /** What one cron tick meets: the tokens registered by then, the replies, and the time. */
  datatype World = World(tokens: seq<Token>, replies: nat -> Reply, now: int)

  function Rounds(outbox: seq<Row>, worlds: seq<World>): seq<Row>
    decreases |worlds|
  {
    if worlds == [] then outbox
    else Rounds(Round(outbox, worlds[0].tokens, worlds[0].replies, worlds[0].now), worlds[1..])
  }

  /** Attempts a row has left before it is final. */
  function Left(r: Row): nat {
    if r.status == Queued && r.attempts < PUSH_MAX_ATTEMPTS then PUSH_MAX_ATTEMPTS - r.attempts else 0
  }

  /** Attempts left among the first `n` rows. */
  function AttemptsLeft(outbox: seq<Row>, n: nat): nat
    requires n <= |outbox|
  {
    if n == 0 then 0 else AttemptsLeft(outbox, n - 1) + Left(outbox[n - 1])
  }

  /** Nothing is in flight: every row is final or waits with attempts left. */
  predicate AtRest(outbox: seq<Row>) {
    forall i :: 0 <= i < |outbox| ==> Finished(outbox[i]) || Claimable(outbox[i])
  }

  lemma ResetAtRest(outbox: seq<Row>, now: int)
    requires AtRest(outbox)
    ensures Apply(outbox, Reset, now) == outbox
  {
  }

  /** How a row of the reset table may look after the round. */
  predicate SettledAs(r: Row, r': Row, claimed: bool) {
    if claimed
    then r'.status == Sent
         || (r'.attempts == r.attempts + 1 && r'.status == if r.attempts + 1 >= PUSH_MAX_ATTEMPTS then GaveUp else Queued)
    else r.status != Processing ==> r' == r
  }

  lemma RowSettled(outbox: seq<Row>, w: World, i: nat)
    requires i < |outbox|
    ensures var reset := Apply(outbox, Reset, w.now);
            SettledAs(reset[i], Round(outbox, w.tokens, w.replies, w.now)[i], i in Batch(reset, |reset|))
  {
    RoundSettlesClaimed(outbox, w.tokens, w.replies, w.now, i);
  }

  lemma SettledLeft(r: Row, r': Row, claimed: bool)
    requires SettledAs(r, r', claimed) && (Finished(r) || Claimable(r)) && (claimed ==> Claimable(r))
    ensures (Finished(r') || Claimable(r')) && Left(r') + (if claimed then 1 else 0) <= Left(r)
    ensures !claimed ==> r' == r
  {
  }

  lemma RoundOnRow(outbox: seq<Row>, w: World, i: nat)
    requires AtRest(outbox) && i < |outbox|
    ensures var r, r' := outbox[i], Round(outbox, w.tokens, w.replies, w.now)[i];
            && (Finished(r') || Claimable(r'))
            && Left(r') + (if i in Batch(outbox, |outbox|) then 1 else 0) <= Left(r)
            && (i !in Batch(outbox, |outbox|) ==> r' == r)
  {
    ResetAtRest(outbox, w.now);
    RowSettled(outbox, w, i);
    SettledLeft(outbox[i], Round(outbox, w.tokens, w.replies, w.now)[i], i in Batch(outbox, |outbox|));
  }

  lemma RoundLength(outbox: seq<Row>, w: World)
    ensures |Round(outbox, w.tokens, w.replies, w.now)| == |outbox|
  {
  }

  ghost predicate Spends(outbox: seq<Row>, next: seq<Row>) {
    && |next| == |outbox|
    && forall i :: 0 <= i < |outbox| ==>
         && Left(next[i]) + (if i in Batch(outbox, |outbox|) then 1 else 0) <= Left(outbox[i])
         && (i !in Batch(outbox, |outbox|) ==> next[i] == outbox[i])
  }

  lemma {:induction false} SpendsAdds(outbox: seq<Row>, next: seq<Row>, n: nat)
    requires Spends(outbox, next) && n <= |outbox|
    ensures Waiting(next, n) <= Waiting(outbox, n)
    ensures AttemptsLeft(next, n) + |Batch(outbox, n)| <= AttemptsLeft(outbox, n)
  {
    if n > 0 {
      SpendsAdds(outbox, next, n - 1);
      BatchGrows(outbox, n, |outbox|);
      BatchNext(outbox, n - 1);
      assert Claimable(next[n - 1]) ==> Left(next[n - 1]) > 0;
    }
  }

  lemma RoundSpends(outbox: seq<Row>, w: World)
    requires AtRest(outbox)
    ensures Spends(outbox, Round(outbox, w.tokens, w.replies, w.now))
  {
    RoundLength(outbox, w);
    forall i: nat | i < |outbox|
      ensures var r' := Round(outbox, w.tokens, w.replies, w.now)[i];
              && Left(r') + (if i in Batch(outbox, |outbox|) then 1 else 0) <= Left(outbox[i])
              && (i !in Batch(outbox, |outbox|) ==> r' == outbox[i])
    {
      RoundOnRow(outbox, w, i);
    }
  }

  lemma RoundAtRest(outbox: seq<Row>, w: World)
    requires AtRest(outbox)
    ensures AtRest(Round(outbox, w.tokens, w.replies, w.now))
  {
    RoundLength(outbox, w);
    forall i: nat | i < |outbox| ensures var r := Round(outbox, w.tokens, w.replies, w.now)[i]; Finished(r) || Claimable(r) {
      RoundOnRow(outbox, w, i);
    }
  }

  predicate LeftIn(outbox: seq<Row>, rounds: nat) {
    forall i :: 0 <= i < |outbox| ==> Left(outbox[i]) <= rounds
  }

  /** When one batch takes all that waits, everything is one attempt nearer to its end. */
  lemma FullRound(outbox: seq<Row>, w: World, rounds: nat)
    requires AtRest(outbox) && Waiting(outbox, |outbox|) <= PUSH_BATCH && rounds > 0 && LeftIn(outbox, rounds)
    ensures LeftIn(Round(outbox, w.tokens, w.replies, w.now), rounds - 1)
  {
    RoundLength(outbox, w);
    SmallBatchTakesAll(outbox, |outbox|);
    forall i: nat | i < |outbox| ensures Left(Round(outbox, w.tokens, w.replies, w.now)[i]) <= rounds - 1 {
      RoundOnRow(outbox, w, i);
    }
  }

  /**
   However large the table: while at most a hundred rows wait and no worker dies, as many rounds as the most attempts
   left, so at most three, finish every row, whatever the push service answers.
   */
  lemma {:induction false} ThreeRoundsFinish(outbox: seq<Row>, worlds: seq<World>)
    requires AtRest(outbox) && Waiting(outbox, |outbox|) <= PUSH_BATCH && LeftIn(outbox, |worlds|)
    ensures var after := Rounds(outbox, worlds);
            |after| == |outbox| && forall i :: 0 <= i < |after| ==> Finished(after[i])
    decreases |worlds|
  {
    if worlds != [] {
      var w := worlds[0];
      FullRound(outbox, w, |worlds|);
      RoundAtRest(outbox, w);
      RoundSpends(outbox, w);
      SpendsAdds(outbox, Round(outbox, w.tokens, w.replies, w.now), |outbox|);
      ThreeRoundsFinish(Round(outbox, w.tokens, w.replies, w.now), worlds[1..]);
    }
  }

  /**
   A backlog of any size drains: with W attempts left in the whole table, W/100 + 3 rounds finish every row. A round
   either uses up a hundred attempts or takes everything that waits.
   */
  lemma {:induction false} BacklogDrains(outbox: seq<Row>, worlds: seq<World>)
    requires AtRest(outbox) && |worlds| >= AttemptsLeft(outbox, |outbox|) / PUSH_BATCH + PUSH_MAX_ATTEMPTS
    ensures var after := Rounds(outbox, worlds);
            |after| == |outbox| && forall i :: 0 <= i < |after| ==> Finished(after[i])
    decreases |worlds|
  {
    if Waiting(outbox, |outbox|) <= PUSH_BATCH {
      ThreeRoundsFinish(outbox, worlds);
    } else {
      var w := worlds[0];
      RoundSpends(outbox, w);
      SpendsAdds(outbox, Round(outbox, w.tokens, w.replies, w.now), |outbox|);
      BatchSize(outbox, |outbox|);
      RoundAtRest(outbox, w);
      BacklogDrains(Round(outbox, w.tokens, w.replies, w.now), worlds[1..]);
    }
  }
}
