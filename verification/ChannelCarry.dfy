/** Carry-forward of posted text: what was posted into a conversation leads the next delivered user turn, by count. */
module ChannelCarry {
  import opened Common
  import opened Utf8Split

  const MAX_POSTS: nat := 64
  const MAX_BYTES: nat := 65536

  /** One conversation's row. composed is the count the last attempt left, if any; carried is what the attempt in flight
      was given. recorded and delivered are the whole story so far: every post taken on, and every post carried by a
      confirmed delivery. */
  datatype Row = Row(
    pending: seq<Bytes>, composed: Option<nat>, carried: Option<seq<Bytes>>, recorded: seq<Bytes>, delivered: seq<Bytes>)

  const EMPTY: Row := Row([], None, None, [], [])

  /** Conversations the registry knows. */
  type Rows = map<string, Row>

  datatype Step =
    | Record(conv: string, text: Bytes)
    | Attempt(conv: string)              // the drain composes and starts writing; one at a time per conversation
    | Fail(conv: string)                 // the write failed or the head was abandoned
    | Confirm(conv: string)
    | ConfirmSentNow(conv: string)       // a send-now delivery, written around the drain
    | Create(conv: string)

  function Total(posts: seq<Bytes>): nat {
    if posts == [] then 0 else Total(posts[..|posts| - 1]) + |posts[|posts| - 1]|
  }

  /** The registry refuses the newest post when either bound would be passed. */
  predicate Fits(pending: seq<Bytes>, text: Bytes) {
    |pending| < MAX_POSTS && Total(pending) + |text| <= MAX_BYTES
  }

  /** Drops the leading n posts. */
  function DropLeading(pending: seq<Bytes>, n: nat): seq<Bytes> {
    if n >= |pending| then [] else pending[n..]
  }

  function Move(row: Row, step: Step): Row {
    match step
    case Record(_, text) =>
      if Fits(row.pending, text) then row.(pending := row.pending + [text], recorded := row.recorded + [text]) else row
    case Attempt(_) =>
      if row.carried.Some? then row else row.(composed := Some(|row.pending|), carried := Some(row.pending))
    case Fail(_) => row.(carried := None)
    case Confirm(_) =>
      if row.carried.None? then row
      else
        var n := if row.composed.Some? then row.composed.value else 0;
        row.(pending := DropLeading(row.pending, n), composed := None, carried := None,
             delivered := row.delivered + row.carried.value)
    case ConfirmSentNow(_) => row
    case Create(_) => row
  }

  function Apply(rows: Rows, step: Step): Rows {
    if step.conv in rows then rows[step.conv := Move(rows[step.conv], step)]
    else if step.Create? then rows[step.conv := EMPTY]
    else rows
  }

  function Run(steps: seq<Step>): Rows {
    if steps == [] then map[] else Apply(Run(steps[..|steps| - 1]), steps[|steps| - 1])
  }

  /** What was delivered followed by what is pending is what was recorded; an attempt in flight carries the head of the
      pending posts, and the count is theirs. */
  predicate RowOk(row: Row) {
    && row.delivered + row.pending == row.recorded
    && (row.carried.Some? ==> row.carried.value <= row.pending && row.composed == Some(|row.carried.value|))
    && |row.pending| <= MAX_POSTS && Total(row.pending) <= MAX_BYTES
  }

  lemma {:induction false} TotalSplit(a: seq<Bytes>, b: seq<Bytes>)
    ensures Total(a + b) == Total(a) + Total(b)
  {
    if b == [] {
      assert a + b == a;
    } else {
      TotalSplit(a, b[..|b| - 1]);
      assert (a + b)[..|a + b| - 1] == a + b[..|b| - 1];
    }
  }

  lemma MoveKeeps(row: Row, step: Step)
    requires RowOk(row)
    ensures RowOk(Move(row, step))
  {
    match step {
      case Record(_, text) =>
        TotalSplit(row.pending, [text]);
        assert Total([text]) == |text| by { assert [text][..0] == []; }
        assert row.delivered + (row.pending + [text]) == row.recorded + [text];
      case Confirm(_) =>
        if row.carried.Some? {
          ConfirmKeeps(row, |row.carried.value|);
        }
      case _ =>
    }
  }

  lemma ConfirmKeeps(row: Row, n: nat)
    requires RowOk(row) && n <= |row.pending|
    ensures (row.delivered + row.pending[..n]) + row.pending[n..] == row.recorded
    ensures DropLeading(row.pending, n) == row.pending[n..] && Total(row.pending[n..]) <= MAX_BYTES
  {
    assert row.pending == row.pending[..n] + row.pending[n..];
    TotalSplit(row.pending[..n], row.pending[n..]);
    assert row.delivered + (row.pending[..n] + row.pending[n..]) == (row.delivered + row.pending[..n]) + row.pending[n..];
  }

  /** For every interleaving of new posts, failed attempts, abandoned heads and send-now deliveries: the posts carried by
      confirmed deliveries, in order, followed by those still pending are exactly the posts recorded. */
  lemma {:induction false} CarriedOnceInOrder(steps: seq<Step>, conv: string)
    requires conv in Run(steps)
    ensures Run(steps)[conv].delivered + Run(steps)[conv].pending == Run(steps)[conv].recorded
    ensures RowOk(Run(steps)[conv])
  {
    var n := |steps| - 1;
    assert steps != [];
    if conv in Run(steps[..n]) {
      CarriedOnceInOrder(steps[..n], conv);
      MoveKeeps(Run(steps[..n])[conv], steps[n]);
    }
  }

  /** A post taken on is delivered by the next confirmed attempt composed after it. */
  lemma NextConfirmedAttemptCarriesAll(row: Row, conv: string)
    requires RowOk(row) && row.carried.None?
    ensures var row' := Move(Move(row, Attempt(conv)), Confirm(conv)); row'.pending == [] && row'.delivered == row.recorded
  {
  }

  /** A failed attempt takes nothing away: the posts are carried again, with any that arrived meanwhile. */
  lemma FailedAttemptLosesNothing(row: Row, conv: string, text: Bytes)
    requires RowOk(row) && row.carried.None? && Fits(row.pending, text)
    ensures var again := Move(Move(Move(Move(row, Attempt(conv)), Record(conv, text)), Fail(conv)), Attempt(conv));
      again.carried == Some(row.pending + [text]) && again.delivered == row.delivered
  {
  }

  /** A post that arrives while an attempt is in flight outlives its confirmation. */
  lemma LatePostStays(row: Row, conv: string, text: Bytes)
    requires RowOk(row) && row.carried.None? && Fits(row.pending, text)
    ensures var row' := Move(Move(Move(row, Attempt(conv)), Record(conv, text)), Confirm(conv));
      row'.pending == [text] && row'.delivered == row.recorded
  {
    var mid := Move(Move(row, Attempt(conv)), Record(conv, text));
    MoveKeeps(row, Attempt(conv));
    assert mid.pending[|row.pending|..] == [text];
  }

  lemma {:induction false} TotalIsLength(posts: seq<Bytes>)
    ensures Total(posts) == |Join(posts)|
  {
    if posts == [] {
      assert Join(posts) == [];
    } else {
      var front, last := posts[..|posts| - 1], posts[|posts| - 1];
      TotalIsLength(front);
      JoinAppend(front, last);
      assert posts == front + [last];
    }
  }

  /** A post is taken on exactly when fewer than 64 wait and the bytes of all of them together stay within 65536; it then
      waits last. What an attempt in flight carries, and what was delivered, stays. */
  lemma TakenIff(row: Row, conv: string, text: Bytes)
    ensures var row', taken := Move(row, Record(conv, text)), |row.pending| < 64 && |Join(row.pending)| + |text| <= 65536;
      && row'.pending == (if taken then row.pending + [text] else row.pending)
      && row'.recorded == (if taken then row.recorded + [text] else row.recorded)
      && row'.carried == row.carried && row'.delivered == row.delivered
  {
    TotalIsLength(row.pending);
  }

  /** An attempt carries everything that waits; a send-now delivery and an attempt behind one in flight change nothing. */
  lemma AttemptCarries(row: Row, conv: string)
    ensures row.carried.None? ==> Move(row, Attempt(conv)).carried == Some(row.pending)
    ensures row.carried.Some? ==> Move(row, Attempt(conv)) == row
    ensures Move(row, Attempt(conv)).pending == row.pending && Move(row, ConfirmSentNow(conv)) == row
  {
  }

  /** Over every run a row exists exactly for the conversations created, and a step touches no other conversation's. */
  lemma {:induction false} RowsIff(steps: seq<Step>, conv: string)
    ensures conv in Run(steps) <==> exists k :: 0 <= k < |steps| && steps[k] == Create(conv)
    ensures steps != [] && steps[|steps| - 1].conv != conv ==>
      (conv in Run(steps) <==> conv in Run(steps[..|steps| - 1]))
      && (conv in Run(steps) ==> Run(steps)[conv] == Run(steps[..|steps| - 1])[conv])
  {
    if steps != [] {
      var n := |steps| - 1;
      RowsIff(steps[..n], conv);
      if k :| 0 <= k < n && steps[..n][k] == Create(conv) {
        assert steps[k] == Create(conv);
      }
      if k :| 0 <= k < |steps| && steps[k] == Create(conv) {
        assert k < n ==> steps[..n][k] == Create(conv);
      }
    }
  }

  // ---------------------------------------------------------------- composing the prompt

  function Quoted(posts: seq<Bytes>): Bytes {
    if posts == [] then [] else Quoted(posts[..|posts| - 1]) + [10, 10] + posts[|posts| - 1]
  }

  function Compose(header: Bytes, posts: seq<Bytes>, payload: Bytes): Bytes {
    if posts == [] then payload else header + Quoted(posts) + (if payload == [] then [] else [10, 10] + payload)
  }

  /** composeChannelCarry: nothing pending leaves the payload as it is; otherwise the header leads and the payload comes
      last, verbatim. */
  method ComposeCarry(header: Bytes, posts: seq<Bytes>, payload: Bytes) returns (prompt: Bytes)
    ensures prompt == Compose(header, posts, payload)
    ensures posts == [] ==> prompt == payload
    ensures posts != [] ==> header <= prompt
    ensures |payload| <= |prompt| && prompt[|prompt| - |payload|..] == payload
    ensures posts != [] ==> |prompt| == |header| + Total(posts) + 2 * |posts| + (if payload == [] then 0 else 2 + |payload|)
  {
    if posts == [] {
      return payload;
    }
    prompt := header;
    for i := 0 to |posts|
      invariant prompt == header + Quoted(posts[..i])
    {
      assert posts[..i + 1][..i] == posts[..i];
      prompt := prompt + [10, 10] + posts[i];
    }
    assert posts[..|posts|] == posts;
    QuotedLength(posts);
    if payload != [] {
      prompt := prompt + [10, 10] + payload;
    }
  }

  lemma {:induction false} QuotedLength(posts: seq<Bytes>)
    ensures |Quoted(posts)| == Total(posts) + 2 * |posts|
  {
    if posts != [] {
      QuotedLength(posts[..|posts| - 1]);
    }
  }

  /** Every post is in the prompt, after those before it: the prompt of more posts extends the quoted block. */
  lemma {:induction false} QuotedInOrder(posts: seq<Bytes>, i: nat)
    requires i < |posts|
    ensures Quoted(posts[..i]) + [10, 10] + posts[i] <= Quoted(posts)
  {
    var n := |posts| - 1;
    if i < n {
      QuotedInOrder(posts[..n], i);
      assert posts[..n][..i] == posts[..i];
    }
  }

  // ---------------------------------------------------------------- the carry object

  /** One conversation's carry state with the registry row behind it. */
  class Carry {
    var pending: seq<Bytes>
    var composed: Option<nat>
    ghost var carried: Option<seq<Bytes>>
    ghost var recorded: seq<Bytes>
    ghost var delivered: seq<Bytes>

    ghost function View(): Row
      reads this
    {
      Row(pending, composed, carried, recorded, delivered)
    }

    ghost predicate Valid()
      reads this
    {
      RowOk(View())
    }

    constructor ()
      ensures Valid() && View() == EMPTY
    {
      pending, composed, carried, recorded, delivered := [], None, None, [], [];
    }

    /** record, with the registry's own scan for the byte bound. */
    method RecordPost(conv: string, text: Bytes) returns (ok: bool)
      requires Valid()
      modifies this
      ensures View() == Move(old(View()), Record(conv, text)) && Valid()
      ensures ok == Fits(old(pending), text)
    {
      MoveKeeps(View(), Record(conv, text));
      if |pending| >= MAX_POSTS {
        return false;
      }
      var total := |text|;
      for i := 0 to |pending|
        invariant total == |text| + Total(pending[..i])
      {
        assert pending[..i + 1][..i] == pending[..i];
        total := total + |pending[i]|;
      }
      assert pending[..|pending|] == pending;
      if total > MAX_BYTES {
        return false;
      }
      pending := pending + [text];
      recorded := recorded + [text];
      ok := true;
    }

    /** carryPending: the count is recorded before the delivery is tried. */
    method Begin(conv: string, header: Bytes, payload: Bytes) returns (prompt: Bytes)
      requires Valid() && carried.None?
      modifies this`composed, this`carried
      ensures View() == Move(old(View()), Attempt(conv)) && Valid()
      ensures prompt == Compose(header, pending, payload)
    {
      MoveKeeps(View(), Attempt(conv));
      composed := Some(|pending|);
      carried := Some(pending);
      prompt := ComposeCarry(header, pending, payload);
    }

    method Failed(conv: string)
      requires Valid()
      modifies this`carried
      ensures View() == Move(old(View()), Fail(conv)) && Valid()
    {
      carried := None;
    }

    /** clearDelivered: take the count and drop exactly that many from the head; a send-now delivery clears nothing. */
    method ClearDelivered(conv: string, sentNow: bool)
      requires Valid() && (!sentNow ==> carried.Some?)
      modifies this
      ensures View() == Move(old(View()), if sentNow then ConfirmSentNow(conv) else Confirm(conv)) && Valid()
    {
      MoveKeeps(View(), Confirm(conv));
      if sentNow {
        return;
      }
      var n := if composed.Some? then composed.value else 0;
      composed := None;
      delivered := delivered + carried.value;
      carried := None;
      if n > 0 {
        pending := if n >= |pending| then [] else pending[n..];
      }
    }
  }
}
