/** The hand-over note of a conversation switch: the recent exchanges found by walking history backwards in pages, and
    the bounded note composed from a summary, those exchanges and a pointer to the log. */
module Handover {
  import opened Utf8Split

  const LIMIT: nat := 16384

  datatype Role = User | Assistant

  function RoleName(role: Role): Bytes {
    match role
    case User => [85, 115, 101, 114]
    case Assistant => [65, 115, 115, 105, 115, 116, 97, 110, 116]
  }

  datatype Item = Item(role: Role, text: Bytes)

  /** One history entry as the walk reads it. Assistant text of the main line is never empty here. */
  datatype Entry = TurnEnd | Said(item: Item) | Other

  // ---------------------------------------------------------------- rendering, in the order things were said

  datatype Previous = None | Some(role: Role)

  /** An assistant piece straight after another continues it. */
  predicate Continues(previous: Previous, role: Role) {
    role == Assistant && previous == Some(Assistant)
  }

  function Title(role: Role): Bytes {
    RoleName(role) + [58, 10]
  }

  function Heading(previous: Previous, role: Role): Bytes {
    if Continues(previous, role) then [] else if previous == None then Title(role) else [10] + Title(role)
  }

  function Render(items: seq<Item>, previous: Previous): Bytes {
    if items == [] then []
    else Heading(previous, items[0].role) + items[0].text + Render(items[1..], Some(items[0].role))
  }

  /** The rendered exchange ends with a line feed. */
  function Exchange(items: seq<Item>): Bytes {
    Render(items, None) + [10]
  }

  function Items(newestFirst: seq<Entry>): seq<Item> {
    if newestFirst == [] then []
    else
      var n := |newestFirst| - 1;
      (if newestFirst[n].Said? then [newestFirst[n].item] else []) + Items(newestFirst[..n])
  }

  predicate Has(segment: seq<Entry>, role: Role) {
    exists i :: 0 <= i < |segment| && segment[i].Said? && segment[i].item.role == role
  }

  /** What one completed turn contributes: nothing without both sides, a placeholder that can never fit when it is
      larger than a whole note, and otherwise its rendering. */
  function Contribution(segment: seq<Entry>): seq<Bytes> {
    if !Has(segment, User) || !Has(segment, Assistant) then []
    else if |Exchange(Items(segment))| > LIMIT then [Oversized()]
    else [Exchange(Items(segment))]
  }

  function Oversized(): Bytes {
    seq(LIMIT + 1, _ => 120)
  }

  /** The stretches of a newest-first history that lie behind a turn end, each up to the next one. */
  function Segments(current: seq<Entry>, rest: seq<Entry>): seq<seq<Entry>>
    decreases |rest|
  {
    if rest == [] then [current]
    else if rest[0].TurnEnd? then [current] + Segments([], rest[1..])
    else Segments(current + [rest[0]], rest[1..])
  }

  function AfterEnd(history: seq<Entry>): seq<seq<Entry>> {
    if history == [] then [] else if history[0].TurnEnd? then Segments([], history[1..]) else AfterEnd(history[1..])
  }

  function Contributions(segments: seq<seq<Entry>>): seq<Bytes> {
    if segments == [] then [] else Contribution(segments[0]) + Contributions(segments[1..])
  }

  function Reversed(s: seq<Bytes>): seq<Bytes> {
    if s == [] then [] else Reversed(s[1..]) + [s[0]]
  }

  function FirstThree(s: seq<Bytes>): seq<Bytes> {
    if |s| <= 3 then s else s[..3]
  }

  /** The three most recent exchanges of a whole newest-first history, oldest first. */
  function RecentExchanges(history: seq<Entry>): seq<Bytes> {
    Reversed(FirstThree(Contributions(AfterEnd(history))))
  }

  // ---------------------------------------------------------------- the walk's running state

  /** rows is newest first, with assistant pieces merged; it is given up once the count passes the limit. */
  datatype Acc = Acc(rows: seq<Item>, bytes: nat, hasUser: bool, hasAssistant: bool)

  const START: Acc := Acc([], 0, false, false)

  predicate Merges(rows: seq<Item>, item: Item) {
    item.role == Assistant && rows != [] && rows[|rows| - 1].role == Assistant
  }

  function Add(acc: Acc, e: Entry): Acc {
    if !e.Said? then acc
    else
      var item := e.item;
      var merge := Merges(acc.rows, item);
      var bytes := acc.bytes + |item.text| + (if merge then 0 else |RoleName(item.role)| + 3);
      var rows :=
        if bytes > LIMIT then []
        else if merge then acc.rows[|acc.rows| - 1 := Item(Assistant, item.text + acc.rows[|acc.rows| - 1].text)]
        else acc.rows + [item];
      Acc(rows, bytes, acc.hasUser || item.role == User, acc.hasAssistant || item.role == Assistant)
  }

  function Gather(segment: seq<Entry>): Acc {
    if segment == [] then START else Add(Gather(segment[..|segment| - 1]), segment[|segment| - 1])
  }

  function Backwards(rows: seq<Item>): seq<Item> {
    if rows == [] then [] else [rows[|rows| - 1]] + Backwards(rows[..|rows| - 1])
  }

  /** The rendered size of a non-empty list, line feed included. */
  function Size(items: seq<Item>): nat {
    if items == [] then 0 else |Render(items, None)| + 1
  }

  // ---------------------------------------------------------------- the count is the rendered size

  lemma Assoc(a: Bytes, b: Bytes, c: Bytes)
    ensures (a + b) + c == a + (b + c)
  {
  }

  /** What a later start changes: a continued assistant piece loses its heading, anything else gains a line feed. */
  lemma RenderAfter(items: seq<Item>, role: Role)
    requires items != []
    ensures if Continues(Some(role), items[0].role)
            then Render(items, None) == Title(Assistant) + Render(items, Some(role))
            else Render(items, Some(role)) == [10] + Render(items, None)
  {
    var rest, text, title := Render(items[1..], Some(items[0].role)), items[0].text, Title(items[0].role);
    if Continues(Some(role), items[0].role) {
      Assoc(title, text, rest);
      assert [] + text == text;
    } else {
      Assoc([10], title, text);
      Assoc([10], title + text, rest);
    }
  }

  /** Putting an earlier item in front adds its text and, unless it is continued, its heading and one line feed. */
  lemma SizeFront(item: Item, items: seq<Item>)
    ensures Size([item] + items) == Size(items) + |item.text|
      + (if item.role == Assistant && items != [] && items[0].role == Assistant then 0 else |RoleName(item.role)| + 3)
  {
    var all := [item] + items;
    assert all[1..] == items && all[0] == item;
    assert Render(all, None) == Heading(None, item.role) + item.text + Render(items, Some(item.role));
    if items != [] {
      RenderAfter(items, item.role);
    }
  }

  /** Merging an assistant piece into the one that follows it renders the same. */
  lemma MergeRenders(text: Bytes, items: seq<Item>, previous: Previous)
    requires items != [] && items[0].role == Assistant
    ensures Render([Item(Assistant, text + items[0].text)] + items[1..], previous) == Render([Item(Assistant, text)] + items, previous)
  {
    var merged, parts := [Item(Assistant, text + items[0].text)] + items[1..], [Item(Assistant, text)] + items;
    assert merged[1..] == items[1..] && parts[1..] == items;
    var rest, heading := Render(items[1..], Some(Assistant)), Heading(previous, Assistant);
    assert [] + items[0].text == items[0].text;
    assert Render(items, Some(Assistant)) == items[0].text + rest;
    Assoc(heading + text, items[0].text, rest);
    Assoc(heading, text, items[0].text);
  }

  lemma FrontRenders(item: Item, a: seq<Item>, b: seq<Item>, previous: Previous)
    requires forall p :: Render(a, p) == Render(b, p)
    ensures Render([item] + a, previous) == Render([item] + b, previous)
  {
    assert ([item] + a)[1..] == a && ([item] + b)[1..] == b;
  }

  /** The rows and the count stand for the items: either the exact size with rows that render the same, or a size beyond
      the limit. */
  ghost predicate RowsStand(rows: seq<Item>, bytes: nat, items: seq<Item>) {
    if bytes > LIMIT then rows == [] && Size(items) > LIMIT
    else
      && bytes == Size(items) && (forall p :: Render(Backwards(rows), p) == Render(items, p))
      && (rows == [] <==> items == []) && (rows != [] ==> items[0].role == rows[|rows| - 1].role)
  }

  ghost predicate Stands(acc: Acc, segment: seq<Entry>) {
    && (acc.hasUser <==> Has(segment, User)) && (acc.hasAssistant <==> Has(segment, Assistant))
    && RowsStand(acc.rows, acc.bytes, Items(segment))
  }

  lemma ItemsNext(segment: seq<Entry>, e: Entry)
    ensures Items(segment + [e]) == (if e.Said? then [e.item] else []) + Items(segment)
    ensures forall role :: Has(segment + [e], role) <==> Has(segment, role) || (e.Said? && e.item.role == role)
  {
    var more := segment + [e];
    assert more[..|segment|] == segment;
    forall role ensures Has(more, role) <==> Has(segment, role) || (e.Said? && e.item.role == role) {
      if Has(segment, role) {
        var i :| 0 <= i < |segment| && segment[i].Said? && segment[i].item.role == role;
        assert more[i].Said?;
      }
      if e.Said? && e.item.role == role {
        assert more[|segment|].Said?;
      }
    }
  }

  lemma BackwardsNext(rows: seq<Item>, item: Item)
    ensures Backwards(rows + [item]) == [item] + Backwards(rows)
  {
    assert (rows + [item])[..|rows|] == rows;
  }

  lemma BackwardsMerged(rows: seq<Item>, item: Item)
    requires rows != []
    ensures Backwards(rows[|rows| - 1 := item]) == [item] + Backwards(rows)[1..]
    ensures Backwards(rows) != [] && Backwards(rows)[0] == rows[|rows| - 1]
  {
    var n := |rows| - 1;
    assert rows[n := item] == rows[..n] + [item];
    BackwardsNext(rows[..n], item);
    assert Backwards(rows)[1..] == Backwards(rows[..n]);
  }

  lemma AddRows(rows: seq<Item>, item: Item, items: seq<Item>, p: Previous)
    requires forall q :: Render(Backwards(rows), q) == Render(items, q)
    ensures Merges(rows, item) ==>
      Render(Backwards(rows[|rows| - 1 := Item(Assistant, item.text + rows[|rows| - 1].text)]), p) == Render([item] + items, p)
    ensures Render(Backwards(rows + [item]), p) == Render([item] + items, p)
  {
    BackwardsNext(rows, item);
    FrontRenders(item, Backwards(rows), items, p);
    if Merges(rows, item) {
      BackwardsMerged(rows, Item(Assistant, item.text + rows[|rows| - 1].text));
      MergeRenders(item.text, Backwards(rows), p);
    }
  }

  lemma AddSize(acc: Acc, item: Item, items: seq<Item>)
    requires RowsStand(acc.rows, acc.bytes, items)
    ensures var bytes := Add(acc, Said(item)).bytes;
      if bytes > LIMIT then Size([item] + items) > LIMIT else acc.bytes <= LIMIT && bytes == Size([item] + items)
  {
    SizeFront(item, items);
  }

  lemma AddItem(acc: Acc, item: Item, items: seq<Item>)
    requires RowsStand(acc.rows, acc.bytes, items)
    ensures RowsStand(Add(acc, Said(item)).rows, Add(acc, Said(item)).bytes, [item] + items)
  {
    AddSize(acc, item, items);
    var acc' := Add(acc, Said(item));
    if acc'.bytes <= LIMIT {
      forall p ensures Render(Backwards(acc'.rows), p) == Render([item] + items, p) {
        AddRows(acc.rows, item, items, p);
      }
    }
  }

  lemma AddStands(acc: Acc, segment: seq<Entry>, e: Entry)
    requires Stands(acc, segment)
    ensures Stands(Add(acc, e), segment + [e])
  {
    ItemsNext(segment, e);
    if e.Said? {
      AddItem(acc, e.item, Items(segment));
    } else {
      assert [] + Items(segment) == Items(segment);
    }
  }

  /** For every turn the running byte count equals the length of the rendered exchange whenever that is within the
      limit, and passes the limit exactly when the rendering does. */
  lemma {:induction false} CountIsRenderedSize(segment: seq<Entry>)
    ensures Stands(Gather(segment), segment)
    ensures Gather(segment).bytes <= LIMIT <==> Size(Items(segment)) <= LIMIT
    ensures Gather(segment).bytes <= LIMIT ==> Gather(segment).bytes == Size(Items(segment))
  {
    if segment != [] {
      var n := |segment| - 1;
      CountIsRenderedSize(segment[..n]);
      AddStands(Gather(segment[..n]), segment[..n], segment[n]);
      assert segment == segment[..n] + [segment[n]];
    }
  }

  // ---------------------------------------------------------------- the walk

  /** The closing builder loop: rows rendered oldest first. */
  method RenderRows(rows: seq<Item>) returns (text: Bytes)
    ensures text == Exchange(Backwards(rows))
  {
    text := [];
    var previous := None;
    var i := |rows|;
    assert rows[..i] == rows;
    while i > 0
      invariant 0 <= i <= |rows|
      invariant text + Render(Backwards(rows[..i]), previous) == Render(Backwards(rows), None)
    {
      var item := rows[i - 1];
      RenderStep(rows, i, previous, text);
      text := text + Heading(previous, item.role) + item.text;
      previous := Some(item.role);
      i := i - 1;
    }
    text := text + [10];
  }

  lemma RenderStep(rows: seq<Item>, i: nat, previous: Previous, text: Bytes)
    requires 0 < i <= |rows|
    ensures text + Render(Backwards(rows[..i]), previous)
            == text + Heading(previous, rows[i - 1].role) + rows[i - 1].text + Render(Backwards(rows[..i - 1]), Some(rows[i - 1].role))
  {
    var item := rows[i - 1];
    assert rows[..i] == rows[..i - 1] + [item];
    BackwardsNext(rows[..i - 1], item);
    var rest := Backwards(rows[..i - 1]);
    assert ([item] + rest)[1..] == rest;
    Assoc(text, Heading(previous, item.role) + item.text, Render(rest, Some(item.role)));
    Assoc(text, Heading(previous, item.role), item.text);
  }

  /** finish: what the turn contributes. */
  method FinishTurn(acc: Acc, ghost segment: seq<Entry>) returns (out: seq<Bytes>)
    requires Stands(acc, segment)
    ensures out == Contribution(segment)
  {
    ghost var items := Items(segment);
    if !acc.hasUser || !acc.hasAssistant {
      return [];
    }
    HasItems(segment, User);
    if acc.bytes > LIMIT {
      return [Oversized()];
    }
    var text := RenderRows(acc.rows);
    assert Render(Backwards(acc.rows), None) == Render(items, None);
    out := [text];
  }

  lemma {:induction false} HasItems(segment: seq<Entry>, role: Role)
    requires Has(segment, role)
    ensures Items(segment) != []
  {
    var n := |segment| - 1;
    if !segment[n].Said? {
      var i :| 0 <= i < |segment| && segment[i].Said? && segment[i].item.role == role;
      assert segment[..n][i].Said?;
      HasItems(segment[..n], role);
    }
  }

  /** What remains to be returned, newest first, given what was found and what is left to read. */
  function Found(exchanges: seq<Bytes>, segment: seq<Entry>, rest: seq<Entry>): seq<Bytes> {
    FirstThree(exchanges + Contributions(Segments(segment, rest)))
  }

  lemma ContributionsNext(segment: seq<Entry>, more: seq<seq<Entry>>)
    ensures Contributions([segment] + more) == Contribution(segment) + Contributions(more)
  {
    assert ([segment] + more)[1..] == more;
  }

  lemma SegmentsEnd(segment: seq<Entry>, rest: seq<Entry>)
    ensures Segments(segment, [TurnEnd] + rest) == [segment] + Segments([], rest)
  {
    assert ([TurnEnd] + rest)[1..] == rest;
  }

  lemma FoundEnd(exchanges: seq<Bytes>, segment: seq<Entry>, rest: seq<Entry>)
    ensures Found(exchanges, segment, [TurnEnd] + rest) == Found(exchanges + Contribution(segment), [], rest)
  {
    var more := Segments([], rest);
    SegmentsEnd(segment, rest);
    ContributionsNext(segment, more);
    assert exchanges + (Contribution(segment) + Contributions(more)) == exchanges + Contribution(segment) + Contributions(more);
  }

  lemma FoundLast(exchanges: seq<Bytes>, segment: seq<Entry>)
    ensures Found(exchanges, segment, []) == FirstThree(exchanges + Contribution(segment))
  {
    ContributionsNext(segment, []);
    assert [segment] + [] == [segment] && Contribution(segment) + [] == Contribution(segment);
  }

  lemma FoundNext(exchanges: seq<Bytes>, segment: seq<Entry>, e: Entry, rest: seq<Entry>)
    requires !e.TurnEnd?
    ensures Found(exchanges, segment, [e] + rest) == Found(exchanges, segment + [e], rest)
  {
    assert ([e] + rest)[1..] == rest;
  }

  lemma FoundEnough(exchanges: seq<Bytes>, segment: seq<Entry>, rest: seq<Entry>)
    requires |exchanges| == 3
    ensures Found(exchanges, segment, rest) == exchanges
  {
    assert (exchanges + Contributions(Segments(segment, rest)))[..3] == exchanges;
  }

  function Flatten(pages: seq<seq<Entry>>): seq<Entry> {
    if pages == [] then [] else pages[0] + Flatten(pages[1..])
  }

  /** Where the walk is: before the first turn end, or inside a turn behind one. */
  datatype Walk = Walk(ended: bool, acc: Acc, exchanges: seq<Bytes>, stopped: bool)

  /** The walk, with rest still to be read, is bound for the given answer. */
  ghost predicate Bound(w: Walk, segment: seq<Entry>, rest: seq<Entry>, answer: seq<Bytes>) {
    if w.stopped then w.exchanges == answer && |w.exchanges| == 3
    else if w.ended then |w.exchanges| < 3 && Stands(w.acc, segment) && Found(w.exchanges, segment, rest) == answer
    else w.exchanges == [] && FirstThree(Contributions(AfterEnd(rest))) == answer
  }

  method ReadEntry(w: Walk, e: Entry, ghost segment: seq<Entry>, ghost rest: seq<Entry>, ghost answer: seq<Bytes>)
    returns (w': Walk, ghost segment': seq<Entry>)
    requires !w.stopped && Bound(w, segment, [e] + rest, answer)
    ensures Bound(w', segment', rest, answer)
  {
    segment' := segment;
    assert ([e] + rest)[1..] == rest && ([e] + rest)[0] == e;
    if e.TurnEnd? {
      var exchanges := w.exchanges;
      if w.ended {
        var out := FinishTurn(w.acc, segment);
        FoundEnd(exchanges, segment, rest);
        exchanges := exchanges + out;
      }
      segment' := [];
      if |exchanges| == 3 {
        FoundEnough(exchanges, [], rest);
        w' := Walk(true, START, exchanges, true);
      } else {
        assert w.ended || [] + Contributions(Segments([], rest)) == Contributions(Segments([], rest));
        w' := Walk(true, START, exchanges, false);
      }
    } else if w.ended {
      FoundNext(w.exchanges, segment, e, rest);
      AddStands(w.acc, segment, e);
      segment' := segment + [e];
      w' := w.(acc := Add(w.acc, e));
    } else {
      w' := w;
    }
  }

  lemma RestNext(page: seq<Entry>, older: seq<Entry>, i: nat)
    requires i < |page|
    ensures page[i..] + older == [page[i]] + (page[i + 1..] + older)
  {
    assert page[i..] == [page[i]] + page[i + 1..];
  }

  method ReadPage(w: Walk, page: seq<Entry>, ghost segment: seq<Entry>, ghost older: seq<Entry>, ghost answer: seq<Bytes>)
    returns (w': Walk, ghost segment': seq<Entry>)
    requires !w.stopped && Bound(w, segment, page + older, answer)
    ensures Bound(w', segment', older, answer)
  {
    w', segment' := w, segment;
    assert page[0..] == page;
    for i := 0 to |page|
      invariant !w'.stopped && Bound(w', segment', page[i..] + older, answer)
    {
      ghost var rest := page[i + 1..] + older;
      RestNext(page, older, i);
      w', segment' := ReadEntry(w', page[i], segment', rest, answer);
      if w'.stopped {
        return;
      }
    }
    assert page[|page|..] + older == older;
  }

  /** switchRecentExchanges over any way of cutting the history into pages. */
  method SwitchRecentExchanges(pages: seq<seq<Entry>>) returns (exchanges: seq<Bytes>)
    ensures exchanges == RecentExchanges(Flatten(pages)) && |exchanges| <= 3
  {
    ghost var answer, segment := FirstThree(Contributions(AfterEnd(Flatten(pages)))), [];
    ReversedLength(answer);
    var w := Walk(false, START, [], false);
    assert pages[0..] == pages;
    for p := 0 to |pages|
      invariant !w.stopped && Bound(w, segment, Flatten(pages[p..]), answer)
    {
      FlattenNext(pages, p);
      w, segment := ReadPage(w, pages[p], segment, Flatten(pages[p + 1..]), answer);
      if w.stopped {
        exchanges := Reverse(w.exchanges);
        return;
      }
    }
    assert Flatten(pages[|pages|..]) == [];
    exchanges := CloseWalk(w, segment, answer);
  }

  method CloseWalk(w: Walk, ghost segment: seq<Entry>, ghost answer: seq<Bytes>) returns (exchanges: seq<Bytes>)
    requires !w.stopped && Bound(w, segment, [], answer)
    ensures exchanges == Reversed(answer)
  {
    exchanges := w.exchanges;
    if w.ended {
      var out := FinishTurn(w.acc, segment);
      FoundLast(exchanges, segment);
      exchanges := exchanges + out;
    }
    exchanges := Reverse(exchanges);
  }

  lemma FlattenNext(pages: seq<seq<Entry>>, p: nat)
    requires p < |pages|
    ensures Flatten(pages[p..]) == pages[p] + Flatten(pages[p + 1..])
  {
    assert pages[p..][1..] == pages[p + 1..];
  }

  lemma {:induction false} ReversedLength(s: seq<Bytes>)
    ensures |Reversed(s)| == |s|
  {
    if s != [] {
      ReversedLength(s[1..]);
    }
  }

  method Reverse(s: seq<Bytes>) returns (r: seq<Bytes>)
    ensures r == Reversed(s)
  {
    r := [];
    assert s[0..] == s;
    for i := 0 to |s|
      invariant Reversed(s[i..]) + r == Reversed(s)
    {
      assert s[i..][1..] == s[i + 1..];
      r := [s[i]] + r;
    }
  }

  /** Oldest first: the newest exchange found comes last. */
  lemma {:induction false} ReversedAt(s: seq<Bytes>, i: nat)
    requires i < |s|
    ensures |Reversed(s)| == |s| && Reversed(s)[i] == s[|s| - 1 - i]
  {
    ReversedLength(s[1..]);
    if i < |s| - 1 {
      ReversedAt(s[1..], i);
    }
  }

  /** An answered turn reads as question and answer under their headings. */
  lemma ExchangeReads(question: Bytes, answer: Bytes)
    ensures Exchange([Item(User, question), Item(Assistant, answer)])
         == Title(User) + question + ([10] + Title(Assistant) + answer) + [10]
  {
    var items := [Item(User, question), Item(Assistant, answer)];
    assert items[1..] == [Item(Assistant, answer)] && items[1..][1..] == [];
    var second := Render(items[1..], Some(User));
    assert Heading(Some(User), Assistant) == [10] + Title(Assistant);
    assert Render(items[1..][1..], Some(Assistant)) == [];
    assert second == [10] + Title(Assistant) + answer;
    assert Heading(None, User) == Title(User);
  }

  lemma TwoSided(question: Bytes, answer: Bytes)
    ensures var turn := [Said(Item(Assistant, answer)), Said(Item(User, question))];
      && Segments([], turn) == [turn] && Has(turn, User) && Has(turn, Assistant)
      && Items(turn) == [Item(User, question), Item(Assistant, answer)]
  {
    var a, q := Said(Item(Assistant, answer)), Said(Item(User, question));
    var turn := [a, q];
    assert turn[1..] == [q] && [q][1..] == [] && [] + [a] == [a] && [a] + [q] == turn;
    assert Segments(turn, []) == [turn] && Segments([a], [q]) == Segments(turn, []);
    assert turn[..1] == [a] && [a][..0] == [];
    assert Items([a]) == [Item(Assistant, answer)];
    assert turn[0].item.role == Assistant && turn[1].item.role == User;
  }

  /** A completed turn with both sides is what the walk finds; what follows the last turn end is not looked at. */
  lemma LatestTurn(question: Bytes, answer: Bytes, tail: Item)
    requires |Exchange([Item(User, question), Item(Assistant, answer)])| <= LIMIT
    ensures RecentExchanges([Said(tail), TurnEnd, Said(Item(Assistant, answer)), Said(Item(User, question))])
         == [Exchange([Item(User, question), Item(Assistant, answer)])]
  {
    var a, q := Said(Item(Assistant, answer)), Said(Item(User, question));
    TwoSided(question, answer);
    Single([a, q]);
    assert [Said(tail), TurnEnd, a, q][1..] == [TurnEnd, a, q] && [TurnEnd, a, q][1..] == [a, q];
    assert AfterEnd([TurnEnd, a, q]) == [[a, q]];
    assert AfterEnd([Said(tail), TurnEnd, a, q]) == [[a, q]];
  }

  /** A turn with one side only is no exchange. */
  lemma OneSidedTurn(item: Item)
    ensures RecentExchanges([TurnEnd, Said(item)]) == []
  {
    var e := Said(item);
    assert [TurnEnd, e][1..] == [e] && [e][1..] == [] && [] + [e] == [e];
    assert Segments([], [e]) == Segments([e], []) == [[e]];
    Single([e]);
  }

  lemma Single(segment: seq<Entry>)
    ensures Contributions([segment]) == Contribution(segment)
    ensures Reversed(FirstThree(Contribution(segment))) == Contribution(segment)
  {
    assert [segment][1..] == [];
    var c := Contribution(segment);
    if c != [] {
      assert c[1..] == [] && Reversed(c[1..]) == [];
    }
  }

  // ---------------------------------------------------------------- composing the note

  const SUMMARY_HEADING: Bytes := [83, 117, 109, 109, 97, 114, 121, 58, 10]
  const EXCHANGES_HEADING: Bytes := [10, 82, 101, 99, 101, 110, 116, 32, 101, 120, 99, 104, 97, 110, 103, 101, 115, 58, 10]

  function Note(summary: Bytes, exchanges: seq<Bytes>, pointer: Bytes): Bytes {
    (if summary == [] then [] else SUMMARY_HEADING + summary + [10])
    + (if exchanges == [] then [] else EXCHANGES_HEADING + Join(exchanges)) + pointer
  }

  /** The longest summary that may stand alone with the pointer. */
  function Room(pointer: Bytes): int {
    LIMIT - |SUMMARY_HEADING| - 1 - |pointer|
  }

  /** boundedSwitchSummary: the cut backs up to a rune start. */
  method BoundedSwitchSummary(summary: Bytes, limit: nat) returns (cut: Bytes)
    ensures cut <= summary && |cut| <= limit
    ensures |summary| <= limit ==> cut == summary
    ensures |summary| > limit ==> |cut| == BackUp(summary, limit)
    ensures ValidUtf8(summary) ==> ValidUtf8(cut) && (cut == summary || |cut| >= limit - 3)
  {
    if |summary| <= limit {
      return summary;
    }
    var end := limit;
    while end > 0 && !RuneStart(summary[end])
      invariant 0 <= end <= limit && BackUp(summary, end) == BackUp(summary, limit)
    {
      end := end - 1;
    }
    if ValidUtf8(summary) {
      NearbyRuneStart(summary, limit);
      CutAtRuneStart(summary, end);
    }
    return summary[..end];
  }

  /** The length of the note, part by part. */
  function NoteSize(summary: Bytes, exchanges: seq<Bytes>, pointer: Bytes): nat {
    (if summary == [] then 0 else |summary| + |SUMMARY_HEADING| + 1)
    + (if exchanges == [] then 0 else |EXCHANGES_HEADING| + |Join(exchanges)|) + |pointer|
  }

  lemma NoteLength(summary: Bytes, exchanges: seq<Bytes>, pointer: Bytes)
    ensures |Note(summary, exchanges, pointer)| == NoteSize(summary, exchanges, pointer)
  {
  }

  predicate TooLong(summary: Bytes, exchanges: seq<Bytes>, pointer: Bytes) {
    NoteSize(summary, exchanges, pointer) > LIMIT
  }

  /** The first k oldest exchanges are dropped and no smaller number would do, unless none are left. */
  predicate DropsFewest(summary: Bytes, exchanges: seq<Bytes>, pointer: Bytes, k: nat) {
    && k <= |exchanges| && (!TooLong(summary, exchanges[k..], pointer) || k == |exchanges|)
    && (forall j {:trigger TooLong(summary, exchanges[j..], pointer)} :: 0 <= j < k ==> TooLong(summary, exchanges[j..], pointer))
  }

  /** The dropping loop. */
  method DropOldest(summary: Bytes, exchanges: seq<Bytes>, pointer: Bytes) returns (rest: seq<Bytes>, ghost k: nat)
    ensures DropsFewest(summary, exchanges, pointer, k) && rest == exchanges[k..]
  {
    rest := exchanges;
    k := 0;
    while rest != [] && TooLong(summary, rest, pointer)
      invariant k <= |exchanges| && rest == exchanges[k..]
      invariant forall j {:trigger TooLong(summary, exchanges[j..], pointer)} :: 0 <= j < k ==> TooLong(summary, exchanges[j..], pointer)
      decreases |rest|
    {
      rest := rest[1..];
      k := k + 1;
    }
  }

  /** composeSwitchHandoff: never longer than the limit; exchanges go whole and oldest first, no more than needed; the
      summary is cut only when no exchange is left, and only between characters. */
  method ComposeSwitchHandoff(summary: Bytes, exchanges: seq<Bytes>, pointer: Bytes)
    returns (note: Bytes, ghost k: nat, ghost kept: Bytes, ghost shown: Bytes)
    ensures |note| <= LIMIT
    ensures shown == (if Room(pointer) < 0 then [] else pointer) && DropsFewest(summary, exchanges, shown, k)
    ensures note == Note(kept, exchanges[k..], shown)
    ensures kept <= summary && (kept != summary ==> k == |exchanges|)
    ensures !TooLong(summary, exchanges[k..], shown) ==> kept == summary
    ensures ValidUtf8(summary) ==> ValidUtf8(kept) && (kept == summary || |kept| >= Room(shown) - 3)
  {
    var tail := if Room(pointer) < 0 then [] else pointer;
    shown := tail;
    var rest;
    rest, k := DropOldest(summary, exchanges, tail);
    var text := summary;
    if TooLong(summary, rest, tail) {
      text := BoundedSwitchSummary(summary, Room(tail));
    }
    NoteLength(text, rest, tail);
    kept := text;
    note := Note(text, rest, tail);
  }

  /** An exchange larger than a whole note is never part of one, and neither is anything older. */
  lemma OversizedNeverKept(summary: Bytes, exchanges: seq<Bytes>, pointer: Bytes, k: nat, i: nat)
    requires DropsFewest(summary, exchanges, pointer, k) && i < |exchanges| && |exchanges[i]| > LIMIT
    ensures k > i
  {
    if k <= i {
      JoinAtLeast(exchanges[k..], i - k);
    }
  }

  lemma {:induction false} JoinAtLeast(parts: seq<Bytes>, i: nat)
    requires i < |parts|
    ensures |Join(parts)| >= |parts[i]|
  {
    if i > 0 {
      JoinAtLeast(parts[1..], i - 1);
    }
  }
}