/**
 What notifications say about a structured turn, and how the one caller waiting for it collects the result. The
 reader's notifications and the caller's two lock regions come in any order.
 */
module RpcTurns {
  import opened Wrappers

  type TurnId = string
  type ItemId = string
  type EventObject = nat

  datatype Notification =
    | Delta(turn: TurnId, item: ItemId, text: string)
    | ItemCompleted(turn: TurnId, text: string)
    | TurnCompleted(turn: TurnId, status: Option<string>)

  /** An entry of the delta dictionary, which keeps the order of first insertion. */
  datatype Entry = Entry(turn: TurnId, item: ItemId, text: string)

  datatype Board = Board(
    events: map<TurnId, EventObject>,
    raised: set<EventObject>,
    made: nat,
    status: map<TurnId, string>,
    completed: map<TurnId, seq<string>>,
    deltas: seq<Entry>)

  const EMPTY := Board(map[], {}, 0, map[], map[], [])

  /** `setdefault(turn, Event())`: an event that is there is kept. */
  function WithEvent(b: Board, t: TurnId): Board {
    if t in b.events then b else b.(events := b.events[t := b.made], made := b.made + 1)
  }

  function Appended(deltas: seq<Entry>, t: TurnId, i: ItemId, text: string): seq<Entry> {
    if deltas == [] then [Entry(t, i, text)]
    else if deltas[0].turn == t && deltas[0].item == i then [deltas[0].(text := deltas[0].text + text)] + deltas[1..]
    else [deltas[0]] + Appended(deltas[1..], t, i, text)
  }

  function Noted(b: Board, n: Notification): Board {
    match n
    case Delta(t, i, text) => if t == "" || i == "" then b else b.(deltas := Appended(b.deltas, t, i, text))
    case ItemCompleted(t, text) =>
      if t == "" || text == "" then b
      else b.(completed := b.completed[t := (if t in b.completed then b.completed[t] else []) + [text]])
    case TurnCompleted(t, st) =>
      if t == "" then b
      else
        var c := WithEvent(b.(status := b.status[t := Stated(st)]), t);
        c.(raised := c.raised + {c.events[t]})
  }

  function Stated(status: Option<string>): string {
    if status.Some? && status.value != "" then status.value else "unknown"
  }

  function Without(deltas: seq<Entry>, t: TurnId): seq<Entry> {
    if deltas == [] then []
    else (if deltas[0].turn == t then [] else [deltas[0]]) + Without(deltas[1..], t)
  }

  function Texts(deltas: seq<Entry>, t: TurnId): seq<string> {
    if deltas == [] then []
    else (if deltas[0].turn == t && deltas[0].text != "" then [deltas[0].text] else []) + Texts(deltas[1..], t)
  }

  function Messages(b: Board, t: TurnId): seq<string> {
    if t in b.completed && b.completed[t] != [] then b.completed[t] else Texts(b.deltas, t)
  }

  function Collected(b: Board, t: TurnId): Board {
    b.(events := b.events - {t}, status := b.status - {t}, completed := b.completed - {t}, deltas := Without(b.deltas, t))
  }

  /** The text goes to the first entry of its turn and item, or to a new last one. */
  lemma {:induction false} AppendedAt(deltas: seq<Entry>, t: TurnId, i: ItemId, text: string, k: nat)
    requires k <= |deltas|
    requires forall j :: 0 <= j < k ==> !(deltas[j].turn == t && deltas[j].item == i)
    requires k < |deltas| ==> deltas[k].turn == t && deltas[k].item == i
    ensures Appended(deltas, t, i, text)
            == if k < |deltas| then deltas[k := deltas[k].(text := deltas[k].text + text)]
               else deltas + [Entry(t, i, text)]
  {
    AppendedFirst(deltas, t, i, text);
    hide Appended;
    if k > 0 {
      AppendedAt(deltas[1..], t, i, text, k - 1);
      if k < |deltas| {
        assert deltas[k := deltas[k].(text := deltas[k].text + text)]
            == [deltas[0]] + deltas[1..][k - 1 := deltas[k].(text := deltas[k].text + text)];
      }
    }
  }

  lemma AppendedFirst(deltas: seq<Entry>, t: TurnId, i: ItemId, text: string)
    ensures Appended(deltas, t, i, text)
            == if deltas == [] then [Entry(t, i, text)]
               else if deltas[0].turn == t && deltas[0].item == i then deltas[0 := deltas[0].(text := deltas[0].text + text)]
               else [deltas[0]] + Appended(deltas[1..], t, i, text)
  {
  }

  class TurnBoard {
    var events: map<TurnId, EventObject>
    var raised: set<EventObject>
    var made: nat
    var status: map<TurnId, string>
    var completed: map<TurnId, seq<string>>
    var deltas: seq<Entry>

    function View(): Board
      reads this
    {
      Board(events, raised, made, status, completed, deltas)
    }

    constructor ()
      ensures View() == EMPTY
    {
      events, raised, made, status, completed, deltas := map[], {}, 0, map[], map[], [];
    }

    method AddDelta(t: TurnId, i: ItemId, text: string)
      modifies this`deltas
      ensures deltas == Appended(old(deltas), t, i, text)
    {
      var k := 0;
      while k < |deltas| && !(deltas[k].turn == t && deltas[k].item == i)
        invariant k <= |deltas|
        invariant forall j :: 0 <= j < k ==> !(deltas[j].turn == t && deltas[j].item == i)
      {
        k := k + 1;
      }
      AppendedAt(deltas, t, i, text, k);
      if k < |deltas| {
        deltas := deltas[k := deltas[k].(text := deltas[k].text + text)];
      } else {
        deltas := deltas + [Entry(t, i, text)];
      }
    }

    method HandleNotification(n: Notification)
      modifies this
      ensures View() == Noted(old(View()), n)
    {
      match n {
        case Delta(t, i, text) =>
          if t != "" && i != "" { AddDelta(t, i, text); }
        case ItemCompleted(t, text) =>
          if t != "" && text != "" {
            if t !in completed { completed := completed[t := []]; }
            completed := completed[t := completed[t] + [text]];
          }
        case TurnCompleted(t, st) =>
          if t != "" {
            status := status[t := Stated(st)];
            var e := TurnEvent(t);
            raised := raised + {e};
          }
      }
    }

    method TurnEvent(t: TurnId) returns (e: EventObject)
      modifies this`events, this`made
      ensures View() == WithEvent(old(View()), t)
      ensures t in events && e == events[t]
    {
      if t !in events {
        events, made := events[t := made], made + 1;
      }
      e := events[t];
    }

    /** Once its event is raised, the caller takes everything that belongs to its turn and leaves the rest. */
    method Collect(t: TurnId) returns (st: Option<string>, messages: seq<string>)
      modifies this
      ensures View() == Collected(old(View()), t)
      ensures st == if t in old(status) then Some(old(status)[t]) else None
      ensures messages == Messages(old(View()), t)
      ensures events == old(events) - {t} && status == old(status) - {t} && completed == old(completed) - {t}
      ensures raised == old(raised) && made == old(made)
      ensures forall e :: e in deltas <==> e in old(deltas) && e.turn != t
      ensures forall u :: u != t ==> ItemsIn(deltas, u) == ItemsIn(old(deltas), u)
      ensures forall u, i :: u != t ==> TextOf(deltas, u, i) == TextOf(old(deltas), u, i)
    {
      hide Texts, Without, ItemsIn, TextOf;
      WithoutHolds(deltas, t);
      forall u | u != t ensures ItemsIn(Without(deltas, t), u) == ItemsIn(deltas, u) {
        WithoutItems(deltas, t, u);
      }
      forall u, i | u != t ensures TextOf(Without(deltas, t), u, i) == TextOf(deltas, u, i) {
        WithoutText(deltas, t, u, i);
      }
      st := if t in status then Some(status[t]) else None;
      messages := if t in completed then completed[t] else [];
      if messages == [] {
        messages := Texts(deltas, t);
      }
      status, completed, events := status - {t}, completed - {t}, events - {t};
      deltas := Without(deltas, t);
    }
  }

  // ---- runs ----

  datatype Step =
    | Note(notification: Notification)
    | Attach(turn: TurnId)
    | Take(turn: TurnId)

  function Next(b: Board, s: Step): Board {
    match s
    case Note(n) => Noted(b, n)
    case Attach(t) => WithEvent(b, t)
    case Take(t) => Collected(b, t)
  }

  function After(steps: seq<Step>): Board {
    if steps == [] then EMPTY else Next(After(steps[..|steps| - 1]), steps[|steps| - 1])
  }

  predicate Takes(s: Step, t: TurnId) {
    s.Take? && s.turn == t
  }

  predicate Completes(s: Step, t: TurnId) {
    s.Note? && s.notification.TurnCompleted? && s.notification.turn == t
  }

  /** What the notifications of a run said last about the end of a turn; a missing or empty status is "unknown". */
  function LastStatus(steps: seq<Step>, t: TurnId): Option<string> {
    if steps == [] then None
    else
      var s := steps[|steps| - 1];
      if Completes(s, t) then
        match s.notification.status
        case Some(st) => Some(if st == "" then "unknown" else st)
        case None => Some("unknown")
      else LastStatus(steps[..|steps| - 1], t)
  }

  /** The finished agent messages of a turn, in the order they came. */
  function Finished(steps: seq<Step>, t: TurnId): seq<string> {
    if steps == [] then []
    else
      var s := steps[|steps| - 1];
      Finished(steps[..|steps| - 1], t) + FinishedBy(s, t)
  }

  /** What streamed in for one item of a turn, joined. */
  function Streamed(steps: seq<Step>, t: TurnId, i: ItemId): string {
    if steps == [] then ""
    else
      var s := steps[|steps| - 1];
      Streamed(steps[..|steps| - 1], t, i)
      + if s.Note? && s.notification.Delta? && s.notification.turn == t && s.notification.item == i
        then s.notification.text else ""
  }

  function TextOf(deltas: seq<Entry>, t: TurnId, i: ItemId): string {
    if deltas == [] then ""
    else if deltas[0].turn == t && deltas[0].item == i then deltas[0].text
    else TextOf(deltas[1..], t, i)
  }

  /** The items of a turn for which anything streamed in, in the order in which each first did. */
  function ItemsOf(steps: seq<Step>, t: TurnId): seq<ItemId> {
    if steps == [] then []
    else
      var s, before := steps[|steps| - 1], ItemsOf(steps[..|steps| - 1], t);
      if s.Note? && s.notification.Delta? && s.notification.turn == t && s.notification.item != ""
         && s.notification.item !in before
      then before + [s.notification.item] else before
  }

  /** The joined texts of these items, without the empty ones. */
  function StreamedTexts(steps: seq<Step>, t: TurnId, items: seq<ItemId>): seq<string> {
    if items == [] then []
    else
      var text := Streamed(steps, t, items[0]);
      if text == "" then StreamedTexts(steps, t, items[1..]) else [text] + StreamedTexts(steps, t, items[1..])
  }

  /** The items of a turn that have an entry, in order. */
  function ItemsIn(deltas: seq<Entry>, t: TurnId): seq<ItemId> {
    if deltas == [] then []
    else if deltas[0].turn == t then [deltas[0].item] + ItemsIn(deltas[1..], t)
    else ItemsIn(deltas[1..], t)
  }

  function TextsOf(deltas: seq<Entry>, t: TurnId, items: seq<ItemId>): seq<string> {
    if items == [] then []
    else
      var text := TextOf(deltas, t, items[0]);
      if text == "" then TextsOf(deltas, t, items[1..]) else [text] + TextsOf(deltas, t, items[1..])
  }

  ghost predicate NotTaken(steps: seq<Step>, t: TurnId) {
    forall s :: s in steps ==> !Takes(s, t)
  }

  lemma {:induction false} AppendedText(deltas: seq<Entry>, t: TurnId, i: ItemId, text: string, u: TurnId, j: ItemId)
    ensures TextOf(Appended(deltas, t, i, text), u, j)
            == TextOf(deltas, u, j) + if t == u && i == j then text else ""
  {
    if deltas != [] && !(deltas[0].turn == t && deltas[0].item == i) {
      AppendedText(deltas[1..], t, i, text, u, j);
    }
  }

  lemma {:induction false} WithoutText(deltas: seq<Entry>, t: TurnId, u: TurnId, j: ItemId)
    requires t != u
    ensures TextOf(Without(deltas, t), u, j) == TextOf(deltas, u, j)
  {
    if deltas != [] {
      WithoutText(deltas[1..], t, u, j);
      var rest := Without(deltas[1..], t);
      if deltas[0].turn == t {
        assert Without(deltas, t) == rest;
      } else {
        assert Without(deltas, t)[1..] == rest;
      }
    }
  }

  lemma {:induction false} StatusIsLast(steps: seq<Step>, t: TurnId)
    requires t != "" && NotTaken(steps, t)
    ensures var b := After(steps);
            && (LastStatus(steps, t).Some? <==> t in b.status)
            && (LastStatus(steps, t).Some? ==>
                  t in b.events && b.events[t] in b.raised && b.status[t] == LastStatus(steps, t).value)
  {
    if steps != [] {
      var init, s := steps[..|steps| - 1], steps[|steps| - 1];
      assert forall x :: x in init ==> x in steps;
      assert s in steps;
      assert After(steps) == Next(After(init), s);
      hide Next, After;
      StatusIsLast(init, t);
      StatusNext(After(init), s, t, LastStatus(init, t));
    }
  }

  /** The status shown for a turn, under a raised event. */
  predicate Shows(b: Board, t: TurnId, last: Option<string>) {
    && (last.Some? <==> t in b.status)
    && (last.Some? ==> t in b.events && b.events[t] in b.raised && b.status[t] == last.value)
  }

  lemma StatusNext(b: Board, s: Step, t: TurnId, last: Option<string>)
    requires t != "" && !Takes(s, t) && Shows(b, t, last)
    ensures Shows(Next(b, s), t, if !Completes(s, t) then last
                                 else if s.notification.status == None || s.notification.status == Some("") then Some("unknown")
                                 else s.notification.status)
  {
    hide Appended, Without, Texts;
    match s
    case Note(n) =>
    case Take(u) => assert u != t;
    case Attach(u) =>
  }

  function DoneOf(b: Board, t: TurnId): seq<string> {
    if t in b.completed then b.completed[t] else []
  }

  /** What one step adds to the finished messages of a turn. */
  function FinishedBy(s: Step, t: TurnId): seq<string> {
    if s.Note? && s.notification.ItemCompleted? && s.notification.turn == t && s.notification.text != ""
    then [s.notification.text] else []
  }

  lemma DoneAfter(b: Board, s: Step, t: TurnId)
    requires t != "" && !Takes(s, t)
    ensures DoneOf(Next(b, s), t) == DoneOf(b, t) + FinishedBy(s, t)
  {
    hide Appended, Without, Texts;
    match s
    case Note(n) =>
    case Take(u) => assert u != t;
    case Attach(u) =>
  }

  lemma {:induction false} CompletedIsFinished(steps: seq<Step>, t: TurnId)
    requires t != "" && NotTaken(steps, t)
    ensures DoneOf(After(steps), t) == Finished(steps, t)
  {
    hide Next, FinishedBy;
    if steps != [] {
      var init, s := steps[..|steps| - 1], steps[|steps| - 1];
      assert forall x :: x in init ==> x in steps;
      assert s in steps;
      CompletedIsFinished(init, t);
      DoneAfter(After(init), s, t);
    }
  }

  lemma {:induction false} DeltasAreStreamed(steps: seq<Step>, t: TurnId, i: ItemId)
    requires t != "" && i != "" && NotTaken(steps, t)
    ensures TextOf(After(steps).deltas, t, i) == Streamed(steps, t, i)
  {
    hide Appended, Without, TextOf;
    if steps == [] {
      NoText(t, i);
    } else {
      var init, s := steps[..|steps| - 1], steps[|steps| - 1];
      assert forall x :: x in init ==> x in steps;
      assert s in steps;
      DeltasAreStreamed(init, t, i);
      var b := After(init);
      match s
      case Note(n) =>
        if n.Delta? { AppendedText(b.deltas, n.turn, n.item, n.text, t, i); }
      case Take(u) => WithoutText(b.deltas, u, t, i);
      case Attach(u) =>
    }
  }

  lemma NoText(t: TurnId, i: ItemId)
    ensures TextOf([], t, i) == ""
  {
  }

  // ---- the order of the items ----

  /** Appending a text adds its item at the end, if it has no entry yet. */
  lemma {:induction false} AppendedItems(deltas: seq<Entry>, t: TurnId, i: ItemId, text: string, u: TurnId)
    ensures var items := ItemsIn(deltas, u);
            ItemsIn(Appended(deltas, t, i, text), u) == if u == t && i !in items then items + [i] else items
  {
    AppendedFirst(deltas, t, i, text);
    hide Appended;
    if deltas != [] {
      AppendedItems(deltas[1..], t, i, text, u);
    }
  }

  lemma {:induction false} WithoutItems(deltas: seq<Entry>, t: TurnId, u: TurnId)
    requires t != u
    ensures ItemsIn(Without(deltas, t), u) == ItemsIn(deltas, u)
  {
    if deltas != [] {
      WithoutItems(deltas[1..], t, u);
      var rest := Without(deltas[1..], t);
      if deltas[0].turn == t {
        assert Without(deltas, t) == rest;
      } else {
        assert Without(deltas, t)[1..] == rest;
      }
    }
  }

  lemma {:induction false} WithoutHolds(deltas: seq<Entry>, t: TurnId)
    ensures forall e :: e in Without(deltas, t) <==> e in deltas && e.turn != t
  {
    if deltas != [] {
      WithoutHolds(deltas[1..], t);
      assert deltas == [deltas[0]] + deltas[1..];
    }
  }

  ghost predicate NoRepeats(items: seq<ItemId>) {
    forall i, j :: 0 <= i < j < |items| ==> items[i] != items[j]
  }

  lemma ItemsNext(b: Board, s: Step, t: TurnId)
    requires t != "" && !Takes(s, t)
    ensures var items := ItemsIn(b.deltas, t);
            ItemsIn(Next(b, s).deltas, t)
            == if s.Note? && s.notification.Delta? && s.notification.turn == t && s.notification.item != ""
                  && s.notification.item !in items
               then items + [s.notification.item] else items
  {
    hide Appended, Without, Texts, ItemsIn;
    match s
    case Note(n) =>
      if n.Delta? { AppendedItems(b.deltas, n.turn, n.item, n.text, t); }
    case Take(u) => WithoutItems(b.deltas, u, t);
    case Attach(u) =>
  }

  lemma {:induction false} ItemsInOrder(steps: seq<Step>, t: TurnId)
    requires t != "" && NotTaken(steps, t)
    ensures ItemsIn(After(steps).deltas, t) == ItemsOf(steps, t) && NoRepeats(ItemsOf(steps, t)) && "" !in ItemsOf(steps, t)
  {
    if steps != [] {
      var init, s := steps[..|steps| - 1], steps[|steps| - 1];
      assert forall x :: x in init ==> x in steps;
      assert s in steps;
      assert After(steps) == Next(After(init), s);
      hide Next, After, ItemsIn;
      ItemsInOrder(init, t);
      ItemsNext(After(init), s, t);
    }
  }

  lemma FirstIsAlone(first: ItemId, items: seq<ItemId>)
    requires NoRepeats([first] + items)
    ensures first !in items && NoRepeats(items)
  {
    forall j | 0 <= j < |items| ensures items[j] != first {
      assert ([first] + items)[0] == first && ([first] + items)[j + 1] == items[j];
    }
    forall i, j | 0 <= i < j < |items| ensures items[i] != items[j] {
      assert ([first] + items)[i + 1] == items[i] && ([first] + items)[j + 1] == items[j];
    }
  }

  /** With one entry for each item, the texts of a turn are those of its items. */
  lemma {:induction false} TextsByItem(deltas: seq<Entry>, t: TurnId)
    requires NoRepeats(ItemsIn(deltas, t))
    ensures Texts(deltas, t) == TextsOf(deltas, t, ItemsIn(deltas, t))
  {
    if deltas != [] {
      var first, rest := deltas[0], deltas[1..];
      var items := ItemsIn(rest, t);
      if first.turn == t {
        assert ItemsIn(deltas, t) == [first.item] + items;
        FirstIsAlone(first.item, items);
        TextsByItem(rest, t);
        SkipFirst(deltas, t, items);
        assert Texts(deltas, t) == (if first.text != "" then [first.text] else []) + Texts(rest, t);
        assert TextsOf(deltas, t, [first.item] + items)
            == if first.text == "" then TextsOf(deltas, t, items) else [first.text] + TextsOf(deltas, t, items) by {
          assert ([first.item] + items)[1..] == items && TextOf(deltas, t, first.item) == first.text;
        }
      } else {
        TextsByItem(rest, t);
        SkipFirst(deltas, t, items);
      }
    }
  }

  /** The texts of items that the first entry is not about come from the other entries. */
  lemma {:induction false} SkipFirst(deltas: seq<Entry>, t: TurnId, items: seq<ItemId>)
    requires deltas != [] && (deltas[0].turn == t ==> deltas[0].item !in items)
    ensures TextsOf(deltas, t, items) == TextsOf(deltas[1..], t, items)
  {
    if items != [] {
      SkipFirst(deltas, t, items[1..]);
    }
  }

  lemma {:induction false} TextsAreStreamed(steps: seq<Step>, t: TurnId, items: seq<ItemId>)
    requires t != "" && NotTaken(steps, t) && "" !in items
    ensures TextsOf(After(steps).deltas, t, items) == StreamedTexts(steps, t, items)
  {
    if items != [] {
      hide NotTaken, After, TextOf, Streamed;
      assert items[0] in items && forall i :: i in items[1..] ==> i in items;
      DeltasAreStreamed(steps, t, items[0]);
      TextsAreStreamed(steps, t, items[1..]);
    }
  }

  /**
   What a collection hands out: the status said last, and the finished messages of the turn or, without any, what
   streamed in for each item, joined, without the empty ones, in the order in which the items first appeared.
   */
  lemma CollectHandsOut(steps: seq<Step>, t: TurnId)
    requires t != "" && NotTaken(steps, t)
    ensures var b := After(steps);
            && (if t in b.status then Some(b.status[t]) else None) == LastStatus(steps, t)
            && Messages(b, t) == if Finished(steps, t) != [] then Finished(steps, t)
                                 else StreamedTexts(steps, t, ItemsOf(steps, t))
  {
    hide NotTaken, After, Texts, TextsOf, ItemsOf, StreamedTexts, Finished, LastStatus;
    StatusIsLast(steps, t);
    CompletedIsFinished(steps, t);
    ItemsInOrder(steps, t);
    TextsByItem(After(steps).deltas, t);
    TextsAreStreamed(steps, t, ItemsOf(steps, t));
  }

  /**
   Until a turn is collected, the board holds exactly what its notifications said, whether they came before or after
   the caller attached and whatever other turns do: the last status under a raised event, the finished messages in
   order, and each item's deltas joined.
   */
  lemma NothingIsLost(steps: seq<Step>, t: TurnId, i: ItemId)
    requires t != "" && i != "" && NotTaken(steps, t)
    ensures var b := After(steps);
            && (LastStatus(steps, t).Some? <==> t in b.status)
            && (LastStatus(steps, t).Some? ==>
                  t in b.events && b.events[t] in b.raised && b.status[t] == LastStatus(steps, t).value)
            && DoneOf(b, t) == Finished(steps, t)
            && TextOf(b.deltas, t, i) == Streamed(steps, t, i)
  {
    StatusIsLast(steps, t);
    CompletedIsFinished(steps, t);
    DeltasAreStreamed(steps, t, i);
  }

  lemma EventStays(b: Board, s: Step, t: TurnId)
    requires t in b.events && !Takes(s, t)
    ensures t in Next(b, s).events && Next(b, s).events[t] == b.events[t]
  {
    hide Appended, Without;
    match s
    case Note(n) =>
    case Take(u) => assert u != t;
    case Attach(u) =>
  }

  lemma SplitNotTaken(steps: seq<Step>, n: nat, t: TurnId)
    requires n < |steps| && NotTaken(steps[n..], t)
    ensures NotTaken(steps[..|steps| - 1][n..], t) && !Takes(steps[|steps| - 1], t)
  {
    var m := |steps| - 1;
    assert steps[n..][m - n] == steps[m];
    assert steps[m] in steps[n..];
    forall x | x in steps[..m][n..] ensures !Takes(x, t) {
      var i :| 0 <= i < m - n && steps[..m][n..][i] == x;
      assert steps[n..][i] == x;
      assert x in steps[n..];
    }
  }

  /** The event a caller waits on stays the turn's event, so a completion after the attach raises the one waited on. */
  lemma {:induction false} AttachedEventStays(steps: seq<Step>, n: nat, t: TurnId)
    requires n <= |steps| && t in After(steps[..n]).events
    requires NotTaken(steps[n..], t)
    ensures t in After(steps).events && After(steps).events[t] == After(steps[..n]).events[t]
  {
    hide Next, NotTaken;
    var m := |steps| - 1;
    if n == |steps| {
      assert steps[..n] == steps;
    } else {
      assert steps[..m][..n] == steps[..n];
      SplitNotTaken(steps, n, t);
      AttachedEventStays(steps[..m], n, t);
      EventStays(After(steps[..m]), steps[m], t);
    }
  }

  lemma LaterNotTaken(steps: seq<Step>, n: nat, t: TurnId)
    requires n <= |steps| && NotTaken(steps, t)
    ensures NotTaken(steps[n..], t)
  {
    forall x | x in steps[n..] ensures x in steps {
    }
  }

  /**
   A `turn/completed` is not lost by coming early or late: the wait of a caller that attached at step `n` is over as
   soon as the completion has been handled, and its status is what `Collect` returns.
   */
  lemma CompletionReachesTheWaiter(steps: seq<Step>, n: nat, t: TurnId)
    requires n < |steps| && steps[n] == Attach(t) && t != "" && NotTaken(steps, t)
    requires LastStatus(steps, t).Some?
    ensures t in After(steps[..n + 1]).events
    ensures After(steps[..n + 1]).events[t] in After(steps).raised
    ensures t in After(steps).status && After(steps).status[t] == LastStatus(steps, t).value
  {
    hide NotTaken, Noted, Collected, LastStatus;
    assert steps[..n + 1][..n] == steps[..n];
    LaterNotTaken(steps, n + 1, t);
    AttachedEventStays(steps, n + 1, t);
    StatusIsLast(steps, t);
  }
}
