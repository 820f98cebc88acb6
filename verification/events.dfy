/** Agent event feeds: the bounded log with cursors, paging over it, and the bridge's copy rebuilt from
    observation messages that may be lost. */
module Events {
  import opened Common

  type Event = string
  datatype Entry = Entry(cursor: nat, event: Event)

  /** Events waiting for the next observation, the cursor of the latest event, and the recent log. */
  datatype Feed = Feed(pending: seq<Event>, cursor: nat, log: seq<Entry>)

  const LOG_SIZE: nat := 4096

  function Tail<T>(s: seq<T>, n: nat): (r: seq<T>)
    ensures |r| == if |s| > n then n else |s|
  {
    if |s| > n then s[|s| - n..] else s
  }

  function Added(f: Feed, e: Event): Feed {
    Feed(f.pending + [e], f.cursor + 1, Tail(f.log + [Entry(f.cursor + 1, e)], LOG_SIZE))
  }

  function Taken(f: Feed): Feed {
    f.(pending := [])
  }

  /** Events `from + 1` to `to` of a history, with their cursors. */
  function Entries(history: seq<Event>, from: nat, to: nat): (r: seq<Entry>)
    requires from <= to <= |history|
    ensures |r| == to - from
    ensures forall j :: 0 <= j < |r| ==> r[j] == Entry(from + j + 1, history[from + j])
  {
    seq(to - from, j requires 0 <= j < to - from => Entry(from + j + 1, history[from + j]))
  }

  function Oldest(history: seq<Event>): nat {
    if |history| > LOG_SIZE then |history| - LOG_SIZE else 0
  }

  /** A feed is a view of the agent's whole history: the cursor counts it, pending is a suffix of it, and
      the log is its last 4096 events under consecutive cursors ending at the cursor. */
  ghost predicate FeedOf(f: Feed, history: seq<Event>) {
    && f.cursor == |history|
    && |f.pending| <= |history| && f.pending == history[|history| - |f.pending|..]
    && f.log == Entries(history, Oldest(history), |history|)
  }

  lemma LogSlides(history: seq<Event>, e: Event, log: seq<Entry>, kept: seq<Entry>)
    requires log == Entries(history, Oldest(history), |history|) + [Entry(|history| + 1, e)]
    requires kept == if |log| > LOG_SIZE then log[|log| - LOG_SIZE..] else log
    ensures kept == Entries(history + [e], Oldest(history + [e]), |history| + 1)
  {
    var longer, from := history + [e], Oldest(history + [e]);
    forall j | 0 <= j < |kept| ensures kept[j] == Entry(from + j + 1, longer[from + j]) {
      assert kept[j] == log[|log| - |kept| + j];
    }
  }

  lemma AddKeepsFeed(f: Feed, history: seq<Event>, e: Event)
    requires FeedOf(f, history)
    ensures FeedOf(Added(f, e), history + [e])
  {
    LogSlides(history, e, f.log + [Entry(f.cursor + 1, e)], Added(f, e).log);
  }

  // ----- paging

  function ClampLimit(limit: int): nat {
    if limit <= 0 then 100 else if limit > 1000 then 1000 else limit
  }

  /** First history position a page after `cursor` can still serve, and where the page ends. */
  function PageStart(history: seq<Event>, cursor: nat): nat {
    Max(cursor, Oldest(history))
  }

  function PageEnd(history: seq<Event>, cursor: nat, limit: int): nat {
    Max(PageStart(history, cursor), Min(PageStart(history, cursor) + ClampLimit(limit), |history|))
  }

  function Page(history: seq<Event>, cursor: nat, limit: int): seq<Entry> {
    if PageStart(history, cursor) >= |history| then []
    else Entries(history, PageStart(history, cursor), PageEnd(history, cursor, limit))
  }

  /** What a page holds: from the cursor on, or from the oldest of the last 4096 events if the cursor is older, as many
      as are asked for and there, at most 1000, and 100 when no number is asked for. */
  lemma PageIs(history: seq<Event>, cursor: nat, limit: int)
    ensures var n, page := |history|, Page(history, cursor, limit);
            var first := Max(cursor, if n > 4096 then n - 4096 else 0);
            var most := if limit <= 0 then 100 else Min(limit, 1000);
            && |page| == (if first + most <= n then most else if first <= n then n - first else 0)
            && (forall j :: 0 <= j < |page| ==> page[j] == Entry(first + j + 1, history[first + j]))
            && (page != [] ==> PageEnd(history, cursor, limit) == first + |page|)
  {
  }

  /** The scan over the log: the oldest kept events past the cursor, at most `limit` of them, and the cursor
      to continue from. */
  method EventsAfter(log: seq<Entry>, cursor: nat, limit: int, ghost history: seq<Event>)
    returns (out: seq<Entry>, next: nat)
    requires log == Entries(history, Oldest(history), |history|)
    ensures out == Page(history, cursor, limit)
    ensures next == if out == [] then cursor else PageEnd(history, cursor, limit)
  {
    var most := ClampLimit(limit);
    ghost var start := PageStart(history, cursor);
    out, next := [], cursor;
    for n := 0 to |log|
      invariant |out| < most
      invariant Oldest(history) + n <= start ==> out == []
      invariant Oldest(history) + n > start ==> start < |history| && out == Entries(history, start, Oldest(history) + n)
      invariant next == if out == [] then cursor else start + |out|
    {
      var e := log[n];
      if e.cursor > cursor {
        ghost var before := out;
        out := out + [e];
        next := e.cursor;
        assert out == Entries(history, start, Oldest(history) + n + 1);
        if |out| >= most {
          return;
        }
      }
    }
  }

  datatype Op = Append(e: Event) | Poll(limit: int)

  /** The server's feed, everything it ever logged, and a poller with its cursor and what it received. */
  datatype Paging = Paging(feed: Feed, history: seq<Event>, cursor: nat, received: seq<Entry>)

  function PageStep(p: Paging, op: Op): Paging {
    match op
    case Append(e) => p.(feed := Added(p.feed, e), history := p.history + [e])
    case Poll(limit) =>
      var page := Page(p.history, p.cursor, limit);
      p.(cursor := if page == [] then p.cursor else PageEnd(p.history, p.cursor, limit), received := p.received + page)
  }

  function PageRun(p: Paging, ops: seq<Op>): Paging {
    if ops == [] then p else PageStep(PageRun(p, ops[..|ops| - 1]), ops[|ops| - 1])
  }

  /** A run takes its operations one after the other. */
  lemma PageRunStep(p: Paging, ops: seq<Op>, op: Op)
    ensures PageRun(p, []) == p
    ensures PageRun(p, ops + [op]) == PageStep(PageRun(p, ops), op)
  {
    assert (ops + [op])[..|ops|] == ops;
  }

  predicate KeptUp(p: Paging) {
    |p.history| <= p.cursor + LOG_SIZE
  }

  /** Whenever it polls, the poller is at most 4096 events behind. */
  ghost predicate KeepsUp(p: Paging, ops: seq<Op>) {
    forall n :: 0 <= n < |ops| && ops[n].Poll? ==> KeptUp(PageRun(p, ops[..n]))
  }

  lemma PollTakesTheNextPage(m: Paging, from: nat, limit: int, q: Paging)
    requires KeptUp(m) && from <= m.cursor <= |m.history| && m.received == Entries(m.history, from, m.cursor)
    requires q == PageStep(m, Poll(limit))
    ensures m.cursor <= q.cursor <= |m.history| && q.received == Entries(m.history, from, q.cursor)
  {
  }

  lemma {:induction false} PollsAreExactlyOnce(p: Paging, ops: seq<Op>)
    requires FeedOf(p.feed, p.history) && p.cursor <= |p.history| && p.received == [] && KeepsUp(p, ops)
    ensures var q := PageRun(p, ops);
            && FeedOf(q.feed, q.history) && p.history <= q.history && p.cursor <= q.cursor <= |q.history|
            && q.received == Entries(q.history, p.cursor, q.cursor)
  {
    if ops == [] {
      assert Entries(p.history, p.cursor, p.cursor) == [];
    } else {
      var n := |ops| - 1;
      var before := ops[..n];
      forall j | 0 <= j < n && before[j].Poll? ensures KeptUp(PageRun(p, before[..j])) {
        assert before[..j] == ops[..j];
      }
      PollsAreExactlyOnce(p, before);
      var m := PageRun(p, before);
      match ops[n] {
        case Append(e) =>
          AddKeepsFeed(m.feed, m.history, e);
          assert Entries(m.history + [e], p.cursor, m.cursor) == Entries(m.history, p.cursor, m.cursor);
        case Poll(limit) =>
          assert KeptUp(PageRun(p, ops[..n]));
          PollTakesTheNextPage(m, p.cursor, limit, PageStep(m, ops[n]));
      }
    }
  }

  /** A poll loses events exactly when it comes more than 4096 behind; what it loses is the part the log
      has already dropped. */
  lemma PollSkipsExactlyWhenBehind(p: Paging, limit: int)
    requires p.cursor < |p.history|
    ensures Page(p.history, p.cursor, limit) != []
    ensures Page(p.history, p.cursor, limit)[0].cursor == Max(p.cursor, Oldest(p.history)) + 1
    ensures Page(p.history, p.cursor, limit)[0].cursor == p.cursor + 1 <==> KeptUp(p)
  {
  }

  // ----- the bridge

  datatype Obs = Obs(events: seq<Event>, cursor: nat)
  datatype Session = Session(ring: seq<Entry>, lastCursor: nat)

  function ObsOf(f: Feed): Obs {
    Obs(f.pending, f.cursor)
  }

  function BaseCursor(s: Session, o: Obs): nat {
    if o.cursor > 0 && o.cursor >= |o.events| then o.cursor - |o.events| else s.lastCursor
  }

  function Numbered(base: nat, events: seq<Event>): (r: seq<Entry>)
    ensures |r| == |events| && forall j :: 0 <= j < |r| ==> r[j] == Entry(base + j + 1, events[j])
  {
    seq(|events|, j requires 0 <= j < |events| => Entry(base + j + 1, events[j]))
  }

  function Received(s: Session, o: Obs): Session {
    var base := BaseCursor(s, o);
    Session(Tail(s.ring + Numbered(base, o.events), LOG_SIZE), if o.cursor > 0 then o.cursor else base + |o.events|)
  }

  /** What the bridge makes of an observation: its events are numbered up to its cursor, or on from the bridge's own
      when it has none or too small a one, put behind those held, of which the last 4096 stay. */
  lemma ReceivedIs(s: Session, o: Obs)
    ensures var n := |o.events|;
            var base := if 0 < o.cursor && n <= o.cursor then o.cursor - n else s.lastCursor;
            && Received(s, o).lastCursor == (if o.cursor == 0 then base + n else o.cursor)
            && var all := s.ring + seq(n, j requires 0 <= j < n => Entry(base + j + 1, o.events[j]));
               Received(s, o).ring == all[if |all| > 4096 then |all| - 4096 else 0..]
  {
  }

  datatype Act = Log(e: Event) | Observe(delivered: bool)

  /** The whole path: agent, history, session, and every entry ever delivered. */
  datatype Path = Path(feed: Feed, history: seq<Event>, session: Session, delivered: seq<Entry>)

  function ActStep(p: Path, a: Act): Path {
    match a
    case Log(e) => p.(feed := Added(p.feed, e), history := p.history + [e])
    case Observe(delivered) =>
      var o := ObsOf(p.feed);
      var taken := p.(feed := Taken(p.feed));
      if delivered
      then taken.(session := Received(p.session, o),
                  delivered := p.delivered + Numbered(BaseCursor(p.session, o), o.events))
      else taken
  }

  function ActRun(p: Path, acts: seq<Act>): Path
    decreases |acts|
  {
    if acts == [] then p else ActRun(ActStep(p, acts[0]), acts[1..])
  }

  /** A run takes its acts one after the other. */
  lemma ActRunStep(p: Path, acts: seq<Act>, act: Act)
    ensures ActRun(p, []) == p
    ensures ActRun(p, [act] + acts) == ActRun(ActStep(p, act), acts)
  {
    assert ([act] + acts)[1..] == acts;
  }

  /** Cursors strictly increase and each entry is the server's event under that cursor. */
  ghost predicate Truthful(entries: seq<Entry>, history: seq<Event>) {
    && (forall j, k :: 0 <= j < k < |entries| ==> entries[j].cursor < entries[k].cursor)
    && (forall j :: 0 <= j < |entries| ==>
          1 <= entries[j].cursor <= |history| && entries[j].event == history[entries[j].cursor - 1])
  }

  ghost predicate Linked(p: Path) {
    && FeedOf(p.feed, p.history)
    && Truthful(p.delivered, p.history)
    && p.session.ring == Tail(p.delivered, LOG_SIZE)
    && p.session.lastCursor <= |p.history| - |p.feed.pending|
    && (forall j :: 0 <= j < |p.delivered| ==> p.delivered[j].cursor <= p.session.lastCursor)
  }

  lemma FreshFeed()
    ensures FeedOf(Feed([], 0, []), [])
  {
    assert Entries([], 0, 0) == [];
  }

  /** An agent without events, seen by a bridge that has just connected. */
  function FreshPath(): Path {
    Path(Feed([], 0, []), [], Session([], 0), [])
  }

  lemma FreshPathIsLinked()
    ensures Linked(FreshPath())
  {
    FreshFeed();
  }

  /** Everything up to the pending events has been delivered. */
  ghost predicate AllDelivered(p: Path) {
    |p.feed.pending| <= |p.history| && p.delivered == Entries(p.history, 0, |p.history| - |p.feed.pending|)
  }

  lemma FreshPathIsDelivered()
    ensures AllDelivered(FreshPath())
  {
    assert Entries([], 0, 0) == [];
  }

  lemma LogKeepsLinked(p: Path, e: Event)
    requires Linked(p)
    ensures Linked(ActStep(p, Log(e)))
  {
    AddKeepsFeed(p.feed, p.history, e);
  }

  lemma TruthfulGrows(entries: seq<Entry>, history: seq<Event>, from: nat, to: nat)
    requires Truthful(entries, history) && from <= to <= |history|
    requires forall j :: 0 <= j < |entries| ==> entries[j].cursor <= from
    ensures Truthful(entries + Entries(history, from, to), history)
    ensures forall j :: 0 <= j < |entries + Entries(history, from, to)| ==>
              (entries + Entries(history, from, to))[j].cursor <= to
  {
  }

  lemma TailOfMore<T>(a: seq<T>, b: seq<T>, n: nat)
    ensures Tail(Tail(a, n) + b, n) == Tail(a + b, n)
  {
  }

  lemma ObserveKeepsLinked(p: Path, delivered: bool)
    requires Linked(p)
    ensures Linked(ActStep(p, Observe(delivered)))
    ensures delivered ==> ActStep(p, Observe(delivered)).delivered
                          == p.delivered + Entries(p.history, |p.history| - |p.feed.pending|, |p.history|)
  {
    var p' := ActStep(p, Observe(delivered));
    if delivered {
      var o := ObsOf(p.feed);
      var sent := Numbered(BaseCursor(p.session, o), o.events);
      assert BaseCursor(p.session, o) == |p.history| - |p.feed.pending|;
      assert sent == Entries(p.history, |p.history| - |p.feed.pending|, |p.history|);
      TailOfMore(p.delivered, sent, LOG_SIZE);
      TruthfulGrows(p.delivered, p.history, |p.history| - |p.feed.pending|, |p.history|);
    }
  }

  lemma TailTruthful(entries: seq<Entry>, history: seq<Event>)
    requires Truthful(entries, history)
    ensures Truthful(Tail(entries, LOG_SIZE), history)
  {
  }

  /** For every pattern of lost observations the bridge's ring strictly increases and tells the truth; it
      is the last 4096 of exactly the events whose observations arrived. */
  lemma {:induction false} RingSurvivesLoss(p: Path, acts: seq<Act>)
    requires Linked(p)
    ensures Linked(ActRun(p, acts)) && Truthful(ActRun(p, acts).session.ring, ActRun(p, acts).history)
    ensures p.delivered <= ActRun(p, acts).delivered
    decreases |acts|
  {
    if acts == [] {
      TailTruthful(p.delivered, p.history);
    } else {
      match acts[0] {
        case Log(e) => LogKeepsLinked(p, e);
        case Observe(d) => ObserveKeepsLinked(p, d);
      }
      RingSurvivesLoss(ActStep(p, acts[0]), acts[1..]);
    }
  }

  lemma LogKeepsDelivered(p: Path, e: Event)
    requires Linked(p) && AllDelivered(p)
    ensures AllDelivered(ActStep(p, Log(e)))
  {
  }

  lemma ObserveDelivers(p: Path)
    requires Linked(p) && AllDelivered(p)
    ensures AllDelivered(ActStep(p, Observe(true)))
  {
    var m := ActStep(p, Observe(true));
    assert m.delivered == Entries(m.history, 0, |m.history|);
  }

  lemma RingIsLog(p: Path)
    requires Linked(p) && AllDelivered(p) && p.feed.pending == []
    ensures p.session.ring == p.feed.log
  {
  }

  /** With no message lost and nothing pending, the ring is the agent's own log. */
  lemma {:induction false} NothingLostNothingMissing(p: Path, acts: seq<Act>)
    requires Linked(p) && AllDelivered(p)
    requires forall j :: 0 <= j < |acts| ==> acts[j] != Observe(false)
    ensures var q := ActRun(p, acts);
            Linked(q) && AllDelivered(q) && (q.feed.pending == [] ==> q.session.ring == q.feed.log)
    decreases |acts|
  {
    if acts == [] {
      if p.feed.pending == [] {
        RingIsLog(p);
      }
    } else {
      match acts[0] {
        case Log(e) =>
          LogKeepsLinked(p, e);
          LogKeepsDelivered(p, e);
        case Observe(d) =>
          ObserveKeepsLinked(p, d);
          ObserveDelivers(p);
      }
      NothingLostNothingMissing(ActStep(p, acts[0]), acts[1..]);
    }
  }

  // ----- the imperative forms

  class Agent {
    var events: seq<Event>
    var eventCursor: nat
    var eventLog: seq<Entry>
    ghost var history: seq<Event>

    function View(): Feed
      reads this
    {
      Feed(events, eventCursor, eventLog)
    }

    ghost predicate Valid()
      reads this
    {
      FeedOf(View(), history)
    }

    constructor ()
      ensures Valid() && history == []
    {
      events, eventCursor, eventLog, history := [], 0, [], [];
      new;
      assert Entries([], 0, 0) == [];
    }

    method AddEvent(e: Event)
      requires Valid()
      modifies this
      ensures Valid() && history == old(history) + [e] && View() == Added(old(View()), e)
    {
      AddKeepsFeed(View(), history, e);
      events := events + [e];
      eventCursor := eventCursor + 1;
      eventLog := eventLog + [Entry(eventCursor, e)];
      if |eventLog| > LOG_SIZE {
        eventLog := eventLog[|eventLog| - LOG_SIZE..];
      }
      history := history + [e];
    }

    method TakeEvents() returns (ev: seq<Event>)
      requires Valid()
      modifies this
      ensures Valid() && history == old(history) && View() == Taken(old(View())) && ev == old(events)
    {
      ev := events;
      events := [];
    }

    method AttachObs() returns (o: Obs)
      requires Valid()
      modifies this
      ensures Valid() && history == old(history) && View() == Taken(old(View())) && o == ObsOf(old(View()))
    {
      var ev := TakeEvents();
      o := Obs(ev, eventCursor);
    }
  }

  function Past(entries: seq<Entry>, since: nat): seq<Entry> {
    if entries == [] then []
    else
      var rest := Past(entries[..|entries| - 1], since);
      if entries[|entries| - 1].cursor > since then rest + [entries[|entries| - 1]] else rest
  }

  lemma {:induction false} PastPrefix(entries: seq<Entry>, n: nat, since: nat)
    requires n <= |entries|
    ensures Past(entries[..n], since) <= Past(entries, since)
    decreases |entries| - n
  {
    if n < |entries| {
      PastPrefix(entries, n + 1, since);
      assert entries[..n + 1][..n] == entries[..n];
    } else {
      assert entries[..n] == entries;
    }
  }

  class BridgeSession {
    var eventRing: seq<Entry>
    var lastEventsCursor: nat

    function View(): Session
      reads this
    {
      Session(eventRing, lastEventsCursor)
    }

    constructor ()
      ensures View() == Session([], 0)
    {
      eventRing, lastEventsCursor := [], 0;
    }

    method OnObs(o: Obs)
      modifies this
      ensures View() == Received(old(View()), o)
    {
      var base := BaseCursor(View(), o);
      var cursor := base;
      ghost var all := Numbered(base, o.events);
      for n := 0 to |o.events|
        invariant cursor == base + n && lastEventsCursor == old(lastEventsCursor)
        invariant eventRing == old(eventRing) + all[..n]
      {
        cursor := cursor + 1;
        assert all[..n + 1] == all[..n] + [all[n]];
        eventRing := eventRing + [Entry(cursor, o.events[n])];
      }
      assert all[..|o.events|] == all;
      lastEventsCursor := if o.cursor > 0 then o.cursor else cursor;
      if |eventRing| > LOG_SIZE {
        eventRing := eventRing[|eventRing| - LOG_SIZE..];
      }
    }

    /** The local path: the first entries past `since`, up to the limit, and the cursor to continue from. */
    method GetEvents(since: nat, limit: int) returns (out: seq<Entry>, next: nat)
      ensures |out| == Min(if limit <= 0 then 100 else Min(limit, 1000), |Past(eventRing, since)|)
      ensures out <= Past(eventRing, since)
      ensures next == if out == [] then since else out[|out| - 1].cursor
    {
      var most := ClampLimit(limit);
      out := [];
      var n := 0;
      while n < |eventRing| && |out| < most
        invariant n <= |eventRing| && |out| <= most && out == Past(eventRing[..n], since)
      {
        assert eventRing[..n + 1][..n] == eventRing[..n];
        if eventRing[n].cursor > since {
          out := out + [eventRing[n]];
        }
        n := n + 1;
      }
      PastPrefix(eventRing, n, since);
      assert n == |eventRing| ==> eventRing[..n] == eventRing;
      next := if out == [] then since else out[|out| - 1].cursor;
    }
  }

  /** The answers are the entries past the cursor, none left out. */
  lemma {:induction false} PastMembers(entries: seq<Entry>, since: nat)
    ensures forall e :: e in Past(entries, since) <==> e in entries && e.cursor > since
  {
    if entries != [] {
      var n := |entries| - 1;
      PastMembers(entries[..n], since);
      assert entries == entries[..n] + [entries[n]];
    }
  }

  lemma TruthfulAppend(entries: seq<Entry>, e: Entry, history: seq<Event>)
    requires Truthful(entries, history) && 1 <= e.cursor <= |history| && e.event == history[e.cursor - 1]
    requires forall x :: x in entries ==> x.cursor < e.cursor
    ensures Truthful(entries + [e], history)
  {
  }

  lemma TruthfulSplit(entries: seq<Entry>, history: seq<Event>)
    requires entries != [] && Truthful(entries, history)
    ensures var n := |entries| - 1;
            && Truthful(entries[..n], history)
            && (forall x :: x in entries[..n] ==> x.cursor < entries[n].cursor)
            && 1 <= entries[n].cursor <= |history| && entries[n].event == history[entries[n].cursor - 1]
  {
  }

  /** On a truthful ring the local answers are truthful. */
  lemma {:induction false} PastIsTruthful(entries: seq<Entry>, since: nat, history: seq<Event>)
    requires Truthful(entries, history)
    ensures Truthful(Past(entries, since), history)
  {
    if entries != [] {
      var n := |entries| - 1;
      TruthfulSplit(entries, history);
      PastIsTruthful(entries[..n], since, history);
      PastMembers(entries[..n], since);
      if entries[n].cursor > since {
        TruthfulAppend(Past(entries[..n], since), entries[n], history);
      }
    }
  }
}
