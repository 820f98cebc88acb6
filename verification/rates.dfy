/** Fixed-window rate limits, over whole runs of requests. */
module RateLimits {
  import opened Common

  datatype Window = Window(start: nat, count: nat)
  datatype Verdict = Verdict(w: Window, ok: bool, cooldown: int)

  /** Ticks are 64-bit words and subtract as such. */
  function Elapsed(now: nat, start: nat): int {
    if now >= start then now - start else now - start + UINT64
  }

  function Allow(now: nat, w: Window, window: nat, max: int): Verdict {
    if window == 0 || max <= 0 then Verdict(w, true, 0)
    else
      var w1 := if Elapsed(now, w.start) >= window then Window(now, 0) else w;
      var w2 := w1.(count := w1.count + 1);
      if w2.count <= max then Verdict(w2, true, 0) else Verdict(w2, false, w2.start + window - now)
  }

  /** Without a window or a quota everything is admitted and nothing counted. Otherwise a window that has run for
      `window` ticks makes way for a new one, a request counts in any case, it is admitted while the count is within
      the quota, and a refusal names the ticks left of the window. */
  lemma AllowMeans(now: nat, w: Window, window: nat, max: int)
    requires now < UINT64 && w.start < UINT64
    ensures window == 0 || max < 1 ==> Allow(now, w, window, max) == Verdict(w, true, 0)
    ensures window > 0 && max >= 1 ==>
              var over := (now - w.start) % 0x1_0000_0000_0000_0000 >= window;
              var start, used := if over then now else w.start, if over then 0 else w.count;
              Allow(now, w, window, max)
              == Verdict(Window(start, used + 1), used < max, if used < max then 0 else start + window - now)
  {
  }

  /** One agent's limit for one kind of action: absent until the first request opens it. */
  datatype Limiter = Limiter(w: Option<Window>, admitted: seq<nat>)

  function Request(l: Limiter, now: nat, window: nat, max: int): Verdict {
    Allow(now, if l.w.Some? then l.w.value else Window(now, 0), window, max)
  }

  function Requested(l: Limiter, now: nat, window: nat, max: int): Limiter {
    var v := Request(l, now, window, max);
    Limiter(Some(v.w), if v.ok then l.admitted + [now] else l.admitted)
  }

  /** Serves the requests in order and keeps the ticks of the admitted ones. */
  function Serve(ticks: seq<nat>, window: nat, max: int): Limiter {
    if ticks == [] then Limiter(None, [])
    else Requested(Serve(ticks[..|ticks| - 1], window, max), ticks[|ticks| - 1], window, max)
  }

  function CountIn(h: seq<nat>, from: int, to: int): nat {
    if h == [] then 0
    else CountIn(h[..|h| - 1], from, to) + if from <= h[|h| - 1] <= to then 1 else 0
  }

  lemma CountAppend(h: seq<nat>, t: nat, from: int, to: int)
    ensures CountIn(h + [t], from, to) == CountIn(h, from, to) + if from <= t <= to then 1 else 0
  {
    assert (h + [t])[..|h|] == h;
  }

  lemma {:induction false} CountSplits(h: seq<nat>, from: int, mid: int, to: int)
    requires from <= mid <= to + 1
    ensures CountIn(h, from, to) == CountIn(h, from, mid - 1) + CountIn(h, mid, to)
  {
    if h != [] {
      CountSplits(h[..|h| - 1], from, mid, to);
    }
  }

  lemma {:induction false} CountMonotone(h: seq<nat>, from: int, to: int, from': int, to': int)
    requires from' <= from && to <= to'
    ensures CountIn(h, from, to) <= CountIn(h, from', to')
  {
    if h != [] {
      CountMonotone(h[..|h| - 1], from, to, from', to');
    }
  }

  lemma {:induction false} CountNone(h: seq<nat>, from: int, to: int, bound: int)
    requires from > bound && forall j :: 0 <= j < |h| ==> h[j] <= bound
    ensures CountIn(h, from, to) == 0
  {
    if h != [] {
      CountNone(h[..|h| - 1], from, to, bound);
    }
  }

  // ----- the bound

  function AtMost(count: nat, max: nat): nat {
    if count <= max then count else max
  }

  /** The most that a span of window length ever admits. */
  function SpanBound(window: nat, max: nat): int {
    if window == 1 then max else 2 * max - 1
  }

  /** The window is open at `last`, the latest request. */
  ghost predicate Current(w: Window, h: seq<nat>, last: nat, window: nat) {
    w.count >= 1 && w.start <= last < w.start + window && forall j :: 0 <= j < |h| ==> h[j] <= last
  }

  /** A window never admits more than max, and its opening request takes one of them at the very start. */
  ghost predicate Quota(w: Window, h: seq<nat>, max: nat) {
    && (forall to :: CountIn(h, w.start, to) <= AtMost(w.count, max))
    && (forall from, to :: from > w.start ==> CountIn(h, from, to) <= AtMost(w.count, max) - 1)
  }

  /** So the stretch just before a window holds at most max - 1. */
  ghost predicate Before(w: Window, h: seq<nat>, window: nat, max: nat) {
    forall from, to :: w.start - window < from && to < w.start ==> CountIn(h, from, to) <= max - 1
  }

  ghost predicate Spans(h: seq<nat>, window: nat, max: nat) {
    forall from, to :: to < from + window ==> CountIn(h, from, to) <= SpanBound(window, max)
  }

  ghost predicate Bounded(w: Window, h: seq<nat>, last: nat, window: nat, max: nat) {
    Current(w, h, last, window) && Quota(w, h, max) && Before(w, h, window, max) && Spans(h, window, max)
  }

  lemma OpenBounded(now: nat, window: nat, max: nat)
    requires window > 0 && max > 0
    ensures Bounded(Window(now, 1), [now], now, window, max)
  {
    assert [now][..0] == [];
    assert forall from, to :: CountIn([now], from, to) == if from <= now <= to then 1 else 0;
  }

  /** One more admitted request, as counted in any span. */
  ghost predicate OneMore(h: seq<nat>, h': seq<nat>, now: nat) {
    forall from, to :: CountIn(h', from, to) == CountIn(h, from, to) + if from <= now <= to then 1 else 0
  }

  lemma AppendIsOneMore(h: seq<nat>, now: nat)
    ensures OneMore(h, h + [now], now)
  {
    forall from, to
      ensures CountIn(h + [now], from, to) == CountIn(h, from, to) + if from <= now <= to then 1 else 0
    {
      CountAppend(h, now, from, to);
    }
  }

  lemma {:induction false} CountEmpty(h: seq<nat>, from: int, to: int)
    requires to < from
    ensures CountIn(h, from, to) == 0
  {
    if h != [] {
      CountEmpty(h[..|h| - 1], from, to);
    }
  }

  lemma SpanInWindow(w: Window, h: seq<nat>, window: nat, max: nat, from: int, to: int)
    requires window > 0 && max > 0 && 0 < w.count && Quota(w, h, max) && Before(w, h, window, max)
    requires from <= w.start + window - 1 && w.start <= to < from + window
    ensures CountIn(h, from, to) <= SpanBound(window, max)
  {
    if from > w.start {
      assert CountIn(h, from, to) <= AtMost(w.count, max) - 1;
    } else {
      CountSplits(h, from, w.start, to);
      if from == w.start {
        CountEmpty(h, from, w.start - 1);
      }
    }
  }

  lemma SameWindowSpans(w: Window, h: seq<nat>, h': seq<nat>, now: nat, window: nat, max: nat)
    requires window > 0 && max > 0 && 0 < w.count && Spans(h, window, max) && OneMore(h, h', now)
    requires w.start <= now < w.start + window && Quota(w, h', max) && Before(w, h', window, max)
    ensures Spans(h', window, max)
  {
    forall from, to | to < from + window ensures CountIn(h', from, to) <= SpanBound(window, max) {
      if from <= now <= to {
        SpanInWindow(w, h', window, max, from, to);
      }
    }
  }

  lemma SameWindowBounded(w: Window, h: seq<nat>, last: nat, now: nat, window: nat, max: nat)
    requires window > 0 && max > 0 && Bounded(w, h, last, window, max) && last <= now < w.start + window
    ensures var w' := w.(count := w.count + 1);
            Bounded(w', if w'.count <= max then h + [now] else h, now, window, max)
  {
    var w' := w.(count := w.count + 1);
    if w'.count <= max {
      AppendIsOneMore(h, now);
      SameWindowSpans(w', h, h + [now], now, window, max);
    }
  }

  lemma NewWindowSpans(w: Window, h: seq<nat>, h': seq<nat>, last: nat, now: nat, window: nat, max: nat)
    requires window > 0 && max > 0 && Spans(h, window, max) && OneMore(h, h', now)
    requires Before(Window(now, 1), h, window, max) && last < now && forall j :: 0 <= j < |h| ==> h[j] <= last
    ensures Spans(h', window, max)
  {
    forall from, to | to < from + window ensures CountIn(h', from, to) <= SpanBound(window, max) {
      if from <= now <= to {
        CountSplits(h, from, now, to);
        CountNone(h, now, to, last);
        if from == now {
          CountEmpty(h, from, now - 1);
        }
      }
    }
  }

  lemma NewWindowBounded(w: Window, h: seq<nat>, last: nat, now: nat, window: nat, max: nat)
    requires window > 0 && max > 0 && Bounded(w, h, last, window, max) && w.start + window <= now
    ensures Bounded(Window(now, 1), h + [now], now, window, max)
  {
    AppendIsOneMore(h, now);
    forall from, to | from >= now ensures CountIn(h, from, to) == 0 {
      CountNone(h, from, to, last);
    }
    forall from, to | from > now - window ensures CountIn(h, from, to) <= max - 1 {
      assert from > w.start;
    }
    NewWindowSpans(w, h, h + [now], last, now, window, max);
  }

  lemma StepBounded(l: Limiter, last: nat, now: nat, window: nat, max: nat)
    requires window > 0 && max > 0 && last <= now < UINT64
    requires l.w.Some? && Bounded(l.w.value, l.admitted, last, window, max)
    ensures var m := Requested(l, now, window, max); m.w.Some? && Bounded(m.w.value, m.admitted, now, window, max)
  {
    var w := l.w.value;
    if Elapsed(now, w.start) >= window {
      NewWindowBounded(w, l.admitted, last, now, window, max);
    } else {
      SameWindowBounded(w, l.admitted, last, now, window, max);
    }
  }

  ghost predicate Ordered(ticks: seq<nat>) {
    && (forall j :: 0 <= j < |ticks| ==> ticks[j] < UINT64)
    && (forall j, k :: 0 <= j <= k < |ticks| ==> ticks[j] <= ticks[k])
  }

  lemma ServeStep(ticks: seq<nat>, now: nat, window: nat, max: int, longer: seq<nat>)
    requires longer == ticks + [now]
    ensures Serve(longer, window, max) == Requested(Serve(ticks, window, max), now, window, max)
  {
    assert longer[..|longer| - 1] == ticks;
  }

  lemma FirstServed(ticks: seq<nat>, window: nat, max: nat)
    requires window > 0 && max > 0 && |ticks| == 1
    ensures Serve(ticks, window, max) == Limiter(Some(Window(ticks[0], 1)), ticks)
  {
    ServeStep([], ticks[0], window, max, ticks);
    assert Serve([], window, max) == Limiter(None, []);
    assert Elapsed(ticks[0], ticks[0]) == 0;
    assert [] + [ticks[0]] == ticks;
  }

  lemma {:induction false} RunBounded(ticks: seq<nat>, window: nat, max: nat)
    requires window > 0 && max > 0 && Ordered(ticks) && ticks != []
    ensures var l := Serve(ticks, window, max);
            l.w.Some? && Bounded(l.w.value, l.admitted, ticks[|ticks| - 1], window, max)
  {
    var n := |ticks| - 1;
    if n == 0 {
      FirstServed(ticks, window, max);
      OpenBounded(ticks[0], window, max);
    } else {
      RunBounded(ticks[..n], window, max);
      StepBounded(Serve(ticks[..n], window, max), ticks[n - 1], ticks[n], window, max);
    }
  }

  /** Over every run of requests at nondecreasing ticks, no span of `window` ticks admits more than the bound:
      `max` for a window of one tick, `2 * max - 1` for any longer one. */
  lemma SpansAdmitFewerThanTwice(ticks: seq<nat>, window: nat, max: nat, from: int, to: int)
    requires window > 0 && max > 0 && Ordered(ticks) && to < from + window
    ensures CountIn(Serve(ticks, window, max).admitted, from, to) <= SpanBound(window, max)
  {
    if ticks != [] {
      RunBounded(ticks, window, max);
    }
  }

  // ----- the bound is met

  function Burst(t: nat, n: nat): seq<nat> {
    if n == 0 then [] else Burst(t, n - 1) + [t]
  }

  lemma {:induction false} BurstAt(t: nat, n: nat, j: nat)
    ensures |Burst(t, n)| == n && (j < n ==> Burst(t, n)[j] == t)
  {
    if n > 0 {
      BurstAt(t, n - 1, j);
    }
  }

  lemma {:induction false} CountBurst(h: seq<nat>, t: nat, n: nat, from: int, to: int, longer: seq<nat>)
    requires longer == h + Burst(t, n)
    ensures CountIn(longer, from, to) == CountIn(h, from, to) + if from <= t <= to then n else 0
    decreases n
  {
    if n == 0 {
      assert longer == h;
    } else {
      var shorter := h + Burst(t, n - 1);
      assert longer == shorter + [t];
      CountBurst(h, t, n - 1, from, to, shorter);
      CountAppend(shorter, t, from, to);
    }
  }

  /** A limiter after `n` requests at one tick. */
  function AfterBurst(l: Limiter, t: nat, n: nat, window: nat, max: int): Limiter {
    if n == 0 then l else Requested(AfterBurst(l, t, n - 1, window, max), t, window, max)
  }

  /** A burst that fits what is left of an open window is admitted whole. */
  lemma {:induction false} BurstFits(l: Limiter, t: nat, n: nat, window: nat, max: nat, start: nat, count: nat)
    requires window > 0 && Elapsed(t, start) < window && count + n <= max && l.w == Some(Window(start, count))
    ensures AfterBurst(l, t, n, window, max) == Limiter(Some(Window(start, count + n)), l.admitted + Burst(t, n))
    decreases n
  {
    if n == 0 {
      assert l.admitted + Burst(t, 0) == l.admitted;
    } else {
      BurstFits(l, t, n - 1, window, max, start, count);
      assert l.admitted + Burst(t, n) == l.admitted + Burst(t, n - 1) + [t];
    }
  }

  lemma {:induction false} ServeBurst(ticks: seq<nat>, t: nat, n: nat, window: nat, max: int, longer: seq<nat>)
    requires longer == ticks + Burst(t, n)
    ensures Serve(longer, window, max) == AfterBurst(Serve(ticks, window, max), t, n, window, max)
    decreases n
  {
    if n == 0 {
      assert longer == ticks;
    } else {
      assert longer == ticks + Burst(t, n - 1) + [t];
      ServeBurst(ticks, t, n - 1, window, max, ticks + Burst(t, n - 1));
      ServeStep(ticks + Burst(t, n - 1), t, window, max, longer);
    }
  }

  /** All of `ticks` is admitted, and the limiter ends in this window. */
  ghost predicate AllAdmitted(ticks: seq<nat>, window: nat, max: nat, w: Window) {
    Serve(ticks, window, max) == Limiter(Some(w), ticks)
  }

  lemma BurstAdmitted(ticks: seq<nat>, t: nat, n: nat, window: nat, max: nat, w: Window, longer: seq<nat>)
    requires window > 0 && Elapsed(t, w.start) < window && w.count + n <= max && AllAdmitted(ticks, window, max, w)
    requires longer == ticks + Burst(t, n)
    ensures AllAdmitted(longer, window, max, w.(count := w.count + n))
  {
    ServeBurst(ticks, t, n, window, max, longer);
    BurstFits(Serve(ticks, window, max), t, n, window, max, w.start, w.count);
  }

  lemma OpeningAdmitted(ticks: seq<nat>, t: nat, window: nat, max: nat, w: Window, longer: seq<nat>)
    requires window > 0 && max > 0 && Elapsed(t, w.start) >= window && AllAdmitted(ticks, window, max, w)
    requires longer == ticks + [t]
    ensures AllAdmitted(longer, window, max, Window(t, 1))
  {
    ServeStep(ticks, t, window, max, longer);
  }

  /** One request opens a window and the rest of its quota comes at its end. */
  function Half(window: nat, max: nat): seq<nat>
    requires window >= 1 && max >= 1
  {
    [0] + Burst(window - 1, max - 1)
  }

  /** And then a full quota follows in the next window. */
  function Tightest(window: nat, max: nat): seq<nat>
    requires window >= 1 && max >= 1
  {
    if window == 1 then Half(window, max) else Half(window, max) + [window] + Burst(window, max - 1)
  }

  lemma HalfAdmitted(window: nat, max: nat)
    requires 1 <= window < UINT64 && max >= 1
    ensures AllAdmitted(Half(window, max), window, max, Window(0, max))
  {
    FirstServed([0], window, max);
    assert AllAdmitted([0], window, max, Window(0, 1));
    BurstAdmitted([0], window - 1, max - 1, window, max, Window(0, 1), Half(window, max));
  }

  lemma TightestAdmitted(window: nat, max: nat)
    requires 1 <= window < UINT64 && max >= 1
    ensures Serve(Tightest(window, max), window, max).admitted == Tightest(window, max)
  {
    HalfAdmitted(window, max);
    if window > 1 {
      var next := Half(window, max) + [window];
      OpeningAdmitted(Half(window, max), window, window, max, Window(0, max), next);
      BurstAdmitted(next, window, max - 1, window, max, Window(window, 1), Tightest(window, max));
    }
  }

  lemma HalfAt(window: nat, max: nat, j: nat)
    requires window >= 1 && max >= 1
    ensures |Half(window, max)| == max && (j < max ==> Half(window, max)[j] == if j == 0 then 0 else window - 1)
  {
    BurstAt(window - 1, max - 1, if j == 0 then 0 else j - 1);
  }

  lemma TightestAt(window: nat, max: nat, j: nat)
    requires window >= 2 && max >= 1
    ensures |Tightest(window, max)| == 2 * max
    ensures j < 2 * max ==> Tightest(window, max)[j] == if j == 0 then 0 else if j < max then window - 1 else window
  {
    HalfAt(window, max, j);
    BurstAt(window, max - 1, if j <= max then 0 else j - max - 1);
  }

  lemma TightestOrdered(window: nat, max: nat)
    requires 1 <= window < UINT64 && max >= 1
    ensures Ordered(Tightest(window, max))
  {
    var ticks := Tightest(window, max);
    if window == 1 {
      forall j: nat ensures |ticks| == max && (j < max ==> ticks[j] == 0) {
        HalfAt(window, max, j);
      }
    } else {
      forall j: nat
        ensures |ticks| == 2 * max
        ensures j < 2 * max ==> ticks[j] == if j == 0 then 0 else if j < max then window - 1 else window
      {
        TightestAt(window, max, j);
      }
    }
  }

  lemma TightestCount(window: nat, max: nat, from: nat, to: nat)
    requires window >= 1 && max >= 1 && from == window - 1 && to == 2 * window - 2
    ensures CountIn(Tightest(window, max), from, to) == SpanBound(window, max)
  {
    var next := Half(window, max) + [window];
    assert CountIn([0], from, to) == if window == 1 then 1 else 0;
    CountBurst([0], window - 1, max - 1, from, to, Half(window, max));
    if window > 1 {
      CountAppend(Half(window, max), window, from, to);
      CountBurst(next, window, max - 1, from, to, Tightest(window, max));
    }
  }

  /** The bound is met, for every window and every quota. */
  lemma SpanBoundIsTight(window: nat, max: nat)
    requires 1 <= window < UINT64 && max >= 1
    ensures Ordered(Tightest(window, max))
    ensures CountIn(Serve(Tightest(window, max), window, max).admitted, window - 1, 2 * window - 2)
         == SpanBound(window, max)
  {
    TightestAdmitted(window, max);
    TightestOrdered(window, max);
    TightestCount(window, max, window - 1, 2 * window - 2);
  }

  // ----- the cooldown

  /** Serves further requests. */
  function ServeMore(l: Limiter, ticks: seq<nat>, window: nat, max: int): Limiter {
    if ticks == [] then l
    else Requested(ServeMore(l, ticks[..|ticks| - 1], window, max), ticks[|ticks| - 1], window, max)
  }

  /** A window past its quota stays shut, and unmoved, until it runs out. */
  lemma {:induction false} ShutUntilItEnds(l: Limiter, ticks: seq<nat>, window: nat, max: nat)
    requires window > 0 && max > 0 && l.w.Some? && l.w.value.count >= max
    requires forall j :: 0 <= j < |ticks| ==>
               l.w.value.start <= ticks[j] < l.w.value.start + window && ticks[j] < UINT64
    ensures var m := ServeMore(l, ticks, window, max);
            m.w.Some? && m.w.value.start == l.w.value.start && m.w.value.count >= max && m.admitted == l.admitted
  {
    if ticks != [] {
      ShutUntilItEnds(l, ticks[..|ticks| - 1], window, max);
    }
  }

  /** A reported cooldown is exact: through any further requests every one before it ends is denied, and the
      next one at or after its end is admitted. */
  lemma CooldownIsExact(l: Limiter, now: nat, ticks: seq<nat>, next: nat, window: nat, max: nat)
    requires window > 0 && max > 0 && l.w.Some? && l.w.value.start <= now < UINT64
    requires !Request(l, now, window, max).ok
    requires var ends := now + Request(l, now, window, max).cooldown;
             && (forall j :: 0 <= j < |ticks| ==> now <= ticks[j] < ends && ticks[j] < UINT64)
             && now <= next < UINT64
    ensures 0 < Request(l, now, window, max).cooldown <= window
    ensures var ends := now + Request(l, now, window, max).cooldown;
            var m := ServeMore(Requested(l, now, window, max), ticks, window, max);
            && m.admitted == l.admitted
            && (Request(m, next, window, max).ok <==> next >= ends)
  {
    var shut := Requested(l, now, window, max);
    assert Elapsed(now, l.w.value.start) == now - l.w.value.start;
    ShutUntilItEnds(shut, ticks, window, max);
    var m := ServeMore(shut, ticks, window, max);
    assert Elapsed(next, m.w.value.start) == next - m.w.value.start;
  }

  class AgentLimits {
    var windows: map<string, Window>

    constructor ()
      ensures windows == map[]
    {
      windows := map[];
    }

    method RateLimitAllow(kind: string, now: nat, window: nat, max: int) returns (ok: bool, cooldown: int)
      modifies this
      ensures var v := Allow(now, if kind in old(windows) then old(windows)[kind] else Window(now, 0), window, max);
              ok == v.ok && cooldown == v.cooldown && windows == old(windows)[kind := v.w]
    {
      if kind !in windows {
        windows := windows[kind := Window(now, 0)];
      }
      var w := windows[kind];
      if window == 0 || max <= 0 {
        return true, 0;
      }
      if Elapsed(now, w.start) >= window {
        w := Window(now, 0);
      }
      w := w.(count := w.count + 1);
      windows := windows[kind := w];
      if w.count <= max {
        return true, 0;
      }
      return false, w.start + window - now;
    }
  }
}
