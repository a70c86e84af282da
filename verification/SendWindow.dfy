/** dht_crawler.py, allow_send: at most 40 packets per address in each window of 10 seconds. */
module SendWindow {
  import opened BoundedRecentMap

  const WINDOW_SECONDS := 10.0
  const MAX_PACKETS := 40
  const WINDOW_ENTRIES := 65536

  type Ip = nat
  datatype Window = Window(start: real, count: nat)

  /** What one call does to the window of its address: None means the packet is throttled. */
  function Step(w: Window, now: real): (Window, bool) {
    if now - w.start >= WINDOW_SECONDS then (Window(now, 1), true)
    else if w.count >= MAX_PACKETS then (w, false)
    else (Window(w.start, w.count + 1), true)
  }

  type Windows = RawDict<Ip, Window>

  /** What one call does to the table of all windows: a new window is remembered, and may push out the oldest one. */
  function Allowed(d: Windows, ip: Ip, now: real): (Windows, bool) {
    if ip !in d.m || now - d.m[ip].start >= WINDOW_SECONDS then (Remembered(d, ip, Window(now, 1), WINDOW_ENTRIES), true)
    else if d.m[ip].count >= MAX_PACKETS then (d, false)
    else (Put(d, ip, Window(d.m[ip].start, d.m[ip].count + 1)), true)
  }

  /** The invariant of the table. */
  ghost predicate TableOk(d: Windows) {
    Ordered(d) && |d.keys| <= WINDOW_ENTRIES && forall ip :: ip in d.m ==> 1 <= d.m[ip].count <= MAX_PACKETS
  }

  class SendLimiter {
    var windows: Windows

    ghost predicate Valid()
      reads this
    {
      TableOk(windows)
    }

    constructor ()
      ensures Valid() && windows.m == map[]
    {
      windows := Empty();
    }

    method AllowSend(ip: Ip, now: real) returns (allowed: bool)
      requires Valid()
      modifies this
      ensures Valid()
      ensures (windows, allowed) == Allowed(old(windows), ip, now)
      ensures ip !in old(windows.m) ==> allowed && ip in windows.m && windows.m[ip] == Window(now, 1)
      ensures ip in old(windows.m) ==> ip in windows.m && (windows.m[ip], allowed) == Step(old(windows.m[ip]), now)
      // other addresses keep their windows, but for the oldest one when the table is full
      ensures forall x :: x != ip && x in windows.m ==> x in old(windows.m) && windows.m[x] == old(windows.m[x])
      ensures windows.keys == old(windows.keys) || windows.keys == RememberedKeys(old(windows.keys), ip, WINDOW_ENTRIES)
    {
      hide Ordered, Remembered;
      if ip !in windows.m || now - windows.m[ip].start >= WINDOW_SECONDS {
        var isNew;
        windows, isNew := Remember(windows, ip, Window(now, 1), WINDOW_ENTRIES);
        return true;
      }
      var w := windows.m[ip];
      if w.count >= MAX_PACKETS { return false; }
      windows := Put(windows, ip, Window(w.start, w.count + 1));
      assert windows.m.Keys == old(windows.m.Keys);
      allowed := true;
    }
  }

  // ----- one address over a run in which its window is not evicted

  /** A packet that was let through: when, and its place in its window. */
  datatype Sent = Sent(time: real, start: real, place: nat)

  /** The packets let through, and the window at the end, when calls come at the given times. */
  function Run(w: Window, times: seq<real>): (Window, seq<Sent>) {
    if times == [] then (w, [])
    else
      var (w1, log) := Run(w, times[..|times| - 1]);
      var now := times[|times| - 1];
      var (w2, allowed) := Step(w1, now);
      (w2, if allowed then log + [Sent(now, w2.start, w2.count)] else log)
  }

  /** The first call of a run opens the window. */
  function RunFrom(first: real, times: seq<real>): (Window, seq<Sent>) {
    var (w, log) := Run(Window(first, 1), times);
    (w, [Sent(first, first, 1)] + log)
  }

  predicate Monotone(first: real, times: seq<real>) {
    forall i, j :: 0 <= i <= j < |times| ==> first <= times[i] <= times[j]
  }

  /** Each packet continues the window of the one before it, or opens one at least 10 s after that window's start. */
  ghost predicate Chained(log: seq<Sent>) {
    && (forall i :: 0 <= i < |log| ==>
          1 <= log[i].place <= MAX_PACKETS && log[i].start <= log[i].time < log[i].start + WINDOW_SECONDS &&
          (log[i].place == 1 ==> log[i].time == log[i].start))
    && (forall i :: 0 <= i < |log| - 1 ==>
          log[i].time <= log[i + 1].time &&
          if log[i + 1].start == log[i].start then log[i + 1].place == log[i].place + 1
          else log[i + 1].place == 1 && log[i + 1].start >= log[i].start + WINDOW_SECONDS)
  }

  /** The log of a run, and the window it ends with. */
  ghost predicate LogOk(log: seq<Sent>, w: Window, until: real) {
    Chained(log) && log != [] && var last := log[|log| - 1]; w == Window(last.start, last.place) && last.time <= until
  }

  lemma {:induction false} RunChained(first: real, times: seq<real>)
    requires Monotone(first, times)
    ensures var (w, log) := RunFrom(first, times); LogOk(log, w, if times == [] then first else times[|times| - 1])
  {
    hide Chained, Step, LogOk, RunFrom;
    if times == [] {
      RunOpens(first);
    } else {
      var n := |times| - 1;
      var front := times[..n];
      assert Monotone(first, front);
      RunChained(first, front);
      assert (if front == [] then first else front[|front| - 1]) <= times[n];
      RunOneMore(first, front, times[n]);
      assert front + [times[n]] == times;
      var (w, log) := RunFrom(first, front);
      LogLonger(log, w, if front == [] then first else front[|front| - 1], times[n]);
    }
  }

  lemma RunOpens(first: real)
    ensures var (w, log) := RunFrom(first, []); LogOk(log, w, first)
  {
  }

  lemma LogLonger(log: seq<Sent>, w: Window, until: real, now: real)
    requires LogOk(log, w, until) && until <= now
    ensures var (w2, allowed) := Step(w, now); LogOk(if allowed then log + [Sent(now, w2.start, w2.count)] else log, w2, now)
  {
    hide Chained;
    var last := log[|log| - 1];
    LastOk(log);
    if Step(w, now).1 {
      ChainLonger(log, Sent(now, Step(w, now).0.start, Step(w, now).0.count));
    }
  }

  lemma LogChained(log: seq<Sent>, w: Window, until: real)
    requires LogOk(log, w, until)
    ensures Chained(log)
  {
  }

  lemma LastOk(log: seq<Sent>)
    requires Chained(log) && log != []
    ensures var last := log[|log| - 1]; 1 <= last.place <= MAX_PACKETS && last.start <= last.time
  {
  }

  lemma RunOneMore(first: real, times: seq<real>, now: real)
    ensures var (w, log) := RunFrom(first, times); var (w2, allowed) := Step(w, now);
            RunFrom(first, times + [now]) == (w2, if allowed then log + [Sent(now, w2.start, w2.count)] else log)
  {
    hide Step;
    assert (times + [now])[..|times|] == times;
    var (w1, log1) := Run(Window(first, 1), times);
    var s := Sent(now, Step(w1, now).0.start, Step(w1, now).0.count);
    assert [Sent(first, first, 1)] + (log1 + [s]) == [Sent(first, first, 1)] + log1 + [s];
  }

  lemma ChainLonger(log: seq<Sent>, s: Sent)
    requires Chained(log) && log != []
    requires 1 <= s.place <= MAX_PACKETS && s.start <= s.time < s.start + WINDOW_SECONDS && (s.place == 1 ==> s.time == s.start)
    requires var last := log[|log| - 1];
             last.time <= s.time &&
             if s.start == last.start then s.place == last.place + 1
             else s.place == 1 && s.start >= last.start + WINDOW_SECONDS
    ensures Chained(log + [s])
  {
  }

  /** A later packet of the same window has a later place; any other one is in a window starting 10 s later or more. */
  lemma {:induction false} LaterPacket(log: seq<Sent>, i: nat, j: nat)
    requires Chained(log) && i <= j < |log|
    ensures log[i].time <= log[j].time
    ensures if log[j].start == log[i].start then log[j].place == log[i].place + (j - i)
            else log[j].start >= log[i].start + WINDOW_SECONDS && log[j].place <= j - i
    decreases j - i
  {
    if i < j { LaterPacket(log, i, j - 1); }
  }

  /** Forty packets on, a new window has started. */
  lemma NextWindow(log: seq<Sent>, i: nat, j: nat)
    requires Chained(log) && i <= j < |log| && log[i].place + (j - i) > MAX_PACKETS
    ensures log[j].start >= log[i].start + WINDOW_SECONDS
  {
    LaterPacket(log, i, j);
  }

  /**
   * Any 80 consecutive packets take 10 s or more. So a half-open interval of 10 s never holds more than 79,
   * and one that begins with a packet that opened a window never more than 40.
   */
  lemma SpreadOut(log: seq<Sent>, i: nat, j: nat)
    requires Chained(log) && i < j < |log|
    ensures j - i >= 2 * MAX_PACKETS - 1 ==> log[j].time - log[i].time >= WINDOW_SECONDS
    ensures j - i >= MAX_PACKETS && log[i].place == 1 ==> log[j].time - log[i].time >= WINDOW_SECONDS
  {
    if log[i].place == 1 {
      if j - i >= MAX_PACKETS { NextWindow(log, i, j); }
    } else if j - i >= 2 * MAX_PACKETS - 1 {
      var mid := i + (MAX_PACKETS + 1 - log[i].place);
      NextWindow(log, i, mid);
      LaterPacket(log, i, mid);
      NextWindow(log, mid, j);
    }
  }

  /** Packets lo..hi of the log all fall into [t, t + 10). */
  ghost predicate AllWithin(log: seq<Sent>, lo: nat, hi: nat, t: real)
    requires lo <= hi <= |log|
  {
    forall k :: lo <= k < hi ==> t <= log[k].time < t + WINDOW_SECONDS
  }

  lemma AtMost79(first: real, times: seq<real>, lo: nat, hi: nat, t: real)
    requires Monotone(first, times)
    requires lo <= hi <= |RunFrom(first, times).1| && AllWithin(RunFrom(first, times).1, lo, hi, t)
    ensures hi - lo <= 2 * MAX_PACKETS - 1
    ensures lo < hi && RunFrom(first, times).1[lo].place == 1 ==> hi - lo <= MAX_PACKETS
  {
    RunChained(first, times);
    LogChained(RunFrom(first, times).1, RunFrom(first, times).0, if times == [] then first else times[|times| - 1]);
    if hi - lo >= 2 {
      SpreadOut(RunFrom(first, times).1, lo, hi - 1);
    }
  }

  // ----- exactly when an interval of 10 s stays within 40

  /** Calls in order, all of them in [t, t + 10). */
  ghost predicate Schedule(t: real, times: seq<real>) {
    Monotone(t, times) && forall i :: 0 <= i < |times| ==> times[i] < t + WINDOW_SECONDS
  }

  /** What is left of a window. */
  function Left(w: Window): nat {
    if w.count >= MAX_PACKETS then 0 else MAX_PACKETS - w.count
  }

  /** The most packets that [t, t + 10) can let through, from the window at its beginning. */
  function Most(w: Window, t: real): nat {
    if t - w.start >= WINDOW_SECONDS then MAX_PACKETS
    else if t <= w.start then Left(w)
    else Left(w) + MAX_PACKETS
  }

  /** No schedule lets more through: at most one new window opens, and none if the old one outlasts the interval. */
  lemma {:induction false} NeverMore(w: Window, t: real, times: seq<real>)
    requires Schedule(t, times)
    ensures var (w1, log) := Run(w, times);
            |log| <= Most(w, t) &&
            if w1.start == w.start then w1.count == w.count + |log| && |log| <= Left(w)
            else t <= w1.start && w.start + WINDOW_SECONDS <= w1.start < t + WINDOW_SECONDS && w1.count <= MAX_PACKETS &&
                 |log| <= w1.count + (if t - w.start >= WINDOW_SECONDS then 0 else Left(w))
  {
    if times != [] {
      var n := |times| - 1;
      assert Schedule(t, times[..n]);
      NeverMore(w, t, times[..n]);
      assert t <= times[n] < t + WINDOW_SECONDS;
    }
  }

  /** And one schedule lets as many through. */
  lemma MostReached(w: Window, t: real) returns (times: seq<real>)
    ensures Schedule(t, times) && |Run(w, times).1| == Most(w, t)
  {
    hide Run;
    RunNothing(w);
    if t - w.start >= WINDOW_SECONDS {
      times := FreshWindow(w, t, []);
    } else {
      RunAtOnce(w, t, [], Left(w));
      times := [] + Repeat(t, Left(w));
      if t > w.start {
        times := FreshWindow(w, w.start + WINDOW_SECONDS, times);
      }
    }
  }

  lemma RunNothing(w: Window)
    ensures Run(w, []) == (w, [])
  {
  }

  /** A new window opened at t and used up at once. */
  lemma FreshWindow(w: Window, t: real, before: seq<real>) returns (times: seq<real>)
    requires t - Run(w, before).0.start >= WINDOW_SECONDS
    ensures times == before + Repeat(t, MAX_PACKETS) && |Run(w, times).1| == |Run(w, before).1| + MAX_PACKETS
  {
    var newer := before + [t];
    assert newer[..|newer| - 1] == before;
    RunAtOnce(w, t, newer, MAX_PACKETS - 1);
    times := newer + Repeat(t, MAX_PACKETS - 1);
    assert times == before + Repeat(t, MAX_PACKETS);
  }

  /**
   * [t, t + 10) stays within 40 packets whatever is asked of it, if and only if at t the window is over, used up, or
   * no older than t.
   */
  lemma FortyIff(w: Window, t: real)
    ensures (forall times :: Schedule(t, times) ==> |Run(w, times).1| <= MAX_PACKETS) <==>
            (t - w.start >= WINDOW_SECONDS || w.count >= MAX_PACKETS || t <= w.start)
  {
    hide Run, Schedule;
    if t - w.start >= WINDOW_SECONDS || w.count >= MAX_PACKETS || t <= w.start {
      forall times | Schedule(t, times) ensures |Run(w, times).1| <= MAX_PACKETS { NeverMore(w, t, times); }
    } else {
      var times := MostReached(w, t);
    }
  }

  // ----- many addresses sharing one table

  datatype Call = Call(ip: Ip, now: real)

  /** The table after the calls, and which of them were let through. */
  function Calls(d: Windows, calls: seq<Call>): (r: (Windows, seq<bool>))
    ensures |r.1| == |calls|
  {
    if calls == [] then (d, [])
    else
      var (d1, log) := Calls(d, calls[..|calls| - 1]);
      var (d2, ok) := Allowed(d1, calls[|calls| - 1].ip, calls[|calls| - 1].now);
      (d2, log + [ok])
  }

  function TimesOf(calls: seq<Call>, ip: Ip): seq<real> {
    if calls == [] then []
    else
      var last := calls[|calls| - 1];
      TimesOf(calls[..|calls| - 1], ip) + if last.ip == ip then [last.now] else []
  }

  /** When packets to ip were let through. */
  function PacketsTo(calls: seq<Call>, log: seq<bool>, ip: Ip): seq<real>
    requires |calls| == |log|
  {
    if calls == [] then []
    else
      var n := |calls| - 1;
      PacketsTo(calls[..n], log[..n], ip) + if calls[n].ip == ip && log[n] then [calls[n].now] else []
  }

  function Moments(log: seq<Sent>): (r: seq<real>)
    ensures |r| == |log| && forall i :: 0 <= i < |r| ==> r[i] == log[i].time
  {
    seq(|log|, i requires 0 <= i < |log| => log[i].time)
  }

  /** How many windows other addresses opened. */
  function OpenedByOthers(d: Windows, calls: seq<Call>, ip: Ip): nat {
    if calls == [] then 0
    else
      var n := |calls| - 1;
      var x := calls[n];
      var w := Calls(d, calls[..n]).0;
      OpenedByOthers(d, calls[..n], ip) + if x.ip != ip && (x.ip !in w.m || x.now - w.m[x.ip].start >= WINDOW_SECONDS) then 1 else 0
  }

  /** At most n keys from ip to the end, ip counted. */
  ghost predicate Behind(keys: seq<Ip>, ip: Ip, n: nat) {
    exists p :: 0 <= p < |keys| && keys[p] == ip && |keys| - p <= n
  }

  lemma AllowedKeepsTable(d: Windows, ip: Ip, now: real)
    requires TableOk(d)
    ensures TableOk(Allowed(d, ip, now).0)
  {
    hide Remembered, Ordered, Distinct;
    RememberedShape(d, ip, Window(now, 1), WINDOW_ENTRIES);
    if ip in d.m && d.m[ip].count < MAX_PACKETS {
      assert Put(d, ip, Window(d.m[ip].start, d.m[ip].count + 1)).keys == d.keys;
    }
  }

  /** The table never outgrows its limit, in any run. */
  lemma {:induction false} CallsKeepTable(d: Windows, calls: seq<Call>)
    requires TableOk(d)
    ensures TableOk(Calls(d, calls).0)
    decreases |calls|
  {
    hide TableOk, Allowed;
    if calls != [] {
      CallsKeepTable(d, calls[..|calls| - 1]);
      AllowedKeepsTable(Calls(d, calls[..|calls| - 1]).0, calls[|calls| - 1].ip, calls[|calls| - 1].now);
    }
  }

  /** Another address is remembered: one place is lost. */
  lemma OtherRemembered(keys: seq<Ip>, ip: Ip, x: Ip, n: nat)
    requires Distinct(keys) && |keys| <= WINDOW_ENTRIES && x != ip && Behind(keys, ip, n) && n + 1 <= WINDOW_ENTRIES
    ensures Behind(RememberedKeys(keys, x, WINDOW_ENTRIES), ip, n + 1)
  {
    hide Without, Distinct;
    var p :| 0 <= p < |keys| && keys[p] == ip && |keys| - p <= n;
    WithoutAfter(keys, p, x);
    var q :| 0 <= q < |Without(keys, x)| && Without(keys, x)[q] == keys[p] && |Without(keys, x)| - q <= |keys| - p;
    var moved, next := Without(keys, x) + [x], RememberedKeys(keys, x, WINDOW_ENTRIES);
    assert next == moved[|moved| - |next|..];
    assert next[q - (|moved| - |next|)] == ip;
  }

  lemma OwnRemembered(keys: seq<Ip>, ip: Ip, n: nat)
    requires n >= 1
    ensures Behind(RememberedKeys(keys, ip, WINDOW_ENTRIES), ip, n)
  {
    var r := RememberedKeys(keys, ip, WINDOW_ENTRIES);
    assert r[|r| - 1] == ip;
  }

  lemma StillThere(d: Windows, ip: Ip, n: nat)
    requires Ordered(d) && Behind(d.keys, ip, n)
    ensures ip in d.m && n >= 1
  {
    var p :| 0 <= p < |d.keys| && d.keys[p] == ip && |d.keys| - p <= n;
    assert ip in d.keys;
  }

  lemma OrderedDistinct(d: Windows)
    requires Ordered(d)
    ensures Distinct(d.keys)
  {
  }

  /** One call, seen from one address: its own call steps its window, and another's leaves it alone. */
  lemma OneCall(d: Windows, ip: Ip, n: nat, x: Call)
    requires TableOk(d) && Behind(d.keys, ip, n) && ip in d.m
    requires var opens := x.ip != ip && (x.ip !in d.m || x.now - d.m[x.ip].start >= WINDOW_SECONDS); opens ==> n + 1 <= WINDOW_ENTRIES
    ensures var opens := x.ip != ip && (x.ip !in d.m || x.now - d.m[x.ip].start >= WINDOW_SECONDS);
            var (d', ok) := Allowed(d, x.ip, x.now);
            Behind(d'.keys, ip, if opens then n + 1 else n) && ip in d'.m &&
            if x.ip == ip then (d'.m[ip], ok) == Step(d.m[ip], x.now) else d'.m[ip] == d.m[ip]
  {
    hide Remembered, Ordered, Distinct, Behind, RememberedKeys;
    StillThere(d, ip, n);
    if x.ip !in d.m || x.now - d.m[x.ip].start >= WINDOW_SECONDS {
      RememberedShape(d, x.ip, Window(x.now, 1), WINDOW_ENTRIES);
      if x.ip == ip {
        OwnRemembered(d.keys, ip, n);
      } else {
        OrderedDistinct(d);
        OtherRemembered(d.keys, ip, x.ip, n);
        StillThere(Remembered(d, x.ip, Window(x.now, 1), WINDOW_ENTRIES), ip, n + 1);
      }
    }
  }

  /**
   * Seen from one address, a run over many is a run of its own window, as long as the windows others open are fewer
   * than the places behind it.
   */
  lemma {:induction false} SeenFromOne(d: Windows, calls: seq<Call>, ip: Ip, n: nat)
    requires TableOk(d) && Behind(d.keys, ip, n) && ip in d.m && n + OpenedByOthers(d, calls, ip) <= WINDOW_ENTRIES
    ensures var (d', log) := Calls(d, calls); var (w, sent) := Run(d.m[ip], TimesOf(calls, ip));
            ip in d'.m && d'.m[ip] == w && PacketsTo(calls, log, ip) == Moments(sent) && Behind(d'.keys, ip, n + OpenedByOthers(d, calls, ip))
    decreases |calls|
  {
    hide TableOk, Behind, Allowed, Step;
    if calls != [] {
      var k := |calls| - 1;
      var front, x := calls[..k], calls[k];
      SeenFromOne(d, front, ip, n);
      CallsKeepTable(d, front);
      OneCall(Calls(d, front).0, ip, n + OpenedByOthers(d, front, ip), x);
      assert Calls(d, calls).1[..k] == Calls(d, front).1;
      var times := TimesOf(front, ip);
      if x.ip == ip {
        assert TimesOf(calls, ip) == times + [x.now];
        assert (times + [x.now])[..|times|] == times;
      } else {
        assert TimesOf(calls, ip) == times + [] == times;
      }
    }
  }

  lemma {:induction false} OwnMonotone(first: real, calls: seq<Call>, ip: Ip)
    requires forall i, j :: 0 <= i <= j < |calls| ==> first <= calls[i].now <= calls[j].now
    ensures Monotone(first, TimesOf(calls, ip))
    ensures calls != [] ==> forall i :: 0 <= i < |TimesOf(calls, ip)| ==> TimesOf(calls, ip)[i] <= calls[|calls| - 1].now
    decreases |calls|
  {
    if calls != [] {
      var n := |calls| - 1;
      OwnMonotone(first, calls[..n], ip);
      if n > 0 { assert calls[..n][|calls[..n]| - 1] == calls[n - 1]; }
    }
  }

  /**
   * Whatever the other addresses do: from the call that opens its window, an address gets at most 79 packets in any
   * 10 s, until others have opened as many windows as the table has further places.
   */
  lemma AtMost79OfMany(d: Windows, ip: Ip, first: real, calls: seq<Call>, lo: nat, hi: nat, t: real)
    requires TableOk(d) && (ip !in d.m || first - d.m[ip].start >= WINDOW_SECONDS)
    requires forall i, j :: 0 <= i <= j < |calls| ==> first <= calls[i].now <= calls[j].now
    requires OpenedByOthers(Allowed(d, ip, first).0, calls, ip) < WINDOW_ENTRIES
    requires var sent := [first] + PacketsTo(calls, Calls(Allowed(d, ip, first).0, calls).1, ip);
             lo <= hi <= |sent| && forall k :: lo <= k < hi ==> t <= sent[k] < t + WINDOW_SECONDS
    ensures hi - lo <= 2 * MAX_PACKETS - 1
  {
    hide TableOk, Remembered, Calls, Run, PacketsTo, OpenedByOthers, Monotone, RememberedKeys, TimesOf;
    var d1 := Allowed(d, ip, first).0;
    AllowedKeepsTable(d, ip, first);
    assert Ordered(d) by { TableOrdered(d); }
    RememberedShape(d, ip, Window(first, 1), WINDOW_ENTRIES);
    OwnRemembered(d.keys, ip, 1);
    SeenFromOne(d1, calls, ip, 1);
    OwnMonotone(first, calls, ip);
    var own := TimesOf(calls, ip);
    var log := RunFrom(first, own).1;
    var sent := [first] + PacketsTo(calls, Calls(d1, calls).1, ip);
    forall k | lo <= k < hi ensures t <= log[k].time < t + WINDOW_SECONDS { assert log[k].time == sent[k]; }
    AtMost79(first, own, lo, hi, t);
  }

  lemma TableOrdered(d: Windows)
    requires TableOk(d)
    ensures Ordered(d)
  {
  }

  // ----- the bound of 40 that the repository's README states does not hold for every 10 s

  function Repeat(t: real, n: nat): seq<real> {
    seq(n, _ => t)
  }

  lemma {:induction false} RunAtOnce(w: Window, t: real, before: seq<real>, n: nat)
    requires n == 0 || (Run(w, before).0.count + n <= MAX_PACKETS && t - Run(w, before).0.start < WINDOW_SECONDS)
    ensures var (w1, log1) := Run(w, before); var (w2, log2) := Run(w, before + Repeat(t, n));
            w2 == Window(w1.start, w1.count + n) && |log2| == |log1| + n && log2[..|log1|] == log1 &&
            forall k :: |log1| <= k < |log2| ==> log2[k].time == t
  {
    if n == 0 {
      assert before + Repeat(t, 0) == before;
    } else {
      RunAtOnce(w, t, before, n - 1);
      var times := before + Repeat(t, n);
      assert times[..|times| - 1] == before + Repeat(t, n - 1);
    }
  }

  /** One packet, 39 more just before the window ends, 40 in the next window: 79 packets within 0.1 s. */
  lemma SeventyNineAtOnce()
    ensures exists times ::
      Monotone(0.0, times) && var log := RunFrom(0.0, times).1; |log| == 80 && AllWithin(log, 1, 80, 9.9)
  {
    var w := Window(0.0, 1);
    var nothing: seq<real> := [];
    RunAtOnce(w, 9.9, nothing, 39);
    var a := nothing + Repeat(9.9, 39);
    var b := a + [10.0];
    assert b[..|b| - 1] == a;
    RunAtOnce(w, 10.0, b, 39);
    var times := b + Repeat(10.0, 39);
    assert Monotone(0.0, times);
    var log := RunFrom(0.0, times).1;
    assert Run(w, b).1[39].time == 10.0;
    assert forall k :: 1 <= k < 80 ==> log[k] == Run(w, times).1[k - 1];
    assert AllWithin(log, 1, 80, 9.9);
  }
}
