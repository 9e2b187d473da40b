/** The two regular expressions the line parser applies to every cleaned line,
    written as explicit matchers (src/main/download.ts:100 and :106).

    Both patterns are unanchored and `String.prototype.match` without the `g` flag
    returns the FIRST match a backtracking engine finds. A way to match is written here
    as a tuple of positions, one per quantifier boundary, and the engine's preference
    as an order on such tuples: the leftmost start first, then, quantifier by quantifier
    from left to right, the longest extent for a greedy one and the shortest for a lazy
    one. Each matcher is proved to return the least matching tuple in that order, or
    nothing when there is none. */
module Matchers {
  import opened Wrappers
  import opened Chars

  predicate LitAt(s: string, i: nat, lit: string) {
    i + |lit| <= |s| && s[i..i + |lit|] == lit
  }

  // ---------------------------------------------------------------------------
  // /Destination:\s(.+)/
  // ---------------------------------------------------------------------------

  const DESTINATION := "Destination:"

  /** A way the destination pattern matches: the literal at `start`, one `\s` at
      start + 12, and the capture `.+` over s[start + 13..end]. */
  datatype DestinationMatch = DestinationMatch(start: nat, end: nat)

  predicate IsDestinationMatch(s: string, m: DestinationMatch) {
    LitAt(s, m.start, DESTINATION) && m.start + 13 < m.end <= |s|
    && IsSpace(s[m.start + 12]) && AllIn(s, m.start + 13, m.end, Dot)
  }

  /** The engine prefers x to y: further left, or as far left with a longer `.+`. */
  predicate DestinationBefore(x: DestinationMatch, y: DestinationMatch) {
    x.start < y.start || (x.start == y.start && x.end > y.end)
  }

  /** Some match starts at i. */
  predicate DestinationAt(s: string, i: nat) {
    LitAt(s, i, DESTINATION) && i + 13 < |s| && IsSpace(s[i + 12]) && !IsLineTerminator(s[i + 13])
  }

  function FindDestination(s: string, i: nat): (r: Option<nat>)
    requires i <= |s|
    ensures r.Some? ==> i <= r.value && DestinationAt(s, r.value)
    ensures r.Some? ==> forall j :: i <= j < r.value ==> !DestinationAt(s, j)
    ensures r.None? ==> forall j :: i <= j ==> !DestinationAt(s, j)
    decreases |s| - i
  {
    if DestinationAt(s, i) then Some(i)
    else if i == |s| then None
    else FindDestination(s, i + 1)
  }

  lemma {:induction false} DestinationShape(s: string, m: DestinationMatch)
    requires IsDestinationMatch(s, m)
    ensures DestinationAt(s, m.start) && m.end <= RunEnd(s, m.start + 13, Dot)
  {
    assert In(s[m.start + 13], Dot);
    RunEndBound(s, m.start + 13, m.end, Dot);
  }

  /** `line.match(/Destination:\s(.+)/)`: the first match, or None for `null`. */
  function MatchDestination(s: string): (r: Option<DestinationMatch>)
    ensures r.Some? ==> IsDestinationMatch(s, r.value)
    ensures r.Some? ==> forall m :: IsDestinationMatch(s, m) ==> !DestinationBefore(m, r.value)
    ensures r.None? ==> forall m :: !IsDestinationMatch(s, m)
  {
    match FindDestination(s, 0)
    case None =>
      DestinationNone(s);
      None
    case Some(i) =>
      var m := DestinationMatch(i, RunEnd(s, i + 13, Dot));
      DestinationFirst(s, m);
      Some(m)
  }

  lemma {:induction false} DestinationNone(s: string)
    requires FindDestination(s, 0).None?
    ensures forall m :: !IsDestinationMatch(s, m)
  {
    forall m | IsDestinationMatch(s, m) ensures false {
      DestinationShape(s, m);
    }
  }

  lemma {:induction false} DestinationFirst(s: string, m: DestinationMatch)
    requires FindDestination(s, 0) == Some(m.start) && m.start + 13 <= |s|
    requires m.end == RunEnd(s, m.start + 13, Dot)
    ensures IsDestinationMatch(s, m)
    ensures forall m' :: IsDestinationMatch(s, m') ==> !DestinationBefore(m', m)
  {
    forall m' | IsDestinationMatch(s, m') ensures !DestinationBefore(m', m) {
      DestinationShape(s, m');
    }
  }

  /** The text of capture group 1, `(.+)`. */
  function DestinationCapture(s: string): (r: Option<string>)
    ensures r.Some? <==> exists m :: IsDestinationMatch(s, m)
    ensures r.Some? ==> r.value != [] && forall k :: 0 <= k < |r.value| ==> !IsLineTerminator(r.value[k])
  {
    match MatchDestination(s)
    case None => None
    case Some(m) => Some(s[m.start + 13..m.end])
  }

  // ---------------------------------------------------------------------------
  // /\[download\]\s+(\d+(?:\.\d+)?)%.*?at\s+([^\s]+).*?ETA\s+([^\s]+)/
  // ---------------------------------------------------------------------------

  const DOWNLOAD_TAG := "[download]"
  const ETA := "ETA"

  /** A way the progress pattern matches. `[download]` starts at `start`; `\s+` ends at
      `numStart`; the integer digits end at `intEnd`; `%` is at `pct` (pct == intEnd
      when the optional fraction is not taken); the first `.*?` ends at `at`; `\s+` ends
      at `speedStart`; capture 2 is s[speedStart..speedEnd]; the second `.*?` ends at
      `eta`; `\s+` ends at `etaStart`; capture 3 is s[etaStart..etaEnd]. Capture 1 is
      s[numStart..pct]. */
  datatype ProgressMatch = ProgressMatch(
    start: nat, numStart: nat, intEnd: nat, pct: nat,
    at: nat, speedStart: nat, speedEnd: nat,
    eta: nat, etaStart: nat, etaEnd: nat)

  /** `\[download\]\s+(\d+(?:\.\d+)?)%` with the given extents. */
  predicate HeadMatches(s: string, start: nat, numStart: nat, intEnd: nat, pct: nat) {
    LitAt(s, start, DOWNLOAD_TAG) && start + 10 < numStart < intEnd <= pct < |s|
    && AllIn(s, start + 10, numStart, Space) && AllIn(s, numStart, intEnd, Digit)
    && (pct == intEnd || (s[intEnd] == '.' && intEnd + 1 < pct && AllIn(s, intEnd + 1, pct, Digit)))
    && s[pct] == '%'
  }

  /** `.*?at\s+([^\s]+)` from position `from`. */
  predicate SpeedMatches(s: string, from: nat, at: nat, speedStart: nat, speedEnd: nat) {
    from <= at && at + 2 < speedStart < speedEnd <= |s| && AllIn(s, from, at, Dot)
    && s[at] == 'a' && s[at + 1] == 't'
    && AllIn(s, at + 2, speedStart, Space) && AllIn(s, speedStart, speedEnd, NonSpace)
  }

  /** `.*?ETA\s+([^\s]+)` from position `from`. */
  predicate EtaMatches(s: string, from: nat, eta: nat, etaStart: nat, etaEnd: nat) {
    from <= eta && eta + 3 < etaStart < etaEnd <= |s| && AllIn(s, from, eta, Dot)
    && LitAt(s, eta, ETA)
    && AllIn(s, eta + 3, etaStart, Space) && AllIn(s, etaStart, etaEnd, NonSpace)
  }

  predicate IsProgressMatch(s: string, m: ProgressMatch) {
    HeadMatches(s, m.start, m.numStart, m.intEnd, m.pct)
    && SpeedMatches(s, m.pct + 1, m.at, m.speedStart, m.speedEnd)
    && EtaMatches(s, m.speedEnd, m.eta, m.etaStart, m.etaEnd)
  }

  /** The engine prefers x to y. Greedy quantifiers (`\s+`, `\d+`, `(?:…)?`, `[^\s]+`)
      prefer the later end, lazy ones (`.*?`) the earlier. Taking the optional fraction
      puts `%` later than leaving it out, so "later pct first" covers both choices. */
  predicate ProgressBefore(x: ProgressMatch, y: ProgressMatch) {
    x.start < y.start || (x.start == y.start &&
    (x.numStart > y.numStart || (x.numStart == y.numStart &&
    (x.intEnd > y.intEnd || (x.intEnd == y.intEnd &&
    (x.pct > y.pct || (x.pct == y.pct &&
    (x.at < y.at || (x.at == y.at &&
    (x.speedStart > y.speedStart || (x.speedStart == y.speedStart &&
    (x.speedEnd > y.speedEnd || (x.speedEnd == y.speedEnd &&
    (x.eta < y.eta || (x.eta == y.eta &&
    (x.etaStart > y.etaStart || (x.etaStart == y.etaStart && x.etaEnd > y.etaEnd)))))))))))))))))
  }

  datatype Head = Head(numStart: nat, intEnd: nat, pct: nat)

  /** The head of the pattern at `start`. It has at most one way to match: each greedy
      quantifier in it is followed by a character it cannot consume. */
  function HeadAt(s: string, start: nat): (r: Option<Head>)
    ensures r.Some? ==> HeadMatches(s, start, r.value.numStart, r.value.intEnd, r.value.pct)
  {
    if !LitAt(s, start, DOWNLOAD_TAG) then None
    else
      var w := RunEnd(s, start + 10, Space);
      var d := RunEnd(s, w, Digit);
      if w == start + 10 || d == w || d == |s| then None
      else if s[d] == '%' then Some(Head(w, d, d))
      else if s[d] == '.' && d + 1 < |s| then
        var f := RunEnd(s, d + 1, Digit);
        if d + 1 < f < |s| && s[f] == '%' then Some(Head(w, d, f)) else None
      else None
  }

  /** Every way the head matches is the one HeadAt finds. */
  lemma {:induction false} HeadForced(s: string, start: nat, numStart: nat, intEnd: nat, pct: nat)
    requires HeadMatches(s, start, numStart, intEnd, pct)
    ensures HeadAt(s, start) == Some(Head(numStart, intEnd, pct))
  {
    assert !IsSpace(s[numStart]);
    RunEndUnique(s, start + 10, numStart, Space);
    assert !IsDigit(s[intEnd]);
    RunEndUnique(s, numStart, intEnd, Digit);
    if pct != intEnd {
      assert !IsDigit(s[pct]);
      RunEndUnique(s, intEnd + 1, pct, Digit);
    }
  }

  /** `ETA\s+[^\s]` can be matched at t. */
  predicate EtaAt(s: string, t: nat) {
    LitAt(s, t, ETA) && t + 3 < |s| && IsSpace(s[t + 3]) && RunEnd(s, t + 3, Space) < |s|
  }

  /** The lazy `.*?` before `ETA`: the first t' >= t, reachable over `.`, where the
      rest can match. */
  function FindEta(s: string, t: nat): (r: Option<nat>)
    requires t <= |s|
    ensures r.Some? ==> t <= r.value && EtaAt(s, r.value) && AllIn(s, t, r.value, Dot)
    ensures r.Some? ==> forall u :: t <= u < r.value ==> !EtaAt(s, u)
    ensures r.None? ==> forall u :: t <= u <= |s| && AllIn(s, t, u, Dot) ==> !EtaAt(s, u)
    decreases |s| - t
  {
    if EtaAt(s, t) then Some(t)
    else if t == |s| || IsLineTerminator(s[t]) then None
    else FindEta(s, t + 1)
  }

  /** The greedy speed token `[^\s]+` tried from its longest extent e down to w + 1:
      the first end after which the ETA part can match. */
  function FindSpeedEnd(s: string, w: nat, e: nat): (r: Option<nat>)
    requires w < e <= |s|
    ensures r.Some? ==> w < r.value <= e && FindEta(s, r.value).Some?
    ensures r.Some? ==> forall v :: r.value < v <= e ==> FindEta(s, v).None?
    ensures r.None? ==> forall v :: w < v <= e ==> FindEta(s, v).None?
    decreases e
  {
    if FindEta(s, e).Some? then Some(e)
    else if e == w + 1 then None
    else FindSpeedEnd(s, w, e - 1)
  }

  /** `at\s+[^\s]` can be matched at a. */
  predicate SpeedAt(s: string, a: nat) {
    a + 2 < |s| && s[a] == 'a' && s[a + 1] == 't' && IsSpace(s[a + 2]) && RunEnd(s, a + 2, Space) < |s|
  }

  /** The speed end the engine settles on when `at` is matched at a. */
  function SpeedEndAt(s: string, a: nat): (r: Option<nat>)
    requires SpeedAt(s, a)
  {
    var w := RunEnd(s, a + 2, Space);
    assert In(s[w], NonSpace);
    FindSpeedEnd(s, w, RunEnd(s, w, NonSpace))
  }

  predicate AtWorks(s: string, a: nat) {
    SpeedAt(s, a) && SpeedEndAt(s, a).Some?
  }

  /** The lazy `.*?` before `at`: the first a' >= a, reachable over `.`, from which the
      rest of the pattern matches. */
  function FindAt(s: string, a: nat): (r: Option<nat>)
    requires a <= |s|
    ensures r.Some? ==> a <= r.value && AtWorks(s, r.value) && AllIn(s, a, r.value, Dot)
    ensures r.Some? ==> forall b :: a <= b < r.value ==> !AtWorks(s, b)
    ensures r.None? ==> forall b :: a <= b <= |s| && AllIn(s, a, b, Dot) ==> !AtWorks(s, b)
    decreases |s| - a
  {
    if AtWorks(s, a) then Some(a)
    else if a == |s| || IsLineTerminator(s[a]) then None
    else FindAt(s, a + 1)
  }

  predicate StartWorks(s: string, p: nat) {
    HeadAt(s, p).Some? && FindAt(s, HeadAt(s, p).value.pct + 1).Some?
  }

  /** The engine's scan over start positions. */
  function FindStart(s: string, p: nat): (r: Option<nat>)
    requires p <= |s|
    ensures r.Some? ==> p <= r.value && StartWorks(s, r.value)
    ensures r.Some? ==> forall q :: p <= q < r.value ==> !StartWorks(s, q)
    ensures r.None? ==> forall q :: p <= q ==> !StartWorks(s, q)
    decreases |s| - p
  {
    if StartWorks(s, p) then Some(p)
    else if p == |s| then None
    else FindStart(s, p + 1)
  }

  /** The ETA part of any match is one FindEta can see. */
  lemma {:induction false} EtaShape(s: string, from: nat, eta: nat, etaStart: nat, etaEnd: nat)
    requires EtaMatches(s, from, eta, etaStart, etaEnd)
    ensures EtaAt(s, eta) && etaStart == RunEnd(s, eta + 3, Space)
    ensures etaEnd <= RunEnd(s, etaStart, NonSpace)
    ensures FindEta(s, from).Some? && FindEta(s, from).value <= eta
  {
    assert !IsSpace(s[etaStart]);
    assert IsSpace(s[eta + 3]);
    RunEndUnique(s, eta + 3, etaStart, Space);
    RunEndBound(s, etaStart, etaEnd, NonSpace);
    assert EtaAt(s, eta);
  }

  /** The `at\s+([^\s]+)` part of any match is one SpeedAt can see. */
  lemma {:induction false} SpeedTokenShape(s: string, from: nat, at: nat, speedStart: nat, speedEnd: nat)
    requires SpeedMatches(s, from, at, speedStart, speedEnd)
    ensures SpeedAt(s, at) && speedStart == RunEnd(s, at + 2, Space)
    ensures speedEnd <= RunEnd(s, speedStart, NonSpace)
  {
    assert !IsSpace(s[speedStart]);
    assert IsSpace(s[at + 2]);
    RunEndUnique(s, at + 2, speedStart, Space);
    RunEndBound(s, speedStart, speedEnd, NonSpace);
  }

  /** Trying speed ends longest first reaches any end after which the ETA part matches. */
  lemma {:induction false} SpeedEndReached(s: string, speedStart: nat, speedEnd: nat)
    requires speedStart < speedEnd <= |s| && AllIn(s, speedStart, speedEnd, NonSpace)
    requires FindEta(s, speedEnd).Some?
    ensures speedEnd <= RunEnd(s, speedStart, NonSpace)
    ensures FindSpeedEnd(s, speedStart, RunEnd(s, speedStart, NonSpace)).Some?
    ensures speedEnd <= FindSpeedEnd(s, speedStart, RunEnd(s, speedStart, NonSpace)).value
  {
    RunEndBound(s, speedStart, speedEnd, NonSpace);
  }

  /** The lazy search for `at` reaches any position from which the rest matches. */
  lemma {:induction false} AtReached(s: string, from: nat, at: nat)
    requires from <= at <= |s| && AllIn(s, from, at, Dot) && AtWorks(s, at)
    ensures FindAt(s, from).Some? && FindAt(s, from).value <= at
  {
  }

  /** `at` in any match is a position the search for `at` accepts. */
  lemma {:induction false} AtShape(s: string, from: nat, m: ProgressMatch)
    requires SpeedMatches(s, from, m.at, m.speedStart, m.speedEnd)
    requires EtaMatches(s, m.speedEnd, m.eta, m.etaStart, m.etaEnd)
    ensures SpeedAt(s, m.at) && m.speedStart == RunEnd(s, m.at + 2, Space)
    ensures AtWorks(s, m.at) && m.speedEnd <= SpeedEndAt(s, m.at).value
  {
    SpeedTokenShape(s, from, m.at, m.speedStart, m.speedEnd);
    EtaShape(s, m.speedEnd, m.eta, m.etaStart, m.etaEnd);
    SpeedEndReached(s, m.speedStart, m.speedEnd);
  }

  /** The speed part of any match is one FindAt can see. */
  lemma {:induction false} SpeedShape(s: string, m: ProgressMatch)
    requires SpeedMatches(s, m.pct + 1, m.at, m.speedStart, m.speedEnd)
    requires EtaMatches(s, m.speedEnd, m.eta, m.etaStart, m.etaEnd)
    ensures SpeedAt(s, m.at) && m.speedStart == RunEnd(s, m.at + 2, Space)
    ensures AtWorks(s, m.at) && m.speedEnd <= SpeedEndAt(s, m.at).value
    ensures FindAt(s, m.pct + 1).Some? && FindAt(s, m.pct + 1).value <= m.at
  {
    AtShape(s, m.pct + 1, m);
    AtReached(s, m.pct + 1, m.at);
  }

  /** Every match starts at a position FindStart accepts. */
  lemma {:induction false} StartShape(s: string, m: ProgressMatch)
    requires IsProgressMatch(s, m)
    ensures HeadAt(s, m.start) == Some(Head(m.numStart, m.intEnd, m.pct))
    ensures StartWorks(s, m.start)
  {
    HeadForced(s, m.start, m.numStart, m.intEnd, m.pct);
    SpeedShape(s, m);
  }

  /** The match assembled from the choices the searches make at start p. */
  function BuildProgress(s: string, p: nat): (m: ProgressMatch)
    requires StartWorks(s, p)
  {
    var h := HeadAt(s, p).value;
    var a := FindAt(s, h.pct + 1).value;
    var w := RunEnd(s, a + 2, Space);
    var e := SpeedEndAt(s, a).value;
    var t := FindEta(s, e).value;
    var w3 := RunEnd(s, t + 3, Space);
    ProgressMatch(p, h.numStart, h.intEnd, h.pct, a, w, e, t, w3, RunEnd(s, w3, NonSpace))
  }

  lemma {:induction false} BuildProgressMatches(s: string, p: nat)
    requires StartWorks(s, p)
    ensures IsProgressMatch(s, BuildProgress(s, p))
  {
    var m := BuildProgress(s, p);
    assert SpeedAt(s, m.at);
    assert In(s[m.speedStart], NonSpace);
    assert In(s[m.etaStart], NonSpace);
    assert LitAt(s, m.eta, ETA);
    assert AllIn(s, m.speedStart, m.speedEnd, NonSpace) by {
      var e := RunEnd(s, m.speedStart, NonSpace);
      assert AllIn(s, m.speedStart, e, NonSpace);
    }
  }

  /** What each search contributes: for an alternative y, the engine's choice x is at
      least as good at every level where the two agree on all earlier levels. */
  lemma {:induction false} NotBeforeByLevels(x: ProgressMatch, y: ProgressMatch)
    requires x.start <= y.start
    requires x.start == y.start ==> y.numStart == x.numStart && y.intEnd == x.intEnd && y.pct == x.pct && x.at <= y.at
    requires x.start == y.start && x.at == y.at ==> y.speedStart == x.speedStart && y.speedEnd <= x.speedEnd
    requires x.start == y.start && x.at == y.at && x.speedEnd == y.speedEnd ==> x.eta <= y.eta
    requires x.start == y.start && x.at == y.at && x.speedEnd == y.speedEnd && x.eta == y.eta
      ==> y.etaStart == x.etaStart && y.etaEnd <= x.etaEnd
    ensures !ProgressBefore(y, x)
  {
  }

  /** At the engine's start, every alternative has the same head and an `at` no earlier. */
  lemma {:induction false} StartLevel(s: string, p: nat, m': ProgressMatch)
    requires StartWorks(s, p) && IsProgressMatch(s, m') && m'.start == p
    ensures m'.numStart == BuildProgress(s, p).numStart && m'.intEnd == BuildProgress(s, p).intEnd
    ensures m'.pct == BuildProgress(s, p).pct && BuildProgress(s, p).at <= m'.at
  {
    HeadForced(s, m'.start, m'.numStart, m'.intEnd, m'.pct);
    SpeedShape(s, m');
  }

  /** At the engine's `at`, every alternative has the same speed start and a speed end no later. */
  lemma {:induction false} SpeedLevel(s: string, p: nat, m': ProgressMatch)
    requires StartWorks(s, p) && IsProgressMatch(s, m') && m'.start == p
    requires m'.at == BuildProgress(s, p).at
    ensures m'.speedStart == BuildProgress(s, p).speedStart
    ensures m'.speedEnd <= BuildProgress(s, p).speedEnd
  {
    StartLevel(s, p, m');
    SpeedShape(s, m');
  }

  /** At the engine's speed end, every alternative has an ETA no earlier, and at the same
      ETA the same token start and a token no longer. */
  lemma {:induction false} EtaLevel(s: string, p: nat, m': ProgressMatch)
    requires StartWorks(s, p) && EtaMatches(s, m'.speedEnd, m'.eta, m'.etaStart, m'.etaEnd)
    requires m'.speedEnd == BuildProgress(s, p).speedEnd
    ensures BuildProgress(s, p).eta <= m'.eta
    ensures m'.eta == BuildProgress(s, p).eta ==>
      m'.etaStart == BuildProgress(s, p).etaStart && m'.etaEnd <= BuildProgress(s, p).etaEnd
  {
    EtaShape(s, m'.speedEnd, m'.eta, m'.etaStart, m'.etaEnd);
  }

  /** No match is preferred to the one built from the first start that works. */
  lemma {:induction false} BuildProgressFirst(s: string, p: nat, m': ProgressMatch)
    requires FindStart(s, 0) == Some(p)
    requires IsProgressMatch(s, m')
    ensures !ProgressBefore(m', BuildProgress(s, p))
  {
    var m := BuildProgress(s, p);
    StartShape(s, m');
    if m'.start == p {
      StartLevel(s, p, m');
      if m'.at == m.at {
        SpeedLevel(s, p, m');
        if m'.speedEnd == m.speedEnd {
          EtaLevel(s, p, m');
        }
      }
    }
    NotBeforeByLevels(m, m');
  }

  /** `line.match(/\[download\]\s+(\d+(?:\.\d+)?)%.*?at\s+([^\s]+).*?ETA\s+([^\s]+)/)`:
      the first match, or None for `null`. */
  function MatchProgress(s: string): (r: Option<ProgressMatch>)
    ensures r.Some? ==> IsProgressMatch(s, r.value)
    ensures r.Some? ==> forall m :: IsProgressMatch(s, m) ==> !ProgressBefore(m, r.value)
    ensures r.None? ==> forall m :: !IsProgressMatch(s, m)
  {
    match FindStart(s, 0)
    case None =>
      ProgressNone(s);
      None
    case Some(p) =>
      BuildProgressMatches(s, p);
      ProgressFirstAll(s, p);
      Some(BuildProgress(s, p))
  }

  lemma {:induction false} ProgressNone(s: string)
    requires FindStart(s, 0).None?
    ensures forall m :: !IsProgressMatch(s, m)
  {
    forall m | IsProgressMatch(s, m) ensures false {
      StartShape(s, m);
    }
  }

  lemma {:induction false} ProgressFirstAll(s: string, p: nat)
    requires FindStart(s, 0) == Some(p)
    ensures forall m' :: IsProgressMatch(s, m') ==> !ProgressBefore(m', BuildProgress(s, p))
  {
    forall m' | IsProgressMatch(s, m') ensures !ProgressBefore(m', BuildProgress(s, p)) {
      BuildProgressFirst(s, p, m');
    }
  }

  /** The three capture groups of a progress line. */
  datatype ProgressCaptures = ProgressCaptures(percent: string, speed: string, eta: string)

  /** The groups' text: `m[1]`, `m[2]` and `m[3]`, or None when the line does not match. */
  function ProgressCapture(s: string): (r: Option<ProgressCaptures>)
    ensures r.Some? <==> MatchProgress(s).Some?
  {
    match MatchProgress(s)
    case None => None
    case Some(m) => Some(Captures(s, m))
  }

  /** The percent capture starts with a digit; the speed and ETA captures are nonempty and
      hold no whitespace. */
  lemma ProgressCaptureShape(s: string)
    ensures var r := ProgressCapture(s);
      r.Some? ==>
        && r.value.percent != [] && IsDigit(r.value.percent[0])
        && r.value.speed != [] && (forall k :: 0 <= k < |r.value.speed| ==> !IsSpace(r.value.speed[k]))
        && r.value.eta != [] && (forall k :: 0 <= k < |r.value.eta| ==> !IsSpace(r.value.eta[k]))
  {
  }

  /** A line yields captures exactly when the progress pattern matches it somewhere. */
  lemma ProgressCaptureIff(s: string)
    ensures ProgressCapture(s).Some? <==> exists m :: IsProgressMatch(s, m)
  {
    if MatchProgress(s).Some? {
      assert IsProgressMatch(s, MatchProgress(s).value);
    }
  }

  function Captures(s: string, m: ProgressMatch): (c: ProgressCaptures)
    requires IsProgressMatch(s, m)
    ensures c.percent != [] && IsDigit(c.percent[0])
    ensures c.speed != [] && forall k :: 0 <= k < |c.speed| ==> !IsSpace(c.speed[k])
    ensures c.eta != [] && forall k :: 0 <= k < |c.eta| ==> !IsSpace(c.eta[k])
  {
    var c := ProgressCaptures(s[m.numStart..m.pct], s[m.speedStart..m.speedEnd], s[m.etaStart..m.etaEnd]);
    CapturesShape(s, m, c);
    c
  }

  lemma {:induction false} CapturesShape(s: string, m: ProgressMatch, c: ProgressCaptures)
    requires IsProgressMatch(s, m)
    requires c == ProgressCaptures(s[m.numStart..m.pct], s[m.speedStart..m.speedEnd], s[m.etaStart..m.etaEnd])
    ensures c.percent != [] && IsDigit(c.percent[0])
    ensures c.speed != [] && forall k :: 0 <= k < |c.speed| ==> !IsSpace(c.speed[k])
    ensures c.eta != [] && forall k :: 0 <= k < |c.eta| ==> !IsSpace(c.eta[k])
  {
    assert In(s[m.numStart], Digit);
    assert AllIn(s, m.speedStart, m.speedEnd, NonSpace);
    assert AllIn(s, m.etaStart, m.etaEnd, NonSpace);
  }
}
