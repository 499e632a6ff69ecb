/** What holds of every relay session, for every sequence of turns. The turns alone tell everything: each
    counter, each limiter, each report and the end are what can be read off them. */
module RelayProofs {
  import opened Net
  import opened RelaySession

  // ---------- The loop's variables, read off the turns ----------

  /** The first parts of the trace: how the loop goes on, and its two clocks. */
  ghost predicate ClocksRead(s: State, start: int, turns: seq<Turn>) {
    && (s.exit == Running <==> Alive(start, turns))
    && s.tm == Opened(start, turns) && s.lastRecv == LastFrame(start, turns)
  }

  /** The readings of a trace from those of the trace before its last turn. */
  lemma Readings(start: int, turns: seq<Turn>)
    requires turns != []
    ensures var (front, turn) := (Front(turns), Last(turns));
            && (Taken(start, turns) <==> Alive(start, front))
            && (Passes(start, turns) <==> Alive(start, front) && match turn.arm
                  case Recv(_, bytes, sent) => bytes == [] || sent
                  case End(_) => false
                  case Tick => turn.at - LastFrame(start, front) < 31_000)
            && (Due(start, turns) <==> Passes(start, turns) && turn.sampleAt - Opened(start, front) >= 1000)
            && (Reports(start, turns) <==> Due(start, turns) && !turn.blocked)
            && (Alive(start, turns) <==> Passes(start, turns) && !(Due(start, turns) && turn.blocked))
            && LastFrame(start, turns) == (if Alive(start, front) && turn.arm.Recv? then turn.at else LastFrame(start, front))
            && Opened(start, turns) == (if Reports(start, turns) then turn.resumeAt else Opened(start, front))
  {
  }

  lemma {:induction false} LoopClocks(threshold: nat, start: int, turns: seq<Turn>)
    ensures ClocksRead(Run(threshold, start, turns), start, turns)
    decreases |turns|
  {
    if turns == [] {
    } else {
      LoopClocks(threshold, start, Front(turns));
      Readings(start, turns);
    }
  }

  /** How a relay ends, and that it does: by the end of either stream, by a frame that could not be passed on,
      by a tick after 31 s without a frame, by a sample that finds the address blocked, and no other way. */
  lemma EndsIff(threshold: nat, start: int, turns: seq<Turn>)
    requires Taken(start, turns)
    ensures var (exit, turn) := (Run(threshold, start, turns).exit, Last(turns));
            && (exit == Closed <==> turn.arm.End?)
            && (forall side :: exit == SendFailed(side) <==> turn.arm.Recv? && turn.arm.side == side && turn.arm.bytes != [] && !turn.arm.sent)
            && (exit == TimedOut <==> turn.arm.Tick? && turn.at - LastFrame(start, Front(turns)) >= 31_000)
            && (exit == Blocked <==> Due(start, turns) && turn.blocked)
            && (exit == Running <==> Alive(start, turns))
  {
    LoopClocks(threshold, start, Front(turns));
    LoopClocks(threshold, start, turns);
    Readings(start, turns);
  }

  /** After the end nothing changes any more. */
  lemma EndIsFinal(threshold: nat, start: int, turns: seq<Turn>)
    requires turns != [] && !Alive(start, Front(turns))
    ensures Run(threshold, start, turns) == Run(threshold, start, Front(turns)) && !Alive(start, turns)
  {
    LoopClocks(threshold, start, Front(turns));
    Readings(start, turns);
  }

  // ---------- Accounting ----------

  lemma ReportsIff(threshold: nat, start: int, turns: seq<Turn>)
    requires turns != []
    ensures var (s, turn) := (Run(threshold, start, Front(turns)), Last(turns));
            && s.tm == Opened(start, Front(turns)) && (s.exit == Running <==> Taken(start, turns))
            && (Reports(start, turns) <==>
                  s.exit == Running && Armed(s, turn).exit == Running && Elapsed(s.tm, turn.sampleAt) >= 1000 && !turn.blocked)
  {
    LoopClocks(threshold, start, Front(turns));
    Readings(start, turns);
  }

  /** One turn of a relay that runs: what is charged. */
  lemma StepCharges(threshold: nat, s: State, turn: Turn)
    requires s.exit == Running
    ensures var (s1, s', n) := (Armed(s, turn), Step(threshold, s, turn), Elapsed(s.tm, turn.sampleAt));
            var w := if turn.arm.Recv? then 8 * |turn.arm.bytes| else 0;
            && s'.total == s.total + w && s'.all == s.all + w
            && s'.single == s.single + (if s.blacked || s.downgrade then 0 else w)
            && s'.slow == s.slow + (if s.blacked || s.downgrade then w else 0)
            && s'.totalS == if s1.exit == Running && n >= 1000 && !turn.blocked then 0 else s.totalS + w
  {
  }

  lemma TurnCharges(threshold: nat, start: int, turns: seq<Turn>)
    requires turns != []
    ensures var (s, s', w) := (Run(threshold, start, Front(turns)), Run(threshold, start, turns), Weight(start, turns));
            && s'.total == s.total + w && s'.all == s.all + w
            && s'.single == s.single + (if s.blacked || s.downgrade then 0 else w)
            && s'.slow == s.slow + (if s.blacked || s.downgrade then w else 0)
            && s'.totalS == (if Reports(start, turns) then 0 else s.totalS + w)
  {
    ReportsIff(threshold, start, turns);
    var s := Run(threshold, start, Front(turns));
    if s.exit == Running {
      StepCharges(threshold, s, Last(turns));
    }
  }

  lemma FramesPush(start: int, turns: seq<Turn>)
    requires turns != []
    ensures 8 * (Octets(Frames(start, turns, FromPeer)) + Octets(Frames(start, turns, FromStream)))
         == 8 * (Octets(Frames(start, Front(turns), FromPeer)) + Octets(Frames(start, Front(turns), FromStream))) + Weight(start, turns)
  {
    var arm := Last(turns).arm;
    if Taken(start, turns) && arm.Recv? {
      OctetsPush(Frames(start, Front(turns), arm.side), arm.bytes);
    }
  }

  lemma BitsPush(start: int, turns: seq<Turn>)
    requires turns != []
    ensures Bits(Windows(start, turns)) + Received(start, turns)
         == Bits(Windows(start, Front(turns))) + Received(start, Front(turns)) + Weight(start, turns)
  {
    if Reports(start, turns) {
      var ws := Windows(start, Front(turns));
      var w := Window(Elapsed(Opened(start, Front(turns)), Last(turns).sampleAt), Received(start, Front(turns)) + Weight(start, turns));
      assert (ws + [w])[..|ws|] == ws;
    }
  }

  lemma OctetsPush(frames: seq<Bytes>, f: Bytes)
    ensures Octets(frames + [f]) == Octets(frames) + |f|
  {
    assert (frames + [f])[..|frames|] == frames;
  }

  lemma {:induction false} Totals(threshold: nat, start: int, turns: seq<Turn>)
    ensures var s := Run(threshold, start, turns);
            && s.total == 8 * (Octets(Frames(start, turns, FromPeer)) + Octets(Frames(start, turns, FromStream)))
            && s.all == s.total && s.single + s.slow == s.total
            && s.total == Bits(Windows(start, turns)) + s.totalS && s.totalS == Received(start, turns)
    decreases |turns|
  {
    if turns == [] {
    } else {
      Totals(threshold, start, Front(turns));
      TurnCharges(threshold, start, turns);
      FramesPush(start, turns);
      BitsPush(start, turns);
    }
  }

  /** Nothing is charged twice or missed: at every loop head and at the exit the two limiters of the
      relay together were charged what the shared one was, which is `total`, which is eight times
      the octets received from both sides. */
  lemma EveryBitIsCharged(threshold: nat, start: int, turns: seq<Turn>)
    ensures var s := Run(threshold, start, turns);
            && s.single + s.slow == s.all == s.total
            && s.total == 8 * (Octets(Frames(start, turns, FromPeer)) + Octets(Frames(start, turns, FromStream)))
  {
    Totals(threshold, start, turns);
  }

  // ---------- Windows and reports ----------

  ghost predicate Long(ws: seq<Window>) {
    forall i :: 0 <= i < |ws| ==> ws[i].ms >= 1000
  }

  function LastSpeed(ws: seq<Window>): nat
    requires ws != [] && Long(ws)
  {
    ws[|ws| - 1].bits / ws[|ws| - 1].ms
  }

  /** The counters are sums and maxima over the sampled windows. */
  ghost predicate Summarises(s: State, ws: seq<Window>) {
    && Long(ws)
    && s.elapsed == Ms(ws) && s.total == Bits(ws) + s.totalS && s.highestS == Peak(ws)
    && s.usage == if ws == [] then None else Some(Usage(Ms(ws), Bits(ws), Peak(ws), LastSpeed(ws)))
  }

  lemma WindowsPush(ws: seq<Window>, w: Window)
    requires Long(ws) && w.ms >= 1000
    ensures var ws' := ws + [w];
            Long(ws') && Ms(ws') == Ms(ws) + w.ms && Bits(ws') == Bits(ws) + w.bits
            && Peak(ws') == Max(Peak(ws), w.bits / w.ms) && LastSpeed(ws') == w.bits / w.ms
  {
    assert (ws + [w])[..|ws|] == ws;
  }

  /** The counters after a report of a window of `n` ms in which `bits` bits came. */
  predicate Closes(s: State, s': State, n: nat, bits: nat) {
    n > 0 && s'.elapsed == s.elapsed + n && s'.highestS == Max(s.highestS, bits / n)
    && s'.usage == Some(Usage(s'.elapsed, s'.total, s'.highestS, bits / n))
  }

  lemma SampleCloses(threshold: nat, s: State, turn: Turn, n: nat)
    requires n > 0 && !turn.blocked
    ensures Closes(s, Sampled(threshold, s, turn, n), n, s.totalS) && Sampled(threshold, s, turn, n).total == s.total
  {
  }

  /** One turn of a relay that runs: is it reported, and with what? */
  lemma StepCloses(threshold: nat, s: State, turn: Turn)
    requires s.exit == Running
    ensures var (s1, s', n) := (Armed(s, turn), Step(threshold, s, turn), Elapsed(s.tm, turn.sampleAt));
            && s1.totalS == s.totalS + (if turn.arm.Recv? then 8 * |turn.arm.bytes| else 0)
            && if s1.exit == Running && n >= 1000 && !turn.blocked then Closes(s, s', n, s1.totalS)
               else s'.elapsed == s.elapsed && s'.highestS == s.highestS && s'.usage == s.usage
  {
    var (s1, n) := (Armed(s, turn), Elapsed(s.tm, turn.sampleAt));
    if s1.exit == Running && n >= 1000 && !turn.blocked {
      SampleCloses(threshold, s1, turn, n);
    }
  }

  lemma TurnReports(threshold: nat, start: int, turns: seq<Turn>)
    requires turns != []
    ensures var (s, s') := (Run(threshold, start, Front(turns)), Run(threshold, start, turns));
            if Reports(start, turns)
            then Closes(s, s', Elapsed(Opened(start, Front(turns)), Last(turns).sampleAt), s.totalS + Weight(start, turns))
            else s'.elapsed == s.elapsed && s'.highestS == s.highestS && s'.usage == s.usage
  {
    ReportsIff(threshold, start, turns);
    var s := Run(threshold, start, Front(turns));
    if s.exit == Running {
      StepCloses(threshold, s, Last(turns));
    }
  }

  lemma WindowIsLong(start: int, turns: seq<Turn>)
    requires turns != [] && Reports(start, turns)
    ensures Elapsed(Opened(start, Front(turns)), Last(turns).sampleAt) >= 1000
  {
  }

  lemma ClosesSummary(s: State, s': State, ws: seq<Window>, w: Window)
    requires Summarises(s, ws) && w.ms >= 1000 && Closes(s, s', w.ms, w.bits)
    requires s'.totalS == 0 && s'.total == Bits(ws) + w.bits
    ensures Summarises(s', ws + [w])
  {
    WindowsPush(ws, w);
  }

  lemma ReportPushes(threshold: nat, start: int, turns: seq<Turn>)
    requires turns != [] && Summarises(Run(threshold, start, Front(turns)), Windows(start, Front(turns))) && Reports(start, turns)
    ensures Summarises(Run(threshold, start, turns), Windows(start, turns))
  {
    WindowIsLong(start, turns);
    var (s, s', ws) := (Run(threshold, start, Front(turns)), Run(threshold, start, turns), Windows(start, Front(turns)));
    var w := Window(Elapsed(Opened(start, Front(turns)), Last(turns).sampleAt), Received(start, Front(turns)) + Weight(start, turns));
    TurnReports(threshold, start, turns);
    Totals(threshold, start, Front(turns));
    TurnCharges(threshold, start, turns);
    ClosesSummary(s, s', ws, w);
    assert Windows(start, turns) == ws + [w];
  }

  /** At every point the report in USAGE is: the sum of the sampled windows, the bits received in
      them, the greatest window speed and the last one. */
  lemma {:induction false} ReportsSummarise(threshold: nat, start: int, turns: seq<Turn>)
    ensures Summarises(Run(threshold, start, turns), Windows(start, turns))
    decreases |turns|
  {
    if turns == [] {
    } else {
      ReportsSummarise(threshold, start, Front(turns));
      if Reports(start, turns) {
        ReportPushes(threshold, start, turns);
      } else {
        TurnReports(threshold, start, turns);
        Totals(threshold, start, Front(turns));
        Totals(threshold, start, turns);
      }
    }
  }

  lemma MulMono(a: nat, b: nat, n: nat)
    requires a <= b
    ensures n * a <= n * b
  {
  }

  lemma DivBelow(x: nat, n: nat, q: nat)
    requires n > 0 && x < n * (q + 1)
    ensures x / n <= q
  {
    if x / n >= q + 1 {
      MulMono(q + 1, x / n, n);
    }
  }

  lemma SumsBelow(b1: nat, m1: nat, b2: nat, m2: nat, q: nat)
    requires b1 < m1 * q || (b1 == 0 && m1 == 0)
    requires b2 < m2 * q
    ensures b1 + b2 < (m1 + m2) * q
  {
    assert (m1 + m2) * q == m1 * q + m2 * q;
  }

  lemma WindowBelow(w: Window, q: nat)
    requires w.ms > 0 && w.bits / w.ms < q
    ensures w.bits < w.ms * q
  {
    MulMono(w.bits / w.ms + 1, q, w.ms);
    assert w.bits < w.ms * (w.bits / w.ms + 1);
  }

  /** Bits in a window stay below any bound above the peak times its length; hence so do their sums. */
  lemma {:induction false} BitsBelow(ws: seq<Window>, q: nat)
    requires Long(ws) && ws != [] && Peak(ws) < q
    ensures Bits(ws) < Ms(ws) * q && Ms(ws) >= 1000
    decreases |ws|
  {
    var (front, w) := (ws[..|ws| - 1], ws[|ws| - 1]);
    WindowBelow(w, q);
    if front != [] {
      BitsBelow(front, q);
    }
    SumsBelow(Bits(front), Ms(front), w.bits, w.ms, q);
  }

  /** The average speed printed by the `usage` command never exceeds the peak printed beside it,
      nor does the current speed. */
  lemma AverageNeverExceedsPeak(threshold: nat, start: int, turns: seq<Turn>)
    ensures var u := Run(threshold, start, turns).usage;
            u.Some? ==> u.value.elapsed > 0 && u.value.total / u.value.elapsed <= u.value.highest && u.value.speed <= u.value.highest
  {
    ReportsSummarise(threshold, start, turns);
    var ws := Windows(start, turns);
    if ws != [] {
      BitsBelow(ws, Peak(ws) + 1);
      DivBelow(Bits(ws), Ms(ws), Peak(ws));
    }
  }

  // ---------- Downgrade and black list ----------

  /** The last turn ends in a report that finds the relay older than the start check, and its average over
      all reported windows above the threshold. */
  predicate TooFast(threshold: nat, start: int, turns: seq<Turn>) {
    && Reports(start, turns)
    && Ms(Windows(start, turns)) > Last(turns).startCheck
    && Bits(Windows(start, turns)) > Ms(Windows(start, turns)) * threshold
  }

  /** One turn of a relay that runs: is it judged, and how? */
  lemma StepJudges(threshold: nat, s: State, turn: Turn)
    requires s.exit == Running
    ensures var (s1, s', n) := (Armed(s, turn), Step(threshold, s, turn), Elapsed(s.tm, turn.sampleAt));
            s'.downgrade <==> s.downgrade || (s1.exit == Running && n >= 1000 && !turn.blocked
                                              && s'.elapsed > turn.startCheck && s'.total > s'.elapsed * threshold)
  {
  }

  lemma DowngradeStep(threshold: nat, start: int, turns: seq<Turn>)
    requires turns != []
    ensures Run(threshold, start, turns).downgrade
            <==> Run(threshold, start, Front(turns)).downgrade || TooFast(threshold, start, turns)
  {
    ReportsIff(threshold, start, turns);
    ReportsSummarise(threshold, start, turns);
    TurnCharges(threshold, start, turns);
    var s := Run(threshold, start, Front(turns));
    if s.exit == Running {
      StepJudges(threshold, s, Last(turns));
    }
  }

  /** A relay is downgraded exactly if at some report so far it was older than the start check of that moment,
      and had received more bits than the threshold allows for the time reported. */
  lemma {:induction false} DowngradeIff(threshold: nat, start: int, turns: seq<Turn>)
    ensures Run(threshold, start, turns).downgrade
            <==> exists k :: 0 <= k <= |turns| && TooFast(threshold, start, turns[..k])
    decreases |turns|
  {
    if turns == [] {
    } else {
      var front := Front(turns);
      DowngradeIff(threshold, start, front);
      DowngradeStep(threshold, start, turns);
      assert turns[..|turns|] == turns;
      assert forall k :: 0 <= k <= |front| ==> front[..k] == turns[..k];
    }
  }

  /** What the black list said at the last report. */
  function LastBlack(start: int, turns: seq<Turn>): bool {
    if turns == [] then false
    else if Reports(start, turns) then Last(turns).black
    else LastBlack(start, Front(turns))
  }

  /** Bits received while the relay is neither downgraded nor, by its last report, black-listed. */
  function Unlimited(threshold: nat, start: int, turns: seq<Turn>): nat {
    if turns == [] then 0
    else
      Unlimited(threshold, start, Front(turns))
      + (if !Run(threshold, start, Front(turns)).downgrade && !LastBlack(start, Front(turns)) then Weight(start, turns) else 0)
  }

  /** The normal limiter is charged exactly the traffic that no restriction applies to; taking an
      address off the black list lifts its restriction at the next report. */
  lemma {:induction false} NormalLimiterTakesTheUnlimited(threshold: nat, start: int, turns: seq<Turn>)
    ensures Run(threshold, start, turns).blacked == LastBlack(start, turns)
    ensures Run(threshold, start, turns).single == Unlimited(threshold, start, turns)
    decreases |turns|
  {
    if turns == [] {
    } else {
      NormalLimiterTakesTheUnlimited(threshold, start, Front(turns));
      LoopClocks(threshold, start, Front(turns));
      Readings(start, turns);
    }
  }

  /** A downgrade is justified: some sampled window really ran at the threshold or above. */
  lemma DowngradeIsJustified(threshold: nat, start: int, turns: seq<Turn>)
    requires Run(threshold, start, turns).downgrade
    ensures Run(threshold, start, turns).highestS >= threshold
    ensures exists i :: 0 <= i < |Windows(start, turns)|
              && Windows(start, turns)[i].bits >= threshold * Windows(start, turns)[i].ms
  {
    DowngradeIff(threshold, start, turns);
    ReportsSummarise(threshold, start, turns);
    var k :| 0 <= k <= |turns| && TooFast(threshold, start, turns[..k]);
    var ws := Windows(start, turns[..k]);
    ReportsSummarise(threshold, start, turns[..k]);
    if Peak(ws) < threshold {
      BitsBelow(ws, threshold);
    }
    PeakGrows(threshold, start, turns, k);
    PeakIsAWindow(Windows(start, turns), threshold);
  }

  lemma {:induction false} PeakGrows(threshold: nat, start: int, turns: seq<Turn>, k: nat)
    requires k <= |turns| && Windows(start, turns[..k]) != []
    ensures Run(threshold, start, turns[..k]).highestS <= Run(threshold, start, turns).highestS
    ensures Windows(start, turns) != []
    decreases |turns|
  {
    if k == |turns| {
      assert turns[..k] == turns;
    } else {
      assert Front(turns)[..k] == turns[..k];
      PeakGrows(threshold, start, Front(turns), k);
      TurnReports(threshold, start, turns);
    }
  }

  lemma {:induction false} PeakIsAWindow(ws: seq<Window>, threshold: nat)
    requires Long(ws) && ws != [] && Peak(ws) >= threshold
    ensures exists i :: 0 <= i < |ws| && ws[i].bits >= threshold * ws[i].ms
    decreases |ws|
  {
    var (front, w) := (ws[..|ws| - 1], ws[|ws| - 1]);
    if w.bits / w.ms >= threshold {
      MulMono(threshold, w.bits / w.ms, w.ms);
      assert ws[|ws| - 1].bits >= threshold * ws[|ws| - 1].ms;
    } else if front == [] {
      assert Peak(front) == 0;
      assert ws[0].bits >= 0 * ws[0].ms;
    } else {
      PeakIsAWindow(front, threshold);
      var i :| 0 <= i < |front| && front[i].bits >= threshold * front[i].ms;
      assert ws[i] == front[i];
    }
  }

  /** A downgrade is for good: from then on not one bit is charged to the normal limiter. */
  lemma {:induction false} DowngradeIsSticky(threshold: nat, start: int, turns: seq<Turn>, k: nat)
    requires k <= |turns| && Run(threshold, start, turns[..k]).downgrade
    ensures Run(threshold, start, turns).downgrade
    ensures Run(threshold, start, turns).single == Run(threshold, start, turns[..k]).single
    decreases |turns|
  {
    if k == |turns| {
      assert turns[..k] == turns;
    } else {
      assert Front(turns)[..k] == turns[..k];
      DowngradeIsSticky(threshold, start, Front(turns), k);
      DowngradeStep(threshold, start, turns);
      NormalLimiterTakesTheUnlimited(threshold, start, turns);
      NormalLimiterTakesTheUnlimited(threshold, start, Front(turns));
    }
  }

  /** The threshold in whole bits per millisecond: the greatest number that stays within the given percentage
      of a bandwidth given in bits per second. */
  lemma ThresholdIsTheFloor(singleBandwidth: nat, percent: nat)
    ensures var t := Threshold(singleBandwidth, percent);
            1000 * t * 100 <= singleBandwidth * percent < 1000 * (t + 1) * 100
  {
  }

  // ---------- Forwarding ----------

  function Out(s: State, side: Side): seq<Bytes> {
    if side.FromPeer? then s.toStream else s.toPeer
  }

  lemma NonEmptyPush(frames: seq<Bytes>, f: Bytes)
    ensures NonEmpty(frames + [f]) == if f == [] then NonEmpty(frames) else NonEmpty(frames) + [f]
  {
    assert (frames + [f])[..|frames|] == frames;
  }

  lemma TurnPasses(threshold: nat, start: int, turns: seq<Turn>, side: Side)
    requires turns != []
    ensures var (s, s', arm) := (Run(threshold, start, Front(turns)), Run(threshold, start, turns), Last(turns).arm);
            var carries := Taken(start, turns) && arm.Recv? && arm.side == side && arm.bytes != [];
            && (s'.exit == SendFailed(side) <==> s.exit == SendFailed(side) || (carries && !arm.sent))
            && Out(s', side) == if carries && arm.sent then Out(s, side) + [arm.bytes] else Out(s, side)
  {
    LoopClocks(threshold, start, Front(turns));
    Readings(start, turns);
  }

  /** What one side is sent is, in order and unmixed, exactly the non-empty frames received from the
      other, less the very last one if passing that one on failed and so ended the relay. */
  lemma {:induction false} ForwardingIsFaithful(threshold: nat, start: int, turns: seq<Turn>, side: Side)
    ensures var s := Run(threshold, start, turns);
            var due := NonEmpty(Frames(start, turns, side));
            if s.exit == SendFailed(side) then due != [] && Out(s, side) == due[..|due| - 1] else Out(s, side) == due
    decreases |turns|
  {
    if turns == [] {
    } else {
      ForwardingIsFaithful(threshold, start, Front(turns), side);
      TurnPasses(threshold, start, turns, side);
      LoopClocks(threshold, start, Front(turns));
      if Taken(start, turns) && Last(turns).arm.Recv? {
        NonEmptyPush(Frames(start, Front(turns), side), Last(turns).arm.bytes);
      }
    }
  }

  // ---------- Time ----------

  /** The clock never goes back, neither within a turn nor between turns. */
  ghost predicate Clocked(start: int, turns: seq<Turn>) {
    && (forall i :: 0 <= i < |turns| ==> start <= turns[i].at <= turns[i].sampleAt <= turns[i].resumeAt)
    && (forall i, j :: 0 <= i < j < |turns| ==> turns[i].resumeAt <= turns[j].at)
  }

  /** Reported time never runs ahead of the clock: windows do not overlap. */
  lemma {:induction false} ElapsedIsRealTime(threshold: nat, start: int, turns: seq<Turn>)
    requires Clocked(start, turns)
    ensures var s := Run(threshold, start, turns);
            start + s.elapsed <= s.tm && s.tm <= (if turns == [] then start else Last(turns).resumeAt)
    decreases |turns|
  {
    if turns == [] {
    } else {
      ElapsedIsRealTime(threshold, start, Front(turns));
      LoopClocks(threshold, start, Front(turns));
      LoopClocks(threshold, start, turns);
      TurnReports(threshold, start, turns);
    }
  }

  /** Turn `i` received a frame, empty or not. */
  predicate GotFrame(start: int, turns: seq<Turn>, i: nat)
    requires i < |turns|
  {
    turns[i].arm.Recv? && Taken(start, turns[..i + 1])
  }

  lemma {:induction false} LastFrameIsLatest(start: int, turns: seq<Turn>, i: nat)
    requires Clocked(start, turns) && i < |turns| && GotFrame(start, turns, i)
    ensures LastFrame(start, turns) >= turns[i].at
    decreases |turns|
  {
    if i == |turns| - 1 {
      assert turns[..i + 1] == turns;
    } else {
      assert Front(turns)[..i + 1] == turns[..i + 1];
      LastFrameIsLatest(start, Front(turns), i);
    }
  }

  lemma {:induction false} LastFrameIsAFrame(start: int, turns: seq<Turn>)
    ensures var t := LastFrame(start, turns);
            t == start || exists i :: 0 <= i < |turns| && GotFrame(start, turns, i) && turns[i].at == t
    decreases |turns|
  {
    if turns == [] {
    } else if Taken(start, turns) && Last(turns).arm.Recv? {
      assert turns[..|turns|] == turns;
      assert GotFrame(start, turns, |turns| - 1);
    } else {
      LastFrameIsAFrame(start, Front(turns));
      if i :| 0 <= i < |turns| - 1 && GotFrame(start, Front(turns), i) && turns[i].at == LastFrame(start, turns) {
        assert Front(turns)[..i + 1] == turns[..i + 1];
        assert GotFrame(start, turns, i);
      }
    }
  }

  lemma {:induction false} StartIsEarliest(start: int, turns: seq<Turn>)
    requires Clocked(start, turns)
    ensures start <= LastFrame(start, turns)
    decreases |turns|
  {
    if turns == [] {
    } else {
      StartIsEarliest(start, Front(turns));
    }
  }

  /** At time `at` the relay is at least 31 s old and got no frame from either side in the last 31 s. */
  ghost predicate Silent(start: int, turns: seq<Turn>, at: int) {
    start + 31_000 <= at
    && forall i :: 0 <= i < |turns| && GotFrame(start, turns, i) ==> turns[i].at + 31_000 <= at
  }

  lemma SilentIff(start: int, turns: seq<Turn>, at: int)
    requires Clocked(start, turns)
    ensures Silent(start, turns, at) <==> LastFrame(start, turns) + 31_000 <= at
  {
    StartIsEarliest(start, turns);
    LastFrameIsAFrame(start, turns);
    forall i | 0 <= i < |turns| && GotFrame(start, turns, i)
      ensures turns[i].at <= LastFrame(start, turns)
    {
      LastFrameIsLatest(start, turns, i);
    }
  }

  /** A turn times the relay out exactly if it is a tick that finds it silent. */
  lemma TimeoutIffSilence(threshold: nat, start: int, turns: seq<Turn>)
    requires Clocked(start, turns) && Taken(start, turns)
    ensures Run(threshold, start, turns).exit == TimedOut
            <==> Last(turns).arm.Tick? && Silent(start, Front(turns), Last(turns).at)
  {
    SilentIff(start, Front(turns), Last(turns).at);
    EndsIff(threshold, start, turns);
  }
}
