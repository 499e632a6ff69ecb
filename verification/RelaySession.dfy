/** One relay: frames copied both ways, bits accounted to limiters, a speed sample about every
    second, a downgrade to the slow limiter when the average stays too high. */
module RelaySession {
  import opened Net

  datatype Side = FromPeer | FromStream

  /** The arm of the `select!` that fires; `sent` tells whether passing the frame on succeeds. */
  datatype Arm = Recv(side: Side, bytes: Bytes, sent: bool) | End(side: Side) | Tick

  /** One turn of the loop: when its arm fires, when the sample clock is read, when it is restarted,
      and what the block list, the black list and the start-check setting say at the sample. */
  datatype Turn = Turn(arm: Arm, at: int, sampleAt: int, resumeAt: int, blocked: bool, black: bool, startCheck: nat)

  datatype Exit = Running | Closed | Blocked | TimedOut | SendFailed(side: Side)

  datatype Usage = Usage(elapsed: nat, total: nat, highest: nat, speed: nat)

  datatype State = State(
    tm: int, lastRecv: int, elapsed: nat, total: nat, totalS: nat, highestS: nat, downgrade: bool, blacked: bool,
    single: nat, slow: nat, all: nat,                       // bits charged to the three limiters
    toStream: seq<Bytes>, toPeer: seq<Bytes>,               // frames passed on
    usage: Option<Usage>, exit: Exit)

  /** `(sb * DOWNGRADE_THRESHOLD_100 as f64 / 100. / 1000.) as usize`, in bits per ms. */
  function Threshold(singleBandwidth: nat, percent: nat): nat {
    singleBandwidth * percent / 100_000
  }

  function Start(now: int): State {
    State(now, now, 0, 0, 0, 0, false, false, 0, 0, 0, [], [], None, Running)
  }

  // ---------- One turn ----------

  /** Bits are charged to one of the two limiters of this relay and to the one all relays share. */
  function Charged(s: State, nb: nat, at: int): State {
    var limited := s.blacked || s.downgrade;
    s.(lastRecv := at, total := s.total + nb, totalS := s.totalS + nb, all := s.all + nb,
       single := s.single + (if limited then 0 else nb), slow := s.slow + (if limited then nb else 0))
  }

  /** A non-empty frame goes to the other side. */
  function Passed(s: State, side: Side, bytes: Bytes, sent: bool): State {
    if bytes == [] then s
    else if !sent then s.(exit := SendFailed(side))
    else if side.FromPeer? then s.(toStream := s.toStream + [bytes])
    else s.(toPeer := s.toPeer + [bytes])
  }

  function Armed(s: State, turn: Turn): State {
    match turn.arm
    case Recv(side, bytes, sent) => Passed(Charged(s, 8 * |bytes|, turn.at), side, bytes, sent)
    case End(_) => s.(exit := Closed)
    case Tick => if SecsExceed(s.lastRecv, turn.at, 30) then s.(exit := TimedOut) else s
  }

  function Max(a: nat, b: nat): nat { if a > b then a else b }

  /** The window of length `n` is closed and reported. */
  function Reported(s: State, turn: Turn, n: nat): State
    requires n > 0
  {
    var speed := s.totalS / n;
    var highest := Max(s.highestS, speed);
    s.(blacked := turn.black, tm := turn.resumeAt, highestS := highest, elapsed := s.elapsed + n, totalS := 0,
       usage := Some(Usage(s.elapsed + n, s.total, highest, speed)))
  }

  /** The average so far is above the threshold, and the relay is old enough to be judged. */
  predicate Above(s: State, startCheck: nat, threshold: nat) {
    s.elapsed > startCheck && s.total > s.elapsed * threshold
  }

  function Judged(threshold: nat, s: State, startCheck: nat): State {
    s.(downgrade := s.downgrade || Above(s, startCheck, threshold))
  }

  /** The sample at the end of a turn that did not leave the loop; `n` is the window's length. */
  function Sampled(threshold: nat, s: State, turn: Turn, n: nat): State
    requires n > 0
  {
    if turn.blocked then s.(exit := Blocked) else Judged(threshold, Reported(s, turn, n), turn.startCheck)
  }

  function Step(threshold: nat, s: State, turn: Turn): State {
    var s1 := Armed(s, turn);
    var n := Elapsed(s1.tm, turn.sampleAt);
    if s1.exit != Running || n < 1000 then s1 else Sampled(threshold, s1, turn, n)
  }

  /** The session after these turns; turns after the end are not taken. */
  function Run(threshold: nat, start: int, turns: seq<Turn>): State {
    if turns == [] then Start(start)
    else
      var s := Run(threshold, start, turns[..|turns| - 1]);
      if s.exit != Running then s else Step(threshold, s, turns[|turns| - 1])
  }

  class Relay {
    const threshold: nat
    var tm: int
    var lastRecv: int
    var elapsed: nat
    var total: nat
    var totalS: nat
    var highestS: nat
    var downgrade: bool
    var blacked: bool
    var single: nat
    var slow: nat
    var all: nat
    var toStream: seq<Bytes>
    var toPeer: seq<Bytes>
    var usage: Option<Usage>
    var exit: Exit

    ghost function Abs(): State
      reads this
    {
      State(tm, lastRecv, elapsed, total, totalS, highestS, downgrade, blacked, single, slow, all, toStream, toPeer, usage, exit)
    }

    constructor (singleBandwidth: nat, percent: nat, now: int)
      ensures threshold == Threshold(singleBandwidth, percent) && Abs() == Start(now)
    {
      threshold := singleBandwidth * percent / 100_000;
      tm, lastRecv, elapsed, total, totalS, highestS := now, now, 0, 0, 0, 0;
      downgrade, blacked, single, slow, all := false, false, 0, 0, 0;
      toStream, toPeer, usage, exit := [], [], None, Running;
    }

    method Charge(nb: nat, at: int)
      modifies this
      ensures Abs() == Charged(old(Abs()), nb, at)
    {
      lastRecv := at;
      if blacked || downgrade {
        slow := slow + nb;
      } else {
        single := single + nb;
      }
      all := all + nb;
      total := total + nb;
      totalS := totalS + nb;
    }

    method Pass(side: Side, bytes: Bytes, sent: bool)
      modifies this`toStream, this`toPeer, this`exit
      ensures Abs() == Passed(old(Abs()), side, bytes, sent)
    {
      if bytes != [] {
        if !sent {
          exit := SendFailed(side);
        } else if side.FromPeer? {
          toStream := toStream + [bytes];
        } else {
          toPeer := toPeer + [bytes];
        }
      }
    }

    method Report(turn: Turn, n: nat)
      requires n > 0
      modifies this`blacked, this`tm, this`highestS, this`elapsed, this`totalS, this`usage
      ensures Abs() == Reported(old(Abs()), turn, n)
    {
      blacked := turn.black;
      tm := turn.resumeAt;
      var speed := totalS / n;
      if speed > highestS {
        highestS := speed;
      }
      elapsed := elapsed + n;
      usage := Some(Usage(elapsed, total, highestS, speed));
      totalS := 0;
    }

    method Judge(startCheck: nat)
      modifies this`downgrade
      ensures Abs() == Judged(threshold, old(Abs()), startCheck)
    {
      if elapsed > startCheck && !downgrade && total > elapsed * threshold {
        downgrade := true;
      }
    }

    method Sample(turn: Turn, n: nat)
      requires n >= 1000
      modifies this
      ensures Abs() == Sampled(threshold, old(Abs()), turn, n)
    {
      if turn.blocked {
        exit := Blocked;
        return;
      }
      Report(turn, n);
      Judge(turn.startCheck);
    }

    method Arm(turn: Turn)
      modifies this
      ensures Abs() == Armed(old(Abs()), turn)
    {
      match turn.arm {
        case Recv(side, bytes, sent) =>
          Charge(|bytes| * 8, turn.at);
          Pass(side, bytes, sent);
        case End(_) => exit := Closed;
        case Tick =>
          if SecsExceed(lastRecv, turn.at, 30) {
            exit := TimedOut;
          }
      }
    }

    /** The body of the loop. */
    method Take(turn: Turn)
      modifies this
      ensures Abs() == Step(threshold, old(Abs()), turn)
    {
      Arm(turn);
      if exit == Running {
        var n := Elapsed(tm, turn.sampleAt);
        if n >= 1_000 {
          Sample(turn, n);
        }
      }
    }

    /** The loop, for a given sequence of turns. */
    method Loop(turns: seq<Turn>, ghost start: int)
      requires Abs() == Start(start)
      modifies this
      ensures Abs() == Run(threshold, start, turns)
    {
      var i := 0;
      assert turns[..0] == [];
      while i < |turns| && exit == Running
        invariant 0 <= i <= |turns|
        invariant Abs() == Run(threshold, start, turns[..i])
      {
        assert turns[..i + 1][..i] == turns[..i];
        Take(turns[i]);
        i := i + 1;
      }
      Stopped(threshold, start, turns, i);
    }
  }

  lemma {:induction false} Stopped(threshold: nat, start: int, turns: seq<Turn>, i: nat)
    requires i <= |turns| && (i == |turns| || Run(threshold, start, turns[..i]).exit != Running)
    ensures Run(threshold, start, turns) == Run(threshold, start, turns[..i])
    decreases |turns|
  {
    if i < |turns| {
      var front := turns[..|turns| - 1];
      assert front[..i] == turns[..i];
      Stopped(threshold, start, front, i);
    } else {
      assert turns[..i] == turns;
    }
  }

  // ---------- What happened, read off the turns alone ----------

  function Front(turns: seq<Turn>): seq<Turn>
    requires turns != []
  {
    turns[..|turns| - 1]
  }

  function Last(turns: seq<Turn>): Turn
    requires turns != []
  {
    turns[|turns| - 1]
  }

  /** The relay has not ended. */
  predicate Alive(start: int, turns: seq<Turn>)
    decreases |turns|, 3
  {
    turns == [] || (Passes(start, turns) && !(Due(start, turns) && Last(turns).blocked))
  }

  /** The last turn is really taken. */
  predicate Taken(start: int, turns: seq<Turn>)
    decreases |turns|, 0
  {
    turns != [] && Alive(start, Front(turns))
  }

  /** The time of the last frame, empty or not, from either side. */
  function LastFrame(start: int, turns: seq<Turn>): int
    decreases |turns|, 1
  {
    if turns == [] then start
    else if Taken(start, turns) && Last(turns).arm.Recv? then Last(turns).at
    else LastFrame(start, Front(turns))
  }

  /** The last turn's arm leaves the relay going: no end of stream, no failed send, no tick after 31 s
      without a frame. */
  predicate Passes(start: int, turns: seq<Turn>)
    decreases |turns|, 1
  {
    && Taken(start, turns)
    && match Last(turns).arm
       case Recv(_, bytes, sent) => bytes == [] || sent
       case End(_) => false
       case Tick => Last(turns).at - LastFrame(start, Front(turns)) < 31_000
  }

  /** When the current window was opened: at the start, or after the last report. */
  function Opened(start: int, turns: seq<Turn>): int
    decreases |turns|, 3
  {
    if turns == [] then start
    else if Reports(start, turns) then Last(turns).resumeAt
    else Opened(start, Front(turns))
  }

  /** The last turn ends in a sample, */
  predicate Due(start: int, turns: seq<Turn>)
    decreases |turns|, 2
  {
    turns != [] && Passes(start, turns) && Last(turns).sampleAt - Opened(start, Front(turns)) >= 1000
  }

  /** and in a report, unless the address is blocked. */
  predicate Reports(start: int, turns: seq<Turn>)
    decreases |turns|, 2
  {
    turns != [] && Passes(start, turns) && Last(turns).sampleAt - Opened(start, Front(turns)) >= 1000 && !Last(turns).blocked
  }

  /** The frames received from one side, in order. */
  function Frames(start: int, turns: seq<Turn>, side: Side): seq<Bytes> {
    if turns == [] then []
    else
      var before := Frames(start, Front(turns), side);
      var arm := Last(turns).arm;
      if Taken(start, turns) && arm.Recv? && arm.side == side then before + [arm.bytes] else before
  }

  function Octets(frames: seq<Bytes>): nat {
    if frames == [] then 0 else Octets(frames[..|frames| - 1]) + |frames[|frames| - 1]|
  }

  function NonEmpty(frames: seq<Bytes>): seq<Bytes> {
    if frames == [] then []
    else
      var (before, f) := (NonEmpty(frames[..|frames| - 1]), frames[|frames| - 1]);
      if f == [] then before else before + [f]
  }

  /** A sampled window: its length in ms and the bits received in it. */
  datatype Window = Window(ms: nat, bits: nat)

  /** Bits of the frame that the last turn received, if it did. */
  function Weight(start: int, turns: seq<Turn>): nat
    requires turns != []
  {
    if Taken(start, turns) && Last(turns).arm.Recv? then 8 * |Last(turns).arm.bytes| else 0
  }

  /** Bits received since the current window was opened. */
  function Received(start: int, turns: seq<Turn>): nat {
    if turns == [] || Reports(start, turns) then 0 else Received(start, Front(turns)) + Weight(start, turns)
  }

  function Windows(start: int, turns: seq<Turn>): seq<Window> {
    if turns == [] then []
    else if Reports(start, turns) then
      Windows(start, Front(turns)) + [Window(Elapsed(Opened(start, Front(turns)), Last(turns).sampleAt),
                                             Received(start, Front(turns)) + Weight(start, turns))]
    else Windows(start, Front(turns))
  }

  function Ms(ws: seq<Window>): nat {
    if ws == [] then 0 else Ms(ws[..|ws| - 1]) + ws[|ws| - 1].ms
  }

  function Bits(ws: seq<Window>): nat {
    if ws == [] then 0 else Bits(ws[..|ws| - 1]) + ws[|ws| - 1].bits
  }

  function Peak(ws: seq<Window>): nat
    requires forall i :: 0 <= i < |ws| ==> ws[i].ms > 0
  {
    if ws == [] then 0 else Max(Peak(ws[..|ws| - 1]), ws[|ws| - 1].bits / ws[|ws| - 1].ms)
  }
}
