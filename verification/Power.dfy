/** Track power as throttle/power.go derives it from the station's replies. */
module Power {
  import opened Results
  import opened Messages

  const OUTPUTS: nat := 8
  const LETTERS := "ABCDEFGH"

  type Modes = s: seq<string> | |s| == OUTPUTS witness seq(8, _ => "")
  type Powers = s: seq<PowerState> | |s| == OUTPUTS witness seq(8, _ => Unreported)

  datatype Board = Board(modes: Modes, powers: Powers, main: PowerState, prog: PowerState, overload: bool)

  function NoModes(): Modes {
    seq(OUTPUTS, _ => "")
  }

  function NoPowers(): Powers {
    seq(OUTPUTS, _ => Unreported)
  }

  function NoBoard(): Board {
    Board(NoModes(), NoPowers(), Unreported, Unreported, false)
  }

  predicate PlaysRole(mode: string, role: string) {
    mode == role || role + "_" <= mode
  }

  predicate Plays(modes: Modes, role: string, n: int) {
    0 <= n < OUTPUTS && PlaysRole(modes[n], role)
  }

  /** The power of a role: what its mapped outputs say together, or else the fallback. */
  function Group(modes: Modes, powers: Powers, role: string, fallback: PowerState): PowerState {
    if !exists n | 0 <= n < OUTPUTS :: Plays(modes, role, n) then fallback
    else if exists n | 0 <= n < OUTPUTS :: Plays(modes, role, n) && powers[n] == Overload then Overload
    else if exists n | 0 <= n < OUTPUTS :: Plays(modes, role, n) && powers[n] != On && powers[n] != Off then Unreported
    else if forall n | 0 <= n < OUTPUTS && Plays(modes, role, n) :: powers[n] == On then On
    else if forall n | 0 <= n < OUTPUTS && Plays(modes, role, n) :: powers[n] == Off then Off
    else Mixed
  }

  /** How many of the first n outputs play the role and, given a state, report it. */
  function Tally(modes: Modes, powers: Powers, role: string, state: Option<PowerState>, n: nat): nat
    requires n <= OUTPUTS
  {
    if n == 0 then 0
    else Tally(modes, powers, role, state, n - 1)
         + if Plays(modes, role, n - 1) && (state == None || state == Some(powers[n - 1])) then 1 else 0
  }

  lemma {:induction false} TallyIsTotal(modes: Modes, powers: Powers, role: string, state: PowerState, n: nat)
    requires n <= OUTPUTS
    ensures var some, all := Tally(modes, powers, role, Some(state), n), Tally(modes, powers, role, None, n);
            && some <= all
            && (some == all <==> forall m | 0 <= m < n && Plays(modes, role, m) :: powers[m] == state)
            && (all == 0 <==> forall m | 0 <= m < n :: !Plays(modes, role, m))
  {
    if n > 0 {
      TallyIsTotal(modes, powers, role, state, n - 1);
    }
  }

  /** The counting loop of updateTrackPower for one role. */
  method CountGroup(modes: Modes, powers: Powers, role: string, fallback: PowerState) returns (state: PowerState)
    ensures state == Group(modes, powers, role, fallback)
  {
    var count, on, off, unknown := 0, 0, 0, false;
    for n := 0 to OUTPUTS
      invariant count == Tally(modes, powers, role, None, n)
      invariant on == Tally(modes, powers, role, Some(On), n)
      invariant off == Tally(modes, powers, role, Some(Off), n)
      invariant forall m | 0 <= m < n && Plays(modes, role, m) :: powers[m] != Overload
      invariant unknown <==> exists m | 0 <= m < n :: Plays(modes, role, m) && powers[m] != On && powers[m] != Off
    {
      if !PlaysRole(modes[n], role) {
        continue;
      }
      assert Plays(modes, role, n);
      count := count + 1;
      match powers[n]
      case Overload =>
        return Overload;
      case On =>
        on := on + 1;
      case Off =>
        off := off + 1;
      case _ =>
        unknown := true;
    }
    TallyIsTotal(modes, powers, role, On, OUTPUTS);
    TallyIsTotal(modes, powers, role, Off, OUTPUTS);
    if count == 0 {
      return fallback;
    }
    if unknown {
      return Unreported;
    }
    if on == count {
      return On;
    }
    if off == count {
      return Off;
    }
    return Mixed;
  }

  function Updated(b: Board): Board {
    var main := Group(b.modes, b.powers, "MAIN", b.main);
    var prog := Group(b.modes, b.powers, "PROG", b.prog);
    b.(main := main, prog := prog, overload := main == Overload || prog == Overload)
  }

  function OutputIndex(track: string): nat
    requires IsOutput(track)
    ensures OutputIndex(track) < OUTPUTS && LETTERS[OutputIndex(track)] == track[0]
  {
    track[0] as int - 'A' as int
  }

  function Recorded(b: Board, state: PowerState, track: string): Board {
    if track == "MAIN" then b.(main := state)
    else if track == "PROG" then b.(prog := state)
    else if track == "ALL" || track == "JOIN" then b.(main := state, prog := state)
    else if IsOutput(track) then b.(powers := b.powers[OutputIndex(track) := state])
    else b
  }

  function Powered(b: Board, state: PowerState, track: string): Board {
    Updated(Recorded(b, state, track))
  }

  function Moded(b: Board, track: string, mode: string): Board {
    if IsOutput(track) then
      Updated(b.(modes := b.modes[OutputIndex(track) := mode], main := Unreported, prog := Unreported))
    else b
  }

  function Heard(b: Board, e: Event): Board {
    match e
    case TrackPower(_, state, track) => Powered(b, state, track)
    case TrackMode(_, track, mode) => Moded(b, track, mode)
    case _ => b
  }

  // ----------------------------------------------------------------- history

  function BoardAfter(h: seq<Event>): Board {
    if h == [] then NoBoard() else Heard(BoardAfter(h[..|h| - 1]), h[|h| - 1])
  }

  /** The power that output n last reported; Unreported before its first reply. */
  function LastPower(h: seq<Event>, n: nat): PowerState
    requires n < OUTPUTS
  {
    if h == [] then Unreported
    else
      var e := h[|h| - 1];
      if e.TrackPower? && e.track == [LETTERS[n]] then e.state else LastPower(h[..|h| - 1], n)
  }

  function LastMode(h: seq<Event>, n: nat): string
    requires n < OUTPUTS
  {
    if h == [] then ""
    else
      var e := h[|h| - 1];
      if e.TrackMode? && e.track == [LETTERS[n]] then e.mode else LastMode(h[..|h| - 1], n)
  }

  /** The last summary for a role that no track-mode reply has made obsolete. */
  function LastSummary(h: seq<Event>, role: string): PowerState {
    if h == [] then Unreported
    else
      var e := h[|h| - 1];
      if e.TrackMode? && IsOutput(e.track) then Unreported
      else if e.TrackPower? && (e.track == role || e.track == "ALL" || e.track == "JOIN") then e.state
      else LastSummary(h[..|h| - 1], role)
  }

  ghost predicate Maps(h: seq<Event>, role: string, n: nat) {
    n < OUTPUTS && PlaysRole(LastMode(h, n), role)
  }

  /** The power of a role, defined by the replies alone. */
  ghost function RolePower(h: seq<Event>, role: string): PowerState {
    if !exists n: nat :: Maps(h, role, n) then LastSummary(h, role)
    else if exists n: nat :: Maps(h, role, n) && LastPower(h, n) == Overload then Overload
    else if exists n: nat :: Maps(h, role, n) && LastPower(h, n) == Unreported then Unreported
    else if forall n: nat | Maps(h, role, n) :: LastPower(h, n) == On then On
    else if forall n: nat | Maps(h, role, n) :: LastPower(h, n) == Off then Off
    else Mixed
  }

  predicate AreReports(h: seq<Event>) {
    forall k | 0 <= k < |h| :: IsReport(h[k])
  }

  lemma {:induction false} OutputsRemember(h: seq<Event>)
    ensures forall n | 0 <= n < OUTPUTS :: BoardAfter(h).powers[n] == LastPower(h, n)
    ensures forall n | 0 <= n < OUTPUTS :: BoardAfter(h).modes[n] == LastMode(h, n)
  {
    if h != [] {
      OutputsRemember(h[..|h| - 1]);
      var e := h[|h| - 1];
      if e.TrackPower? || e.TrackMode? {
        if IsOutput(e.track) {
          forall n | 0 <= n < OUTPUTS ensures e.track == [LETTERS[n]] <==> n == OutputIndex(e.track) {
            assert LETTERS[n] == 'A' + n as char;
          }
        } else {
          forall n | 0 <= n < OUTPUTS ensures e.track != [LETTERS[n]] {
            assert LETTERS[n] == 'A' + n as char;
          }
        }
      }
    }
  }

  lemma {:induction false} ReportedStates(h: seq<Event>, n: nat)
    requires AreReports(h) && n < OUTPUTS
    ensures LastPower(h, n) != Mixed
  {
    if h != [] {
      assert IsReport(h[|h| - 1]);
      ReportedStates(h[..|h| - 1], n);
    }
  }

  lemma FaultsAgree(modes: Modes, powers: Powers, h: seq<Event>, role: string)
    requires forall n: nat :: Maps(h, role, n) <==> Plays(modes, role, n)
    requires forall n | 0 <= n < OUTPUTS :: powers[n] == LastPower(h, n) && powers[n] != Mixed
    ensures (exists n | 0 <= n < OUTPUTS :: Plays(modes, role, n) && powers[n] == Overload)
            <==> (exists n: nat :: Maps(h, role, n) && LastPower(h, n) == Overload)
    ensures (exists n | 0 <= n < OUTPUTS :: Plays(modes, role, n) && powers[n] == Overload)
            || ((exists n | 0 <= n < OUTPUTS :: Plays(modes, role, n) && powers[n] != On && powers[n] != Off)
                <==> (exists n: nat :: Maps(h, role, n) && LastPower(h, n) == Unreported))
    ensures (forall n | 0 <= n < OUTPUTS && Plays(modes, role, n) :: powers[n] == On)
            <==> (forall n: nat | Maps(h, role, n) :: LastPower(h, n) == On)
    ensures (forall n | 0 <= n < OUTPUTS && Plays(modes, role, n) :: powers[n] == Off)
            <==> (forall n: nat | Maps(h, role, n) :: LastPower(h, n) == Off)
  {
    if n :| 0 <= n < OUTPUTS && Plays(modes, role, n) && powers[n] != On && powers[n] != Off {
      assert Maps(h, role, n) && (LastPower(h, n) == Overload || LastPower(h, n) == Unreported);
    }
  }

  lemma GroupIsRolePower(modes: Modes, powers: Powers, h: seq<Event>, role: string)
    requires forall n | 0 <= n < OUTPUTS :: modes[n] == LastMode(h, n)
    requires forall n | 0 <= n < OUTPUTS :: powers[n] == LastPower(h, n) && powers[n] != Mixed
    ensures Group(modes, powers, role, LastSummary(h, role)) == RolePower(h, role)
  {
    forall n: nat ensures Maps(h, role, n) <==> Plays(modes, role, n) {
    }
    if exists n | 0 <= n < OUTPUTS :: Plays(modes, role, n) {
      var n :| 0 <= n < OUTPUTS && Plays(modes, role, n);
      assert Maps(h, role, n);
      FaultsAgree(modes, powers, h, role);
    }
  }

  lemma GroupOfHistory(h: seq<Event>, role: string)
    requires AreReports(h)
    ensures Group(BoardAfter(h).modes, BoardAfter(h).powers, role, LastSummary(h, role)) == RolePower(h, role)
  {
    OutputsRemember(h);
    forall n | 0 <= n < OUTPUTS ensures LastPower(h, n) != Mixed { ReportedStates(h, n); }
    GroupIsRolePower(BoardAfter(h).modes, BoardAfter(h).powers, h, role);
  }

  lemma GroupOfGroup(modes: Modes, powers: Powers, powers': Powers, role: string, f: PowerState)
    ensures Group(modes, powers', role, Group(modes, powers, role, f)) == Group(modes, powers', role, f)
  {
  }

  ghost predicate IsGrouped(b: Board, main: PowerState, prog: PowerState) {
    && b.main == Group(b.modes, b.powers, "MAIN", main)
    && b.prog == Group(b.modes, b.powers, "PROG", prog)
    && b.overload == (b.main == Overload || b.prog == Overload)
  }

  lemma PoweredIsGrouped(b: Board, main: PowerState, prog: PowerState, state: PowerState, track: string)
    requires IsGrouped(b, main, prog)
    ensures IsGrouped(Powered(b, state, track),
                      if track == "MAIN" || track == "ALL" || track == "JOIN" then state else main,
                      if track == "PROG" || track == "ALL" || track == "JOIN" then state else prog)
  {
    var powers := Powered(b, state, track).powers;
    GroupOfGroup(b.modes, b.powers, powers, "MAIN", main);
    GroupOfGroup(b.modes, b.powers, powers, "PROG", prog);
  }

  lemma {:induction false} BoardIsGrouped(h: seq<Event>)
    ensures IsGrouped(BoardAfter(h), LastSummary(h, "MAIN"), LastSummary(h, "PROG"))
  {
    if h == [] {
      assert !PlaysRole("", "MAIN") && !PlaysRole("", "PROG");
      assert forall n | 0 <= n < OUTPUTS :: !Plays(NoModes(), "MAIN", n) && !Plays(NoModes(), "PROG", n);
    } else {
      var p, e := h[..|h| - 1], h[|h| - 1];
      BoardIsGrouped(p);
      if e.TrackPower? {
        PoweredIsGrouped(BoardAfter(p), LastSummary(p, "MAIN"), LastSummary(p, "PROG"), e.state, e.track);
      }
    }
  }

  /** The indicators always equal what the replies since attaching imply. */
  lemma PowerIsHistory(h: seq<Event>)
    requires AreReports(h)
    ensures BoardAfter(h).main == RolePower(h, "MAIN") && BoardAfter(h).prog == RolePower(h, "PROG")
    ensures BoardAfter(h).overload <==> RolePower(h, "MAIN") == Overload || RolePower(h, "PROG") == Overload
  {
    BoardIsGrouped(h);
    GroupOfHistory(h, "MAIN");
    GroupOfHistory(h, "PROG");
  }

  predicate IsRole(role: string) {
    role == "MAIN" || role == "PROG"
  }

  function Shown(b: Board, role: string): PowerState
    requires IsRole(role)
  {
    if role == "MAIN" then b.main else b.prog
  }

  /** No later summary hides an overload that a mapped output last reported. */
  lemma SummaryHidesNoFault(h: seq<Event>, e: Event, role: string, n: nat)
    requires AreReports(h) && IsReport(e) && IsRole(role)
    requires e.TrackPower? && (e.track == "MAIN" || e.track == "PROG" || e.track == "ALL" || e.track == "JOIN")
    requires n < OUTPUTS && LastPower(h, n) == Overload && PlaysRole(LastMode(h, n), role)
    ensures Shown(BoardAfter(h + [e]), role) == Overload && BoardAfter(h + [e]).overload
  {
    var h' := h + [e];
    assert h'[..|h'| - 1] == h;
    assert Maps(h', role, n) && LastPower(h', n) == Overload;
    PowerIsHistory(h');
  }
}
