/** The speed-dating room: a five-round machine driven by the guest's
    buttons, the simulated partner, an effect that starts a round, a
    once-a-second countdown and the delayed hand-over to the next round.
    Each of these is an event method; timer delays are not modelled, only
    the order in which timers fire. */
module SpeedDatingRoom {
  import opened ClientTypes
  import Decimal

  datatype Vote = Like | Dislike

  const TotalRounds: int := 5

  /** Names of the simulated partners of rounds 2 and later, by `round % 4`. */
  const PartnerNames: seq<string> := ["Мария", "Дмитрий", "Анна", "Сергей"]

  /** A partner as far as the machine uses it (the description is display text). */
  datatype Partner = Partner(id: string, name: string, gender: Gender)

  function Opposite(g: Gender): (o: Gender)
    ensures o != g
  {
    if g == Male then Female else Male
  }

  /** `partner-${round}`. */
  function PartnerId(round: nat): string {
    "partner-" + Decimal.NatToString(round)
  }

  /** The partner of a round: "Алексей" first, then the list by the previous round. */
  function PartnerFor(round: nat, userGender: Gender): Partner {
    Partner(PartnerId(round),
            if round <= 1 then "Алексей" else PartnerNames[(round - 1) % 4],
            Opposite(userGender))
  }

  /** Partners of different rounds have different ids, so each round's vote
      lands under its own key. */
  lemma PartnerIdsDistinct(a: nat, b: nat)
    requires a != b
    ensures PartnerId(a) != PartnerId(b)
  {
    var pa := PartnerId(a);
    var pb := PartnerId(b);
    if pa == pb {
      assert pa[8..] == Decimal.NatToString(a);
      assert pb[8..] == Decimal.NatToString(b);
      Decimal.NatToStringInjective(a, b);
    }
  }

  /** A callback that `handleVote` schedules: the hand-over from the round
      it was scheduled in, or the end of the session. */
  datatype Continuation = Advance(fromRound: int) | Finish

  // ---- formatTime ----

  /** JavaScript's `%`: the remainder takes the sign of the dividend. */
  function JsRem(a: int, b: int): (r: int)
    requires b > 0
    ensures a >= 0 ==> 0 <= r < b && r == a % b
    ensures a < 0 ==> -b < r <= 0
  {
    if a >= 0 then a % b else -((-a) % b)
  }

  /** `padStart(2, "0")`. */
  function PadStart2(s: string): (r: string)
    ensures |r| == if |s| >= 2 then |s| else 2
  {
    if |s| >= 2 then s else seq(2 - |s|, _ => '0') + s
  }

  /** `formatTime`: `${Math.floor(s / 60)}:${(s % 60).toString().padStart(2, "0")}`. */
  function FormatTime(seconds: int): string {
    Decimal.IntToString(seconds / 60) + ":" + PadStart2(Decimal.IntToString(JsRem(seconds, 60)))
  }

  /** Minutes before the colon, seconds after it. */
  function ParseTime(t: string): int {
    if |t| < 3 || !Decimal.AllDigits(t[..|t| - 3]) || !Decimal.AllDigits(t[|t| - 2..]) then -1
    else Decimal.ParseDigits(t[..|t| - 3]) * 60 + Decimal.ParseDigits(t[|t| - 2..])
  }

  lemma TwoDigits(n: nat)
    requires n < 60
    ensures var p := PadStart2(Decimal.NatToString(n));
      |p| == 2 && Decimal.AllDigits(p) && Decimal.ParseDigits(p) == n
  {
    var p := PadStart2(Decimal.NatToString(n));
    Decimal.ParseNatToString(n);
    if n < 10 {
      assert p == ['0', Decimal.DigitChar(n)];
      assert p[..1] == ['0'];
      assert p[..1][..0] == [];
    } else {
      assert Decimal.NatToString(n / 10) == [Decimal.DigitChar(n / 10)];
    }
  }

  /** For a non-negative count the text is minutes, a colon and exactly two
      digits of seconds below 60, and reading it back gives the count. */
  lemma FormatTimeRoundTrip(seconds: nat)
    ensures var t := FormatTime(seconds);
      && |t| >= 4
      && t[|t| - 3] == ':'
      && t[..|t| - 3] == Decimal.NatToString(seconds / 60)
      && Decimal.ParseDigits(t[|t| - 2..]) == seconds % 60 < 60
      && ParseTime(t) == seconds
  {
    var m := Decimal.NatToString(seconds / 60);
    var p := PadStart2(Decimal.NatToString(seconds % 60));
    TwoDigits(seconds % 60);
    var t := FormatTime(seconds);
    assert t == m + ":" + p;
    assert t[..|t| - 3] == m;
    assert t[|t| - 2..] == p;
    Decimal.ParseNatToString(seconds / 60);
  }

  /** Different counts are shown differently. */
  lemma FormatTimeInjective(a: nat, b: nat)
    requires FormatTime(a) == FormatTime(b)
    ensures a == b
  {
    FormatTimeRoundTrip(a);
    FormatTimeRoundTrip(b);
  }

  // ---- the round machine ----

  class Room {
    const userGender: Gender
    /** `roundDurationMin * 60`. */
    const roundSeconds: int
    var currentRound: int
    var timeLeft: int
    var isRoundActive: bool
    var showVoting: bool
    var isReady: bool
    var partnerReady: bool
    var partner: Partner
    var votes: map<string, Vote>
    /** Callbacks scheduled by `handleVote`, all with the same delay, so they
        fire in the order they were scheduled. */
    var pending: seq<Continuation>
    /** How many times the finished session has called `onBack`. */
    var exits: nat

    /** What holds in every reachable state, whatever the order of events. */
    ghost predicate Valid()
      reads this
    {
      && 1 <= currentRound <= TotalRounds
      && partner == PartnerFor(currentRound, userGender)
      && (partnerReady ==> isReady)
      && (isRoundActive ==> isReady && partnerReady)
      && (forall i :: 0 <= i < |pending| && pending[i].Advance? ==>
            && 1 <= pending[i].fromRound < TotalRounds
            && currentRound - 1 <= pending[i].fromRound <= currentRound)
      && (forall i, j :: 0 <= i < j < |pending| && pending[i].Advance? && pending[j].Advance? ==>
            pending[i].fromRound <= pending[j].fromRound)
    }

    /** The round is not running while the vote is asked for. */
    predicate PhasesSeparated()
      reads this
    {
      !(isRoundActive && showVoting)
    }

    /** The voting card is rendered. */
    predicate VotingShown()
      reads this
    {
      showVoting
    }

    /** A running round has time left on its countdown. */
    predicate CountdownLive()
      reads this
    {
      isRoundActive ==> timeLeft > 0
    }

    /** The "ready" button is rendered. */
    predicate ReadyButtonShown()
      reads this
    {
      !isRoundActive && !showVoting && !isReady
    }

    constructor(userGender: Gender, roundDurationMin: int)
      ensures Valid() && PhasesSeparated()
      ensures this.userGender == userGender && roundSeconds == roundDurationMin * 60
      ensures currentRound == 1 && timeLeft == roundDurationMin * 60
      ensures !isRoundActive && !showVoting && !isReady && !partnerReady
      ensures partner == Partner("partner-1", "Алексей", Opposite(userGender))
      ensures votes == map[] && pending == [] && exits == 0
    {
      this.userGender := userGender;
      roundSeconds := roundDurationMin * 60;
      currentRound := 1;
      timeLeft := roundDurationMin * 60;
      isRoundActive := false;
      showVoting := false;
      isReady := false;
      partnerReady := false;
      partner := Partner("partner-1", "Алексей", Opposite(userGender));
      votes := map[];
      pending := [];
      exits := 0;
    }

    /** `handleReady`. */
    method HandleReady()
      requires Valid()
      modifies this
      ensures Valid() && (old(PhasesSeparated()) ==> PhasesSeparated())
      ensures isReady
      ensures currentRound == old(currentRound) && timeLeft == old(timeLeft) && partner == old(partner)
      ensures isRoundActive == old(isRoundActive) && showVoting == old(showVoting) && partnerReady == old(partnerReady)
      ensures votes == old(votes) && pending == old(pending) && exits == old(exits)
    {
      isReady := true;
    }

    /** The partner's 2-5 s timer fires; it only exists while the guest is
        ready and the partner is not. */
    method PartnerReadyTimer()
      requires Valid()
      modifies this
      ensures Valid() && (old(PhasesSeparated()) ==> PhasesSeparated())
      ensures partnerReady == (old(partnerReady) || old(isReady))
      ensures partnerReady && !old(partnerReady) ==> old(isReady)
      ensures currentRound == old(currentRound) && timeLeft == old(timeLeft) && partner == old(partner)
      ensures isRoundActive == old(isRoundActive) && showVoting == old(showVoting) && isReady == old(isReady)
      ensures votes == old(votes) && pending == old(pending) && exits == old(exits)
    {
      if isReady && !partnerReady {
        partnerReady := true;
      }
    }

    /** The start effect, with its guard as written: it does not look at `showVoting`. */
    method StartRound()
      requires Valid()
      modifies this
      ensures Valid()
      ensures isRoundActive == (old(isRoundActive) || (old(isReady) && old(partnerReady)))
      ensures isRoundActive && !old(isRoundActive) ==> old(isReady) && old(partnerReady)
      ensures currentRound == old(currentRound) && timeLeft == old(timeLeft) && partner == old(partner)
      ensures showVoting == old(showVoting) && isReady == old(isReady) && partnerReady == old(partnerReady)
      ensures votes == old(votes) && pending == old(pending) && exits == old(exits)
    {
      if isReady && partnerReady && !isRoundActive {
        isRoundActive := true;
      }
    }

    /** The start effect with a guard that starts each countdown once: not
        while the vote is asked for, and not on a countdown that has run out. */
    method StartRoundGuarded()
      requires Valid()
      modifies this
      ensures Valid() && (old(PhasesSeparated()) ==> PhasesSeparated())
      ensures old(CountdownLive()) ==> CountdownLive()
      ensures isRoundActive ==
        (old(isRoundActive) || (old(isReady) && old(partnerReady) && !old(showVoting) && old(timeLeft) > 0))
      ensures currentRound == old(currentRound) && timeLeft == old(timeLeft) && partner == old(partner)
      ensures showVoting == old(showVoting) && isReady == old(isReady) && partnerReady == old(partnerReady)
      ensures votes == old(votes) && pending == old(pending) && exits == old(exits)
    {
      if isReady && partnerReady && !isRoundActive && !showVoting && timeLeft > 0 {
        isRoundActive := true;
      }
    }

    /** One tick of the interval, which only runs while the round is active:
        count down, or at 1 or less stop at 0 and ask for the vote. */
    method Tick()
      requires Valid()
      modifies this
      ensures Valid() && (old(PhasesSeparated()) ==> PhasesSeparated())
      ensures old(CountdownLive()) ==> CountdownLive()
      ensures old(isRoundActive) ==> timeLeft >= 0
      ensures old(isRoundActive) && old(timeLeft) <= 1 ==> timeLeft == 0 && !isRoundActive && showVoting
      ensures old(isRoundActive) && old(timeLeft) > 1 ==>
        timeLeft == old(timeLeft) - 1 && isRoundActive && showVoting == old(showVoting)
      ensures !old(isRoundActive) ==> timeLeft == old(timeLeft) && !isRoundActive && showVoting == old(showVoting)
      ensures currentRound == old(currentRound) && partner == old(partner)
      ensures isReady == old(isReady) && partnerReady == old(partnerReady)
      ensures votes == old(votes) && pending == old(pending) && exits == old(exits)
    {
      if isRoundActive {
        if timeLeft <= 1 {
          isRoundActive := false;
          showVoting := true;
          timeLeft := 0;
        } else {
          timeLeft := timeLeft - 1;
        }
      }
    }

    /** `handleVote`: record the vote under the current partner's id, hide
        the card, and schedule the hand-over (or the end after round 5). */
    method HandleVote(vote: Vote)
      requires Valid()
      modifies this
      ensures Valid() && (old(PhasesSeparated()) ==> PhasesSeparated())
      ensures votes == old(votes)[old(partner).id := vote]
      ensures !showVoting
      ensures pending == old(pending) + [if old(currentRound) < TotalRounds then Advance(old(currentRound)) else Finish]
      ensures currentRound == old(currentRound) && timeLeft == old(timeLeft) && partner == old(partner)
      ensures isRoundActive == old(isRoundActive) && isReady == old(isReady) && partnerReady == old(partnerReady)
      ensures exits == old(exits)
    {
      votes := votes[partner.id := vote];
      showVoting := false;
      if currentRound < TotalRounds {
        pending := pending + [Advance(currentRound)];
      } else {
        pending := pending + [Finish];
      }
    }

    /** The oldest scheduled callback fires: a hand-over moves to the round
        after the one it was scheduled in, with a fresh countdown, cleared
        flags and the next partner; the end calls `onBack`. */
    method FireTimer()
      requires Valid()
      modifies this
      ensures Valid() && (old(PhasesSeparated()) ==> PhasesSeparated())
      ensures old(currentRound) <= currentRound
      ensures old(pending) == [] ==> pending == [] && currentRound == old(currentRound) && exits == old(exits)
      ensures old(pending) != [] ==> pending == old(pending)[1..]
      ensures old(pending) != [] && old(pending)[0].Advance? ==>
        && currentRound == old(pending)[0].fromRound + 1
        && timeLeft == roundSeconds
        && !isReady && !partnerReady && !isRoundActive
        && partner == PartnerFor(currentRound, userGender)
        && showVoting == old(showVoting) && exits == old(exits)
      ensures old(pending) != [] && old(pending)[0].Finish? ==>
        exits == old(exits) + 1 && currentRound == old(currentRound) && timeLeft == old(timeLeft)
      ensures old(pending) == [] || old(pending)[0].Finish? ==>
        && timeLeft == old(timeLeft) && partner == old(partner)
        && isRoundActive == old(isRoundActive) && showVoting == old(showVoting)
        && isReady == old(isReady) && partnerReady == old(partnerReady)
      ensures old(CountdownLive()) ==> CountdownLive()
      ensures votes == old(votes)
    {
      if pending != [] {
        var c := pending[0];
        var rest := pending[1..];
        assert forall i :: 0 <= i < |rest| ==> rest[i] == pending[i + 1];
        pending := rest;
        match c
        case Advance(r) =>
          currentRound := r + 1;
          timeLeft := roundSeconds;
          isReady := false;
          partnerReady := false;
          isRoundActive := false;
          partner := Partner(PartnerId(r + 1), PartnerNames[r % 4], Opposite(userGender));
        case Finish =>
          exits := exits + 1;
      }
    }
  }

  /** With the start guard as written, a round that has ended starts again at
      0 seconds; one more tick after the vote brings the voting card back,
      and the next round opens on it, before either side is ready. */
  method VotingLeaksIntoNextRound(userGender: Gender, roundDurationMin: int) returns (room: Room)
    ensures room.currentRound == 2 && room.partner.id == PartnerId(2)
    ensures room.VotingShown() && !room.ReadyButtonShown() && !room.isReady
    ensures room.votes == map[PartnerId(1) := Like]
  {
    room := new Room(userGender, roundDurationMin);
    room.HandleReady();
    room.PartnerReadyTimer();
    room.StartRound();
    while room.isRoundActive
      invariant room.Valid() && room.isReady && room.partnerReady && !room.showVoting == room.isRoundActive
      invariant room.currentRound == 1 && room.votes == map[] && room.pending == []
      invariant !room.isRoundActive ==> room.timeLeft == 0
      decreases if room.isRoundActive then (if room.timeLeft > 0 then room.timeLeft else 0) + 1 else 0
    {
      room.Tick();
    }
    room.StartRound();
    assert room.isRoundActive && room.showVoting;
    room.HandleVote(Like);
    room.Tick();
    room.FireTimer();
    assert "partner-1" == PartnerId(1);
  }

  /** With the corrected guard, the same steps as above leave the finished
      round stopped: the vote is not shown again, and round 2 opens on the
      "ready" button with a full countdown. */
  method GuardedRoundTwoOpensReady(userGender: Gender, roundDurationMin: int) returns (room: Room)
    requires roundDurationMin > 0
    ensures room.currentRound == 2 && room.partner.id == PartnerId(2)
    ensures room.ReadyButtonShown() && !room.VotingShown()
    ensures room.timeLeft == roundDurationMin * 60
    ensures room.votes == map[PartnerId(1) := Like]
  {
    room := new Room(userGender, roundDurationMin);
    room.HandleReady();
    room.PartnerReadyTimer();
    room.StartRoundGuarded();
    assert room.isRoundActive;
    while room.isRoundActive
      invariant room.Valid() && room.isReady && room.partnerReady && !room.showVoting == room.isRoundActive
      invariant room.currentRound == 1 && room.votes == map[] && room.pending == []
      invariant room.CountdownLive()
      invariant !room.isRoundActive ==> room.timeLeft == 0
      decreases room.timeLeft
    {
      room.Tick();
    }
    room.StartRoundGuarded();
    room.HandleVote(Like);
    room.StartRoundGuarded();
    room.Tick();
    room.FireTimer();
    assert "partner-1" == PartnerId(1);
  }
}
