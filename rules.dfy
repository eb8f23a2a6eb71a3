/** The rules of the game as functions of the totals: the evaluation run
    after every deal, the dealer's drawing rule and the comparison that ends
    a stay, with the sound cue that goes with each result. */
module Rules {
  import opened Cards

  /** The short sound effects the game plays. */
  datatype Cue = CardCue | WinCue | LoseCue

  /** Who a finished game went to. */
  datatype Verdict = PlayerWins | HouseWins | Tie

  /** The message a finished game shows. The first four come from the
      evaluation after a deal, the last three from the comparison after a
      stay. */
  datatype Outcome =
    | PlayerBust        // "Bust! You went over 21!"
    | DealerBust        // "Dealer Bust! You win!"
    | PlayerBlackjack   // "Blackjack! You win!"
    | DealerBlackjack   // "Dealer Blackjack! House wins!"
    | StayWin           // "Congratulations! You win!"
    | StayLoss          // "House wins!"
    | StayTie           // "It's a tie!"

  function VerdictOf(o: Outcome): Verdict
  {
    match o
    case PlayerBust | DealerBlackjack | StayLoss => HouseWins
    case DealerBust | PlayerBlackjack | StayWin => PlayerWins
    case StayTie => Tie
  }

  /** The cue requested together with an outcome's message: at most one,
      never the card cue, and none exactly for a tie. */
  function OutcomeCues(o: Outcome): (cues: seq<Cue>)
    ensures |cues| <= 1 && CardCue !in cues
    ensures cues == [] <==> o == StayTie
  {
    match o
    case PlayerBust => [LoseCue]
    case DealerBust => [WinCue]
    case PlayerBlackjack => [WinCue]
    case DealerBlackjack => [LoseCue]
    case StayWin => [WinCue]
    case StayLoss => [LoseCue]
    case StayTie => []
  }

  /** Every win is announced with the win cue, every loss with the lose cue,
      and a tie with none. */
  lemma CuesFollowVerdict(o: Outcome)
    ensures OutcomeCues(o) == [WinCue] <==> VerdictOf(o) == PlayerWins
    ensures OutcomeCues(o) == [LoseCue] <==> VerdictOf(o) == HouseWins
    ensures OutcomeCues(o) == [] <==> VerdictOf(o) == Tie
  {
  }

  /** Cues requested with an optional outcome (none while the game goes on). */
  function ResultCues(r: Option<Outcome>): seq<Cue>
  {
    if r.Some? then OutcomeCues(r.value) else []
  }

  /** The cues played: a requested cue is played only while sound is on. */
  function Audible(soundOn: bool, requested: seq<Cue>): seq<Cue>
  {
    if soundOn then requested else []
  }

  /** The evaluation after a deal, checked in fixed priority order; the
      first rule that matches ends the game, and None means play goes on. */
  function Evaluate(player: int, dealer: int): (r: Option<Outcome>)
    ensures r == None <==> player <= 21 && dealer <= 21 && player != 21 && dealer != 21
    ensures r == Some(PlayerBust) <==> player > 21
    ensures r == Some(DealerBust) <==> player <= 21 && dealer > 21
    ensures r == Some(PlayerBlackjack) <==> player == 21 && dealer <= 21
    ensures r == Some(DealerBlackjack) <==> player < 21 && dealer == 21
    ensures r.Some? ==> VerdictOf(r.value) != Tie
  {
    if player > 21 then Some(PlayerBust)
    else if dealer > 21 then Some(DealerBust)
    else if CheckBlackjack(player) then Some(PlayerBlackjack)
    else if CheckBlackjack(dealer) then Some(DealerBlackjack)
    else None
  }

  /** When both sides are over 21 the player's bust is reported: the
      player loses. */
  lemma DoubleBustIsPlayerBust(player: int, dealer: int)
    requires player > 21 && dealer > 21
    ensures Evaluate(player, dealer) == Some(PlayerBust)
    ensures VerdictOf(Evaluate(player, dealer).value) == HouseWins
  {
  }

  /** The comparison that ends a stay. */
  function Showdown(player: int, dealer: int): (r: Outcome)
    ensures r in {StayWin, StayLoss, StayTie}
  {
    if dealer > 21 || player > dealer then StayWin
    else if player < dealer then StayLoss
    else StayTie
  }

  /** Read as a table: with the dealer over 21 the player always wins;
      otherwise the higher total wins and equal totals tie. */
  lemma ShowdownTable(player: int, dealer: int)
    ensures dealer > 21 ==> Showdown(player, dealer) == StayWin
    ensures dealer <= 21 ==>
      (Showdown(player, dealer) == StayWin <==> player > dealer) &&
      (Showdown(player, dealer) == StayLoss <==> player < dealer) &&
      (Showdown(player, dealer) == StayTie <==> player == dealer)
  {
  }

  /** The cards the dealer draws when it must reach 17 starting from `total`:
      the k-th, (k+1)-th, ... values of the draw stream, one at a time, until
      the running total is at least 17. It draws nothing exactly when the
      total is already 17 or more, and otherwise its first card is the k-th. */
  function DealerDraws(total: int, draw: nat -> Card, k: nat): (drawn: seq<Card>)
    ensures drawn == [] <==> total >= 17
    ensures drawn != [] ==> drawn[0] == draw(k)
    decreases 17 - total
  {
    if total >= 17 then [] else [draw(k)] + DealerDraws(total + draw(k), draw, k + 1)
  }

  /** The dealer takes the stream's cards in order, and stops at the first
      point where its total is at least 17: before each card it draws, its
      total was still below 17. */
  lemma {:induction false} DealerDrawsInOrder(total: int, draw: nat -> Card, k: nat)
    ensures forall j :: 0 <= j < |DealerDraws(total, draw, k)| ==>
      DealerDraws(total, draw, k)[j] == draw(k + j)
    ensures forall j :: 0 <= j < |DealerDraws(total, draw, k)| ==>
      total + Sum(DealerDraws(total, draw, k)[..j]) < 17
    decreases 17 - total
  {
    if total < 17 {
      var c := draw(k);
      var rest := DealerDraws(total + c, draw, k + 1);
      DealerDrawsInOrder(total + c, draw, k + 1);
      var drawn := [c] + rest;
      assert DealerDraws(total, draw, k) == drawn;
      forall j | 0 <= j < |drawn|
        ensures drawn[j] == draw(k + j) && total + Sum(drawn[..j]) < 17
      {
        if j > 0 {
          assert drawn[j] == rest[j - 1];
          assert drawn[..j][1..] == rest[..j - 1];
        } else {
          assert drawn[..0] == [];
        }
      }
    }
  }

  /** A dealer that starts below 17 finishes with a total in 17..27; one that
      starts at 17 or more draws nothing. The dealer draws at most 17 - total
      cards, since every card is worth at least 1. */
  lemma {:induction false} DealerDrawsReach17(total: int, draw: nat -> Card, k: nat)
    ensures var drawn := DealerDraws(total, draw, k);
      total + Sum(drawn) >= 17 &&
      (total >= 17 ==> drawn == []) &&
      (total < 17 ==> total + Sum(drawn) <= 27 && |drawn| <= 17 - total)
    decreases 17 - total
  {
    if total < 17 {
      var c := draw(k);
      DealerDrawsReach17(total + c, draw, k + 1);
      var rest := DealerDraws(total + c, draw, k + 1);
      assert ([c] + rest)[1..] == rest;
    }
  }

  /** Only three results are possible right after a new deal (two player
      cards, one dealer card): the game goes on, the player is bust with
      11 + 11, or the player has 21. The dealer's single card can be neither
      over 21 nor 21. */
  lemma OpeningDeal(a: Card, b: Card, d: Card)
    ensures Evaluate(a + b, d) == Some(PlayerBust) <==> a == 11 && b == 11
    ensures Evaluate(a + b, d) == Some(PlayerBlackjack) <==> a + b == 21
    ensures Evaluate(a + b, d) != Some(DealerBust)
    ensures Evaluate(a + b, d) != Some(DealerBlackjack)
  {
  }

  /** A stay from a live game (nobody at or over 21) is lost only to a
      higher dealer total of at most 21, and a player who stays on 20 can
      lose only to a dealer 21. */
  lemma StayFromLiveGame(player: int, before: int, draw: nat -> Card)
    requires Evaluate(player, before) == None
    ensures var after := before + Sum(DealerDraws(before, draw, 0));
      17 <= after &&
      (Showdown(player, after) == StayLoss <==> player < after <= 21) &&
      (player == 20 && Showdown(player, after) == StayLoss ==> after == 21)
  {
    DealerDrawsReach17(before, draw, 0);
  }
}
