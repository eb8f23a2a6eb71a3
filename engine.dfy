/** The game engine: the one game in play, changed in place by the player's
    actions. Every card comes from a draw stream supplied by the caller:
    the i-th card an action draws is draw(i). The cues an action requests
    are collected in order; what is played is Audible(isSoundOn, requested),
    as the sound flag cannot change during an action. */
module Engine {
  import opened Cards
  import opened Rules

  /** n card cues, one per card drawn. */
  function CardCues(n: nat): seq<Cue>
  {
    if n == 0 then [] else CardCues(n - 1) + [CardCue]
  }

  /** One turn of the dealer's loop: below 17 the dealer's cards are the
      next card followed by those it draws from the new total. */
  lemma DealerDrawsStep(total: int, draw: nat -> Card, i: nat, drawn: seq<Card>)
    requires total < 17
    ensures drawn + DealerDraws(total, draw, i) == (drawn + [draw(i)]) + DealerDraws(total + draw(i), draw, i + 1)
  {
  }

  class Game {
    var myTotal: int
    var dealerTotal: int
    var isSoundOn: bool
    var gameInProgress: bool
    var playerCards: seq<Card>
    var dealerCards: seq<Card>

    /** Each running total is the sum of its hand, and a game still in
        progress is one that no rule of the evaluation has ended. */
    ghost predicate Valid()
      reads this
    {
      myTotal == Sum(playerCards) &&
      dealerTotal == Sum(dealerCards) &&
      (gameInProgress ==> Evaluate(myTotal, dealerTotal) == None)
    }

    /** The state before the first game: empty hands, sound on. */
    constructor ()
      ensures Valid()
      ensures myTotal == 0 && dealerTotal == 0 && isSoundOn && !gameInProgress
      ensures playerCards == [] && dealerCards == []
    {
      myTotal := 0;
      dealerTotal := 0;
      isSoundOn := true;
      gameInProgress := false;
      playerCards := [];
      dealerCards := [];
    }

    /** Flips the sound flag; the game state is untouched. */
    method ToggleSound()
      modifies this`isSoundOn
      ensures isSoundOn == !old(isSoundOn)
    {
      isSoundOn := !isSoundOn;
    }

    /** Draws the k-th card of the stream, requesting the card cue. */
    method GetCard(draw: nat -> Card, k: nat) returns (card: Card, requested: seq<Cue>)
      ensures card == draw(k) && 1 <= card <= 11
      ensures requested == [CardCue]
    {
      card := draw(k);
      requested := [CardCue];
    }

    /** The evaluation after a deal: the first matching rule, in the order
        player bust, dealer bust, player 21, dealer 21, ends the game and
        requests its cue; if none matches nothing changes. */
    method UpdateScreen() returns (result: Option<Outcome>, requested: seq<Cue>)
      modifies this`gameInProgress
      ensures result == Evaluate(myTotal, dealerTotal)
      ensures gameInProgress == (old(gameInProgress) && result == None)
      ensures requested == ResultCues(result)
    {
      result := None;
      requested := [];
      if myTotal > 21 {
        result := Some(PlayerBust);
        requested := [LoseCue];
        gameInProgress := false;
      } else if dealerTotal > 21 {
        result := Some(DealerBust);
        requested := [WinCue];
        gameInProgress := false;
      } else if CheckBlackjack(myTotal) {
        result := Some(PlayerBlackjack);
        requested := [WinCue];
        gameInProgress := false;
      } else if CheckBlackjack(dealerTotal) {
        result := Some(DealerBlackjack);
        requested := [LoseCue];
        gameInProgress := false;
      }
    }

    /** The player's hit: outside a game nothing changes. In a game the
        player gets one card, the dealer one more if its total is below 17,
        earlier cards stay as they were, and the evaluation runs. */
    method HitMe(draw: nat -> Card) returns (result: Option<Outcome>, played: seq<Cue>)
      modifies this
      ensures !old(gameInProgress) ==> unchanged(this) && result == None && played == []
      ensures old(gameInProgress) ==>
        var dealerHits := old(dealerTotal) < 17;
        && playerCards == old(playerCards) + [draw(0)]
        && myTotal == old(myTotal) + draw(0)
        && dealerCards == old(dealerCards) + (if dealerHits then [draw(1)] else [])
        && dealerTotal == old(dealerTotal) + (if dealerHits then draw(1) else 0)
        && result == Evaluate(myTotal, dealerTotal)
        && gameInProgress == (result == None)
        && played == Audible(isSoundOn, CardCues(if dealerHits then 2 else 1) + ResultCues(result))
      ensures isSoundOn == old(isSoundOn)
      ensures !isSoundOn ==> played == []
      ensures old(Valid()) ==> Valid()
    {
      if !gameInProgress {
        return None, [];
      }
      var newCard, requested := GetCard(draw, 0);
      SumAppend(playerCards, newCard);
      playerCards := playerCards + [newCard];
      myTotal := myTotal + newCard;

      if dealerTotal < 17 {
        var dealerCard, cue := GetCard(draw, 1);
        SumAppend(dealerCards, dealerCard);
        dealerCards := dealerCards + [dealerCard];
        dealerTotal := dealerTotal + dealerCard;
        requested := requested + cue;
      }

      var screenCues;
      result, screenCues := UpdateScreen();
      requested := requested + screenCues;
      played := Audible(isSoundOn, requested);
      assert !isSoundOn ==> played == [];
    }

    /** The dealer's turn in a stay: cards are drawn one at a time until the
        dealer's total is at least 17, each requesting its card cue. */
    method DealerPlays(draw: nat -> Card) returns (requested: seq<Cue>)
      modifies this`dealerCards, this`dealerTotal
      ensures dealerCards == old(dealerCards) + DealerDraws(old(dealerTotal), draw, 0)
      ensures dealerTotal == old(dealerTotal) + Sum(DealerDraws(old(dealerTotal), draw, 0))
      ensures dealerTotal >= 17
      ensures requested == CardCues(|DealerDraws(old(dealerTotal), draw, 0)|)
      ensures old(dealerTotal == Sum(dealerCards)) ==> dealerTotal == Sum(dealerCards)
    {
      ghost var wasSum := dealerTotal == Sum(dealerCards);
      ghost var drawn: seq<Card> := [];
      var i := 0;
      requested := [];
      while dealerTotal < 17
        invariant |drawn| == i
        invariant DealerDraws(old(dealerTotal), draw, 0) == drawn + DealerDraws(dealerTotal, draw, i)
        invariant dealerCards == old(dealerCards) + drawn
        invariant dealerTotal == old(dealerTotal) + Sum(drawn)
        invariant wasSum ==> dealerTotal == Sum(dealerCards)
        invariant requested == CardCues(i)
        decreases 17 - dealerTotal
      {
        var dealerCard, cue := GetCard(draw, i);
        DealerDrawsStep(dealerTotal, draw, i, drawn);
        SumAppend(drawn, dealerCard);
        SumAppend(dealerCards, dealerCard);
        drawn := drawn + [dealerCard];
        dealerCards := dealerCards + [dealerCard];
        dealerTotal := dealerTotal + dealerCard;
        requested := requested + cue;
        i := i + 1;
      }
      assert drawn == DealerDraws(old(dealerTotal), draw, 0);
    }

    /** The player's stay: outside a game nothing changes. In a game the
        dealer draws until its total reaches 17, the totals are compared,
        the result's cue is requested and the game ends. */
    method Stay(draw: nat -> Card) returns (result: Option<Outcome>, played: seq<Cue>)
      modifies this
      ensures !old(gameInProgress) ==> unchanged(this) && result == None && played == []
      ensures old(gameInProgress) ==>
        var drawn := DealerDraws(old(dealerTotal), draw, 0);
        && playerCards == old(playerCards) && myTotal == old(myTotal)
        && dealerCards == old(dealerCards) + drawn
        && dealerTotal == old(dealerTotal) + Sum(drawn)
        && dealerTotal >= 17
        && result == Some(Showdown(myTotal, dealerTotal))
        && !gameInProgress
        && played == Audible(isSoundOn, CardCues(|drawn|) + OutcomeCues(result.value))
      ensures isSoundOn == old(isSoundOn)
      ensures !isSoundOn ==> played == []
      ensures old(Valid()) ==> Valid()
    {
      if !gameInProgress {
        return None, [];
      }
      var requested := DealerPlays(draw);

      if dealerTotal > 21 || myTotal > dealerTotal {
        result := Some(StayWin);
        requested := requested + [WinCue];
      } else if myTotal < dealerTotal {
        result := Some(StayLoss);
        requested := requested + [LoseCue];
      } else {
        result := Some(StayTie);
      }
      gameInProgress := false;
      played := Audible(isSoundOn, requested);
      assert !isSoundOn ==> played == [];
    }

    /** A new game from any state: both hands are emptied, the player is
        dealt two cards and the dealer one, and the evaluation runs. */
    method NewGame(draw: nat -> Card) returns (result: Option<Outcome>, played: seq<Cue>)
      modifies this
      ensures playerCards == [draw(0), draw(1)] && dealerCards == [draw(2)]
      ensures myTotal == draw(0) + draw(1) && dealerTotal == draw(2)
      ensures result == Evaluate(myTotal, dealerTotal)
      ensures gameInProgress == (result == None)
      ensures isSoundOn == old(isSoundOn)
      ensures played == Audible(isSoundOn, CardCues(3) + ResultCues(result))
      ensures !isSoundOn ==> played == []
      ensures Valid()
    {
      myTotal := 0;
      dealerTotal := 0;
      playerCards := [];
      dealerCards := [];
      gameInProgress := true;
      var requested := [];

      for i := 0 to 2
        invariant |playerCards| == i
        invariant forall j :: 0 <= j < i ==> playerCards[j] == draw(j)
        invariant myTotal == Sum(playerCards)
        invariant requested == CardCues(i)
        modifies this`playerCards, this`myTotal
      {
        var playerCard, cue := GetCard(draw, i);
        SumAppend(playerCards, playerCard);
        playerCards := playerCards + [playerCard];
        myTotal := myTotal + playerCard;
        requested := requested + cue;
      }
      assert playerCards == [draw(0), draw(1)];
      assert playerCards[1..] == [draw(1)] && [draw(1)][1..] == [];

      var dealerCard, cue := GetCard(draw, 2);
      dealerCards := dealerCards + [dealerCard];
      dealerTotal := dealerCard;
      requested := requested + cue;

      var screenCues;
      result, screenCues := UpdateScreen();
      requested := requested + screenCues;
      played := Audible(isSoundOn, requested);
      assert !isSoundOn ==> played == [];
    }
  }
}
