# Game of 21: a verified model of the game engine

This project models the engine of the browser game "Game of 21 - Casino
Edition" (`gameBehavor.js`) in Dafny and proves properties of it. The player
plays against a scripted dealer. Cards are values in 1..11. A side over 21 is
bust, and a total of exactly 21 is "blackjack".

The engine is one piece of shared state: `myTotal`, `dealerTotal`,
`gameInProgress`, `playerCards`, `dealerCards` and the sound flag
`isSoundOn`. In the model this is the class `Engine.Game`, which keeps the
same field names. The player has three actions, each a method that changes
the object in place:

- `NewGame` resets the state. Its `for` loop deals two player cards, then one
  dealer card is dealt, then the deal is evaluated.
- `HitMe` gives the player one card. The dealer also gets one if its total is
  below 17. Then the deal is evaluated.
- `Stay` runs the dealer's `while (dealerTotal < 17)` loop, compares the
  totals and ends the game.

`UpdateScreen` is the evaluation after a deal. Its first matching rule ends
the game, in the order player bust, dealer bust, player 21, dealer 21.

What the model puts in place of the browser:

- **Random draws.** Each action takes a draw stream `draw: nat -> Card`, and
  the i-th card the action draws is `draw(i)`. `Card` is the subset type
  1..11, so every card in the model has the range `getCard` gives.
- **Messages and cues.** Each action returns the message as an `Outcome`
  value (`None` while the game goes on). It also returns the cues handed to
  the audio elements, in order: `CardCue` for each draw, then `WinCue` or
  `LoseCue` for a result. A cue is played only while `isSoundOn` holds
  (`Audible`), and while sound is off an action plays nothing. The helpers
  collect the cues they request, and each action applies `Audible` once to
  the whole list. The sound flag cannot change during an action, so this
  gives the same cues as the check in every `playSound` call. Whether the
  browser then lets `play()` make a sound is outside the model.
- **Pure rules.** `Rules` holds the rules as functions of the totals:
  `Evaluate`, `Showdown` and `DealerDraws` (the cards the dealer's loop
  takes). The methods are proved against these functions, and the lemmas
  state the game's properties about them.
- **Hand text.** `Cards` holds the card type, `Sum`, `CheckBlackjack` and
  `FormatCards` (the `join(' + ')` of a hand). `ParseCards` is the inverse of
  `FormatCards`: the text of a hand gives back the hand.

The object invariant `Game.Valid()` joins three facts:

- `myTotal` is the sum of `playerCards`;
- `dealerTotal` is the sum of `dealerCards`;
- while a game is in progress, no evaluation rule applies (nobody is over 21
  or at 21).

The constructor and `NewGame` establish it, and `HitMe` and `Stay` keep it.

`CheckBlackjack(t)` holds exactly when `t == 21`. The `Evaluate` contract
states what that means for the evaluation.

## Model

| member | source | states |
|---|---|---|
| `Cards.SumAppend` | gameBehavor.js:162-163 | pushing a card and adding its value keeps a total equal to the sum of its hand |
| `Cards.SumBounds` | gameBehavor.js:106 | since every card is in 1..11, a hand of n cards totals between n and 11·n |
| `Cards.ParseFormatCards` | gameBehavor.js:112-114 | the " + "-joined text of a hand parses back to exactly the hand in draw order, so the text shows every card and their order |
| `Cards.CheckBlackjack` | gameBehavor.js:117-119 | a total is blackjack exactly when it is 21, whatever the number of cards |
| `Cards.FormatCards` | gameBehavor.js:112-114 | the text of a hand is empty exactly when the hand is empty, and a non-empty hand's text starts with its first card's value |
| `Cards.FormatCardsExamples` | gameBehavor.js:113 | [5, 6, 10] is shown as "5 + 6 + 10", the empty hand as "", and [11] as "11" |
| `Rules.OutcomeCues` | gameBehavor.js:132-202 | each result requests at most one cue and never the card cue; only a tie requests none |
| `Rules.CuesFollowVerdict` | gameBehavor.js:132-202 | every result won by the player requests the win cue, every result lost requests the lose cue, and a tie requests none |
| `Rules.Evaluate` | gameBehavor.js:132-151 | the iff table of the fixed priority: the game goes on iff both totals are at most 21 and neither is 21; player bust iff player > 21; dealer bust iff player <= 21 < dealer; blackjack iff player == 21 and dealer <= 21; dealer blackjack iff player < 21 and dealer == 21; no evaluation result is a tie |
| `Rules.DoubleBustIsPlayerBust` | gameBehavor.js:132-136 | when both sides are over 21 the player's bust is reported and the house wins |
| `Rules.Showdown` | gameBehavor.js:192-202 | the comparison after a stay is always one of the three stay results |
| `Rules.ShowdownTable` | gameBehavor.js:192-202 | a dealer over 21 always loses; otherwise the higher total wins and equal totals tie |
| `Rules.DealerDraws` | gameBehavor.js:178-182 | the dealer draws nothing exactly when its total is already 17 or more; otherwise its first card is the stream's next card |
| `Rules.DealerDrawsInOrder` | gameBehavor.js:178-182 | the dealer takes the draw stream's cards in order, and before each card it takes its total is still below 17 (it stops at the first total of 17 or more) |
| `Rules.DealerDrawsReach17` | gameBehavor.js:178-182 | the dealer's loop ends at a total of at least 17; from below 17 it ends at 27 or less after at most 17 - total cards; from 17 or more it draws nothing |
| `Rules.OpeningDeal` | gameBehavor.js:218-226 | right after a new deal the only possible results are player bust (exactly 11 + 11) and player 21 (two cards summing to 21); the dealer's single card can give neither dealer rule |
| `Rules.StayFromLiveGame` | gameBehavor.js:175-202 | staying from a live game ends with the dealer at 17 or more; it is a loss exactly when the dealer ends above the player and at most 21; a player on 20 can lose only to a dealer 21 |
| `Engine.Game.constructor` | gameBehavor.js:6-11 | the initial state: totals 0, empty hands, no game in progress, sound on; the invariant holds |
| `Engine.Game.ToggleSound` | gameBehavor.js:69-70 | the sound flag is flipped |
| `Engine.Game.GetCard` | gameBehavor.js:105-109 | a draw returns the stream's k-th card, a value in 1..11, and requests the card cue |
| `Engine.Game.UpdateScreen` | gameBehavor.js:132-151 | the result is Evaluate of the two totals; the game ends iff a rule matched, otherwise the flag is left as it was; the cue requested is the result's (lose for the two house wins, win for the two player wins, none when play goes on) |
| `Engine.Game.HitMe` | gameBehavor.js:158-172 | outside a game nothing changes and nothing is played; in a game the player's hand grows by exactly the drawn card, the dealer's by one card iff its total was below 17, earlier cards are unchanged, the totals move by the same values, the evaluation decides the result and whether the game goes on, the card cues then the result's cue are played only while sound is on and nothing is played while it is off (the check at line 93), and the invariant is kept |
| `Engine.Game.DealerPlays` | gameBehavor.js:178-182 | the dealer's hand grows by exactly DealerDraws of its old total and its total by their sum, ending at 17 or more; one card cue is requested per card; a total equal to the sum of the hand stays so |
| `Engine.Game.Stay` | gameBehavor.js:175-206 | outside a game nothing changes; in a game the dealer's hand grows by exactly DealerDraws, the dealer ends at 17 or more, the player's hand is unchanged, the result is Showdown of the final totals, the game is over, one card cue per dealer card then the result's cue are played only while sound is on and nothing is played while it is off (the check at line 93), and the invariant is kept |
| `Engine.Game.NewGame` | gameBehavor.js:209-239 | from any state the player holds exactly the two cards drawn, the dealer exactly one card and its total equals that card, the game is in progress iff the evaluation matched no rule, three card cues then the result's cue are played only while sound is on and nothing is played while it is off (the check at line 93), and the invariant holds |

## Left out

- Page loading, the `DOMContentLoaded` listener, `initializeAudio` and `window.onload` are left out. They are browser set-up with no game logic.
- The autoplay failure handler that switches sound off (gameBehavor.js:55-62) is left out. It runs asynchronously after page load.
- The background-music side of `toggleSound` and of `newGame` (gameBehavor.js:73-88, 228-236) is left out. `ToggleSound` models only the flag.
- `Engine.Game.NewGame` assumes the background-music element exists. If it is missing while sound is on, reading `backgroundMusic.paused` (gameBehavor.js:229) throws before the evaluation at line 238. The game then stays in progress without being evaluated, so an opening 11 + 11 is not reported as a bust. Its `result == Evaluate(...)` and `gameInProgress` postconditions hold only when the element exists.
- `Engine.Game.GetCard` does not model the floating-point `Math.floor(Math.random() * 11) + 1`. The card is taken from the caller's draw stream and constrained to 1..11.
- The cue elements are taken to exist. `playSound`'s check that the element exists (gameBehavor.js:93) is not modelled, nor are the rewind and the `play()` call (lines 94-99). A cue counts as played once it is handed to `play()`, even if the browser refuses it.
- The HTML built by `updateScreen` and `stay` and the `innerHTML` writes are left out, because they are presentation only. The message is the `Outcome` value, and the card lists are `FormatCards`.
- JavaScript numbers are modelled as unbounded integers. The totals stay a few dozen at most, so no rounding or overflow can arise.
