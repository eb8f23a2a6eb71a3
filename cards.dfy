/** Card values, hand totals and the textual form of a hand.
    A card is the integer a draw produces; a hand is the sequence of cards
    dealt to one side, in draw order. */
module Cards {

  datatype Option<T> = None | Some(value: T)

  /** Every draw lies in 1..11 inclusive (eleven equally likely values, not a
      standard deck). */
  type Card = c: int | 1 <= c <= 11 witness 1

  /** Total of a hand: the sum of its values. */
  function Sum(hand: seq<Card>): int
  {
    if hand == [] then 0 else hand[0] + Sum(hand[1..])
  }

  /** Appending a card adds its value to the total: the pairing of every
      `push` with a `+=` of the same card keeps the running total equal to
      the sum of the hand. */
  lemma {:induction false} SumAppend(hand: seq<Card>, c: Card)
    ensures Sum(hand + [c]) == Sum(hand) + c
  {
    if hand == [] {
      assert [] + [c] == [c];
    } else {
      assert (hand + [c])[1..] == hand[1..] + [c];
      SumAppend(hand[1..], c);
    }
  }

  /** A hand of n cards totals between n and 11 * n. */
  lemma {:induction false} SumBounds(hand: seq<Card>)
    ensures |hand| <= Sum(hand) <= 11 * |hand|
  {
    if hand != [] {
      SumBounds(hand[1..]);
    }
  }

  /** Blackjack in this game: a total of exactly 21, however many cards. */
  function CheckBlackjack(total: int): (r: bool)
    ensures r <==> total == 21
  {
    total == 21
  }

  /** Decimal digit character of 0..9. */
  function Digit(d: int): (ch: char)
    requires 0 <= d <= 9
    ensures '0' <= ch <= '9'
  {
    (48 + d) as char
  }

  /** Decimal text of a card value, as a number is written when joined. */
  function CardText(c: Card): string
  {
    if c < 10 then [Digit(c)] else ['1', Digit(c - 10)]
  }

  const Separator: string := " + "

  /** The hand's values in draw order joined with " + ". The text is empty
      exactly when the hand is, and otherwise starts with the first card. */
  function FormatCards(hand: seq<Card>): (text: string)
    ensures text == "" <==> hand == []
    ensures hand != [] ==>
      |CardText(hand[0])| <= |text| && text[..|CardText(hand[0])|] == CardText(hand[0])
  {
    if hand == [] then ""
    else if |hand| == 1 then CardText(hand[0])
    else CardText(hand[0]) + Separator + FormatCards(hand[1..])
  }

  predicate IsDigit(ch: char)
  {
    '0' <= ch <= '9'
  }

  /** Reads one card value written in decimal at the start of `s`, returning
      it with the number of characters it occupies. A number must not be
      followed by a further digit, and it must lie in 1..11 with no leading
      zero. */
  function ReadCard(s: string): (r: Option<(Card, nat)>)
    ensures r.Some? ==> 1 <= r.value.1 <= |s| && r.value.1 <= 2
  {
    if |s| >= 2 && s[0] == '1' && (s[1] == '0' || s[1] == '1')
       && !(|s| >= 3 && IsDigit(s[2]))
    then Some((if s[1] == '0' then 10 else 11, 2))
    else if |s| >= 1 && '1' <= s[0] <= '9' && !(|s| >= 2 && IsDigit(s[1]))
    then Some((s[0] as int - 48, 1))
    else None
  }

  /** Reads a non-empty hand written as values separated by " + ". */
  function ParseHand(s: string): Option<seq<Card>>
    decreases |s|
  {
    match ReadCard(s)
    case None => None
    case Some((c, n)) =>
      if n == |s| then Some([c])
      else if n + 3 <= |s| && s[n..n + 3] == Separator then
        match ParseHand(s[n + 3..])
        case None => None
        case Some(rest) => Some([c] + rest)
      else None
  }

  /** Inverse of FormatCards: the empty string is the empty hand. */
  function ParseCards(s: string): Option<seq<Card>>
  {
    if s == "" then Some([]) else ParseHand(s)
  }

  lemma ReadCardText(c: Card, rest: string)
    requires rest == [] || rest[0] == ' '
    ensures ReadCard(CardText(c) + rest) == Some((c, |CardText(c)|))
  {
  }

  /** The text of a hand determines the hand: parsing it gives back exactly
      the cards, in draw order. */
  lemma {:induction false} ParseFormatCards(hand: seq<Card>)
    ensures ParseCards(FormatCards(hand)) == Some(hand)
  {
    if hand == [] {
    } else if |hand| == 1 {
      ReadCardText(hand[0], []);
      assert CardText(hand[0]) + [] == CardText(hand[0]);
      assert [hand[0]] == hand;
    } else {
      var head := CardText(hand[0]);
      var tail := FormatCards(hand[1..]);
      var s := head + Separator + tail;
      assert s == head + (Separator + tail);
      ReadCardText(hand[0], Separator + tail);
      assert s[|head|..|head| + 3] == Separator;
      assert s[|head| + 3..] == tail;
      ParseFormatCards(hand[1..]);
      assert tail != "";
      assert [hand[0]] + hand[1..] == hand;
    }
  }

  lemma FormatCardsExamples()
    ensures FormatCards([5, 6, 10]) == "5 + 6 + 10"
    ensures FormatCards([]) == ""
    ensures FormatCards([11]) == "11"
  {
  }
}
