/**
 * The BlackJack table: the rank-to-points table, hand scoring with the single
 * ace adjustment, the ordered winner rule, dealing from an infinite shoe, the
 * per-player hit/stand loop driven by console answers, the dealer's
 * draw-to-17 loop and one whole round for the four seats.
 */
module BlackJack {
  import opened Results

  // ---------------------------------------------------------------------------
  // Card table
  // ---------------------------------------------------------------------------

  /** Points of each rank label; an ace counts 11 before adjustment. */
  const CardValues: map<string, int> :=
    map["2" := 2, "3" := 3, "4" := 4, "5" := 5, "6" := 6, "7" := 7, "8" := 8,
        "9" := 9, "10" := 10, "J" := 10, "Q" := 10, "K" := 10, "A" := 11]

  /** Every rank of the table is worth between 2 and 11 points. */
  lemma CardValueRange(card: string)
    requires card in CardValues
    ensures 2 <= CardValues[card] <= 11
  {
  }

  /** The table holds exactly the thirteen ranks. */
  lemma CardTableRanks()
    ensures CardValues.Keys == Ranks && |CardValues| == 13
  {
    RanksCount();
  }

  /** The thirteen rank labels. */
  const Ranks: set<string> := {"2", "3", "4", "5", "6", "7", "8", "9", "10", "J", "Q", "K", "A"}

  /** The thirteen labels are pairwise distinct. */
  lemma RanksCount()
    ensures |Ranks| == 13
  {
  }

  /** Number ranks are worth their face value, pictures 10 and the ace 11. */
  lemma CardTableValues()
    ensures CardValues["2"] == 2 && CardValues["3"] == 3 && CardValues["4"] == 4
    ensures CardValues["5"] == 5 && CardValues["6"] == 6 && CardValues["7"] == 7
    ensures CardValues["8"] == 8 && CardValues["9"] == 9 && CardValues["10"] == 10
    ensures CardValues["J"] == 10 && CardValues["Q"] == 10 && CardValues["K"] == 10
    ensures CardValues["A"] == 11
  {
  }

  /** A hand holds only labels of the table (the only cards the shoe deals). */
  predicate ValidHand(hand: seq<string>)
  {
    forall i :: 0 <= i < |hand| ==> hand[i] in CardValues
  }

  // ---------------------------------------------------------------------------
  // Hand evaluation
  // ---------------------------------------------------------------------------

  /** The plain sum of the card values, every ace counted as 11. */
  function RawSum(hand: seq<string>): (r: int)
    requires ValidHand(hand)
    ensures 2 * |hand| <= r <= 11 * |hand|
    decreases |hand|
  {
    if hand == [] then 0
    else
      CardValueRange(hand[|hand| - 1]);
      RawSum(hand[..|hand| - 1]) + CardValues[hand[|hand| - 1]]
  }

  /**
   * The score of a hand: the raw sum, lowered by 10 exactly once when the hand
   * holds an ace and the raw sum is over 21, whatever the number of aces.
   */
  function Score(hand: seq<string>): (r: int)
    requires ValidHand(hand)
    ensures RawSum(hand) - 10 <= r <= RawSum(hand)
  {
    var raw := RawSum(hand);
    if "A" in hand && raw > 21 then raw - 10 else raw
  }

  /** Adding a card to the end adds its value to the raw sum. */
  lemma RawSumAppend(hand: seq<string>, card: string)
    requires ValidHand(hand) && card in CardValues
    ensures ValidHand(hand + [card])
    ensures RawSum(hand + [card]) == RawSum(hand) + CardValues[card]
  {
    assert (hand + [card])[..|hand|] == hand;
  }

  /** A hand without an ace scores its plain sum. */
  lemma ScoreWithoutAce(hand: seq<string>)
    requires ValidHand(hand) && "A" !in hand
    ensures Score(hand) == RawSum(hand)
  {
  }

  /** Up to 21 the raw sum is the score; above 21 it is lowered only when an ace is held. */
  lemma ScoreAdjustment(hand: seq<string>)
    requires ValidHand(hand)
    ensures RawSum(hand) <= 21 ==> Score(hand) == RawSum(hand)
    ensures RawSum(hand) > 21 ==> (Score(hand) == RawSum(hand) - 10 <==> "A" in hand)
  {
  }

  /** Number of aces in a hand. */
  function CountAces(hand: seq<string>): (n: nat)
    ensures n <= |hand|
    decreases |hand|
  {
    if hand == [] then 0
    else CountAces(hand[..|hand| - 1]) + (if hand[|hand| - 1] == "A" then 1 else 0)
  }

  /** A hand holds an ace exactly when its ace count is positive. */
  lemma {:induction false} HasAceIffCount(hand: seq<string>)
    ensures "A" in hand <==> CountAces(hand) > 0
    decreases |hand|
  {
    if hand != [] {
      var init := hand[..|hand| - 1];
      assert hand == init + [hand[|hand| - 1]];
      HasAceIffCount(init);
    }
  }

  /**
   * Reference soft-ace rule: turn one ace after another from 11 into 1 while
   * the total is over 21 and an ace counted as 11 is left.
   */
  function Soften(total: int, aces: nat): (r: int)
    decreases aces
  {
    if total > 21 && aces > 0 then Soften(total - 10, aces - 1) else total
  }

  /** The usual blackjack score, for comparison with the table's rule. */
  function StandardScore(hand: seq<string>): int
    requires ValidHand(hand)
  {
    Soften(RawSum(hand), CountAces(hand))
  }

  /** With at most one ace the table's single adjustment is the usual soft-ace rule. */
  lemma SingleAceAgrees(hand: seq<string>)
    requires ValidHand(hand) && CountAces(hand) <= 1
    ensures Score(hand) == StandardScore(hand)
  {
    HasAceIffCount(hand);
    if CountAces(hand) == 1 && RawSum(hand) > 21 {
      assert Soften(RawSum(hand) - 10, 0) == RawSum(hand) - 10;
    }
  }

  /** A hand of `n` aces. */
  function Aces(n: nat): (hand: seq<string>)
    ensures |hand| == n && ValidHand(hand)
  {
    seq(n, _ => "A")
  }

  /** The raw sum of `n` aces is 11 per ace. */
  lemma {:induction false} AcesRawSum(n: nat)
    ensures RawSum(Aces(n)) == 11 * n
  {
    if n > 0 {
      assert Aces(n)[..n - 1] == Aces(n - 1);
      AcesRawSum(n - 1);
    }
  }

  /**
   * Two or more aces lose 10 points once, not once per ace: A,A scores 12
   * and A,A,A scores 23, where the soft-ace rule would give 13.
   */
  lemma AcesScore(n: nat)
    requires n >= 2
    ensures Score(Aces(n)) == 11 * n - 10
    ensures Score(Aces(2)) == 12 && Score(Aces(3)) == 23 && StandardScore(Aces(3)) == 13
  {
    AcesRawSum(n);
    AcesRawSum(2);
    AcesRawSum(3);
    assert Aces(n)[0] == "A";
    assert Aces(2)[0] == "A";
    assert Aces(3)[0] == "A";
    assert CountAces(Aces(3)) == 3 by {
      assert Aces(3)[..2] == Aces(2) && Aces(2)[..1] == Aces(1) && Aces(1)[..0] == [];
    }
  }

  // ---------------------------------------------------------------------------
  // Winner rule
  // ---------------------------------------------------------------------------

  /** The four results the winner rule can announce. */
  datatype Outcome = PlayerBust | DealerBust | PlayerWins | DealerWins

  /**
   * The winner rule on the two scores, branches tried in order; an exact tie
   * below 21 matches none of them and announces nothing.
   */
  function Decide(player: int, dealer: int): (r: Option<Outcome>)
    ensures r == Some(PlayerBust) <==> player > 21
    ensures r == Some(DealerBust) <==> player <= 21 && dealer > 21
    ensures r == Some(PlayerWins) <==> player <= 21 && dealer <= 21 && player > dealer
    ensures r == Some(DealerWins) <==>
              player <= 21 && dealer <= 21 && (player < dealer || player == dealer == 21)
    ensures r == None <==> player == dealer < 21
  {
    if player > 21 then Some(PlayerBust)
    else if dealer > 21 then Some(DealerBust)
    else if player > dealer then Some(PlayerWins)
    else if player < dealer || dealer == 21 then Some(DealerWins)
    else None
  }

  /** Sample decisions, including the tie at 21 and the unresolved tie at 20. */
  lemma DecideExamples()
    ensures Decide(22, 17) == Some(PlayerBust)
    ensures Decide(18, 22) == Some(DealerBust)
    ensures Decide(20, 18) == Some(PlayerWins)
    ensures Decide(17, 19) == Some(DealerWins)
    ensures Decide(21, 21) == Some(DealerWins)
    ensures Decide(20, 20) == None
  {
  }

  // ---------------------------------------------------------------------------
  // Dealing
  // ---------------------------------------------------------------------------

  /**
   * One card from an infinite shoe: any label of the table may come out, with
   * replacement; which one is left open (the source picks uniformly at random).
   */
  method Draw() returns (card: string)
    ensures card in CardValues
  {
    assert "A" in CardValues;
    card :| card in CardValues;
  }

  /** The two cards every seat and the dealer start with. */
  method InitialHand() returns (hand: seq<string>)
    ensures |hand| == 2 && ValidHand(hand)
  {
    var first := Draw();
    var second := Draw();
    hand := [first, second];
  }

  // ---------------------------------------------------------------------------
  // Dealer's turn
  // ---------------------------------------------------------------------------

  /**
   * `final` is how the dealer's loop can leave `start`: cards only appended,
   * a card drawn only while the score was below 17, and a final score of at
   * least 17.
   */
  ghost predicate DealerFinished(start: seq<string>, final: seq<string>)
  {
    && ValidHand(final)
    && |start| <= |final|
    && final[..|start|] == start
    && Score(final) >= 17
    && forall k :: |start| <= k < |final| ==> Score(final[..k]) < 17
  }

  /** The dealer draws until the hand scores 17 or more; the loop always ends. */
  method DealerTurn(hand: seq<string>) returns (final: seq<string>)
    requires ValidHand(hand)
    ensures DealerFinished(hand, final)
  {
    final := hand;
    var points := Score(final);
    while points < 17
      invariant ValidHand(final) && |hand| <= |final| && final[..|hand|] == hand
      invariant points == Score(final)
      invariant forall k :: |hand| <= k < |final| ==> Score(final[..k]) < 17
      decreases 27 - RawSum(final)
    {
      var card := Draw();
      RawSumAppend(final, card);
      CardValueRange(card);
      var next := final + [card];
      assert next[..|final|] == final;
      assert forall k :: 0 <= k <= |final| ==> next[..k] == final[..k];
      final := next;
      points := Score(final);
    }
  }

  /** A dealer hand that already scores 17 or more is left as it is. */
  lemma DealerKeepsStandingHand(start: seq<string>, final: seq<string>)
    requires ValidHand(start) && Score(start) >= 17
    requires DealerFinished(start, final)
    ensures final == start
  {
  }

  // ---------------------------------------------------------------------------
  // A player's turn
  // ---------------------------------------------------------------------------

  /** ASCII lower-casing of one character. */
  function LowerChar(c: char): char
  {
    if 'A' <= c <= 'Z' then (c as int + 32) as char else c
  }

  /** The answer as the turn compares it, lower-cased. */
  function Lower(s: string): string
  {
    seq(|s|, i requires 0 <= i < |s| => LowerChar(s[i]))
  }

  /** The answers read as "hit" and "stand" are exactly "n"/"N" and "s"/"S". */
  lemma LowerAnswers(s: string)
    ensures Lower(s) == "n" <==> s == "n" || s == "N"
    ensures Lower(s) == "s" <==> s == "s" || s == "S"
  {
    if Lower(s) == "n" || Lower(s) == "s" {
      assert |s| == 1 && Lower(s)[0] == LowerChar(s[0]);
      assert s == [s[0]];
    }
  }

  /**
   * How a player's turn can leave `hand` after reading the console answers
   * `answers`: `final` is the hand, `stood` whether the seat ended standing
   * (false: the answers ran out), `used` how many answers were read. Before
   * every answer a score of 21 or more stands without reading; "n" draws a
   * card, "s" stands, any other answer changes nothing.
   */
  ghost predicate TurnPlays(hand: seq<string>, answers: seq<string>,
                            final: seq<string>, stood: bool, used: nat)
    requires ValidHand(hand)
    decreases |answers|
  {
    if Score(hand) >= 21 then final == hand && stood && used == 0
    else if answers == [] then final == hand && !stood && used == 0
    else if Lower(answers[0]) == "s" then final == hand && stood && used == 1
    else if Lower(answers[0]) == "n" then
      && used >= 1
      && |hand| < |final|
      && final[..|hand|] == hand
      && final[|hand|] in CardValues
      && (assert ValidHand(final[..|hand| + 1]) by { assert final[..|hand| + 1] == hand + [final[|hand|]]; }
          TurnPlays(final[..|hand| + 1], answers[1..], final, stood, used - 1))
    else used >= 1 && TurnPlays(hand, answers[1..], final, stood, used - 1)
  }

  /** A turn only appends dealt cards and reads no more answers than there are. */
  lemma {:induction false} TurnExtends(hand: seq<string>, answers: seq<string>,
                                       final: seq<string>, stood: bool, used: nat)
    requires ValidHand(hand) && TurnPlays(hand, answers, final, stood, used)
    ensures ValidHand(final) && |hand| <= |final| && final[..|hand|] == hand
    ensures used <= |answers|
    decreases |answers|
  {
    if Score(hand) < 21 && answers != [] && Lower(answers[0]) != "s" {
      if Lower(answers[0]) == "n" {
        var next := final[..|hand| + 1];
        assert next == hand + [final[|hand|]];
        TurnExtends(next, answers[1..], final, stood, used - 1);
      } else {
        TurnExtends(hand, answers[1..], final, stood, used - 1);
      }
    }
  }

  /**
   * The player's loop: before each answer a score of 21 or more stands at
   * once; otherwise one answer is read, "n" draws a card and "s" stands.
   * `stood` is false only when the answers run out.
   */
  method PlayerTurn(hand: seq<string>, answers: seq<string>)
    returns (final: seq<string>, stood: bool, used: nat)
    requires ValidHand(hand)
    ensures TurnPlays(hand, answers, final, stood, used)
  {
    final, stood, used := hand, false, 0;
    while !stood
      invariant ValidHand(final) && used <= |answers|
      invariant !stood ==> forall f, s, u :: TurnPlays(final, answers[used..], f, s, u) ==>
                                             TurnPlays(hand, answers, f, s, used + u)
      invariant stood ==> TurnPlays(hand, answers, final, true, used)
      decreases |answers| - used
    {
      if Score(final) >= 21 {
        assert TurnPlays(final, answers[used..], final, true, 0);
        stood := true;
        break;
      }
      if used == |answers| {
        assert TurnPlays(final, answers[used..], final, false, 0);
        break;
      }
      var rest, after := answers[used..], answers[used + 1..];
      assert rest[1..] == after;
      var answer := Lower(answers[used]);
      if answer == "n" {
        var card := Draw();
        var next := final + [card];
        assert ValidHand(next);
        forall f: seq<string>, s: bool, u: nat | TurnPlays(next, after, f, s, u)
          ensures TurnPlays(hand, answers, f, s, used + 1 + u)
        {
          TurnExtends(next, after, f, s, u);
          assert f[..|next|] == next;
          assert f[..|final| + 1] == next;
          assert f[..|final|] == final;
          assert TurnPlays(final, rest, f, s, u + 1);
        }
        final := next;
        used := used + 1;
      } else if answer == "s" {
        assert TurnPlays(final, rest, final, true, 1);
        used := used + 1;
        stood := true;
      } else {
        forall f: seq<string>, s: bool, u: nat | TurnPlays(final, after, f, s, u)
          ensures TurnPlays(hand, answers, f, s, used + 1 + u)
        {
          assert TurnPlays(final, rest, f, s, u + 1);
        }
        used := used + 1;
      }
    }
  }

  /** A hand that already scores 21 or more stands without reading an answer. */
  lemma TurnStandsAt21(hand: seq<string>, answers: seq<string>,
                       final: seq<string>, stood: bool, used: nat)
    requires ValidHand(hand) && Score(hand) >= 21
    requires TurnPlays(hand, answers, final, stood, used)
    ensures final == hand && stood && used == 0
  {
  }

  /** Number of answers that read as "hit". */
  function Hits(answers: seq<string>): (n: nat)
    ensures n <= |answers|
  {
    if answers == [] then 0
    else (if Lower(answers[0]) == "n" then 1 else 0) + Hits(answers[1..])
  }

  /**
   * Each card a turn appends was drawn for an "n" answer while the hand
   * scored below 21, and no answer was read after an "s".
   */
  lemma {:induction false} TurnDrawsOnHits(hand: seq<string>, answers: seq<string>,
                                           final: seq<string>, stood: bool, used: nat)
    requires ValidHand(hand) && TurnPlays(hand, answers, final, stood, used)
    ensures used <= |answers| && ValidHand(final)
    ensures |final| == |hand| + Hits(answers[..used])
    ensures forall k :: |hand| <= k < |final| ==> ValidHand(final[..k]) && Score(final[..k]) < 21
    ensures forall j :: 0 <= j < used - 1 ==> Lower(answers[j]) != "s"
    decreases |answers|
  {
    TurnExtends(hand, answers, final, stood, used);
    if Score(hand) < 21 && answers != [] && Lower(answers[0]) != "s" {
      var rest := answers[1..];
      assert answers[..used][1..] == rest[..used - 1];
      var next := if Lower(answers[0]) == "n" then final[..|hand| + 1] else hand;
      if Lower(answers[0]) == "n" {
        assert next == hand + [final[|hand|]];
      }
      TurnDrawsOnHits(next, rest, final, stood, used - 1);
      forall k | |hand| <= k < |final|
        ensures ValidHand(final[..k]) && Score(final[..k]) < 21
      {
        if k < |next| {
          assert final[..k] == hand;
        }
      }
      forall j | 0 <= j < used - 1
        ensures Lower(answers[j]) != "s"
      {
        if j > 0 {
          assert answers[j] == rest[j - 1];
        }
      }
    }
  }

  /**
   * A turn ends standing at 21 or more, or standing on an "s" answer, or
   * with every answer read and the hand still below 21.
   */
  lemma {:induction false} TurnEnds(hand: seq<string>, answers: seq<string>,
                                    final: seq<string>, stood: bool, used: nat)
    requires ValidHand(hand) && TurnPlays(hand, answers, final, stood, used)
    ensures ValidHand(final)
    ensures !stood ==> used == |answers| && Score(final) < 21
    ensures stood ==> Score(final) >= 21 || (0 < used <= |answers| && Lower(answers[used - 1]) == "s")
    decreases |answers|
  {
    TurnExtends(hand, answers, final, stood, used);
    if Score(hand) < 21 && answers != [] && Lower(answers[0]) != "s" {
      var rest := answers[1..];
      var next := if Lower(answers[0]) == "n" then final[..|hand| + 1] else hand;
      if Lower(answers[0]) == "n" {
        assert next == hand + [final[|hand|]];
      }
      TurnEnds(next, rest, final, stood, used - 1);
      if stood && Score(final) < 21 {
        assert answers[used - 1] == rest[used - 2];
      }
    }
  }

  // ---------------------------------------------------------------------------
  // One round
  // ---------------------------------------------------------------------------

  /** The round is dealt to four seats plus the dealer. */
  const Seats := 4

  /** Total of a sequence of answer counts. */
  function Total(counts: seq<nat>): nat
  {
    if counts == [] then 0 else Total(counts[..|counts| - 1]) + counts[|counts| - 1]
  }

  /** What a finished round leaves: every hand, how many answers each seat read, every result. */
  datatype Round = Round(hands: seq<seq<string>>, dealer: seq<string>,
                         used: seq<nat>, outcomes: seq<Option<Outcome>>)

  /** The console ran dry during the turn of this seat. */
  datatype RoundError = EndOfInput(seat: nat)

  /**
   * `hand` is how a seat can end its turn when its two dealt cards are the
   * first two of `hand` and its turn reads from answer `offset` on, reading
   * `count` answers and ending standing.
   */
  ghost predicate SeatPlayed(answers: seq<string>, hand: seq<string>, offset: nat, count: nat)
  {
    && offset <= |answers|
    && |hand| >= 2 && ValidHand(hand) && ValidHand(hand[..2])
    && TurnPlays(hand[..2], answers[offset..], hand, true, count)
  }

  /**
   * `round` is a possible result of playing with the console answers
   * `answers`: each seat's turn starts from its two dealt cards and reads the
   * answers left after the earlier seats; the dealer plays from two cards; each
   * seat's result is the winner rule on its score against the dealer's.
   */
  ghost predicate RoundPlays(answers: seq<string>, round: Round)
  {
    && |round.hands| == Seats && |round.used| == Seats && |round.outcomes| == Seats
    && |round.dealer| >= 2 && ValidHand(round.dealer[..2])
    && DealerFinished(round.dealer[..2], round.dealer)
    && forall i :: 0 <= i < Seats ==>
         && SeatPlayed(answers, round.hands[i], Total(round.used[..i]), round.used[i])
         && round.outcomes[i] == Decide(Score(round.hands[i]), Score(round.dealer))
  }

  /**
   * A round that stops at seat `seat`: the seats before it played their
   * turns, reading `used` answers between them, and the turn of `seat`, from
   * its dealt cards `hands[seat]`, runs out of the answers left.
   */
  ghost predicate StoppedAt(answers: seq<string>, seat: nat,
                            hands: seq<seq<string>>, used: seq<nat>)
  {
    && seat < Seats && |hands| == Seats && |used| == seat
    && Total(used) <= |answers|
    && (forall j :: 0 <= j < seat ==> SeatPlayed(answers, hands[j], Total(used[..j]), used[j]))
    && |hands[seat]| == 2 && ValidHand(hands[seat])
    && exists f: seq<string>, u: nat :: TurnPlays(hands[seat], answers[Total(used)..], f, false, u)
  }

  /**
   * The seats' turns in seat order, all reading from one stream of answers.
   * On success every seat stood; otherwise `failed` names the first seat
   * whose turn ran out of answers, every earlier seat having played.
   */
  method PlaySeats(dealt: seq<seq<string>>, answers: seq<string>)
    returns (hands: seq<seq<string>>, used: seq<nat>, failed: Option<nat>)
    requires |dealt| == Seats
    requires forall j :: 0 <= j < Seats ==> |dealt[j]| == 2 && ValidHand(dealt[j])
    ensures failed.Some? ==> StoppedAt(answers, failed.value, hands, used)
    ensures failed.Some? ==> hands[failed.value] == dealt[failed.value]
    ensures failed.Some? ==> forall j :: 0 <= j < failed.value ==> hands[j][..2] == dealt[j]
    ensures failed.None? ==> |hands| == Seats && |used| == Seats
    ensures failed.None? ==> forall j :: 0 <= j < Seats ==>
              SeatPlayed(answers, hands[j], Total(used[..j]), used[j]) && hands[j][..2] == dealt[j]
  {
    hands, used, failed := dealt, [], None;
    var pos := 0;
    for i := 0 to Seats
      invariant |hands| == Seats && |used| == i
      invariant pos == Total(used) <= |answers|
      invariant forall j :: i <= j < Seats ==> hands[j] == dealt[j]
      invariant forall j :: 0 <= j < i ==>
                  SeatPlayed(answers, hands[j], Total(used[..j]), used[j]) && hands[j][..2] == dealt[j]
    {
      var final, stood, u := PlayerTurn(hands[i], answers[pos..]);
      TurnExtends(hands[i], answers[pos..], final, stood, u);
      if !stood {
        assert hands[i] == dealt[i] && answers[pos..] == answers[Total(used)..];
        assert TurnPlays(hands[i], answers[Total(used)..], final, false, u);
        assert StoppedAt(answers, i, hands, used);
        failed := Some(i);
        return;
      }
      assert final[..2] == dealt[i];
      var used' := used + [u];
      assert used'[..|used|] == used;
      assert forall j :: 0 <= j < |used| ==> used'[..j] == used[..j];
      hands := hands[i := final];
      used := used';
      pos := pos + u;
    }
  }

  /**
   * A whole round: two cards to each of the four seats and to the dealer,
   * each seat's turn in seat order reading from one stream of answers, the
   * dealer's turn, then the winner rule for every seat. Running out of
   * answers ends the round, naming the seat whose turn ran dry after the
   * seats before it had played.
   */
  method PlayRound(answers: seq<string>) returns (r: Result<Round, RoundError>)
    ensures r.Success? ==> RoundPlays(answers, r.value)
    ensures r.Failure? ==> exists hands: seq<seq<string>>, used: seq<nat> ::
                             StoppedAt(answers, r.error.seat, hands, used)
  {
    var dealt: seq<seq<string>> := [];
    for i := 0 to Seats
      invariant |dealt| == i
      invariant forall j :: 0 <= j < i ==> |dealt[j]| == 2 && ValidHand(dealt[j])
    {
      var hand := InitialHand();
      dealt := dealt + [hand];
    }
    var dealer := InitialHand();

    var hands, used, failed := PlaySeats(dealt, answers);
    if failed.Some? {
      return Failure(EndOfInput(failed.value));
    }

    var dealerStart := dealer;
    dealer := DealerTurn(dealer);
    assert dealer[..2] == dealerStart;

    var outcomes: seq<Option<Outcome>> := [];
    for i := 0 to Seats
      invariant |outcomes| == i
      invariant forall j :: 0 <= j < i ==> outcomes[j] == Decide(Score(hands[j]), Score(dealer))
    {
      outcomes := outcomes + [Decide(Score(hands[i]), Score(dealer))];
    }
    r := Success(Round(hands, dealer, used, outcomes));
  }
}
