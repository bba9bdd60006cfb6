/**
 * Memory Match: building a shuffled deck in which every icon of the chosen
 * difficulty appears exactly twice, turning cards face up (at most two at a
 * time), counting moves, and resolving a face-up pair as a match or a
 * mismatch, with victory on the last pair. The shuffle is any rearrangement;
 * the delayed resolution is an explicit step.
 */
module Memory {
  import opened Arcade

  /** The card faces: the eight company logos and the twelve device pictures. */
  datatype Icon =
    | Argus | Bitronics | Hermes | Kronos | Novatech | Orion | W3ts | Server
    | Hermes2000 | Kronos2P | Kronos2R | Kronos3R | OrionIO | OrionLX | OrionLXPlus | OrionLXM
    | OrionMX | OrionMX2S | OrionMX4S | OrionSX

  const LOGOS: seq<Icon> := [Argus, Bitronics, Hermes, Kronos, Novatech, Orion, W3ts, Server]
  const DEVICES: seq<Icon> :=
    [Hermes2000, Kronos2P, Kronos2R, Kronos3R, OrionIO, OrionLX, OrionLXPlus, OrionLXM,
     OrionMX, OrionMX2S, OrionMX4S, OrionSX]

  datatype Difficulty = Easy | Hard | Insane

  datatype Card = Card(id: nat, icon: Icon, isFlipped: bool, isMatched: bool)

  /** No icon occurs twice. */
  predicate Distinct(icons: seq<Icon>)
  {
    forall i, j :: 0 <= i < j < |icons| ==> icons[i] != icons[j]
  }

  /** The icons in play: six logos, all eight logos, or the twelve devices. */
  function IconsFor(d: Difficulty): (icons: seq<Icon>)
    ensures Distinct(icons)
    ensures |icons| == match d case Easy => 6 case Hard => 8 case Insane => 12
  {
    match d
    case Easy => LOGOS[..6]
    case Hard => LOGOS
    case Insane => DEVICES
  }

  // ---------------------------------------------------------------------
  // The deck
  // ---------------------------------------------------------------------

  /** The number of copies of x in s. */
  function Count(s: seq<Icon>, x: Icon): (n: nat)
    ensures n <= |s|
    ensures n > 0 <==> x in s
  {
    if s == [] then 0 else (if s[0] == x then 1 else 0) + Count(s[1..], x)
  }

  /** Counting over a concatenation adds the two counts. */
  lemma {:induction false} CountConcat(a: seq<Icon>, b: seq<Icon>, x: Icon)
    ensures Count(a + b, x) == Count(a, x) + Count(b, x)
    decreases |a|
  {
    if a == [] {
      assert a + b == b;
    } else {
      assert (a + b)[0] == a[0] && (a + b)[1..] == a[1..] + b;
      CountConcat(a[1..], b, x);
    }
  }

  /**
   * A shuffle of the doubled icon list: the same number of cards, and the
   * same number of copies of every icon, in any order.
   */
  predicate IsShuffle(icons: seq<Icon>, shuffled: seq<Icon>)
  {
    |shuffled| == |icons + icons| && forall x :: Count(shuffled, x) == Count(icons + icons, x)
  }

  /** Count is the multiplicity of the icon in the list's multiset. */
  lemma {:induction false} CountIsMultiplicity(s: seq<Icon>, x: Icon)
    ensures Count(s, x) == multiset(s)[x]
    decreases |s|
  {
    if s != [] {
      assert s == [s[0]] + s[1..];
      CountIsMultiplicity(s[1..], x);
    }
  }

  /**
   * A shuffle is exactly a permutation of the doubled list, so any
   * reordering of the deck, whatever comparator drives it, is a shuffle.
   */
  lemma ShuffleIsPermutation(icons: seq<Icon>, shuffled: seq<Icon>)
    ensures IsShuffle(icons, shuffled) <==> multiset(shuffled) == multiset(icons + icons)
  {
    if IsShuffle(icons, shuffled) {
      forall x | true
        ensures multiset(shuffled)[x] == multiset(icons + icons)[x]
      {
        CountIsMultiplicity(shuffled, x);
        CountIsMultiplicity(icons + icons, x);
      }
    }
    if multiset(shuffled) == multiset(icons + icons) {
      assert |shuffled| == |multiset(shuffled)|;
      forall x | true
        ensures Count(shuffled, x) == Count(icons + icons, x)
      {
        CountIsMultiplicity(shuffled, x);
        CountIsMultiplicity(icons + icons, x);
      }
    }
  }

  /** Swapping two cards of a shuffle, as one step of a sort does, leaves a shuffle. */
  lemma ShuffleSwap(icons: seq<Icon>, shuffled: seq<Icon>, i: nat, j: nat)
    requires IsShuffle(icons, shuffled) && i < |shuffled| && j < |shuffled|
    ensures IsShuffle(icons, shuffled[i := shuffled[j]][j := shuffled[i]])
  {
    var swapped := shuffled[i := shuffled[j]][j := shuffled[i]];
    ShuffleIsPermutation(icons, shuffled);
    assert multiset(swapped) == multiset(shuffled);
    ShuffleIsPermutation(icons, swapped);
  }

  /** The cards, numbered by position, all face down and unmatched. */
  function Deck(shuffled: seq<Icon>): (cards: seq<Card>)
    ensures |cards| == |shuffled|
    ensures forall k :: 0 <= k < |cards| ==> cards[k].id == k && !cards[k].isFlipped && !cards[k].isMatched
    ensures Faces(cards) == shuffled
  {
    seq(|shuffled|, k requires 0 <= k < |shuffled| => Card(k, shuffled[k], false, false))
  }

  /** The faces of the cards, in order. */
  function Faces(cards: seq<Card>): (faces: seq<Icon>)
    ensures |faces| == |cards|
    ensures forall k :: 0 <= k < |cards| ==> faces[k] == cards[k].icon
  {
    seq(|cards|, k requires 0 <= k < |cards| => cards[k].icon)
  }

  /** A distinct list holds each of its icons once. */
  lemma {:induction false} DistinctOnce(icons: seq<Icon>, x: Icon)
    requires Distinct(icons)
    ensures Count(icons, x) == if x in icons then 1 else 0
    decreases |icons|
  {
    if icons != [] {
      var rest := icons[1..];
      assert Distinct(rest) by {
        forall i, j | 0 <= i < j < |rest|
          ensures rest[i] != rest[j]
        {
          assert rest[i] == icons[i + 1] && rest[j] == icons[j + 1];
        }
      }
      DistinctOnce(rest, x);
      if x == icons[0] {
        assert x !in rest by {
          forall k | 0 <= k < |rest|
            ensures rest[k] != x
          {
            assert rest[k] == icons[k + 1];
          }
        }
      }
      assert x in icons <==> x == icons[0] || x in rest;
    }
  }

  /**
   * In a deck dealt from a shuffle of distinct icons, every icon appears on
   * exactly two cards and no other face appears.
   */
  lemma DeckPairs(icons: seq<Icon>, shuffled: seq<Icon>, x: Icon)
    requires Distinct(icons) && IsShuffle(icons, shuffled)
    ensures Count(Faces(Deck(shuffled)), x) == if x in icons then 2 else 0
  {
    CountConcat(icons, icons, x);
    DistinctOnce(icons, x);
  }

  /**
   * The deck dealt for a difficulty: 12, 16 or 24 cards, each icon of that
   * difficulty on exactly two of them, no other icon on any.
   */
  lemma DealtDeck(d: Difficulty, shuffled: seq<Icon>, x: Icon)
    requires IsShuffle(IconsFor(d), shuffled)
    ensures |Deck(shuffled)| == match d case Easy => 12 case Hard => 16 case Insane => 24
    ensures Count(Faces(Deck(shuffled)), x) == if x in IconsFor(d) then 2 else 0
  {
    DeckPairs(IconsFor(d), shuffled, x);
  }

  // ---------------------------------------------------------------------
  // Resolving a pair
  // ---------------------------------------------------------------------

  /** The number of cards not yet matched. */
  function Unmatched(cards: seq<Card>): (n: nat)
    ensures n <= |cards|
  {
    if cards == [] then 0 else (if cards[0].isMatched then 0 else 1) + Unmatched(cards[1..])
  }

  predicate AllMatched(cards: seq<Card>)
  {
    forall k :: 0 <= k < |cards| ==> cards[k].isMatched
  }

  /** A match: exactly the cards at i and j become matched; every other card is left alone. */
  function MarkMatched(cards: seq<Card>, i: nat, j: nat): (r: seq<Card>)
    ensures |r| == |cards|
    ensures forall k :: 0 <= k < |cards| ==>
              r[k] == if k == i || k == j then cards[k].(isMatched := true) else cards[k]
  {
    seq(|cards|, k requires 0 <= k < |cards| =>
                   if k == i || k == j then cards[k].(isMatched := true) else cards[k])
  }

  /** A mismatch: exactly the cards at i and j turn face down; every other card is left alone. */
  function Unflip(cards: seq<Card>, i: nat, j: nat): (r: seq<Card>)
    ensures |r| == |cards|
    ensures forall k :: 0 <= k < |cards| ==>
              r[k] == if k == i || k == j then cards[k].(isFlipped := false) else cards[k]
  {
    seq(|cards|, k requires 0 <= k < |cards| =>
                   if k == i || k == j then cards[k].(isFlipped := false) else cards[k])
  }

  /** Nothing unmatched is left exactly when the count of unmatched cards is zero. */
  lemma {:induction false} NoneUnmatched(cards: seq<Card>)
    ensures Unmatched(cards) == 0 <==> AllMatched(cards)
    decreases |cards|
  {
    if cards != [] {
      NoneUnmatched(cards[1..]);
      if AllMatched(cards) {
        assert AllMatched(cards[1..]) by {
          forall k | 0 <= k < |cards[1..]|
            ensures cards[1..][k].isMatched
          {
            assert cards[1..][k] == cards[k + 1];
          }
        }
      }
      if Unmatched(cards) == 0 {
        forall k | 0 <= k < |cards|
          ensures cards[k].isMatched
        {
          if k > 0 {
            assert cards[k] == cards[1..][k - 1];
          }
        }
      }
    }
  }

  /** Marking one unmatched card as matched lowers the unmatched count by one. */
  lemma {:induction false} UnmatchedMarkOne(cards: seq<Card>, i: nat)
    requires i < |cards| && !cards[i].isMatched
    ensures Unmatched(cards[i := cards[i].(isMatched := true)]) == Unmatched(cards) - 1
    decreases i
  {
    var r := cards[i := cards[i].(isMatched := true)];
    if i == 0 {
      assert r[1..] == cards[1..];
    } else {
      assert r[1..] == cards[1..][i - 1 := cards[i].(isMatched := true)];
      UnmatchedMarkOne(cards[1..], i - 1);
    }
  }

  /** A match of two distinct unmatched cards lowers the unmatched count by exactly two. */
  lemma MatchCountsTwo(cards: seq<Card>, i: nat, j: nat)
    requires i < |cards| && j < |cards| && i != j
    requires !cards[i].isMatched && !cards[j].isMatched
    ensures Unmatched(MarkMatched(cards, i, j)) == Unmatched(cards) - 2
  {
    var once := cards[i := cards[i].(isMatched := true)];
    UnmatchedMarkOne(cards, i);
    UnmatchedMarkOne(once, j);
    assert MarkMatched(cards, i, j) == once[j := once[j].(isMatched := true)];
  }

  /**
   * The victory test, which counts the unmatched cards before the match is
   * applied, succeeds exactly when the match leaves every card matched.
   */
  lemma VictoryIffLastPair(cards: seq<Card>, i: nat, j: nat)
    requires i < |cards| && j < |cards| && i != j
    requires !cards[i].isMatched && !cards[j].isMatched
    ensures Unmatched(cards) <= 2 <==> AllMatched(MarkMatched(cards, i, j))
  {
    MatchCountsTwo(cards, i, j);
    NoneUnmatched(MarkMatched(cards, i, j));
  }

  // ---------------------------------------------------------------------
  // The game object
  // ---------------------------------------------------------------------

  /** The component's cards, flippedIndices, moves, status and difficulty hooks. */
  class MemoryGame {
    var cards: seq<Card>
    var flippedIndices: seq<nat>
    var moves: nat
    var status: Status
    var difficulty: Difficulty

    /**
     * Cards are numbered by position; at most two are face up and unmatched,
     * those are exactly the ones listed in flippedIndices, in click order,
     * without repetition; a won game has every card matched.
     */
    ghost predicate Valid()
      reads this
    {
      && (forall k :: 0 <= k < |cards| ==> cards[k].id == k)
      && |flippedIndices| <= 2
      && (forall n :: 0 <= n < |flippedIndices| ==>
            flippedIndices[n] < |cards| && cards[flippedIndices[n]].isFlipped
            && !cards[flippedIndices[n]].isMatched)
      && (|flippedIndices| == 2 ==> flippedIndices[0] != flippedIndices[1])
      && (forall k :: 0 <= k < |cards| && cards[k].isFlipped && !cards[k].isMatched ==> k in flippedIndices)
      && (status == Victory ==> AllMatched(cards) && flippedIndices == [])
    }

    /** Mounting: no cards, no moves, IDLE, EASY selected. */
    constructor ()
      ensures Valid()
      ensures cards == [] && flippedIndices == [] && moves == 0 && status == Idle && difficulty == Easy
    {
      cards := [];
      flippedIndices := [];
      moves := 0;
      status := Idle;
      difficulty := Easy;
    }

    /** initializeDeck: a fresh deck for the current difficulty, nothing face up, no moves. */
    method InitializeDeck(shuffled: seq<Icon>)
      requires status != Victory && IsShuffle(IconsFor(difficulty), shuffled)
      modifies this`cards, this`flippedIndices, this`moves
      ensures Valid()
      ensures cards == Deck(shuffled)
      ensures flippedIndices == [] && moves == 0
    {
      cards := Deck(shuffled);
      flippedIndices := [];
      moves := 0;

    }

    /**
     * A difficulty button: clear the cards, select the difficulty and start
     * playing, which deals a deck for it.
     */
    method Start(d: Difficulty, shuffled: seq<Icon>)
      requires Valid() && status == Idle && IsShuffle(IconsFor(d), shuffled)
      modifies this
      ensures Valid()
      ensures difficulty == d && status == Playing
      ensures cards == Deck(shuffled)
      ensures flippedIndices == [] && moves == 0
    {
      cards := [];
      flippedIndices := [];
      difficulty := d;
      status := Playing;
      InitializeDeck(shuffled);
    }

    /**
     * handleCardClick: ignored on a matched or face-up card or while two cards
     * are face up; otherwise that card turns face up and is recorded, and
     * turning the second card counts one move.
     */
    method HandleCardClick(index: nat)
      requires Valid() && index < |cards|
      modifies this`cards, this`flippedIndices, this`moves
      ensures Valid()
      ensures old(cards[index].isMatched || cards[index].isFlipped || |flippedIndices| >= 2) ==>
                cards == old(cards) && flippedIndices == old(flippedIndices) && moves == old(moves)
      ensures !old(cards[index].isMatched || cards[index].isFlipped || |flippedIndices| >= 2) ==>
                && cards == old(cards)[index := old(cards)[index].(isFlipped := true)]
                && flippedIndices == old(flippedIndices) + [index]
                && moves == old(moves) + (if |flippedIndices| == 2 then 1 else 0)
    {
      if cards[index].isMatched || cards[index].isFlipped || |flippedIndices| >= 2 {
        return;
      }
      cards := cards[index := cards[index].(isFlipped := true)];
      flippedIndices := flippedIndices + [index];
      if |flippedIndices| == 2 {
        moves := moves + 1;
      }
    }

    /**
     * checkForMatch, once its delay has passed: a pair with the same face
     * stays up as matched, and winning is decided by counting the unmatched
     * cards before this match; a pair with different faces turns back down.
     */
    method Resolve()
      requires Valid() && |flippedIndices| == 2
      modifies this`cards, this`flippedIndices, this`status
      ensures Valid()
      ensures var i := old(flippedIndices[0]);
              var j := old(flippedIndices[1]);
              if old(cards[i].icon == cards[j].icon) then
                && cards == MarkMatched(old(cards), i, j)
                && status == (if Unmatched(old(cards)) <= 2 then Victory else old(status))
              else
                cards == Unflip(old(cards), i, j) && status == old(status)
      ensures flippedIndices == []
    {
      var index1 := flippedIndices[0];
      var index2 := flippedIndices[1];
      if cards[index1].icon == cards[index2].icon {
        var won := Unmatched(cards) <= 2;
        VictoryIffLastPair(cards, index1, index2);
        cards := MarkMatched(cards, index1, index2);
        flippedIndices := [];
        if won {
          status := Victory;
        }
      } else {
        cards := Unflip(cards, index1, index2);
        flippedIndices := [];
      }
    }

    /** The retry button of the victory dialog: back to choosing a difficulty. */
    method Retry()
      requires Valid() && status == Victory
      modifies this`cards, this`status
      ensures Valid()
      ensures cards == [] && status == Idle
    {
      cards := [];
      status := Idle;
    }
  }
}
