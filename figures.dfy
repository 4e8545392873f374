/**
 * Squares and the lists of pawns of the rules engine.
 *
 * A pawn is nothing but the square it stands on, so a side's pawns are a
 * sequence of squares. Moving a pawn (`find { it.square == start }?.square =
 * destination`) becomes `Relocate`, and capturing (`removeIf { it.square ==
 * square }`) becomes `RemoveIf`.
 */
module Figures {

  /** `horizontal` is the rank (0 is White's back rank), `vertical` the file (0 is file a). */
  datatype Square = Square(horizontal: int, vertical: int)

  predicate OnBoard(square: Square) {
    0 <= square.horizontal < 8 && 0 <= square.vertical < 8
  }

  predicate AllOnBoard(figures: seq<Square>) {
    forall i :: 0 <= i < |figures| ==> OnBoard(figures[i])
  }

  /** No square is listed twice. */
  ghost predicate Distinct(figures: seq<Square>) {
    forall square :: multiset(figures)[square] <= 1
  }

  /** Drops every pawn standing on `square` and keeps the others in order. */
  function RemoveIf(figures: seq<Square>, square: Square): (r: seq<Square>)
    ensures multiset(r) == multiset(figures)[square := 0]
    ensures forall x :: x in r <==> x in figures && x != square
    ensures |r| <= |figures|
  {
    if figures == [] then []
    else
      var rest := RemoveIf(figures[1..], square);
      assert figures == [figures[0]] + figures[1..];
      if figures[0] == square then rest else [figures[0]] + rest
  }

  /** Moves the first pawn standing on `start` to `destination`; the list keeps its order. */
  function Relocate(figures: seq<Square>, start: Square, destination: Square): (r: seq<Square>)
    ensures |r| == |figures|
    ensures forall i :: 0 <= i < |r| ==> r[i] == figures[i] || (figures[i] == start && r[i] == destination)
    ensures start in figures ==> multiset(r) == multiset(figures) - multiset{start} + multiset{destination}
    ensures start !in figures ==> r == figures
  {
    if figures == [] then []
    else if figures[0] == start then
      assert figures == [start] + figures[1..];
      [destination] + figures[1..]
    else
      var rest := Relocate(figures[1..], start, destination);
      assert figures == [figures[0]] + figures[1..];
      [figures[0]] + rest
  }

  /** `find` moves the first pawn on `start`: the one at index `i` when none comes before it. */
  lemma {:induction false} RelocateFirst(figures: seq<Square>, i: int, start: Square, destination: Square)
    requires 0 <= i < |figures| && figures[i] == start && start !in figures[..i]
    ensures Relocate(figures, start, destination) == figures[i := destination]
  {
    if i > 0 {
      var rest := figures[1..];
      assert figures[0] == figures[..i][0];
      assert rest[..i - 1] == figures[1..i];
      RelocateFirst(rest, i - 1, start, destination);
      assert Relocate(figures, start, destination) == [figures[0]] + rest[i - 1 := destination];
      assert [figures[0]] + rest[i - 1 := destination] == figures[i := destination];
    }
  }

  /** Removing a pawn from a list without repetitions takes away exactly the one pawn there. */
  lemma RemoveIfDistinct(figures: seq<Square>, square: Square)
    requires Distinct(figures)
    ensures Distinct(RemoveIf(figures, square))
    ensures square in figures ==> |RemoveIf(figures, square)| == |figures| - 1
    ensures square !in figures ==> RemoveIf(figures, square) == figures
  {
    var r := RemoveIf(figures, square);
    assert |multiset(r)| == |r| && |multiset(figures)| == |figures|;
    if square in figures {
      assert multiset(figures)[square] == 1;
      assert multiset(figures) == multiset(r) + multiset{square};
    } else {
      assert multiset(r) == multiset(figures);
      RemoveIfNothing(figures, square);
    }
  }

  lemma {:induction false} RemoveIfNothing(figures: seq<Square>, square: Square)
    requires square !in figures
    ensures RemoveIf(figures, square) == figures
  {
    if figures != [] {
      RemoveIfNothing(figures[1..], square);
    }
  }

  /** Moving a pawn of a list without repetitions onto a square the list does not hold keeps the list free of repetitions. */
  lemma RelocateDistinct(figures: seq<Square>, start: Square, destination: Square)
    requires Distinct(figures) && start in figures && destination !in figures
    ensures Distinct(Relocate(figures, start, destination))
    ensures destination in Relocate(figures, start, destination)
    ensures start !in Relocate(figures, start, destination)
  {
    var r := Relocate(figures, start, destination);
    var m := multiset(figures) - multiset{start} + multiset{destination};
    assert multiset(r) == m;
    assert multiset(figures)[start] == 1;
    forall square
      ensures multiset(r)[square] <= 1
    {
      if square == destination {
        assert multiset(figures)[destination] == 0;
      }
    }
    assert multiset(r)[destination] > 0;
    assert m[start] == 0;
  }

  /** Squares on consecutive files, one per file, are all different. */
  lemma {:induction false} ConsecutiveFilesDistinct(figures: seq<Square>, firstFile: int)
    requires forall i :: 0 <= i < |figures| ==> figures[i].vertical == firstFile + i
    ensures Distinct(figures)
  {
    if figures != [] {
      var rest := figures[1..];
      ConsecutiveFilesDistinct(rest, firstFile + 1);
      assert figures == [figures[0]] + rest;
      assert figures[0] !in rest;
      forall square
        ensures multiset(figures)[square] <= 1
      {
        assert multiset(figures)[square] == multiset([figures[0]])[square] + multiset(rest)[square];
      }
    }
  }
}
