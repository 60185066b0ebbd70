/** The two Tower of Hanoi recursions; the lines they print are their result. */
module TowerOfHanoi {
  import opened Common

  datatype Peg = A | B | C

  datatype Move = Move(disk: nat, src: Peg, dst: Peg)

  function SolveThapHaNoi(n: nat, source: Peg, destination: Peg, auxiliary: Peg): seq<Move>
    requires n >= 1
  {
    if n == 1 then [Move(1, source, destination)]
    else
      SolveThapHaNoi(n - 1, source, auxiliary, destination)
      + [Move(n, source, destination)]
      + SolveThapHaNoi(n - 1, auxiliary, destination, source)
  }

  function ThapHaNoi(n: nat, a: Peg, b: Peg, c: Peg): seq<Move>
    requires n >= 1
  {
    if n == 1 then [Move(1, a, c)]
    else ThapHaNoi(n - 1, a, c, b) + [Move(n, a, c)] + ThapHaNoi(n - 1, b, a, c)
  }

  /** Disk d, the d-th smallest, stands on peg `board[d - 1]`. */
  type Board = seq<Peg>

  /** The disk is the top of `src` and lands on no smaller disk. */
  predicate Legal(board: Board, m: Move)
  {
    && 1 <= m.disk <= |board| && board[m.disk - 1] == m.src && m.src != m.dst
    && forall e :: 0 <= e < m.disk - 1 ==> board[e] != m.src && board[e] != m.dst
  }

  function Play(board: Board, moves: seq<Move>): (r: Option<Board>)
    ensures r.Some? ==> |r.value| == |board|
    decreases |moves|
  {
    if moves == [] then Some(board)
    else if !Legal(board, moves[0]) then None
    else Play(board[moves[0].disk - 1 := moves[0].dst], moves[1..])
  }

  /** The n smallest disks stand on `peg`. */
  predicate Tower(board: Board, n: nat, peg: Peg)
  {
    n <= |board| && forall d :: 0 <= d < n ==> board[d] == peg
  }

  function Third(p: Peg, q: Peg): (t: Peg)
    ensures p != q ==> t != p && t != q
  {
    if A != p && A != q then A else if B != p && B != q then B else C
  }

  function Pow2(n: nat): nat
  {
    if n == 0 then 1 else 2 * Pow2(n - 1)
  }

  lemma {:induction false} PlayAppend(board: Board, xs: seq<Move>, ys: seq<Move>)
    ensures Play(board, xs + ys) == if Play(board, xs).None? then None else Play(Play(board, xs).value, ys)
    decreases |xs|
  {
    if xs == [] {
      assert xs + ys == ys;
    } else {
      assert (xs + ys)[1..] == xs[1..] + ys;
      if Legal(board, xs[0]) {
        PlayAppend(board[xs[0].disk - 1 := xs[0].dst], xs[1..], ys);
      }
    }
  }

  lemma PlayAround(board: Board, xs: seq<Move>, m: Move, ys: seq<Move>)
    requires Play(board, xs).Some? && Legal(Play(board, xs).value, m)
    ensures Play(board, xs + [m] + ys) == Play(Play(board, xs).value[m.disk - 1 := m.dst], ys)
  {
    var b := Play(board, xs).value;
    PlayAppend(board, xs, [m]);
    assert Play(b, [m]) == Play(b[m.disk - 1 := m.dst], [m][1..]);
    PlayAppend(board, xs + [m], ys);
  }

  /** Every move is legal and the tower of n disks ends on the destination, whatever larger disks lie below. */
  lemma {:induction false} SolveIsLegal(n: nat, board: Board, s: Peg, d: Peg, a: Peg)
    requires n >= 1 && s != d && d != a && a != s
    requires Tower(board, n, s)
    ensures var r := Play(board, SolveThapHaNoi(n, s, d, a));
            r.Some? && Tower(r.value, n, d) && forall k :: n <= k < |board| ==> r.value[k] == board[k]
  {
    var m := Move(n, s, d);
    if n == 1 {
      assert Play(board, [m]) == Play(board[0 := d], [m][1..]) == Some(board[0 := d]);
    } else {
      var xs, ys := SolveThapHaNoi(n - 1, s, a, d), SolveThapHaNoi(n - 1, a, d, s);
      SolveIsLegal(n - 1, board, s, a, d);
      var b1 := Play(board, xs).value;
      assert Legal(b1, m);
      SolveIsLegal(n - 1, b1[n - 1 := d], a, d, s);
      PlayAround(board, xs, m, ys);
      assert SolveThapHaNoi(n, s, d, a) == xs + [m] + ys;
    }
  }

  lemma {:induction false} SolveLength(n: nat, s: Peg, d: Peg, a: Peg)
    requires n >= 1
    ensures |SolveThapHaNoi(n, s, d, a)| == Pow2(n) - 1
  {
    if n > 1 {
      SolveLength(n - 1, s, a, d);
      SolveLength(n - 1, a, d, s);
    }
  }

  /** The second version prints the same moves as the first. */
  lemma {:induction false} VersionsAgree(n: nat, a: Peg, b: Peg, c: Peg)
    requires n >= 1
    ensures ThapHaNoi(n, a, b, c) == SolveThapHaNoi(n, a, c, b)
  {
    if n > 1 {
      VersionsAgree(n - 1, a, c, b);
      VersionsAgree(n - 1, b, a, c);
    }
  }

  /** A legal game that takes disk n off `board[n - 1]` splits around the first move of disk n. */
  lemma {:induction false} FirstMoveOf(n: nat, board: Board, moves: seq<Move>) returns (i: nat, mid: Board)
    requires 1 <= n <= |board| && Play(board, moves).Some?
    requires Play(board, moves).value[n - 1] != board[n - 1]
    ensures i < |moves| && moves[i].disk == n && forall k :: 0 <= k < i ==> moves[k].disk != n
    ensures Play(board, moves[..i]) == Some(mid) && Legal(mid, moves[i]) && mid[n - 1] == board[n - 1]
    decreases |moves|
  {
    if moves[0].disk == n {
      i, mid := 0, board;
    } else {
      i, mid := FirstMoveOf(n, board[moves[0].disk - 1 := moves[0].dst], moves[1..]);
      i := i + 1;
      assert moves[..i][1..] == moves[1..][..i - 1];
    }
  }

  /** The same game splits after the last move of disk n. */
  lemma {:induction false} LastMoveOf(n: nat, board: Board, moves: seq<Move>) returns (j: nat, mid: Board)
    requires 1 <= n <= |board| && Play(board, moves).Some?
    requires exists k :: 0 <= k < |moves| && moves[k].disk == n
    ensures j < |moves| && moves[j].disk == n && forall k :: j < k < |moves| ==> moves[k].disk != n
    ensures |mid| == |board| && Legal(mid, moves[j])
    ensures var after := mid[n - 1 := moves[j].dst];
            Play(after, moves[j + 1..]) == Play(board, moves) && Play(board, moves).value[n - 1] == moves[j].dst
    decreases |moves|
  {
    var next := board[moves[0].disk - 1 := moves[0].dst];
    if k :| 1 <= k < |moves| && moves[k].disk == n {
      assert moves[1..][k - 1].disk == n;
      j, mid := LastMoveOf(n, next, moves[1..]);
      assert moves[1..][j + 1..] == moves[j + 2..];
      assert forall k :: j + 1 < k < |moves| ==> moves[k] == moves[1..][k - 1];
      j := j + 1;
    } else {
      j, mid := 0, board;
      Untouched(n, next, moves[1..]);
    }
  }

  lemma {:induction false} Untouched(n: nat, board: Board, moves: seq<Move>)
    requires 1 <= n <= |board| && Play(board, moves).Some?
    requires forall k :: 0 <= k < |moves| ==> moves[k].disk != n
    ensures Play(board, moves).value[n - 1] == board[n - 1]
    decreases |moves|
  {
    if moves != [] {
      Untouched(n, board[moves[0].disk - 1 := moves[0].dst], moves[1..]);
    }
  }

  /** When a disk moves, all smaller disks stand on the third peg. */
  lemma SmallerOnThird(board: Board, m: Move)
    requires Legal(board, m)
    ensures Tower(board, m.disk - 1, Third(m.src, m.dst))
  {
  }

  /** A game that carries a tower from p to q carries the n - 1 smaller disks to the third peg before the first
      move of disk n, and from a third peg to q after its last. */
  lemma SplitAtLargest(n: nat, board: Board, moves: seq<Move>, p: Peg, q: Peg) returns (i: nat, j: nat, after: Board)
    requires n >= 1 && p != q && Tower(board, n, p)
    requires Play(board, moves).Some? && Tower(Play(board, moves).value, n, q)
    ensures i <= j < |moves| && moves[i].disk == moves[j].disk == n
    ensures moves[i].src == p != moves[i].dst && moves[j].src != q == moves[j].dst
    ensures var r := Play(board, moves[..i]); r.Some? && Tower(r.value, n - 1, Third(p, moves[i].dst))
    ensures Tower(after, n - 1, Third(moves[j].src, q)) && Play(after, moves[j + 1..]) == Play(board, moves)
  {
    var before;
    i, before := FirstMoveOf(n, board, moves);
    j, after := LastMoveOf(n, board, moves);
    SmallerOnThird(before, moves[i]);
    SmallerOnThird(after, moves[j]);
    after := after[n - 1 := q];
  }

  /** No legal game carries a tower of n disks in fewer than 2^n - 1 moves. */
  lemma {:induction false} NoShorter(n: nat, board: Board, moves: seq<Move>, p: Peg, q: Peg)
    requires p != q && Tower(board, n, p)
    requires Play(board, moves).Some? && Tower(Play(board, moves).value, n, q)
    ensures |moves| >= Pow2(n) - 1
  {
    if n >= 1 {
      var i, j, after := SplitAtLargest(n, board, moves, p, q);
      NoShorter(n - 1, board, moves[..i], p, Third(p, moves[i].dst));
      NoShorter(n - 1, after, moves[j + 1..], Third(moves[j].src, q), q);
    }
  }

  /** A legal game that takes exactly 2^n - 1 moves is the recursion's own. */
  lemma {:induction false} OnlyOneOptimal(n: nat, board: Board, moves: seq<Move>, p: Peg, q: Peg)
    requires n >= 1 && p != q && Tower(board, n, p)
    requires Play(board, moves).Some? && Tower(Play(board, moves).value, n, q)
    requires |moves| == Pow2(n) - 1
    ensures moves == SolveThapHaNoi(n, p, q, Third(p, q))
  {
    assert Third(p, Third(p, q)) == q && Third(Third(p, q), q) == p;
    var i, j, after := SplitAtLargest(n, board, moves, p, q);
    assert i == j by {
      NoShorter(n - 1, board, moves[..i], p, Third(p, moves[i].dst));
      NoShorter(n - 1, after, moves[j + 1..], Third(moves[j].src, q), q);
    }
    var a := Third(p, q);
    assert moves[..i] + [Move(n, p, q)] + moves[i + 1..] == moves;
    if n > 1 {
      NoShorter(n - 1, board, moves[..i], p, a);
      NoShorter(n - 1, after, moves[i + 1..], a, q);
      OnlyOneOptimal(n - 1, board, moves[..i], p, a);
      OnlyOneOptimal(n - 1, after, moves[i + 1..], a, q);
    }
  }

  function Stack(n: nat, peg: Peg): (board: Board)
    ensures |board| == n && Tower(board, n, peg)
  {
    seq(n, _ => peg)
  }

  /** The recursion solves the n-disk puzzle with 2^n - 1 moves, and every other solution is longer. */
  lemma {:induction false} SolveIsOptimal(n: nat, s: Peg, d: Peg, a: Peg, other: seq<Move>)
    requires n >= 1 && s != d && d != a && a != s
    requires Play(Stack(n, s), other) == Some(Stack(n, d))
    ensures Play(Stack(n, s), SolveThapHaNoi(n, s, d, a)) == Some(Stack(n, d))
    ensures |SolveThapHaNoi(n, s, d, a)| == Pow2(n) - 1
    ensures other == SolveThapHaNoi(n, s, d, a) || |other| > Pow2(n) - 1
  {
    SolveIsLegal(n, Stack(n, s), s, d, a);
    assert Play(Stack(n, s), SolveThapHaNoi(n, s, d, a)).value == Stack(n, d);
    SolveLength(n, s, d, a);
    NoShorter(n, Stack(n, s), other, s, d);
    if |other| == Pow2(n) - 1 { OnlyOneOptimal(n, Stack(n, s), other, s, d); }
  }
}
