/** What the recursion in `fib` computes when it is run sequentially. */
module Fibonacci {

  function Fib(n: int): int
    decreases if n < 0 then 0 else n
  {
    if n <= 2 then 1 else Fib(n - 1) + Fib(n - 2)
  }

  /** Number of calls of `fib` made by one call on `n`, itself included. */
  function Calls(n: int): int
    decreases if n < 0 then 0 else n
  {
    if n <= 2 then 1 else 1 + Calls(n - 1) + Calls(n - 2)
  }

  lemma {:induction false} CallsOfFib(n: int)
    ensures Calls(n) == 2 * Fib(n) - 1
    ensures 1 <= Fib(n)
    decreases if n < 0 then 0 else n
  {
    if n > 2 {
      CallsOfFib(n - 1);
      CallsOfFib(n - 2);
    }
  }

  // ----- 32-bit results -----

  const MAX_INT := 0x7fff_ffff

  /** The table `main` compares the result with. */
  function Result(n: nat): int
    requires n <= 46
  {
    match n
    case 0 => 0 case 1 => 1 case 2 => 1 case 3 => 2 case 4 => 3 case 5 => 5 case 6 => 8 case 7 => 13
    case 8 => 21 case 9 => 34 case 10 => 55 case 11 => 89 case 12 => 144 case 13 => 233 case 14 => 377
    case 15 => 610 case 16 => 987 case 17 => 1597 case 18 => 2584 case 19 => 4181 case 20 => 6765
    case 21 => 10946 case 22 => 17711 case 23 => 28657 case 24 => 46368 case 25 => 75025 case 26 => 121393
    case 27 => 196418 case 28 => 317811 case 29 => 514229 case 30 => 832040 case 31 => 1346269
    case 32 => 2178309 case 33 => 3524578 case 34 => 5702887 case 35 => 9227465 case 36 => 14930352
    case 37 => 24157817 case 38 => 39088169 case 39 => 63245986 case 40 => 102334155 case 41 => 165580141
    case 42 => 267914296 case 43 => 433494437 case 44 => 701408733 case 45 => 1134903170 case 46 => 1836311903
  }

  lemma RowOfTable(n: nat)
    requires 3 <= n <= 46
    ensures Result(n) == Result(n - 1) + Result(n - 2)
  {
  }

  /** The table is right but for its first entry. */
  lemma {:induction false} TableOfFib(n: nat)
    requires n <= 46
    ensures Result(n) == Fib(n) <==> 1 <= n
  {
    if n > 2 {
      TableOfFib(n - 1);
      TableOfFib(n - 2);
      RowOfTable(n);
    }
  }

  lemma FitsInt(n: int)
    requires n <= 46
    ensures 1 <= Fib(n) <= MAX_INT
  {
    CallsOfFib(n);
    if 1 <= n {
      TableOfFib(n);
    }
  }
}
