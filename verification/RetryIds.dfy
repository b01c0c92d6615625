/** The ids of retries (src/inference_grid/board/new.py: `next_retry_id`). */
module RetryIds {
  import opened Wrappers
  import Sets
  import opened Text

  // ----- Decimal numerals ----------------------------------------------------------------

  predicate Numeral(s: string) {
    s != "" && forall i :: 0 <= i < |s| ==> Digit(s[i])
  }

  /** `int(s)`. */
  function Value(s: string): nat
    requires forall i :: 0 <= i < |s| ==> Digit(s[i])
  {
    if s == "" then 0
    else
      var last := s[|s| - 1];
      assert Digit(last);
      Value(s[..|s| - 1]) * 10 + (last as int - '0' as int)
  }

  function DigitOf(d: nat): (c: char)
    requires d < 10
    ensures Digit(c) && c as int - '0' as int == d
  {
    (d + '0' as int) as char
  }

  /** `str(n)`. */
  function Decimal(n: nat): (s: string)
    ensures Numeral(s)
  {
    if n < 10 then [DigitOf(n)] else Decimal(n / 10) + [DigitOf(n % 10)]
  }

  lemma {:induction false} ValueOfDecimal(n: nat)
    ensures Value(Decimal(n)) == n
  {
    if n < 10 {
      assert Decimal(n)[..0] == "";
    } else {
      ValueOfDecimal(n / 10);
      assert Decimal(n)[..|Decimal(n)| - 1] == Decimal(n / 10);
    }
  }

  // ----- Numbered ids --------------------------------------------------------------------

  function Numbered(base: string, n: nat): string {
    base + "-" + Decimal(n)
  }

  lemma NumberedIsInjective(base: string, m: nat, n: nat)
    requires Numbered(base, m) == Numbered(base, n)
    ensures m == n
  {
    assert Decimal(m) == Numbered(base, m)[|base| + 1..] == Numbered(base, n)[|base| + 1..] == Decimal(n);
    ValueOfDecimal(m);
    ValueOfDecimal(n);
  }

  /** The taken ids of the base from a number on. */
  ghost function TakenFrom(board: set<string>, base: string, n: nat): set<string> {
    set id | id in board && exists k :: k >= n && id == Numbered(base, k)
  }

  lemma OneFewerTaken(board: set<string>, base: string, n: nat)
    requires Numbered(base, n) in board
    ensures |TakenFrom(board, base, n + 1)| < |TakenFrom(board, base, n)|
  {
    var more, fewer := TakenFrom(board, base, n), TakenFrom(board, base, n + 1);
    assert Numbered(base, n) in more;
    if Numbered(base, n) in fewer {
      var k :| k >= n + 1 && Numbered(base, n) == Numbered(base, k);
      NumberedIsInjective(base, n, k);
    }
    assert fewer <= more - {Numbered(base, n)};
    Sets.SubsetCardinality(fewer, more - {Numbered(base, n)});
  }

  /** The first number of the base that is not taken: there is one on any finite board. */
  function NextFree(board: set<string>, base: string, n: nat): (k: nat)
    ensures k >= n && Numbered(base, k) !in board
    ensures forall i :: n <= i < k ==> Numbered(base, i) in board
    decreases |TakenFrom(board, base, n)|
  {
    if Numbered(base, n) !in board then n
    else
      OneFewerTaken(board, base, n);
      NextFree(board, base, n + 1)
  }

  lemma {:induction false} NextFreeIsFirst(board: set<string>, base: string, n: nat, k: nat)
    requires k >= n && Numbered(base, k) !in board && forall i :: n <= i < k ==> Numbered(base, i) in board
    ensures NextFree(board, base, n) == k
    decreases k - n
  {
    if k > n {
      NextFreeIsFirst(board, base, n + 1, k);
    }
  }

  // ----- next_retry_id -------------------------------------------------------------------

  /** How many digits `s` ends in. */
  function TailDigits(s: string): (n: nat)
    ensures n <= |s| && (forall i :: |s| - n <= i < |s| ==> Digit(s[i]))
    ensures n < |s| ==> !Digit(s[|s| - n - 1])
  {
    if s != "" && Digit(s[|s| - 1]) then 1 + TailDigits(s[..|s| - 1]) else 0
  }

  /** The match of `(.+)-(\d+)` with the whole id. */
  function Split(id: string): (r: Option<(string, nat)>) {
    var cut := |id| - TailDigits(id);
    if TailDigits(id) > 0 && cut >= 2 && id[cut - 1] == '-' && '\n' !in id[..cut - 1]
    then Some((id[..cut - 1], Value(id[cut..])))
    else None
  }

  /** The id the chain had before. */
  function Predecessor(base: string, n: nat): string {
    if n == 2 then base else if n == 0 then base + "--1" else Numbered(base, n - 1)
  }

  /** The task is a retry itself: it was superseded, or its predecessor is on the board. */
  predicate Continues(board: set<string>, superseded: bool, id: string) {
    Split(id).Some? && (superseded || Predecessor(Split(id).value.0, Split(id).value.1) in board)
  }

  /** Where the numbering of a retry starts: the base of the chain and the next number, or the id
      itself and two. */
  function Origin(board: set<string>, superseded: bool, id: string): (string, nat) {
    if Continues(board, superseded, id) then (Split(id).value.0, Split(id).value.1 + 1) else (id, 2)
  }

  /** The id of the next retry: `superseded` tells whether the stored task's reason says so. */
  function RetryId(board: set<string>, superseded: bool, id: string): (r: string)
    ensures r !in board
  {
    var (base, start) := Origin(board, superseded, id);
    Numbered(base, NextFree(board, base, start))
  }

  method NextRetryId(board: set<string>, superseded: bool, id: string) returns (r: string)
    ensures r == RetryId(board, superseded, id)
  {
    var parts := Split(id);
    if parts.Some? {
      var (base, n) := parts.value;
      if superseded || Predecessor(base, n) in board {
        var k := n + 1;
        while Numbered(base, k) in board
          invariant k >= n + 1 && forall i :: n + 1 <= i < k ==> Numbered(base, i) in board
          decreases |TakenFrom(board, base, k)|
        {
          OneFewerTaken(board, base, k);
          k := k + 1;
        }
        NextFreeIsFirst(board, base, n + 1, k);
        return Numbered(base, k);
      }
    }
    var k := 2;
    while Numbered(id, k) in board
      invariant k >= 2 && forall i :: 2 <= i < k ==> Numbered(id, i) in board
      decreases |TakenFrom(board, id, k)|
    {
      OneFewerTaken(board, id, k);
      k := k + 1;
    }
    NextFreeIsFirst(board, id, 2, k);
    return Numbered(id, k);
  }

  // ----- Chains of retries ---------------------------------------------------------------

  lemma {:induction false} TailOfNumeral(s: string, d: string)
    requires (s == "" || !Digit(s[|s| - 1])) && forall i :: 0 <= i < |d| ==> Digit(d[i])
    ensures TailDigits(s + d) == |d|
    decreases |d|
  {
    if d == "" {
      assert s + d == s;
    } else {
      assert (s + d)[..|s + d| - 1] == s + d[..|d| - 1];
      TailOfNumeral(s, d[..|d| - 1]);
    }
  }

  lemma SplitOfNumbered(base: string, n: nat)
    requires base != "" && '\n' !in base
    ensures Split(Numbered(base, n)) == Some((base, n))
  {
    var id := Numbered(base, n);
    TailOfNumeral(base + "-", Decimal(n));
    var cut := |base| + 1;
    assert id[..cut - 1] == base && id[cut..] == Decimal(n) && id[cut - 1] == '-';
    ValueOfDecimal(n);
  }

  /** The ids of a chain: the first task, and its retries. */
  function Chain(base: string, n: nat): set<string> {
    if n <= 1 then {base} else Chain(base, n - 1) + {Numbered(base, n)}
  }

  lemma {:induction false} ChainHas(base: string, n: nat, k: nat)
    ensures Numbered(base, k) in Chain(base, n) <==> 2 <= k <= n || Numbered(base, k) == base
    ensures base in Chain(base, n)
  {
    if n > 1 {
      ChainHas(base, n - 1, k);
      if Numbered(base, k) == Numbered(base, n) {
        NumberedIsInjective(base, k, n);
      }
    }
  }

  /** The first retry of a plain id is numbered two. */
  lemma FirstRetry(board: set<string>, base: string, superseded: bool)
    requires !Continues(board, superseded, base) && Numbered(base, 2) !in board
    ensures RetryId(board, superseded, base) == Numbered(base, 2)
  {
    NextFreeIsFirst(board, base, 2, 2);
  }

  /** Retried one after the other, a task and its retries read as a sequence: on any board that
      holds the chain and not its next number, whether or not the last of the chain says it was
      superseded, its retry takes that number. */
  lemma ChainReadsAsSequence(board: set<string>, base: string, n: nat, superseded: bool)
    requires base != "" && '\n' !in base && n >= 2
    requires Chain(base, n) <= board && Numbered(base, n + 1) !in board
    ensures RetryId(board, superseded, Numbered(base, n)) == Numbered(base, n + 1)
  {
    SplitOfNumbered(base, n);
    ChainHas(base, n, n - 1);
    assert Continues(board, superseded, Numbered(base, n));
    NextFreeIsFirst(board, base, n + 1, n + 1);
  }

  // ----- When two tasks are due one id ---------------------------------------------------

  /** A numbered id has one base and one number. */
  lemma NumberedOnce(base: string, n: nat, base': string, n': nat)
    requires Numbered(base, n) == Numbered(base', n')
    ensures base == base' && n == n'
  {
    TailOfNumeral(base + "-", Decimal(n));
    TailOfNumeral(base' + "-", Decimal(n'));
    var id := Numbered(base, n);
    assert base == id[..|id| - |Decimal(n)| - 1] && base' == id[..|id| - |Decimal(n')| - 1];
    NumberedIsInjective(base, n, n');
  }

  /** From two starts the same number is free exactly when every number between them is taken. */
  lemma {:induction false} SameFreeExactly(board: set<string>, base: string, m: nat, n: nat)
    requires m <= n
    ensures NextFree(board, base, m) == NextFree(board, base, n) <==> forall i :: m <= i < n ==> Numbered(base, i) in board
    decreases n - m
  {
    if m < n && Numbered(base, m) in board {
      NextFreeIsFirst(board, base, m, NextFree(board, base, m + 1));
      SameFreeExactly(board, base, m + 1, n);
    }
  }

  /** Every number from the lower of two starts up to the other is taken. */
  ghost predicate TakenBetween(board: set<string>, base: string, m: nat, n: nat) {
    forall i :: m <= i < n || n <= i < m ==> Numbered(base, i) in board
  }

  /** Two tasks are due the same id exactly when their retries are numbered on the same base and
      no number between their starts is free; only taking retries one at a time keeps them apart. */
  lemma SameRetryIdExactly(board: set<string>, id: string, superseded: bool, id': string, superseded': bool)
    ensures RetryId(board, superseded, id) == RetryId(board, superseded', id') <==>
            && Origin(board, superseded, id).0 == Origin(board, superseded', id').0
            && TakenBetween(board, Origin(board, superseded, id).0, Origin(board, superseded, id).1, Origin(board, superseded', id').1)
  {
    var (base, m) := Origin(board, superseded, id);
    var (base', n) := Origin(board, superseded', id');
    if RetryId(board, superseded, id) == RetryId(board, superseded', id') {
      NumberedOnce(base, NextFree(board, base, m), base', NextFree(board, base', n));
    }
    if base == base' {
      SameFreeExactly(board, base, if m <= n then m else n, if m <= n then n else m);
    }
  }

  /** A retry of a chain that is on the board is numbered on the chain's base, from its own number. */
  lemma OriginOfRetry(board: set<string>, base: string, n: nat, superseded: bool)
    requires base != "" && '\n' !in base && n >= 2 && Chain(base, n - 1) <= board
    ensures Origin(board, superseded, Numbered(base, n)) == (base, n + 1)
  {
    SplitOfNumbered(base, n);
    ChainHas(base, n - 1, n - 1);
  }

  lemma {:induction false} ChainGrows(base: string, m: nat, n: nat)
    requires m <= n
    ensures Chain(base, m) <= Chain(base, n)
  {
    if m < n && n > 1 {
      ChainGrows(base, m, n - 1);
    }
  }

  lemma ChainOnBoard(board: set<string>, base: string, m: nat, n: nat)
    requires m <= n && Chain(base, n) <= board
    ensures Chain(base, m) <= board
  {
    ChainGrows(base, m, n);
  }

  lemma TakenInChain(board: set<string>, base: string, m: nat, n: nat)
    requires 2 <= m <= n && Chain(base, n) <= board
    ensures TakenBetween(board, base, m + 1, n + 1)
  {
    forall i | m + 1 <= i < n + 1 ensures Numbered(base, i) in board {
      ChainHas(base, n, i);
    }
  }

  /** So any two retries of a chain that is on the board are due one id. */
  lemma ChainIsDueOneId(board: set<string>, base: string, m: nat, n: nat, superseded: bool, superseded': bool)
    requires base != "" && '\n' !in base && 2 <= m <= n && Chain(base, n) <= board
    ensures RetryId(board, superseded, Numbered(base, m)) == RetryId(board, superseded', Numbered(base, n))
  {
    ChainOnBoard(board, base, m - 1, n);
    ChainOnBoard(board, base, n - 1, n);
    TakenInChain(board, base, m, n);
    OneIdFrom(board, base, superseded, m, superseded', n);
  }

  lemma OneIdFrom(board: set<string>, base: string, superseded: bool, m: nat, superseded': bool, n: nat)
    requires base != "" && '\n' !in base && m >= 2 && n >= 2 && Chain(base, m - 1) <= board && Chain(base, n - 1) <= board
    requires TakenBetween(board, base, m + 1, n + 1)
    ensures RetryId(board, superseded, Numbered(base, m)) == RetryId(board, superseded', Numbered(base, n))
  {
    OriginOfRetry(board, base, m, superseded);
    OriginOfRetry(board, base, n, superseded');
    SameRetryIdExactly(board, Numbered(base, m), superseded, Numbered(base, n), superseded');
  }
}
