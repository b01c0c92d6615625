/** The names the board gives its ledger tasks, and how it finds them again
    (src/inference_grid/board/runner.py: LEDGER_ATTEMPT, `admit`, `ledger_attempts`). */
module LedgerNames {
  import Text

  predicate IdChar(c: char) {
    c == '-' || 'a' <= c <= 'z' || '0' <= c <= '9'
  }

  /** A board task id: nonempty, at most 60 characters of [a-z0-9-]. */
  predicate BoardId(b: string) {
    0 < |b| <= 60 && forall i :: 0 <= i < |b| ==> IdChar(b[i])
  }

  predicate Digits(s: string) {
    forall i :: 0 <= i < |s| ==> Text.Digit(s[i])
  }

  predicate HexDigits(s: string) {
    forall i :: 0 <= i < |s| ==> '0' <= s[i] <= '9' || 'a' <= s[i] <= 'f'
  }

  /** `$` also matches before a final newline. */
  function Chomp(s: string): string {
    if s != "" && s[|s| - 1] == '\n' then s[..|s| - 1] else s
  }

  function DropVerify(s: string): string {
    if |s| >= 7 && s[|s| - 7..] == "-verify" then s[..|s| - 7] else s
  }

  /** The tail LEDGER_ATTEMPT matches: a UTC stamp, a random part, and perhaps "-verify". */
  predicate AttemptTail(t: string) {
    && |t| >= 17 && Digits(t[..8]) && t[8] == 'T' && Digits(t[9..15]) && t[15] == '-'
    && DropVerify(Chomp(t[16..])) != "" && HexDigits(DropVerify(Chomp(t[16..])))
  }

  /** SQL LIKE with the prefix `b-`, which is case-insensitive on ASCII letters in SQLite. */
  predicate LikePrefix(task: string, b: string) {
    |task| > |b| && Text.Lower(task[..|b|]) == b && task[|b|] == '-'
  }

  /** `ledger_attempts` counts an attempt of this ledger task as one of board task `b`. */
  predicate Attributed(task: string, b: string) {
    LikePrefix(task, b) && AttemptTail(task[|b| + 1..])
  }

  /** The ledger id `admit` gives an attempt of board task `b`. */
  function LedgerId(b: string, stamp: string, random: string): string {
    b + "-" + stamp + "-" + random
  }

  predicate Stamp(stamp: string) {
    |stamp| == 15 && Digits(stamp[..8]) && stamp[8] == 'T' && Digits(stamp[9..])
  }

  lemma TailHasOneT(t: string, i: nat)
    requires AttemptTail(t) && i < |t|
    ensures t[i] == 'T' <==> i == 8
  {
    var rest := t[16..];
    var c := Chomp(rest);
    var d := DropVerify(c);
    assert i < 8 ==> t[..8][i] == t[i];
    assert 9 <= i < 15 ==> t[9..15][i - 9] == t[i];
    assert i >= 16 ==> rest[i - 16] == t[i];
    assert 16 <= i < 16 + |d| ==> d[i - 16] == t[i];
    assert 16 + |d| <= i < 16 + |c| ==> c[|c| - 7..][i - 16 - |d|] == t[i];
  }

  /** In a task attributed to `b` the last T is the one of the stamp. */
  lemma LastT(task: string, b: string)
    requires Attributed(task, b)
    ensures |b| + 9 < |task| && task[|b| + 9] == 'T'
    ensures forall k :: |b| + 9 < k < |task| ==> task[k] != 'T'
  {
    var t := task[|b| + 1..];
    assert t[8] == task[|b| + 9];
    forall k | |b| + 9 < k < |task| ensures task[k] != 'T' {
      TailHasOneT(t, k - |b| - 1);
      assert t[k - |b| - 1] == task[k];
    }
  }

  /** A ledger task is attributed to one board id at most: `T` cannot occur in the tail again,
      and ids of equal length that match are the same. */
  lemma AttributedOnce(task: string, b: string, b': string)
    ensures Attributed(task, b) && Attributed(task, b') ==> b == b'
  {
    if Attributed(task, b) && Attributed(task, b') {
      LastT(task, b);
      LastT(task, b');
    }
  }

  lemma LowerBoardId(b: string)
    requires BoardId(b)
    ensures Text.Lower(b) == b
  {
    assert forall i :: 0 <= i < |b| ==> IdChar(b[i]);
  }

  /** The id `admit` draws is attributed to the board task it was drawn for. */
  lemma LedgerIdIsAttributed(b: string, stamp: string, random: string)
    requires BoardId(b) && Stamp(stamp) && random != "" && HexDigits(random)
    ensures Attributed(LedgerId(b, stamp, random), b)
  {
    var task := LedgerId(b, stamp, random);
    LowerBoardId(b);
    assert task[..|b|] == b;
    var t := task[|b| + 1..];
    assert t == stamp + "-" + random;
    assert t[..8] == stamp[..8] && t[9..15] == stamp[9..];
    assert t[16..] == random;
    var last := random[|random| - 1];
    assert last != '\n' && last != 'y';
    assert Chomp(random) == random;
    assert |random| >= 7 ==> random[|random| - 7..][6] == last;
    assert DropVerify(random) == random;
  }
}
