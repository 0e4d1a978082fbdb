/**
 * work/password.py: the password hashing workload. Stored passwords and test
 * passwords are generated at random, a share of the test passwords being
 * drawn from the stored ones, and the workload counts how many test
 * passwords hash to a stored hash.
 *
 * SHA-256 is the parameter `hash`; every random draw is a parameter too (see
 * GenDraws and TestDraws). The float product int(test_count * ratio) is
 * given as the integer `correct`.
 */
module Passwords {
  import opened Values
  import opened Generator

  /**
   * The random draws of one generate_passwords call: the length of password
   * k is randint(k, lo, hi) and its j-th character is Alphabet[chars(k, j)].
   */
  datatype GenDraws = GenDraws(length: RandInt, chars: (nat, nat) -> nat)

  ghost predicate GenDrawsValid(g: GenDraws) {
    DrawsInRange(g.length) && forall k: nat, j: nat :: g.chars(k, j) < |Alphabet|
  }

  /** What generate_passwords(count, (lo, hi)) returns for the given draws. */
  function PasswordsOf(count: int, lo: int, hi: int, g: GenDraws): Result<seq<string>>
    requires GenDrawsValid(g)
  {
    if count > 0 && lo > hi then Err(ValueError)
    else Ok(seq(Max0(count), k requires 0 <= k => GenerateRandomStr(g.length(k, lo, hi), j => g.chars(k, j))))
  }

  /**
   * generate_passwords (work/password.py:74-95): one password per iteration;
   * randint on an empty length range raises ValueError at the first one.
   */
  method GeneratePasswords(count: int, lo: int, hi: int, g: GenDraws) returns (r: Result<seq<string>>)
    requires GenDrawsValid(g)
    ensures r == PasswordsOf(count, lo, hi, g)
  {
    var passwords: seq<string> := [];
    for k := 0 to Max0(count)
      invariant count > 0 && lo > hi ==> k == 0
      invariant !(count > 0 && lo > hi) ==> passwords == PasswordsOf(count, lo, hi, g).value[..k]
    {
      if lo > hi {
        return Err(ValueError);
      }
      var password := GenerateRandomStr(g.length(k, lo, hi), j => g.chars(k, j));
      passwords := passwords + [password];
    }
    assert PasswordsOf(count, lo, hi, g).value[..Max0(count)] == PasswordsOf(count, lo, hi, g).value;
    r := Ok(passwords);
  }

  /**
   * generate_passwords returns exactly `count` alphanumeric passwords (none
   * for a count of zero or less), each as long as its draw, hence between
   * the bounds of the length range.
   */
  lemma PasswordsShape(count: int, lo: int, hi: int, g: GenDraws)
    requires GenDrawsValid(g)
    requires PasswordsOf(count, lo, hi, g).Ok?
    ensures var ps := PasswordsOf(count, lo, hi, g).value;
      |ps| == Max0(count) &&
      forall k :: 0 <= k < |ps| ==>
        Max0(lo) <= |ps[k]| <= Max0(hi) &&
        forall i :: 0 <= i < |ps[k]| ==> IsAlnum(ps[k][i])
  {
    var ps := PasswordsOf(count, lo, hi, g).value;
    forall k | 0 <= k < |ps|
      ensures Max0(lo) <= |ps[k]| <= Max0(hi)
    {
      assert lo <= g.length(k, lo, hi) <= hi;
    }
  }

  /** math.ceil(a / b) for a positive divisor. */
  function CeilDiv(a: int, b: int): int
    requires b > 0
  {
    if a % b == 0 then a / b else a / b + 1
  }

  lemma CeilDivBounds(a: int, b: int)
    requires b > 0
    ensures a <= b * CeilDiv(a, b) < a + b
  {
    var q, m := a / b, a % b;
    assert a == b * q + m;
    if m != 0 {
      assert b * (q + 1) == b * q + b;
    }
  }

  /**
   * The size of the pool the correct test passwords are sampled from: the
   * stored list itself when it is large enough, otherwise
   * stored * ceil(correct / stored) draws from it, which divides by zero
   * when nothing is stored.
   */
  function CorrectPoolSize(stored: nat, correct: int): (r: Result<nat>)
    ensures r.Err? <==> correct > stored && stored == 0
    ensures r.Err? ==> r.error == ZeroDivisionError
    ensures r.Ok? && correct <= stored ==> r.value == stored
    ensures r.Ok? ==> r.value >= correct
    ensures r.Ok? && correct > stored ==> r.value < correct + stored
  {
    if correct <= stored then Ok(stored)
    else if stored == 0 then Err(ZeroDivisionError)
    else
      CeilDivBounds(correct, stored);
      Ok(stored * CeilDiv(correct, stored))
  }

  /** random.shuffle: Fisher–Yates, swapping position i with swap(i) <= i from the end down. */
  method Shuffle(a: array<string>, swap: nat -> nat)
    requires forall i: nat :: swap(i) <= i
    modifies a
    ensures multiset(a[..]) == multiset(old(a[..]))
  {
    var i := a.Length;
    while i > 1
      invariant 0 <= i <= a.Length
      invariant multiset(a[..]) == multiset(old(a[..]))
    {
      i := i - 1;
      var j := swap(i);
      a[i], a[j] := a[j], a[i];
    }
  }

  /**
   * The draws of one password_hashing_and_checking_task call besides the
   * two generate_passwords calls: `enlarge(k)` is the stored position of the
   * k-th random.choices pick, `sample` the pool positions random.sample
   * picks, `swap` the shuffle's choices.
   */
  datatype TestDraws = TestDraws(incorrect: GenDraws, enlarge: nat -> nat, sample: seq<nat>, swap: nat -> nat)

  ghost predicate TestDrawsValid(d: TestDraws, stored: nat, correct: int) {
    GenDrawsValid(d.incorrect) &&
    (forall k: nat :: stored > 0 ==> d.enlarge(k) < stored) &&
    (forall i: nat :: d.swap(i) <= i) &&
    (correct >= 0 && CorrectPoolSize(stored, correct).Ok? ==>
      |d.sample| == correct &&
      (forall i :: 0 <= i < |d.sample| ==> d.sample[i] < CorrectPoolSize(stored, correct).value) &&
      forall i, j :: 0 <= i < j < |d.sample| ==> d.sample[i] != d.sample[j])
  }

  /**
   * The pool correct test passwords are sampled from: the stored passwords,
   * or `size` random picks among them.
   */
  function CorrectPool(stored: seq<string>, correct: int, size: nat, enlarge: nat -> nat): (pool: seq<string>)
    requires forall k: nat :: |stored| > 0 ==> enlarge(k) < |stored|
    requires correct > |stored| ==> |stored| > 0
    ensures |pool| == if correct > |stored| then size else |stored|
    ensures forall i :: 0 <= i < |pool| ==> pool[i] in stored
  {
    if correct > |stored| then seq(size, k requires 0 <= k => stored[enlarge(k)]) else stored
  }

  /**
   * generate_test_passwords (work/password.py:43-71) with the correct count
   * given: `correct` passwords sampled from the (possibly enlarged) stored
   * pool and test_count - correct generated ones, shuffled together. `chosen`
   * are the sampled correct passwords and `generated` the generated ones.
   */
  method GenerateTestPasswords(stored: seq<string>, testCount: int, lo: int, hi: int, correct: int, d: TestDraws)
    returns (r: Result<seq<string>>, chosen: seq<string>, generated: seq<string>)
    requires TestDrawsValid(d, |stored|, correct)
    ensures r.Err? <==>
      (testCount - correct > 0 && lo > hi) || (correct > |stored| && |stored| == 0) || correct < 0
    ensures r.Err? && correct > |stored| && |stored| == 0 && !(testCount - correct > 0 && lo > hi) ==>
      r.error == ZeroDivisionError
    ensures r.Err? && !(correct > |stored| && |stored| == 0 && !(testCount - correct > 0 && lo > hi)) ==>
      r.error == ValueError
    ensures r.Ok? ==> |chosen| == correct && generated == PasswordsOf(testCount - correct, lo, hi, d.incorrect).value
    ensures r.Ok? ==> forall i :: 0 <= i < |chosen| ==> chosen[i] in stored
    ensures r.Ok? ==> multiset(r.value) == multiset(chosen) + multiset(generated)
    ensures r.Ok? ==> |r.value| == correct + Max0(testCount - correct)
  {
    var incorrectCount := testCount - correct;
    var incorrect := GeneratePasswords(incorrectCount, lo, hi, d.incorrect);
    if incorrect.Err? {
      return Err(incorrect.error), [], [];
    }
    generated := incorrect.value;
    PasswordsShape(incorrectCount, lo, hi, d.incorrect);
    var size := CorrectPoolSize(|stored|, correct);
    if size.Err? {
      return Err(size.error), [], generated;
    }
    var pool := CorrectPool(stored, correct, size.value, d.enlarge);
    if correct < 0 {
      return Err(ValueError), [], generated;
    }
    chosen := seq(correct, i requires 0 <= i < correct => pool[d.sample[i]]);
    var tests := new string[correct + |generated|](i => "");
    forall i | 0 <= i < tests.Length {
      tests[i] := (chosen + generated)[i];
    }
    assert tests[..] == chosen + generated;
    Shuffle(tests, d.swap);
    r := Ok(tests[..]);
  }

  /** {pwd: sha256_hash(pwd) for pwd in stored}.values() as a set. */
  function StoredHashes(stored: seq<string>, hash: string -> string): set<string> {
    set p | p in stored :: hash(p)
  }

  /** The number of test passwords whose hash is among the stored hashes. */
  function CountMatches(tests: seq<string>, hashes: set<string>, hash: string -> string): (n: nat)
    ensures n <= |tests|
  {
    if |tests| == 0 then 0
    else CountMatches(tests[..|tests| - 1], hashes, hash) + (if hash(tests[|tests| - 1]) in hashes then 1 else 0)
  }

  /** The matching loop (work/password.py:29-40). */
  method MatchCount(tests: seq<string>, stored: seq<string>, hash: string -> string) returns (matched: nat)
    ensures matched == CountMatches(tests, StoredHashes(stored, hash), hash)
  {
    var hashes := StoredHashes(stored, hash);
    matched := 0;
    for k := 0 to |tests|
      invariant matched == CountMatches(tests[..k], hashes, hash)
    {
      assert tests[..k + 1][..k] == tests[..k];
      var testHash := hash(tests[k]);
      if testHash in hashes {
        matched := matched + 1;
      }
    }
    assert tests[..|tests|] == tests;
  }

  lemma {:induction false} CountMatchesAppend(a: seq<string>, b: seq<string>, hashes: set<string>, hash: string -> string)
    ensures CountMatches(a + b, hashes, hash) == CountMatches(a, hashes, hash) + CountMatches(b, hashes, hash)
    decreases |b|
  {
    if |b| == 0 {
      assert a + b == a;
    } else {
      var b0 := b[..|b| - 1];
      assert (a + b)[..|a + b| - 1] == a + b0;
      CountMatchesAppend(a, b0, hashes, hash);
    }
  }

  /** Taking one password out of the list takes its contribution out of the count. */
  lemma CountMatchesRemove(b: seq<string>, i: nat, hashes: set<string>, hash: string -> string)
    requires i < |b|
    ensures CountMatches(b, hashes, hash) ==
      CountMatches(b[..i] + b[i + 1..], hashes, hash) + CountMatches([b[i]], hashes, hash)
  {
    assert b == b[..i] + ([b[i]] + b[i + 1..]);
    CountMatchesAppend(b[..i], [b[i]] + b[i + 1..], hashes, hash);
    CountMatchesAppend([b[i]], b[i + 1..], hashes, hash);
    CountMatchesAppend(b[..i], b[i + 1..], hashes, hash);
  }

  lemma MultisetRemove(b: seq<string>, i: nat)
    requires i < |b|
    ensures multiset(b[..i] + b[i + 1..]) == multiset(b) - multiset{b[i]}
  {
    assert b == b[..i] + [b[i]] + b[i + 1..];
  }

  /** The count does not depend on the order of the test passwords. */
  lemma {:induction false} CountMatchesPermutation(a: seq<string>, b: seq<string>, hashes: set<string>, hash: string -> string)
    requires multiset(a) == multiset(b)
    ensures CountMatches(a, hashes, hash) == CountMatches(b, hashes, hash)
    decreases |a|
  {
    if |a| > 0 {
      var x := a[|a| - 1];
      var a0 := a[..|a| - 1];
      assert a == a0 + [x];
      assert x in multiset(b);
      var i :| 0 <= i < |b| && b[i] == x;
      var b0 := b[..i] + b[i + 1..];
      MultisetRemove(b, i);
      assert multiset(a0) == multiset(a) - multiset{x};
      CountMatchesPermutation(a0, b0, hashes, hash);
      CountMatchesRemove(b, i, hashes, hash);
      CountMatchesAppend(a0, [x], hashes, hash);
    } else {
      assert |b| == 0;
    }
  }

  /** Every password drawn from the stored ones matches. */
  lemma {:induction false} CountMatchesAllStored(a: seq<string>, stored: seq<string>, hash: string -> string)
    requires forall i :: 0 <= i < |a| ==> a[i] in stored
    ensures CountMatches(a, StoredHashes(stored, hash), hash) == |a|
  {
    if |a| > 0 {
      CountMatchesAllStored(a[..|a| - 1], stored, hash);
    }
  }

  /**
   * The match count lies between the number of test passwords drawn from
   * the stored ones and the number of test passwords.
   */
  lemma MatchBounds(tests: seq<string>, chosen: seq<string>, generated: seq<string>, stored: seq<string>, hash: string -> string)
    requires multiset(tests) == multiset(chosen) + multiset(generated)
    requires forall i :: 0 <= i < |chosen| ==> chosen[i] in stored
    ensures |chosen| <= CountMatches(tests, StoredHashes(stored, hash), hash) <= |tests|
  {
    var hashes := StoredHashes(stored, hash);
    assert multiset(tests) == multiset(chosen + generated);
    CountMatchesPermutation(tests, chosen + generated, hashes, hash);
    CountMatchesAppend(chosen, generated, hashes, hash);
    CountMatchesAllStored(chosen, stored, hash);
  }

  /**
   * password_hashing_and_checking_task (work/password.py:10-40): with the
   * draws fixed, the number of test passwords whose hash is stored. It is
   * at least the correct count and at most the number of tests.
   */
  method PasswordHashingAndCheckingTask(storedCount: int, triedCount: int, lo: int, hi: int, correct: int, workIndex: int,
                                        storedDraws: GenDraws, d: TestDraws, hash: string -> string)
    returns (r: Result<nat>)
    requires GenDrawsValid(storedDraws)
    requires TestDrawsValid(d, Max0(storedCount), correct)
    ensures r.Ok? ==> correct <= r.value <= correct + Max0(triedCount - correct)
    ensures r.Err? ==> r.error in {ValueError, ZeroDivisionError}
  {
    var stored := GeneratePasswords(storedCount, lo, hi, storedDraws);
    if stored.Err? {
      return Err(stored.error);
    }
    PasswordsShape(storedCount, lo, hi, storedDraws);
    var tests, chosen, generated := GenerateTestPasswords(stored.value, triedCount, lo, hi, correct, d);
    if tests.Err? {
      return Err(tests.error);
    }
    var matched := MatchCount(tests.value, stored.value, hash);
    MatchBounds(tests.value, chosen, generated, stored.value, hash);
    r := Ok(matched);
  }

  /**
   * password_hashing_and_checking_task_random_params: stored count in
   * [1000, 10000], tried count in [100, 1000], a length range whose minimum
   * in [6, 20] lies below its maximum in [21, 30], and the float ratio,
   * drawn by random.uniform(0.1, 0.9), given as `ratio`.
   */
  function PasswordRandomParams(randint: RandInt, ratio: real): (params: seq<Value>)
    requires DrawsInRange(randint)
    requires 0.1 <= ratio <= 0.9
    ensures |params| == 4 && params[0].IntV? && params[1].IntV? && params[3] == FloatV(ratio)
    ensures 1000 <= params[0].i <= 10000 && 100 <= params[1].i <= 1000
    ensures params[2].TupleV? && |params[2].items| == 2 && params[2].items[0].IntV? && params[2].items[1].IntV?
    ensures var lo, hi := params[2].items[0].i, params[2].items[1].i;
      6 <= lo <= 20 && 21 <= hi <= 30 && lo < hi
  {
    [IntV(randint(0, 1000, 10000)), IntV(randint(1, 100, 1000)),
     TupleV([IntV(randint(2, 6, 20)), IntV(randint(3, 21, 30))]), FloatV(ratio)]
  }
}
