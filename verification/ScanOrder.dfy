/** Which slots a scan visits when its counter is a machine word that wraps. Submitters scan with a
    32-bit start, pollers with a 64-bit one; both reduce the wrapped sum modulo the number of slots. */
module ScanOrder {
  import opened FiniteSets
  import opened ModArith

  /** The slot visited at probe `n` of a scan from `start`, with word size `word`. */
  function Visit(start: nat, n: nat, k: nat, word: nat): nat
    requires k >= 1 && word >= 1
  {
    (start + n) % word % k
  }

  ghost predicate Visits(start: nat, k: nat, word: nat, slot: nat)
    requires k >= 1 && word >= 1
  {
    exists n: nat :: n < k && Visit(start, n, k, word) == slot
  }

  ghost predicate CoversAll(start: nat, k: nat, word: nat)
    requires k >= 1 && word >= 1
  {
    forall slot: nat :: slot < k ==> Visits(start, k, word, slot)
  }

  /** The scan does not wrap, or wrapping does no harm. */
  predicate NoSkew(start: nat, k: nat, word: nat)
    requires k >= 1
  {
    start + k <= word || word % k == 0
  }

  lemma ModOfMod(x: nat, word: nat, k: nat)
    requires k >= 1 && word >= 1 && word % k == 0
    ensures x % word % k == x % k
  {
    var a, b := x / word, word / k;
    var r := x % word;
    assert x == word * a + r && word == k * b && r == k * (r / k) + r % k;
    assert word * a == k * (b * a);
    assert x == k * (b * a + r / k) + r % k;
    DivModUnique(x, k, b * a + r / k, r % k);
  }

  /** Some `n` below `k` brings `start` to any wanted remainder. */
  lemma Steps(start: nat, k: nat, slot: nat) returns (n: nat)
    requires k >= 1 && slot < k
    ensures n < k && (start + n) % k == slot
  {
    var m := start % k;
    var q := start / k;
    if slot >= m {
      n := slot - m;
      DivModUnique(start + n, k, q, slot);
    } else {
      n := slot + k - m;
      assert start + n == k * (q + 1) + slot;
      DivModUnique(start + n, k, q + 1, slot);
    }
  }

  lemma Covers(start: nat, k: nat, word: nat, slot: nat) returns (n: nat)
    requires k >= 1 && word >= 1 && NoSkew(start, k, word) && slot < k
    ensures n < k && Visit(start, n, k, word) == slot
  {
    n := Steps(start, k, slot);
    if start + k <= word { SmallMod(start + n, word); } else { ModOfMod(start + n, word, k); }
  }

  // ---- A skewed scan visits one slot twice and misses another ----

  /** Two probes of a skewed scan that land on the same slot. */
  lemma Twice(start: nat, k: nat, word: nat) returns (n: nat, m: nat)
    requires 1 <= k <= word && start < word && !NoSkew(start, k, word)
    ensures n < m < k && Visit(start, n, k, word) == Visit(start, m, k, word)
  {
    var c := word % k;
    var r := word - start;
    if c >= r {
      n, m := 0, c;
      SmallMod(start, word);
      Residue(word, k, r);
      Wrapped(start, m, word);
      SmallMod(c - r, k);
    } else {
      n, m := r - c, r;
      SmallMod(word - c, word);
      Residue(word, k, c);
      Wrapped(start, m, word);
      SmallMod(0, k);
    }
  }

  lemma Residue(word: nat, k: nat, d: nat)
    requires k >= 1 && d <= word % k
    ensures (word - d) % k == word % k - d
  {
    DivModUnique(word - d, k, word / k, word % k - d);
  }

  lemma Wrapped(start: nat, m: nat, word: nat)
    requires start < word && word <= start + m < 2 * word
    ensures (start + m) % word == start + m - word
  {
    DivModUnique(start + m, word, 1, start + m - word);
  }

  ghost function Image(start: nat, k: nat, word: nat, s: set<nat>): set<nat>
    requires k >= 1 && word >= 1
  {
    set n | n in s :: Visit(start, n, k, word)
  }

  lemma {:induction false} ImageCard(start: nat, k: nat, word: nat, s: set<nat>)
    requires k >= 1 && word >= 1
    ensures |Image(start, k, word, s)| <= |s|
    decreases |s|
  {
    if s != {} {
      var x :| x in s;
      ImageCard(start, k, word, s - {x});
      assert Image(start, k, word, s) == Image(start, k, word, s - {x}) + {Visit(start, x, k, word)};
    }
  }

  /** If two probes coincide, the remaining ones must reach every slot alone. */
  lemma RestReachesAll(start: nat, k: nat, word: nat, n: nat, m: nat)
    requires 1 <= k <= word && CoversAll(start, k, word)
    requires n < m < k && Visit(start, n, k, word) == Visit(start, m, k, word)
    ensures Below(k) <= Image(start, k, word, Below(k) - {m})
  {
    var rest := Below(k) - {m};
    forall slot: nat | slot in Below(k) ensures slot in Image(start, k, word, rest) {
      assert Visits(start, k, word, slot);
      var p: nat :| p < k && Visit(start, p, k, word) == slot;
      var p' := if p == m then n else p;
      assert p' in rest && Visit(start, p', k, word) == slot;
    }
  }

  lemma SkewMisses(start: nat, k: nat, word: nat)
    requires 1 <= k <= word && start < word && !NoSkew(start, k, word)
    ensures !CoversAll(start, k, word)
  {
    var n, m := Twice(start, k, word);
    var rest := Below(k) - {m};
    ImageCard(start, k, word, rest);
    if CoversAll(start, k, word) {
      RestReachesAll(start, k, word, n, m);
      SubsetCard(Below(k), Image(start, k, word, rest));
    }
  }

  /** A scan of `k` probes visits every slot if and only if it does not wrap or `k` divides the word size. */
  lemma CoverageExact(start: nat, k: nat, word: nat)
    requires 1 <= k <= word && start < word
    ensures CoversAll(start, k, word) <==> NoSkew(start, k, word)
  {
    if NoSkew(start, k, word) {
      forall slot: nat | slot < k ensures Visits(start, k, word, slot) {
        var n := Covers(start, k, word, slot);
      }
    } else {
      SkewMisses(start, k, word);
    }
  }

  /** From cursor word - 1 a scan visits slots 0 to k-2, and slot k-1 only if k divides the word size. */
  lemma LastScan(k: nat, m: nat, word: nat)
    requires 1 <= k <= word && word % k != 0 && m < k
    ensures Visit(word - 1, m, k, word) < k - 1
  {
    if m == 0 {
      SmallMod(word - 1, word);
      Residue(word, k, 1);
    } else {
      Wrapped(word - 1, m, word);
      SmallMod(m - 1, k);
    }
  }

  // ---- EAGAIN ----

  ghost predicate AnyFree(k: nat, free: set<nat>) {
    exists slot: nat :: slot < k && slot in free
  }

  ghost predicate FindsFree(start: nat, k: nat, word: nat, free: set<nat>)
    requires k >= 1 && word >= 1
  {
    exists n: nat :: n < k && Visit(start, n, k, word) in free
  }

  /** A submit that nothing interrupts finds a free slot whenever there is one, for every occupancy of
      the pool, if and only if its scan does not wrap or slots_per_stream divides the word size. */
  lemma FullPoolExact(start: nat, k: nat, word: nat)
    requires 1 <= k <= word && start < word
    ensures (forall free :: AnyFree(k, free) ==> FindsFree(start, k, word, free)) <==> NoSkew(start, k, word)
  {
    CoverageExact(start, k, word);
    if NoSkew(start, k, word) {
      forall free | AnyFree(k, free) ensures FindsFree(start, k, word, free) {
        var slot: nat :| slot < k && slot in free;
        assert Visits(start, k, word, slot);
      }
    } else {
      var slot: nat :| slot < k && !Visits(start, k, word, slot);
      assert slot in {slot} && AnyFree(k, {slot}) && !FindsFree(start, k, word, {slot});
    }
  }
}
