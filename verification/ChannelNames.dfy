/** Naming imported channels (nextUniqueChannelName in internal/core/store/import.go). What
    strings.ToLower does to each letter is a parameter. */
module ChannelNames {
  import opened Seqs
  import opened Text

  function Lowered(s: string, lower: char -> char): string {
    seq(|s|, i requires 0 <= i < |s| => lower(s[i]))
  }

  /** channelNameKey. */
  function Key(name: string, lower: char -> char): string {
    Lowered(Trim(name), lower)
  }

  /** Digits have no case. */
  ghost predicate KeepsDigits(lower: char -> char) {
    forall c :: '0' <= c <= '9' ==> lower(c) == c
  }

  function Base(name: string): string {
    if Trim(name) == "" then "Channel" else Trim(name)
  }

  /** The n-th name tried: "base", "base (2)", "base (3)", and so on. */
  function Candidate(base: string, n: nat): string {
    if n <= 1 then base else base + " (" + Itoa(n) + ")"
  }

  lemma BaseIsTrimmed(name: string)
    ensures Base(name) != "" && Trimmed(Base(name))
  {
    TrimIsTrimmed(name);
  }

  lemma CandidateIsTrimmed(base: string, n: nat)
    requires base != "" && Trimmed(base)
    ensures Trim(Candidate(base, n)) == Candidate(base, n)
  {
    TrimmedIsFixed(Candidate(base, n));
  }

  lemma {:induction false} LowerKeepsDigits(a: string, x: string, y: string, lower: char -> char)
    requires KeepsDigits(lower) && Digits(x) && Digits(y)
    requires Lowered(a + " (" + x + ")", lower) == Lowered(a + " (" + y + ")", lower)
    ensures x == y
  {
    var s, t := a + " (" + x + ")", a + " (" + y + ")";
    assert |s| == |Lowered(s, lower)| == |t|;
    var n := |a| + 2;
    forall i | 0 <= i < |x| ensures x[i] == y[i] {
      assert s[n + i] == x[i] && t[n + i] == y[i];
      assert Lowered(s, lower)[n + i] == Lowered(t, lower)[n + i];
    }
  }

  /** No two candidates share a key, so one of them is free. */
  lemma KeysDiffer(base: string, m: nat, n: nat, lower: char -> char)
    requires KeepsDigits(lower) && base != "" && Trimmed(base) && 1 <= m < n
    ensures Key(Candidate(base, m), lower) != Key(Candidate(base, n), lower)
  {
    CandidateIsTrimmed(base, m);
    CandidateIsTrimmed(base, n);
    hide Trim;
    if Key(Candidate(base, m), lower) == Key(Candidate(base, n), lower) {
      assert |Lowered(Candidate(base, m), lower)| == |Candidate(base, m)|;
      if m > 1 {
        LowerKeepsDigits(base, Itoa(m), Itoa(n), lower);
        ItoaInjective(m, n);
      }
    }
  }

  /** The keys of the first n candidates. */
  function Keys(base: string, n: nat, lower: char -> char): seq<string> {
    seq(n, i requires 0 <= i < n => Key(Candidate(base, i + 1), lower))
  }

  lemma TriedAreMany(base: string, n: nat, taken: set<string>, lower: char -> char)
    requires KeepsDigits(lower) && base != "" && Trimmed(base)
    requires forall k :: 1 <= k <= n ==> Key(Candidate(base, k), lower) in taken
    ensures n <= |taken|
  {
    hide Key, Candidate;
    var keys := Keys(base, n, lower);
    forall i, j | 0 <= i < j < n ensures keys[i] != keys[j] {
      KeysDiffer(base, i + 1, j + 1, lower);
    }
    DistinctSize(keys);
    SubsetSize(Elements(keys), taken);
  }

  lemma CandidateNames(base: string)
    ensures forall n: nat :: n >= 1 ==> Candidate(base, n) == if n == 1 then base else base + " (" + Itoa(n) + ")"
  {
  }

  /** The first candidate whose key is free; its key is recorded. */
  method NextUniqueChannelName(taken: set<string>, wanted: string, lower: char -> char)
    returns (name: string, taken': set<string>, ghost n: nat)
    requires KeepsDigits(lower)
    ensures n >= 1 && name == Candidate(Base(wanted), n) && Key(name, lower) !in taken
    ensures forall k :: 1 <= k < n ==> Key(Candidate(Base(wanted), k), lower) in taken
    ensures taken' == taken + {Key(name, lower)}
    ensures name == if n == 1 then Base(wanted) else Base(wanted) + " (" + Itoa(n) + ")"
  {
    CandidateNames(Base(wanted));
    hide Key, Candidate;
    BaseIsTrimmed(wanted);
    var base := Base(wanted);
    var k := 1;
    name := Candidate(base, 1);
    while Key(name, lower) in taken
      invariant k >= 1 && name == Candidate(base, k)
      invariant forall j :: 1 <= j < k ==> Key(Candidate(base, j), lower) in taken
      decreases |taken| + 1 - k
    {
      TriedAreMany(base, k, taken, lower);
      k := k + 1;
      name := Candidate(base, k);
    }
    taken', n := taken + {Key(name, lower)}, k;
  }
}
