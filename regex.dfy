/** The fragment of Python's `re` that the key and token checks use: a pattern
    `^[class]{n}[class]{m}...$` of character classes repeated a fixed number of times,
    tried with `re.match` or `re.search` (they agree, since the pattern starts with `^`),
    with or without `re.IGNORECASE`. Case folding is ASCII only. */
module Regex {

  /** One range `lo-hi` inside a character class. */
  datatype Range = Range(lo: char, hi: char)

  /** `[ranges]{count}` */
  datatype Atom = Repeat(ranges: seq<Range>, count: nat)

  /** The other-case ASCII letter, or `c` itself. */
  function SwapCase(c: char): char
  {
    if 'a' <= c <= 'z' then (c as int - 32) as char
    else if 'A' <= c <= 'Z' then (c as int + 32) as char
    else c
  }

  predicate InRanges(c: char, ranges: seq<Range>)
    decreases |ranges|
  {
    |ranges| > 0 && ((ranges[0].lo <= c <= ranges[0].hi) || InRanges(c, ranges[1..]))
  }

  /** `c` is in the class; under IGNORECASE its other case may be instead. */
  predicate InClass(c: char, ranges: seq<Range>, ignoreCase: bool)
  {
    InRanges(c, ranges) || (ignoreCase && InRanges(SwapCase(c), ranges))
  }

  /** The number of characters a pattern consumes. */
  function Width(atoms: seq<Atom>): nat
    decreases |atoms|
  {
    if atoms == [] then 0 else atoms[0].count + Width(atoms[1..])
  }

  predicate AllInClass(s: string, ranges: seq<Range>, ignoreCase: bool)
  {
    forall i :: 0 <= i < |s| ==> InClass(s[i], ranges, ignoreCase)
  }

  /** `s` is consumed exactly by the atoms, in order. */
  predicate MatchesAtoms(atoms: seq<Atom>, s: string, ignoreCase: bool)
    decreases |atoms|
  {
    if atoms == [] then s == []
    else
      var n := atoms[0].count;
      n <= |s| && AllInClass(s[..n], atoms[0].ranges, ignoreCase)
      && MatchesAtoms(atoms[1..], s[n..], ignoreCase)
  }

  /** The pattern `^atoms$` matches `s`. Python's `$` (without MULTILINE) matches at the end
      of the string and also just before one final newline. */
  predicate FullMatch(atoms: seq<Atom>, s: string, ignoreCase: bool)
  {
    var n := Width(atoms);
    (|s| == n || (|s| == n + 1 && s[n] == '\n')) && MatchesAtoms(atoms, s[..n], ignoreCase)
  }

  /** A one-atom pattern `^[ranges]{n}$` matches exactly the strings of `n` class members,
      optionally followed by one newline. */
  lemma SingleAtom(ranges: seq<Range>, n: nat, s: string, ignoreCase: bool)
    ensures FullMatch([Repeat(ranges, n)], s, ignoreCase)
        <==> (|s| == n || (|s| == n + 1 && s[n] == '\n'))
             && forall i :: 0 <= i < n ==> InClass(s[i], ranges, ignoreCase)
  {
    var atoms := [Repeat(ranges, n)];
    assert atoms[1..] == [];
    assert Width(atoms) == n;
    if |s| == n || (|s| == n + 1 && s[n] == '\n') {
      var body := s[..n];
      assert body[n..] == [];
      assert MatchesAtoms(atoms, body, ignoreCase) <==> AllInClass(body, ranges, ignoreCase);
    }
  }

  /** A two-atom pattern `^[first]{1}[rest]{n}$`. */
  lemma TwoAtoms(first: seq<Range>, rest: seq<Range>, n: nat, s: string, ignoreCase: bool)
    ensures FullMatch([Repeat(first, 1), Repeat(rest, n)], s, ignoreCase)
        <==> (|s| == n + 1 || (|s| == n + 2 && s[n + 1] == '\n'))
             && InClass(s[0], first, ignoreCase)
             && forall i :: 1 <= i < n + 1 ==> InClass(s[i], rest, ignoreCase)
  {
    var atoms := [Repeat(first, 1), Repeat(rest, n)];
    assert atoms[1..] == [Repeat(rest, n)];
    assert atoms[1..][1..] == [];
    assert Width(atoms[1..]) == n;
    assert Width(atoms) == n + 1;
    if |s| == n + 1 || (|s| == n + 2 && s[n + 1] == '\n') {
      var body := s[..n + 1];
      var tail := body[1..];
      assert tail[n..] == [];
      assert MatchesAtoms(atoms[1..], tail, ignoreCase) <==> AllInClass(tail, rest, ignoreCase);
      assert AllInClass(body[..1], first, ignoreCase) <==> InClass(s[0], first, ignoreCase);
      assert AllInClass(tail, rest, ignoreCase) <==> forall i :: 1 <= i < n + 1 ==> InClass(s[i], rest, ignoreCase) by {
        forall i | 1 <= i < n + 1 ensures tail[i - 1] == s[i] { }
      }
    }
  }
}
