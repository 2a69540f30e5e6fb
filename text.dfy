/**
 * String helpers shared by the server and the dashboard: decimal rendering
 * of counters (Python f-strings), ASCII case mapping, the frame-file name
 * normalisation, and the scanner behind both YouTube-id regular expressions.
 */
module Text {
  import opened Json

  // ---------------------------------------------------------------------
  // Decimal rendering, as `f"{n}"` prints a non-negative int

  function DigitChar(d: nat): char
    requires d < 10
  {
    (48 + d) as char
  }

  predicate IsDigit(c: char) {
    '0' <= c <= '9'
  }

  function NatToString(n: nat): (s: string)
    ensures |s| >= 1
    ensures forall i :: 0 <= i < |s| ==> IsDigit(s[i])
    ensures n < 10 <==> |s| == 1
    decreases n
  {
    if n < 10 then [DigitChar(n)] else NatToString(n / 10) + [DigitChar(n % 10)]
  }

  /** Different numbers print differently, so the suffixes `-1`, `-2`, ... are pairwise distinct. */
  lemma {:induction false} NatToStringInjective(a: nat, b: nat)
    requires NatToString(a) == NatToString(b)
    ensures a == b
    decreases a
  {
    var sa, sb := NatToString(a), NatToString(b);
    if a >= 10 && b >= 10 {
      assert sa[..|sa| - 1] == NatToString(a / 10);
      assert sb[..|sb| - 1] == NatToString(b / 10);
      NatToStringInjective(a / 10, b / 10);
      assert DigitChar(a % 10) == sa[|sa| - 1] == sb[|sb| - 1] == DigitChar(b % 10);
    } else if a < 10 && b < 10 {
      assert sa[0] == sb[0];
    }
  }

  /** The candidate name `original-k` tried by the de-duplication loop. */
  function Suffixed(original: string, k: nat): string {
    original + "-" + NatToString(k)
  }

  lemma SuffixedInjective(original: string, j: nat, k: nat)
    requires Suffixed(original, j) == Suffixed(original, k)
    ensures j == k
  {
    var n := |original| + 1;
    assert Suffixed(original, j)[n..] == NatToString(j);
    assert Suffixed(original, k)[n..] == NatToString(k);
    NatToStringInjective(j, k);
  }

  // ---------------------------------------------------------------------
  // ASCII case mapping (Python str.lower, JavaScript toUpperCase on ASCII)

  predicate IsUpper(c: char) {
    'A' <= c <= 'Z'
  }

  function LowerChar(c: char): char {
    if IsUpper(c) then (c as int + 32) as char else c
  }

  function UpperChar(c: char): char {
    if 'a' <= c <= 'z' then (c as int - 32) as char else c
  }

  function Lower(s: string): (r: string)
    ensures |r| == |s|
    ensures forall i :: 0 <= i < |s| ==> r[i] == LowerChar(s[i])
  {
    seq(|s|, i requires 0 <= i < |s| => LowerChar(s[i]))
  }

  /** `s.replace(' ', '')`. */
  function RemoveSpaces(s: string): (r: string)
    ensures forall c :: c in r ==> c in s && c != ' '
    ensures ' ' !in s ==> r == s
    ensures multiset(r) == multiset(s)[' ' := 0]
  {
    if s == [] then []
    else
      assert s == [s[0]] + s[1..];
      if s[0] == ' ' then RemoveSpaces(s[1..])
      else [s[0]] + RemoveSpaces(s[1..])
  }

  /** `name.lower().replace(' ', '')`, the normalisation used for frame file names. */
  function NormalizeName(name: string): (r: string)
    ensures forall c :: c in r ==> c != ' ' && !IsUpper(c)
    ensures multiset(r) == multiset(Lower(name))[' ' := 0]
  {
    RemoveSpaces(Lower(name))
  }

  lemma NormalizedIsLower(s: string)
    requires forall c :: c in s ==> !IsUpper(c)
    ensures Lower(s) == s
  {
  }

  /** Normalising twice is normalising once. */
  lemma NormalizeIdempotent(name: string)
    ensures NormalizeName(NormalizeName(name)) == NormalizeName(name)
  {
    var n := NormalizeName(name);
    NormalizedIsLower(n);
    assert ' ' !in Lower(n);
  }

  // ---------------------------------------------------------------------
  // The scanner behind `(?:lit1|lit2|...)([^&\n?#]+)` searched leftmost-first

  /** The characters the id group `[^&\n?#]` refuses. */
  predicate Excluded(c: char) {
    c == '&' || c == '\n' || c == '?' || c == '#'
  }

  predicate LiteralAt(s: string, p: nat, lit: string) {
    p + |lit| <= |s| && s[p..p + |lit|] == lit
  }

  /** Length of the greedy run `[^&\n?#]*` starting at `p`. */
  function IdRun(s: string, p: nat): (n: nat)
    requires p <= |s|
    ensures p + n <= |s|
    ensures forall i :: p <= i < p + n ==> !Excluded(s[i])
    ensures p + n < |s| ==> Excluded(s[p + n])
    decreases |s| - p
  {
    if p < |s| && !Excluded(s[p]) then 1 + IdRun(s, p + 1) else 0
  }

  /** The id captured at `start`: the maximal run of allowed characters. */
  function IdAt(s: string, start: nat): string
    requires start <= |s|
  {
    s[start..start + IdRun(s, start)]
  }

  /** Literal `a` occurs at `p` and is followed by a non-empty id run. */
  predicate AltMatch(s: string, p: nat, a: string) {
    p + |a| <= |s| && s[p..p + |a|] == a && IdRun(s, p + |a|) > 0
  }

  /** Some alternative of the pattern matches at `p`. */
  ghost predicate MatchesAt(s: string, p: nat, alts: seq<string>) {
    exists a :: a in alts && AltMatch(s, p, a)
  }

  /**
   * The alternation tried at one position: the first literal of `alts` found
   * at `p` whose following id run is non-empty gives the start of the id.
   */
  function AltAt(s: string, p: nat, alts: seq<string>): (r: Option<nat>)
    requires p <= |s|
    ensures r.Some? <==> MatchesAt(s, p, alts)
    ensures r.Some? ==> exists a :: a in alts && AltMatch(s, p, a) && r.value == p + |a|
  {
    if alts == [] then None
    else if AltMatch(s, p, alts[0]) then Some(p + |alts[0]|)
    else
      var r := AltAt(s, p, alts[1..]);
      assert MatchesAt(s, p, alts) ==> MatchesAt(s, p, alts[1..]);
      r
  }

  /** The index of the alternative the alternation takes at `p`: the first that matches, or `|alts|`. */
  function AltIndex(s: string, p: nat, alts: seq<string>): (k: nat)
    ensures k <= |alts|
    ensures forall j :: 0 <= j < k ==> !AltMatch(s, p, alts[j])
    ensures k < |alts| ==> AltMatch(s, p, alts[k])
  {
    if alts == [] || AltMatch(s, p, alts[0]) then 0
    else 1 + AltIndex(s, p, alts[1..])
  }

  /** Alternatives are tried in order: `AltAt` takes the first that matches. */
  lemma {:induction false} AltAtFirst(s: string, p: nat, alts: seq<string>)
    requires p <= |s|
    ensures AltAt(s, p, alts).None? <==> AltIndex(s, p, alts) == |alts|
    ensures AltAt(s, p, alts).Some? ==> AltAt(s, p, alts).value == p + |alts[AltIndex(s, p, alts)]|
  {
    if alts != [] && !AltMatch(s, p, alts[0]) {
      AltAtFirst(s, p, alts[1..]);
    }
  }

  /** `re.search` / `String.match`: the leftmost position from `p` on where the alternation matches. */
  function Leftmost(s: string, p: nat, alts: seq<string>): (r: Option<nat>)
    requires p <= |s|
    ensures r.Some? ==> p <= r.value <= |s| && MatchesAt(s, r.value, alts)
    ensures r.Some? ==> forall q :: p <= q < r.value ==> !MatchesAt(s, q, alts)
    ensures r.None? ==> forall q :: p <= q <= |s| ==> !MatchesAt(s, q, alts)
    decreases |s| - p
  {
    if AltAt(s, p, alts).Some? then Some(p)
    else if p == |s| then None
    else Leftmost(s, p + 1, alts)
  }

  /** The first capture group of the leftmost match, if any. */
  function SearchId(s: string, alts: seq<string>): (r: Option<string>)
    ensures r.Some? ==> |r.value| > 0 && forall c :: c in r.value ==> !Excluded(c)
    ensures r.Some? ==> exists p, a :: (0 <= p <= |s| && a in alts && AltMatch(s, p, a) && r.value == IdAt(s, p + |a|) &&
                                        forall q :: 0 <= q < p ==> !MatchesAt(s, q, alts))
    ensures r.None? <==> forall p :: 0 <= p <= |s| ==> !MatchesAt(s, p, alts)
  {
    match Leftmost(s, 0, alts)
    case None => None
    case Some(p) => Some(IdAt(s, AltAt(s, p, alts).value))
  }

  // ---------------------------------------------------------------------
  // The scanner behind `lit.*v=([^&\n?#]+)` searched leftmost-first

  /** The end of the line from `p` on: the first newline, or the end of the text. */
  function LineEnd(s: string, p: nat): (e: nat)
    requires p <= |s|
    ensures p <= e <= |s|
    ensures forall i :: p <= i < e ==> s[i] != '\n'
    ensures e < |s| ==> s[e] == '\n'
    decreases |s| - p
  {
    if p == |s| || s[p] == '\n' then p else LineEnd(s, p + 1)
  }

  /** `v=` at `q`, followed by a non-empty id run. */
  predicate VIdAt(s: string, q: nat) {
    q + 2 <= |s| && s[q] == 'v' && s[q + 1] == '=' && IdRun(s, q + 2) > 0
  }

  /** The last position in `[lo, hi)` where `v=` is followed by a non-empty id run. */
  function LastV(s: string, lo: nat, hi: nat): (r: Option<nat>)
    requires lo <= hi <= |s|
    ensures r.Some? ==> lo <= r.value < hi && VIdAt(s, r.value)
    ensures r.Some? ==> forall q :: r.value < q < hi ==> !VIdAt(s, q)
    ensures r.None? ==> forall q :: lo <= q < hi ==> !VIdAt(s, q)
    decreases hi - lo
  {
    if hi == lo then None
    else if VIdAt(s, hi - 1) then Some(hi - 1)
    else LastV(s, lo, hi - 1)
  }

  /**
   * `lit.*v=` can match at `p` through `v=` at `q`: the literal is at `p`,
   * and `q` is on the same line, so `.*` spans from the literal's end to `q`
   * without crossing a newline.
   */
  predicate VAfter(s: string, p: nat, lit: string, q: nat) {
    LiteralAt(s, p, lit) && p + |lit| <= q < LineEnd(s, p + |lit|) && VIdAt(s, q)
  }

  ghost predicate VMatchesAt(s: string, p: nat, lit: string) {
    exists q: nat :: VAfter(s, p, lit, q)
  }

  /**
   * The pattern tried at one position: the greedy `.*` backs off to the last
   * `v=` on the line whose id run is non-empty; the id starts after it.
   */
  function VAt(s: string, p: nat, lit: string): (r: Option<nat>)
    requires p <= |s|
    ensures r.Some? <==> VMatchesAt(s, p, lit)
    ensures r.Some? ==> r.value >= 2 && VAfter(s, p, lit, r.value - 2)
    ensures r.Some? ==> forall q: nat :: VAfter(s, p, lit, q) ==> q <= r.value - 2
  {
    if !LiteralAt(s, p, lit) then None
    else
      var last := LastV(s, p + |lit|, LineEnd(s, p + |lit|));
      if last.None? then None
      else
        assert VAfter(s, p, lit, last.value);
        Some(last.value + 2)
  }

  /** The leftmost position from `p` on where `lit.*v=(id)` matches. */
  function LeftmostV(s: string, p: nat, lit: string): (r: Option<nat>)
    requires p <= |s|
    ensures r.Some? ==> p <= r.value <= |s| && VMatchesAt(s, r.value, lit)
    ensures r.Some? ==> forall q :: p <= q < r.value ==> !VMatchesAt(s, q, lit)
    ensures r.None? ==> forall q :: p <= q <= |s| ==> !VMatchesAt(s, q, lit)
    decreases |s| - p
  {
    if VAt(s, p, lit).Some? then Some(p)
    else if p == |s| then None
    else LeftmostV(s, p + 1, lit)
  }

  /** The capture group of the leftmost match of `lit.*v=([^&\n?#]+)`. */
  function SearchVId(s: string, lit: string): (r: Option<string>)
    ensures r.Some? ==> |r.value| > 0 && forall c :: c in r.value ==> !Excluded(c)
    ensures r.Some? ==> exists p: nat, q: nat :: VAfter(s, p, lit, q) && r.value == IdAt(s, q + 2)
    ensures r.Some? ==> exists p: nat, q: nat :: (VAfter(s, p, lit, q) && r.value == IdAt(s, q + 2) &&
                                                  (forall p' :: 0 <= p' < p ==> !VMatchesAt(s, p', lit)) &&
                                                  (forall q': nat :: VAfter(s, p, lit, q') ==> q' <= q))
    ensures r.None? <==> forall p :: 0 <= p <= |s| ==> !VMatchesAt(s, p, lit)
  {
    match LeftmostV(s, 0, lit)
    case None => None
    case Some(p) =>
      var q: nat := VAt(s, p, lit).value - 2;
      assert VAfter(s, p, lit, q);
      Some(IdAt(s, q + 2))
  }


}
