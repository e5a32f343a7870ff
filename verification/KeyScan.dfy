/** Key strings: generating them, joining them for the clipboard, scanning them back. */
module KeyScan {
  import opened Wrappers
  import opened Ascii

  predicate KeyChar(c: char)
  {
    'a' <= c <= 'z' || '0' <= c <= '9'
  }

  /** The pattern [a-z0-9]{32} matches at position `i`. */
  predicate RunAt(s: string, i: nat)
  {
    i + 32 <= |s| && forall j :: i <= j < i + 32 ==> KeyChar(s[j])
  }

  function Runs(s: string): nat -> bool
  {
    (q: nat) => RunAt(s, q)
  }

  /** FindAllString, as positions: scan from `i` to `end`, and on past each match. */
  function Matches(runs: nat -> bool, i: nat, end: nat): (ps: seq<nat>)
    ensures forall k :: 0 <= k < |ps| ==> runs(ps[k])
    decreases end - i
  {
    if i + 32 > end then []
    else if runs(i) then [i] + Matches(runs, i + 32, end)
    else Matches(runs, i + 1, end)
  }

  /** The text at these positions. */
  function Pick(s: string, ps: seq<nat>): (keys: seq<string>)
    requires forall k :: 0 <= k < |ps| ==> Runs(s)(ps[k])
    ensures |keys| == |ps| && forall k :: 0 <= k < |ps| ==> RunAt(s, ps[k]) && keys[k] == s[ps[k]..ps[k] + 32]
  {
    if ps == [] then [] else assert Runs(s)(ps[0]); [s[ps[0]..ps[0] + 32]] + Pick(s, ps[1..])
  }

  /** parseKeys: the matches in order, or an error when there is none. */
  function ParseKeys(s: string): Option<seq<string>>
  {
    var ps := Matches(Runs(s), 0, |s|);
    if ps == [] then None else Some(Pick(s, ps))
  }

  ghost predicate NoRun(runs: nat -> bool, from: nat, to: nat)
  {
    forall q: nat :: from <= q < to ==> !runs(q)
  }

  /** The reference: leftmost non-overlapping matches from `i` on.  Each match is a run, with no
      run in the gap before it or after the last. */
  ghost predicate IsLeftmost(runs: nat -> bool, i: nat, end: nat, ps: seq<nat>)
    decreases |ps|
  {
    if ps == [] then NoRun(runs, i, end)
    else i <= ps[0] && runs(ps[0]) && NoRun(runs, i, ps[0]) && IsLeftmost(runs, ps[0] + 32, end, ps[1..])
  }

  lemma {:induction false} MatchesAreLeftmost(runs: nat -> bool, i: nat, end: nat)
    requires forall q: nat :: runs(q) ==> q + 32 <= end
    ensures IsLeftmost(runs, i, end, Matches(runs, i, end))
    decreases end - i
  {
    var ps := Matches(runs, i, end);
    if i + 32 <= end {
      if runs(i) {
        MatchesAreLeftmost(runs, i + 32, end);
        assert ps[1..] == Matches(runs, i + 32, end);
      } else {
        MatchesAreLeftmost(runs, i + 1, end);
      }
    }
  }

  lemma {:induction false} LeftmostAgree(runs: nat -> bool, i: nat, end: nat, a: seq<nat>, b: seq<nat>)
    requires forall q: nat :: runs(q) ==> q + 32 <= end
    requires IsLeftmost(runs, i, end, a) && IsLeftmost(runs, i, end, b)
    ensures a == b
    decreases |a|
  {
    if a != [] && b != [] {
      LeftmostAgree(runs, a[0] + 32, end, a[1..], b[1..]);
    }
  }

  /** The scan finds exactly the leftmost non-overlapping matches. */
  lemma MatchesExactly(s: string, ps: seq<nat>)
    ensures IsLeftmost(Runs(s), 0, |s|, ps) <==> ps == Matches(Runs(s), 0, |s|)
  {
    MatchesAreLeftmost(Runs(s), 0, |s|);
    if IsLeftmost(Runs(s), 0, |s|, ps) {
      LeftmostAgree(Runs(s), 0, |s|, ps, Matches(Runs(s), 0, |s|));
    }
  }

  /** strings.Join with a comma. */
  function Join(keys: seq<string>): string
  {
    if |keys| == 0 then ""
    else if |keys| == 1 then keys[0]
    else keys[0] + "," + Join(keys[1..])
  }

  predicate IsKey(key: string)
  {
    |key| == 32 && forall j :: 0 <= j < 32 ==> KeyChar(key[j])
  }

  ghost predicate AllKeys(keys: seq<string>)
  {
    keys != [] && forall k :: 0 <= k < |keys| ==> IsKey(keys[k])
  }

  /** Key `k` sits at position 33k, with a comma after it unless it is the last. */
  lemma {:induction false} JoinLayout(keys: seq<string>, k: nat, r: nat)
    requires AllKeys(keys) && k < |keys| && r <= 32
    ensures var s := Join(keys);
            && |s| == 33 * |keys| - 1
            && (r < 32 ==> s[33 * k + r] == keys[k][r])
            && (r == 32 && k + 1 < |keys| ==> s[33 * k + 32] == ',')
  {
    if |keys| > 1 {
      JoinLayout(keys[1..], if k == 0 then 0 else k - 1, r);
    }
  }

  lemma KeyPositions(keys: seq<string>, k: nat)
    requires AllKeys(keys) && k < |keys|
    ensures var s := Join(keys); RunAt(s, 33 * k) && s[33 * k..33 * k + 32] == keys[k]
  {
    var s := Join(keys);
    JoinLayout(keys, k, 0);
    forall r | 0 <= r < 32
      ensures s[33 * k + r] == keys[k][r] && KeyChar(s[33 * k + r])
    {
      JoinLayout(keys, k, r);
    }
    assert forall j :: 33 * k <= j < 33 * k + 32 ==> s[j] == keys[k][j - 33 * k];
  }

  /** No run of the pattern starts inside a key: it would reach past the comma, or past the end. */
  lemma RunsStartKeys(keys: seq<string>, q: nat)
    requires AllKeys(keys) && RunAt(Join(keys), q)
    ensures q % 33 == 0 && q / 33 < |keys|
  {
    var s := Join(keys);
    var k := q / 33;
    JoinLayout(keys, 0, 0);
    assert 33 * k <= q < 33 * k + 33;
    JoinLayout(keys, k, 32);
    assert q > 33 * k && 33 * k + 32 < |s| ==> KeyChar(s[33 * k + 32]);
  }

  /** The positions of keys `k` to `n` in a joined list. */
  function Spots(k: nat, n: nat): (ps: seq<nat>)
    requires k <= n
    ensures |ps| == n - k && forall j :: 0 <= j < |ps| ==> ps[j] == 33 * (k + j)
    decreases n - k
  {
    if k == n then [] else [33 * k] + Spots(k + 1, n)
  }

  lemma {:induction false} SpotsAreLeftmost(keys: seq<string>, k: nat, i: nat)
    requires AllKeys(keys) && k <= |keys| && i <= 33 * k < i + 33
    ensures IsLeftmost(Runs(Join(keys)), i, |Join(keys)|, Spots(k, |keys|))
    decreases |keys| - k
  {
    var s := Join(keys);
    forall q: nat | i <= q < 33 * k || (k == |keys| && i <= q)
      ensures !RunAt(s, q)
    {
      if RunAt(s, q) {
        RunsStartKeys(keys, q);
      }
    }
    if k < |keys| {
      KeyPositions(keys, k);
      SpotsAreLeftmost(keys, k + 1, 33 * k + 32);
    }
  }

  /** Scanning a joined list gives the list back. */
  lemma ParseJoin(keys: seq<string>)
    requires AllKeys(keys)
    ensures ParseKeys(Join(keys)) == Some(keys)
  {
    var s := Join(keys);
    var ps := Spots(0, |keys|);
    SpotsAreLeftmost(keys, 0, 0);
    MatchesExactly(s, ps);
    forall k: nat | k < |keys|
      ensures Pick(s, ps)[k] == keys[k]
    {
      KeyPositions(keys, k);
    }
    assert Pick(s, ps) == keys;
  }

  /** Whatever was scanned, its keys survive being joined and scanned again. */
  lemma ParseJoinParse(s: string)
    ensures ParseKeys(s).Some? ==> AllKeys(ParseKeys(s).value) && ParseKeys(Join(ParseKeys(s).value)) == ParseKeys(s)
  {
    if ParseKeys(s).Some? {
      ParseJoin(ParseKeys(s).value);
    }
  }

  /** The digits, from 1 to 0, and the letters. */
  const CHARACTERS := Range('1', 9) + ['0'] + Range('a', 26)

  /** The pattern's characters are exactly those that keys are made of. */
  lemma KeyCharsAreCharacters(c: char)
    ensures KeyChar(c) <==> c in CHARACTERS
  {
    if KeyChar(c) {
      var place := if c == '0' then 9 else if c <= '9' then c as int - '1' as int else 10 + (c as int - 'a' as int);
      assert CHARACTERS[place] == c;
    }
  }

  /** GenerateRandomString, given the random picks. */
  method GenerateRandomString(length: nat, picks: seq<nat>) returns (r: string)
    requires |picks| == length && forall i :: 0 <= i < length ==> picks[i] < |CHARACTERS|
    ensures |r| == length && forall i :: 0 <= i < length ==> KeyChar(r[i]) && r[i] == CHARACTERS[picks[i]]
    ensures length == 32 ==> ParseKeys(r) == Some([r])
  {
    var random := new char[length];
    for i := 0 to length
      invariant forall j :: 0 <= j < i ==> KeyChar(random[j]) && random[j] == CHARACTERS[picks[j]]
    {
      random[i] := CHARACTERS[picks[i]];
    }
    r := random[..];
    if length == 32 {
      ParseJoin([r]);
    }
  }
}
