/** String operations of the JavaScript runtime that the welcome handler relies on:
    number-to-string conversion and `String.prototype.replace` with a global pattern that
    matches one literal token and a string replacement. */
module Text {

  // ---------------------------------------------------------------------------
  // Decimal rendering: `String(n)` for the integers the model handles

  predicate IsDigit(c: char) { '0' as int <= c as int <= '9' as int }

  function DigitChar(d: nat): (c: char)
    requires d < 10
    ensures IsDigit(c) && c as int - '0' as int == d
  {
    ('0' as int + d) as char
  }

  /** Decimal digits of `n`, most significant first, without leading zeros. */
  function NatToString(n: nat): (s: string)
    ensures |s| > 0 && forall c :: c in s ==> IsDigit(c)
    decreases n
  {
    if n < 10 then [DigitChar(n)] else NatToString(n / 10) + [DigitChar(n % 10)]
  }

  /** The value a string of decimal digits denotes. */
  function DecimalValue(s: string): nat
    requires forall c :: c in s ==> IsDigit(c)
    decreases |s|
  {
    if s == [] then 0
    else
      var last := s[|s| - 1];
      assert last in s;
      assert IsDigit(last);
      DecimalValue(s[..|s| - 1]) * 10 + (last as int - '0' as int)
  }

  /** Reading the rendered digits back gives the number again. */
  lemma {:induction false} DecimalRoundTrip(n: nat)
    ensures DecimalValue(NatToString(n)) == n
    decreases n
  {
    if n >= 10 {
      DecimalRoundTrip(n / 10);
      var s := NatToString(n);
      assert s[..|s| - 1] == NatToString(n / 10);
    }
  }

  /** `String(n)` for an integer: a minus sign before the digits of a negative number. */
  function IntToString(n: int): string {
    if n < 0 then "-" + NatToString(-n) else NatToString(n)
  }

  // ---------------------------------------------------------------------------
  // Occurrences of a token

  predicate OccursAt(s: string, tok: string, i: int) {
    0 <= i && i + |tok| <= |s| && s[i..i + |tok|] == tok
  }

  predicate Contains(s: string, tok: string) {
    exists i | 0 <= i <= |s| :: OccursAt(s, tok, i)
  }

  // ---------------------------------------------------------------------------
  // `s.replace(/tok/g, rep)` where `tok` is a literal and `rep` a string

  /** The replacement text for one match (GetSubstitution in ECMA-262): `$$` is a dollar sign,
      `$&` the matched text, `` $` `` the text before the match and `$'` the text after it.
      The pattern has no capture groups, so every other `$` is literal. */
  function Substitution(rep: string, matched: string, before: string, after: string): string
    decreases |rep|
  {
    if |rep| >= 2 && rep[0] == '$' && rep[1] == '$' then "$" + Substitution(rep[2..], matched, before, after)
    else if |rep| >= 2 && rep[0] == '$' && rep[1] == '&' then matched + Substitution(rep[2..], matched, before, after)
    else if |rep| >= 2 && rep[0] == '$' && rep[1] == '`' then before + Substitution(rep[2..], matched, before, after)
    else if |rep| >= 2 && rep[0] == '$' && rep[1] == '\'' then after + Substitution(rep[2..], matched, before, after)
    else if rep == [] then ""
    else [rep[0]] + Substitution(rep[1..], matched, before, after)
  }

  /** Scanning `s` from index `i`: every match found left to right, without overlaps, is
      replaced; the text between matches is copied. */
  function ReplaceFrom(s: string, tok: string, rep: string, i: nat): string
    requires |tok| > 0 && i <= |s|
    decreases |s| - i
  {
    if OccursAt(s, tok, i) then
      Substitution(rep, tok, s[..i], s[i + |tok|..]) + ReplaceFrom(s, tok, rep, i + |tok|)
    else if i < |s| then [s[i]] + ReplaceFrom(s, tok, rep, i + 1)
    else ""
  }

  function ReplaceAll(s: string, tok: string, rep: string): string
    requires |tok| > 0
  {
    ReplaceFrom(s, tok, rep, 0)
  }

  // ---------------------------------------------------------------------------
  // Reference definition: cut at the occurrences, glue back with a separator

  /** The pieces of `s` between the leftmost non-overlapping occurrences of `tok`. */
  function Split(s: string, tok: string): (parts: seq<string>)
    requires |tok| > 0
    ensures |parts| >= 1 && parts[0] <= s
    decreases |s|
  {
    if |s| < |tok| then [s]
    else if s[..|tok|] == tok then [""] + Split(s[|tok|..], tok)
    else
      var rest := Split(s[1..], tok);
      [[s[0]] + rest[0]] + rest[1..]
  }

  function Join(parts: seq<string>, sep: string): string
    requires |parts| >= 1
    decreases |parts|
  {
    if |parts| == 1 then parts[0] else parts[0] + sep + Join(parts[1..], sep)
  }

  lemma JoinConsFirst(c: char, p: string, ps: seq<string>, sep: string)
    ensures Join([[c] + p] + ps, sep) == [c] + Join([p] + ps, sep)
  {
    if ps != [] {
      assert ([[c] + p] + ps)[1..] == ps;
      assert ([p] + ps)[1..] == ps;
    }
  }

  /** Gluing the pieces back with the token itself restores the string. */
  lemma {:induction false} SplitJoin(s: string, tok: string)
    requires |tok| > 0
    ensures Join(Split(s, tok), tok) == s
    decreases |s|
  {
    if |s| < |tok| {
    } else if s[..|tok|] == tok {
      SplitJoin(s[|tok|..], tok);
      var rest := Split(s[|tok|..], tok);
      assert ([""] + rest)[1..] == rest;
      assert s == tok + s[|tok|..];
    } else {
      SplitJoin(s[1..], tok);
      var rest := Split(s[1..], tok);
      JoinConsFirst(s[0], rest[0], rest[1..], tok);
      assert [rest[0]] + rest[1..] == rest;
      assert s == [s[0]] + s[1..];
    }
  }

  /** No piece contains the token: every occurrence was a cut point. */
  lemma {:induction false} SplitPiecesFree(s: string, tok: string)
    requires |tok| > 0
    ensures forall k :: 0 <= k < |Split(s, tok)| ==> !Contains(Split(s, tok)[k], tok)
    decreases |s|
  {
    var parts := Split(s, tok);
    if |s| < |tok| {
      assert !Contains(s, tok);
    } else if s[..|tok|] == tok {
      SplitPiecesFree(s[|tok|..], tok);
      var rest := Split(s[|tok|..], tok);
      assert !Contains("", tok);
      forall k | 0 < k < |parts| ensures !Contains(parts[k], tok) {
        assert parts[k] == rest[k - 1];
      }
    } else {
      SplitPiecesFree(s[1..], tok);
      var rest := Split(s[1..], tok);
      var p := [s[0]] + rest[0];
      assert p <= s;
      forall j | 0 < j && OccursAt(p, tok, j) ensures OccursAt(rest[0], tok, j - 1) {
        assert rest[0][j - 1..j - 1 + |tok|] == p[j..j + |tok|];
      }
      forall k | 0 < k < |parts| ensures !Contains(parts[k], tok) {
        assert parts[k] == rest[k];
      }
    }
  }

  /** A replacement without `$` is inserted literally. */
  lemma {:induction false} SubstitutionLiteral(rep: string, matched: string, before: string, after: string)
    requires '$' !in rep
    ensures Substitution(rep, matched, before, after) == rep
    decreases |rep|
  {
    if rep != [] {
      assert rep[0] != '$';
      SubstitutionLiteral(rep[1..], matched, before, after);
      assert rep == [rep[0]] + rep[1..];
    }
  }

  lemma JoinAfterEmpty(rest: seq<string>, sep: string)
    requires |rest| >= 1
    ensures Join([""] + rest, sep) == sep + Join(rest, sep)
  {
    assert ([""] + rest)[1..] == rest;
  }

  /** The step of ReplaceFromSplit at a match. */
  lemma ReplaceFromSplitMatch(s: string, tok: string, rep: string, i: nat)
    requires |tok| > 0 && i <= |s| && '$' !in rep && OccursAt(s, tok, i)
    requires ReplaceFrom(s, tok, rep, i + |tok|) == Join(Split(s[i + |tok|..], tok), rep)
    ensures ReplaceFrom(s, tok, rep, i) == Join(Split(s[i..], tok), rep)
  {
    SubstitutionLiteral(rep, tok, s[..i], s[i + |tok|..]);
    var t := s[i..];
    assert t[..|tok|] == tok;
    assert t[|tok|..] == s[i + |tok|..];
    JoinAfterEmpty(Split(t[|tok|..], tok), rep);
  }

  /** The step of ReplaceFromSplit at a character that starts no match. */
  lemma ReplaceFromSplitCopy(s: string, tok: string, rep: string, i: nat)
    requires |tok| > 0 && i < |s| && '$' !in rep && !OccursAt(s, tok, i)
    requires ReplaceFrom(s, tok, rep, i + 1) == Join(Split(s[i + 1..], tok), rep)
    ensures ReplaceFrom(s, tok, rep, i) == Join(Split(s[i..], tok), rep)
  {
    var t := s[i..];
    assert t[1..] == s[i + 1..];
    if |t| < |tok| {
      assert t == [s[i]] + s[i + 1..];
    } else {
      assert t[..|tok|] != tok;
      var rest := Split(t[1..], tok);
      JoinConsFirst(t[0], rest[0], rest[1..], rep);
      assert [rest[0]] + rest[1..] == rest;
    }
  }

  lemma {:induction false} ReplaceFromSplit(s: string, tok: string, rep: string, i: nat)
    requires |tok| > 0 && i <= |s| && '$' !in rep
    ensures ReplaceFrom(s, tok, rep, i) == Join(Split(s[i..], tok), rep)
    decreases |s| - i
  {
    if OccursAt(s, tok, i) {
      ReplaceFromSplit(s, tok, rep, i + |tok|);
      ReplaceFromSplitMatch(s, tok, rep, i);
    } else if i < |s| {
      ReplaceFromSplit(s, tok, rep, i + 1);
      ReplaceFromSplitCopy(s, tok, rep, i);
    } else {
      assert s[i..] == [];
    }
  }

  /** With a `$`-free replacement, replacing globally is cutting at every occurrence and
      putting the replacement in each cut. */
  lemma ReplaceAllIsSplitJoin(s: string, tok: string, rep: string)
    requires |tok| > 0 && '$' !in rep
    ensures ReplaceAll(s, tok, rep) == Join(Split(s, tok), rep)
  {
    ReplaceFromSplit(s, tok, rep, 0);
    assert s[0..] == s;
  }

  lemma {:induction false} ReplaceFromAbsent(s: string, tok: string, rep: string, i: nat)
    requires |tok| > 0 && i <= |s| && !Contains(s, tok)
    ensures ReplaceFrom(s, tok, rep, i) == s[i..]
    decreases |s| - i
  {
    assert !OccursAt(s, tok, i);
    if i < |s| {
      ReplaceFromAbsent(s, tok, rep, i + 1);
      assert s[i..] == [s[i]] + s[i + 1..];
    }
  }

  /** A string without the token is left as it is, whatever the replacement. */
  lemma ReplaceAllAbsent(s: string, tok: string, rep: string)
    requires |tok| > 0 && !Contains(s, tok)
    ensures ReplaceAll(s, tok, rep) == s
  {
    ReplaceFromAbsent(s, tok, rep, 0);
  }
}
