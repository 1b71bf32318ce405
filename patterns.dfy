/** The fragment of regular expressions the class-validator `@Matches` rules
    use: anchored (`^...$`) sequences of single-character classes, each taken
    once or one-or-more times (`+`); `\d{8}` is eight single digits. */
module Patterns {

  datatype Atom = One(chars: set<char>) | Plus(chars: set<char>)

  type Pattern = seq<Atom>

  /** Does the whole of `s` match `p`? */
  predicate Match(p: Pattern, s: string)
    decreases |p| + |s|
  {
    if p == [] then s == []
    else if s == [] then false
    else match p[0]
      case One(cs) => s[0] in cs && Match(p[1..], s[1..])
      case Plus(cs) => s[0] in cs && (Match(p[1..], s[1..]) || Match(p, s[1..]))
  }

  const Digits: set<char> := {'0', '1', '2', '3', '4', '5', '6', '7', '8', '9'}

  predicate IsDigit(c: char) {
    '0' <= c <= '9'
  }

  /** A literal string, one character class per character. */
  function Lit(w: string): (p: Pattern)
    ensures |p| == |w|
    ensures forall i :: 0 <= i < |w| ==> p[i] == One({w[i]})
  {
    seq(|w|, i requires 0 <= i < |w| => One({w[i]}))
  }

  /** `[cs]{n}`. */
  function Times(cs: set<char>, n: nat): (p: Pattern)
    ensures |p| == n
    ensures forall i :: 0 <= i < n ==> p[i] == One(cs)
  {
    seq(n, _ => One(cs))
  }

  /** A pattern without repetition matches strings of its own length only. */
  predicate Fixed(p: Pattern) {
    forall i :: 0 <= i < |p| ==> p[i].One?
  }

  /** `^\+254[17]\d{8}$`: a Kenyan mobile number in E.164 form. */
  const KenyanPhone: Pattern := Lit("+254") + [One({'1', '7'})] + Times(Digits, 8)

  /** `^\d+$`. */
  const DigitString: Pattern := [Plus(Digits)]

  /** A fixed pattern matches exactly the strings of its length whose every
      character lies in the class at the same position. */
  lemma {:induction false} MatchFixed(p: Pattern, s: string)
    requires Fixed(p)
    ensures Match(p, s) <==> |s| == |p| && forall i :: 0 <= i < |s| ==> s[i] in p[i].chars
  {
    if p != [] && s != [] {
      MatchFixed(p[1..], s[1..]);
      if |s| == |p| && forall i :: 0 <= i < |s| ==> s[i] in p[i].chars {
        assert forall i :: 0 <= i < |s[1..]| ==> s[1..][i] in p[1..][i].chars by {
          forall i | 0 <= i < |s[1..]| ensures s[1..][i] in p[1..][i].chars {
            assert s[1..][i] == s[i + 1];
          }
        }
      }
    }
  }

  /** `^\d+$` accepts exactly the non-empty strings of ASCII digits. */
  lemma {:induction false} DigitStringMeaning(s: string)
    ensures Match(DigitString, s) <==> |s| >= 1 && forall i :: 0 <= i < |s| ==> IsDigit(s[i])
  {
    if |s| >= 1 {
      DigitStringMeaning(s[1..]);
      assert Match(DigitString[1..], s[1..]) <==> s[1..] == [];
      assert forall i :: 1 <= i < |s| ==> s[i] == s[1..][i - 1];
    }
  }

  /** The phone rule spelled out: `+254`, then `1` or `7`, then eight digits;
      thirteen characters in all. */
  predicate IsKenyanMobile(s: string) {
    && |s| == 13
    && s[..4] == "+254"
    && (s[4] == '1' || s[4] == '7')
    && forall i :: 5 <= i < 13 ==> IsDigit(s[i])
  }

  lemma KenyanPhoneMeaning(s: string)
    ensures Match(KenyanPhone, s) <==> IsKenyanMobile(s)
  {
    assert Fixed(KenyanPhone);
    MatchFixed(KenyanPhone, s);
    if |s| == 13 {
      assert KenyanPhone[0].chars == {'+'} && KenyanPhone[1].chars == {'2'};
      assert KenyanPhone[2].chars == {'5'} && KenyanPhone[3].chars == {'4'};
      assert KenyanPhone[4].chars == {'1', '7'};
      assert forall i :: 5 <= i < 13 ==> KenyanPhone[i].chars == Digits;
      assert s[..4] == "+254" <==> s[0] == '+' && s[1] == '2' && s[2] == '5' && s[3] == '4';
    }
  }
}
