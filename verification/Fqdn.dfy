/** Domain names: a semantics for the regular expression of the validator, lookarounds included, and its
    equality with a label-by-label definition. White space and lower case are the platform's. */
module Fqdn {

  // ---------- regular expressions ----------

  datatype Re =
    | Class(ranges: seq<(char, char)>)  // [a-z0-9-]
    | AnyChar                           // .
    | Then(first: Re, rest: Re)
    | Times(body: Re, lo: nat, hi: nat) // {lo,hi}
    | OnceOrMore(body: Re)              // +
    | Start                             // ^
    | End                               // $, which also matches before a final newline
    | Ahead(body: Re)                   // (?=...)
    | NotAhead(body: Re)                // (?!...)
    | NotBehind(body: Re)               // (?<!...)

  predicate InClass(c: char, ranges: seq<(char, char)>) {
    exists r | r in ranges :: r.0 <= c <= r.1
  }

  // re matches s[i..j], looking around in s.
  ghost predicate Matches(re: Re, s: string, i: nat, j: nat)
    requires i <= j <= |s|
    decreases re, 0
  {
    match re
    case Class(ranges) => j == i + 1 && InClass(s[i], ranges)
    case AnyChar => j == i + 1 && s[i] != '\n'
    case Then(a, b) => exists k | i <= k <= j :: Matches(a, s, i, k) && Matches(b, s, k, j)
    case Times(a, lo, hi) => MatchesTimes(a, lo, hi, s, i, j)
    case OnceOrMore(a) => exists k | i <= k <= j :: Matches(a, s, i, k) && MatchesStar(a, s, k, j)
    case Start => i == j == 0
    case End => i == j && (i == |s| || (i == |s| - 1 && s[i] == '\n'))
    case Ahead(a) => i == j && exists k | i <= k <= |s| :: Matches(a, s, i, k)
    case NotAhead(a) => i == j && !exists k | i <= k <= |s| :: Matches(a, s, i, k)
    case NotBehind(a) => i == j && !exists k | 0 <= k <= i :: Matches(a, s, k, i)
  }

  ghost predicate MatchesTimes(re: Re, lo: nat, hi: nat, s: string, i: nat, j: nat)
    requires i <= j <= |s|
    decreases re, hi + 1
  {
    || (lo == 0 && i == j)
    || (hi > 0 && exists k | i <= k <= j ::
          Matches(re, s, i, k) && MatchesTimes(re, if lo == 0 then 0 else lo - 1, hi - 1, s, k, j))
  }

  // Any number of times; a repetition that consumes nothing adds nothing.
  ghost predicate MatchesStar(re: Re, s: string, i: nat, j: nat)
    requires i <= j <= |s|
    decreases re, j - i + 1
  {
    i == j || exists k | i < k <= j :: Matches(re, s, i, k) && MatchesStar(re, s, k, j)
  }

  ghost predicate FullMatch(re: Re, s: string) {
    Matches(re, s, 0, |s|)
  }

  // ---------- rules for the recursive forms ----------

  lemma ThenIntro(a: Re, b: Re, s: string, i: nat, k: nat, j: nat)
    requires i <= k <= j <= |s| && Matches(a, s, i, k) && Matches(b, s, k, j)
    ensures Matches(Then(a, b), s, i, j)
  {
  }

  lemma ThenElim(a: Re, b: Re, s: string, i: nat, j: nat) returns (k: nat)
    requires i <= j <= |s| && Matches(Then(a, b), s, i, j)
    ensures i <= k <= j && Matches(a, s, i, k) && Matches(b, s, k, j)
  {
    k :| i <= k <= j && Matches(a, s, i, k) && Matches(b, s, k, j);
  }

  lemma StarIntro(a: Re, s: string, i: nat, k: nat, j: nat)
    requires i < k <= j <= |s| && Matches(a, s, i, k) && MatchesStar(a, s, k, j)
    ensures MatchesStar(a, s, i, j)
  {
  }

  lemma StarElim(a: Re, s: string, i: nat, j: nat) returns (k: nat)
    requires i < j <= |s| && MatchesStar(a, s, i, j)
    ensures i < k <= j && Matches(a, s, i, k) && MatchesStar(a, s, k, j)
  {
    k :| i < k <= j && Matches(a, s, i, k) && MatchesStar(a, s, k, j);
  }

  lemma PlusIntro(a: Re, s: string, i: nat, k: nat, j: nat)
    requires i <= k <= j <= |s| && Matches(a, s, i, k) && MatchesStar(a, s, k, j)
    ensures Matches(OnceOrMore(a), s, i, j)
  {
  }

  lemma PlusElim(a: Re, s: string, i: nat, j: nat) returns (k: nat)
    requires i <= j <= |s| && Matches(OnceOrMore(a), s, i, j)
    ensures i <= k <= j && Matches(a, s, i, k) && MatchesStar(a, s, k, j)
  {
    k :| i <= k <= j && Matches(a, s, i, k) && MatchesStar(a, s, k, j);
  }

  // ---------- the expression ----------

  const HYPHEN := Class([('-', '-')])
  const DOT := Class([('.', '.')])
  const LABEL_CHAR := Class([('a', 'z'), ('0', '9'), ('-', '-')])

  // (?!-)[a-z0-9-]{1,63}(?<!-)
  const LABEL := Then(NotAhead(HYPHEN), Then(Times(LABEL_CHAR, 1, 63), NotBehind(HYPHEN)))

  // \.(?!-)[a-z0-9-]{1,63}(?<!-)
  const DOT_LABEL := Then(DOT, LABEL)

  // ^(?=.{1,253}$)LABEL(?:DOT_LABEL)+$
  const SIZE := Ahead(Then(Times(AnyChar, 1, 253), End))
  const TAIL := Then(OnceOrMore(DOT_LABEL), End)
  const FQDN := Then(Start, Then(SIZE, Then(LABEL, TAIL)))

  // ---------- label by label ----------

  predicate IsLabelChar(c: char) {
    'a' <= c <= 'z' || '0' <= c <= '9' || c == '-'
  }

  // Sections 2.3.1 and 2.3.4 of RFC 1035, with the leading digit of section 2.1 of RFC 1123.
  predicate IsLabel(l: string) {
    && 1 <= |l| <= 63
    && (forall i | 0 <= i < |l| :: IsLabelChar(l[i]))
    && l[0] != '-' && l[|l| - 1] != '-'
  }

  function Split(s: string): (labels: seq<string>)
    ensures |labels| >= 1
  {
    if s == "" then [""]
    else if s[0] == '.' then [""] + Split(s[1..])
    else
      var rest := Split(s[1..]);
      [[s[0]] + rest[0]] + rest[1..]
  }

  function Join(labels: seq<string>): string
    requires labels != []
  {
    if |labels| == 1 then labels[0] else labels[0] + "." + Join(labels[1..])
  }

  predicate AllLabels(labels: seq<string>) {
    forall i | 0 <= i < |labels| :: IsLabel(labels[i])
  }

  predicate IsFqdn(s: string) {
    |s| <= 253 && |Split(s)| >= 2 && AllLabels(Split(s))
  }

  // ---------- splitting at dots ----------

  lemma {:induction false} JoinSplit(s: string)
    ensures Join(Split(s)) == s
    decreases |s|
  {
    if s != "" {
      JoinSplit(s[1..]);
      var rest := Split(s[1..]);
      if s[0] == '.' {
        assert ([""] + rest)[1..] == rest;
      } else if |rest| > 1 {
        assert ([[s[0]] + rest[0]] + rest[1..])[1..] == rest[1..];
      }
    }
  }

  lemma {:induction false} SplitUndotted(p: string)
    requires '.' !in p
    ensures Split(p) == [p]
    decreases |p|
  {
    if p != "" {
      assert p[0] in p;
      SplitUndotted(p[1..]);
      assert [p[0]] + p[1..] == p;
    }
  }

  lemma {:induction false} SplitAtDot(p: string, q: string)
    requires '.' !in p
    ensures Split(p + "." + q) == [p] + Split(q)
    decreases |p|
  {
    var s := p + "." + q;
    if p == "" {
      assert s[1..] == q;
    } else {
      assert p[0] in p;
      SplitAtDot(p[1..], q);
      assert s[1..] == p[1..] + "." + q;
      assert [p[0]] + p[1..] == p;
    }
  }

  // The first label ends at the first dot, or at the end.
  lemma {:induction false} FirstLabel(s: string)
    ensures '.' !in Split(s)[0] && |Split(s)[0]| <= |s| && s[..|Split(s)[0]|] == Split(s)[0]
    ensures |Split(s)[0]| == |s| ==> Split(s) == [s]
    ensures |Split(s)[0]| < |s| ==> s[|Split(s)[0]|] == '.' && Split(s)[1..] == Split(s[|Split(s)[0]| + 1..])
    decreases |s|
  {
    if s != "" && s[0] != '.' {
      FirstLabel(s[1..]);
      var rest := Split(s[1..]);
      assert s == [s[0]] + s[1..];
      if |rest[0]| < |s[1..]| {
        assert s[1..][|rest[0]| + 1..] == s[|rest[0]| + 2..];
      }
    }
  }

  lemma LabelsUndotted(l: string)
    requires IsLabel(l)
    ensures '.' !in l
  {
  }

  // ---------- what the parts match ----------

  predicate OneChar(re: Re) {
    re.Class? || re.AnyChar?
  }

  predicate Fits(re: Re, c: char) {
    (re.Class? && InClass(c, re.ranges)) || (re.AnyChar? && c != '\n')
  }

  lemma {:induction false} TimesOneChar(re: Re, lo: nat, hi: nat, s: string, i: nat, j: nat)
    requires OneChar(re) && i <= j <= |s|
    ensures MatchesTimes(re, lo, hi, s, i, j)
        <==> lo <= j - i <= hi && forall k | i <= k < j :: Fits(re, s[k])
    decreases hi
  {
    if hi > 0 && i < j {
      TimesOneChar(re, if lo == 0 then 0 else lo - 1, hi - 1, s, i + 1, j);
      assert Matches(re, s, i, i + 1) <==> Fits(re, s[i]);
    }
  }

  lemma ClassFacts(c: char)
    ensures InClass(c, LABEL_CHAR.ranges) <==> IsLabelChar(c)
    ensures InClass(c, HYPHEN.ranges) <==> c == '-'
    ensures InClass(c, DOT.ranges) <==> c == '.'
  {
  }

  lemma NotHyphenAhead(s: string, i: nat, k: nat)
    requires i <= k <= |s|
    ensures Matches(NotAhead(HYPHEN), s, i, k) <==> k == i && (i < |s| ==> s[i] != '-')
  {
    if i < |s| {
      ClassFacts(s[i]);
      assert Matches(HYPHEN, s, i, i + 1) <==> s[i] == '-';
    }
  }

  lemma NotHyphenBehind(s: string, k: nat, j: nat)
    requires k <= j <= |s|
    ensures Matches(NotBehind(HYPHEN), s, k, j) <==> k == j && (j > 0 ==> s[j - 1] != '-')
  {
    if j > 0 {
      ClassFacts(s[j - 1]);
      assert Matches(HYPHEN, s, j - 1, j) <==> s[j - 1] == '-';
    }
  }

  lemma LabelChars(s: string, i: nat, j: nat)
    requires i <= j <= |s|
    ensures Matches(Times(LABEL_CHAR, 1, 63), s, i, j) <==> 1 <= j - i <= 63 && forall k | i <= k < j :: IsLabelChar(s[k])
  {
    TimesOneChar(LABEL_CHAR, 1, 63, s, i, j);
    forall k | i <= k < j
      ensures Fits(LABEL_CHAR, s[k]) <==> IsLabelChar(s[k])
    {
      ClassFacts(s[k]);
    }
  }

  // The label expression matches exactly the labels.
  lemma MatchesLabel(s: string, i: nat, j: nat)
    requires i <= j <= |s|
    ensures Matches(LABEL, s, i, j) <==> IsLabel(s[i..j])
  {
    hide Matches;
    var ahead, chars, behind := NotAhead(HYPHEN), Times(LABEL_CHAR, 1, 63), NotBehind(HYPHEN);
    LabelChars(s, i, j);
    SliceChars(s, i, j);
    if Matches(LABEL, s, i, j) {
      var k := ThenElim(ahead, Then(chars, behind), s, i, j);
      NotHyphenAhead(s, i, k);
      var e := ThenElim(chars, behind, s, k, j);
      NotHyphenBehind(s, e, j);
    }
    if IsLabel(s[i..j]) {
      NotHyphenAhead(s, i, i);
      NotHyphenBehind(s, j, j);
      ThenIntro(chars, behind, s, i, j, j);
      ThenIntro(ahead, Then(chars, behind), s, i, i, j);
    }
  }

  lemma SliceChars(s: string, i: nat, j: nat)
    requires i <= j <= |s|
    ensures (forall k | i <= k < j :: IsLabelChar(s[k])) <==> (forall k | 0 <= k < j - i :: IsLabelChar(s[i..j][k]))
  {
    assert forall k | 0 <= k < j - i :: s[i..j][k] == s[i + k];
    assert forall k | i <= k < j :: s[k] == s[i..j][k - i];
  }

  lemma MatchesDot(s: string, i: nat, k: nat)
    requires i <= k <= |s|
    ensures Matches(DOT, s, i, k) <==> k == i + 1 && s[i] == '.'
  {
  }

  lemma MatchesDotLabel(s: string, i: nat, j: nat)
    requires i <= j <= |s|
    ensures Matches(DOT_LABEL, s, i, j) <==> i < j && s[i] == '.' && IsLabel(s[i + 1..j])
  {
    hide Matches;
    if Matches(DOT_LABEL, s, i, j) {
      var k := ThenElim(DOT, LABEL, s, i, j);
      MatchesDot(s, i, k);
      MatchesLabel(s, k, j);
    }
    if i < j && s[i] == '.' && IsLabel(s[i + 1..j]) {
      MatchesDot(s, i, i + 1);
      MatchesLabel(s, i + 1, j);
      ThenIntro(DOT, LABEL, s, i, i + 1, j);
    }
  }

  // The text after a dot is labels all the way.
  predicate LabelsFrom(s: string, i: nat)
    requires i <= |s|
  {
    i < |s| && s[i] == '.' && AllLabels(Split(s[i + 1..]))
  }

  // How the text after a dot starts with one label and goes on.
  lemma LabelsFromStep(s: string, i: nat, k: nat)
    requires i < k <= |s| && s[i] == '.' && IsLabel(s[i + 1..k])
    ensures k == |s| ==> LabelsFrom(s, i)
    ensures k < |s| && s[k] == '.' ==> (LabelsFrom(s, i) <==> LabelsFrom(s, k))
  {
    var l := s[i + 1..k];
    LabelsUndotted(l);
    if k == |s| {
      assert s[i + 1..] == l;
      SplitUndotted(l);
    } else if s[k] == '.' {
      assert s[i + 1..] == l + "." + s[k + 1..];
      SplitAtDot(l, s[k + 1..]);
      var rest := Split(s[k + 1..]);
      assert AllLabels([l] + rest) <==> AllLabels(rest) by {
        assert forall n | 0 <= n < |rest| :: ([l] + rest)[n + 1] == rest[n];
      }
    }
  }

  lemma LabelsFromFirst(s: string, i: nat) returns (k: nat)
    requires i <= |s| && LabelsFrom(s, i)
    ensures i < k <= |s| && IsLabel(s[i + 1..k]) && (k < |s| ==> s[k] == '.')
  {
    var t := s[i + 1..];
    FirstLabel(t);
    k := i + 1 + |Split(t)[0]|;
    assert s[i + 1..k] == t[..|Split(t)[0]|];
  }

  lemma {:induction false} StarOfDotLabels(s: string, i: nat)
    requires i <= |s|
    ensures MatchesStar(DOT_LABEL, s, i, |s|) <==> i == |s| || LabelsFrom(s, i)
    decreases |s| - i
  {
    hide Matches, AllLabels, IsLabel;
    if MatchesStar(DOT_LABEL, s, i, |s|) && i < |s| {
      var k := StarElim(DOT_LABEL, s, i, |s|);
      MatchesDotLabel(s, i, k);
      StarOfDotLabels(s, k);
      LabelsFromStep(s, i, k);
    }
    if LabelsFrom(s, i) {
      var k := LabelsFromFirst(s, i);
      MatchesDotLabel(s, i, k);
      StarOfDotLabels(s, k);
      LabelsFromStep(s, i, k);
      StarIntro(DOT_LABEL, s, i, k, |s|);
    }
  }

  lemma PlusOfDotLabels(s: string, i: nat)
    requires i <= |s|
    ensures Matches(OnceOrMore(DOT_LABEL), s, i, |s|) <==> LabelsFrom(s, i)
  {
    hide Matches, LabelsFrom;
    StarOfDotLabels(s, i);
    if Matches(OnceOrMore(DOT_LABEL), s, i, |s|) {
      var k := PlusElim(DOT_LABEL, s, i, |s|);
      MatchesDotLabel(s, i, k);
      StarIntro(DOT_LABEL, s, i, k, |s|);
    }
    if LabelsFrom(s, i) {
      var k := StarElim(DOT_LABEL, s, i, |s|) by { LabelsFromInside(s, i); }
      PlusIntro(DOT_LABEL, s, i, k, |s|);
    }
  }

  lemma LabelsFromInside(s: string, i: nat)
    requires i <= |s| && LabelsFrom(s, i)
    ensures i < |s|
  {
  }

  // ---------- the whole expression ----------

  lemma MatchesEnd(s: string, i: nat, j: nat)
    requires i <= j <= |s|
    ensures Matches(End, s, i, j) <==> i == j && (i == |s| || (i == |s| - 1 && s[i] == '\n'))
  {
  }

  lemma MatchesStart(s: string, i: nat, j: nat)
    requires i <= j <= |s|
    ensures Matches(Start, s, i, j) <==> i == j == 0
  {
  }

  lemma AheadElim(a: Re, s: string, i: nat, j: nat) returns (k: nat)
    requires i <= j <= |s| && Matches(Ahead(a), s, i, j)
    ensures i == j && i <= k <= |s| && Matches(a, s, i, k)
  {
    k :| i <= k <= |s| && Matches(a, s, i, k);
  }

  lemma AheadIntro(a: Re, s: string, i: nat, k: nat)
    requires i <= k <= |s| && Matches(a, s, i, k)
    ensures Matches(Ahead(a), s, i, i)
  {
  }

  lemma AnyChars(s: string, i: nat, j: nat)
    requires i <= j <= |s| && '\n' !in s
    ensures Matches(Times(AnyChar, 1, 253), s, i, j) <==> 1 <= j - i <= 253
  {
    TimesOneChar(AnyChar, 1, 253, s, i, j);
    assert forall k | i <= k < j :: s[k] in s;
  }

  lemma SizeAhead(s: string, k: nat)
    requires '\n' !in s && k <= |s|
    ensures Matches(SIZE, s, 0, k) <==> k == 0 && 1 <= |s| <= 253
  {
    hide Matches;
    assert forall n | 0 <= n < |s| :: s[n] in s;
    var any := Times(AnyChar, 1, 253);
    if Matches(SIZE, s, 0, k) {
      var j := AheadElim(Then(any, End), s, 0, k);
      var e := ThenElim(any, End, s, 0, j);
      AnyChars(s, 0, e);
      MatchesEnd(s, e, j);
    }
    if k == 0 && 1 <= |s| <= 253 {
      AnyChars(s, 0, |s|);
      MatchesEnd(s, |s|, |s|);
      ThenIntro(any, End, s, 0, |s|, |s|);
      AheadIntro(Then(any, End), s, 0, |s|);
    }
  }

  // A full match takes apart into a first label and dotted labels up to the end ...
  lemma FullMatchElim(s: string) returns (k: nat)
    requires FullMatch(FQDN, s)
    ensures k <= |s| && Matches(SIZE, s, 0, 0) && IsLabel(s[..k]) && LabelsFrom(s, k)
  {
    hide Matches, IsLabel, LabelsFrom, MatchesStar, MatchesTimes;
    var a := ThenElim(Start, Then(SIZE, Then(LABEL, TAIL)), s, 0, |s|);
    MatchesStart(s, 0, a);
    var b := ThenElim(SIZE, Then(LABEL, TAIL), s, 0, |s|);
    var j := AheadElim(Then(Times(AnyChar, 1, 253), End), s, 0, b);
    k := ThenElim(LABEL, TAIL, s, 0, |s|);
    MatchesLabel(s, 0, k);
    assert s[0..k] == s[..k];
    var e := ThenElim(OnceOrMore(DOT_LABEL), End, s, k, |s|);
    MatchesEnd(s, e, |s|);
    PlusOfDotLabels(s, k);
  }

  // ... and is put together from them.
  lemma FullMatchIntro(s: string, k: nat)
    requires k <= |s| && Matches(SIZE, s, 0, 0) && IsLabel(s[..k]) && LabelsFrom(s, k)
    ensures FullMatch(FQDN, s)
  {
    hide Matches, IsLabel, LabelsFrom, MatchesStar, MatchesTimes;
    PlusOfDotLabels(s, k);
    MatchesEnd(s, |s|, |s|);
    ThenIntro(OnceOrMore(DOT_LABEL), End, s, k, |s|, |s|);
    assert s[0..k] == s[..k];
    MatchesLabel(s, 0, k);
    ThenIntro(LABEL, TAIL, s, 0, k, |s|);
    ThenIntro(SIZE, Then(LABEL, TAIL), s, 0, 0, |s|);
    MatchesStart(s, 0, 0);
    ThenIntro(Start, Then(SIZE, Then(LABEL, TAIL)), s, 0, 0, |s|);
  }

  lemma {:induction false} FqdnHasNoNewline(s: string)
    requires AllLabels(Split(s))
    ensures '\n' !in s
    decreases |s|
  {
    FirstLabel(s);
    var first := Split(s)[0];
    assert IsLabel(first);
    if |first| < |s| {
      var rest := s[|first| + 1..];
      assert forall n | 0 <= n < |Split(rest)| :: Split(rest)[n] == Split(s)[n + 1];
      FqdnHasNoNewline(rest);
      assert s == first + "." + rest;
    } else {
      assert s == first;
    }
  }

  // A first label and dotted labels after it are the split.
  lemma LabelThenLabels(s: string, k: nat)
    requires k <= |s| && IsLabel(s[..k]) && LabelsFrom(s, k)
    ensures Split(s) == [s[..k]] + Split(s[k + 1..]) && AllLabels(Split(s)) && |Split(s)| >= 2
  {
    LabelsUndotted(s[..k]);
    assert s == s[..k] + "." + s[k + 1..];
    SplitAtDot(s[..k], s[k + 1..]);
  }

  lemma SplitStartsWithLabel(s: string) returns (k: nat)
    requires |Split(s)| >= 2 && AllLabels(Split(s))
    ensures k <= |s| && IsLabel(s[..k]) && LabelsFrom(s, k)
  {
    FirstLabel(s);
    k := |Split(s)[0]|;
    assert forall n | 0 <= n < |Split(s)| - 1 :: Split(s)[1..][n] == Split(s)[n + 1];
  }

  // The expression, lookahead and lookbehind included, accepts exactly the names whose labels are right.
  lemma RegexIsLabelByLabel(s: string)
    ensures FullMatch(FQDN, s) <==> IsFqdn(s)
  {
    hide Matches, FullMatch, LabelsFrom, IsLabel;
    if FullMatch(FQDN, s) {
      var k := FullMatchElim(s);
      LabelThenLabels(s, k);
      FqdnHasNoNewline(s);
      SizeAhead(s, 0);
    }
    if IsFqdn(s) {
      var k := SplitStartsWithLabel(s);
      FqdnHasNoNewline(s);
      EmptyIsNoFqdn();
      SizeAhead(s, 0);
      FullMatchIntro(s, k);
    }
  }

  lemma EmptyIsNoFqdn()
    ensures !IsFqdn("")
  {
  }

  // ---------- normalisation ----------

  datatype Checked = Valid(name: string) | BadRequest

  // The platform's text functions: what counts as white space, and lower case. The latter need not go
  // character by character.
  datatype Unicode = Unicode(isSpace: char -> bool, lower: string -> string)

  // The ASCII characters that str.strip() removes.
  predicate IsAsciiSpace(c: char) {
    '\t' <= c <= '\r' || '\U{1C}' <= c <= ' '
  }

  function LowerChar(c: char): char {
    if 'A' <= c <= 'Z' then 'a' + (c - 'A') else c
  }

  function AsciiLower(s: string): (t: string)
    ensures |t| == |s|
    ensures forall i | 0 <= i < |s| :: t[i] == LowerChar(s[i])
  {
    seq(|s|, i requires 0 <= i < |s| => LowerChar(s[i]))
  }

  predicate IsAscii(s: string) {
    forall i | 0 <= i < |s| :: s[i] as int < 128
  }

  ghost predicate AgreesOnAscii(u: Unicode) {
    && (forall c: char | c as int < 128 :: u.isSpace(c) <==> IsAsciiSpace(c))
    && (forall s | IsAscii(s) :: u.lower(s) == AsciiLower(s))
  }

  // Plain ASCII processing is one such platform.
  lemma AsciiAgrees()
    ensures AgreesOnAscii(Unicode(IsAsciiSpace, AsciiLower))
  {
  }

  function StripLeft(u: Unicode, s: string): string {
    if s != "" && u.isSpace(s[0]) then StripLeft(u, s[1..]) else s
  }

  function StripRight(u: Unicode, s: string): string {
    if s != "" && u.isSpace(s[|s| - 1]) then StripRight(u, s[..|s| - 1]) else s
  }

  function StripDots(s: string): string {
    if s != "" && s[|s| - 1] == '.' then StripDots(s[..|s| - 1]) else s
  }

  // raw.strip().lower().rstrip(".")
  function Normal(u: Unicode, raw: string): string {
    StripDots(u.lower(StripRight(u, StripLeft(u, raw))))
  }

  ghost function Normalise(u: Unicode, raw: string): Checked {
    var name := Normal(u, raw);
    if name == "" || !FullMatch(FQDN, name) then BadRequest else Valid(name)
  }

  lemma AcceptedIffFqdn(u: Unicode, raw: string)
    ensures Normalise(u, raw) == if IsFqdn(Normal(u, raw)) then Valid(Normal(u, raw)) else BadRequest
  {
    RegexIsLabelByLabel(Normal(u, raw));
    hide FullMatch, IsFqdn;
    EmptyIsNoFqdn();
  }

  lemma {:induction false} FqdnChars(s: string)
    requires s != "" && AllLabels(Split(s))
    ensures forall i | 0 <= i < |s| :: IsLabelChar(s[i]) || s[i] == '.'
    ensures s[|s| - 1] != '.' && s[0] != '.'
    decreases |s|
  {
    FirstLabel(s);
    var first := Split(s)[0];
    assert IsLabel(first);
    assert s[0] == first[0];
    if |first| < |s| {
      var rest := s[|first| + 1..];
      assert forall n | 0 <= n < |Split(rest)| :: Split(rest)[n] == Split(s)[n + 1];
      assert rest != "" by {
        assert Split(rest)[0] == Split(s)[1];
      }
      FqdnChars(rest);
      assert s == first + "." + rest;
    } else {
      assert s == first;
    }
  }

  lemma NormalOfFqdn(u: Unicode, s: string)
    requires AgreesOnAscii(u) && IsFqdn(s)
    ensures Normal(u, s) == s
  {
    EmptyIsNoFqdn();
    FqdnChars(s);
    assert IsAscii(s);
    assert !u.isSpace(s[0]) && !u.isSpace(s[|s| - 1]);
    assert AsciiLower(s) == s;
  }

  // The executable validator: label by label.
  function Validate(u: Unicode, raw: string): (r: Checked)
    ensures r == Normalise(u, raw)
  {
    AcceptedIffFqdn(u, raw);
    if IsFqdn(Normal(u, raw)) then Valid(Normal(u, raw)) else BadRequest
  }

  // Normalising an accepted name again changes nothing.
  lemma NormaliseIdempotent(u: Unicode, raw: string)
    requires AgreesOnAscii(u)
    ensures Normalise(u, raw).Valid? ==> Normalise(u, Normalise(u, raw).name) == Normalise(u, raw)
  {
    AcceptedIffFqdn(u, raw);
    AcceptedIffFqdn(u, Normal(u, raw));
    hide Normalise, IsFqdn, AgreesOnAscii;
    if Normalise(u, raw).Valid? {
      NormalOfFqdn(u, Normal(u, raw));
    }
  }

  // ---------- other spellings of a name ----------

  predicate Spaces(u: Unicode, s: string) {
    forall i | 0 <= i < |s| :: u.isSpace(s[i])
  }

  predicate Dots(s: string) {
    forall i | 0 <= i < |s| :: s[i] == '.'
  }

  predicate Trimmed(u: Unicode, s: string) {
    s == "" || (!u.isSpace(s[0]) && !u.isSpace(s[|s| - 1]))
  }

  lemma {:induction false} StripLeftSpaces(u: Unicode, l: string, s: string)
    requires Spaces(u, l) && (s == "" || !u.isSpace(s[0]))
    ensures StripLeft(u, l + s) == s
    decreases |l|
  {
    if l == "" {
      assert l + s == s;
    } else {
      assert (l + s)[1..] == l[1..] + s;
      StripLeftSpaces(u, l[1..], s);
    }
  }

  lemma {:induction false} StripRightSpaces(u: Unicode, s: string, r: string)
    requires Spaces(u, r) && (s == "" || !u.isSpace(s[|s| - 1]))
    ensures StripRight(u, s + r) == s
    decreases |r|
  {
    if r == "" {
      assert s + r == s;
    } else {
      assert (s + r)[..|s + r| - 1] == s + r[..|r| - 1];
      StripRightSpaces(u, s, r[..|r| - 1]);
    }
  }

  lemma {:induction false} StripDotsAfter(s: string, dots: string)
    requires Dots(dots) && (s == "" || s[|s| - 1] != '.')
    ensures StripDots(s + dots) == s
    decreases |dots|
  {
    if dots == "" {
      assert s + dots == s;
    } else {
      assert (s + dots)[..|s + dots| - 1] == s + dots[..|dots| - 1];
      StripDotsAfter(s, dots[..|dots| - 1]);
    }
  }

  lemma StripBoth(u: Unicode, left: string, core: string, right: string)
    requires Spaces(u, left) && Trimmed(u, core) && Spaces(u, right)
    ensures StripRight(u, StripLeft(u, left + (core + right))) == core
  {
    if core == "" {
      assert left + (core + right) == left + right + "";
      StripLeftSpaces(u, left + right, "");
    } else {
      StripLeftSpaces(u, left, core + right);
      StripRightSpaces(u, core, right);
    }
  }

  // White space around a text that is, in lower case, the name and trailing dots.
  predicate IsSpelling(u: Unicode, raw: string, name: string, left: string, core: string, dots: string, right: string) {
    && raw == left + (core + right) && Spaces(u, left) && Trimmed(u, core) && Spaces(u, right)
    && u.lower(core) == name + dots && Dots(dots)
  }

  lemma SpellingGivesName(u: Unicode, raw: string, name: string, left: string, core: string, dots: string, right: string)
    requires IsFqdn(name) && IsSpelling(u, raw, name, left, core, dots, right)
    ensures Normal(u, raw) == name
  {
    EmptyIsNoFqdn();
    FqdnChars(name);
    hide IsFqdn;
    StripBoth(u, left, core, right);
    StripDotsAfter(name, dots);
  }

  lemma {:induction false} StrippedLeft(u: Unicode, s: string) returns (l: string)
    ensures s == l + StripLeft(u, s) && Spaces(u, l)
    ensures StripLeft(u, s) == "" || !u.isSpace(StripLeft(u, s)[0])
    decreases |s|
  {
    if s != "" && u.isSpace(s[0]) {
      var rest := StrippedLeft(u, s[1..]);
      l := [s[0]] + rest;
      assert s == [s[0]] + s[1..];
    } else {
      l := "";
    }
  }

  lemma {:induction false} StrippedRight(u: Unicode, s: string) returns (r: string)
    ensures s == StripRight(u, s) + r && Spaces(u, r)
    ensures StripRight(u, s) == "" || !u.isSpace(StripRight(u, s)[|StripRight(u, s)| - 1])
    decreases |s|
  {
    if s != "" && u.isSpace(s[|s| - 1]) {
      var rest := StrippedRight(u, s[..|s| - 1]);
      r := rest + [s[|s| - 1]];
      assert s == s[..|s| - 1] + [s[|s| - 1]];
    } else {
      r := "";
    }
  }

  lemma {:induction false} StrippedDots(s: string) returns (dots: string)
    ensures s == StripDots(s) + dots && Dots(dots)
    decreases |s|
  {
    if s != "" && s[|s| - 1] == '.' {
      var rest := StrippedDots(s[..|s| - 1]);
      dots := rest + ".";
      assert s == s[..|s| - 1] + ".";
    } else {
      dots := "";
    }
  }

  lemma NormalIsSpelled(u: Unicode, raw: string) returns (left: string, core: string, dots: string, right: string)
    ensures IsSpelling(u, raw, Normal(u, raw), left, core, dots, right)
  {
    left := StrippedLeft(u, raw);
    var inner := StripLeft(u, raw);
    right := StrippedRight(u, inner);
    core := StripRight(u, inner);
    dots := StrippedDots(u.lower(core));
    hide StripLeft, StripRight, StripDots, Spaces, Dots;
    assert core != "" ==> inner[0] == core[0];
  }

  // An input is accepted as a name exactly when the name is well formed and the input is a spelling of it:
  // any case, trailing dots, surrounding white space, whatever the platform counts as these.
  lemma AcceptedIffSpelling(u: Unicode, raw: string, name: string)
    ensures Normalise(u, raw) == Valid(name) <==>
      IsFqdn(name) && exists left, core, dots, right :: IsSpelling(u, raw, name, left, core, dots, right)
  {
    AcceptedIffFqdn(u, raw);
    hide Normalise, IsFqdn, Normal, IsSpelling;
    if Normal(u, raw) == name {
      var left, core, dots, right := NormalIsSpelled(u, raw);
    }
    if IsFqdn(name) {
      if left, core, dots, right :| IsSpelling(u, raw, name, left, core, dots, right) {
        SpellingGivesName(u, raw, name, left, core, dots, right);
      }
    }
  }

  // For instance every ASCII spelling, upper and lower case mixed.
  lemma AsciiSpellings(u: Unicode, name: string, left: string, spelled: string, dots: string, right: string)
    requires AgreesOnAscii(u) && IsFqdn(name)
    requires Spaces(u, left) && AsciiLower(spelled) == name && Dots(dots) && Spaces(u, right)
    ensures Normalise(u, left + (spelled + dots + right)) == Valid(name)
  {
    var core := spelled + dots;
    EmptyIsNoFqdn();
    FqdnChars(name);
    forall i | 0 <= i < |spelled|
      ensures spelled[i] as int < 128 && !IsAsciiSpace(spelled[i])
    {
      assert LowerChar(spelled[i]) == name[i];
    }
    assert IsAscii(core) && AsciiLower(core) == name + dots;
    assert Trimmed(u, core);
    assert IsSpelling(u, left + (core + right), name, left, core, dots, right);
    hide AgreesOnAscii, IsFqdn, Normalise, IsSpelling;
    AcceptedIffSpelling(u, left + (core + right), name);
  }

  // ---------- size on the wire ----------

  // Section 3.1 of RFC 1035: each label behind its length, and a zero for the root.
  function Wire(labels: seq<string>): seq<int> {
    if labels == [] then [0]
    else [|labels[0]|] + seq(|labels[0]|, i requires 0 <= i < |labels[0]| => labels[0][i] as int) + Wire(labels[1..])
  }

  lemma {:induction false} WireSize(labels: seq<string>)
    requires labels != []
    ensures |Wire(labels)| == |Join(labels)| + 2
    decreases |labels|
  {
    if |labels| > 1 {
      WireSize(labels[1..]);
    } else {
      assert Wire(labels[1..]) == [0];
    }
  }

  // An accepted name takes two octets more than its text, so at most 255 of them, and every label
  // length fits the six bits it has.
  lemma AcceptedNamesFitTheWire(u: Unicode, raw: string)
    ensures Normalise(u, raw).Valid? ==>
      var labels := Split(Normalise(u, raw).name);
      && |Wire(labels)| == |Normalise(u, raw).name| + 2 <= 255
      && forall i | 0 <= i < |labels| :: 1 <= |labels[i]| <= 63
  {
    AcceptedIffFqdn(u, raw);
    hide Normalise;
    var name := Normal(u, raw);
    WireSize(Split(name));
    JoinSplit(name);
  }
}
