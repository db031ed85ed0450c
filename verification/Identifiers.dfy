/**
 * Translation of C identifiers into identifiers of the target language, which has
 * keywords of its own and no leading underscores.
 */
module Identifiers {

  import opened Keywords

  type Name = string

  const POSTFIX: Name := "U__"

  /** Names that the converter uses for its own needs. */
  const RESERVED: set<Name> := {"struct_", "union_", "enum_", "scoped_enum_", "anon_record", "anon_enum", "anon_field_"}

  predicate EndsWith(s: Name, t: Name) {
    |t| <= |s| && s[|s| - |t|..] == t
  }

  predicate IsDigit(c: char) {
    '0' <= c <= '9'
  }

  /** What keywords must be like for the translation to work. */
  ghost predicate GoodKeywords(keywords: set<Name>) {
    && (forall k :: k in keywords ==> k != "" && IsLetter(k[0]))
    && (forall k :: k in keywords ==> !EndsWith(k, "U_") && !EndsWith(k, POSTFIX))
    && (forall k :: k in keywords ==> k + "_" !in keywords)
  }

  // ----- numbers -----

  function Digit(n: nat): char
    requires n < 10
  {
    "0123456789"[n]
  }

  function ToString(n: nat): Name {
    if n < 10 then [Digit(n)] else ToString(n / 10) + [Digit(n % 10)]
  }

  function DigitValue(c: char): nat {
    if IsDigit(c) then c as int - '0' as int else 0
  }

  function FromString(s: Name): nat {
    if s == "" then 0 else 10 * FromString(s[..|s| - 1]) + DigitValue(s[|s| - 1])
  }

  lemma {:induction false} NumberRoundTrip(n: nat)
    ensures FromString(ToString(n)) == n && ToString(n) != ""
    ensures forall i :: 0 <= i < |ToString(n)| ==> IsDigit(ToString(n)[i])
  {
    if n >= 10 {
      NumberRoundTrip(n / 10);
      var s := ToString(n);
      assert s[..|s| - 1] == ToString(n / 10);
    } else {
      assert [Digit(n)][..0] == "";
    }
  }

  // ----- the translation -----

  function Underscores(n: nat): (s: Name)
    ensures |s| == n
  {
    seq(n, i => '_')
  }

  function Leading(s: Name): (n: nat)
    ensures n <= |s| && (n < |s| ==> s[n] != '_')
    ensures s[..n] == Underscores(n)
  {
    if s == "" || s[0] != '_' then 0
    else
      assert s[..1 + Leading(s[1..])] == "_" + s[1..][..Leading(s[1..])];
      1 + Leading(s[1..])
  }

  /** Names that must be encoded. */
  predicate MustBeCoded(keywords: set<Name>, s: Name)
    requires s != ""
  {
    || s in RESERVED
    || Leading(s) > 0
    || (s[|s| - 1] == '_' && s[..|s| - 1] in keywords)
    || EndsWith(s, POSTFIX)
  }

  /** The rest of a name after its leading underscores, and their number. */
  function Coded(rest: Name, n: nat): Name {
    if rest == "" then "u" + ToString(n) + POSTFIX
    else if IsDigit(rest[0]) then "n" + rest + "_" + "n" + ToString(n) + POSTFIX
    else rest + "_" + ToString(n) + POSTFIX
  }

  function Translate(keywords: set<Name>, s: Name): Name
    requires s != ""
  {
    if s in keywords then s + "_"
    else if MustBeCoded(keywords, s) then Coded(s[Leading(s)..], Leading(s))
    else s
  }

  method TranslateIdentifier(keywords: set<Name>, identifier: Name) returns (r: Name)
    requires identifier != ""
    ensures r == Translate(keywords, identifier)
  {
    if identifier in keywords { return identifier + "_"; }
    var n := 0;
    while n < |identifier| && identifier[n] == '_'
      invariant n <= Leading(identifier)
    {
      LeadingMore(identifier, n);
      n := n + 1;
    }
    LeadingIs(identifier, n);
    if
      || identifier in RESERVED
      || n > 0
      || (identifier[|identifier| - 1] == '_' && identifier[..|identifier| - 1] in keywords)
      || EndsWith(identifier, POSTFIX)
    {
      r := CodeName(identifier, n);
      return;
    }
    return identifier;
  }

  method CodeName(identifier: Name, n: nat) returns (coded: Name)
    requires n <= |identifier|
    ensures coded == Coded(identifier[n..], n)
  {
    hide ToString;
    coded := "";
    var number := ToString(n);
    if n == |identifier| {
      coded := coded + "u";
      assert coded == "u";
      coded := coded + number;
    } else {
      var startsWithDigit := IsDigit(identifier[n]);
      if startsWithDigit { coded := coded + "n"; }
      coded := coded + identifier[n..];
      assert coded == if startsWithDigit then "n" + identifier[n..] else identifier[n..];
      coded := coded + "_";
      if startsWithDigit { coded := coded + "n"; }
      coded := coded + number;
    }
    coded := coded + POSTFIX;
  }

  lemma {:induction false} LeadingMore(s: Name, n: nat)
    requires n <= Leading(s) && n < |s| && s[n] == '_'
    ensures n < Leading(s)
  {
  }

  lemma {:induction false} LeadingIs(s: Name, n: nat)
    requires n <= Leading(s) && (n == |s| || s[n] != '_')
    ensures n == Leading(s)
  {
    assert forall i :: 0 <= i < Leading(s) ==> s[i] == s[..Leading(s)][i] == Underscores(Leading(s))[i];
  }

  // ----- back again -----

  /** The position of the last underscore. */
  function LastUnderscore(s: Name): (i: int)
    ensures -1 <= i < |s| && (i >= 0 ==> s[i] == '_') && forall k :: i < k < |s| ==> s[k] != '_'
  {
    if s == "" then -1 else if s[|s| - 1] == '_' then |s| - 1 else LastUnderscore(s[..|s| - 1])
  }

  function Restored(body: Name): Name {
    var i := LastUnderscore(body);
    if i < 0 then Underscores(if body == "" then 0 else FromString(body[1..]))
    else
      var rest, number := body[..i], body[i + 1..];
      if number != "" && number[0] == 'n' && rest != "" then Underscores(FromString(number[1..])) + rest[1..]
      else Underscores(FromString(number)) + rest
  }

  function Back(keywords: set<Name>, name: Name): Name {
    if EndsWith(name, POSTFIX) then Restored(name[..|name| - 3])
    else if name != "" && name[|name| - 1] == '_' && name[..|name| - 1] in keywords then name[..|name| - 1]
    else name
  }

  lemma LastUnderscoreIs(s: Name, i: nat)
    requires i < |s| && s[i] == '_' && forall k :: i < k < |s| ==> s[k] != '_'
    ensures LastUnderscore(s) == i
  {
  }

  lemma CutPostfix(body: Name)
    ensures EndsWith(body + POSTFIX, POSTFIX) && (body + POSTFIX)[..|body + POSTFIX| - 3] == body
  {
  }

  lemma RestoredEmpty(n: nat)
    ensures Restored("u" + ToString(n)) == Underscores(n)
  {
    NumberRoundTrip(n);
    var body := "u" + ToString(n);
    assert body[1..] == ToString(n);
  }

  lemma SplitAtLast(a: Name, b: Name)
    requires forall i :: 0 <= i < |b| ==> b[i] != '_'
    ensures var body := a + "_" + b; LastUnderscore(body) == |a| && body[..|a|] == a && body[|a| + 1..] == b
  {
    LastUnderscoreIs(a + "_" + b, |a|);
  }

  lemma RestoredSplit(a: Name, b: Name)
    requires forall i :: 0 <= i < |b| ==> b[i] != '_'
    ensures Restored(a + "_" + b) ==
      if b != "" && b[0] == 'n' && a != "" then Underscores(FromString(b[1..])) + a[1..] else Underscores(FromString(b)) + a
  {
    hide FromString, LastUnderscore;
    SplitAtLast(a, b);
  }

  lemma RestoredDigit(rest: Name, number: Name, n: nat)
    requires rest != "" && FromString(number) == n && forall i :: 0 <= i < |number| ==> IsDigit(number[i])
    ensures Restored("n" + rest + "_" + "n" + number) == Underscores(n) + rest
  {
    hide FromString, Restored;
    var a, b := "n" + rest, "n" + number;
    RestoredSplit(a, b);
    assert "n" + rest + "_" + "n" + number == a + "_" + b;
    assert a[1..] == rest && b[1..] == number;
  }

  lemma RestoredPlain(rest: Name, number: Name, n: nat)
    requires number != "" && FromString(number) == n && forall i :: 0 <= i < |number| ==> IsDigit(number[i])
    ensures Restored(rest + "_" + number) == Underscores(n) + rest
  {
    hide FromString, Restored;
    RestoredSplit(rest, number);
  }

  lemma RestoredCoded(rest: Name, n: nat)
    ensures EndsWith(Coded(rest, n), POSTFIX)
    ensures Restored(Coded(rest, n)[..|Coded(rest, n)| - 3]) == Underscores(n) + rest
  {
    hide ToString, FromString, Restored;
    NumberRoundTrip(n);
    var number := ToString(n);
    if rest == "" {
      RestoredEmpty(n);
      CutPostfix("u" + number);
      assert Underscores(n) + rest == Underscores(n);
    } else if IsDigit(rest[0]) {
      RestoredDigit(rest, number, n);
      CutPostfix("n" + rest + "_" + "n" + number);
    } else {
      RestoredPlain(rest, number, n);
      CutPostfix(rest + "_" + number);
    }
  }

  /** A keyword with an underscore looks like a coded name only if the keyword ends accordingly. */
  lemma KeywordNotCoded(s: Name)
    ensures EndsWith(s + "_", POSTFIX) ==> EndsWith(s, "U_")
  {
    var r := s + "_";
    if EndsWith(r, POSTFIX) {
      assert r[|r| - 3..][0] == 'U' && r[|r| - 3..][1] == '_';
      assert s[|s| - 2..] == "U_";
    }
  }

  /** Every identifier can be got back from its translation. */
  lemma RoundTrip(keywords: set<Name>, s: Name)
    requires GoodKeywords(keywords) && s != ""
    ensures Back(keywords, Translate(keywords, s)) == s
  {
    hide Coded, Restored;
    var r := Translate(keywords, s);
    if s in keywords {
      KeywordNotCoded(s);
      assert r[..|r| - 1] == s;
    } else if MustBeCoded(keywords, s) {
      var n := Leading(s);
      RestoredCoded(s[n..], n);
      assert s == s[..n] + s[n..];
    }
  }

  /** No two identifiers get the same name. */
  lemma NoCollisions(keywords: set<Name>, s: Name, t: Name)
    requires GoodKeywords(keywords) && s != "" && t != "" && Translate(keywords, s) == Translate(keywords, t)
    ensures s == t
  {
    RoundTrip(keywords, s);
    RoundTrip(keywords, t);
  }

  predicate IsCIdentifier(s: Name) {
    && s != "" && !IsDigit(s[0])
    && forall i :: 0 <= i < |s| ==> IsLetter(s[i]) || IsDigit(s[i]) || s[i] == '_'
  }

  /** Names start with a letter and are not keywords. */
  lemma GoodName(keywords: set<Name>, s: Name)
    requires GoodKeywords(keywords) && IsCIdentifier(s)
    ensures var r := Translate(keywords, s); r != "" && IsLetter(r[0]) && r !in keywords
  {
    var r := Translate(keywords, s);
    if s !in keywords && MustBeCoded(keywords, s) {
      RestoredCoded(s[Leading(s)..], Leading(s));
      assert Leading(s) < |s| ==> s[Leading(s)..][0] == s[Leading(s)];
    }
  }

  /** A name that means nothing special, neither to the language nor to the converter. */
  ghost predicate Ordinary(keywords: set<Name>, s: Name)
    requires s != ""
  {
    && s !in keywords && s !in RESERVED && s[0] != '_' && !EndsWith(s, POSTFIX)
    && forall k :: k in keywords ==> s != k + "_"
  }

  lemma KeywordAndUnderscore(keywords: set<Name>, s: Name)
    requires s != ""
    ensures s[|s| - 1] == '_' && s[..|s| - 1] in keywords <==> exists k :: k in keywords && s == k + "_"
  {
    if s[|s| - 1] == '_' && s[..|s| - 1] in keywords { assert s == s[..|s| - 1] + "_"; }
    if k :| k in keywords && s == k + "_" { assert s[..|s| - 1] == k; }
  }

  lemma CodedDiffers(s: Name)
    requires s != ""
    ensures Coded(s[Leading(s)..], Leading(s)) != s
  {
    hide ToString;
    var n, rest := Leading(s), s[Leading(s)..];
    if n == 0 {
      assert rest == s;
      NumberRoundTrip(n);
    } else {
      assert s[0] == s[..n][0] == '_';
      if rest != "" { assert rest[0] == s[n] != '_'; }
    }
  }

  /** Exactly the ordinary names stay as they are. */
  lemma OrdinaryUnchanged(keywords: set<Name>, s: Name)
    requires s != ""
    ensures Translate(keywords, s) == s <==> Ordinary(keywords, s)
  {
    hide Coded;
    KeywordAndUnderscore(keywords, s);
    CodedDiffers(s);
    assert s[0] == '_' <==> Leading(s) > 0 by {
      if Leading(s) > 0 { assert s[0] == s[..Leading(s)][0]; }
    }
  }

  lemma ReservedNotCoded(r: Name)
    requires r in RESERVED
    ensures !EndsWith(r, POSTFIX)
  {
  }

  /** A translation is one of the converter's own names only if it is that of a keyword which lacks the underscore. */
  lemma ReservedOnlyByKeywords(keywords: set<Name>, s: Name)
    requires s != ""
    ensures Translate(keywords, s) in RESERVED <==> s in keywords && s + "_" in RESERVED
  {
    hide Coded;
    var r := Translate(keywords, s);
    if s !in keywords && MustBeCoded(keywords, s) {
      CodedEnds(s[Leading(s)..], Leading(s));
      if r in RESERVED { ReservedNotCoded(r); }
    }
  }

  lemma CodedEnds(rest: Name, n: nat)
    ensures EndsWith(Coded(rest, n), POSTFIX)
  {
  }

  // ----- the language's own keywords -----

  function KeywordSet(): set<Name> {
    set k | k in KEYWORDS
  }

  lemma EndsWithLast(s: Name, t: Name)
    requires t != ""
    ensures EndsWith(s, t) ==> s != "" && s[|s| - 1] == t[|t| - 1]
  {
    if EndsWith(s, t) { assert s[|s| - |t|..][|t| - 1] == s[|s| - 1]; }
  }

  lemma KeywordsAreGood()
    ensures GoodKeywords(KeywordSet())
  {
    hide KEYWORDS;
    KeywordsArePlain();
    forall k | k in KeywordSet() ensures !EndsWith(k, "U_") && !EndsWith(k, POSTFIX) && k + "_" !in KeywordSet() {
      assert Plain(k) && !Plain(k + "_");
      EndsWithLast(k, "U_");
      EndsWithLast(k, POSTFIX);
    }
  }

  /** In this language every C identifier has a name of its own, which starts with a letter and is no keyword. */
  lemma TranslationIsSafe(s: Name, t: Name)
    requires IsCIdentifier(s) && t != ""
    ensures var r := Translate(KeywordSet(), s);
            && r != "" && IsLetter(r[0]) && r !in KeywordSet()
            && (r == Translate(KeywordSet(), t) ==> s == t)
  {
    hide KeywordSet, Translate;
    KeywordsAreGood();
    GoodName(KeywordSet(), s);
    if Translate(KeywordSet(), s) == Translate(KeywordSet(), t) { NoCollisions(KeywordSet(), s, t); }
  }
}
