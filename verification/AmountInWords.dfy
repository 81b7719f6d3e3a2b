/** Amounts in words, Indian numbering, and the reading that undoes them. */
module AmountInWords {
  import opened Orders

  /** The vocabulary: 0 to 19, the tens, the scales, and the words around an amount. */
  datatype Word =
    | Small(n: nat) | Ten(n: nat)
    | Hundred | Thousand | Lakh | Crore
    | Rupees | And | Paise | Only
  {
    predicate Valid() {
      (Small? ==> n < 20) && (Ten? ==> 2 <= n <= 9)
    }
  }

  function SpellSmall(n: nat): string {
    match n
    case 0 => "Zero"
    case 1 => "One"
    case 2 => "Two"
    case 3 => "Three"
    case 4 => "Four"
    case 5 => "Five"
    case 6 => "Six"
    case 7 => "Seven"
    case 8 => "Eight"
    case 9 => "Nine"
    case 10 => "Ten"
    case 11 => "Eleven"
    case 12 => "Twelve"
    case 13 => "Thirteen"
    case 14 => "Fourteen"
    case 15 => "Fifteen"
    case 16 => "Sixteen"
    case 17 => "Seventeen"
    case 18 => "Eighteen"
    case _ => "Nineteen"
  }

  function SpellTen(n: nat): string {
    match n
    case 2 => "Twenty"
    case 3 => "Thirty"
    case 4 => "Forty"
    case 5 => "Fifty"
    case 6 => "Sixty"
    case 7 => "Seventy"
    case 8 => "Eighty"
    case _ => "Ninety"
  }

  function Spell(w: Word): string {
    match w
    case Small(n) => SpellSmall(n)
    case Ten(n) => SpellTen(n)
    case Hundred => "Hundred"
    case Thousand => "Thousand"
    case Lakh => "Lakh"
    case Crore => "Crore"
    case Rupees => "Rupees"
    case And => "and"
    case Paise => "Paise"
    case Only => "Only"
  }

  function Exactly(s: string, spelling: string, w: Word): Option<Word> {
    if s == spelling then Some(w) else None
  }

  /** The word a spelling stands for: its length, third and last letter tell which one it can be. */
  function Read(s: string): Option<Word> {
    if |s| == 3 then
      if s[2] == 'e' then Exactly(s, "One", Small(1))
      else if s[2] == 'o' then Exactly(s, "Two", Small(2))
      else if s[2] == 'x' then Exactly(s, "Six", Small(6))
      else if s[2] == 'n' then Exactly(s, "Ten", Small(10))
      else if s[2] == 'd' then Exactly(s, "and", And)
      else None
    else if |s| == 4 then
      if s[2] == 'r' && s[3] == 'o' then Exactly(s, "Zero", Small(0))
      else if s[2] == 'u' && s[3] == 'r' then Exactly(s, "Four", Small(4))
      else if s[2] == 'v' && s[3] == 'e' then Exactly(s, "Five", Small(5))
      else if s[2] == 'n' && s[3] == 'e' then Exactly(s, "Nine", Small(9))
      else if s[2] == 'k' && s[3] == 'h' then Exactly(s, "Lakh", Lakh)
      else if s[2] == 'l' && s[3] == 'y' then Exactly(s, "Only", Only)
      else None
    else if |s| == 5 then
      if s[2] == 'r' && s[4] == 'e' then Exactly(s, "Three", Small(3))
      else if s[2] == 'v' && s[4] == 'n' then Exactly(s, "Seven", Small(7))
      else if s[2] == 'g' && s[4] == 't' then Exactly(s, "Eight", Small(8))
      else if s[2] == 'r' && s[4] == 'y' then Exactly(s, "Forty", Ten(4))
      else if s[2] == 'f' && s[4] == 'y' then Exactly(s, "Fifty", Ten(5))
      else if s[2] == 'x' && s[4] == 'y' then Exactly(s, "Sixty", Ten(6))
      else if s[2] == 'o' && s[4] == 'e' then Exactly(s, "Crore", Crore)
      else if s[2] == 'i' && s[4] == 'e' then Exactly(s, "Paise", Paise)
      else None
    else if |s| == 6 then
      if s[2] == 'e' && s[5] == 'n' then Exactly(s, "Eleven", Small(11))
      else if s[2] == 'e' && s[5] == 'e' then Exactly(s, "Twelve", Small(12))
      else if s[2] == 'e' && s[5] == 'y' then Exactly(s, "Twenty", Ten(2))
      else if s[2] == 'i' && s[5] == 'y' then Exactly(s, "Thirty", Ten(3))
      else if s[2] == 'g' && s[5] == 'y' then Exactly(s, "Eighty", Ten(8))
      else if s[2] == 'n' && s[5] == 'y' then Exactly(s, "Ninety", Ten(9))
      else if s[2] == 'p' && s[5] == 's' then Exactly(s, "Rupees", Rupees)
      else None
    else if |s| == 7 then
      if s[2] == 'f' && s[6] == 'n' then Exactly(s, "Fifteen", Small(15))
      else if s[2] == 'x' && s[6] == 'n' then Exactly(s, "Sixteen", Small(16))
      else if s[2] == 'v' && s[6] == 'y' then Exactly(s, "Seventy", Ten(7))
      else if s[2] == 'n' && s[6] == 'd' then Exactly(s, "Hundred", Hundred)
      else None
    else if |s| == 8 then
      if s[2] == 'i' && s[7] == 'n' then Exactly(s, "Thirteen", Small(13))
      else if s[2] == 'u' && s[7] == 'n' then Exactly(s, "Fourteen", Small(14))
      else if s[2] == 'g' && s[7] == 'n' then Exactly(s, "Eighteen", Small(18))
      else if s[2] == 'n' && s[7] == 'n' then Exactly(s, "Nineteen", Small(19))
      else if s[2] == 'o' && s[7] == 'd' then Exactly(s, "Thousand", Thousand)
      else None
    else if |s| == 9 then
      if s[2] == 'v' && s[8] == 'n' then Exactly(s, "Seventeen", Small(17))
      else None
    else None
  }

  predicate Wordlike(s: string) {
    s != [] && forall i :: 0 <= i < |s| ==> s[i] != ' '
  }

  lemma SmallReads(n: nat)
    requires n < 20
    ensures Read(SpellSmall(n)) == Some(Small(n)) && Wordlike(SpellSmall(n))
  {
  }

  lemma TenReads(n: nat)
    requires 2 <= n <= 9
    ensures Read(SpellTen(n)) == Some(Ten(n)) && Wordlike(SpellTen(n))
  {
  }

  lemma SpellReads(w: Word)
    requires w.Valid()
    ensures Read(Spell(w)) == Some(w) && Wordlike(Spell(w))
  {
    match w
    case Small(n) => SmallReads(n);
    case Ten(n) => TenReads(n);
    case _ =>
  }

  // ----- Numbers as words -----

  function TwoWords(n: nat): seq<Word>
    requires 0 < n < 100
  {
    if n < 20 then [Small(n)]
    else [Ten(n / 10)] + if n % 10 > 0 then [Small(n % 10)] else []
  }

  function ThreeWords(n: nat): seq<Word>
    requires 0 < n < 1000
  {
    (if n >= 100 then [Small(n / 100), Hundred] else []) + if n % 100 > 0 then TwoWords(n % 100) else []
  }

  /** A counted scale, or nothing when the count is zero. */
  function ScaleWords(count: nat, scale: Word): seq<Word>
    requires count < 100
  {
    if count > 0 then TwoWords(count) + [scale] else []
  }

  function UnitWords(n: nat): seq<Word>
    requires n < 1000
  {
    if n > 0 then ThreeWords(n) else []
  }

  /** The words below one crore, scale by scale. */
  function LowerWords(n: nat): seq<Word>
    requires n < 10000000
  {
    ScaleWords(n / 100000, Lakh) + ScaleWords(n % 100000 / 1000, Thousand) + UnitWords(n % 1000)
  }

  /** Crores are counted in words of their own, so the numbering never runs out. */
  function NumberWords(n: nat): seq<Word> {
    if n == 0 then [Small(0)]
    else if n < 10000000 then LowerWords(n)
    else NumberWords(n / 10000000) + [Crore] + LowerWords(n % 10000000)
  }

  function PaiseWords(rest: nat): seq<Word>
    requires rest < 100
  {
    if rest > 0 then [And] + TwoWords(rest) + [Paise] else []
  }

  function AmountWords(paise: nat): seq<Word> {
    [Rupees] + NumberWords(paise / 100) + PaiseWords(paise % 100) + [Only]
  }

  // ----- What words mean -----

  /** A reader's state: the rupees already closed by "and", the scaled total, the group being read. */
  datatype Reading = Reading(rupees: Option<nat>, total: nat, group: nat) {
    function Value(): nat {
      match rupees
      case None => 100 * (total + group)
      case Some(r) => 100 * r + total + group
    }
  }

  const START := Reading(None, 0, 0)

  function Hear(r: Reading, w: Word): Reading {
    match w
    case Small(n) => r.(group := r.group + n)
    case Ten(n) => r.(group := r.group + 10 * n)
    case Hundred => r.(group := 100 * r.group)
    case Thousand => r.(total := r.total + 1000 * r.group, group := 0)
    case Lakh => r.(total := r.total + 100000 * r.group, group := 0)
    case Crore => r.(total := 10000000 * (r.total + r.group), group := 0)
    case And => Reading(Some(r.total + r.group), 0, 0)
    case _ => r
  }

  function HearAll(r: Reading, ws: seq<Word>): Reading {
    if ws == [] then r else Hear(HearAll(r, ws[..|ws| - 1]), ws[|ws| - 1])
  }

  lemma {:induction false} HearConcat(r: Reading, a: seq<Word>, b: seq<Word>)
    ensures HearAll(r, a + b) == HearAll(HearAll(r, a), b)
  {
    if b == [] {
      assert a + b == a;
    } else {
      var n := |b| - 1;
      HearConcat(r, a, b[..n]);
      assert (a + b)[..|a| + n] == a + b[..n];
    }
  }

  lemma HearOne(r: Reading, w: Word)
    ensures HearAll(r, [w]) == Hear(r, w)
  {
    assert [w][..0] == [];
  }

  lemma HearTwo(r: Reading, n: nat)
    requires 0 < n < 100
    ensures HearAll(r, TwoWords(n)) == r.(group := r.group + n)
  {
    if n < 20 {
      HearOne(r, Small(n));
    } else {
      HearOne(r, Ten(n / 10));
      HearConcat(r, [Ten(n / 10)], if n % 10 > 0 then [Small(n % 10)] else []);
      if n % 10 > 0 {
        HearOne(Hear(r, Ten(n / 10)), Small(n % 10));
      }
    }
  }

  lemma HearThree(r: Reading, n: nat)
    requires 0 < n < 1000 && r.group == 0
    ensures HearAll(r, ThreeWords(n)) == r.(group := n)
  {
    var hundreds := if n >= 100 then [Small(n / 100), Hundred] else [];
    HearConcat(r, hundreds, if n % 100 > 0 then TwoWords(n % 100) else []);
    if n >= 100 {
      HearConcat(r, [Small(n / 100)], [Hundred]);
      HearOne(r, Small(n / 100));
      HearOne(Hear(r, Small(n / 100)), Hundred);
      assert hundreds == [Small(n / 100)] + [Hundred];
    }
    if n % 100 > 0 {
      HearTwo(HearAll(r, hundreds), n % 100);
    }
  }

  /** A counted scale: the count in words, then the scale word. */
  lemma HearScaled(r: Reading, count: nat, scale: Word)
    requires count < 100 && r.group == 0 && (scale == Lakh || scale == Thousand)
    ensures HearAll(r, ScaleWords(count, scale))
         == r.(total := r.total + (if scale == Lakh then 100000 else 1000) * count)
  {
    if count > 0 {
      HearConcat(r, TwoWords(count), [scale]);
      HearTwo(r, count);
      HearOne(r.(group := count), scale);
    }
  }

  lemma Digits(n: nat)
    ensures n == 100000 * (n / 100000) + 1000 * (n % 100000 / 1000) + n % 1000
  {
    assert n % 100000 % 1000 == n % 1000;
  }

  lemma HearLower(r: Reading, n: nat)
    requires n < 10000000 && r.group == 0
    ensures var e := HearAll(r, LowerWords(n));
      e.rupees == r.rupees && e.total + e.group == r.total + n
  {
    var a, b, c := ScaleWords(n / 100000, Lakh), ScaleWords(n % 100000 / 1000, Thousand), UnitWords(n % 1000);
    HearConcat(r, a + b, c);
    HearConcat(r, a, b);
    HearScaled(r, n / 100000, Lakh);
    HearScaled(HearAll(r, a), n % 100000 / 1000, Thousand);
    if n % 1000 > 0 {
      HearThree(HearAll(HearAll(r, a), b), n % 1000);
    }
    Digits(n);
  }

  /** The words, heard from the start, count to n. */
  predicate Means(ws: seq<Word>, n: nat) {
    var e := HearAll(START, ws);
    e.rupees == None && e.total + e.group == n
  }

  lemma CroresAndBelow(high: seq<Word>, count: nat, n: nat)
    requires Means(high, count) && n < 10000000
    ensures Means(high + [Crore] + LowerWords(n), 10000000 * count + n)
  {
    HearConcat(START, high + [Crore], LowerWords(n));
    HearConcat(START, high, [Crore]);
    HearOne(HearAll(START, high), Crore);
    HearLower(Reading(None, 10000000 * count, 0), n);
  }

  lemma HearNothing(w: Word, r: Reading)
    requires w == Small(0) && r == START
    ensures HearAll(r, [w]) == r
  {
    HearOne(r, w);
  }

  lemma NothingMeansZero(ws: seq<Word>)
    requires HearAll(START, ws) == START
    ensures Means(ws, 0)
  {
  }

  lemma ZeroWords(n: nat, ws: seq<Word>)
    requires n == 0 && ws == NumberWords(n)
    ensures ws == [Small(0)]
  {
  }

  /** The three shapes of a number's words. */
  lemma NumberWordsAre(n: nat, ws: seq<Word>)
    requires ws == NumberWords(n)
    ensures n == 0 ==> ws == [Small(0)]
    ensures 0 < n < 10000000 ==> ws == LowerWords(n)
    ensures n >= 10000000 ==> ws == NumberWords(n / 10000000) + [Crore] + LowerWords(n % 10000000)
  {
  }

  lemma BelowCroreWords(n: nat, ws: seq<Word>, lower: seq<Word>)
    requires 0 < n < 10000000 && ws == NumberWords(n) && lower == LowerWords(n % 10000000)
    ensures ws == [] + lower
  {
    NumberWordsAre(n, ws);
  }

  lemma HearZeroNumber(n: nat, ws: seq<Word>)
    requires n == 0 && ws == NumberWords(n)
    ensures Means(ws, n)
  {
    ZeroWords(n, ws);
    HearNothing(ws[0], START);
    NothingMeansZero(ws);
  }

  lemma HearBelowCrore(n: nat, ws: seq<Word>)
    requires 0 < n < 10000000 && ws == NumberWords(n)
    ensures Means(ws, n)
  {
    NumberWordsAre(n, ws);
    HearLower(START, n);
  }

  lemma {:induction false} HearNumber(n: nat, ws: seq<Word>)
    requires ws == NumberWords(n)
    ensures Means(ws, n)
  {
    if n == 0 {
      HearZeroNumber(n, ws);
    } else if n < 10000000 {
      HearBelowCrore(n, ws);
    } else {
      var q, high := n / 10000000, NumberWords(n / 10000000);
      NumberWordsAre(n, ws);
      HearNumber(q, high);
      CroresAndBelow(high, q, n % 10000000);
    }
  }

  lemma HearPaise(r: Reading, rest: nat)
    requires rest < 100 && r.rupees == None
    ensures HearAll(r, PaiseWords(rest)).Value() == 100 * (r.total + r.group) + rest
  {
    if rest > 0 {
      HearConcat(r, [And] + TwoWords(rest), [Paise]);
      HearConcat(r, [And], TwoWords(rest));
      HearOne(r, And);
      HearTwo(Hear(r, And), rest);
      HearOne(HearAll(r, [And] + TwoWords(rest)), Paise);
    }
  }

  lemma HearSections(a: seq<Word>, b: seq<Word>, c: seq<Word>, d: seq<Word>)
    ensures HearAll(START, a + b + c + d) == HearAll(HearAll(HearAll(HearAll(START, a), b), c), d)
  {
    HearConcat(START, a + b + c, d);
    HearConcat(START, a + b, c);
    HearConcat(START, a, b);
  }

  lemma HearRupeesAndPaise(rupees: seq<Word>, n: nat, rest: nat)
    requires Means(rupees, n) && rest < 100
    ensures HearAll(START, [Rupees] + rupees + PaiseWords(rest) + [Only]).Value() == 100 * n + rest
  {
    HearSections([Rupees], rupees, PaiseWords(rest), [Only]);
    HearOne(START, Rupees);
    HearPaise(HearAll(START, rupees), rest);
    HearOne(HearAll(HearAll(START, rupees), PaiseWords(rest)), Only);
  }

  /** Reading an amount's words gives the amount back. */
  lemma HearAmount(paise: nat)
    ensures HearAll(START, AmountWords(paise)).Value() == paise
  {
    HearNumber(paise / 100, NumberWords(paise / 100));
    HearRupeesAndPaise(NumberWords(paise / 100), paise / 100, paise % 100);
  }

  // ----- Text: words joined by single spaces -----

  function Join(parts: seq<string>): string {
    if parts == [] then ""
    else if |parts| == 1 then parts[0]
    else Join(parts[..|parts| - 1]) + " " + parts[|parts| - 1]
  }

  lemma {:induction false} JoinConcat(a: seq<string>, b: seq<string>)
    requires a != [] && b != []
    ensures Join(a + b) == Join(a) + " " + Join(b)
  {
    var n := |b| - 1;
    assert (a + b)[..|a| + n] == a + b[..n];
    if n == 0 {
      assert a + b[..0] == a;
    } else {
      JoinConcat(a, b[..n]);
    }
  }

  function LastSpace(s: string): (k: int)
    ensures -1 <= k < |s|
  {
    if s == [] then -1
    else if s[|s| - 1] == ' ' then |s| - 1
    else LastSpace(s[..|s| - 1])
  }

  function SplitWords(s: string): seq<string> {
    var k := LastSpace(s);
    if k < 0 then [s] else SplitWords(s[..k]) + [s[k + 1..]]
  }

  lemma {:induction false} LastSpaceBeforeWord(a: string, w: string)
    requires Wordlike(w)
    ensures LastSpace(w) == -1
    ensures LastSpace(a + " " + w) == |a|
  {
    var n := |w| - 1;
    var s := a + " " + w;
    assert s[|s| - 1] == w[n] != ' ';
    assert s[..|s| - 1] == a + " " + w[..n];
    if n > 0 {
      LastSpaceBeforeWord(a, w[..n]);
    } else {
      assert w[..0] == "";
      assert (a + " " + "")[|a|] == ' ';
    }
  }

  lemma SplitLast(head: string, w: string)
    requires Wordlike(w)
    ensures SplitWords(w) == [w]
    ensures SplitWords(head + " " + w) == SplitWords(head) + [w]
  {
    LastSpaceBeforeWord(head, w);
    var s := head + " " + w;
    assert s[..|head|] == head && s[|head| + 1..] == w;
  }

  lemma JoinLast(heads: seq<string>, w: string)
    ensures Join(heads + [w]) == if heads == [] then w else Join(heads) + " " + w
  {
    assert (heads + [w])[..|heads|] == heads;
  }

  lemma SplitStep(heads: seq<string>, w: string)
    requires Wordlike(w) && (heads == [] || SplitWords(Join(heads)) == heads)
    ensures SplitWords(Join(heads + [w])) == heads + [w]
  {
    JoinLast(heads, w);
    SplitLast(Join(heads), w);
  }

  lemma {:induction false} SplitJoin(words: seq<string>)
    requires words != [] && forall i :: 0 <= i < |words| ==> Wordlike(words[i])
    ensures SplitWords(Join(words)) == words
  {
    var heads, last := words[..|words| - 1], words[|words| - 1];
    assert heads + [last] == words;
    if heads != [] {
      SplitJoin(heads);
    }
    SplitStep(heads, last);
  }

  function Spelled(ws: seq<Word>): (s: seq<string>)
    ensures |s| == |ws|
  {
    seq(|ws|, i requires 0 <= i < |ws| => Spell(ws[i]))
  }

  /** Reads a text word by word; a word outside the vocabulary makes it unreadable. */
  function ReadAll(parts: seq<string>): Option<seq<Word>> {
    if parts == [] then Some([])
    else
      var head, last := ReadAll(parts[..|parts| - 1]), Read(parts[|parts| - 1]);
      if head.Some? && last.Some? then Some(head.value + [last.value]) else None
  }

  predicate AllValid(ws: seq<Word>) {
    forall i :: 0 <= i < |ws| ==> ws[i].Valid()
  }

  lemma {:induction false} ReadSpelled(ws: seq<Word>)
    requires AllValid(ws)
    ensures ReadAll(Spelled(ws)) == Some(ws)
    ensures forall i :: 0 <= i < |ws| ==> Wordlike(Spelled(ws)[i])
  {
    if ws == [] {
      assert Spelled(ws) == [];
    } else {
      var n := |ws| - 1;
      ReadSpelled(ws[..n]);
      assert Spelled(ws)[..n] == Spelled(ws[..n]);
      SpellReads(ws[n]);
      assert ws[..n] + [ws[n]] == ws;
      forall i | 0 <= i < |ws| ensures Wordlike(Spelled(ws)[i]) {
        SpellReads(ws[i]);
      }
    }
  }

  lemma ValidConcat(a: seq<Word>, b: seq<Word>)
    requires AllValid(a) && AllValid(b)
    ensures AllValid(a + b)
  {
  }

  lemma LowerWordsValid(n: nat)
    requires n < 10000000
    ensures AllValid(LowerWords(n)) && (n > 0 ==> LowerWords(n) != [])
  {
    var a, b := ScaleWords(n / 100000, Lakh), ScaleWords(n % 100000 / 1000, Thousand);
    ValidConcat(a, b);
    assert AllValid(UnitWords(n % 1000));
    ValidConcat(a + b, UnitWords(n % 1000));
    Digits(n);
  }

  lemma CroresAndBelowValid(high: seq<Word>, low: seq<Word>)
    requires AllValid(high) && AllValid(low)
    ensures AllValid(high + [Crore] + low) && high + [Crore] + low != []
  {
    ValidConcat(high, [Crore]);
    ValidConcat(high + [Crore], low);
  }

  lemma {:induction false} NumberWordsValid(n: nat, ws: seq<Word>)
    requires ws == NumberWords(n)
    ensures AllValid(ws) && ws != []
  {
    NumberWordsAre(n, ws);
    if n == 0 {
      assert ws == [Small(0)];
    } else if n < 10000000 {
      LowerWordsValid(n);
    } else {
      var q, high, low := n / 10000000, NumberWords(n / 10000000), LowerWords(n % 10000000);
      NumberWordsValid(q, high);
      LowerWordsValid(n % 10000000);
      CroresAndBelowValid(high, low);
    }
  }

  lemma AmountWordsValid(paise: nat)
    ensures AllValid(AmountWords(paise)) && AmountWords(paise) != []
  {
    var rupees, rest := NumberWords(paise / 100), PaiseWords(paise % 100);
    NumberWordsValid(paise / 100, rupees);
    PaiseWordsValid(paise % 100);
    SectionsValid(rupees, rest);
  }

  lemma PaiseWordsValid(rest: nat)
    requires rest < 100
    ensures AllValid(PaiseWords(rest))
  {
  }

  lemma SectionsValid(rupees: seq<Word>, rest: seq<Word>)
    requires AllValid(rupees) && AllValid(rest)
    ensures AllValid([Rupees] + rupees + rest + [Only]) && [Rupees] + rupees + rest + [Only] != []
  {
    ValidConcat([Rupees], rupees);
    ValidConcat([Rupees] + rupees, rest);
    ValidConcat([Rupees] + rupees + rest, [Only]);
  }

  function ReadAmount(text: string): Option<nat> {
    var words := ReadAll(SplitWords(text));
    if words.Some? then Some(HearAll(START, words.value).Value()) else None
  }

  function AmountText(paise: nat): string {
    Join(Spelled(AmountWords(paise)))
  }

  /** Round trip: every amount printed in words reads back as itself, however many crores it has. */
  lemma AmountRoundTrip(paise: nat)
    ensures ReadAmount(AmountText(paise)) == Some(paise)
  {
    var ws := AmountWords(paise);
    AmountWordsValid(paise);
    ReadSpelled(ws);
    SplitJoin(Spelled(ws));
    HearAmount(paise);
  }

  lemma {:induction false} JoinStarts(parts: seq<string>)
    requires |parts| >= 2
    ensures |Join(parts)| > |parts[0]| && Join(parts)[..|parts[0]|] == parts[0]
  {
    var n := |parts| - 1;
    if n >= 2 {
      JoinStarts(parts[..n]);
    }
    var head := Join(parts[..n]);
    assert Join(parts) == head + " " + parts[n];
    assert Join(parts)[..|parts[0]|] == head[..|parts[0]|];
  }

  lemma TextFramed(parts: seq<string>, text: string)
    requires |parts| >= 3 && parts[0] == "Rupees" && parts[|parts| - 1] == "Only" && text == Join(parts)
    ensures |text| > 11 && text[..6] == "Rupees" && text[|text| - 5..] == " Only"
  {
    var head := Join(parts[..|parts| - 1]);
    JoinStarts(parts[..|parts| - 1]);
    assert text == head + " " + "Only";
  }

  lemma WordsFramed(rupees: seq<Word>, rest: seq<Word>, ws: seq<Word>)
    requires rupees != [] && ws == [Rupees] + rupees + rest + [Only]
    ensures |Spelled(ws)| >= 3 && Spelled(ws)[0] == "Rupees" && Spelled(ws)[|ws| - 1] == "Only"
  {
    assert ws[0] == Rupees && ws[|ws| - 1] == Only;
  }

  /** Every amount is printed between "Rupees" and "Only". */
  lemma AmountFramed(paise: nat)
    ensures var text := AmountText(paise);
      |text| > 11 && text[..6] == "Rupees" && text[|text| - 5..] == " Only"
  {
    var rupees := NumberWords(paise / 100);
    NumberWordsValid(paise / 100, rupees);
    WordsFramed(rupees, PaiseWords(paise % 100), AmountWords(paise));
    TextFramed(Spelled(AmountWords(paise)), AmountText(paise));
  }

  /** Two different amounts are never printed alike. */
  lemma AmountsPrintDistinctly(a: nat, b: nat)
    ensures AmountText(a) == AmountText(b) ==> a == b
  {
    AmountRoundTrip(a);
    AmountRoundTrip(b);
  }

  // ----- Printing -----

  lemma JoinGrows(parts: seq<string>, part: string, words: seq<Word>, more: seq<Word>)
    requires Join(parts) == Join(Spelled(words)) && (parts == [] <==> words == [])
    requires more != [] && part == Join(Spelled(more))
    ensures Join(parts + [part]) == Join(Spelled(words + more))
  {
    assert Spelled(words + more) == Spelled(words) + Spelled(more);
    if words == [] {
      assert parts + [part] == [part];
      assert Spelled(words) + Spelled(more) == Spelled(more);
    } else {
      JoinConcat(parts, [part]);
      JoinConcat(Spelled(words), Spelled(more));
    }
  }

  method PrintTwo(n: nat) returns (text: string)
    requires 0 < n < 100
    ensures text == Join(Spelled(TwoWords(n)))
  {
    if n < 20 {
      return SpellSmall(n);
    }
    text := SpellTen(n / 10);
    if n % 10 > 0 {
      JoinGrows([text], SpellSmall(n % 10), [Ten(n / 10)], [Small(n % 10)]);
      JoinConcat([text], [SpellSmall(n % 10)]);
      text := text + " " + SpellSmall(n % 10);
    }
  }

  method PrintThree(n: nat) returns (text: string)
    requires 0 < n < 1000
    ensures text == Join(Spelled(ThreeWords(n)))
  {
    var parts: seq<string> := [];
    ghost var words: seq<Word> := [];
    if n >= 100 {
      JoinConcat([SpellSmall(n / 100)], ["Hundred"]);
      assert Spelled([Small(n / 100), Hundred]) == [SpellSmall(n / 100)] + ["Hundred"];
      parts := [SpellSmall(n / 100) + " " + "Hundred"];
      words := [Small(n / 100), Hundred];
    }
    if n % 100 > 0 {
      var two := PrintTwo(n % 100);
      JoinGrows(parts, two, words, TwoWords(n % 100));
      parts := parts + [two];
      words := words + TwoWords(n % 100);
    }
    assert words == ThreeWords(n);
    text := Join(parts);
  }

  /** Appends a counted scale to the parts, when there is anything to count. */
  method AppendScale(given: seq<string>, count: nat, scale: Word, ghost before: seq<Word>) returns (parts: seq<string>)
    requires count < 100
    requires Join(given) == Join(Spelled(before)) && (given == [] <==> before == [])
    ensures Join(parts) == Join(Spelled(before + ScaleWords(count, scale)))
    ensures parts == [] <==> before + ScaleWords(count, scale) == []
  {
    parts := given;
    if count > 0 {
      var two := PrintTwo(count);
      assert Spelled(TwoWords(count) + [scale]) == Spelled(TwoWords(count)) + [Spell(scale)];
      JoinConcat(Spelled(TwoWords(count)), [Spell(scale)]);
      JoinGrows(parts, two + " " + Spell(scale), before, TwoWords(count) + [scale]);
      parts := parts + [two + " " + Spell(scale)];
    } else {
      assert before + [] == before;
    }
  }

  method AppendUnits(given: seq<string>, n: nat, ghost before: seq<Word>) returns (parts: seq<string>)
    requires n < 1000
    requires Join(given) == Join(Spelled(before)) && (given == [] <==> before == [])
    ensures Join(parts) == Join(Spelled(before + UnitWords(n)))
  {
    parts := given;
    if n > 0 {
      var part := PrintThree(n);
      JoinGrows(parts, part, before, ThreeWords(n));
      parts := parts + [part];
    } else {
      assert before + [] == before;
    }
  }

  method PrintLower(n: nat, given: seq<string>, ghost before: seq<Word>) returns (parts: seq<string>)
    requires n < 10000000
    requires Join(given) == Join(Spelled(before)) && (given == [] <==> before == [])
    ensures Join(parts) == Join(Spelled(before + LowerWords(n)))
  {
    ghost var lakhs := before + ScaleWords(n / 100000, Lakh);
    ghost var words := lakhs + ScaleWords(n % 100000 / 1000, Thousand);
    parts := AppendScale(given, n / 100000, Lakh, before);
    parts := AppendScale(parts, n % 100000 / 1000, Thousand, lakhs);
    parts := AppendUnits(parts, n % 1000, words);
    Regrouped(before, ScaleWords(n / 100000, Lakh), ScaleWords(n % 100000 / 1000, Thousand), UnitWords(n % 1000));
  }

  lemma Regrouped(a: seq<Word>, b: seq<Word>, c: seq<Word>, d: seq<Word>)
    ensures a + b + c + d == a + (b + c + d)
  {
  }

  /** The crore count printed by the same method, then its scale word. */
  method PrintCrores(n: nat) returns (text: string)
    requires n >= 10000000
    ensures text == Join(Spelled(NumberWords(n / 10000000) + [Crore]))
    decreases n, 0
  {
    text := PrintNumber(n / 10000000);
    NumberWordsValid(n / 10000000, NumberWords(n / 10000000));
    ghost var high := NumberWords(n / 10000000);
    assert Spelled(high + [Crore]) == Spelled(high) + ["Crore"];
    JoinConcat(Spelled(high), ["Crore"]);
    text := text + " " + "Crore";
  }

  lemma SpelledZero(ws: seq<Word>)
    requires ws == [Small(0)]
    ensures Join(Spelled(ws)) == "Zero"
  {
  }

  method PrintNumber(n: nat) returns (text: string)
    ensures text == Join(Spelled(NumberWords(n)))
    decreases n, 1
  {
    if n == 0 {
      ZeroWords(n, NumberWords(n));
      SpelledZero([Small(0)]);
      return "Zero";
    }
    var parts: seq<string> := [];
    ghost var words: seq<Word> := [];
    if n >= 10000000 {
      var crores := PrintCrores(n);
      words := NumberWords(n / 10000000) + [Crore];
      parts := [crores];
    }
    parts := PrintLower(n % 10000000, parts, words);
    if n < 10000000 {
      BelowCroreWords(n, NumberWords(n), LowerWords(n % 10000000));
    }
    text := Join(parts);
  }

  method PrintPaise(given: seq<string>, rest: nat, ghost before: seq<Word>) returns (parts: seq<string>)
    requires rest < 100 && before != [] && given != []
    requires Join(given) == Join(Spelled(before))
    ensures Join(parts) == Join(Spelled(before + PaiseWords(rest))) && parts != []
  {
    parts := given;
    if rest > 0 {
      var two := PrintTwo(rest);
      JoinGrows(parts, "and", before, [And]);
      JoinGrows(parts + ["and"], two, before + [And], TwoWords(rest));
      JoinGrows(parts + ["and"] + [two], "Paise", before + [And] + TwoWords(rest), [Paise]);
      Regrouped(before, [And], TwoWords(rest), [Paise]);
      parts := parts + ["and"] + [two] + ["Paise"];
    } else {
      assert before + [] == before;
    }
  }

  method PrintAmount(paise: nat) returns (text: string)
    ensures text == AmountText(paise)
  {
    var rupees := PrintNumber(paise / 100);
    NumberWordsValid(paise / 100, NumberWords(paise / 100));
    ghost var words := [Rupees] + NumberWords(paise / 100);
    JoinGrows(["Rupees"], rupees, [Rupees], NumberWords(paise / 100));
    var parts := PrintPaise(["Rupees"] + [rupees], paise % 100, words);
    JoinGrows(parts, "Only", words + PaiseWords(paise % 100), [Only]);
    text := Join(parts + ["Only"]);
  }
}
