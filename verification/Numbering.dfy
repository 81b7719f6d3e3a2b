/** Serial numbering of invoices and credit notes: one counter per series, documents issued
    under it, numbers burned by lost races, and the document report with its gaps. */
module Numbering {
  import opened Orders
  import opened Ordering

  datatype Serial = Serial(series: string, sequence: nat)

  /** What a document is issued for; a second document for the same source is refused. */
  datatype Source = InvoiceOf(order: nat) | NoteOfRefund(refund: nat) | NoteOfCancellation(order: nat)

  datatype Issued = Issued(source: Source, serial: Serial)

  /** The counter table, the issued documents, and (as history) the numbers burned by lost races. */
  datatype Register = Register(counters: map<string, nat>, docs: seq<Issued>, burned: seq<Serial>)

  const EMPTY := Register(map[], [], [])

  function Last(r: Register, series: string): nat {
    if series in r.counters then r.counters[series] else 0
  }

  predicate HasDocument(r: Register, source: Source) {
    exists i :: 0 <= i < |r.docs| && r.docs[i].source == source
  }

  /** One attempt to issue. `checkedEarly`: the existence check ran before a rival committed its own
      document. `rolledBack`: the surrounding transaction fails after the attempt. */
  datatype Attempt = Attempt(source: Source, series: string, checkedEarly: bool, rolledBack: bool)

  function Step(r: Register, a: Attempt): Register {
    var n := Last(r, a.series) + 1;
    var serial := Serial(a.series, n);
    if a.rolledBack then r
    else if !HasDocument(r, a.source) then
      Register(r.counters[a.series := n], r.docs + [Issued(a.source, serial)], r.burned)
    else if a.checkedEarly && a.source.InvoiceOf? then
      // The insert loses to the rival's document; only its own savepoint is undone.
      Register(r.counters[a.series := n], r.docs, r.burned + [serial])
    else r
  }

  function Run(r: Register, attempts: seq<Attempt>): Register {
    if attempts == [] then r else Step(Run(r, attempts[..|attempts| - 1]), attempts[|attempts| - 1])
  }

  // ----- The invariant of every run -----

  function DocumentsIn(docs: seq<Issued>, series: string): nat {
    if docs == [] then 0
    else DocumentsIn(docs[..|docs| - 1], series) + if docs[|docs| - 1].serial.series == series then 1 else 0
  }

  function BurnedIn(burned: seq<Serial>, series: string): nat {
    if burned == [] then 0
    else BurnedIn(burned[..|burned| - 1], series) + if burned[|burned| - 1].series == series then 1 else 0
  }

  predicate Used(r: Register, serial: Serial) {
    (exists i :: 0 <= i < |r.docs| && r.docs[i].serial == serial) || serial in r.burned
  }

  /** One document per source, every serial given out once, and each series used exactly up to its counter. */
  ghost predicate Sound(r: Register) {
    && (forall i, j :: 0 <= i < j < |r.docs| ==> r.docs[i].source != r.docs[j].source)
    && (forall i, j :: 0 <= i < j < |r.docs| ==> r.docs[i].serial != r.docs[j].serial)
    && (forall i, j :: 0 <= i < j < |r.burned| ==> r.burned[i] != r.burned[j])
    && (forall i :: 0 <= i < |r.docs| ==> r.docs[i].serial !in r.burned)
    && (forall serial :: Used(r, serial) <==> 1 <= serial.sequence <= Last(r, serial.series))
  }

  ghost predicate Counted(r: Register) {
    forall series :: Last(r, series) == DocumentsIn(r.docs, series) + BurnedIn(r.burned, series)
  }

  lemma IssueUses(r: Register, a: Attempt, serial: Serial)
    requires Step(r, a) != r
    ensures Used(Step(r, a), serial) <==> Used(r, serial) || serial == Serial(a.series, Last(r, a.series) + 1)
  {
    var t, n := Step(r, a), |r.docs|;
    if Used(r, serial) && serial !in r.burned {
      var i :| 0 <= i < n && r.docs[i].serial == serial;
      assert t.docs[i].serial == serial;
    }
    if |t.docs| > n {
      assert t.docs[n].serial == Serial(a.series, Last(r, a.series) + 1);
    }
  }

  lemma StepKeepsSound(r: Register, a: Attempt)
    requires Sound(r)
    ensures Sound(Step(r, a))
  {
    var t := Step(r, a);
    if t != r {
      var next := Serial(a.series, Last(r, a.series) + 1);
      assert !Used(r, next);
      forall serial ensures Used(t, serial) <==> 1 <= serial.sequence <= Last(t, serial.series) {
        IssueUses(r, a, serial);
        LastMoves(r, a, serial.series);
      }
      StepKeepsApart(r, a, next);
    }
  }

  lemma LastMoves(r: Register, a: Attempt, series: string)
    requires Step(r, a) != r
    ensures Last(Step(r, a), series) == Last(r, series) + if series == a.series then 1 else 0
  {
  }

  /** A new document or burned number differs from all before it. */
  lemma StepKeepsApart(r: Register, a: Attempt, next: Serial)
    requires Sound(r) && next == Serial(a.series, Last(r, a.series) + 1) && !Used(r, next)
    ensures var t := Step(r, a);
      && (forall i, j :: 0 <= i < j < |t.docs| ==> t.docs[i].source != t.docs[j].source)
      && (forall i, j :: 0 <= i < j < |t.docs| ==> t.docs[i].serial != t.docs[j].serial)
      && (forall i, j :: 0 <= i < j < |t.burned| ==> t.burned[i] != t.burned[j])
      && (forall i :: 0 <= i < |t.docs| ==> t.docs[i].serial !in t.burned)
  {
  }

  lemma StepKeepsCounted(r: Register, a: Attempt)
    requires Counted(r)
    ensures Counted(Step(r, a))
  {
    var t := Step(r, a);
    if t != r {
      forall series ensures Last(t, series) == DocumentsIn(t.docs, series) + BurnedIn(t.burned, series) {
        assert Last(r, series) == DocumentsIn(r.docs, series) + BurnedIn(r.burned, series);
        if |t.docs| > |r.docs| {
          assert t.docs[..|r.docs|] == r.docs;
        } else {
          assert t.burned[..|r.burned|] == r.burned;
        }
      }
    }
  }

  /** Serial numbering over any run of issues, rollbacks and lost races: one document per source, all
      serials distinct, and each counter equals the documents issued plus the numbers burned. */
  lemma {:induction false} RunIsSound(attempts: seq<Attempt>)
    ensures Sound(Run(EMPTY, attempts)) && Counted(Run(EMPTY, attempts))
  {
    if attempts != [] {
      var before := attempts[..|attempts| - 1];
      RunIsSound(before);
      StepKeepsSound(Run(EMPTY, before), attempts[|attempts| - 1]);
      StepKeepsCounted(Run(EMPTY, before), attempts[|attempts| - 1]);
    }
  }

  /** A run without lost races has no gap: a series' documents carry exactly 1 to its counter. */
  lemma NoRaceNoGap(attempts: seq<Attempt>, series: string, n: nat)
    requires forall i :: 0 <= i < |Run(EMPTY, attempts).burned| ==> Run(EMPTY, attempts).burned[i].series != series
    ensures var r := Run(EMPTY, attempts);
      (exists i :: 0 <= i < |r.docs| && r.docs[i].serial == Serial(series, n)) <==> 1 <= n <= Last(r, series)
  {
    RunIsSound(attempts);
    var r := Run(EMPTY, attempts);
    assert Used(r, Serial(series, n)) <==> 1 <= n <= Last(r, series);
  }

  /** Any number missing from a series below its counter was burned by a lost race, and no document has it. */
  lemma MissingMeansBurned(attempts: seq<Attempt>, serial: Serial)
    ensures var r := Run(EMPTY, attempts);
      serial in r.burned <==>
        && 1 <= serial.sequence <= Last(r, serial.series)
        && forall i :: 0 <= i < |r.docs| ==> r.docs[i].serial != serial
  {
    RunIsSound(attempts);
    var r := Run(EMPTY, attempts);
    assert Used(r, serial) <==> 1 <= serial.sequence <= Last(r, serial.series);
  }

  /** The counter rows and document tables as the service updates them. */
  class InvoiceBook {
    var counters: map<string, nat>
    var docs: seq<Issued>
    ghost var burned: seq<Serial>

    ghost function View(): Register
      reads this
    {
      Register(counters, docs, burned)
    }

    constructor ()
      ensures View() == EMPTY
    {
      counters, docs, burned := map[], [], [];
    }

    /** Takes the next number of a series, creating its counter row when it has none. */
    method AllocateNumber(series: string) returns (sequence: nat)
      modifies this`counters
      ensures sequence == Last(old(View()), series) + 1
      ensures counters == old(counters)[series := sequence]
    {
      if series !in counters {
        counters := counters[series := 0];
      }
      counters := counters[series := counters[series] + 1];
      sequence := counters[series];
    }

    method Find(source: Source) returns (found: bool)
      ensures found == HasDocument(View(), source)
    {
      found := false;
      for i := 0 to |docs|
        invariant found <==> exists j :: 0 <= j < i && docs[j].source == source
      {
        if docs[i].source == source {
          found := true;
        }
      }
    }

    /** Check, allocate, insert. A lost race keeps the rival's document and burns the number. */
    method Issue(a: Attempt)
      modifies this
      ensures View() == Step(old(View()), a)
    {
      var savedCounters, savedDocs := counters, docs;
      ghost var savedBurned := burned;
      var found := Find(a.source);
      if found && !a.checkedEarly {
        return;
      }
      var n := AllocateNumber(a.series);
      if !found {
        docs := docs + [Issued(a.source, Serial(a.series, n))];
      } else if a.source.InvoiceOf? {
        burned := burned + [Serial(a.series, n)];
      } else {
        counters := savedCounters;
      }
      if a.rolledBack {
        counters, docs, burned := savedCounters, savedDocs, savedBurned;
      }
    }
  }

  // ----- The document report -----

  /** How many of lo..hi are not among the listed sequences. */
  function MissingCount(lo: int, hi: int, listed: seq<nat>): nat
    decreases hi - lo
  {
    if hi < lo then 0 else MissingCount(lo, hi - 1, listed) + if hi in listed then 0 else 1
  }

  ghost predicate AllDistinct(s: seq<nat>) {
    forall i, j :: 0 <= i < j < |s| ==> s[i] != s[j]
  }

  lemma {:induction false} EverythingMissing(lo: int, hi: int)
    ensures MissingCount(lo, hi, []) == if hi < lo then 0 else hi - lo + 1
    decreases hi - lo
  {
    if lo <= hi {
      EverythingMissing(lo, hi - 1);
    }
  }

  lemma {:induction false} ListingOneMore(lo: int, hi: int, listed: seq<nat>, n: nat)
    requires n !in listed
    ensures MissingCount(lo, hi, listed + [n]) == MissingCount(lo, hi, listed) - if lo <= n <= hi then 1 else 0
    decreases hi - lo
  {
    if lo <= hi {
      ListingOneMore(lo, hi - 1, listed, n);
      assert hi in listed + [n] <==> hi in listed || hi == n;
    }
  }

  /** The arithmetic gap of a range is the count of sequences missing from it. */
  lemma {:induction false} GapCountsMissing(lo: int, hi: int, listed: seq<nat>)
    requires AllDistinct(listed) && lo <= hi
    requires forall i :: 0 <= i < |listed| ==> lo <= listed[i] <= hi
    ensures hi - lo + 1 - |listed| == MissingCount(lo, hi, listed)
  {
    if listed == [] {
      EverythingMissing(lo, hi);
    } else {
      var n := |listed| - 1;
      assert listed == listed[..n] + [listed[n]];
      GapCountsMissing(lo, hi, listed[..n]);
      ListingOneMore(lo, hi, listed[..n], listed[n]);
    }
  }

  datatype SeriesRange = SeriesRange(first: nat, last: nat, count: nat, gap: int)

  /** One series: its first and last number, its count, and its gap. */
  method RangeOf(listed: seq<nat>) returns (r: SeriesRange)
    requires listed != [] && AllDistinct(listed)
    ensures r.first in listed && r.last in listed && r.count == |listed|
    ensures forall i :: 0 <= i < |listed| ==> r.first <= listed[i] <= r.last
    ensures r.gap == MissingCount(r.first, r.last, listed)
  {
    var lo, hi := listed[0], listed[0];
    for i := 1 to |listed|
      invariant lo in listed && hi in listed
      invariant forall j :: 0 <= j < i ==> lo <= listed[j] <= hi
    {
      if listed[i] < lo {
        lo := listed[i];
      }
      if hi < listed[i] {
        hi := listed[i];
      }
    }
    GapCountsMissing(lo, hi, listed);
    r := SeriesRange(lo, hi, |listed|, hi - lo + 1 - |listed|);
  }

  /** One row of the report, with the range as printed. */
  datatype SeriesReport = SeriesReport(series: string, fromNumber: string, toNumber: string, count: nat, gap: int)

  /** The sequences of one series, in the order of its documents. */
  function Sequences(docs: seq<Serial>, series: string): seq<nat> {
    if docs == [] then []
    else
      var last := docs[|docs| - 1];
      Sequences(docs[..|docs| - 1], series) + if last.series == series then [last.sequence] else []
  }

  ghost predicate AllDifferent(docs: seq<Serial>) {
    forall i, j :: 0 <= i < j < |docs| ==> docs[i] != docs[j]
  }

  lemma {:induction false} SequencesAre(docs: seq<Serial>, series: string)
    ensures forall n: nat :: n in Sequences(docs, series) <==> Serial(series, n) in docs
    ensures AllDifferent(docs) ==> AllDistinct(Sequences(docs, series))
  {
    if docs != [] {
      var n := |docs| - 1;
      SequencesAre(docs[..n], series);
      assert docs == docs[..n] + [docs[n]];
      assert AllDifferent(docs) ==> docs[n] !in docs[..n];
      assert Serial(docs[n].series, docs[n].sequence) == docs[n];
    }
  }

  /** Each series that has documents, with their sequences; `keys` lists them once each. */
  ghost predicate Grouped(groups: map<string, seq<nat>>, keys: seq<string>, docs: seq<Serial>) {
    && (forall s :: s in groups <==> Sequences(docs, s) != [])
    && (forall s :: s in groups ==> groups[s] == Sequences(docs, s))
    && (forall s :: s in keys <==> s in groups)
    && (forall i, j :: 0 <= i < j < |keys| ==> keys[i] != keys[j])
  }

  lemma OneMoreSequence(docs: seq<Serial>, d: Serial, series: string)
    ensures Sequences(docs + [d], series) == Sequences(docs, series) + if d.series == series then [d.sequence] else []
  {
    assert (docs + [d])[..|docs|] == docs;
  }

  function Append(groups: map<string, seq<nat>>, d: Serial): map<string, seq<nat>> {
    groups[d.series := (if d.series in groups then groups[d.series] else []) + [d.sequence]]
  }

  function NextKeys(groups: map<string, seq<nat>>, keys: seq<string>, d: Serial): seq<string> {
    if d.series in groups then keys else keys + [d.series]
  }

  lemma AppendGroups(groups: map<string, seq<nat>>, keys: seq<string>, docs: seq<Serial>, d: Serial)
    requires Grouped(groups, keys, docs)
    ensures Grouped(Append(groups, d), NextKeys(groups, keys, d), docs + [d])
  {
    forall s ensures Sequences(docs + [d], s) == Sequences(docs, s) + if d.series == s then [d.sequence] else [] {
      OneMoreSequence(docs, d, s);
    }
  }

  lemma GroupsAt(groups: map<string, seq<nat>>, keys: seq<string>, docs: seq<Serial>, i: nat)
    requires i < |docs| && Grouped(groups, keys, docs[..i])
    ensures Grouped(Append(groups, docs[i]), NextKeys(groups, keys, docs[i]), docs[..i + 1])
  {
    AppendGroups(groups, keys, docs[..i], docs[i]);
    assert docs[..i + 1] == docs[..i] + [docs[i]];
  }

  /** The documents grouped by series, series in order of first appearance. */
  method GroupBySeries(docs: seq<Serial>) returns (groups: map<string, seq<nat>>, keys: seq<string>)
    ensures Grouped(groups, keys, docs)
  {
    groups, keys := map[], [];
    for i := 0 to |docs|
      invariant Grouped(groups, keys, docs[..i])
    {
      GroupsAt(groups, keys, docs, i);
      groups, keys := Append(groups, docs[i]), NextKeys(groups, keys, docs[i]);
    }
    assert docs[..|docs|] == docs;
  }

  function SeriesPlace(series: string): Place {
    Place(false, series, 0)
  }

  /** A row that reports exactly the documents of its series. */
  predicate Reports(r: SeriesReport, docs: seq<Serial>) {
    var listed := Sequences(docs, r.series);
    exists lo, hi :: lo in listed && hi in listed
      && (forall i :: 0 <= i < |listed| ==> lo <= listed[i] <= hi)
      && r.fromNumber == PrintedNumber(Serial(r.series, lo)) && r.toNumber == PrintedNumber(Serial(r.series, hi))
      && r.count == |listed| && r.gap == MissingCount(lo, hi, listed)
  }

  predicate Listed(out: seq<SeriesReport>, series: string) {
    exists i :: 0 <= i < |out| && out[i].series == series
  }

  /** The document report: one row per series that issued anything, series in order, each with its printed
      range, its count and the number of sequences missing from the range. */
  method DocumentsIssued(docs: seq<Serial>) returns (out: seq<SeriesReport>)
    requires AllDifferent(docs)
    ensures forall i :: 0 <= i < |out| ==> Reports(out[i], docs)
    ensures forall i, j :: 0 <= i < j < |out| ==> out[i].series != out[j].series && CodeLe(out[i].series, out[j].series)
    ensures forall k :: 0 <= k < |docs| ==> Listed(out, docs[k].series)
  {
    var groups, seen := GroupBySeries(docs);
    var keys := SortBy(seen, SeriesPlace);
    SortedKeysOfSeries(docs, seen, keys);
    out := ReportSeries(docs, groups, keys);
    ReportIsComplete(docs, keys, out);
  }

  lemma SortedKeysOfSeries(docs: seq<Serial>, seen: seq<string>, keys: seq<string>)
    requires keys == SortBy(seen, SeriesPlace) && forall i, j :: 0 <= i < j < |seen| ==> seen[i] != seen[j]
    requires forall s :: s in seen <==> Sequences(docs, s) != []
    ensures Sorted(keys, SeriesPlace) && forall i, j :: 0 <= i < j < |keys| ==> keys[i] != keys[j]
    ensures forall s :: s in keys <==> Sequences(docs, s) != []
    ensures forall i :: 0 <= i < |keys| ==> Sequences(docs, keys[i]) != []
  {
    SortByIsSorting(seen, SeriesPlace);
    SortedStaysDistinct(keys, seen);
    forall i | 0 <= i < |keys| ensures Sequences(docs, keys[i]) != [] {
      assert keys[i] in keys;
    }
  }

  lemma ReportIsComplete(docs: seq<Serial>, keys: seq<string>, out: seq<SeriesReport>)
    requires |out| == |keys| && forall i :: 0 <= i < |out| ==> out[i].series == keys[i]
    requires Sorted(keys, SeriesPlace) && forall s :: s in keys <==> Sequences(docs, s) != []
    ensures forall i, j :: 0 <= i < j < |out| ==> CodeLe(out[i].series, out[j].series)
    ensures forall k :: 0 <= k < |docs| ==> Listed(out, docs[k].series)
  {
    forall i, j | 0 <= i < j < |out| ensures CodeLe(out[i].series, out[j].series) {
      SortedSeries(keys, i, j);
    }
    forall k | 0 <= k < |docs| ensures Listed(out, docs[k].series) {
      EverySeriesListed(docs, docs[k], keys);
      var i :| 0 <= i < |keys| && keys[i] == docs[k].series;
      assert out[i].series == docs[k].series;
    }
  }

  method ReportSeries(docs: seq<Serial>, groups: map<string, seq<nat>>, keys: seq<string>)
    returns (out: seq<SeriesReport>)
    requires AllDifferent(docs) && forall s :: s in groups ==> groups[s] == Sequences(docs, s)
    requires forall i :: 0 <= i < |keys| ==> keys[i] in groups && Sequences(docs, keys[i]) != []
    ensures |out| == |keys| && forall i :: 0 <= i < |out| ==> out[i].series == keys[i] && Reports(out[i], docs)
  {
    out := [];
    for i := 0 to |keys|
      invariant |out| == i && forall j :: 0 <= j < i ==> out[j].series == keys[j] && Reports(out[j], docs)
    {
      var listed := groups[keys[i]];
      SequencesAre(docs, keys[i]);
      var r := RangeOf(listed);
      var row := SeriesReport(keys[i], PrintedNumber(Serial(keys[i], r.first)), PrintedNumber(Serial(keys[i], r.last)),
                              r.count, r.gap);
      assert Reports(row, docs);
      out := out + [row];
    }
  }

  lemma SortedSeries(keys: seq<string>, i: nat, j: nat)
    requires i < j < |keys| && Sorted(keys, SeriesPlace)
    ensures CodeLe(keys[i], keys[j])
  {
    assert PlaceLe(SeriesPlace(keys[i]), SeriesPlace(keys[j]));
    CodeTotal(keys[i], keys[i]);
  }

  lemma EverySeriesListed(docs: seq<Serial>, d: Serial, keys: seq<string>)
    requires d in docs && forall s :: s in keys <==> Sequences(docs, s) != []
    ensures d.series in keys
  {
    SequencesAre(docs, d.series);
    assert Serial(d.series, d.sequence) == d;
    assert d.sequence in Sequences(docs, d.series);
  }

  // ----- Printed numbers -----

  function Digit(d: nat): char
    requires d < 10
  {
    "0123456789"[d]
  }

  function DigitValue(c: char): nat {
    if '0' <= c <= '9' then (c - '0') as int else 0
  }

  lemma DigitReads(d: nat)
    requires d < 10
    ensures DigitValue(Digit(d)) == d && Digit(d) != '/'
  {
  }

  function Decimal(n: nat): string {
    if n < 10 then [Digit(n)] else Decimal(n / 10) + [Digit(n % 10)]
  }

  function Zeros(k: nat): string {
    seq(k, i => '0')
  }

  /** At least six digits, zero-filled. */
  function SixDigits(n: nat): string {
    var s := Decimal(n);
    if |s| < 6 then Zeros(6 - |s|) + s else s
  }

  function PrintedNumber(s: Serial): string {
    s.series + "/" + SixDigits(s.sequence)
  }

  function ReadDecimal(s: string): nat {
    if s == [] then 0 else 10 * ReadDecimal(s[..|s| - 1]) + DigitValue(s[|s| - 1])
  }

  lemma {:induction false} DecimalReads(n: nat, k: nat)
    ensures ReadDecimal(Zeros(k) + Decimal(n)) == n
    ensures '/' !in Zeros(k) + Decimal(n)
  {
    var s := Zeros(k) + Decimal(n);
    if n < 10 {
      DigitReads(n);
      assert s[..|s| - 1] == Zeros(k);
      ZerosRead(k);
    } else {
      DigitReads(n % 10);
      DecimalReads(n / 10, k);
      assert s[..|s| - 1] == Zeros(k) + Decimal(n / 10);
      assert s == s[..|s| - 1] + [Digit(n % 10)];
    }
  }

  lemma {:induction false} ZerosRead(k: nat)
    ensures ReadDecimal(Zeros(k)) == 0
  {
    if k > 0 {
      assert Zeros(k)[..k - 1] == Zeros(k - 1);
      ZerosRead(k - 1);
    }
  }

  lemma SixDigitsRead(n: nat)
    ensures ReadDecimal(SixDigits(n)) == n && '/' !in SixDigits(n)
  {
    var s := Decimal(n);
    var k := if |s| < 6 then 6 - |s| else 0;
    assert SixDigits(n) == Zeros(k) + s;
    DecimalReads(n, k);
  }

  lemma SlashNotLater(a: string, p: string, b: string, q: string)
    requires a + "/" + p == b + "/" + q && '/' !in p
    ensures |b| <= |a|
  {
    var s := a + "/" + p;
    assert forall i :: |a| < i < |s| ==> s[i] == p[i - |a| - 1];
    assert (b + "/" + q)[|b|] == '/';
  }

  lemma SplitAtLastSlash(a: string, p: string, b: string, q: string)
    requires a + "/" + p == b + "/" + q && '/' !in p && '/' !in q
    ensures a == b && p == q
  {
    SlashNotLater(a, p, b, q);
    SlashNotLater(b, q, a, p);
    var s, t := a + "/" + p, b + "/" + q;
    assert s[..|a|] == a && t[..|b|] == b;
    assert s[|a| + 1..] == p && t[|b| + 1..] == q;
  }

  /** Printed numbers are distinct: two serials print alike only if they are the same serial. */
  lemma NumbersPrintDistinctly(s: Serial, t: Serial)
    ensures PrintedNumber(s) == PrintedNumber(t) ==> s == t
  {
    SixDigitsRead(s.sequence);
    SixDigitsRead(t.sequence);
    if PrintedNumber(s) == PrintedNumber(t) {
      SplitAtLastSlash(s.series, SixDigits(s.sequence), t.series, SixDigits(t.sequence));
    }
  }

  // ----- Series and the sixteen-character rule -----

  function TwoDigits(n: nat): string
    requires n < 100
  {
    [Digit(n / 10), Digit(n % 10)]
  }

  /** First calendar year of the April-to-March financial year holding a date. */
  function FinancialYearStart(year: nat, month: nat): int {
    if month >= 4 then year else year - 1
  }

  function FinancialYearLabel(year: nat, month: nat): string {
    var start := FinancialYearStart(year, month);
    TwoDigits(start % 100) + "-" + TwoDigits((start + 1) % 100)
  }

  function InvoiceSeries(prefix: string, year: nat, month: nat): string {
    (if |prefix| > 3 then prefix[..3] else prefix) + "/" + FinancialYearLabel(year, month)
  }

  lemma TwoDigitsDistinct(a: nat, b: nat)
    requires a < 100 && b < 100
    ensures TwoDigits(a) == TwoDigits(b) ==> a == b
  {
    DigitReads(a / 10);
    DigitReads(b / 10);
    DigitReads(a % 10);
    DigitReads(b % 10);
    if TwoDigits(a) == TwoDigits(b) {
      assert TwoDigits(a)[0] == TwoDigits(b)[0] && TwoDigits(a)[1] == TwoDigits(b)[1];
    }
  }

  lemma LabelTellsYear(head: string, a: nat, b: nat, x: string, y: string)
    requires a < 100 && b < 100 && head + TwoDigits(a) + x == head + TwoDigits(b) + y
    ensures a == b
  {
    var s, t := head + TwoDigits(a) + x, head + TwoDigits(b) + y;
    assert s[|head|..|head| + 2] == TwoDigits(a) && t[|head|..|head| + 2] == TwoDigits(b);
    TwoDigitsDistinct(a, b);
  }

  lemma SeriesShape(prefix: string, year: nat, month: nat, head: string, start: int)
    requires head == (if |prefix| > 3 then prefix[..3] else prefix) + "/"
    requires start == FinancialYearStart(year, month)
    ensures InvoiceSeries(prefix, year, month)
         == head + TwoDigits(start % 100) + ("-" + TwoDigits((start + 1) % 100))
  {
  }

  lemma NextYear(a: int, b: int)
    requires a % 100 == b % 100
    ensures (a + 1) % 100 == (b + 1) % 100
  {
  }

  /** Two dates share a series exactly when their financial years agree modulo a century. */
  lemma SeriesPerFinancialYear(prefix: string, y: nat, m: nat, z: nat, k: nat)
    ensures InvoiceSeries(prefix, y, m) == InvoiceSeries(prefix, z, k)
       <==> FinancialYearStart(y, m) % 100 == FinancialYearStart(z, k) % 100
  {
    var a, b := FinancialYearStart(y, m), FinancialYearStart(z, k);
    var head := (if |prefix| > 3 then prefix[..3] else prefix) + "/";
    SeriesShape(prefix, y, m, head, a);
    SeriesShape(prefix, z, k, head, b);
    if InvoiceSeries(prefix, y, m) == InvoiceSeries(prefix, z, k) {
      LabelTellsYear(head, a % 100, b % 100, "-" + TwoDigits((a + 1) % 100), "-" + TwoDigits((b + 1) % 100));
    }
    if a % 100 == b % 100 {
      NextYear(a, b);
    }
  }

  /** Months since the April of year 0; twelve of them from one April on make a financial year. */
  function MonthsSinceApril(year: nat, month: nat): int {
    12 * year + month - 4
  }

  lemma YearsFromApril(year: nat, month: nat)
    requires 1 <= month <= 12
    ensures 12 * FinancialYearStart(year, month) <= MonthsSinceApril(year, month)
      < 12 * FinancialYearStart(year, month) + 12
  {
  }

  lemma TwoDigitsRead(n: nat)
    requires n < 100
    ensures ReadDecimal(TwoDigits(n)) == n
  {
    DigitReads(n / 10);
    DigitReads(n % 10);
    var s := TwoDigits(n);
    assert s[..1] == [Digit(n / 10)] && s[..1][..0] == [];
    assert ReadDecimal(s[..1]) == n / 10;
  }

  /** The series of a date names its prefix, cut to three letters, and the last two digits of the years that the
      April before it and the April after it fall in. */
  lemma SeriesNamesYear(prefix: string, year: nat, month: nat, start: int)
    requires 1 <= month <= 12 && 12 * start <= MonthsSinceApril(year, month) < 12 * start + 12
    ensures var series, n := InvoiceSeries(prefix, year, month), if |prefix| > 3 then 3 else |prefix|;
      && |series| == n + 6 && series[..n] == prefix[..n] && series[n] == '/' && series[n + 3] == '-'
      && ReadDecimal(series[n + 1..n + 3]) == start % 100 && ReadDecimal(series[n + 4..]) == (start + 1) % 100
  {
    YearsFromApril(year, month);
    var n := if |prefix| > 3 then 3 else |prefix|;
    var a, b := TwoDigits(start % 100), TwoDigits((start + 1) % 100);
    TwoDigitsRead(start % 100);
    TwoDigitsRead((start + 1) % 100);
    assert prefix[..|prefix|] == prefix;
    SeriesShape(prefix, year, month, prefix[..n] + "/", start);
    var series := prefix[..n] + "/" + a + ("-" + b);
    assert series[n + 1..n + 3] == a && series[n + 4..] == b;
  }

  /** Two dates less than a century apart share a series exactly when no first of April lies between them. */
  lemma SeriesTurnsInApril(prefix: string, y: nat, m: nat, z: nat, k: nat)
    requires 1 <= m <= 12 && 1 <= k <= 12
    requires var a, b := MonthsSinceApril(y, m), MonthsSinceApril(z, k); a <= b < a + 1188
    ensures InvoiceSeries(prefix, y, m) == InvoiceSeries(prefix, z, k) <==>
      forall april: int :: !(MonthsSinceApril(y, m) < 12 * april <= MonthsSinceApril(z, k))
  {
    var a, b := FinancialYearStart(y, m), FinancialYearStart(z, k);
    YearsFromApril(y, m);
    YearsFromApril(z, k);
    SeriesPerFinancialYear(prefix, y, m, z, k);
    CloseYears(a, b);
    if a < b {
      assert MonthsSinceApril(y, m) < 12 * b <= MonthsSinceApril(z, k);
    }
  }

  lemma CloseYears(a: int, b: int)
    requires a <= b <= a + 99
    ensures a % 100 == b % 100 <==> a == b
  {
  }

  function Power10(k: nat): nat {
    if k == 0 then 1 else 10 * Power10(k - 1)
  }

  lemma {:induction false} DecimalLength(n: nat, k: nat)
    requires k >= 1
    ensures |Decimal(n)| <= k <==> n < Power10(k)
    decreases n
  {
    if n >= 10 && k > 1 {
      DecimalLength(n / 10, k - 1);
    } else if n < 10 {
      PowersGrow(k);
    }
  }

  lemma {:induction false} PowersGrow(k: nat)
    requires k >= 1
    ensures Power10(k) >= 10
  {
    if k > 1 {
      PowersGrow(k - 1);
    }
  }

  /** A document number with a full three-letter prefix keeps to sixteen characters exactly up to
      number 999999 of its series; a two-letter prefix buys one more digit. */
  lemma NumberLength(prefix: string, year: nat, month: nat, n: nat)
    ensures |prefix| >= 3 ==>
      (|PrintedNumber(Serial(InvoiceSeries(prefix, year, month), n))| <= 16 <==> n < 1000000)
    ensures |prefix| == 2 ==>
      (|PrintedNumber(Serial(InvoiceSeries(prefix, year, month), n))| <= 16 <==> n < 10000000)
  {
    DecimalLength(n, 6);
    DecimalLength(n, 7);
    assert Power10(6) == 10 * 10 * 10 * 10 * Power10(2);
    assert Power10(7) == 10 * Power10(6);
    assert |FinancialYearLabel(year, month)| == 5;
  }
}
