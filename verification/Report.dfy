/** The monitor's statistics report (src/monitoring.cpp:11-17, 52-60). */
module Report {

  /** A named value, as one line of the report shows it. */
  datatype Entry = Entry(name: string, value: int)

  // ---------- decimal numbers ----------

  function Digit(d: nat): char
    requires d < 10
  {
    ['0', '1', '2', '3', '4', '5', '6', '7', '8', '9'][d]
  }

  function DigitValue(c: char): nat {
    if '0' <= c <= '9' then c as int - '0' as int else 0
  }

  function NatText(n: nat): (s: string)
    ensures s != []
    ensures forall i :: 0 <= i < |s| ==> '0' <= s[i] <= '9'
    ensures s[0] == '0' ==> n == 0 && |s| == 1
  {
    if n < 10 then [Digit(n)] else NatText(n / 10) + [Digit(n % 10)]
  }

  /** int64_to_string. */
  function Text(v: int): string {
    if v < 0 then "-" + NatText(-v) else NatText(v)
  }

  function NatOf(s: string): nat {
    if s == [] then 0 else 10 * NatOf(s[..|s| - 1]) + DigitValue(s[|s| - 1])
  }

  function NumberOf(s: string): int {
    if s != [] && s[0] == '-' then 0 - NatOf(s[1..]) as int else NatOf(s) as int
  }

  lemma {:induction false} NatOfText(n: nat)
    ensures NatOf(NatText(n)) == n
  {
    if n >= 10 {
      NatOfText(n / 10);
      var s := NatText(n);
      assert s[..|s| - 1] == NatText(n / 10);
    } else {
      assert NatText(n)[..0] == [];
    }
  }

  /** Reading back a printed number gives the number. */
  lemma NumberOfText(v: int)
    ensures NumberOf(Text(v)) == v
  {
    hide NatText, NatOf;
    if v < 0 {
      NatOfText(-v);
      assert Text(v)[1..] == NatText(-v);
    } else {
      NatOfText(v);
      StartsWithDigit(v);
    }
  }

  lemma StartsWithDigit(n: nat)
    ensures NatText(n) != [] && NatText(n)[0] != '-'
  {
  }

  ghost predicate Free(s: string, c: char) {
    forall i :: 0 <= i < |s| ==> s[i] != c
  }

  lemma TextIsPlain(v: int)
    ensures Free(Text(v), '\n') && Free(Text(v), ' ')
  {
  }

  // ---------- the report ----------

  function Line(tag: string, e: Entry): string {
    tag + e.name + ": " + Text(e.value) + "\n"
  }

  function Lines(tag: string, es: seq<Entry>): string {
    if es == [] then "" else Line(tag, es[0]) + Lines(tag, es[1..])
  }

  function Body(sems: seq<Entry>, atomics: seq<Entry>): string {
    Lines("sem ", sems) + Lines("atomic ", atomics)
  }

  function Statistics(start: int, status: string, counter: int, sems: seq<Entry>, atomics: seq<Entry>): string {
    Text(start) + "\n" + (status + "\n" + (Text(counter) + "\n" + ("\n" + Body(sems, atomics))))
  }

  /** What one report shows. */
  datatype Snapshot = Snapshot(start: int, status: string, counter: int, sems: seq<Entry>, atomics: seq<Entry>)

  function TextOf(r: Snapshot): string {
    Statistics(r.start, r.status, r.counter, r.sems, r.atomics)
  }

  // ---------- reading a report ----------

  /** The text before the first newline. */
  function LineOf(t: string): (l: string)
    ensures |l| <= |t|
  {
    if t == "" || t[0] == '\n' then "" else [t[0]] + LineOf(t[1..])
  }

  /** The text after the first newline. */
  function RestOf(t: string): (r: string)
    ensures t != "" ==> |r| < |t|
  {
    if |LineOf(t)| < |t| then t[|LineOf(t)| + 1..] else ""
  }

  /** Where the last blank of `l` is. */
  function LastBlank(l: string): (j: nat)
    ensures j <= |l|
  {
    if l == "" || l[|l| - 1] == ' ' then if l == "" then 0 else |l| - 1 else LastBlank(l[..|l| - 1])
  }

  /** "<tag><name>: <value>". */
  function EntryOf(tag: string, l: string): Entry {
    var j := LastBlank(l);
    if |tag| < j < |l| then Entry(l[|tag|..j - 1], NumberOf(l[j + 1..])) else Entry("", 0)
  }

  /** The lines that begin with `tag`, in order. */
  function EntriesOf(tag: string, t: string): seq<Entry>
    decreases |t|
  {
    if t == "" then []
    else
      var l := LineOf(t);
      (if tag <= l then [EntryOf(tag, l)] else []) + EntriesOf(tag, RestOf(t))
  }

  datatype Reading = Garbled | Read(snapshot: Snapshot)

  /** A client's reader: the start time in the first line, `n` status bytes and
      a newline, the request counter in the next line, an empty line, and then
      one line for each semaphore and atomic integer. */
  function ReadReport(t: string, n: nat): Reading {
    var afterStart := RestOf(t);
    if |afterStart| <= n || afterStart[n] != '\n' then Garbled
    else
      var afterStatus := afterStart[n + 1..];
      var afterCounter := RestOf(afterStatus);
      if afterCounter == "" || afterCounter[0] != '\n' then Garbled
      else
        var body := afterCounter[1..];
        Read(Snapshot(NumberOf(LineOf(t)), afterStart[..n], NumberOf(LineOf(afterStatus)),
                      EntriesOf("sem ", body), EntriesOf("atomic ", body)))
  }

  ghost predicate NamesPlain(es: seq<Entry>) {
    forall i :: 0 <= i < |es| ==> Free(es[i].name, '\n')
  }

  lemma {:induction false} LineEnds(l: string, x: string)
    requires Free(l, '\n')
    ensures LineOf(l + "\n" + x) == l && RestOf(l + "\n" + x) == x
    decreases |l|
  {
    var t := l + "\n" + x;
    if l != "" {
      LineEnds(l[1..], x);
      assert t[1..] == l[1..] + "\n" + x;
      assert t[0] == l[0] != '\n';
      assert LineOf(t) == [l[0]] + l[1..] == l;
    }
    assert t[|l| + 1..] == x;
  }

  lemma {:induction false} BlankBefore(h: string, x: string)
    requires Free(x, ' ')
    ensures LastBlank(h + " " + x) == |h|
    decreases |x|
  {
    var l := h + " " + x;
    if x != "" {
      BlankBefore(h, x[..|x| - 1]);
      assert l[..|l| - 1] == h + " " + x[..|x| - 1];
      assert l[|l| - 1] == x[|x| - 1];
    }
  }

  /** A line reads as the entry it was written for. */
  lemma EntryReadsBack(tag: string, e: Entry)
    ensures EntryOf(tag, tag + e.name + ": " + Text(e.value)) == e
  {
    hide Text, NumberOf, LastBlank;
    var h, l := tag + e.name + ":", tag + e.name + ": " + Text(e.value);
    TextIsPlain(e.value);
    assert l == h + " " + Text(e.value);
    BlankBefore(h, Text(e.value));
    NumberOfText(e.value);
    TextNotEmpty(e.value);
    assert l[|h| + 1..] == Text(e.value);
    assert l[|tag|..|h| - 1] == e.name;
  }

  lemma TextNotEmpty(v: int)
    ensures Text(v) != ""
  {
  }

  lemma OtherTag(tag: string, other: string, x: string)
    requires IsTag(tag) && IsTag(other) && other <= tag + x
    ensures other == tag
  {
    assert (tag + x)[0] == tag[0];
  }

  /** The first line reads as its entry, under its own tag only. */
  lemma LineReadsBack(tag: string, e: Entry, rest: string, wanted: string)
    requires IsTag(tag) && IsTag(wanted) && Free(e.name, '\n')
    ensures EntriesOf(wanted, Line(tag, e) + rest) == (if wanted == tag then [e] else []) + EntriesOf(wanted, rest)
  {
    hide Text, EntryOf, LineOf, RestOf;
    var x := e.name + ": " + Text(e.value);
    var l, t := tag + e.name + ": " + Text(e.value), Line(tag, e) + rest;
    assert l == tag + x && tag <= l;
    assert t == l + "\n" + rest;
    TextIsPlain(e.value);
    LineEnds(l, rest);
    EntryReadsBack(tag, e);
    if wanted <= l { OtherTag(tag, wanted, x); }
  }

  /** A block of lines reads as its entries, under its own tag only. */
  lemma {:induction false} LinesReadBack(tag: string, es: seq<Entry>, rest: string, wanted: string)
    requires IsTag(tag) && IsTag(wanted) && NamesPlain(es)
    ensures EntriesOf(wanted, Lines(tag, es) + rest) == (if wanted == tag then es else []) + EntriesOf(wanted, rest)
    decreases |es|
  {
    hide Line, EntriesOf, IsTag, Free;
    if es == [] {
      assert Lines(tag, es) + rest == rest;
    } else {
      var more := Lines(tag, es[1..]) + rest;
      assert Lines(tag, es) + rest == Line(tag, es[0]) + more;
      LineReadsBack(tag, es[0], more, wanted);
      LinesReadBack(tag, es[1..], rest, wanted);
      var tail := EntriesOf(wanted, rest);
      if wanted == tag {
        assert [es[0]] + (es[1..] + tail) == es + tail;
      } else {
        assert [] + ([] + tail) == [] + tail;
      }
    }
  }

  lemma BodyReadsBack(sems: seq<Entry>, atomics: seq<Entry>)
    requires NamesPlain(sems) && NamesPlain(atomics)
    ensures EntriesOf("sem ", Body(sems, atomics)) == sems
    ensures EntriesOf("atomic ", Body(sems, atomics)) == atomics
  {
    BlocksReadBack("sem ", sems, "atomic ", atomics);
  }

  /** Two blocks under different tags. */
  lemma BlocksReadBack(first: string, es: seq<Entry>, second: string, fs: seq<Entry>)
    requires IsTag(first) && IsTag(second) && first != second && NamesPlain(es) && NamesPlain(fs)
    ensures EntriesOf(first, Lines(first, es) + Lines(second, fs)) == es
    ensures EntriesOf(second, Lines(first, es) + Lines(second, fs)) == fs
  {
    hide Lines, IsTag, NamesPlain, EntriesOf;
    LinesReadBack(first, es, Lines(second, fs), first);
    LinesReadBack(first, es, Lines(second, fs), second);
    LinesReadBack(second, fs, "", first);
    LinesReadBack(second, fs, "", second);
    assert Lines(second, fs) + "" == Lines(second, fs);
    NoEntries(first);
    NoEntries(second);
  }

  lemma NoEntries(tag: string)
    ensures EntriesOf(tag, "") == []
  {
  }

  /** What the report says is what was reported: the reader gets back every
      argument, whatever the status bytes, for newline-free names. */
  lemma ReadBack(r: Snapshot)
    requires NamesPlain(r.sems) && NamesPlain(r.atomics)
    ensures ReadReport(TextOf(r), |r.status|) == Read(r)
  {
    hide Text, NumberOf, LineOf, RestOf, EntriesOf, Body;
    var body := Body(r.sems, r.atomics);
    var afterCounter := "\n" + body;
    var afterStatus := Text(r.counter) + "\n" + afterCounter;
    var afterStart := r.status + "\n" + afterStatus;
    TextIsPlain(r.start);
    LineEnds(Text(r.start), afterStart);
    NumberOfText(r.start);
    assert afterStart[..|r.status|] == r.status && afterStart[|r.status| + 1..] == afterStatus;
    TextIsPlain(r.counter);
    LineEnds(Text(r.counter), afterCounter);
    NumberOfText(r.counter);
    assert afterCounter[1..] == body;
    BodyReadsBack(r.sems, r.atomics);
  }

  // ---------- building a report ----------

  lemma {:induction false} LinesGrow(tag: string, es: seq<Entry>, i: nat)
    requires i < |es|
    ensures Lines(tag, es[..i + 1]) == Lines(tag, es[..i]) + Line(tag, es[i])
  {
    hide Line;
    if i == 0 {
      assert es[..1] == [es[0]];
    } else {
      LinesGrow(tag, es[1..], i - 1);
      assert es[..i + 1][1..] == es[1..][..i] && es[..i][1..] == es[1..][..i - 1];
    }
  }

  /** HandleClient's string building. */
  method BuildReport(start: int, status: string, counter: int, sems: seq<Entry>, atomics: seq<Entry>)
    returns (statdata: string)
    ensures statdata == Statistics(start, status, counter, sems, atomics)
    ensures NamesPlain(sems) && NamesPlain(atomics) ==>
      ReadReport(statdata, |status|) == Read(Snapshot(start, status, counter, sems, atomics))
  {
    hide Line, Text, ReadReport, NamesPlain;
    statdata := Text(start) + "\n";
    statdata := statdata + (status + "\n");
    statdata := statdata + (Text(counter) + "\n");
    statdata := statdata + "\n";
    ghost var head := statdata;
    for i := 0 to |sems|
      invariant statdata == head + Lines("sem ", sems[..i])
    {
      LinesGrow("sem ", sems, i);
      statdata := statdata + Line("sem ", sems[i]);
    }
    assert sems[..|sems|] == sems;
    ghost var middle := statdata;
    for i := 0 to |atomics|
      invariant statdata == middle + Lines("atomic ", atomics[..i])
    {
      LinesGrow("atomic ", atomics, i);
      statdata := statdata + Line("atomic ", atomics[i]);
    }
    assert atomics[..|atomics|] == atomics;
    StatisticsReadBack(start, status, counter, sems, atomics);
  }

  lemma StatisticsReadBack(start: int, status: string, counter: int, sems: seq<Entry>, atomics: seq<Entry>)
    ensures NamesPlain(sems) && NamesPlain(atomics) ==>
      ReadReport(Statistics(start, status, counter, sems, atomics), |status|)
      == Read(Snapshot(start, status, counter, sems, atomics))
  {
    hide NamesPlain, ReadReport, Statistics;
    if NamesPlain(sems) && NamesPlain(atomics) { ReadBack(Snapshot(start, status, counter, sems, atomics)); }
  }

  // ---------- the report is unambiguous ----------

  /** Text up to the first occurrence of `c` is determined, and so is the rest. */
  lemma SplitFirst(a: string, x: string, b: string, y: string, c: char)
    requires Free(a, c) && Free(b, c) && a + [c] + x == b + [c] + y
    ensures a == b && x == y
  {
    var s := a + [c] + x;
    assert s[|a|] == c && s[|b|] == c;
    assert forall i :: 0 <= i < |a| ==> s[i] == a[i];
    assert forall i :: 0 <= i < |b| ==> s[i] == b[i];
    assert |a| == |b|;
    assert a == s[..|a|] == b;
    assert x == s[|a| + 1..] == y;
  }

  /** Text after the last occurrence of `c` is determined, and so is what is
      before it. */
  lemma SplitLast(a: string, x: string, b: string, y: string, c: char)
    requires Free(x, c) && Free(y, c) && a + [c] + x == b + [c] + y
    ensures a == b && x == y
  {
    var s := a + [c] + x;
    assert s[|a|] == c && s[|b|] == c;
    assert forall i :: |a| < i < |s| ==> s[i] == x[i - |a| - 1];
    assert forall i :: |b| < i < |s| ==> s[i] == y[i - |b| - 1];
    assert |a| == |b|;
    assert a == s[..|a|] == b;
    assert x == s[|a| + 1..] == y;
  }

  /** A name that looks like the end of one line and the start of the next. */
  function Joined(x: string, v: int, tag: string, y: string): string {
    x + ": " + Text(v) + "\n" + tag + y
  }

  predicate IsTag(tag: string) {
    tag == "sem " || tag == "atomic "
  }

  ghost predicate Splits(name: string) {
    exists x, v, tag, y :: IsTag(tag) && name == Joined(x, v, tag, y)
  }

  ghost predicate NamesWhole(es: seq<Entry>) {
    forall i :: 0 <= i < |es| ==> !Splits(es[i].name)
  }

  /** What may follow a line. */
  ghost predicate Follows(x: string) {
    x == "" || "sem " <= x || "atomic " <= x
  }

  lemma LineStarts(tag: string, e: Entry, rest: string)
    ensures tag <= Line(tag, e) + rest
  {
    hide Text;
    assert Line(tag, e) + rest == tag + (e.name + ": " + Text(e.value) + "\n" + rest);
  }

  lemma LinesFollow(tag: string, es: seq<Entry>)
    requires IsTag(tag)
    ensures Follows(Lines(tag, es))
  {
    hide Line;
    if es != [] { LineStarts(tag, es[0], Lines(tag, es[1..])); }
  }

  lemma BodyFollows(s: seq<Entry>, a: seq<Entry>)
    ensures Follows(Body(s, a))
  {
    hide Lines;
    LinesFollow("sem ", s);
    LinesFollow("atomic ", a);
    var l, m := Lines("sem ", s), Lines("atomic ", a);
    if l == "" {
      assert l + m == m;
    } else if "sem " <= l {
      assert "sem " <= l + m;
    } else {
      assert "atomic " <= l + m;
    }
  }

  function Shown(e: Entry): string {
    e.name + ": " + Text(e.value)
  }

  lemma NoNewlineAfterName(e: Entry)
    ensures forall k :: |e.name| <= k < |Shown(e)| ==> Shown(e)[k] != '\n'
  {
    TextIsPlain(e.value);
    hide Text;
    var shown := Shown(e);
    assert forall k :: |e.name| + 2 <= k < |shown| ==> shown[k] == Text(e.value)[k - |e.name| - 2];
  }

  /** A tag holds no colon, so it ends before the first one. */
  lemma TagBeforeColon(tag: string, z: string, rest: string)
    requires IsTag(tag) && tag <= z + ":" + rest
    ensures tag <= z
  {
    var x := z + ":" + rest;
    assert x[|z|] == ':' && forall i :: 0 <= i < |tag| ==> tag[i] == x[i] && tag[i] != ':';
    assert forall i :: 0 <= i < |tag| ==> x[i] == z[i];
  }

  /** If one line can end inside another, the longer one's name splits. */
  lemma LongerNameSplits(d: Entry, e: Entry, x: string, y: string)
    requires Follows(x) && |Shown(d)| < |Shown(e)|
    requires Shown(d) + "\n" + x == Shown(e) + "\n" + y
    ensures Splits(e.name)
  {
    hide Text, Shown;
    var shown, k, text := Shown(e), |Shown(d)|, Shown(d) + "\n" + x;
    NoNewlineAfterName(e);
    assert text[k] == '\n' && text[k] == shown[k];
    NameFirst(e);
    var z := e.name[k + 1..];
    assert e.name[..k] == shown[..k] == text[..k] == Shown(d);
    assert e.name == Shown(d) + "\n" + z;
    var rest := " " + Text(e.value) + "\n" + y;
    assert x == text[k + 1..] == (shown + "\n" + y)[k + 1..] == z + ":" + rest;
    var tag := if "sem " <= x then "sem " else "atomic ";
    TagBeforeColon(tag, z, rest);
    JoinedName(d, e.name, tag, z);
  }

  lemma NameFirst(e: Entry)
    ensures Shown(e) == e.name + (":" + (" " + Text(e.value)))
  {
  }

  lemma JoinedName(d: Entry, name: string, tag: string, z: string)
    requires IsTag(tag) && tag <= z && name == Shown(d) + "\n" + z
    ensures Splits(name)
  {
    hide Text;
    var y := z[|tag|..];
    assert z == tag + y;
    assert name == Joined(d.name, d.value, tag, y);
  }

  lemma LineDetermines(tag: string, d: Entry, e: Entry, x: string, y: string)
    requires !Splits(d.name) && !Splits(e.name) && Follows(x) && Follows(y)
    requires Line(tag, d) + x == Line(tag, e) + y
    ensures d == e && x == y
  {
    hide Splits, Follows, Text;
    var td, te := Shown(d), Shown(e);
    assert Line(tag, d) + x == tag + (td + "\n" + x);
    assert Line(tag, e) + y == tag + (te + "\n" + y);
    assert td + "\n" + x == (Line(tag, d) + x)[|tag|..] == te + "\n" + y;
    if |td| < |te| {
      LongerNameSplits(d, e, x, y);
    } else if |te| < |td| {
      LongerNameSplits(e, d, y, x);
    }
    assert td == (td + "\n" + x)[..|td|] == te;
    assert x == (td + "\n" + x)[|td| + 1..] == y;
    ShownDetermines(d, e);
  }

  lemma ShownDetermines(d: Entry, e: Entry)
    requires Shown(d) == Shown(e)
    ensures d == e
  {
    TextIsPlain(d.value);
    TextIsPlain(e.value);
    var hd, he := d.name + ":", e.name + ":";
    assert Shown(d) == hd + [' '] + Text(d.value);
    assert Shown(e) == he + [' '] + Text(e.value);
    SplitLast(hd, Text(d.value), he, Text(e.value), ' ');
    NumberOfText(d.value);
    NumberOfText(e.value);
    assert d.name == hd[..|hd| - 1] && e.name == he[..|he| - 1];
  }

  lemma {:induction false} LinesDetermine(tag: string, ds: seq<Entry>, es: seq<Entry>)
    requires IsTag(tag) && NamesWhole(ds) && NamesWhole(es)
    requires Lines(tag, ds) == Lines(tag, es)
    ensures ds == es
    decreases |ds|
  {
    hide Splits;
    if ds == [] || es == [] {
      assert ds != [] ==> Lines(tag, ds) != "";
      assert es != [] ==> Lines(tag, es) != "";
    } else {
      LinesFollow(tag, ds[1..]);
      LinesFollow(tag, es[1..]);
      LineDetermines(tag, ds[0], es[0], Lines(tag, ds[1..]), Lines(tag, es[1..]));
      LinesDetermine(tag, ds[1..], es[1..]);
    }
  }

  /** The first letter tells whether a semaphore comes next. */
  lemma SemaphoreNext(s: seq<Entry>, a: seq<Entry>)
    ensures s != [] <==> Body(s, a) != "" && Body(s, a)[0] == 's'
  {
  }

  lemma {:induction false} BodyDetermines(s1: seq<Entry>, a1: seq<Entry>, s2: seq<Entry>, a2: seq<Entry>)
    requires NamesWhole(s1) && NamesWhole(a1) && NamesWhole(s2) && NamesWhole(a2)
    requires Body(s1, a1) == Body(s2, a2)
    ensures s1 == s2 && a1 == a2
    decreases |s1|
  {
    hide Line, Splits, Follows;
    SemaphoreNext(s1, a1);
    SemaphoreNext(s2, a2);
    if s1 != [] {
      var x, y := Body(s1[1..], a1), Body(s2[1..], a2);
      BodyFollows(s1[1..], a1);
      BodyFollows(s2[1..], a2);
      assert Body(s1, a1) == Line("sem ", s1[0]) + x;
      assert Body(s2, a2) == Line("sem ", s2[0]) + y;
      LineDetermines("sem ", s1[0], s2[0], x, y);
      BodyDetermines(s1[1..], a1, s2[1..], a2);
    } else {
      assert Body(s1, a1) == Lines("atomic ", a1) && Body(s2, a2) == Lines("atomic ", a2);
      LinesDetermine("atomic ", a1, a2);
    }
  }

  /** Two reports for the same number of workers that read the same report the
      same things, whatever bytes the statuses are (newlines included), as long
      as no name looks like the end of one line and the start of the next. */
  lemma ReportIsUnambiguous(start1: int, status1: string, counter1: int, s1: seq<Entry>, a1: seq<Entry>,
                            start2: int, status2: string, counter2: int, s2: seq<Entry>, a2: seq<Entry>)
    requires |status1| == |status2|
    requires NamesWhole(s1) && NamesWhole(a1) && NamesWhole(s2) && NamesWhole(a2)
    requires Statistics(start1, status1, counter1, s1, a1) == Statistics(start2, status2, counter2, s2, a2)
    ensures start1 == start2 && status1 == status2 && counter1 == counter2 && s1 == s2 && a1 == a2
  {
    TextIsPlain(start1);
    TextIsPlain(start2);
    var r1 := status1 + "\n" + (Text(counter1) + "\n" + ("\n" + Body(s1, a1)));
    var r2 := status2 + "\n" + (Text(counter2) + "\n" + ("\n" + Body(s2, a2)));
    SplitFirst(Text(start1), r1, Text(start2), r2, '\n');
    NumberOfText(start1);
    NumberOfText(start2);
    var n := |status1|;
    assert status1 == r1[..n] == r2[..n] == status2;
    var q1 := Text(counter1) + "\n" + ("\n" + Body(s1, a1));
    var q2 := Text(counter2) + "\n" + ("\n" + Body(s2, a2));
    assert q1 == r1[n + 1..] == r2[n + 1..] == q2;
    TextIsPlain(counter1);
    TextIsPlain(counter2);
    SplitFirst(Text(counter1), "\n" + Body(s1, a1), Text(counter2), "\n" + Body(s2, a2), '\n');
    NumberOfText(counter1);
    NumberOfText(counter2);
    assert Body(s1, a1) == ("\n" + Body(s1, a1))[1..] == ("\n" + Body(s2, a2))[1..] == Body(s2, a2);
    BodyDetermines(s1, a1, s2, a2);
  }

  /** In particular a name without a newline, or without ": ", does not split. */
  lemma PlainNameIsWhole(name: string)
    requires Free(name, '\n') || Free(name, ':')
    ensures !Splits(name)
  {
    forall x, v, tag, y | IsTag(tag)
      ensures name != Joined(x, v, tag, y)
    {
      var j := Joined(x, v, tag, y);
      var n := |x| + 2 + |Text(v)|;
      assert j[|x|] == ':' && j[n] == '\n' && n < |j|;
    }
  }

  ghost predicate NamesFrom(allowed: string -> bool, r: Snapshot) {
    && (forall i :: 0 <= i < |r.sems| ==> allowed(r.sems[i].name))
    && (forall i :: 0 <= i < |r.atomics| ==> allowed(r.atomics[i].name))
  }

  ghost predicate SameReport(allowed: string -> bool, r1: Snapshot, r2: Snapshot) {
    && NamesFrom(allowed, r1) && NamesFrom(allowed, r2)
    && |r1.status| == |r2.status| && TextOf(r1) == TextOf(r2)
  }

  /** Reports with allowed names, for the same number of workers, that read the
      same report the same. */
  ghost predicate Readable(allowed: string -> bool) {
    forall r1, r2 :: SameReport(allowed, r1, r2) ==> r1 == r2
  }

  /** With a name, the two names it would be read as are allowed as well. */
  ghost predicate PartsAllowed(allowed: string -> bool) {
    forall x, v, tag, y :: IsTag(tag) && allowed(Joined(x, v, tag, y)) ==> allowed(x) && allowed(y)
  }

  /** One line with a joined name is two lines. */
  lemma JoinedLine(x: string, v: int, tag: string, y: string, w: int)
    ensures Lines(tag, [Entry(Joined(x, v, tag, y), w)]) == Lines(tag, [Entry(x, v), Entry(y, w)])
  {
    hide Text;
    var one, two := [Entry(Joined(x, v, tag, y), w)], [Entry(x, v), Entry(y, w)];
    assert two[1..] == [Entry(y, w)] && one[1..] == [];
    assert Lines(tag, one) == Line(tag, one[0]) + "";
    assert Lines(tag, [Entry(y, w)]) == Line(tag, Entry(y, w)) + "";
    assert Lines(tag, two) == Line(tag, two[0]) + (Line(tag, two[1]) + "");
    assert Line(tag, one[0]) == Line(tag, two[0]) + Line(tag, two[1]);
  }

  /** Two different snapshots with one text, from a name that splits. */
  lemma SplitNameIsAmbiguous(x: string, v: int, tag: string, y: string) returns (r1: Snapshot, r2: Snapshot)
    requires IsTag(tag)
    ensures r1 != r2 && r1.status == r2.status && TextOf(r1) == TextOf(r2)
    ensures forall e :: e in r1.sems || e in r1.atomics ==> e.name == Joined(x, v, tag, y)
    ensures forall e :: e in r2.sems || e in r2.atomics ==> e.name == x || e.name == y
  {
    hide Text, Joined, Lines;
    var one, two := [Entry(Joined(x, v, tag, y), 0)], [Entry(x, v), Entry(y, 0)];
    JoinedLine(x, v, tag, y, 0);
    if tag == "sem " {
      r1, r2 := Snapshot(0, "", 0, one, []), Snapshot(0, "", 0, two, []);
    } else {
      r1, r2 := Snapshot(0, "", 0, [], one), Snapshot(0, "", 0, [], two);
    }
  }

  /** Which names keep the report readable: for any class of names that allows
      the parts of what it allows, reports can be read back if and only if no
      allowed name contains ": ", a number, and the start of another line. */
  lemma ReadableIff(allowed: string -> bool)
    requires PartsAllowed(allowed)
    ensures Readable(allowed) <==> forall name :: allowed(name) ==> !Splits(name)
  {
    hide Statistics, Joined;
    if forall name :: allowed(name) ==> !Splits(name) {
      forall r1, r2 | SameReport(allowed, r1, r2)
        ensures r1 == r2
      {
        ReportIsUnambiguous(r1.start, r1.status, r1.counter, r1.sems, r1.atomics,
                            r2.start, r2.status, r2.counter, r2.sems, r2.atomics);
      }
    }
    if name :| allowed(name) && Splits(name) {
      var x, v, tag, y :| IsTag(tag) && name == Joined(x, v, tag, y);
      var r1, r2 := SplitNameIsAmbiguous(x, v, tag, y);
      assert SameReport(allowed, r1, r2);
    }
  }

  /** A newline in a name does make two different reports read the same. */
  lemma NewlineInNameIsAmbiguous()
    ensures Statistics(0, "", 0, [Entry("a", 1), Entry("b", 2)], [])
            == Statistics(0, "", 0, [Entry("a: 1\nsem b", 2)], [])
  {
    assert Text(1) == "1" && Text(2) == "2";
    assert Line("sem ", Entry("a: 1\nsem b", 2)) == "sem a: 1\nsem b: 2\n";
    assert Line("sem ", Entry("a", 1)) + Line("sem ", Entry("b", 2)) == "sem a: 1\nsem b: 2\n";
    var one := [Entry("a: 1\nsem b", 2)];
    var two := [Entry("a", 1), Entry("b", 2)];
    assert two[1..] == [Entry("b", 2)] && one[1..] == [];
    assert Lines("sem ", one) == Line("sem ", one[0]);
    assert Lines("sem ", [Entry("b", 2)]) == Line("sem ", Entry("b", 2));
    assert Lines("sem ", two) == Line("sem ", two[0]) + Line("sem ", Entry("b", 2));
  }
}
