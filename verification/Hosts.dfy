/** Rewriting the managed block of a hosts file. */
module Hosts {
  import opened Sets
  import opened Text
  import opened Lexical

  predicate IsSpace(c: char) {
    || '\t' <= c <= '\r' || c in {' ', '\U{0085}', '\U{00A0}', '\U{1680}'}
    || '\U{2000}' <= c <= '\U{200a}' || c in {'\U{2028}', '\U{2029}', '\U{202f}', '\U{205f}', '\U{3000}'}
  }

  function TrimLeft(s: string): string {
    if s != "" && IsSpace(s[0]) then TrimLeft(s[1..]) else s
  }

  function TrimRight(s: string): string {
    if s != "" && IsSpace(s[|s| - 1]) then TrimRight(s[..|s| - 1]) else s
  }

  function TrimSpace(s: string): string {
    TrimRight(TrimLeft(s))
  }

  // The guard lines.

  datatype Guards = Guards(begin: string, end: string)

  function GuardsOf(key: string): Guards {
    Guards("# Begin host entries managed by " + key + " - do not edit", "# End host entries managed by " + key)
  }

  /** The guard lines are single lines that are recognized when they are read again. */
  predicate Recognizable(g: Guards) {
    && '\n' !in g.begin && '\n' !in g.end
    && g.begin != g.end && g.begin != "" && g.end != ""
    && TrimSpace(g.begin) == g.begin && TrimSpace(g.end) == g.end
  }

  lemma TrimmedText(s: string)
    requires s != "" && !IsSpace(s[0]) && !IsSpace(s[|s| - 1])
    ensures TrimSpace(s) == s
  {
  }

  lemma {:induction false} TrimRightEnds(s: string)
    ensures TrimRight(s) == "" || !IsSpace(TrimRight(s)[|TrimRight(s)| - 1])
  {
    if s != "" && IsSpace(s[|s| - 1]) {
      TrimRightEnds(s[..|s| - 1]);
    }
  }

  /** They are, exactly if the key is one line and does not end in white space. */
  lemma WhenRecognizable(key: string)
    ensures Recognizable(GuardsOf(key)) <==> key != "" && '\n' !in key && !IsSpace(key[|key| - 1])
  {
    var g := GuardsOf(key);
    var h, t := "# Begin host entries managed by ", " - do not edit";
    var e := "# End host entries managed by ";
    assert '\n' !in h && '\n' !in t && '\n' !in e;
    assert g.begin[2] == 'B' && g.end[2] == 'E';
    assert g.begin[0] == '#' && g.begin[|g.begin| - 1] == 't';
    TrimmedText(g.begin);
    assert g.end[0] == '#';
    assert key != "" ==> g.end[|g.end| - 1] == key[|key| - 1];
    assert key == "" ==> g.end == e && g.end[|g.end| - 1] == ' ';
    if key != "" && !IsSpace(key[|key| - 1]) {
      TrimmedText(g.end);
    } else {
      TrimRightEnds(TrimLeft(g.end));
    }
    assert '\n' !in g.end <==> '\n' !in key by {
      assert forall i | 0 <= i < |key| :: g.end[|e| + i] == key[i];
    }
  }

  // Scanning the file.

  datatype Scan = Scan(out: seq<string>, inGuard: bool, skipBlank: bool)

  function Step(g: Guards, st: Scan, line: string): Scan {
    var k := TrimSpace(line);
    if k == "" && st.skipBlank then st.(skipBlank := false)
    else if k == g.end then Scan(st.out, false, true)
    else if k == g.begin || st.inGuard then Scan(st.out, true, false)
    else Scan(st.out + [line], false, false)
  }

  function ScanAll(g: Guards, lines: seq<string>): Scan {
    if lines == [] then Scan([], false, false)
    else Step(g, ScanAll(g, lines[..|lines| - 1]), lines[|lines| - 1])
  }

  function DropBlankTail(out: seq<string>): seq<string> {
    if out != [] && out[|out| - 1] == "" then DropBlankTail(out[..|out| - 1]) else out
  }

  /** What is in front of the managed block. */
  function Prefix(g: Guards, lines: seq<string>): seq<string> {
    DropBlankTail(ScanAll(g, lines).out)
  }

  function Rewrite(g: Guards, records: seq<string>, lines: seq<string>): seq<string> {
    Prefix(g, lines) + ["", g.begin] + records + [g.end, ""]
  }

  function Rewritten(g: Guards, records: seq<string>, text: string): string {
    Join(Rewrite(g, records, Split(text, '\n')), '\n')
  }

  // What is outside of the managed blocks.

  /** Line i is a guard line, or some begin line up to it has not been ended before it. */
  predicate Inside(g: Guards, lines: seq<string>, i: nat)
    requires i < |lines|
  {
    TrimSpace(lines[i]) == g.end || Open(g, lines, i + 1, i)
  }

  predicate Open(g: Guards, lines: seq<string>, upto: nat, i: nat)
    requires upto <= |lines| && i <= |lines|
  {
    exists j :: 0 <= j < upto && OpenFrom(g, lines, j, i)
  }

  predicate OpenFrom(g: Guards, lines: seq<string>, j: nat, i: nat)
    requires j < |lines| && i <= |lines|
  {
    TrimSpace(lines[j]) == g.begin && forall l | j <= l < i :: TrimSpace(lines[l]) != g.end
  }

  /** Line i is blank and follows the end of a block. */
  predicate AfterBlock(g: Guards, lines: seq<string>, i: nat)
    requires i < |lines|
  {
    TrimSpace(lines[i]) == "" && i > 0 && TrimSpace(lines[i - 1]) == g.end
  }

  /** The lines of the file, up to n, that are not inside of a managed block, nor the blank line after one. */
  function Outside(g: Guards, lines: seq<string>, n: nat): seq<string>
    requires n <= |lines|
  {
    if n == 0 then []
    else Outside(g, lines, n - 1) + if Inside(g, lines, n - 1) || AfterBlock(g, lines, n - 1) then [] else [lines[n - 1]]
  }

  /** The scanner is in a block exactly while one is open, and has put out exactly the other lines. */
  lemma {:induction false} ScannerFollowsBlocks(g: Guards, lines: seq<string>, n: nat)
    requires Recognizable(g) && n <= |lines|
    ensures var st := ScanAll(g, lines[..n]);
            && st.inGuard == Open(g, lines, n, n) && st.out == Outside(g, lines, n)
            && st.skipBlank == (n > 0 && TrimSpace(lines[n - 1]) == g.end)
  {
    if n > 0 {
      hide TrimSpace, Open, ScanAll;
      var m := n - 1;
      ScannerFollowsBlocks(g, lines, m);
      assert lines[..n] == lines[..m] + [lines[m]];
      ScanSnoc(g, lines[..m], lines[m]);
      OpenNext(g, lines, m);
      assert m > 0 && TrimSpace(lines[m - 1]) == g.end ==> !Open(g, lines, m, m) by { OpenEnds(g, lines, m); }
    } else {
      assert !Open(g, lines, 0, 0) && ScanAll(g, []) == Scan([], false, false);
    }
  }

  lemma OpenEnds(g: Guards, lines: seq<string>, m: nat)
    requires m <= |lines|
    ensures m > 0 && TrimSpace(lines[m - 1]) == g.end ==> !Open(g, lines, m, m)
  {
  }

  lemma OpenNext(g: Guards, lines: seq<string>, m: nat)
    requires Recognizable(g) && m < |lines|
    ensures var k := TrimSpace(lines[m]);
            && Open(g, lines, m + 1, m) == (k == g.begin || Open(g, lines, m, m))
            && Open(g, lines, m + 1, m + 1) == (k != g.end && (k == g.begin || Open(g, lines, m, m)))
  {
    hide TrimSpace;
    var k := TrimSpace(lines[m]);
    if Open(g, lines, m, m) {
      var j :| 0 <= j < m && OpenFrom(g, lines, j, m);
      assert OpenFrom(g, lines, j, m + 1) <==> k != g.end;
    }
    if Open(g, lines, m + 1, m + 1) {
      var j :| 0 <= j < m + 1 && OpenFrom(g, lines, j, m + 1);
      assert k != g.end && (j < m ==> OpenFrom(g, lines, j, m));
    }
    if k == g.begin {
      assert OpenFrom(g, lines, m, m) && OpenFrom(g, lines, m, m + 1);
    }
  }

  /** All lines outside of managed blocks are kept, in order, in front of the new block, and nothing else is:
      but for the blank line after a block, and empty lines at the end. */
  lemma KeepsOutsideLines(g: Guards, lines: seq<string>)
    requires Recognizable(g)
    ensures var kept, all := Prefix(g, lines), Outside(g, lines, |lines|);
            && kept <= all && (forall i | |kept| <= i < |all| :: all[i] == "") && (kept != [] ==> kept[|kept| - 1] != "")
  {
    ScannerFollowsBlocks(g, lines, |lines|);
    assert lines[..|lines|] == lines;
    DropBlankPrefix(ScanAll(g, lines).out);
    NoBlankAtEnd(ScanAll(g, lines).out);
  }

  // Idempotence.

  predicate Quiet(g: Guards, line: string) {
    TrimSpace(line) != g.begin && TrimSpace(line) != g.end
  }

  lemma ScanSnoc(g: Guards, lines: seq<string>, line: string)
    ensures ScanAll(g, lines + [line]) == Step(g, ScanAll(g, lines), line)
  {
    assert (lines + [line])[..|lines|] == lines;
  }

  lemma {:induction false} ScanOutIsQuiet(g: Guards, lines: seq<string>)
    ensures forall i | 0 <= i < |ScanAll(g, lines).out| :: Quiet(g, ScanAll(g, lines).out[i])
  {
    if lines != [] {
      ScanOutIsQuiet(g, lines[..|lines| - 1]);
    }
  }

  lemma {:induction false} ScanQuiet(g: Guards, lines: seq<string>)
    requires forall i | 0 <= i < |lines| :: Quiet(g, lines[i])
    ensures ScanAll(g, lines) == Scan(lines, false, false)
  {
    if lines != [] {
      var n := |lines| - 1;
      ScanQuiet(g, lines[..n]);
      assert lines == lines[..n] + [lines[n]];
    }
  }

  lemma {:induction false} DropBlankPrefix(out: seq<string>)
    ensures DropBlankTail(out) <= out && DropBlankTail(DropBlankTail(out)) == DropBlankTail(out)
    ensures forall i | |DropBlankTail(out)| <= i < |out| :: out[i] == ""
  {
    if out != [] && out[|out| - 1] == "" {
      DropBlankPrefix(out[..|out| - 1]);
    }
  }

  /** Lines that do not end the block are dropped with it. */
  lemma {:induction false} ScanBlock(g: Guards, lines: seq<string>, records: seq<string>, out: seq<string>)
    requires ScanAll(g, lines) == Scan(out, true, false)
    requires forall i | 0 <= i < |records| :: TrimSpace(records[i]) != g.end
    ensures ScanAll(g, lines + records) == Scan(out, true, false)
  {
    hide TrimSpace;
    if records == [] {
      assert lines + records == lines;
    } else {
      var n := |records| - 1;
      ScanBlock(g, lines, records[..n], out);
      ScanSnoc(g, lines + records[..n], records[n]);
      assert lines + records == lines + records[..n] + [records[n]];
    }
  }

  lemma PrefixIsQuiet(g: Guards, lines: seq<string>)
    ensures forall i | 0 <= i < |Prefix(g, lines)| :: Quiet(g, Prefix(g, lines)[i])
    ensures DropBlankTail(Prefix(g, lines) + [""]) == Prefix(g, lines)
  {
    var out := ScanAll(g, lines).out;
    ScanOutIsQuiet(g, lines);
    DropBlankPrefix(out);
    assert (Prefix(g, lines) + [""])[..|Prefix(g, lines)|] == Prefix(g, lines);
  }

  lemma BlankTrims()
    ensures TrimSpace("") == ""
  {
  }

  /** Scanning a rewritten file finds the same prefix. */
  lemma RewriteAgain(g: Guards, records: seq<string>, lines: seq<string>)
    requires Recognizable(g)
    requires forall i | 0 <= i < |records| :: TrimSpace(records[i]) != g.end
    ensures Prefix(g, Rewrite(g, records, lines)) == Prefix(g, lines)
  {
    var p := Prefix(g, lines);
    PrefixIsQuiet(g, lines);
    BlankTrims();
    hide TrimSpace, ScanAll, Quiet;
    ScanQuiet(g, p);
    var a := p + [""];
    ScanSnoc(g, p, "");
    var b := a + [g.begin];
    ScanSnoc(g, a, g.begin);
    ScanBlock(g, b, records, a);
    ScanSnoc(g, b + records, g.end);
    ScanSnoc(g, b + records + [g.end], "");
    assert Rewrite(g, records, lines) == b + records + [g.end] + [""];
  }

  /** Records that the scanner can tell from the guard lines. */
  predicate CleanRecords(g: Guards, records: seq<string>) {
    forall i | 0 <= i < |records| :: '\n' !in records[i] && Quiet(g, records[i])
  }

  lemma {:induction false} ScanOutIsPlain(g: Guards, lines: seq<string>)
    requires Plain(lines, '\n')
    ensures Plain(ScanAll(g, lines).out, '\n')
  {
    if lines != [] {
      ScanOutIsPlain(g, lines[..|lines| - 1]);
    }
  }

  lemma RewriteIsPlain(g: Guards, records: seq<string>, text: string)
    requires Recognizable(g) && CleanRecords(g, records)
    ensures Plain(Rewrite(g, records, Split(text, '\n')), '\n')
  {
    var lines := Split(text, '\n');
    SplitIsPlain(text, '\n');
    ScanOutIsPlain(g, lines);
    DropBlankPrefix(ScanAll(g, lines).out);
  }

  /** New records replace the old ones: what was written before does not matter. */
  lemma LastWriteWins(g: Guards, earlier: seq<string>, records: seq<string>, text: string)
    requires Recognizable(g) && CleanRecords(g, earlier)
    ensures Rewritten(g, records, Rewritten(g, earlier, text)) == Rewritten(g, records, text)
  {
    var lines := Split(text, '\n');
    RewriteIsPlain(g, earlier, text);
    SplitJoin(Rewrite(g, earlier, lines), '\n');
    RewriteAgain(g, earlier, lines);
  }

  /** There is exactly one managed block, preceded by exactly one empty line, and the file ends with it. */
  lemma OneBlock(g: Guards, records: seq<string>, lines: seq<string>)
    requires Recognizable(g) && CleanRecords(g, records)
    ensures var r, n := Rewrite(g, records, lines), |Prefix(g, lines)|;
            && (forall i | 0 <= i < |r| :: TrimSpace(r[i]) == g.begin <==> i == n + 1)
            && (forall i | 0 <= i < |r| :: TrimSpace(r[i]) == g.end <==> i == n + 2 + |records|)
            && r[n] == "" && (n > 0 ==> r[n - 1] != "")
            && r[n + 2..n + 2 + |records|] == records && |r| == n + 4 + |records|
  {
    PrefixIsQuiet(g, lines);
    BlankTrims();
    NoBlankAtEnd(ScanAll(g, lines).out);
    var p := Prefix(g, lines);
    assert p != [] ==> p[|p| - 1] != "";
    hide TrimSpace, Prefix;
  }

  lemma {:induction false} NoBlankAtEnd(out: seq<string>)
    ensures var p := DropBlankTail(out); p != [] ==> p[|p| - 1] != ""
  {
    if out != [] && out[|out| - 1] == "" {
      NoBlankAtEnd(out[..|out| - 1]);
    }
  }

  // The records.

  type Addresses = map<string, seq<string>>

  predicate StrictlySorted(s: seq<string>) {
    forall i, j | 0 <= i < j < |s| :: Less(s[i], s[j])
  }

  /** A sorted listing without its repetitions. */
  function Dedup(s: seq<string>): seq<string> {
    if |s| <= 1 then s
    else
      var n := |s| - 1;
      Dedup(s[..n]) + if s[n - 1] == s[n] then [] else [s[n]]
  }

  /** The line for an address. */
  function Line(addr: string, hosts: seq<string>): string {
    addr + "\t" + Join(Dedup(SortStrings(hosts)), ' ')
  }

  lemma {:induction false} DedupSorted(s: seq<string>)
    requires Sorted(s)
    ensures StrictlySorted(Dedup(s)) && (forall x :: x in Dedup(s) <==> x in s)
    ensures s != [] ==> Dedup(s) != [] && Dedup(s)[|Dedup(s)| - 1] == s[|s| - 1]
  {
    if |s| > 1 {
      var n := |s| - 1;
      DedupSorted(s[..n]);
      var d := Dedup(s[..n]);
      assert s == s[..n] + [s[n]];
      forall i | 0 <= i < |d| && s[n - 1] != s[n] ensures Less(d[i], s[n]) {
        BelowLast(d, s[n - 1], s[n], i);
      }
    }
  }

  lemma BelowLast(d: seq<string>, x: string, y: string, i: nat)
    requires StrictlySorted(d) && i < |d| && d[|d| - 1] == x && Less(x, y)
    ensures Less(d[i], y)
  {
    if i < |d| - 1 {
      LeqTransitive(d[i], x, y);
      if d[i] == y {
        LeqAntisymmetric(x, y);
      }
    }
  }

  /** A strictly sorted listing is determined by the set it lists. */
  lemma {:induction false} StrictlySortedUnique(a: seq<string>, b: seq<string>)
    requires StrictlySorted(a) && StrictlySorted(b) && forall x :: x in a <==> x in b
    ensures a == b
  {
    hide StrictlySorted, Less, Leq;
    assert |a| > 0 ==> a[0] in b;
    assert |b| > 0 ==> b[0] in a;
    if |a| > 0 && |b| > 0 {
      StrictIsSorted(a);
      StrictIsSorted(b);
      FirstIsLeast(a, b[0]);
      FirstIsLeast(b, a[0]);
      LeqAntisymmetric(a[0], b[0]);
      StrictTail(a);
      StrictTail(b);
      StrictlySortedUnique(a[1..], b[1..]);
      assert a == [a[0]] + a[1..] && b == [b[0]] + b[1..];
    }
  }

  lemma StrictTail(a: seq<string>)
    requires StrictlySorted(a) && |a| > 0
    ensures StrictlySorted(a[1..]) && forall x :: x in a[1..] <==> x in a && x != a[0]
  {
  }

  lemma StrictIsSorted(a: seq<string>)
    requires StrictlySorted(a)
    ensures Sorted(a)
  {
  }

  /** Only the set of hosts matters: neither their order nor repetitions. */
  lemma LineDependsOnSet(addr: string, hosts: seq<string>, hosts': seq<string>)
    requires forall h :: h in hosts <==> h in hosts'
    ensures Line(addr, hosts) == Line(addr, hosts')
  {
    var a, b := SortStrings(hosts), SortStrings(hosts');
    DedupSorted(a);
    DedupSorted(b);
    assert forall h :: h in a <==> h in multiset(a);
    assert forall h :: h in b <==> h in multiset(b);
    assert forall h :: h in hosts <==> h in multiset(hosts);
    assert forall h :: h in hosts' <==> h in multiset(hosts');
    StrictlySortedUnique(Dedup(a), Dedup(b));
  }

  function Lines(m: Addresses, order: seq<string>): seq<string>
    requires forall i | 0 <= i < |order| :: order[i] in m
  {
    if order == [] then []
    else Lines(m, order[..|order| - 1]) + [Line(order[|order| - 1], m[order[|order| - 1]])]
  }

  /** An order in which to visit the addresses. */
  predicate Visits(order: seq<string>, addrs: set<string>) {
    multiset(order) == multiset(addrs)
  }

  lemma VisitsOnly(order: seq<string>, addrs: set<string>)
    requires Visits(order, addrs)
    ensures forall i | 0 <= i < |order| :: order[i] in addrs
  {
    forall i | 0 <= i < |order| ensures order[i] in addrs {
      assert order[i] in multiset(order);
    }
  }

  ghost predicate SameHosts(m: Addresses, m': Addresses) {
    m.Keys == m'.Keys && forall a, h | a in m :: h in m[a] <==> h in m'[a]
  }

  function Without(s: seq<string>, i: nat): seq<string>
    requires i < |s|
  {
    s[..i] + s[i + 1..]
  }

  lemma LinesSnoc(m: Addresses, order: seq<string>, a: string)
    requires a in m && forall j | 0 <= j < |order| :: order[j] in m
    ensures forall j | 0 <= j < |order + [a]| :: (order + [a])[j] in m
    ensures Lines(m, order + [a]) == Lines(m, order) + [Line(a, m[a])]
  {
    assert (order + [a])[..|order|] == order;
  }

  lemma {:induction false} LinesWithout(m: Addresses, order: seq<string>, i: nat)
    requires i < |order| && forall j | 0 <= j < |order| :: order[j] in m
    ensures multiset(Lines(m, order)) == multiset(Lines(m, Without(order, i))) + multiset{Line(order[i], m[order[i]])}
  {
    hide Line, Lines;
    var n := |order| - 1;
    var init, last := order[..n], order[n];
    assert order == init + [last];
    LinesSnoc(m, init, last);
    if i == n {
      assert Without(order, i) == init;
    } else {
      LinesWithout(m, init, i);
      LinesSnoc(m, Without(init, i), last);
      assert Without(order, i) == Without(init, i) + [last];
    }
  }

  lemma WithoutMultiset(order: seq<string>, a: string, order': seq<string>, i: nat)
    requires i < |order'| && order'[i] == a && multiset(order + [a]) == multiset(order')
    ensures multiset(order) == multiset(Without(order', i))
  {
    assert order' == order'[..i] + [a] + order'[i + 1..];
    assert multiset(order) == multiset(order + [a]) - multiset{a};
    assert multiset(Without(order', i)) == multiset(order') - multiset{a};
  }

  lemma SameLine(m: Addresses, m': Addresses, a: string)
    requires SameHosts(m, m') && a in m
    ensures a in m' && Line(a, m[a]) == Line(a, m'[a])
  {
    LineDependsOnSet(a, m[a], m'[a]);
  }

  lemma Find(order: seq<string>, a: string, order': seq<string>) returns (i: nat)
    requires multiset(order + [a]) == multiset(order')
    ensures i < |order'| && order'[i] == a
  {
    assert a in multiset(order + [a]);
    i :| i < |order'| && order'[i] == a;
  }

  lemma {:induction false} LinesAreDetermined(m: Addresses, m': Addresses, order: seq<string>, order': seq<string>)
    requires SameHosts(m, m') && multiset(order) == multiset(order')
    requires (forall i | 0 <= i < |order| :: order[i] in m) && (forall i | 0 <= i < |order'| :: order'[i] in m')
    ensures multiset(Lines(m, order)) == multiset(Lines(m', order'))
    decreases |order|
  {
    if order == [] {
      assert |multiset(order')| == 0;
    } else {
      hide Line, Lines, SameHosts;
      var n := |order| - 1;
      var init, a := order[..n], order[n];
      assert order == init + [a];
      var i := Find(init, a, order');
      WithoutMultiset(init, a, order', i);
      LinesAreDetermined(m, m', init, Without(order', i));
      LinesSnoc(m, init, a);
      LinesWithout(m', order', i);
      SameLine(m, m', a);
    }
  }

  /** The records do not depend on the order in which addresses are visited, on the order of the hosts
      of an address, or on repetitions. */
  lemma RecordsAreDetermined(m: Addresses, m': Addresses, order: seq<string>, order': seq<string>)
    requires SameHosts(m, m') && Visits(order, m.Keys) && Visits(order', m'.Keys)
    requires (forall i | 0 <= i < |order| :: order[i] in m) && (forall i | 0 <= i < |order'| :: order'[i] in m')
    ensures SortStrings(Lines(m, order)) == SortStrings(Lines(m', order'))
  {
    LinesAreDetermined(m, m', order, order');
    SortedUnique(SortStrings(Lines(m, order)), SortStrings(Lines(m', order')));
  }

  ghost function AnyOrder(addrs: set<string>): (r: seq<string>)
    ensures Visits(r, addrs)
  {
    if addrs == {} then []
    else
      var a :| a in addrs;
      assert multiset(addrs) == multiset(addrs - {a}) + multiset{a};
      AnyOrder(addrs - {a}) + [a]
  }

  /** The records of a map. */
  ghost function Records(m: Addresses): seq<string> {
    var order := AnyOrder(m.Keys);
    VisitsOnly(order, m.Keys);
    SortStrings(Lines(m, order))
  }

  lemma RecordsDependOnSets(m: Addresses, m': Addresses)
    requires SameHosts(m, m')
    ensures Records(m) == Records(m')
  {
    VisitsOnly(AnyOrder(m.Keys), m.Keys);
    VisitsOnly(AnyOrder(m'.Keys), m'.Keys);
    RecordsAreDetermined(m, m', AnyOrder(m.Keys), AnyOrder(m'.Keys));
  }

  /** Addresses and names as the manager has them: an address does not start like a comment or with white
      space, and nothing contains a line break. */
  predicate PlainAddresses(m: Addresses) {
    forall a | a in m :: a != "" && a[0] != '#' && !IsSpace(a[0]) && '\n' !in a && Plain(m[a], '\n')
  }

  lemma {:induction false} TrimRightPrefix(s: string)
    requires s != "" && !IsSpace(s[0])
    ensures TrimRight(s) != "" && TrimRight(s)[0] == s[0]
  {
    if IsSpace(s[|s| - 1]) {
      TrimRightPrefix(s[..|s| - 1]);
    }
  }

  lemma {:induction false} JoinIsPlain(pieces: seq<string>)
    requires Plain(pieces, '\n')
    ensures '\n' !in Join(pieces, ' ')
  {
    if |pieces| > 1 {
      JoinIsPlain(pieces[1..]);
    }
  }

  lemma LineIsClean(key: string, a: string, hosts: seq<string>)
    requires a != "" && a[0] != '#' && !IsSpace(a[0]) && '\n' !in a && Plain(hosts, '\n')
    ensures '\n' !in Line(a, hosts) && Quiet(GuardsOf(key), Line(a, hosts))
  {
    var sorted := SortStrings(hosts);
    DedupSorted(sorted);
    forall i | 0 <= i < |Dedup(sorted)| ensures '\n' !in Dedup(sorted)[i] {
      assert Dedup(sorted)[i] in sorted;
      assert Dedup(sorted)[i] in multiset(hosts);
    }
    JoinIsPlain(Dedup(sorted));
    var line := Line(a, hosts);
    assert line[0] == a[0];
    TrimRightPrefix(line);
    assert GuardsOf(key).begin[0] == '#' && GuardsOf(key).end[0] == '#';
  }

  lemma {:induction false} LinesAreClean(key: string, m: Addresses, order: seq<string>)
    requires PlainAddresses(m) && forall i | 0 <= i < |order| :: order[i] in m
    ensures CleanRecords(GuardsOf(key), Lines(m, order))
  {
    hide Line, IsSpace, GuardsOf, TrimSpace;
    if order != [] {
      var n := |order| - 1;
      LinesAreClean(key, m, order[..n]);
      LineIsClean(key, order[n], m[order[n]]);
    }
  }

  lemma RecordsAreClean(key: string, m: Addresses)
    requires PlainAddresses(m)
    ensures CleanRecords(GuardsOf(key), Records(m))
  {
    hide Line, IsSpace, GuardsOf, TrimSpace;
    var order := AnyOrder(m.Keys);
    VisitsOnly(order, m.Keys);
    LinesAreClean(key, m, order);
    var lines := Lines(m, order);
    forall i | 0 <= i < |Records(m)| ensures '\n' !in Records(m)[i] && Quiet(GuardsOf(key), Records(m)[i]) {
      assert Records(m)[i] in multiset(Records(m));
      assert Records(m)[i] in multiset(lines);
      assert Records(m)[i] in lines;
    }
  }

  /** Writing the same records again changes nothing, whatever the file was, however its managed blocks
      were nested, and however the map is listed the second time. */
  lemma Idempotent(key: string, m: Addresses, m': Addresses, text: string)
    requires key != "" && '\n' !in key && !IsSpace(key[|key| - 1])
    requires PlainAddresses(m) && SameHosts(m, m')
    ensures var once := Rewritten(GuardsOf(key), Records(m), text);
            Rewritten(GuardsOf(key), Records(m'), once) == once
  {
    WhenRecognizable(key);
    RecordsAreClean(key, m);
    RecordsDependOnSets(m, m');
    LastWriteWins(GuardsOf(key), Records(m), Records(m), text);
  }

  // The rewriter.

  method RenderLine(addr: string, hosts: seq<string>) returns (line: string)
    ensures line == Line(addr, hosts)
  {
    var sorted := SortStrings(hosts);
    assert Join(Dedup(sorted[..0]), ' ') == "";
    assert sorted[..|sorted|] == sorted;
    hide Join, Dedup;
    line := addr + "\t";
    for i := 0 to |sorted|
      invariant line == addr + "\t" + Join(Dedup(sorted[..i]), ' ')
    {
      JoinNext(sorted, i);
      if i != 0 && sorted[i - 1] == sorted[i] {
        continue;
      }
      Associative(addr + "\t", Join(Dedup(sorted[..i]), ' '), sorted[i]);
      if i != 0 {
        line := line + " ";
      }
      line := line + sorted[i];
    }
  }

  lemma Associative(a: string, b: string, c: string)
    ensures a + b + " " + c == a + (b + (" " + c)) && a + b + c == a + (b + c)
  {
  }

  lemma JoinNext(s: seq<string>, i: nat)
    requires i < |s|
    ensures Join(Dedup(s[..i + 1]), ' ') ==
            Join(Dedup(s[..i]), ' ')
            + (if i == 0 then s[0] else if s[i - 1] == s[i] then "" else " " + s[i])
  {
    var j := Join(Dedup(s[..i]), ' ');
    assert j + "" == j && "" + s[i] == s[i] && Dedup(s[..i]) + [] == Dedup(s[..i]);
    if i > 0 {
      assert s[..i + 1][..i] == s[..i];
      DedupSome(s[..i]);
      if s[i - 1] != s[i] {
        JoinAppend(Dedup(s[..i]), [s[i]], ' ');
        assert j + [' '] + s[i] == j + (" " + s[i]);
      }
    }
  }

  lemma {:induction false} DedupSome(s: seq<string>)
    requires s != []
    ensures Dedup(s) != []
  {
    if |s| > 1 {
      DedupSome(s[..|s| - 1]);
    }
  }

  lemma VisitNext(order: seq<string>, addrs: set<string>, todo: set<string>, addr: string)
    requires addr in todo && todo <= addrs && Visits(order, addrs - todo)
    ensures Visits(order + [addr], addrs - (todo - {addr}))
  {
    assert addrs - (todo - {addr}) == addrs - todo + {addr};
  }

  method RenderRecords(m: Addresses) returns (lines: seq<string>)
    ensures lines == Records(m)
  {
    assert Lines(m, []) == [] && Visits([], {});
    hide Line, Lines, Visits;
    ghost var order: seq<string> := [];
    var todo := m.Keys;
    lines := [];
    assert m.Keys - todo == {};
    while todo != {}
      invariant todo <= m.Keys && Visits(order, m.Keys - todo)
      invariant (forall i | 0 <= i < |order| :: order[i] in m) && lines == Lines(m, order)
      decreases todo
    {
      var addr := Pick(todo);
      var line := RenderLine(addr, m[addr]);
      lines := lines + [line];
      LinesSnoc(m, order, addr);
      VisitNext(order, m.Keys, todo, addr);
      order := order + [addr];
      todo := todo - {addr};
    }
    assert m.Keys - todo == m.Keys;
    VisitsOnly(AnyOrder(m.Keys), m.Keys);
    RecordsAreDetermined(m, m, order, AnyOrder(m.Keys));
    lines := SortStrings(lines);
  }

  method ScanFile(g: Guards, text: string) returns (out: seq<string>)
    requires g.begin != g.end
    ensures out == Prefix(g, Split(text, '\n'))
  {
    hide TrimSpace;
    var lines := Split(text, '\n');
    out := [];
    var inGuardBlock, skipBlank := false, false;
    for i := 0 to |lines|
      invariant ScanAll(g, lines[..i]) == Scan(out, inGuardBlock, skipBlank)
    {
      var line := lines[i];
      assert lines[..i + 1] == lines[..i] + [line];
      ScanSnoc(g, lines[..i], line);
      var k := TrimSpace(line);
      if k == "" && skipBlank {
        skipBlank := false;
        continue;
      }
      skipBlank := false;
      if k == g.begin {
        inGuardBlock := true;
      }
      if !inGuardBlock {
        out := out + [line];
      }
      if k == g.end {
        if !inGuardBlock {
          out := out[..|out| - 1];
        }
        inGuardBlock := false;
        skipBlank := true;
      }
    }
    assert lines[..|lines|] == lines;
    while |out| > 0
      invariant DropBlankTail(out) == Prefix(g, lines)
      decreases |out|
    {
      if out[|out| - 1] != "" {
        break;
      }
      out := out[..|out| - 1];
    }
  }

  method UpdateHostsFileWithRecords(text: string, key: string, m: Addresses) returns (updated: string)
    ensures updated == Rewritten(GuardsOf(key), Records(m), text)
  {
    hide Join, Records;
    var g := GuardsOf(key);
    GuardsDiffer(key);
    var out := ScanFile(g, text);
    out := out + [""];
    var lines := RenderRecords(m);
    out := out + [g.begin];
    out := out + lines;
    out := out + [g.end];
    out := out + [""];
    assert out == Rewrite(g, lines, Split(text, '\n'));
    updated := Join(out, '\n');
  }

  lemma GuardsDiffer(key: string)
    ensures GuardsOf(key).begin != GuardsOf(key).end
  {
    assert GuardsOf(key).begin[2] == 'B' && GuardsOf(key).end[2] == 'E';
  }

  // The provider: primary names, and fallbacks for names that have none.

  ghost predicate InPrimary(primary: Addresses, host: string) {
    exists a :: a in primary && host in primary[a]
  }

  /** The address has the host in the merged records. */
  ghost predicate Has(primary: Addresses, fallbacks: map<string, seq<string>>, a: string, h: string) {
    || (a in primary && h in primary[a])
    || (h in fallbacks && a in fallbacks[h] && !InPrimary(primary, h))
  }

  ghost predicate Merges(primary: Addresses, fallbacks: map<string, seq<string>>, m: Addresses) {
    && (forall a :: a in m <==> a in primary || exists h :: Has(primary, fallbacks, a, h))
    && (forall a, h | a in m :: h in m[a] <==> Has(primary, fallbacks, a, h))
  }

  /** Any two merges give the same file. */
  lemma MergeIsDetermined(primary: Addresses, fallbacks: map<string, seq<string>>, m: Addresses, m': Addresses)
    requires Merges(primary, fallbacks, m) && Merges(primary, fallbacks, m')
    ensures Records(m) == Records(m')
  {
    assert SameHosts(m, m') by {
      forall a ensures a in m <==> a in m' {
      }
    }
    RecordsDependOnSets(m, m');
  }

  class Provider {
    const key: string
    var primary: Addresses
    var fallbacks: map<string, seq<string>>
    var file: string

    constructor (key: string, file: string)
      ensures this.key == key && this.file == file && primary == map[] && fallbacks == map[]
    {
      this.key, this.file := key, file;
      primary, fallbacks := map[], map[];
    }

    method AddFallbacks(dnsFallbacks: map<string, seq<string>>)
      modifies this
      ensures fallbacks == dnsFallbacks && primary == old(primary)
      ensures exists m :: Merges(primary, fallbacks, m) && file == Rewritten(GuardsOf(key), Records(m), old(file))
    {
      fallbacks := dnsFallbacks;
      Update();
    }

    method UpdateHosts(addressToHosts: Addresses)
      modifies this
      ensures primary == addressToHosts && fallbacks == old(fallbacks)
      ensures exists m :: Merges(primary, fallbacks, m) && file == Rewritten(GuardsOf(key), Records(m), old(file))
    {
      primary := addressToHosts;
      Update();
    }

    method Update()
      modifies this`file
      ensures exists m :: Merges(primary, fallbacks, m) && file == Rewritten(GuardsOf(key), Records(m), old(file))
    {
      var m := Merge(primary, fallbacks);
      file := UpdateHostsFileWithRecords(file, key, m);
    }
  }

  function Upto(fallbacks: map<string, seq<string>>, done: set<string>): map<string, seq<string>> {
    map h | h in fallbacks && h in done :: fallbacks[h]
  }

  method Merge(primary: Addresses, fallbacks: map<string, seq<string>>) returns (m: Addresses)
    ensures Merges(primary, fallbacks, m)
  {
    var hostExists := set a, h | a in primary && h in primary[a] :: h;
    m := primary;
    var todo := fallbacks.Keys;
    while todo != {}
      invariant todo <= fallbacks.Keys
      invariant Merges(primary, Upto(fallbacks, fallbacks.Keys - todo), m)
      decreases todo
    {
      var host := Pick(todo);
      ghost var before, done := m, fallbacks.Keys - todo;
      if host !in hostExists {
        m := AddHost(m, fallbacks[host], host);
      }
      MergeOne(primary, fallbacks, done, host, before, m);
      todo := todo - {host};
      assert fallbacks.Keys - todo == done + {host};
    }
    assert Upto(fallbacks, fallbacks.Keys - todo) == fallbacks;
  }

  ghost predicate HostAdded(m: Addresses, ips: seq<string>, host: string, r: Addresses) {
    && (forall a :: a in r <==> a in m || a in ips)
    && (forall a, h | a in r :: h in r[a] <==> (a in m && h in m[a]) || (h == host && a in ips))
  }

  /** The host is appended at each of its addresses. */
  method AddHost(m: Addresses, ips: seq<string>, host: string) returns (r: Addresses)
    ensures HostAdded(m, ips, host, r)
  {
    r := m;
    for i := 0 to |ips|
      invariant HostAdded(m, ips[..i], host, r)
    {
      var addr := ips[i];
      assert ips[..i + 1] == ips[..i] + [addr];
      r := r[addr := (if addr in r then r[addr] else []) + [host]];
    }
    assert ips[..|ips|] == ips;
  }

  lemma AddedHost(primary: Addresses, fallbacks: map<string, seq<string>>, done: set<string>, host: string, a: string, h: string)
    requires host in fallbacks && host !in done
    ensures Has(primary, Upto(fallbacks, done + {host}), a, h) <==>
            Has(primary, Upto(fallbacks, done), a, h) || (h == host && a in fallbacks[host] && !InPrimary(primary, host))
  {
  }

  lemma MergeOne(primary: Addresses, fallbacks: map<string, seq<string>>, done: set<string>, host: string, m: Addresses, m': Addresses)
    requires host in fallbacks && host !in done && Merges(primary, Upto(fallbacks, done), m)
    requires if InPrimary(primary, host) then m' == m else HostAdded(m, fallbacks[host], host, m')
    ensures Merges(primary, Upto(fallbacks, done + {host}), m')
  {
    var f, f' := Upto(fallbacks, done), Upto(fallbacks, done + {host});
    forall a, h ensures Has(primary, f', a, h) <==>
                        Has(primary, f, a, h) || (h == host && a in fallbacks[host] && !InPrimary(primary, host))
    {
      AddedHost(primary, fallbacks, done, host, a, h);
    }
    hide Has, InPrimary, Upto;
    forall a ensures a in m' <==> a in primary || exists h :: Has(primary, f', a, h) {
      if a in m && a !in primary {
        var h :| Has(primary, f, a, h);
        assert Has(primary, f', a, h);
      }
      if !InPrimary(primary, host) && a in fallbacks[host] {
        assert Has(primary, f', a, host);
      }
      if h :| Has(primary, f', a, h) && !Has(primary, f, a, h) {
        assert a in m';
      }
    }
  }
}
