/** Reading the records of a hosts file back, as a resolver does: words separated by white space. */
module HostsRead {
  import opened Text
  import opened Lexical
  import opened Hosts

  /** A word as hosts files have it. */
  predicate IsWord(w: string) {
    w != "" && forall i | 0 <= i < |w| :: !IsSpace(w[i])
  }

  /** How many characters come before the first white space. */
  function WordLength(s: string): (n: nat)
    ensures n <= |s| && (forall i | 0 <= i < n :: !IsSpace(s[i])) && (n < |s| ==> IsSpace(s[n]))
  {
    if s == "" || IsSpace(s[0]) then 0 else 1 + WordLength(s[1..])
  }

  /** The words of a line, in order. */
  function Words(s: string): seq<string>
    decreases |s|
  {
    if s == "" then []
    else if IsSpace(s[0]) then Words(s[1..])
    else [s[..WordLength(s)]] + Words(s[WordLength(s)..])
  }

  lemma WordThenSpace(w: string, c: char, rest: string)
    requires IsWord(w) && IsSpace(c)
    ensures Words(w + [c] + rest) == [w] + Words(rest)
  {
    var s := w + [c] + rest;
    assert s[|w|] == c && forall i | 0 <= i < |w| :: s[i] == w[i];
    assert WordLength(s) == |w|;
    assert s[..|w|] == w && s[|w|..] == [c] + rest && ([c] + rest)[1..] == rest;
  }

  lemma LastWord(w: string)
    requires IsWord(w)
    ensures Words(w) == [w]
  {
    assert WordLength(w) == |w| && w[..|w|] == w && w[|w|..] == "";
  }

  lemma {:induction false} WordsOfJoin(words: seq<string>)
    requires forall i | 0 <= i < |words| :: IsWord(words[i])
    ensures Words(Join(words, ' ')) == words
  {
    if |words| == 1 {
      LastWord(words[0]);
    } else if |words| > 1 {
      WordsOfJoin(words[1..]);
      WordThenSpace(words[0], ' ', Join(words[1..], ' '));
      assert words == [words[0]] + words[1..];
    }
  }

  /** A line reads as its address followed by its hosts, each once. */
  lemma LineReads(a: string, hosts: seq<string>)
    requires IsWord(a) && forall i | 0 <= i < |hosts| :: IsWord(hosts[i])
    ensures var words := Words(Line(a, hosts));
            && words != [] && words[0] == a
            && (forall h :: h in words[1..] <==> h in hosts)
            && (forall i, j | 1 <= i < j < |words| :: words[i] != words[j])
  {
    var d := DedupMembers(hosts);
    WordsOfJoin(d);
    hide Dedup, Join, SortStrings, IsWord;
    WordThenSpace(a, '\t', Join(d, ' '));
    hide Words;
    assert a + "\t" + Join(d, ' ') == a + ['\t'] + Join(d, ' ');
    assert ([a] + d)[1..] == d;
  }

  /** Sorting and skipping repetitions keeps the set of hosts. */
  lemma DedupMembers(hosts: seq<string>) returns (d: seq<string>)
    requires forall i | 0 <= i < |hosts| :: IsWord(hosts[i])
    ensures d == Dedup(SortStrings(hosts))
    ensures (forall h :: h in d <==> h in hosts) && (forall i | 0 <= i < |d| :: IsWord(d[i]))
    ensures forall i, j | 0 <= i < j < |d| :: d[i] != d[j]
  {
    var sorted := SortStrings(hosts);
    DedupSorted(sorted);
    hide Dedup, IsWord;
    assert forall h :: h in sorted <==> h in multiset(sorted);
    assert forall h :: h in hosts <==> h in multiset(hosts);
    d := Dedup(sorted);
    forall i | 0 <= i < |d| ensures IsWord(d[i]) { assert d[i] in hosts; }
  }

  lemma {:induction false} LinesMember(m: Addresses, order: seq<string>, line: string)
    requires forall i | 0 <= i < |order| :: order[i] in m
    ensures |Lines(m, order)| == |order|
    ensures line in Lines(m, order) <==> exists i :: 0 <= i < |order| && line == Line(order[i], m[order[i]])
  {
    hide Line;
    if order != [] {
      var n := |order| - 1;
      LinesMember(m, order[..n], line);
      assert forall i | 0 <= i < n :: order[..n][i] == order[i];
    }
  }

  lemma RecordsMember(m: Addresses, line: string)
    ensures |Records(m)| == |m|
    ensures line in Records(m) <==> exists a :: a in m && line == Line(a, m[a])
  {
    var order := AnyOrder(m.Keys);
    VisitsOnly(order, m.Keys);
    LinesMember(m, order, line);
    var lines := Lines(m, order);
    assert |multiset(order)| == |multiset(m.Keys)| == |m.Keys| == |m|;
    assert |multiset(Records(m))| == |multiset(lines)|;
    assert line in Records(m) <==> line in multiset(Records(m));
    assert line in lines <==> line in multiset(lines);
    hide Line;
    forall a | a in m ensures exists i :: 0 <= i < |order| && order[i] == a {
      assert a in multiset(order);
    }
  }

  predicate Readable(m: Addresses) {
    forall b | b in m :: IsWord(b) && forall i | 0 <= i < |m[b]| :: IsWord(m[b][i])
  }

  /** The record names the address a. */
  predicate Names(line: string, a: string) {
    Words(line) != [] && Words(line)[0] == a
  }

  lemma RecordNames(m: Addresses, b: string, a: string, h: string)
    requires Readable(m) && b in m
    ensures Line(b, m[b]) in Records(m) && (Names(Line(b, m[b]), a) <==> a == b)
    ensures h in Words(Line(b, m[b]))[1..] <==> h in m[b]
  {
    RecordsMember(m, Line(b, m[b]));
    LineReads(b, m[b]);
  }

  /** The records read back as the map: one record for each address, which names it and exactly its hosts. */
  lemma RecordsReadBack(m: Addresses, a: string, h: string)
    requires Readable(m)
    ensures |Records(m)| == |m|
    ensures (exists line :: line in Records(m) && Names(line, a)) <==> a in m
    ensures (exists line :: line in Records(m) && Names(line, a) && h in Words(line)[1..]) <==> a in m && h in m[a]
  {
    RecordsMember(m, "");
    if a in m { RecordNames(m, a, a, h); }
    forall line | line in Records(m) && Names(line, a) ensures a in m && (h in Words(line)[1..] <==> h in m[a]) {
      RecordsMember(m, line);
      hide Names, Words, Records, Readable;
      var b :| b in m && line == Line(b, m[b]);
      RecordNames(m, b, a, h);
    }
  }
}
