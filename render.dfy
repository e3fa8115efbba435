/** What the program prints (cmd/awsenvsec/main.go): the banner, the choice of output mode,
    the sorted `env` listing and the default `export` lines. Standard output is a string;
    `fmt.Println(s)` appends `s` and a newline. */
module Render {
  import opened ByteOrder

  /** The line of dashes above and below the banner. */
  const RuleWidth: nat := 102

  /** strings.Repeat for one character. */
  function Repeat(c: char, n: nat): (r: string)
    ensures |r| == n
    ensures forall i :: 0 <= i < n ==> r[i] == c
  {
    if n == 0 then [] else Repeat(c, n - 1) + [c]
  }

  /** Lines printed one after the other, each closed by a newline. */
  function JoinLines(lines: seq<string>): string
  {
    if lines == [] then "" else JoinLines(lines[..|lines| - 1]) + lines[|lines| - 1] + "\n"
  }

  /** The number of times `c` occurs in `s`. */
  function Count(s: string, c: char): nat
  {
    if s == [] then 0 else Count(s[..|s| - 1], c) + (if s[|s| - 1] == c then 1 else 0)
  }

  /** header (main.go:27-35). */
  function Header(title: string, curDate: string, description: string): (r: string)
    ensures Repeat('-', RuleWidth) + "\n" <= r
    ensures |r| == 2 * RuleWidth + |title| + |curDate| + |description| + 32
  {
    Banner(Repeat('-', RuleWidth), title, curDate, description)
  }

  /** The banner framed by the rule `hlines`. */
  function Banner(hlines: string, title: string, curDate: string, description: string): string
  {
    hlines + "\n" +
    "Script: " + title + "\n" +
    "Description: " + description + "\n" +
    "Date: " + curDate + "\n" +
    hlines + "\n"
  }

  /** The five lines of the banner, in order. */
  function HeaderLines(title: string, curDate: string, description: string): seq<string>
  {
    BannerLines(Repeat('-', RuleWidth), title, curDate, description)
  }

  function BannerLines(hlines: string, title: string, curDate: string, description: string): seq<string>
  {
    [hlines, "Script: " + title, "Description: " + description, "Date: " + curDate, hlines]
  }

  lemma {:induction false} CountAppend(a: string, b: string, c: char)
    ensures Count(a + b, c) == Count(a, c) + Count(b, c)
    decreases |b|
  {
    if b == [] {
      assert a + b == a;
    } else {
      assert (a + b)[..|a + b| - 1] == a + b[..|b| - 1];
      CountAppend(a, b[..|b| - 1], c);
    }
  }

  lemma {:induction false} CountAbsent(s: string, c: char)
    requires c !in s
    ensures Count(s, c) == 0
    decreases |s|
  {
    if s != [] {
      assert forall x :: x in s[..|s| - 1] ==> x in s;
      CountAbsent(s[..|s| - 1], c);
    }
  }

  /** Lines without a newline of their own print as exactly that many newline-ended lines. */
  lemma {:induction false} JoinLinesCount(lines: seq<string>)
    requires forall i :: 0 <= i < |lines| ==> '\n' !in lines[i]
    ensures Count(JoinLines(lines), '\n') == |lines|
    decreases |lines|
  {
    if lines != [] {
      var init := lines[..|lines| - 1];
      var last := lines[|lines| - 1];
      JoinLinesCount(init);
      CountAppend(JoinLines(init) + last, "\n", '\n');
      CountAppend(JoinLines(init), last, '\n');
      CountAbsent(last, '\n');
      assert "\n"[..0] == [];
    }
  }

  /** The banner is always five lines whose first and last are 102 dashes (given title,
      date and description of one line each). */
  lemma HeaderFiveLines(title: string, curDate: string, description: string)
    requires '\n' !in title && '\n' !in curDate && '\n' !in description
    ensures Header(title, curDate, description) == JoinLines(HeaderLines(title, curDate, description))
    ensures Count(Header(title, curDate, description), '\n') == 5
    ensures var ls := HeaderLines(title, curDate, description);
            |ls[0]| == RuleWidth && ls[4] == ls[0] && forall i :: 0 <= i < |ls[0]| ==> ls[0][i] == '-'
  {
    var hl := Repeat('-', RuleWidth);
    assert '\n' !in hl by {
      assert forall i :: 0 <= i < |hl| ==> hl[i] == '-';
    }
    BannerFiveLines(hl, title, curDate, description);
  }

  lemma BannerFiveLines(hl: string, title: string, curDate: string, description: string)
    requires '\n' !in hl && '\n' !in title && '\n' !in curDate && '\n' !in description
    ensures Banner(hl, title, curDate, description) == JoinLines(BannerLines(hl, title, curDate, description))
    ensures Count(Banner(hl, title, curDate, description), '\n') == 5
  {
    var l1, l2, l3 := "Script: " + title, "Description: " + description, "Date: " + curDate;
    NoNewlineConcat("Script: ", title);
    NoNewlineConcat("Description: ", description);
    NoNewlineConcat("Date: ", curDate);
    var ls := [hl, l1, l2, l3, hl];
    assert ls == BannerLines(hl, title, curDate, description);
    JoinFive(hl, l1, l2, l3, hl);
    JoinLinesCount(ls);
  }

  lemma JoinFive(l0: string, l1: string, l2: string, l3: string, l4: string)
    ensures JoinLines([l0, l1, l2, l3, l4]) == l0 + "\n" + l1 + "\n" + l2 + "\n" + l3 + "\n" + l4 + "\n"
  {
    var ls := [l0, l1, l2, l3, l4];
    assert ls[..1][..0] == [];
    assert JoinLines(ls[..1]) == l0 + "\n";
    assert ls[..2][..1] == ls[..1];
    assert JoinLines(ls[..2]) == JoinLines(ls[..1]) + l1 + "\n";
    assert ls[..3][..2] == ls[..2];
    assert JoinLines(ls[..3]) == JoinLines(ls[..2]) + l2 + "\n";
    assert ls[..4][..3] == ls[..3];
    assert JoinLines(ls[..4]) == JoinLines(ls[..3]) + l3 + "\n";
    assert ls[..4] == ls[..|ls| - 1];
    assert JoinLines(ls) == JoinLines(ls[..4]) + l4 + "\n";
  }

  lemma NoNewlineConcat(a: string, b: string)
    requires '\n' !in a && '\n' !in b
    ensures '\n' !in a + b
  {
  }

  /** The value of the output flag, as main sorts it out (main.go:109-121, 170-203). */
  datatype OutputMode = ExportMode | EnvMode | JsonMode | InvalidMode

  function ModeOf(flag: string): (m: OutputMode)
    ensures m == ExportMode <==> flag == ""
    ensures m == EnvMode <==> flag == "env"
    ensures m == JsonMode <==> flag == "json"
    ensures m == InvalidMode <==> flag != "" && flag != "env" && flag != "json"
  {
    if flag == "" then ExportMode
    else if flag == "env" then EnvMode
    else if flag == "json" then JsonMode
    else InvalidMode
  }

  /** A line of the `env` listing (main.go:179). */
  function EnvLine(k: string, v: string): (r: string)
    ensures |r| == |k| + |v| + 3
    ensures r[..|k|] == k && r[|k|..|k| + 2] == "=\"" && r[|k| + 2..|r| - 1] == v && r[|r| - 1] == '"'
  {
    k + "=" + "\"" + v + "\""
  }

  /** A line of the default output (main.go:202). */
  function ExportLine(k: string, v: string): (r: string)
    ensures |r| == |k| + |v| + 11
    ensures r[..7] == "export " && r[7..7 + |k|] == k && r[7 + |k|..10 + |k|] == "=$\""
    ensures r[10 + |k|..|r| - 1] == v && r[|r| - 1] == '"'
  {
    "export " + k + "=$\"" + v + "\""
  }

  /** What precedes the listing in `env` and `json` modes (main.go:177, 195). */
  function EnvHeading(date: string): (r: string)
    ensures |r| == |date| + 28
    ensures r[0] == '\n' && r[26..26 + |date|] == date && r[|r| - 2..] == "\n\n"
  {
    "\n# Environment Variables: " + date + "\n" + "\n"
  }

  /** The lines for the keys `ks` of `m`, in that order. */
  function EnvLines(m: map<string, string>, ks: seq<string>): seq<string>
    requires forall i :: 0 <= i < |ks| ==> ks[i] in m
  {
    seq(|ks|, i requires 0 <= i < |ks| => EnvLine(ks[i], m[ks[i]]))
  }

  function ExportLines(m: map<string, string>, ks: seq<string>): seq<string>
    requires forall i :: 0 <= i < |ks| ==> ks[i] in m
  {
    seq(|ks|, i requires 0 <= i < |ks| => ExportLine(ks[i], m[ks[i]]))
  }

  /** `ks` lists the strings of `keys`, each once, in some order. */
  ghost predicate IsEnumeration(ks: seq<string>, keys: set<string>)
  {
    && |ks| == |keys|
    && (forall i, j :: 0 <= i < j < |ks| ==> ks[i] != ks[j])
    && (forall k :: k in ks <==> k in keys)
  }

  /** `for k := range m`: the keys of the map, each once, in an order Go leaves unspecified
      (here: whichever key the choice picks). */
  method GatherKeys(m: map<string, string>) returns (ks: seq<string>)
    ensures IsEnumeration(ks, m.Keys)
  {
    ks := [];
    var rest := m.Keys;
    while rest != {}
      invariant rest <= m.Keys
      invariant |ks| + |rest| == |m.Keys|
      invariant forall i, j :: 0 <= i < j < |ks| ==> ks[i] != ks[j]
      invariant forall k :: k in ks <==> k in m.Keys - rest
      decreases |rest|
    {
      var k :| k in rest;
      assert k !in ks;
      ks := ks + [k];
      rest := rest - {k};
    }
  }

  /** One step of insertion sort: moves a[i] down into the sorted prefix a[..i]. */
  method InsertAt(a: array<string>, i: nat)
    requires i < a.Length
    requires Sorted(a[..i])
    modifies a
    ensures Sorted(a[..i + 1])
    ensures multiset(a[..]) == old(multiset(a[..]))
  {
    assert forall p, q :: 0 <= p < q < i ==> LessEq(a[p], a[q]) by {
      forall p, q | 0 <= p < q < i ensures LessEq(a[p], a[q]) {
        assert a[..i][p] == a[p] && a[..i][q] == a[q];
      }
    }
    var j := i;
    while j > 0 && Less(a[j], a[j - 1])
      invariant 0 <= j <= i
      invariant forall p, q :: 0 <= p < q <= i && p != j && q != j ==> LessEq(a[p], a[q])
      invariant forall q :: j < q <= i ==> Less(a[j], a[q])
      invariant multiset(a[..]) == old(multiset(a[..]))
    {
      a[j - 1], a[j] := a[j], a[j - 1];
      j := j - 1;
    }
    InsertedPrefixSorted(a[..], i, j);
    assert a[..i + 1] == a[..][..i + 1];
  }

  /** Where the insertion loop stops, the prefix up to i is in order: a[j] is below all that
      follows it and not below what precedes it. */
  lemma InsertedPrefixSorted(s: seq<string>, i: nat, j: nat)
    requires j <= i < |s|
    requires forall p, q :: 0 <= p < q <= i && p != j && q != j ==> LessEq(s[p], s[q])
    requires forall q :: j < q <= i ==> Less(s[j], s[q])
    requires j > 0 ==> !Less(s[j], s[j - 1])
    ensures Sorted(s[..i + 1])
  {
    if j > 0 {
      LessTotalEq(s[j - 1], s[j]);
    }
    forall p, q | 0 <= p < q <= i
      ensures LessEq(s[p], s[q])
    {
      if q == j && p < j - 1 {
        LessEqTransitive(s[p], s[j - 1], s[j]);
      }
    }
  }

  lemma LessTotalEq(a: string, b: string)
    requires !Less(b, a)
    ensures LessEq(a, b)
  {
    if a != b {
      LessTotal(a, b);
    }
  }

  /** sort.Strings: an in-place sort of the slice (main.go:176). */
  method SortStrings(a: array<string>)
    modifies a
    ensures Sorted(a[..])
    ensures multiset(a[..]) == old(multiset(a[..]))
  {
    var i := 0;
    while i < a.Length
      invariant 0 <= i <= a.Length
      invariant Sorted(a[..i])
      invariant multiset(a[..]) == old(multiset(a[..]))
    {
      InsertAt(a, i);
      i := i + 1;
    }
    assert a[..i] == a[..];
  }

  /** resultsMapSorted: the keys gathered from the map and sorted (main.go:172-176). */
  method SortedKeys(m: map<string, string>) returns (ks: seq<string>)
    ensures IsSortedEnumeration(ks, m.Keys)
    ensures |ks| == |m|
  {
    var gathered := GatherKeys(m);
    var a := new string[|gathered|](i requires 0 <= i < |gathered| => gathered[i]);
    assert a[..] == gathered;
    SortStrings(a);
    ks := a[..];
    assert multiset(ks) == multiset(gathered);
    forall k ensures k in ks <==> k in m.Keys {
      assert k in ks <==> k in multiset(ks);
      assert k in gathered <==> k in multiset(gathered);
    }
    forall p, q | 0 <= p < q < |ks| ensures ks[p] != ks[q] {
      DistinctCount(gathered, ks[p]);
      if ks[p] == ks[q] {
        TwiceCount(ks, p, q);
      }
    }
    SortedDistinctIsStrict(ks);
  }

  /** In a sequence without repetitions every string occurs at most once. */
  lemma {:induction false} DistinctCount(s: seq<string>, x: string)
    requires forall i, j :: 0 <= i < j < |s| ==> s[i] != s[j]
    ensures multiset(s)[x] <= 1
    decreases |s|
  {
    if s != [] {
      var init := s[..|s| - 1];
      assert s == init + [s[|s| - 1]];
      DistinctCount(init, x);
      if x == s[|s| - 1] {
        assert x !in init;
      }
    }
  }

  /** A string at two positions occurs at least twice. */
  lemma TwiceCount(s: seq<string>, p: nat, q: nat)
    requires p < q < |s| && s[p] == s[q]
    ensures multiset(s)[s[p]] >= 2
  {
    assert s == s[..p] + [s[p]] + s[p + 1..q] + [s[q]] + s[q + 1..];
  }

  /** The `env` output (main.go:172-181): the heading, then one `K="V"` line per entry, keys
      in ascending byte order. */
  method RenderEnv(m: map<string, string>, date: string) returns (sorted: seq<string>, out: string)
    ensures IsSortedEnumeration(sorted, m.Keys) && |sorted| == |m|
    ensures out == EnvHeading(date) + JoinLines(EnvLines(m, sorted))
  {
    sorted := SortedKeys(m);
    out := EnvHeading(date);
    var listing := PrintEnvLines(m, sorted);
    out := out + listing;
  }

  /** The loop printing `K="V"` for each key of `ks` in turn (main.go:178-180). */
  method PrintEnvLines(m: map<string, string>, ks: seq<string>) returns (out: string)
    requires forall k :: k in ks ==> k in m
    ensures out == JoinLines(EnvLines(m, ks))
  {
    out := "";
    var i := 0;
    while i < |ks|
      invariant 0 <= i <= |ks|
      invariant out == JoinLines(EnvLines(m, ks[..i]))
    {
      var k := ks[i];
      assert ks[..i + 1] == ks[..i] + [k];
      EnvLinesSnoc(m, ks[..i], k);
      out := out + EnvLine(k, m[k]) + "\n";
      i := i + 1;
    }
    assert ks[..i] == ks;
  }

  /** The default output (main.go:201-203): one `export K=$"V"` line per entry, in the
      unspecified order of a Go map range. */
  method RenderExport(m: map<string, string>) returns (ks: seq<string>, out: string)
    ensures IsEnumeration(ks, m.Keys)
    ensures out == JoinLines(ExportLines(m, ks))
  {
    out := "";
    ks := [];
    var rest := m.Keys;
    while rest != {}
      invariant rest <= m.Keys
      invariant |ks| + |rest| == |m.Keys|
      invariant forall i, j :: 0 <= i < j < |ks| ==> ks[i] != ks[j]
      invariant forall k :: k in ks <==> k in m.Keys - rest
      invariant forall i :: 0 <= i < |ks| ==> ks[i] in m
      invariant out == JoinLines(ExportLines(m, ks))
      decreases |rest|
    {
      var k :| k in rest;
      assert k !in ks;
      ExportLinesSnoc(m, ks, k);
      out := out + ExportLine(k, m[k]) + "\n";
      ks := ks + [k];
      rest := rest - {k};
    }
  }

  /** The index of the first `c` in `s`, or -1 when `s` holds no `c`. */
  function FirstIndex(s: string, c: char): (r: int)
    ensures -1 <= r < |s|
    ensures r >= 0 ==> s[r] == c
    ensures forall j :: 0 <= j < |s| && (r < 0 || j < r) ==> s[j] != c
  {
    if s == [] then -1
    else if s[0] == c then 0
    else
      var t := FirstIndex(s[1..], c);
      if t < 0 then -1 else t + 1
  }

  /** The key of an `env` line without `=` ends at the first `=` of the line. */
  lemma EnvLineKeyEnd(k: string, v: string)
    requires '=' !in k
    ensures FirstIndex(EnvLine(k, v), '=') == |k|
  {
    var r := EnvLine(k, v);
    assert forall j :: 0 <= j < |k| ==> r[j] == k[j];
    assert r[|k|] == '=';
  }

  /** The key of an `export` line without `=` ends at the first `=` after `export `. */
  lemma ExportLineKeyEnd(k: string, v: string)
    requires '=' !in k
    ensures FirstIndex(ExportLine(k, v), '=') == 7 + |k|
  {
    var r := ExportLine(k, v);
    assert forall j :: 0 <= j < 7 ==> r[j] == "export "[j];
    assert forall j :: 0 <= j < |k| ==> r[7 + j] == k[j];
    assert r[7 + |k|] == '=';
  }

  /** A line of the `env` listing determines its key and value when the key holds no `=`. */
  lemma EnvLineInjective(k1: string, v1: string, k2: string, v2: string)
    requires '=' !in k1 && '=' !in k2
    requires EnvLine(k1, v1) == EnvLine(k2, v2)
    ensures k1 == k2 && v1 == v2
  {
    var r := EnvLine(k1, v1);
    EnvLineKeyEnd(k1, v1);
    EnvLineKeyEnd(k2, v2);
    assert k1 == r[..|k1|] == k2;
    assert v1 == r[|k1| + 2..|r| - 1] == v2;
  }

  /** A line of the default output determines its key and value when the key holds no `=`. */
  lemma ExportLineInjective(k1: string, v1: string, k2: string, v2: string)
    requires '=' !in k1 && '=' !in k2
    requires ExportLine(k1, v1) == ExportLine(k2, v2)
    ensures k1 == k2 && v1 == v2
  {
    var r := ExportLine(k1, v1);
    ExportLineKeyEnd(k1, v1);
    ExportLineKeyEnd(k2, v2);
    assert k1 == r[7..7 + |k1|] == k2;
    assert v1 == r[10 + |k1|..|r| - 1] == v2;
  }

  /** Printing one more key appends its line. */
  lemma EnvLinesSnoc(m: map<string, string>, ks: seq<string>, k: string)
    requires forall i :: 0 <= i < |ks| ==> ks[i] in m
    requires k in m
    ensures JoinLines(EnvLines(m, ks + [k])) == JoinLines(EnvLines(m, ks)) + EnvLine(k, m[k]) + "\n"
  {
    assert EnvLines(m, ks + [k])[..|ks|] == EnvLines(m, ks);
  }

  /** Printing one more key appends its line. */
  lemma ExportLinesSnoc(m: map<string, string>, ks: seq<string>, k: string)
    requires forall i :: 0 <= i < |ks| ==> ks[i] in m
    requires k in m
    ensures JoinLines(ExportLines(m, ks + [k])) == JoinLines(ExportLines(m, ks)) + ExportLine(k, m[k]) + "\n"
  {
    assert ExportLines(m, ks + [k])[..|ks|] == ExportLines(m, ks);
  }
}
