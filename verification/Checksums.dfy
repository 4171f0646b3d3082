/** The checksum file of a run: paths, canonical order, printing and parsing. */
module Checksums {
  import opened Outcomes

  type Path = string
  type Digest = string

  const MAX_PATH_BYTES := 255

  /** The UTF-8 bytes of one character. */
  function Utf8(c: char): (bytes: seq<nat>)
    ensures 1 <= |bytes| <= 4
  {
    var n := c as int;
    if n < 0x80 then [n]
    else if n < 0x800 then [0xC0 + n / 64, 0x80 + n % 64]
    else if n < 0x1_0000 then [0xE0 + n / 4096, 0x80 + n / 64 % 64, 0x80 + n % 64]
    else [0xF0 + n / 262144, 0x80 + n / 4096 % 64, 0x80 + n / 64 % 64, 0x80 + n % 64]
  }

  function Encode(s: string): seq<nat> {
    if s == "" then [] else Utf8(s[0]) + Encode(s[1..])
  }

  /** The components of a path, between slashes. */
  function Components(path: string): (parts: seq<string>)
    ensures parts != []
  {
    if path == "" then [""]
    else
      var rest := Components(path[1..]);
      if path[0] == '/' then [""] + rest else [[path[0]] + rest[0]] + rest[1..]
  }

  /** A relative, canonical path without control characters. */
  predicate RunRelative(path: Path) {
    && path != "" && '\\' !in path && |Encode(path)| <= MAX_PATH_BYTES
    && (forall c | c in path :: c >= ' ' && c as int != 127)
    && (forall part | part in Components(path) :: part != "" && part != "." && part != "..")
  }

  predicate IsSha256(digest: Digest) {
    |digest| == 64 && forall c | c in digest :: '0' <= c <= '9' || 'a' <= c <= 'f'
  }

  /** The characters at which splitting into lines breaks. */
  predicate IsBreak(c: char) {
    || '\n' <= c <= '\r'
    || 0x1C <= c as int <= 0x1E
    || c as int == 0x85 || c as int == 0x2028 || c as int == 0x2029
  }

  predicate Unbroken(s: string) {
    forall c | c in s :: !IsBreak(c)
  }

  function LineEnd(s: string): (n: nat)
    ensures n <= |s| && Unbroken(s[..n]) && (n < |s| ==> IsBreak(s[n]))
  {
    if s == "" || IsBreak(s[0]) then 0
    else
      var n := 1 + LineEnd(s[1..]);
      assert s[..n] == [s[0]] + s[1..][..n - 1];
      n
  }

  /** Lines without their terminators; a carriage return and a newline end one line together. */
  function SplitLines(s: string): seq<string> {
    if s == "" then []
    else
      var n := LineEnd(s);
      if n == |s| then [s]
      else [s[..n]] + SplitLines(s[n + (if s[n] == '\r' && n + 1 < |s| && s[n + 1] == '\n' then 2 else 1)..])
  }

  /** Lexicographic order on bytes. */
  predicate Le(a: seq<nat>, b: seq<nat>) {
    if a == [] then true
    else if b == [] then false
    else if a[0] != b[0] then a[0] < b[0]
    else Le(a[1..], b[1..])
  }

  predicate InOrder(paths: seq<Path>) {
    forall i, j | 0 <= i < j < |paths| :: Le(Encode(paths[i]), Encode(paths[j]))
  }

  predicate Distinct(paths: seq<Path>) {
    forall i, j | 0 <= i < j < |paths| :: paths[i] != paths[j]
  }

  function Line(digest: Digest, path: Path): string {
    digest + "  " + path
  }

  function Print(paths: seq<Path>, digests: map<Path, Digest>): string
    requires forall p | p in paths :: p in digests
  {
    if paths == [] then ""
    else Line(digests[paths[0]], paths[0]) + "\n" + Print(paths[1..], digests)
  }

  /** A declaration: a digest, two spaces and a path. */
  predicate Declares(line: string) {
    |line| >= 67 && line[64..66] == "  " && IsSha256(line[..64]) && RunRelative(line[66..])
  }

  /** The path a declaration is about, and the digest it gives. */
  function PathOf(line: string): Path {
    if |line| < 66 then "" else line[66..]
  }

  function DigestOf(line: string): Digest {
    if |line| < 66 then "" else line[..64]
  }

  predicate AllDeclare(lines: seq<string>) {
    forall i | 0 <= i < |lines| :: Declares(lines[i])
  }

  function PathsOf(lines: seq<string>): seq<Path>
  {
    seq(|lines|, i requires 0 <= i < |lines| => PathOf(lines[i]))
  }

  function MapOf(lines: seq<string>): map<Path, Digest> {
    if lines == [] then map[]
    else
      var last := lines[|lines| - 1];
      MapOf(lines[..|lines| - 1])[PathOf(last) := DigestOf(last)]
  }

  lemma {:induction false} MapOfMeans(lines: seq<string>)
    ensures forall i | 0 <= i < |lines| :: PathOf(lines[i]) in MapOf(lines)
    ensures forall p | p in MapOf(lines) :: exists i | 0 <= i < |lines| :: p == PathOf(lines[i]) && MapOf(lines)[p] == DigestOf(lines[i])
  {
    hide PathOf, DigestOf;
    if lines != [] {
      var n := |lines| - 1;
      MapOfMeans(lines[..n]);
      forall p | p in MapOf(lines)
        ensures exists i | 0 <= i < |lines| :: p == PathOf(lines[i]) && MapOf(lines)[p] == DigestOf(lines[i])
      {
        if p != PathOf(lines[n]) {
          var i :| 0 <= i < n && p == PathOf(lines[..n][i]) && MapOf(lines[..n])[p] == DigestOf(lines[..n][i]);
          assert lines[..n][i] == lines[i];
        }
      }
    }
  }

  /** What a checksum file declares, if it is canonical. */
  function Parsed(text: string): Option<map<Path, Digest>> {
    var lines := SplitLines(text);
    if text != "" && text[|text| - 1] != '\n' then None
    else if !AllDeclare(lines) then None
    else if !Distinct(PathsOf(lines)) || !InOrder(PathsOf(lines)) then None
    else Some(MapOf(lines))
  }

  /** Split one line into its digest and path. */
  method ParseLine(line: string) returns (r: Option<(Digest, Path)>)
    ensures r.Some? <==> Declares(line)
    ensures r.Some? ==> r.value == (DigestOf(line), PathOf(line))
  {
    if |line| < 67 || line[64..66] != "  " {
      return None;
    }
    var digest, path := line[..64], line[66..];
    if !IsSha256(digest) || !RunRelative(path) {
      return None;
    }
    return Some((digest, path));
  }

  /** Parse a checksum file line by line, failing closed on any deviation. */
  method ParseChecksums(text: string) returns (r: Option<map<Path, Digest>>)
    ensures r == Parsed(text)
  {
    hide IsSha256, RunRelative, SplitLines, Le, Encode;
    if text != "" && text[|text| - 1] != '\n' {
      return None;
    }
    var lines := SplitLines(text);
    var result: map<Path, Digest> := map[];
    var ordering: seq<Path> := [];
    for i := 0 to |lines|
      invariant AllDeclare(lines[..i]) && ordering == PathsOf(lines[..i])
      invariant result == MapOf(lines[..i]) && Distinct(ordering)
      invariant forall p :: p in result <==> p in ordering
    {
      var parsed := ParseLine(lines[i]);
      if parsed.None? {
        return None;
      }
      var (digest, path) := parsed.value;
      OneMoreLine(lines, i);
      if path in result {
        Repeated(lines, path, i);
        return None;
      }
      result := result[path := digest];
      ordering := ordering + [path];
    }
    assert lines[..|lines|] == lines;
    if !InOrder(ordering) {
      return None;
    }
    return Some(result);
  }

  lemma OneMoreLine(lines: seq<string>, i: nat)
    requires i < |lines| && AllDeclare(lines[..i]) && Declares(lines[i])
    ensures AllDeclare(lines[..i + 1])
    ensures PathsOf(lines[..i + 1]) == PathsOf(lines[..i]) + [PathOf(lines[i])]
    ensures MapOf(lines[..i + 1]) == MapOf(lines[..i])[PathOf(lines[i]) := DigestOf(lines[i])]
  {
    hide Declares;
    assert lines[..i + 1][..i] == lines[..i] && lines[..i + 1][i] == lines[i];
    var before, after := lines[..i], lines[..i + 1];
    assert forall k | 0 <= k < i :: after[k] == before[k];
  }

  lemma Repeated(lines: seq<string>, path: Path, i: nat)
    requires i < |lines| && AllDeclare(lines[..i]) && Declares(lines[i]) && PathOf(lines[i]) == path && path in PathsOf(lines[..i])
    ensures AllDeclare(lines) ==> !Distinct(PathsOf(lines))
  {
    hide Declares;
    if AllDeclare(lines) {
      var k :| 0 <= k < i && PathsOf(lines[..i])[k] == path;
      assert lines[..i][k] == lines[k];
      assert PathsOf(lines)[k] == path && PathsOf(lines)[i] == path;
    }
  }

  /** `paths` is the canonical listing of a map's keys. */
  ghost predicate Lists(paths: seq<Path>, digests: map<Path, Digest>) {
    Distinct(paths) && InOrder(paths) && forall p :: p in paths <==> p in digests
  }

  /** Write the checksum lines of a tree, in canonical order. */
  method ChecksumLines(digests: map<Path, Digest>) returns (text: string)
    ensures exists paths :: Lists(paths, digests) && text == Print(paths, digests)
    ensures (forall p | p in digests :: RunRelative(p) && IsSha256(digests[p])) ==>
      (Parsed(text) == Some(digests) <==> forall p | p in digests :: Unbroken(p))
  {
    hide Parsed, Print, RunRelative, IsSha256, Lists;
    var ordered := Order(digests.Keys);
    KeysListed(ordered, digests);
    NothingPrinted(digests);
    text := "";
    var i := |ordered|;
    assert ordered[i..] == [];
    while i > 0
      invariant 0 <= i <= |ordered| && text == Print(ordered[i..], digests)
    {
      i := i - 1;
      OneMorePrinted(ordered, i, digests);
      text := Line(digests[ordered[i]], ordered[i]) + "\n" + text;
    }
    assert ordered[0..] == ordered;
    if forall p | p in digests :: RunRelative(p) && IsSha256(digests[p]) {
      RoundTrip(ordered, digests);
    }
  }

  /** Paths in the byte order of their encoding. */
  method Order(paths: set<Path>) returns (ordered: seq<Path>)
    ensures Distinct(ordered) && InOrder(ordered) && forall p :: p in ordered <==> p in paths
  {
    hide Le, Encode;
    ordered := [];
    var rest := paths;
    while rest != {}
      invariant Distinct(ordered) && InOrder(ordered) && rest <= paths
      invariant forall p :: p in ordered <==> p in paths && p !in rest
    {
      var p :| p in rest;
      ordered := Insert(ordered, p);
      rest := rest - {p};
    }
  }

  lemma KeysListed(paths: seq<Path>, digests: map<Path, Digest>)
    requires Distinct(paths) && InOrder(paths) && forall p :: p in paths <==> p in digests.Keys
    ensures Lists(paths, digests) && forall p | p in paths :: p in digests
  {
  }

  lemma NothingPrinted(digests: map<Path, Digest>)
    ensures Print([], digests) == ""
  {
  }

  lemma OneMorePrinted(paths: seq<Path>, i: nat, digests: map<Path, Digest>)
    requires i < |paths| && forall p | p in paths :: p in digests
    ensures Print(paths[i..], digests) == Line(digests[paths[i]], paths[i]) + "\n" + Print(paths[i + 1..], digests)
  {
    assert paths[i..][0] == paths[i] && paths[i..][1..] == paths[i + 1..];
  }

  /** Insert a new path at its place. */
  method Insert(paths: seq<Path>, p: Path) returns (r: seq<Path>)
    requires Distinct(paths) && InOrder(paths) && p !in paths
    ensures Distinct(r) && InOrder(r) && forall q :: q in r <==> q in paths || q == p
  {
    hide Encode, Le;
    var i := 0;
    while i < |paths| && Le(Encode(paths[i]), Encode(p))
      invariant 0 <= i <= |paths| && forall k | 0 <= k < i :: Le(Encode(paths[k]), Encode(p))
    {
      i := i + 1;
    }
    forall k | i <= k < |paths|
      ensures Le(Encode(p), Encode(paths[k]))
    {
      LeTotal(Encode(paths[i]), Encode(p));
      if i < k {
        LeTransitive(Encode(p), Encode(paths[i]), Encode(paths[k]));
      }
    }
    r := paths[..i] + [p] + paths[i..];
  }

  lemma {:induction false} LeTotal(a: seq<nat>, b: seq<nat>)
    ensures Le(a, b) || Le(b, a)
  {
    if a != [] && b != [] && a[0] == b[0] {
      LeTotal(a[1..], b[1..]);
    }
  }

  lemma {:induction false} LeTransitive(a: seq<nat>, b: seq<nat>, c: seq<nat>)
    requires Le(a, b) && Le(b, c)
    ensures Le(a, c)
  {
    if a != [] && b != [] && c != [] && a[0] == b[0] == c[0] {
      LeTransitive(a[1..], b[1..], c[1..]);
    }
  }

  /** Splitting undoes terminating: one more unbroken line in front. */
  lemma {:induction false} SplitFirst(line: string, rest: string)
    requires Unbroken(line)
    ensures SplitLines(line + "\n" + rest) == [line] + SplitLines(rest)
  {
    var s := line + "\n" + rest;
    LineEndAt(s, |line|);
    assert s[..|line|] == line && s[|line| + 1..] == rest;
  }

  lemma {:induction false} LineEndAt(s: string, n: nat)
    requires n < |s| && Unbroken(s[..n]) && IsBreak(s[n])
    ensures LineEnd(s) == n
  {
    if n > 0 {
      assert s[0] == s[..n][0] && s[1..][..n - 1] == s[..n][1..];
      LineEndAt(s[1..], n - 1);
    }
  }

  lemma {:induction false} SplitsUnbroken(s: string)
    ensures forall l | l in SplitLines(s) :: Unbroken(l)
    decreases |s|
  {
    if s != "" && LineEnd(s) < |s| {
      var n := LineEnd(s);
      SplitsUnbroken(s[n + (if s[n] == '\r' && n + 1 < |s| && s[n + 1] == '\n' then 2 else 1)..]);
    }
  }

  function LinesOf(paths: seq<Path>, digests: map<Path, Digest>): seq<string>
    requires forall p | p in paths :: p in digests
  {
    seq(|paths|, i requires 0 <= i < |paths| => Line(digests[paths[i]], paths[i]))
  }

  lemma SplitsNothing()
    ensures SplitLines("") == []
  {
  }

  lemma LineUnbroken(digest: Digest, path: Path)
    requires IsSha256(digest) && Unbroken(path)
    ensures Unbroken(Line(digest, path))
  {
  }

  lemma {:induction false} PrintSplits(paths: seq<Path>, digests: map<Path, Digest>)
    requires forall p | p in paths :: p in digests && Unbroken(p) && IsSha256(digests[p])
    ensures SplitLines(Print(paths, digests)) == LinesOf(paths, digests)
    ensures paths != [] ==> Print(paths, digests) != "" && Print(paths, digests)[|Print(paths, digests)| - 1] == '\n'
  {
    hide IsSha256, SplitLines, IsBreak;
    if paths == [] {
      SplitsNothing();
    } else {
      LineUnbroken(digests[paths[0]], paths[0]);
      PrintSplits(paths[1..], digests);
      SplitFirst(Line(digests[paths[0]], paths[0]), Print(paths[1..], digests));
      assert LinesOf(paths, digests) == [Line(digests[paths[0]], paths[0])] + LinesOf(paths[1..], digests);
    }
  }

  lemma LineDeclares(digest: Digest, path: Path)
    requires RunRelative(path) && IsSha256(digest)
    ensures Declares(Line(digest, path)) && PathOf(Line(digest, path)) == path && DigestOf(Line(digest, path)) == digest
  {
    hide Encode, Components;
    var line := Line(digest, path);
    assert line[..64] == digest && line[64..66] == "  " && line[66..] == path;
  }

  lemma MapOfLines(paths: seq<Path>, digests: map<Path, Digest>)
    requires forall p | p in paths :: p in digests && RunRelative(p) && IsSha256(digests[p])
    requires forall p | p in digests :: p in paths
    ensures AllDeclare(LinesOf(paths, digests)) && MapOf(LinesOf(paths, digests)) == digests
  {
    hide Line, Declares, RunRelative, IsSha256, MapOf, PathOf, DigestOf;
    LinesDeclare(paths, digests);
    var lines := LinesOf(paths, digests);
    MapOfMeans(lines);
    forall i | 0 <= i < |paths|
      ensures PathOf(lines[i]) == paths[i] && DigestOf(lines[i]) == digests[paths[i]]
    {
      LineDeclares(digests[paths[i]], paths[i]);
    }
    forall p | p in digests
      ensures p in MapOf(lines)
    {
      var i :| 0 <= i < |paths| && paths[i] == p;
      assert PathOf(lines[i]) == p;
    }
  }

  lemma LinesDeclare(paths: seq<Path>, digests: map<Path, Digest>)
    requires forall p | p in paths :: p in digests && RunRelative(p) && IsSha256(digests[p])
    ensures AllDeclare(LinesOf(paths, digests))
  {
    hide Line, Declares, RunRelative, IsSha256;
    forall i | 0 <= i < |paths|
      ensures Declares(LinesOf(paths, digests)[i])
    {
      LineDeclares(digests[paths[i]], paths[i]);
    }
  }

  lemma PathsOfLines(paths: seq<Path>, digests: map<Path, Digest>)
    requires forall p | p in paths :: p in digests && RunRelative(p) && IsSha256(digests[p])
    requires AllDeclare(LinesOf(paths, digests))
    ensures PathsOf(LinesOf(paths, digests)) == paths
  {
    hide Line, Declares, RunRelative, IsSha256;
    forall i | 0 <= i < |paths|
      ensures PathsOf(LinesOf(paths, digests))[i] == paths[i]
    {
      LineDeclares(digests[paths[i]], paths[i]);
    }
  }

  /** Parsing what was printed gives the map back exactly when no path holds a character at which
      lines break. */
  lemma RoundTrip(paths: seq<Path>, digests: map<Path, Digest>)
    requires Lists(paths, digests) && forall p | p in digests :: RunRelative(p) && IsSha256(digests[p])
    ensures Parsed(Print(paths, digests)) == Some(digests) <==> forall p | p in digests :: Unbroken(p)
  {
    hide RunRelative, IsSha256, Line, Declares, Print, SplitLines, MapOf, InOrder;
    var text := Print(paths, digests);
    if forall p | p in digests :: Unbroken(p) {
      PrintSplits(paths, digests);
      MapOfLines(paths, digests);
      PathsOfLines(paths, digests);
      PrintsNothing(paths, digests);
    } else if Parsed(text) == Some(digests) {
      var p :| p in digests && !Unbroken(p);
      DeclaredUnbroken(text, digests, p);
      assert false;
    }
  }

  lemma PrintsNothing(paths: seq<Path>, digests: map<Path, Digest>)
    requires forall p | p in paths :: p in digests
    ensures paths == [] ==> Print(paths, digests) == ""
  {
  }

  /** A declared path never holds a character at which lines break. */
  lemma DeclaredUnbroken(text: string, digests: map<Path, Digest>, p: Path)
    requires Parsed(text) == Some(digests) && p in digests
    ensures Unbroken(p)
  {
    SplitsUnbroken(text);
    var lines := SplitLines(text);
    MapOfMeans(lines);
    var i :| 0 <= i < |lines| && p == PathOf(lines[i]);
    assert Unbroken(lines[i]);
  }

  /** The canonical listing of a map is unique up to paths with the same bytes, so one printed text
      stands for one map. */
  lemma PrintInjective(paths: seq<Path>, a: map<Path, Digest>, others: seq<Path>, b: map<Path, Digest>)
    requires Lists(paths, a) && forall p | p in a :: RunRelative(p) && IsSha256(a[p]) && Unbroken(p)
    requires Lists(others, b) && forall p | p in b :: RunRelative(p) && IsSha256(b[p]) && Unbroken(p)
    requires Print(paths, a) == Print(others, b)
    ensures a == b
  {
    RoundTrip(paths, a);
    RoundTrip(others, b);
  }
}
