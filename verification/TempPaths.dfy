/** The path of the writer temp beside a file: its name between dots, a random token and a suffix. */
module TempPaths {
  import opened Checksums

  /** How many bytes longer the temp's path is. */
  const TEMP_BYTES := 22

  /** `path` is inside the directory `dir`. */
  predicate Inside(path: Path, dir: Path) {
    |dir| < |path| && path[..|dir|] == dir && path[|dir|] == '/'
  }

  predicate IsToken(token: string) {
    |token| == 16 && forall c | c in token :: '0' <= c <= '9' || 'a' <= c <= 'f'
  }

  function TempPath(path: Path, token: string): Path {
    if '/' in path then [path[0]] + TempPath(path[1..], token) else TempName(path, token)
  }

  function TempName(name: string, token: string): string {
    "." + name + "." + token + ".tmp"
  }

  lemma {:induction false} EncodeAppend(a: string, b: string)
    ensures Encode(a + b) == Encode(a) + Encode(b)
  {
    hide Utf8;
    if a == "" {
      assert a + b == b;
    } else {
      EncodeAppend(a[1..], b);
      assert (a + b)[1..] == a[1..] + b && (a + b)[0] == a[0];
    }
  }

  lemma {:induction false} EncodeAscii(s: string)
    requires forall c | c in s :: c as int < 0x80
    ensures |Encode(s)| == |s|
  {
    if s != "" {
      assert s[0] in s;
      forall c | c in s[1..]
        ensures c as int < 0x80
      {
        assert c in s;
      }
      EncodeAscii(s[1..]);
    }
  }

  lemma {:induction false} TempBytes(path: Path, token: string)
    requires IsToken(token)
    ensures |Encode(TempPath(path, token))| == |Encode(path)| + TEMP_BYTES
  {
    if '/' in path {
      TempBytes(path[1..], token);
      var temp := TempPath(path, token);
      assert temp[0] == path[0] && temp[1..] == TempPath(path[1..], token);
    } else {
      var end := "." + token + ".tmp";
      assert TempPath(path, token) == "." + (path + end);
      EncodeAppend(".", path + end);
      EncodeAppend(path, end);
      EncodeAscii(".");
      EncodeAscii(end);
    }
  }

  lemma {:induction false} TempChars(path: Path, token: string, c: char)
    ensures c in TempPath(path, token) <==> c in path || c in TempName("", token)
  {
    if '/' in path {
      TempChars(path[1..], token, c);
      assert path == [path[0]] + path[1..];
    }
  }

  lemma {:induction false} OneComponent(name: string)
    requires '/' !in name
    ensures Components(name) == [name]
  {
    if name != "" {
      OneComponent(name[1..]);
      assert name == [name[0]] + name[1..];
    }
  }

  lemma {:induction false} MoreComponents(path: Path)
    requires '/' in path
    ensures |Components(path)| >= 2
  {
    if path[0] != '/' {
      MoreComponents(path[1..]);
    }
  }

  /** Only the last component differs. */
  lemma {:induction false} TempComponents(path: Path, token: string)
    requires IsToken(token)
    ensures var parts := Components(path);
      Components(TempPath(path, token)) == parts[|parts| - 1 := TempName(parts[|parts| - 1], token)]
  {
    if '/' in path {
      var rest := path[1..];
      var temp := TempPath(path, token);
      assert temp[0] == path[0] && temp[1..] == TempPath(rest, token);
      TempComponents(rest, token);
      if path[0] != '/' {
        assert '/' in rest;
        MoreComponents(rest);
      }
    } else {
      OneComponent(path);
      OneComponent(TempName(path, token));
    }
  }

  predicate PartsOk(path: Path) {
    forall part | part in Components(path) :: part != "" && part != "." && part != ".."
  }

  lemma TempParts(path: Path, token: string)
    requires IsToken(token) && PartsOk(path)
    ensures PartsOk(TempPath(path, token))
  {
    TempComponents(path, token);
    hide TempPath, Components;
    var parts := Components(path);
    var temps := parts[|parts| - 1 := TempName(parts[|parts| - 1], token)];
    forall part | part in temps
      ensures part != "" && part != "." && part != ".."
    {
      var i :| 0 <= i < |temps| && part == temps[i];
      if i < |parts| - 1 {
        assert parts[i] in parts;
      }
    }
  }

  predicate CharsOk(path: Path) {
    path != "" && '\\' !in path && forall c | c in path :: c >= ' ' && c as int != 127
  }

  lemma TempCharsOk(path: Path, token: string)
    requires IsToken(token) && CharsOk(path)
    ensures CharsOk(TempPath(path, token)) && (Unbroken(TempPath(path, token)) <==> Unbroken(path))
  {
    hide TempPath;
    var temp := TempPath(path, token);
    forall c
      ensures c in temp <==> c in path || c in TempName("", token)
    {
      TempChars(path, token, c);
    }
    assert '.' in TempName("", token);
    assert forall c | c in TempName("", token) :: c == '.' || c in token || c in "tmp";
  }

  /** The temp beside a run-relative path is run-relative exactly when it is short enough, and breaks
      lines exactly when the path does. */
  lemma TempRelative(path: Path, token: string)
    requires RunRelative(path) && IsToken(token)
    ensures RunRelative(TempPath(path, token)) <==> |Encode(path)| + TEMP_BYTES <= MAX_PATH_BYTES
    ensures Unbroken(TempPath(path, token)) <==> Unbroken(path)
  {
    TempBytes(path, token);
    TempCharsOk(path, token);
    TempParts(path, token);
    hide TempPath, Components, Encode, Unbroken;
  }
}
