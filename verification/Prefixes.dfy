/** Replacing a local toolchain prefix of a path by its logical name. */
module Prefixes {
  import opened Outcomes

  /** The components of a normalized absolute path, below its root. */
  type AbsolutePath = seq<string>

  /** A path below a named prefix. */
  datatype Logical = Logical(name: string, relative: seq<string>)

  /** The prefix is an ancestor of the path, or the path itself. */
  predicate Under(path: AbsolutePath, prefix: AbsolutePath) {
    prefix <= path
  }

  /** The name's prefix is the longest that matches, and no other name has one as long. */
  ghost predicate Wins(path: AbsolutePath, prefixes: map<string, AbsolutePath>, name: string) {
    && name in prefixes && Under(path, prefixes[name])
    && forall other | other in prefixes && other != name && Under(path, prefixes[other]) :: |prefixes[other]| < |prefixes[name]|
  }

  /** Normalize a path against the declared prefixes; `Raised` when none matches or the longest
      match is not unique. */
  method NormalizePrefixPath(path: AbsolutePath, prefixes: map<string, AbsolutePath>) returns (r: Outcome<Logical>)
    ensures !r.Crashed?
    ensures r.Done? <==> exists name :: Wins(path, prefixes, name)
    ensures r.Done? ==> Wins(path, prefixes, r.value.name) && prefixes[r.value.name] + r.value.relative == path
  {
    var matches: set<string> := {};
    var longest := 0;
    var rest := prefixes.Keys;
    while rest != {}
      invariant rest <= prefixes.Keys
      invariant forall n :: n in matches <==> n in prefixes && n !in rest && Under(path, prefixes[n])
      invariant forall n | n in matches :: |prefixes[n]| <= longest
      invariant matches != {} ==> exists n | n in matches :: |prefixes[n]| == longest
    {
      var n :| n in rest;
      if Under(path, prefixes[n]) {
        longest := if matches == {} || |prefixes[n]| > longest then |prefixes[n]| else longest;
        matches := matches + {n};
      }
      rest := rest - {n};
    }
    if matches == {} {
      return Raised;
    }
    var winners := set n | n in matches && |prefixes[n]| == longest;
    assert winners != {} by { var n :| n in matches && |prefixes[n]| == longest; assert n in winners; }
    var name :| name in winners;
    if winners != {name} {
      TwoWinners(path, prefixes, winners, name, longest);
      return Raised;
    }
    forall n | n in prefixes && n != name && Under(path, prefixes[n])
      ensures |prefixes[n]| < |prefixes[name]|
    {
      assert n in matches && n !in winners;
    }
    assert Wins(path, prefixes, name);
    return Done(Logical(name, path[|prefixes[name]|..]));
  }

  lemma TwoWinners(path: AbsolutePath, prefixes: map<string, AbsolutePath>, winners: set<string>, name: string, longest: nat)
    requires name in winners && winners != {name}
    requires forall n | n in winners :: n in prefixes && Under(path, prefixes[n]) && |prefixes[n]| == longest
    requires forall n | n in prefixes && Under(path, prefixes[n]) :: |prefixes[n]| <= longest
    ensures !exists n :: Wins(path, prefixes, n)
  {
    assert winners - {name} != {} by { assert winners == (winners - {name}) + {name}; }
    var other :| other in winners - {name};
  }

  /** The result depends on the path and the prefixes alone, and no two paths share one. */
  lemma NormalizationInjective(p: AbsolutePath, q: AbsolutePath, prefixes: map<string, AbsolutePath>, a: Logical, b: Logical)
    requires Wins(p, prefixes, a.name) && prefixes[a.name] + a.relative == p
    requires Wins(q, prefixes, b.name) && prefixes[b.name] + b.relative == q
    ensures p == q <==> a == b
  {
    if p == q && a.name != b.name {
      assert false;
    }
    if p == q {
      assert a.relative == p[|prefixes[a.name]|..] == b.relative;
    }
  }

  /** A path that some prefix matches is normalized exactly when no other name declares the very
      directory of its longest match. */
  lemma AmbiguousMeans(path: AbsolutePath, prefixes: map<string, AbsolutePath>, name: string)
    requires name in prefixes && Under(path, prefixes[name])
    requires forall n | n in prefixes && Under(path, prefixes[n]) :: |prefixes[n]| <= |prefixes[name]|
    ensures (exists n :: Wins(path, prefixes, n)) <==> forall other | other in prefixes && other != name :: prefixes[other] != prefixes[name]
  {
    if forall other | other in prefixes && other != name :: prefixes[other] != prefixes[name] {
      forall other | other in prefixes && other != name && Under(path, prefixes[other])
        ensures |prefixes[other]| < |prefixes[name]|
      {
        SameLength(path, prefixes[other], prefixes[name]);
      }
      assert Wins(path, prefixes, name);
    }
  }

  lemma SameLength(path: AbsolutePath, a: AbsolutePath, b: AbsolutePath)
    requires a <= path && b <= path && a != b
    ensures |a| != |b|
  {
    assert a == path[..|a|] && b == path[..|b|];
  }
}
