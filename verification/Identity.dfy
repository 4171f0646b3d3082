/** Identities of recipes, builds and artifact sets: what their digests are digests of. */
module Identity {
  import opened Outcomes
  import opened Checksums
  import opened Encodings

  const PREFIX: Bytes := Encode("strixlab-lf-v1\0")

  /** Something named: an entry, a tool by its role, an artifact by its path. */
  datatype Keyed<T> = Keyed(key: string, value: T)

  predicate DistinctKeys<T>(s: seq<Keyed<T>>) {
    forall i, j | 0 <= i < j < |s| :: s[i].key != s[j].key
  }

  predicate Ordered<T>(s: seq<Keyed<T>>) {
    forall i, j | 0 <= i < j < |s| :: Le(Encode(s[i].key), Encode(s[j].key))
  }

  /** The key tells the item. */
  predicate Functional<T(==)>(s: seq<Keyed<T>>) {
    forall i, j | 0 <= i < |s| && 0 <= j < |s| && s[i].key == s[j].key :: s[i] == s[j]
  }

  function InsertKeyed<T>(x: Keyed<T>, s: seq<Keyed<T>>): seq<Keyed<T>> {
    if s == [] then [x]
    else if Le(Encode(x.key), Encode(s[0].key)) then [x] + s
    else [s[0]] + InsertKeyed(x, s[1..])
  }

  /** Sorted by the bytes of the keys. */
  function SortKeyed<T>(s: seq<Keyed<T>>): seq<Keyed<T>> {
    if s == [] then [] else InsertKeyed(s[0], SortKeyed(s[1..]))
  }

  /** Key order. */
  predicate KeyLe<T>(x: Keyed<T>, y: Keyed<T>) {
    Le(Encode(x.key), Encode(y.key))
  }

  lemma {:induction false} InsertAdds<T>(x: Keyed<T>, s: seq<Keyed<T>>)
    ensures multiset(InsertKeyed(x, s)) == multiset(s) + multiset{x}
  {
    hide Le, Encode;
    if s != [] {
      assert s == [s[0]] + s[1..];
      if !Le(Encode(x.key), Encode(s[0].key)) {
        InsertAdds(x, s[1..]);
      }
    }
  }

  lemma {:induction false} InsertOrders<T>(x: Keyed<T>, s: seq<Keyed<T>>)
    requires Ordered(s)
    ensures Ordered(InsertKeyed(x, s))
  {
    if s != [] {
      if KeyLe(x, s[0]) {
        FirstBelow(x, s);
      } else {
        LeTotal(Encode(x.key), Encode(s[0].key));
        InsertOrders(x, s[1..]);
        InsertAdds(x, s[1..]);
        var rest := InsertKeyed(x, s[1..]);
        forall j | 0 <= j < |rest|
          ensures KeyLe(s[0], rest[j])
        {
          InsertedFrom(x, s[1..], rest, j);
          hide Le, Encode;
          if rest[j] != x {
            var k :| 0 <= k < |s[1..]| && s[1..][k] == rest[j];
            assert s[k + 1] == rest[j];
          }
        }
        hide Le, Encode;
        PutFirst(s[0], rest);
      }
    }
  }

  lemma InsertedFrom<T>(x: Keyed<T>, s: seq<Keyed<T>>, r: seq<Keyed<T>>, j: nat)
    requires multiset(r) == multiset(s) + multiset{x} && j < |r|
    ensures r[j] == x || exists k | 0 <= k < |s| :: s[k] == r[j]
  {
    assert r[j] in multiset(r);
    if r[j] != x {
      assert r[j] in multiset(s);
    }
  }

  lemma PutFirst<T>(x: Keyed<T>, s: seq<Keyed<T>>)
    requires Ordered(s) && forall j | 0 <= j < |s| :: KeyLe(x, s[j])
    ensures Ordered([x] + s)
  {
    hide Le, Encode;
    assert forall j | 0 <= j < |s| :: KeyLe(x, s[j]);
  }

  lemma FirstBelow<T>(x: Keyed<T>, s: seq<Keyed<T>>)
    requires Ordered(s) && s != [] && KeyLe(x, s[0])
    ensures Ordered([x] + s)
  {
    hide Le, Encode;
    forall j | 0 <= j < |s|
      ensures KeyLe(x, s[j])
    {
      if j > 0 {
        LeTransitive(Encode(x.key), Encode(s[0].key), Encode(s[j].key));
      }
    }
    PutFirst(x, s);
  }

  lemma {:induction false} SortKeeps<T>(s: seq<Keyed<T>>)
    ensures Ordered(SortKeyed(s)) && multiset(SortKeyed(s)) == multiset(s)
  {
    if s != [] {
      SortKeeps(s[1..]);
      InsertAdds(s[0], SortKeyed(s[1..]));
      InsertOrders(s[0], SortKeyed(s[1..]));
      assert s == [s[0]] + s[1..];
    }
  }

  lemma {:induction false} LeAntisymmetric(a: Bytes, b: Bytes)
    requires Le(a, b) && Le(b, a)
    ensures a == b
  {
    if a != [] && b != [] {
      LeAntisymmetric(a[1..], b[1..]);
      assert a == [a[0]] + a[1..] && b == [b[0]] + b[1..];
    }
  }

  /** There is one sorted arrangement. */
  lemma {:induction false} OrderedUnique<T>(a: seq<Keyed<T>>, b: seq<Keyed<T>>)
    requires Ordered(a) && Ordered(b) && multiset(a) == multiset(b) && Functional(a)
    ensures a == b
  {
    hide Ordered, Functional;
    assert |a| == |multiset(a)| == |multiset(b)| == |b|;
    if a != [] {
      SameFirst(a, b);
      TailKeeps(a);
      TailKeeps(b);
      assert a == [a[0]] + a[1..] && b == [b[0]] + b[1..];
      assert multiset(a[1..]) == multiset(a) - multiset{a[0]} && multiset(b[1..]) == multiset(b) - multiset{b[0]};
      OrderedUnique(a[1..], b[1..]);
    }
  }

  lemma TailKeeps<T>(s: seq<Keyed<T>>)
    requires s != [] && Ordered(s)
    ensures Ordered(s[1..]) && (Functional(s) ==> Functional(s[1..]))
  {
    hide Le, Encode;
  }

  lemma SameFirst<T>(a: seq<Keyed<T>>, b: seq<Keyed<T>>)
    requires Ordered(a) && Ordered(b) && multiset(a) == multiset(b) && Functional(a) && |a| == |b| > 0
    ensures a[0] == b[0]
  {
    hide Encode, Le;
    FromSorted(b, a, 0);
    FromSorted(a, b, 0);
    var i :| 0 <= i < |b| && b[i] == a[0];
    var j :| 0 <= j < |a| && a[j] == b[0];
    if i > 0 && j > 0 {
      assert Le(Encode(b[0].key), Encode(b[i].key)) && Le(Encode(a[0].key), Encode(a[j].key));
      LeAntisymmetric(Encode(a[0].key), Encode(b[0].key));
      EncodeInjective(a[0].key, b[0].key);
      assert a[j].key == a[0].key;
    }
  }

  function Frames<T>(frame: Keyed<T> -> Bytes, s: seq<Keyed<T>>): seq<Bytes> {
    seq(|s|, i requires 0 <= i < |s| => frame(s[i]))
  }

  /** A sorted, framed and counted listing. */
  function Listing<T>(frame: Keyed<T> -> Bytes, s: seq<Keyed<T>>): Bytes {
    Sequence(Frames(frame, SortKeyed(s)))
  }

  /** The frame tells apart the items of these lists. */
  ghost predicate TellsApart<T>(frame: Keyed<T> -> Bytes, a: seq<Keyed<T>>, b: seq<Keyed<T>>) {
    forall i, j | 0 <= i < |a| && 0 <= j < |b| :: frame(a[i]) == frame(b[j]) ==> a[i] == b[j]
  }

  /** Listings are equal exactly when they list the same items, in whatever order. */
  lemma ListingInjective<T>(frame: Keyed<T> -> Bytes, a: seq<Keyed<T>>, b: seq<Keyed<T>>)
    requires Functional(a) && SequenceFits(Frames(frame, SortKeyed(a))) && SequenceFits(Frames(frame, SortKeyed(b)))
    requires TellsApart(frame, a, b)
    ensures Listing(frame, a) == Listing(frame, b) <==> multiset(a) == multiset(b)
  {
    hide Sequence, SequenceFits, Ordered, SortKeyed;
    var s, t := SortKeyed(a), SortKeyed(b);
    SortKeeps(a);
    SortKeeps(b);
    if Listing(frame, a) == Listing(frame, b) {
      assert Sequence(Frames(frame, s)) + [] == Sequence(Frames(frame, t)) + [];
      SequenceInjective(Frames(frame, s), [], Frames(frame, t), []);
      assert |s| == |Frames(frame, s)| == |Frames(frame, t)| == |t|;
      forall k | 0 <= k < |s|
        ensures s[k] == t[k]
      {
        assert Frames(frame, s)[k] == frame(s[k]) && Frames(frame, t)[k] == frame(t[k]);
        FromSorted(a, s, k);
        FromSorted(b, t, k);
      }
      assert s == t;
    }
    if multiset(a) == multiset(b) {
      SortedFunctional(a, s);
      OrderedUnique(s, t);
    }
  }

  lemma FromSorted<T>(a: seq<Keyed<T>>, s: seq<Keyed<T>>, k: nat)
    requires multiset(s) == multiset(a) && k < |s|
    ensures exists i | 0 <= i < |a| :: a[i] == s[k]
  {
    assert s[k] in multiset(s);
    assert s[k] in multiset(a);
  }

  lemma SortedFunctional<T>(a: seq<Keyed<T>>, s: seq<Keyed<T>>)
    requires Functional(a) && multiset(s) == multiset(a)
    ensures Functional(s)
  {
    forall i, j | 0 <= i < |s| && 0 <= j < |s| && s[i].key == s[j].key
      ensures s[i] == s[j]
    {
      FromSorted(a, s, i);
      FromSorted(a, s, j);
    }
  }

  lemma DistinctIsFunctional<T>(s: seq<Keyed<T>>)
    requires DistinctKeys(s)
    ensures Functional(s)
  {
  }

  // ------------------------------------------------------------- entries

  predicate IsEntryName(name: string) {
    && name != ""
    && ('A' <= name[0] <= 'Z' || 'a' <= name[0] <= 'z' || name[0] == '_')
    && forall c | c in name[1..] :: 'A' <= c <= 'Z' || 'a' <= c <= 'z' || '0' <= c <= '9' || c == '_' || c == '.' || c == '-'
  }

  predicate EntriesValid(s: seq<Keyed<string>>) {
    DistinctKeys(s) && forall i | 0 <= i < |s| :: IsEntryName(s[i].key) && '\0' !in s[i].value
  }

  function KeysOf<T>(s: seq<Keyed<T>>): set<string> {
    set i | 0 <= i < |s| :: s[i].key
  }

  /** Check entry names, duplicates, values and, when given, the exact set of names. */
  method ValidatedEntries(values: seq<Keyed<string>>, expected: Option<set<string>>) returns (ok: bool)
    ensures ok <==> EntriesValid(values) && (expected.Some? ==> KeysOf(values) == expected.value)
  {
    hide IsEntryName;
    var names: set<string> := {};
    for i := 0 to |values|
      invariant names == set k | 0 <= k < i :: values[k].key
      invariant forall j, k | 0 <= j < k < i :: values[j].key != values[k].key
      invariant forall k | 0 <= k < i :: IsEntryName(values[k].key) && '\0' !in values[k].value
    {
      if !IsEntryName(values[i].key) || values[i].key in names || '\0' in values[i].value {
        return false;
      }
      assert (set k | 0 <= k < i + 1 :: values[k].key) == names + {values[i].key};
      names := names + {values[i].key};
    }
    return expected.None? || names == expected.value;
  }

  function EntryFields(k: Keyed<string>): seq<Field> {
    [Field("name", Encode(k.key)), Field("value", Encode(k.value))]
  }

  function EntryFrame(domain: string, k: Keyed<string>): Bytes {
    LengthFrame(PREFIX, domain, EntryFields(k))
  }

  function MappingFrame(domain: string, s: seq<Keyed<string>>): Bytes {
    Listing((k: Keyed<string>) => EntryFrame(domain, k), s)
  }

  ghost predicate MappingFits(domain: string, s: seq<Keyed<string>>) {
    && SequenceFits(Frames((k: Keyed<string>) => EntryFrame(domain, k), SortKeyed(s)))
    && forall i | 0 <= i < |s| :: FrameFits(domain, EntryFields(s[i]))
  }

  /** A mapping frame is equal to another of its domain exactly when the entries are the same. */
  lemma MappingInjective(domain: string, a: seq<Keyed<string>>, b: seq<Keyed<string>>)
    requires DistinctKeys(a) && MappingFits(domain, a) && MappingFits(domain, b)
    ensures MappingFrame(domain, a) == MappingFrame(domain, b) <==> multiset(a) == multiset(b)
  {
    hide LengthFrame, FrameFits, SequenceFits, SortKeyed, Encode;
    var frame := (k: Keyed<string>) => EntryFrame(domain, k);
    DistinctIsFunctional(a);
    forall i, j | 0 <= i < |a| && 0 <= j < |b| && frame(a[i]) == frame(b[j])
      ensures a[i] == b[j]
    {
      LengthFrameInjective(PREFIX, domain, EntryFields(a[i]), domain, EntryFields(b[j]));
      EntryFieldsInjective(a[i], b[j]);
    }
    ListingInjective(frame, a, b);
  }

  lemma EntryFieldsInjective(a: Keyed<string>, b: Keyed<string>)
    requires EntryFields(a) == EntryFields(b)
    ensures a == b
  {
    hide Encode;
    assert EntryFields(a)[0].value == EntryFields(b)[0].value && EntryFields(a)[1].value == EntryFields(b)[1].value;
    EncodeInjective(a.key, b.key);
    EncodeInjective(a.value, b.value);
  }

  // ------------------------------------------------------------- artifact sets

  datatype Artifact = Artifact(mode: nat, size: nat, digest: Bytes)

  function ArtifactFields(k: Keyed<Artifact>): seq<Field> {
    [Field("path", Encode(k.key)), Field("mode", U32(k.value.mode)), Field("size_bytes", U64(k.value.size)), Field("sha256", k.value.digest)]
  }

  function ArtifactFrame(k: Keyed<Artifact>): Bytes {
    LengthFrame(PREFIX, "strixlab.build.artifact.v1", ArtifactFields(k))
  }

  ghost predicate ArtifactsFit(s: seq<Keyed<Artifact>>) {
    && SequenceFits(Frames(ArtifactFrame, SortKeyed(s)))
    && forall i | 0 <= i < |s| ::
         FrameFits("strixlab.build.artifact.v1", ArtifactFields(s[i])) && Fits32(s[i].value.mode) && Fits64(s[i].value.size)
  }

  lemma ArtifactsInjective(a: seq<Keyed<Artifact>>, b: seq<Keyed<Artifact>>)
    requires DistinctKeys(a) && ArtifactsFit(a) && ArtifactsFit(b)
    ensures Listing(ArtifactFrame, a) == Listing(ArtifactFrame, b) <==> multiset(a) == multiset(b)
  {
    hide LengthFrame, FrameFits, SequenceFits, SortKeyed, Encode, U32, U64, Fits32, Fits64;
    DistinctIsFunctional(a);
    forall i, j | 0 <= i < |a| && 0 <= j < |b| && ArtifactFrame(a[i]) == ArtifactFrame(b[j])
      ensures a[i] == b[j]
    {
      LengthFrameInjective(PREFIX, "strixlab.build.artifact.v1", ArtifactFields(a[i]), "strixlab.build.artifact.v1", ArtifactFields(b[j]));
      ArtifactFieldsInjective(a[i], b[j]);
    }
    ListingInjective(ArtifactFrame, a, b);
  }

  lemma ArtifactFieldsInjective(a: Keyed<Artifact>, b: Keyed<Artifact>)
    requires ArtifactFields(a) == ArtifactFields(b)
    requires Fits32(a.value.mode) && Fits32(b.value.mode) && Fits64(a.value.size) && Fits64(b.value.size)
    ensures a == b
  {
    hide Encode, U32, U64, Fits32, Fits64;
    var f, g := ArtifactFields(a), ArtifactFields(b);
    assert f[0].value == g[0].value && f[1].value == g[1].value && f[2].value == g[2].value && f[3].value == g[3].value;
    EncodeInjective(a.key, b.key);
    U32Injective(a.value.mode, b.value.mode);
    U64Injective(a.value.size, b.value.size);
  }

  datatype ArtifactSet = ArtifactSet(artifacts: seq<Keyed<Artifact>>, selections: seq<Keyed<string>>)

  const SELECTION := "strixlab.build.selection.v1.entry"

  function SetFields(s: ArtifactSet): seq<Field> {
    [Field("artifacts", Listing(ArtifactFrame, s.artifacts)), Field("selections", MappingFrame(SELECTION, s.selections))]
  }

  /** What an artifact-set identity is the digest of. */
  function SetPreimage(s: ArtifactSet): Bytes {
    LengthFrame(PREFIX, "strixlab.build.artifact-set.v1", SetFields(s))
  }

  /** The checks made before encoding: distinct paths and names, and lengths that pack. */
  ghost predicate SetOk(s: ArtifactSet) {
    && DistinctKeys(s.artifacts) && DistinctKeys(s.selections)
    && ArtifactsFit(s.artifacts) && MappingFits(SELECTION, s.selections) && FrameFits("strixlab.build.artifact-set.v1", SetFields(s))
  }

  /** Two artifact sets have one identity exactly when they hold the same artifacts and selections,
      in whatever order they are listed. */
  lemma ArtifactSetIdentity(a: ArtifactSet, b: ArtifactSet)
    requires SetOk(a) && SetOk(b)
    ensures SetPreimage(a) == SetPreimage(b) <==>
      multiset(a.artifacts) == multiset(b.artifacts) && multiset(a.selections) == multiset(b.selections)
  {
    hide LengthFrame, FrameFits, Listing, MappingFrame, DistinctKeys, ArtifactsFit, MappingFits;
    ArtifactsInjective(a.artifacts, b.artifacts);
    MappingInjective(SELECTION, a.selections, b.selections);
    if SetPreimage(a) == SetPreimage(b) {
      LengthFrameInjective(PREFIX, "strixlab.build.artifact-set.v1", SetFields(a), "strixlab.build.artifact-set.v1", SetFields(b));
      assert SetFields(a)[0].value == SetFields(b)[0].value && SetFields(a)[1].value == SetFields(b)[1].value;
    }
  }

  // ------------------------------------------------------------- recipes

  /** A recipe after its paths are normalized. */
  datatype Recipe = Recipe(
    candidate: Bytes,
    sourceAdapter: string,
    generator: string,
    buildType: string,
    cmake: seq<Keyed<Scalar>>,
    targets: seq<Keyed<()>>,
    environment: seq<Keyed<string>>,
    mode: string,
    roles: seq<Keyed<string>>,
    jobs: nat)

  const CMAKE_ENTRY := "strixlab.build.cmake-entry.v1"
  const ENVIRONMENT := "strixlab.build.environment.v1.entry"
  const TOOL_ROLE := "strixlab.build.tool-role.v1.entry"
  const RECIPE := "strixlab.build.recipe.v1"

  function ScalarFields(k: Keyed<Scalar>): seq<Field> {
    [Field("name", Encode(k.key)), Field("value", ScalarBytes(k.value))]
  }

  function ScalarFrame(k: Keyed<Scalar>): Bytes {
    LengthFrame(PREFIX, CMAKE_ENTRY, ScalarFields(k))
  }

  function TargetFrame(k: Keyed<()>): Bytes {
    Encode(k.key)
  }

  function RecipeFields(r: Recipe): seq<Field> {
    [ Field("identity_version", U32(1)),
      Field("candidate_digest", r.candidate),
      Field("source_adapter", Encode(r.sourceAdapter)),
      Field("build_adapter", Encode("cmake-ninja-llama-cpp")),
      Field("generator", Encode(r.generator)),
      Field("build_type", Encode(r.buildType)),
      Field("cmake", Listing(ScalarFrame, r.cmake)),
      Field("targets", Listing(TargetFrame, r.targets)),
      Field("environment", MappingFrame(ENVIRONMENT, r.environment)),
      Field("toolchain_mode", Encode(r.mode)),
      Field("tool_roles", MappingFrame(TOOL_ROLE, r.roles)),
      Field("jobs", U32(r.jobs)) ]
  }

  /** What a recipe identity is the digest of. */
  function RecipePreimage(r: Recipe): Bytes {
    LengthFrame(PREFIX, RECIPE, RecipeFields(r))
  }

  ghost predicate CmakeFits(s: seq<Keyed<Scalar>>) {
    SequenceFits(Frames(ScalarFrame, SortKeyed(s))) && forall i | 0 <= i < |s| :: FrameFits(CMAKE_ENTRY, ScalarFields(s[i]))
  }

  ghost predicate TargetsFit(s: seq<Keyed<()>>) {
    SequenceFits(Frames(TargetFrame, SortKeyed(s)))
  }

  ghost predicate RecipeOk(r: Recipe) {
    && DistinctKeys(r.cmake) && DistinctKeys(r.environment) && DistinctKeys(r.roles)
    && CmakeFits(r.cmake) && TargetsFit(r.targets) && MappingFits(ENVIRONMENT, r.environment) && MappingFits(TOOL_ROLE, r.roles)
    && Fits32(r.jobs) && FrameFits(RECIPE, RecipeFields(r))
  }

  /** Equal up to the order of settings, targets, entries and roles. */
  ghost predicate SameRecipe(a: Recipe, b: Recipe) {
    && a.candidate == b.candidate && a.sourceAdapter == b.sourceAdapter && a.generator == b.generator
    && a.buildType == b.buildType && a.mode == b.mode && a.jobs == b.jobs
    && multiset(a.cmake) == multiset(b.cmake) && multiset(a.targets) == multiset(b.targets)
    && multiset(a.environment) == multiset(b.environment) && multiset(a.roles) == multiset(b.roles)
  }

  lemma CmakeInjective(a: seq<Keyed<Scalar>>, b: seq<Keyed<Scalar>>)
    requires DistinctKeys(a) && CmakeFits(a) && CmakeFits(b)
    ensures Listing(ScalarFrame, a) == Listing(ScalarFrame, b) <==> multiset(a) == multiset(b)
  {
    hide LengthFrame, FrameFits, SequenceFits, SortKeyed, Encode, ScalarBytes;
    DistinctIsFunctional(a);
    forall i, j | 0 <= i < |a| && 0 <= j < |b| && ScalarFrame(a[i]) == ScalarFrame(b[j])
      ensures a[i] == b[j]
    {
      LengthFrameInjective(PREFIX, CMAKE_ENTRY, ScalarFields(a[i]), CMAKE_ENTRY, ScalarFields(b[j]));
      assert ScalarFields(a[i])[0].value == ScalarFields(b[j])[0].value && ScalarFields(a[i])[1].value == ScalarFields(b[j])[1].value;
      EncodeInjective(a[i].key, b[j].key);
      ScalarInjective(a[i].value, b[j].value);
    }
    ListingInjective(ScalarFrame, a, b);
  }

  lemma TargetsInjective(a: seq<Keyed<()>>, b: seq<Keyed<()>>)
    requires TargetsFit(a) && TargetsFit(b)
    ensures Listing(TargetFrame, a) == Listing(TargetFrame, b) <==> multiset(a) == multiset(b)
  {
    hide SequenceFits, SortKeyed, Encode;
    forall i, j | 0 <= i < |a| && 0 <= j < |b| && TargetFrame(a[i]) == TargetFrame(b[j])
      ensures a[i] == b[j]
    {
      EncodeInjective(a[i].key, b[j].key);
      assert a[i].value == () && b[j].value == ();
    }
    forall i, j | 0 <= i < |a| && 0 <= j < |a| && a[i].key == a[j].key
      ensures a[i] == a[j]
    {
      assert a[i].value == () && a[j].value == ();
    }
    ListingInjective(TargetFrame, a, b);
  }

  /** Two recipes have one identity exactly when they are the same recipe. */
  lemma RecipeIdentity(a: Recipe, b: Recipe)
    requires RecipeOk(a) && RecipeOk(b)
    ensures RecipePreimage(a) == RecipePreimage(b) <==> SameRecipe(a, b)
  {
    hide LengthFrame, FrameFits, Listing, MappingFrame, DistinctKeys, CmakeFits, TargetsFit, MappingFits, Encode, U32, Fits32;
    CmakeInjective(a.cmake, b.cmake);
    TargetsInjective(a.targets, b.targets);
    MappingInjective(ENVIRONMENT, a.environment, b.environment);
    MappingInjective(TOOL_ROLE, a.roles, b.roles);
    if RecipePreimage(a) == RecipePreimage(b) {
      LengthFrameInjective(PREFIX, RECIPE, RecipeFields(a), RECIPE, RecipeFields(b));
      assert forall i | 0 <= i < 12 :: RecipeFields(a)[i].value == RecipeFields(b)[i].value;
      assert RecipeFields(a)[1].value == RecipeFields(b)[1].value;
      EncodeInjective(a.sourceAdapter, b.sourceAdapter) by { assert RecipeFields(a)[2].value == RecipeFields(b)[2].value; }
      EncodeInjective(a.generator, b.generator) by { assert RecipeFields(a)[4].value == RecipeFields(b)[4].value; }
      EncodeInjective(a.buildType, b.buildType) by { assert RecipeFields(a)[5].value == RecipeFields(b)[5].value; }
      assert RecipeFields(a)[6].value == RecipeFields(b)[6].value && RecipeFields(a)[7].value == RecipeFields(b)[7].value;
      assert RecipeFields(a)[8].value == RecipeFields(b)[8].value && RecipeFields(a)[10].value == RecipeFields(b)[10].value;
      EncodeInjective(a.mode, b.mode) by { assert RecipeFields(a)[9].value == RecipeFields(b)[9].value; }
      U32Injective(a.jobs, b.jobs) by { assert RecipeFields(a)[11].value == RecipeFields(b)[11].value; }
    }
  }

  // ------------------------------------------------------------- machine builds

  datatype Tool = Tool(path: string, realpath: string, mode: nat, size: nat, digest: Bytes, version: Bytes, search: Bytes)

  const TOOL := "strixlab.build.tool-observation.v1"
  const MACHINE_ENVIRONMENT := "strixlab.build.machine-environment.v1.entry"
  const MACHINE := "strixlab.build.machine.v1"

  function ToolFields(k: Keyed<Tool>): seq<Field> {
    var t := k.value;
    [ Field("role", Encode(k.key)), Field("path", Encode(t.path)), Field("realpath", Encode(t.realpath)), Field("mode", U32(t.mode)),
      Field("size_bytes", U64(t.size)), Field("sha256", t.digest), Field("version_sha256", t.version), Field("search_sha256", t.search) ]
  }

  function ToolFrame(k: Keyed<Tool>): Bytes {
    LengthFrame(PREFIX, TOOL, ToolFields(k))
  }

  datatype Build = Build(recipe: Bytes, tools: seq<Keyed<Tool>>, selections: seq<Keyed<string>>, environment: seq<Keyed<string>>)

  function BuildFields(b: Build): seq<Field> {
    [ Field("recipe_digest", b.recipe), Field("tools", Listing(ToolFrame, b.tools)),
      Field("selections", MappingFrame(SELECTION, b.selections)), Field("environment", MappingFrame(MACHINE_ENVIRONMENT, b.environment)) ]
  }

  /** What a build identity is the digest of. */
  function BuildPreimage(b: Build): Bytes {
    LengthFrame(PREFIX, MACHINE, BuildFields(b))
  }

  ghost predicate ToolsFit(s: seq<Keyed<Tool>>) {
    && SequenceFits(Frames(ToolFrame, SortKeyed(s)))
    && forall i | 0 <= i < |s| :: FrameFits(TOOL, ToolFields(s[i])) && Fits32(s[i].value.mode) && Fits64(s[i].value.size)
  }

  ghost predicate BuildOk(b: Build) {
    && DistinctKeys(b.tools) && DistinctKeys(b.selections) && DistinctKeys(b.environment)
    && ToolsFit(b.tools) && MappingFits(SELECTION, b.selections) && MappingFits(MACHINE_ENVIRONMENT, b.environment)
    && FrameFits(MACHINE, BuildFields(b))
  }

  lemma ToolFieldsInjective(a: Keyed<Tool>, b: Keyed<Tool>)
    requires ToolFields(a) == ToolFields(b)
    requires Fits32(a.value.mode) && Fits32(b.value.mode) && Fits64(a.value.size) && Fits64(b.value.size)
    ensures a == b
  {
    hide Encode, U32, U64, Fits32, Fits64;
    var f, g := ToolFields(a), ToolFields(b);
    assert f[0].value == g[0].value && f[1].value == g[1].value && f[2].value == g[2].value && f[3].value == g[3].value;
    assert f[4].value == g[4].value && f[5].value == g[5].value && f[6].value == g[6].value && f[7].value == g[7].value;
    EncodeInjective(a.key, b.key);
    EncodeInjective(a.value.path, b.value.path);
    EncodeInjective(a.value.realpath, b.value.realpath);
    U32Injective(a.value.mode, b.value.mode);
    U64Injective(a.value.size, b.value.size);
  }

  lemma ToolsInjective(a: seq<Keyed<Tool>>, b: seq<Keyed<Tool>>)
    requires DistinctKeys(a) && ToolsFit(a) && ToolsFit(b)
    ensures Listing(ToolFrame, a) == Listing(ToolFrame, b) <==> multiset(a) == multiset(b)
  {
    hide LengthFrame, FrameFits, SequenceFits, SortKeyed, Encode, U32, U64, Fits32, Fits64;
    DistinctIsFunctional(a);
    forall i, j | 0 <= i < |a| && 0 <= j < |b| && ToolFrame(a[i]) == ToolFrame(b[j])
      ensures a[i] == b[j]
    {
      LengthFrameInjective(PREFIX, TOOL, ToolFields(a[i]), TOOL, ToolFields(b[j]));
      ToolFieldsInjective(a[i], b[j]);
    }
    ListingInjective(ToolFrame, a, b);
  }

  /** The identities of a recipe, a build and an artifact set are digests of different bytes, whatever
      they identify. */
  lemma DomainsSeparate(r: Recipe, b: Build, s: ArtifactSet)
    requires RecipeOk(r) && BuildOk(b) && SetOk(s)
    ensures RecipePreimage(r) != BuildPreimage(b) && BuildPreimage(b) != SetPreimage(s) && RecipePreimage(r) != SetPreimage(s)
  {
    hide LengthFrame, FrameFits, RecipeFields, BuildFields, SetFields, DistinctKeys, CmakeFits, TargetsFit, MappingFits, ToolsFit, ArtifactsFit, Fits32;
    if RecipePreimage(r) == BuildPreimage(b) {
      LengthFrameInjective(PREFIX, RECIPE, RecipeFields(r), MACHINE, BuildFields(b));
    }
    if BuildPreimage(b) == SetPreimage(s) {
      LengthFrameInjective(PREFIX, MACHINE, BuildFields(b), "strixlab.build.artifact-set.v1", SetFields(s));
    }
    if RecipePreimage(r) == SetPreimage(s) {
      LengthFrameInjective(PREFIX, RECIPE, RecipeFields(r), "strixlab.build.artifact-set.v1", SetFields(s));
    }
  }

  /** Two builds have one identity exactly when recipe, tools, selections and environment agree. */
  lemma BuildIdentity(a: Build, b: Build)
    requires BuildOk(a) && BuildOk(b)
    ensures BuildPreimage(a) == BuildPreimage(b) <==>
      && a.recipe == b.recipe && multiset(a.tools) == multiset(b.tools)
      && multiset(a.selections) == multiset(b.selections) && multiset(a.environment) == multiset(b.environment)
  {
    hide LengthFrame, FrameFits, Listing, MappingFrame, DistinctKeys, ToolsFit, MappingFits;
    ToolsInjective(a.tools, b.tools);
    MappingInjective(SELECTION, a.selections, b.selections);
    MappingInjective(MACHINE_ENVIRONMENT, a.environment, b.environment);
    if BuildPreimage(a) == BuildPreimage(b) {
      LengthFrameInjective(PREFIX, MACHINE, BuildFields(a), MACHINE, BuildFields(b));
      var f, g := BuildFields(a), BuildFields(b);
      assert f[0].value == g[0].value && f[1].value == g[1].value && f[2].value == g[2].value && f[3].value == g[3].value;
    }
  }
}
