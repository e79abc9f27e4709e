/**
 * URL classification of the modpack service (`ModpackService.detect_source`):
 * the CurseForge patterns, then the Modrinth pattern, are searched for
 * anywhere in the URL with Python's `re.search`; the first pattern that is
 * found decides the source, its first group is the slug and its second
 * group, when present, the file or version id.
 */
module ModpackSource {
  import opened Wrappers
  import opened PyStr

  /** `ModpackSource` */
  datatype Source = CurseForge | Modrinth | Unknown

  /** The character classes the patterns' groups are made of. */
  datatype CharClass =
    | SlugChars   // [a-zA-Z0-9-]
    | DigitChars  // \d
    | AlnumChars  // [a-zA-Z0-9]

  predicate InClass(c: char, cls: CharClass) {
    match cls
    case SlugChars => IsAsciiLetter(c) || IsDigit(c) || c == '-'
    case DigitChars => IsDigit(c)
    case AlnumChars => IsAsciiLetter(c) || IsDigit(c)
  }

  predicate AllInClass(s: string, cls: CharClass) {
    forall k :: 0 <= k < |s| ==> InClass(s[k], cls)
  }

  /**
   * A regular expression of the form `<prefix>([a-zA-Z0-9-]+)(?:<marker>(<id>+))?`
   * with literal `prefix` and `marker`: the form of every pattern `detect_source` tries.
   */
  datatype Pattern = Pattern(prefix: string, marker: string, idClass: CharClass)

  const CurseForgePattern := Pattern("curseforge.com/minecraft/modpacks/", "/files/", DigitChars)
  const LegacyCurseForgePattern := Pattern("legacy." + CurseForgePattern.prefix, "/files/", DigitChars)
  const ModrinthPattern := Pattern("modrinth.com/modpack/", "/version/", AlnumChars)

  /** `CURSEFORGE_PATTERNS` and `MODRINTH_PATTERNS`, in order. */
  const CurseForgePatterns := [CurseForgePattern, LegacyCurseForgePattern]
  const ModrinthPatterns := [ModrinthPattern]

  /** `match.group(1)` and `match.group(2)` of a successful match. */
  datatype Groups = Groups(slug: string, id: Option<string>)

  /** Length of the longest run of `cls` characters starting at `i`: a greedy `+`. */
  function RunLength(s: string, i: nat, cls: CharClass): (n: nat)
    requires i <= |s|
    ensures i + n <= |s|
    ensures forall k :: i <= k < i + n ==> InClass(s[k], cls)
    ensures i + n == |s| || !InClass(s[i + n], cls)
    decreases |s| - i
  {
    if i < |s| && InClass(s[i], cls) then 1 + RunLength(s, i + 1, cls) else 0
  }

  /**
   * The pattern matched at position `i` of `s`. The slug takes the longest
   * run of slug characters; the optional group is taken when the marker and
   * at least one id character follow, and then takes the longest id run.
   */
  function MatchAt(p: Pattern, s: string, i: nat): Option<Groups>
    requires i <= |s|
  {
    if !StartsWith(s[i..], p.prefix) then None
    else MatchGroups(p.marker, p.idClass, s, i + |p.prefix|)
  }

  /** The groups matched from position `j`, right after the prefix. */
  function MatchGroups(marker: string, idClass: CharClass, s: string, j: nat): Option<Groups>
    requires j <= |s|
  {
    var n := RunLength(s, j, SlugChars);
    if n == 0 then None
    else
      var e := j + n;
      var m := if StartsWith(s[e..], marker) then RunLength(s, e + |marker|, idClass) else 0;
      Some(Groups(s[j..e], if m == 0 then None else Some(s[e + |marker|..e + |marker| + m])))
  }

  /** The leftmost position at or after `i` where the pattern matches. */
  function SearchFrom(p: Pattern, s: string, i: nat): (r: Option<nat>)
    requires i <= |s|
    ensures r.Some? ==> i <= r.value <= |s| && MatchAt(p, s, r.value).Some?
    ensures r.Some? ==> forall k :: i <= k < r.value ==> MatchAt(p, s, k).None?
    ensures r.None? ==> forall k :: i <= k <= |s| ==> MatchAt(p, s, k).None?
    decreases |s| - i
  {
    if MatchAt(p, s, i).Some? then Some(i)
    else if i == |s| then None
    else SearchFrom(p, s, i + 1)
  }

  /** `re.search(p, s)`: the groups of the leftmost match. */
  function Search(p: Pattern, s: string): Option<Groups> {
    match SearchFrom(p, s, 0)
    case Some(i) => MatchAt(p, s, i)
    case None => None
  }

  /** The groups of the first pattern in `ps` that is found in `s`. */
  function FirstMatch(ps: seq<Pattern>, s: string): Option<Groups> {
    if ps == [] then None
    else
      match Search(ps[0], s)
      case Some(g) => Some(g)
      case None => FirstMatch(ps[1..], s)
  }

  /** The triple `detect_source` returns: source, slug and optional file/version id. */
  datatype Detection = Detection(source: Source, slug: Option<string>, id: Option<string>)

  /** What `detect_source(url)` returns. */
  function Detect(url: string): Detection {
    match FirstMatch(CurseForgePatterns, url)
    case Some(g) => Detection(CurseForge, Some(g.slug), g.id)
    case None =>
      match FirstMatch(ModrinthPatterns, url)
      case Some(g) => Detection(Modrinth, Some(g.slug), g.id)
      case None => Detection(Unknown, None, None)
  }

  /** `detect_source`: the two pattern lists are tried in turn and the first match returns. */
  method DetectSource(url: string) returns (d: Detection)
    ensures d == Detect(url)
  {
    var k := 0;
    while k < |CurseForgePatterns|
      invariant 0 <= k <= |CurseForgePatterns|
      invariant FirstMatch(CurseForgePatterns, url) == FirstMatch(CurseForgePatterns[k..], url)
    {
      var m := Search(CurseForgePatterns[k], url);
      if m.Some? {
        return Detection(CurseForge, Some(m.value.slug), m.value.id);
      }
      assert CurseForgePatterns[k..][1..] == CurseForgePatterns[k + 1..];
      k := k + 1;
    }
    k := 0;
    while k < |ModrinthPatterns|
      invariant 0 <= k <= |ModrinthPatterns|
      invariant FirstMatch(ModrinthPatterns, url) == FirstMatch(ModrinthPatterns[k..], url)
    {
      var m := Search(ModrinthPatterns[k], url);
      if m.Some? {
        return Detection(Modrinth, Some(m.value.slug), m.value.id);
      }
      assert ModrinthPatterns[k..][1..] == ModrinthPatterns[k + 1..];
      k := k + 1;
    }
    return Detection(Unknown, None, None);
  }

  // ------------------------------------------------------------------ lemmas

  /** The groups of a match at `i`: the slug directly follows the prefix, the id the marker. */
  lemma MatchAtShape(p: Pattern, s: string, i: nat)
    requires i <= |s| && MatchAt(p, s, i).Some?
    ensures var g := MatchAt(p, s, i).value;
      && g.slug != [] && AllInClass(g.slug, SlugChars)
      && OccursAt(s, p.prefix + g.slug, i)
      && (g.id.Some? ==> g.id.value != [] && AllInClass(g.id.value, p.idClass)
                         && OccursAt(s, p.prefix + g.slug + p.marker + g.id.value, i))
  {
    var g := MatchAt(p, s, i).value;
    MatchAtSlug(p, s, i);
    OccursConcat(s, p.prefix, g.slug, i);
    if g.id.Some? {
      MatchAtId(p, s, i);
      var head := p.prefix + g.slug;
      OccursConcat(s, head, p.marker, i);
      OccursConcat(s, head + p.marker, g.id.value, i);
    }
  }

  /** The slug group: a non-empty run of slug characters right after the prefix. */
  lemma MatchAtSlug(p: Pattern, s: string, i: nat)
    requires i <= |s| && MatchAt(p, s, i).Some?
    ensures var g := MatchAt(p, s, i).value;
      && g.slug != [] && AllInClass(g.slug, SlugChars)
      && OccursAt(s, p.prefix, i) && OccursAt(s, g.slug, i + |p.prefix|)
  {
    var j := i + |p.prefix|;
    assert s[i..][..|p.prefix|] == s[i..j];
    var n := RunLength(s, j, SlugChars);
    var slug := MatchGroups(p.marker, p.idClass, s, j).value.slug;
    assert slug == s[j..j + n];
    forall k | 0 <= k < |slug| ensures InClass(slug[k], SlugChars) {
      assert slug[k] == s[j + k];
    }
  }

  /** The id group: a non-empty run of the id class right after the marker that follows the slug. */
  lemma MatchAtId(p: Pattern, s: string, i: nat)
    requires i <= |s| && MatchAt(p, s, i).Some? && MatchAt(p, s, i).value.id.Some?
    ensures var g := MatchAt(p, s, i).value;
      var e := i + |p.prefix| + |g.slug|;
      && g.id.value != [] && AllInClass(g.id.value, p.idClass)
      && OccursAt(s, p.marker, e) && OccursAt(s, g.id.value, e + |p.marker|)
  {
    var j := i + |p.prefix|;
    var e := j + RunLength(s, j, SlugChars);
    assert s[e..][..|p.marker|] == s[e..e + |p.marker|];
  }

  /** Adjacent occurrences of two strings form an occurrence of their concatenation. */
  lemma OccursConcat(s: string, a: string, b: string, i: int)
    requires OccursAt(s, a, i) && OccursAt(s, b, i + |a|)
    ensures OccursAt(s, a + b, i)
  {
    assert s[i..i + |a + b|] == s[i..i + |a|] + s[i + |a|..i + |a| + |b|];
  }

  /** A found pattern yields a non-empty slug (and id) of the right characters, taken from the URL. */
  lemma SearchShape(p: Pattern, s: string)
    requires Search(p, s).Some?
    ensures var g := Search(p, s).value;
      && g.slug != [] && AllInClass(g.slug, SlugChars)
      && Contains(s, p.prefix + g.slug)
      && (g.id.Some? ==> g.id.value != [] && AllInClass(g.id.value, p.idClass)
                         && Contains(s, p.prefix + g.slug + p.marker + g.id.value))
  {
    var i := SearchFrom(p, s, 0).value;
    var g := MatchAt(p, s, i).value;
    MatchAtShape(p, s, i);
    ContainsAt(s, p.prefix + g.slug, i);
    if g.id.Some? {
      ContainsAt(s, p.prefix + g.slug + p.marker + g.id.value, i);
    }
  }

  /** A pattern is not found exactly when it matches at no position of the URL. */
  lemma SearchNoneIff(p: Pattern, s: string)
    ensures Search(p, s).None? <==> forall k :: 0 <= k <= |s| ==> MatchAt(p, s, k).None?
  {
  }

  /** `FirstMatch` returns what the first found pattern of the list gives. */
  lemma FirstMatchFound(ps: seq<Pattern>, s: string)
    ensures FirstMatch(ps, s).Some? <==> exists k :: 0 <= k < |ps| && Search(ps[k], s).Some?
    ensures FirstMatch(ps, s).Some? ==>
      exists k :: 0 <= k < |ps| && Search(ps[k], s) == FirstMatch(ps, s)
  {
    FirstMatchWitness(ps, s);
    FirstMatchNone(ps, s);
  }

  lemma {:induction false} FirstMatchWitness(ps: seq<Pattern>, s: string)
    ensures FirstMatch(ps, s).Some? ==>
      exists k :: 0 <= k < |ps| && Search(ps[k], s) == FirstMatch(ps, s)
  {
    if ps != [] && Search(ps[0], s).None? {
      var tail := ps[1..];
      FirstMatchWitness(tail, s);
      if FirstMatch(tail, s).Some? {
        var k :| 0 <= k < |tail| && Search(tail[k], s) == FirstMatch(tail, s);
        assert tail[k] == ps[k + 1];
      }
    }
  }

  lemma {:induction false} FirstMatchNone(ps: seq<Pattern>, s: string)
    ensures FirstMatch(ps, s).None? ==> forall k :: 0 <= k < |ps| ==> Search(ps[k], s).None?
  {
    if ps != [] && Search(ps[0], s).None? {
      var tail := ps[1..];
      FirstMatchNone(tail, s);
      forall k | 1 <= k < |ps| ensures ps[k] == tail[k - 1] { }
    }
  }

  /**
   * The result of `detect_source`: a CurseForge or Modrinth result carries a
   * non-empty slug of `[a-zA-Z0-9-]` characters that the URL contains right
   * after the pattern's prefix, and an id (digits for CurseForge,
   * `[a-zA-Z0-9]` for Modrinth) that follows the marker; an unknown result
   * carries neither.
   */
  lemma DetectShape(url: string)
    ensures var d := Detect(url);
      && (d.source == Unknown <==> d.slug.None?)
      && (d.source == Unknown ==> d.id.None?)
      && (d.slug.Some? ==> d.slug.value != [] && AllInClass(d.slug.value, SlugChars))
      && (d.source == CurseForge ==>
            Contains(url, CurseForgePattern.prefix + d.slug.value)
            && (d.id.Some? ==> d.id.value != [] && AllInClass(d.id.value, DigitChars)))
      && (d.source == Modrinth ==>
            Contains(url, ModrinthPattern.prefix + d.slug.value)
            && (d.id.Some? ==> d.id.value != [] && AllInClass(d.id.value, AlnumChars)))
  {
    LegacyPatternUnreachable(url);
    ModrinthListIsPattern(url);
    if Search(CurseForgePattern, url).Some? {
      SearchShape(CurseForgePattern, url);
    } else if Search(ModrinthPattern, url).Some? {
      SearchShape(ModrinthPattern, url);
    }
  }

  /**
   * CurseForge wins: whenever the CurseForge pattern occurs in the URL the
   * result is CurseForge, whatever else the URL contains; Modrinth is
   * reported only when no CurseForge pattern occurs and the Modrinth one does;
   * otherwise the result is (UNKNOWN, None, None).
   */
  lemma DetectPriority(url: string)
    ensures Search(CurseForgePattern, url).Some? ==>
      Detect(url) == Detection(CurseForge, Some(Search(CurseForgePattern, url).value.slug), Search(CurseForgePattern, url).value.id)
    ensures Search(CurseForgePattern, url).None? && Search(ModrinthPattern, url).Some? ==>
      Detect(url) == Detection(Modrinth, Some(Search(ModrinthPattern, url).value.slug), Search(ModrinthPattern, url).value.id)
    ensures Search(CurseForgePattern, url).None? && Search(ModrinthPattern, url).None? ==>
      Detect(url) == Detection(Unknown, None, None)
  {
    LegacyPatternUnreachable(url);
    ModrinthListIsPattern(url);
  }

  /**
   * A pattern whose prefix is another pattern's prefix with `w` in front:
   * where it matches at `i`, the other one matches at `i + |w|` with the
   * same groups.
   */
  lemma LongerPrefixMatch(p: Pattern, q: Pattern, w: string, s: string, i: nat)
    requires q == Pattern(w + p.prefix, p.marker, p.idClass)
    requires i <= |s| && MatchAt(q, s, i).Some?
    ensures i + |w| <= |s| && MatchAt(p, s, i + |w|) == MatchAt(q, s, i)
  {
    var k := i + |w|;
    assert StartsWith(s[k..], p.prefix) by {
      var n := |q.prefix|;
      assert s[i..i + n] == s[i..][..n] == w + p.prefix;
      assert s[k..][..|p.prefix|] == s[i..i + n][|w|..];
    }
    assert k + |p.prefix| == i + |q.prefix|;
  }

  /** The one-pattern Modrinth list finds what its pattern finds. */
  lemma ModrinthListIsPattern(url: string)
    ensures FirstMatch(ModrinthPatterns, url) == Search(ModrinthPattern, url)
  {
    assert ModrinthPatterns[1..] == [];
  }

  /**
   * The legacy CurseForge pattern is never the one that decides: the list
   * of CurseForge patterns finds exactly what its first pattern finds, since
   * wherever the legacy pattern matches the first pattern matches seven
   * characters later ("legacy.") with the same groups.
   */
  lemma LegacyPatternUnreachable(url: string)
    ensures FirstMatch(CurseForgePatterns, url) == Search(CurseForgePattern, url)
    ensures Search(CurseForgePattern, url).None? ==>
      forall k :: 0 <= k <= |url| ==> MatchAt(LegacyCurseForgePattern, url, k).None?
  {
    assert CurseForgePatterns[1..] == [LegacyCurseForgePattern];
    assert CurseForgePatterns[1..][1..] == [];
    assert FirstMatch(CurseForgePatterns[1..], url) == Search(LegacyCurseForgePattern, url);
    if Search(CurseForgePattern, url).None? {
      forall k | 0 <= k <= |url| ensures MatchAt(LegacyCurseForgePattern, url, k).None? {
        if MatchAt(LegacyCurseForgePattern, url, k).Some? {
          LongerPrefixMatch(CurseForgePattern, LegacyCurseForgePattern, "legacy.", url, k);
        }
      }
    }
  }

  /** `detect_source` returns UNKNOWN exactly when none of the three patterns matches anywhere. */
  lemma DetectUnknownIff(url: string)
    ensures Detect(url).source == Unknown <==>
      forall p, k :: p in CurseForgePatterns + ModrinthPatterns && 0 <= k <= |url| ==> MatchAt(p, url, k).None?
  {
    LegacyPatternUnreachable(url);
    ModrinthListIsPattern(url);
    SearchNoneIff(CurseForgePattern, url);
    SearchNoneIff(LegacyCurseForgePattern, url);
    SearchNoneIff(ModrinthPattern, url);
    assert CurseForgePatterns + ModrinthPatterns == [CurseForgePattern, LegacyCurseForgePattern, ModrinthPattern];
    if Detect(url).source != Unknown {
      if Search(CurseForgePattern, url).Some? {
        var r := SearchFrom(CurseForgePattern, url, 0).value;
        assert MatchAt(CurseForgePattern, url, r).Some?;
      } else {
        var r := SearchFrom(ModrinthPattern, url, 0).value;
        assert MatchAt(ModrinthPattern, url, r).Some?;
      }
    }
  }
}
