/**
 * Product slugs: the `slugify` replace pipeline and the product pre-save hook that
 * applies it. Each regular-expression step is one function; the guarantees are that the
 * output is made of [a-z0-9_-], never holds "--", never starts or ends with '-', and
 * that slugify leaves a slug as it is.
 */
module Slug {
  import opened Common

  /** The characters JavaScript's `\s` matches. */
  const JsSpaces: set<char> := {
    '\t', '\n', '\U{000B}', '\U{000C}', '\r', ' ', '\U{00A0}', '\U{1680}',
    '\U{2000}', '\U{2001}', '\U{2002}', '\U{2003}', '\U{2004}', '\U{2005}', '\U{2006}',
    '\U{2007}', '\U{2008}', '\U{2009}', '\U{200A}',
    '\U{2028}', '\U{2029}', '\U{202F}', '\U{205F}', '\U{3000}', '\U{FEFF}'}

  /** `-` is the only character of the `-+` runs. */
  const Dashes: set<char> := {'-'}

  predicate IsUpper(c: char) {
    'A' <= c <= 'Z'
  }

  /** `\w` or '-': what `[^\w-]+` does not delete. */
  predicate IsWordOrDash(c: char) {
    IsUpper(c) || ('a' <= c <= 'z') || ('0' <= c <= '9') || c == '_' || c == '-'
  }

  predicate IsSlugChar(c: char) {
    ('a' <= c <= 'z') || ('0' <= c <= '9') || c == '_' || c == '-'
  }

  function LowerChar(c: char): (d: char)
    ensures !IsUpper(d)
    ensures IsUpper(c) ==> 'a' <= d <= 'z' && d as int - 'a' as int == c as int - 'A' as int
    ensures !IsUpper(c) ==> d == c
    ensures IsWordOrDash(c) <==> IsWordOrDash(d)
  {
    if IsUpper(c) then (c as int + 32) as char else c
  }

  /** `toLowerCase()` on the ASCII letters. */
  function ToLower(s: string): (r: string)
    ensures |r| == |s|
    ensures forall i :: 0 <= i < |s| ==> r[i] == LowerChar(s[i])
  {
    seq(|s|, i requires 0 <= i < |s| => LowerChar(s[i]))
  }

  /** Drops the run of run characters at the front. */
  function SkipRun(s: string, run: set<char>): (r: string)
    ensures |r| <= |s| && r == s[|s| - |r|..]
    ensures r != [] ==> r[0] !in run
    ensures forall i :: 0 <= i < |s| - |r| ==> s[i] in run
  {
    if s != [] && s[0] in run then SkipRun(s[1..], run) else s
  }

  /** `s.replace(/P+/g, c)`: every maximal run of run characters becomes one `c`. */
  function RunsTo(s: string, run: set<char>, c: char): (r: string)
    ensures s == [] <==> r == []
    ensures s != [] && s[0] in run ==> r[0] == c
    ensures s != [] && s[0] !in run ==> r[0] == s[0]
    decreases |s|
  {
    if s == [] then []
    else if s[0] in run then [c] + RunsTo(SkipRun(s, run), run, c)
    else [s[0]] + RunsTo(s[1..], run, c)
  }

  /** Run replacement only introduces `c`; every other character comes from a non-run of `s`. */
  lemma {:induction false} RunsToChars(s: string, run: set<char>, c: char)
    ensures forall x :: x in RunsTo(s, run, c) ==> x == c || (x in s && x !in run)
    decreases |s|
  {
    if s != [] {
      if s[0] in run {
        var rest := SkipRun(s, run);
        RunsToChars(rest, run, c);
        assert forall x :: x in rest ==> x in s;
      } else {
        RunsToChars(s[1..], run, c);
      }
    }
  }

  /** When `c` itself is a run character, the output never holds `c` twice in a row. */
  lemma {:induction false} RunsToNoDouble(s: string, run: set<char>, c: char)
    requires c in run
    ensures NoDouble(RunsTo(s, run, c), c)
    decreases |s|
  {
    if s != [] {
      var r := RunsTo(s, run, c);
      if s[0] in run {
        var rest := SkipRun(s, run);
        RunsToNoDouble(rest, run, c);
        assert r[1..] == RunsTo(rest, run, c);
      } else {
        RunsToNoDouble(s[1..], run, c);
        assert r[1..] == RunsTo(s[1..], run, c);
      }
    }
  }

  /** `s.replace(/-+$/, '')` */
  function TrimEnd(s: string): (r: string)
    ensures |r| <= |s| && r == s[..|r|]
    ensures r != [] ==> r[|r| - 1] != '-'
    ensures forall i :: |r| <= i < |s| ==> s[i] == '-'
  {
    if s != [] && s[|s| - 1] == '-' then TrimEnd(s[..|s| - 1]) else s
  }

  function KeepWordOrDash(s: string): (r: string)
    ensures forall x :: x in r <==> x in s && IsWordOrDash(x)
  {
    Filter(s, IsWordOrDash)
  }

  /** The five replacements after lowering. */
  function Pipeline(lowered: string): string {
    var dashed := RunsTo(lowered, JsSpaces, '-');
    var kept := KeepWordOrDash(dashed);
    var collapsed := RunsTo(kept, Dashes, '-');
    TrimEnd(SkipRun(collapsed, Dashes))
  }

  /**
   * slugify: a falsy argument (absent or "") gives ""; anything else gives a slug, made of
   * [a-z0-9_-] only, never holding "--" and never starting or ending with '-'.
   */
  function Slugify(text: Option<string>): (r: string)
    ensures !TruthyString(text) ==> r == ""
    ensures IsSlug(r)
  {
    if !TruthyString(text) then ""
    else
      var kept := KeepWordOrDash(RunsTo(ToLower(text.value), JsSpaces, '-'));
      KeptAreSlugChars(text.value);
      CollapseGivesSlug(kept);
      Pipeline(ToLower(text.value))
  }

  predicate AllSlugChars(s: string) {
    forall i :: 0 <= i < |s| ==> IsSlugChar(s[i])
  }

  /** `s` never holds `c` twice in a row. */
  predicate NoDouble(s: string, c: char) {
    forall i :: 0 <= i < |s| - 1 ==> !(s[i] == c && s[i + 1] == c)
  }

  predicate NoDoubleDash(s: string) {
    NoDouble(s, '-')
  }

  /** The membership form of AllSlugChars. */
  predicate OnlySlugChars(s: string) {
    forall x :: x in s ==> IsSlugChar(x)
  }

  predicate NoEdgeDash(s: string) {
    s != [] ==> s[0] != '-' && s[|s| - 1] != '-'
  }

  /** What slugify can produce. */
  predicate IsSlug(s: string) {
    AllSlugChars(s) && NoDoubleDash(s) && NoEdgeDash(s)
  }

  /** Trimming the dashes off both ends of a collapsed string leaves a slug. */
  lemma TrimsGiveSlug(collapsed: string)
    requires OnlySlugChars(collapsed)
    requires NoDoubleDash(collapsed)
    ensures IsSlug(TrimEnd(SkipRun(collapsed, Dashes)))
  {
    var front := SkipRun(collapsed, Dashes);
    SuffixKeepsSlugChars(collapsed, |collapsed| - |front|);
    TrimEndKeepsSlug(front);
  }

  /** A suffix of a string of slug characters without "--" is such a string too. */
  lemma SuffixKeepsSlugChars(s: string, k: nat)
    requires k <= |s|
    requires OnlySlugChars(s)
    requires NoDoubleDash(s)
    ensures AllSlugChars(s[k..]) && NoDoubleDash(s[k..])
  {
    var t := s[k..];
    assert forall i :: 0 <= i < |t| ==> t[i] == s[k + i];
    assert forall i :: 0 <= i < |t| ==> t[i] in s;
  }

  /** Trimming trailing dashes off a string that does not start with one leaves a slug. */
  lemma TrimEndKeepsSlug(front: string)
    requires AllSlugChars(front) && NoDoubleDash(front)
    requires front != [] ==> front[0] != '-'
    ensures IsSlug(TrimEnd(front))
  {
    var r := TrimEnd(front);
    assert forall i :: 0 <= i < |r| ==> r[i] == front[i];
  }

  /** Lowering, then replacing whitespace runs, then deleting the rest leaves only slug characters. */
  lemma KeptAreSlugChars(text: string)
    ensures OnlySlugChars(KeepWordOrDash(RunsTo(ToLower(text), JsSpaces, '-')))
  {
    var lowered := ToLower(text);
    assert forall x :: x in lowered ==> !IsUpper(x);
    RunsToChars(lowered, JsSpaces, '-');
  }

  /** Collapsing dash runs and trimming the ends of slug characters leaves a slug. */
  lemma CollapseGivesSlug(kept: string)
    requires OnlySlugChars(kept)
    ensures IsSlug(TrimEnd(SkipRun(RunsTo(kept, Dashes, '-'), Dashes)))
  {
    var collapsed := RunsTo(kept, Dashes, '-');
    RunsToChars(kept, Dashes, '-');
    assert OnlySlugChars(collapsed);
    RunsToNoDouble(kept, Dashes, '-');
    TrimsGiveSlug(collapsed);
  }

  /** Replacing runs is the identity when every run character is already a lone `c`. */
  lemma {:induction false} RunsToIdentity(s: string, run: set<char>, c: char)
    requires forall i :: 0 <= i < |s| && s[i] in run ==> s[i] == c
    requires forall i :: 0 <= i < |s| - 1 ==> !(s[i] in run && s[i + 1] in run)
    ensures RunsTo(s, run, c) == s
    decreases |s|
  {
    if s != [] {
      if s[0] in run {
        assert SkipRun(s, run) == s[1..];
      }
      RunsToIdentity(s[1..], run, c);
    }
  }

  /** Run replacement passes over a prefix with no run character unchanged. */
  lemma {:induction false} RunsToPrefix(u: string, x: string, run: set<char>, c: char)
    requires forall i :: 0 <= i < |u| ==> u[i] !in run
    ensures RunsTo(u + x, run, c) == u + RunsTo(x, run, c)
  {
    if u == [] {
      assert u + x == x;
    } else {
      RunsToPrefix(u[1..], x, run, c);
      RunsToPrefixStep(u, x, run, c);
    }
  }

  /** One step of the induction: the first character of the prefix is copied. */
  lemma RunsToPrefixStep(u: string, x: string, run: set<char>, c: char)
    requires u != [] && u[0] !in run
    requires RunsTo(u[1..] + x, run, c) == u[1..] + RunsTo(x, run, c)
    ensures RunsTo(u + x, run, c) == u + RunsTo(x, run, c)
  {
    TailOfAppend(u, x);
    RunsToCopies(u + x, run, c);
    ConsOntoTail(u, RunsTo(u[1..] + x, run, c), RunsTo(x, run, c));
  }

  lemma TailOfAppend(u: string, x: string)
    requires u != []
    ensures (u + x)[0] == u[0] && (u + x)[1..] == u[1..] + x
  {
  }

  lemma ConsOntoTail(u: string, m: string, rest: string)
    requires u != [] && m == u[1..] + rest
    ensures [u[0]] + m == u + rest
  {
  }

  /** A leading character outside the run class is copied. */
  lemma RunsToCopies(s: string, run: set<char>, c: char)
    requires s != [] && s[0] !in run
    ensures RunsTo(s, run, c) == [s[0]] + RunsTo(s[1..], run, c)
  {
  }

  /** A non-empty run followed by a non-run character collapses to one `c`. */
  lemma RunsToRun(w: string, v: string, run: set<char>, c: char)
    requires w != [] && forall i :: 0 <= i < |w| ==> w[i] in run
    requires v != [] && v[0] !in run
    ensures RunsTo(w + v, run, c) == [c] + RunsTo(v, run, c)
  {
    SkipAll(w, v, run);
  }

  lemma {:induction false} SkipAll(w: string, v: string, run: set<char>)
    requires forall i :: 0 <= i < |w| ==> w[i] in run
    requires v != [] && v[0] !in run
    ensures SkipRun(w + v, run) == v
  {
    if w == [] {
      assert w + v == v;
    } else {
      assert (w + v)[1..] == w[1..] + v;
      SkipAll(w[1..], v, run);
    }
  }

  /** Deleting the non-word characters keeps a string that has none. */
  lemma {:induction false} KeepAll(s: string)
    requires forall i :: 0 <= i < |s| ==> IsWordOrDash(s[i])
    ensures Filter(s, IsWordOrDash) == s
  {
    if s != [] {
      KeepAll(s[1..]);
    }
  }

  /** On a slug the steps after whitespace replacement change nothing. */
  lemma TailStagesFixSlug(t: string)
    requires IsSlug(t)
    ensures TrimEnd(SkipRun(RunsTo(KeepWordOrDash(t), Dashes, '-'), Dashes)) == t
  {
    KeepAll(t);
    RunsToIdentity(t, Dashes, '-');
    if t != [] {
      assert SkipRun(t, Dashes) == t;
    }
  }

  /** slugify leaves a slug unchanged. */
  lemma SlugifyFixesSlug(t: string)
    requires IsSlug(t)
    ensures Slugify(Some(t)) == t
  {
    if t != [] {
      assert ToLower(t) == t;
      RunsToIdentity(t, JsSpaces, '-');
      TailStagesFixSlug(t);
    }
  }

  /** slugify is idempotent. */
  lemma SlugifyIdempotent(text: Option<string>)
    ensures Slugify(Some(Slugify(text))) == Slugify(text)
  {
    SlugifyFixesSlug(Slugify(text));
  }

  /** Two slug words joined by one '-' form a slug. */
  lemma SlugJoin(u: string, v: string)
    requires IsSlug(u) && IsSlug(v) && u != [] && v != []
    ensures IsSlug(u + "-" + v)
  {
    var t := u + "-" + v;
    assert forall i :: 0 <= i < |u| ==> t[i] == u[i];
    assert t[|u|] == '-';
    assert forall i :: |u| < i < |t| ==> t[i] == v[i - |u| - 1];
  }

  lemma NoSpaceInSlug(u: string)
    requires AllSlugChars(u)
    ensures forall i :: 0 <= i < |u| ==> u[i] !in JsSpaces
  {
  }

  lemma LowerKeepsJoin(u: string, w: string, v: string)
    requires AllSlugChars(u) && AllSlugChars(v)
    requires forall i :: 0 <= i < |w| ==> w[i] in JsSpaces
    ensures ToLower(u + w + v) == u + w + v
  {
    var s := u + w + v;
    forall i | 0 <= i < |s|
      ensures !IsUpper(s[i])
    {
      if i < |u| {
        assert s[i] == u[i];
      } else if i < |u| + |w| {
        assert s[i] == w[i - |u|];
      } else {
        assert s[i] == v[i - |u| - |w|];
      }
    }
  }

  /** A run between two run-free words becomes one `c`. */
  lemma RunsToJoin(u: string, w: string, v: string, run: set<char>, c: char)
    requires forall i :: 0 <= i < |u| ==> u[i] !in run
    requires w != [] && forall i :: 0 <= i < |w| ==> w[i] in run
    requires v != [] && forall i :: 0 <= i < |v| ==> v[i] !in run
    ensures RunsTo(u + w + v, run, c) == u + [c] + v
  {
    Regroup(u, w, v);
    RunsToPrefix(u, w + v, run, c);
    RunsToRun(w, v, run, c);
    RunsToIdentity(v, run, c);
    Regroup(u, [c], v);
  }

  lemma Regroup(u: string, w: string, v: string)
    ensures u + w + v == u + (w + v)
  {
  }

  /** Lowering and replacing whitespace turn `u + w + v` into `u + "-" + v`. */
  lemma SpacesBecomeOneDash(u: string, w: string, v: string)
    requires IsSlug(u) && IsSlug(v) && u != [] && v != []
    requires w != [] && forall i :: 0 <= i < |w| ==> w[i] in JsSpaces
    ensures RunsTo(ToLower(u + w + v), JsSpaces, '-') == u + "-" + v
  {
    LowerKeepsJoin(u, w, v);
    NoSpaceInSlug(u);
    NoSpaceInSlug(v);
    RunsToJoin(u, w, v, JsSpaces, '-');
  }

  /** Between two slug words, any run of whitespace becomes exactly one '-'. */
  lemma WhitespaceRunBecomesDash(u: string, w: string, v: string)
    requires IsSlug(u) && IsSlug(v) && u != [] && v != []
    requires w != [] && forall i :: 0 <= i < |w| ==> w[i] in JsSpaces
    ensures Slugify(Some(u + w + v)) == u + "-" + v
  {
    SpacesBecomeOneDash(u, w, v);
    SlugJoin(u, v);
    TailStagesFixSlug(u + "-" + v);
  }

  /** A product document as far as the pre-save hook sees it; "" is an unset slug. */
  class Product {
    var name: string
    var slug: string
    var updatedAt: int
    /** Mongoose's `isModified('name')` for the pending save. */
    var nameModified: bool

    constructor (name: string, now: int)
      ensures this.name == name && slug == "" && updatedAt == now && nameModified
    {
      this.name := name;
      slug := "";
      updatedAt := now;
      nameModified := true;
    }

    /**
     * The pre-save hook: the slug is regenerated from the name exactly when the name changed
     * or the slug is unset, and is otherwise kept; updatedAt always becomes `now`.
     */
    method PreSave(now: int)
      modifies this`slug, this`updatedAt
      ensures nameModified || old(slug) == "" ==> slug == Slugify(Some(name))
      ensures !nameModified && old(slug) != "" ==> slug == old(slug)
      ensures updatedAt == now
      ensures IsSlug(slug) || slug == old(slug)
    {
      if nameModified || slug == "" {
        slug := Slugify(Some(name));
      }
      updatedAt := now;
    }
  }
}
