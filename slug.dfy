/** The slug derivation shared by the Game and News pre-save hooks:
    `name.toLowerCase().replace(/\s+/g, '-').replace(/[^\w-]+/g, '')`,
    applied only when the source field was modified and no slug is set. */
module Slug {
  import opened Common
  import opened Text
  import opened Seqs

  /** The regular-expression class `\w`. */
  predicate IsWordChar(c: char) {
    ('a' <= c <= 'z') || ('A' <= c <= 'Z') || ('0' <= c <= '9') || c == '_'
  }

  /** The characters `[^\w-]+` does not remove. */
  predicate IsSlugChar(c: char) {
    IsWordChar(c) || c == '-'
  }

  /** The characters a slug may contain: `[a-z0-9_-]`. */
  predicate IsLowerSlugChar(c: char) {
    ('a' <= c <= 'z') || ('0' <= c <= '9') || c == '_' || c == '-'
  }

  /** `s.replace(/\s+/g, '-')`: every maximal run of whitespace becomes one dash. */
  function DashRuns(s: string): (r: string)
    ensures |r| <= |s|
    ensures forall k :: 0 <= k < |r| ==> !IsSpace(r[k])
    ensures forall k :: 0 <= k < |r| ==> r[k] == '-' || r[k] in s
    decreases |s|
  {
    if s == [] then []
    else if IsSpace(s[0]) then
      var rest := TrimStart(s);
      assert |rest| < |s|;
      "-" + DashRuns(rest)
    else [s[0]] + DashRuns(s[1..])
  }

  /** `s.replace(/[^\w-]+/g, '')`. */
  function KeepSlugChars(s: string): (r: string)
    ensures |r| <= |s|
    ensures forall k :: 0 <= k < |r| ==> IsSlugChar(r[k]) && r[k] in s
    ensures forall k :: 0 <= k < |s| && IsSlugChar(s[k]) ==> s[k] in r
  {
    Filter(s, IsSlugChar)
  }

  /** The removal works character by character and keeps the order: the kept
      characters of a concatenation are those of each part, one after the
      other, and a single character is kept exactly when it is a slug
      character. */
  lemma KeepSlugCharsSplits(a: string, b: string, c: char)
    ensures KeepSlugChars(a + b) == KeepSlugChars(a) + KeepSlugChars(b)
    ensures KeepSlugChars([c]) == if IsSlugChar(c) then [c] else []
  {
    FilterConcat(a, b, IsSlugChar);
    FilterAppend([], c, IsSlugChar);
    assert [] + [c] == [c];
  }

  /** The slug of a game name or a news title. */
  function Slugify(name: string): (r: string)
    ensures |r| <= |name|
    ensures forall k :: 0 <= k < |r| ==> IsLowerSlugChar(r[k]) && !IsSpace(r[k])
  {
    var lowered := Lower(name);
    var dashed := DashRuns(lowered);
    assert forall k :: 0 <= k < |dashed| ==> !IsUpper(dashed[k]);
    KeepSlugChars(dashed)
  }

  /** A string without whitespace has no run to replace. */
  lemma {:induction false} DashRunsWithoutSpace(s: string)
    requires forall k :: 0 <= k < |s| ==> !IsSpace(s[k])
    ensures DashRuns(s) == s
    decreases |s|
  {
    if s != [] {
      DashRunsWithoutSpace(s[1..]);
    }
  }

  /** A slug is its own slug. */
  lemma SlugifyIdempotent(name: string)
    ensures Slugify(Slugify(name)) == Slugify(name)
  {
    var s := Slugify(name);
    assert Lower(s) == s;
    DashRunsWithoutSpace(s);
    FilterAllOf(s, IsSlugChar);
  }

  /** A character-by-character reading of `/\s+/g` replaced by a dash: the first
      whitespace character of a run writes a dash, the others write nothing. */
  function DashScan(s: string, inRun: bool): string
    decreases |s|
  {
    if s == [] then []
    else if IsSpace(s[0]) then (if inRun then "" else "-") + DashScan(s[1..], true)
    else [s[0]] + DashScan(s[1..], false)
  }

  lemma {:induction false} ScanInRunSkips(s: string)
    ensures DashScan(s, true) == DashScan(TrimStart(s), false)
    decreases |s|
  {
    if s != [] && IsSpace(s[0]) {
      ScanInRunSkips(s[1..]);
    }
  }

  /** The run-at-a-time definition and the scanning one agree on every input. */
  lemma {:induction false} DashRunsIsScan(s: string)
    ensures DashRuns(s) == DashScan(s, false)
    decreases |s|
  {
    if s != [] {
      if IsSpace(s[0]) {
        var rest := TrimStart(s);
        assert |rest| < |s|;
        DashRunsIsScan(rest);
        ScanInRunSkips(s[1..]);
        assert TrimStart(s[1..]) == rest;
      } else {
        DashRunsIsScan(s[1..]);
      }
    }
  }

  predicate IsSolid(c: char) {
    !IsSpace(c) && c != '-'
  }

  /** Replacing whitespace runs by dashes loses no other character and
      reorders nothing: only whitespace goes and only dashes come. */
  lemma {:induction false} DashRunsKeepsSolid(s: string)
    ensures Filter(DashRuns(s), IsSolid) == Filter(s, IsSolid)
    decreases |s|
  {
    if s != [] {
      if IsSpace(s[0]) {
        var rest := TrimStart(s);
        DashRunsKeepsSolid(rest);
        LeadingRunNotSolid(s);
      } else {
        DashRunsKeepsSolid(s[1..]);
        LeadingCharKept(s);
      }
    }
  }

  /** A first character that is not whitespace passes through unchanged. */
  lemma LeadingCharKept(s: string)
    requires s != [] && !IsSpace(s[0])
    ensures Filter(DashRuns(s), IsSolid) == Filter([s[0]], IsSolid) + Filter(DashRuns(s[1..]), IsSolid)
    ensures Filter(s, IsSolid) == Filter([s[0]], IsSolid) + Filter(s[1..], IsSolid)
  {
    assert s == [s[0]] + s[1..];
    FilterConcat([s[0]], s[1..], IsSolid);
    FilterConcat([s[0]], DashRuns(s[1..]), IsSolid);
  }

  /** A leading whitespace run and the dash that replaces it hold nothing solid. */
  lemma LeadingRunNotSolid(s: string)
    requires s != [] && IsSpace(s[0])
    ensures Filter(DashRuns(s), IsSolid) == Filter(DashRuns(TrimStart(s)), IsSolid)
    ensures Filter(s, IsSolid) == Filter(TrimStart(s), IsSolid)
  {
    var rest := TrimStart(s);
    var lead := s[..|s| - |rest|];
    assert s == lead + rest;
    FilterNoneOf(lead, IsSolid);
    FilterConcat(lead, rest, IsSolid);
    assert DashRuns(s) == "-" + DashRuns(rest);
    FilterNoneOf("-", IsSolid);
    FilterConcat("-", DashRuns(rest), IsSolid);
  }

  /** The pre-save hook: `if (this.isModified(field) && !this.slug) this.slug = slugify(field)`. */
  function SlugHook(slug: Option<string>, source: string, sourceModified: bool): (r: Option<string>)
    ensures Truthy(slug) ==> r == slug
    ensures !sourceModified ==> r == slug
    ensures sourceModified && !Truthy(slug) ==> r == Some(Slugify(source))
  {
    if sourceModified && !Truthy(slug) then Some(Slugify(source)) else slug
  }
}
