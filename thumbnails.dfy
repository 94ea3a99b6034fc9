/** The name logic of the offline thumbnail script (scripts/generate-thumbnails.mjs):
    which files of the public directory are treated as photos, the URL-safe name
    each one is copied under, and the two output paths built from that name. */
module Thumbnails {

  // ---------------------------------------------------------------------------
  // String searching, as `String.prototype.includes` and `endsWith`

  /** `s.includes(p)`: a left-to-right search for `p` at each position of `s`. */
  function Includes(s: string, p: string): bool
    decreases |s|
  {
    if |p| > |s| then false
    else if s[..|p|] == p then true
    else Includes(s[1..], p)
  }

  /** `p` occurs in `s` at position `i`. */
  predicate OccursAt(s: string, p: string, i: nat) {
    i + |p| <= |s| && s[i..i + |p|] == p
  }

  /** The search finds `p` exactly when `p` occurs somewhere in `s`. */
  lemma {:induction false} IncludesIffOccurs(s: string, p: string)
    ensures Includes(s, p) <==> exists i: nat :: OccursAt(s, p, i)
    decreases |s|
  {
    if |p| > |s| {
    } else if s[..|p|] == p {
      assert OccursAt(s, p, 0);
    } else {
      IncludesIffOccurs(s[1..], p);
      if Includes(s[1..], p) {
        var i: nat :| OccursAt(s[1..], p, i);
        assert s[i + 1..i + 1 + |p|] == s[1..][i..i + |p|];
        assert OccursAt(s, p, i + 1);
      } else {
        forall i: nat | OccursAt(s, p, i) ensures false {
          if i > 0 {
            assert s[1..][i - 1..i - 1 + |p|] == s[i..i + |p|];
            assert OccursAt(s[1..], p, i - 1);
          }
        }
      }
    }
  }

  /** `s.endsWith(suffix)` */
  function EndsWith(s: string, suffix: string): (b: bool)
    ensures b <==> exists q :: s == q + suffix
  {
    if |suffix| <= |s| && s[|s| - |suffix|..] == suffix then
      assert s == s[..|s| - |suffix|] + suffix;
      true
    else
      false
  }

  // ---------------------------------------------------------------------------
  // The selection filter

  const ClubMarker := "Chess Club"
  const ImageExtensions := [".jpg", ".jpeg", ".png"]

  predicate HasImageExtension(f: string) {
    EndsWith(f, ".jpg") || EndsWith(f, ".jpeg") || EndsWith(f, ".png")
  }

  /** The predicate handed to `files.filter`; the match is case-sensitive. */
  predicate IsPhotoFile(f: string) {
    Includes(f, ClubMarker) && HasImageExtension(f)
  }

  /** A file is selected iff the club's name occurs in it and it ends in one of the
      three image extensions, written in lower case. */
  lemma IsPhotoFileIff(f: string)
    ensures IsPhotoFile(f) <==>
      (exists i: nat :: OccursAt(f, ClubMarker, i)) &&
      (exists q, e :: e in ImageExtensions && f == q + e)
  {
    IncludesIffOccurs(f, ClubMarker);
    if HasImageExtension(f) {
      var e := if EndsWith(f, ".jpg") then ".jpg" else if EndsWith(f, ".jpeg") then ".jpeg" else ".png";
      assert e in ImageExtensions;
      var q :| f == q + e;
    }
  }

  /** The club's name must appear with its capitals: a name without a capital C
      is never selected, whatever its extension. */
  lemma FilterIsCaseSensitive(f: string)
    requires Lacks(f, 'C')
    ensures !IsPhotoFile(f)
  {
    IncludesIffOccurs(f, ClubMarker);
    if exists i: nat :: OccursAt(f, ClubMarker, i) {
      var i: nat :| OccursAt(f, ClubMarker, i);
      assert f[i] == 'C';
    }
  }

  /** Putting text around a name keeps the club's name in it. */
  lemma IncludesExtended(p: string, q: string)
    requires Includes(p, ClubMarker)
    ensures Includes(p + q, ClubMarker)
  {
    IncludesIffOccurs(p, ClubMarker);
    IncludesIffOccurs(p + q, ClubMarker);
    var i: nat :| OccursAt(p, ClubMarker, i);
    assert (p + q)[i..i + |ClubMarker|] == p[i..i + |ClubMarker|];
    assert OccursAt(p + q, ClubMarker, i);
  }

  /** `files.filter(IsPhotoFile)`: the selected files, in directory order. */
  function SelectPhotos(files: seq<string>): (r: seq<string>)
    ensures |r| <= |files|
    ensures forall f :: f in r <==> f in files && IsPhotoFile(f)
  {
    if files == [] then []
    else if IsPhotoFile(files[0]) then [files[0]] + SelectPhotos(files[1..])
    else SelectPhotos(files[1..])
  }

  /** Filtering keeps the order of the directory listing: the selection is the
      listing with the unselected names removed, so selecting distributes over
      splitting the listing. */
  lemma {:induction false} SelectPhotosAppend(a: seq<string>, b: seq<string>)
    ensures SelectPhotos(a + b) == SelectPhotos(a) + SelectPhotos(b)
  {
    if a == [] {
      assert a + b == b;
    } else {
      assert (a + b)[1..] == a[1..] + b;
      SelectPhotosAppend(a[1..], b);
    }
  }

  // ---------------------------------------------------------------------------
  // The URL-safe name: four passes, in the script's order

  /** The characters JavaScript's `\s` matches: the WhiteSpace and LineTerminator
      code points of ECMAScript (section 12.2 and 12.3 of ECMA-262). */
  const SpaceChars: set<char> := {
    '\t', '\n', '\U{B}', '\U{C}', '\r', ' ', '\U{A0}', '\U{1680}',
    '\U{2028}', '\U{2029}', '\U{202F}', '\U{205F}', '\U{3000}', '\U{FEFF}' }

  predicate IsSpace(c: char) {
    c in SpaceChars || '\U{2000}' <= c <= '\U{200A}'
  }

  predicate IsAsciiUpper(c: char) {
    'A' <= c <= 'Z'
  }

  predicate NoSpace(s: string) {
    forall i :: 0 <= i < |s| ==> !IsSpace(s[i])
  }

  predicate AllSpace(s: string) {
    forall i :: 0 <= i < |s| ==> IsSpace(s[i])
  }

  predicate Lacks(s: string, c: char) {
    forall i :: 0 <= i < |s| ==> s[i] != c
  }

  predicate NoAsciiUpper(s: string) {
    forall i :: 0 <= i < |s| ==> !IsAsciiUpper(s[i])
  }

  /** `.replace(/\s+/g, '-')`: every maximal run of whitespace becomes one hyphen. */
  function ReplaceSpaceRuns(s: string): string {
    SpaceRunsFrom(s, false)
  }

  /** The same pass read left to right from a point where `inRun` tells whether the
      character before was whitespace: the first character of a run emits the
      hyphen, the rest of the run emits nothing. */
  function SpaceRunsFrom(s: string, inRun: bool): string {
    if s == [] then []
    else if IsSpace(s[0]) then (if inRun then "" else "-") + SpaceRunsFrom(s[1..], true)
    else [s[0]] + SpaceRunsFrom(s[1..], false)
  }

  /** Whether the pass is inside a run after reading `p`. */
  function InRunAfter(p: string, inRun: bool): bool {
    if p == [] then inRun else IsSpace(p[|p| - 1])
  }

  /** `.replace(/@/g, 'at')` */
  function ReplaceAt(s: string): string {
    if s == [] then [] else (if s[0] == '@' then "at" else [s[0]]) + ReplaceAt(s[1..])
  }

  /** `.replace(/#/g, '-')`: a hash becomes a hyphen; it is not deleted. */
  function ReplaceHash(s: string): string {
    if s == [] then [] else [if s[0] == '#' then '-' else s[0]] + ReplaceHash(s[1..])
  }

  function LowerChar(c: char): char {
    if IsAsciiUpper(c) then (c as int - 'A' as int + 'a' as int) as char else c
  }

  /** `.toLowerCase()`, on the ASCII letters. */
  function ToLower(s: string): string {
    if s == [] then [] else [LowerChar(s[0])] + ToLower(s[1..])
  }

  /** The name a selected photo is published under. */
  function SafeName(f: string): string {
    ToLower(ReplaceHash(ReplaceAt(ReplaceSpaceRuns(f))))
  }

  // ---------------------------------------------------------------------------
  // What each pass guarantees and what it leaves alone

  lemma {:induction false} SpaceRunsFromNoSpace(s: string, inRun: bool)
    ensures NoSpace(SpaceRunsFrom(s, inRun))
  {
    if s != [] {
      SpaceRunsFromNoSpace(s[1..], IsSpace(s[0]));
    }
  }

  /** The pass only touches whitespace: without any it changes nothing. */
  lemma {:induction false} SpaceRunsFromIdentity(s: string, inRun: bool)
    requires NoSpace(s)
    ensures SpaceRunsFrom(s, inRun) == s
  {
    if s != [] {
      SpaceRunsFromIdentity(s[1..], false);
      assert s == [s[0]] + s[1..];
    }
  }

  /** The pass over a concatenation is the pass over each piece, the second one
      started in the state the first one ends in. */
  lemma {:induction false} SpaceRunsFromAppend(p: string, t: string, inRun: bool)
    ensures SpaceRunsFrom(p + t, inRun) == SpaceRunsFrom(p, inRun) + SpaceRunsFrom(t, InRunAfter(p, inRun))
  {
    if p == [] {
      assert p + t == t;
    } else {
      assert (p + t)[0] == p[0] && (p + t)[1..] == p[1..] + t;
      SpaceRunsFromAppend(p[1..], t, IsSpace(p[0]));
      assert p[1..] != [] ==> p[1..][|p[1..]| - 1] == p[|p| - 1];
    }
  }

  /** A non-empty run read from outside a run gives one hyphen; read from inside
      one, nothing. */
  lemma {:induction false} SpaceRunsFromRun(w: string, inRun: bool)
    requires w != [] && AllSpace(w)
    ensures SpaceRunsFrom(w, inRun) == if inRun then "" else "-"
  {
    if |w| > 1 {
      SpaceRunsFromRun(w[1..], true);
    } else {
      assert w[1..] == [];
    }
  }

  /** Text that does not start with whitespace cannot join a run that ends the
      text before it, so the pass works on the two pieces separately. */
  lemma ReplaceSpaceRunsAppend(p: string, t: string)
    requires t == [] || !IsSpace(t[0])
    ensures ReplaceSpaceRuns(p + t) == ReplaceSpaceRuns(p) + ReplaceSpaceRuns(t)
  {
    SpaceRunsFromAppend(p, t, false);
  }

  /** Each maximal whitespace run becomes exactly one hyphen, and the text on
      either side of it is transformed on its own. */
  lemma MaximalRunBecomesOneHyphen(p: string, w: string, q: string)
    requires p == [] || !IsSpace(p[|p| - 1])
    requires w != [] && AllSpace(w)
    requires q == [] || !IsSpace(q[0])
    ensures ReplaceSpaceRuns(p + w + q) == ReplaceSpaceRuns(p) + "-" + ReplaceSpaceRuns(q)
  {
    assert p + w + q == p + (w + q);
    SpaceRunsFromAppend(p, w + q, false);
    SpaceRunsFromAppend(w, q, false);
    SpaceRunsFromRun(w, false);
    assert InRunAfter(w, false);
  }

  lemma {:induction false} ReplaceAtFacts(s: string)
    ensures Lacks(ReplaceAt(s), '@')
    ensures NoSpace(s) ==> NoSpace(ReplaceAt(s))
    ensures Lacks(s, '@') ==> ReplaceAt(s) == s
  {
    if s != [] {
      ReplaceAtFacts(s[1..]);
      assert s == [s[0]] + s[1..];
    }
  }

  lemma {:induction false} ReplaceHashFacts(s: string)
    ensures Lacks(ReplaceHash(s), '#')
    ensures NoSpace(s) ==> NoSpace(ReplaceHash(s))
    ensures Lacks(s, '@') ==> Lacks(ReplaceHash(s), '@')
    ensures Lacks(s, '#') ==> ReplaceHash(s) == s
  {
    if s != [] {
      ReplaceHashFacts(s[1..]);
      assert s == [s[0]] + s[1..];
    }
  }

  lemma {:induction false} ToLowerFacts(s: string)
    ensures NoAsciiUpper(ToLower(s))
    ensures NoSpace(s) ==> NoSpace(ToLower(s))
    ensures Lacks(s, '@') ==> Lacks(ToLower(s), '@')
    ensures Lacks(s, '#') ==> Lacks(ToLower(s), '#')
    ensures NoAsciiUpper(s) ==> ToLower(s) == s
  {
    if s != [] {
      ToLowerFacts(s[1..]);
      assert s == [s[0]] + s[1..];
    }
  }

  /** The published name has no whitespace, no `@`, no `#` and no upper-case
      ASCII letter. */
  lemma SafeNameIsSafe(f: string)
    ensures NoSpace(SafeName(f))
    ensures Lacks(SafeName(f), '@') && Lacks(SafeName(f), '#')
    ensures NoAsciiUpper(SafeName(f))
  {
    var a := ReplaceSpaceRuns(f);
    SpaceRunsFromNoSpace(f, false);
    ReplaceAtFacts(a);
    ReplaceHashFacts(ReplaceAt(a));
    ToLowerFacts(ReplaceHash(ReplaceAt(a)));
  }

  /** Making a safe name safe again changes nothing. */
  lemma SafeNameIdempotent(f: string)
    ensures SafeName(SafeName(f)) == SafeName(f)
  {
    var g := SafeName(f);
    SafeNameIsSafe(f);
    SpaceRunsFromIdentity(g, false);
    ReplaceAtFacts(g);
    ReplaceHashFacts(g);
    ToLowerFacts(g);
  }

  lemma {:induction false} ReplaceAtAppend(p: string, t: string)
    ensures ReplaceAt(p + t) == ReplaceAt(p) + ReplaceAt(t)
  {
    if p == [] {
      assert p + t == t;
    } else {
      assert (p + t)[0] == p[0] && (p + t)[1..] == p[1..] + t;
      ReplaceAtAppend(p[1..], t);
    }
  }

  lemma {:induction false} ReplaceHashAppend(p: string, t: string)
    ensures ReplaceHash(p + t) == ReplaceHash(p) + ReplaceHash(t)
  {
    if p == [] {
      assert p + t == t;
    } else {
      assert (p + t)[0] == p[0] && (p + t)[1..] == p[1..] + t;
      ReplaceHashAppend(p[1..], t);
    }
  }

  lemma {:induction false} ToLowerAppend(p: string, t: string)
    ensures ToLower(p + t) == ToLower(p) + ToLower(t)
  {
    if p == [] {
      assert p + t == t;
    } else {
      assert (p + t)[0] == p[0] && (p + t)[1..] == p[1..] + t;
      ToLowerAppend(p[1..], t);
    }
  }

  /** Each `@` is spelled out as `at`, in place; the text around it is treated
      independently. */
  lemma AtBecomesAt(p: string, q: string)
    ensures ReplaceAt(p + "@" + q) == ReplaceAt(p) + "at" + ReplaceAt(q)
  {
    ReplaceAtAppend(p, "@" + q);
    ReplaceAtAppend("@", q);
    assert p + "@" + q == p + ("@" + q);
  }

  /** Lower-casing works character by character: `A`..`Z` become `a`..`z`, and
      every other character is kept. */
  lemma {:induction false} ToLowerPointwise(s: string)
    ensures |ToLower(s)| == |s|
    ensures forall i :: 0 <= i < |s| ==>
      ToLower(s)[i] == if 'A' <= s[i] <= 'Z' then (s[i] as int + 32) as char else s[i]
  {
    if s != [] {
      ToLowerPointwise(s[1..]);
      assert forall i :: 1 <= i < |s| ==> ToLower(s)[i] == ToLower(s[1..])[i - 1];
    }
  }

  /** Text with nothing for any pass to change, and not starting with whitespace,
      survives the renaming untouched at the end of a name. */
  lemma {:induction false} SafeNameKeepsSuffix(q: string, e: string)
    requires e == [] || !IsSpace(e[0])
    requires NoSpace(e) && Lacks(e, '@') && Lacks(e, '#') && NoAsciiUpper(e)
    ensures SafeName(q + e) == SafeName(q) + e
  {
    var a := ReplaceSpaceRuns(q);
    ReplaceSpaceRunsAppend(q, e);
    SpaceRunsFromIdentity(e, false);
    ReplaceAtAppend(a, e);
    ReplaceAtFacts(e);
    ReplaceHashAppend(ReplaceAt(a), e);
    ReplaceHashFacts(e);
    ToLowerAppend(ReplaceHash(ReplaceAt(a)), e);
    ToLowerFacts(e);
  }

  /** A lower-case image extension survives the renaming untouched. */
  lemma SafeNameKeepsExtension(q: string, e: string)
    requires e in ImageExtensions
    ensures SafeName(q + e) == SafeName(q) + e
  {
    SafeNameKeepsSuffix(q, e);
  }

  /** So every selected photo is published under a name with an image extension. */
  lemma SelectedKeepsImageExtension(f: string)
    requires IsPhotoFile(f)
    ensures HasImageExtension(SafeName(f))
  {
    IsPhotoFileIff(f);
    var q, e :| e in ImageExtensions && f == q + e;
    SafeNameKeepsExtension(q, e);
    assert SafeName(f) == SafeName(q) + e;
  }

  lemma SafeNameAround(p: string, c: char, q: string)
    requires !IsSpace(c)
    ensures SafeName(p + [c] + q) == SafeName(p) + SafeName([c]) + SafeName(q)
  {
    var a, b := ReplaceSpaceRuns(p), ReplaceSpaceRuns(q);
    assert p + [c] + q == p + ([c] + q);
    SpaceRunsFromAppend(p, [c] + q, false);
    SpaceRunsFromAppend([c], q, false);
    ReplaceSpaceRunsAppend(p, [c] + q);
    assert ReplaceSpaceRuns([c] + q) == [c] + b;
    assert ReplaceSpaceRuns([c]) == [c];
    ReplaceAtAppend(a, [c] + b);
    ReplaceAtAppend([c], b);
    var a', c', b' := ReplaceAt(a), ReplaceAt([c]), ReplaceAt(b);
    ReplaceHashAppend(a', c' + b');
    ReplaceHashAppend(c', b');
    ToLowerAppend(ReplaceHash(a'), ReplaceHash(c') + ReplaceHash(b'));
    ToLowerAppend(ReplaceHash(c'), ReplaceHash(b'));
  }

  /** A `#` and a `-` in the same place give the same safe name. */
  lemma HashActsAsHyphen(p: string, q: string)
    ensures SafeName(p + "#" + q) == SafeName(p + "-" + q)
  {
    SafeNameAround(p, '#', q);
    SafeNameAround(p, '-', q);
    assert ReplaceSpaceRuns("#") == "#" && ReplaceSpaceRuns("-") == "-";
    assert ReplaceAt("#") == "#" && ReplaceAt("-") == "-";
    assert ReplaceHash("#") == "-" && ReplaceHash("-") == "-";
  }

  /** Renaming can map two different selected photos onto one name, so the later
      copy and thumbnail overwrite the earlier ones. */
  lemma SafeNameCanCollide(p: string, q: string)
    requires Includes(p, ClubMarker) && HasImageExtension(q)
    ensures IsPhotoFile(p + "#" + q) && IsPhotoFile(p + "-" + q)
    ensures p + "#" + q != p + "-" + q
    ensures SafeName(p + "#" + q) == SafeName(p + "-" + q)
  {
    ExtendedPhotoFile(p, '#', q);
    ExtendedPhotoFile(p, '-', q);
    assert (p + "#" + q)[|p|] == '#' && (p + "-" + q)[|p|] == '-';
    HashActsAsHyphen(p, q);
  }

  lemma ExtendedPhotoFile(p: string, c: char, q: string)
    requires Includes(p, ClubMarker) && HasImageExtension(q)
    ensures IsPhotoFile(p + [c] + q)
  {
    var x := p + [c];
    assert x + q == p + ([c] + q);
    IncludesExtended(p, [c] + q);
    EndsWithExtended(x, q, ".jpg");
    EndsWithExtended(x, q, ".jpeg");
    EndsWithExtended(x, q, ".png");
  }

  lemma EndsWithExtended(x: string, q: string, e: string)
    ensures EndsWith(q, e) ==> EndsWith(x + q, e)
  {
    if |e| <= |q| {
      assert (x + q)[|x + q| - |e|..] == q[|q| - |e|..];
    }
  }

  // ---------------------------------------------------------------------------
  // Output paths

  const PhotosDir := "photos"
  const ThumbnailsDir := "photos/thumbnails"

  /** The full-size copy and the thumbnail of one photo, relative to the public
      directory (`join(PHOTOS_DIR, safeName)` and `join(THUMBS_DIR, safeName)`). */
  datatype Outputs = Outputs(photo: string, thumbnail: string)

  function OutputsFor(f: string): Outputs {
    var name := SafeName(f);
    Outputs(PhotosDir + "/" + name, ThumbnailsDir + "/" + name)
  }

  /** The copy is published under the safe name in the photos folder, and the
      thumbnail under the very same name one folder further down. */
  lemma OutputsPaired(f: string)
    ensures var o := OutputsFor(f);
      && |o.photo| > |PhotosDir|
      && o.photo[..|PhotosDir| + 1] == PhotosDir + "/"
      && o.photo[|PhotosDir| + 1..] == SafeName(f)
      && o.thumbnail == ThumbnailsDir + o.photo[|PhotosDir|..]
  {
    var o := OutputsFor(f);
    assert o.photo[|PhotosDir|..] == "/" + SafeName(f);
  }

  /** Two photos share a copy exactly when they share a thumbnail, and that
      happens exactly when their safe names agree. */
  lemma OutputsCollideIff(f: string, g: string)
    ensures OutputsFor(f).photo == OutputsFor(g).photo <==> SafeName(f) == SafeName(g)
    ensures OutputsFor(f).thumbnail == OutputsFor(g).thumbnail <==> SafeName(f) == SafeName(g)
  {
    OutputsPaired(f);
    OutputsPaired(g);
    var a, b := OutputsFor(f), OutputsFor(g);
    if a.thumbnail == b.thumbnail {
      assert a.thumbnail[|ThumbnailsDir| + 1..] == SafeName(f);
      assert b.thumbnail[|ThumbnailsDir| + 1..] == SafeName(g);
    }
  }

  /** The outputs of the run: one pair per selected photo, in directory order. */
  function Plan(files: seq<string>): seq<Outputs> {
    var sel := SelectPhotos(files);
    seq(|sel|, k requires 0 <= k < |sel| => OutputsFor(sel[k]))
  }

  /** The run writes a copy and a thumbnail for every selected file of the listing
      and for nothing else. */
  lemma PlanCoversSelection(files: seq<string>)
    ensures forall f :: f in files && IsPhotoFile(f) ==> OutputsFor(f) in Plan(files)
    ensures forall o :: o in Plan(files) ==> exists f :: f in files && IsPhotoFile(f) && o == OutputsFor(f)
  {
    var sel := SelectPhotos(files);
    forall f | f in files && IsPhotoFile(f) ensures OutputsFor(f) in Plan(files) {
      var k :| 0 <= k < |sel| && sel[k] == f;
      assert Plan(files)[k] == OutputsFor(f);
    }
    forall o | o in Plan(files) ensures exists f :: f in files && IsPhotoFile(f) && o == OutputsFor(f) {
      var k :| 0 <= k < |Plan(files)| && Plan(files)[k] == o;
      assert sel[k] in sel;
    }
  }
}
