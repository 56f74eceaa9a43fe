/**
Admission of a recovery archive before anything is extracted: which members, in
which order, may follow which links.
*/
module ArchiveValidation {
  /** A slash-separated path as written, and as `path.Clean` leaves it: `ups` leading
      parent references, then plain components. */
  datatype RawPath = RawPath(absolute: bool, parts: seq<string>)
  datatype Cleaned = Cleaned(absolute: bool, ups: nat, parts: seq<string>)

  /** A cleaned relative path inside the archive; the archive root is the empty one. */
  type Name = seq<string>

  datatype Kind = Regular | Folder | Symlink | HardLink | Special

  /** `metadataOk`: ownership, permission bits and extended attributes are admissible. */
  datatype Header = Header(name: RawPath, link: RawPath, kind: Kind, nameBytes: nat, linkBytes: nat, metadataOk: bool)

  /** What already exists below a restore target. */
  datatype Existing = ExistingFolder | ExistingFile | ExistingLink | ExistingSpecial | Inaccessible
  datatype Target = Fresh | Merge(existing: map<Name, Existing>)

  const MAX_ENTRIES := 1_000_000
  const MAX_PATH := 4096

  // -------------------------------------------------------------------------
  // Paths
  // -------------------------------------------------------------------------

  predicate Plain(part: string) { part != "" && part != "." && part != ".." }

  function CleanFrom(parts: seq<string>, done: Cleaned): (r: Cleaned)
    requires forall p :: p in done.parts ==> Plain(p)
    ensures r.absolute == done.absolute && forall p :: p in r.parts ==> Plain(p)
    ensures done.absolute && done.ups == 0 ==> r.ups == 0
    decreases |parts|
  {
    if parts == [] then done
    else if parts[0] == "" || parts[0] == "." then CleanFrom(parts[1..], done)
    else if parts[0] == ".." then
      CleanFrom(parts[1..],
        if done.parts != [] then done.(parts := done.parts[..|done.parts| - 1])
        else if done.absolute then done
        else done.(ups := done.ups + 1))
    else CleanFrom(parts[1..], done.(parts := done.parts + [parts[0]]))
  }

  function Clean(p: RawPath): (r: Cleaned)
    ensures r.absolute == p.absolute && forall c :: c in r.parts ==> Plain(c)
    ensures p.absolute ==> r.ups == 0
  {
    CleanFrom(p.parts, Cleaned(p.absolute, 0, []))
  }

  function Written(c: Cleaned): RawPath {
    RawPath(c.absolute, seq(c.ups, _ => "..") + c.parts)
  }

  lemma {:induction false} CleanPlain(parts: seq<string>, done: Cleaned)
    requires forall p :: p in done.parts + parts ==> Plain(p)
    ensures CleanFrom(parts, done) == done.(parts := done.parts + parts)
    decreases |parts|
  {
    if parts == [] {
      assert done.parts + parts == done.parts;
    } else {
      assert Plain(parts[0]);
      assert (done.parts + [parts[0]]) + parts[1..] == done.parts + parts;
      CleanPlain(parts[1..], done.(parts := done.parts + [parts[0]]));
    }
  }

  lemma {:induction false} CleanUps(n: nat, m: nat, rest: seq<string>)
    requires forall p :: p in rest ==> Plain(p)
    ensures CleanFrom(seq(n, _ => "..") + rest, Cleaned(false, m, [])) == Cleaned(false, m + n, rest)
    decreases n
  {
    var parts := seq(n, _ => "..") + rest;
    if n == 0 {
      assert parts == rest;
      CleanPlain(rest, Cleaned(false, m, []));
      assert [] + rest == rest;
    } else {
      assert parts[1..] == seq(n - 1, _ => "..") + rest;
      CleanUps(n - 1, m + 1, rest);
    }
  }

  /** Cleaning a cleaned path changes nothing. */
  lemma CleanIdempotent(p: RawPath)
    ensures Clean(Written(Clean(p))) == Clean(p)
  {
    var c := Clean(p);
    if c.absolute {
      assert seq(c.ups, _ => "..") + c.parts == c.parts;
      CleanPlain(c.parts, Cleaned(true, 0, []));
      assert [] + c.parts == c.parts;
    } else {
      CleanUps(c.ups, 0, c.parts);
    }
  }

  predicate Inside(c: Cleaned) { !c.absolute && c.ups == 0 }

  /** How much deeper some path components lead: plain ones count, parent references count back. */
  function Depth(parts: seq<string>): int {
    if parts == [] then 0
    else Depth(parts[1..]) + if Plain(parts[0]) then 1 else if parts[0] == ".." then -1 else 0
  }

  /** Starting some directories down, the path leaves them at some point. */
  ghost predicate Leaves(start: nat, parts: seq<string>) {
    exists k :: 0 <= k <= |parts| && start + Depth(parts[..k]) < 0
  }

  lemma LeavesStep(start: nat, parts: seq<string>)
    requires parts != []
    ensures var one := Depth([parts[0]]);
            Leaves(start, parts) <==> start + one < 0 || Leaves(start + one, parts[1..])
  {
    var one := Depth([parts[0]]);
    assert parts[..1] == [parts[0]] && parts[..0] == [];
    if start + one >= 0 {
      forall k | 0 <= k <= |parts| - 1
        ensures (start + one) + Depth(parts[1..][..k]) == start + Depth(parts[..k + 1])
      {
        assert parts[..k + 1][1..] == parts[1..][..k];
      }
      if Leaves(start, parts) {
        var k :| 0 <= k <= |parts| && start + Depth(parts[..k]) < 0;
        assert k > 0;
        assert (start + one) + Depth(parts[1..][..k - 1]) < 0;
      }
      if Leaves(start + one, parts[1..]) {
        var k :| 0 <= k <= |parts| - 1 && (start + one) + Depth(parts[1..][..k]) < 0;
        assert start + Depth(parts[..k + 1]) < 0;
      }
    } else {
      assert start + Depth(parts[..1]) < 0;
    }
  }

  lemma {:induction false} UpsNeverShrink(parts: seq<string>, done: Cleaned)
    requires forall p :: p in done.parts ==> Plain(p)
    ensures CleanFrom(parts, done).ups >= done.ups
    decreases |parts|
  {
    if parts != [] {
      if parts[0] == ".." && done.parts == [] && !done.absolute {
        UpsNeverShrink(parts[1..], done.(ups := done.ups + 1));
      } else if parts[0] == ".." && done.parts != [] {
        UpsNeverShrink(parts[1..], done.(parts := done.parts[..|done.parts| - 1]));
      } else if Plain(parts[0]) {
        UpsNeverShrink(parts[1..], done.(parts := done.parts + [parts[0]]));
      } else {
        UpsNeverShrink(parts[1..], done);
      }
    }
  }

  lemma {:induction false} UpsCountLeaving(parts: seq<string>, done: Cleaned)
    requires !done.absolute && forall p :: p in done.parts ==> Plain(p)
    ensures CleanFrom(parts, done).ups > done.ups <==> Leaves(|done.parts|, parts)
    decreases |parts|
  {
    if parts == [] {
      assert forall k :: 0 <= k <= |parts| ==> parts[..k] == [];
    } else {
      LeavesStep(|done.parts|, parts);
      assert [parts[0]][1..] == [];
      if parts[0] == ".." && done.parts == [] {
        UpsNeverShrink(parts[1..], done.(ups := done.ups + 1));
      } else if parts[0] == ".." {
        UpsCountLeaving(parts[1..], done.(parts := done.parts[..|done.parts| - 1]));
      } else if Plain(parts[0]) {
        UpsCountLeaving(parts[1..], done.(parts := done.parts + [parts[0]]));
      } else {
        UpsCountLeaving(parts[1..], done);
      }
    }
  }

  /** What the escape tests on cleaned paths decide: a path stays inside exactly when it is relative and
      no prefix of it has more parent references than plain components. */
  lemma InsideExactlyWhen(p: RawPath)
    ensures Inside(Clean(p)) <==> !p.absolute && !Leaves(0, p.parts)
  {
    if !p.absolute { UpsCountLeaving(p.parts, Cleaned(false, 0, [])); }
  }

  lemma {:induction false} CleanInSteps(a: seq<string>, b: seq<string>, done: Cleaned)
    requires forall p :: p in done.parts ==> Plain(p)
    ensures CleanFrom(a + b, done) == CleanFrom(b, CleanFrom(a, done))
    decreases |a|
  {
    if a == [] {
      assert a + b == b;
    } else {
      assert (a + b)[1..] == a[1..] + b;
      if a[0] == ".." && done.parts != [] {
        CleanInSteps(a[1..], b, done.(parts := done.parts[..|done.parts| - 1]));
      } else if a[0] == ".." && !done.absolute {
        CleanInSteps(a[1..], b, done.(ups := done.ups + 1));
      } else if Plain(a[0]) {
        CleanInSteps(a[1..], b, done.(parts := done.parts + [a[0]]));
      } else {
        CleanInSteps(a[1..], b, done);
      }
    }
  }

  /** A component and a parent reference after it cancel, wherever they are. */
  lemma CleanCancels(p: RawPath, a: seq<string>, x: string, b: seq<string>)
    requires Plain(x) && p.parts == a + [x, ".."] + b
    ensures Clean(p) == Clean(RawPath(p.absolute, a + b))
  {
    var start := Cleaned(p.absolute, 0, []);
    var done := CleanFrom(a, start);
    CleanInSteps(a, b, start);
    CleanInSteps(a + [x, ".."], b, start);
    CleanInSteps(a, [x, ".."], start);
    var pushed := done.(parts := done.parts + [x]);
    assert [x, ".."][1..] == [".."] && [".."][1..] == [];
    assert pushed.parts[..|done.parts|] == done.parts;
    assert CleanFrom([".."], pushed) == done;
    assert CleanFrom([x, ".."], done) == CleanFrom([".."], pushed);
  }

  /** Empty components and references to the same directory do not count. */
  lemma CleanSkips(p: RawPath, a: seq<string>, x: string, b: seq<string>)
    requires (x == "" || x == ".") && p.parts == a + [x] + b
    ensures Clean(p) == Clean(RawPath(p.absolute, a + b))
  {
    var start := Cleaned(p.absolute, 0, []);
    CleanInSteps(a, b, start);
    CleanInSteps(a + [x], b, start);
    CleanInSteps(a, [x], start);
    assert [x][1..] == [];
  }

  predicate SafeCharacters(n: Name) {
    forall p, i :: p in n && 0 <= i < |p| ==> p[i] != '\0' && p[i] != '\\'
  }

  function Dir(n: Name): Name { if n == [] then [] else n[..|n| - 1] }

  /** Where a symlink points, seen from the directory it is in. */
  function Resolved(h: Header): Cleaned {
    Clean(RawPath(false, Dir(Clean(h.name).parts) + h.link.parts))
  }

  // -------------------------------------------------------------------------
  // What an acceptable archive is
  // -------------------------------------------------------------------------

  function NameOf(h: Header): Name { Clean(h.name).parts }

  predicate IsLink(h: Header) { h.kind == Symlink || h.kind == HardLink }

  /** A member that is acceptable on its own. */
  predicate WellFormed(h: Header) {
    && h.nameBytes <= MAX_PATH && h.linkBytes <= MAX_PATH && h.metadataOk
    && Inside(Clean(h.name)) && SafeCharacters(NameOf(h))
    && (NameOf(h) == [] ==> h.kind == Folder)
    && h.kind != Special
    && (h.kind == Symlink ==> !h.link.absolute && Inside(Resolved(h)))
    && (h.kind == HardLink ==> Inside(Clean(h.link)))
  }

  /** `later` neither replaces the link `earlier` nor lies below it, and if it is a symlink
      it does not take the place of a directory `earlier` lies in. */
  predicate Compatible(earlier: Header, later: Header) {
    && (IsLink(earlier) ==> !(NameOf(earlier) <= NameOf(later)))
    && (later.kind == Symlink ==> !(NameOf(later) < NameOf(earlier)))
  }

  /** A hard link names a member seen before it, reached through no link. */
  predicate Resolvable(before: seq<Header>, h: Header) {
    h.kind == HardLink ==>
      var target := Clean(h.link).parts;
      && (exists i :: 0 <= i < |before| && NameOf(before[i]) == target)
      && (forall i :: 0 <= i < |before| && IsLink(before[i]) ==> !(NameOf(before[i]) <= target))
  }

  predicate Allows(e: Existing, final: bool, kind: Kind) {
    match e
    case ExistingFolder => final ==> kind == Folder
    case ExistingFile => final && kind != Folder
    case ExistingLink => final && kind == Symlink
    case ExistingSpecial => false
    case Inaccessible => false
  }

  predicate Fits(t: Target, h: Header) {
    t.Merge? ==> forall k :: 0 < k <= |NameOf(h)| && NameOf(h)[..k] in t.existing ==>
      Allows(t.existing[NameOf(h)[..k]], k == |NameOf(h)|, h.kind)
  }

  predicate AcceptableNext(before: seq<Header>, t: Target, h: Header) {
    && |before| < MAX_ENTRIES && WellFormed(h) && Resolvable(before, h) && Fits(t, h)
    && forall i :: 0 <= i < |before| ==> Compatible(before[i], h)
  }

  predicate Acceptable(headers: seq<Header>, t: Target) {
    headers == [] ||
    (var n := |headers| - 1; Acceptable(headers[..n], t) && AcceptableNext(headers[..n], t, headers[n]))
  }

  lemma {:induction false} AcceptableThroughout(headers: seq<Header>, t: Target, j: nat)
    requires Acceptable(headers, t) && j < |headers|
    ensures AcceptableNext(headers[..j], t, headers[j])
  {
    if j < |headers| - 1 {
      AcceptableThroughout(headers[..|headers| - 1], t, j);
      assert headers[..|headers| - 1][..j] == headers[..j];
    }
  }

  // -------------------------------------------------------------------------
  // What acceptance guarantees
  // -------------------------------------------------------------------------

  lemma {:induction false} DepthOfPlain(name: Name, parts: seq<string>)
    requires forall p :: p in name ==> Plain(p)
    ensures Depth(name + parts) == |name| + Depth(parts)
  {
    if name == [] {
      assert name + parts == parts;
    } else {
      assert (name + parts)[1..] == name[1..] + parts;
      DepthOfPlain(name[1..], parts);
    }
  }

  /** Below a plain directory, leaving the archive is leaving that directory too far. */
  lemma LeavesBelow(name: Name, parts: seq<string>)
    requires forall p :: p in name ==> Plain(p)
    ensures Leaves(0, name + parts) <==> Leaves(|name|, parts)
  {
    forall k | 0 <= k <= |parts| ensures Depth((name + parts)[..|name| + k]) == |name| + Depth(parts[..k]) {
      assert (name + parts)[..|name| + k] == name + parts[..k];
      DepthOfPlain(name, parts[..k]);
    }
    if Leaves(0, name + parts) {
      var k :| 0 <= k <= |name + parts| && Depth((name + parts)[..k]) < 0;
      if k < |name| {
        assert (name + parts)[..k] == name[..k] + [];
        DepthOfPlain(name[..k], []);
      }
      assert k >= |name|;
      assert |name| + Depth(parts[..k - |name|]) < 0;
    }
    if Leaves(|name|, parts) {
      var k :| 0 <= k <= |parts| && |name| + Depth(parts[..k]) < 0;
      assert Depth((name + parts)[..|name| + k]) < 0;
    }
  }

  /** Nothing in an accepted archive leads out of it: no member name and no hard link target from the root
      of the archive, and no symlink from the directory it is in. */
  lemma NothingEscapes(headers: seq<Header>, t: Target, i: nat)
    requires Acceptable(headers, t) && i < |headers|
    ensures !headers[i].name.absolute && !Leaves(0, headers[i].name.parts)
    ensures headers[i].kind == HardLink ==> !headers[i].link.absolute && !Leaves(0, headers[i].link.parts)
    ensures headers[i].kind == Symlink ==>
      !headers[i].link.absolute && !Leaves(|Dir(NameOf(headers[i]))|, headers[i].link.parts)
  {
    AcceptableThroughout(headers, t, i);
    var h := headers[i];
    InsideExactlyWhen(h.name);
    if h.kind == HardLink { InsideExactlyWhen(h.link); }
    if h.kind == Symlink {
      var dir := Dir(NameOf(h));
      assert forall p :: p in dir ==> p in NameOf(h);
      InsideExactlyWhen(RawPath(false, dir + h.link.parts));
      LeavesBelow(dir, h.link.parts);
    }
  }

  /** No member lies strictly below a symlink member, whichever comes first. */
  lemma NothingBelowSymlinks(headers: seq<Header>, t: Target, s: nat, m: nat)
    requires Acceptable(headers, t) && s < |headers| && m < |headers| && headers[s].kind == Symlink
    ensures !(NameOf(headers[s]) < NameOf(headers[m]))
  {
    if s < m {
      AcceptableThroughout(headers, t, m);
      assert headers[..m][s] == headers[s];
    } else if m < s {
      AcceptableThroughout(headers, t, s);
      assert headers[..s][m] == headers[m];
    }
  }

  /** A member below a hard link's name can only come before the link. */
  lemma BelowHardLinkComesBefore(headers: seq<Header>, t: Target, h: nat, m: nat)
    requires Acceptable(headers, t) && h < |headers| && m < |headers| && headers[h].kind == HardLink
    ensures NameOf(headers[h]) < NameOf(headers[m]) ==> m < h
  {
    if h < m {
      AcceptableThroughout(headers, t, m);
      assert headers[..m][h] == headers[h];
    }
  }

  ghost predicate NothingBelowLinks(headers: seq<Header>) {
    forall l, m :: 0 <= l < |headers| && 0 <= m < |headers| && IsLink(headers[l]) ==>
      !(NameOf(headers[l]) < NameOf(headers[m]))
  }

  /** In an accepted archive nothing lies below any link exactly when no hard link takes the name
      of a directory that an earlier member lies in; symlinks there are refused, hard links not. */
  lemma NothingBelowLinksExactlyWhen(headers: seq<Header>, t: Target)
    requires Acceptable(headers, t)
    ensures NothingBelowLinks(headers) <==>
      forall h, m :: 0 <= m < h < |headers| && headers[h].kind == HardLink ==>
        !(NameOf(headers[h]) < NameOf(headers[m]))
  {
    if forall h, m :: 0 <= m < h < |headers| && headers[h].kind == HardLink ==>
        !(NameOf(headers[h]) < NameOf(headers[m]))
    {
      forall l, m | 0 <= l < |headers| && 0 <= m < |headers| && IsLink(headers[l])
        ensures !(NameOf(headers[l]) < NameOf(headers[m]))
      {
        if headers[l].kind == Symlink {
          NothingBelowSymlinks(headers, t, l, m);
        } else if NameOf(headers[l]) < NameOf(headers[m]) {
          BelowHardLinkComesBefore(headers, t, l, m);
        }
      }
    }
  }

  function Member(name: Name, kind: Kind, link: Name): Header {
    Header(RawPath(false, name), RawPath(false, link), kind, 1, 1, true)
  }

  predicate Ordinary(part: string) {
    Plain(part) && SafeCharacters([part])
  }

  lemma MemberName(name: Name, kind: Kind, link: Name)
    requires (forall p :: p in name ==> Ordinary(p)) && (forall p :: p in link ==> Ordinary(p))
    ensures Clean(RawPath(false, name)) == Cleaned(false, 0, name)
    ensures Clean(RawPath(false, link)) == Cleaned(false, 0, link)
    ensures SafeCharacters(name) && NameOf(Member(name, kind, link)) == name
  {
    assert [] + name == name && [] + link == link;
    CleanPlain(name, Cleaned(false, 0, []));
    CleanPlain(link, Cleaned(false, 0, []));
    forall p, i | p in name && 0 <= i < |p| ensures p[i] != '\0' && p[i] != '\\' {
      assert p in [p] && Ordinary(p);
    }
  }

  lemma AcceptMore(before: seq<Header>, t: Target, h: Header)
    requires Acceptable(before, t) && AcceptableNext(before, t, h)
    ensures Acceptable(before + [h], t)
  {
    assert (before + [h])[..|before|] == before;
  }

  lemma TwoFiles(a: string, b: string, x: string, headers: seq<Header>)
    requires Ordinary(a) && Ordinary(b) && Ordinary(x)
    requires headers == [Member([a, b], Regular, []), Member([x], Regular, [])]
    ensures Acceptable(headers, Fresh)
  {
    MemberName([a, b], Regular, []);
    MemberName([x], Regular, []);
    AcceptMore([], Fresh, headers[0]);
    AcceptMore([headers[0]], Fresh, headers[1]);
    assert [headers[0]] + [headers[1]] == headers && [] + [headers[0]] == [headers[0]];
  }

  /** A file `a/b`, a file `x`, and then a hard link `a` to `x`, are accepted together. */
  lemma HardLinkOverDirectory(a: string, b: string, x: string, files: seq<Header>, link: Header)
    requires Ordinary(a) && Ordinary(b) && Ordinary(x) && a != x
    requires files == [Member([a, b], Regular, []), Member([x], Regular, [])] && link == Member([a], HardLink, [x])
    ensures Acceptable(files + [link], Fresh) && !NothingBelowLinks(files + [link])
  {
    MemberName([a, b], Regular, []);
    MemberName([x], Regular, []);
    MemberName([a], HardLink, [x]);
    TwoFiles(a, b, x, files);
    assert NameOf(files[1]) == Clean(link.link).parts;
    AcceptMore(files, Fresh, link);
    var headers := files + [link];
    assert headers[0] == files[0] && headers[2] == link;
    assert IsLink(headers[2]) && NameOf(headers[2]) < NameOf(headers[0]);
  }

  /** Every hard link names an earlier member, none of whose namesakes before it is a link,
      and no link lies on the way to it. */
  lemma HardLinksNameEarlierMembers(headers: seq<Header>, t: Target, h: nat)
    requires Acceptable(headers, t) && h < |headers| && headers[h].kind == HardLink
    ensures exists m :: 0 <= m < h && NameOf(headers[m]) == Clean(headers[h].link).parts && !IsLink(headers[m])
    ensures forall m :: 0 <= m < h && IsLink(headers[m]) ==> !(NameOf(headers[m]) <= Clean(headers[h].link).parts)
  {
    var before := headers[..h];
    AcceptableThroughout(headers, t, h);
    var m :| 0 <= m < |before| && NameOf(before[m]) == Clean(headers[h].link).parts;
    assert before[m] == headers[m];
    forall i | 0 <= i < h && IsLink(headers[i]) ensures !(NameOf(headers[i]) <= Clean(headers[h].link).parts) {
      assert before[i] == headers[i];
    }
  }

  // -------------------------------------------------------------------------
  // The validator
  // -------------------------------------------------------------------------

  /** The names the validator remembers: links, members, and ancestors of members. */
  datatype Notes = Notes(links: set<Name>, seen: set<Name>, hasChildren: set<Name>)

  const BLANK := Notes({}, {}, {})

  ghost function Above(name: Name): set<Name> {
    set k | 0 < k < |name| :: name[..k]
  }

  ghost function Noted(n: Notes, h: Header): Notes {
    Notes(if IsLink(h) then n.links + {NameOf(h)} else n.links, n.seen + {NameOf(h)}, n.hasChildren + Above(NameOf(h)))
  }

  ghost function NotesOf(before: seq<Header>): Notes {
    if before == [] then BLANK else Noted(NotesOf(before[..|before| - 1]), before[|before| - 1])
  }

  lemma {:induction false} NotesMean(before: seq<Header>, n: Name)
    ensures n in NotesOf(before).links <==> exists i :: 0 <= i < |before| && IsLink(before[i]) && NameOf(before[i]) == n
    ensures n in NotesOf(before).seen <==> exists i :: 0 <= i < |before| && NameOf(before[i]) == n
    ensures n in NotesOf(before).hasChildren <==> n != [] && exists i :: 0 <= i < |before| && n < NameOf(before[i])
  {
    if before != [] {
      var rest, h := before[..|before| - 1], before[|before| - 1];
      NotesMean(rest, n);
      assert before == rest + [h];
      assert forall i :: 0 <= i < |rest| ==> rest[i] == before[i];
      assert n in Above(NameOf(h)) <==> n != [] && n < NameOf(h) by {
        if n != [] && n < NameOf(h) { assert n == NameOf(h)[..|n|]; }
      }
    }
  }

  /** The rules of one member in terms of the notes. */
  ghost predicate Passes(n: Notes, t: Target, h: Header) {
    var name := NameOf(h);
    && WellFormed(h) && Fits(t, h)
    && n.links !! Above(name) && name !in n.links
    && (h.kind == Symlink ==> name !in n.hasChildren)
    && (h.kind == HardLink ==>
          var target := Clean(h.link).parts; target in n.seen && target !in n.links && n.links !! Above(target))
  }

  ghost predicate RootIsNoLink(before: seq<Header>) {
    forall i :: 0 <= i < |before| && IsLink(before[i]) ==> NameOf(before[i]) != []
  }

  lemma LinkFree(before: seq<Header>, name: Name)
    requires RootIsNoLink(before)
    ensures NotesOf(before).links !! Above(name) && name !in NotesOf(before).links <==>
            forall i :: 0 <= i < |before| && IsLink(before[i]) ==> !(NameOf(before[i]) <= name)
  {
    var links := NotesOf(before).links;
    forall i | 0 <= i < |before| && IsLink(before[i]) ensures NameOf(before[i]) in links {
      NotesMean(before, NameOf(before[i]));
    }
    forall n | n in links && (n in Above(name) || n == name)
      ensures exists i :: 0 <= i < |before| && IsLink(before[i]) && NameOf(before[i]) <= name
    {
      NotesMean(before, n);
    }
    forall i | 0 <= i < |before| && IsLink(before[i]) && NameOf(before[i]) <= name
      ensures NameOf(before[i]) in Above(name) || NameOf(before[i]) == name
    {
      var n := NameOf(before[i]);
      assert n == name[..|n|];
    }
  }

  /** The notes decide exactly what the whole prefix of the archive decides. */
  lemma PassingIsAcceptable(before: seq<Header>, t: Target, h: Header)
    requires |before| < MAX_ENTRIES && RootIsNoLink(before)
    ensures Passes(NotesOf(before), t, h) <==> AcceptableNext(before, t, h)
  {
    if WellFormed(h) {
      LinkFree(before, NameOf(h));
      NotesMean(before, NameOf(h));
      if h.kind == HardLink {
        LinkFree(before, Clean(h.link).parts);
        NotesMean(before, Clean(h.link).parts);
      }
    }
  }

  /** The walk over the strict ancestors of a name, root excluded. */
  method Ancestors(name: Name, links: set<Name>) returns (parents: set<Name>, throughLink: bool)
    ensures throughLink <==> !(links !! Above(name))
    ensures !throughLink ==> parents == Above(name)
  {
    parents := {};
    var parent := Dir(name);
    while parent != []
      invariant parent == name[..|parent|] && (|parent| < |name| || name == [])
      invariant parents == set k | |parent| < k < |name| :: name[..k]
      invariant parents !! links
      decreases |parent|
    {
      parents := parents + {parent};
      assert parent in Above(name);
      if parent in links { return parents, true; }
      parent := Dir(parent);
    }
    throughLink := false;
  }

  /** The walk over the components of a name below an existing target. */
  method CheckTarget(existing: map<Name, Existing>, h: Header) returns (ok: bool)
    ensures ok <==> Fits(Merge(existing), h)
  {
    var name := NameOf(h);
    for k := 1 to |name| + 1
      invariant forall i :: 0 < i < k && name[..i] in existing ==> Allows(existing[name[..i]], i == |name|, h.kind)
    {
      if name[..k] in existing {
        var e, final := existing[name[..k]], k == |name|;
        if e == Inaccessible { return false; }
        var replacingFinalSymlink := final && h.kind == Symlink;
        if e == ExistingLink && !replacingFinalSymlink { return false; }
        if e == ExistingFolder && final && h.kind != Folder { return false; }
        if e != ExistingFolder && (!final || h.kind == Folder) { return false; }
        if e == ExistingSpecial { return false; }
      }
    }
    ok := true;
  }

  /** One header: the body of the loop in `ValidateArchive`. */
  method CheckMember(n: Notes, t: Target, h: Header) returns (ok: bool, n': Notes)
    ensures ok <==> Passes(n, t, h)
    ensures ok ==> n' == Noted(n, h)
  {
    n', ok := n, false;
    var cleaned := Clean(h.name);
    var name := cleaned.parts;
    if h.nameBytes > MAX_PATH || h.linkBytes > MAX_PATH || !h.metadataOk { return; }
    if !Inside(cleaned) || !SafeCharacters(name) { return; }
    if name == [] && h.kind != Folder { return; }
    var parents, throughLink := Ancestors(name, n.links);
    if throughLink || name in n.links { return; }
    n' := n'.(hasChildren := n.hasChildren + parents);
    match h.kind {
      case Regular =>
      case Folder =>
      case Symlink =>
        if h.link.absolute || !Inside(Resolved(h)) { return; }
        if name in n.hasChildren { return; }
        n' := n'.(links := n.links + {name});
      case HardLink =>
        var link := Clean(h.link);
        if !Inside(link) || link.parts !in n.seen || link.parts in n.links { return; }
        var _, traverses := Ancestors(link.parts, n.links);
        if traverses { return; }
        n' := n'.(links := n.links + {name});
      case Special =>
        return;
    }
    if t.Merge? {
      var fits := CheckTarget(t.existing, h);
      if !fits { return; }
    }
    n' := n'.(seen := n.seen + {name});
    ok := true;
  }

  /** `ValidateArchive` accepts exactly the acceptable archives. */
  method ValidateArchive(headers: seq<Header>, t: Target) returns (ok: bool)
    ensures ok <==> Acceptable(headers, t)
  {
    var notes := BLANK;
    for i := 0 to |headers|
      invariant notes == NotesOf(headers[..i]) && Acceptable(headers[..i], t) && RootIsNoLink(headers[..i])
    {
      if i >= MAX_ENTRIES {
        Rejected(headers, t, i);
        return false;
      }
      PassingExtends(headers, t, i);
      ok, notes := CheckMember(notes, t, headers[i]);
      if !ok { return; }
    }
    assert headers[..|headers|] == headers;
    ok := true;
  }

  /** A header that passes extends the acceptable prefix; one that does not dooms the archive. */
  lemma PassingExtends(headers: seq<Header>, t: Target, i: nat)
    requires i < |headers| && i < MAX_ENTRIES && Acceptable(headers[..i], t) && RootIsNoLink(headers[..i])
    ensures !Passes(NotesOf(headers[..i]), t, headers[i]) ==> !Acceptable(headers, t)
    ensures Passes(NotesOf(headers[..i]), t, headers[i]) ==>
      Acceptable(headers[..i + 1], t) && RootIsNoLink(headers[..i + 1]) &&
      NotesOf(headers[..i + 1]) == Noted(NotesOf(headers[..i]), headers[i])
  {
    var before, next := headers[..i], headers[..i + 1];
    assert next[..i] == before && next[i] == headers[i];
    PassingIsAcceptable(before, t, headers[i]);
    if !Passes(NotesOf(before), t, headers[i]) { Rejected(headers, t, i); }
  }

  lemma Rejected(headers: seq<Header>, t: Target, i: nat)
    requires i < |headers| && !AcceptableNext(headers[..i], t, headers[i])
    ensures !Acceptable(headers, t)
  {
    if Acceptable(headers, t) { AcceptableThroughout(headers, t, i); }
  }
}
