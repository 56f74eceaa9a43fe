/**
The privileged restore helper: a durable phase per prepared token, and the
replacement of a target directory whose children wait in a rollback directory
until the new content is complete.
*/
module PreparedRestores {
  type Token = string
  type Path = string
  type Name = string

  /** A child of a directory: anything but a directory, or a directory with its children. */
  datatype Content = File(bytes: string) | Folder(children: Children)
  type Children = map<Name, Content>

  datatype Phase = Prepared | Moving | Writing | RolledBack | Completed
  datatype Mode = Replace | Merge
  datatype State = State(target: Path, mode: Mode, phase: Phase, moved: set<Name>)

  /** What `state.json` of a spool directory holds, and the directory's age. */
  datatype Record = Absent | Garbled | Saved(state: State)
  datatype Spooled = Spooled(record: Record, modified: int)

  /** A target directory: its children, and the rollback directories among them by token. */
  datatype Directory = Directory(entries: Children, rollbacks: map<Token, Children>)

  // -------------------------------------------------------------------------
  // Extracting over a directory
  // -------------------------------------------------------------------------

  /** What extracting one entry over another leaves: directories are merged, anything else is replaced. */
  function Combined(base: Content, archive: Content): Content
    decreases archive
  {
    if base.File? || archive.File? then archive
    else
      Folder(map n | n in base.children.Keys + archive.children.Keys ::
        if n !in archive.children then base.children[n]
        else if n !in base.children then archive.children[n]
        else Combined(base.children[n], archive.children[n]))
  }

  /** What extracting an archive over a directory leaves. */
  function Overlay(base: Children, archive: Children): Children {
    Combined(Folder(base), Folder(archive)).children
  }

  /** The path ends in a file with this content. */
  predicate HasFile(d: Children, path: seq<Name>, bytes: string)
    decreases |path|
  {
    && path != [] && path[0] in d
    && if |path| == 1 then d[path[0]] == File(bytes)
       else d[path[0]].Folder? && HasFile(d[path[0]].children, path[1..], bytes)
  }

  /** Extracting `d` touches the path: it holds it, or a file on the way to it. */
  predicate Touches(d: Children, path: seq<Name>)
    decreases |path|
  {
    path != [] && path[0] in d && (|path| == 1 || d[path[0]].File? || Touches(d[path[0]].children, path[1..]))
  }

  lemma OverNothing(archive: Children)
    ensures Overlay(map[], archive) == archive
  {
  }

  lemma OverlayAt(base: Children, archive: Children, n: Name)
    ensures n in Overlay(base, archive) <==> n in base || n in archive
    ensures n in archive && n in base ==> Overlay(base, archive)[n] == Combined(base[n], archive[n])
    ensures n in archive && n !in base ==> Overlay(base, archive)[n] == archive[n]
    ensures n in base && n !in archive ==> Overlay(base, archive)[n] == base[n]
    ensures n in archive && n in base && base[n].Folder? && archive[n].Folder? ==>
      Overlay(base, archive)[n] == Folder(Overlay(base[n].children, archive[n].children))
  {
  }

  /** Every file of the archive is there afterwards. */
  lemma {:induction false} OverlayHasArchive(base: Children, archive: Children, path: seq<Name>, bytes: string)
    requires HasFile(archive, path, bytes)
    ensures HasFile(Overlay(base, archive), path, bytes)
    decreases |path|
  {
    var n := path[0];
    OverlayAt(base, archive, n);
    if |path| > 1 && n in base && base[n].Folder? {
      OverlayHasArchive(base[n].children, archive[n].children, path[1..], bytes);
    }
  }

  /** And every old file that the archive does not touch is as it was. */
  lemma {:induction false} OverlayKeepsOthers(base: Children, archive: Children, path: seq<Name>, bytes: string)
    requires HasFile(base, path, bytes) && !Touches(archive, path)
    ensures HasFile(Overlay(base, archive), path, bytes)
    decreases |path|
  {
    var n := path[0];
    OverlayAt(base, archive, n);
    if |path| > 1 && n in archive {
      OverlayKeepsOthers(base[n].children, archive[n].children, path[1..], bytes);
    }
  }

  /** Nothing else appears. */
  lemma {:induction false} OverlayAddsNothing(base: Children, archive: Children, path: seq<Name>, bytes: string)
    requires HasFile(Overlay(base, archive), path, bytes)
    ensures HasFile(archive, path, bytes) || (HasFile(base, path, bytes) && !Touches(archive, path))
    decreases |path|
  {
    var n := path[0];
    OverlayAt(base, archive, n);
    if |path| > 1 && n in base && n in archive && base[n].Folder? && archive[n].Folder? {
      OverlayAddsNothing(base[n].children, archive[n].children, path[1..], bytes);
    }
  }

  // -------------------------------------------------------------------------
  // The world
  // -------------------------------------------------------------------------

  /** `began`: tokens whose first target mutation happened, in order. `guarded`: the
      children a running or interrupted replacement found, until it is rolled back or its
      rollback directory is given up. */
  datatype World = World(
    spool: map<Token, Spooled>,
    targets: map<Path, Directory>,
    began: seq<Token>,
    guarded: map<Token, Children>)

  datatype Outcome = Ok | Failed | Crashed

  const DAY := 24 * 3600

  predicate Interrupted(s: Spooled) {
    s.record.Saved? && (s.record.state.phase == Moving || s.record.state.phase == Writing)
  }

  predicate Releasable(s: Spooled) {
    s.record.Saved? && !Interrupted(s)
  }

  /** A directory that is dropped before any other work. */
  predicate Stale(s: Spooled, now: int) {
    now - s.modified >= DAY && (s.record == Absent || Releasable(s))
  }

  /** What a completed restore leaves: the archive alone, or over what was there. */
  function Extracted(mode: Mode, before: Directory, archive: Children): Children {
    if mode == Replace then archive else Overlay(before.entries, archive)
  }

  ghost predicate Busy(w: World, t: Token) {
    t in w.spool && Interrupted(w.spool[t])
  }

  /** Every child of `original` is in its place or in `t`'s rollback directory, unchanged. */
  ghost predicate Intact(original: Children, d: Directory, t: Token) {
    forall n :: n in original ==>
      || (n in d.entries && d.entries[n] == original[n])
      || (t in d.rollbacks && n in d.rollbacks[t] && d.rollbacks[t][n] == original[n])
  }

  ghost predicate Distinct(s: seq<Token>) {
    forall i, k :: 0 <= i < k < |s| ==> s[i] != s[k]
  }

  ghost predicate Good(w: World) {
    && Distinct(w.began) && (forall t :: t in w.guarded ==> t in w.began)
    && (forall t :: t in w.spool && w.spool[t].record.Saved? && w.spool[t].record.state.phase == Prepared ==>
          t !in w.began)
    && (forall t :: t in w.guarded ==>
          Busy(w, t) && w.spool[t].record.state.target in w.targets &&
          Intact(w.guarded[t], w.targets[w.spool[t].record.state.target], t))
  }

  /** The content of each token's archive, which is fixed when it is prepared. */
  type Archives = Token -> Children

  /** One effect: an interrupted record is neither lost nor made applicable again, and a
      target changes only under a token whose durable phase already left `Prepared`. */
  ghost predicate Retains(w: World, w': World) {
    && (forall t :: Busy(w, t) ==>
          t in w'.spool && w'.spool[t].record.Saved? && w'.spool[t].record.state.phase != Prepared)
    && (forall p :: p in w.targets ==> p in w'.targets)
    && (forall p :: p in w.targets && p in w'.targets && w'.targets[p] != w.targets[p] ==>
          exists t :: Busy(w, t) && w.spool[t].record.state.target == p && t in w'.began)
  }

  /** `t` begins: nothing but the ledger changes, and a replacement is guarded by what it finds. */
  ghost predicate Begins(w: World, w': World, t: Token) {
    && w'.began == w.began + [t] && w'.spool == w.spool && w'.targets == w.targets && Busy(w, t)
    && (w.spool[t].record.state.mode == Replace ==>
          w.spool[t].record.state.target in w.targets && t in w'.guarded &&
          w'.guarded[t] == w.targets[w.spool[t].record.state.target].entries)
  }

  /** The only reasons to stop guarding the children that `t` found in `p`: they are all back, the
      whole archive is in their place, or another token begins on the same target. */
  ghost predicate Lapses(archives: Archives, w: World, w': World, t: Token, p: Path) {
    && p in w.targets && t in w.guarded && w'.targets == w.targets
    && (w.targets[p].entries == w.guarded[t] || w.targets[p].entries == archives(t) ||
        exists u :: u != t && Begins(w, w', u) && On(w, u, p))
  }

  ghost predicate Guards(archives: Archives, w: World, w': World) {
    && (forall t :: t in w.guarded && t in w'.guarded ==> w'.guarded[t] == w.guarded[t])
    && (forall t, p {:trigger On(w, t, p)} :: t in w.guarded && On(w, t, p) ==>
          if t in w'.guarded then On(w', t, p) else Lapses(archives, w, w', t, p))
  }

  ghost predicate GoodStep(archives: Archives, w: World, w': World) {
    && Retains(w, w') && Guards(archives, w, w')
    && (w'.began == w.began || exists t :: Begins(w, w', t))
  }

  /** Effects outside the ledger keep it so, if no guarded record changes its target. */
  lemma SameLedger(archives: Archives, w: World, w': World)
    requires Retains(w, w') && w'.began == w.began && w'.guarded == w.guarded
    requires forall t :: t in w.guarded && t in w.spool && w.spool[t].record.Saved? ==>
      t in w'.spool && w'.spool[t].record.Saved? && w'.spool[t].record.state.target == w.spool[t].record.state.target
    ensures GoodStep(archives, w, w')
  {
  }

  ghost function At(h: seq<World>, i: nat): World
    requires i < |h|
  {
    h[i]
  }

  ghost predicate GoodHistory(archives: Archives, h: seq<World>) {
    forall i: nat {:trigger At(h, i)} :: i < |h| ==>
      Good(At(h, i)) && (i > 0 ==> GoodStep(archives, h[i - 1], At(h, i)))
  }

  lemma NotBegunYet(archives: Archives, h: seq<World>, t: Token)
    requires GoodHistory(archives, h) && |h| > 0
    ensures var w := h[|h| - 1];
            && (t in w.spool && w.spool[t].record.Saved? && w.spool[t].record.state.phase == Prepared ==> t !in w.began)
            && (t !in w.began ==> t !in w.guarded)
  {
    GoodLast(archives, h);
  }

  lemma GoodLast(archives: Archives, h: seq<World>)
    requires GoodHistory(archives, h) && |h| > 0
    ensures Good(h[|h| - 1])
  {
    var _ := At(h, |h| - 1);
  }

  lemma GoodExtension(archives: Archives, h: seq<World>, w: World)
    requires GoodHistory(archives, h) && Good(w) && (|h| > 0 ==> GoodStep(archives, h[|h| - 1], w))
    ensures GoodHistory(archives, h + [w])
  {
    var ext := h + [w];
    forall i: nat | i < |ext| ensures Good(At(ext, i)) && (i > 0 ==> GoodStep(archives, ext[i - 1], At(ext, i))) {
      if i < |h| {
        assert At(ext, i) == At(h, i);
      }
    }
  }

  /** Over a whole lifetime no token begins to change its target twice. */
  lemma BeginsAtMostOnce(archives: Archives, h: seq<World>, i: nat, a: nat, b: nat)
    requires GoodHistory(archives, h) && i < |h| && a < b < |h[i].began|
    ensures h[i].began[a] != h[i].began[b]
  {
    var _ := At(h, i);
  }

  /** A child with some content is in the target or in the token's rollback directory. */
  predicate Present(d: Directory, t: Token, n: Name, content: Content) {
    || (n in d.entries && d.entries[n] == content)
    || (t in d.rollbacks && n in d.rollbacks[t] && d.rollbacks[t][n] == content)
  }

  /** Between two instants the children that `t` found were given up for one of the three reasons. */
  ghost predicate GivenUp(archives: Archives, h: seq<World>, i: nat, k: nat, t: Token, p: Path) {
    exists m :: i < m <= k && LapsesAt(archives, h, m, t, p)
  }

  ghost predicate LapsesAt(archives: Archives, h: seq<World>, m: int, t: Token, p: Path) {
    0 < m < |h| && Lapses(archives, h[m - 1], h[m], t, p)
  }

  lemma GuardStep(archives: Archives, w: World, w': World, t: Token, p: Path)
    requires GoodStep(archives, w, w') && t in w.guarded && On(w, t, p)
    ensures Lapses(archives, w, w', t, p) || (t in w'.guarded && w'.guarded[t] == w.guarded[t] && On(w', t, p))
  {
  }

  lemma GivenUpLater(archives: Archives, h: seq<World>, i: nat, k: nat, t: Token, p: Path)
    requires i < k && (GivenUp(archives, h, i, k - 1, t, p) || LapsesAt(archives, h, k, t, p))
    ensures GivenUp(archives, h, i, k, t, p)
  {
    if GivenUp(archives, h, i, k - 1, t, p) {
      var m :| i < m <= k - 1 && LapsesAt(archives, h, m, t, p);
      assert i < m <= k && LapsesAt(archives, h, m, t, p);
    }
  }

  lemma StepOf(archives: Archives, h: seq<World>, k: nat)
    requires GoodHistory(archives, h) && 0 < k < |h|
    ensures GoodStep(archives, h[k - 1], h[k])
  {
    assert GoodStep(archives, h[k - 1], At(h, k));
  }

  /** A guard lasts, with the same children, until it lapses. */
  lemma {:induction false} GuardLasts(archives: Archives, h: seq<World>, i: nat, k: nat, t: Token, p: Path)
    requires GoodHistory(archives, h) && i <= k < |h| && t in h[i].guarded && On(h[i], t, p)
    ensures GivenUp(archives, h, i, k, t, p) ||
            (t in h[k].guarded && h[k].guarded[t] == h[i].guarded[t] && On(h[k], t, p))
    decreases k
  {
    if i < k {
      GuardLasts(archives, h, i, k - 1, t, p);
      StepOf(archives, h, k);
      if GivenUp(archives, h, i, k - 1, t, p) {
        GivenUpLater(archives, h, i, k, t, p);
      } else {
        GuardStep(archives, h[k - 1], h[k], t, p);
        if Lapses(archives, h[k - 1], h[k], t, p) {
          assert LapsesAt(archives, h, k, t, p);
          GivenUpLater(archives, h, i, k, t, p);
        }
      }
    }
  }

  /** From the instant a replacement begins, and so after a crash at any later one, every child it
      found is unchanged in the target or in its rollback directory; until they are all back, the
      whole archive is in their place, or another token begins on the same target. */
  lemma NoChildIsLost(archives: Archives, h: seq<World>, i: nat, k: nat, t: Token, p: Path, n: Name)
    requires GoodHistory(archives, h) && 0 < i <= k < |h|
    requires Begins(h[i - 1], h[i], t) && On(h[i], t, p) && h[i].spool[t].record.state.mode == Replace
    requires p in h[i].targets && n in h[i].targets[p].entries
    ensures GivenUp(archives, h, i, k, t, p) ||
            (p in h[k].targets && Present(h[k].targets[p], t, n, h[i].targets[p].entries[n]))
  {
    GuardLasts(archives, h, i, k, t, p);
    assert Good(At(h, k));
    assert h[i].guarded[t] == h[i].targets[p].entries;
  }

  ghost predicate BeginsAt(h: seq<World>, i: int, t: Token) {
    0 < i < |h| && Begins(h[i - 1], h[i], t)
  }

  lemma {:induction false} BeganSomewhere(archives: Archives, h: seq<World>, k: nat, t: Token)
    requires GoodHistory(archives, h) && k < |h| && h[0].began == [] && t in h[k].began
    ensures exists i :: i <= k && BeginsAt(h, i, t)
    decreases k
  {
    if k > 0 {
      StepOf(archives, h, k);
      if t in h[k - 1].began {
        BeganSomewhere(archives, h, k - 1, t);
      } else {
        var u :| Begins(h[k - 1], h[k], u);
        assert BeginsAt(h, k, t);
      }
    }
  }

  /** Whatever changes an existing target is a restore of it that has begun before, so that the
      children it found are protected from then on. */
  lemma ChangesFollowBeginning(archives: Archives, h: seq<World>, k: nat, p: Path) returns (t: Token, i: nat)
    requires GoodHistory(archives, h) && 0 < k < |h| && h[0].began == []
    requires p in h[k - 1].targets && p in h[k].targets && h[k].targets[p] != h[k - 1].targets[p]
    ensures 0 < i <= k && BeginsAt(h, i, t) && Busy(h[k - 1], t) && On(h[k - 1], t, p)
  {
    StepOf(archives, h, k);
    t :| Busy(h[k - 1], t) && h[k - 1].spool[t].record.state.target == p && t in h[k].began;
    BeganSomewhere(archives, h, k, t);
    i :| 0 < i <= k && BeginsAt(h, i, t);
  }

  /** Once a token has begun, no later instant shows it as prepared, so nothing applies it again. */
  lemma {:induction false} NeverAppliedAgain(archives: Archives, h: seq<World>, i: nat, k: nat, t: Token)
    requires GoodHistory(archives, h) && i <= k < |h| && t in h[i].began
    ensures t in h[k].began
    ensures t in h[k].spool && h[k].spool[t].record.Saved? ==> h[k].spool[t].record.state.phase != Prepared
    decreases k
  {
    assert Good(At(h, k));
    if i < k {
      NeverAppliedAgain(archives, h, i, k - 1, t);
      var a :| 0 <= a < |h[k - 1].began| && h[k - 1].began[a] == t;
      assert h[k].began[a] == t;
    }
  }

  /** A directory part way between its original children and its rollback directory: the
      children in `aside` wait in the rollback directory, the others are in place. */
  ghost function Split(original: Children, rest: map<Token, Children>, t: Token, aside: set<Name>): Directory {
    Directory(original - aside, rest[t := original - (original.Keys - aside)])
  }

  lemma MoveOut(original: Children, rest: map<Token, Children>, t: Token, aside: set<Name>, n: Name)
    requires n in original && n !in aside
    ensures var d := Split(original, rest, t, aside);
            n in d.entries &&
            Directory(d.entries - {n}, d.rollbacks[t := d.rollbacks[t][n := d.entries[n]]]) ==
            Split(original, rest, t, aside + {n})
  {
    var d := Split(original, rest, t, aside);
    assert d.rollbacks[t][n := d.entries[n]] == original - (original.Keys - (aside + {n}));
  }

  /** Moving a child back undoes moving it aside. */
  lemma MoveBack(original: Children, rest: map<Token, Children>, t: Token, aside: set<Name>, n: Name)
    requires n in original && n in aside
    ensures var d := Split(original, rest, t, aside);
            n in d.rollbacks[t] &&
            Directory(d.entries[n := d.rollbacks[t][n]], d.rollbacks[t := d.rollbacks[t] - {n}]) ==
            Split(original, rest, t, aside - {n})
  {
    var d := Split(original, rest, t, aside);
    assert d.rollbacks[t] - {n} == original - (original.Keys - (aside - {n}));
    assert d.entries[n := d.rollbacks[t][n]] == original - (aside - {n});
  }

  lemma AllAside(original: Children, rest: map<Token, Children>, t: Token)
    requires t in rest && rest[t] == original
    ensures Split(original, rest, t, original.Keys) == Directory(map[], rest)
  {
    assert original - (original.Keys - original.Keys) == original;
  }

  lemma NoneAside(original: Children, rest: map<Token, Children>, t: Token)
    ensures Split(original, rest, t, {}) == Directory(original, rest[t := map[]])
  {
    assert original - {} == original;
    assert original - (original.Keys - {}) == map[];
  }

  ghost predicate On(w: World, t: Token, p: Path) {
    t in w.spool && w.spool[t].record.Saved? && w.spool[t].record.state.target == p
  }

  /** The world once `t` begins to change `p`: guards of earlier restores of `p` lapse. */
  ghost function Beginning(w: World, t: Token, p: Path, guard: bool): World
    requires p in w.targets
  {
    var others := map g | g in w.guarded && g != t && !On(w, g, p) :: w.guarded[g];
    w.(began := w.began + [t], guarded := if guard then others[t := w.targets[p].entries] else others)
  }

  lemma BeginningIsGood(w: World, t: Token, p: Path, guard: bool)
    requires Good(w) && Busy(w, t) && On(w, t, p) && t !in w.began && p in w.targets
    ensures Good(Beginning(w, t, p, guard))
    ensures forall g :: g in Beginning(w, t, p, guard).guarded && g != t ==> Busy(w, g) && !On(w, g, p)
  {
    var w' := Beginning(w, t, p, guard);
    forall g | g in w'.guarded
      ensures Busy(w', g) && w'.spool[g].record.state.target in w'.targets &&
              Intact(w'.guarded[g], w'.targets[w'.spool[g].record.state.target], g)
    {
      assert Busy(w, g);
    }
  }

  lemma BeginningIsStep(archives: Archives, w: World, t: Token, p: Path, guard: bool)
    requires Good(w) && Busy(w, t) && On(w, t, p) && t !in w.began && p in w.targets
    requires w.spool[t].record.state.mode == Replace ==> guard
    ensures GoodStep(archives, w, Beginning(w, t, p, guard))
  {
    var w' := Beginning(w, t, p, guard);
    assert Begins(w, w', t);
    forall g, q | g in w.guarded && On(w, g, q)
      ensures if g in w'.guarded then On(w', g, q) else Lapses(archives, w, w', g, q)
    {
      assert Busy(w, g) && g != t;
    }
  }

  lemma SavingKeepsGood(archives: Archives, w: World, t: Token, state: State)
    requires Good(w) && t in w.spool && (state.phase == Prepared ==> !Busy(w, t) && t !in w.began)
    requires t in w.guarded && Busy(w, t) ==>
      state.target == w.spool[t].record.state.target && (state.phase == Moving || state.phase == Writing)
    ensures var w' := w.(spool := w.spool[t := Spooled(Saved(state), w.spool[t].modified)]);
            Good(w') && GoodStep(archives, w, w')
  {
    var w' := w.(spool := w.spool[t := Spooled(Saved(state), w.spool[t].modified)]);
    forall x | x in w.guarded ensures Busy(w', x) && w'.spool[x].record.state.target == w.spool[x].record.state.target {
      assert Busy(w, x);
    }
    SameLedger(archives, w, w');
  }

  lemma DroppingKeepsGood(archives: Archives, w: World, t: Token, spool: map<Token, Spooled>)
    requires Good(w) && t in w.spool && !Busy(w, t)
    requires spool == w.spool - {t} || spool == w.spool[t := Spooled(Absent, w.spool[t].modified)]
    ensures Good(w.(spool := spool)) && GoodStep(archives, w, w.(spool := spool))
  {
    var w' := w.(spool := spool);
    forall x | x in w.guarded ensures Busy(w', x) && w'.spool[x].record.state.target == w.spool[x].record.state.target {
      assert Busy(w, x);
    }
    SameLedger(archives, w, w');
  }

  lemma UnguardingKeepsGood(archives: Archives, w: World, t: Token, p: Path)
    requires Good(w) && Busy(w, t) && On(w, t, p) && p in w.targets
    requires t in w.guarded ==> w.targets[p].entries == w.guarded[t] || w.targets[p].entries == archives(t)
    ensures var w' := w.(guarded := w.guarded - {t}); Good(w') && GoodStep(archives, w, w')
  {
    var w' := w.(guarded := w.guarded - {t});
    forall x | x in w'.guarded
      ensures Busy(w', x) && w'.spool[x].record.state.target in w'.targets &&
              Intact(w'.guarded[x], w'.targets[w'.spool[x].record.state.target], x)
    {
      assert Busy(w, x);
    }
  }

  lemma AdmittingKeepsGood(archives: Archives, w: World, t: Token, now: int)
    requires Good(w) && t !in w.spool
    ensures var w' := w.(spool := w.spool[t := Spooled(Absent, now)]); Good(w') && GoodStep(archives, w, w')
  {
    var w' := w.(spool := w.spool[t := Spooled(Absent, now)]);
    assert forall x :: Busy(w', x) <==> Busy(w, x);
    SameLedger(archives, w, w');
  }

  /** The helper's spool and the targets it restores to. Every effect is appended to `history`;
      `faults` counts the calls that failed or did not return, and `unextracted` the extractions
      among the failed ones. */
  class Helper {
    var spool: map<Token, Spooled>
    var targets: map<Path, Directory>
    ghost var began: seq<Token>
    ghost var guarded: map<Token, Children>
    ghost var history: seq<World>
    ghost var faults: nat
    ghost var unextracted: nat
    const archives: Archives

    ghost function Now(): World
      reads this`spool, this`targets, this`began, this`guarded
    { World(spool, targets, began, guarded) }

    ghost predicate Valid()
      reads this`spool, this`targets, this`began, this`guarded, this`history
    {
      |history| > 0 && history[|history| - 1] == Now() && GoodHistory(archives, history)
    }

    constructor (existing: map<Path, Directory>, archives: Archives)
      ensures Valid() && fresh(this) && spool == map[] && targets == existing && began == [] && guarded == map[]
      ensures this.archives == archives && history == [Now()]
    {
      spool, targets, began, guarded := map[], existing, [], map[];
      this.archives, faults, unextracted := archives, 0, 0;
      new;
      history := [];
      GoodExtension(archives, [], Now());
      history := [Now()];
    }

    ghost method Log()
      requires |history| > 0 && GoodHistory(archives, history)
      requires Good(Now()) && GoodStep(archives, history[|history| - 1], Now())
      modifies this`history
      ensures Valid() && history == old(history) + [Now()]
    {
      GoodExtension(archives, history, Now());
      history := history + [Now()];
    }

    /** A call into the system: a file operation, a check or tar. `faults` counts those that did not
        succeed; a crash is one of them. */
    method Outside() returns (o: Outcome)
      modifies this`faults
      ensures faults == if o == Ok then old(faults) else old(faults) + 1
    {
      o := *;
      if o != Ok { faults := faults + 1; }
    }

    /** `savePrepared`: atomic; an error may still have replaced the file. */
    method SavePrepared(t: Token, state: State) returns (o: Outcome)
      requires Valid() && t in spool
      requires state.phase == Prepared ==> !Busy(Now(), t) && t !in began
      requires t in guarded && Busy(Now(), t) ==>
        state.target == spool[t].record.state.target && (state.phase == Moving || state.phase == Writing)
      modifies this`spool, this`history, this`faults
      ensures Valid() && old(history) <= history
      ensures o == Ok ==> spool == old(spool)[t := Spooled(Saved(state), old(spool)[t].modified)]
      ensures spool == old(spool) || spool == old(spool)[t := Spooled(Saved(state), old(spool)[t].modified)]
      ensures old(faults) <= faults && (faults == old(faults) <==> o == Ok)
    {
      GoodLast(archives, history);
      var durable: bool := *;
      o := Outside();
      if o != Ok && !durable { return; }
      SavingKeepsGood(archives, Now(), t, state);
      spool := spool[t := Spooled(Saved(state), spool[t].modified)];
      Log();
    }

    /** `os.RemoveAll` on a spool directory; it may fail half way and leave no record. */
    method Unlink(t: Token)
      requires Valid() && t in spool && !Busy(Now(), t)
      modifies this`spool, this`history, this`faults
      ensures Valid() && old(history) <= history
      ensures spool == old(spool) || spool == old(spool) - {t} ||
              spool == old(spool)[t := Spooled(Absent, old(spool)[t].modified)]
      ensures old(faults) <= faults && (faults == old(faults) ==> spool == old(spool) - {t})
    {
      GoodLast(archives, history);
      var partly: bool := *;
      var o := Outside();
      var gone := o == Ok;
      if !gone && !partly { return; }
      var next := if gone then spool - {t} else spool[t := Spooled(Absent, spool[t].modified)];
      DroppingKeepsGood(archives, Now(), t, next);
      spool := next;
      Log();
    }

    /** `privateRestoreSpool`: drop day-old directories that no interrupted restore needs. */
    method Expire(now: int)
      requires Valid()
      modifies this`spool, this`history, this`faults
      ensures Valid() && old(history) <= history
      ensures forall t :: t in old(spool) && (Interrupted(old(spool)[t]) || now - old(spool)[t].modified < DAY) ==>
        t in spool && spool[t] == old(spool)[t]
      ensures forall t :: t in spool ==> t in old(spool) && (spool[t] == old(spool)[t] || spool[t].record == Absent)
      ensures old(faults) <= faults
      ensures faults == old(faults) ==> forall t :: t in spool ==> spool[t] == old(spool)[t] && !Stale(spool[t], now)
    {
      var names := spool.Keys;
      while names != {}
        invariant Valid() && old(history) <= history
        invariant forall t :: t in names ==> t in spool && spool[t] == old(spool)[t]
        invariant forall t :: t in old(spool) && (Interrupted(old(spool)[t]) || now - old(spool)[t].modified < DAY) ==>
          t in spool && spool[t] == old(spool)[t]
        invariant forall t :: t in spool ==> t in old(spool) && (spool[t] == old(spool)[t] || spool[t].record == Absent)
        invariant old(faults) <= faults
        invariant faults == old(faults) ==> forall t :: t in spool ==> spool[t] == old(spool)[t]
        invariant faults == old(faults) ==> forall t :: t in spool && t !in names ==> !Stale(spool[t], now)
        decreases names
      {
        var t :| t in names;
        names := names - {t};
        if Stale(spool[t], now) {
          Unlink(t);
        }
      }
    }

    /** A new spool directory, without a record yet. */
    method Admit(t: Token, now: int)
      requires Valid() && t !in spool
      modifies this`spool, this`history
      ensures Valid() && old(history) <= history && spool == old(spool)[t := Spooled(Absent, now)]
    {
      GoodLast(archives, history);
      AdmittingKeepsGood(archives, Now(), t, now);
      spool := spool[t := Spooled(Absent, now)];
      Log();
    }

    /** `prepareRestore`: nothing touches the target; the record appears last. */
    method Prepare(t: Token, target: Path, mode: Mode, now: int) returns (o: Outcome)
      requires Valid() && t !in spool && t !in began
      modifies this`spool, this`history, this`faults
      ensures Valid() && old(history) <= history
      ensures o == Ok ==> t in spool && spool[t].record == Saved(State(target, mode, Prepared, {}))
      ensures spool.Keys <= old(spool).Keys + {t}
      ensures old(faults) <= faults && (faults == old(faults) ==> o == Ok)
    {
      Expire(now);
      Admit(t, now);
      o := Outside();
      if o == Crashed { return; }
      if o == Ok {
        o := SavePrepared(t, State(target, mode, Prepared, {}));
        if o != Failed { return; }
      }
      GoodLast(archives, history);
      Unlink(t);
    }

    /** `release-restore`. */
    method Release(t: Token, now: int) returns (o: Outcome)
      requires Valid()
      modifies this`spool, this`history, this`faults
      ensures Valid() && old(history) <= history
      ensures spool.Keys <= old(spool).Keys
      ensures t in old(spool) && Interrupted(old(spool)[t]) ==> o == Failed && t in spool && spool[t] == old(spool)[t]
      ensures old(faults) <= faults
      ensures faults == old(faults) && t in old(spool) && Releasable(old(spool)[t]) ==> t !in spool
      ensures faults == old(faults) && t in old(spool) && Releasable(old(spool)[t]) && !Stale(old(spool)[t], now) ==>
        o == Ok
    {
      Expire(now);
      if t !in spool || !Releasable(spool[t]) { return Failed; }
      Unlink(t);
      o := if t in spool then Failed else Ok;
    }

    // -----------------------------------------------------------------------
    // Changing the target
    // -----------------------------------------------------------------------

    ghost predicate Working(t: Token, p: Path)
      reads this`spool, this`targets, this`began, this`guarded
    {
      && Busy(Now(), t) && On(Now(), t, p) && p in targets && t in began
      && forall g :: g in guarded && g != t ==> Busy(Now(), g) && !On(Now(), g, p)
    }

    /** One change of the target directory. */
    method Put(t: Token, p: Path, d: Directory)
      requires Valid() && Working(t, p)
      requires t in guarded ==> Intact(guarded[t], d, t)
      modifies this`targets, this`history
      ensures Valid() && old(history) <= history && Working(t, p)
      ensures targets == old(targets)[p := d]
    {
      GoodLast(archives, history);
      targets := targets[p := d];
      Log();
    }

    /** One rename into the rollback directory. */
    method MoveOneAside(t: Token, p: Path, n: Name, ghost rest: map<Token, Children>, ghost aside: set<Name>)
      returns (o: Outcome)
      requires Valid() && Working(t, p) && t in guarded && n in guarded[t] && n !in aside && aside <= guarded[t].Keys
      requires targets[p] == Split(guarded[t], rest, t, aside)
      modifies this`targets, this`history, this`faults
      ensures Valid() && old(history) <= history && Working(t, p)
      ensures o == Ok ==> targets[p] == Split(guarded[t], rest, t, aside + {n})
      ensures o == Ok <==> faults == old(faults)
      ensures old(faults) <= faults
    {
      o := Outside();
      if o != Ok { return; }
      MoveOut(guarded[t], rest, t, aside, n);
      var d := targets[p];
      Put(t, p, Directory(d.entries - {n}, d.rollbacks[t := d.rollbacks[t][n := d.entries[n]]]));
    }

    /** The renames into the rollback directory. */
    method MoveAside(t: Token, p: Path, children: set<Name>) returns (o: Outcome)
      requires Valid() && Working(t, p) && t in guarded && children == guarded[t].Keys
      requires targets[p] == Split(guarded[t], targets[p].rollbacks, t, {})
      modifies this`targets, this`history, this`faults
      ensures Valid() && old(history) <= history && Working(t, p)
      ensures o == Ok ==> targets[p] == Split(guarded[t], old(targets[p]).rollbacks, t, children)
      ensures old(faults) <= faults && (faults == old(faults) ==> o == Ok)
    {
      var names := children;
      ghost var aside: set<Name> := {};
      while names != {}
        invariant Valid() && old(history) <= history && Working(t, p)
        invariant names <= children && aside == children - names
        invariant targets[p] == Split(guarded[t], old(targets[p]).rollbacks, t, aside)
        invariant faults == old(faults)
        decreases names
      {
        var n :| n in names;
        o := MoveOneAside(t, p, n, old(targets[p]).rollbacks, aside);
        if o != Ok { return; }
        names, aside := names - {n}, aside + {n};
      }
      o := Ok;
      assert aside == children;
    }

    /** The first half of `rollbackPrepared`: everything but the rollback directory goes. */
    method ClearRoot(t: Token, p: Path) returns (o: Outcome)
      requires Valid() && Working(t, p) && t in guarded
      requires t in targets[p].rollbacks && targets[p].rollbacks[t] == guarded[t]
      modifies this`targets, this`history, this`faults
      ensures Valid() && old(history) <= history && Working(t, p)
      ensures o == Ok ==> targets[p] == Directory(map[], old(targets[p]).rollbacks)
      ensures old(faults) <= faults && (faults == old(faults) ==> o == Ok)
    {
      var names := targets[p].entries.Keys;
      while names != {}
        invariant Valid() && old(history) <= history && Working(t, p) && targets[p].entries.Keys == names
        invariant targets[p].rollbacks == old(targets[p]).rollbacks
        invariant faults == old(faults)
        decreases names
      {
        var n :| n in names;
        o := Outside();
        if o != Ok { return; }
        names := names - {n};
        Put(t, p, targets[p].(entries := targets[p].entries - {n}));
      }
      o := Ok;
    }

    /** One rename back out of the rollback directory. */
    method MoveOneBack(t: Token, p: Path, n: Name, ghost rest: map<Token, Children>, ghost aside: set<Name>)
      returns (o: Outcome)
      requires Valid() && Working(t, p) && t in guarded && n in aside && aside <= guarded[t].Keys
      requires targets[p] == Split(guarded[t], rest, t, aside)
      modifies this`targets, this`history, this`faults
      ensures Valid() && old(history) <= history && Working(t, p)
      ensures o == Ok ==> targets[p] == Split(guarded[t], rest, t, aside - {n})
      ensures o == Ok <==> faults == old(faults)
      ensures old(faults) <= faults
    {
      o := Outside();
      if o != Ok { return; }
      MoveBack(guarded[t], rest, t, aside, n);
      var d := targets[p];
      Put(t, p, Directory(d.entries[n := d.rollbacks[t][n]], d.rollbacks[t := d.rollbacks[t] - {n}]));
    }

    /** The second half of `rollbackPrepared`: every child moves back. */
    method MoveAllBack(t: Token, p: Path) returns (o: Outcome)
      requires Valid() && Working(t, p) && t in guarded
      requires t in targets[p].rollbacks && targets[p].rollbacks[t] == guarded[t] && targets[p].entries == map[]
      modifies this`targets, this`history, this`faults
      ensures Valid() && old(history) <= history && Working(t, p)
      ensures o == Ok ==> targets[p] == Directory(guarded[t], old(targets[p]).rollbacks[t := map[]])
      ensures old(faults) <= faults && (o == Ok <==> faults == old(faults))
    {
      ghost var rest := targets[p].rollbacks;
      var names := targets[p].rollbacks[t].Keys;
      AllAside(guarded[t], rest, t);
      assert targets[p] == Split(guarded[t], rest, t, names);
      while names != {}
        invariant Valid() && old(history) <= history && Working(t, p) && names <= guarded[t].Keys
        invariant targets[p] == Split(guarded[t], rest, t, names)
        invariant faults == old(faults)
        decreases names
      {
        var n :| n in names;
        o := MoveOneBack(t, p, n, rest, names);
        if o != Ok { return; }
        names := names - {n};
      }
      NoneAside(guarded[t], rest, t);
      o := Ok;
    }

    /** `rollbackPrepared`: clear the root, move every child back, drop the empty directory. */
    method RollBack(t: Token, p: Path) returns (o: Outcome)
      requires Valid() && Working(t, p) && t in guarded
      requires t in targets[p].rollbacks && targets[p].rollbacks[t] == guarded[t]
      modifies this`targets, this`history, this`faults
      ensures Valid() && old(history) <= history && Working(t, p)
      ensures o == Ok ==> targets[p] == Directory(guarded[t], old(targets[p]).rollbacks - {t})
      ensures old(faults) <= faults && (faults == old(faults) ==> o == Ok)
    {
      o := ClearRoot(t, p);
      if o != Ok { return; }
      ghost var rest := targets[p].rollbacks;
      o := MoveAllBack(t, p);
      if o != Ok { return; }
      o := Outside();
      if o != Ok { return; }
      Put(t, p, targets[p].(rollbacks := targets[p].rollbacks - {t}));
      assert targets[p].rollbacks == rest - {t};
      o := Outside();
    }

    /** The token's first change of its target is about to happen. Whatever an earlier,
        interrupted restore left in the same target is no longer protected by it. */
    ghost method BeginMutation(t: Token, p: Path, guard: bool)
      requires Valid() && Busy(Now(), t) && On(Now(), t, p) && p in targets && t !in began
      requires spool[t].record.state.mode == Replace ==> guard
      modifies this`began, this`guarded, this`history
      ensures Valid() && old(history) <= history && Working(t, p)
      ensures t in guarded <==> guard
      ensures guard ==> guarded[t] == targets[p].entries
      ensures began == old(began) + [t]
    {
      GoodLast(archives, history);
      BeginningIsGood(Now(), t, p, guard);
      BeginningIsStep(archives, Now(), t, p, guard);
      var next := Beginning(Now(), t, p, guard);
      began, guarded := next.began, next.guarded;
      Log();
    }

    /** The protection ends: the children are back, or the new content is complete. */
    ghost method Unguard(t: Token, p: Path)
      requires Valid() && Working(t, p)
      requires t in guarded ==> targets[p].entries == guarded[t] || targets[p].entries == archives(t)
      modifies this`guarded, this`history
      ensures Valid() && old(history) <= history && Working(t, p) && guarded == old(guarded) - {t}
    {
      GoodLast(archives, history);
      UnguardingKeepsGood(archives, Now(), t, p);
      guarded := guarded - {t};
      Log();
    }

    /** Tar writes whatever it writes before it fails, and the whole archive if it does not; the
        rollback directory is outside every archive. */
    method Extract(t: Token, p: Path) returns (o: Outcome)
      requires Valid() && Working(t, p)
      requires t in guarded ==>
        targets[p].entries == map[] && t in targets[p].rollbacks && targets[p].rollbacks[t] == guarded[t]
      modifies this`targets, this`history, this`faults, this`unextracted
      ensures Valid() && old(history) <= history && Working(t, p)
      ensures targets == old(targets)[p := targets[p]] && targets[p].rollbacks == old(targets[p]).rollbacks
      ensures o == Ok ==> targets[p].entries == Overlay(old(targets[p]).entries, archives(t))
      ensures o == Ok && t in guarded ==> targets[p].entries == archives(t)
      ensures old(faults) <= faults && (faults == old(faults) ==> o == Ok)
      ensures unextracted == if o == Failed then old(unextracted) + 1 else old(unextracted)
      ensures o == Failed ==> faults == old(faults) + 1
    {
      var written: Children := *;
      o := Outside();
      if o == Failed { unextracted := unextracted + 1; }
      if o == Ok { written := Overlay(targets[p].entries, archives(t)); }
      OverNothing(archives(t));
      Put(t, p, targets[p].(entries := written));
    }

    /** The rollback directory is made and takes every child. */
    method Vacate(t: Token, p: Path, children: set<Name>) returns (o: Outcome)
      requires Valid() && Working(t, p) && t in guarded && t !in targets[p].rollbacks
      requires targets[p].entries == guarded[t] && children == guarded[t].Keys
      modifies this`targets, this`history, this`faults
      ensures Valid() && old(history) <= history && Working(t, p)
      ensures o == Ok ==> targets[p] == Directory(map[], old(targets[p]).rollbacks[t := guarded[t]])
      ensures old(faults) <= faults && (faults == old(faults) ==> o == Ok)
    {
      o := Outside();
      if o != Ok { return; }
      NoneAside(guarded[t], targets[p].rollbacks, t);
      Put(t, p, targets[p].(rollbacks := targets[p].rollbacks[t := map[]]));
      assert targets[p].rollbacks[t := map[]] == targets[p].rollbacks;
      NoneAside(guarded[t], targets[p].rollbacks, t);
      o := MoveAside(t, p, children);
      if o != Ok { return; }
      ghost var rest := old(targets[p]).rollbacks[t := guarded[t]];
      AllAside(guarded[t], rest, t);
      assert Split(guarded[t], rest, t, guarded[t].Keys) == targets[p];
    }

    /** `applyPreparedRestore` in replace mode up to the extraction. */
    method SetAside(t: Token, p: Path, state: State) returns (o: Outcome)
      requires Valid() && Working(t, p) && t in guarded && t !in targets[p].rollbacks
      requires targets[p].entries == guarded[t] && state.moved == guarded[t].Keys && state.target == p
      modifies this`spool, this`targets, this`history, this`faults
      ensures spool.Keys == old(spool).Keys
      ensures Valid() && old(history) <= history && Working(t, p)
      ensures o == Ok ==> targets[p] == Directory(map[], old(targets[p]).rollbacks[t := guarded[t]])
      ensures old(faults) <= faults && (faults == old(faults) ==> o == Ok)
    {
      o := Vacate(t, p, state.moved);
      if o != Ok { return; }
      o := SavePrepared(t, state.(phase := Writing));
    }

    /** The extraction failed: put the children back, and say so durably. */
    method Compensate(t: Token, p: Path, state: State) returns (crashed: bool, restored: bool)
      requires Valid() && Working(t, p) && t in guarded && state.target == p
      requires t in targets[p].rollbacks && targets[p].rollbacks[t] == guarded[t]
      modifies this`spool, this`targets, this`guarded, this`history, this`faults
      ensures spool.Keys == old(spool).Keys
      ensures Valid() && old(history) <= history && p in targets && t in spool && spool[t].record.Saved?
      ensures restored ==> targets[p] == Directory(old(guarded[t]), old(targets[p]).rollbacks - {t})
      ensures spool[t].record.state.phase == RolledBack ==> restored
      ensures spool[t].record.state.phase != Completed
      ensures old(faults) <= faults && (faults == old(faults) ==> restored && !crashed)
      ensures faults == old(faults) ==> spool[t].record.state.phase == RolledBack
    {
      var back := RollBack(t, p);
      if back != Ok { return back == Crashed, false; }
      Unguard(t, p);
      restored := true;
      var saved := SavePrepared(t, state.(phase := RolledBack));
      crashed := saved == Crashed;
    }

    /** The new content is in place: give up the rollback directory and say so durably. */
    method Conclude(t: Token, p: Path, state: State) returns (o: Outcome)
      requires Valid() && Working(t, p) && state.target == p && (t in guarded ==> t in targets[p].rollbacks)
      requires t in guarded ==> targets[p].entries == archives(t)
      modifies this`spool, this`targets, this`guarded, this`history, this`faults
      ensures spool.Keys == old(spool).Keys
      ensures Valid() && old(history) <= history && p in targets
      ensures targets[p].entries == old(targets[p]).entries
      ensures o == Ok ==> t in spool && spool[t].record == Saved(state.(phase := Completed))
      ensures o == Ok ==> t !in targets[p].rollbacks
      ensures t in spool && spool[t].record.Saved? && spool[t].record.state.phase != RolledBack
      ensures old(faults) <= faults && (faults == old(faults) ==> o == Ok)
    {
      o := Outside();
      if o != Ok { return; }
      if t in targets[p].rollbacks {
        Unguard(t, p);
        var left: Children := *;
        o := Outside();
        if o != Ok {
          Put(t, p, targets[p].(rollbacks := targets[p].rollbacks[t := left]));
          return;
        }
        Put(t, p, targets[p].(rollbacks := targets[p].rollbacks - {t}));
        o := Outside();
        if o != Ok { return; }
      }
      o := SavePrepared(t, state.(phase := Completed));
    }

    /** A target that does not exist yet is created empty. */
    method EnsureTarget(p: Path)
      requires Valid()
      modifies this`targets, this`history
      ensures Valid() && old(history) <= history
      ensures targets == if p in old(targets) then old(targets) else old(targets)[p := Directory(map[], map[])]
    {
      if p in targets { return; }
      GoodLast(archives, history);
      ghost var w := Now();
      targets := targets[p := Directory(map[], map[])];
      SameLedger(archives, w, Now());
      Log();
    }

    /** The state a token would be applied in, if it is prepared and its target admits it. */
    predicate Applicable(t: Token)
      reads this`spool, this`targets
    {
      && t in spool && spool[t].record.Saved? && spool[t].record.state.phase == Prepared
      && var s := spool[t].record.state;
         s.mode == Replace && s.target in targets ==> targets[s.target].rollbacks == map[]
    }

    predicate Replaces(t: Token)
      reads this`spool
    {
      t in spool && spool[t].record.Saved? && spool[t].record.state.mode == Replace
    }

    predicate InPhase(t: Token, phase: Phase)
      reads this`spool
    {
      t in spool && spool[t].record.Saved? && spool[t].record.state.phase == phase
    }

    function Existing(p: Path): Directory
      reads this`targets
    {
      if p in targets then targets[p] else Directory(map[], map[])
    }

    /** `apply-restore` on what expiry left. */
    method ApplyFound(t: Token) returns (o: Outcome)
      requires Valid()
      modifies this
      ensures Valid() && old(history) <= history && spool.Keys == old(spool).Keys
      ensures !old(Applicable(t)) ==>
        o == Failed && targets == old(targets) && spool == old(spool) && began == old(began) &&
        faults == old(faults) && unextracted == old(unextracted)
      ensures old(Applicable(t)) ==> (
        var s := old(spool)[t].record.state;
        && (InPhase(t, RolledBack) ==> s.target in targets && targets[s.target] == old(Existing(s.target)))
        && (o == Ok ==> InPhase(t, Completed) && s.target in targets &&
                        targets[s.target].entries == Extracted(s.mode, old(Existing(s.target)), archives(t)))
        && (s.mode == Replace && old(unextracted) < unextracted && faults == old(faults) + 1 ==>
              o == Failed && InPhase(t, RolledBack)))
      ensures began == old(began) || began == old(began) + [t]
      ensures old(faults) <= faults && (old(Applicable(t)) && faults == old(faults) ==> o == Ok)
      ensures old(unextracted) < unextracted ==> old(faults) < faults
    {
      if !Applicable(t) { return Failed; }
      o := Outside();
      if o != Ok { return; }
      NotBegunYet(archives, history, t);
      var state := spool[t].record.state;
      EnsureTarget(state.target);
      o := ApplyChecked(t, state.target, state);
    }

    /** `apply-restore`: validate, leave `Prepared` durably, and only then touch the target. */
    method Apply(t: Token, now: int) returns (o: Outcome)
      requires Valid()
      modifies this
      ensures Valid() && old(history) <= history
      ensures !old(Applicable(t)) ==> o == Failed && targets == old(targets)
      ensures old(Applicable(t)) && InPhase(t, RolledBack) ==>
        var p := old(spool)[t].record.state.target; p in targets && targets[p] == old(Existing(p))
      ensures o == Ok ==> InPhase(t, Completed)
      ensures spool.Keys <= old(spool).Keys
      ensures began == old(began) || (t in old(spool) && began == old(began) + [t])
      ensures old(faults) <= faults
      ensures old(Applicable(t)) && now - old(spool)[t].modified < DAY && faults == old(faults) ==> o == Ok
      ensures o == Ok ==> old(Applicable(t))
      ensures o == Ok ==> (
        var s := old(spool)[t].record.state;
        s.target in targets && targets[s.target].entries == Extracted(s.mode, old(Existing(s.target)), archives(t)))
      ensures old(unextracted) < unextracted ==> old(Applicable(t))
      ensures faults == old(faults) + 1 && old(unextracted) < unextracted && old(Replaces(t)) ==>
        o == Failed && InPhase(t, RolledBack)
    {
      Expire(now);
      o := ApplyFound(t);
    }

    /** `applyPreparedRestore` up to its first change: the record leaves `Prepared` durably. */
    method Commence(t: Token, p: Path, prepared: State, state: State) returns (o: Outcome)
      requires Valid() && t in spool && spool[t].record == Saved(prepared) && p in targets && t !in began
      requires state.target == p && (state.phase == Moving || state.phase == Writing)
      requires state.mode == Replace <==> state.phase == Moving
      modifies this`spool, this`began, this`guarded, this`history, this`faults
      ensures Valid() && old(history) <= history && spool.Keys == old(spool).Keys
      ensures spool[t].record == Saved(prepared) || spool[t].record == Saved(state)
      ensures old(faults) <= faults && (faults == old(faults) <==> o == Ok)
      ensures o == Ok ==> Working(t, p) && spool[t].record == Saved(state) && began == old(began) + [t]
      ensures o == Ok ==> (t in guarded <==> state.phase == Moving)
      ensures o == Ok && state.phase == Moving ==> guarded[t] == targets[p].entries
      ensures o != Ok ==> began == old(began)
    {
      o := Outside();
      if o != Ok { return; }
      NotBegunYet(archives, history, t);
      o := SavePrepared(t, state);
      if o != Ok { return; }
      BeginMutation(t, p, state.phase == Moving);
    }

    /** `applyPreparedRestore`. */
    method ApplyChecked(t: Token, p: Path, prepared: State) returns (o: Outcome)
      requires Valid() && t in spool && spool[t].record == Saved(prepared)
      requires prepared.phase == Prepared && prepared.target == p
      requires p in targets && t !in began && (prepared.mode == Replace ==> targets[p].rollbacks == map[])
      modifies this
      ensures spool.Keys == old(spool).Keys
      ensures Valid() && old(history) <= history && p in targets
      ensures t in spool && spool[t].record.Saved?
      ensures spool[t].record.state.phase == RolledBack ==> targets[p] == old(targets[p])
      ensures o == Ok ==> spool[t].record.state.phase == Completed
      ensures began == old(began) || began == old(began) + [t]
      ensures old(faults) <= faults && (faults == old(faults) ==> o == Ok)
      ensures o == Ok ==> targets[p].entries == Extracted(prepared.mode, old(targets[p]), archives(t))
      ensures prepared.mode == Replace && old(unextracted) < unextracted && faults == old(faults) + 1 ==>
        o == Failed && spool[t].record.state.phase == RolledBack
      ensures old(unextracted) < unextracted ==> old(faults) < faults
    {
      var state := if prepared.mode == Replace then prepared.(phase := Moving, moved := targets[p].entries.Keys)
                   else prepared.(phase := Writing);
      o := Commence(t, p, prepared, state);
      if o != Ok { return; }
      assert prepared.mode == Replace ==> targets[p] == Directory(guarded[t], map[]);
      o := Rewrite(t, p, state);
      OverNothing(archives(t));
    }

    /** `applyPreparedRestore` from its first change of the target on. */
    method Rewrite(t: Token, p: Path, state: State) returns (o: Outcome)
      requires Valid() && Working(t, p) && state.target == p
      requires spool[t].record == Saved(state)
      requires t in guarded <==> state.phase == Moving
      requires t in guarded ==> targets[p] == Directory(guarded[t], map[]) && state.moved == guarded[t].Keys
      modifies this`spool, this`targets, this`guarded, this`history, this`faults, this`unextracted
      ensures spool.Keys == old(spool).Keys && spool[t].record.Saved?
      ensures Valid() && old(history) <= history && p in targets
      ensures spool[t].record.state.phase == RolledBack ==> targets[p] == old(targets[p])
      ensures o == Ok ==> spool[t].record.state.phase == Completed
      ensures old(faults) <= faults && (faults == old(faults) ==> o == Ok)
      ensures o == Ok ==>
        targets[p].entries == Overlay(if state.phase == Moving then map[] else old(targets[p]).entries, archives(t))
      ensures state.phase == Moving && old(unextracted) < unextracted && faults == old(faults) + 1 ==>
        o == Failed && spool[t].record.state.phase == RolledBack
      ensures old(unextracted) < unextracted ==> old(faults) < faults
    {
      var replacing := state.phase == Moving;
      if replacing {
        o := SetAside(t, p, state);
        if o != Ok { return; }
      }
      o := Extract(t, p);
      if o == Crashed { return; }
      if o == Ok {
        o := Conclude(t, p, state);
      } else if replacing {
        var crashed, restored := Compensate(t, p, state);
        assert restored ==> targets[p].rollbacks == map[];
        o := if crashed then Crashed else Failed;
      }
    }

    /** Any sequence of non-overlapping invocations, each succeeding, failing or being
        killed anywhere: the whole history is good. Tokens are never reused. */
    method Lifetime(tokens: seq<Token>)
      requires Valid() && Distinct(tokens)
      requires forall t :: t in tokens ==> t !in spool && t !in began
      modifies this
      ensures Valid() && old(history) <= history
    {
      for i := 0 to |tokens|
        invariant Valid() && old(history) <= history
        invariant forall k :: i <= k < |tokens| ==> tokens[k] !in spool && tokens[k] !in began
      {
        var kind: int, t: Token, p: Path, mode: Mode, now: int, outcome := *, *, *, *, *, Ok;
        if kind == 0 {
          outcome := Prepare(tokens[i], p, mode, now);
        } else if kind == 1 {
          outcome := Apply(t, now);
        } else if kind == 2 {
          outcome := Release(t, now);
        } else {
          Expire(now);
        }
      }
    }
  }
}
