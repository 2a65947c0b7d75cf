/** Annotations of files: normalisation, batch edits with an audit entry, and their undo. */
module Annotations {
  import opened Options
  import opened Text

  type Path = string

  datatype Annotation = Annotation(tags: seq<string>, importance: int, pinned: bool, note: string, caption: string, group: string)

  const EMPTY := Annotation([], 0, false, "", "", "")
  const MAX_TAGS: nat := 32
  const MAX_TAG_LEN: nat := 64
  const MAX_TEXT_LEN: nat := 4000

  // ----- Normalisation

  function Cut(s: string, n: nat): string {
    if |s| > n then s[..n] else s
  }

  /** Stripped, then cut: what the cut leaves may end in white space. */
  function Clean(s: string, n: nat): string {
    Cut(Trim(s), n)
  }

  function NormalTags(raw: seq<string>): seq<string> {
    if raw == [] then []
    else
      var out, tag := NormalTags(raw[..|raw| - 1]), Clean(raw[|raw| - 1], MAX_TAG_LEN);
      if |out| < MAX_TAGS && tag != "" && tag !in out then out + [tag] else out
  }

  function Clamp(n: int): int {
    if n < 0 then 0 else if n > 5 then 5 else n
  }

  function Normal(a: Annotation): Annotation {
    Annotation(NormalTags(a.tags), Clamp(a.importance), a.pinned, Cut(a.note, MAX_TEXT_LEN),
               Clean(a.caption, MAX_TEXT_LEN), Clean(a.group, MAX_TAG_LEN))
  }

  /** Stops at the first moment that enough tags are kept. */
  method NormalizeTags(raw: seq<string>) returns (out: seq<string>)
    ensures out == NormalTags(raw)
  {
    out := [];
    var seen: set<string> := {};
    for i := 0 to |raw|
      invariant out == NormalTags(raw[..i]) && |out| < MAX_TAGS
      invariant forall t :: t in seen <==> t in out
    {
      assert raw[..i + 1][..i] == raw[..i] && raw[..i + 1][i] == raw[i];
      var value := Clean(raw[i], MAX_TAG_LEN);
      if value != "" && value !in seen {
        seen := seen + {value};
        out := out + [value];
      }
      if |out| >= MAX_TAGS {
        EnoughTags(raw, i + 1);
        return;
      }
    }
    assert raw[..|raw|] == raw;
  }

  lemma {:induction false} EnoughTags(raw: seq<string>, k: nat)
    requires k <= |raw| && |NormalTags(raw[..k])| >= MAX_TAGS
    ensures NormalTags(raw) == NormalTags(raw[..k])
    decreases |raw|
  {
    if k == |raw| {
      assert raw[..k] == raw;
    } else {
      assert raw[..|raw| - 1][..k] == raw[..k];
      EnoughTags(raw[..|raw| - 1], k);
    }
  }

  /** Begins and ends with something else than white space, or is empty. */
  predicate Stripped(s: string) {
    s == "" || (!IsSpace(s[0]) && !IsSpace(s[|s| - 1]))
  }

  lemma TrimStripped(s: string)
    requires Stripped(s)
    ensures Trim(s) == s
  {
  }

  /** Does not begin with white space. */
  predicate Started(s: string) {
    s == "" || !IsSpace(s[0])
  }

  lemma TrimRightStarted(s: string)
    requires Started(s)
    ensures Stripped(TrimRight(s)) && (s != "" ==> TrimRight(s) != "")
  {
    var r := TrimRight(s);
    if s != "" {
      assert s == s[..|r|] + s[|r|..];
      assert r != "" ==> r[0] == s[0];
    }
  }

  lemma CleanStarted(s: string, n: nat)
    ensures Started(Clean(s, n)) && |Clean(s, n)| <= n
  {
    var t := Trim(s);
    if Cut(t, n) != "" {
      assert Cut(t, n)[0] == t[0];
    }
  }

  lemma CleanOfStarted(s: string, n: nat)
    requires Started(s) && |s| <= n
    ensures Clean(s, n) == TrimRight(s)
  {
    assert TrimLeft(s) == s;
  }

  lemma CleanFixed(s: string, n: nat)
    requires Stripped(s) && |s| <= n
    ensures Clean(s, n) == s
  {
    TrimStripped(s);
  }

  /** What one cleaning may still leave is white space at the end, which a second one removes. */
  lemma CleanSettles(s: string, n: nat)
    ensures Clean(Clean(Clean(s, n), n), n) == Clean(Clean(s, n), n)
    ensures Clean(s, n) != "" ==> Clean(Clean(s, n), n) != ""
  {
    var once := Clean(s, n);
    CleanStarted(s, n);
    CleanOfStarted(once, n);
    TrimRightStarted(once);
    CleanFixed(TrimRight(once), n);
  }

  predicate EndsClean(s: string) {
    s == "" || !IsSpace(s[|s| - 1])
  }

  /** A cleaned text is settled if and only if it does not end in white space. */
  lemma CleanAgainIff(s: string, n: nat)
    ensures Clean(Clean(s, n), n) == Clean(s, n) <==> EndsClean(Clean(s, n))
  {
    var once := Clean(s, n);
    CleanStarted(s, n);
    CleanOfStarted(once, n);
    TrimRightStarted(once);
    if EndsClean(once) {
      CleanFixed(once, n);
    }
  }

  /** ... which is so exactly if the stripped text fits, or is not cut right behind white space. */
  lemma CleanSettledIff(s: string, n: nat)
    requires n > 0
    ensures Clean(Clean(s, n), n) == Clean(s, n) <==> |Trim(s)| <= n || !IsSpace(Trim(s)[n - 1])
  {
    CleanAgainIff(s, n);
    var t := Trim(s);
    assert t == TrimRight(TrimLeft(s)) && EndsClean(t);
  }

  // ----- Tags settle after two rounds

  predicate Distinct(tags: seq<string>) {
    forall i, j :: 0 <= i < j < |tags| ==> tags[i] != tags[j]
  }

  /** What one round keeps: few, distinct, non-empty tags. */
  lemma {:induction false} NormalTagsAre(raw: seq<string>)
    ensures var out := NormalTags(raw); |out| <= MAX_TAGS && Distinct(out) && "" !in out
  {
    if raw != [] {
      NormalTagsAre(raw[..|raw| - 1]);
    }
  }

  predicate CleanedFrom(t: string, raw: seq<string>) {
    exists i :: 0 <= i < |raw| && t == Clean(raw[i], MAX_TAG_LEN)
  }

  lemma CleanedFromMore(t: string, init: seq<string>, raw: seq<string>)
    requires CleanedFrom(t, init) && init <= raw
    ensures CleanedFrom(t, raw)
  {
    var i :| 0 <= i < |init| && t == Clean(init[i], MAX_TAG_LEN);
    assert raw[i] == init[i];
  }

  /** Each of them is the cleaning of a given tag. */
  lemma {:induction false} NormalTagsFrom(raw: seq<string>, t: string)
    requires t in NormalTags(raw)
    ensures CleanedFrom(t, raw)
  {
    var n := |raw| - 1;
    var init, last := raw[..n], Clean(raw[n], MAX_TAG_LEN);
    if t in NormalTags(init) {
      NormalTagsFrom(init, t);
      CleanedFromMore(t, init, raw);
    } else {
      assert t == last;
    }
  }

  lemma {:induction false} NormalTagsFixed(tags: seq<string>)
    requires |tags| <= MAX_TAGS && Distinct(tags) && "" !in tags
    requires forall t :: t in tags ==> Clean(t, MAX_TAG_LEN) == t
    ensures NormalTags(tags) == tags
  {
    if tags != [] {
      var n := |tags| - 1;
      assert tags == tags[..n] + [tags[n]];
      NormalTagsFixed(tags[..n]);
      assert tags[n] in tags;
      forall i | 0 <= i < n
        ensures tags[..n][i] != tags[n]
      {
      }
    }
  }

  lemma NormalTagsSettle(raw: seq<string>)
    ensures NormalTags(NormalTags(NormalTags(raw))) == NormalTags(NormalTags(raw))
  {
    var once := NormalTags(raw);
    var twice := NormalTags(once);
    NormalTagsAre(raw);
    NormalTagsAre(once);
    forall t | t in twice
      ensures Clean(t, MAX_TAG_LEN) == t
    {
      NormalTagsFrom(once, t);
      var i :| 0 <= i < |once| && t == Clean(once[i], MAX_TAG_LEN);
      NormalTagsFrom(raw, once[i]);
      var j :| 0 <= j < |raw| && once[i] == Clean(raw[j], MAX_TAG_LEN);
      CleanSettles(raw[j], MAX_TAG_LEN);
    }
    NormalTagsFixed(twice);
  }

  /** Normalising is not idempotent, but twice is enough. */
  lemma NormalSettles(a: Annotation)
    ensures Normal(Normal(Normal(a))) == Normal(Normal(a))
  {
    NormalTagsSettle(a.tags);
    CutSettles(a.note, MAX_TEXT_LEN);
    CleanSettles(a.caption, MAX_TEXT_LEN);
    CleanSettles(a.group, MAX_TAG_LEN);
  }

  lemma TagsSettledIff(raw: seq<string>)
    ensures var once := NormalTags(raw); NormalTags(once) == once <==> forall t :: t in once ==> EndsClean(t)
  {
    var once := NormalTags(raw);
    NormalTagsAre(raw);
    forall t | t in once
      ensures Clean(t, MAX_TAG_LEN) == t <==> EndsClean(t)
    {
      NormalTagsFrom(raw, t);
      var j :| 0 <= j < |raw| && t == Clean(raw[j], MAX_TAG_LEN);
      CleanAgainIff(raw[j], MAX_TAG_LEN);
    }
    if forall t :: t in once ==> EndsClean(t) {
      NormalTagsFixed(once);
    } else if NormalTags(once) == once {
      var t :| t in once && !EndsClean(t);
      SecondRoundEndsClean(raw, t);
    }
  }

  lemma SecondRoundEndsClean(raw: seq<string>, t: string)
    requires t in NormalTags(NormalTags(raw))
    ensures EndsClean(t)
  {
    var once := NormalTags(raw);
    NormalTagsFrom(once, t);
    var i :| 0 <= i < |once| && t == Clean(once[i], MAX_TAG_LEN);
    NormalTagsFrom(raw, once[i]);
    var j :| 0 <= j < |raw| && once[i] == Clean(raw[j], MAX_TAG_LEN);
    CleanSettles(raw[j], MAX_TAG_LEN);
    CleanAgainIff(once[i], MAX_TAG_LEN);
  }

  /** No tag, and neither caption nor group, ends in white space. */
  predicate AllEndClean(a: Annotation) {
    (forall t :: t in a.tags ==> EndsClean(t)) && EndsClean(a.caption) && EndsClean(a.group)
  }

  /** Exactly when a normalised annotation is settled. */
  lemma {:induction false} NormalSettledIff(a: Annotation)
    ensures Normal(Normal(a)) == Normal(a) <==> AllEndClean(Normal(a))
  {
    TagsSettledIff(a.tags);
    CutSettles(a.note, MAX_TEXT_LEN);
    CleanAgainIff(a.caption, MAX_TEXT_LEN);
    CleanAgainIff(a.group, MAX_TAG_LEN);
  }

  lemma CutSettles(s: string, n: nat)
    ensures Cut(Cut(s, n), n) == Cut(s, n)
  {
  }

  /** A caption of 3999 letters, a space and another letter is cut right after the space. */
  lemma NormalNotIdempotent(letters: string)
    requires |letters| == MAX_TEXT_LEN - 1 && forall c :: c in letters ==> !IsSpace(c)
    ensures var a := EMPTY.(caption := letters + " x"); Normal(Normal(a)) != Normal(a)
  {
    var raw := letters + " x";
    assert raw[0] == letters[0] && raw[|raw| - 1] == 'x';
    TrimStripped(raw);
    assert Clean(raw, MAX_TEXT_LEN) == letters + " ";
    var once := letters + " ";
    assert TrimLeft(once) == once;
    assert once[..|once| - 1] == letters;
    assert TrimRight(once) == TrimRight(letters);
  }

  // ----- Table and audit log

  type Table = map<Path, Annotation>

  function View(t: Table, p: Path): Annotation {
    if p in t then Normal(t[p]) else EMPTY
  }

  /** Writing a default annotation removes the row. */
  function Written(t: Table, p: Path, a: Annotation): Table {
    if Normal(a) == EMPTY then t - {p} else t[p := Normal(a)]
  }

  /** Every row was normalised when it was written. */
  ghost predicate Stored(t: Table) {
    forall p :: p in t ==> exists a :: t[p] == Normal(a)
  }

  lemma NormalEmpty()
    ensures Normal(EMPTY) == EMPTY
  {
  }

  lemma WrittenView(t: Table, p: Path, a: Annotation, q: Path)
    ensures View(Written(t, p, a), q) == if q == p then Normal(Normal(a)) else View(t, q)
  {
    NormalEmpty();
  }

  lemma WrittenStored(t: Table, p: Path, a: Annotation)
    requires Stored(t)
    ensures Stored(Written(t, p, a))
  {
  }

  /** What is read of a stored row does not change by writing it back. */
  lemma ViewSettled(t: Table, p: Path)
    requires Stored(t)
    ensures Normal(View(t, p)) == View(t, p)
  {
    if p in t {
      var a :| t[p] == Normal(a);
      NormalSettles(a);
    }
    NormalEmpty();
  }

  datatype TagsMode = ReplaceTags | AddTags | RemoveTags

  datatype NoteMode = ReplaceNote | AppendNote | ClearNote

  datatype Patch = Patch(tags: Option<seq<string>>, importance: Option<int>, pinned: Option<bool>,
                         note: Option<string>, caption: Option<string>, group: Option<string>)

  function Or<T>(o: Option<T>, other: T): T {
    if o.Some? then o.value else other
  }

  function Without(tags: seq<string>, gone: seq<string>): seq<string> {
    if tags == [] then []
    else
      var kept := Without(tags[..|tags| - 1], gone);
      if tags[|tags| - 1] in gone then kept else kept + [tags[|tags| - 1]]
  }

  function MergedTags(before: seq<string>, patch: Patch, mode: TagsMode): seq<string> {
    if patch.tags.None? then before
    else
      var incoming := NormalTags(patch.tags.value);
      match mode
      case AddTags => NormalTags(before + incoming)
      case RemoveTags => Without(before, incoming)
      case ReplaceTags => incoming
  }

  function MergedNote(before: string, patch: Patch, mode: NoteMode): string {
    if patch.note.None? then before
    else
      var note := Cut(patch.note.value, MAX_TEXT_LEN);
      match mode
      case AppendNote => Cut(before + (if before != "" && note != "" then "\n" else "") + note, MAX_TEXT_LEN)
      case ClearNote => ""
      case ReplaceNote => note
  }

  function Merged(before: Annotation, patch: Patch, tagsMode: TagsMode, noteMode: NoteMode): Annotation {
    Normal(Annotation(MergedTags(before.tags, patch, tagsMode), Or(patch.importance, before.importance), Or(patch.pinned, before.pinned),
                      MergedNote(before.note, patch, noteMode), Or(patch.caption, before.caption), Or(patch.group, before.group)))
  }

  /** The paths once each, empty ones dropped, in order of first occurrence. */
  function Unique(paths: seq<Path>): seq<Path> {
    if paths == [] then []
    else
      var before, p := Unique(paths[..|paths| - 1]), paths[|paths| - 1];
      if p == "" || p in before then before else before + [p]
  }

  /** What a batch has done so far. */
  datatype Editing = Editing(table: Table, items: seq<(Path, Annotation)>, kept: seq<(Path, Annotation)>)

  function EditedOne(e: Editing, p: Path, patch: Patch, tagsMode: TagsMode, noteMode: NoteMode, dryRun: bool): Editing {
    var before := View(e.table, p);
    var merged := Merged(before, patch, tagsMode, noteMode);
    Editing(if dryRun then e.table else Written(e.table, p, merged), e.items + [(p, merged)], e.kept + [(p, before)])
  }

  function EditedAll(t: Table, paths: seq<Path>, patch: Patch, tagsMode: TagsMode, noteMode: NoteMode, dryRun: bool): Editing {
    if paths == [] then Editing(t, [], [])
    else EditedOne(EditedAll(t, paths[..|paths| - 1], patch, tagsMode, noteMode, dryRun), paths[|paths| - 1], patch, tagsMode, noteMode, dryRun)
  }

  /** The table after a batch. */
  function Batched(t: Table, paths: seq<Path>, patch: Patch, tagsMode: TagsMode, noteMode: NoteMode): Table {
    EditedAll(t, paths, patch, tagsMode, noteMode, false).table
  }

  /** What each path read before, in order. */
  function Before(t: Table, paths: seq<Path>): seq<(Path, Annotation)> {
    if paths == [] then [] else Before(t, paths[..|paths| - 1]) + [(paths[|paths| - 1], View(t, paths[|paths| - 1]))]
  }

  function Restored(t: Table, undo: seq<(Path, Annotation)>): Table {
    if undo == [] then t
    else Written(Restored(t, undo[..|undo| - 1]), undo[|undo| - 1].0, Normal(undo[|undo| - 1].1))
  }

  /** A batch keeps what it replaced; other entries cannot be undone. */
  datatype Entry = BatchEntry(active: bool, undo: seq<(Path, Annotation)>) | OtherEntry

  /** Entries are numbered by their position. */
  datatype Log = Log(table: Table, entries: seq<Entry>)

  function Set(t: Table, p: Path, patch: Patch, merge: bool): Annotation {
    Merged(if merge then View(t, p) else EMPTY, patch, ReplaceTags, ReplaceNote)
  }

  function BatchStep(l: Log, paths: seq<Path>, patch: Patch, tagsMode: TagsMode, noteMode: NoteMode): Log {
    var u := Unique(paths);
    if u == [] then l
    else Log(Batched(l.table, u, patch, tagsMode, noteMode), l.entries + [BatchEntry(true, Before(l.table, u))])
  }

  predicate CanUndo(l: Log, id: nat) {
    id < |l.entries| && l.entries[id].BatchEntry? && l.entries[id].active
  }

  function UndoStep(l: Log, id: nat): Log {
    if !CanUndo(l, id) then l
    else Log(Restored(l.table, l.entries[id].undo), l.entries[id := l.entries[id].(active := false)] + [OtherEntry])
  }

  datatype Step =
    | SetOne(path: Path, patch: Patch, merge: bool)
    | BatchSet(paths: seq<Path>, patch: Patch, tagsMode: TagsMode, noteMode: NoteMode)
    | Undo(id: nat)
    | Remove(path: Path)

  function Apply(l: Log, step: Step): Log {
    match step
    case SetOne(p, patch, merge) => l.(table := Written(l.table, p, Set(l.table, p, patch, merge)))
    case BatchSet(paths, patch, tagsMode, noteMode) => BatchStep(l, paths, patch, tagsMode, noteMode)
    case Undo(id) => UndoStep(l, id)
    case Remove(p) => l.(table := l.table - {p})
  }

  function Run(l: Log, steps: seq<Step>): Log {
    if steps == [] then l else Apply(Run(l, steps[..|steps| - 1]), steps[|steps| - 1])
  }

  // ----- What a batch and its undo do

  predicate Once(paths: seq<Path>) {
    forall i, j :: 0 <= i < j < |paths| ==> paths[i] != paths[j]
  }

  lemma {:induction false} UniqueOnce(paths: seq<Path>)
    ensures Once(Unique(paths)) && forall p :: p in Unique(paths) <==> p in paths && p != ""
  {
    if paths != [] {
      var n := |paths| - 1;
      UniqueOnce(paths[..n]);
      assert paths == paths[..n] + [paths[n]];
    }
  }

  /** A batch changes exactly its paths, each as if it were alone. */
  lemma {:induction false} BatchedView(t: Table, paths: seq<Path>, patch: Patch, tagsMode: TagsMode, noteMode: NoteMode, p: Path)
    requires Stored(t) && Once(paths)
    ensures var b := Batched(t, paths, patch, tagsMode, noteMode);
      Stored(b) && View(b, p) == if p in paths then Normal(Merged(View(t, p), patch, tagsMode, noteMode)) else View(t, p)
  {
    if paths != [] {
      var n := |paths| - 1;
      assert paths == paths[..n] + [paths[n]];
      BatchedView(t, paths[..n], patch, tagsMode, noteMode, p);
      BatchedView(t, paths[..n], patch, tagsMode, noteMode, paths[n]);
      var b := Batched(t, paths[..n], patch, tagsMode, noteMode);
      var merged := Merged(View(b, paths[n]), patch, tagsMode, noteMode);
      WrittenView(b, paths[n], merged, p);
      WrittenStored(b, paths[n], merged);
      MergedSettles(View(b, paths[n]), patch, tagsMode, noteMode);
    }
  }

  lemma MergedSettles(before: Annotation, patch: Patch, tagsMode: TagsMode, noteMode: NoteMode)
    ensures var m := Merged(before, patch, tagsMode, noteMode); Normal(Normal(m)) == Normal(m)
  {
    NormalSettles(Annotation(MergedTags(before.tags, patch, tagsMode), Or(patch.importance, before.importance), Or(patch.pinned, before.pinned),
                             MergedNote(before.note, patch, noteMode), Or(patch.caption, before.caption), Or(patch.group, before.group)));
  }

  lemma {:induction false} BeforeAre(t: Table, paths: seq<Path>)
    requires Once(paths)
    ensures var undo := Before(t, paths);
      |undo| == |paths| && forall i :: 0 <= i < |paths| ==> undo[i] == (paths[i], View(t, paths[i]))
  {
    if paths != [] {
      BeforeAre(t, paths[..|paths| - 1]);
    }
  }

  /** Restoring leaves other paths alone. */
  lemma {:induction false} RestoredElsewhere(t: Table, undo: seq<(Path, Annotation)>, p: Path)
    requires forall i :: 0 <= i < |undo| ==> undo[i].0 != p
    ensures View(Restored(t, undo), p) == View(t, p)
  {
    if undo != [] {
      var n := |undo| - 1;
      RestoredElsewhere(t, undo[..n], p);
      WrittenView(Restored(t, undo[..n]), undo[n].0, Normal(undo[n].1), p);
    }
  }

  /** Restoring writes back what was kept, each path once. */
  lemma {:induction false} RestoredView(t: Table, undo: seq<(Path, Annotation)>, i: nat)
    requires forall j, k :: 0 <= j < k < |undo| ==> undo[j].0 != undo[k].0
    requires i < |undo| && Normal(undo[i].1) == undo[i].1
    ensures View(Restored(t, undo), undo[i].0) == undo[i].1
  {
    var n := |undo| - 1;
    WrittenView(Restored(t, undo[..n]), undo[n].0, Normal(undo[n].1), undo[i].0);
    if i < n {
      RestoredView(t, undo[..n], i);
    }
  }

  lemma {:induction false} RunKeepsEntry(l: Log, steps: seq<Step>, id: nat)
    requires id < |l.entries| && forall i :: 0 <= i < |steps| ==> steps[i] != Undo(id)
    ensures id < |Run(l, steps).entries| && Run(l, steps).entries[id] == l.entries[id]
  {
    if steps != [] {
      RunKeepsEntry(l, steps[..|steps| - 1], id);
    }
  }

  lemma {:induction false} RestoredStored(t: Table, undo: seq<(Path, Annotation)>)
    requires Stored(t)
    ensures Stored(Restored(t, undo))
  {
    if undo != [] {
      var n := |undo| - 1;
      RestoredStored(t, undo[..n]);
      WrittenStored(Restored(t, undo[..n]), undo[n].0, Normal(undo[n].1));
    }
  }

  /** Every operation leaves only rows that were normalised when written. */
  lemma {:induction false} RunKeepsStored(l: Log, steps: seq<Step>)
    requires Stored(l.table)
    ensures Stored(Run(l, steps).table)
  {
    if steps != [] {
      RunKeepsStored(l, steps[..|steps| - 1]);
      var before := Run(l, steps[..|steps| - 1]);
      match steps[|steps| - 1] {
        case SetOne(p, patch, merge) => WrittenStored(before.table, p, Set(before.table, p, patch, merge));
        case BatchSet(paths, patch, tagsMode, noteMode) =>
          UniqueOnce(paths);
          BatchedView(before.table, Unique(paths), patch, tagsMode, noteMode, "");
        case Undo(id) =>
          if CanUndo(before, id) {
            RestoredStored(before.table, before.entries[id].undo);
          }
        case Remove(p) =>
      }
    }
  }

  /** A batch, then any other edits, batches and undos, to the same paths or others, then the undo of
  the batch: every path of the batch reads as before it, every other path as just before the undo,
  and the undo cannot be done a second time. */
  lemma {:induction false} BatchThenUndo(l: Log, paths: seq<Path>, patch: Patch, tagsMode: TagsMode, noteMode: NoteMode, steps: seq<Step>, p: Path)
    requires Stored(l.table) && Unique(paths) != []
    requires forall i :: 0 <= i < |steps| ==> steps[i] != Undo(|l.entries|)
    ensures var id, mid := |l.entries|, Run(BatchStep(l, paths, patch, tagsMode, noteMode), steps);
      && CanUndo(mid, id) && !CanUndo(UndoStep(mid, id), id)
      && View(UndoStep(mid, id).table, p) == if p in paths && p != "" then View(l.table, p) else View(mid.table, p)
  {
    var id, u := |l.entries|, Unique(paths);
    UniqueOnce(paths);
    BeforeAre(l.table, u);
    RunKeepsEntry(BatchStep(l, paths, patch, tagsMode, noteMode), steps, id);
    var mid := Run(BatchStep(l, paths, patch, tagsMode, noteMode), steps);
    var undo := Before(l.table, u);
    assert mid.entries[id] == BatchEntry(true, undo);
    if p in u {
      var i :| 0 <= i < |u| && u[i] == p;
      ViewSettled(l.table, p);
      RestoredView(mid.table, undo, i);
    } else {
      RestoredElsewhere(mid.table, undo, p);
    }
  }

  /** An undone entry stays undone. */
  lemma {:induction false} UndoneForGood(l: Log, id: nat, steps: seq<Step>)
    requires id < |l.entries| && !CanUndo(l, id)
    ensures id < |Run(l, steps).entries| && !CanUndo(Run(l, steps), id)
  {
    if steps != [] {
      UndoneForGood(l, id, steps[..|steps| - 1]);
    }
  }

  /** What setting an annotation returns is what will be read if and only if none of its tags, its caption
  or its group ends in white space. */
  lemma {:induction false} ReturnedIsReadIff(t: Table, p: Path, patch: Patch, merge: bool)
    ensures var new_ := Set(t, p, patch, merge); View(Written(t, p, new_), p) == new_ <==> AllEndClean(new_)
  {
    var before := if merge then View(t, p) else EMPTY;
    var new_ := Set(t, p, patch, merge);
    WrittenView(t, p, new_, p);
    MergedSettles(before, patch, ReplaceTags, ReplaceNote);
    NormalSettledIff(Annotation(MergedTags(before.tags, patch, ReplaceTags), Or(patch.importance, before.importance), Or(patch.pinned, before.pinned),
                                MergedNote(before.note, patch, ReplaceNote), Or(patch.caption, before.caption), Or(patch.group, before.group)));
  }

  // ----- The store

  /** The annotation each path gets. */
  function Items(t: Table, paths: seq<Path>, patch: Patch, tagsMode: TagsMode, noteMode: NoteMode): seq<(Path, Annotation)> {
    if paths == [] then []
    else
      var p := paths[|paths| - 1];
      Items(t, paths[..|paths| - 1], patch, tagsMode, noteMode) + [(p, Merged(View(t, p), patch, tagsMode, noteMode))]
  }

  lemma {:induction false} DryRunKeeps(t: Table, paths: seq<Path>, patch: Patch, tagsMode: TagsMode, noteMode: NoteMode)
    ensures EditedAll(t, paths, patch, tagsMode, noteMode, true).table == t
  {
    if paths != [] {
      DryRunKeeps(t, paths[..|paths| - 1], patch, tagsMode, noteMode);
    }
  }

  /** As the paths are distinct, each reads as before the batch when its turn comes. */
  lemma EditedView(t: Table, init: seq<Path>, p: Path, patch: Patch, tagsMode: TagsMode, noteMode: NoteMode, dryRun: bool)
    requires Stored(t) && Once(init) && p !in init
    ensures View(EditedAll(t, init, patch, tagsMode, noteMode, dryRun).table, p) == View(t, p)
  {
    if dryRun {
      DryRunKeeps(t, init, patch, tagsMode, noteMode);
    } else {
      BatchedView(t, init, patch, tagsMode, noteMode, p);
    }
  }

  lemma OncePrefix(u: seq<Path>)
    requires Once(u) && u != []
    ensures Once(u[..|u| - 1]) && u[|u| - 1] !in u[..|u| - 1]
  {
  }

  lemma {:induction false} EditedKept(t: Table, paths: seq<Path>, patch: Patch, tagsMode: TagsMode, noteMode: NoteMode, dryRun: bool)
    requires Stored(t) && Once(paths)
    ensures EditedAll(t, paths, patch, tagsMode, noteMode, dryRun).kept == Before(t, paths)
  {
    if paths != [] {
      OncePrefix(paths);
      EditedKept(t, paths[..|paths| - 1], patch, tagsMode, noteMode, dryRun);
      EditedView(t, paths[..|paths| - 1], paths[|paths| - 1], patch, tagsMode, noteMode, dryRun);
    }
  }

  lemma {:induction false} EditedItems(t: Table, paths: seq<Path>, patch: Patch, tagsMode: TagsMode, noteMode: NoteMode, dryRun: bool)
    requires Stored(t) && Once(paths)
    ensures EditedAll(t, paths, patch, tagsMode, noteMode, dryRun).items == Items(t, paths, patch, tagsMode, noteMode)
  {
    if paths != [] {
      OncePrefix(paths);
      EditedItems(t, paths[..|paths| - 1], patch, tagsMode, noteMode, dryRun);
      EditedView(t, paths[..|paths| - 1], paths[|paths| - 1], patch, tagsMode, noteMode, dryRun);
    }
  }

  class AnnotationStore {
    var table: Table
    var entries: seq<Entry>

    constructor ()
      ensures table == map[] && entries == []
    {
      table, entries := map[], [];
    }

    function State(): Log
      reads this
    {
      Log(table, entries)
    }

    method WriteAnnotation(p: Path, a: Annotation)
      modifies `table
      ensures table == Written(old(table), p, a)
    {
      var ann := Normal(a);
      if ann == EMPTY {
        table := table - {p};
      } else {
        table := table[p := ann];
      }
    }

    method SetAnnotation(p: Path, patch: Patch, merge: bool) returns (new_: Annotation, captionChanged: bool)
      modifies `table
      ensures State() == Apply(old(State()), SetOne(p, patch, merge))
      ensures new_ == Set(old(table), p, patch, merge) && captionChanged == (new_.caption != View(old(table), p).caption)
    {
      var before := View(table, p);
      new_ := Merged(if merge then before else EMPTY, patch, ReplaceTags, ReplaceNote);
      WriteAnnotation(p, new_);
      captionChanged := new_.caption != before.caption;
    }

    method UniquePaths(paths: seq<Path>) returns (u: seq<Path>)
      ensures u == Unique(paths)
    {
      u := [];
      for i := 0 to |paths|
        invariant u == Unique(paths[..i])
      {
        assert paths[..i + 1][..i] == paths[..i] && paths[..i + 1][i] == paths[i];
        if paths[i] != "" && paths[i] !in u {
          u := u + [paths[i]];
        }
      }
      assert paths[..|paths|] == paths;
    }

    /** Edits the paths one after the other and keeps what they read before. */
    method EditAll(u: seq<Path>, patch: Patch, tagsMode: TagsMode, noteMode: NoteMode, dryRun: bool)
      returns (items: seq<(Path, Annotation)>, kept: seq<(Path, Annotation)>)
      modifies `table
      ensures Editing(table, items, kept) == EditedAll(old(table), u, patch, tagsMode, noteMode, dryRun)
    {
      items, kept := [], [];
      ghost var t := table;
      for i := 0 to |u|
        invariant Editing(table, items, kept) == EditedAll(t, u[..i], patch, tagsMode, noteMode, dryRun)
      {
        assert u[..i + 1][..i] == u[..i] && u[..i + 1][i] == u[i];
        var before := View(table, u[i]);
        var merged := Merged(before, patch, tagsMode, noteMode);
        kept := kept + [(u[i], before)];
        items := items + [(u[i], merged)];
        if !dryRun {
          WriteAnnotation(u[i], merged);
        }
      }
      assert u[..|u|] == u;
    }

    /** A dry run answers what a batch would do and changes nothing. */
    method BatchSetAnnotations(paths: seq<Path>, patch: Patch, tagsMode: TagsMode, noteMode: NoteMode, dryRun: bool)
      returns (items: seq<(Path, Annotation)>, auditId: Option<nat>)
      requires Stored(table)
      modifies `table, `entries
      ensures dryRun ==> State() == old(State())
      ensures !dryRun ==> State() == BatchStep(old(State()), paths, patch, tagsMode, noteMode)
      ensures items == Items(old(table), Unique(paths), patch, tagsMode, noteMode)
      ensures auditId == if dryRun || Unique(paths) == [] then None else Some(|old(entries)|)
    {
      items := [];
      var u := UniquePaths(paths);
      UniqueOnce(paths);
      if u == [] {
        return items, None;
      }
      var kept;
      DryRunKeeps(table, u, patch, tagsMode, noteMode);
      EditedItems(table, u, patch, tagsMode, noteMode, dryRun);
      EditedKept(table, u, patch, tagsMode, noteMode, dryRun);
      items, kept := EditAll(u, patch, tagsMode, noteMode, dryRun);
      if dryRun {
        return items, None;
      }
      auditId := Some(|entries|);
      entries := entries + [BatchEntry(true, kept)];
    }

    method RestoreAll(undo: seq<(Path, Annotation)>)
      modifies `table
      ensures table == Restored(old(table), undo)
    {
      ghost var t := table;
      for i := 0 to |undo|
        invariant table == Restored(t, undo[..i])
      {
        assert undo[..i + 1][..i] == undo[..i] && undo[..i + 1][i] == undo[i];
        WriteAnnotation(undo[i].0, Normal(undo[i].1));
      }
      assert undo[..|undo|] == undo;
    }

    method UndoAudit(id: nat) returns (restored: Option<nat>)
      modifies `table, `entries
      ensures State() == UndoStep(old(State()), id)
      ensures restored.Some? <==> CanUndo(old(State()), id)
    {
      if id >= |entries| || !entries[id].BatchEntry? || !entries[id].active {
        return None;
      }
      var undo := entries[id].undo;
      RestoreAll(undo);
      entries := entries[id := entries[id].(active := false)] + [OtherEntry];
      return Some(|undo|);
    }
  }
}
