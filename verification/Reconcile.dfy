/** Bringing the host's auth files in line with the wanted ones. */
module Reconcile {
  import opened Text
  import ManagedFiles

  /** A wanted file, already rendered. */
  datatype Desired = Desired(name: string, json: string)

  /** A line of the host's file list. */
  datatype Entry = Entry(name: string, path: string)

  /** How a save call goes: whether it wrote the file, and whether it reported an error. */
  datatype Save = Save(wrote: bool, failed: bool)

  /** What the host's calls do in one run: the outcome of each save in turn, the paths that cannot be read, and the paths
      that cannot be removed. */
  datatype Calls = Calls(saves: nat -> Save, unreadable: string -> bool, stuck: string -> bool)

  /** The host's conventions: the path under which it stores a name, and the `managed_by` value of a file's content
      when the content is a JSON object. */
  datatype Layout = Layout(place: string -> string, managedBy: string -> Option<string>)

  type Files = map<string, string>

  predicate Marked(l: Layout, content: string) {
    match l.managedBy(content) case None => false case Some(owner) => TrimSpace(owner) == ManagedFiles.MARKER
  }

  predicate IsManagedName(name: string) {
    HasPrefix(TrimSpace(name), ManagedFiles.PREFIX)
  }

  function NamesOf(files: seq<Desired>): set<string> {
    set f | f in files :: f.name
  }

  // ---- What a run does to the files ----

  function SaveAll(l: Layout, calls: Calls, fs: Files, files: seq<Desired>): Files {
    if files == [] then fs
    else
      var n := |files| - 1;
      var before := SaveAll(l, calls, fs, files[..n]);
      if calls.saves(n).wrote then before[l.place(files[n].name) := files[n].json] else before
  }

  /** Only a readable file that carries the marker goes. */
  function RemovePath(l: Layout, calls: Calls, fs: Files, path: string): Files {
    if path != "" && path in fs && !calls.unreadable(path) && Marked(l, fs[path]) && !calls.stuck(path)
    then fs - {path} else fs
  }

  predicate PathFails(l: Layout, calls: Calls, fs: Files, path: string) {
    path != "" && path in fs && (calls.unreadable(path) || (Marked(l, fs[path]) && calls.stuck(path)))
  }

  function RemoveOne(l: Layout, calls: Calls, fs: Files, e: Entry): Files {
    RemovePath(l, calls, fs, TrimSpace(e.path))
  }

  predicate RemoveFails(l: Layout, calls: Calls, fs: Files, e: Entry) {
    PathFails(l, calls, fs, TrimSpace(e.path))
  }

  /** The listed files that have the plugin's prefix and are not wanted. */
  function Unwanted(wanted: set<string>): Entry -> bool {
    (e: Entry) => IsManagedName(e.name) && e.name !in wanted
  }

  function RemoveAll(l: Layout, calls: Calls, stale: Entry -> bool, fs: Files, listing: seq<Entry>): Files {
    if listing == [] then fs
    else
      var n := |listing| - 1;
      var before := RemoveAll(l, calls, stale, fs, listing[..n]);
      if stale(listing[n]) then RemoveOne(l, calls, before, listing[n]) else before
  }

  predicate RemovalsFine(l: Layout, calls: Calls, stale: Entry -> bool, fs: Files, listing: seq<Entry>) {
    if listing == [] then true
    else
      var n := |listing| - 1;
      && RemovalsFine(l, calls, stale, fs, listing[..n])
      && !(stale(listing[n]) && RemoveFails(l, calls, RemoveAll(l, calls, stale, fs, listing[..n]), listing[n]))
  }

  /** A whole run. Without a listing nothing is removed. */
  function Synced(l: Layout, calls: Calls, fs: Files, files: seq<Desired>, listing: Option<seq<Entry>>): Files {
    var saved := SaveAll(l, calls, fs, files);
    match listing case None => saved case Some(entries) => RemoveAll(l, calls, Unwanted(NamesOf(files)), saved, entries)
  }

  class Host {
    const layout: Layout
    var fs: Files

    constructor (layout: Layout, fs: Files)
      ensures this.layout == layout && this.fs == fs
    {
      this.layout, this.fs := layout, fs;
    }

    /** `removeManagedAuthFile`. */
    method Remove(calls: Calls, e: Entry) returns (error: bool)
      modifies this
      ensures fs == RemoveOne(layout, calls, old(fs), e)
      ensures error == RemoveFails(layout, calls, old(fs), e)
    {
      error := RemoveAt(calls, TrimSpace(e.path));
    }

    method RemoveAt(calls: Calls, path: string) returns (error: bool)
      modifies this
      ensures fs == RemovePath(layout, calls, old(fs), path)
      ensures error == PathFails(layout, calls, old(fs), path)
    {
      if path == "" || path !in fs {
        return false;
      }
      if calls.unreadable(path) {
        return true;
      }
      if !Marked(layout, fs[path]) {
        return false;
      }
      if calls.stuck(path) {
        return true;
      }
      fs := fs - {path};
      return false;
    }

    method SaveFiles(calls: Calls, files: seq<Desired>) returns (errors: nat)
      modifies this
      ensures fs == SaveAll(layout, calls, old(fs), files)
      ensures errors == 0 <==> forall k :: 0 <= k < |files| ==> !calls.saves(k).failed
    {
      errors := 0;
      for n := 0 to |files|
        invariant fs == SaveAll(layout, calls, old(fs), files[..n])
        invariant errors == 0 <==> forall k :: 0 <= k < n ==> !calls.saves(k).failed
      {
        assert files[..n + 1][..n] == files[..n];
        var save := calls.saves(n);
        if save.wrote {
          fs := fs[layout.place(files[n].name) := files[n].json];
        }
        if save.failed {
          errors := errors + 1;
        }
      }
      assert files[..|files|] == files;
    }

    method RemoveStale(calls: Calls, stale: Entry -> bool, entries: seq<Entry>) returns (errors: nat)
      modifies this
      ensures fs == RemoveAll(layout, calls, stale, old(fs), entries)
      ensures errors == 0 <==> RemovalsFine(layout, calls, stale, old(fs), entries)
    {
      errors := 0;
      for n := 0 to |entries|
        invariant fs == RemoveAll(layout, calls, stale, old(fs), entries[..n])
        invariant errors == 0 <==> RemovalsFine(layout, calls, stale, old(fs), entries[..n])
      {
        assert entries[..n + 1][..n] == entries[..n];
        if stale(entries[n]) {
          var error := Remove(calls, entries[n]);
          if error {
            errors := errors + 1;
          }
        }
      }
      assert entries[..|entries|] == entries;
    }

    /** `syncManagedSchedulingAuths`; `listing` is what the host listed beforehand, if the list call succeeded. Returns
        the number of errors it collected. */
    method Sync(calls: Calls, files: seq<Desired>, listing: Option<seq<Entry>>) returns (errors: nat)
      modifies this
      ensures fs == Synced(layout, calls, old(fs), files, listing)
      ensures errors == 0 <==>
                && listing.Some? && (forall k :: 0 <= k < |files| ==> !calls.saves(k).failed)
                && RemovalsFine(layout, calls, Unwanted(NamesOf(files)), SaveAll(layout, calls, old(fs), files), listing.value)
    {
      errors := if listing == None then 1 else 0;
      var saveErrors := SaveFiles(calls, files);
      errors := errors + saveErrors;
      if listing.Some? {
        var removeErrors := RemoveStale(calls, Unwanted(NamesOf(files)), listing.value);
        errors := errors + removeErrors;
      }
    }
  }

  // ---- Exactly what a run removes ----

  /** A marked file that nothing protects. */
  predicate Removable(l: Layout, calls: Calls, fs: Files, path: string) {
    path != "" && path in fs && Marked(l, fs[path]) && !calls.unreadable(path) && !calls.stuck(path)
  }

  /** The host lists the path under a stale name. */
  ghost predicate Reported(stale: Entry -> bool, listing: seq<Entry>, path: string) {
    exists e :: e in listing && stale(e) && TrimSpace(e.path) == path
  }

  lemma RemoveOneExactly(l: Layout, calls: Calls, fs: Files, e: Entry, path: string)
    ensures var after := RemoveOne(l, calls, fs, e);
            && (path in after <==> path in fs && !(TrimSpace(e.path) == path && Removable(l, calls, fs, path)))
            && (path in after ==> after[path] == fs[path])
  {
  }

  lemma RemoveAllStep(l: Layout, calls: Calls, stale: Entry -> bool, fs: Files, front: seq<Entry>, last: Entry)
    ensures RemoveAll(l, calls, stale, fs, front + [last]) ==
            var before := RemoveAll(l, calls, stale, fs, front);
            if stale(last) then RemoveOne(l, calls, before, last) else before
  {
    assert (front + [last])[..|front|] == front;
  }

  lemma ReportedStep(stale: Entry -> bool, front: seq<Entry>, last: Entry, path: string)
    ensures Reported(stale, front + [last], path) <==>
            Reported(stale, front, path) || (stale(last) && TrimSpace(last.path) == path)
  {
    assert forall e :: e in front + [last] <==> e in front || e == last;
  }

  /** Whatever the listing and the failures: a file goes if and only if it is marked, reported under a stale name, and
      can be read and removed; all others stay as they are. */
  lemma {:induction false} RemovedExactly(
      l: Layout, calls: Calls, stale: Entry -> bool, fs: Files, listing: seq<Entry>, path: string)
    ensures var after := RemoveAll(l, calls, stale, fs, listing);
            && (path in after <==> path in fs && !(Removable(l, calls, fs, path) && Reported(stale, listing, path)))
            && (path in after ==> after[path] == fs[path])
  {
    if listing != [] {
      var front, last := listing[..|listing| - 1], listing[|listing| - 1];
      Snoc(listing);
      RemovedExactly(l, calls, stale, fs, front, path);
      RemoveAllStep(l, calls, stale, fs, front, last);
      ReportedStep(stale, front, last, path);
      RemoveOneExactly(l, calls, RemoveAll(l, calls, stale, fs, front), last, path);
    }
  }

  // ---- Safety under any failures ----

  ghost predicate IsWantedPlace(l: Layout, files: seq<Desired>, path: string) {
    exists f :: f in files && l.place(f.name) == path
  }

  lemma {:induction false} SavesStayInPlace(l: Layout, calls: Calls, fs: Files, files: seq<Desired>, path: string)
    requires !IsWantedPlace(l, files, path)
    ensures var after := SaveAll(l, calls, fs, files);
            (path in after <==> path in fs) && (path in fs ==> after[path] == fs[path])
  {
    if files != [] {
      var n := |files| - 1;
      assert !IsWantedPlace(l, files[..n], path) by {
        assert forall f :: f in files[..n] ==> f in files;
      }
      SavesStayInPlace(l, calls, fs, files[..n], path);
      assert files[n] in files;
    }
  }

  /** Main result: whatever fails, a run neither changes nor removes an unmarked file outside the wanted places, and it
      creates no file outside them. */
  lemma UnmarkedFilesAreSafe(
      l: Layout, calls: Calls, fs: Files, files: seq<Desired>, listing: Option<seq<Entry>>, path: string)
    requires !IsWantedPlace(l, files, path)
    ensures var after := Synced(l, calls, fs, files, listing);
            && (path in fs && !Marked(l, fs[path]) ==> path in after && after[path] == fs[path])
            && (path in after ==> path in fs && after[path] == fs[path])
  {
    SavesStayInPlace(l, calls, fs, files, path);
    if listing.Some? {
      RemovedExactly(l, calls, Unwanted(NamesOf(files)), SaveAll(l, calls, fs, files), listing.value, path);
    }
  }

  // ---- Convergence ----

  predicate NoFailures(calls: Calls, n: nat, fs: set<string>) {
    && (forall k :: 0 <= k < n ==> calls.saves(k) == Save(true, false))
    && (forall path :: path in fs ==> !calls.unreadable(path) && !calls.stuck(path))
  }

  /** The host stores different names in different places. */
  ghost predicate Sane(l: Layout) {
    && (forall a, b :: l.place(a) == l.place(b) ==> a == b)
    && (forall a :: l.place(a) != "")
  }

  /** What `ManagedAuthFiles` makes: distinct managed names and marked contents. */
  ghost predicate Managed(l: Layout, files: seq<Desired>) {
    && (forall i, j :: 0 <= i < j < |files| ==> files[i].name != files[j].name)
    && (forall f :: f in files ==> IsManagedName(f.name) && Marked(l, f.json))
  }

  lemma {:induction false} SavesWrite(l: Layout, calls: Calls, fs: Files, files: seq<Desired>, k: nat)
    requires Sane(l) && k < |files| && (forall i :: 0 <= i < |files| ==> calls.saves(i).wrote)
    requires forall i, j :: 0 <= i < j < |files| ==> files[i].name != files[j].name
    ensures var after := SaveAll(l, calls, fs, files);
            l.place(files[k].name) in after && after[l.place(files[k].name)] == files[k].json
  {
    var n := |files| - 1;
    if k < n {
      SavesWrite(l, calls, fs, files[..n], k);
    }
  }

  /** The wanted files are stored with their contents. */
  ghost predicate Stored(l: Layout, files: seq<Desired>, fs: Files) {
    forall f :: f in files ==> l.place(f.name) in fs && fs[l.place(f.name)] == f.json
  }

  /** A file of the plugin that is not wanted any more is stored under this name. */
  ghost predicate Leftover(l: Layout, files: seq<Desired>, fs: Files, name: string) {
    IsManagedName(name) && name !in NamesOf(files) && l.place(name) in fs && Marked(l, fs[l.place(name)])
  }

  lemma SavesStore(l: Layout, calls: Calls, fs: Files, files: seq<Desired>)
    requires Sane(l) && Managed(l, files) && (forall i :: 0 <= i < |files| ==> calls.saves(i).wrote)
    ensures Stored(l, files, SaveAll(l, calls, fs, files))
  {
    forall f | f in files
      ensures l.place(f.name) in SaveAll(l, calls, fs, files) && SaveAll(l, calls, fs, files)[l.place(f.name)] == f.json
    {
      var k :| 0 <= k < |files| && files[k] == f;
      SavesWrite(l, calls, fs, files, k);
    }
  }

  lemma UnwantedPlace(l: Layout, files: seq<Desired>, name: string)
    requires Sane(l) && name !in NamesOf(files)
    ensures !IsWantedPlace(l, files, l.place(name))
  {
    assert forall f :: f in files ==> f.name in NamesOf(files);
  }

  /** Without failures a leftover stays if and only if the host does not report its place under a stale name. */
  lemma LeftoverStaysIff(l: Layout, calls: Calls, fs: Files, files: seq<Desired>, listing: seq<Entry>, name: string)
    requires Sane(l) && NoFailures(calls, |files|, SaveAll(l, calls, fs, files).Keys)
    requires IsManagedName(name) && name !in NamesOf(files)
    ensures var after := Synced(l, calls, fs, files, Some(listing));
            Leftover(l, files, after, name) <==>
            Leftover(l, files, fs, name) && !Reported(Unwanted(NamesOf(files)), listing, l.place(name))
  {
    var saved, path := SaveAll(l, calls, fs, files), l.place(name);
    UnwantedPlace(l, files, name);
    SavesStayInPlace(l, calls, fs, files, path);
    RemovedExactly(l, calls, Unwanted(NamesOf(files)), saved, listing, path);
  }

  /** Without failures a wanted file is stored with its content if and only if its place is not reported under a stale
      name. */
  lemma WantedStoredIff(l: Layout, calls: Calls, fs: Files, files: seq<Desired>, listing: seq<Entry>, f: Desired)
    requires Sane(l) && Managed(l, files) && f in files
    requires NoFailures(calls, |files|, SaveAll(l, calls, fs, files).Keys)
    ensures var after := Synced(l, calls, fs, files, Some(listing));
            l.place(f.name) in after && after[l.place(f.name)] == f.json <==>
            !Reported(Unwanted(NamesOf(files)), listing, l.place(f.name))
  {
    SavesStore(l, calls, fs, files);
    RemovedExactly(l, calls, Unwanted(NamesOf(files)), SaveAll(l, calls, fs, files), listing, l.place(f.name));
  }

  /** The files are what they should be: every wanted file is stored, and nothing is left over. */
  ghost predicate Converged(l: Layout, files: seq<Desired>, fs: Files) {
    Stored(l, files, fs) && forall name :: !Leftover(l, files, fs, name)
  }

  lemma StoredIff(l: Layout, calls: Calls, fs: Files, files: seq<Desired>, listing: seq<Entry>)
    requires Sane(l) && Managed(l, files)
    requires NoFailures(calls, |files|, SaveAll(l, calls, fs, files).Keys)
    ensures Stored(l, files, Synced(l, calls, fs, files, Some(listing))) <==>
            forall f :: f in files ==> !Reported(Unwanted(NamesOf(files)), listing, l.place(f.name))
  {
    var after := Synced(l, calls, fs, files, Some(listing));
    forall f | f in files
      ensures l.place(f.name) in after && after[l.place(f.name)] == f.json <==>
              !Reported(Unwanted(NamesOf(files)), listing, l.place(f.name))
    {
      WantedStoredIff(l, calls, fs, files, listing, f);
    }
  }

  lemma NothingLeftIff(l: Layout, calls: Calls, fs: Files, files: seq<Desired>, listing: seq<Entry>)
    requires Sane(l) && NoFailures(calls, |files|, SaveAll(l, calls, fs, files).Keys)
    ensures (forall name :: !Leftover(l, files, Synced(l, calls, fs, files, Some(listing)), name)) <==>
            forall name :: Leftover(l, files, fs, name) ==> Reported(Unwanted(NamesOf(files)), listing, l.place(name))
  {
    var after := Synced(l, calls, fs, files, Some(listing));
    forall name
      ensures Leftover(l, files, after, name) <==>
              Leftover(l, files, fs, name) && !Reported(Unwanted(NamesOf(files)), listing, l.place(name))
    {
      if IsManagedName(name) && name !in NamesOf(files) {
        LeftoverStaysIff(l, calls, fs, files, listing, name);
      }
    }
  }

  /** Main result, for every listing: a run in which no call fails brings the files in order if and only if the host
      reports under stale names the place of every leftover and of no wanted file. */
  lemma SyncConvergesIff(l: Layout, calls: Calls, fs: Files, files: seq<Desired>, listing: seq<Entry>)
    requires Sane(l) && Managed(l, files)
    requires NoFailures(calls, |files|, SaveAll(l, calls, fs, files).Keys)
    ensures var stale := Unwanted(NamesOf(files));
            Converged(l, files, Synced(l, calls, fs, files, Some(listing))) <==>
            && (forall f :: f in files ==> !Reported(stale, listing, l.place(f.name)))
            && (forall name :: Leftover(l, files, fs, name) ==> Reported(stale, listing, l.place(name)))
  {
    StoredIff(l, calls, fs, files, listing);
    NothingLeftIff(l, calls, fs, files, listing);
  }

  /** A truthful listing: it names every managed file that is stored, and gives the place of a name or, for a name that
      the host does not show a path for, none. */
  ghost predicate Lists(l: Layout, shown: string -> bool, fs: Files, listing: seq<Entry>) {
    && (forall e :: e in listing ==> TrimSpace(e.path) == if shown(e.name) then l.place(e.name) else "")
    && (forall name :: IsManagedName(name) && shown(name) && l.place(name) in fs ==>
          exists e :: e in listing && e.name == name)
  }

  lemma ReportedIffShown(
      l: Layout, shown: string -> bool, fs: Files, files: seq<Desired>, listing: seq<Entry>, name: string)
    requires Sane(l) && Lists(l, shown, fs, listing)
    ensures name in NamesOf(files) ==> !Reported(Unwanted(NamesOf(files)), listing, l.place(name))
    ensures Leftover(l, files, fs, name) ==> (Reported(Unwanted(NamesOf(files)), listing, l.place(name)) <==> shown(name))
  {
  }

  /** Files are not simply removed when their key disappears. With a truthful listing and no failures, a leftover stays if
      and only if the host shows no path for it. */
  lemma UnshownFileStays(
      l: Layout, shown: string -> bool, calls: Calls, fs: Files, files: seq<Desired>, listing: seq<Entry>, name: string)
    requires Sane(l) && Lists(l, shown, fs, listing)
    requires NoFailures(calls, |files|, SaveAll(l, calls, fs, files).Keys)
    requires Leftover(l, files, fs, name)
    ensures l.place(name) in Synced(l, calls, fs, files, Some(listing)) <==> !shown(name)
  {
    LeftoverStaysIff(l, calls, fs, files, listing, name);
    ReportedIffShown(l, shown, fs, files, listing, name);
    UnwantedPlace(l, files, name);
    SavesStayInPlace(l, calls, fs, files, l.place(name));
    RemovedExactly(l, calls, Unwanted(NamesOf(files)), SaveAll(l, calls, fs, files), listing, l.place(name));
  }

  /** With a truthful listing a run without failures brings the files in order if and only if the host shows the path of
      every leftover. */
  lemma TruthfulSyncConvergesIff(
      l: Layout, shown: string -> bool, calls: Calls, fs: Files, files: seq<Desired>, listing: seq<Entry>)
    requires Sane(l) && Managed(l, files) && Lists(l, shown, fs, listing)
    requires NoFailures(calls, |files|, SaveAll(l, calls, fs, files).Keys)
    ensures Converged(l, files, Synced(l, calls, fs, files, Some(listing))) <==>
            forall name :: Leftover(l, files, fs, name) ==> shown(name)
  {
    SyncConvergesIff(l, calls, fs, files, listing);
    forall name
      ensures name in NamesOf(files) ==> !Reported(Unwanted(NamesOf(files)), listing, l.place(name))
      ensures Leftover(l, files, fs, name) ==> (Reported(Unwanted(NamesOf(files)), listing, l.place(name)) <==> shown(name))
    {
      ReportedIffShown(l, shown, fs, files, listing, name);
    }
    assert forall f :: f in files ==> f.name in NamesOf(files);
  }

  lemma {:induction false} SavesRepeat(l: Layout, calls: Calls, fs: Files, files: seq<Desired>)
    requires Stored(l, files, fs)
    ensures SaveAll(l, calls, fs, files) == fs
  {
    if files != [] {
      var n := |files| - 1;
      assert forall f :: f in files[..n] ==> f in files;
      SavesRepeat(l, calls, fs, files[..n]);
      assert files[n] in files;
    }
  }

  /** Once the wanted files are stored, a further run, whatever it lists and whatever fails in it, changes nothing if and
      only if it reports no removable file under a stale name. */
  lemma RepeatChangesNothingIff(l: Layout, calls: Calls, fs: Files, files: seq<Desired>, listing: seq<Entry>)
    requires Stored(l, files, fs)
    ensures Synced(l, calls, fs, files, Some(listing)) == fs <==>
            forall path :: path in fs && Removable(l, calls, fs, path) ==>
              !Reported(Unwanted(NamesOf(files)), listing, path)
  {
    SavesRepeat(l, calls, fs, files);
    var after := Synced(l, calls, fs, files, Some(listing));
    forall path
      ensures path in after <==>
              path in fs && !(Removable(l, calls, fs, path) && Reported(Unwanted(NamesOf(files)), listing, path))
      ensures path in after ==> after[path] == fs[path]
    {
      RemovedExactly(l, calls, Unwanted(NamesOf(files)), fs, listing, path);
    }
  }

  ghost predicate WithoutPaths(listing: seq<Entry>) {
    forall e :: e in listing ==> TrimSpace(e.path) == ""
  }

  /** A host that lists no paths keeps everything. */
  lemma NoPathsNoRemovals(l: Layout, calls: Calls, fs: Files, files: seq<Desired>, listing: seq<Entry>)
    requires Stored(l, files, fs) && WithoutPaths(listing)
    ensures Synced(l, calls, fs, files, Some(listing)) == fs
  {
    RepeatChangesNothingIff(l, calls, fs, files, listing);
  }

  /** So a file can outlive its key: with all keys gone, and whatever the calls do, a file listed without a path stays. */
  lemma KeyGoneFileStays(l: Layout, calls: Calls, entry: Entry, content: string, fs: Files)
    requires IsManagedName(entry.name) && Marked(l, content) && WithoutPaths([entry])
    requires fs == map[l.place(entry.name) := content]
    ensures Leftover(l, [], fs, entry.name) && Synced(l, calls, fs, [], Some([entry])) == fs
  {
    NoPathsNoRemovals(l, calls, fs, [], [entry]);
  }

  /** Main result: with truthful listings a further run changes nothing, even when calls fail in it. */
  lemma SyncIsIdempotent(
      l: Layout, shown: string -> bool, calls: Calls, fs: Files, files: seq<Desired>, listing: seq<Entry>,
      calls': Calls, listing': seq<Entry>)
    requires Sane(l) && Managed(l, files) && Lists(l, shown, fs, listing)
    requires NoFailures(calls, |files|, SaveAll(l, calls, fs, files).Keys)
    requires Lists(l, shown, Synced(l, calls, fs, files, Some(listing)), listing')
    ensures var after := Synced(l, calls, fs, files, Some(listing));
            Synced(l, calls', after, files, Some(listing')) == after
  {
    var after, stale := Synced(l, calls, fs, files, Some(listing)), Unwanted(NamesOf(files));
    forall f | f in files
      ensures l.place(f.name) in after && after[l.place(f.name)] == f.json
    {
      WantedStoredIff(l, calls, fs, files, listing, f);
      assert f.name in NamesOf(files);
      ReportedIffShown(l, shown, fs, files, listing, f.name);
    }
    forall path | path in after && Removable(l, calls', after, path)
      ensures !Reported(stale, listing', path)
    {
      if e :| e in listing' && stale(e) && TrimSpace(e.path) == path {
        LeftoverStaysIff(l, calls, fs, files, listing, e.name);
        ReportedIffShown(l, shown, fs, files, listing, e.name);
      }
    }
    RepeatChangesNothingIff(l, calls', after, files, listing');
  }

  // ---- The plugin's own files ----

  function Render(marshal: ManagedFiles.Document -> string, files: seq<ManagedFiles.File>): seq<Desired> {
    seq(|files|, i requires 0 <= i < |files| => Desired(files[i].name, marshal(files[i].doc)))
  }

  lemma PrefixedNameIsManaged(middle: string)
    ensures IsManagedName(ManagedFiles.PREFIX + middle + ManagedFiles.SUFFIX)
  {
    SolidText(ManagedFiles.PREFIX + middle + ManagedFiles.SUFFIX);
  }

  lemma RequestIsManaged(c: ManagedFiles.Config, members: seq<ManagedFiles.Member>, i: nat)
    requires i < |members| && ManagedFiles.Requests(c, members)[i].Some?
    ensures var f := ManagedFiles.Requests(c, members)[i].value;
            IsManagedName(f.name) && f.doc.managedBy == ManagedFiles.MARKER
  {
    ManagedFiles.RequestAt(c, members, i);
    PrefixedNameIsManaged(c.hash(ManagedFiles.Signature(c, members[i])));
  }

  lemma MarkerIsMarked(l: Layout, content: string)
    requires l.managedBy(content) == Some(ManagedFiles.MARKER)
    ensures Marked(l, content)
  {
    SolidText(ManagedFiles.MARKER);
  }

  lemma RequestOf(requests: seq<Option<ManagedFiles.File>>, file: ManagedFiles.File) returns (k: nat)
    requires ManagedFiles.Wanted(requests, file)
    ensures k < |requests| && requests[k] == Some(file)
  {
    assert ManagedFiles.WantedBy(requests, |requests|, file);
    k :| k < |requests| && ManagedFiles.FirstOfItsName(requests, k) && requests[k].value == file;
  }

  /** The files that the plugin synthesizes meet what the reconcile results ask of the wanted files, provided that the
      marker survives rendering. */
  lemma PluginFilesAreManaged(
      l: Layout, marshal: ManagedFiles.Document -> string, c: ManagedFiles.Config, members: seq<ManagedFiles.Member>,
      files: seq<ManagedFiles.File>)
    requires forall d :: l.managedBy(marshal(d)) == Some(d.managedBy)
    requires ManagedFiles.Ascending(files)
    requires forall f :: f in files ==> ManagedFiles.Wanted(ManagedFiles.Requests(c, members), f)
    ensures Managed(l, Render(marshal, files))
  {
    var rendered := Render(marshal, files);
    forall i, j | 0 <= i < j < |files|
      ensures rendered[i].name != rendered[j].name
    {
      ManagedFiles.BeforeTotal(files[i].name, files[j].name);
    }
    forall i | 0 <= i < |files|
      ensures IsManagedName(rendered[i].name) && Marked(l, rendered[i].json)
    {
      var k := RequestOf(ManagedFiles.Requests(c, members), files[i]);
      RequestIsManaged(c, members, k);
      MarkerIsMarked(l, rendered[i].json);
    }
  }
}
