/** The auth files that the plugin wants the host to have: one per configured key and proxy. */
module ManagedFiles {
  import opened Text
  import Lexicographic
  import Pool

  const PREFIX := "commandcode-managed-"
  const MARKER := "commandcode-go-cpa-plugin"
  const SUFFIX := ".json"

  datatype Member = Member(key: string, weight: int, priority: int, proxyURL: string, disableCooling: Option<bool>)

  datatype Document = Document(
    typ: string, authKind: string, apiKey: string, priority: int, weight: nat, proxyURL: string,
    disableCooling: Option<bool>, managedBy: string, note: string)

  datatype File = File(name: string, doc: Document)

  /** The plugin settings the files depend on, and the hash that names them. */
  datatype Config = Config(
    sharedScheduling: bool, baseURL: string, priority: int, disableCooling: Option<bool>, hash: string -> string)

  function Signature(c: Config, m: Member): string {
    c.baseURL + "\0" + TrimSpace(m.key) + "\0" + TrimSpace(m.proxyURL)
  }

  function FileName(c: Config, m: Member): string {
    PREFIX + c.hash(Signature(c, m)) + SUFFIX
  }

  function DocumentFor(c: Config, m: Member): Document {
    Document(
      "commandcode", "apikey", TrimSpace(m.key), if m.priority == 0 then c.priority else m.priority,
      Pool.NormalizedWeight(m.weight), TrimSpace(m.proxyURL),
      if m.disableCooling.Some? then m.disableCooling else c.disableCooling,
      MARKER, "Managed from plugins.configs.commandcode")
  }

  function FileFor(c: Config, m: Member): File {
    File(FileName(c, m), DocumentFor(c, m))
  }

  /** Byte-wise string order, as Go compares strings. */
  predicate Before(a: string, b: string) {
    Lexicographic.Precedes(CharRank(), a, b)
  }

  function CharRank(): char -> int {
    (c: char) => c as int
  }

  ghost predicate Ascending(files: seq<File>) {
    forall i, j :: 0 <= i < j < |files| ==> Before(files[i].name, files[j].name)
  }

  /** The file that a member asks for; none without a usable key. */
  function Request(c: Config, m: Member): Option<File> {
    if Blank(m.key) then None else Some(FileFor(c, m))
  }

  function Requests(c: Config, members: seq<Member>): seq<Option<File>> {
    seq(|members|, i requires 0 <= i < |members| => Request(c, members[i]))
  }

  /** One of the first `n` requests asks for this name. */
  ghost predicate NameTaken(requests: seq<Option<File>>, n: nat, name: string)
    requires n <= |requests|
  {
    exists j :: 0 <= j < n && requests[j].Some? && requests[j].value.name == name
  }

  /** Request `i` asks for a file, and no earlier one asks for the same name. */
  ghost predicate FirstOfItsName(requests: seq<Option<File>>, i: nat) {
    i < |requests| && requests[i].Some? && !NameTaken(requests, i, requests[i].value.name)
  }

  ghost predicate WantedBy(requests: seq<Option<File>>, n: nat, f: File) {
    exists i: nat :: i < n && FirstOfItsName(requests, i) && requests[i].value == f
  }

  /** The wanted files: for each name, what the first request for it asks for. */
  ghost predicate Wanted(requests: seq<Option<File>>, f: File) {
    WantedBy(requests, |requests|, f)
  }

  /** The names asked for by the first `n` requests. */
  function NamesOf(requests: seq<Option<File>>, n: nat): set<string>
    requires n <= |requests|
  {
    if n == 0 then {}
    else NamesOf(requests, n - 1) + if requests[n - 1] == None then {} else {requests[n - 1].value.name}
  }

  /** The files made for the first `n` requests. */
  function FilesOf(requests: seq<Option<File>>, n: nat): set<File>
    requires n <= |requests|
  {
    if n == 0 then {}
    else
      FilesOf(requests, n - 1) +
      if requests[n - 1] == None || requests[n - 1].value.name in NamesOf(requests, n - 1) then {}
      else {requests[n - 1].value}
  }

  lemma {:induction false} NamesOfMeans(requests: seq<Option<File>>, n: nat, name: string)
    requires n <= |requests|
    ensures name in NamesOf(requests, n) <==> NameTaken(requests, n, name)
  {
    if n > 0 {
      NamesOfMeans(requests, n - 1, name);
      assert NameTaken(requests, n, name) <==>
             NameTaken(requests, n - 1, name) || (requests[n - 1].Some? && requests[n - 1].value.name == name);
    }
  }

  lemma WantedByStep(requests: seq<Option<File>>, n: nat, f: File)
    ensures WantedBy(requests, n + 1, f) <==>
            WantedBy(requests, n, f) || (FirstOfItsName(requests, n) && requests[n].value == f)
  {
  }

  lemma FilesOfStep(requests: seq<Option<File>>, n: nat, f: File)
    requires n < |requests|
    ensures f in FilesOf(requests, n + 1) <==>
            f in FilesOf(requests, n) || (requests[n] == Some(f) && f.name !in NamesOf(requests, n))
  {
  }

  lemma FirstIffNotTaken(requests: seq<Option<File>>, n: nat, f: File)
    requires n < |requests|
    ensures FirstOfItsName(requests, n) && requests[n].value == f <==>
            requests[n] == Some(f) && f.name !in NamesOf(requests, n)
  {
    NamesOfMeans(requests, n, f.name);
  }

  lemma FilesWantedStep(requests: seq<Option<File>>, n: nat, f: File)
    requires n < |requests|
    requires f in FilesOf(requests, n) <==> WantedBy(requests, n, f)
    ensures f in FilesOf(requests, n + 1) <==> WantedBy(requests, n + 1, f)
  {
    FilesOfStep(requests, n, f);
    WantedByStep(requests, n, f);
    FirstIffNotTaken(requests, n, f);
  }

  lemma {:induction false} FilesOfMeans(requests: seq<Option<File>>, n: nat, f: File)
    requires n <= |requests|
    ensures f in FilesOf(requests, n) <==> WantedBy(requests, n, f)
  {
    if n == 0 {
      assert FilesOf(requests, n) == {};
    } else {
      var m := n - 1;
      FilesOfMeans(requests, m, f);
      FilesWantedStep(requests, m, f);
      assert m + 1 == n;
    }
  }

  /** The two agree before position k, where `a` ends or is lower. */
  predicate LowerAt(a: string, b: string, k: nat) {
    k <= |a| && k < |b| && a[..k] == b[..k] && (k == |a| || a[k] < b[k])
  }

  /** The order of Go's strings: the first difference decides, and a proper prefix comes first. */
  lemma BeforeMeans(a: string, b: string)
    ensures Before(a, b) <==> exists k :: LowerAt(a, b, k)
  {
    Lexicographic.PrecedesMeans(CharRank(), a, b);
    forall k: nat
      ensures Lexicographic.DecidedAt(CharRank(), a, b, k) <==> LowerAt(a, b, k)
    {
    }
  }

  lemma BeforeTotal(a: string, b: string)
    ensures (if Before(a, b) then 1 else 0) + (if Before(b, a) then 1 else 0) + (if a == b then 1 else 0) == 1
  {
    Lexicographic.Total(CharRank(), a, b);
  }

  /** The position at which a new name goes. */
  method PlaceFor(sorted: seq<File>, name: string) returns (at: nat)
    requires Ascending(sorted) && forall g :: g in sorted ==> g.name != name
    ensures at <= |sorted|
    ensures forall k :: 0 <= k < at ==> Before(sorted[k].name, name)
    ensures forall k :: at <= k < |sorted| ==> Before(name, sorted[k].name)
  {
    at := 0;
    while at < |sorted| && Before(sorted[at].name, name)
      invariant at <= |sorted|
      invariant forall k :: 0 <= k < at ==> Before(sorted[k].name, name)
    {
      at := at + 1;
    }
    forall k | at <= k < |sorted|
      ensures Before(name, sorted[k].name)
    {
      assert sorted[at] in sorted;
      BeforeTotal(sorted[at].name, name);
      Lexicographic.Transitive(CharRank(), name, sorted[at].name, sorted[k].name);
    }
  }

  lemma Inserted(sorted: seq<File>, at: nat, f: File)
    requires at <= |sorted| && Ascending(sorted)
    requires forall k :: 0 <= k < at ==> Before(sorted[k].name, f.name)
    requires forall k :: at <= k < |sorted| ==> Before(f.name, sorted[k].name)
    ensures Ascending(sorted[..at] + [f] + sorted[at..])
    ensures forall g :: g in sorted[..at] + [f] + sorted[at..] <==> g in sorted || g == f
  {
    assert sorted == sorted[..at] + sorted[at..];
  }

  /** `sort.Slice` by name, on files with pairwise distinct names. */
  method SortByName(files: seq<File>) returns (sorted: seq<File>)
    requires forall i, j :: 0 <= i < j < |files| ==> files[i].name != files[j].name
    ensures Ascending(sorted)
    ensures forall f :: f in sorted <==> f in files
  {
    sorted := [];
    for n := 0 to |files|
      invariant Ascending(sorted)
      invariant forall f :: f in sorted <==> f in files[..n]
    {
      var at := PlaceFor(sorted, files[n].name);
      Inserted(sorted, at, files[n]);
      sorted := sorted[..at] + [files[n]] + sorted[at..];
      assert files[..n + 1] == files[..n] + [files[n]];
    }
    assert files[..|files|] == files;
  }

  /** What the loop has gathered from the first `n` requests. */
  ghost predicate Gathered(requests: seq<Option<File>>, n: nat, seen: set<string>, files: seq<File>) {
    && n <= |requests| && seen == NamesOf(requests, n)
    && (forall f :: f in files <==> f in FilesOf(requests, n))
    && (forall i, j :: 0 <= i < j < |files| ==> files[i].name != files[j].name)
    && (forall f :: f in files ==> f.name in seen)
  }

  function Add(seen: set<string>, files: seq<File>, request: Option<File>): (set<string>, seq<File>) {
    match request
    case None => (seen, files)
    case Some(f) => if f.name in seen then (seen, files) else (seen + {f.name}, files + [f])
  }

  lemma GatheredStep(requests: seq<Option<File>>, n: nat, seen: set<string>, files: seq<File>)
    requires n < |requests| && Gathered(requests, n, seen, files)
    ensures var (seen', files') := Add(seen, files, requests[n]);
            Gathered(requests, n + 1, seen', files')
  {
    if requests[n].Some? {
      var f := requests[n].value;
      assert f.name in seen ==> seen + {f.name} == seen;
      assert forall g :: g in files + [f] <==> g in files || g == f;
    }
  }

  lemma GatheredAll(requests: seq<Option<File>>, seen: set<string>, files: seq<File>)
    requires Gathered(requests, |requests|, seen, files)
    ensures forall f :: f in files <==> Wanted(requests, f)
  {
    forall f
      ensures f in files <==> Wanted(requests, f)
    {
      FilesOfMeans(requests, |requests|, f);
    }
  }

  lemma RequestAt(c: Config, members: seq<Member>, n: nat)
    requires n < |members|
    ensures Requests(c, members)[n] ==
            if Blank(members[n].key) then None else Some(File(FileName(c, members[n]), DocumentFor(c, members[n])))
  {
  }

  /** `ManagedAuthFiles`: in ascending order of name exactly the wanted files; none when scheduling is not shared. */
  method ManagedAuthFiles(c: Config, members: seq<Member>) returns (files: seq<File>)
    ensures Ascending(files)
    ensures c.sharedScheduling ==> forall f :: f in files <==> Wanted(Requests(c, members), f)
    ensures !c.sharedScheduling ==> files == []
  {
    files := [];
    if !c.sharedScheduling {
      return;
    }
    ghost var requests := Requests(c, members);
    var seen := {};
    for n := 0 to |members|
      invariant Gathered(requests, n, seen, files)
    {
      GatheredStep(requests, n, seen, files);
      seen, files := AddMember(c, members[n], seen, files);
    }
    GatheredAll(requests, seen, files);
    files := SortByName(files);
  }

  /** One round of the loop: the member's file, unless it has none or its name is taken. */
  method AddMember(c: Config, member: Member, seen: set<string>, files: seq<File>)
    returns (seen': set<string>, files': seq<File>)
    ensures (seen', files') == Add(seen, files, Request(c, member))
  {
    seen', files' := seen, files;
    var key := TrimSpace(member.key);
    if key == "" {
      return;
    }
    var name := PREFIX + c.hash(c.baseURL + "\0" + key + "\0" + TrimSpace(member.proxyURL)) + SUFFIX;
    if name in seen {
      return;
    }
    seen' := seen + {name};
    var doc := MakeDocument(c, member, key);
    files' := files + [File(name, doc)];
  }

  method MakeDocument(c: Config, member: Member, key: string) returns (doc: Document)
    requires key == TrimSpace(member.key)
    ensures doc == DocumentFor(c, member)
  {
    var priority := member.priority;
    if priority == 0 {
      priority := c.priority;
    }
    var disableCooling := member.disableCooling;
    if disableCooling == None {
      disableCooling := c.disableCooling;
    }
    doc := Document(
      "commandcode", "apikey", key, priority, Pool.NormalizedWeight(member.weight), TrimSpace(member.proxyURL),
      disableCooling, MARKER, "Managed from plugins.configs.commandcode");
  }

  /** What a member's file holds: its key and its proxy, each without the white space around it, its own priority and
      cooling or else the plugin's, its weight or else one, and the plugin's mark. */
  lemma FileHoldsMember(c: Config, m: Member, f: File)
    requires Request(c, m) == Some(f)
    ensures (exists i, j :: TrimmedAt(m.key, i, j, f.doc.apiKey)) && f.doc.apiKey != ""
    ensures exists i, j :: TrimmedAt(m.proxyURL, i, j, f.doc.proxyURL)
    ensures f.name == "commandcode-managed-" + c.hash(c.baseURL + "\0" + f.doc.apiKey + "\0" + f.doc.proxyURL) + ".json"
    ensures if m.priority != 0 then f.doc.priority == m.priority else f.doc.priority == c.priority
    ensures if m.weight > 0 then f.doc.weight == m.weight else f.doc.weight == 1
    ensures if m.disableCooling != None then f.doc.disableCooling == m.disableCooling else f.doc.disableCooling == c.disableCooling
    ensures f.doc.managedBy == "commandcode-go-cpa-plugin"
  {
    TrimSpaceMeans(m.key, f.doc.apiKey);
    TrimSpaceMeans(m.proxyURL, f.doc.proxyURL);
  }

  /** With unambiguous names, each configured key and proxy has exactly one file: the one of the first member to have
      them. */
  lemma OneFilePerKeyAndProxy(c: Config, members: seq<Member>, i: nat)
    requires forall a, b :: c.hash(a) == c.hash(b) ==> a == b
    requires forall m :: m in members ==> '\0' !in m.key && '\0' !in m.proxyURL
    requires i < |members| && !Blank(members[i].key)
    ensures FirstOfItsName(Requests(c, members), i) <==>
            forall j :: 0 <= j < i && !Blank(members[j].key) ==>
              (TrimSpace(members[j].key), TrimSpace(members[j].proxyURL)) !=
              (TrimSpace(members[i].key), TrimSpace(members[i].proxyURL))
  {
    forall j | 0 <= j < i && !Blank(members[j].key)
      ensures FileName(c, members[j]) == FileName(c, members[i]) <==>
              (TrimSpace(members[j].key), TrimSpace(members[j].proxyURL)) ==
              (TrimSpace(members[i].key), TrimSpace(members[i].proxyURL))
    {
      NamesTellApart(c, members[j], members[i]);
    }
    FirstByNames(c, members, i);
  }

  lemma FirstByNames(c: Config, members: seq<Member>, i: nat)
    requires i < |members| && !Blank(members[i].key)
    ensures FirstOfItsName(Requests(c, members), i) <==>
            forall j :: 0 <= j < i && !Blank(members[j].key) ==> FileName(c, members[j]) != FileName(c, members[i])
  {
    var requests := Requests(c, members);
    forall j | 0 <= j <= i
      ensures requests[j].Some? <==> !Blank(members[j].key)
      ensures requests[j].Some? ==> requests[j].value.name == FileName(c, members[j])
    {
      RequestAt(c, members, j);
    }
  }

  lemma TrimKeepsNulFree(s: string)
    requires '\0' !in s
    ensures '\0' !in TrimSpace(s)
  {
    TrimSpaceAt(s);
    var i, j :| TrimmedAt(s, i, j, TrimSpace(s));
    PieceKeepsNulFree(s, i, j, TrimSpace(s));
  }

  lemma PieceKeepsNulFree(s: string, i: nat, j: nat, t: string)
    requires TrimmedAt(s, i, j, t) && '\0' !in s
    ensures '\0' !in t
  {
  }

  lemma NamesTellApart(c: Config, a: Member, b: Member)
    requires forall x, y :: c.hash(x) == c.hash(y) ==> x == y
    requires '\0' !in a.key && '\0' !in b.key && '\0' !in a.proxyURL && '\0' !in b.proxyURL
    ensures FileName(c, a) == FileName(c, b) <==>
            TrimSpace(a.key) == TrimSpace(b.key) && TrimSpace(a.proxyURL) == TrimSpace(b.proxyURL)
  {
    var (s, t) := (Signature(c, a), Signature(c, b));
    if FileName(c, a) == FileName(c, b) {
      assert c.hash(s) == FileName(c, a)[|PREFIX|..|FileName(c, a)| - |SUFFIX|];
      assert c.hash(t) == FileName(c, b)[|PREFIX|..|FileName(c, b)| - |SUFFIX|];
      TrimKeepsNulFree(a.key);
      TrimKeepsNulFree(b.key);
      FieldsTellApart(c.baseURL, TrimSpace(a.key), TrimSpace(a.proxyURL), TrimSpace(b.key), TrimSpace(b.proxyURL));
    }
  }

  lemma FieldsTellApart(base: string, k: string, p: string, l: string, q: string)
    requires '\0' !in k && '\0' !in l
    requires base + "\0" + k + "\0" + p == base + "\0" + l + "\0" + q
    ensures k == l && p == q
  {
    var n := |base| + 1;
    var s, t := base + "\0" + k + "\0" + p, base + "\0" + l + "\0" + q;
    assert s[n..] == k + "\0" + p && t[n..] == l + "\0" + q;
    assert s[n..][|k|] == '\0' && t[n..][|l|] == '\0';
    assert |k| == |l|;
    assert k == s[n..][..|k|] && l == t[n..][..|l|];
    assert p == s[n..][|k| + 1..] && q == t[n..][|l| + 1..];
  }
}
