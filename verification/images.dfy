/**
 The image cache: a fixed table of entries that nodes point at by count, and a decoder
 thread that is fed and emptied through two lists. Main thread and decoder are interleaved
 at their critical sections.
 */
module Images {
  import opened Options

  /** What a texture shows: a file, blurred or not, or a surface handed over under a name. */
  datatype Picture = FromFile(path: string, blur: Option<string>) | FromSurface(surface: int)

  datatype Entry = Entry(
    key: string, users: int, named: bool, loaded: bool, pending: bool, mtime: int, drawn: nat,
    texture: Option<Picture>, surface: Option<int>)

  datatype Job = Job(ticket: nat, image: nat, path: string, blur: Option<string>, mtime: int)

  /**
   The table, the node pointers and the job lists; then what happened so far: the key each
   node looked up last, every job asked for, every job delivered, and every surface handed
   over under a name.
   */
  datatype State = State(
    entries: seq<Entry>,
    nodes: seq<Option<nat>>,
    requested: seq<Job>,
    decoding: seq<Job>,
    decoded: seq<Job>,
    wanted: seq<string>,
    asked: seq<Job>,
    delivered: seq<Job>,
    handed: seq<(string, int)>)

  /** A blurred picture has its own key; `blur` is the amount as printed. */
  function KeyOf(path: string, blur: Option<string>): string {
    match blur
    case None => path
    case Some(amount) => path + "\n" + amount
  }

  function FreshEntry(key: string): Entry {
    Entry(key, 0, false, false, false, 0, 0, None, None)
  }

  // Finding an entry.

  function Find(entries: seq<Entry>, key: string): (at: Option<nat>)
    ensures at.Some? ==> at.value < |entries| && entries[at.value].key == key
    ensures at == None ==> forall e :: 0 <= e < |entries| ==> entries[e].key != key
  {
    if entries == [] then None
    else if entries[0].key == key then Some(0)
    else match Find(entries[1..], key) case None => None case Some(e) => Some(e + 1)
  }

  predicate Idle(entry: Entry) {
    entry.users == 0 && !entry.pending
  }

  /** The idle entry drawn longest ago among the first `n`. */
  function Oldest(entries: seq<Entry>, n: nat): (at: Option<nat>)
    requires n <= |entries|
    ensures at.Some? ==> at.value < n && Idle(entries[at.value])
    ensures forall e :: 0 <= e < n && Idle(entries[e]) ==> at.Some? && entries[at.value].drawn <= entries[e].drawn
  {
    if n == 0 then None
    else
      var before := Oldest(entries, n - 1);
      var older := before == None || entries[n - 1].drawn < entries[before.value].drawn;
      if Idle(entries[n - 1]) && older then Some(n - 1) else before
  }

  /** The entry of a key, making room for it by forgetting an idle one. */
  function ImageEntry(entries: seq<Entry>, key: string): (r: (seq<Entry>, Option<nat>))
    ensures |r.0| == |entries|
    ensures r.1.Some? ==> r.1.value < |entries| && r.0[r.1.value].key == key
  {
    var found := Find(entries, key);
    if found.Some? then (entries, found)
    else
      match Oldest(entries, |entries|)
      case None => (entries, None)
      case Some(e) => (entries[e := FreshEntry(key)], Some(e))
  }

  lemma NothingTaken(entries: seq<Entry>, key: string)
    ensures ImageEntry(entries, key).1 == None ==> ImageEntry(entries, key).0 == entries
  {
  }

  // Nodes.

  function ReleaseImage(s: State, n: nat): (next: State)
    requires n < |s.nodes| && (s.nodes[n].Some? ==> s.nodes[n].value < |s.entries|)
  {
    match s.nodes[n]
    case None => s
    case Some(e) =>
      s.(entries := s.entries[e := s.entries[e].(users := s.entries[e].users - 1)], nodes := s.nodes[n := None])
  }

  predicate Pointing(s: State) {
    && |s.wanted| == |s.nodes|
    && (forall n :: 0 <= n < |s.nodes| && s.nodes[n].Some? ==> s.nodes[n].value < |s.entries|)
    && (forall k :: 0 <= k < |s.decoded| ==> s.decoded[k].image < |s.entries|)
  }

  /** The node looks up a key: it keeps an entry of that key, or lets go of its entry and takes another. */
  function Point(s: State, n: nat, key: string): (next: State)
    requires Pointing(s) && n < |s.nodes|
    ensures Pointing(next) && |next.nodes| == |s.nodes|
    ensures next.nodes[n].Some? ==> next.entries[next.nodes[n].value].key == key
  {
    if s.nodes[n].Some? && s.entries[s.nodes[n].value].key == key then s.(wanted := s.wanted[n := key])
    else
      var free := ReleaseImage(s, n);
      var (entries, at) := ImageEntry(free.entries, key);
      match at
      case None => free.(wanted := free.wanted[n := key])
      case Some(e) =>
        free.(entries := entries[e := entries[e].(users := entries[e].users + 1)], nodes := free.nodes[n := at],
              wanted := free.wanted[n := key])
  }

  function RequestDecode(s: State, e: nat, path: string, blur: Option<string>, mtime: int): State
    requires e < |s.entries|
  {
    var job := Job(|s.asked|, e, path, blur, mtime);
    s.(entries := s.entries[e := s.entries[e].(pending := true)], requested := [job] + s.requested,
       asked := s.asked + [job])
  }

  /**
   What a node finds when it is drawn: its source, the file that stands for it, the blur and
   whether its key fits, the file's time, and whether a load is left in this frame.
   */
  datatype Look = Look(
    source: Option<string>, resolved: Option<string>, blur: Option<string>, fits: bool, mtime: Option<int>,
    load: bool, frame: nat)

  predicate Registered(s: State, source: string) {
    var at := Find(s.entries, source);
    at.Some? && s.entries[at.value].named
  }

  function Path(s: State, look: Look): Option<string>
    requires look.source.Some?
  {
    if Registered(s, look.source.value) then look.source else look.resolved
  }

  function Blur(s: State, look: Look): Option<string>
    requires look.source.Some?
  {
    if Registered(s, look.source.value) then None else look.blur
  }

  /** The entry is drawn: a changed file or a new surface is loaded again, files by the decoder. */
  function Refresh(s: State, e: nat, path: string, blur: Option<string>, look: Look): State
    requires e < |s.entries|
  {
    var entry := s.entries[e].(drawn := look.frame);
    if !entry.named && look.mtime == None then s.(entries := s.entries[e := entry])
    else
      var checked := if !entry.named && look.mtime.value != entry.mtime then entry.(loaded := false) else entry;
      var seen := s.(entries := s.entries[e := checked]);
      if checked.loaded then seen
      else if !entry.named then if entry.pending then seen else RequestDecode(seen, e, path, blur, look.mtime.value)
      else if !look.load then seen
      else
        var shown :=
          match checked.surface
          case None => checked.texture
          case Some(surface) => Some(FromSurface(surface));
        s.(entries := s.entries[e := checked.(loaded := true, texture := shown, surface := None)])
  }

  function NodeImage(s: State, n: nat, look: Look): State
    requires Pointing(s) && n < |s.nodes|
  {
    if look.source == None then ReleaseImage(s, n)
    else
      var path, blur := Path(s, look), Blur(s, look);
      if path == None || (blur.Some? && !look.fits) then s
      else
        var next := Point(s, n, KeyOf(path.value, blur));
        match next.nodes[n]
        case None => next
        case Some(e) => Refresh(next, e, path.value, blur, look)
  }

  /** A surface is handed over under a name; the first time, the name itself counts as a user. */
  function SceneImage(s: State, name: string, surface: int): State {
    var (entries, at) := ImageEntry(s.entries, name);
    var noted := s.(handed := s.handed + [(name, surface)]);
    match at
    case None => noted
    case Some(e) =>
      var entry := entries[e];
      var users := if entry.users == 0 then 1 else entry.users;
      noted.(entries := entries[e := entry.(surface := Some(surface), named := true, loaded := false, users := users)])
  }

  // The decoder.

  function Matching(jobs: seq<Job>, path: string): seq<Job> {
    if jobs == [] then []
    else if jobs[|jobs| - 1].path == path then [jobs[|jobs| - 1]] + Matching(jobs[..|jobs| - 1], path)
    else Matching(jobs[..|jobs| - 1], path)
  }

  function Others(jobs: seq<Job>, path: string): seq<Job> {
    if jobs == [] then []
    else if jobs[|jobs| - 1].path == path then Others(jobs[..|jobs| - 1], path)
    else Others(jobs[..|jobs| - 1], path) + [jobs[|jobs| - 1]]
  }

  /** The decoder takes all jobs of one file at once. */
  function Take(s: State): State {
    if s.requested == [] || s.decoding != [] then s
    else
      var path := s.requested[0].path;
      s.(requested := Others(s.requested, path), decoding := Matching(s.requested, path))
  }

  function Finish(s: State): State {
    s.(decoded := s.decoding + s.decoded, decoding := [])
  }

  /** The main thread delivers one decoded job; an unreadable file changes no texture. */
  function Upload(s: State, readable: bool): (next: State)
    requires Pointing(s)
    ensures Pointing(next)
  {
    if s.decoded == [] then s
    else
      var job := s.decoded[0];
      var entry := s.entries[job.image];
      var texture := if readable then Some(FromFile(job.path, job.blur)) else entry.texture;
      var changed := entry.(texture := texture, mtime := job.mtime, loaded := true, pending := false);
      s.(entries := s.entries[job.image := changed],
         decoded := s.decoded[1..], delivered := s.delivered + [job])
  }

  /** Deliveries one after the other, while there are loads left and jobs decoded. */
  function UploadMany(s: State, loads: nat, readable: Job -> bool): State
    requires Pointing(s)
    decreases loads
  {
    if loads == 0 || s.decoded == [] then s else UploadMany(Upload(s, readable(s.decoded[0])), loads - 1, readable)
  }

  datatype Event =
    | Create
    | Free(node: nat)
    | Draw(node: nat, look: Look)
    | Name(name: string, surface: int)
    | TakeBatch
    | FinishBatch
    | Deliver(readable: bool)

  function Next(s: State, e: Event): State
    requires Pointing(s)
  {
    match e
    case Create => s.(nodes := s.nodes + [None], wanted := s.wanted + [""])
    case Free(n) => if n < |s.nodes| then ReleaseImage(s, n) else s
    case Draw(n, look) => if n < |s.nodes| then NodeImage(s, n, look) else s
    case Name(name, surface) => SceneImage(s, name, surface)
    case TakeBatch => Take(s)
    case FinishBatch => Finish(s)
    case Deliver(readable) => Upload(s, readable)
  }

  // The invariant.

  ghost function Flight(s: State): multiset<Job> {
    multiset(s.requested) + multiset(s.decoding) + multiset(s.decoded)
  }

  /** Users are the nodes pointing at the entry, and the name if it counts as one. */
  predicate CountedAs(entry: Entry, nodes: nat) {
    nodes <= entry.users <= nodes + 1 && (entry.users > nodes ==> entry.named)
  }

  ghost predicate Counted(entries: seq<Entry>, nodes: seq<Option<nat>>) {
    forall e :: 0 <= e < |entries| ==> CountedAs(entries[e], multiset(nodes)[Some(e)])
  }

  /** An entry is pending exactly while one job for it is somewhere between request and delivery. */
  ghost predicate OneJobEach(entries: seq<Entry>, flight: multiset<Job>) {
    && (forall job :: job in flight ==>
          flight[job] == 1 && job.image < |entries| && entries[job.image].pending
            && entries[job.image].key == KeyOf(job.path, job.blur))
    && (forall job, other :: job in flight && other in flight && job.image == other.image ==> job == other)
    && (forall e :: 0 <= e < |entries| && entries[e].pending ==> exists job :: job in flight && job.image == e)
  }

  predicate DistinctKeys(entries: seq<Entry>) {
    forall a, b :: 0 <= a < b < |entries| && entries[a].key != "" ==> entries[a].key != entries[b].key
  }

  /** A node points at an entry of the key it looked up. */
  predicate RightEntries(entries: seq<Entry>, nodes: seq<Option<nat>>, wanted: seq<string>) {
    |nodes| == |wanted| && forall n :: 0 <= n < |nodes| && nodes[n].Some? ==>
      nodes[n].value < |entries| && entries[nodes[n].value].key == wanted[n]
  }

  /** The texture of an entry shows the file, and the blur, of its key, or a surface handed over under it. */
  predicate RightTexture(entry: Entry, handed: seq<(string, int)>) {
    && (entry.surface.Some? ==> entry.named && (entry.key, entry.surface.value) in handed)
    && match entry.texture
       case None => true
       case Some(FromFile(path, blur)) => entry.key == KeyOf(path, blur)
       case Some(FromSurface(surface)) => entry.named && (entry.key, surface) in handed
  }

  predicate RightTextures(entries: seq<Entry>, handed: seq<(string, int)>) {
    forall e :: 0 <= e < |entries| ==> RightTexture(entries[e], handed)
  }

  /** Jobs are numbered as they are asked for; each is in flight or delivered. */
  ghost predicate Conserved(s: State) {
    && (forall k :: 0 <= k < |s.asked| ==> s.asked[k].ticket == k)
    && multiset(s.asked) == Flight(s) + multiset(s.delivered)
  }

  ghost predicate Inv(s: State) {
    && Counted(s.entries, s.nodes) && OneJobEach(s.entries, Flight(s)) && DistinctKeys(s.entries)
    && RightEntries(s.entries, s.nodes, s.wanted) && RightTextures(s.entries, s.handed) && Conserved(s)
  }

  // Every step keeps the invariant.

  lemma InvPoints(s: State)
    requires Inv(s)
    ensures Pointing(s)
  {
    hide Counted, DistinctKeys, RightTextures, Conserved, KeyOf;
    forall k | 0 <= k < |s.decoded| ensures s.decoded[k].image < |s.entries| {
      assert s.decoded[k] in Flight(s);
    }
  }

  lemma SameJobs(entries: seq<Entry>, e: nat, changed: Entry, flight: multiset<Job>)
    requires OneJobEach(entries, flight) && e < |entries| && changed.pending == entries[e].pending
    requires changed.key == entries[e].key || !changed.pending
    ensures OneJobEach(entries[e := changed], flight)
  {
    hide KeyOf;
  }

  lemma SameKeys(entries: seq<Entry>, nodes: seq<Option<nat>>, wanted: seq<string>, e: nat, changed: Entry)
    requires DistinctKeys(entries) && RightEntries(entries, nodes, wanted) && e < |entries|
    requires changed.key == entries[e].key
    ensures DistinctKeys(entries[e := changed]) && RightEntries(entries[e := changed], nodes, wanted)
  {
  }

  lemma SameFlight(s: State, next: State)
    requires next.requested == s.requested && next.decoding == s.decoding && next.decoded == s.decoded
    ensures Flight(next) == Flight(s)
  {
  }

  lemma ChangedTexture(entries: seq<Entry>, handed: seq<(string, int)>, e: nat, changed: Entry)
    requires RightTextures(entries, handed) && e < |entries| && RightTexture(changed, handed)
    ensures RightTextures(entries[e := changed], handed)
  {
    hide RightTexture;
  }

  /** Letting a node go, or pointing it at an entry, moves one count. */
  lemma Repointed(entries: seq<Entry>, nodes: seq<Option<nat>>, n: nat, goal: Option<nat>, e: nat, users: int)
    requires Counted(entries, nodes) && n < |nodes| && e < |entries|
    requires if goal == None then nodes[n] == Some(e) && users == entries[e].users - 1
             else nodes[n] == None && goal == Some(e) && users == entries[e].users + 1
    ensures Counted(entries[e := entries[e].(users := users)], nodes[n := goal])
  {
    hide CountedAs;
    var after := nodes[n := goal];
    assert multiset(after) == multiset(nodes) - multiset{nodes[n]} + multiset{goal};
    assert nodes[n] in multiset(nodes);
    var changed := entries[e := entries[e].(users := users)];
    forall k | 0 <= k < |entries| ensures CountedAs(changed[k], multiset(after)[Some(k)]) {
      if k == e {
        OneMoreOrLess(entries[e], multiset(nodes)[Some(e)], users);
      } else {
        assert multiset(after)[Some(k)] == multiset(nodes)[Some(k)];
      }
    }
  }

  lemma OneMoreOrLess(entry: Entry, nodes: nat, users: int)
    requires CountedAs(entry, nodes)
    ensures users == entry.users - 1 && nodes > 0 ==> CountedAs(entry.(users := users), nodes - 1)
    ensures users == entry.users + 1 ==> CountedAs(entry.(users := users), nodes + 1)
  {
  }

  lemma ReleaseKeeps(s: State, n: nat)
    requires Inv(s) && n < |s.nodes|
    ensures Pointing(s) && Inv(ReleaseImage(s, n))
  {
    hide Counted, OneJobEach, RightTextures, Flight;
    InvPoints(s);
    var next := ReleaseImage(s, n);
    SameFlight(s, next);
    if s.nodes[n].Some? {
      var e := s.nodes[n].value;
      var changed := s.entries[e].(users := s.entries[e].users - 1);
      Repointed(s.entries, s.nodes, n, None, e, changed.users);
      SameJobs(s.entries, e, changed, Flight(s));
      ChangedTexture(s.entries, s.handed, e, changed) by {
        assert RightTexture(s.entries[e], s.handed) by { SomeTexture(s.entries, s.handed, e); }
      }
    }
  }

  lemma SomeTexture(entries: seq<Entry>, handed: seq<(string, int)>, e: nat)
    requires RightTextures(entries, handed) && e < |entries|
    ensures RightTexture(entries[e], handed)
  {
  }

  lemma Uncounted(entries: seq<Entry>, nodes: seq<Option<nat>>, e: nat, key: string)
    requires Counted(entries, nodes) && e < |entries| && entries[e].users == 0
    ensures forall n :: 0 <= n < |nodes| ==> nodes[n] != Some(e)
    ensures Counted(entries[e := FreshEntry(key)], nodes)
  {
    assert CountedAs(entries[e], multiset(nodes)[Some(e)]);
    assert Some(e) !in multiset(nodes);
    forall n | 0 <= n < |nodes| ensures nodes[n] != Some(e) {
      assert nodes[n] in multiset(nodes);
    }
  }

  /** An idle entry has no node and no job, so it can be forgotten. */
  lemma ForgetKeeps(s: State, e: nat, key: string)
    requires Inv(s) && e < |s.entries| && Idle(s.entries[e])
    requires forall a :: 0 <= a < |s.entries| ==> s.entries[a].key != key
    ensures var next := s.(entries := s.entries[e := FreshEntry(key)]); Inv(next)
  {
    hide Counted, OneJobEach, RightTextures, Flight;
    var next := s.(entries := s.entries[e := FreshEntry(key)]);
    SameFlight(s, next);
    Uncounted(s.entries, s.nodes, e, key);
    SameJobs(s.entries, e, FreshEntry(key), Flight(s));
    ChangedTexture(s.entries, s.handed, e, FreshEntry(key));
  }

  lemma EntryKeeps(s: State, key: string)
    requires Inv(s)
    ensures var next := s.(entries := ImageEntry(s.entries, key).0); Inv(next)
  {
    hide Inv;
    var found := Find(s.entries, key);
    if found == None {
      var spare := Oldest(s.entries, |s.entries|);
      if spare.Some? { ForgetKeeps(s, spare.value, key); }
    }
    assert s.(entries := s.entries) == s;
  }

  /** A node takes up an entry of the key it looked up. */
  lemma AttachKeeps(s: State, n: nat, e: nat)
    requires Inv(s) && n < |s.nodes| && s.nodes[n] == None && e < |s.entries|
    ensures |s.wanted| == |s.nodes|
    ensures var next := s.(entries := s.entries[e := s.entries[e].(users := s.entries[e].users + 1)],
                           nodes := s.nodes[n := Some(e)], wanted := s.wanted[n := s.entries[e].key]);
            Inv(next)
  {
    hide Counted, OneJobEach, RightTextures, Flight;
    var changed := s.entries[e].(users := s.entries[e].users + 1);
    var next := s.(entries := s.entries[e := changed], nodes := s.nodes[n := Some(e)],
                   wanted := s.wanted[n := s.entries[e].key]);
    SameFlight(s, next);
    Repointed(s.entries, s.nodes, n, Some(e), e, changed.users);
    SameJobs(s.entries, e, changed, Flight(s));
    ChangedTexture(s.entries, s.handed, e, changed) by {
      assert RightTexture(s.entries[e], s.handed) by { SomeTexture(s.entries, s.handed, e); }
    }
  }

  lemma WantKeeps(s: State, n: nat, key: string)
    requires Inv(s) && n < |s.nodes|
    requires s.nodes[n].Some? ==> s.nodes[n].value < |s.entries| && s.entries[s.nodes[n].value].key == key
    ensures |s.wanted| == |s.nodes|
    ensures var next := s.(wanted := s.wanted[n := key]); Inv(next)
  {
    hide Counted, OneJobEach, RightTextures, Flight;
    SameFlight(s, s.(wanted := s.wanted[n := key]));
  }

  /** A change of an entry that keeps key, users and pending. */
  predicate Touched(entry: Entry, changed: Entry) {
    && changed.key == entry.key && changed.users == entry.users && changed.pending == entry.pending
    && (entry.named ==> changed.named)
  }

  lemma TouchedCounts(entries: seq<Entry>, nodes: seq<Option<nat>>, e: nat, changed: Entry)
    requires Counted(entries, nodes) && e < |entries| && CountedAs(changed, multiset(nodes)[Some(e)])
    ensures Counted(entries[e := changed], nodes)
  {
    hide CountedAs;
  }

  lemma SomeCount(entries: seq<Entry>, nodes: seq<Option<nat>>, e: nat)
    requires Counted(entries, nodes) && e < |entries|
    ensures CountedAs(entries[e], multiset(nodes)[Some(e)])
  {
  }

  lemma TouchKeeps(s: State, e: nat, changed: Entry)
    requires Inv(s) && e < |s.entries| && Touched(s.entries[e], changed) && RightTexture(changed, s.handed)
    ensures var next := s.(entries := s.entries[e := changed]); Inv(next)
  {
    hide Counted, OneJobEach, RightTextures, Flight, RightTexture;
    SameFlight(s, s.(entries := s.entries[e := changed]));
    SomeCount(s.entries, s.nodes, e);
    TouchedCounts(s.entries, s.nodes, e, changed);
    SameJobs(s.entries, e, changed, Flight(s));
    ChangedTexture(s.entries, s.handed, e, changed);
  }

  lemma JobAdded(entries: seq<Entry>, flight: multiset<Job>, job: Job)
    requires OneJobEach(entries, flight) && job.image < |entries| && !entries[job.image].pending
    requires entries[job.image].key == KeyOf(job.path, job.blur)
    ensures OneJobEach(entries[job.image := entries[job.image].(pending := true)], flight + multiset{job})
  {
    hide KeyOf;
    var after, more := entries[job.image := entries[job.image].(pending := true)], flight + multiset{job};
    assert job !in flight;
    forall e | 0 <= e < |after| && after[e].pending ensures exists other :: other in more && other.image == e {
      if e == job.image {
        assert job in more;
      } else {
        var other :| other in flight && other.image == e;
        assert other in more;
      }
    }
  }

  lemma RequestKeeps(s: State, e: nat, path: string, blur: Option<string>, mtime: int)
    requires Inv(s) && e < |s.entries| && !s.entries[e].pending && s.entries[e].key == KeyOf(path, blur)
    ensures var next := RequestDecode(s, e, path, blur, mtime); Inv(next)
  {
    hide KeyOf, Counted, OneJobEach, RightTextures, RightTexture;
    var job := Job(|s.asked|, e, path, blur, mtime);
    var next := RequestDecode(s, e, path, blur, mtime);
    var changed := s.entries[e].(pending := true);
    SomeCount(s.entries, s.nodes, e);
    TouchedCounts(s.entries, s.nodes, e, changed);
    JobAdded(s.entries, Flight(s), job);
    ChangedTexture(s.entries, s.handed, e, changed) by { Texture(s.entries, s.handed, e, changed); }
    assert Flight(next) == Flight(s) + multiset{job};
    assert multiset(next.asked) == multiset(s.asked) + multiset{job};
  }

  lemma Texture(entries: seq<Entry>, handed: seq<(string, int)>, e: nat, changed: Entry)
    requires RightTextures(entries, handed) && e < |entries| && changed.surface == entries[e].surface
    requires changed.texture == entries[e].texture && changed.key == entries[e].key
    requires entries[e].named ==> changed.named
    ensures RightTexture(changed, handed)
  {
    assert RightTexture(entries[e], handed);
  }

  lemma PointKeeps(s: State, n: nat, key: string)
    requires Inv(s) && n < |s.nodes|
    ensures Pointing(s) && Inv(Point(s, n, key))
  {
    hide Inv, Find, Oldest;
    InvPoints(s);
    if s.nodes[n].Some? && s.entries[s.nodes[n].value].key == key {
      WantKeeps(s, n, key);
    } else {
      ReleaseKeeps(s, n);
      var free := ReleaseImage(s, n);
      EntryKeeps(free, key);
      var (entries, at) := ImageEntry(free.entries, key);
      var ready := free.(entries := entries);
      match at {
        case None => WantKeeps(ready, n, key);
        case Some(e) => AttachKeeps(ready, n, e);
      }
      assert at == None ==> entries == free.entries;
    }
  }

  lemma RefreshKeeps(s: State, e: nat, path: string, blur: Option<string>, look: Look)
    requires Inv(s) && e < |s.entries| && s.entries[e].key == KeyOf(path, blur)
    ensures Inv(Refresh(s, e, path, blur, look))
  {
    hide Inv, KeyOf;
    var entry := s.entries[e].(drawn := look.frame);
    assert RightTexture(s.entries[e], s.handed) by { Textured(s, e); }
    TouchKeeps(s, e, entry);
    if entry.named || look.mtime.Some? {
      var checked := if !entry.named && look.mtime.value != entry.mtime then entry.(loaded := false) else entry;
      var seen := s.(entries := s.entries[e := checked]);
      TouchKeeps(s, e, checked);
      if !checked.loaded {
        if entry.named {
          var shown :=
            match checked.surface
            case None => checked.texture
            case Some(surface) => Some(FromSurface(surface));
          TouchKeeps(s, e, checked.(loaded := true, texture := shown, surface := None));
        } else if !entry.pending {
          RequestKeeps(seen, e, path, blur, look.mtime.value);
        }
      }
    }
  }

  lemma Textured(s: State, e: nat)
    requires Inv(s) && e < |s.entries|
    ensures RightTexture(s.entries[e], s.handed)
  {
    hide Counted, OneJobEach, DistinctKeys, RightEntries, Conserved, RightTexture;
  }

  lemma DrawKeeps(s: State, n: nat, look: Look)
    requires Inv(s) && n < |s.nodes|
    ensures Pointing(s) && Inv(NodeImage(s, n, look))
  {
    hide Inv, KeyOf, Refresh, Point, ReleaseImage, Registered;
    InvPoints(s);
    ReleaseKeeps(s, n);
    if look.source.Some? {
      var path, blur := Path(s, look), Blur(s, look);
      if path.Some? && (blur.Some? ==> look.fits) {
        var key := KeyOf(path.value, blur);
        PointKeeps(s, n, key);
        var next := Point(s, n, key);
        if next.nodes[n].Some? {
          RefreshKeeps(next, next.nodes[n].value, path.value, blur, look);
        }
      }
    }
  }

  lemma NameKeeps(s: State, name: string, surface: int)
    requires Inv(s)
    ensures Inv(SceneImage(s, name, surface))
  {
    hide Counted, OneJobEach, RightTextures, Flight, CountedAs, Find, Oldest;
    EntryKeeps(s, name);
    var (entries, at) := ImageEntry(s.entries, name);
    var ready := s.(entries := entries);
    SameFlight(s, SceneImage(s, name, surface));
    MoreHanded(s.entries, s.handed, (name, surface));
    MoreHanded(entries, s.handed, (name, surface));
    if at.Some? {
      var e := at.value;
      var entry := entries[e];
      var users := if entry.users == 0 then 1 else entry.users;
      var changed := entry.(surface := Some(surface), named := true, loaded := false, users := users);
      var next := SceneImage(s, name, surface);
      SameFlight(s, next);
      SameFlight(s, ready);
      SomeCount(entries, s.nodes, e);
      assert CountedAs(changed, multiset(s.nodes)[Some(e)]) by {
        NameCounts(entry, changed, multiset(s.nodes)[Some(e)]);
      }
      TouchedCounts(entries, s.nodes, e, changed);
      SameJobs(entries, e, changed, Flight(s));
      ChangedTexture(entries, next.handed, e, changed) by { Renamed(entries, next.handed, e, changed); }
    }
  }

  lemma MoreHanded(entries: seq<Entry>, handed: seq<(string, int)>, more: (string, int))
    requires RightTextures(entries, handed)
    ensures RightTextures(entries, handed + [more])
  {
    forall e | 0 <= e < |entries| ensures RightTexture(entries[e], handed + [more]) {
      assert RightTexture(entries[e], handed);
    }
  }

  lemma Renamed(entries: seq<Entry>, handed: seq<(string, int)>, e: nat, changed: Entry)
    requires RightTextures(entries, handed) && e < |entries|
    requires changed.texture == entries[e].texture && changed.key == entries[e].key && changed.named
    requires changed.surface.Some? && (changed.key, changed.surface.value) in handed
    ensures RightTexture(changed, handed)
  {
    assert RightTexture(entries[e], handed);
  }

  lemma NameCounts(entry: Entry, changed: Entry, nodes: nat)
    requires CountedAs(entry, nodes) && changed.named && changed.users == if entry.users == 0 then 1 else entry.users
    ensures CountedAs(changed, nodes)
  {
  }

  /** Taking the jobs of one file splits the list and loses none. */
  lemma {:induction false} BatchSplits(jobs: seq<Job>, path: string)
    ensures multiset(Matching(jobs, path)) + multiset(Others(jobs, path)) == multiset(jobs)
    ensures forall job :: job in Matching(jobs, path) ==> job.path == path
    ensures forall job :: job in Others(jobs, path) ==> job.path != path
  {
    if jobs != [] {
      var last := |jobs| - 1;
      BatchSplits(jobs[..last], path);
      assert jobs == jobs[..last] + [jobs[last]];
    }
  }

  lemma FlightKeeps(s: State, next: State)
    requires Inv(s) && Flight(next) == Flight(s)
    requires next == s.(requested := next.requested, decoding := next.decoding, decoded := next.decoded)
    ensures Inv(next)
  {
    hide Flight, Counted, OneJobEach, DistinctKeys, RightEntries, RightTextures;
  }

  lemma TakeKeeps(s: State)
    requires Inv(s)
    ensures Inv(Take(s))
  {
    hide Inv, Matching, Others;
    if s.requested != [] && s.decoding == [] {
      BatchSplits(s.requested, s.requested[0].path);
      FlightKeeps(s, Take(s));
    }
  }

  lemma FinishKeeps(s: State)
    requires Inv(s)
    ensures Inv(Finish(s))
  {
    hide Inv;
    FlightKeeps(s, Finish(s));
  }

  lemma Without(flight: multiset<Job>, job: Job)
    requires flight[job] == 1
    ensures forall other :: other in flight - multiset{job} <==> other in flight && other != job
    ensures forall other :: other in flight - multiset{job} ==> (flight - multiset{job})[other] == flight[other]
  {
  }

  lemma JobDone(entries: seq<Entry>, flight: multiset<Job>, job: Job, changed: Entry)
    requires OneJobEach(entries, flight) && job in flight && job.image < |entries|
    requires !changed.pending && changed.key == entries[job.image].key
    ensures OneJobEach(entries[job.image := changed], flight - multiset{job})
  {
    hide KeyOf;
    var after := entries[job.image := changed];
    Without(flight, job);
    var less := flight - multiset{job};
    forall e | 0 <= e < |after| && after[e].pending ensures exists other :: other in less && other.image == e {
      var other :| other in flight && other.image == e;
      assert other in less;
    }
  }

  lemma DeliverKeeps(s: State, readable: bool)
    requires Inv(s) && Pointing(s)
    ensures Inv(Upload(s, readable))
  {
    if s.decoded != [] {
      hide Counted, OneJobEach, RightTextures, CountedAs, KeyOf, RightTexture, Flight, Conserved, DistinctKeys,
           RightEntries;
      var job, next := s.decoded[0], Upload(s, readable);
      var entry, changed := s.entries[job.image], next.entries[job.image];
      OutOfFlight(s, readable);
      JobIsRight(s.entries, Flight(s), job);
      SomeCount(s.entries, s.nodes, job.image);
      assert CountedAs(changed, multiset(s.nodes)[Some(job.image)]) by {
        SameUsers(entry, changed, multiset(s.nodes)[Some(job.image)]);
      }
      TouchedCounts(s.entries, s.nodes, job.image, changed);
      JobDone(s.entries, Flight(s), job, changed);
      Textured(s, job.image);
      assert RightTexture(changed, s.handed) by { Delivered(entry, changed, job, readable, s.handed); }
      ChangedTexture(s.entries, s.handed, job.image, changed);
      SameKeys(s.entries, s.nodes, s.wanted, job.image, changed);
    }
  }

  lemma OutOfFlight(s: State, readable: bool)
    requires Pointing(s) && Conserved(s) && s.decoded != []
    ensures var job, next := s.decoded[0], Upload(s, readable);
            job in Flight(s) && Flight(next) == Flight(s) - multiset{job} && Conserved(next)
  {
    var job, next := s.decoded[0], Upload(s, readable);
    assert multiset(s.decoded) == multiset{job} + multiset(next.decoded) by {
      assert s.decoded == [job] + next.decoded;
    }
    assert multiset(next.delivered) == multiset(s.delivered) + multiset{job};
  }

  lemma JobIsRight(entries: seq<Entry>, flight: multiset<Job>, job: Job)
    requires OneJobEach(entries, flight) && job in flight
    ensures job.image < |entries| && entries[job.image].key == KeyOf(job.path, job.blur)
  {
  }

  lemma SameUsers(entry: Entry, changed: Entry, nodes: nat)
    requires CountedAs(entry, nodes) && changed.users == entry.users && changed.named == entry.named
    ensures CountedAs(changed, nodes)
  {
  }

  lemma Delivered(entry: Entry, changed: Entry, job: Job, readable: bool, handed: seq<(string, int)>)
    requires RightTexture(entry, handed) && changed.surface == entry.surface && entry.key == KeyOf(job.path, job.blur)
    requires changed.key == entry.key && changed.named == entry.named
    requires changed.texture == if readable then Some(FromFile(job.path, job.blur)) else entry.texture
    ensures RightTexture(changed, handed)
  {
  }

  lemma CreateKeeps(s: State)
    requires Inv(s)
    ensures Inv(s.(nodes := s.nodes + [None], wanted := s.wanted + [""]))
  {
    hide OneJobEach, RightTextures, CountedAs;
    var next := s.(nodes := s.nodes + [None], wanted := s.wanted + [""]);
    SameFlight(s, next);
    assert multiset(next.nodes) == multiset(s.nodes) + multiset{None};
    forall e | 0 <= e < |s.entries| ensures CountedAs(s.entries[e], multiset(next.nodes)[Some(e)]) {
      assert multiset(next.nodes)[Some(e)] == multiset(s.nodes)[Some(e)];
    }
  }

  lemma NextKeeps(s: State, e: Event)
    requires Inv(s)
    ensures Pointing(s) && Inv(Next(s, e))
  {
    hide Inv, Upload, Take, Finish, SceneImage, NodeImage, ReleaseImage;
    InvPoints(s);
    match e
    case Create => CreateKeeps(s);
    case Free(n) => if n < |s.nodes| { ReleaseKeeps(s, n); }
    case Draw(n, look) => if n < |s.nodes| { DrawKeeps(s, n, look); }
    case Name(name, surface) => NameKeeps(s, name, surface);
    case TakeBatch => TakeKeeps(s);
    case FinishBatch => FinishKeeps(s);
    case Deliver(readable) => DeliverKeeps(s, readable);
  }

  // Over whole runs.

  function Initial(size: nat): State {
    State(seq(size, _ => FreshEntry("")), [], [], [], [], [], [], [], [])
  }

  ghost function Run(size: nat, events: seq<Event>): (s: State)
    ensures Inv(s)
  {
    if events == [] then
      FreshTable(size);
      Initial(size)
    else
      var before := Run(size, events[..|events| - 1]);
      NextKeeps(before, events[|events| - 1]);
      Next(before, events[|events| - 1])
  }

  lemma FreshTable(size: nat)
    ensures Inv(Initial(size))
  {
  }

  /**
   No entry in use is ever recycled: it has at least as many users as nodes point at it, and each
   of them finds the key it looked up.
   */
  lemma NodesKeepTheirEntries(size: nat, events: seq<Event>)
    ensures var s := Run(size, events);
            && |s.wanted| == |s.nodes|
            && forall n :: 0 <= n < |s.nodes| && s.nodes[n].Some? ==>
                 var e := s.nodes[n].value;
                 && e < |s.entries|
                 && 1 <= multiset(s.nodes)[Some(e)] <= s.entries[e].users
                 && s.entries[e].key == s.wanted[n]
  {
    hide Run, OneJobEach, RightTextures, Conserved, DistinctKeys;
    var s := Run(size, events);
    forall n | 0 <= n < |s.nodes| && s.nodes[n].Some?
      ensures 1 <= multiset(s.nodes)[s.nodes[n]] <= s.entries[s.nodes[n].value].users
    {
      assert s.nodes[n] in multiset(s.nodes);
      assert CountedAs(s.entries[s.nodes[n].value], multiset(s.nodes)[s.nodes[n]]);
    }
  }

  lemma ReleaseSpares(s: State, n: nat, m: nat)
    requires Pointing(s) && n < |s.nodes| && m < |s.nodes| && m != n
    ensures var next := ReleaseImage(s, n);
            |next.nodes| == |s.nodes| && next.nodes[m] == s.nodes[m] && next.wanted == s.wanted
  {
  }

  lemma DrawSpares(s: State, n: nat, look: Look, m: nat)
    requires Pointing(s) && n < |s.nodes| && m < |s.nodes| && m != n
    ensures var next := NodeImage(s, n, look);
            && m < |next.nodes| && next.nodes[m] == s.nodes[m] && m < |next.wanted| && next.wanted[m] == s.wanted[m]
  {
    hide KeyOf, Path, Blur, Refresh, ReleaseImage, ImageEntry;
    ReleaseSpares(s, n, m);
    if look.source.Some? && Path(s, look).Some? {
      var path, blur := Path(s, look).value, Blur(s, look);
      var next := Point(s, n, KeyOf(path, blur));
      PointWants(s, n, KeyOf(path, blur));
      if next.nodes[n].Some? { RefreshSpares(next, next.nodes[n].value, path, blur, look); }
    }
  }

  /** A step changes the pointer and the key of no node but the one it is about. */
  lemma OthersKeep(s: State, e: Event, m: nat)
    requires Pointing(s) && m < |s.nodes| && e != Free(m) && !(e.Draw? && e.node == m)
    ensures m < |Next(s, e).nodes| && Next(s, e).nodes[m] == s.nodes[m]
    ensures m < |Next(s, e).wanted| && Next(s, e).wanted[m] == s.wanted[m]
  {
    hide NodeImage, ReleaseImage, ImageEntry, Matching, Others;
    match e
    case Free(n) => if n < |s.nodes| { ReleaseSpares(s, n, m); }
    case Draw(n, look) => if n < |s.nodes| { DrawSpares(s, n, look, m); }
    case _ =>
  }

  lemma PointWants(s: State, n: nat, key: string)
    requires Pointing(s) && n < |s.nodes|
    ensures Point(s, n, key).wanted == s.wanted[n := key]
  {
    hide ImageEntry;
  }

  lemma RefreshSpares(s: State, e: nat, path: string, blur: Option<string>, look: Look)
    requires e < |s.entries|
    ensures var next := Refresh(s, e, path, blur, look);
            && next.nodes == s.nodes && next.wanted == s.wanted
            && |next.entries| == |s.entries| && next.entries[e].key == s.entries[e].key
  {
  }

  lemma DrawsUnderKey(s: State, n: nat, look: Look)
    requires Pointing(s) && n < |s.nodes| && look.source.Some?
    requires Path(s, look).Some? && (Blur(s, look).Some? ==> look.fits)
    ensures var next, key := NodeImage(s, n, look), KeyOf(Path(s, look).value, Blur(s, look));
            && n < |next.nodes| && n < |next.wanted| && next.wanted[n] == key
            && (next.nodes[n].Some? ==>
                 next.nodes[n].value < |next.entries| && next.entries[next.nodes[n].value].key == key)
  {
    hide KeyOf, Path, Blur, Point, Refresh;
    var path, blur := Path(s, look).value, Blur(s, look);
    PointWants(s, n, KeyOf(path, blur));
    var next := Point(s, n, KeyOf(path, blur));
    if next.nodes[n].Some? { RefreshSpares(next, next.nodes[n].value, path, blur, look); }
  }

  /**
   A node is drawn with an entry of its key, showing a file and blur of that key or a surface
   handed over under it.
   */
  lemma DrawsItsKey(s: State, n: nat, look: Look)
    requires Inv(s) && n < |s.nodes| && look.source.Some?
    requires Path(s, look).Some? && (Blur(s, look).Some? ==> look.fits)
    ensures Pointing(s)
    ensures var next, key := NodeImage(s, n, look), KeyOf(Path(s, look).value, Blur(s, look));
            && n < |next.nodes| && n < |next.wanted| && next.wanted[n] == key
            && (next.nodes[n].Some? ==>
                  var e := next.nodes[n].value;
                  && e < |next.entries| && next.entries[e].key == key
                  && match next.entries[e].texture
                     case None => true
                     case Some(FromFile(path, blur)) => KeyOf(path, blur) == key
                     case Some(FromSurface(surface)) => (key, surface) in next.handed)
  {
    hide Inv, KeyOf, Path, Blur, NodeImage;
    InvPoints(s);
    DrawKeeps(s, n, look);
    DrawsUnderKey(s, n, look);
    var next := NodeImage(s, n, look);
    if next.nodes[n].Some? {
      InvPoints(next);
      Textured(next, next.nodes[n].value);
    }
  }

  lemma {:induction false} TicketCount(asked: seq<Job>, job: Job)
    requires forall k :: 0 <= k < |asked| ==> asked[k].ticket == k
    requires job.ticket < |asked| ==> asked[job.ticket] == job
    ensures multiset(asked)[job] == if job.ticket < |asked| then 1 else 0
  {
    if asked != [] {
      var last := |asked| - 1;
      TicketCount(asked[..last], job);
      assert asked == asked[..last] + [asked[last]];
    }
  }

  /** Every job asked for is at one place: requested, decoding, decoded, or delivered once. */
  lemma ExactlyOnce(size: nat, events: seq<Event>)
    ensures var s := Run(size, events);
            forall job :: job in s.asked ==>
              multiset(s.requested)[job] + multiset(s.decoding)[job] + multiset(s.decoded)[job]
                + multiset(s.delivered)[job] == 1
    ensures var s := Run(size, events);
            forall job :: job in s.requested + s.decoding + s.decoded + s.delivered ==> job in s.asked
  {
    hide Run, OneJobEach, RightTextures, Counted, DistinctKeys, RightEntries;
    var s := Run(size, events);
    forall job | job in s.asked
      ensures multiset(s.requested)[job] + multiset(s.decoding)[job] + multiset(s.decoded)[job]
              + multiset(s.delivered)[job] == 1
    {
      TicketCount(s.asked, job);
    }
    forall job | job in s.requested + s.decoding + s.decoded + s.delivered ensures job in s.asked {
      assert job in multiset(s.asked);
    }
  }

  /** An entry is pending exactly when a job for it is under way; that job, the only one, is for the entry's own key. */
  lemma PendingMeansOneJob(size: nat, events: seq<Event>)
    ensures var s := Run(size, events);
            && (forall e :: 0 <= e < |s.entries| ==>
                 (s.entries[e].pending <==> exists job :: job in Flight(s) && job.image == e))
            && (forall job :: job in Flight(s) ==>
                  Flight(s)[job] == 1 && job.image < |s.entries|
                    && s.entries[job.image].key == KeyOf(job.path, job.blur))
            && (forall job, other :: job in Flight(s) && other in Flight(s) && job.image == other.image ==>
                 job == other)
  {
    hide Run, Flight, RightTextures, Counted, DistinctKeys, RightEntries, Conserved, KeyOf;
  }

  /** How many steps of decoder and delivery the jobs under way still need. */
  function Rank(s: State): nat {
    3 * |s.requested| + 2 * |s.decoding| + |s.decoded|
  }

  lemma {:induction false} BatchSizes(jobs: seq<Job>, path: string)
    ensures |Matching(jobs, path)| + |Others(jobs, path)| == |jobs|
    ensures jobs != [] && jobs[0].path == path ==> Matching(jobs, path) != []
  {
    if jobs != [] {
      BatchSizes(jobs[..|jobs| - 1], path);
    }
  }

  /** Every step of the decoder and every delivery either finds nothing to do or leaves less to do. */
  lemma JobsMoveOn(s: State, e: Event)
    requires Pointing(s) && (e.TakeBatch? || e.FinishBatch? || e.Deliver?)
    ensures Next(s, e) == s || Rank(Next(s, e)) < Rank(s)
  {
    if s.requested != [] {
      BatchSizes(s.requested, s.requested[0].path);
    }
  }

  /** While a job is under way, one of these steps finds something to do. */
  lemma SomethingMoves(s: State)
    requires Pointing(s) && s.requested + s.decoding + s.decoded != []
    ensures Next(s, TakeBatch) != s || Next(s, FinishBatch) != s || Next(s, Deliver(true)) != s
  {
    if s.decoded != [] {
      assert |Next(s, Deliver(true)).decoded| < |s.decoded|;
    } else if s.decoding == [] {
      BatchSizes(s.requested, s.requested[0].path);
      assert Next(s, TakeBatch).decoding != [];
    }
  }

  // Paths without a newline.

  predicate Clean(path: string) {
    '\n' !in path
  }

  lemma NewlineInside(path: string, blur: Option<string>, other: string, otherBlur: Option<string>)
    requires KeyOf(path, blur) == KeyOf(other, otherBlur) && |path| < |other|
    ensures '\n' in other
  {
    var key := KeyOf(path, blur);
    assert key[..|other|] == other;
    assert key[|path|] == '\n';
    assert other[|path|] == key[..|other|][|path|];
  }

  /** Then the key tells path and blur. */
  lemma KeyTells(path: string, blur: Option<string>, other: string, otherBlur: Option<string>)
    requires Clean(path) && Clean(other) && KeyOf(path, blur) == KeyOf(other, otherBlur)
    ensures path == other && blur == otherBlur
  {
    var key := KeyOf(path, blur);
    assert |path| == |other| by {
      if |path| < |other| { NewlineInside(path, blur, other, otherBlur); }
      if |other| < |path| { NewlineInside(other, otherBlur, path, blur); }
    }
    assert path == key[..|path|] && other == key[..|other|];
    if blur.Some? { assert key[|path| + 1..] == blur.value; }
    if otherBlur.Some? { assert key[|other| + 1..] == otherBlur.value; }
  }

  /** With a newline it may not: a blurred picture and a file of that name share an entry. */
  lemma NewlinesCollide()
    ensures KeyOf("a\n2", None) == KeyOf("a", Some("2"))
  {
  }

  lemma NewlineBehind(path: string, blur: string, other: string, amount: string)
    requires path + "\n" + blur == other + "\n" + amount && |path| < |other|
    ensures !Clean(blur)
  {
    var key := path + "\n" + blur;
    assert key == other + "\n" + amount && key[|other|] == '\n';
    assert blur[|other| - |path| - 1] == key[|other|];
  }

  /** A newline in front of a text without one is the last. */
  lemma LastNewline(path: string, blur: string, other: string, amount: string)
    requires Clean(blur) && Clean(amount) && path + "\n" + blur == other + "\n" + amount
    ensures path == other && blur == amount
  {
    var key := path + "\n" + blur;
    assert |path| == |other| by {
      if |path| < |other| { NewlineBehind(path, blur, other, amount); }
      if |other| < |path| { NewlineBehind(other, amount, path, blur); }
    }
    assert path == key[..|path|] && other == key[..|other|];
    assert blur == key[|path| + 1..] && amount == key[|other| + 1..];
  }

  /** A blurred picture and a file whose name is its path, a newline and its blur. */
  predicate Confused(path: string, blur: Option<string>, other: string, amount: Option<string>) {
    blur.Some? && amount == None && other == path + "\n" + blur.value
  }

  /**
   The amount of a blur is printed without a newline; so keys meet for the same picture, or for
   such two, and for no others.
   */
  lemma KeysMeet(path: string, blur: Option<string>, other: string, amount: Option<string>)
    requires (blur.Some? ==> Clean(blur.value)) && (amount.Some? ==> Clean(amount.value))
    ensures KeyOf(path, blur) == KeyOf(other, amount) <==>
            (path == other && blur == amount) || Confused(path, blur, other, amount)
              || Confused(other, amount, path, blur)
  {
    if KeyOf(path, blur) == KeyOf(other, amount) && blur.Some? && amount.Some? {
      LastNewline(path, blur.value, other, amount.value);
    }
  }

  // What was drawn in a run so far.

  /** Drawing a node so may load this file with this blur. */
  predicate Shows(look: Look, file: string, amount: Option<string>) {
    (look.source == Some(file) || look.resolved == Some(file)) && (amount == None || amount == look.blur)
  }

  ghost predicate Named(events: seq<Event>, file: string, amount: Option<string>) {
    exists k :: 0 <= k < |events| && events[k].Draw? && Shows(events[k].look, file, amount)
  }

  ghost predicate JobsNamed(jobs: seq<Job>, events: seq<Event>) {
    forall job :: job in jobs ==> Named(events, job.path, job.blur)
  }

  ghost predicate TextureNamed(texture: Option<Picture>, events: seq<Event>) {
    texture.Some? && texture.value.FromFile? ==> Named(events, texture.value.path, texture.value.blur)
  }

  ghost predicate TexturesNamed(entries: seq<Entry>, events: seq<Event>) {
    forall e :: 0 <= e < |entries| ==> TextureNamed(entries[e].texture, events)
  }

  /** Every job, and every texture that came from a file, is of a file and blur that some node was drawn with. */
  ghost predicate FromDraws(s: State, events: seq<Event>) {
    JobsNamed(s.asked, events) && TexturesNamed(s.entries, events)
  }

  lemma StillNamed(events: seq<Event>, e: Event, file: string, amount: Option<string>)
    requires Named(events, file, amount)
    ensures Named(events + [e], file, amount)
  {
    hide Shows;
    var k :| 0 <= k < |events| && events[k].Draw? && Shows(events[k].look, file, amount);
    assert (events + [e])[k] == events[k];
  }

  lemma StillFromDraws(s: State, events: seq<Event>, e: Event)
    requires FromDraws(s, events)
    ensures FromDraws(s, events + [e])
  {
    hide Named;
    forall job | job in s.asked ensures Named(events + [e], job.path, job.blur) {
      StillNamed(events, e, job.path, job.blur);
    }
    forall k | 0 <= k < |s.entries| ensures TextureNamed(s.entries[k].texture, events + [e]) {
      var texture := s.entries[k].texture;
      if texture.Some? && texture.value.FromFile? { StillNamed(events, e, texture.value.path, texture.value.blur); }
    }
  }

  lemma PointTextures(s: State, n: nat, key: string, events: seq<Event>)
    requires Pointing(s) && n < |s.nodes| && TexturesNamed(s.entries, events)
    ensures var next := Point(s, n, key); TexturesNamed(next.entries, events) && next.asked == s.asked
  {
    hide Find, Oldest, Named;
  }

  lemma RefreshTextures(s: State, e: nat, path: string, blur: Option<string>, look: Look, events: seq<Event>)
    requires e < |s.entries| && TexturesNamed(s.entries, events)
    ensures var next := Refresh(s, e, path, blur, look);
            && TexturesNamed(next.entries, events)
            && forall job :: job in next.asked ==> job in s.asked || (job.path == path && job.blur == blur)
  {
    hide Named;
  }

  /** Drawing changes no texture that came from a file, and asks at most for the file and blur of the node. */
  lemma DrawTextures(s: State, n: nat, look: Look, events: seq<Event>)
    requires Pointing(s) && n < |s.nodes| && TexturesNamed(s.entries, events)
    ensures var next := NodeImage(s, n, look);
            && TexturesNamed(next.entries, events)
            && forall job :: job in next.asked ==> job in s.asked || Shows(look, job.path, job.blur)
  {
    hide KeyOf, Point, Refresh, Registered, Named;
    if look.source.Some? {
      var path, blur := Path(s, look), Blur(s, look);
      if path.Some? && (blur.Some? ==> look.fits) {
        var next := Point(s, n, KeyOf(path.value, blur));
        PointTextures(s, n, KeyOf(path.value, blur), events);
        if next.nodes[n].Some? { RefreshTextures(next, next.nodes[n].value, path.value, blur, look, events); }
      }
    }
  }

  lemma UploadTextures(s: State, readable: bool, events: seq<Event>)
    requires Pointing(s) && Conserved(s) && FromDraws(s, events)
    ensures FromDraws(Upload(s, readable), events)
  {
    hide Named;
    if s.decoded != [] {
      assert s.decoded[0] in Flight(s);
      assert s.decoded[0] in multiset(s.asked);
    }
  }

  lemma OtherTextures(s: State, e: Event, events: seq<Event>)
    requires Pointing(s) && FromDraws(s, events) && !e.Draw? && !e.Deliver?
    ensures FromDraws(Next(s, e), events)
  {
    hide Named, Find, Oldest, Matching, Others;
  }

  lemma NextFromDraws(s: State, e: Event, events: seq<Event>)
    requires Inv(s) && Pointing(s) && FromDraws(s, events)
    ensures FromDraws(Next(s, e), events + [e])
  {
    hide Inv, NodeImage, Upload, Named, Shows, FromDraws;
    StillFromDraws(s, events, e);
    match e
    case Draw(n, look) =>
      if n < |s.nodes| {
        assert TexturesNamed(s.entries, events + [e]) && JobsNamed(s.asked, events + [e]) by { Parts(s, events + [e]); }
        DrawTextures(s, n, look, events + [e]);
        Asks(NodeImage(s, n, look), s, n, look, events);
      }
    case Deliver(readable) => InvConserved(s); UploadTextures(s, readable, events + [e]);
    case _ => OtherTextures(s, e, events + [e]);
  }

  lemma Parts(s: State, events: seq<Event>)
    requires FromDraws(s, events)
    ensures TexturesNamed(s.entries, events) && JobsNamed(s.asked, events)
  {
  }

  lemma InvConserved(s: State)
    requires Inv(s)
    ensures Conserved(s)
  {
  }

  lemma Asks(next: State, s: State, n: nat, look: Look, events: seq<Event>)
    requires JobsNamed(s.asked, events + [Draw(n, look)]) && TexturesNamed(next.entries, events + [Draw(n, look)])
    requires forall job :: job in next.asked ==> job in s.asked || Shows(look, job.path, job.blur)
    ensures FromDraws(next, events + [Draw(n, look)])
  {
    hide Shows;
    var more := events + [Draw(n, look)];
    forall job | job in next.asked ensures Named(more, job.path, job.blur) {
      if job !in s.asked { assert more[|events|].look == look; }
    }
  }

  lemma {:induction false} RunFromDraws(size: nat, events: seq<Event>)
    ensures FromDraws(Run(size, events), events)
  {
    hide Inv, Next, FromDraws;
    if events == [] {
      NothingDrawn(size);
    } else {
      var rest, last := events[..|events| - 1], events[|events| - 1];
      var before := Run(size, rest);
      RunFromDraws(size, rest);
      InvPoints(before);
      NextFromDraws(before, last, rest);
      assert rest + [last] == events;
    }
  }

  lemma NothingDrawn(size: nat)
    ensures FromDraws(Initial(size), [])
  {
  }

  /** The node shows the very file and blur it looks up, or a surface handed over under its key. */
  predicate OwnPicture(s: State, n: nat, path: string, blur: Option<string>) {
    n < |s.nodes| && (s.nodes[n].Some? ==>
      var e := s.nodes[n].value;
      e < |s.entries| && match s.entries[e].texture
                         case None => true
                         case Some(FromFile(file, amount)) => file == path && amount == blur
                         case Some(FromSurface(surface)) => (KeyOf(path, blur), surface) in s.handed)
  }

  /** No other file and blur with the key of these was drawn before. */
  ghost predicate Apart(events: seq<Event>, path: string, blur: Option<string>) {
    forall file, amount :: Named(events, file, amount) && KeyOf(file, amount) == KeyOf(path, blur) ==>
      file == path && amount == blur
  }

  /**
   In every run, what a node is drawn with came from its own source, unless another one with its
   key was drawn before.
   */
  lemma DrawsItsSource(size: nat, events: seq<Event>, n: nat, look: Look)
    requires n < |Run(size, events).nodes| && look.source.Some?
    requires var s := Run(size, events); Path(s, look).Some? && (Blur(s, look).Some? ==> look.fits)
    requires var s := Run(size, events); Apart(events, Path(s, look).value, Blur(s, look))
    ensures var s := Run(size, events);
            Pointing(s) && OwnPicture(NodeImage(s, n, look), n, Path(s, look).value, Blur(s, look))
  {
    hide Run, Inv, NodeImage, KeyOf, Registered, Find, Named, Path, Blur;
    var s := Run(size, events);
    InvPoints(s);
    RunFromDraws(size, events);
    DrawTextures(s, n, look, events);
    DrawsItsKey(s, n, look);
  }

  predicate CleanLook(look: Look) {
    (look.source.Some? ==> Clean(look.source.value)) && (look.resolved.Some? ==> Clean(look.resolved.value))
  }

  /** On paths without a newline there is never another one with the key. */
  lemma CleanApart(events: seq<Event>, path: string, blur: Option<string>)
    requires Clean(path) && forall k :: 0 <= k < |events| && events[k].Draw? ==> CleanLook(events[k].look)
    ensures Apart(events, path, blur)
  {
    hide Clean, KeyOf;
    forall file, amount | Named(events, file, amount) && KeyOf(file, amount) == KeyOf(path, blur)
      ensures file == path && amount == blur
    {
      var k :| 0 <= k < |events| && events[k].Draw? && Shows(events[k].look, file, amount);
      KeyTells(file, amount, path, blur);
    }
  }

  // What drawing and delivering bring about.

  /** Room is refused only when the key has no entry and no entry is idle; a forgotten entry starts anew. */
  lemma EntryGiven(entries: seq<Entry>, key: string)
    ensures var (next, at) := ImageEntry(entries, key);
            && (at == None <==> (forall e :: 0 <= e < |entries| ==> entries[e].key != key && !Idle(entries[e])))
            && (forall e :: 0 <= e < |entries| && at != Some(e) ==> next[e] == entries[e])
            && (at.Some? ==> next[at.value] == entries[at.value] || next[at.value] == FreshEntry(key))
            && (at.Some? && (exists e :: 0 <= e < |entries| && entries[e].key == key) ==> next == entries)
  {
  }

  lemma ReleasedEntry(s: State, n: nat, e: nat)
    requires Pointing(s) && n < |s.nodes| && e < |s.entries|
    ensures var after := ReleaseImage(s, n).entries;
            && |after| == |s.entries| && after[e] == s.entries[e].(users := after[e].users)
            && after[e].users == s.entries[e].users - (if s.nodes[n] == Some(e) then 1 else 0)
  {
  }

  /** A node is left without an entry only if no entry has its key and none but its own was free to be taken. */
  lemma PointFails(s: State, n: nat, key: string)
    requires Pointing(s) && n < |s.nodes|
    ensures Point(s, n, key).nodes[n] == None ==> forall e :: 0 <= e < |s.entries| ==>
              s.entries[e].key != key
                && (s.entries[e].pending || s.entries[e].users - (if s.nodes[n] == Some(e) then 1 else 0) != 0)
  {
    hide Find, Oldest;
    var free := ReleaseImage(s, n);
    EntryGiven(free.entries, key);
    hide ImageEntry, ReleaseImage;
    if Point(s, n, key).nodes[n] == None {
      forall e | 0 <= e < |s.entries|
        ensures s.entries[e].key != key
        ensures s.entries[e].pending || s.entries[e].users - (if s.nodes[n] == Some(e) then 1 else 0) != 0
      {
        ReleasedEntry(s, n, e);
      }
    }
  }

  /** What a node's entry is like after it was drawn with a file of that time, and which job was asked for. */
  predicate UpToDate(was: Entry, entry: Entry, look: Look, mtime: int) {
    && entry.drawn == look.frame && entry.key == was.key && entry.named == was.named && entry.users == was.users
    && (if was.named then Shown(was, entry, look)
        else
          && (entry.loaded <==> was.loaded && was.mtime == mtime)
          && (entry.loaded || entry.pending) && (was.pending ==> entry.pending)
          && entry.texture == was.texture && entry.mtime == was.mtime)
  }

  /** A named surface is shown with the first load that is left for it, and kept until then. */
  predicate Shown(was: Entry, entry: Entry, look: Look) {
    if was.loaded || !look.load then entry.texture == was.texture && entry.surface == was.surface
      && entry.loaded == was.loaded
    else
      && entry.loaded && entry.surface == None
      && entry.texture == if was.surface.Some? then Some(FromSurface(was.surface.value)) else was.texture
  }

  /**
   Drawing looks at the file again: one that has changed is no longer loaded, and a job for it is
   asked for unless one is on its way.
   */
  lemma DrawnUpToDate(s: State, e: nat, path: string, blur: Option<string>, look: Look)
    requires e < |s.entries| && look.mtime.Some?
    ensures var next, was, mtime := Refresh(s, e, path, blur, look), s.entries[e], look.mtime.value;
            && UpToDate(was, next.entries[e], look, mtime)
            && (forall o :: 0 <= o < |s.entries| && o != e ==> next.entries[o] == s.entries[o])
            && next.asked == (if !was.named && !next.entries[e].loaded && !was.pending
                              then s.asked + [Job(|s.asked|, e, path, blur, mtime)] else s.asked)
            && next.requested == (if !was.named && !next.entries[e].loaded && !was.pending
                                  then [Job(|s.asked|, e, path, blur, mtime)] + s.requested else s.requested)
  {
  }

  /** A file that is missing is looked at in vain: nothing is asked for, and what was there stays. */
  lemma MissingKept(s: State, e: nat, path: string, blur: Option<string>, look: Look)
    requires e < |s.entries| && look.mtime == None && !s.entries[e].named
    ensures Refresh(s, e, path, blur, look) == s.(entries := s.entries[e := s.entries[e].(drawn := look.frame)])
  {
  }

  /**
   Whatever is drawn is as new as its file: a node's entry is loaded only with the file's time, and
   otherwise a job is on its way.
   */
  lemma DrawnIsFresh(s: State, n: nat, look: Look)
    requires Pointing(s) && n < |s.nodes| && look.source.Some? && look.mtime.Some?
    requires Path(s, look).Some? && (Blur(s, look).Some? ==> look.fits)
    ensures var next := NodeImage(s, n, look);
            && n < |next.nodes|
            && (next.nodes[n].Some? ==>
                 next.nodes[n].value < |next.entries| &&
                 var entry := next.entries[next.nodes[n].value];
                 && entry.drawn == look.frame
                 && (entry.named ==> look.load ==> entry.loaded)
                 && (!entry.named ==> if entry.loaded then entry.mtime == look.mtime.value else entry.pending))
  {
    hide KeyOf, Path, Blur, Point, Refresh;
    var path, blur := Path(s, look).value, Blur(s, look);
    var pointed := Point(s, n, KeyOf(path, blur));
    if pointed.nodes[n].Some? {
      var e := pointed.nodes[n].value;
      DrawnUpToDate(pointed, e, path, blur, look);
      RefreshSpares(pointed, e, path, blur, look);
    }
  }

  /**
   A decoded file is shown: its texture, time and key are those of the job, and a drawing at that
   time asks for nothing more.
   */
  lemma DeliveredIsShown(s: State, n: nat, look: Look)
    requires Pointing(s) && s.decoded != []
    requires var job := s.decoded[0]; look.mtime == Some(job.mtime) && !s.entries[job.image].named
    ensures var job, next := s.decoded[0], Upload(s, true);
            && Pointing(next) && job.image < |next.entries|
            && next.decoded == s.decoded[1..] && next.delivered == s.delivered + [job]
            && next.entries[job.image].texture == Some(FromFile(job.path, job.blur))
            && !next.entries[job.image].pending
            && Refresh(next, job.image, job.path, job.blur, look).entries[job.image].loaded
            && Refresh(next, job.image, job.path, job.blur, look).asked == next.asked
  {
  }

  /** A file that cannot be read leaves the texture, and is not asked for again before it changes. */
  lemma UnreadableIsLeft(s: State, look: Look)
    requires Pointing(s) && s.decoded != []
    requires var job := s.decoded[0]; look.mtime == Some(job.mtime) && !s.entries[job.image].named
    ensures var job, next := s.decoded[0], Upload(s, false);
            && job.image < |next.entries| && next.entries[job.image].texture == s.entries[job.image].texture
            && Refresh(next, job.image, job.path, job.blur, look).asked == next.asked
  {
  }

  /** Of the idle entries drawn longest ago the first is taken. */
  lemma {:induction false} OldestIsFirst(entries: seq<Entry>, n: nat)
    requires n <= |entries| && Oldest(entries, n).Some?
    ensures forall e :: 0 <= e < Oldest(entries, n).value && Idle(entries[e]) ==>
              entries[e].drawn > entries[Oldest(entries, n).value].drawn
  {
    if n > 0 && Oldest(entries, n - 1).Some? { OldestIsFirst(entries, n - 1); }
  }

  /** The name of a surface is looked up as it is, unblurred; anything else is resolved, and blurred if it is to be. */
  lemma NameComesFirst(s: State, n: nat, look: Look)
    requires Pointing(s) && n < |s.nodes| && look.source.Some?
    ensures Registered(s, look.source.value) ==>
              n < |NodeImage(s, n, look).wanted| && NodeImage(s, n, look).wanted[n] == look.source.value
    ensures !Registered(s, look.source.value) && look.resolved.Some? && (look.blur.Some? ==> look.fits) ==>
              n < |NodeImage(s, n, look).wanted|
              && NodeImage(s, n, look).wanted[n] ==
                 match look.blur case None => look.resolved.value case Some(blur) => look.resolved.value + "\n" + blur
    ensures !Registered(s, look.source.value) && look.resolved == None ==> NodeImage(s, n, look) == s
  {
    hide Point, Refresh, Registered;
    if Path(s, look).Some? {
      var path, blur := Path(s, look).value, Blur(s, look);
      var next := Point(s, n, KeyOf(path, blur));
      PointWants(s, n, KeyOf(path, blur));
      if next.nodes[n].Some? { RefreshSpares(next, next.nodes[n].value, path, blur, look); }
    }
  }

  /** A node that is freed, or loses its source, points nowhere and gives its use back. */
  lemma FreeGivesBack(s: State, n: nat, look: Look)
    requires Pointing(s) && n < |s.nodes| && look.source == None
    ensures var next := Next(s, Free(n));
            && next == Next(s, Draw(n, look)) && |next.nodes| == |s.nodes| && next.nodes[n] == None
            && (s.nodes[n].Some? ==> var e := s.nodes[n].value;
                 && |next.entries| == |s.entries| && next.entries[e].users == s.entries[e].users - 1
                 && (s.entries[e].users == 1 && !s.entries[e].pending ==> Idle(next.entries[e])))
  {
  }

  /** A frame delivers as many jobs as it may, and as there are. */
  lemma {:induction false} DeliversAll(s: State, loads: nat, readable: Job -> bool)
    requires Pointing(s)
    ensures var few := if loads < |s.decoded| then loads else |s.decoded|;
            UploadMany(s, loads, readable).delivered == s.delivered + s.decoded[..few]
    decreases loads
  {
    hide Pointing;
    if loads > 0 && s.decoded != [] {
      var next := Upload(s, readable(s.decoded[0]));
      assert next.delivered == s.delivered + [s.decoded[0]] && next.decoded == s.decoded[1..];
      DeliversAll(next, loads - 1, readable);
      var few := if loads < |s.decoded| then loads else |s.decoded|;
      assert s.decoded[..few] == [s.decoded[0]] + s.decoded[1..][..few - 1];
    }
  }

  /** A surface handed over is shown by the next drawing of its name that has a load left. */
  lemma HandedIsShown(s: State, name: string, surface: int, look: Look)
    requires Pointing(s) && look.load && ImageEntry(s.entries, name).1.Some?
    ensures var named, e := Next(s, Name(name, surface)), ImageEntry(s.entries, name).1.value;
            && |named.entries| == |s.entries| && named.entries[e].key == name && named.entries[e].named
            && named.entries[e].users != 0 && named.entries[e].surface == Some(surface)
            && var shown := Refresh(named, e, name, None, look);
               && |shown.entries| == |s.entries| && shown.entries[e].loaded
               && shown.entries[e].texture == Some(FromSurface(surface))
  {
    hide ImageEntry;
  }

  // Two pictures with one key: the second is shown as the first.

  lemma RunAdds(size: nat, events: seq<Event>, e: Event)
    ensures Pointing(Run(size, events)) && Run(size, events + [e]) == Next(Run(size, events), e)
  {
    hide Inv, Next;
    InvPoints(Run(size, events));
    assert (events + [e])[..|events|] == events;
  }

  /** What a node finds that shows this file with this blur. */
  function Plain(path: string, blur: Option<string>): Look {
    Look(Some(path), Some(path), blur, true, Some(0), true, 0)
  }

  /** One entry and two nodes. */
  function Table(entry: Entry, nodes: seq<Option<nat>>, wanted: seq<string>, jobs: seq<seq<Job>>): State
    requires |jobs| == 5
  {
    State([entry], nodes, jobs[0], jobs[1], jobs[2], wanted, jobs[3], jobs[4], [])
  }

  lemma FirstDraw(s: State, path: string, blur: Option<string>)
    requires s == Table(FreshEntry(""), [None, None], ["", ""], [[], [], [], [], []]) && KeyOf(path, blur) != ""
    ensures var job, key := Job(0, 0, path, blur, 0), KeyOf(path, blur);
            Next(s, Draw(0, Plain(path, blur))) ==
            Table(FreshEntry(key).(users := 1, pending := true), [Some(0), None], [key, ""], [[job], [], [], [job], []])
  {
    var entries, key := s.entries, KeyOf(path, blur);
    hide KeyOf;
    assert Find(entries[1..], path) == None && Find(entries, path) == if path == "" then Some(0) else None;
    assert Find(entries[1..], key) == None && Find(entries, key) == None;
    assert Oldest(entries, 0) == None && Oldest(entries, 1) == Some(0);
    assert entries[0 := FreshEntry(key)] == [FreshEntry(key)];
    assert ImageEntry(entries, key) == ([FreshEntry(key)], Some(0));
  }

  lemma Decodes(s: State, job: Job, entry: Entry)
    requires job.image == 0 && s == Table(entry, [Some(0), None], [entry.key, ""], [[job], [], [], [job], []])
    ensures var taken := Take(s);
            var finished := Finish(taken);
            && Pointing(finished)
            && Upload(finished, true) ==
               Table(entry.(texture := Some(FromFile(job.path, job.blur)), mtime := job.mtime,
                            loaded := true, pending := false),
                     [Some(0), None], [entry.key, ""], [[], [], [], [job], [job]])
  {
    assert [job][..0] == [];
    assert Matching([], job.path) == [] && Others([], job.path) == [];
    assert Matching([job], job.path) == [job] && Others([job], job.path) == [];
    assert [job][1..] == [];
  }

  lemma SecondDraw(s: State, entry: Entry, job: Job, path: string, blur: Option<string>)
    requires s == Table(entry, [Some(0), None], [entry.key, ""], [[], [], [], [job], [job]])
    requires entry.key == KeyOf(path, blur) && entry.loaded && !entry.named && entry.mtime == 0
    ensures var next := Next(s, Draw(1, Plain(path, blur)));
            next.nodes == [Some(0), Some(0)] && |next.entries| == 1 && next.entries[0].texture == entry.texture
  {
    hide KeyOf;
    assert Find(s.entries[1..], path) == None;
    assert Find(s.entries, path) == if entry.key == path then Some(0) else None;
    assert Find(s.entries, entry.key) == Some(0);
  }

  function Asked(path: string, blur: Option<string>): Job {
    Job(0, 0, path, blur, 0)
  }

  function Pending(path: string, blur: Option<string>): Entry {
    FreshEntry(KeyOf(path, blur)).(users := 1, pending := true)
  }

  function Loaded(path: string, blur: Option<string>): Entry {
    Pending(path, blur).(texture := Some(FromFile(path, blur)), mtime := 0, loaded := true, pending := false)
  }

  function Drawn(path: string, blur: Option<string>): seq<Event> {
    [Create] + [Create] + [Draw(0, Plain(path, blur))]
  }

  lemma DrawnRuns(path: string, blur: Option<string>)
    requires KeyOf(path, blur) != ""
    ensures var job := Asked(path, blur);
            Run(1, Drawn(path, blur)) ==
            Table(Pending(path, blur), [Some(0), None], [KeyOf(path, blur), ""], [[job], [], [], [job], []])
  {
    hide Run, Next, Inv, Table, Plain, KeyOf;
    TwoNodes();
    RunAdds(1, [Create] + [Create], Draw(0, Plain(path, blur)));
    FirstDraw(Run(1, [Create] + [Create]), path, blur);
  }

  function DrawnAndDelivered(path: string, blur: Option<string>): seq<Event> {
    Drawn(path, blur) + [TakeBatch] + [FinishBatch] + [Deliver(true)]
  }

  lemma DeliveredRuns(path: string, blur: Option<string>)
    requires KeyOf(path, blur) != ""
    ensures var job := Asked(path, blur);
            Run(1, DrawnAndDelivered(path, blur)) ==
            Table(Loaded(path, blur), [Some(0), None], [KeyOf(path, blur), ""], [[], [], [], [job], [job]])
  {
    hide Run, Take, Finish, Upload, Inv, Table, Pointing, Drawn, KeyOf;
    DrawnRuns(path, blur);
    Decoded(Drawn(path, blur));
    Decodes(Run(1, Drawn(path, blur)), Asked(path, blur), Pending(path, blur));
  }

  lemma SharedKey(path: string, blur: Option<string>, other: string, amount: Option<string>)
    requires KeyOf(path, blur) == KeyOf(other, amount) && (path != other || blur != amount)
    ensures KeyOf(other, amount) != ""
  {
  }

  /**
   For every two pictures with the same key there is a run in which a node that wants the first is
   shown the second.
   */
  lemma AnotherIsShown(path: string, blur: Option<string>, other: string, amount: Option<string>)
        returns (events: seq<Event>)
    requires KeyOf(path, blur) == KeyOf(other, amount) && (path != other || blur != amount)
    ensures events == DrawnAndDelivered(other, amount) + [Draw(1, Plain(path, blur))]
    ensures !OwnPicture(Run(1, events), 1, path, blur)
  {
    SharedKey(path, blur, other, amount);
    hide Run, Next, Inv, Table, Plain, DrawnAndDelivered, Pointing, KeyOf, Loaded, Asked, OwnPicture;
    var shown, draws := DrawnAndDelivered(other, amount), Draw(1, Plain(path, blur));
    LoadedEntry(other, amount);
    DeliveredRuns(other, amount);
    SecondDraw(Run(1, shown), Loaded(other, amount), Asked(other, amount), path, blur);
    RunAdds(1, shown, draws);
    NotItsOwn(Run(1, shown + [draws]), path, blur, other, amount);
    events := shown + [draws];
  }

  lemma LoadedEntry(path: string, blur: Option<string>)
    ensures var entry := Loaded(path, blur);
            && entry.key == KeyOf(path, blur) && entry.loaded && !entry.named && entry.mtime == 0
            && entry.texture == Some(FromFile(path, blur))
  {
  }

  lemma NotItsOwn(s: State, path: string, blur: Option<string>, other: string, amount: Option<string>)
    requires s.nodes == [Some(0), Some(0)] && |s.entries| == 1 && s.entries[0].texture == Some(FromFile(other, amount))
    requires path != other || blur != amount
    ensures !OwnPicture(s, 1, path, blur)
  {
  }

  lemma NoNodeYet()
    ensures Run(1, []) == Table(FreshEntry(""), [], [], [[], [], [], [], []])
  {
    hide Inv;
    assert seq(1, _ => FreshEntry("")) == [FreshEntry("")];
  }

  lemma Creates(size: nat, events: seq<Event>)
    ensures var s := Run(size, events);
            Run(size, events + [Create]) == s.(nodes := s.nodes + [None], wanted := s.wanted + [""])
  {
    hide Run, Inv, NodeImage, SceneImage, ReleaseImage, Upload, Take, Finish;
    RunAdds(size, events, Create);
  }

  lemma TwoNodes()
    ensures Run(1, [Create] + [Create]) == Table(FreshEntry(""), [None, None], ["", ""], [[], [], [], [], []])
  {
    hide Run, Inv, FreshEntry;
    NoNodeYet();
    Creates(1, []);
    assert [] + [Create] == [Create];
    Creates(1, [Create]);
  }

  lemma Decoded(events: seq<Event>)
    ensures var taken := Take(Run(1, events));
            && Pointing(Finish(taken))
            && Run(1, events + [TakeBatch] + [FinishBatch] + [Deliver(true)]) == Upload(Finish(taken), true)
  {
    hide Run, Take, Finish, Upload, Inv, Pointing, NodeImage, SceneImage, ReleaseImage;
    RunAdds(1, events, TakeBatch);
    RunAdds(1, events + [TakeBatch], FinishBatch);
    RunAdds(1, events + [TakeBatch] + [FinishBatch], Deliver(true));
  }
}
