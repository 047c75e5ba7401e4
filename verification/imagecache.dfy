/**
 The cache as the main thread and the decoder edit it. Every critical section is proved to
 take the state to where Images says it goes.
 */
module ImageCache {
  import opened Images
  import opened JobLists
  import opened Options

  class Cache {
    var entries: seq<Entry>
    var nodes: seq<Option<nat>>
    const lists: Lists
    var batch: Node?
    ghost var batched: seq<Node>
    ghost var wanted: seq<string>
    var asked: seq<Job>
    ghost var delivered: seq<Job>
    ghost var handed: seq<(string, int)>

    ghost function Model(): State
      reads this, lists
    {
      State(entries, nodes, JobsOf(lists.waiting), JobsOf(batched), JobsOf(lists.done), wanted, asked, delivered,
        handed)
    }

    ghost predicate Valid()
      reads this, lists, lists.waiting, lists.done, batched
    {
      && lists.Valid() && batch == Head(batched) && Chain(batched)
      && Distinct(lists.waiting + batched + lists.done)
      && Inv(Model())
    }

    constructor (size: nat)
      ensures Valid() && Model() == Initial(size) && fresh(lists)
    {
      entries := seq(size, _ => FreshEntry(""));
      nodes := [];
      lists := new Lists();
      batch, batched, wanted, asked, delivered, handed := null, [], [], [], [], [];
      new;
      FreshTable(size);
      assert JobsOf([]) == [];
    }

    method FindImage(key: string) returns (at: Option<nat>)
      ensures at == Find(entries, key)
    {
      var e := 0;
      while e < |entries|
        invariant 0 <= e <= |entries|
        invariant Find(entries, key) == match Find(entries[e..], key) case None => None case Some(k) => Some(e + k)
      {
        if entries[e].key == key { return Some(e); }
        assert entries[e..][1..] == entries[e + 1..];
        e := e + 1;
      }
      return None;
    }

    method LeastRecentlyDrawn() returns (oldest: Option<nat>)
      ensures oldest == Oldest(entries, |entries|)
    {
      oldest := None;
      var e := 0;
      while e < |entries|
        invariant 0 <= e <= |entries|
        invariant oldest == Oldest(entries, e)
      {
        if entries[e].users == 0 && !entries[e].pending
          && (oldest == None || entries[e].drawn < entries[oldest.value].drawn) {
          oldest := Some(e);
        }
        e := e + 1;
      }
    }

    method TakeEntry(key: string) returns (at: Option<nat>)
      modifies this`entries
      ensures (entries, at) == ImageEntry(old(entries), key)
    {
      hide Find, Oldest;
      at := FindImage(key);
      if at.Some? { return; }
      at := LeastRecentlyDrawn();
      if at == None { return; }
      entries := entries[at.value := FreshEntry(key)];
    }

    method Release(n: nat)
      requires n < |nodes| && (nodes[n].Some? ==> nodes[n].value < |entries|)
      modifies this`entries, this`nodes
      ensures Model() == ReleaseImage(old(Model()), n)
    {
      if nodes[n].Some? {
        var e := nodes[n].value;
        entries := entries[e := entries[e].(users := entries[e].users - 1)];
        nodes := nodes[n := None];
      }
    }

    method Point(n: nat, key: string)
      requires Pointing(Model()) && n < |nodes|
      modifies this`entries, this`nodes, this`wanted
      ensures Model() == Images.Point(old(Model()), n, key)
    {
      hide Find, Oldest, ImageEntry;
      if nodes[n].Some? && entries[nodes[n].value].key == key {
        wanted := wanted[n := key];
        return;
      }
      Release(n);
      ghost var free := Model();
      var at := TakeEntry(key);
      assert entries == ImageEntry(free.entries, key).0 && at == ImageEntry(free.entries, key).1;
      wanted := wanted[n := key];
      assert at == None ==> entries == free.entries by { NothingTaken(free.entries, key); }
      if at.Some? {
        nodes := nodes[n := at];
        entries := entries[at.value := entries[at.value].(users := entries[at.value].users + 1)];
      }
    }

    method RequestDecode(e: nat, path: string, blur: Option<string>, mtime: int)
      requires lists.Valid() && batch == Head(batched) && Chain(batched)
      requires Distinct(lists.waiting + batched + lists.done)
      requires e < |entries|
      modifies this`entries, this`asked, lists
      ensures lists.Valid() && batch == Head(batched) && Chain(batched)
      ensures Distinct(lists.waiting + batched + lists.done)
      ensures Model() == Images.RequestDecode(old(Model()), e, path, blur, mtime)
    {
      hide Distinct, Chain, JobsOf;
      ghost var others := batched + lists.done;
      assert lists.waiting + others == lists.waiting + batched + lists.done;
      entries := entries[e := entries[e].(pending := true)];
      var job := Job(|asked|, e, path, blur, mtime);
      asked := asked + [job];
      lists.Request(job);
      ghost var waiting := lists.waiting;
      NewFirst(waiting[0], waiting[1..], others);
      assert waiting + batched + lists.done == [waiting[0]] + waiting[1..] + others;
    }

    /** The entry of a node that is being drawn; a surface shown for the first time uses up a load of this frame. */
    method Refresh(e: nat, path: string, blur: Option<string>, look: Look) returns (used: bool)
      requires lists.Valid() && batch == Head(batched) && Chain(batched)
      requires Distinct(lists.waiting + batched + lists.done)
      requires e < |entries|
      modifies this`entries, this`asked, lists
      ensures lists.Valid() && batch == Head(batched) && Chain(batched)
      ensures Distinct(lists.waiting + batched + lists.done)
      ensures Model() == Images.Refresh(old(Model()), e, path, blur, look)
      ensures used == (old(entries[e].named && !entries[e].loaded) && look.load)
    {
      hide Distinct, Chain, JobsOf;
      used := false;
      entries := entries[e := entries[e].(drawn := look.frame)];
      if !entries[e].named && look.mtime == None { return; }
      if !entries[e].named && look.mtime.value != entries[e].mtime {
        entries := entries[e := entries[e].(loaded := false)];
      }
      if entries[e].loaded { return; }
      if !entries[e].named {
        if !entries[e].pending { RequestDecode(e, path, blur, look.mtime.value); }
        return;
      }
      if !look.load { return; }
      used := true;
      var shown :=
        match entries[e].surface
        case None => entries[e].texture
        case Some(surface) => Some(FromSurface(surface));
      entries := entries[e := entries[e].(loaded := true, texture := shown, surface := None)];
    }

    method NodeImage(n: nat, look: Look)
      requires Valid() && n < |nodes|
      modifies this, lists
      ensures Valid() && Pointing(old(Model())) && Model() == Images.NodeImage(old(Model()), n, look)
    {
      hide Inv, Distinct, Chain, JobsOf, Find, Oldest, ImageEntry, Images.Refresh, Images.Point, ReleaseImage, KeyOf;
      InvPoints(Model());
      DrawKeeps(Model(), n, look);
      if look.source == None {
        Release(n);
        return;
      }
      var named := FindImage(look.source.value);
      var registered := named.Some? && entries[named.value].named;
      var path := if registered then look.source else look.resolved;
      var blur := if registered then None else look.blur;
      if path == None || (blur.Some? && !look.fits) { return; }
      Point(n, KeyOf(path.value, blur));
      if nodes[n] == None { return; }
      var _ := Refresh(nodes[n].value, path.value, blur, look);
    }

    method SceneImage(name: string, surface: int)
      requires Valid()
      modifies this`entries, this`handed
      ensures Valid() && Model() == Images.SceneImage(old(Model()), name, surface)
    {
      hide Inv, Distinct, Chain, JobsOf, Find, Oldest, ImageEntry;
      NameKeeps(Model(), name, surface);
      ghost var before := entries;
      handed := handed + [(name, surface)];
      var at := TakeEntry(name);
      assert entries == ImageEntry(before, name).0 && at == ImageEntry(before, name).1;
      if at == None {
        NothingTaken(before, name);
        return;
      }
      var entry := entries[at.value];
      entries := entries[at.value := entry.(surface := Some(surface), named := true, loaded := false,
                                            users := if entry.users == 0 then 1 else entry.users)];
    }

    method CreateNode() returns (n: nat)
      requires Valid()
      modifies this`nodes, this`wanted
      ensures Valid() && n == |old(nodes)| && Model() == Next(old(Model()), Create)
    {
      hide Inv, Distinct, Chain, JobsOf;
      NextKeeps(Model(), Create);
      n := |nodes|;
      nodes := nodes + [None];
      wanted := wanted + [""];
    }

    method FreeNode(n: nat)
      requires Valid() && n < |nodes|
      modifies this`entries, this`nodes
      ensures Valid() && Model() == ReleaseImage(old(Model()), n)
    {
      hide Inv, Distinct, Chain, JobsOf, ReleaseImage;
      ReleaseKeeps(Model(), n);
      Release(n);
    }

    /** The decoder's first critical section. */
    method TakeBatch()
      requires Valid()
      modifies this`batch, this`batched, lists, lists.waiting
      ensures Valid() && Model() == Take(old(Model()))
    {
      hide Inv, Distinct, Chain, JobsOf, Matching, Others;
      TakeKeeps(Model());
      SameLength(lists.waiting);
      SameLength(batched);
      if lists.requested == null || batch != null { return; }
      FirstJob(lists.waiting);
      batch, batched := lists.TakePath(lists.requested.job.path);
    }

    /** The decoder's second critical section. */
    method FinishBatch()
      requires Valid()
      modifies this`batch, this`batched, lists, batched
      ensures Valid() && Model() == Finish(old(Model()))
    {
      hide Inv, Distinct, Chain, JobsOf;
      FinishKeeps(Model());
      SameLength(batched);
      JoinJobs(batched, lists.done);
      if batch == null { return; }
      ghost var order := lists.waiting + batched + lists.done;
      lists.GiveBack(batch, batched);
      batch, batched := null, [];
      NoNodes();
      SameLength([]);
      assert lists.waiting + [] + lists.done == order;
    }

    /**
     Delivers decoded jobs while loads are left in this frame, the decoder standing by; what
     it may do between two deliveries is in the single steps.
     */
    method UploadDecoded(loads: nat, readable: Job -> bool) returns (left: nat)
      requires Valid()
      modifies this`entries, this`delivered, lists
      ensures Valid() && left <= loads && Pointing(old(Model())) && Model() == UploadMany(old(Model()), loads, readable)
      ensures |delivered| == |old(delivered)| + loads - left && (left > 0 ==> lists.done == [])
    {
      hide Inv, Distinct, Chain, JobsOf, Upload;
      InvPoints(Model());
      left := loads;
      while left > 0
        invariant Valid() && Pointing(Model()) && left <= loads && |delivered| == |old(delivered)| + loads - left
        invariant UploadMany(Model(), left, readable) == UploadMany(old(Model()), loads, readable)
      {
        SameLength(lists.done);
        FirstJob(lists.done);
        var more := DeliverOne(readable);
        InvPoints(Model());
        if !more { return; }
        left := left - 1;
      }
    }

    method DeliverOne(readable: Job -> bool) returns (more: bool)
      requires Valid()
      modifies this`entries, this`delivered, lists
      ensures Valid() && Pointing(old(Model())) && more == (old(lists.done) != [])
      ensures Model() == Upload(old(Model()), more && readable(old(lists.done)[0].job))
      ensures |delivered| == |old(delivered)| + (if more then 1 else 0)
      ensures !more ==> lists.done == [] && Model() == old(Model())
    {
      hide Inv, Distinct, Chain, JobsOf;
      InvPoints(Model());
      SameLength(lists.done);
      FirstJob(lists.done);
      ghost var before, done := Model(), lists.done;
      assert done != [] ==> lists.waiting + batched + done == lists.waiting + batched + [done[0]] + done[1..];
      var next := lists.Deliver();
      if next == None { DeliverKeeps(before, false); return false; }
      var job := next.value;
      WithoutMiddle(lists.waiting + batched, [done[0]], done[1..]);
      DeliverKeeps(before, readable(job));
      var entry := entries[job.image];
      var texture := if readable(job) then Some(FromFile(job.path, job.blur)) else entry.texture;
      entries := entries[job.image := entry.(texture := texture, mtime := job.mtime, loaded := true, pending := false)];
      delivered := delivered + [job];
      return true;
    }
  }
}
